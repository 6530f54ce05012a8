/** The error boundary of components/ErrorBoundary.tsx: a two-field state
    set when a child throws and cleared by the retry button, and a render
    that picks the children, the caller's fallback or the built-in panel. */
module ErrorBoundaryModel {
  import opened Wrappers

  datatype Error = Error(message: string)

  /** The React nodes a caller can pass, enough to decide JavaScript
      truthiness: `null`, `undefined`, `false`, `""` and `0` are falsy. */
  datatype Node = Null | Undefined | Bool(b: bool) | Text(text: string) | Number(n: real) | Element(tag: string)

  predicate Truthy(n: Node)
  {
    match n
    case Null => false
    case Undefined => false
    case Bool(b) => b
    case Text(t) => t != ""
    case Number(x) => x != 0.0
    case Element(_) => true
  }

  /** `{ hasError, error? }`. */
  datatype BoundaryState = BoundaryState(hasError: bool, error: Option<Error>)

  /** What `render` returns: the children, the fallback node, or the
      "Something went wrong" panel with its "Try Again" button. */
  datatype Rendered = ChildrenTree(children: Node) | FallbackTree(fallback: Node) | DefaultPanel

  /** `getDerivedStateFromError`: the error is recorded and flagged. */
  function DerivedStateFromError(e: Error): (s: BoundaryState)
    ensures s.hasError && s.error == Some(e)
  {
    BoundaryState(true, Some(e))
  }

  /** `handleRetry`'s `setState({ hasError: false, error: undefined })`:
      both fields are replaced, so the old state does not matter. */
  function Retried(s: BoundaryState): (t: BoundaryState)
    ensures !t.hasError && t.error == None
  {
    BoundaryState(false, None)
  }

  /** `render`: the children without an error; with one, a truthy fallback
      or else the built-in panel. */
  function RenderOf(s: BoundaryState, children: Node, fallback: Node): Rendered
  {
    if s.hasError then
      if Truthy(fallback) then FallbackTree(fallback) else DefaultPanel
    else ChildrenTree(children)
  }

  /** Exactly one of the three branches is taken, and which one depends only
      on the error flag and the fallback's truthiness. */
  lemma RenderBranches(s: BoundaryState, children: Node, fallback: Node)
    ensures RenderOf(s, children, fallback) == ChildrenTree(children) <==> !s.hasError
    ensures RenderOf(s, children, fallback).FallbackTree? <==> s.hasError && Truthy(fallback)
    ensures RenderOf(s, children, fallback).DefaultPanel? <==> s.hasError && !Truthy(fallback)
  {
  }

  /** A falsy fallback, such as `0` or the empty text, is not rendered:
      the built-in panel replaces it. */
  lemma FalsyFallbackShowsPanel(e: Error, children: Node)
    ensures RenderOf(DerivedStateFromError(e), children, Number(0.0)) == DefaultPanel
    ensures RenderOf(DerivedStateFromError(e), children, Text("")) == DefaultPanel
    ensures RenderOf(DerivedStateFromError(e), children, Undefined) == DefaultPanel
  {
  }

  /** An error followed by a retry renders the children again, whatever the
      state before the error and whatever the fallback. */
  lemma ErrorThenRetryRendersChildren(s: BoundaryState, e: Error, children: Node, fallback: Node)
    ensures RenderOf(Retried(DerivedStateFromError(e)), children, fallback) == ChildrenTree(children)
    ensures RenderOf(DerivedStateFromError(e), children, fallback) != ChildrenTree(children)
  {
  }

  /** The component instance: its props and its current state. */
  class ErrorBoundary {
    const children: Node
    const fallback: Node
    var state: BoundaryState

    /** The constructor starts without an error. */
    constructor (children: Node, fallback: Node)
      ensures this.children == children && this.fallback == fallback
      ensures state == BoundaryState(false, None)
    {
      this.children := children;
      this.fallback := fallback;
      state := BoundaryState(false, None);
    }

    /** A descendant threw `e`: React replaces the state with the one
        `getDerivedStateFromError` derives. Logging in `componentDidCatch`
        is not modelled. */
    method Catch(e: Error)
      modifies this
      ensures state == DerivedStateFromError(e)
    {
      state := DerivedStateFromError(e);
    }

    /** The "Try Again" button. */
    method HandleRetry()
      modifies this
      ensures state == Retried(old(state))
    {
      state := Retried(state);
    }

    method Render() returns (out: Rendered)
      ensures out == RenderOf(state, children, fallback)
    {
      if state.hasError {
        if Truthy(fallback) {
          return FallbackTree(fallback);
        }
        return DefaultPanel;
      }
      return ChildrenTree(children);
    }
  }
}
