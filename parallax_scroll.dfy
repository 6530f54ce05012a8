/** The scroll and pointer engine of components/hero/hooks/useParallaxScroll.ts.
    The DOM is not modelled: the container's `scrollTop` and the window's
    `innerHeight` arrive as a `Viewport`, animation frames are explicit
    events with the identifiers `requestAnimationFrame` would have returned,
    and the CSS custom properties the hook writes are recorded as values. */
module ParallaxScroll {
  import opened Wrappers
  import opened RealOps

  // ----- Staggered layer travel -----

  /** The values written to `--l0-scroll` ... `--l5-scroll`. */
  datatype LayerOffsets = LayerOffsets(l0: real, l1: real, l2: real, l3: real, l4: real, l5: real)

  /** Each layer's travel for scroll position `scrollY` and window height `h`:
      the sky layer travels up to 3.5 screens, the three back layers up to
      1.5 screens from the top, and the two front layers travel 1.5 screens
      from 1.5 and from 2.5 screens on. */
  function LayerOffsetsAt(scrollY: real, h: real): (o: LayerOffsets)
    ensures o.l0 <= scrollY && o.l0 <= h * 3.5
    ensures o.l1 <= scrollY && o.l1 <= h * 1.5
    ensures o.l1 == o.l2 == o.l3
    ensures h >= 0.0 ==> 0.0 <= o.l4 <= h * 1.5 && 0.0 <= o.l5 <= h * 1.5
  {
    var l1 := Min(scrollY, h * 1.5);
    LayerOffsets(Min(scrollY, h * 3.5), l1, l1, l1,
                 Min(Max(scrollY - h * 1.5, 0.0), h * 1.5),
                 Min(Max(scrollY - h * 2.5, 0.0), h * 1.5))
  }

  /** Below its cap a layer follows the scroll position exactly and above it
      the layer stays at the cap. */
  lemma BackLayersFollowThenStop(scrollY: real, h: real)
    ensures scrollY <= h * 3.5 ==> LayerOffsetsAt(scrollY, h).l0 == scrollY
    ensures scrollY >= h * 3.5 ==> LayerOffsetsAt(scrollY, h).l0 == h * 3.5
    ensures scrollY <= h * 1.5 ==> LayerOffsetsAt(scrollY, h).l1 == scrollY
    ensures scrollY >= h * 1.5 ==> LayerOffsetsAt(scrollY, h).l1 == h * 1.5
  {
  }

  /** The fourth layer's window: still until 1.5 screens, then following the
      scroll, and capped from 3 screens on. */
  lemma FrontLayerWindow(scrollY: real, h: real)
    requires h >= 0.0
    ensures scrollY <= h * 1.5 ==> LayerOffsetsAt(scrollY, h).l4 == 0.0
    ensures h * 1.5 <= scrollY <= h * 3.0 ==> LayerOffsetsAt(scrollY, h).l4 == scrollY - h * 1.5
    ensures scrollY >= h * 3.0 ==> LayerOffsetsAt(scrollY, h).l4 == h * 1.5
  {
  }

  /** The fifth layer's window is the fourth one's, one screen later. */
  lemma LastLayerShifted(scrollY: real, h: real)
    ensures LayerOffsetsAt(scrollY, h).l5 == LayerOffsetsAt(scrollY - h, h).l4
  {
  }

  /** Scrolling further never moves a layer back. */
  lemma LayersMonotone(s1: real, s2: real, h: real)
    requires s1 <= s2
    ensures LayerOffsetsAt(s1, h).l0 <= LayerOffsetsAt(s2, h).l0
    ensures LayerOffsetsAt(s1, h).l1 <= LayerOffsetsAt(s2, h).l1
    ensures LayerOffsetsAt(s1, h).l4 <= LayerOffsetsAt(s2, h).l4
    ensures LayerOffsetsAt(s1, h).l5 <= LayerOffsetsAt(s2, h).l5
  {
  }

  // ----- Active navigation section -----

  /** A section's threshold in screen heights; `Infinity` is `Infinite`. */
  datatype Threshold = Finite(screens: real) | Infinite

  datatype NavSection = NavSection(id: string, offset: Threshold)

  /** `scrollY < h * offset`. With the `Infinity` threshold the product is
      `Infinity` for `h > 0` and `NaN` or `-Infinity` otherwise, so the test
      holds exactly when `h > 0`. */
  predicate Below(scrollY: real, h: real, t: Threshold)
  {
    match t
    case Finite(o) => scrollY < h * o
    case Infinite => h > 0.0
  }

  /** The id the scan settles on when it starts at index `i`. */
  function ActiveFrom(sections: seq<NavSection>, scrollY: real, h: real, i: nat): string
    decreases |sections| - i
  {
    if i >= |sections| then "home"
    else if Below(scrollY, h, sections[i].offset) then sections[i].id
    else ActiveFrom(sections, scrollY, h, i + 1)
  }

  /** The active section: the scan over the whole list. */
  function ActiveSection(sections: seq<NavSection>, scrollY: real, h: real): string
  {
    ActiveFrom(sections, scrollY, h, 0)
  }

  /** Index `k` is the first section whose threshold lies beyond `scrollY`. */
  ghost predicate FirstBelow(sections: seq<NavSection>, scrollY: real, h: real, k: int)
  {
    0 <= k < |sections| && Below(scrollY, h, sections[k].offset)
    && forall j :: 0 <= j < k ==> !Below(scrollY, h, sections[j].offset)
  }

  /** The `for ... break` scan: `newSection` starts at 'home' and takes the
      id of the first section whose threshold lies beyond `scrollY`. */
  method ScanActiveSection(sections: seq<NavSection>, scrollY: real, h: real) returns (section: string)
    ensures section == ActiveSection(sections, scrollY, h)
  {
    section := "home";
    var i := 0;
    while i < |sections|
      invariant 0 <= i <= |sections|
      invariant ActiveSection(sections, scrollY, h) == ActiveFrom(sections, scrollY, h, i)
    {
      if Below(scrollY, h, sections[i].offset) {
        section := sections[i].id;
        return;
      }
      i := i + 1;
    }
  }

  lemma {:induction false} ActiveFromFirst(sections: seq<NavSection>, scrollY: real, h: real, i: nat, k: int)
    requires i <= k && FirstBelow(sections, scrollY, h, k)
    ensures ActiveFrom(sections, scrollY, h, i) == sections[k].id
    decreases k - i
  {
    if i < k {
      ActiveFromFirst(sections, scrollY, h, i + 1, k);
    }
  }

  lemma {:induction false} ActiveFromNone(sections: seq<NavSection>, scrollY: real, h: real, i: nat)
    requires forall j :: 0 <= j < |sections| ==> !Below(scrollY, h, sections[j].offset)
    ensures ActiveFrom(sections, scrollY, h, i) == "home"
    decreases |sections| - i
  {
    if i < |sections| {
      ActiveFromNone(sections, scrollY, h, i + 1);
    }
  }

  /** The active section is the id of the first section with
      `scrollY < h * offset`, and 'home' when there is none. */
  lemma ActiveSectionSpec(sections: seq<NavSection>, scrollY: real, h: real)
    ensures forall k :: FirstBelow(sections, scrollY, h, k) ==> ActiveSection(sections, scrollY, h) == sections[k].id
    ensures (forall j :: 0 <= j < |sections| ==> !Below(scrollY, h, sections[j].offset))
            ==> ActiveSection(sections, scrollY, h) == "home"
  {
    forall k | FirstBelow(sections, scrollY, h, k)
      ensures ActiveSection(sections, scrollY, h) == sections[k].id
    {
      ActiveFromFirst(sections, scrollY, h, 0, k);
    }
    if forall j :: 0 <= j < |sections| ==> !Below(scrollY, h, sections[j].offset) {
      ActiveFromNone(sections, scrollY, h, 0);
    }
  }

  lemma {:induction false} FirstBelowFrom(sections: seq<NavSection>, scrollY: real, h: real, i: nat)
    requires i < |sections| && sections[|sections| - 1].offset == Infinite && h > 0.0
    requires forall j :: 0 <= j < i ==> !Below(scrollY, h, sections[j].offset)
    ensures exists k :: FirstBelow(sections, scrollY, h, k)
    decreases |sections| - i
  {
    if Below(scrollY, h, sections[i].offset) {
      assert FirstBelow(sections, scrollY, h, i);
    } else {
      FirstBelowFrom(sections, scrollY, h, i + 1);
    }
  }

  /** A list that ends with an `Infinity` threshold always has a matching
      section once the window has a height: the 'home' default is never the
      fall-through result. */
  lemma InfiniteLastAlwaysMatches(sections: seq<NavSection>, scrollY: real, h: real)
    requires |sections| > 0 && sections[|sections| - 1].offset == Infinite && h > 0.0
    ensures exists k :: FirstBelow(sections, scrollY, h, k)
  {
    FirstBelowFrom(sections, scrollY, h, 0);
  }

  /** The hook's default list. */
  const DefaultNav: seq<NavSection> :=
    [NavSection("home", Finite(0.8)), NavSection("about", Finite(2.0)),
     NavSection("work", Finite(3.4)), NavSection("contact", Infinite)]

  /** The list the portfolio page passes to the hook. */
  const PageNav: seq<NavSection> :=
    [NavSection("home", Finite(0.8)), NavSection("about", Finite(1.8)),
     NavSection("work", Finite(2.8)), NavSection("contact", Infinite)]

  /** The sections of the page, screen by screen, with 'contact' from 2.8
      screens on. */
  lemma PageSections(scrollY: real, h: real)
    requires h > 0.0
    ensures scrollY < h * 0.8 ==> ActiveSection(PageNav, scrollY, h) == "home"
    ensures h * 0.8 <= scrollY < h * 1.8 ==> ActiveSection(PageNav, scrollY, h) == "about"
    ensures h * 1.8 <= scrollY < h * 2.8 ==> ActiveSection(PageNav, scrollY, h) == "work"
    ensures h * 2.8 <= scrollY ==> ActiveSection(PageNav, scrollY, h) == "contact"
  {
  }

  /** The hook's default sections, with 'contact' from 3.4 screens on. */
  lemma DefaultSections(scrollY: real, h: real)
    requires h > 0.0
    ensures scrollY < h * 0.8 ==> ActiveSection(DefaultNav, scrollY, h) == "home"
    ensures h * 0.8 <= scrollY < h * 2.0 ==> ActiveSection(DefaultNav, scrollY, h) == "about"
    ensures h * 2.0 <= scrollY < h * 3.4 ==> ActiveSection(DefaultNav, scrollY, h) == "work"
    ensures h * 3.4 <= scrollY ==> ActiveSection(DefaultNav, scrollY, h) == "contact"
  {
  }

  /** The two lists disagree: between 1.8 and 2 screens the page reports
      'work' where the default list would still report 'about'. */
  lemma NavListsDiffer(h: real)
    requires h > 0.0
    ensures ActiveSection(PageNav, h * 1.9, h) == "work"
    ensures ActiveSection(DefaultNav, h * 1.9, h) == "about"
  {
  }

  /** With no window height nothing is below any threshold, the `Infinity`
      one included, and the scan falls through to 'home'. */
  lemma ZeroHeightIsHome(sections: seq<NavSection>, scrollY: real)
    requires scrollY >= 0.0
    ensures ActiveSection(sections, scrollY, 0.0) == "home"
  {
    forall j | 0 <= j < |sections|
      ensures !Below(scrollY, 0.0, sections[j].offset)
    {
    }
    ActiveFromNone(sections, scrollY, 0.0, 0);
  }

  // ----- The scroll hook's state -----

  /** The scroll position and window height a frame reads. */
  datatype Viewport = Viewport(scrollY: real, height: real)

  /** One batch of CSS custom properties: `--scroll-y`, `--window-height`
      and `--l0-scroll` ... `--l5-scroll`. */
  datatype Written = Written(scrollY: real, windowHeight: real, layers: LayerOffsets)

  /** A React state update the hook issues. */
  datatype StateUpdate = SetActiveSection(section: string) | SetShowScrollTop(show: bool)

  /** `useParallaxScroll`: its refs, its two state values, the last batch of
      properties written and whether the scroll listener is attached.
      `pending` holds the animation frames requested and not yet run or
      cancelled; `nextId` is the identifier the next request returns
      (browsers hand out positive, increasing identifiers). */
  class ScrollHook {
    const sections: seq<NavSection>
    var isScrolling: bool
    var rafId: Option<nat>
    var lastScrollY: real
    var activeSection: string
    var showScrollTop: bool
    var written: Option<Written>
    var updates: seq<StateUpdate>
    var listening: bool
    var pending: set<nat>
    var nextId: nat

    /** Every pending frame is the one `rafIdRef` names, since each request
        first cancels the previous one; identifiers are positive, so the ref
        is truthy exactly when it holds one. */
    ghost predicate Valid()
      reads this
    {
      nextId >= 1
      && (rafId.None? ==> pending == {})
      && (rafId.Some? ==> 1 <= rafId.value < nextId && pending <= {rafId.value})
    }

    constructor (sections: seq<NavSection>)
      ensures Valid()
      ensures this.sections == sections
      ensures !isScrolling && rafId == None && lastScrollY == 0.0
      ensures activeSection == "home" && !showScrollTop
      ensures written == None && updates == [] && !listening && pending == {}
    {
      this.sections := sections;
      isScrolling := false;
      rafId := None;
      lastScrollY := 0.0;
      activeSection := "home";
      showScrollTop := false;
      written := None;
      updates := [];
      listening := false;
      pending := {};
      nextId := 1;
    }

    /** What one run of `updateParallaxLayers` does to the hook's state.
        `None` is a missing container or root, where the callback returns at
        once and changes nothing, `isScrolling` included. Otherwise it writes
        the batch of properties, issues a state update exactly for each value
        that differs from the current one, records the scroll position and
        clears `isScrolling`. */
    twostate predicate UpdatedBy(view: Option<Viewport>)
      reads this
    {
      && (view.None? ==>
            isScrolling == old(isScrolling) && written == old(written)
            && lastScrollY == old(lastScrollY) && activeSection == old(activeSection)
            && showScrollTop == old(showScrollTop) && updates == old(updates))
      && (view.Some? ==>
            var s, h := view.value.scrollY, view.value.height;
            var section := ActiveSection(sections, s, h);
            var show := s > h * 0.5;
            && written == Some(Written(s, h, LayerOffsetsAt(s, h)))
            && activeSection == section
            && showScrollTop == show
            && updates == old(updates)
                          + (if section != old(activeSection) then [SetActiveSection(section)] else [])
                          + (if show != old(showScrollTop) then [SetShowScrollTop(show)] else [])
            && lastScrollY == s
            && !isScrolling)
    }

    /** `updateParallaxLayers`, which touches neither the frame bookkeeping
        nor the listener. */
    method UpdateLayers(view: Option<Viewport>)
      requires Valid()
      modifies this
      ensures Valid()
      ensures UpdatedBy(view)
      ensures rafId == old(rafId) && pending == old(pending) && nextId == old(nextId)
      ensures listening == old(listening)
    {
      if view.None? {
        return;
      }
      var s, h := view.value.scrollY, view.value.height;
      written := Some(Written(s, h, LayerOffsetsAt(s, h)));
      var section := ScanActiveSection(sections, s, h);
      if section != activeSection {
        updates := updates + [SetActiveSection(section)];
        activeSection := section;
      }
      var show := s > h * 0.5;
      if show != showScrollTop {
        updates := updates + [SetShowScrollTop(show)];
        showScrollTop := show;
      }
      lastScrollY := s;
      isScrolling := false;
    }

    /** A scroll event on the container. It reaches `handleScroll` only while
        the listener is attached; there, while a frame is on its way nothing
        happens, and otherwise it raises `isScrolling`, cancels the frame the
        ref names and requests a new one. */
    method Scroll()
      requires Valid()
      modifies this
      ensures Valid()
      ensures !(listening && !old(isScrolling)) ==>
                isScrolling == old(isScrolling) && pending == old(pending)
                && rafId == old(rafId) && nextId == old(nextId)
      ensures listening && !old(isScrolling) ==>
                isScrolling && pending == {old(nextId)} && rafId == Some(old(nextId))
                && nextId == old(nextId) + 1
      ensures written == old(written) && lastScrollY == old(lastScrollY) && updates == old(updates)
      ensures activeSection == old(activeSection) && showScrollTop == old(showScrollTop)
      ensures listening == old(listening)
    {
      if listening && !isScrolling {
        isScrolling := true;
        if rafId.Some? {
          pending := pending - {rafId.value};
        }
        rafId := Some(nextId);
        pending := pending + {nextId};
        nextId := nextId + 1;
      }
    }

    /** The browser runs requested frame `id`, which calls
        `updateParallaxLayers`. The ref keeps the spent identifier. */
    method Frame(id: nat, view: Option<Viewport>)
      requires Valid() && id in pending
      modifies this
      ensures Valid()
      ensures pending == old(pending) - {id} && pending == {}
      ensures UpdatedBy(view)
      ensures rafId == old(rafId) && nextId == old(nextId) && listening == old(listening)
    {
      pending := pending - {id};
      UpdateLayers(view);
    }

    /** The mount effect. Without a container it returns at once; otherwise
        it runs one direct update (which itself reads `None` when the root is
        missing) and attaches the listener. */
    method Mount(containerPresent: bool, view: Option<Viewport>)
      requires Valid()
      modifies this
      ensures Valid()
      ensures !containerPresent ==>
                isScrolling == old(isScrolling) && written == old(written)
                && lastScrollY == old(lastScrollY) && activeSection == old(activeSection)
                && showScrollTop == old(showScrollTop) && updates == old(updates)
                && listening == old(listening)
      ensures containerPresent ==> UpdatedBy(view) && listening
      ensures rafId == old(rafId) && pending == old(pending) && nextId == old(nextId)
    {
      if containerPresent {
        UpdateLayers(view);
        listening := true;
      }
    }

    /** The effect's cleanup, present once the effect attached the listener:
        the listener is removed and the frame the ref names is cancelled. The
        ref itself keeps its value, and no state or property changes. */
    method Unmount()
      requires Valid()
      modifies this
      ensures Valid()
      ensures old(listening) ==> pending == {} && !listening
      ensures !old(listening) ==> pending == old(pending) && !listening
      ensures rafId == old(rafId) && isScrolling == old(isScrolling) && nextId == old(nextId)
      ensures written == old(written) && updates == old(updates)
      ensures activeSection == old(activeSection) && showScrollTop == old(showScrollTop)
      ensures lastScrollY == old(lastScrollY)
    {
      if listening {
        listening := false;
        if rafId.Some? {
          pending := pending - {rafId.value};
        }
      }
    }
  }

  /** On the page's list, mounting at the top of a 1000-pixel window and
      then scrolling to 1900 pixels: the frame reports the 'work' section,
      shows the scroll-to-top button and has issued exactly those two state
      updates, and the throttle is released. */
  method PageScrollScenario() returns (section: string, showTop: bool, log: seq<StateUpdate>, scrolling: bool)
    ensures section == "work" && showTop && !scrolling
    ensures log == [SetActiveSection("work"), SetShowScrollTop(true)]
  {
    var hook := new ScrollHook(PageNav);
    PageSections(0.0, 1000.0);
    hook.Mount(true, Some(Viewport(0.0, 1000.0)));
    hook.Scroll();
    PageSections(1900.0, 1000.0);
    hook.Frame(hook.rafId.value, Some(Viewport(1900.0, 1000.0)));
    section, showTop, log, scrolling := hook.activeSection, hook.showScrollTop, hook.updates, hook.isScrolling;
  }

  /** At most one frame is ever pending. */
  lemma AtMostOnePending(hook: ScrollHook)
    requires hook.Valid()
    ensures |hook.pending| <= 1
  {
    if hook.rafId.Some? {
      var only := {hook.rafId.value};
      assert hook.pending <= only;
      if hook.pending != {} {
        var id :| id in hook.pending;
        assert hook.pending == only;
      }
    }
  }

  // ----- The pointer hook -----

  /** The `--mouse-x` / `--mouse-y` pair, also the `lastMouseRef` value. */
  datatype MouseOffset = MouseOffset(x: real, y: real)

  /** The pointer position an event carries. */
  datatype Pointer = Pointer(clientX: real, clientY: real)

  /** `(clientX / innerWidth - 0.5) * 20` and `(clientY / innerHeight - 0.5) * 10`:
      a pointer inside the window gives x in [-10, 10] and y in [-5, 5]. */
  function OffsetOf(e: Pointer, width: real, height: real): (o: MouseOffset)
    requires width > 0.0 && height > 0.0
    ensures 0.0 <= e.clientX <= width ==> -10.0 <= o.x <= 10.0
    ensures 0.0 <= e.clientY <= height ==> -5.0 <= o.y <= 5.0
  {
    UnitRatio(e.clientX, width);
    UnitRatio(e.clientY, height);
    MouseOffset((e.clientX / width - 0.5) * 20.0, (e.clientY / height - 0.5) * 10.0)
  }

  lemma UnitRatio(a: real, b: real)
    requires b > 0.0
    ensures 0.0 <= a <= b ==> 0.0 <= a / b <= 1.0
  {
    if 0.0 <= a <= b {
      assert a / b * b == a;
    }
  }

  /** The change gate: a write happens only when one coordinate moved by more
      than 0.1. */
  predicate Moved(last: MouseOffset, o: MouseOffset)
  {
    Abs(o.x - last.x) > 0.1 || Abs(o.y - last.y) > 0.1
  }

  /** `useMouseParallax`: the pending frame's ref, the event that frame will
      read, the last position written and what was written. */
  class MouseHook {
    var rafId: Option<nat>
    var queued: Option<Pointer>
    var lastMouse: MouseOffset
    var written: Option<MouseOffset>
    var nextId: nat

    /** A queued event always belongs to the frame the ref names. */
    ghost predicate Valid()
      reads this
    {
      nextId >= 1
      && (queued.Some? ==> rafId.Some?)
      && (rafId.Some? ==> 1 <= rafId.value < nextId)
    }

    constructor ()
      ensures Valid()
      ensures rafId == None && queued == None && lastMouse == MouseOffset(0.0, 0.0) && written == None
    {
      rafId := None;
      queued := None;
      lastMouse := MouseOffset(0.0, 0.0);
      written := None;
      nextId := 1;
    }

    /** `handleMouseMove`: ignored without a root element or while a frame
        is pending; otherwise a frame is requested that will read `e`. */
    method MouseMove(e: Pointer, rootPresent: bool)
      requires Valid()
      modifies this
      ensures Valid()
      ensures !rootPresent || old(rafId).Some? ==>
                rafId == old(rafId) && queued == old(queued) && nextId == old(nextId)
      ensures rootPresent && old(rafId).None? ==>
                rafId == Some(old(nextId)) && queued == Some(e) && nextId == old(nextId) + 1
      ensures lastMouse == old(lastMouse) && written == old(written)
    {
      if !rootPresent {
        return;
      }
      if rafId.Some? {
        return;
      }
      rafId := Some(nextId);
      queued := Some(e);
      nextId := nextId + 1;
    }

    /** The requested frame runs: it computes the offset from the queued
        event, writes it only when it moved past the gate, and clears the
        ref so that the next event can request a frame again. */
    method Frame(width: real, height: real)
      requires Valid() && queued.Some?
      requires width > 0.0 && height > 0.0
      modifies this
      ensures Valid()
      ensures var o := OffsetOf(old(queued).value, width, height);
              if Moved(old(lastMouse), o) then lastMouse == o && written == Some(o)
              else lastMouse == old(lastMouse) && written == old(written)
      ensures rafId == None && queued == None && nextId == old(nextId)
    {
      var o := OffsetOf(queued.value, width, height);
      if Abs(o.x - lastMouse.x) > 0.1 || Abs(o.y - lastMouse.y) > 0.1 {
        written := Some(o);
        lastMouse := o;
      }
      rafId := None;
      queued := None;
    }

    /** The unmount cleanup cancels the pending frame; the ref keeps its
        value, so later events are ignored. */
    method Unmount()
      requires Valid()
      modifies this
      ensures Valid()
      ensures queued == None && rafId == old(rafId)
      ensures lastMouse == old(lastMouse) && written == old(written)
    {
      if rafId.Some? {
        queued := None;
      }
    }
  }
}
