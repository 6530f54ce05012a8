/** The procedural conifer of components/hero/utils/generateTree.ts. The
    source returns an SVG path text; here the outline is the sequence of its
    vertices, in drawing order, and the closing `Z` is the implicit edge from
    the last vertex back to the first. */
module GenerateTree {
  import opened SeededRandom

  datatype Point = Point(x: real, y: real)

  /** A tree's placement as the forest passes it in: left edge `x`, ground
      line `baseY`, height `h`, width `w` and seed. */
  datatype Tree = Tree(x: real, baseY: real, h: real, w: real, seed: real)

  /** The tree's own generator `r(n) = seededRandom(seed + n)`. */
  function TreeRandom(sin: Sine, t: Tree): (r: Generator)
    ensures forall n :: r(n) == Random(sin, t.seed + n)
    ensures UnitRange(r)
  {
    CreateSeededRandom(sin, t.seed)
  }

  /** The number of branch layers, `4 + floor(r(1) * 2)`: four or five
      when `r(1)` lies in [0, 1). */
  function Layers(r: Generator): (n: int)
    ensures 0.0 <= r(1.0) < 1.0 ==> n == 4 || n == 5
  {
    4 + (r(1.0) * 2.0).Floor
  }

  /** A positive number of layers, the divisor of `progress`. */
  type LayerCount = n: int | n > 0 witness 1

  /** Vertical centre line of the tree, `x + w * 0.5`. */
  function Centre(t: Tree): real { t.x + t.w * 0.5 }

  function Progress(layers: LayerCount, i: int): real
  {
    (i + 1) as real / layers as real
  }

  function LayerWidth(r: Generator, t: Tree, layers: LayerCount, i: int): real
  {
    t.w * (0.3 + Progress(layers, i) * 0.7) * (0.9 + r((i * 2) as real) * 0.2)
  }

  function YPos(t: Tree, layers: LayerCount, i: int): real
  {
    t.baseY - t.h * (1.0 - Progress(layers, i) * 0.85)
  }

  function Inset(r: Generator, t: Tree, layers: LayerCount, i: int): real
  {
    LayerWidth(r, t, layers, i) * (0.15 + r((i * 3) as real) * 0.1)
  }

  function Apex(t: Tree): Point { Point(Centre(t), t.baseY - t.h) }

  function Trunk(t: Tree): Point { Point(Centre(t), t.baseY) }

  /** Right-hand branch tip of layer `i`. */
  function Outer(r: Generator, t: Tree, layers: LayerCount, i: int): Point
  {
    Point(Centre(t) + LayerWidth(r, t, layers, i) * 0.5, YPos(t, layers, i))
  }

  /** Right-hand notch under the tip of layer `i`. */
  function Notch(r: Generator, t: Tree, layers: LayerCount, i: int): Point
  {
    Point(Centre(t) + Inset(r, t, layers, i), YPos(t, layers, i) + t.h * 0.05)
  }

  /** Left-hand notch of layer `i`, as the descending loop computes it. */
  function LeftNotch(r: Generator, t: Tree, layers: LayerCount, i: int): Point
  {
    Point(Centre(t) - Inset(r, t, layers, i), YPos(t, layers, i) + t.h * 0.05)
  }

  /** Left-hand branch tip of layer `i`, as the descending loop computes it. */
  function LeftOuter(r: Generator, t: Tree, layers: LayerCount, i: int): Point
  {
    Point(Centre(t) - LayerWidth(r, t, layers, i) * 0.5, YPos(t, layers, i))
  }

  /** The right side for layers `lo`, ..., `hi - 1`, top to bottom. */
  function RightSide(r: Generator, t: Tree, layers: LayerCount, lo: int, hi: int): seq<Point>
    decreases hi - lo
  {
    if lo >= hi then []
    else [Outer(r, t, layers, lo), Notch(r, t, layers, lo)] + RightSide(r, t, layers, lo + 1, hi)
  }

  /** The left side for layers `hi - 1` down to `lo`, bottom to top. */
  function LeftSide(r: Generator, t: Tree, layers: LayerCount, lo: int, hi: int): seq<Point>
    decreases hi - lo
  {
    if lo >= hi then []
    else LeftSide(r, t, layers, lo + 1, hi) + [LeftNotch(r, t, layers, lo), LeftOuter(r, t, layers, lo)]
  }

  /** The whole outline: apex, right side, trunk foot, left side. */
  function Outline(r: Generator, t: Tree): seq<Point>
    requires UnitRange(r)
  {
    var n := Layers(r);
    [Apex(t)] + RightSide(r, t, n, 0, n) + [Trunk(t)] + LeftSide(r, t, n, 0, n)
  }

  lemma {:induction false} RightSideSnoc(r: Generator, t: Tree, layers: LayerCount, lo: int, hi: int)
    requires lo <= hi
    ensures RightSide(r, t, layers, lo, hi + 1)
         == RightSide(r, t, layers, lo, hi) + [Outer(r, t, layers, hi), Notch(r, t, layers, hi)]
    decreases hi - lo
  {
    if lo < hi {
      RightSideSnoc(r, t, layers, lo + 1, hi);
    }
  }

  /** `generateTree(x, baseY, height, width, seed)`: the ascending loop emits
      each layer's tip and notch on the right, then the trunk foot, then the
      descending loop emits each layer's notch and tip on the left. */
  method Generate(r: Generator, t: Tree) returns (path: seq<Point>)
    requires UnitRange(r)
    ensures path == Outline(r, t)
  {
    var layers := Layers(r);
    path := [Apex(t)];
    var i: int := 0;
    while i < layers
      invariant 0 <= i <= layers
      invariant path == [Apex(t)] + RightSide(r, t, layers, 0, i)
    {
      RightStep(r, t, layers, i);
      path := path + [Outer(r, t, layers, i), Notch(r, t, layers, i)];
      i := i + 1;
    }
    path := path + [Trunk(t)];
    ghost var front := path;
    i := layers - 1;
    while i >= 0
      invariant -1 <= i < layers
      invariant path == front + LeftSide(r, t, layers, i + 1, layers)
    {
      LeftStep(r, t, layers, i, front);
      path := path + [LeftNotch(r, t, layers, i), LeftOuter(r, t, layers, i)];
      i := i - 1;
    }
  }

  /** One pass of the ascending loop extends the right side by layer `i`. */
  lemma RightStep(r: Generator, t: Tree, layers: LayerCount, i: int)
    requires 0 <= i < layers
    ensures [Apex(t)] + RightSide(r, t, layers, 0, i) + [Outer(r, t, layers, i), Notch(r, t, layers, i)]
         == [Apex(t)] + RightSide(r, t, layers, 0, i + 1)
  {
    RightSideSnoc(r, t, layers, 0, i);
    Assoc([Apex(t)], RightSide(r, t, layers, 0, i), [Outer(r, t, layers, i), Notch(r, t, layers, i)]);
  }

  /** One pass of the descending loop extends the left side by layer `i`. */
  lemma LeftStep(r: Generator, t: Tree, layers: LayerCount, i: int, front: seq<Point>)
    requires 0 <= i < layers
    ensures front + LeftSide(r, t, layers, i + 1, layers) + [LeftNotch(r, t, layers, i), LeftOuter(r, t, layers, i)]
         == front + LeftSide(r, t, layers, i, layers)
  {
    Assoc(front, LeftSide(r, t, layers, i + 1, layers), [LeftNotch(r, t, layers, i), LeftOuter(r, t, layers, i)]);
  }

  lemma Assoc(a: seq<Point>, b: seq<Point>, c: seq<Point>)
    ensures (a + b) + c == a + (b + c)
  {
  }

  // ----- Structure of the outline -----

  lemma {:induction false} RightSideLength(r: Generator, t: Tree, layers: LayerCount, lo: int, hi: int)
    requires lo <= hi
    ensures |RightSide(r, t, layers, lo, hi)| == 2 * (hi - lo)
    decreases hi - lo
  {
    if lo < hi {
      RightSideLength(r, t, layers, lo + 1, hi);
    }
  }

  lemma {:induction false} LeftSideLength(r: Generator, t: Tree, layers: LayerCount, lo: int, hi: int)
    requires lo <= hi
    ensures |LeftSide(r, t, layers, lo, hi)| == 2 * (hi - lo)
    decreases hi - lo
  {
    if lo < hi {
      LeftSideLength(r, t, layers, lo + 1, hi);
    }
  }

  /** The outline has `4 * layers + 2` vertices, starts at the apex and has
      the trunk foot exactly between the two sides. */
  lemma OutlineShape(r: Generator, t: Tree)
    requires UnitRange(r)
    ensures |Outline(r, t)| == 4 * Layers(r) + 2
    ensures Outline(r, t)[0] == Point(t.x + t.w / 2.0, t.baseY - t.h)
    ensures Outline(r, t)[2 * Layers(r) + 1] == Point(t.x + t.w / 2.0, t.baseY)
  {
    var n := Layers(r);
    RightSideLength(r, t, n, 0, n);
    LeftSideLength(r, t, n, 0, n);
  }

  /** Reflection about the vertical line through the tree's centre. */
  function Reflect(t: Tree, p: Point): Point
  {
    Point(2.0 * Centre(t) - p.x, p.y)
  }

  lemma ReflectRight(r: Generator, t: Tree, layers: LayerCount, i: int)
    ensures Reflect(t, Outer(r, t, layers, i)) == LeftOuter(r, t, layers, i)
    ensures Reflect(t, Notch(r, t, layers, i)) == LeftNotch(r, t, layers, i)
  {
    var c, lw, inset := Centre(t), LayerWidth(r, t, layers, i), Inset(r, t, layers, i);
    assert 2.0 * c - (c + lw * 0.5) == c - lw * 0.5;
    assert 2.0 * c - (c + inset) == c - inset;
  }

  /** Vertex `k` of the left side mirrors vertex `2 * (hi - lo) - 1 - k` of
      the right side. */
  lemma {:induction false} SidesMirror(r: Generator, t: Tree, layers: LayerCount, lo: int, hi: int, k: int)
    requires lo <= hi && 0 <= k < 2 * (hi - lo)
    ensures |LeftSide(r, t, layers, lo, hi)| == |RightSide(r, t, layers, lo, hi)| == 2 * (hi - lo)
    ensures LeftSide(r, t, layers, lo, hi)[k]
         == Reflect(t, RightSide(r, t, layers, lo, hi)[2 * (hi - lo) - 1 - k])
    decreases hi - lo
  {
    RightSideLength(r, t, layers, lo, hi);
    LeftSideLength(r, t, layers, lo, hi);
    RightSideLength(r, t, layers, lo + 1, hi);
    LeftSideLength(r, t, layers, lo + 1, hi);
    ReflectRight(r, t, layers, lo);
    if k < 2 * (hi - lo - 1) {
      SidesMirror(r, t, layers, lo + 1, hi, k);
    }
  }

  /** Mirror symmetry: the left side is the right side reflected about the
      centre line and traversed in reverse order, so vertex `2L + 2 + k` of
      the outline mirrors vertex `2L - k`. */
  lemma MirrorSymmetry(r: Generator, t: Tree, k: int)
    requires UnitRange(r)
    requires 0 <= k < 2 * Layers(r)
    ensures |Outline(r, t)| == 4 * Layers(r) + 2
    ensures Outline(r, t)[2 * Layers(r) + 2 + k] == Reflect(t, Outline(r, t)[2 * Layers(r) - k])
  {
    var n := Layers(r);
    var right, left := RightSide(r, t, n, 0, n), LeftSide(r, t, n, 0, n);
    SidesMirror(r, t, n, 0, n, k);
    Pick(Apex(t), right, Trunk(t), left, 2 * n - 1 - k, k);
  }

  /** Indexing into an outline assembled from its four parts. */
  lemma Pick(apex: Point, right: seq<Point>, trunk: Point, left: seq<Point>, j: int, k: int)
    requires 0 <= j < |right| && 0 <= k < |left|
    ensures |[apex] + right + [trunk] + left| == |right| + |left| + 2
    ensures ([apex] + right + [trunk] + left)[1 + j] == right[j]
    ensures ([apex] + right + [trunk] + left)[|right| + 2 + k] == left[k]
  {
  }

  // ----- Geometry of one layer -----

  lemma ProgressRange(layers: LayerCount, i: int)
    requires 0 <= i < layers
    ensures 0.0 < Progress(layers, i) <= 1.0
  {
    assert (i + 1) as real <= layers as real;
  }

  /** Lower layers sit lower: for `h > 0` the layer line `yPos` strictly
      increases with the layer index, and stays between the apex and
      `0.15 * h` above the ground line. */
  lemma YPosOrdered(t: Tree, layers: LayerCount, i: int, j: int)
    requires t.h > 0.0 && 0 <= i < j < layers
    ensures YPos(t, layers, i) < YPos(t, layers, j)
  {
    var pi, pj := Progress(layers, i), Progress(layers, j);
    var l := layers as real;
    assert pi * l == (i + 1) as real;
    assert pj * l == (j + 1) as real;
    assert pi < pj;
    assert t.h * (pj - pi) > 0.0;
  }

  lemma YPosRange(t: Tree, layers: LayerCount, i: int)
    requires t.h > 0.0 && 0 <= i < layers
    ensures t.baseY - t.h < YPos(t, layers, i) <= t.baseY - 0.15 * t.h
  {
    var p := Progress(layers, i);
    ProgressRange(layers, i);
    assert t.h * (p * 0.85) > 0.0;
    assert t.h * (1.0 - p) >= 0.0;
  }

  lemma PositiveProduct3(w: real, a: real, b: real)
    requires w > 0.0 && a > 0.0 && b > 0.0
    ensures w * a * b > 0.0
  {
    assert w * a > 0.0;
  }

  lemma ScaleBetween(lw: real, c: real)
    requires lw > 0.0 && 0.15 <= c < 0.25
    ensures 0.15 * lw <= lw * c < 0.25 * lw
  {
    assert lw * (c - 0.15) >= 0.0;
    assert lw * (0.25 - c) > 0.0;
  }

  /** For `w > 0` every layer has positive width, its notch inset is between
      15% and 25% of that width, and so each notch lies strictly inside its
      branch tip, on both sides, and below it when `h > 0`. */
  lemma NotchInsideTip(r: Generator, t: Tree, layers: LayerCount, i: int)
    requires UnitRange(r)
    requires t.w > 0.0 && 0 <= i < layers
    ensures LayerWidth(r, t, layers, i) > 0.0
    ensures 0.15 * LayerWidth(r, t, layers, i) <= Inset(r, t, layers, i) < 0.25 * LayerWidth(r, t, layers, i)
    ensures Notch(r, t, layers, i).x < Outer(r, t, layers, i).x
    ensures LeftOuter(r, t, layers, i).x < LeftNotch(r, t, layers, i).x
    ensures t.h > 0.0 ==> Notch(r, t, layers, i).y > Outer(r, t, layers, i).y
  {
    ProgressRange(layers, i);
    var a := 0.3 + Progress(layers, i) * 0.7;
    var u, v := r((i * 2) as real), r((i * 3) as real);
    assert 0.0 <= u < 1.0 && 0.0 <= v < 1.0;
    var b := 0.9 + u * 0.2;
    var c := 0.15 + v * 0.1;
    PositiveProduct3(t.w, a, b);
    var lw := LayerWidth(r, t, layers, i);
    assert lw == t.w * a * b;
    ScaleBetween(lw, c);
    assert Inset(r, t, layers, i) == lw * c;
  }
}
