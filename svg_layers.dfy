/** The computed parts of components/hero/components/SVGLayers.tsx: the
    moon's illumination and shadow, the aurora's colour stops, and the dense
    forest's tree layout. The SVG markup around them is not modelled. */
module SvgLayers {
  import opened Wrappers
  import opened SeededRandom
  import opened SeasonThemes
  import opened GenerateTree
  import opened RealOps

  // ----- Moon -----

  /** The moon disc: centre (1100, 280), radius 62. */
  const MoonCx: real := 1100.0
  const MoonCy: real := 280.0
  const MoonR: real := 62.0

  /** A lunar phase as `getMoonPhase` returns it: 0 is the new moon, 0.5 the
      full moon. */
  type Phase = p: real | 0.0 <= p < 1.0

  predicate IsWaxing(phase: Phase) { phase < 0.5 }

  /** The lit fraction: rises from 0 at the new moon to 1 at the full moon and
      falls back, reaching 1 only at the full moon and 0 only at the new moon. */
  function Illumination(phase: Phase): (ill: real)
    ensures 0.0 <= ill <= 1.0
    ensures ill == 1.0 <==> phase == 0.5
    ensures ill == 0.0 <==> phase == 0.0
  {
    if phase < 0.5 then phase * 2.0 else (1.0 - phase) * 2.0
  }

  /** Phases equally far before and after the full moon are equally lit. */
  lemma IlluminationSymmetric(phase: Phase)
    requires phase > 0.0
    ensures Illumination(phase) == Illumination(1.0 - phase)
  {
  }

  /** The horizontal shift of the shadow ellipse from the disc's centre. */
  function ShadowOffset(phase: Phase): (d: real)
    ensures -60.0 < d <= 60.0
  {
    var ill := Illumination(phase);
    if IsWaxing(phase) then (1.0 - ill) * 120.0 - 60.0 else -(1.0 - ill) * 120.0 + 60.0
  }

  /** The waning moon's shadow is the waxing one's mirrored about the
      disc's centre. */
  lemma WaningMirrorsWaxing(phase: Phase)
    requires 0.0 < phase < 0.5
    ensures ShadowOffset(1.0 - phase) == -ShadowOffset(phase)
  {
  }

  /** The halo's opacity, half to fully opaque with the illumination. */
  function HaloOpacity(phase: Phase): (o: real)
    ensures 0.5 <= o <= 1.0
    ensures o == 1.0 <==> phase == 0.5
  {
    0.5 + Illumination(phase) * 0.5
  }

  datatype Ellipse = Ellipse(cx: real, cy: real, rx: real, ry: real)

  /** The dark ellipse for a lit fraction `ill` shifted by `offset`: drawn
      only below 98% illumination, narrower the more the moon is lit. */
  function ShadowFor(ill: real, offset: real): (e: Option<Ellipse>)
    ensures e.Some? <==> ill < 0.98
    ensures e.Some? ==> e.value.cx == MoonCx + offset && e.value.cy == MoonCy && e.value.ry == MoonR + 5.0
    ensures e.Some? && 0.0 <= ill <= 1.0 ==> 49.6 <= e.value.rx <= 74.4
  {
    if ill < 0.98 then Some(Ellipse(MoonCx + offset, MoonCy, MoonR * (1.2 - ill * 0.4), MoonR + 5.0))
    else None
  }

  /** The shadow the `Moon` component draws. */
  function Shadow(phase: Phase): (e: Option<Ellipse>)
    ensures e.Some? <==> Illumination(phase) < 0.98
    ensures e.Some? ==> 49.6 <= e.value.rx <= 74.4 && e.value.ry == 67.0
    ensures e.Some? ==> 1040.0 < e.value.cx <= 1160.0
  {
    ShadowFor(Illumination(phase), ShadowOffset(phase))
  }

  /** The length of the disc's horizontal diameter the shadow leaves
      uncovered: the visible lit width. */
  function LitWidth(shadow: Option<Ellipse>): (w: real)
    ensures 0.0 <= w <= 2.0 * MoonR
  {
    match shadow
    case None => 2.0 * MoonR
    case Some(e) =>
      var covered := Max(0.0, Min(MoonCx + MoonR, e.cx + e.rx) - Max(MoonCx - MoonR, e.cx - e.rx));
      2.0 * MoonR - Min(covered, 2.0 * MoonR)
  }

  /** As written, the quarter moon (half lit) is drawn entirely dark while
      the new moon (not lit at all) shows a crescent 47.6 units wide. */
  lemma QuarterMoonDrawnDark()
    ensures Illumination(0.25) == 0.5 && LitWidth(Shadow(0.25)) == 0.0
    ensures Illumination(0.0) == 0.0 && LitWidth(Shadow(0.0)) == 47.6
  {
    assert ShadowOffset(0.25) == 0.0;
    assert ShadowOffset(0.0) == 60.0;
  }

  /** A shadow that starts centred on the disc and slides off it as the
      moon fills: waxing to the right, waning to the left. */
  function CorrectedShadowOffset(phase: Phase): (d: real)
    ensures -120.0 <= d <= 120.0
  {
    if IsWaxing(phase) then Illumination(phase) * 120.0 else -Illumination(phase) * 120.0
  }

  function CorrectedShadow(phase: Phase): Option<Ellipse>
  {
    ShadowFor(Illumination(phase), CorrectedShadowOffset(phase))
  }

  /** The lit width of the corrected shadow as a function of the lit
      fraction. */
  function CorrectedLit(ill: real): real
  {
    if ill >= 0.98 then 2.0 * MoonR else Min(2.0 * MoonR, Max(0.0, 144.8 * ill - 12.4))
  }

  lemma CorrectedLitWidth(phase: Phase)
    ensures LitWidth(CorrectedShadow(phase)) == CorrectedLit(Illumination(phase))
  {
    var ill := Illumination(phase);
    if ill < 0.98 {
      var e := CorrectedShadow(phase).value;
      assert e.rx == 74.4 - 24.8 * ill;
      if IsWaxing(phase) {
        assert e.cx == MoonCx + 120.0 * ill;
        assert e.cx + e.rx >= MoonCx + MoonR;
      } else {
        assert e.cx == MoonCx - 120.0 * ill;
        assert e.cx - e.rx <= MoonCx - MoonR;
      }
    }
  }

  /** With the corrected shadow the new moon is dark, the full moon is whole,
      and the visible lit width never shrinks as the illumination grows. */
  lemma CorrectedLitGrows(p1: Phase, p2: Phase)
    requires Illumination(p1) <= Illumination(p2)
    ensures LitWidth(CorrectedShadow(p1)) <= LitWidth(CorrectedShadow(p2))
    ensures LitWidth(CorrectedShadow(0.0)) == 0.0
    ensures LitWidth(CorrectedShadow(0.5)) == 2.0 * MoonR
  {
    CorrectedLitWidth(p1);
    CorrectedLitWidth(p2);
    CorrectedLitWidth(0.0);
    CorrectedLitWidth(0.5);
  }

  // ----- Aurora -----

  /** `auroraColors[i]`, `undefined` past the end of the list. */
  function At(colours: seq<string>, i: nat): (c: Option<string>)
    ensures c.Some? <==> i < |colours|
  {
    if i < |colours| then Some(colours[i]) else None
  }

  /** The `Aurora` layer's three gradient stops, or `None` for the `null`
      it returns without the aurora or without colours. */
  function AuroraStops(theme: ThemeColors): (stops: Option<seq<Option<string>>>)
    ensures stops.Some? <==> theme.atmosphere.aurora && theme.atmosphere.auroraColors.Some?
    ensures stops.Some? ==> |stops.value| == 3
  {
    var atm := theme.atmosphere;
    if !atm.aurora || atm.auroraColors.None? then None
    else
      var c := atm.auroraColors.value;
      Some([At(c, 0), At(c, 1), At(c, 2)])
  }

  /** Only the winter sky has an aurora, and every one of its three stops
      has a colour. */
  lemma AuroraStopsDefined(s: Season)
    ensures AuroraStops(Theme(s)).Some? <==> s == Winter
    ensures AuroraStops(Theme(s)).Some? ==> forall i :: 0 <= i < 3 ==> AuroraStops(Theme(s)).value[i].Some?
  {
    AuroraOnlyInWinter(s);
  }

  // ----- Dense forest -----

  const ForestSize: nat := 45

  /** Tree `i` of the dense forest: spaced 32 units apart with up to 15 of
      jitter, standing on a sine-shaped ground line. */
  function ForestTree(sin: Sine, i: nat): (t: Tree)
    ensures 32.0 * i as real - 5.0 <= t.x < 32.0 * i as real + 10.0
    ensures t.baseY == 680.0 - sin((t.x + 80.0) * 0.005) * 40.0
    ensures 25.0 <= t.h < 45.0 && 10.0 <= t.w < 16.0
    ensures t.seed == i as real * 7.9
  {
    var n := i as real;
    var x := n * 32.0 + Random(sin, n * 4.7) * 15.0 - 5.0;
    Tree(x, 680.0 - sin((x + 80.0) * 0.005) * 40.0,
         25.0 + Random(sin, n * 2.3) * 20.0,
         10.0 + Random(sin, n * 3.1) * 6.0,
         n * 7.9)
  }

  /** The forty-five trees of the memoised list. */
  function Forest(sin: Sine): (trees: seq<Tree>)
    ensures |trees| == ForestSize
    ensures forall i :: 0 <= i < |trees| ==> trees[i] == ForestTree(sin, i)
  {
    seq(ForestSize, i requires 0 <= i < ForestSize => ForestTree(sin, i))
  }

  /** The trees stand left to right in list order and all start within the
      1440-unit view box (at most 5 units before its left edge). */
  lemma ForestOrdered(sin: Sine, i: nat, j: nat)
    requires i < j < ForestSize
    ensures Forest(sin)[i].x < Forest(sin)[j].x
    ensures -5.0 <= Forest(sin)[i].x && Forest(sin)[j].x < 1440.0
  {
    assert 32.0 * i as real + 10.0 <= 32.0 * j as real - 5.0;
  }

  /** Tree `i`'s opacity, between 0.85 and 1. */
  function TreeOpacity(sin: Sine, i: nat): (o: real)
    ensures 0.85 <= o < 1.0
  {
    0.85 + Random(sin, i as real * 1.3) * 0.15
  }

  /** The accent copy of a tree: 3 units to the right, 85% as tall, 80% as
      wide, with its seed moved by 100. */
  function Accent(t: Tree): (a: Tree)
    ensures a.x == t.x + 3.0 && a.baseY == t.baseY && a.seed == t.seed + 100.0
    ensures 25.0 <= t.h < 45.0 ==> 21.25 <= a.h < 38.25
    ensures 10.0 <= t.w < 16.0 ==> 8.0 <= a.w < 12.8
  {
    Tree(t.x + 3.0, t.baseY, t.h * 0.85, t.w * 0.8, t.seed + 100.0)
  }

  /** `filter((_, i) => i % 4 === 0)` over the elements from index `from` on. */
  function EveryFourth(trees: seq<Tree>, from: nat): seq<Tree>
    decreases |trees| - from
  {
    if from >= |trees| then []
    else (if from % 4 == 0 then [trees[from]] else []) + EveryFourth(trees, from + 1)
  }

  /** The number of multiples of four below `n`. */
  function Multiples(n: nat): nat { (n + 3) / 4 }

  lemma {:induction false} EveryFourthShape(trees: seq<Tree>, from: nat)
    requires from <= |trees|
    ensures |EveryFourth(trees, from)| == Multiples(|trees|) - Multiples(from)
    ensures forall j :: 0 <= j < |EveryFourth(trees, from)| ==>
              4 * (Multiples(from) + j) < |trees| && EveryFourth(trees, from)[j] == trees[4 * (Multiples(from) + j)]
    decreases |trees| - from
  {
    if from < |trees| {
      EveryFourthShape(trees, from + 1);
      var rest := EveryFourth(trees, from + 1);
      if from % 4 == 0 {
        assert Multiples(from + 1) == Multiples(from) + 1;
        assert 4 * Multiples(from) == from;
        forall j | 0 <= j < |EveryFourth(trees, from)|
          ensures EveryFourth(trees, from)[j] == trees[4 * (Multiples(from) + j)]
        {
          if j > 0 {
            assert EveryFourth(trees, from)[j] == rest[j - 1];
          }
        }
      } else {
        assert Multiples(from + 1) == Multiples(from);
        assert EveryFourth(trees, from) == rest;
      }
    }
  }

  /** The whole filter keeps exactly the elements at multiples of four. */
  lemma EveryFourthFromStart(trees: seq<Tree>)
    ensures |EveryFourth(trees, 0)| == Multiples(|trees|)
    ensures forall j :: 0 <= j < |EveryFourth(trees, 0)| ==> 4 * j < |trees| && EveryFourth(trees, 0)[j] == trees[4 * j]
  {
    EveryFourthShape(trees, 0);
  }

  /** The accent layer: every fourth tree of the forest, re-parameterised. */
  function AccentTrees(sin: Sine): seq<Tree>
  {
    var picked := EveryFourth(Forest(sin), 0);
    seq(|picked|, j requires 0 <= j < |picked| => Accent(picked[j]))
  }

  /** The accent layer has exactly twelve trees, the `j`-th being the accent
      copy of forest tree `4 * j`. */
  lemma AccentLayer(sin: Sine)
    ensures |AccentTrees(sin)| == 12
    ensures forall j :: 0 <= j < 12 ==> AccentTrees(sin)[j] == Accent(Forest(sin)[4 * j])
  {
    var forest := Forest(sin);
    EveryFourthFromStart(forest);
    assert Multiples(|forest|) == 12;
  }

  /** Every forest tree, and every accent copy, has positive height and
      width. */
  lemma ForestSizesPositive(sin: Sine, i: nat, k: nat)
    requires i < ForestSize && k < 12
    ensures Forest(sin)[i].h > 0.0 && Forest(sin)[i].w > 0.0
    ensures |AccentTrees(sin)| == 12 && AccentTrees(sin)[k].h > 0.0 && AccentTrees(sin)[k].w > 0.0
  {
    AccentLayer(sin);
  }

  /** The outline `generateTree` draws for forest tree `i` from the tree's
      own seed: four or five layers, `4 * layers + 2` vertices, and every
      notch inside and below its branch tip. */
  lemma ForestOutline(sin: Sine, i: nat, layer: int)
    requires i < ForestSize
    ensures var t := Forest(sin)[i];
            var r := TreeRandom(sin, t);
            var n := Layers(r);
            && (n == 4 || n == 5)
            && |Outline(r, t)| == 4 * n + 2
            && (0 <= layer < n ==>
                  Notch(r, t, n, layer).x < Outer(r, t, n, layer).x
                  && LeftOuter(r, t, n, layer).x < LeftNotch(r, t, n, layer).x
                  && Notch(r, t, n, layer).y > Outer(r, t, n, layer).y)
  {
    ForestSizesPositive(sin, i, 0);
    OutlineWellShaped(sin, Forest(sin)[i], layer);
  }

  /** The outline `generateTree` draws for a tree of positive height and
      width from the tree's own seed. */
  lemma OutlineWellShaped(sin: Sine, t: Tree, layer: int)
    requires t.h > 0.0 && t.w > 0.0
    ensures var r := TreeRandom(sin, t);
            var n := Layers(r);
            && (n == 4 || n == 5)
            && |Outline(r, t)| == 4 * n + 2
            && (0 <= layer < n ==>
                  Notch(r, t, n, layer).x < Outer(r, t, n, layer).x
                  && LeftOuter(r, t, n, layer).x < LeftNotch(r, t, n, layer).x
                  && Notch(r, t, n, layer).y > Outer(r, t, n, layer).y)
  {
    var r := TreeRandom(sin, t);
    var n := Layers(r);
    OutlineShape(r, t);
    if 0 <= layer < n {
      NotchInsideTip(r, t, n, layer);
    }
  }

  /** The same for the accent layer: the copy of forest tree `4 * k` is drawn
      with its own seed, and its outline has four or five layers,
      `4 * layers + 2` vertices, and every notch inside and below its tip. */
  lemma AccentOutline(sin: Sine, k: nat, layer: int)
    requires k < 12
    ensures |AccentTrees(sin)| == 12
    ensures var t := AccentTrees(sin)[k];
            var r := TreeRandom(sin, t);
            var n := Layers(r);
            && t == Accent(Forest(sin)[4 * k])
            && (n == 4 || n == 5)
            && |Outline(r, t)| == 4 * n + 2
            && (0 <= layer < n ==>
                  Notch(r, t, n, layer).x < Outer(r, t, n, layer).x
                  && LeftOuter(r, t, n, layer).x < LeftNotch(r, t, n, layer).x
                  && Notch(r, t, n, layer).y > Outer(r, t, n, layer).y)
  {
    AccentLayer(sin);
    ForestSizesPositive(sin, 4 * k, k);
    OutlineWellShaped(sin, AccentTrees(sin)[k], layer);
  }
}
