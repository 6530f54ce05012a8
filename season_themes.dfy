/** The four seasonal palettes of components/hero/config/seasonThemes.ts,
    as constants, with the consistency facts the layer renderers rely on. */
module SeasonThemes {
  import opened Wrappers

  datatype Season = Winter | Spring | Summer | Autumn

  /** A sky-gradient stop: a colour and its offset text such as "45%". */
  datatype Stop = Stop(color: string, offset: string)

  datatype MoonColors = MoonColors(surface: string, inner: string, outer: string, crater: string, halo: string)

  datatype StarColors = StarColors(color: string, glow: string, intensity: real)

  datatype MountainColors = MountainColors(
    far: (string, string), midFar: (string, string), mid: (string, string),
    snowCap: (string, string), accent: string)

  datatype ForestColors = ForestColors(
    hills: (string, string), dense: (string, string), foreground: (string, string),
    treeDark: string, treeLight: string, accent: string)

  /** `auroraColors` is an optional field of the source record. */
  datatype Atmosphere = Atmosphere(
    mist: (string, string), overlay: string, aurora: bool, auroraColors: Option<seq<string>>)

  datatype Details = Details(text: string, textSub: string, background: string)

  datatype ThemeColors = ThemeColors(
    skyStops: seq<Stop>, moon: MoonColors, stars: StarColors, mountains: MountainColors,
    forest: ForestColors, atmosphere: Atmosphere, details: Details)

  const WinterSky: seq<Stop> :=
    [Stop("#050510", "0%"), Stop("#0a0a18", "15%"), Stop("#0f0f22", "30%"),
     Stop("#15152e", "45%"), Stop("#1e1e3d", "58%"), Stop("#2a2a4d", "70%"),
     Stop("#3a3a5d", "82%"), Stop("#4a4a70", "92%"), Stop("#5a5a80", "100%")]

  const WinterTheme := ThemeColors(
    WinterSky,
    MoonColors("#f5f0e5", "#fff8ed", "#e8e4dd", "#c8c4bc", "rgba(200,210,255,0.15)"),
    StarColors("#ffffff", "rgba(200,220,255,0.5)", 1.0),
    MountainColors(("#4a4a6a", "#5a5a7a"), ("#3a3a55", "#454560"), ("#2a2a42", "#353550"),
                   ("#ffffff", "#d8d8e8"), "#6a6a8a"),
    ForestColors(("#1e1e35", "#252540"), ("#121225", "#181830"), ("#0a0a15", "#0d0d1a"),
                 "#050510", "#0d0d1a", "#2a2a45"),
    Atmosphere(("rgba(180,190,220,0.08)", "rgba(180,190,220,0)"), "rgba(100,120,180,0.03)", true,
               Some(["rgba(100,200,150,0.12)", "rgba(80,150,200,0.1)", "rgba(150,100,200,0.08)"])),
    Details("#ffffff", "rgba(255,255,255,0.55)", "#050510"))

  const SpringSky: seq<Stop> :=
    [Stop("#1a1a2e", "0%"), Stop("#2d2d5a", "12%"), Stop("#4a3a6a", "25%"),
     Stop("#6b4a7a", "38%"), Stop("#8b5a8a", "48%"), Stop("#c77b95", "60%"),
     Stop("#e8a0aa", "72%"), Stop("#f5c4c8", "84%"), Stop("#ffdde1", "100%")]

  const SpringTheme := ThemeColors(
    SpringSky,
    MoonColors("#fff0f5", "#ffe8ef", "#ffd0dd", "#e8c0cc", "rgba(255,180,200,0.15)"),
    StarColors("#fff0f5", "rgba(255,200,220,0.5)", 0.5),
    MountainColors(("#5a5a70", "#7a7a90"), ("#4a4a60", "#6a6a80"), ("#3a3a50", "#5a5a70"),
                   ("#ffffff", "#f0f0f8"), "#8a8a9a"),
    ForestColors(("#3a7050", "#4a9060"), ("#2a5540", "#3a7550"), ("#1a4030", "#2a5540"),
                 "#153525", "#2a5540", "#5aaa70"),
    Atmosphere(("rgba(255,192,203,0.15)", "rgba(255,192,203,0)"), "rgba(255,182,193,0.08)", false, None),
    Details("#fff5f7", "rgba(255,245,247,0.75)", "#1a1a28"))

  const SummerSky: seq<Stop> :=
    [Stop("#0a1820", "0%"), Stop("#152832", "20%"), Stop("#1a3545", "35%"),
     Stop("#2a5060", "50%"), Stop("#4a8090", "68%"), Stop("#70a5b0", "82%"), Stop("#a0d0d8", "100%")]

  const SummerTheme := ThemeColors(
    SummerSky,
    MoonColors("#fff8d8", "#ffefb0", "#ffe088", "#e0d098", "rgba(255,230,150,0.15)"),
    StarColors("#ffffd8", "rgba(255,255,180,0.4)", 0.4),
    MountainColors(("#2a3848", "#3a485a"), ("#1a3020", "#2a4230"), ("#152818", "#203820"),
                   ("rgba(255,255,255,0.25)", "rgba(255,255,255,0.05)"), "#3a5848"),
    ForestColors(("#183820", "#205028"), ("#0e2812", "#153518"), ("#081810", "#0e2015"),
                 "#040a05", "#0e2012", "#1a4020"),
    Atmosphere(("rgba(150,200,180,0.05)", "rgba(150,200,180,0)"), "rgba(100,180,160,0.02)", false, None),
    Details("#e8f5f0", "rgba(232,245,240,0.75)", "#061010"))

  const AutumnSky: seq<Stop> :=
    [Stop("#180820", "0%"), Stop("#301030", "18%"), Stop("#501838", "35%"),
     Stop("#802040", "50%"), Stop("#a84035", "65%"), Stop("#c86030", "80%"), Stop("#e89050", "100%")]

  const AutumnTheme := ThemeColors(
    AutumnSky,
    MoonColors("#fff0e0", "#ffd8b8", "#ffb888", "#d8b898", "rgba(255,180,120,0.15)"),
    StarColors("#ffd8a8", "rgba(255,160,80,0.4)", 0.7),
    MountainColors(("#402020", "#583030"), ("#351818", "#482020"), ("#2a1212", "#3a1818"),
                   ("#ffc898", "#ff9868"), "#604030"),
    ForestColors(("#381805", "#4a2508"), ("#280e02", "#381505"), ("#180802", "#220c02"),
                 "#0e0402", "#281008", "#4a2810"),
    Atmosphere(("rgba(180,100,50,0.06)", "rgba(180,100,50,0)"), "rgba(150,80,40,0.03)", false, None),
    Details("#ffe8d8", "rgba(255,232,216,0.7)", "#120605"))

  /** `SEASON_THEMES[season]`: a `Record<Season, ThemeColors>`, total over
      the four seasons. */
  function Theme(s: Season): (t: ThemeColors)
    ensures t.stars.intensity > 0.0
  {
    match s
    case Winter => WinterTheme
    case Spring => SpringTheme
    case Summer => SummerTheme
    case Autumn => AutumnTheme
  }

  /** `SEASON_ICONS[season]`. */
  function Icon(s: Season): (icon: string)
    ensures |icon| > 0
  {
    match s
    case Winter => "❄"
    case Spring => "❀"
    case Summer => "☀"
    case Autumn => "\U{1F342}"
  }

  /** `SEASONS`, the order in which the season switcher lists them. */
  const AllSeasons: seq<Season> := [Winter, Spring, Summer, Autumn]

  /** Every season appears in `SEASONS` exactly once, in the listed order. */
  lemma AllSeasonsExactlyOnce(s: Season)
    ensures |AllSeasons| == 4
    ensures multiset(AllSeasons)[s] == 1
    ensures AllSeasons[0] == Winter && AllSeasons[1] == Spring
    ensures AllSeasons[2] == Summer && AllSeasons[3] == Autumn
  {
  }

  /** The icons tell the seasons apart. */
  lemma IconsDistinct(s1: Season, s2: Season)
    ensures Icon(s1) == Icon(s2) <==> s1 == s2
  {
  }

  // ----- Sky gradient offsets -----

  /** The value of a decimal digit character; `None` for any other character. */
  function DigitValue(c: char): (d: Option<nat>)
    ensures d.Some? ==> d.value < 10
  {
    match c
    case '0' => Some(0) case '1' => Some(1) case '2' => Some(2) case '3' => Some(3) case '4' => Some(4)
    case '5' => Some(5) case '6' => Some(6) case '7' => Some(7) case '8' => Some(8) case '9' => Some(9)
    case _ => None
  }

  /** Reads the digits of a percentage text from index `i` on, after those
      already read into `acc`: `Some` of the number when the rest is digits
      followed by a single '%', `None` otherwise. */
  function ReadPercent(s: string, i: nat, acc: nat): (r: Option<nat>)
    ensures r.Some? ==> i < |s| && s[|s| - 1] == '%' && r.value >= acc
    decreases |s| - i
  {
    if i + 1 == |s| && s[i] == '%' then Some(acc)
    else if i + 1 < |s| && DigitValue(s[i]).Some? then ReadPercent(s, i + 1, 10 * acc + DigitValue(s[i]).value)
    else None
  }

  /** The number of a percentage offset text such as "58%" (at least one
      digit, then '%'); `None` for any other text. */
  function PercentValue(s: string): (r: Option<nat>)
    ensures r.Some? ==> |s| >= 2 && s[|s| - 1] == '%'
  {
    if |s| >= 2 then ReadPercent(s, 0, 0) else None
  }

  /** The offset of a stop as a number, -1 when it is not a percentage. */
  function OffsetNumber(st: Stop): int
  {
    match PercentValue(st.offset)
    case Some(n) => n
    case None => -1
  }

  /** The offsets strictly increase from stop `i` on and are all percentages. */
  predicate IncreasingFrom(stops: seq<Stop>, i: nat)
    decreases |stops| - i
  {
    i >= |stops| ||
    (PercentValue(stops[i].offset).Some? &&
     (i + 1 < |stops| ==> OffsetNumber(stops[i]) < OffsetNumber(stops[i + 1])) &&
     IncreasingFrom(stops, i + 1))
  }

  /** The shape a gradient stop list must have: starts at "0%", ends at
      "100%", every offset is a percentage, and the offsets strictly
      increase. */
  predicate WellFormedStops(stops: seq<Stop>)
  {
    && |stops| >= 2
    && stops[0].offset == "0%"
    && stops[|stops| - 1].offset == "100%"
    && (forall i :: 0 <= i < |stops| ==> PercentValue(stops[i].offset).Some?)
    && (forall i :: 0 <= i < |stops| - 1 ==> OffsetNumber(stops[i]) < OffsetNumber(stops[i + 1]))
  }

  lemma {:induction false} IncreasingFromAt(stops: seq<Stop>, i: nat, k: nat)
    requires IncreasingFrom(stops, i)
    requires i <= k < |stops|
    ensures PercentValue(stops[k].offset).Some?
    ensures k + 1 < |stops| ==> OffsetNumber(stops[k]) < OffsetNumber(stops[k + 1])
    decreases k - i
  {
    if i < k {
      IncreasingFromAt(stops, i + 1, k);
    }
  }

  lemma IncreasingWellFormed(stops: seq<Stop>)
    requires |stops| >= 2 && stops[0].offset == "0%" && stops[|stops| - 1].offset == "100%"
    requires IncreasingFrom(stops, 0)
    ensures WellFormedStops(stops)
  {
    forall k | 0 <= k < |stops| ensures PercentValue(stops[k].offset).Some? {
      IncreasingFromAt(stops, 0, k);
    }
    forall k | 0 <= k < |stops| - 1 ensures OffsetNumber(stops[k]) < OffsetNumber(stops[k + 1]) {
      IncreasingFromAt(stops, 0, k);
    }
  }

  /** The last stop closes an increasing run when it is a percentage. */
  lemma LastStop(stops: seq<Stop>)
    requires |stops| >= 1 && PercentValue(stops[|stops| - 1].offset).Some?
    ensures IncreasingFrom(stops, |stops| - 1)
  {
  }

  /** A run that increases from stop `i + 1` on extends to stop `i` when
      offset `i` is smaller than offset `i + 1`. */
  lemma StepUp(stops: seq<Stop>, i: nat, m: nat, n: nat)
    requires i + 1 < |stops| && m < n
    requires PercentValue(stops[i].offset) == Some(m) && PercentValue(stops[i + 1].offset) == Some(n)
    requires IncreasingFrom(stops, i + 1)
    ensures IncreasingFrom(stops, i)
  {
  }


  /** The offsets of the winter sky, read as numbers, from the top stop down. */
  lemma WinterOffsetsTop()
    ensures PercentValue(WinterSky[0].offset) == Some(0)
    ensures PercentValue(WinterSky[1].offset) == Some(15)
    ensures PercentValue(WinterSky[2].offset) == Some(30)
    ensures PercentValue(WinterSky[3].offset) == Some(45)
    ensures PercentValue(WinterSky[4].offset) == Some(58)
  {
  }

  lemma WinterOffsetsBottom()
    ensures PercentValue(WinterSky[5].offset) == Some(70)
    ensures PercentValue(WinterSky[6].offset) == Some(82)
    ensures PercentValue(WinterSky[7].offset) == Some(92)
    ensures PercentValue(WinterSky[8].offset) == Some(100)
  {
  }

  lemma WinterStopsWellFormed()
    ensures WellFormedStops(WinterSky)
  {
    var stops := WinterSky;
    WinterOffsetsTop();
    WinterOffsetsBottom();
    LastStop(stops);
    StepUp(stops, 7, 92, 100);
    StepUp(stops, 6, 82, 92);
    StepUp(stops, 5, 70, 82);
    StepUp(stops, 4, 58, 70);
    StepUp(stops, 3, 45, 58);
    StepUp(stops, 2, 30, 45);
    StepUp(stops, 1, 15, 30);
    StepUp(stops, 0, 0, 15);
    assert stops[0].offset == "0%" && stops[8].offset == "100%";
    IncreasingWellFormed(stops);
  }

  /** The offsets of the spring sky, read as numbers, from the top stop down. */
  lemma SpringOffsetsTop()
    ensures PercentValue(SpringSky[0].offset) == Some(0)
    ensures PercentValue(SpringSky[1].offset) == Some(12)
    ensures PercentValue(SpringSky[2].offset) == Some(25)
    ensures PercentValue(SpringSky[3].offset) == Some(38)
    ensures PercentValue(SpringSky[4].offset) == Some(48)
  {
  }

  lemma SpringOffsetsBottom()
    ensures PercentValue(SpringSky[5].offset) == Some(60)
    ensures PercentValue(SpringSky[6].offset) == Some(72)
    ensures PercentValue(SpringSky[7].offset) == Some(84)
    ensures PercentValue(SpringSky[8].offset) == Some(100)
  {
  }

  lemma SpringStopsWellFormed()
    ensures WellFormedStops(SpringSky)
  {
    var stops := SpringSky;
    SpringOffsetsTop();
    SpringOffsetsBottom();
    LastStop(stops);
    StepUp(stops, 7, 84, 100);
    StepUp(stops, 6, 72, 84);
    StepUp(stops, 5, 60, 72);
    StepUp(stops, 4, 48, 60);
    StepUp(stops, 3, 38, 48);
    StepUp(stops, 2, 25, 38);
    StepUp(stops, 1, 12, 25);
    StepUp(stops, 0, 0, 12);
    assert stops[0].offset == "0%" && stops[8].offset == "100%";
    IncreasingWellFormed(stops);
  }

  /** The offsets of the summer sky, read as numbers, from the top stop down. */
  lemma SummerOffsetsTop()
    ensures PercentValue(SummerSky[0].offset) == Some(0)
    ensures PercentValue(SummerSky[1].offset) == Some(20)
    ensures PercentValue(SummerSky[2].offset) == Some(35)
    ensures PercentValue(SummerSky[3].offset) == Some(50)
  {
  }

  lemma SummerOffsetsBottom()
    ensures PercentValue(SummerSky[4].offset) == Some(68)
    ensures PercentValue(SummerSky[5].offset) == Some(82)
    ensures PercentValue(SummerSky[6].offset) == Some(100)
  {
  }

  lemma SummerStopsWellFormed()
    ensures WellFormedStops(SummerSky)
  {
    var stops := SummerSky;
    SummerOffsetsTop();
    SummerOffsetsBottom();
    LastStop(stops);
    StepUp(stops, 5, 82, 100);
    StepUp(stops, 4, 68, 82);
    StepUp(stops, 3, 50, 68);
    StepUp(stops, 2, 35, 50);
    StepUp(stops, 1, 20, 35);
    StepUp(stops, 0, 0, 20);
    assert stops[0].offset == "0%" && stops[6].offset == "100%";
    IncreasingWellFormed(stops);
  }

  /** The offsets of the autumn sky, read as numbers, from the top stop down. */
  lemma AutumnOffsetsTop()
    ensures PercentValue(AutumnSky[0].offset) == Some(0)
    ensures PercentValue(AutumnSky[1].offset) == Some(18)
    ensures PercentValue(AutumnSky[2].offset) == Some(35)
    ensures PercentValue(AutumnSky[3].offset) == Some(50)
  {
  }

  lemma AutumnOffsetsBottom()
    ensures PercentValue(AutumnSky[4].offset) == Some(65)
    ensures PercentValue(AutumnSky[5].offset) == Some(80)
    ensures PercentValue(AutumnSky[6].offset) == Some(100)
  {
  }

  lemma AutumnStopsWellFormed()
    ensures WellFormedStops(AutumnSky)
  {
    var stops := AutumnSky;
    AutumnOffsetsTop();
    AutumnOffsetsBottom();
    LastStop(stops);
    StepUp(stops, 5, 80, 100);
    StepUp(stops, 4, 65, 80);
    StepUp(stops, 3, 50, 65);
    StepUp(stops, 2, 35, 50);
    StepUp(stops, 1, 18, 35);
    StepUp(stops, 0, 0, 18);
    assert stops[0].offset == "0%" && stops[6].offset == "100%";
    IncreasingWellFormed(stops);
  }

  /** Every theme's sky gradient is well formed. */
  lemma SkyStopsWellFormed(s: Season)
    ensures WellFormedStops(Theme(s).skyStops)
  {
    match s
    case Winter => WinterStopsWellFormed();
    case Spring => SpringStopsWellFormed();
    case Summer => SummerStopsWellFormed();
    case Autumn => AutumnStopsWellFormed();
  }

  // ----- Aurora -----

  /** Winter alone has the aurora, and its aurora colour list has exactly
      three entries. */
  lemma AuroraOnlyInWinter(s: Season)
    ensures Theme(s).atmosphere.aurora <==> s == Winter
    ensures Theme(s).atmosphere.aurora ==>
              Theme(s).atmosphere.auroraColors.Some? && |Theme(s).atmosphere.auroraColors.value| == 3
  {
  }

  /** Every theme's star intensity lies in (0, 1]. */
  lemma StarIntensityInRange(s: Season)
    ensures 0.0 < Theme(s).stars.intensity <= 1.0
  {
  }
}
