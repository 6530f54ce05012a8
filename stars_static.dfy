/** The static star field of components/hero/components/StarsStatic.tsx:
    one hundred stars, each drawn from six seeded values, and the inline
    style each star's element receives. */
module StarsStatic {
  import opened SeededRandom
  import opened SeasonThemes

  /** One star: positions in percent, sizes in pixels, times in seconds. */
  datatype Star = Star(id: nat, left: real, top: real, size: real,
                       duration: real, delay: real, brightness: real)

  const StarCount: nat := 100

  /** Star `i`, each field from its own seed `i * k` rescaled to its range. */
  function MakeStar(sin: Sine, i: nat): (s: Star)
    ensures s.id == i
    ensures 0.0 <= s.left < 100.0 && 0.0 <= s.top < 50.0
    ensures 1.5 <= s.size < 3.0 && 2.5 <= s.duration < 4.5
    ensures 0.0 <= s.delay < 4.0 && 0.4 <= s.brightness < 1.0
  {
    var n := i as real;
    Star(i,
         Random(sin, n * 3.7) * 100.0,
         Random(sin, n * 5.3) * 50.0,
         1.5 + Random(sin, n * 2.1) * 1.5,
         2.5 + Random(sin, n * 4.9) * 2.0,
         Random(sin, n * 6.1) * 4.0,
         0.4 + Random(sin, n * 1.7) * 0.6)
  }

  /** The memoised list: a hundred stars, star `i` at index `i`, every field
      within its range. */
  function Stars(sin: Sine): (stars: seq<Star>)
    ensures |stars| == StarCount
    ensures forall i :: 0 <= i < |stars| ==> stars[i] == MakeStar(sin, i) && stars[i].id == i
    ensures forall i :: 0 <= i < |stars| ==>
              0.0 <= stars[i].left < 100.0 && 0.0 <= stars[i].top < 50.0
              && 1.5 <= stars[i].size < 3.0 && 0.4 <= stars[i].brightness < 1.0
  {
    seq(StarCount, i requires 0 <= i < StarCount => MakeStar(sin, i))
  }

  /** The inline style of one star element. Only `color` and `glowColor`
      come from the theme. */
  datatype StarStyle = StarStyle(left: real, top: real, width: real, height: real,
                                 color: string, glowRadius: real, glowColor: string,
                                 opacity: real, duration: real, delay: real)

  /** A star's style: a round element of its own size, glowing with radius
      `4 + size`, so between 5.5 and 7 pixels for a generated star. */
  function Style(s: Star, theme: ThemeColors): (st: StarStyle)
    ensures st.width == st.height == s.size
    ensures st.glowRadius - st.width == 4.0
    ensures 1.5 <= s.size < 3.0 ==> 5.5 <= st.glowRadius < 7.0
    ensures st.color == theme.stars.color && st.glowColor == theme.stars.glow
  {
    StarStyle(s.left, s.top, s.size, s.size, theme.stars.color, 4.0 + s.size,
              theme.stars.glow, s.brightness, s.duration, s.delay)
  }

  /** The field does not change with the season: two themes give every star
      the same style apart from its two colours. */
  lemma ThemeOnlyColours(sin: Sine, t1: ThemeColors, t2: ThemeColors, i: nat)
    requires i < StarCount
    ensures Style(Stars(sin)[i], t1).(color := t2.stars.color, glowColor := t2.stars.glow)
         == Style(Stars(sin)[i], t2)
  {
  }
}
