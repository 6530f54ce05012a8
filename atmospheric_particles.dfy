/** The falling or rising particles of
    components/hero/components/AtmosphericParticles.tsx: snow, petals,
    fireflies or leaves depending on the season, each particle drawn from
    seven seeded values. */
module AtmosphericParticles {
  import opened Wrappers
  import opened SeededRandom
  import opened SeasonThemes

  datatype Particle = Particle(id: nat, left: real, size: real, duration: real, delay: real,
                               drift: real, opacity: real, blur: bool, rotation: real)

  /** Thirty-five fireflies in summer, sixty particles otherwise. */
  function Count(season: Season): (n: nat)
    ensures n == 35 || n == 60
    ensures n == 35 <==> season == Summer
  {
    if season == Summer then 35 else 60
  }

  /** Particle `i` for `season`, every field from its own seed. */
  function MakeParticle(sin: Sine, season: Season, i: nat): (p: Particle)
    ensures p.id == i
    ensures 0.0 <= p.left < 100.0
    ensures season == Summer ==> 1.5 <= p.size < 4.0
    ensures season != Summer ==> 1.5 <= p.size < 4.5
    ensures 8.0 <= p.duration < 18.0
    ensures -20.0 < p.delay <= 0.0
    ensures -15.0 <= p.drift < 15.0
    ensures 0.3 <= p.opacity < 0.7
    ensures p.blur <==> i % 6 == 0
    ensures 0.0 <= p.rotation < 360.0
  {
    var n := i as real;
    var sizeSpan := if season == Summer then 2.5 else 3.0;
    Particle(i,
             Random(sin, n * 7.3) * 100.0,
             Random(sin, n * 3.7) * sizeSpan + 1.5,
             Random(sin, n * 5.1) * 10.0 + 8.0,
             Random(sin, n * 2.9) * -20.0,
             Random(sin, n * 4.3) * 30.0 - 15.0,
             Random(sin, n * 6.1) * 0.4 + 0.3,
             i % 6 == 0,
             Random(sin, n * 8.7) * 360.0)
  }

  /** The memoised list for a season: `Count(season)` particles, particle
      `i` at index `i`, one blurred in every six. */
  function Particles(sin: Sine, season: Season): (ps: seq<Particle>)
    ensures |ps| == Count(season)
    ensures forall i :: 0 <= i < |ps| ==> ps[i] == MakeParticle(sin, season, i) && ps[i].id == i
    ensures forall i :: 0 <= i < |ps| ==> (ps[i].blur <==> i % 6 == 0)
  {
    seq(Count(season), i requires 0 <= i < Count(season) => MakeParticle(sin, season, i))
  }

  const PinkShades: seq<string> := ["#ff85a2", "#ff6b8a", "#ff9eb5", "#ffb6c1"]

  const LeafColours: seq<string> := ["#d85000", "#c04000", "#a03000", "#e06820"]

  /** The season-specific part of a particle's style. `rotation` is the
      `rotate(...)` transform, absent for round particles. */
  datatype Look = Look(borderRadius: string, background: string, boxShadow: Option<string>,
                       rotation: Option<real>)

  /** `getParticleStyle`. The `default` arm of the source's switch returns
      an empty style; no `Season` value reaches it. */
  function ParticleLook(season: Season, p: Particle): (look: Look)
    ensures season == Spring ==>
              look.background == "linear-gradient(135deg, " + PinkShades[p.id % 4] + " 0%, #ffccd5 100%)"
    ensures season == Autumn ==> look.background == LeafColours[p.id % 4]
    ensures look.rotation.Some? <==> season == Spring || season == Autumn
    ensures look.rotation.Some? ==> look.rotation.value == p.rotation
  {
    match season
    case Winter =>
      Look("50%", "radial-gradient(circle at 30% 30%, #fff, #e8e8f0)",
           Some("0 0 2px rgba(255,255,255,0.5)"), None)
    case Spring =>
      Look("50% 0% 50% 0%",
           "linear-gradient(135deg, " + PinkShades[p.id % |PinkShades|] + " 0%, #ffccd5 100%)",
           Some("0 0 4px rgba(255,105,135,0.4)"), Some(p.rotation))
    case Summer =>
      Look("50%", "radial-gradient(circle, #ffffa0 0%, #c8ff00 100%)",
           Some("0 0 6px 2px rgba(200,255,100,0.6)"), None)
    case Autumn =>
      Look("2px 8px 2px 8px", LeafColours[p.id % |LeafColours|], None, Some(p.rotation))
  }

  /** The palette colour repeats with period four in the particle id: four
      consecutive particles use four different leaf colours and the fifth
      starts over. */
  lemma PaletteCycles(p: Particle, q: Particle)
    ensures p.id % 4 == q.id % 4 ==>
              ParticleLook(Spring, p).background == ParticleLook(Spring, q).background
              && ParticleLook(Autumn, p).background == ParticleLook(Autumn, q).background
    ensures p.id % 4 != q.id % 4 ==> ParticleLook(Autumn, p).background != ParticleLook(Autumn, q).background
  {
  }

  /** `floatUp` for rising fireflies, `fallDown` for everything else. */
  function Animation(season: Season): (name: string)
    ensures name == "floatUp" || name == "fallDown"
    ensures name == "floatUp" <==> season == Summer
  {
    if season == Summer then "floatUp" else "fallDown"
  }

  /** The per-element style the render loop builds around the look. */
  datatype ParticleStyle = ParticleStyle(look: Look, left: real, width: real, height: real,
                                         opacity: real, blurred: bool, animation: string,
                                         fallSeconds: real, driftSeconds: real,
                                         delay: real, drift: real)

  /** A particle's element: leaves are 1.4 times taller than wide, every
      other particle is square; the sideways drift cycle runs at 0.6 of the
      fall cycle. */
  function StyleOf(season: Season, p: Particle): (st: ParticleStyle)
    ensures st.look == ParticleLook(season, p)
    ensures st.width == p.size
    ensures season == Autumn ==> st.height == p.size * 1.4
    ensures season != Autumn ==> st.height == p.size
    ensures st.animation == Animation(season)
    ensures 8.0 <= p.duration < 18.0 ==> 4.8 <= st.driftSeconds < 10.8
  {
    var height := p.size * (if season == Autumn then 1.4 else 1.0);
    ParticleStyle(ParticleLook(season, p), p.left, p.size, height, p.opacity, p.blur,
                  Animation(season), p.duration, p.duration * 0.6, p.delay, p.drift)
  }

  /** Every generated leaf is taller than it is wide. */
  lemma LeavesAreTall(sin: Sine, i: nat)
    requires i < Count(Autumn)
    ensures StyleOf(Autumn, Particles(sin, Autumn)[i]).height > StyleOf(Autumn, Particles(sin, Autumn)[i]).width > 0.0
  {
    var p := Particles(sin, Autumn)[i];
    assert p.size >= 1.5;
    assert p.size * 1.4 > p.size;
  }
}
