/** The sine-hash pseudo-random generator of lib/seededRandom.ts.
    `Math.sin` is not modelled: every generator receives it as a parameter
    `sin`, and nothing is assumed about it, so every fact proved here holds
    for any sine implementation. */
module SeededRandom {

  /** Stand-in for `Math.sin`: any function from reals to reals. */
  type Sine = real -> real

  /** The fractional part `x - Math.floor(x)`. */
  function Frac(x: real): (r: real)
    ensures 0.0 <= r < 1.0
    ensures (x - r).Floor as real == x - r
  {
    x - x.Floor as real
  }

  /** `seededRandom(seed)`: the fractional part of `sin(seed * 9999) * 10000`.
      Whatever `sin` returns, the result lies in [0, 1). */
  function Random(sin: Sine, seed: real): (r: real)
    ensures 0.0 <= r < 1.0
  {
    Frac(sin(seed * 9999.0) * 10000.0)
  }

  /** Equal seeds give equal values, and more: the value depends on the seed
      only through the sine sample `sin(seed * 9999)`. */
  lemma RandomDeterministic(sin: Sine, s1: real, s2: real)
    requires sin(s1 * 9999.0) == sin(s2 * 9999.0)
    ensures Random(sin, s1) == Random(sin, s2)
  {
  }

  /** A seeded generator: a function of an offset. */
  type Generator = real -> real

  /** Every value of the generator lies in [0, 1). */
  ghost predicate UnitRange(gen: Generator)
  {
    forall n :: 0.0 <= gen(n) < 1.0
  }

  /** `createSeededRandom(baseSeed)`: a generator that adds an offset to the
      base seed before hashing. */
  function CreateSeededRandom(sin: Sine, baseSeed: real): (gen: Generator)
    ensures forall offset :: gen(offset) == Random(sin, baseSeed + offset)
    ensures UnitRange(gen)
  {
    offset => Random(sin, baseSeed + offset)
  }

  /** Offset zero reproduces the base seed's own value. */
  lemma CreateSeededRandomAtZero(sin: Sine, baseSeed: real)
    ensures CreateSeededRandom(sin, baseSeed)(0.0) == Random(sin, baseSeed)
  {
  }
}
