/**
 An abstract stand-in for `System.Random`, the generator the random source
 wraps. Its algorithm is not part of this model. A generator is known by
 where it started (a seed, or the entropy an unseeded generator draws on)
 and by the log of operations applied to it since. What an operation
 returns is whatever a deterministic `Algorithm` makes of that state, kept
 inside the range that `System.Random`'s documentation promises.
 */
module SystemRandom {
  import opened Base

  /** Where a generator's sequence starts: `new Random(seed)` or `new Random()`. */
  datatype Origin = Seeded(seed: Int32) | Unseeded(entropy: int)

  /** The four generator operations the random source issues. */
  datatype Op =
    | NextU                                    // rnd.Next()
    | NextMax(maxValue: Int32)                 // rnd.Next(maxValue)
    | NextRange(minValue: Int32, maxValue: Int32)  // rnd.Next(minValue, maxValue)
    | NextDouble                               // rnd.NextDouble()

  /** The state of one generator: its origin and every operation applied since. */
  datatype Generator = Generator(origin: Origin, log: seq<Op>)

  /**
   The unknown, deterministic algorithm behind `System.Random`: the raw
   integer an operation yields and the raw double `NextDouble` yields, as a
   function of the generator's origin and of the operations applied before.
   */
  datatype Algorithm = Algorithm(
    int32: (Origin, seq<Op>, Op) -> int,
    double: (Origin, seq<Op>) -> real)

  /** `new Random(seed)` */
  function NewSeeded(seed: Int32): (g: Generator)
    ensures g.log == [] && g.origin.Seeded? && g.origin.seed == seed
  {
    Generator(Seeded(seed), [])
  }

  /** The generator after one more operation. */
  function Advance(g: Generator, op: Op): Generator
  {
    Generator(g.origin, g.log + [op])
  }

  /**
   The arguments an integer operation accepts without throwing
   `ArgumentOutOfRangeException`: `Next(maxValue)` needs `maxValue >= 0`,
   `Next(minValue, maxValue)` needs `minValue <= maxValue`.
   */
  predicate Accepts(op: Op) {
    match op
    case NextU => true
    case NextMax(m) => 0 <= m
    case NextRange(a, b) => a <= b
    case NextDouble => false
  }

  /**
   The documented results of an integer operation: `Next()` lies in
   [0, Int32.MaxValue); `Next(maxValue)` in [0, maxValue), and is 0 when
   maxValue is 0; `Next(minValue, maxValue)` in [minValue, maxValue), and is
   minValue when the two are equal.
   */
  predicate InRange(op: Op, r: int) {
    match op
    case NextU => 0 <= r < Int32Max
    case NextMax(m) => if m == 0 then r == 0 else 0 <= r < m
    case NextRange(a, b) => if a == b then r == a else a <= r < b
    case NextDouble => false
  }

  /**
   Keeps a raw algorithm output inside the documented range. An output that
   is already in range is kept, so every algorithm that honours the
   documentation is represented exactly.
   */
  function Conform(op: Op, raw: int): (r: Int32)
    requires Accepts(op)
    ensures InRange(op, r)
    ensures InRange(op, raw) ==> r == raw
  {
    if InRange(op, raw) then raw
    else if op.NextRange? then op.minValue
    else 0
  }

  /** What an integer operation returns on generator `g`. */
  function IntDraw(alg: Algorithm, g: Generator, op: Op): (r: Int32)
    requires Accepts(op)
    ensures InRange(op, r)
  {
    Conform(op, alg.int32(g.origin, g.log, op))
  }

  /** What `NextDouble()` returns on generator `g`: a number in [0.0, 1.0). */
  function DoubleDraw(alg: Algorithm, g: Generator): (x: real)
    ensures 0.0 <= x < 1.0
  {
    var raw := alg.double(g.origin, g.log);
    if 0.0 <= raw < 1.0 then raw else 0.0
  }
}
