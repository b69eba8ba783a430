/**
 What replay achieves. Replay reproduces the generator's operation log only
 up to the information a record keeps: a double draw comes back as an
 unbounded integer draw, `Next(maxValue)` as `Next(0, maxValue)`, and
 `Next(0)` or `Next(0, 0)` as `Next()`. Whether the continued generator
 then returns what the original would have returned is a property of
 `System.Random`'s algorithm, stated here as the hypothesis
 `ReplayFaithful` and never assumed anywhere else.
 */
module Continuation {
  import opened Base
  import opened SystemRandom
  import opened RandomValues
  import opened RandomSources

  /** The operation replay issues for the record that a successful `op` leaves. */
  function ReplayedAs(op: Op): (op': Op)
    ensures op'.NextU? || op'.NextRange?
    ensures op'.NextRange? ==> op'.minValue != 0 || op'.maxValue != 0
  {
    match op
    case NextU => NextU
    case NextMax(m) => if m == 0 then NextU else NextRange(0, m)
    case NextRange(a, b) => if a == 0 && b == 0 then NextU else NextRange(a, b)
    case NextDouble => NextU
  }

  /** Replay depends on a record only through the operation that made it. */
  lemma ReplayOfRecord(op: Op, v: RandomValue)
    requires Records(op, v)
    ensures ReplayOp(v) == ReplayedAs(op)
  {
  }

  /**
   `Next()`, `Next(0)` and `Next(0, 0)` leave the same record, which replay
   issues as the unbounded `rnd.Next()`.
   */
  lemma ZeroBoundsCollide(i: Int32)
    ensures Records(NextU, IntegerValue(i, 0, 0, 0))
    ensures Records(NextMax(0), IntegerValue(i, 0, 0, 0))
    ensures Records(NextRange(0, 0), IntegerValue(i, 0, 0, 0))
    ensures ReplayOp(IntegerValue(i, 0, 0, 0)) == NextU
  {
  }

  /**
   A record of `Next(maxValue)` with maxValue > 0 is also the record of
   `Next(0, maxValue)`, and replay issues the two-argument draw.
   */
  lemma OneArgumentReplayedAsTwo(m: Int32, v: RandomValue)
    requires 0 < m && Records(NextMax(m), v)
    ensures Records(NextRange(0, m), v)
    ensures ReplayOp(v) == NextRange(0, m)
  {
  }

  /**
   Two operation logs that replay alike: the same length, and at each
   position operations whose records replay as the same operation.
   */
  ghost predicate SameCursor(l1: seq<Op>, l2: seq<Op>) {
    |l1| == |l2| && forall i | 0 <= i < |l1| :: ReplayedAs(l1[i]) == ReplayedAs(l2[i])
  }

  /** Applying the same operation to two logs that replay alike keeps them so. */
  lemma SameCursorExtend(l1: seq<Op>, l2: seq<Op>, op: Op)
    requires SameCursor(l1, l2)
    ensures SameCursor(l1 + [op], l2 + [op])
  {
    forall i | 0 <= i < |l1| + 1
      ensures ReplayedAs((l1 + [op])[i]) == ReplayedAs((l2 + [op])[i])
    {
      if i < |l1| {
        assert (l1 + [op])[i] == l1[i] && (l2 + [op])[i] == l2[i];
      }
    }
  }

  /**
   The log replay builds from a history replays like the log of the draws
   that made the history.
   */
  lemma HistoryReplaysAlike(drawn: seq<Op>, values: seq<RandomValue>)
    requires |drawn| == |values|
    requires forall i | 0 <= i < |values| :: Records(drawn[i], values[i])
    ensures SameCursor(drawn, ReplayLog(values))
  {
    forall i | 0 <= i < |drawn|
      ensures ReplayedAs(drawn[i]) == ReplayedAs(ReplayLog(values)[i])
    {
      ReplayOfRecord(drawn[i], values[i]);
    }
  }

  /**
   HYPOTHESIS about `System.Random`, not proved: what the generator returns
   depends on the operations applied since seeding only up to `SameCursor`,
   that is, a double draw moves the generator as an unbounded integer draw
   does, `Next(maxValue)` as `Next(0, maxValue)` does, and `Next(0)` and
   `Next(0, 0)` as `Next()` do.
   */
  ghost predicate ReplayFaithful(alg: Algorithm) {
    && (forall o, l1, l2, op | SameCursor(l1, l2) :: alg.int32(o, l1, op) == alg.int32(o, l2, op))
    && (forall o, l1, l2 | SameCursor(l1, l2) :: alg.double(o, l1) == alg.double(o, l2))
  }

  /** The hypothesis holds of an algorithm whose state is the number of draws so far. */
  lemma CountingAlgorithmIsFaithful()
    ensures ReplayFaithful(Algorithm((o: Origin, l: seq<Op>, op: Op) => |l|, (o: Origin, l: seq<Op>) => 0.0))
  {
  }

  /** Under the hypothesis, generators whose logs replay alike draw alike. */
  lemma SameCursorDrawsAlike(alg: Algorithm, o: Origin, l1: seq<Op>, l2: seq<Op>, op: Op)
    requires ReplayFaithful(alg) && SameCursor(l1, l2)
    ensures Accepts(op) ==> IntDraw(alg, Generator(o, l1), op) == IntDraw(alg, Generator(o, l2), op)
    ensures DoubleDraw(alg, Generator(o, l1)) == DoubleDraw(alg, Generator(o, l2))
  {
  }

  /**
   Without the hypothesis a continuation can diverge: after one double draw,
   some algorithm makes the next `Next()` of the original differ from that of
   its continuation, which replayed the double draw as `rnd.Next()`.
   */
  lemma DoubleReplayCanDiverge()
    ensures exists alg: Algorithm, x: real ::
      && Records(NextDouble, DoubleValue(1, x))
      && IntDraw(alg, Generator(Seeded(0), [NextDouble]), NextU)
         != IntDraw(alg, Generator(Seeded(0), ReplayLog([DoubleValue(1, x)])), NextU)
  {
    var alg := Algorithm((o: Origin, l: seq<Op>, op: Op) => if NextDouble in l then 1 else 0,
                         (o: Origin, l: seq<Op>) => 0.0);
    var v := DoubleValue(1, 0.5);
    assert ReplayLog([v]) == [NextU];
    assert NextDouble in [NextDouble];
    assert IntDraw(alg, Generator(Seeded(0), [NextDouble]), NextU) == 1;
    assert IntDraw(alg, Generator(Seeded(0), [NextU]), NextU) == 0;
  }

  /**
   Likewise for `Next(maxValue)`: some algorithm tells the one-argument draw
   from the two-argument one that replay issues in its place.
   */
  lemma OneArgumentReplayCanDiverge()
    ensures exists alg: Algorithm, x: Int32 ::
      && Records(NextMax(10), IntegerValue(1, x, 0, 10))
      && IntDraw(alg, Generator(Seeded(0), [NextMax(10)]), NextU)
         != IntDraw(alg, Generator(Seeded(0), ReplayLog([IntegerValue(1, x, 0, 10)])), NextU)
  {
    var alg := Algorithm((o: Origin, l: seq<Op>, op: Op) => if NextMax(10) in l then 1 else 0,
                         (o: Origin, l: seq<Op>) => 0.0);
    var v := IntegerValue(1, 3, 0, 10);
    assert ReplayLog([v]) == [NextRange(0, 10)];
    assert NextMax(10) in [NextMax(10)];
    assert IntDraw(alg, Generator(Seeded(0), [NextMax(10)]), NextU) == 1;
    assert IntDraw(alg, Generator(Seeded(0), [NextRange(0, 10)]), NextU) == 0;
  }

  /** `b`'s generator is positioned where `a`'s is, up to `SameCursor`. */
  ghost predicate Continues(b: RandomSource, a: RandomSource)
    reads a, b
  {
    && a.algorithm == b.algorithm
    && a.rnd.origin == b.rnd.origin
    && SameCursor(a.rnd.log, b.rnd.log)
  }

  /**
   Continuing a source that was built with `RandomSource(seed)` (or reset
   with a non-zero seed) from its own `Values` always succeeds and yields a
   source that continues it. A source that was itself a continuation, or was
   reset with seed 0, is not covered: its `Values` omit the replayed draws,
   and its generator did not start from `Seeded(seed)`.
   */
  method Continue(a: RandomSource) returns (b: RandomSource)
    requires a.Valid() && a.replayed == [] && a.rnd.origin == Seeded(a.seed)
    ensures fresh(b) && b.Valid()
    ensures b.seed == a.seed && b.values == [] && b.index == 0 && b.drawn == []
    ensures b.rnd.log == ReplayLog(a.values)
    ensures Continues(b, a)
  {
    var r := RandomSource.ContinueFrom(a.seed, a.algorithm, a.Values());
    b := r.value;
    RecordedFacts(a.drawn, a.values, a.index);
    HistoryReplaysAlike(a.drawn, a.values);
  }

  /**
   Determinism of the random source: two distinct sources that run the same
   algorithm from the same generator state return the same values for the
   same sequence of draws, and end in the same generator state.
   */
  method SameStateDrawsAlike(a: RandomSource, b: RandomSource, maxValue: Int32, minValue: Int32, upper: Int32)
    returns (a1: Int32, a2: Result<Int32, Error>, a3: Result<Int32, Error>, a4: real,
             b1: Int32, b2: Result<Int32, Error>, b3: Result<Int32, Error>, b4: real)
    requires a != b && a.Valid() && b.Valid()
    requires a.algorithm == b.algorithm && a.rnd == b.rnd
    requires a.index < Int32Max - 3 && b.index < Int32Max - 3
    modifies a, b
    ensures a1 == b1 && a2 == b2 && a3 == b3 && a4 == b4
    ensures a.rnd == b.rnd
  {
    a1 := a.Next();
    b1 := b.Next();
    a2 := a.NextBelow(maxValue);
    b2 := b.NextBelow(maxValue);
    a3 := a.NextBetween(minValue, upper);
    b3 := b.NextBetween(minValue, upper);
    a4 := a.NextDouble();
    b4 := b.NextDouble();
  }

  /**
   The draws of the demonstration program, in order: `Next()`, `Next(10)`,
   `NextDouble()`, `Next(2, 15)`, `NextDouble()`, `Next(15)`.
   */
  predicate DemoDraws(d: seq<Op>) {
    && |d| == 6
    && d[0] == NextU && d[1] == NextMax(10) && d[2] == Op.NextDouble
    && d[3] == NextRange(2, 15) && d[4] == Op.NextDouble && d[5] == NextMax(15)
  }

  /**
   Whatever values the demonstration draws returned, the history they left
   replays as `Next()`, `Next(0, 10)`, `Next()`, `Next(2, 15)`, `Next()`,
   `Next(0, 15)`.
   */
  lemma DemoReplayLog(drawn: seq<Op>, values: seq<RandomValue>)
    requires DemoDraws(drawn) && |values| == |drawn|
    requires forall i | 0 <= i < |values| :: Records(drawn[i], values[i])
    ensures ReplayLog(values) == [NextU, NextRange(0, 10), NextU, NextRange(2, 15), NextU, NextRange(0, 15)]
  {
    forall i | 0 <= i < 6
      ensures ReplayOp(values[i]) == ReplayedAs(drawn[i])
    {
      ReplayOfRecord(drawn[i], values[i]);
    }
  }

  /**
   The first half of the demonstration program: a source with seed 0 and the
   draws `Next()`, `Next(10)`, `NextDouble()`, `Next(2, 15)`, `NextDouble()`,
   `Next(15)`, in that order, none of which throws.
   */
  method DemoHistory(alg: Algorithm) returns (a: RandomSource)
    ensures fresh(a) && a.Valid()
    ensures a.seed == 0 && a.algorithm == alg && a.rnd.origin == Seeded(0)
    ensures a.replayed == [] && a.index == 6 && a.skipped == 0
    ensures DemoDraws(a.drawn)
  {
    a := new RandomSource(0, alg);
    var _ := a.Next();
    var _ := a.NextBelow(10);
    var _ := a.NextDouble();
    var _ := a.NextBetween(2, 15);
    var _ := a.NextDouble();
    var _ := a.NextBelow(15);
  }

  /**
   The demonstration program: six draws on A with seed 0, a continuation B
   from A's history, then `Next(10)` and `NextDouble()` on both. Under the
   hypothesis, B returns what A returns.
   */
  method DemoProgram(alg: Algorithm) returns (a7: Int32, a8: real, b7: Int32, b8: real)
    requires ReplayFaithful(alg)
    ensures a7 == b7 && a8 == b8
    ensures 0 <= a7 < 10 && 0.0 <= a8 < 1.0
  {
    var a := DemoHistory(alg);
    var b := Continue(a);

    ghost var o, la, lb := a.rnd.origin, a.rnd.log, b.rnd.log;
    SameCursorDrawsAlike(alg, o, la, lb, NextMax(10));
    var rb := b.NextBelow(10);
    var ra := a.NextBelow(10);
    a7, b7 := ra.value, rb.value;

    SameCursorExtend(la, lb, NextMax(10));
    SameCursorDrawsAlike(alg, o, la + [NextMax(10)], lb + [NextMax(10)], NextU);
    b8 := b.NextDouble();
    a8 := a.NextDouble();
  }
}
