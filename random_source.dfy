/**
 `RandomSource`: a seeded generator that records every draw it makes, and
 that can be constructed so as to continue where an earlier instance with
 the same seed stopped, by replaying that instance's history.
 */
module RandomSources {
  import opened Base
  import opened SystemRandom
  import opened RandomValues

  /**
   Record `v` has the shape a successful draw of operation `op` leaves:
   the bounds it was called with and a value in the documented range.
   */
  predicate Records(op: Op, v: RandomValue) {
    match op
    case NextU =>
      v.IntegerValue? && v.minValue == 0 && v.maxValue == 0 && InRange(op, v.value)
    case NextMax(m) =>
      v.IntegerValue? && v.minValue == 0 && v.maxValue == m && InRange(op, v.value)
    case NextRange(a, b) =>
      v.IntegerValue? && v.minValue == a && v.maxValue == b && InRange(op, v.value)
    case NextDouble =>
      v.DoubleValue? && 0.0 <= v.fraction < 1.0
  }

  /** Indices lie in [1, n] and strictly increase along the history. */
  ghost predicate IndicesWithin(vs: seq<RandomValue>, n: int) {
    && (forall i | 0 <= i < |vs| :: 1 <= vs[i].index <= n)
    && (forall i, j | 0 <= i < j < |vs| :: vs[i].index < vs[j].index)
  }

  lemma {:induction false} IndexAtLeast(vs: seq<RandomValue>, n: int, i: nat)
    requires IndicesWithin(vs, n) && i < |vs|
    ensures vs[i].index >= i + 1
  {
    if i > 0 {
      IndexAtLeast(vs, n, i - 1);
    }
  }

  lemma {:induction false} IndexAtMost(vs: seq<RandomValue>, n: int, i: nat)
    requires IndicesWithin(vs, n) && i < |vs|
    ensures vs[i].index <= n - (|vs| - 1 - i)
    decreases |vs| - i
  {
    if i < |vs| - 1 {
      IndexAtMost(vs, n, i + 1);
    }
  }

  /**
   `drawn` and `values` pair one generator operation with the record it
   left, the last record's index is at most `n`, and the records before it
   have smaller indices, down to 1. Stated record by record from the end, so
   that a draw has only the newest record to check.
   */
  ghost predicate Recorded(drawn: seq<Op>, values: seq<RandomValue>, n: int)
    decreases |values|
  {
    && |drawn| == |values|
    && if values == [] then 0 <= n
       else
         var k := |values| - 1;
         && Records(drawn[k], values[k])
         && values[k].index <= n
         && Recorded(drawn[..k], values[..k], values[k].index - 1)
  }

  /** A draw that records `v` for `op` at index n + 1 extends a recorded history. */
  lemma RecordedAppend(drawn: seq<Op>, values: seq<RandomValue>, n: int, op: Op, v: RandomValue)
    requires Recorded(drawn, values, n) && Records(op, v) && v.index == n + 1
    ensures Recorded(drawn + [op], values + [v], n + 1)
  {
    assert (drawn + [op])[..|drawn|] == drawn;
    assert (values + [v])[..|values|] == values;
  }

  /** A larger bound keeps a history recorded. */
  lemma RecordedWeaken(drawn: seq<Op>, values: seq<RandomValue>, n: int, m: int)
    requires Recorded(drawn, values, n) && n <= m
    ensures Recorded(drawn, values, m)
  {
  }

  /**
   What a recorded history guarantees, position by position: each record has
   the shape of its operation, and the indices lie in [1, n] and strictly
   increase.
   */
  lemma {:induction false} RecordedFacts(drawn: seq<Op>, values: seq<RandomValue>, n: int)
    requires Recorded(drawn, values, n)
    ensures forall i | 0 <= i < |values| :: Records(drawn[i], values[i])
    ensures IndicesWithin(values, n)
    decreases |values|
  {
    if values != [] {
      var k := |values| - 1;
      var d, vs := drawn[..k], values[..k];
      RecordedFacts(d, vs, values[k].index - 1);
      assert forall i | 0 <= i < k :: d[i] == drawn[i] && vs[i] == values[i];
    }
  }

  /**
   A history of n records whose indices are distinct, increasing and within
   [1, n] is numbered exactly 1, 2, ..., n in order.
   */
  lemma DenseIndices(vs: seq<RandomValue>, n: int)
    requires IndicesWithin(vs, n) && |vs| == n
    ensures forall i | 0 <= i < |vs| :: vs[i].index == i + 1
  {
    forall i | 0 <= i < |vs|
      ensures vs[i].index == i + 1
    {
      IndexAtLeast(vs, n, i);
      IndexAtMost(vs, n, i);
    }
  }

  /**
   The replay dispatch of `AdvanceRandomToNextIndex`: an integer record with
   both bounds 0 is replayed by `rnd.Next()`, any other integer record by
   `rnd.Next(minValue, maxValue)`, and a double record by `rnd.Next()` too.
   The stored value plays no part.
   */
  function ReplayOp(v: RandomValue): (op: Op)
    ensures op == NextU <==> v.DoubleValue? || (v.minValue == 0 && v.maxValue == 0)
    ensures op != NextU ==> op == NextRange(v.minValue, v.maxValue)
  {
    match v
    case IntegerValue(_, _, lo, hi) => if lo == 0 && hi == 0 then NextU else NextRange(lo, hi)
    case DoubleValue(_, _) => NextU
  }

  /** The operations replay issues for a history, one per record, in array order. */
  function ReplayLog(vs: seq<RandomValue>): (ops: seq<Op>)
    ensures |ops| == |vs|
    ensures forall i | 0 <= i < |vs| :: ops[i] == ReplayOp(vs[i])
  {
    if vs == [] then []
    else ReplayLog(vs[..|vs| - 1]) + [ReplayOp(vs[|vs| - 1])]
  }

  /** Replaying one more record appends its replay operation. */
  lemma ReplayLogAppend(vs: seq<RandomValue>, v: RandomValue)
    ensures ReplayLog(vs + [v]) == ReplayLog(vs) + [ReplayOp(v)]
  {
    assert (vs + [v])[..|vs|] == vs;
  }

  /** A record replays without throwing: its replay operation accepts its bounds. */
  predicate Replayable(v: RandomValue) {
    v.IntegerValue? ==> v.minValue <= v.maxValue
  }

  /** How many records replay before the first that throws. */
  function ReplayablePrefix(vs: seq<RandomValue>): (k: nat)
    ensures k <= |vs|
    ensures forall i | 0 <= i < k :: Replayable(vs[i])
    ensures k < |vs| ==> !Replayable(vs[k])
  {
    if vs == [] || !Replayable(vs[0]) then 0
    else 1 + ReplayablePrefix(vs[1..])
  }

  /**
   The text constructor's front half: a null or empty string throws
   `ArgumentNullException` before anything is parsed; otherwise the
   serializer parses the text (`deserialize` stands for it) and every element
   goes through the converter's `Read`.
   */
  function ParseHistory(json: Option<string>, deserialize: string -> Option<seq<JsonElement>>)
    : (r: Result<seq<RandomValue>, Error>)
    ensures (json.None? || json.value == "") <==> r == Failure(ArgumentNull)
    ensures r.Success? ==>
      json.Some? && deserialize(json.value).Some? && ReadAll(deserialize(json.value).value) == r
  {
    if json.None? || json.value == "" then Failure(ArgumentNull)
    else match deserialize(json.value)
      case None => Failure(MalformedJson)
      case Some(es) => ReadAll(es)
  }

  class RandomSource {
    const seed: Int32
    /** The algorithm of `System.Random` that every generator of this source runs. */
    const algorithm: Algorithm
    /** The history, in insertion order. */
    var values: seq<RandomValue>
    var index: Int32
    var rnd: Generator

    /** The operations replay applied to `rnd` when this source was constructed. */
    ghost var replayed: seq<Op>
    /** The generator operation of each recorded draw, one per record. */
    ghost var drawn: seq<Op>
    /** Bounded draws that threw after `index` was already incremented. */
    ghost var skipped: nat

    /**
     The object invariant: every draw since construction or reset bumped
     `index`, and every successful one added one record in the shape of the
     operation it issued on `rnd`, after the replayed operations.
     */
    ghost predicate Valid()
      reads this
    {
      && index == |values| + skipped
      && rnd.log == replayed + drawn
      && Recorded(drawn, values, index)
    }

    /** `RandomSource(int seed)`: a generator seeded with `seed`, no history. */
    constructor (seed: Int32, algorithm: Algorithm)
      ensures Valid()
      ensures this.seed == seed && this.algorithm == algorithm
      ensures rnd == NewSeeded(seed)
      ensures values == [] && index == 0
      ensures replayed == [] && drawn == [] && skipped == 0
    {
      this.seed := seed;
      this.algorithm := algorithm;
      rnd := NewSeeded(seed);
      values := [];
      index := 0;
      replayed := [];
      drawn := [];
      skipped := 0;
    }

    /**
     `AdvanceRandomToNextIndex`: walks the records in array order and issues
     each one's replay operation on `rnd`; a record whose bounds the
     generator rejects throws, after the records before it were replayed.
     Only the generator moves; the history and `index` stay as they are.
     */
    method AdvanceRandomToNextIndex(previousValues: seq<RandomValue>) returns (ok: bool)
      requires Valid() && drawn == []
      modifies this`rnd, this`replayed
      ensures Valid()
      ensures ok <==> ReplayablePrefix(previousValues) == |previousValues|
      ensures rnd.origin == old(rnd.origin)
      ensures rnd.log == old(rnd.log) + ReplayLog(previousValues[..ReplayablePrefix(previousValues)])
    {
      ok := true;
      var i := 0;
      while i < |previousValues|
        invariant 0 <= i <= ReplayablePrefix(previousValues)
        invariant rnd.log == replayed
        invariant rnd.origin == old(rnd.origin)
        invariant rnd.log == old(rnd.log) + ReplayLog(previousValues[..i])
      {
        var val := previousValues[i];
        var op := ReplayOp(val);
        if !Accepts(op) {
          ok := false;
          return;
        }
        assert previousValues[..i + 1] == previousValues[..i] + [val];
        ReplayLogAppend(previousValues[..i], val);
        rnd := Advance(rnd, op);
        replayed := replayed + [op];
        i := i + 1;
      }
    }

    /**
     `RandomSource(int seed, IRandomValue[] previousValues)`: seeds a new
     generator and replays the history on it. The new source keeps no history
     and starts at index 0. A record with minValue > maxValue makes the
     construction throw.
     */
    static method ContinueFrom(seed: Int32, algorithm: Algorithm, previousValues: seq<RandomValue>)
      returns (r: Result<RandomSource, Error>)
      ensures r.Success? <==> forall i | 0 <= i < |previousValues| :: Replayable(previousValues[i])
      ensures r.Failure? ==> r.error == ArgumentOutOfRange
      ensures r.Success? ==> fresh(r.value) && r.value.Valid()
      ensures r.Success? ==> r.value.seed == seed && r.value.algorithm == algorithm
      ensures r.Success? ==> r.value.rnd == Generator(Seeded(seed), ReplayLog(previousValues))
      ensures r.Success? ==> r.value.values == [] && r.value.index == 0
      ensures r.Success? ==> r.value.drawn == [] && r.value.skipped == 0
    {
      var source := new RandomSource(seed, algorithm);
      var ok := source.AdvanceRandomToNextIndex(previousValues);
      if ok {
        assert previousValues[..|previousValues|] == previousValues;
        r := Success(source);
      } else {
        r := Failure(ArgumentOutOfRange);
      }
    }

    /**
     `RandomSource(int seed, string previousValuesFromJson)`: as
     `ContinueFrom`, on the history parsed from the JSON text.
     */
    static method ContinueFromJson(
      seed: Int32, algorithm: Algorithm,
      json: Option<string>, deserialize: string -> Option<seq<JsonElement>>)
      returns (r: Result<RandomSource, Error>)
      ensures (json.None? || json.value == "") ==> r == Failure(ArgumentNull)
      ensures ParseHistory(json, deserialize).Failure? ==> r == Failure(ParseHistory(json, deserialize).error)
      ensures ParseHistory(json, deserialize).Success? ==>
        var vs := ParseHistory(json, deserialize).value;
        && (r.Success? <==> forall i | 0 <= i < |vs| :: Replayable(vs[i]))
        && (r.Failure? ==> r.error == ArgumentOutOfRange)
        && (r.Success? ==>
              && fresh(r.value) && r.value.Valid()
              && r.value.seed == seed && r.value.algorithm == algorithm
              && r.value.rnd == Generator(Seeded(seed), ReplayLog(vs))
              && r.value.values == [] && r.value.index == 0
              && r.value.drawn == [] && r.value.skipped == 0)
    {
      match ParseHistory(json, deserialize)
      case Failure(err) =>
        r := Failure(err);
      case Success(vs) =>
        r := ContinueFrom(seed, algorithm, vs);
    }

    /**
     `Values`: a snapshot of the history in insertion order. It is a value,
     so later draws do not change it. Its indices increase; when no bounded
     draw has thrown they are exactly 1..n; and every record replays.
     */
    function Values(): (r: seq<RandomValue>)
      reads this
      requires Valid()
      ensures |r| == index - skipped
      ensures IndicesWithin(r, index)
      ensures skipped == 0 ==> forall i | 0 <= i < |r| :: r[i].index == i + 1
      ensures forall i | 0 <= i < |r| :: Replayable(r[i])
    {
      RecordedFacts(drawn, values, index);
      assert skipped == 0 ==> forall i | 0 <= i < |values| :: values[i].index == i + 1 by {
        if skipped == 0 {
          DenseIndices(values, index);
        }
      }
      values
    }

    /** `Next()`: an unbounded draw, recorded with bounds 0 and 0. */
    method Next() returns (r: Int32)
      requires Valid() && index < Int32Max
      modifies this
      ensures Valid()
      ensures index == old(index) + 1
      ensures r == IntDraw(algorithm, old(rnd), NextU) && 0 <= r < Int32Max
      ensures rnd == Advance(old(rnd), NextU)
      ensures values == old(values) + [IntegerValue(index, r, 0, 0)]
      ensures drawn == old(drawn) + [NextU]
      ensures replayed == old(replayed) && skipped == old(skipped)
    {
      RecordedAppend(drawn, values, index, NextU, IntegerValue(index + 1, IntDraw(algorithm, rnd, NextU), 0, 0));
      index := index + 1;
      r := IntDraw(algorithm, rnd, NextU);
      rnd := Advance(rnd, NextU);
      values := values + [IntegerValue(index, r, 0, 0)];
      drawn := drawn + [NextU];
    }

    /**
     `Next(maxValue)`: a draw in [0, maxValue), recorded with bounds 0 and
     maxValue. A negative maxValue throws after `index` was incremented,
     and nothing is recorded.
     */
    method NextBelow(maxValue: Int32) returns (r: Result<Int32, Error>)
      requires Valid() && index < Int32Max
      modifies this
      ensures Valid()
      ensures index == old(index) + 1
      ensures maxValue < 0 ==> (r == Failure(ArgumentOutOfRange)
        && rnd == old(rnd) && values == old(values) && drawn == old(drawn)
        && skipped == old(skipped) + 1)
      ensures 0 <= maxValue ==> (r.Success?
        && r.value == IntDraw(algorithm, old(rnd), NextMax(maxValue))
        && (if maxValue == 0 then r.value == 0 else 0 <= r.value < maxValue)
        && rnd == Advance(old(rnd), NextMax(maxValue))
        && values == old(values) + [IntegerValue(index, r.value, 0, maxValue)]
        && drawn == old(drawn) + [NextMax(maxValue)]
        && skipped == old(skipped))
      ensures replayed == old(replayed)
    {
      index := index + 1;
      var op := NextMax(maxValue);
      if !Accepts(op) {
        RecordedWeaken(drawn, values, index - 1, index);
        skipped := skipped + 1;
        r := Failure(ArgumentOutOfRange);
        return;
      }
      var val := IntDraw(algorithm, rnd, op);
      RecordedAppend(drawn, values, index - 1, op, IntegerValue(index, val, 0, maxValue));
      rnd := Advance(rnd, op);
      values := values + [IntegerValue(index, val, 0, maxValue)];
      drawn := drawn + [op];
      r := Success(val);
    }

    /**
     `Next(minValue, maxValue)`: a draw in [minValue, maxValue), recorded with
     both bounds as given. minValue > maxValue throws after `index` was
     incremented, and nothing is recorded.
     */
    method NextBetween(minValue: Int32, maxValue: Int32) returns (r: Result<Int32, Error>)
      requires Valid() && index < Int32Max
      modifies this
      ensures Valid()
      ensures index == old(index) + 1
      ensures minValue > maxValue ==> (r == Failure(ArgumentOutOfRange)
        && rnd == old(rnd) && values == old(values) && drawn == old(drawn)
        && skipped == old(skipped) + 1)
      ensures minValue <= maxValue ==> (r.Success?
        && r.value == IntDraw(algorithm, old(rnd), NextRange(minValue, maxValue))
        && (if minValue == maxValue then r.value == minValue else minValue <= r.value < maxValue)
        && rnd == Advance(old(rnd), NextRange(minValue, maxValue))
        && values == old(values) + [IntegerValue(index, r.value, minValue, maxValue)]
        && drawn == old(drawn) + [NextRange(minValue, maxValue)]
        && skipped == old(skipped))
      ensures replayed == old(replayed)
    {
      index := index + 1;
      var op := NextRange(minValue, maxValue);
      if !Accepts(op) {
        RecordedWeaken(drawn, values, index - 1, index);
        skipped := skipped + 1;
        r := Failure(ArgumentOutOfRange);
        return;
      }
      var val := IntDraw(algorithm, rnd, op);
      RecordedAppend(drawn, values, index - 1, op, IntegerValue(index, val, minValue, maxValue));
      rnd := Advance(rnd, op);
      values := values + [IntegerValue(index, val, minValue, maxValue)];
      drawn := drawn + [op];
      r := Success(val);
    }

    /** `NextDouble()`: a draw in [0.0, 1.0), recorded as a double record. */
    method NextDouble() returns (x: real)
      requires Valid() && index < Int32Max
      modifies this
      ensures Valid()
      ensures index == old(index) + 1
      ensures x == DoubleDraw(algorithm, old(rnd)) && 0.0 <= x < 1.0
      ensures rnd == Advance(old(rnd), Op.NextDouble)
      ensures values == old(values) + [DoubleValue(index, x)]
      ensures drawn == old(drawn) + [Op.NextDouble]
      ensures replayed == old(replayed) && skipped == old(skipped)
    {
      RecordedAppend(drawn, values, index, Op.NextDouble, DoubleValue(index + 1, DoubleDraw(algorithm, rnd)));
      index := index + 1;
      x := DoubleDraw(algorithm, rnd);
      rnd := Advance(rnd, Op.NextDouble);
      values := values + [DoubleValue(index, x)];
      drawn := drawn + [Op.NextDouble];
    }

    /**
     `Reset`: a new generator and an empty history at index 0. With a
     non-zero seed the generator is reseeded with it; with seed 0 it is an
     unseeded `new Random()`, whose starting point `entropy` stands for.
     The seed itself does not change.
     */
    method Reset(entropy: int)
      modifies this
      ensures Valid()
      ensures rnd == Generator(if seed == 0 then Unseeded(entropy) else Seeded(seed), [])
      ensures values == [] && index == 0
      ensures replayed == [] && drawn == [] && skipped == 0
    {
      if seed == 0 {
        rnd := Generator(Unseeded(entropy), []);
      } else {
        rnd := NewSeeded(seed);
      }
      values := [];
      index := 0;
      replayed := [];
      drawn := [];
      skipped := 0;
    }
  }
}
