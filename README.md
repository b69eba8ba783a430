# RandomSource, modelled in Dafny

`RandomSource` wraps a seeded `System.Random` and records every draw in its
history. A record holds the draw's 1-based index and its value. An integer
record also holds the bounds the draw was called with. The history can be
serialized to JSON. A second `RandomSource` with the same seed can be built
from that history: it replays one generator call per record, so that its
next draws continue the first source's sequence.

The model has five modules:

- `Base` (base.dfy) holds C#'s 32-bit `int`, `Option`, `Result`, and the
  exceptions a caller can observe.
- `SystemRandom` (system_random.dfy) is an abstract `System.Random`. A
  generator is its origin plus the log of operations applied to it. What an
  operation returns is the output of an arbitrary deterministic `Algorithm`,
  clamped into the range `System.Random` documents. An output already in
  range is kept, so every generator that honours the documentation is
  represented. `Accepts` holds the argument conditions under which
  `System.Random` throws `ArgumentOutOfRangeException` (a negative
  `maxValue`, or `minValue > maxValue`). The bounded draws and replay both
  depend on it.
- `RandomValues` (random_values.dfy) holds the two record shapes, their
  `Type` discriminator, and the converter's `Read`/`Write`.
- `RandomSources` (random_source.dfy) holds the class with its draws, its
  `Reset`, its replay loop and its three constructors. Each draw method is
  proved against the abstract generator and keeps the invariant `Valid()`:
  - every draw since construction or reset bumped `index`;
  - every successful draw left one record in the shape of its operation;
  - the indices of the records increase.
- `Continuation` (continuation.dfy) states what replay achieves. The
  continued generator's log equals the original's up to `SameCursor`, which
  means:
  - a double draw is replayed as `Next()`;
  - `Next(m)` is replayed as `Next(0, m)`;
  - `Next(0)` and `Next(0, 0)` are replayed as `Next()`.

  Whether equal-up-to-`SameCursor` logs give equal draws depends on
  `System.Random`'s algorithm. The model states this as the explicit
  hypothesis `ReplayFaithful` and uses it only in `SameCursorDrawsAlike`
  and `DemoProgram`. Two lemmas show algorithms under which a continuation
  diverges.

Where the documented intent and the code differ, the model follows the code:

- A bounded draw with bad arguments throws after `index` was already
  incremented, so the index skips a number. The ghost counter `skipped`
  accounts for such draws.
- Replay walks the history in array order (the `HashSet`'s enumeration
  order). It does not sort the history by index.
- A `Type` discriminator other than `TypeCode.Int32` is not rejected. Any
  such value reads as a double record.
- A record with `minValue > maxValue` makes the continuation constructor
  throw `ArgumentOutOfRangeException` during replay. Records before it have
  already been replayed by then.

## Model

| member | source | states |
|---|---|---|
| SystemRandom.NewSeeded | src/RandomSource.cs:25 | `new Random(seed)` starts from that seed with no operations applied |
| SystemRandom.Conform | src/RandomSource.cs:101-137 | a result is always in the documented range of its operation, and an algorithm output already in range is returned unchanged |
| SystemRandom.IntDraw | src/RandomSource.cs:108-112 | `Next()` lies in [0, Int32.MaxValue); `Next(m)` lies in [0, m), or is 0 when m is 0; `Next(a, b)` lies in [a, b), or is a when a equals b |
| SystemRandom.DoubleDraw | src/RandomSource.cs:151-158 | `NextDouble()` lies in [0.0, 1.0) |
| RandomValues.TypeOf | src/RandomSource.cs:240-278 | the discriminator is `TypeCode.Int32` exactly for integer records and `TypeCode.Double` exactly for double records |
| RandomValues.Read | src/RandomSource.cs:287-296 | a missing "Type" property throws `KeyNotFoundException`; otherwise the result is an integer record iff Type is `TypeCode.Int32`, and the index, value and bounds come from the element |
| RandomValues.Write | src/RandomSource.cs:298-309 | the element written carries the record's own `Type` and index |
| RandomValues.ReadWrite | src/RandomSource.cs:287-309 | reading back a written record gives the same record |
| RandomValues.UnknownTypeReadsAsDouble | src/RandomSource.cs:290-295 | any discriminator other than `TypeCode.Int32` reads as a double record, whose `Type` is then `TypeCode.Double` |
| RandomValues.ReadAll | src/RandomSource.cs:49 | deserializing an array succeeds iff every element has a "Type"; on success it reads each element in order |
| RandomValues.WriteAll | src/RandomSource.cs:86-87 | serializing a history writes one element per record, in history order, each carrying its record's `Type` and index |
| RandomValues.ReadAllWriteAll | src/RandomSource.cs:49 | a serialized history deserializes to the same history |
| RandomSources.RecordedAppend | src/RandomSource.cs:93-167 | a successful draw that records at index n + 1 keeps the history well formed |
| RandomSources.RecordedWeaken | src/RandomSource.cs:116-122 | a draw that throws after bumping the index keeps the history well formed |
| RandomSources.RecordedFacts | src/RandomSource.cs:93-167 | a well-formed history pairs each record with the operation that made it, and its indices lie in [1, index] and strictly increase |
| RandomSources.DenseIndices | src/RandomSource.cs:93-167 | when no draw has thrown, the n records are numbered exactly 1..n in order |
| RandomSources.ReplayOp | src/RandomSource.cs:56-73 | replay issues `Next()` for a double record or an integer record with both bounds 0, and `Next(min, max)` otherwise; the stored value plays no part |
| RandomSources.ReplayLog | src/RandomSource.cs:52-75 | replay issues one operation per record, in array order |
| RandomSources.ReplayablePrefix | src/RandomSource.cs:54-66 | the records before the first record with min > max all replay, and that record does not |
| RandomSources.ParseHistory | src/RandomSource.cs:44-49 | a null or empty string throws `ArgumentNullException`; on success the history is what the converter reads from the parsed array |
| RandomSources.RandomSource.constructor | src/RandomSource.cs:22-26 | a new source has a generator seeded with `seed`, no history, and index 0 |
| RandomSources.RandomSource.AdvanceRandomToNextIndex | src/RandomSource.cs:52-75 | the generator receives the replay operations of the records, up to the first record that throws; the history and the index do not change |
| RandomSources.RandomSource.ContinueFrom | src/RandomSource.cs:33-36 | it succeeds iff every record replays, and then its generator is the seed's generator after the replay log, with an empty history at index 0; otherwise it throws `ArgumentOutOfRangeException` |
| RandomSources.RandomSource.ContinueFromJson | src/RandomSource.cs:44-50 | a null or empty string throws `ArgumentNullException`; a parse failure is passed on; otherwise it behaves as `ContinueFrom` on the parsed history |
| RandomSources.RandomSource.Values | src/RandomSource.cs:80-81 | the snapshot has one record per successful draw, its indices increase within [1, index], they are exactly 1..n when no draw threw, and every record replays |
| RandomSources.RandomSource.Next | src/RandomSource.cs:93-99 | bumps the index, returns the generator's next value in [0, Int32.MaxValue), and records it with bounds 0 and 0 |
| RandomSources.RandomSource.NextBelow | src/RandomSource.cs:116-122 | bumps the index; a negative maxValue throws and changes nothing else; otherwise it returns a value in [0, maxValue) (0 when maxValue is 0) and records it with bounds 0 and maxValue |
| RandomSources.RandomSource.NextBetween | src/RandomSource.cs:141-149 | bumps the index; minValue > maxValue throws and changes nothing else; otherwise it returns a value in [minValue, maxValue) (minValue when they are equal) and records it with both bounds |
| RandomSources.RandomSource.NextDouble | src/RandomSource.cs:159-167 | bumps the index, returns a value in [0.0, 1.0), and records it as a double record |
| RandomSources.RandomSource.Reset | src/RandomSource.cs:172-181 | reseeds the generator with `seed`, or starts an unseeded one when `seed` is 0, and clears the history and the index |
| Continuation.ReplayedAs | src/RandomSource.cs:56-73 | replay only ever issues `Next()` or a two-bound `Next`, and never `Next(0, 0)` |
| Continuation.ReplayOfRecord | src/RandomSource.cs:52-75 | how a record is replayed depends only on the operation that produced it |
| Continuation.ZeroBoundsCollide | src/RandomSource.cs:60-63 | `Next()`, `Next(0)` and `Next(0, 0)` leave the same record, and replay issues `Next()` for it |
| Continuation.OneArgumentReplayedAsTwo | src/RandomSource.cs:116-122 | a record of `Next(m)` with m > 0 is also a record of `Next(0, m)`, and replay issues `Next(0, m)` |
| Continuation.SameCursorExtend | src/RandomSource.cs:93-167 | applying the same draw to two generators whose logs replay alike keeps them alike |
| Continuation.HistoryReplaysAlike | src/RandomSource.cs:52-75 | the replay log of a history is alike, position by position, to the draws that made it |
| Continuation.CountingAlgorithmIsFaithful | src/RandomSource.cs:52-75 | the continuation hypothesis can be met: an algorithm whose state is the number of draws so far satisfies it |
| Continuation.SameCursorDrawsAlike | src/RandomSource.cs:52-75 | under the hypothesis, generators whose logs replay alike return the same next value |
| Continuation.DoubleReplayCanDiverge | src/RandomSource.cs:69-73 | without the hypothesis, some algorithm makes a continuation diverge after a double draw, which replay issues as `Next()` |
| Continuation.OneArgumentReplayCanDiverge | src/RandomSource.cs:64-67 | without the hypothesis, some algorithm makes a continuation diverge after `Next(m)`, which replay issues as `Next(0, m)` |
| Continuation.SameStateDrawsAlike | src/RandomSource.cs:93-167 | two distinct sources running the same algorithm from the same generator state return the same values for the same draws, bad arguments included, and end in the same generator state |
| Continuation.Continue | src/RandomSource.cs:33-36 | continuing a freshly seeded source from its own `Values` always succeeds, and the new generator has the same origin and a log alike to the original's |
| Continuation.DemoReplayLog | RandomSaveRestoreContinue/Program.cs:11-17 | whatever values were drawn, the records left by the demonstration's six draws replay as `Next()`, `Next(0, 10)`, `Next()`, `Next(2, 15)`, `Next()`, `Next(0, 15)` |
| Continuation.DemoHistory | RandomSaveRestoreContinue/Program.cs:9-17 | the six demonstration draws on a seed-0 source are exactly `Next()`, `Next(10)`, `NextDouble()`, `Next(2, 15)`, `NextDouble()`, `Next(15)`, in order; none throws, the index is 6, and the source stays valid |
| Continuation.DemoProgram | RandomSaveRestoreContinue/Program.cs:9-32 | under the hypothesis, the continuation's `Next(10)` and `NextDouble()` return what the original's return, in [0, 10) and [0.0, 1.0) |

## Left out

- The algorithm of `System.Random` is a parameter (`Algorithm`). Its results are bounded by the ranges `System.Random` documents. For `Next()` that range is [0, Int32.MaxValue), which the source's doc comments do not restate.
- Continuation.DemoProgram: proves that the continuation reproduces the original's draws only under the hypothesis `ReplayFaithful`, because that depends on `System.Random`'s algorithm. `DoubleReplayCanDiverge` and `OneArgumentReplayCanDiverge` show that the hypothesis is needed.
- Continuation.Continue: covers a source built with `RandomSource(seed)`, possibly reset since with a non-zero seed. A source that was itself a continuation has a `Values` list without the replayed draws. A source reset with seed 0 runs an unseeded generator. Continuing either of those is not covered.
- The double's IEEE bits are not modelled: a double record holds a `real`. A draw stores one in [0.0, 1.0); a record read from JSON may hold any number, as the source's may.
- JSON text is not modelled. `JsonElement` is one already-parsed object of the array. The `deserialize` parameter stands for `JsonSerializer.Deserialize`. Its failure (malformed text, or a "Type" that is not a 32-bit integer) is the single `MalformedJson` error. The source reads elements while it parses, so text that has an element without "Type" before a malformed part throws `KeyNotFoundException` there; the model reports `MalformedJson` for it.
- `ValuesAsJson` is not modelled beyond `WriteAll`, the element-by-element serialization of the history. Indentation and property order are text formatting.
- A JSON text `null`, a null array and null elements raise `NullReferenceException` in the source. The model has no null history, so these are not modelled.
- The history is a `HashSet` of value-type records. Every record carries a fresh index, so no two records are equal and nothing is deduplicated. The model uses a sequence in insertion order, which is taken to be the set's enumeration order.
- Overflow of the 32-bit `index`: each draw requires `index < Int32.MaxValue`, so the wrap-around after 2^31 - 1 draws is not modelled.
- `System.Random` members that `RandomSource` inherits without hiding (`NextBytes`, `NextInt64`, `Sample` and the rest) run on the base object's own generator, bypass the history, and are not modelled.
- `Reset` with seed 0 creates `new Random()`, seeded from system entropy. The `entropy` parameter stands for that entropy.
- Concurrent calls are not modelled; the model is sequential.
- The `Type` check on line 71 before replaying a non-integer record is always true for records this model can hold, so replay issues `Next()` for every double record.
- The console output of the demonstration program and the `JsonInterfaceConverterAttribute` glue that attaches the converter are not modelled.
