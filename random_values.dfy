/**
 The records a random source keeps of its draws (`IRandomValue` with its two
 implementations `RandomIntegerValue` and `RandomDoubleValue`), their type
 discriminator, and the converter that picks a record shape when a history
 is read back from JSON.
 */
module RandomValues {
  import opened Base

  /** `TypeCode.Int32`, the discriminator of an integer record. */
  const TypeCodeInt32: int := 9
  /** `TypeCode.Double`, the discriminator of a double record. */
  const TypeCodeDouble: int := 14

  /**
   One recorded draw. An integer record keeps the bounds the draw was called
   with (0 and 0 for the unbounded `Next()`); a double record keeps only its
   index and value. The double's bits are not modelled: `fraction` is the
   number it stands for.
   */
  datatype RandomValue =
    | IntegerValue(index: Int32, value: Int32, minValue: Int32, maxValue: Int32)
    | DoubleValue(index: Int32, fraction: real)

  /** The record's `Type` property. */
  function TypeOf(v: RandomValue): (t: int)
    ensures t == TypeCodeInt32 <==> v.IntegerValue?
    ensures t == TypeCodeDouble <==> v.DoubleValue?
  {
    match v
    case IntegerValue(_, _, _, _) => TypeCodeInt32
    case DoubleValue(_, _) => TypeCodeDouble
  }

  /**
   One JSON object of a serialized history after the library has parsed it:
   its "Type" property, if present (as the 32-bit integer `GetInt32` reads;
   any other "Type" makes parsing fail), and the other properties as the
   reader of the record shape that "Type" selects sees them (a property that
   is absent reads as the serializer's `default` value, 0). The fields that
   the other shape would read are arbitrary: `Read` never looks at them.
   */
  datatype JsonElement = JsonElement(
    typeCode: Option<Int32>,
    index: Int32,
    intValue: Int32,
    doubleValue: real,
    minValue: Int32,
    maxValue: Int32)

  /**
   `RandomValueConverter.Read`: a missing "Type" property throws; a `Type` of
   `TypeCode.Int32` reads an integer record; every other value, known or not,
   reads a double record. There is no rejecting branch.
   */
  function Read(e: JsonElement): (r: Result<RandomValue, Error>)
    ensures r.Failure? <==> e.typeCode.None?
    ensures r.Failure? ==> r.error == KeyNotFound
    ensures r.Success? ==> r.value.index == e.index
    ensures r.Success? ==> (r.value.IntegerValue? <==> e.typeCode.value == TypeCodeInt32)
    ensures r.Success? && r.value.IntegerValue? ==>
      r.value.value == e.intValue && r.value.minValue == e.minValue && r.value.maxValue == e.maxValue
    ensures r.Success? && r.value.DoubleValue? ==> r.value.fraction == e.doubleValue
  {
    match e.typeCode
    case None => Failure(KeyNotFound)
    case Some(t) =>
      if t == TypeCodeInt32 then Success(IntegerValue(e.index, e.intValue, e.minValue, e.maxValue))
      else Success(DoubleValue(e.index, e.doubleValue))
  }

  /**
   The JSON object the serializer writes for a record: its properties and its
   `Type`; a double record has no bounds and no integer value.
   */
  function Write(v: RandomValue): (e: JsonElement)
    ensures e.typeCode == Some(TypeOf(v)) && e.index == v.index
  {
    match v
    case IntegerValue(i, x, lo, hi) => JsonElement(Some(TypeCodeInt32), i, x, 0.0, lo, hi)
    case DoubleValue(i, x) => JsonElement(Some(TypeCodeDouble), i, 0, x, 0, 0)
  }

  /** Reading back what was written gives the same record, field by field. */
  lemma ReadWrite(v: RandomValue)
    ensures Read(Write(v)) == Success(v)
  {
  }

  /**
   A discriminator that names neither record type is not rejected: it reads
   as a double record, whose own `Type` is then `TypeCode.Double`.
   */
  lemma UnknownTypeReadsAsDouble(e: JsonElement)
    requires e.typeCode.Some? && e.typeCode.value != TypeCodeInt32
    ensures Read(e).Success? && Read(e).value.DoubleValue?
    ensures TypeOf(Read(e).value) == TypeCodeDouble
  {
  }

  /**
   Deserializing an array of records: each element goes through `Read` in
   array order, and the first failure is the result.
   */
  function ReadAll(es: seq<JsonElement>): (r: Result<seq<RandomValue>, Error>)
    ensures r.Success? <==> forall i | 0 <= i < |es| :: es[i].typeCode.Some?
    ensures r.Failure? ==> r.error == KeyNotFound
    ensures r.Success? ==>
      |r.value| == |es| && forall i | 0 <= i < |es| :: Read(es[i]) == Success(r.value[i])
  {
    if es == [] then Success([])
    else match Read(es[0])
      case Failure(err) => Failure(err)
      case Success(v) =>
        match ReadAll(es[1..])
        case Failure(err) => Failure(err)
        case Success(vs) =>
          assert forall i | 1 <= i < |es| :: es[i] == es[1..][i - 1];
          Success([v] + vs)
  }

  /** Serializing a history element by element, in order. */
  function WriteAll(vs: seq<RandomValue>): (es: seq<JsonElement>)
    ensures |es| == |vs|
    ensures forall i | 0 <= i < |vs| :: es[i].typeCode == Some(TypeOf(vs[i])) && es[i].index == vs[i].index
  {
    seq(|vs|, i requires 0 <= i < |vs| => Write(vs[i]))
  }

  /** Round trip of a whole history: reading what was written gives it back. */
  lemma {:induction false} ReadAllWriteAll(vs: seq<RandomValue>)
    ensures ReadAll(WriteAll(vs)) == Success(vs)
  {
    if vs != [] {
      var es := WriteAll(vs);
      ReadAllWriteAll(vs[1..]);
      assert es[1..] == WriteAll(vs[1..]);
      ReadWrite(vs[0]);
      assert [vs[0]] + vs[1..] == vs;
    }
  }
}
