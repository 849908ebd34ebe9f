/**
 * The effect of `JsonConvert.DeserializeObject<List<TestCase>>` on the model.
 * The JSON text itself is not parsed here: a document is given already split
 * into its top-level shape and, per object, the properties that are present.
 * The deserialiser builds each record with the parameterless constructor and
 * then calls the setter of every property the object carries.
 */
module Json {
  import opened Wrappers
  import opened Cases

  /**
   * One JSON object of the input array. The outer `Option` says whether the
   * property is present; for the string properties the inner `Option` is an
   * explicit JSON `null`.
   */
  datatype JsonObject = JsonObject(
    name: Option<Option<string>>,
    status: Option<Option<string>>,
    executionTime: Option<real>,
    timestamp: Option<DateTime>)

  /**
   * The top-level outcome of deserialising a text: text the library rejects
   * (it throws), a text that decodes to `null`, or an array of objects.
   */
  datatype Document = Malformed | Null | Array(objects: seq<JsonObject>)

  /** Raised by the library for a malformed document. */
  datatype DecodeError = DecodeError

  /** The backing fields of the record built from one object. */
  function Deserialized(o: JsonObject): (b: Backing)
    ensures o.name.None? ==> b.name == Some(DataError)
    ensures o.name.Some? ==> b.name == o.name.value
    ensures o.status.None? ==> b.status == Some(DataError)
    ensures o.status.Some? ==> b.status == o.status.value
    ensures o.executionTime.None? ==> b.executionTime == -1.0
    ensures o.executionTime.Some? ==> b.executionTime >= 0.0
    ensures o.executionTime.Some? && o.executionTime.value >= 0.0 ==> b.executionTime == o.executionTime.value
    ensures o.executionTime.Some? && o.executionTime.value < 0.0 ==> b.executionTime == 0.0
    ensures o.timestamp.None? ==> b.timestamp == MinValue
    ensures o.timestamp.Some? ==> b.timestamp == o.timestamp.value
    ensures (o.name.None? || o.name == Some(None)) ==> Getters(b).name == DataError
    ensures (o.status.None? || o.status == Some(None)) ==> Getters(b).status == DataError
  {
    var b0 := Initial;
    var b1 := if o.name.Some? then WithName(b0, o.name.value) else b0;
    var b2 := if o.status.Some? then WithStatus(b1, o.status.value) else b1;
    var b3 := if o.executionTime.Some? then WithExecutionTime(b2, o.executionTime.value) else b2;
    if o.timestamp.Some? then WithTimestamp(b3, o.timestamp.value) else b3
  }

  /**
   * The getter values of the records decoded from an array, one per object,
   * in input order.
   */
  function Records(objects: seq<JsonObject>): (rs: seq<Record>)
    ensures |rs| == |objects|
    ensures forall i :: 0 <= i < |objects| ==>
      var o, r := objects[i], rs[i];
      && (o.name.Some? && o.name.value.Some? ==> r.name == o.name.value.value)
      && (o.name.None? || o.name == Some(None) ==> r.name == DataError)
      && (o.status.Some? && o.status.value.Some? ==> r.status == o.status.value.value)
      && (o.status.None? || o.status == Some(None) ==> r.status == DataError)
      && (o.executionTime.None? ==> r.executionTime == -1.0)
      && (o.executionTime.Some? && o.executionTime.value >= 0.0 ==> r.executionTime == o.executionTime.value)
      && (o.executionTime.Some? && o.executionTime.value < 0.0 ==> r.executionTime == 0.0)
      && (o.timestamp.None? ==> r.timestamp == MinValue)
      && (o.timestamp.Some? ==> r.timestamp == o.timestamp.value)
  {
    seq(|objects|, i requires 0 <= i < |objects| => Getters(Deserialized(objects[i])))
  }

  /** Builds one record as the deserialiser does: constructor, then one setter per present property. */
  method Materialize(o: JsonObject) returns (tc: TestCase)
    ensures fresh(tc)
    ensures tc.Fields() == Deserialized(o)
    ensures tc.Valid()
  {
    tc := new TestCase();
    if o.name.Some? {
      tc.SetName(o.name.value);
    }
    if o.status.Some? {
      tc.SetStatus(o.status.value);
    }
    if o.executionTime.Some? {
      tc.SetExecutionTime(o.executionTime.value);
    }
    if o.timestamp.Some? {
      tc.SetTimestamp(o.timestamp.value);
    }
  }

  /**
   * Builds the list of records for an array: one fresh record per object, in
   * order, no two of them the same object.
   */
  method DeserializeList(objects: seq<JsonObject>) returns (cases: seq<TestCase>)
    ensures |cases| == |objects|
    ensures forall i :: 0 <= i < |cases| ==> fresh(cases[i]) && cases[i].Fields() == Deserialized(objects[i])
    ensures forall i :: 0 <= i < |cases| ==> cases[i].Valid()
    ensures forall i, j :: 0 <= i < j < |cases| ==> cases[i] != cases[j]
  {
    cases := [];
    var i := 0;
    while i < |objects|
      invariant 0 <= i <= |objects|
      invariant |cases| == i
      invariant forall k :: 0 <= k < i ==> fresh(cases[k]) && cases[k].Fields() == Deserialized(objects[k])
      invariant forall k :: 0 <= k < i ==> cases[k].Valid()
      invariant forall k, l :: 0 <= k < l < i ==> cases[k] != cases[l]
    {
      var tc := Materialize(objects[i]);
      cases := cases + [tc];
      i := i + 1;
    }
  }
}
