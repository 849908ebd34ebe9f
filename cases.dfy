/**
 * The `TestCase` record of testResultAnalysis.cs: four backing fields, two
 * string properties whose getters substitute "DataError" for a stored null,
 * an `ExecutionTime` setter that clamps negative values to zero, and a
 * `Timestamp` stored as given.
 */
module Cases {
  import opened Wrappers

  /** The sentinel that the string getters return for a stored null. */
  const DataError: string := "DataError"

  /** A .NET `DateTime`, by its tick count; `DateTime.MinValue` has zero ticks. */
  datatype DateTime = DateTime(ticks: nat)

  const MinValue: DateTime := DateTime(0)

  /** The four private backing fields of one `TestCase`; `None` is a stored null. */
  datatype Backing = Backing(
    name: Option<string>,
    status: Option<string>,
    executionTime: real,
    timestamp: DateTime)

  /** What the four property getters return: the record as everyone else sees it. */
  datatype Record = Record(name: string, status: string, executionTime: real, timestamp: DateTime)

  /** The field initialisers. `-1` is written directly, so it is never clamped. */
  const Initial: Backing := Backing(Some(DataError), Some(DataError), -1.0, MinValue)

  /** The read-time default of the `Name` and `Status` getters (`value ?? "DataError"`). */
  function OrDataError(stored: Option<string>): (r: string)
    ensures stored == Some(r) || (stored == None && r == DataError)
  {
    stored.GetOr(DataError)
  }

  /** The four getters applied to a backing state. */
  function Getters(b: Backing): (r: Record)
    ensures b.name == Some(r.name) || (b.name == None && r.name == DataError)
    ensures b.status == Some(r.status) || (b.status == None && r.status == DataError)
    ensures r.executionTime == b.executionTime && r.timestamp == b.timestamp
  {
    Record(OrDataError(b.name), OrDataError(b.status), b.executionTime, b.timestamp)
  }

  /** The `Name` setter: stores the value verbatim, null included. */
  function WithName(b: Backing, value: Option<string>): (t: Backing)
    ensures t.name == value
    ensures t.status == b.status && t.executionTime == b.executionTime && t.timestamp == b.timestamp
    ensures value == None ==> Getters(t).name == DataError
    ensures value.Some? ==> Getters(t).name == value.value
  {
    b.(name := value)
  }

  /** The `Status` setter: stores the value verbatim, null included. */
  function WithStatus(b: Backing, value: Option<string>): (t: Backing)
    ensures t.status == value
    ensures t.name == b.name && t.executionTime == b.executionTime && t.timestamp == b.timestamp
    ensures value == None ==> Getters(t).status == DataError
    ensures value.Some? ==> Getters(t).status == value.value
  {
    b.(status := value)
  }

  /** The `ExecutionTime` setter: a negative value is stored as zero. */
  function WithExecutionTime(b: Backing, value: real): (t: Backing)
    ensures t.executionTime >= 0.0
    ensures value >= 0.0 ==> t.executionTime == value
    ensures value < 0.0 ==> t.executionTime == 0.0
    ensures t.name == b.name && t.status == b.status && t.timestamp == b.timestamp
  {
    b.(executionTime := if value < 0.0 then 0.0 else value)
  }

  /** The `Timestamp` setter: stores the value as given. */
  function WithTimestamp(b: Backing, value: DateTime): (t: Backing)
    ensures t.timestamp == value
    ensures t.name == b.name && t.status == b.status && t.executionTime == b.executionTime
  {
    b.(timestamp := value)
  }

  class TestCase {
    // The private backing fields; only the members below touch them.
    var name: Option<string>
    var status: Option<string>
    var executionTime: real
    var timestamp: DateTime

    /**
     * The execution times the initialiser and the setter can leave behind:
     * the unclamped `-1` of a record never assigned, or a clamped value.
     */
    ghost predicate Valid()
      reads this
    {
      executionTime == -1.0 || executionTime >= 0.0
    }

    /** A fresh record carries the field initialisers' values. */
    constructor ()
      ensures Valid()
      ensures Fields() == Initial
      ensures Name() == DataError && Status() == DataError
      ensures ExecutionTime() == -1.0 && Timestamp() == MinValue
    {
      name := Some(DataError);
      status := Some(DataError);
      executionTime := -1.0;
      timestamp := MinValue;
    }

    /** The backing fields as one value. */
    function Fields(): Backing
      reads this
    {
      Backing(name, status, executionTime, timestamp)
    }

    /** The `Name` getter: the stored name, or "DataError" for a stored null. */
    function Name(): (r: string)
      reads this
      ensures name == Some(r) || (name == None && r == DataError)
    {
      OrDataError(name)
    }

    /** The `Status` getter: the stored status, or "DataError" for a stored null. */
    function Status(): (r: string)
      reads this
      ensures status == Some(r) || (status == None && r == DataError)
    {
      OrDataError(status)
    }

    /** The `ExecutionTime` getter: no default at read time; the clamp happened on write. */
    function ExecutionTime(): (r: real)
      reads this
      ensures r == Fields().executionTime
      ensures Valid() ==> r == -1.0 || r >= 0.0
    {
      executionTime
    }

    /** The `Timestamp` getter: the stored value, with no default or coercion. */
    function Timestamp(): (r: DateTime)
      reads this
      ensures r == Fields().timestamp
    {
      timestamp
    }

    /** All four getters at once. */
    function View(): (r: Record)
      reads this
      ensures r == Getters(Fields())
    {
      Record(Name(), Status(), ExecutionTime(), Timestamp())
    }

    method SetName(value: Option<string>)
      modifies this
      ensures Fields() == WithName(old(Fields()), value)
      ensures Name() == value.GetOr(DataError)
      ensures Valid() == old(Valid())
    {
      name := value;
    }

    method SetStatus(value: Option<string>)
      modifies this
      ensures Fields() == WithStatus(old(Fields()), value)
      ensures Status() == value.GetOr(DataError)
      ensures Valid() == old(Valid())
    {
      status := value;
    }

    method SetExecutionTime(value: real)
      modifies this
      ensures Fields() == WithExecutionTime(old(Fields()), value)
      ensures ExecutionTime() >= 0.0
      ensures Valid()
    {
      executionTime := if value < 0.0 then 0.0 else value;
    }

    method SetTimestamp(value: DateTime)
      modifies this
      ensures Fields() == WithTimestamp(old(Fields()), value)
      ensures Valid() == old(Valid())
    {
      timestamp := value;
    }
  }

  /** The getter values of a list of records, in list order. */
  function Snapshot(cases: seq<TestCase>): (rs: seq<Record>)
    reads cases
    ensures |rs| == |cases|
    ensures forall i :: 0 <= i < |cases| ==> rs[i] == cases[i].View()
  {
    if cases == [] then [] else [cases[0].View()] + Snapshot(cases[1..])
  }
}
