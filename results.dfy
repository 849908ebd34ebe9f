/**
 * The `TestResult` aggregate: a list of `TestCase` records that the
 * constructor and `ParseJson` replace as a whole, the CSV export and the
 * metrics. File and console output are not modelled: the export returns its
 * lines and the metrics return their figures.
 */
module Results {
  import opened Wrappers
  import opened Cases
  import Json
  import Csv
  import Metrics

  class TestResult {
    var testCases: seq<TestCase>

    constructor ()
      ensures testCases == []
    {
      testCases := [];
    }

    /**
     * Replaces the list with the deserialised one, or with an empty list when
     * the document decodes to null. A malformed document throws before the
     * assignment, so the list is left as it was.
     */
    method ParseJson(json: Json.Document) returns (outcome: Outcome<Json.DecodeError>)
      modifies this
      ensures json.Malformed? ==> outcome == Fail(Json.DecodeError) && testCases == old(testCases)
      ensures json.Null? ==> outcome == Pass && testCases == []
      ensures json.Array? ==>
        && outcome == Pass
        && |testCases| == |json.objects|
        && forall i :: 0 <= i < |testCases| ==>
             fresh(testCases[i]) && testCases[i].Fields() == Json.Deserialized(json.objects[i])
      ensures json.Array? ==> forall i :: 0 <= i < |testCases| ==> testCases[i].Valid()
      ensures json.Array? ==> forall i, j :: 0 <= i < j < |testCases| ==> testCases[i] != testCases[j]
    {
      match json
      case Malformed =>
        outcome := Fail(Json.DecodeError);
      case Null =>
        testCases := [];
        outcome := Pass;
      case Array(objects) =>
        testCases := Json.DeserializeList(objects);
        outcome := Pass;
    }

    /** The header, then one row per record built from its getters, in list order. */
    method ExportToCsv(renderTime: real -> string, renderStamp: DateTime -> string) returns (lines: seq<string>)
      ensures |lines| == |testCases| + 1
      ensures lines[0] == Csv.Header
      ensures forall i :: 0 <= i < |testCases| ==>
                lines[i + 1] == Csv.FormatRow(testCases[i].View(), renderTime, renderStamp)
      ensures lines == [Csv.Header] + Csv.Select(Snapshot(testCases), renderTime, renderStamp)
    {
      var csv := [Csv.Header];
      csv := csv + Csv.Select(Snapshot(testCases), renderTime, renderStamp);
      lines := csv;
    }

    /** The six printed figures, from the getter values of the records. */
    method CalculateMetrics() returns (report: Metrics.Report)
      ensures report == Metrics.Summarize(Snapshot(testCases))
      ensures report.total == |testCases|
    {
      report := Metrics.Summarize(Snapshot(testCases));
    }
  }

  /** What one run produces: the CSV lines and the printed figures. */
  datatype Analysis = Analysis(lines: seq<string>, report: Metrics.Report)

  /**
   * The body of the program once the input text has been read: a new
   * aggregate, `ParseJson`, `ExportToCsv`, `CalculateMetrics`, in that order.
   * A malformed document stops the run before anything is exported.
   */
  method Analyze(json: Json.Document, renderTime: real -> string, renderStamp: DateTime -> string)
    returns (outcome: Result<Analysis, Json.DecodeError>)
    ensures json.Malformed? ==> outcome == Failure(Json.DecodeError)
    ensures json.Null? ==>
      outcome.Success? && outcome.value.lines == [Csv.Header] && outcome.value.report == Metrics.Summarize([])
    ensures json.Array? ==>
      var records := Json.Records(json.objects);
      && outcome.Success?
      && outcome.value.lines == [Csv.Header] + Csv.Select(records, renderTime, renderStamp)
      && outcome.value.report == Metrics.Summarize(records)
  {
    var result := new TestResult();
    var parsed := result.ParseJson(json);
    if parsed.Fail? {
      return Failure(parsed.error);
    }
    var lines := result.ExportToCsv(renderTime, renderStamp);
    var report := result.CalculateMetrics();
    if json.Array? {
      DecodedSnapshot(result.testCases, json.objects);
    } else {
      assert lines == [Csv.Header];
    }
    outcome := Success(Analysis(lines, report));
  }

  /** The getter values of records built by the deserialiser are the decoded records. */
  lemma DecodedSnapshot(cases: seq<TestCase>, objects: seq<Json.JsonObject>)
    requires |cases| == |objects|
    requires forall i :: 0 <= i < |cases| ==> cases[i].Fields() == Json.Deserialized(objects[i])
    ensures Snapshot(cases) == Json.Records(objects)
  {
  }

  /**
   * The two-record run: "t1" passes in 1.5 s, "t2" fails with a negative time
   * that the setter stores as 0.
   */
  lemma TwoRecordRun()
    ensures
      var t1 := Json.JsonObject(Some(Some("t1")), Some(Some("pass")), Some(1.5), Some(DateTime(1)));
      var t2 := Json.JsonObject(Some(Some("t2")), Some(Some("fail")), Some(-3.0), Some(DateTime(2)));
      var records := Json.Records([t1, t2]);
      && records[1].executionTime == 0.0
      && Metrics.Summarize(records) == Metrics.Report(2, 1, 1, Success(Metrics.Timing(0.75, 0.0, 1.5)))
  {
  }

  /** A record without a `Name` property reads "DataError", and so does its CSV field. */
  lemma MissingNameRun(renderTime: real -> string, renderStamp: DateTime -> string)
    ensures
      var o := Json.JsonObject(None, Some(Some("pass")), Some(2.0), Some(DateTime(0)));
      var row := Csv.FormatRow(Json.Records([o])[0], renderTime, renderStamp);
      row[..|DataError|] == DataError
  {
  }
}
