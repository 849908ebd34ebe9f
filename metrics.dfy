/**
 * The six figures that `CalculateMetrics` prints: the number of records, the
 * records whose status is exactly "pass" and exactly "fail", and the mean,
 * minimum and maximum execution time. The LINQ aggregates are functions over
 * the getter values; `double` becomes `real`.
 */
module Metrics {
  import opened Wrappers
  import opened Cases

  const Passed: string := "pass"
  const Failed: string := "fail"

  /** `Average`, `Min` and `Max` throw on an empty sequence. */
  datatype MetricsError = EmptySequence

  datatype Timing = Timing(average: real, min: real, max: real)

  /**
   * The printed figures. The three counts are printed before `Average`
   * throws, so they exist even when `timing` is a failure.
   */
  datatype Report = Report(total: nat, passed: nat, failed: nat, timing: Result<Timing, MetricsError>)

  /** `Count(tc => tc.Status == status)`: an exact, case-sensitive comparison. */
  function CountStatus(rows: seq<Record>, status: string): (n: nat)
    ensures n <= |rows|
  {
    if rows == [] then 0
    else (if rows[0].status == status then 1 else 0) + CountStatus(rows[1..], status)
  }

  /** The statuses of the records, in order. */
  function Statuses(rows: seq<Record>): seq<string>
  {
    seq(|rows|, i requires 0 <= i < |rows| => rows[i].status)
  }

  /** The count is the multiplicity of the status among all statuses. */
  lemma {:induction false} CountStatusIsMultiplicity(rows: seq<Record>, status: string)
    ensures CountStatus(rows, status) == multiset(Statuses(rows))[status]
  {
    if rows != [] {
      CountStatusIsMultiplicity(rows[1..], status);
      assert Statuses(rows) == [rows[0].status] + Statuses(rows[1..]);
    }
  }

  /** No record is counted both as passed and as failed. */
  lemma {:induction false} PassedPlusFailedAtMostTotal(rows: seq<Record>)
    ensures CountStatus(rows, Passed) + CountStatus(rows, Failed) <= |rows|
  {
    if rows != [] {
      PassedPlusFailedAtMostTotal(rows[1..]);
    }
  }

  /** When every status is "pass" or "fail", the two counts add up to the total. */
  lemma {:induction false} PassedPlusFailedIsTotal(rows: seq<Record>)
    requires forall i :: 0 <= i < |rows| ==> rows[i].status == Passed || rows[i].status == Failed
    ensures CountStatus(rows, Passed) + CountStatus(rows, Failed) == |rows|
  {
    if rows != [] {
      PassedPlusFailedIsTotal(rows[1..]);
    }
  }

  /** The sum of the execution times, left to right. */
  function SumTime(rows: seq<Record>): real
  {
    if rows == [] then 0.0 else rows[0].executionTime + SumTime(rows[1..])
  }

  /** `Min(tc => tc.ExecutionTime)`: a smallest execution time of the records. */
  function MinTime(rows: seq<Record>): (m: real)
    requires rows != []
    ensures forall i :: 0 <= i < |rows| ==> m <= rows[i].executionTime
    ensures exists i :: 0 <= i < |rows| && rows[i].executionTime == m
  {
    if |rows| == 1 then rows[0].executionTime
    else
      var rest := MinTime(rows[1..]);
      assert forall i :: 1 <= i < |rows| ==> rows[i] == rows[1..][i - 1];
      if rows[0].executionTime <= rest then rows[0].executionTime else rest
  }

  /** `Max(tc => tc.ExecutionTime)`: a largest execution time of the records. */
  function MaxTime(rows: seq<Record>): (m: real)
    requires rows != []
    ensures forall i :: 0 <= i < |rows| ==> rows[i].executionTime <= m
    ensures exists i :: 0 <= i < |rows| && rows[i].executionTime == m
  {
    if |rows| == 1 then rows[0].executionTime
    else
      var rest := MaxTime(rows[1..]);
      assert forall i :: 1 <= i < |rows| ==> rows[i] == rows[1..][i - 1];
      if rows[0].executionTime >= rest then rows[0].executionTime else rest
  }

  /** `Average(tc => tc.ExecutionTime)`: the arithmetic mean. */
  function AverageTime(rows: seq<Record>): (mean: real)
    requires rows != []
    ensures mean * (|rows| as real) == SumTime(rows)
  {
    SumTime(rows) / (|rows| as real)
  }

  lemma {:induction false} SumAtLeast(rows: seq<Record>, lo: real)
    requires forall i :: 0 <= i < |rows| ==> lo <= rows[i].executionTime
    ensures SumTime(rows) >= (|rows| as real) * lo
  {
    if rows != [] {
      assert forall i :: 0 <= i < |rows[1..]| ==> rows[1..][i] == rows[i + 1];
      SumAtLeast(rows[1..], lo);
      assert (|rows| as real) * lo == lo + (|rows[1..]| as real) * lo;
    }
  }

  lemma {:induction false} SumAtMost(rows: seq<Record>, hi: real)
    requires forall i :: 0 <= i < |rows| ==> rows[i].executionTime <= hi
    ensures SumTime(rows) <= (|rows| as real) * hi
  {
    if rows != [] {
      assert forall i :: 0 <= i < |rows[1..]| ==> rows[1..][i] == rows[i + 1];
      SumAtMost(rows[1..], hi);
      assert (|rows| as real) * hi == hi + (|rows[1..]| as real) * hi;
    }
  }

  /** Dividing by a positive count keeps a bounded sum's quotient within the bound. */
  lemma QuotientAtLeast(sum: real, n: real, lo: real)
    requires n > 0.0 && n * lo <= sum
    ensures lo <= sum / n
  {
  }

  lemma QuotientAtMost(sum: real, n: real, hi: real)
    requires n > 0.0 && sum <= n * hi
    ensures sum / n <= hi
  {
  }

  /** A lower bound of every execution time bounds the mean. */
  lemma AverageAtLeast(rows: seq<Record>, lo: real)
    requires rows != []
    requires forall i :: 0 <= i < |rows| ==> lo <= rows[i].executionTime
    ensures lo <= AverageTime(rows)
  {
    SumAtLeast(rows, lo);
    QuotientAtLeast(SumTime(rows), |rows| as real, lo);
  }

  /** An upper bound of every execution time bounds the mean. */
  lemma AverageAtMost(rows: seq<Record>, hi: real)
    requires rows != []
    requires forall i :: 0 <= i < |rows| ==> rows[i].executionTime <= hi
    ensures AverageTime(rows) <= hi
  {
    SumAtMost(rows, hi);
    QuotientAtMost(SumTime(rows), |rows| as real, hi);
  }

  /** The mean lies between the minimum and the maximum. */
  lemma AverageWithinBounds(rows: seq<Record>)
    requires rows != []
    ensures MinTime(rows) <= AverageTime(rows) <= MaxTime(rows)
  {
    AverageAtLeast(rows, MinTime(rows));
    AverageAtMost(rows, MaxTime(rows));
  }

  /** Records whose times all came through the setter have a non-negative minimum and mean. */
  lemma NonNegativeTimes(rows: seq<Record>)
    requires rows != []
    requires forall i :: 0 <= i < |rows| ==> rows[i].executionTime >= 0.0
    ensures 0.0 <= MinTime(rows) <= AverageTime(rows)
  {
    AverageWithinBounds(rows);
  }

  /** The figures `CalculateMetrics` prints, computed from the getter values. */
  function Summarize(rows: seq<Record>): (r: Report)
    ensures r.total == |rows|
    ensures r.timing.Failure? <==> rows == []
  {
    if rows == [] then
      Report(0, 0, 0, Failure(EmptySequence))
    else
      Report(|rows|, CountStatus(rows, Passed), CountStatus(rows, Failed),
             Success(Timing(AverageTime(rows), MinTime(rows), MaxTime(rows))))
  }

  /** What the printed figures mean. */
  lemma SummaryFigures(rows: seq<Record>)
    ensures
      var r := Summarize(rows);
      && r.total == |rows|
      && r.passed == multiset(Statuses(rows))[Passed]
      && r.failed == multiset(Statuses(rows))[Failed]
      && r.passed + r.failed <= r.total
      && (r.timing.Failure? <==> rows == [])
      && (r.timing.Success? ==>
            var t := r.timing.value;
            && t.average == SumTime(rows) / (|rows| as real)
            && t.min <= t.average <= t.max
            && (forall i :: 0 <= i < |rows| ==> t.min <= rows[i].executionTime <= t.max)
            && (exists i :: 0 <= i < |rows| && rows[i].executionTime == t.min)
            && (exists i :: 0 <= i < |rows| && rows[i].executionTime == t.max))
  {
    CountStatusIsMultiplicity(rows, Passed);
    CountStatusIsMultiplicity(rows, Failed);
    PassedPlusFailedAtMostTotal(rows);
    if rows != [] {
      AverageWithinBounds(rows);
    }
  }
}
