/**
 * The lines that `ExportToCsv` hands to `File.WriteAllLines`: a fixed header,
 * then one comma-joined row per record. Fields are neither quoted nor
 * escaped. How a `double` and a `DateTime` are turned into text depends on
 * the culture, so the two renderings are parameters.
 */
module Csv {
  import opened Cases

  const Header: string := "Name,Status,ExecutionTime,Timestamp"

  /** The interpolated row `{Name},{Status},{ExecutionTime},{Timestamp}`. */
  function FormatRow(r: Record, renderTime: real -> string, renderStamp: DateTime -> string): (line: string)
    ensures |line| == |r.name| + |r.status| + |renderTime(r.executionTime)| + |renderStamp(r.timestamp)| + 3
    ensures line[..|r.name|] == r.name
  {
    r.name + "," + r.status + "," + renderTime(r.executionTime) + "," + renderStamp(r.timestamp)
  }

  /** LINQ `Select` of `FormatRow` over the records, in order. */
  function Select(rows: seq<Record>, renderTime: real -> string, renderStamp: DateTime -> string): (lines: seq<string>)
    ensures |lines| == |rows|
    ensures forall i :: 0 <= i < |rows| ==> lines[i] == FormatRow(rows[i], renderTime, renderStamp)
  {
    if rows == [] then []
    else [FormatRow(rows[0], renderTime, renderStamp)] + Select(rows[1..], renderTime, renderStamp)
  }

  /** Splits a line at every occurrence of `d` (the reading side of the format). */
  function Split(s: string, d: char): (fields: seq<string>)
    ensures |fields| > 0
  {
    if s == [] then [""]
    else
      var rest := Split(s[1..], d);
      if s[0] == d then [""] + rest else [[s[0]] + rest[0]] + rest[1..]
  }

  lemma {:induction false} SplitWithoutDelimiter(a: string, d: char)
    requires d !in a
    ensures Split(a, d) == [a]
  {
    if a != [] {
      SplitWithoutDelimiter(a[1..], d);
      assert [a[0]] + a[1..] == a;
    }
  }

  lemma {:induction false} SplitAfterField(a: string, d: char, b: string)
    requires d !in a
    ensures Split(a + [d] + b, d) == [a] + Split(b, d)
  {
    if a == [] {
      assert a + [d] + b == [d] + b;
      assert ([d] + b)[1..] == b;
    } else {
      var s := a + [d] + b;
      assert s[0] == a[0];
      assert s[1..] == a[1..] + [d] + b;
      SplitAfterField(a[1..], d, b);
      assert [a[0]] + a[1..] == a;
    }
  }

  /** Four comma-free fields joined by commas split back into those four fields. */
  lemma SplitFour(a: string, b: string, c: string, e: string)
    requires ',' !in a && ',' !in b && ',' !in c && ',' !in e
    ensures Split(a + "," + b + "," + c + "," + e, ',') == [a, b, c, e]
  {
    assert a + "," + b + "," + c + "," + e == a + [','] + (b + [','] + (c + [','] + e));
    SplitAfterField(a, ',', b + [','] + (c + [','] + e));
    SplitAfterField(b, ',', c + [','] + e);
    SplitAfterField(c, ',', e);
    SplitWithoutDelimiter(e, ',');
  }

  /** A row splits back into its four fields when none of them contains a comma. */
  lemma RowRoundTrip(r: Record, renderTime: real -> string, renderStamp: DateTime -> string)
    requires ',' !in r.name && ',' !in r.status
    requires ',' !in renderTime(r.executionTime) && ',' !in renderStamp(r.timestamp)
    ensures Split(FormatRow(r, renderTime, renderStamp), ',') ==
            [r.name, r.status, renderTime(r.executionTime), renderStamp(r.timestamp)]
  {
    SplitFour(r.name, r.status, renderTime(r.executionTime), renderStamp(r.timestamp));
  }

  /**
   * Because nothing is quoted, a comma inside a name adds a column: the row
   * splits into five fields, one more than the header names.
   */
  lemma CommaInNameAddsColumn(first: string, second: string, r: Record,
                              renderTime: real -> string, renderStamp: DateTime -> string)
    requires ',' !in first && ',' !in second && r.name == first + "," + second
    requires ',' !in r.status
    requires ',' !in renderTime(r.executionTime) && ',' !in renderStamp(r.timestamp)
    ensures Split(FormatRow(r, renderTime, renderStamp), ',') ==
            [first, second, r.status, renderTime(r.executionTime), renderStamp(r.timestamp)]
  {
    var t, s := renderTime(r.executionTime), renderStamp(r.timestamp);
    var rest := second + "," + r.status + "," + t + "," + s;
    assert FormatRow(r, renderTime, renderStamp) == first + [','] + rest;
    SplitAfterField(first, ',', rest);
    SplitFour(second, r.status, t, s);
  }
}
