# Test result analysis, modelled in Dafny

This project models the core of `testResultAnalysis.cs`. The program reads a JSON array of test-case records. It writes them out as CSV and prints six summary figures. The model has six modules, one per part of the program:

- `Wrappers`: `Option` (a C# `null` is `None`), `Result` and `Outcome`.
- `Cases`: the `TestCase` class. It has the four private backing fields of the source and one getter and one setter per property. Several value-level functions specify those setters and getters:
  - `Backing` is the four backing fields as one value.
  - `Record` is what the getters return.
  - `WithName`, `WithStatus`, `WithExecutionTime` and `WithTimestamp` are one function per setter.
  - `Getters` is the getters.
  - `Valid` is the record invariant that the constructor and the setters keep: the time is `-1` (never assigned) or non-negative.

  Each class method is proved equal to its value-level function.
  - The string getters substitute `"DataError"` for a stored null when the value is read. The setters store null as given.
  - The `ExecutionTime` setter clamps a negative value to 0 when the value is written.
  - The field initialiser writes `-1` directly. So a record whose `ExecutionTime` was never assigned reads `-1`. The model keeps this.
- `Json`: models what `JsonConvert.DeserializeObject<List<TestCase>>` does to the model.
  - A `Document` is malformed, `null`, or an array of objects. Each object records which properties are present. A present string property can also be an explicit `null`.
  - Each record is built with the parameterless constructor. Then the setter of every present property is called on it: that is `Materialize` and `DeserializeList`. The value-level counterpart of this is `Deserialized`.
- `Csv`: the header line, the row format with no quoting, and the `Select` over the records. `Split` reads a row back into its fields.
  - A row splits back into its four fields exactly when no field contains a comma.
  - A comma inside a name yields five fields.
- `Metrics`: total count, the exact-match counts of `"pass"` and `"fail"`, and the mean, minimum and maximum execution time.
  - Execution time is a `real`.
  - The empty list is an error result, because LINQ's `Average`, `Min` and `Max` throw on an empty sequence. The three counts are still produced: they are printed before `Average` throws.
- `Results`: the `TestResult` class.
  - It holds a `seq<TestCase>` that the constructor and `ParseJson` replace as a whole.
  - `ParseJson` falls back to the empty list when the document decodes to `null`.
  - `ExportToCsv` returns its lines instead of writing a file.
  - `CalculateMetrics` returns its figures instead of printing them.
  - `Analyze` is the part of `Main` after the input text has been read.

The model follows the code where it differs from what the program's design suggests:
- The clamping setter suggests that a stored execution time is never negative. But the code leaves `-1` in place when the `ExecutionTime` property is absent, because the clamp is only in the setter. `Json.Deserialized` states this `-1` case.

The rendering of a `double` and of a `DateTime` as text depends on the culture. They are parameters of the export (`renderTime`, `renderStamp`). A `DateTime` is its tick count, and `DateTime.MinValue` has zero ticks.

## Model

| member | source | states |
|---|---|---|
| `Cases.Getters` | testResultAnalysis.cs:26-48 | Each string read is the stored string, or `"DataError"` exactly when the stored value is null. Time and timestamp read back as stored. |
| `Cases.WithName` | testResultAnalysis.cs:26-30 | The `Name` setter stores its argument verbatim, null included. The other three fields are unchanged. A later read gives the string, or `"DataError"` after a null. |
| `Cases.WithStatus` | testResultAnalysis.cs:32-36 | Same as `WithName`, for `Status`. |
| `Cases.WithExecutionTime` | testResultAnalysis.cs:38-42 | The stored time is never negative. It equals the argument when the argument is `>= 0`, and is `0` otherwise. The other fields are unchanged. |
| `Cases.WithTimestamp` | testResultAnalysis.cs:44-48 | The timestamp is stored as given. The other fields are unchanged. |
| `Cases.TestCase.constructor` | testResultAnalysis.cs:21-24 | A fresh record reads `"DataError"`, `"DataError"`, `-1` (not clamped) and `DateTime.MinValue`. |
| `Cases.TestCase.SetName` | testResultAnalysis.cs:29 | The new backing state is `WithName` of the old one. `Name()` then reads the value, or `"DataError"` after null. |
| `Cases.TestCase.SetStatus` | testResultAnalysis.cs:35 | The new backing state is `WithStatus` of the old one. `Status()` then reads the value, or `"DataError"` after null. |
| `Cases.TestCase.SetExecutionTime` | testResultAnalysis.cs:41 | The new backing state is `WithExecutionTime` of the old one. `ExecutionTime()` is then non-negative. |
| `Cases.TestCase.SetTimestamp` | testResultAnalysis.cs:47 | The new backing state is `WithTimestamp` of the old one. |
| `Cases.TestCase.Name` | testResultAnalysis.cs:28 | The getter returns the stored name, or `"DataError"` exactly when the stored value is null. |
| `Cases.TestCase.Status` | testResultAnalysis.cs:34 | The getter returns the stored status, or `"DataError"` exactly when the stored value is null. |
| `Cases.TestCase.ExecutionTime` | testResultAnalysis.cs:40 | The getter returns the stored time with no default at read time. Under the record invariant `Valid` (kept by the constructor and every setter) it is `-1` or non-negative. |
| `Cases.TestCase.Timestamp` | testResultAnalysis.cs:46 | The getter returns the stored timestamp, with no default or coercion. |
| `Cases.TestCase.View` | testResultAnalysis.cs:26-48 | The four getters together equal `Getters` of the backing fields. |
| `Cases.Snapshot` | testResultAnalysis.cs:73 | The getter values of a list of records: same length, element `i` read from record `i`. |
| `Json.Deserialized` | testResultAnalysis.cs:64 | An absent property keeps its initialiser value: `"DataError"`, `-1` or `MinValue`. A present property goes through its setter: strings are stored verbatim (null included), a present time is stored as given when `>= 0` and as exactly `0` when negative, a present timestamp as given. An absent or null string reads `"DataError"`. |
| `Json.Records` | testResultAnalysis.cs:64 | One getter-level record per object, in input order. Record `i` reads the object's name or status, or `"DataError"` when it is absent or null; its time reads `-1` when absent, the value when it is `>= 0`, and `0` when negative; its timestamp reads as given, or `MinValue` when absent. |
| `Json.Materialize` | testResultAnalysis.cs:64 | A fresh `TestCase` whose backing fields are `Deserialized` of the object. |
| `Json.DeserializeList` | testResultAnalysis.cs:64 | One fresh record per object, in order, each with the fields `Deserialized` gives. No two records are the same object, and every record keeps the `Valid` time invariant. |
| `Csv.FormatRow` | testResultAnalysis.cs:73 | A row's length is the four fields' lengths plus three separators, and the row starts with the name. |
| `Csv.Select` | testResultAnalysis.cs:73 | One row per record, row `i` formatted from record `i`. |
| `Csv.SplitFour` | testResultAnalysis.cs:72-73 | Four comma-free fields joined by commas split back into exactly those fields. This covers the header's four column names too. |
| `Csv.RowRoundTrip` | testResultAnalysis.cs:73 | A row splits back into name, status, rendered time and rendered timestamp when none of them contains a comma. |
| `Csv.CommaInNameAddsColumn` | testResultAnalysis.cs:73 | A name `a,b` is not escaped, so the row splits into five fields: `a`, `b`, status, time, timestamp. |
| `Metrics.CountStatus` | testResultAnalysis.cs:83-84 | A status count never exceeds the number of records. |
| `Metrics.CountStatusIsMultiplicity` | testResultAnalysis.cs:83-84 | The count of a status equals its multiplicity in the multiset of all statuses. This is an independent definition of `Count(tc => tc.Status == s)`. |
| `Metrics.PassedPlusFailedAtMostTotal` | testResultAnalysis.cs:82-84 | passed + failed <= total. |
| `Metrics.PassedPlusFailedIsTotal` | testResultAnalysis.cs:82-84 | When every status is exactly `"pass"` or `"fail"`, passed + failed = total. |
| `Metrics.MinTime` | testResultAnalysis.cs:86 | For a non-empty list: at most every record's time, and equal to some record's time. |
| `Metrics.MaxTime` | testResultAnalysis.cs:87 | For a non-empty list: at least every record's time, and equal to some record's time. |
| `Metrics.SumAtLeast` | testResultAnalysis.cs:85 | If every time is `>= lo`, the sum is `>= n * lo`. |
| `Metrics.SumAtMost` | testResultAnalysis.cs:85 | If every time is `<= hi`, the sum is `<= n * hi`. |
| `Metrics.AverageAtLeast` | testResultAnalysis.cs:85 | A lower bound of every execution time is a lower bound of the mean. |
| `Metrics.AverageAtMost` | testResultAnalysis.cs:85 | An upper bound of every execution time is an upper bound of the mean. |
| `Metrics.AverageWithinBounds` | testResultAnalysis.cs:85-87 | min <= average <= max. |
| `Metrics.AverageTime` | testResultAnalysis.cs:85 | The mean times the number of records is the sum of the times. |
| `Metrics.Summarize` | testResultAnalysis.cs:80-88 | Total is the number of records, and the timing is an error exactly for the empty list (the rest of its meaning is `SummaryFigures`). |
| `Metrics.NonNegativeTimes` | testResultAnalysis.cs:85-86 | If every time is non-negative, 0 <= min <= average. This holds when every record had its time set through the setter. |
| `Metrics.SummaryFigures` | testResultAnalysis.cs:80-88 | For `Summarize`: Total is the list length. passed and failed are the multiplicities of `"pass"` and `"fail"`, and their sum is at most the total. The timing is an error exactly for the empty list. Otherwise the average is sum/n, min <= average <= max, every time lies in [min, max], and min and max are attained. |
| `Results.TestResult.constructor` | testResultAnalysis.cs:54-57 | A new aggregate has an empty list. |
| `Results.TestResult.ParseJson` | testResultAnalysis.cs:62-65 | The list is replaced by fresh decoded records, pairwise distinct objects, or by the empty list for a `null` document, with no merging. A malformed document fails and leaves the list unchanged. |
| `Results.TestResult.ExportToCsv` | testResultAnalysis.cs:70-75 | Exactly `n + 1` lines. Line 0 is the header. Line `i + 1` is the row of record `i`, built from its getters. |
| `Results.TestResult.CalculateMetrics` | testResultAnalysis.cs:80-88 | The report is `Summarize` of the records' getter values. Total is the number of records. |
| `Results.Analyze` | testResultAnalysis.cs:116-121 | Runs parse, export and metrics in that order. A malformed document fails. An array gives the header followed by `Select` of the decoded records, and `Summarize` of those records. A `null` document gives the header only and the summary of no records. |
| `Results.TwoRecordRun` | testResultAnalysis.cs:80-88 | Records `t1` (pass, 1.5) and `t2` (fail, -3, stored as 0) give total 2, passed 1, failed 1, average 0.75, min 0, max 1.5. |
| `Results.MissingNameRun` | testResultAnalysis.cs:26-30 | An object without `Name` exports a row that starts with `DataError`. |

## Left out

- JSON text parsing is left out, because it is the Newtonsoft library. A document is given already decoded into its shape and its present properties. The library also matches property names without regard to case, and a property can appear twice; neither is modelled.
- A `null` element in the JSON array (`[null]`, `[{...}, null]`) is not modelled: `Document.Array` holds objects only. The library would put a null reference in the list, the `??` replaces only a null list, and `ExportToCsv` would then throw `NullReferenceException` when it reads `tc.Name`, before any file is written.
- A JSON `null` for `ExecutionTime` or `Timestamp`, and a timestamp that does not parse, make the library throw. They count as a `Malformed` document.
- The library sets the properties in the order they appear in the text. The model sets them in a fixed order. Each setter touches only its own field, so the result is the same.
- Writing the CSV file (`File.WriteAllLines`) and printing the figures (`Console.WriteLine`) are left out. The model returns the lines and the figures.
- `Main`'s argument-count check, the file-existence check and reading the input file are command-line plumbing and are left out. `Results.Analyze` starts from the decoded document.
- Culture-dependent text rendering of `double` and `DateTime` is left out: it is passed in as functions. The wording of the six console lines is not modelled.
- `double` arithmetic is modelled as `real`, so rounding, infinities and NaN are not modelled. For example, `NaN < 0` is false, so the setter stores NaN; the model has no NaN.
- `DateTime` is a tick count with no upper bound, so `DateTime.MaxValue` is not modelled.
