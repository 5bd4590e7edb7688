/**
 * The text-producing part of src/lib/export-utils.ts: the rows of a report
 * (`formatDataForExport`), the simplified three-threshold assessment label,
 * the unit lookup, and the CSV text that `exportToCSV` puts in its download.
 *
 * `${row.value}` (JavaScript's number-to-text conversion) is a parameter
 * `show` of the CSV functions.
 */
module ExportUtils {
  import opened Base
  import Api

  /** `ExportData` */
  datatype ExportData = ExportData(date: string, parameter: string, value: real, unit: string,
                                   location: string, assessment: string)

  /** One element of `reportData`: the fields `date` and `avg` that are read. */
  datatype DayReport = DayReport(date: string, avg: real)

  /** Three increasing bounds, `[t0, t1, t2]`. */
  datatype Bounds = Bounds(t0: real, t1: real, t2: real)

  const DefaultBounds: Bounds := Bounds(0.0, 50.0, 100.0)

  /** The `thresholds` record of `getAssessmentLabel`. */
  function BoundsEntry(parameter: string): Option<Bounds> {
    match parameter
    case "co2" => Some(Bounds(400.0, 1000.0, 1500.0))
    case "pm25" => Some(Bounds(12.0, 35.0, 55.0))
    case "pm10" => Some(Bounds(54.0, 154.0, 254.0))
    case "voc" => Some(Bounds(50.0, 100.0, 150.0))
    case "temperature" => Some(Bounds(20.0, 25.0, 30.0))
    case "humidity" => Some(Bounds(40.0, 60.0, 70.0))
    case "pressure" => Some(Bounds(1013.0, 1020.0, 1030.0))
    case "o3" => Some(Bounds(54.0, 70.0, 85.0))
    case "no2" => Some(Bounds(53.0, 100.0, 360.0))
    case "so2" => Some(Bounds(35.0, 75.0, 185.0))
    case _ => None
  }

  /** `thresholds[parameter] || [0, 50, 100]` */
  function AssessmentBounds(parameter: string): (b: Bounds)
    ensures BoundsEntry(parameter).None? ==> b == DefaultBounds
    ensures b.t0 < b.t1 < b.t2
  {
    BoundsEntry(parameter).GetOr(DefaultBounds)
  }

  /** The four outcomes of `getAssessmentLabel`, from best to worst. */
  datatype Level = Good | Moderate | SensitiveHarm | Harmful

  /** The label text returned for each outcome. */
  function LabelText(level: Level): string {
    match level
    case Good => "Хорошее"
    case Moderate => "Умеренное"
    case SensitiveHarm => "Вредное для чувствительных"
    case Harmful => "Вредное"
  }

  /** 0 for the best outcome up to 3 for the worst. */
  function Severity(level: Level): (n: nat)
    ensures n <= 3
  {
    match level
    case Good => 0
    case Moderate => 1
    case SensitiveHarm => 2
    case Harmful => 3
  }

  /** The `if` chain of `getAssessmentLabel(value, parameter)`. */
  function AssessmentLevel(value: real, parameter: string): Level {
    var b := AssessmentBounds(parameter);
    if value <= b.t0 then Good
    else if value <= b.t1 then Moderate
    else if value <= b.t2 then SensitiveHarm
    else Harmful
  }

  /** `getAssessmentLabel(value, parameter)`: 'Хорошее' up to the first bound, 'Вредное' past the last. */
  function GetAssessmentLabel(value: real, parameter: string): (l: string)
    ensures l == LabelText(Good) <==> value <= AssessmentBounds(parameter).t0
    ensures l == LabelText(Harmful) <==> value > AssessmentBounds(parameter).t2
  {
    LabelText(AssessmentLevel(value, parameter))
  }

  /** The export's `getParameterUnit`: the same record and fallback as the one in src/lib/api.ts. */
  function ExportUnit(parameter: string): (u: string)
    ensures Api.UnitEntry(parameter).None? <==> u == "unit"
  {
    Api.GetParameterUnit(parameter)
  }

  /** `toUpperCase` on one character, for the Latin letters parameter ids are made of. */
  function UpperChar(c: char): (u: char)
    ensures !('a' <= u <= 'z')
    ensures 'a' <= c <= 'z' ==> 'A' <= u <= 'Z' && u as int - 'A' as int == c as int - 'a' as int
    ensures !('a' <= c <= 'z') ==> u == c
  {
    if 'a' <= c <= 'z' then (c as int - 32) as char else c
  }

  /** `parameter.toUpperCase()` */
  function ToUpperCase(s: string): (r: string)
    ensures |r| == |s|
    ensures forall i :: 0 <= i < |s| ==> r[i] == UpperChar(s[i])
  {
    seq(|s|, i requires 0 <= i < |s| => UpperChar(s[i]))
  }

  /** `formatDataForExport(reportData, parameter, location)` */
  function FormatDataForExport(days: seq<DayReport>, parameter: string, location: string): (rows: seq<ExportData>)
    ensures |rows| == |days|
    ensures forall i :: 0 <= i < |days| ==>
      && rows[i].date == days[i].date
      && rows[i].value == days[i].avg
      && rows[i].assessment == GetAssessmentLabel(days[i].avg, parameter)
    ensures forall i :: 0 <= i < |days| ==>
      && rows[i].parameter == ToUpperCase(parameter)
      && rows[i].unit == ExportUnit(parameter)
      && rows[i].location == location
  {
    seq(|days|, i requires 0 <= i < |days| =>
      ExportData(days[i].date, ToUpperCase(parameter), days[i].avg, ExportUnit(parameter),
                 location, GetAssessmentLabel(days[i].avg, parameter)))
  }

  const Headers: seq<string> := ["Дата", "Параметр", "Значение", "Единица", "Местоположение", "Оценка"]

  /** The six columns of a row, in header order; nothing is quoted or escaped. */
  function Fields(row: ExportData, show: real -> string): (f: seq<string>)
    ensures |f| == |Headers|
  {
    [row.date, row.parameter, show(row.value), row.unit, row.location, row.assessment]
  }

  /** `[...].join(',')` for one row. */
  function CsvLine(row: ExportData, show: real -> string): string {
    Join(Fields(row, show), ",")
  }

  /** The lines of the CSV text: the header, then one per row. */
  function CsvLines(data: seq<ExportData>, show: real -> string): (lines: seq<string>)
    ensures |lines| == |data| + 1
    ensures lines[0] == Join(Headers, ",")
    ensures forall i :: 0 <= i < |data| ==> lines[i + 1] == CsvLine(data[i], show)
  {
    [Join(Headers, ",")] + seq(|data|, i requires 0 <= i < |data| => CsvLine(data[i], show))
  }

  /** `csvContent` of `exportToCSV` (without the byte-order mark added for the Blob). */
  function CsvContent(data: seq<ExportData>, show: real -> string): (csv: string)
    ensures StartsWith(csv, Join(Headers, ","))
  {
    JoinStartsWith(CsvLines(data, show), "\n");
    Join(CsvLines(data, show), "\n")
  }

  // ---------------------------------------------------------------------------
  // Helpers about joined text
  // ---------------------------------------------------------------------------

  lemma {:induction false} JoinStartsWith(parts: seq<string>, sep: string)
    requires |parts| > 0
    ensures StartsWith(Join(parts, sep), parts[0])
  {
    if |parts| > 1 {
      StartsWithConcat(parts[0], sep + Join(parts[1..], sep));
      assert parts[0] + sep + Join(parts[1..], sep) == parts[0] + (sep + Join(parts[1..], sep));
    }
  }

  lemma {:induction false} CountAbsent(s: string, c: char)
    requires c !in s
    ensures CountChar(s, c) == 0
  {
    if |s| > 0 {
      assert s[1..][0..] == s[1..];
      assert forall x :: x in s[1..] ==> x in s;
      CountAbsent(s[1..], c);
    }
  }

  /** Joining with a separator `d` different from `c` adds no `c`. */
  lemma {:induction false} JoinCountOther(parts: seq<string>, d: char, c: char)
    requires d != c
    ensures CountChar(Join(parts, [d]), c) == SumCount(parts, c)
  {
    if |parts| == 1 {
      assert SumCount(parts[1..], c) == 0;
    } else if |parts| > 1 {
      JoinCountOther(parts[1..], d, c);
      CountCharConcat(parts[0], [d], c);
      CountCharConcat(parts[0] + [d], Join(parts[1..], [d]), c);
      assert CountChar([d], c) == 0 by {
        assert [d][1..] == [];
      }
    }
  }

  // ---------------------------------------------------------------------------
  // Properties
  // ---------------------------------------------------------------------------

  /**
   * Bounds are inclusive: a value gets at most the `k`-th label exactly when it
   * does not exceed the `k`-th bound.
   */
  lemma LabelBounds(value: real, parameter: string)
    ensures var b := AssessmentBounds(parameter);
      var n := Severity(AssessmentLevel(value, parameter));
      && (n <= 0 <==> value <= b.t0)
      && (n <= 1 <==> value <= b.t1)
      && (n <= 2 <==> value <= b.t2)
  {
  }

  /** A larger value never gets a better label. */
  lemma LabelMonotone(v1: real, v2: real, parameter: string)
    requires v1 <= v2
    ensures Severity(AssessmentLevel(v1, parameter)) <= Severity(AssessmentLevel(v2, parameter))
  {
    LabelBounds(v1, parameter);
    LabelBounds(v2, parameter);
  }

  /** The two records share their keys: an id without a unit is assessed by `[0, 50, 100]`. */
  lemma UnknownUsesDefault(parameter: string)
    requires ExportUnit(parameter) == "unit"
    ensures AssessmentBounds(parameter) == DefaultBounds
  {
  }

  /** Distinct outcomes have distinct labels, so a label names its outcome. */
  lemma LabelsDistinct(a: Level, b: Level)
    requires LabelText(a) == LabelText(b)
    ensures a == b
  {
  }

  /** Upper-casing twice is upper-casing once. */
  lemma UpperIdempotent(s: string)
    ensures ToUpperCase(ToUpperCase(s)) == ToUpperCase(s)
  {
  }

  /** The report of a concatenation is the concatenation of the reports. */
  lemma FormatConcat(a: seq<DayReport>, b: seq<DayReport>, parameter: string, location: string)
    ensures FormatDataForExport(a + b, parameter, location)
         == FormatDataForExport(a, parameter, location) + FormatDataForExport(b, parameter, location)
  {
  }

  /**
   * Nothing is escaped: a row line holds the five separating commas plus every
   * comma inside its fields.
   */
  lemma LineCommas(row: ExportData, show: real -> string)
    ensures CountChar(CsvLine(row, show), ',') == 5 + SumCount(Fields(row, show), ',')
  {
    JoinCount(Fields(row, show), ',');
  }

  /** A line made of fields without a newline has no newline. */
  lemma LineWithoutNewline(parts: seq<string>)
    requires forall j :: 0 <= j < |parts| ==> '\n' !in parts[j]
    ensures CountChar(Join(parts, ","), '\n') == 0
  {
    JoinCountOther(parts, ',', '\n');
    forall j | 0 <= j < |parts|
      ensures CountChar(parts[j], '\n') == 0
    {
      CountAbsent(parts[j], '\n');
    }
    SumCountZero(parts, '\n');
  }

  lemma HeadersWithoutNewline()
    ensures forall j :: 0 <= j < |Headers| ==> '\n' !in Headers[j]
  {
  }

  /** With no newline in any field, the CSV text has `|data| + 1` lines: exactly `|data|` newlines. */
  lemma {:induction false} CsvLineCount(data: seq<ExportData>, show: real -> string)
    requires forall i, j :: 0 <= i < |data| && 0 <= j < |Headers| ==> '\n' !in Fields(data[i], show)[j]
    ensures CountChar(CsvContent(data, show), '\n') == |data|
  {
    var lines := CsvLines(data, show);
    JoinCount(lines, '\n');
    forall k | 0 <= k < |lines|
      ensures CountChar(lines[k], '\n') == 0
    {
      if k == 0 {
        HeadersWithoutNewline();
        LineWithoutNewline(Headers);
      } else {
        LineWithoutNewline(Fields(data[k - 1], show));
      }
    }
    SumCountZero(lines, '\n');
  }

  lemma {:induction false} SumCountZero(parts: seq<string>, c: char)
    requires forall j :: 0 <= j < |parts| ==> CountChar(parts[j], c) == 0
    ensures SumCount(parts, c) == 0
  {
    if |parts| > 0 {
      assert forall j :: 0 <= j < |parts[1..]| ==> parts[1..][j] == parts[j + 1];
      SumCountZero(parts[1..], c);
    }
  }

  lemma UpperWithoutNewline(s: string)
    requires '\n' !in s
    ensures '\n' !in ToUpperCase(s)
  {
    forall i | 0 <= i < |s|
      ensures ToUpperCase(s)[i] != '\n'
    {
      assert s[i] in s;
    }
  }

  lemma TextsWithoutNewline(parameter: string, level: Level)
    ensures '\n' !in ExportUnit(parameter) && '\n' !in LabelText(level)
  {
  }

  /** Exported rows have one line each: the report of `days` has `|days| + 1` CSV lines. */
  lemma ReportLineCount(days: seq<DayReport>, parameter: string, location: string, show: real -> string)
    requires forall x :: '\n' !in show(x)
    requires '\n' !in parameter && '\n' !in location
    requires forall i :: 0 <= i < |days| ==> '\n' !in days[i].date
    ensures CountChar(CsvContent(FormatDataForExport(days, parameter, location), show), '\n') == |days|
  {
    var rows := FormatDataForExport(days, parameter, location);
    UpperWithoutNewline(parameter);
    forall i, j | 0 <= i < |rows| && 0 <= j < |Headers|
      ensures '\n' !in Fields(rows[i], show)[j]
    {
      TextsWithoutNewline(parameter, AssessmentLevel(days[i].avg, parameter));
    }
    CsvLineCount(rows, show);
  }
}
