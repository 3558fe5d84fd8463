/** scripts/analyze_mtf_data.py: averaging the horizontal and vertical MTF
    readings of each lens zone and judging every sample against the zone's
    limit. A sheet has columns `B<i>_V` and `B<i>_H` for the zones; each
    output row holds the sample number, serial, barcode, verdict and one
    average per zone. */
module MtfAnalysis {
  import opened Outcomes
  import opened Text

  // ---------------------------------------------------------------------
  // get_limit

  /** The lowest acceptable average of zone `index`: the centre zone, then
      three rings of zones; other zones have no limit. */
  function GetLimit(index: int): (r: Option<real>)
    ensures r.Some? <==> 0 <= index <= 16
    ensures index == 0 ==> r == Some(64.0)
    ensures 1 <= index <= 4 ==> r == Some(45.1)
    ensures 5 <= index <= 10 ==> r == Some(47.5)
    ensures 11 <= index <= 16 ==> r == Some(59.7)
  {
    if index == 0 then Some(64.0)
    else if 1 <= index <= 4 then Some(45.1)
    else if 5 <= index <= 10 then Some(47.5)
    else if 11 <= index <= 16 then Some(59.7)
    else None
  }

  /** The inner ring is the most lenient; no limit is above the centre's. */
  lemma LimitsBelowCentre(index: int)
    requires GetLimit(index).Some?
    ensures 45.1 <= GetLimit(index).value <= 64.0
  {
  }

  // ---------------------------------------------------------------------
  // Sheets

  /** A cell as pandas reads it: text, a number, a boolean, an empty cell
      (NaN), or anything else (a date, say). */
  datatype Cell = Str(text: string) | Num(number: real) | Bool(flag: bool) | Blank | Other

  /** A sheet: its header row and its data rows, cell by column. */
  datatype Sheet = Sheet(columns: seq<string>, rows: seq<seq<Cell>>)

  function ColumnIndex(columns: seq<string>, name: string): (r: int)
    ensures r == -1 <==> name !in columns
    ensures r != -1 ==> 0 <= r < |columns| && columns[r] == name
    decreases |columns|
  {
    if |columns| == 0 then -1
    else if columns[0] == name then 0
    else
      var k := ColumnIndex(columns[1..], name);
      if k == -1 then -1 else k + 1
  }

  /** `row[name]`; a short row reads as empty cells. */
  function CellAt(columns: seq<string>, row: seq<Cell>, name: string): Cell {
    var k := ColumnIndex(columns, name);
    if 0 <= k < |row| then row[k] else Blank
  }

  /** `row.get(name, default)`. */
  function RowGet(columns: seq<string>, row: seq<Cell>, name: string, default: Cell): (r: Cell)
    ensures name !in columns ==> r == default
  {
    if name in columns then CellAt(columns, row, name) else default
  }

  // ---------------------------------------------------------------------
  // Averages

  /** A float: a real number or NaN. */
  datatype Number = NaN | Val(x: real)

  /** `float(cell)`, `None` where Python raises TypeError or ValueError. */
  type FloatParser = string -> Option<real>

  function FloatOf(c: Cell, toFloat: FloatParser): Option<Number> {
    match c
    case Num(x) => Some(Val(x))
    case Bool(b) => Some(Val(if b then 1.0 else 0.0))
    case Str(s) => if toFloat(s).Some? then Some(Val(toFloat(s).value)) else None
    case Blank => Some(NaN)
    case Other => None
  }

  /** `(v + h) / 2`; NaN spreads. */
  function Mean(v: Number, h: Number): (r: Number)
    ensures r.Val? <==> v.Val? && h.Val?
    ensures r.Val? ==> (r.x <= v.x && r.x >= h.x) || (r.x >= v.x && r.x <= h.x)
  {
    if v.Val? && h.Val? then Val((v.x + h.x) / 2.0) else NaN
  }

  function VName(i: nat): string { "B" + NatToString(i) + "_V" }
  function HName(i: nat): string { "B" + NatToString(i) + "_H" }
  function AvgName(i: nat): string { "B" + NatToString(i) + "_H_V" }

  /** The average of zone `i` in one row: `None` when a column is missing
      or a cell does not convert. */
  function PairAverage(columns: seq<string>, row: seq<Cell>, i: nat, toFloat: FloatParser): (r: Option<Number>)
    ensures VName(i) !in columns || HName(i) !in columns ==> r.None?
  {
    if VName(i) in columns && HName(i) in columns then
      match (FloatOf(CellAt(columns, row, VName(i)), toFloat), FloatOf(CellAt(columns, row, HName(i)), toFloat))
      case (Some(v), Some(h)) => Some(Mean(v, h))
      case _ => None
    else None
  }

  /** `limit is not None and avg_val is not None and avg_val < limit`
      (NaN compares false). */
  predicate Fails(avg: Option<Number>, limit: Option<real>) {
    limit.Some? && avg.Some? && avg.value.Val? && avg.value.x < limit.value
  }

  /** Some zone below `maxPairs` with a limit averages strictly below it. */
  predicate RowFails(columns: seq<string>, row: seq<Cell>, maxPairs: nat, toFloat: FloatParser) {
    exists i :: 0 <= i < maxPairs && Fails(PairAverage(columns, row, i, toFloat), GetLimit(i))
  }

  /** `RowFails` zone by zone, in the order the loop visits the zones. */
  predicate AnyFails(columns: seq<string>, row: seq<Cell>, n: nat, toFloat: FloatParser) {
    n > 0 && (AnyFails(columns, row, n - 1, toFloat) || Fails(PairAverage(columns, row, n - 1, toFloat), GetLimit(n - 1)))
  }

  lemma {:induction false} AnyFailsIff(columns: seq<string>, row: seq<Cell>, n: nat, toFloat: FloatParser)
    ensures AnyFails(columns, row, n, toFloat) <==> RowFails(columns, row, n, toFloat)
  {
    if n > 0 {
      AnyFailsIff(columns, row, n - 1, toFloat);
      if RowFails(columns, row, n, toFloat) && !Fails(PairAverage(columns, row, n - 1, toFloat), GetLimit(n - 1)) {
        var i :| 0 <= i < n && Fails(PairAverage(columns, row, i, toFloat), GetLimit(i));
        assert i < n - 1;
      }
    }
  }

  // ---------------------------------------------------------------------
  // process_sheet

  /** The output header row. */
  function OutputColumns(maxPairs: nat): (r: seq<string>)
    ensures |r| == 4 + maxPairs
    ensures r[..4] == ["NO", "SN.", "Barcode", "Result"]
    ensures forall i :: 0 <= i < maxPairs ==> r[4 + i] == AvgName(i)
  {
    ["NO", "SN.", "Barcode", "Result"] + seq(maxPairs, i requires 0 <= i < maxPairs => AvgName(i))
  }

  datatype OutRow = OutRow(no: nat, sn: Cell, barcode: Cell, result: string, averages: seq<Option<Number>>)

  /** The averages of zones 0 to `maxPairs - 1`. */
  function Averages(columns: seq<string>, row: seq<Cell>, maxPairs: nat, toFloat: FloatParser): (r: seq<Option<Number>>)
    ensures |r| == maxPairs && forall i :: 0 <= i < maxPairs ==> r[i] == PairAverage(columns, row, i, toFloat)
  {
    seq(maxPairs, i requires 0 <= i < maxPairs => PairAverage(columns, row, i, toFloat))
  }

  /** The Result cell: `"PASS" if pass_flag else "FAIL"`. */
  function ResultText(passFlag: bool): string {
    if passFlag then "PASS" else "FAIL"
  }

  /** The row `process_sheet` makes of data row `idx`. */
  function ShapeRow(columns: seq<string>, row: seq<Cell>, idx: nat, maxPairs: nat, toFloat: FloatParser): OutRow {
    OutRow(idx + 1,
           RowGet(columns, row, "SN.", RowGet(columns, row, "SN", Str(""))),
           RowGet(columns, row, "Barcode", Str("")),
           ResultText(!AnyFails(columns, row, maxPairs, toFloat)),
           Averages(columns, row, maxPairs, toFloat))
  }

  function ProcessRows(sheet: Sheet, maxPairs: nat, toFloat: FloatParser): seq<OutRow> {
    seq(|sheet.rows|, k requires 0 <= k < |sheet.rows| => ShapeRow(sheet.columns, sheet.rows[k], k, maxPairs, toFloat))
  }

  /** The zone loop of one row: the averages and the verdict. */
  method JudgeRow(columns: seq<string>, row: seq<Cell>, maxPairs: nat, toFloat: FloatParser)
    returns (averages: seq<Option<Number>>, passFlag: bool)
    ensures averages == Averages(columns, row, maxPairs, toFloat)
    ensures passFlag <==> !AnyFails(columns, row, maxPairs, toFloat)
  {
    averages := [];
    passFlag := true;
    for i := 0 to maxPairs
      invariant |averages| == i
      invariant forall j :: 0 <= j < i ==> averages[j] == PairAverage(columns, row, j, toFloat)
      invariant passFlag <==> !AnyFails(columns, row, i, toFloat)
    {
      var avgVal := ZoneAverage(columns, row, i, toFloat);
      averages := averages + [avgVal];
      var limit := GetLimit(i);
      if limit.Some? && avgVal.Some? && avgVal.value.Val? && avgVal.value.x < limit.value {
        passFlag := false;
      }
    }
  }

  /** One zone's `avg_val`. */
  method ZoneAverage(columns: seq<string>, row: seq<Cell>, i: nat, toFloat: FloatParser) returns (avgVal: Option<Number>)
    ensures avgVal == PairAverage(columns, row, i, toFloat)
  {
    avgVal := None;
    if VName(i) in columns && HName(i) in columns {
      var v := FloatOf(CellAt(columns, row, VName(i)), toFloat);
      var h := FloatOf(CellAt(columns, row, HName(i)), toFloat);
      if v.Some? && h.Some? {
        avgVal := Some(Mean(v.value, h.value));
      }
    }
  }

  lemma OutputColumnsSnoc(i: nat)
    ensures OutputColumns(i + 1) == OutputColumns(i) + [AvgName(i)]
  {
    var a := OutputColumns(i + 1);
    var b := OutputColumns(i) + [AvgName(i)];
    assert |a| == |b|;
    forall k | 0 <= k < |a| ensures a[k] == b[k] {
      if k < 4 { assert a[k] == a[..4][k] && b[k] == OutputColumns(i)[..4][k]; }
    }
  }

  method BuildHeader(maxPairs: nat) returns (header: seq<string>)
    ensures header == OutputColumns(maxPairs)
  {
    header := ["NO", "SN.", "Barcode", "Result"];
    assert header == OutputColumns(0);
    for i := 0 to maxPairs
      invariant header == OutputColumns(i)
    {
      OutputColumnsSnoc(i);
      header := header + [AvgName(i)];
    }
  }

  /** `process_sheet`: one output row per data row, in order. */
  method ProcessSheet(sheet: Sheet, maxPairs: nat, toFloat: FloatParser) returns (header: seq<string>, out: seq<OutRow>)
    ensures header == OutputColumns(maxPairs)
    ensures out == ProcessRows(sheet, maxPairs, toFloat)
  {
    header := BuildHeader(maxPairs);
    out := [];
    for idx := 0 to |sheet.rows|
      invariant |out| == idx
      invariant forall k :: 0 <= k < idx ==> out[k] == ShapeRow(sheet.columns, sheet.rows[k], k, maxPairs, toFloat)
    {
      var row := sheet.rows[idx];
      var sn := RowGet(sheet.columns, row, "SN.", RowGet(sheet.columns, row, "SN", Str("")));
      var barcode := RowGet(sheet.columns, row, "Barcode", Str(""));
      var averages, passFlag := JudgeRow(sheet.columns, row, maxPairs, toFloat);
      var here := OutRow(idx + 1, sn, barcode, ResultText(passFlag), averages);
      assert here == ShapeRow(sheet.columns, row, idx, maxPairs, toFloat);
      ghost var prev := out;
      out := out + [here];
      forall k | 0 <= k < idx + 1
        ensures out[k] == ShapeRow(sheet.columns, sheet.rows[k], k, maxPairs, toFloat)
      {
        if k < idx {
          assert out[k] == prev[k];
        }
      }
    }
  }

  // ---------------------------------------------------------------------
  // Properties of process_sheet

  /** Rows are numbered from 1 in order, each says PASS or FAIL, and FAIL
      exactly when some limited zone averages below its limit. */
  lemma ProcessRowsShape(sheet: Sheet, maxPairs: nat, toFloat: FloatParser)
    ensures var out := ProcessRows(sheet, maxPairs, toFloat);
      |out| == |sheet.rows|
      && forall k :: 0 <= k < |out| ==>
        out[k].no == k + 1 && |out[k].averages| == maxPairs
        && (out[k].result == "FAIL" <==> RowFails(sheet.columns, sheet.rows[k], maxPairs, toFloat))
        && (out[k].result == "FAIL" || out[k].result == "PASS")
  {
    forall k | 0 <= k < |sheet.rows|
      ensures AnyFails(sheet.columns, sheet.rows[k], maxPairs, toFloat) <==> RowFails(sheet.columns, sheet.rows[k], maxPairs, toFloat)
    {
      AnyFailsIff(sheet.columns, sheet.rows[k], maxPairs, toFloat);
    }
  }

  /** An average equal to its limit passes. */
  lemma AtLimitPasses(avg: real, i: int)
    requires GetLimit(i) == Some(avg)
    ensures !Fails(Some(Val(avg)), GetLimit(i))
  {
  }

  /** A zone whose columns are missing, or whose cells do not convert or
      are empty, never fails the row. */
  lemma UnreadableZoneNeverFails(columns: seq<string>, row: seq<Cell>, i: nat, toFloat: FloatParser)
    requires VName(i) !in columns || HName(i) !in columns
             || CellAt(columns, row, VName(i)) in {Blank, Other} || CellAt(columns, row, HName(i)) in {Blank, Other}
             || (CellAt(columns, row, VName(i)).Str? && toFloat(CellAt(columns, row, VName(i)).text).None?)
             || (CellAt(columns, row, HName(i)).Str? && toFloat(CellAt(columns, row, HName(i)).text).None?)
    ensures !Fails(PairAverage(columns, row, i, toFloat), GetLimit(i))
  {
  }

  /** Zones from 17 on have no limit, so only zones 0 to 16 decide. */
  lemma ZonesPastSixteenIgnored(columns: seq<string>, row: seq<Cell>, maxPairs: nat, toFloat: FloatParser)
    requires maxPairs >= 17
    ensures RowFails(columns, row, maxPairs, toFloat) <==> RowFails(columns, row, 17, toFloat)
  {
    if RowFails(columns, row, maxPairs, toFloat) {
      var i :| 0 <= i < maxPairs && Fails(PairAverage(columns, row, i, toFloat), GetLimit(i));
      assert i < 17;
    }
  }

  /** The serial falls back from "SN." to "SN" to the empty text. */
  lemma SerialFallback(columns: seq<string>, row: seq<Cell>, idx: nat, maxPairs: nat, toFloat: FloatParser)
    ensures var sn := ShapeRow(columns, row, idx, maxPairs, toFloat).sn;
      ("SN." in columns ==> sn == CellAt(columns, row, "SN."))
      && ("SN." !in columns && "SN" in columns ==> sn == CellAt(columns, row, "SN"))
      && ("SN." !in columns && "SN" !in columns ==> sn == Str(""))
  {
  }

  // ---------------------------------------------------------------------
  // The summary block of the averaged sheets

  /** `str(r).strip().lower() == "fail"` */
  predicate IsFail(r: string) {
    Lower(Trim(r)) == "fail"
  }

  /** The two verdicts `process_sheet` writes are read back as such. */
  lemma VerdictTexts()
    ensures IsFail("FAIL") && !IsFail("PASS")
  {
    FailText();
    PassText();
  }

  lemma FailText()
    ensures IsFail("FAIL")
  {
    TrimIdentity("FAIL");
    LowerFail();
  }

  lemma LowerFail()
    ensures Lower("FAIL") == "fail"
  {
    var l := Lower("FAIL");
    assert l[0] == 'f' && l[1] == 'a' && l[2] == 'i' && l[3] == 'l';
  }

  lemma PassText()
    ensures !IsFail("PASS")
  {
    TrimIdentity("PASS");
    assert Lower("PASS")[0] == 'p';
  }

  function CountFails(results: seq<string>): (n: nat)
    ensures n <= |results|
    decreases |results|
  {
    if results == [] then 0 else (if IsFail(results[0]) then 1 else 0) + CountFails(results[1..])
  }

  datatype Summary = Summary(fails: nat, total: nat, failPercent: real)

  lemma RatioAtMostOne(f: real, t: real)
    requires 0.0 <= f <= t && t > 0.0
    ensures 0.0 <= f / t <= 1.0
  {
    var q := f / t;
    assert q * t == f;
  }

  /** The fail count, the sample count and the fail percentage (0 without
      samples). */
  function Summarize(results: seq<string>): (s: Summary)
    ensures s.total == |results| && s.fails <= s.total
    ensures s.fails == CountFails(results)
    ensures s.total > 0 ==> s.failPercent == s.fails as real / s.total as real * 100.0
    ensures s.total == 0 ==> s.failPercent == 0.0
    ensures 0.0 <= s.failPercent <= 100.0
  {
    var total := |results|;
    var fails := CountFails(results);
    if total > 0 then
      RatioAtMostOne(fails as real, total as real);
      Summary(fails, total, fails as real / total as real * 100.0)
    else Summary(fails, total, 0.0)
  }

  /** The Result column of a processed sheet. */
  function Verdicts(out: seq<OutRow>): (r: seq<string>)
    ensures |r| == |out| && forall k :: 0 <= k < |out| ==> r[k] == out[k].result
    decreases |out|
  {
    if out == [] then [] else [out[0].result] + Verdicts(out[1..])
  }

  /** The summary of a processed sheet counts its failing rows. */
  lemma {:induction false} SummaryCountsFailures(out: seq<OutRow>)
    requires forall k :: 0 <= k < |out| ==> out[k].result == "FAIL" || out[k].result == "PASS"
    ensures CountFails(Verdicts(out)) == |FailRows(out)|
    decreases |out|
  {
    if out != [] {
      assert Verdicts(out)[1..] == Verdicts(out[1..]);
      SummaryCountsFailures(out[1..]);
      VerdictTexts();
    }
  }

  /** The summary block of a processed sheet: one sample per row, the
      failing rows counted, and their share of the rows as a percentage. */
  lemma SummaryOfSheet(out: seq<OutRow>)
    requires forall k :: 0 <= k < |out| ==> out[k].result == "FAIL" || out[k].result == "PASS"
    ensures Summarize(Verdicts(out)).total == |out|
    ensures Summarize(Verdicts(out)).fails == |FailRows(out)|
    ensures |out| > 0 ==> Summarize(Verdicts(out)).failPercent == |FailRows(out)| as real / |out| as real * 100.0
  {
    SummaryCountsFailures(out);
  }

  function FailRows(out: seq<OutRow>): (r: seq<OutRow>)
    ensures forall x :: x in r ==> x in out && x.result == "FAIL"
    decreases |out|
  {
    if out == [] then [] else (if out[0].result == "FAIL" then [out[0]] else []) + FailRows(out[1..])
  }

  /** The block is added to the two averaged sheets that have a Result
      column. */
  function SummaryBlock(sheetName: string, header: seq<string>, results: seq<string>): (r: Option<Summary>)
    ensures r.Some? <==> (sheetName == "AVG_MTF_FOCUS" || sheetName == "AVG_MTF_LCE") && "Result" in header
  {
    if (sheetName == "AVG_MTF_FOCUS" || sheetName == "AVG_MTF_LCE") && "Result" in header
    then Some(Summarize(results)) else None
  }
}
