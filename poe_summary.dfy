/** The whole-log scanners of a PoE log in `FileParser/Program.cs`:
    `GetSummaryData` (the `key: value` lines of the summary block) and
    `GetTaskDetails` with `SplitTaskLine` (the result column of the task
    table). */
module PoeSummary {
  import opened Outcomes
  import opened Text
  import opened OrderedDict
  import opened LineScan
  import Sections

  function Dashes(n: nat): (r: string)
    ensures |r| == n && forall i :: 0 <= i < n ==> r[i] == '-'
  {
    seq(n, _ => '-')
  }

  const SummaryMarker := "===<< SUMMARY >>"
  /** The 64-dash line that closes the summary block. */
  const SummaryClose := Dashes(64)

  // ---------------------------------------------------------------------
  // GetSummaryData
  // ---------------------------------------------------------------------

  datatype SummaryState = SummaryState(inSummary: bool, data: Dict<string>)

  const SummaryInit := SummaryState(false, [])

  /** The entry a summary line contributes: the trimmed texts before and
      after its first colon. */
  function SummaryEntry(line: string): (r: (string, string))
    requires ':' in line
  {
    var c := IndexOfChar(line, ':');
    (Trim(line[..c]), Trim(line[c + 1..]))
  }

  /** One iteration: the marker opens the block (on any line that contains
      it), a line starting with the 64 dashes closes it, and inside it a
      non-blank line with a colon sets its key. */
  function SummaryStep(st: SummaryState, line: string): SummaryState {
    if Contains(line, SummaryMarker) then st.(inSummary := true)
    else if st.inSummary && StartsWith(line, SummaryClose) then st.(inSummary := false)
    else if st.inSummary && !IsBlank(line) && ':' in line then
      var e := SummaryEntry(line);
      st.(data := Put(st.data, e.0, e.1))
    else st
  }

  function SummaryRun(st: SummaryState, lines: seq<string>): SummaryState
    decreases |lines|
  {
    if |lines| == 0 then st else SummaryRun(SummaryStep(st, lines[0]), lines[1..])
  }

  /** The summary map of a log. */
  function Summary(lines: seq<string>): Dict<string> {
    SummaryRun(SummaryInit, lines).data
  }

  /** The method first splits the log into task sections and drops them;
      only the exception that split can raise reaches the caller. The
      `SN1#:` value it also reads is never used. */
  method GetSummaryData(lines: seq<string>) returns (r: Result<Dict<string>>)
    ensures Sections.Sections(lines).Err? ==> r == Err(Sections.Sections(lines).fault)
    ensures Sections.Sections(lines).Ok? ==> r == Ok(Summary(lines))
  {
    var sections := Sections.SplitIntoMultipleLines(lines);
    if sections.Err? {
      return Err(sections.fault);
    }
    var data := ScanSummary(lines);
    r := Ok(data);
  }

  /** The loop of `GetSummaryData` over the lines of the log. */
  method ScanSummary(lines: seq<string>) returns (r: Dict<string>)
    ensures r == Summary(lines)
  {
    var inSummary := false;
    var data: Dict<string> := [];
    for i := 0 to |lines|
      invariant SummaryRun(SummaryState(inSummary, data), lines[i..]) == SummaryRun(SummaryInit, lines)
    {
      assert lines[i..][0] == lines[i] && lines[i..][1..] == lines[i + 1..];
      var line := lines[i];
      if Contains(line, SummaryMarker) {
        inSummary := true;
        continue;
      }
      if inSummary && StartsWith(line, SummaryClose) {
        inSummary := false;
        continue;
      }
      if inSummary && !IsBlank(line) {
        var c := IndexOfChar(line, ':');
        if c > -1 {
          var key := Trim(line[..c]);
          var value := Trim(line[c + 1..]);
          data := Put(data, key, value);
        }
      }
    }
    r := data;
  }

  /** Outside the block, lines without the marker change nothing. */
  lemma {:induction false} SummaryOutsideBlock(d: Dict<string>, lines: seq<string>)
    requires forall i :: 0 <= i < |lines| ==> !Contains(lines[i], SummaryMarker)
    ensures SummaryRun(SummaryState(false, d), lines) == SummaryState(false, d)
    decreases |lines|
  {
    if |lines| > 0 {
      SummaryOutsideBlock(d, lines[1..]);
    }
  }

  /** Nothing before the first marker line is read. */
  lemma SummaryIgnoresPreamble(preamble: seq<string>, rest: seq<string>)
    requires forall i :: 0 <= i < |preamble| ==> !Contains(preamble[i], SummaryMarker)
    ensures Summary(preamble + rest) == Summary(rest)
  {
    SummaryRunAppend(SummaryInit, preamble, rest);
    SummaryOutsideBlock([], preamble);
  }

  /** The closing dash line ends the block: what follows it, up to another
      marker, is not read. */
  lemma SummaryClosed(d: Dict<string>, close: string, rest: seq<string>)
    requires StartsWith(close, SummaryClose) && !Contains(close, SummaryMarker)
    requires forall i :: 0 <= i < |rest| ==> !Contains(rest[i], SummaryMarker)
    ensures SummaryRun(SummaryState(true, d), [close] + rest) == SummaryState(false, d)
  {
    assert ([close] + rest)[1..] == rest;
    SummaryOutsideBlock(d, rest);
  }

  lemma {:induction false} SummaryRunAppend(st: SummaryState, a: seq<string>, b: seq<string>)
    ensures SummaryRun(st, a + b) == SummaryRun(SummaryRun(st, a), b)
    decreases |a|
  {
    if |a| > 0 {
      assert (a + b)[0] == a[0] && (a + b)[1..] == a[1..] + b;
      SummaryRunAppend(SummaryStep(st, a[0]), a[1..], b);
    } else {
      assert a + b == b;
    }
  }

  /** `line` holds a colon and yields the entry `(k, v)`. */
  predicate EntryOf(line: string, k: string, v: string) {
    ':' in line && SummaryEntry(line) == (k, v)
  }

  /** Some line of `src` yields the entry `e`. */
  ghost predicate Origin(e: (string, string), src: seq<string>) {
    exists l :: l in src && EntryOf(l, e.0, e.1)
  }

  /** Every entry of `d` comes from one of the lines `src`. */
  ghost predicate FromLines(d: Dict<string>, src: seq<string>) {
    forall i :: 0 <= i < |d| ==> Origin(d[i], src)
  }

  lemma OriginGrows(e: (string, string), src: seq<string>, line: string)
    requires Origin(e, src)
    ensures Origin(e, src + [line])
  {
    var l :| l in src && EntryOf(l, e.0, e.1);
    assert l in src + [line];
  }

  lemma SummaryStepOrigins(st: SummaryState, seen: seq<string>, line: string)
    requires FromLines(st.data, seen)
    ensures FromLines(SummaryStep(st, line).data, seen + [line])
  {
    var next := SummaryStep(st, line).data;
    forall i | 0 <= i < |next| ensures Origin(next[i], seen + [line]) {
      if next == st.data {
        OriginGrows(st.data[i], seen, line);
      } else {
        var e := SummaryEntry(line);
        assert next == Put(st.data, e.0, e.1);
        PutEntries(st.data, e.0, e.1);
        if next[i] == (e.0, e.1) {
          assert EntryOf(line, e.0, e.1);
          assert line in seen + [line];
        } else {
          var j :| 0 <= j < |st.data| && st.data[j] == next[i];
          OriginGrows(st.data[j], seen, line);
        }
      }
    }
  }

  lemma {:induction false} SummaryRunOrigins(st: SummaryState, seen: seq<string>, lines: seq<string>)
    requires FromLines(st.data, seen)
    ensures FromLines(SummaryRun(st, lines).data, seen + lines)
    decreases |lines|
  {
    if |lines| == 0 {
      assert seen + lines == seen;
    } else {
      SummaryStepOrigins(st, seen, lines[0]);
      SummaryRunOrigins(SummaryStep(st, lines[0]), seen + [lines[0]], lines[1..]);
      assert seen + [lines[0]] + lines[1..] == seen + lines;
    }
  }

  /** Every summary entry is the trimmed key and value around the first
      colon of some line of the log. */
  lemma SummaryEntriesFromLines(lines: seq<string>)
    ensures forall i :: 0 <= i < |Summary(lines)| ==> Origin(Summary(lines)[i], lines)
  {
    var none: seq<string> := [];
    SummaryRunOrigins(SummaryInit, none, lines);
    assert none + lines == lines;
  }

  /** The map never lists a key twice. */
  lemma {:induction false} SummaryRunUnique(st: SummaryState, lines: seq<string>)
    requires UniqueKeys(st.data)
    ensures UniqueKeys(SummaryRun(st, lines).data)
    decreases |lines|
  {
    if |lines| > 0 {
      SummaryRunUnique(SummaryStep(st, lines[0]), lines[1..]);
    }
  }

  // ---------------------------------------------------------------------
  // GetTaskDetails and SplitTaskLine
  // ---------------------------------------------------------------------

  const TaskTableHeader := "Index    Task Name"

  /** `SplitHeaderLine`: the column names, whatever the header line says. */
  const TaskColumns: seq<string> := ["Index", "Task Name", "Start Time", "End Time", "Elapsed Time", "Result"]

  /** `SplitTaskLine`: the six fixed-width columns of a task row, trimmed.
      `Substring` throws unless the row has at least 95 characters. */
  function SplitTaskLine(line: string): (r: Result<seq<string>>)
    ensures r.Ok? <==> |line| >= 95
    ensures r.Ok? ==> |r.value| == |TaskColumns|
  {
    if |line| < 95 then Err(ArgumentOutOfRange)
    else Ok([Trim(line[0..8]), Trim(line[8..44]), Trim(line[44..60]),
             Trim(line[61..77]), Trim(line[78..94]), Trim(line[95..])])
  }

  /** The columns leave out the characters at 60, 77 and 94: changing one of
      them changes no field. */
  lemma SplitTaskLineSkipsGaps(line: string, k: nat, c: char)
    requires |line| >= 95 && (k == 60 || k == 77 || k == 94)
    ensures SplitTaskLine(line[k := c]) == SplitTaskLine(line)
  {
    var m := line[k := c];
    assert m[0..8] == line[0..8] && m[8..44] == line[8..44] && m[44..60] == line[44..60];
    assert m[61..77] == line[61..77] && m[78..94] == line[78..94] && m[95..] == line[95..];
  }

  /** The `Result` column is the trimmed text from character 95 on. */
  lemma SplitTaskLineResult(line: string)
    requires |line| >= 95
    ensures TaskColumns[5] == "Result" && SplitTaskLine(line).value[5] == Trim(line[95..])
    ensures SplitTaskLine(line).value[0] == Trim(line[..8])
  {
    assert line[0..8] == line[..8];
  }

  /** A row of the table, as `TakeWhile` accepts it. */
  predicate IsTaskRow(line: string) {
    |Trim(line)| > 0 && !StartsWith(line, "=")
  }

  /** The line `Array.FindIndex` looks for. */
  predicate IsTableHeader(line: string) {
    Contains(line, TaskTableHeader)
  }

  /** `Skip(i).TakeWhile(IsTaskRow)`. */
  function TaskRowsFrom(lines: seq<string>, i: nat): (rows: seq<string>)
    decreases |lines| - i
  {
    if i >= |lines| || !IsTaskRow(lines[i]) then [] else [lines[i]] + TaskRowsFrom(lines, i + 1)
  }

  /** The rows of the task table: those after the header and its separator,
      up to the first blank line or line starting with `=`. */
  function TaskRows(lines: seq<string>): seq<string> {
    var h := FindIndexFrom(IsTableHeader, lines, 0);
    if h == -1 then [] else TaskRowsFrom(lines, h + 2)
  }

  /** The dictionary key `ToDictionary` gives a row: "Index" and its first
      column (a total version, defined on rows too short to split). */
  function RowKey(line: string): string {
    "Index" + Trim(line[..if |line| < 8 then |line| else 8])
  }

  /** `ToDictionary` over the split rows, then the `Result` column of each,
      in row order: a row shorter than 95 characters makes `Substring`
      throw, a repeated `Index` key makes `Add` throw. `seen` holds the keys
      already added. */
  function DetailsRun(seen: seq<string>, rows: seq<string>): (r: Result<seq<string>>)
    decreases |rows|
  {
    if |rows| == 0 then Ok([])
    else if |rows[0]| < 95 then Err(ArgumentOutOfRange)
    else if RowKey(rows[0]) in seen then Err(DuplicateKey(RowKey(rows[0])))
    else Prefixed([Trim(rows[0][95..])], DetailsRun(seen + [RowKey(rows[0])], rows[1..]))
  }

  /** The task results of a log, or the fault a short row or a repeated index
      raises. No table means no results. */
  function TaskDetails(lines: seq<string>): Result<seq<string>> {
    var h := FindIndexFrom(IsTableHeader, lines, 0);
    if h == -1 then Ok([]) else DetailsRun([], TaskRows(lines))
  }

  /** `prefix` put in front of a successful result. */
  function Prefixed(prefix: seq<string>, r: Result<seq<string>>): Result<seq<string>> {
    match r
    case Ok(rest) => Ok(prefix + rest)
    case Err(f) => Err(f)
  }

  method GetTaskDetails(lines: seq<string>) returns (r: Result<seq<string>>)
    ensures r == TaskDetails(lines)
  {
    var h := FindIndex(IsTableHeader, lines);
    if h < 0 {
      return Ok([]);
    }
    r := TaskResults(lines, h + 2);
  }

  /** The rows from `start` on, split and keyed as `ToDictionary` does. */
  method TaskResults(lines: seq<string>, start: nat) returns (r: Result<seq<string>>)
    ensures r == DetailsRun([], TaskRowsFrom(lines, start))
  {
    var seen: seq<string> := [];
    var results: seq<string> := [];
    var i := start;
    PrefixedNothing(DetailsRun([], TaskRowsFrom(lines, start)));
    while i < |lines| && IsTaskRow(lines[i])
      invariant start <= i
      invariant DetailsRun([], TaskRowsFrom(lines, start)) ==
        Prefixed(results, DetailsRun(seen, TaskRowsFrom(lines, i)))
      decreases |lines| - i
    {
      var line := lines[i];
      DetailsRunCons(seen, lines, i);
      var split := SplitTaskLine(line);
      if split.Err? {
        return Err(split.fault);
      }
      var key := "Index" + split.value[0];
      if key in seen {
        return Err(DuplicateKey(key));
      }
      PrefixedTwice(results, [split.value[5]], DetailsRun(seen + [key], TaskRowsFrom(lines, i + 1)));
      seen := seen + [key];
      results := results + [split.value[5]];
      i := i + 1;
    }
    assert TaskRowsFrom(lines, i) == [];
    assert DetailsRun(seen, []) == Ok([]);
    assert results + [] == results;
    r := Ok(results);
  }

  lemma PrefixedNothing(r: Result<seq<string>>)
    ensures Prefixed([], r) == r
  {
    if r.Ok? {
      assert [] + r.value == r.value;
    }
  }

  lemma PrefixedTwice(a: seq<string>, b: seq<string>, r: Result<seq<string>>)
    ensures Prefixed(a, Prefixed(b, r)) == Prefixed(a + b, r)
  {
    if r.Ok? {
      assert a + (b + r.value) == (a + b) + r.value;
    }
  }

  /** One row of the table: the run over the rows from `i` splits row `i`,
      checks its key, then goes on with the rest. */
  lemma DetailsRunCons(seen: seq<string>, lines: seq<string>, i: nat)
    requires i < |lines| && IsTaskRow(lines[i])
    ensures DetailsRun(seen, TaskRowsFrom(lines, i)) ==
      match SplitTaskLine(lines[i])
      case Err(f) => Err(f)
      case Ok(fields) =>
        if "Index" + fields[0] in seen then Err(DuplicateKey("Index" + fields[0]))
        else Prefixed([fields[5]], DetailsRun(seen + ["Index" + fields[0]], TaskRowsFrom(lines, i + 1)))
  {
    var rows := TaskRowsFrom(lines, i);
    assert rows == [lines[i]] + TaskRowsFrom(lines, i + 1);
    assert rows[0] == lines[i] && rows[1..] == TaskRowsFrom(lines, i + 1);
    if |lines[i]| >= 95 {
      SplitTaskLineResult(lines[i]);
    }
  }

  /** Without a table header the result is empty. */
  lemma TaskDetailsWithoutTable(lines: seq<string>)
    requires forall j :: 0 <= j < |lines| ==> !IsTableHeader(lines[j])
    ensures TaskDetails(lines) == Ok([])
  {
  }

  /** Every row is long enough for `SplitTaskLine`. */
  predicate AllLong(rows: seq<string>) {
    forall i :: 0 <= i < |rows| ==> |rows[i]| >= 95
  }

  /** No row's key is among `seen` and no two rows share a key. */
  predicate FreshKeys(seen: seq<string>, rows: seq<string>) {
    (forall i :: 0 <= i < |rows| ==> RowKey(rows[i]) !in seen) &&
    (forall i, j :: 0 <= i < j < |rows| ==> RowKey(rows[i]) != RowKey(rows[j]))
  }

  lemma FreshKeysCons(seen: seq<string>, rows: seq<string>)
    requires |rows| > 0
    ensures FreshKeys(seen, rows) <==>
      RowKey(rows[0]) !in seen && FreshKeys(seen + [RowKey(rows[0])], rows[1..])
  {
    var tl := rows[1..];
    assert forall i :: 0 <= i < |tl| ==> tl[i] == rows[i + 1];
    if RowKey(rows[0]) !in seen && FreshKeys(seen + [RowKey(rows[0])], tl) {
      forall i, j | 0 <= i < j < |rows| ensures RowKey(rows[i]) != RowKey(rows[j]) {
        if i == 0 {
          assert RowKey(tl[j - 1]) !in seen + [RowKey(rows[0])];
        } else {
          assert RowKey(tl[i - 1]) != RowKey(tl[j - 1]);
        }
      }
      forall i | 0 <= i < |rows| ensures RowKey(rows[i]) !in seen {
        if i > 0 {
          assert RowKey(tl[i - 1]) !in seen + [RowKey(rows[0])];
        }
      }
    }
    if FreshKeys(seen, rows) {
      forall i | 0 <= i < |tl| ensures RowKey(tl[i]) !in seen + [RowKey(rows[0])] {
        assert RowKey(rows[0]) != RowKey(rows[i + 1]);
      }
      forall i, j | 0 <= i < j < |tl| ensures RowKey(tl[i]) != RowKey(tl[j]) {
        assert RowKey(rows[i + 1]) != RowKey(rows[j + 1]);
      }
    }
  }

  /** The split succeeds for every row exactly when every row has at least 95
      characters and no two rows share an index. */
  lemma {:induction false} DetailsRunOk(seen: seq<string>, rows: seq<string>)
    ensures DetailsRun(seen, rows).Ok? <==> AllLong(rows) && FreshKeys(seen, rows)
    decreases |rows|
  {
    if |rows| > 0 {
      var key := RowKey(rows[0]);
      FreshKeysCons(seen, rows);
      AllLongCons(rows);
      DetailsRunOkCons(seen, rows);
      DetailsRunOk(seen + [key], rows[1..]);
    }
  }

  lemma AllLongCons(rows: seq<string>)
    requires |rows| > 0
    ensures AllLong(rows) <==> |rows[0]| >= 95 && AllLong(rows[1..])
  {
    var tl := rows[1..];
    assert forall i :: 0 <= i < |tl| ==> tl[i] == rows[i + 1];
  }

  lemma DetailsRunOkCons(seen: seq<string>, rows: seq<string>)
    requires |rows| > 0
    ensures DetailsRun(seen, rows).Ok? <==>
      |rows[0]| >= 95 && RowKey(rows[0]) !in seen && DetailsRun(seen + [RowKey(rows[0])], rows[1..]).Ok?
  {
  }

  /** A successful run took its first row apart and went on. */
  lemma DetailsRunOkStep(seen: seq<string>, rows: seq<string>)
    requires |rows| > 0 && DetailsRun(seen, rows).Ok?
    ensures |rows[0]| >= 95 && RowKey(rows[0]) !in seen
    ensures DetailsRun(seen + [RowKey(rows[0])], rows[1..]).Ok?
    ensures DetailsRun(seen, rows).value == [Trim(rows[0][95..])] + DetailsRun(seen + [RowKey(rows[0])], rows[1..]).value
  {
  }

  /** A successful run lists each row's `Result` column, in row order. */
  lemma DetailsRunValues(seen: seq<string>, rows: seq<string>)
    requires DetailsRun(seen, rows).Ok?
    ensures AllLong(rows) && |DetailsRun(seen, rows).value| == |rows|
    ensures forall i :: 0 <= i < |rows| ==> DetailsRun(seen, rows).value[i] == Trim(rows[i][95..])
  {
    DetailsRunOk(seen, rows);
    DetailsRunLength(seen, rows);
    forall i | 0 <= i < |rows|
      ensures DetailsRun(seen, rows).value[i] == Trim(rows[i][95..])
    {
      DetailsRunAt(seen, rows, i);
    }
  }

  lemma {:induction false} DetailsRunLength(seen: seq<string>, rows: seq<string>)
    requires DetailsRun(seen, rows).Ok?
    ensures |DetailsRun(seen, rows).value| == |rows|
    decreases |rows|
  {
    if |rows| > 0 {
      DetailsRunOkStep(seen, rows);
      DetailsRunLength(seen + [RowKey(rows[0])], rows[1..]);
    }
  }

  lemma {:induction false} DetailsRunAt(seen: seq<string>, rows: seq<string>, i: nat)
    requires DetailsRun(seen, rows).Ok? && i < |rows|
    ensures |rows[i]| >= 95 && i < |DetailsRun(seen, rows).value|
    ensures DetailsRun(seen, rows).value[i] == Trim(rows[i][95..])
    decreases i
  {
    DetailsRunOkStep(seen, rows);
    DetailsRunLength(seen, rows);
    if i > 0 {
      var tl := rows[1..];
      var seen' := seen + [RowKey(rows[0])];
      DetailsRunAt(seen', tl, i - 1);
      assert tl[i - 1] == rows[i];
      ConsAt(Trim(rows[0][95..]), DetailsRun(seen', tl).value, i);
    }
  }

  lemma ConsAt(x: string, w: seq<string>, i: nat)
    requires 0 < i <= |w|
    ensures ([x] + w)[i] == w[i - 1]
  {
  }

  /** On success the result holds one trimmed `Result` column per table row,
      in order; it fails exactly on a row shorter than 95 characters or a
      repeated index. */
  lemma TaskDetailsSpec(lines: seq<string>)
    ensures TaskDetails(lines).Ok? <==> AllLong(TaskRows(lines)) && FreshKeys([], TaskRows(lines))
    ensures TaskDetails(lines).Ok? ==>
      |TaskDetails(lines).value| == |TaskRows(lines)| &&
      forall i :: 0 <= i < |TaskRows(lines)| ==> TaskDetails(lines).value[i] == Trim(TaskRows(lines)[i][95..])
  {
    DetailsRunOk([], TaskRows(lines));
    if TaskDetails(lines).Ok? && FindIndexFrom(IsTableHeader, lines, 0) != -1 {
      DetailsRunValues([], TaskRows(lines));
    }
  }
}
