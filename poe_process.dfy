/** The process scanners of a PoE log in `FileParser/Program.cs`:
    `ExtractProcessDetails` (the test time of each process item after the
    `Process Detail:` line) and `GetProcessTimeSummary` (the rows of the
    table after the `Process Time Summary:` line). Both skip blank lines and
    lines holding `---`, and both pick out rows by their first non-blank
    character being a digit. */
module PoeProcess {
  import opened Outcomes
  import opened Text
  import opened Tokens
  import opened OrderedDict

  const DetailStart := "Process Detail:"
  const TimeStart := "Process Time Summary:"

  /** Blank lines and separator lines are passed over. */
  predicate Skipped(line: string) {
    IsBlank(line) || Contains(line, "---")
  }

  /** `char.IsDigit(line.TrimStart()[0])` on a line that is not blank. */
  predicate DigitLed(line: string)
    requires !IsBlank(line)
  {
    TrimStartOfNonBlank(line);
    IsDigit(TrimStart(line)[0])
  }

  // ---------------------------------------------------------------------
  // ExtractProcessDetails
  // ---------------------------------------------------------------------

  /** `line.Substring(line.IndexOf(" ") + 1).Trim()`: the text after the
      first space of the line as it stands (so after a leading space, the
      whole line), or the whole line when it has no space. */
  function ItemName(line: string): string {
    var i := IndexOfChar(line, ' ');
    Trim(line[i + 1..])
  }

  /** `line.Split('=').Last().Trim()`. */
  function TestTime(line: string): string {
    Trim(AfterLast(line, '='))
  }

  predicate IsTestTimeLine(line: string) {
    StartsWith(Trim(line), "Test Time")
  }

  /** What a line inside the section is to `ExtractProcessDetails`. */
  datatype DetailLine = DetailSkip | DetailItem(name: string) | DetailTime(time: string) | DetailOther

  /** The tests of the loop body, in order: skip, item row, test time. */
  function DetailKind(line: string): (k: DetailLine)
    ensures k.DetailSkip? <==> Skipped(line)
    ensures k.DetailItem? <==> !Skipped(line) && DigitLed(line)
    ensures k.DetailTime? <==> !Skipped(line) && !DigitLed(line) && IsTestTimeLine(line)
  {
    if Skipped(line) then DetailSkip
    else if DigitLed(line) then DetailItem(ItemName(line))
    else if IsTestTimeLine(line) then DetailTime(TestTime(line))
    else DetailOther
  }

  /** `line.Trim() == "Process Detail:"`. */
  predicate IsDetailStart(line: string) {
    Trim(line) == DetailStart
  }

  datatype DetailState = DetailState(processing: bool, current: Option<string>, data: Dict<string>)

  const DetailInit := DetailState(false, None, [])

  /** One iteration, for a start test and a line classifier: the loop body
      is the same whatever the tests are, so the properties below are proved
      for any, and hold for the source's. */
  function DetailStep(isStart: string -> bool, kind: string -> DetailLine, st: DetailState, line: string): DetailState {
    if !st.processing then
      if isStart(line) then st.(processing := true) else st
    else
      match kind(line)
      case DetailItem(name) => st.(current := Some(name))
      case DetailTime(time) =>
        if st.current.Some? then DetailState(true, None, Put(st.data, st.current.value, time)) else st
      case _ => st
  }

  function DetailRun(isStart: string -> bool, kind: string -> DetailLine, st: DetailState, lines: seq<string>): DetailState
    decreases |lines|
  {
    if |lines| == 0 then st else DetailRun(isStart, kind, DetailStep(isStart, kind, st, lines[0]), lines[1..])
  }

  /** The test time of each process item. */
  function ProcessDetails(lines: seq<string>): Dict<string> {
    DetailRun(IsDetailStart, DetailKind, DetailInit, lines).data
  }

  method ExtractProcessDetails(lines: seq<string>) returns (r: Dict<string>)
    ensures r == ProcessDetails(lines)
  {
    var details: Dict<string> := [];
    var current: Option<string> := None;
    var processing := false;
    for i := 0 to |lines|
      invariant DetailRun(IsDetailStart, DetailKind, DetailState(processing, current, details), lines[i..])
        == DetailRun(IsDetailStart, DetailKind, DetailInit, lines)
    {
      assert lines[i..][0] == lines[i] && lines[i..][1..] == lines[i + 1..];
      var line := lines[i];
      if !processing {
        if Trim(line) == DetailStart {
          processing := true;
        }
        continue;
      }
      if IsBlank(line) || Contains(line, "---") {
        continue;
      }
      TrimStartOfNonBlank(line);
      if IsDigit(TrimStart(line)[0]) {
        assert DetailKind(line) == DetailItem(ItemName(line));
        current := Some(Trim(line[IndexOfChar(line, ' ') + 1..]));
      } else if StartsWith(Trim(line), "Test Time") {
        assert DetailKind(line) == DetailTime(TestTime(line));
        var testTime := Trim(AfterLast(line, '='));
        if current.Some? {
          details := Put(details, current.value, testTime);
          current := None;
        }
      }
    }
    r := details;
  }

  lemma {:induction false} DetailRunAppend(isStart: string -> bool, kind: string -> DetailLine, st: DetailState, a: seq<string>, b: seq<string>)
    ensures DetailRun(isStart, kind, st, a + b) == DetailRun(isStart, kind, DetailRun(isStart, kind, st, a), b)
    decreases |a|
  {
    if |a| > 0 {
      assert (a + b)[0] == a[0] && (a + b)[1..] == a[1..] + b;
      DetailRunAppend(isStart, kind, DetailStep(isStart, kind, st, a[0]), a[1..], b);
    } else {
      assert a + b == b;
    }
  }

  lemma {:induction false} DetailRunIdle(isStart: string -> bool, kind: string -> DetailLine, lines: seq<string>)
    requires forall i :: 0 <= i < |lines| ==> !isStart(lines[i])
    ensures DetailRun(isStart, kind, DetailInit, lines) == DetailInit
    decreases |lines|
  {
    if |lines| > 0 {
      DetailRunIdle(isStart, kind, lines[1..]);
    }
  }

  /** Nothing before the `Process Detail:` line is read, and a log without
      one has no details. */
  lemma DetailsIgnorePreamble(preamble: seq<string>, rest: seq<string>)
    requires forall i :: 0 <= i < |preamble| ==> !IsDetailStart(preamble[i])
    ensures ProcessDetails(preamble + rest) == ProcessDetails(rest)
    ensures ProcessDetails(preamble) == []
  {
    DetailRunAppend(IsDetailStart, DetailKind, DetailInit, preamble, rest);
    DetailRunIdle(IsDetailStart, DetailKind, preamble);
  }

  /** A test-time line with no pending item name changes nothing. */
  lemma TestTimeWithoutItem(d: Dict<string>, line: string)
    requires DetailKind(line).DetailTime?
    ensures DetailStep(IsDetailStart, DetailKind, DetailState(true, None, d), line) == DetailState(true, None, d)
  {
  }

  lemma DetailPair(isStart: string -> bool, kind: string -> DetailLine, st: DetailState, a: string, b: string)
    ensures DetailRun(isStart, kind, st, [a, b]) ==
      DetailStep(isStart, kind, DetailStep(isStart, kind, st, a), b)
  {
    var s1 := DetailStep(isStart, kind, st, a);
    var s2 := DetailStep(isStart, kind, s1, b);
    assert [a, b][0] == a && [a, b][1..] == [b];
    assert [b][0] == b && [b][1..] == [];
    assert DetailRun(isStart, kind, s1, [b]) == DetailRun(isStart, kind, s2, []);
  }

  /** An item row followed by a test-time line stores the item's time and
      clears the pending name; an item seen before gets the new time. */
  lemma ItemThenTestTime(current: Option<string>, d: Dict<string>, item: string, time: string)
    requires DetailKind(item).DetailItem? && DetailKind(time).DetailTime?
    ensures DetailRun(IsDetailStart, DetailKind, DetailState(true, current, d), [item, time]) ==
      DetailState(true, None, Put(d, DetailKind(item).name, DetailKind(time).time))
  {
    DetailPair(IsDetailStart, DetailKind, DetailState(true, current, d), item, time);
  }

  /** A second item row before any test time replaces the pending name. */
  lemma SecondItemReplaces(current: Option<string>, d: Dict<string>, first: string, second: string)
    requires DetailKind(first).DetailItem? && DetailKind(second).DetailItem?
    ensures DetailRun(IsDetailStart, DetailKind, DetailState(true, current, d), [first, second]) ==
      DetailState(true, Some(DetailKind(second).name), d)
  {
    DetailPair(IsDetailStart, DetailKind, DetailState(true, current, d), first, second);
  }

  /** The names and times a line gives are the source's substrings. */
  lemma DetailKindValues(line: string)
    ensures DetailKind(line).DetailItem? ==> DetailKind(line).name == ItemName(line)
    ensures DetailKind(line).DetailTime? ==> DetailKind(line).time == TestTime(line)
  {
  }

  /** The item name is the text after the first space; a row written as
      `<number> <name>` gives its name without the number. */
  lemma ItemNameOfRow(number: string, name: string)
    requires ' ' !in number
    requires name == [] || (!IsSpace(name[0]) && !IsSpace(name[|name| - 1]))
    ensures ItemName(number + " " + name) == name
  {
    var line := number + " " + name;
    assert line[|number|] == ' ';
    assert line[..|number|] == number;
    assert line[|number| + 1..] == name;
    TrimIdentity(name);
  }

  // ---------------------------------------------------------------------
  // GetProcessTimeSummary
  // ---------------------------------------------------------------------

  datatype TimeState = TimeState(processing: bool, data: Dict<string>)

  const TimeInit := TimeState(false, [])

  /** `line.Trim() == "Process Time Summary:"`. */
  predicate IsTimeStart(line: string) {
    Trim(line) == TimeStart
  }

  /** The entry of a matched row: `<index>-<name>` and `<seconds> sec`. */
  function TimeEntry(row: TimeRow): (string, string) {
    (Trim(row.index) + "-" + Trim(row.name), Trim(row.seconds) + " sec")
  }

  /** The tests of the loop body: a line inside the table that is not
      skipped, starts with a digit and matches the row pattern gives an
      entry. */
  function TimeKind(line: string): (r: Option<(string, string)>)
    ensures r.Some? ==> TimeShaped(r.value)
  {
    if Skipped(line) || !DigitLed(line) then None
    else
      match ProcessTimeMatch(line)
      case None => None
      case Some(row) =>
        TimeEntryShaped(row);
        Some(TimeEntry(row))
  }

  function TimeStep(isStart: string -> bool, kind: string -> Option<(string, string)>, st: TimeState, line: string): TimeState {
    if !st.processing then
      if isStart(line) then st.(processing := true) else st
    else
      match kind(line)
      case None => st
      case Some(e) => st.(data := Put(st.data, e.0, e.1))
  }

  function TimeRun(isStart: string -> bool, kind: string -> Option<(string, string)>, st: TimeState, lines: seq<string>): TimeState
    decreases |lines|
  {
    if |lines| == 0 then st else TimeRun(isStart, kind, TimeStep(isStart, kind, st, lines[0]), lines[1..])
  }

  /** The process-time summary of a log. */
  function ProcessTimes(lines: seq<string>): Dict<string> {
    TimeRun(IsTimeStart, TimeKind, TimeInit, lines).data
  }

  method GetProcessTimeSummary(lines: seq<string>) returns (r: Dict<string>)
    ensures r == ProcessTimes(lines)
  {
    var summary: Dict<string> := [];
    var processing := false;
    for i := 0 to |lines|
      invariant TimeRun(IsTimeStart, TimeKind, TimeState(processing, summary), lines[i..])
        == TimeRun(IsTimeStart, TimeKind, TimeInit, lines)
    {
      assert lines[i..][0] == lines[i] && lines[i..][1..] == lines[i + 1..];
      var line := lines[i];
      if !processing {
        if Trim(line) == TimeStart {
          processing := true;
        }
        continue;
      }
      if IsBlank(line) || Contains(line, "---") {
        continue;
      }
      TrimStartOfNonBlank(line);
      if IsDigit(TrimStart(line)[0]) {
        var m := ProcessTimeMatch(line);
        if m.Some? {
          var item := Trim(m.value.index) + "-" + Trim(m.value.name);
          var timeUsed := Trim(m.value.seconds) + " sec";
          assert TimeKind(line) == Some((item, timeUsed));
          summary := Put(summary, item, timeUsed);
        }
      }
    }
    r := summary;
  }

  lemma {:induction false} TimeRunAppend(isStart: string -> bool, kind: string -> Option<(string, string)>, st: TimeState, a: seq<string>, b: seq<string>)
    ensures TimeRun(isStart, kind, st, a + b) == TimeRun(isStart, kind, TimeRun(isStart, kind, st, a), b)
    decreases |a|
  {
    if |a| > 0 {
      assert (a + b)[0] == a[0] && (a + b)[1..] == a[1..] + b;
      TimeRunAppend(isStart, kind, TimeStep(isStart, kind, st, a[0]), a[1..], b);
    } else {
      assert a + b == b;
    }
  }

  lemma {:induction false} TimeRunIdle(isStart: string -> bool, kind: string -> Option<(string, string)>, lines: seq<string>)
    requires forall i :: 0 <= i < |lines| ==> !isStart(lines[i])
    ensures TimeRun(isStart, kind, TimeInit, lines) == TimeInit
    decreases |lines|
  {
    if |lines| > 0 {
      TimeRunIdle(isStart, kind, lines[1..]);
    }
  }

  /** Nothing before the `Process Time Summary:` line is read, and a log
      without one has no process times. */
  lemma TimesIgnorePreamble(preamble: seq<string>, rest: seq<string>)
    requires forall i :: 0 <= i < |preamble| ==> !IsTimeStart(preamble[i])
    ensures ProcessTimes(preamble + rest) == ProcessTimes(rest)
    ensures ProcessTimes(preamble) == []
  {
    TimeRunAppend(IsTimeStart, TimeKind, TimeInit, preamble, rest);
    TimeRunIdle(IsTimeStart, TimeKind, preamble);
  }

  /** The shape of a process-time entry: the key is a number, a dash and
      the process name; the value is a number followed by " sec". */
  predicate TimeShaped(e: (string, string)) {
    var dash := IndexOfChar(e.0, '-');
    dash > 0 && AllDigits(e.0[..dash])
    && |e.1| > 4 && e.1[|e.1| - 4..] == " sec" && AllDigits(e.1[..|e.1| - 4])
  }

  /** A number, a dash and a name, with a number and " sec", is shaped. */
  lemma EntryShaped(index: string, name: string, seconds: string)
    requires |index| > 0 && AllDigits(index)
    requires |seconds| > 0 && AllDigits(seconds)
    ensures TimeShaped((index + "-" + name, seconds + " sec"))
  {
    assert '-' !in index;
    var key := index + "-" + name;
    assert key == index + ['-'] + name;
    IndexOfCharAfter(index, '-', name);
    assert key[..|index|] == index;
    var value := seconds + " sec";
    assert value[..|seconds|] == seconds;
    assert value[|value| - 4..] == " sec";
  }

  /** Any matched row gives an entry of that shape. */
  lemma TimeEntryShaped(row: TimeRow)
    requires |row.index| > 0 && AllDigits(row.index)
    requires |row.seconds| > 0 && AllDigits(row.seconds)
    ensures TimeShaped(TimeEntry(row))
  {
    var name := Trim(row.name);
    assert TimeEntry(row) == (row.index + "-" + name, row.seconds + " sec") by {
      TrimDigits(row.index);
      TrimDigits(row.seconds);
    }
    EntryShaped(row.index, name, row.seconds);
  }

  lemma {:induction false} TimeRunShaped(isStart: string -> bool, kind: string -> Option<(string, string)>, st: TimeState, lines: seq<string>)
    requires forall l :: kind(l).Some? ==> TimeShaped(kind(l).value)
    requires forall e :: e in st.data ==> TimeShaped(e)
    ensures forall e :: e in TimeRun(isStart, kind, st, lines).data ==> TimeShaped(e)
    decreases |lines|
  {
    if |lines| > 0 {
      var next := TimeStep(isStart, kind, st, lines[0]);
      if st.processing && kind(lines[0]).Some? {
        var e := kind(lines[0]).value;
        PutEntries(st.data, e.0, e.1);
        assert next.data == Put(st.data, e.0, e.1);
        forall x | x in next.data ensures TimeShaped(x) {
          var i :| 0 <= i < |next.data| && next.data[i] == x;
        }
      }
      TimeRunShaped(isStart, kind, next, lines[1..]);
    }
  }

  /** Every process-time key is `<number>-<name>` and every value
      `<number> sec`. */
  lemma ProcessTimesShaped(lines: seq<string>)
    ensures forall i :: 0 <= i < |ProcessTimes(lines)| ==> TimeShaped(ProcessTimes(lines)[i])
  {
    TimeRunShaped(IsTimeStart, TimeKind, TimeInit, lines);
    assert forall i :: 0 <= i < |ProcessTimes(lines)| ==> ProcessTimes(lines)[i] in ProcessTimes(lines);
  }
}
