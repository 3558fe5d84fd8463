/** `ProcessPoeNetowrkData` (FileParser/Program.cs): the loop over the
    uploaded files that collects, for every PoE log, its serial number, its
    summary, its task statuses and the six tables of each of its sections,
    fixes the shared header list from the first section that has any keys,
    and hands the collected lists to `ConvertToJsonPoE`. */
module PoeDriver {
  import opened Outcomes
  import opened Text
  import opened OrderedDict
  import PoeKeyed
  import PoeSummary
  import PoeProcess
  import PoeBlocks
  import Sections
  import PoeData
  import PoeAssembly

  /** An uploaded file: its name and its lines. */
  datatype LogFile = LogFile(name: string, lines: seq<string>)

  /** Only files with more than one line whose name ends in ".log"
      (ignoring case) are read. */
  predicate IsPoeLog(f: LogFile) {
    |f.lines| > 1 && EndsWithIgnoreCase(f.name, ".log")
  }

  // ---------------------------------------------------------------------
  // The serial number

  const SerialTag: string := "SN1#:"

  predicate HasSerial(line: string) {
    Contains(line, SerialTag)
  }

  /** The text after the first "SN1#:" of the line, trimmed. */
  function SerialValue(line: string): string
    requires HasSerial(line)
  {
    var k := IndexOf(line, SerialTag);
    Trim(line[k + |SerialTag|..])
  }

  /** The loop over the lines: every line holding the tag replaces the
      value so far. */
  function SerialRun(sn: string, lines: seq<string>): string
    decreases |lines|
  {
    if |lines| == 0 then sn
    else SerialRun(if HasSerial(lines[0]) then SerialValue(lines[0]) else sn, lines[1..])
  }

  function SerialOf(lines: seq<string>): string {
    SerialRun("Not Found", lines)
  }

  method FindSerial(lines: seq<string>) returns (sn: string)
    ensures sn == SerialOf(lines)
  {
    sn := "Not Found";
    for i := 0 to |lines|
      invariant SerialRun(sn, lines[i..]) == SerialOf(lines)
    {
      assert lines[i..][0] == lines[i] && lines[i..][1..] == lines[i + 1..];
      var line := lines[i];
      if HasSerial(line) {
        sn := SerialValue(line);
      }
    }
  }

  lemma {:induction false} SerialRunAppend(sn: string, a: seq<string>, line: string)
    ensures SerialRun(sn, a + [line]) == if HasSerial(line) then SerialValue(line) else SerialRun(sn, a)
    decreases |a|
  {
    if |a| == 0 {
      assert a + [line] == [line];
    } else {
      assert (a + [line])[0] == a[0] && (a + [line])[1..] == a[1..] + [line];
      SerialRunAppend(if HasSerial(a[0]) then SerialValue(a[0]) else sn, a[1..], line);
    }
  }

  /** The serial number is that of the last line holding "SN1#:", and
      "Not Found" when no line holds it. */
  lemma {:induction false} SerialIsLastTagged(lines: seq<string>)
    ensures var j := PoeKeyed.LastWhere(HasSerial, lines);
      SerialOf(lines) == if j == -1 then "Not Found" else SerialValue(lines[j])
    decreases |lines|
  {
    if |lines| > 0 {
      var last := lines[|lines| - 1];
      var front := lines[..|lines| - 1];
      assert lines == front + [last];
      SerialIsLastTagged(front);
      SerialRunAppend("Not Found", front, last);
      if !HasSerial(last) {
        var j := PoeKeyed.LastWhere(HasSerial, front);
        assert PoeKeyed.LastWhere(HasSerial, lines) == j;
        if j != -1 {
          assert lines[j] == front[j];
        }
      }
    }
  }

  // ---------------------------------------------------------------------
  // The tables of a section and the shared header list

  /** The six tables of one section, in the order the driver lists them. */
  function TablesOf(lines: seq<string>): (r: seq<Dict<string>>)
    ensures |r| == 6
  {
    [PoeKeyed.KeyedValues(PoeKeyed.PacketKeys, lines), PoeKeyed.KeyedValues(PoeKeyed.LearningKeys, lines),
     PoeProcess.ProcessDetails(lines), PoeProcess.ProcessTimes(lines),
     PoeBlocks.FinalResult(lines), PoeBlocks.StreamCounters(lines)]
  }

  method ReadTables(lines: seq<string>) returns (r: seq<Dict<string>>)
    ensures r == TablesOf(lines)
  {
    var packetSection := PoeKeyed.GetPacketSection(lines);
    var learningSection := PoeKeyed.GetLearningSection(lines);
    var processDetails := PoeProcess.ExtractProcessDetails(lines);
    var processTimeSummary := PoeProcess.GetProcessTimeSummary(lines);
    var finalResult := PoeBlocks.ExtractFinalResult1(lines);
    var streamCounterResults := PoeBlocks.GetStreamCounterResults(lines);
    r := [packetSection, learningSection, processDetails, processTimeSummary, finalResult, streamCounterResults];
  }

  /** `SelectMany(x => x.Value)`: the tables of all sections, section by
      section. */
  function AllTables(list: seq<PoeAssembly.SectionTables>): seq<Dict<string>>
    decreases |list|
  {
    if |list| == 0 then [] else list[0].1 + AllTables(list[1..])
  }

  /** `SelectMany(x => x.Value).SelectMany(x => x.Keys)`. */
  function AllKeys(list: seq<PoeAssembly.SectionTables>): seq<string> {
    Keys(PoeAssembly.Flat(AllTables(list)))
  }

  /** The header list after the sections `list` were added one by one: it
      is recomputed from all sections so far (`keysOf`) while it is still
      empty. */
  function HeadersAfterBy(keysOf: seq<PoeAssembly.SectionTables> -> seq<string>, h: seq<string>,
                          list: seq<PoeAssembly.SectionTables>): seq<string>
    decreases |list|
  {
    if |list| == 0 then h
    else
      var before := HeadersAfterBy(keysOf, h, list[..|list| - 1]);
      if |before| == 0 then keysOf(list) else before
  }

  function HeadersAfter(h: seq<string>, list: seq<PoeAssembly.SectionTables>): seq<string> {
    HeadersAfterBy(AllKeys, h, list)
  }

  /** The sections of one log, each with the tables `tablesOf` reads from it. */
  function SectionListBy(tablesOf: seq<string> -> seq<Dict<string>>, secs: Dict<seq<string>>)
    : (r: seq<PoeAssembly.SectionTables>)
    ensures |r| == |secs|
    decreases |secs|
  {
    if |secs| == 0 then [] else [(secs[0].0, tablesOf(secs[0].1))] + SectionListBy(tablesOf, secs[1..])
  }

  function SectionList(secs: Dict<seq<string>>): (r: seq<PoeAssembly.SectionTables>) {
    SectionListBy(TablesOf, secs)
  }

  /** The loop over the sections of one log. */
  method CollectSections(headers0: seq<string>, secs: Dict<seq<string>>)
    returns (list: seq<PoeAssembly.SectionTables>, headers: seq<string>)
    ensures list == SectionList(secs)
    ensures headers == HeadersAfter(headers0, list)
  {
    list, headers := CollectSectionsBy(TablesOf, AllKeys, headers0, secs);
  }

  method CollectSectionsBy(tablesOf: seq<string> -> seq<Dict<string>>,
                           keysOf: seq<PoeAssembly.SectionTables> -> seq<string>,
                           headers0: seq<string>, secs: Dict<seq<string>>)
    returns (list: seq<PoeAssembly.SectionTables>, headers: seq<string>)
    requires forall l {:trigger TablesOf(l)} :: TablesOf(l) == tablesOf(l)
    ensures list == SectionListBy(tablesOf, secs)
    ensures headers == HeadersAfterBy(keysOf, headers0, list)
  {
    list := [];
    headers := headers0;
    for i := 0 to |secs|
      invariant list + SectionListBy(tablesOf, secs[i..]) == SectionListBy(tablesOf, secs)
      invariant headers == HeadersAfterBy(keysOf, headers0, list)
    {
      assert secs[i..][0] == secs[i] && secs[i..][1..] == secs[i + 1..];
      var entry := ReadSection(tablesOf, secs[i]);
      ghost var before := list;
      list := list + [entry];
      assert list[..|list| - 1] == before;
      if |headers| == 0 {
        headers := keysOf(list);
      }
    }
    assert list + [] == list;
  }

  method ReadSection(tablesOf: seq<string> -> seq<Dict<string>>, sec: (string, seq<string>))
    returns (entry: PoeAssembly.SectionTables)
    requires forall l {:trigger TablesOf(l)} :: TablesOf(l) == tablesOf(l)
    ensures entry == (sec.0, tablesOf(sec.1))
  {
    var tables := ReadTables(sec.1);
    entry := (sec.0, tables);
  }

  // ---------------------------------------------------------------------
  // The loop over the files

  /** The lists the driver collects; they are handed to `ConvertToJsonPoE`. */
  datatype Collected = Collected(
    sns: seq<string>, allData: seq<seq<PoeAssembly.SectionTables>>, headers: seq<string>,
    sums: seq<Dict<string>>, details: seq<seq<string>>)

  const NothingCollected := Collected([], [], [], [], [])

  /** One file: skipped unless it is a PoE log; a duplicated section name
      or a malformed task table aborts the whole run. */
  function CollectFile(c: Collected, f: LogFile): Result<Collected> {
    if !IsPoeLog(f) then Ok(c)
    else
      var secs :- Sections.Sections(f.lines);
      var details :- PoeSummary.TaskDetails(f.lines);
      var list := SectionList(secs);
      Ok(Collected(c.sns + [SerialOf(f.lines)], c.allData + [list], HeadersAfter(c.headers, list),
                   c.sums + [PoeSummary.Summary(f.lines)], c.details + [details]))
  }

  function CollectRun(c: Collected, files: seq<LogFile>): Result<Collected>
    decreases |files|
  {
    if |files| == 0 then Ok(c)
    else
      var c' :- CollectFile(c, files[0]);
      CollectRun(c', files[1..])
  }

  function Collect(files: seq<LogFile>): Result<Collected> {
    CollectRun(NothingCollected, files)
  }

  method ReadFile(c: Collected, f: LogFile) returns (r: Result<Collected>)
    ensures r == CollectFile(c, f)
  {
    if !IsPoeLog(f) {
      return Ok(c);
    }
    var lines := f.lines;
    var sections := Sections.SplitIntoMultipleLines(lines);
    if sections.Err? {
      return Err(sections.fault);
    }
    var snValue := FindSerial(lines);
    var summary := PoeSummary.GetSummaryData(lines);
    var t := summary.value;
    var taskDetails := PoeSummary.GetTaskDetails(lines);
    if taskDetails.Err? {
      return Err(taskDetails.fault);
    }
    var list, headers := CollectSections(c.headers, sections.value);
    r := Ok(Collected(c.sns + [snValue], c.allData + [list], headers, c.sums + [t], c.details + [taskDetails.value]));
  }

  /** The whole driver: collect, then assemble the reports. */
  method ProcessPoeNetowrkData(files: seq<LogFile>, isNumber: string -> bool)
    returns (r: Result<Option<seq<PoeData.PowerOverEthernetTask>>>)
    ensures Collect(files).Err? ==> r == Err(Collect(files).fault)
    ensures Collect(files).Ok? ==>
      var c := Collect(files).value;
      var a := PoeAssembly.Assemble(c.sns, c.allData, c.headers, c.sums, c.details, isNumber);
      (r.Err? <==> a.Err?) && (r.Err? ==> r.fault == ArgumentOutOfRange)
      && (r == Ok(None) <==> a == Ok(None))
      && (r.Ok? && r.value.Some? ==>
            |r.value.value| == |a.value.value|
            && forall i :: 0 <= i < |a.value.value| ==> r.value.value[i].View() == a.value.value[i])
  {
    var c := NothingCollected;
    for i := 0 to |files|
      invariant CollectRun(c, files[i..]) == Collect(files)
    {
      assert files[i..][0] == files[i] && files[i..][1..] == files[i + 1..];
      var next := ReadFile(c, files[i]);
      if next.Err? {
        return Err(next.fault);
      }
      c := next.value;
    }
    r := PoeAssembly.ConvertToJsonPoE(c.sns, c.allData, c.headers, c.sums, c.details, isNumber);
  }

  // ---------------------------------------------------------------------
  // Properties

  /** The four lists grow together: one entry per PoE log read. */
  predicate Aligned(c: Collected) {
    |c.sns| == |c.allData| == |c.sums| == |c.details|
  }

  lemma {:induction false} CollectRunAligned(c: Collected, files: seq<LogFile>)
    requires Aligned(c)
    requires CollectRun(c, files).Ok?
    ensures Aligned(CollectRun(c, files).value)
    ensures |CollectRun(c, files).value.sns| == |c.sns| + |Logs(files)|
    decreases |files|
  {
    if |files| > 0 {
      var c' := CollectFile(c, files[0]).value;
      CollectRunAligned(c', files[1..]);
      assert Logs(files) == (if IsPoeLog(files[0]) then [files[0]] else []) + Logs(files[1..]);
    }
  }

  /** The PoE logs among the files. */
  function Logs(files: seq<LogFile>): (r: seq<LogFile>)
    ensures forall f :: f in r ==> IsPoeLog(f)
    ensures |r| <= |files|
    decreases |files|
  {
    if |files| == 0 then []
    else (if IsPoeLog(files[0]) then [files[0]] else []) + Logs(files[1..])
  }

  /** The serial and summary lists always agree in length, so the driver
      never takes the branch of `ConvertToJsonPoE` that builds nothing, and
      it reports one unit per PoE log. */
  lemma DriverNeverMismatches(files: seq<LogFile>, isNumber: string -> bool)
    requires Collect(files).Ok?
    ensures var c := Collect(files).value;
      |c.sns| == |c.sums| == |c.allData| == |c.details| == |Logs(files)|
      && PoeAssembly.Assemble(c.sns, c.allData, c.headers, c.sums, c.details, isNumber) != Ok(None)
  {
    CollectRunAligned(NothingCollected, files);
  }

  /** A header list that is set is never replaced. */
  lemma {:induction false} HeadersStay(h: seq<string>, list: seq<PoeAssembly.SectionTables>)
    requires |h| > 0
    ensures HeadersAfter(h, list) == h
    decreases |list|
  {
    if |list| > 0 {
      HeadersStay(h, list[..|list| - 1]);
    }
  }

  /** The keys of the first section that has any, or none. */
  function FirstKeys(list: seq<PoeAssembly.SectionTables>): seq<string>
    decreases |list|
  {
    if |list| == 0 then []
    else
      var k := Keys(PoeAssembly.Flat(list[0].1));
      if |k| > 0 then k else FirstKeys(list[1..])
  }

  lemma {:induction false} FlatAppend(a: seq<Dict<string>>, b: seq<Dict<string>>)
    ensures PoeAssembly.Flat(a + b) == PoeAssembly.Flat(a) + PoeAssembly.Flat(b)
    decreases |a|
  {
    if |a| == 0 {
      assert a + b == b;
    } else {
      assert (a + b)[0] == a[0] && (a + b)[1..] == a[1..] + b;
      FlatAppend(a[1..], b);
    }
  }

  lemma {:induction false} AllTablesAppend(a: seq<PoeAssembly.SectionTables>, b: seq<PoeAssembly.SectionTables>)
    ensures AllTables(a + b) == AllTables(a) + AllTables(b)
    decreases |a|
  {
    if |a| == 0 {
      assert a + b == b;
    } else {
      assert (a + b)[0] == a[0] && (a + b)[1..] == a[1..] + b;
      AllTablesAppend(a[1..], b);
    }
  }

  lemma AllKeysAppend(a: seq<PoeAssembly.SectionTables>, b: seq<PoeAssembly.SectionTables>)
    ensures AllKeys(a + b) == AllKeys(a) + AllKeys(b)
  {
    AllTablesAppend(a, b);
    FlatAppend(AllTables(a), AllTables(b));
  }

  lemma AllKeysOne(x: PoeAssembly.SectionTables)
    ensures AllKeys([x]) == Keys(PoeAssembly.Flat(x.1))
  {
    assert AllTables([x]) == x.1 + AllTables([]);
    assert x.1 + [] == x.1;
  }

  /** While no section so far has keys, all keys so far are none; the
      first one that has them fixes the list. */
  lemma {:induction false} FirstKeysAppend(a: seq<PoeAssembly.SectionTables>, x: PoeAssembly.SectionTables)
    ensures FirstKeys(a + [x]) == if |FirstKeys(a)| > 0 then FirstKeys(a) else Keys(PoeAssembly.Flat(x.1))
    ensures |FirstKeys(a)| == 0 ==> AllKeys(a) == []
    decreases |a|
  {
    if |a| == 0 {
      assert [x][1..] == [];
    } else {
      assert (a + [x])[0] == a[0] && (a + [x])[1..] == a[1..] + [x];
      FirstKeysAppend(a[1..], x);
      if |FirstKeys(a)| == 0 {
        assert a == [a[0]] + a[1..];
        AllKeysAppend([a[0]], a[1..]);
        AllKeysOne(a[0]);
      }
    }
  }

  /** Starting from an empty list, the header list is the key list of the
      first section that has any keys. */
  lemma {:induction false} HeadersAreFirstKeys(list: seq<PoeAssembly.SectionTables>)
    ensures HeadersAfter([], list) == FirstKeys(list)
    decreases |list|
  {
    if |list| > 0 {
      var front := list[..|list| - 1];
      var x := list[|list| - 1];
      assert list == front + [x];
      HeadersAreFirstKeys(front);
      FirstKeysAppend(front, x);
      if |FirstKeys(front)| == 0 {
        AllKeysAppend(front, [x]);
        AllKeysOne(x);
      }
    }
  }

  /** All sections of the PoE logs, file by file. */
  function AllSections(c: Collected): seq<PoeAssembly.SectionTables>
  {
    Concat(c.allData)
  }

  function Concat(ls: seq<seq<PoeAssembly.SectionTables>>): seq<PoeAssembly.SectionTables>
    decreases |ls|
  {
    if |ls| == 0 then [] else Concat(ls[..|ls| - 1]) + ls[|ls| - 1]
  }

  lemma FirstKeysConcat(a: seq<PoeAssembly.SectionTables>, b: seq<PoeAssembly.SectionTables>)
    ensures FirstKeys(a + b) == if |FirstKeys(a)| > 0 then FirstKeys(a) else FirstKeys(b)
    decreases |a|
  {
    if |a| == 0 {
      assert a + b == b;
    } else {
      assert (a + b)[0] == a[0] && (a + b)[1..] == a[1..] + b;
      FirstKeysConcat(a[1..], b);
    }
  }

  /** Across files, the header list stays the key list of the first
      section, over all PoE logs read so far, that has any keys. */
  lemma {:induction false} CollectRunHeaders(c: Collected, files: seq<LogFile>)
    requires c.headers == FirstKeys(Concat(c.allData))
    requires CollectRun(c, files).Ok?
    ensures var c' := CollectRun(c, files).value;
      c'.headers == FirstKeys(Concat(c'.allData))
    decreases |files|
  {
    if |files| > 0 {
      var c' := CollectFile(c, files[0]).value;
      if IsPoeLog(files[0]) {
        var list := c'.allData[|c'.allData| - 1];
        assert c'.allData[..|c'.allData| - 1] == c.allData;
        FirstKeysConcat(Concat(c.allData), list);
        if |c.headers| > 0 {
          HeadersStay(c.headers, list);
        } else {
          HeadersAreFirstKeys(list);
        }
      }
      CollectRunHeaders(c', files[1..]);
    }
  }

  /** The header list handed to `ConvertToJsonPoE` is the key list of the
      first section of any PoE log that has keys, and is used for every
      section of every log. */
  lemma DriverHeaders(files: seq<LogFile>)
    requires Collect(files).Ok?
    ensures Collect(files).value.headers == FirstKeys(AllSections(Collect(files).value))
  {
    CollectRunHeaders(NothingCollected, files);
  }
}
