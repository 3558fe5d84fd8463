/** `ProcessAdacData` (FileParser/Program.cs): the two passes over the lines
    of an ADAC burn-in report.
    - The first pass collects the serial number, model name and date of
      every unit header.
    - The second pass is a state machine over eleven test sequences. A
      unit header opens a unit. A `SEQ.n:` line switches the sequence flags
      and records whether sequence n passed. While a sequence's flag is on,
      its block of rules copies `Key = Value` pairs and label/value tables
      into the unit's values, with the sequence's prefix. A rule of 71
      dashes in sequence 11 commits the unit's values and its verdict.
    The source writes each block as a run of `if` statements; here each
    block is one `Block` value, a list of `TableRule`s applied in order,
    with the source's triggers, look-ahead distances, splitters and
    filters. */
module AdacScan {
  import opened Outcomes
  import opened Text
  import opened OrderedDict
  import opened Tokens
  import opened Helpers
  import opened AdacRules

  // ---------------------------------------------------------------------
  // The sequence flags

  /** The eleven flags `isFirstSequence` … `isElevenSeq`; sequence n is
      `flags[n - 1]`. */
  type Flags = f: seq<bool> | |f| == 11 witness [false, false, false, false, false, false, false, false, false, false, false]

  type Phase = n: nat | 1 <= n <= 11 witness 1

  /** Only sequence 1 is on when the scan starts. */
  const InitialFlags: Flags := [true, false, false, false, false, false, false, false, false, false, false]

  /** Exactly sequence `n` is on. */
  predicate OnlyPhase(flags: Flags, n: Phase) {
    forall i :: 0 <= i < 11 ==> (flags[i] <==> i == n - 1)
  }

  /** The flag updates of a `SEQ.n:` line: sequence `n` goes on and the one
      before it goes off; `SEQ.1:` switches sequence 11 off and `SEQ.11:`
      switches sequence 1 off as well. Nothing else changes. */
  function SetPhase(flags: Flags, n: Phase): (r: Flags)
    ensures r[n - 1]
    ensures n == 1 ==> !r[10]
    ensures 2 <= n ==> !r[n - 2]
    ensures n == 11 ==> !r[0]
    ensures forall i :: 0 <= i < 11 && i != n - 1 && i != (if n == 1 then 10 else n - 2) && !(n == 11 && i == 0)
              ==> r[i] == flags[i]
  {
    if n == 1 then flags[0 := true][10 := false]
    else if n == 11 then flags[9 := false][10 := true][0 := false]
    else flags[n - 2 := false][n - 1 := true]
  }

  /** The marker a trimmed line carries: the number of its `SEQ.n:` label,
      tried in the source's order, or 0. */
  function MarkerOf(clean: string): (n: nat)
    ensures n <= 11
    ensures n == 1 <==> StartsWith(clean, "SEQ.1:") && !StartsWith(clean, "SEQ.11:")
    ensures n == 11 ==> StartsWith(clean, "SEQ.11:")
  {
    if StartsWith(clean, "SEQ.1:") && !StartsWith(clean, "SEQ.11:") then 1
    else if Contains(clean, "SEQ.2:") then 2
    else if Contains(clean, "SEQ.3:") then 3
    else if Contains(clean, "SEQ.4:") then 4
    else if Contains(clean, "SEQ.5:") then 5
    else if Contains(clean, "SEQ.6:") then 6
    else if Contains(clean, "SEQ.7:") then 7
    else if Contains(clean, "SEQ.8:") then 8
    else if Contains(clean, "SEQ.9:") then 9
    else if Contains(clean, "SEQ.10:") then 10
    else if StartsWith(clean, "SEQ.11:") && !StartsWith(clean, "SEQ.1:") then 11
    else 0
  }

  // ---------------------------------------------------------------------
  // The scan state

  /** The locals of the second pass: the flags, `testPassed`, the current
      serial number `sn`, the unit's values `seq1Values`, and the two
      result dictionaries `data` and `testStatus`. `firstSeqPassed`, which
      the source sets and never reads, is carried beside this state. */
  datatype ScanState = ScanState(
    flags: Flags, testPassed: bool, sn: string,
    values: Dict<string>, data: Dict<seq<string>>, status: Dict<string>)

  const InitialState: ScanState := ScanState(InitialFlags, false, [], [], [], [])

  /** A unit header: "Model" in the trimmed line and "YYYY_MM_DD" three
      lines further down (reading that line throws when it is missing). The
      header opens the unit: its serial number gets an empty row and an
      empty verdict (`Dictionary.Add`, which throws on a serial number seen
      before), and the values and the verdict are reset. */
  function HeaderStep(lines: seq<string>, j: nat, clean: string, st: ScanState): (r: Result<ScanState>)
    requires j < |lines|
    ensures !Contains(clean, "Model") ==> r == Ok(st)
    ensures Contains(clean, "Model") && j + 3 >= |lines| ==> r == Err(IndexOutOfRange)
    ensures r.Ok? && r.value != st ==>
      var s := ExtractValue(clean, "Serial No:");
      r.value.sn == s && r.value.values == [] && !r.value.testPassed && r.value.flags == st.flags
      && Get(r.value.data, s) == Some([]) && Get(r.value.status, s) == Some("")
      && !HasKey(st.data, s) && !HasKey(st.status, s)
    ensures Contains(clean, "Model") && j + 3 < |lines| && Contains(lines[j + 3], "YYYY_MM_DD")
            && HasKey(st.data, ExtractValue(clean, "Serial No:"))
            ==> r == Err(DuplicateKey(ExtractValue(clean, "Serial No:")))
  {
    if !Contains(clean, "Model") then Ok(st)
    else if j + 3 >= |lines| then Err(IndexOutOfRange)
    else if !Contains(lines[j + 3], "YYYY_MM_DD") then Ok(st)
    else
      var s := ExtractValue(clean, "Serial No:");
      var data :- Add(st.data, s, []);
      var status :- Add(st.status, s, "");
      Ok(st.(sn := s, data := data, status := status, values := [], testPassed := false))
  }

  /** A `SEQ.n:` line records whether it says "PASS" and switches the flags. */
  function MarkerStep(clean: string, st: ScanState): (r: ScanState)
    ensures MarkerOf(clean) == 0 ==> r == st
    ensures MarkerOf(clean) != 0 ==>
      r == st.(testPassed := Contains(clean, "PASS"), flags := SetPhase(st.flags, MarkerOf(clean)))
  {
    var n := MarkerOf(clean);
    if n == 0 then st else st.(testPassed := Contains(clean, "PASS"), flags := SetPhase(st.flags, n))
  }

  /** The 71-dash rule that ends a unit in sequence 11. */
  const CommitRule: string := "-----------------------------------------------------------------------"

  /** `data[sn] = seq1Values.Values.ToList(); testStatus[sn] = testPassed ? "PASS" : "FALSE"`. */
  function Commit(st: ScanState): (r: ScanState)
    ensures Get(r.data, st.sn) == Some(Values(st.values))
    ensures Get(r.status, st.sn) == Some(if st.testPassed then "PASS" else "FALSE")
    ensures forall k :: k != st.sn ==> Get(r.data, k) == Get(st.data, k) && Get(r.status, k) == Get(st.status, k)
    ensures r.flags == st.flags && r.values == st.values && r.sn == st.sn && r.testPassed == st.testPassed
  {
    st.(data := Put(st.data, st.sn, Values(st.values)),
        status := Put(st.status, st.sn, if st.testPassed then "PASS" else "FALSE"))
  }

  // ---------------------------------------------------------------------
  // The blocks

  /** The rules of one or more sequences that share a block in the source:
      the sequence numbers with their key prefixes (the first one whose
      flag is on gives the prefix), whether the equals rule runs the
      "Ton Read" limit check, the table rules in order, and whether the
      dash rule commits the unit. */
  datatype Block = Block(members: seq<(Phase, string)>, tonCheck: bool, rules: seq<TableRule>, commits: bool)

  /** The prefix of the first member whose flag is on. */
  function FirstActive(members: seq<(Phase, string)>, flags: Flags): (r: Option<string>)
    ensures r.None? <==> forall k :: 0 <= k < |members| ==> !flags[members[k].0 - 1]
    ensures r.Some? ==> exists k :: 0 <= k < |members| && flags[members[k].0 - 1] && r.value == members[k].1
  {
    if |members| == 0 then None
    else if flags[members[0].0 - 1] then Some(members[0].1)
    else FirstActive(members[1..], flags)
  }

  /** A rule on the trimmed line and the row right below it. */
  function Row(triggers: seq<string>, filter: Filter, dropKeyHead: bool): TableRule {
    TableRule(triggers, 1, "1.", false, Wide, dropKeyHead, filter, false, false)
  }

  const LoadNameRaw: TableRule := Row(["Load Name"], NoFilter, false)
  const LoadName: TableRule := Row(["Load Name"], FilterBefore, false)
  /** The trigger-delay table of sequences 10 and 11: its row is two lines
      down and its `TRIGG` columns are renamed by position. */
  const Trig: TableRule := TableRule(["TRIG"], 2, "1.", false, Wide, true, FilterBefore, true, false)

  const Block1: Block := Block([(1, "Seq1-")], true, [
    LoadNameRaw,
    TableRule(["Ld    TRIG"], 2, "1.", false, Wide, true, FilterAfter, false, false),
    TableRule(["Ld    Ton"], 1, "1.", false, Wide, true, NoFilter, false, true),
    TableRule(["Ref Ton from LOAD:"], 5, "Tdls", true, Wide, false, NoFilter, false, false)
  ], false)

  const Block2: Block := Block([(2, "Seq2-"), (3, "Seq3-"), (4, "Seq4-")], false, [
    LoadNameRaw,
    TableRule(["BITS-1"], 1, "1.", false, BitsKeys, true, NoFilter, false, false),
    Row(["Vpp Max", "Vdc Max"], FilterBefore, true),
    Row(["dV(+) Max"], FilterBefore, true),
    Row(["Vn Max"], FilterBefore, true)
  ], false)

  const Block5: Block := Block([(5, "Seq5-")], false, [
    LoadName, Row(["Period-1"], FilterBefore, true), Row(["I/R-1"], FilterBefore, true),
    Row(["Vs Max"], FilterBefore, true)
  ], false)

  const Block6: Block := Block([(6, "Seq6-")], false, [LoadName], false)

  const Block7: Block := Block([(7, "Seq7-")], false, [LoadName, Row(["Vdisable Max"], FilterBefore, true)], false)

  const Block8: Block := Block([(8, "Seq8-"), (9, "Seq9-")], false, [
    LoadName, Row(["RISE"], FilterBefore, true), Row(["Vdc Max"], FilterBefore, true)
  ], false)

  const Block10: Block := Block([(10, "Seq10-")], false, [
    LoadName, Trig, Row(["Ton Max"], FilterBefore, true), Row(["Tons Source"], FilterBefore, true)
  ], false)

  const Block11: Block := Block([(11, "Seq11-")], false, [LoadName, Trig, Row(["Thd Max"], FilterBefore, true)], true)

  /** The blocks in the order the source tests their flags. */
  const Blocks: seq<Block> := [Block1, Block2, Block5, Block6, Block7, Block8, Block10, Block11]

  /** The outcome of a block or of a line: the line index after it, the
      state, and whether a "Ton Read" value lay within its limits. */
  type StepOutcome = (nat, ScanState, bool)

  /** The table rules of a block in order, each reading from the line
      index the one before it left. */
  function RulesRun(rules: seq<TableRule>, lines: seq<string>, j: nat, clean: string, prefix: string,
                    d: Dict<string>, parse: Parser): (o: Result<RuleOutcome>)
    ensures o.Ok? ==> j <= o.value.0 <= j + |rules|
    decreases |rules|
  {
    if |rules| == 0 then Ok((j, d, false))
    else
      var first :- RuleStep(rules[0], lines, j, clean, prefix, d, parse);
      var rest :- RulesRun(rules[1..], lines, first.0, clean, prefix, first.1, parse);
      Ok((rest.0, rest.1, first.2 || rest.2))
  }

  /** The equals rule: a trimmed line holding '=' is split on `\s+=\s+` and
      on runs of two or more blanks, and read as key, value, key, value … */
  function EqualsStep(clean: string, prefix: string, d: Dict<string>, ton: bool, parse: Parser)
    : Result<(Dict<string>, bool)>
  {
    if '=' in clean then EqualsRun(prefix, Split(EqualsOrWide, clean), d, ton, parse) else Ok((d, false))
  }

  /** One block on line `j`: nothing when none of its sequences is on;
      otherwise the equals rule, the table rules, and the commit. */
  function BlockStep(b: Block, lines: seq<string>, j: nat, clean: string, st: ScanState, parse: Parser)
    : (o: Result<StepOutcome>)
    ensures FirstActive(b.members, st.flags).None? ==> o == Ok((j, st, false))
    ensures o.Ok? ==> j <= o.value.0 <= j + |b.rules|
    ensures o.Ok? ==> o.value.1.flags == st.flags && o.value.1.sn == st.sn && o.value.1.testPassed == st.testPassed
    ensures o.Ok? && !b.commits ==> o.value.1.data == st.data && o.value.1.status == st.status
    ensures o.Ok? && b.commits && FirstActive(b.members, st.flags).Some? && Contains(clean, CommitRule) ==>
      Get(o.value.1.status, st.sn) == Some(if st.testPassed then "PASS" else "FALSE")
      && Get(o.value.1.data, st.sn) == Some(Values(o.value.1.values))
  {
    match FirstActive(b.members, st.flags)
    case None => Ok((j, st, false))
    case Some(prefix) =>
      var eq :- EqualsStep(clean, prefix, st.values, b.tonCheck, parse);
      var rr :- RulesRun(b.rules, lines, j, clean, prefix, eq.0, parse);
      var st1 := st.(values := rr.1);
      Ok((rr.0, if b.commits && Contains(clean, CommitRule) then Commit(st1) else st1, eq.1 || rr.2))
  }

  function BlocksRun(blocks: seq<Block>, lines: seq<string>, j: nat, clean: string, st: ScanState, parse: Parser)
    : (o: Result<StepOutcome>)
    ensures o.Ok? ==> j <= o.value.0
    ensures o.Ok? ==> o.value.1.flags == st.flags && o.value.1.sn == st.sn && o.value.1.testPassed == st.testPassed
    decreases |blocks|
  {
    if |blocks| == 0 then Ok((j, st, false))
    else
      var first :- BlockStep(blocks[0], lines, j, clean, st, parse);
      var rest :- BlocksRun(blocks[1..], lines, first.0, clean, first.1, parse);
      Ok((rest.0, rest.1, first.2 || rest.2))
  }

  /** The body of the second loop for line `j`. */
  function LineStep(blocks: seq<Block>, lines: seq<string>, j: nat, st: ScanState, parse: Parser)
    : (o: Result<StepOutcome>)
    requires j < |lines|
    ensures o.Ok? ==> j <= o.value.0
  {
    var clean := Trim(lines[j]);
    var st1 :- HeaderStep(lines, j, clean, st);
    BlocksRun(blocks, lines, j, clean, MarkerStep(clean, st1), parse)
  }

  /** Each `SEQ.n:` line sets the verdict to whether it says "PASS" and
      switches the flags as `SetPhase` says; any other line leaves the
      flags alone. (A unit header on the same line is processed first and
      touches neither.) */
  lemma LineStepMarker(blocks: seq<Block>, lines: seq<string>, j: nat, st: ScanState, parse: Parser)
    requires j < |lines|
    requires LineStep(blocks, lines, j, st, parse).Ok?
    ensures var o := LineStep(blocks, lines, j, st, parse).value; var clean := Trim(lines[j]);
      (MarkerOf(clean) != 0 ==>
         o.1.testPassed == Contains(clean, "PASS") && o.1.flags == SetPhase(st.flags, MarkerOf(clean)))
      && (MarkerOf(clean) == 0 ==> o.1.flags == st.flags)
  {
    var clean := Trim(lines[j]);
    var st1 := HeaderStep(lines, j, clean, st).value;
    assert st1.flags == st.flags;
  }

  /** A loop over lines `j`, `j + 1`, … below `n` whose body may advance
      the index, as `step` says, with `firstSeqPassed` so far. */
  function ScanBy(step: (nat, ScanState) -> Result<StepOutcome>, n: nat, j: nat, st: ScanState, passed: bool)
    : Result<(ScanState, bool)>
    decreases n - j
  {
    if j >= n then Ok((st, passed))
    else
      var o :- step(j, st);
      ScanBy(step, n, (if o.0 < j then j else o.0) + 1, o.1, passed || o.2)
  }

  /** The body of the second loop, as a step of `ScanBy`. */
  function LineFn(blocks: seq<Block>, lines: seq<string>, parse: Parser): (nat, ScanState) -> Result<StepOutcome> {
    (k: nat, s: ScanState) => if k < |lines| then LineStep(blocks, lines, k, s, parse) else Ok((k, s, false))
  }

  lemma LineFnAt(blocks: seq<Block>, lines: seq<string>, parse: Parser, j: nat, st: ScanState)
    requires j < |lines|
    ensures LineFn(blocks, lines, parse)(j, st) == LineStep(blocks, lines, j, st, parse)
  {
  }

  /** One line of `ScanBy` that goes through. */
  lemma ScanByOk(step: (nat, ScanState) -> Result<StepOutcome>, n: nat, j: nat, st: ScanState, passed: bool, o: StepOutcome)
    requires j < n && step(j, st) == Ok(o) && j <= o.0
    ensures ScanBy(step, n, j, st, passed) == ScanBy(step, n, o.0 + 1, o.1, passed || o.2)
  {
  }

  /** One line of `ScanBy` that throws. */
  lemma ScanByErr(step: (nat, ScanState) -> Result<StepOutcome>, n: nat, j: nat, st: ScanState, passed: bool)
    requires j < n && step(j, st).Err?
    ensures ScanBy(step, n, j, st, passed) == Err(step(j, st).fault)
  {
  }

  /** The second loop from line `j` on. */
  function ScanFrom(blocks: seq<Block>, lines: seq<string>, j: nat, st: ScanState, passed: bool, parse: Parser)
    : Result<(ScanState, bool)>
  {
    ScanBy(LineFn(blocks, lines, parse), |lines|, j, st, passed)
  }

  // ---------------------------------------------------------------------
  // The first pass and the report

  /** What the first pass collects per unit header. */
  datatype Headers = Headers(serials: seq<string>, models: seq<string>, stamps: seq<string>)

  /** Line `k` as the first pass reads it: nothing when it is not a unit
      header, its serial number, model name and date when it is, and an
      exception when "Model" appears within the last three lines. */
  function HeaderAt(lines: seq<string>, k: nat): (r: Result<Option<(string, string, string)>>)
    requires k < |lines|
    ensures r.Err? <==> Contains(Trim(lines[k]), "Model") && k + 3 >= |lines|
    ensures r.Err? ==> r.fault == IndexOutOfRange
  {
    var clean := Trim(lines[k]);
    if !Contains(clean, "Model") then Ok(None)
    else if k + 3 >= |lines| then Err(IndexOutOfRange)
    else if !Contains(lines[k + 3], "YYYY_MM_DD") then Ok(None)
    else Ok(Some((ExtractValue(clean, "Serial No:"), ExtractValue(clean, "Model Name:"),
                  ExtractValue(lines[k + 3], "YYYY_MM_DD:"))))
  }

  /** The first loop from line `k` on: one entry per unit header in each
      of the three lists. */
  function HeaderPass(lines: seq<string>, k: nat, acc: Headers): (r: Result<Headers>)
    ensures r.Ok? ==> acc.serials <= r.value.serials && acc.models <= r.value.models && acc.stamps <= r.value.stamps
    ensures r.Ok? ==> |r.value.serials| - |acc.serials| == |r.value.models| - |acc.models|
                      == |r.value.stamps| - |acc.stamps|
    decreases |lines| - k
  {
    if k >= |lines| then Ok(acc)
    else
      var h :- HeaderAt(lines, k);
      match h
      case None => HeaderPass(lines, k + 1, acc)
      case Some((serial, model, stamp)) =>
        HeaderPass(lines, k + 1, Headers(acc.serials + [serial], acc.models + [model], acc.stamps + [stamp]))
  }

  /** The arguments `WriteToCsv` is called with: the serial numbers and
      dates of the first pass, the committed rows, the keys of the last
      unit's values as the column headers, and the verdicts. */
  datatype AdacReport = AdacReport(
    serials: seq<string>, stamps: seq<string>, data: Dict<seq<string>>, headers: seq<string>, status: Dict<string>)

  /** The lines `ProcessAdacData` works on: the first file of the archive,
      or none. */
  function InputLines(files: seq<Option<seq<string>>>): seq<string> {
    if |files| > 0 && files[0].Some? then files[0].value else []
  }

  /** The report of an ADAC archive, or the exception that ends the run. */
  function AdacRun(lines: seq<string>, parse: Parser): Result<AdacReport> {
    var hp :- HeaderPass(lines, 0, Headers([], [], []));
    var sc :- ScanFrom(Blocks, lines, 0, InitialState, false, parse);
    Ok(AdacReport(hp.serials, hp.stamps, sc.0.data, Keys(sc.0.values), sc.0.status))
  }

  // ---------------------------------------------------------------------
  // The loops

  /** A partial outcome followed by the steps still to run. */
  function Chain<S>(hit: bool, rest: Result<(nat, S, bool)>): Result<(nat, S, bool)> {
    if rest.Err? then rest else Ok((rest.value.0, rest.value.1, hit || rest.value.2))
  }

  lemma RulesRunStep(rules: seq<TableRule>, i: nat, lines: seq<string>, j: nat, clean: string, prefix: string,
                     d: Dict<string>, parse: Parser, hit: bool)
    requires i < |rules|
    requires RuleStep(rules[i], lines, j, clean, prefix, d, parse).Ok?
    ensures var o := RuleStep(rules[i], lines, j, clean, prefix, d, parse).value;
      Chain(hit, RulesRun(rules[i..], lines, j, clean, prefix, d, parse))
      == Chain(hit || o.2, RulesRun(rules[i + 1..], lines, o.0, clean, prefix, o.1, parse))
  {
    assert rules[i..][0] == rules[i] && rules[i..][1..] == rules[i + 1..];
  }

  lemma RulesRunFails(rules: seq<TableRule>, i: nat, lines: seq<string>, j: nat, clean: string, prefix: string,
                      d: Dict<string>, parse: Parser, hit: bool)
    requires i < |rules|
    requires RuleStep(rules[i], lines, j, clean, prefix, d, parse).Err?
    ensures Chain(hit, RulesRun(rules[i..], lines, j, clean, prefix, d, parse))
            == Err(RuleStep(rules[i], lines, j, clean, prefix, d, parse).fault)
  {
    assert rules[i..][0] == rules[i];
  }

  method ApplyRules(rules: seq<TableRule>, lines: seq<string>, j0: nat, clean: string, prefix: string,
                    d0: Dict<string>, parse: Parser)
    returns (o: Result<RuleOutcome>)
    ensures o == RulesRun(rules, lines, j0, clean, prefix, d0, parse)
  {
    var j, d, hit := j0, d0, false;
    for i := 0 to |rules|
      invariant Chain(hit, RulesRun(rules[i..], lines, j, clean, prefix, d, parse))
                == RulesRun(rules, lines, j0, clean, prefix, d0, parse)
    {
      var step := ApplyRule(rules[i], lines, j, clean, prefix, d, parse);
      if step.Err? {
        RulesRunFails(rules, i, lines, j, clean, prefix, d, parse, hit);
        return Err(step.fault);
      }
      RulesRunStep(rules, i, lines, j, clean, prefix, d, parse, hit);
      j, d, hit := step.value.0, step.value.1, hit || step.value.2;
    }
    o := Ok((j, d, hit));
  }

  method ApplyBlock(b: Block, lines: seq<string>, j: nat, clean: string, st: ScanState, parse: Parser)
    returns (o: Result<StepOutcome>)
    ensures o == BlockStep(b, lines, j, clean, st, parse)
  {
    var active := FirstActive(b.members, st.flags);
    if active.None? {
      return Ok((j, st, false));
    }
    var prefix := active.value;
    var eq: Result<(Dict<string>, bool)> := Ok((st.values, false));
    if '=' in clean {
      eq := AssignEquals(prefix, Split(EqualsOrWide, clean), st.values, b.tonCheck, parse);
    }
    if eq.Err? {
      return Err(eq.fault);
    }
    var rr := ApplyRules(b.rules, lines, j, clean, prefix, eq.value.0, parse);
    if rr.Err? {
      return Err(rr.fault);
    }
    var st1 := st.(values := rr.value.1);
    if b.commits && Contains(clean, CommitRule) {
      st1 := Commit(st1);
    }
    o := Ok((rr.value.0, st1, eq.value.1 || rr.value.2));
  }

  lemma BlocksRunStep(blocks: seq<Block>, i: nat, lines: seq<string>, j: nat, clean: string, st: ScanState,
                      parse: Parser, hit: bool)
    requires i < |blocks|
    ensures var o := BlockStep(blocks[i], lines, j, clean, st, parse);
      Chain(hit, BlocksRun(blocks[i..], lines, j, clean, st, parse))
      == if o.Err? then Err(o.fault)
         else Chain(hit || o.value.2, BlocksRun(blocks[i + 1..], lines, o.value.0, clean, o.value.1, parse))
  {
    assert blocks[i..][0] == blocks[i] && blocks[i..][1..] == blocks[i + 1..];
  }

  /** The body of the second loop. */
  method ScanLine(blocks: seq<Block>, lines: seq<string>, j0: nat, st0: ScanState, parse: Parser)
    returns (o: Result<StepOutcome>)
    requires j0 < |lines|
    ensures o == LineStep(blocks, lines, j0, st0, parse)
  {
    var clean := Trim(lines[j0]);
    var header := HeaderStep(lines, j0, clean, st0);
    if header.Err? {
      return Err(header.fault);
    }
    var st := MarkerStep(clean, header.value);
    ghost var st1 := st;
    var j, hit := j0, false;
    for i := 0 to |blocks|
      invariant Chain(hit, BlocksRun(blocks[i..], lines, j, clean, st, parse))
                == BlocksRun(blocks, lines, j0, clean, st1, parse)
    {
      var step := ApplyBlock(blocks[i], lines, j, clean, st, parse);
      BlocksRunStep(blocks, i, lines, j, clean, st, parse, hit);
      if step.Err? {
        return Err(step.fault);
      }
      j, st, hit := step.value.0, step.value.1, hit || step.value.2;
    }
    o := Ok((j, st, hit));
  }

  /** The first loop: the unit headers. */
  method CollectHeaders(lines: seq<string>) returns (r: Result<Headers>)
    ensures r == HeaderPass(lines, 0, Headers([], [], []))
  {
    var heads := Headers([], [], []);
    for k := 0 to |lines|
      invariant HeaderPass(lines, k, heads) == HeaderPass(lines, 0, Headers([], [], []))
    {
      var h := HeaderAt(lines, k);
      if h.Err? {
        return Err(h.fault);
      }
      if h.value.Some? {
        var (serial, model, stamp) := h.value.value;
        heads := Headers(heads.serials + [serial], heads.models + [model], heads.stamps + [stamp]);
      }
    }
    r := Ok(heads);
  }

  /** The second loop: the sequence state machine. */
  method ScanLines(blocks: seq<Block>, lines: seq<string>, st0: ScanState, parse: Parser)
    returns (r: Result<(ScanState, bool)>)
    ensures r == ScanFrom(blocks, lines, 0, st0, false, parse)
  {
    ghost var step := LineFn(blocks, lines, parse);
    var st := st0;
    var passed := false;
    var j := 0;
    while j < |lines|
      invariant ScanBy(step, |lines|, j, st, passed) == ScanBy(step, |lines|, 0, st0, false)
      decreases |lines| - j
    {
      var o := ScanLine(blocks, lines, j, st, parse);
      LineFnAt(blocks, lines, parse, j, st);
      if o.Err? {
        ScanByErr(step, |lines|, j, st, passed);
        return Err(o.fault);
      }
      ScanByOk(step, |lines|, j, st, passed, o.value);
      j, st, passed := o.value.0 + 1, o.value.1, passed || o.value.2;
    }
    r := Ok((st, passed));
  }

  /** `ProcessAdacData` without the archive reading and the CSV writing:
      its two loops over the lines of the first file. */
  method ProcessAdacData(files: seq<Option<seq<string>>>, parse: Parser) returns (r: Result<AdacReport>)
    ensures r == AdacRun(InputLines(files), parse)
  {
    var lines: seq<string> := [];
    if |files| > 0 && files[0].Some? {
      lines := files[0].value;
    }
    var heads := CollectHeaders(lines);
    if heads.Err? {
      return Err(heads.fault);
    }
    var scan := ScanLines(Blocks, lines, InitialState, parse);
    if scan.Err? {
      return Err(scan.fault);
    }
    var st := scan.value.0;
    r := Ok(AdacReport(heads.value.serials, heads.value.stamps, st.data, Keys(st.values), st.status));
  }

  // ---------------------------------------------------------------------
  // Properties

  /** Markers in the order 1, 2, …, 11, 1, … keep exactly one sequence on,
      starting from the initial flags. */
  lemma PhasesInOrder(flags: Flags, n: Phase)
    ensures OnlyPhase(InitialFlags, 1)
    ensures OnlyPhase(flags, n) && n < 11 ==> OnlyPhase(SetPhase(flags, n + 1), n + 1)
    ensures OnlyPhase(flags, 11) ==> OnlyPhase(SetPhase(flags, 1), 1)
  {
    if OnlyPhase(flags, n) && n < 11 {
      var r := SetPhase(flags, n + 1);
      forall i | 0 <= i < 11 ensures r[i] <==> i == n {
        if i != n && i != n - 1 {
          assert r[i] == flags[i];
        }
      }
    }
    if OnlyPhase(flags, 11) {
      var r := SetPhase(flags, 1);
      forall i | 0 <= i < 11 ensures r[i] <==> i == 0 {
        if i != 0 && i != 10 {
          assert r[i] == flags[i];
        }
      }
    }
  }

  /** A marker out of order leaves the sequence that was on still on: the
      source only switches off the sequence just before the new one. */
  lemma SkippedMarkerLeavesTwoOn(flags: Flags, n: Phase, m: Phase)
    requires OnlyPhase(flags, n) && m != n
    requires m != n + 1 && !(n == 11 && m == 1) && !(n == 1 && m == 11)
    ensures SetPhase(flags, m)[n - 1] && SetPhase(flags, m)[m - 1]
  {
    var i := n - 1;
    assert i != m - 1;
    assert i != (if m == 1 then 10 else m - 2);
  }

  /** The limit table of the Vpp rule in sequences 2 to 4 is never
      consulted: the source looks its keys up with the prefix "Seq1-",
      while every key of the table starts with "Seq2-". */
  lemma VppLimitsUnreachable(key: string)
    ensures "Seq1-" + key != "Seq2-Vpp-3 RD" && "Seq1-" + key != "Seq2-Vpp-2 RD" && "Seq1-" + key != "Seq2-Vpp-1 RD"
  {
    assert ("Seq1-" + key)[3] == '1';
  }

  /** `firstSeqPassed` is written and never read: the state a scan ends in,
      and whether it throws, do not depend on it. */
  lemma {:induction false} ScanIgnoresPassed(step: (nat, ScanState) -> Result<StepOutcome>, n: nat, j: nat,
                                           st: ScanState, p: bool, q: bool)
    ensures ScanBy(step, n, j, st, p).Ok? <==> ScanBy(step, n, j, st, q).Ok?
    ensures ScanBy(step, n, j, st, p).Err? ==> ScanBy(step, n, j, st, p) == ScanBy(step, n, j, st, q)
    ensures ScanBy(step, n, j, st, p).Ok? ==> ScanBy(step, n, j, st, p).value.0 == ScanBy(step, n, j, st, q).value.0
    decreases n - j
  {
    if j < n {
      var o := step(j, st);
      if o.Ok? {
        var next := (if o.value.0 < j then j else o.value.0) + 1;
        ScanIgnoresPassed(step, n, next, o.value.1, p || o.value.2, q || o.value.2);
      }
    }
  }

  /** Blocks none of whose sequences is on leave a line alone. */
  lemma {:induction false} InactiveBlocksSkipped(blocks: seq<Block>, lines: seq<string>, j: nat, clean: string,
                                               st: ScanState, parse: Parser)
    requires |blocks| > 0
    requires forall k :: 0 <= k < |blocks| - 1 ==> FirstActive(blocks[k].members, st.flags).None?
    ensures BlocksRun(blocks, lines, j, clean, st, parse) == BlocksRun([blocks[|blocks| - 1]], lines, j, clean, st, parse)
    decreases |blocks|
  {
    if |blocks| > 1 {
      InactiveBlocksSkipped(blocks[1..], lines, j, clean, st, parse);
    }
  }

  /** In sequence 11, a line of 71 dashes that is neither a unit header nor
      a marker commits the unit: its serial number gets the current values
      and "PASS" or "FALSE" from the latest `SEQ` line. */
  lemma DashLineCommits(lines: seq<string>, j: nat, st: ScanState, parse: Parser)
    requires j < |lines|
    requires OnlyPhase(st.flags, 11)
    requires Contains(Trim(lines[j]), CommitRule) && !Contains(Trim(lines[j]), "Model") && MarkerOf(Trim(lines[j])) == 0
    requires LineStep(Blocks, lines, j, st, parse).Ok?
    ensures var o := LineStep(Blocks, lines, j, st, parse).value;
      Get(o.1.status, st.sn) == Some(if st.testPassed then "PASS" else "FALSE")
      && Get(o.1.data, st.sn) == Some(Values(o.1.values))
  {
    var clean := Trim(lines[j]);
    assert HeaderStep(lines, j, clean, st) == Ok(st);
    assert MarkerStep(clean, st) == st;
    OnlyElevenInactive(st.flags);
    InactiveBlocksSkipped(Blocks, lines, j, clean, st, parse);
    assert FirstActive(Block11.members, st.flags) == Some("Seq11-");
    OneBlock(Block11, lines, j, clean, st, parse);
  }

  lemma OnlyElevenInactive(flags: Flags)
    requires OnlyPhase(flags, 11)
    ensures forall k :: 0 <= k < |Blocks| - 1 ==> FirstActive(Blocks[k].members, flags).None?
    ensures Blocks[|Blocks| - 1] == Block11 && flags[10]
  {
    forall k | 0 <= k < |Blocks| - 1 ensures FirstActive(Blocks[k].members, flags).None? {
      var ms := Blocks[k].members;
      forall x | 0 <= x < |ms| ensures !flags[ms[x].0 - 1] {
        assert ms[x].0 <= 10;
      }
    }
  }

  lemma OneBlock(b: Block, lines: seq<string>, j: nat, clean: string, st: ScanState, parse: Parser)
    ensures BlocksRun([b], lines, j, clean, st, parse) == BlockStep(b, lines, j, clean, st, parse)
  {
    assert [b][1..] == [];
  }
}
