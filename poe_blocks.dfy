/** `ExtractFinalResult1` and `GetStreamCounterResults` (FileParser/Program.cs):
    the per-port tables at the end of a PoE log and the per-stream counter
    table. Each table becomes entries keyed by column header and port. */
module PoeBlocks {
  import opened Outcomes
  import opened Text
  import opened OrderedDict
  import opened Tokens
  import opened LineScan

  const PortHeaders: seq<string> :=
    ["TxPacket", "RxPacket", "TxByte", "RxByte", "X-TAG", "Unicast", "Multicast", "Broadcast",
     "UnderSize", "OverSize", "Pause", "Fragment Err"]

  const ByteHeaders: seq<string> :=
    ["64Byte", "65-127Byte", "128-255Byte", "256-511Byte", "512-1023Byte"]

  const VlanHeaders: seq<string> :=
    ["VLAN", "IP Checksum Error", "Latency CT(us)", "Latency SF(us)", "Tx Line Rate (Mbps)",
     "IPv4", "Packet Loss Rate"]

  // ---------------------------------------------------------------------
  // Block scans
  // ---------------------------------------------------------------------

  /** One of the three `foreach` scans: a start line opens the block (and
      is skipped wherever it occurs), every later line yields its row, if
      it has one, and the first line starting with `====` inside the block
      ends the scan. */
  function BlockFrom<R>(isStart: string -> bool, rowOf: string -> Option<R>, inBlock: bool,
                        lines: seq<string>): seq<R>
    decreases |lines|
  {
    if |lines| == 0 then []
    else if isStart(lines[0]) then BlockFrom(isStart, rowOf, true, lines[1..])
    else if !inBlock then BlockFrom(isStart, rowOf, false, lines[1..])
    else if StartsWith(lines[0], "====") then []
    else
      match rowOf(lines[0])
      case Some(r) => [r] + BlockFrom(isStart, rowOf, true, lines[1..])
      case None => BlockFrom(isStart, rowOf, true, lines[1..])
  }

  /** The rows `rowOf` gives the lines of `body`, in order. */
  function RowsOf<R>(rowOf: string -> Option<R>, body: seq<string>): seq<R>
    decreases |body|
  {
    if |body| == 0 then []
    else
      match rowOf(body[0])
      case Some(r) => [r] + RowsOf(rowOf, body[1..])
      case None => RowsOf(rowOf, body[1..])
  }

  method ScanBlock<R>(isStart: string -> bool, rowOf: string -> Option<R>, lines: seq<string>)
    returns (rows: seq<R>)
    ensures rows == BlockFrom(isStart, rowOf, false, lines)
  {
    rows := [];
    var inBlock := false;
    var i := 0;
    while i < |lines|
      invariant 0 <= i <= |lines|
      invariant rows + BlockFrom(isStart, rowOf, inBlock, lines[i..]) == BlockFrom(isStart, rowOf, false, lines)
    {
      assert lines[i..][0] == lines[i] && lines[i..][1..] == lines[i + 1..];
      var line := lines[i];
      if isStart(line) {
        inBlock := true;
      } else if inBlock {
        if StartsWith(line, "====") {
          assert rows + [] == rows;
          break;
        }
        match rowOf(line)
        case Some(r) =>
          rows := rows + [r];
        case None =>
      }
      i := i + 1;
    }
    if i == |lines| {
      assert lines[i..] == [];
      assert rows + [] == rows;
    }
  }

  /** Without a start line there is no block. */
  lemma {:induction false} BlockWithoutStart<R>(isStart: string -> bool, rowOf: string -> Option<R>,
                                                lines: seq<string>)
    requires forall j :: 0 <= j < |lines| ==> !isStart(lines[j])
    ensures BlockFrom(isStart, rowOf, false, lines) == []
    decreases |lines|
  {
    if |lines| > 0 {
      BlockWithoutStart(isStart, rowOf, lines[1..]);
    }
  }

  lemma {:induction false} BlockBeforeStart<R>(isStart: string -> bool, rowOf: string -> Option<R>,
                                               lines: seq<string>, j: nat, h: nat)
    requires j <= h < |lines| && isStart(lines[h])
    requires forall x :: j <= x < h ==> !isStart(lines[x])
    ensures BlockFrom(isStart, rowOf, false, lines[j..]) == BlockFrom(isStart, rowOf, true, lines[h + 1..])
    decreases h - j
  {
    assert lines[j..][0] == lines[j] && lines[j..][1..] == lines[j + 1..];
    if j < h {
      BlockBeforeStart(isStart, rowOf, lines, j + 1, h);
    }
  }

  lemma {:induction false} BlockBody<R>(isStart: string -> bool, rowOf: string -> Option<R>,
                                        lines: seq<string>, j: nat, e: nat)
    requires j <= e < |lines| && StartsWith(lines[e], "====") && !isStart(lines[e])
    requires forall x :: j <= x < e ==> !isStart(lines[x]) && !StartsWith(lines[x], "====")
    ensures BlockFrom(isStart, rowOf, true, lines[j..]) == RowsOf(rowOf, lines[j..e])
    decreases e - j
  {
    assert lines[j..][0] == lines[j] && lines[j..][1..] == lines[j + 1..];
    if j < e {
      assert lines[j..e][0] == lines[j] && lines[j..e][1..] == lines[j + 1..e];
      BlockBody(isStart, rowOf, lines, j + 1, e);
    }
  }

  /** With the first start line at `h` and the first `====` line after it at
      `e`, the block is the rows of the lines strictly between: what comes
      before the start line (separators included) and after the separator
      is never read. */
  lemma BlockBetween<R>(isStart: string -> bool, rowOf: string -> Option<R>, lines: seq<string>, h: nat, e: nat)
    requires h < e < |lines| && isStart(lines[h]) && !isStart(lines[e]) && StartsWith(lines[e], "====")
    requires forall x :: 0 <= x < h ==> !isStart(lines[x])
    requires forall x :: h < x < e ==> !isStart(lines[x]) && !StartsWith(lines[x], "====")
    ensures BlockFrom(isStart, rowOf, false, lines) == RowsOf(rowOf, lines[h + 1..e])
  {
    assert lines[0..] == lines;
    BlockBeforeStart(isStart, rowOf, lines, 0, h);
    BlockBody(isStart, rowOf, lines, h + 1, e);
  }

  /** Every row of a block is a row some line gives: a property every such
      row has holds of the whole block. */
  lemma {:induction false} BlockRows<R>(isStart: string -> bool, rowOf: string -> Option<R>, p: R -> bool,
                                        inBlock: bool, lines: seq<string>)
    requires forall j :: 0 <= j < |lines| && rowOf(lines[j]).Some? ==> p(rowOf(lines[j]).value)
    ensures forall k :: 0 <= k < |BlockFrom(isStart, rowOf, inBlock, lines)| ==>
      p(BlockFrom(isStart, rowOf, inBlock, lines)[k])
    decreases |lines|
  {
    if |lines| > 0 {
      assert forall j :: 0 <= j < |lines[1..]| ==> lines[1..][j] == lines[j + 1];
      BlockRows(isStart, rowOf, p, true, lines[1..]);
      BlockRows(isStart, rowOf, p, false, lines[1..]);
    }
  }

  // ---------------------------------------------------------------------
  // The three tables
  // ---------------------------------------------------------------------

  /** `line.StartsWith("Port", OrdinalIgnoreCase)`, on the untrimmed line. */
  predicate IsPortStart(line: string) {
    StartsWithIgnoreCase(line, "Port")
  }

  predicate IsByteStart(line: string) {
    StartsWithIgnoreCase(Trim(line), "64byte")
  }

  predicate IsVlanStart(line: string) {
    StartsWithIgnoreCase(Trim(line), "VLAN       IP Checksum Error")
  }

  /** A port-table line whose first word is a port id gives that id and the
      remaining words. */
  function PortRow(line: string): (r: Option<(string, seq<string>)>)
    ensures r.Some? ==> IsPortId(r.value.0)
  {
    var w := Words(line);
    if |w| > 0 && IsPortId(w[0]) then Some((w[0], w[1..])) else None
  }

  /** Some word is a table rule (`-----------+…` or `=============…`). */
  predicate HasRule(w: seq<string>) {
    exists k :: 0 <= k < |w| && (StartsWith(w[k], "-----------+") || StartsWith(w[k], "============="))
  }

  /** A byte- or VLAN-table line gives its words unless one is a rule; a
      blank line gives the empty row. */
  function TableRow(line: string): (r: Option<seq<string>>)
    ensures r.Some? ==> !HasRule(r.value)
  {
    var w := Words(line);
    if HasRule(w) then None else Some(w)
  }

  function PortRows(lines: seq<string>): seq<(string, seq<string>)> {
    BlockFrom(IsPortStart, PortRow, false, lines)
  }

  function ByteRows(lines: seq<string>): seq<seq<string>> {
    BlockFrom(IsByteStart, TableRow, false, lines)
  }

  function VlanRows(lines: seq<string>): seq<seq<string>> {
    BlockFrom(IsVlanStart, TableRow, false, lines)
  }

  /** Every port of the port table matches the port pattern. */
  lemma PortsArePortIds(lines: seq<string>)
    ensures forall i :: 0 <= i < |Keys(PortRows(lines))| ==> IsPortId(Keys(PortRows(lines))[i])
  {
    BlockRows(IsPortStart, PortRow, (r: (string, seq<string>)) => IsPortId(r.0), false, lines);
  }

  /** No row of the byte or VLAN table holds a rule word. */
  lemma TableRowsHaveNoRules(lines: seq<string>)
    ensures forall i :: 0 <= i < |ByteRows(lines)| ==> !HasRule(ByteRows(lines)[i])
    ensures forall i :: 0 <= i < |VlanRows(lines)| ==> !HasRule(VlanRows(lines)[i])
  {
    BlockRows(IsByteStart, TableRow, (w: seq<string>) => !HasRule(w), false, lines);
    BlockRows(IsVlanStart, TableRow, (w: seq<string>) => !HasRule(w), false, lines);
  }

  /** The key `{header}_{port}`. */
  function CellKey(h: string, p: string): string {
    h + "_" + p
  }

  /** The cells of `rows` under `headers`, row `i` for port `i`, from header
      `j` on: a cell is set only when the row has a value in that column. */
  function AssignRow(headers: seq<string>, port: string, row: seq<string>, d: Dict<string>, j: nat): Dict<string>
    decreases |headers| - j
  {
    if j >= |headers| then d
    else
      var d' := if j < |row| then Put(d, CellKey(headers[j], port), row[j]) else d;
      AssignRow(headers, port, row, d', j + 1)
  }

  /** One assignment step of the source: ports from `i` on, each with the
      row at its own position (a missing row sets nothing). */
  function AssignAll(headers: seq<string>, ports: seq<string>, rows: seq<seq<string>>, d: Dict<string>, i: nat): Dict<string>
    decreases |ports| - i
  {
    if i >= |ports| then d
    else
      var d' := if i < |rows| then AssignRow(headers, ports[i], rows[i], d, 0) else d;
      AssignAll(headers, ports, rows, d', i + 1)
  }

  /** The dictionary `ExtractFinalResult1` returns. */
  function FinalResult(lines: seq<string>): Dict<string> {
    var pr := PortRows(lines);
    var ports := Keys(pr);
    var d1 := AssignAll(PortHeaders, ports, Values(pr), [], 0);
    var d2 := AssignAll(ByteHeaders, ports, ByteRows(lines), d1, 0);
    AssignAll(VlanHeaders, ports, VlanRows(lines), d2, 0)
  }

  method AssignTable(headers: seq<string>, ports: seq<string>, rows: seq<seq<string>>, d: Dict<string>)
    returns (r: Dict<string>)
    ensures r == AssignAll(headers, ports, rows, d, 0)
  {
    r := d;
    for i := 0 to |ports|
      invariant AssignAll(headers, ports, rows, r, i) == AssignAll(headers, ports, rows, d, 0)
    {
      ghost var before := r;
      for j := 0 to |headers|
        invariant i < |rows| ==> AssignRow(headers, ports[i], rows[i], r, j) == AssignRow(headers, ports[i], rows[i], before, 0)
        invariant i >= |rows| ==> r == before
      {
        if i < |rows| && j < |rows[i]| {
          r := Put(r, CellKey(headers[j], ports[i]), rows[i][j]);
        }
      }
    }
  }

  method ExtractFinalResult1(lines: seq<string>) returns (r: Dict<string>)
    ensures r == FinalResult(lines)
  {
    var portRows := ScanBlock(IsPortStart, PortRow, lines);
    var byteRows := ScanBlock(IsByteStart, TableRow, lines);
    var vlanRows := ScanBlock(IsVlanStart, TableRow, lines);
    var ports := Keys(portRows);
    r := AssignTable(PortHeaders, ports, Values(portRows), []);
    r := AssignTable(ByteHeaders, ports, byteRows, r);
    r := AssignTable(VlanHeaders, ports, vlanRows, r);
  }

  // ---------------------------------------------------------------------
  // Cell keys
  // ---------------------------------------------------------------------

  lemma CellKeySamePort(h1: string, h2: string, p: string)
    requires CellKey(h1, p) == CellKey(h2, p)
    ensures h1 == h2
  {
    assert |h1| == |h2|;
    assert CellKey(h1, p)[..|h1|] == h1;
    assert CellKey(h2, p)[..|h2|] == h2;
  }

  /** A header without `_` is the text before the key's first `_`, so such
      keys name their header and port uniquely. */
  lemma CellKeyInjective(h1: string, p1: string, h2: string, p2: string)
    requires '_' !in h1 && '_' !in h2
    requires CellKey(h1, p1) == CellKey(h2, p2)
    ensures h1 == h2 && p1 == p2
  {
    IndexOfCharAfter(h1, '_', p1);
    IndexOfCharAfter(h2, '_', p2);
    assert CellKey(h1, p1)[..|h1|] == h1;
    assert CellKey(h2, p2)[..|h2|] == h2;
    assert CellKey(h1, p1)[|h1| + 1..] == p1;
    assert CellKey(h2, p2)[|h2| + 1..] == p2;
  }

  predicate Distinct(s: seq<string>) {
    forall a, b :: 0 <= a < b < |s| ==> s[a] != s[b]
  }

  predicate NoUnderscore(s: seq<string>) {
    forall a :: 0 <= a < |s| ==> '_' !in s[a]
  }

  lemma {:induction false} AssignRowUntouched(headers: seq<string>, port: string, row: seq<string>,
                                              d: Dict<string>, j: nat, k: string)
    requires forall x :: j <= x < |headers| ==> CellKey(headers[x], port) != k
    ensures Get(AssignRow(headers, port, row, d, j), k) == Get(d, k)
    decreases |headers| - j
  {
    if j < |headers| {
      var d' := if j < |row| then Put(d, CellKey(headers[j], port), row[j]) else d;
      AssignRowUntouched(headers, port, row, d', j + 1, k);
    }
  }

  lemma {:induction false} AssignRowCell(headers: seq<string>, port: string, row: seq<string>,
                                         d: Dict<string>, j0: nat, j: nat)
    requires Distinct(headers)
    requires j0 <= j < |headers| && j < |row|
    ensures Get(AssignRow(headers, port, row, d, j0), CellKey(headers[j], port)) == Some(row[j])
    decreases |headers| - j0
  {
    var d' := if j0 < |row| then Put(d, CellKey(headers[j0], port), row[j0]) else d;
    if j0 < j {
      AssignRowCell(headers, port, row, d', j0 + 1, j);
    } else {
      forall x | j + 1 <= x < |headers|
        ensures CellKey(headers[x], port) != CellKey(headers[j], port)
      {
        if CellKey(headers[x], port) == CellKey(headers[j], port) {
          CellKeySamePort(headers[x], headers[j], port);
        }
      }
      AssignRowUntouched(headers, port, row, d', j + 1, CellKey(headers[j], port));
    }
  }

  /** A key that is no cell key of the ports from `i` on is left as it was. */
  lemma {:induction false} AssignAllUntouched(headers: seq<string>, ports: seq<string>, rows: seq<seq<string>>,
                                              d: Dict<string>, i: nat, k: string)
    requires forall x, y :: i <= x < |ports| && 0 <= y < |headers| ==> CellKey(headers[y], ports[x]) != k
    ensures Get(AssignAll(headers, ports, rows, d, i), k) == Get(d, k)
    decreases |ports| - i
  {
    if i < |ports| {
      var d' := if i < |rows| then AssignRow(headers, ports[i], rows[i], d, 0) else d;
      if i < |rows| {
        AssignRowUntouched(headers, ports[i], rows[i], d, 0, k);
      }
      AssignAllUntouched(headers, ports, rows, d', i + 1, k);
    }
  }

  /** With distinct ports and distinct `_`-free headers, the cell of port
      `i` under header `j` holds row `i`'s value in column `j`. */
  lemma {:induction false} AssignAllCell(headers: seq<string>, ports: seq<string>, rows: seq<seq<string>>,
                                         d: Dict<string>, i0: nat, i: nat, j: nat)
    requires Distinct(headers) && NoUnderscore(headers) && Distinct(ports)
    requires i0 <= i < |ports| && i < |rows| && j < |headers| && j < |rows[i]|
    ensures Get(AssignAll(headers, ports, rows, d, i0), CellKey(headers[j], ports[i])) == Some(rows[i][j])
    decreases |ports| - i0
  {
    var d' := if i0 < |rows| then AssignRow(headers, ports[i0], rows[i0], d, 0) else d;
    if i0 < i {
      AssignAllCell(headers, ports, rows, d', i0 + 1, i, j);
    } else {
      var k := CellKey(headers[j], ports[i]);
      forall x, y | i + 1 <= x < |ports| && 0 <= y < |headers|
        ensures CellKey(headers[y], ports[x]) != k
      {
        if CellKey(headers[y], ports[x]) == k {
          CellKeyInjective(headers[y], ports[x], headers[j], ports[i]);
        }
      }
      AssignAllUntouched(headers, ports, rows, d', i + 1, k);
      AssignRowCell(headers, ports[i], rows[i], d, 0, j);
    }
  }

  /** No cell key of one table is a cell key of another, whatever the ports. */
  lemma TablesApart(hs: seq<string>, gs: seq<string>, ports: seq<string>, y: nat, p: string)
    requires NoUnderscore(hs) && NoUnderscore(gs) && y < |hs|
    requires forall a :: 0 <= a < |gs| ==> gs[a] != hs[y]
    ensures forall x, z :: 0 <= x < |ports| && 0 <= z < |gs| ==> CellKey(gs[z], ports[x]) != CellKey(hs[y], p)
  {
    forall x, z | 0 <= x < |ports| && 0 <= z < |gs|
      ensures CellKey(gs[z], ports[x]) != CellKey(hs[y], p)
    {
      if CellKey(gs[z], ports[x]) == CellKey(hs[y], p) {
        CellKeyInjective(gs[z], ports[x], hs[y], p);
      }
    }
  }

  /** A later table with other headers leaves an earlier table's cells alone. */
  lemma CellSurvives(hs: seq<string>, gs: seq<string>, ports: seq<string>, rows: seq<seq<string>>,
                     d: Dict<string>, y: nat, p: string)
    requires NoUnderscore(hs) && NoUnderscore(gs) && y < |hs|
    requires forall a :: 0 <= a < |gs| ==> gs[a] != hs[y]
    ensures Get(AssignAll(gs, ports, rows, d, 0), CellKey(hs[y], p)) == Get(d, CellKey(hs[y], p))
  {
    TablesApart(hs, gs, ports, y, p);
    AssignAllUntouched(gs, ports, rows, d, 0, CellKey(hs[y], p));
  }

  lemma PortHeadersDistinct() ensures Distinct(PortHeaders) {}
  lemma PortHeadersNoUnderscore() ensures NoUnderscore(PortHeaders) {}
  lemma ByteHeadersDistinct() ensures Distinct(ByteHeaders) && NoUnderscore(ByteHeaders) {}
  lemma VlanHeadersDistinct() ensures Distinct(VlanHeaders) {}
  lemma VlanHeadersNoUnderscore() ensures NoUnderscore(VlanHeaders) {}

  lemma PortByteApart()
    ensures forall a, b :: 0 <= a < |PortHeaders| && 0 <= b < |ByteHeaders| ==> PortHeaders[a] != ByteHeaders[b]
  {}

  lemma PortVlanApart()
    ensures forall a, b :: 0 <= a < |PortHeaders| && 0 <= b < |VlanHeaders| ==> PortHeaders[a] != VlanHeaders[b]
  {}

  lemma ByteVlanApart()
    ensures forall a, b :: 0 <= a < |ByteHeaders| && 0 <= b < |VlanHeaders| ==> ByteHeaders[a] != VlanHeaders[b]
  {}

  /** The dictionary after the port table and after the byte table. */
  function AfterPorts(lines: seq<string>): Dict<string> {
    var pr := PortRows(lines);
    AssignAll(PortHeaders, Keys(pr), Values(pr), [], 0)
  }

  function AfterBytes(lines: seq<string>): Dict<string> {
    AssignAll(ByteHeaders, Keys(PortRows(lines)), ByteRows(lines), AfterPorts(lines), 0)
  }

  lemma FinalSteps(lines: seq<string>)
    ensures FinalResult(lines) == AssignAll(VlanHeaders, Keys(PortRows(lines)), VlanRows(lines), AfterBytes(lines), 0)
  {}

  /** The port-table cell of port `i` under header `j` holds that port's
      `j`th value (when the ports are distinct). */
  lemma FinalPortCell(lines: seq<string>, i: nat, j: nat)
    requires Distinct(Keys(PortRows(lines)))
    requires i < |PortRows(lines)| && j < |PortHeaders| && j < |PortRows(lines)[i].1|
    ensures Get(FinalResult(lines), CellKey(PortHeaders[j], PortRows(lines)[i].0)) == Some(PortRows(lines)[i].1[j])
  {
    var pr := PortRows(lines);
    var ports := Keys(pr);
    var key := CellKey(PortHeaders[j], ports[i]);
    assert Get(AfterPorts(lines), key) == Some(pr[i].1[j]) by {
      PortHeadersDistinct();
      PortHeadersNoUnderscore();
      AssignAllCell(PortHeaders, ports, Values(pr), [], 0, i, j);
    }
    assert Get(AfterBytes(lines), key) == Get(AfterPorts(lines), key) by {
      PortHeadersNoUnderscore();
      ByteHeadersDistinct();
      PortByteApart();
      CellSurvives(PortHeaders, ByteHeaders, ports, ByteRows(lines), AfterPorts(lines), j, ports[i]);
    }
    assert Get(FinalResult(lines), key) == Get(AfterBytes(lines), key) by {
      PortHeadersNoUnderscore();
      VlanHeadersNoUnderscore();
      PortVlanApart();
      CellSurvives(PortHeaders, VlanHeaders, ports, VlanRows(lines), AfterBytes(lines), j, ports[i]);
      FinalSteps(lines);
    }
  }

  /** The byte-table row at position `i` belongs to the `i`th port, whatever
      its own text says: rows are matched to ports by position. */
  lemma FinalByteCell(lines: seq<string>, i: nat, j: nat)
    requires Distinct(Keys(PortRows(lines)))
    requires i < |PortRows(lines)| && i < |ByteRows(lines)| && j < |ByteHeaders| && j < |ByteRows(lines)[i]|
    ensures Get(FinalResult(lines), CellKey(ByteHeaders[j], PortRows(lines)[i].0)) == Some(ByteRows(lines)[i][j])
  {
    var ports := Keys(PortRows(lines));
    var key := CellKey(ByteHeaders[j], ports[i]);
    assert Get(AfterBytes(lines), key) == Some(ByteRows(lines)[i][j]) by {
      ByteHeadersDistinct();
      AssignAllCell(ByteHeaders, ports, ByteRows(lines), AfterPorts(lines), 0, i, j);
    }
    assert Get(FinalResult(lines), key) == Get(AfterBytes(lines), key) by {
      ByteHeadersDistinct();
      VlanHeadersNoUnderscore();
      ByteVlanApart();
      CellSurvives(ByteHeaders, VlanHeaders, ports, VlanRows(lines), AfterBytes(lines), j, ports[i]);
      FinalSteps(lines);
    }
  }

  /** Likewise the VLAN-table row at position `i`. */
  lemma FinalVlanCell(lines: seq<string>, i: nat, j: nat)
    requires Distinct(Keys(PortRows(lines)))
    requires i < |PortRows(lines)| && i < |VlanRows(lines)| && j < |VlanHeaders| && j < |VlanRows(lines)[i]|
    ensures Get(FinalResult(lines), CellKey(VlanHeaders[j], PortRows(lines)[i].0)) == Some(VlanRows(lines)[i][j])
  {
    VlanHeadersDistinct();
    VlanHeadersNoUnderscore();
    AssignAllCell(VlanHeaders, Keys(PortRows(lines)), VlanRows(lines), AfterBytes(lines), 0, i, j);
    FinalSteps(lines);
  }

  /** Only cell keys of the scanned ports occur: in particular a log with no
      port table gives no entries at all, whatever its other tables hold. */
  lemma FinalOnlyCells(lines: seq<string>, k: string)
    requires forall x, y :: 0 <= x < |PortRows(lines)| && 0 <= y < |PortHeaders| ==> CellKey(PortHeaders[y], PortRows(lines)[x].0) != k
    requires forall x, y :: 0 <= x < |PortRows(lines)| && 0 <= y < |ByteHeaders| ==> CellKey(ByteHeaders[y], PortRows(lines)[x].0) != k
    requires forall x, y :: 0 <= x < |PortRows(lines)| && 0 <= y < |VlanHeaders| ==> CellKey(VlanHeaders[y], PortRows(lines)[x].0) != k
    ensures Get(FinalResult(lines), k) == None
  {
    var pr := PortRows(lines);
    var ports := Keys(pr);
    assert Get(AfterPorts(lines), k) == None by {
      AssignAllUntouched(PortHeaders, ports, Values(pr), [], 0, k);
      assert Get<string>([], k) == None;
    }
    assert Get(AfterBytes(lines), k) == None by {
      AssignAllUntouched(ByteHeaders, ports, ByteRows(lines), AfterPorts(lines), 0, k);
    }
    AssignAllUntouched(VlanHeaders, ports, VlanRows(lines), AfterBytes(lines), 0, k);
    FinalSteps(lines);
  }

  /** A row adds at most one entry per header. */
  lemma {:induction false} AssignRowSize(headers: seq<string>, port: string, row: seq<string>, d: Dict<string>, j: nat)
    requires j <= |headers|
    ensures |AssignRow(headers, port, row, d, j)| <= |d| + (|headers| - j)
    decreases |headers| - j
  {
    if j < |headers| && j < |row| {
      var d' := Put(d, CellKey(headers[j], port), row[j]);
      assert |d'| <= |d| + 1;
      AssignRowSize(headers, port, row, d', j + 1);
    } else if j < |headers| {
      AssignRowSize(headers, port, row, d, j + 1);
    }
  }

  /** A table adds at most one entry per port and header. */
  lemma {:induction false} AssignAllSize(headers: seq<string>, ports: seq<string>, rows: seq<seq<string>>,
                                       d: Dict<string>, i: nat)
    requires i <= |ports|
    ensures |AssignAll(headers, ports, rows, d, i)| <= |d| + (|ports| - i) * |headers|
    decreases |ports| - i
  {
    if i < |ports| {
      var d' := if i < |rows| then AssignRow(headers, ports[i], rows[i], d, 0) else d;
      if i < |rows| {
        AssignRowSize(headers, ports[i], rows[i], d, 0);
      }
      AssignAllSize(headers, ports, rows, d', i + 1);
      var m := |ports| - i - 1;
      assert (m + 1) * |headers| == m * |headers| + |headers|;
    }
  }

  /** The result holds at most 12 + 5 + 7 entries per port. */
  lemma FinalResultSize(lines: seq<string>)
    ensures |FinalResult(lines)| <= |PortRows(lines)| * (|PortHeaders| + |ByteHeaders| + |VlanHeaders|)
    ensures |FinalResult(lines)| <= |PortRows(lines)| * 24
  {
    var pr := PortRows(lines);
    var ports := Keys(pr);
    var n := |ports|;
    AssignAllSize(PortHeaders, ports, Values(pr), [], 0);
    AssignAllSize(ByteHeaders, ports, ByteRows(lines), AfterPorts(lines), 0);
    AssignAllSize(VlanHeaders, ports, VlanRows(lines), AfterBytes(lines), 0);
    FinalSteps(lines);
    assert n * 12 + n * 5 + n * 7 == n * 24;
  }

  // ---------------------------------------------------------------------
  // Stream counters
  // ---------------------------------------------------------------------

  const StreamHeaders: seq<string> :=
    ["TxPackets", "RxPackets", "TxBytes", "RxBytes", "RxLostPacket", "RxSNError", "RxIPCsError"]

  predicate IsSPortHeader(line: string) {
    StartsWith(Trim(line), "SPort")
  }

  /** A stream-table line: the end of the table (blank or `-----`), or the
      match values of `dataRegex` in the trimmed line. */
  datatype StreamLine = StreamStop | StreamMatches(m: seq<string>)

  function StreamKind(line: string): (r: StreamLine)
    ensures r.StreamMatches? ==> forall k :: 0 <= k < |r.m| ==> IsStreamToken(r.m[k])
  {
    var t := Trim(line);
    if |t| == 0 || StartsWith(t, "-----") then StreamStop else StreamMatches(StreamTokens(t))
  }

  /** The key `{header}({sPort})({dPort})`. */
  function StreamKey(h: string, s: string, t: string): string {
    h + "(" + s + ")(" + t + ")"
  }

  /** The stream key names its header uniquely among one row's keys. */
  lemma StreamKeySameRow(h1: string, h2: string, s: string, t: string)
    requires StreamKey(h1, s, t) == StreamKey(h2, s, t)
    ensures h1 == h2
  {
    assert |h1| == |h2|;
    assert StreamKey(h1, s, t)[..|h1|] == h1;
    assert StreamKey(h2, s, t)[..|h2|] == h2;
  }

  lemma StreamHeadersDistinct() ensures Distinct(StreamHeaders) {}

  /** The assignments of one kept row `m` under the headers `hs`, from
      header `j` on. */
  function StreamPut(hs: seq<string>, d: Dict<string>, m: seq<string>, j: nat): Dict<string>
    requires |m| >= 2 + |hs|
    decreases |hs| - j
  {
    if j >= |hs| then d
    else StreamPut(hs, Put(d, StreamKey(hs[j], m[0], m[1]), m[2 + j]), m, j + 1)
  }

  /** The loop from the first data line on: a stop line ends it, a row with
      fewer values than two plus the headers is skipped. */
  function StreamRun(kind: string -> StreamLine, hs: seq<string>, d: Dict<string>, lines: seq<string>): Dict<string>
    decreases |lines|
  {
    if |lines| == 0 then d
    else
      match kind(lines[0])
      case StreamStop => d
      case StreamMatches(m) =>
        if |m| < 2 + |hs| then StreamRun(kind, hs, d, lines[1..])
        else StreamRun(kind, hs, StreamPut(hs, d, m, 0), lines[1..])
  }

  /** The dictionary `GetStreamCounterResults` returns: empty without an
      `SPort` header, else the rows from two lines below it. */
  function StreamCounters(lines: seq<string>): Dict<string> {
    var h := FindIndexFrom(IsSPortHeader, lines, 0);
    if h == -1 || h + 2 >= |lines| then [] else StreamRun(StreamKind, StreamHeaders, [], lines[h + 2..])
  }

  method GetStreamCounterResults(lines: seq<string>) returns (r: Dict<string>)
    ensures r == StreamCounters(lines)
  {
    var h := FindIndex(IsSPortHeader, lines);
    if h == -1 || h + 2 >= |lines| {
      return [];
    }
    r := StreamRows(StreamKind, StreamHeaders, lines, h + 2);
  }

  /** The row loop of `GetStreamCounterResults`, from line `start` on. */
  method StreamRows(kind: string -> StreamLine, hs: seq<string>, lines: seq<string>, start: nat)
    returns (r: Dict<string>)
    requires start <= |lines|
    ensures r == StreamRun(kind, hs, [], lines[start..])
  {
    r := [];
    var i := start;
    while i < |lines|
      invariant start <= i <= |lines|
      invariant StreamRun(kind, hs, r, lines[i..]) == StreamRun(kind, hs, [], lines[start..])
    {
      var line := kind(lines[i]);
      if line.StreamStop? {
        assert StreamRun(kind, hs, r, lines[i..]) == r by { StreamRunCons(kind, hs, r, lines, i); }
        break;
      }
      var matches := line.m;
      if |matches| < 2 + |hs| {
        assert StreamRun(kind, hs, r, lines[i..]) == StreamRun(kind, hs, r, lines[i + 1..]) by {
          StreamRunCons(kind, hs, r, lines, i);
        }
        i := i + 1;
        continue;
      }
      assert StreamRun(kind, hs, r, lines[i..]) == StreamRun(kind, hs, StreamPut(hs, r, matches, 0), lines[i + 1..]) by {
        StreamRunCons(kind, hs, r, lines, i);
      }
      r := PutStreamRow(hs, r, matches);
      i := i + 1;
    }
    if i == |lines| {
      assert lines[i..] == [];
    }
  }

  /** The inner loop: one kept row's counters. */
  method PutStreamRow(hs: seq<string>, d: Dict<string>, m: seq<string>) returns (r: Dict<string>)
    requires |m| >= 2 + |hs|
    ensures r == StreamPut(hs, d, m, 0)
  {
    r := d;
    for j := 0 to |hs|
      invariant StreamPut(hs, r, m, j) == StreamPut(hs, d, m, 0)
    {
      r := PutStreamCell(hs, r, m, j);
    }
  }

  /** One pass of the inner loop: the counter under header `j`. */
  method PutStreamCell(hs: seq<string>, d: Dict<string>, m: seq<string>, j: nat) returns (r: Dict<string>)
    requires |m| >= 2 + |hs| && j < |hs|
    ensures StreamPut(hs, r, m, j + 1) == StreamPut(hs, d, m, j)
  {
    var key := StreamKey(hs[j], m[0], m[1]);
    r := Put(d, key, m[2 + j]);
  }

  lemma StreamRunCons(kind: string -> StreamLine, hs: seq<string>, d: Dict<string>, lines: seq<string>, i: nat)
    requires i < |lines|
    ensures StreamRun(kind, hs, d, lines[i..]) ==
      match kind(lines[i])
      case StreamStop => d
      case StreamMatches(m) =>
        if |m| < 2 + |hs| then StreamRun(kind, hs, d, lines[i + 1..])
        else StreamRun(kind, hs, StreamPut(hs, d, m, 0), lines[i + 1..])
  {
    assert lines[i..][0] == lines[i] && lines[i..][1..] == lines[i + 1..];
  }

  lemma {:induction false} StreamPutUntouched(hs: seq<string>, d: Dict<string>, m: seq<string>, j: nat, k: string)
    requires |m| >= 2 + |hs|
    requires forall x :: j <= x < |hs| ==> StreamKey(hs[x], m[0], m[1]) != k
    ensures Get(StreamPut(hs, d, m, j), k) == Get(d, k)
    decreases |hs| - j
  {
    if j < |hs| {
      StreamPutUntouched(hs, Put(d, StreamKey(hs[j], m[0], m[1]), m[2 + j]), m, j + 1, k);
    }
  }

  /** With distinct headers a kept row sets each of its counters: the one
      under header `j` of stream `(m[0], m[1])` is the row's value `m[2 + j]`. */
  lemma {:induction false} StreamPutCell(hs: seq<string>, d: Dict<string>, m: seq<string>, j0: nat, j: nat)
    requires Distinct(hs)
    requires |m| >= 2 + |hs| && j0 <= j < |hs|
    ensures Get(StreamPut(hs, d, m, j0), StreamKey(hs[j], m[0], m[1])) == Some(m[2 + j])
    decreases |hs| - j0
  {
    var d' := Put(d, StreamKey(hs[j0], m[0], m[1]), m[2 + j0]);
    if j0 < j {
      StreamPutCell(hs, d', m, j0 + 1, j);
    } else {
      forall x | j + 1 <= x < |hs|
        ensures StreamKey(hs[x], m[0], m[1]) != StreamKey(hs[j], m[0], m[1])
      {
        if StreamKey(hs[x], m[0], m[1]) == StreamKey(hs[j], m[0], m[1]) {
          StreamKeySameRow(hs[x], hs[j], m[0], m[1]);
        }
      }
      StreamPutUntouched(hs, d', m, j + 1, StreamKey(hs[j], m[0], m[1]));
    }
  }

  /** The seven counters of a kept row, under the source's headers. */
  lemma StreamRowCells(d: Dict<string>, m: seq<string>, j: nat)
    requires |m| >= 2 + |StreamHeaders| && j < |StreamHeaders|
    ensures Get(StreamPut(StreamHeaders, d, m, 0), StreamKey(StreamHeaders[j], m[0], m[1])) == Some(m[2 + j])
  {
    StreamHeadersDistinct();
    StreamPutCell(StreamHeaders, d, m, 0, j);
  }

  /** A stop line ends the table: nothing after it is read. */
  lemma {:induction false} StreamRunStops(kind: string -> StreamLine, hs: seq<string>, d: Dict<string>,
                                          a: seq<string>, b: seq<string>)
    requires |b| > 0 && kind(b[0]) == StreamStop
    ensures StreamRun(kind, hs, d, a + b) == StreamRun(kind, hs, d, a)
    decreases |a|
  {
    if |a| == 0 {
      assert a + b == b;
    } else {
      assert (a + b)[0] == a[0] && (a + b)[1..] == a[1..] + b;
      match kind(a[0])
      case StreamStop =>
      case StreamMatches(m) =>
        if |m| < 2 + |hs| {
          StreamRunStops(kind, hs, d, a[1..], b);
        } else {
          StreamRunStops(kind, hs, StreamPut(hs, d, m, 0), a[1..], b);
        }
    }
  }

  /** Rows with too few values contribute nothing. */
  lemma {:induction false} StreamRunSkipsShort(kind: string -> StreamLine, hs: seq<string>, d: Dict<string>,
                                               a: seq<string>, line: string, b: seq<string>)
    requires kind(line).StreamMatches? && |kind(line).m| < 2 + |hs|
    ensures StreamRun(kind, hs, d, a + [line] + b) == StreamRun(kind, hs, d, a + b)
    decreases |a|
  {
    if |a| == 0 {
      assert a + [line] + b == [line] + b && a + b == b;
      assert ([line] + b)[1..] == b;
    } else {
      assert (a + [line] + b)[0] == a[0] && (a + [line] + b)[1..] == a[1..] + [line] + b;
      assert (a + b)[0] == a[0] && (a + b)[1..] == a[1..] + b;
      match kind(a[0])
      case StreamStop =>
      case StreamMatches(m) =>
        if |m| < 2 + |hs| {
          StreamRunSkipsShort(kind, hs, d, a[1..], line, b);
        } else {
          StreamRunSkipsShort(kind, hs, StreamPut(hs, d, m, 0), a[1..], line, b);
        }
    }
  }

  /** `k` has the shape of a counter key under one of `hs`. */
  ghost predicate IsStreamKey(hs: seq<string>, k: string) {
    exists j, s, t :: 0 <= j < |hs| && k == StreamKey(hs[j], s, t)
  }

  lemma {:induction false} StreamRunUntouched(kind: string -> StreamLine, hs: seq<string>, d: Dict<string>,
                                              lines: seq<string>, k: string)
    requires !IsStreamKey(hs, k)
    ensures Get(StreamRun(kind, hs, d, lines), k) == Get(d, k)
    decreases |lines|
  {
    if |lines| > 0 {
      match kind(lines[0])
      case StreamStop =>
      case StreamMatches(m) =>
        if |m| < 2 + |hs| {
          StreamRunUntouched(kind, hs, d, lines[1..], k);
        } else {
          forall x | 0 <= x < |hs| ensures StreamKey(hs[x], m[0], m[1]) != k {
          }
          StreamPutUntouched(hs, d, m, 0, k);
          StreamRunUntouched(kind, hs, StreamPut(hs, d, m, 0), lines[1..], k);
        }
    }
  }

  /** Every entry is a counter key `{header}({sPort})({dPort})`. */
  lemma StreamCountersKeys(lines: seq<string>, k: string)
    requires !IsStreamKey(StreamHeaders, k)
    ensures Get(StreamCounters(lines), k) == None
  {
    var h := FindIndexFrom(IsSPortHeader, lines, 0);
    if h != -1 && h + 2 < |lines| {
      StreamRunUntouched(StreamKind, StreamHeaders, [], lines[h + 2..], k);
    }
    assert Get<string>([], k) == None;
  }
}
