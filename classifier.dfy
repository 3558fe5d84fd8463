/** `SetChartTypeBasedOnName` (FileParser/Program.cs): the chart a PoE field
    is drawn in, chosen from the field's name by case-insensitive prefix
    tests (`Regex.IsMatch(name, "^" + Regex.Escape(p), IgnoreCase)`). */
module Classifier {
  import opened Text
  import opened PoeData

  const TxRxPrefixes: seq<string> := ["TxPacket", "RxPacket"]
  const FramePrefixes: seq<string> :=
    ["64Byte_1", "65-127_1", "128-255Byte_1", "256-511Byte_1", "512-1023Byte_1"]
  const LatencyPrefixes: seq<string> := ["Latency CT(us)"]
  const ErrorPrefixes: seq<string> := ["IP Checksum Error", "RxSNError", "RxIPCsError"]
  const LineRatePrefixes: seq<string> := ["Tx Line Rate"]

  /** Some listed pattern matches at the start of `name`, ignoring case. */
  predicate AnyPrefix(name: string, patterns: seq<string>) {
    exists i :: 0 <= i < |patterns| && StartsWithIgnoreCase(name, patterns[i])
  }

  /** The classifier as the source writes it: a chain of tests, only for
      values that parsed as numbers. */
  function SetChartTypeBasedOnName(name: string, isDataset: bool): (r: NetworkChartType)
    ensures !isDataset ==> r == NetworkChartType.None
    ensures r != TestDuration
  {
    if !isDataset then NetworkChartType.None
    else if AnyPrefix(name, TxRxPrefixes) then TxPacketsVSRxPackets
    else if AnyPrefix(name, FramePrefixes) then FrameSizeDis
    else if AnyPrefix(name, LatencyPrefixes) then LatencyPerTest
    else if AnyPrefix(name, ErrorPrefixes) then ErrorCounts
    else if AnyPrefix(name, LineRatePrefixes) then TxLineRateVsTestName
    else NetworkChartType.None
  }

  /** A prefix group and the chart it selects. */
  datatype Group = Group(patterns: seq<string>, chart: NetworkChartType)

  /** The groups in the order they are tried. */
  const ChartGroups: seq<Group> := [
    Group(TxRxPrefixes, TxPacketsVSRxPackets),
    Group(FramePrefixes, FrameSizeDis),
    Group(LatencyPrefixes, LatencyPerTest),
    Group(ErrorPrefixes, ErrorCounts),
    Group(LineRatePrefixes, TxLineRateVsTestName)]

  /** Reference rule: the chart of the first group one of whose patterns
      matches, `None` when none does. */
  function FirstMatchingGroup(name: string, groups: seq<Group>): (r: NetworkChartType)
    ensures r == NetworkChartType.None || exists k :: 0 <= k < |groups| && r == groups[k].chart
    decreases |groups|
  {
    if |groups| == 0 then NetworkChartType.None
    else if AnyPrefix(name, groups[0].patterns) then groups[0].chart
    else
      var r := FirstMatchingGroup(name, groups[1..]);
      assert r != NetworkChartType.None ==> exists k :: 1 <= k < |groups| && r == groups[k].chart by {
        if r != NetworkChartType.None {
          var k :| 0 <= k < |groups[1..]| && r == groups[1..][k].chart;
          assert r == groups[k + 1].chart;
        }
      }
      r
  }

  /** The rule tries the first group, then the rest. */
  lemma FirstMatchingGroupCons(name: string, g: Group, rest: seq<Group>)
    ensures FirstMatchingGroup(name, [g] + rest)
      == if AnyPrefix(name, g.patterns) then g.chart else FirstMatchingGroup(name, rest)
  {
    assert ([g] + rest)[1..] == rest;
  }

  /** On a numeric value the classifier is the first-matching-group rule. */
  lemma ClassifierIsFirstMatchingGroup(name: string)
    ensures SetChartTypeBasedOnName(name, true) == FirstMatchingGroup(name, ChartGroups)
  {
    var g4: seq<Group> := [Group(LineRatePrefixes, TxLineRateVsTestName)];
    var g3 := [Group(ErrorPrefixes, ErrorCounts)] + g4;
    var g2 := [Group(LatencyPrefixes, LatencyPerTest)] + g3;
    var g1 := [Group(FramePrefixes, FrameSizeDis)] + g2;
    var g0 := [Group(TxRxPrefixes, TxPacketsVSRxPackets)] + g1;
    assert ChartGroups == g0;
    FirstMatchingGroupCons(name, Group(LineRatePrefixes, TxLineRateVsTestName), []);
    assert g4 == [Group(LineRatePrefixes, TxLineRateVsTestName)] + [];
    FirstMatchingGroupCons(name, Group(ErrorPrefixes, ErrorCounts), g4);
    FirstMatchingGroupCons(name, Group(LatencyPrefixes, LatencyPerTest), g3);
    FirstMatchingGroupCons(name, Group(FramePrefixes, FrameSizeDis), g2);
    FirstMatchingGroupCons(name, Group(TxRxPrefixes, TxPacketsVSRxPackets), g1);
  }

  /** Group `k` decides exactly when the value is numeric, one of its
      patterns matches and no earlier group's does; `None` results exactly
      when the value is not numeric or no group matches. */
  lemma ClassifierOutcome(name: string, isDataset: bool, k: nat)
    requires k < |ChartGroups|
    ensures SetChartTypeBasedOnName(name, isDataset) == ChartGroups[k].chart
        <==> isDataset && AnyPrefix(name, ChartGroups[k].patterns)
             && forall k' :: 0 <= k' < k ==> !AnyPrefix(name, ChartGroups[k'].patterns)
    ensures SetChartTypeBasedOnName(name, isDataset) == NetworkChartType.None
        <==> !isDataset || forall k' :: 0 <= k' < |ChartGroups| ==> !AnyPrefix(name, ChartGroups[k'].patterns)
  {
    var g := ChartGroups;
    if isDataset {
      assert AnyPrefix(name, g[0].patterns) == AnyPrefix(name, TxRxPrefixes);
      assert AnyPrefix(name, g[1].patterns) == AnyPrefix(name, FramePrefixes);
      assert AnyPrefix(name, g[2].patterns) == AnyPrefix(name, LatencyPrefixes);
      assert AnyPrefix(name, g[3].patterns) == AnyPrefix(name, ErrorPrefixes);
      assert AnyPrefix(name, g[4].patterns) == AnyPrefix(name, LineRatePrefixes);
    }
  }

  /** ASCII upper-casing of a whole name. */
  function UpperName(s: string): (r: string)
    ensures |r| == |s| && forall i :: 0 <= i < |s| ==> r[i] == UpperAscii(s[i])
  {
    seq(|s|, i requires 0 <= i < |s| => UpperAscii(s[i]))
  }

  lemma AnyPrefixUpper(name: string, patterns: seq<string>)
    ensures AnyPrefix(UpperName(name), patterns) == AnyPrefix(name, patterns)
  {
    var u := UpperName(name);
    forall i | 0 <= i < |patterns| && |patterns[i]| <= |name|
      ensures StartsWithIgnoreCase(u, patterns[i]) == StartsWithIgnoreCase(name, patterns[i])
    {
      var p := patterns[i];
      assert forall j :: 0 <= j < |p| ==> UpperAscii(u[..|p|][j]) == UpperAscii(name[..|p|][j]);
    }
  }

  /** The tests ignore case: upper-casing the name does not change its chart. */
  lemma ClassifierIgnoresCase(name: string, isDataset: bool)
    ensures SetChartTypeBasedOnName(UpperName(name), isDataset) == SetChartTypeBasedOnName(name, isDataset)
  {
    AnyPrefixUpper(name, TxRxPrefixes);
    AnyPrefixUpper(name, FramePrefixes);
    AnyPrefixUpper(name, LatencyPrefixes);
    AnyPrefixUpper(name, ErrorPrefixes);
    AnyPrefixUpper(name, LineRatePrefixes);
  }

  /** A frame-size key built by the final-result block, `65-127Byte_<port>`,
      never matches the pattern `65-127_1` (nor any other), so its chart is
      `None` even when the value is numeric. */
  lemma FrameKey65To127NeverCharted(port: string)
    ensures SetChartTypeBasedOnName("65-127Byte_" + port, true) == NetworkChartType.None
  {
    var name := "65-127Byte_" + port;
    NotPrefix(name, "TxPacket", 0);
    NotPrefix(name, "RxPacket", 0);
    NotPrefix(name, "64Byte_1", 1);
    NotPrefix(name, "65-127_1", 6);
    NotPrefix(name, "128-255Byte_1", 0);
    NotPrefix(name, "256-511Byte_1", 0);
    NotPrefix(name, "512-1023Byte_1", 0);
    NotPrefix(name, "Latency CT(us)", 0);
    NotPrefix(name, "IP Checksum Error", 0);
    NotPrefix(name, "RxSNError", 0);
    NotPrefix(name, "RxIPCsError", 0);
    NotPrefix(name, "Tx Line Rate", 0);
  }

  /** The other frame-size patterns end in `_1`: a `64Byte` key is charted only
      for ports whose id starts with `1`. */
  lemma FrameKey64Charted(port: string)
    requires |port| > 0
    ensures SetChartTypeBasedOnName("64Byte_" + port, true) == FrameSizeDis <==> port[0] == '1'
  {
    var name := "64Byte_" + port;
    NotPrefix(name, "TxPacket", 0);
    NotPrefix(name, "RxPacket", 0);
    if port[0] == '1' {
      assert StartsWithIgnoreCase(name, FramePrefixes[0]);
    } else {
      NotPrefix(name, "64Byte_1", 7);
      NotPrefix(name, "65-127_1", 1);
      NotPrefix(name, "128-255Byte_1", 0);
      NotPrefix(name, "256-511Byte_1", 0);
      NotPrefix(name, "512-1023Byte_1", 0);
      NotPrefix(name, "Latency CT(us)", 0);
      NotPrefix(name, "IP Checksum Error", 0);
      NotPrefix(name, "RxSNError", 0);
      NotPrefix(name, "RxIPCsError", 0);
      NotPrefix(name, "Tx Line Rate", 0);
    }
  }

  /** A per-port and a per-stream packet counter are drawn as Tx-vs-Rx charts
      when numeric, whatever their port suffix. */
  lemma PacketCountersCharted(suffix: string)
    ensures SetChartTypeBasedOnName("TxPacket_" + suffix, true) == TxPacketsVSRxPackets
    ensures SetChartTypeBasedOnName("RxPackets(" + suffix, true) == TxPacketsVSRxPackets
  {
    assert StartsWithIgnoreCase("TxPacket_" + suffix, TxRxPrefixes[0]);
    assert StartsWithIgnoreCase("RxPackets(" + suffix, TxRxPrefixes[1]);
  }

  /** `name` differs from `p` at index `i` (or is shorter), so `p` is no prefix. */
  lemma NotPrefix(name: string, p: string, i: nat)
    requires i < |p|
    requires i >= |name| || UpperAscii(name[i]) != UpperAscii(p[i])
    ensures !StartsWithIgnoreCase(name, p)
  {
    if |p| <= |name| {
      assert name[..|p|][i] == name[i];
    }
  }
}
