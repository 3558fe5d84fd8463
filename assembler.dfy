/** `ConvertToJsonPoE` (FileParser/Program.cs): the record assembly that
    turns the driver's collected lists into one `PowerOverEthernetTask` per
    serial number, one `NetworkTask` per log section and one `TaskSection`
    per header. Field names come from one shared header list and are paired
    with each section's values by position. */
module PoeAssembly {
  import opened Outcomes
  import opened OrderedDict
  import PoeData
  import Classifier

  /** A log section's name and its six tables, as the driver stores them. */
  type SectionTables = (string, seq<Dict<string>>)

  /** The tables of a section laid end to end; `SelectMany(x => x.Values)`
      enumerates this sequence's values. */
  function Flat(tables: seq<Dict<string>>): (r: Dict<string>)
    ensures |tables| == 0 ==> r == []
    decreases |tables|
  {
    if |tables| == 0 then [] else tables[0] + Flat(tables[1..])
  }

  /** The values of a section, in the order the header list pairs them with
      field names. */
  function SectionValues(item: SectionTables): seq<string> {
    Values(Flat(item.1))
  }

  /** The `k`th section record of a task: header `k` with the `k`th value;
      the value is a data set when it parses as a number. */
  function SectionSpec(headers: seq<string>, values: seq<string>, isNumber: string -> bool, k: nat): PoeData.SectionRecord
    requires k < |headers| && k < |values|
  {
    var num := isNumber(values[k]);
    PoeData.SectionRecord(Some(headers[k]), Some(values[k]), num,
                          PoeData.ChartTypeName(Classifier.SetChartTypeBasedOnName(headers[k], num)))
  }

  function SectionSpecs(headers: seq<string>, values: seq<string>, isNumber: string -> bool): (r: seq<PoeData.SectionRecord>)
    requires |headers| <= |values|
    ensures |r| == |headers| && forall k :: 0 <= k < |headers| ==> r[k] == SectionSpec(headers, values, isNumber, k)
  {
    seq(|headers|, k requires 0 <= k < |headers| => SectionSpec(headers, values, isNumber, k))
  }

  /** The task of one section, with its status. */
  function TaskSpec(headers: seq<string>, item: SectionTables, status: string, isNumber: string -> bool): PoeData.TaskRecord
    requires |headers| <= |SectionValues(item)|
  {
    PoeData.TaskRecord(Some(item.0), Some(status), SectionSpecs(headers, SectionValues(item), isNumber))
  }

  /** Building one unit throws nothing: its summary has a sixth entry, there
      is a status per section and every section has a value per header. */
  predicate UnitBuildable(data: seq<SectionTables>, headers: seq<string>, summary: Dict<string>, details: seq<string>) {
    |summary| >= 6 && |data| <= |details| && forall j :: 0 <= j < |data| ==> |headers| <= |SectionValues(data[j])|
  }

  function UnitSpec(sn: string, data: seq<SectionTables>, headers: seq<string>, summary: Dict<string>,
                    details: seq<string>, isNumber: string -> bool): (u: PoeData.UnitRecord)
    requires UnitBuildable(data, headers, summary, details)
    ensures u.serialNumber == Some(sn) && u.summaryData == Some(summary)
    ensures |u.networkTasks| == |data|
    ensures u.hasPassed <==> summary[5].1 == "Pass"
    ensures forall j :: 0 <= j < |data| ==>
      u.networkTasks[j].name == Some(data[j].0) && u.networkTasks[j].status == Some(details[j])
      && |u.networkTasks[j].taskSections| == |headers|
  {
    PoeData.UnitRecord(Some(sn), Some(summary),
      seq(|data|, j requires 0 <= j < |data| => TaskSpec(headers, data[j], details[j], isNumber)),
      summary[5].1 == "Pass")
  }

  /** Every unit can be built: the lists agree in length and no indexer is
      out of range. */
  predicate Buildable(sns: seq<string>, allData: seq<seq<SectionTables>>, headers: seq<string>,
                      sums: seq<Dict<string>>, details: seq<seq<string>>) {
    |sns| == |sums| && |sns| <= |allData| && |sns| <= |details|
    && forall i :: 0 <= i < |sns| ==> UnitBuildable(allData[i], headers, sums[i], details[i])
  }

  /** What `ConvertToJsonPoE` builds: nothing (`None`) when the serial and
      summary counts differ, an `ArgumentOutOfRangeException` when an
      indexer or `ElementAt(5)` is out of range, else one unit per serial. */
  function Assemble(sns: seq<string>, allData: seq<seq<SectionTables>>, headers: seq<string>,
                    sums: seq<Dict<string>>, details: seq<seq<string>>, isNumber: string -> bool)
    : (r: Result<Option<seq<PoeData.UnitRecord>>>)
    ensures r == Ok(None) <==> |sns| != |sums|
    ensures r.Err? <==> |sns| == |sums| && !Buildable(sns, allData, headers, sums, details)
    ensures r.Err? ==> r.fault == ArgumentOutOfRange
    ensures r.Ok? && r.value.Some? ==> |r.value.value| == |sns|
  {
    if |sns| != |sums| then Ok(None)
    else if !Buildable(sns, allData, headers, sums, details) then Err(ArgumentOutOfRange)
    else Ok(Some(seq(|sns|, i requires 0 <= i < |sns| =>
                     UnitSpec(sns[i], allData[i], headers, sums[i], details[i], isNumber))))
  }

  method ConvertToJsonPoE(sns: seq<string>, allData: seq<seq<SectionTables>>, headers: seq<string>,
                          sums: seq<Dict<string>>, details: seq<seq<string>>, isNumber: string -> bool)
    returns (r: Result<Option<seq<PoeData.PowerOverEthernetTask>>>)
    ensures r.Err? <==> Assemble(sns, allData, headers, sums, details, isNumber).Err?
    ensures r.Err? ==> r.fault == ArgumentOutOfRange
    ensures r == Ok(None) <==> Assemble(sns, allData, headers, sums, details, isNumber) == Ok(None)
    ensures r.Ok? && r.value.Some? ==>
      var us := Assemble(sns, allData, headers, sums, details, isNumber).value.value;
      |r.value.value| == |us| && forall i :: 0 <= i < |us| ==> r.value.value[i].View() == us[i]
  {
    if |sns| != |sums| {
      return Ok(None);
    }
    var list := BuildUnits(sns, allData, headers, sums, details, isNumber);
    if list.Err? {
      return Err(ArgumentOutOfRange);
    }
    r := Ok(Some(list.value));
  }

  /** The loop over the serial numbers, one unit each. */
  method BuildUnits(sns: seq<string>, allData: seq<seq<SectionTables>>, headers: seq<string>,
                    sums: seq<Dict<string>>, details: seq<seq<string>>, isNumber: string -> bool)
    returns (r: Result<seq<PoeData.PowerOverEthernetTask>>)
    requires |sns| == |sums|
    ensures r.Err? <==> !Buildable(sns, allData, headers, sums, details)
    ensures r.Ok? ==> |r.value| == |sns| && forall i :: 0 <= i < |sns| ==>
      r.value[i].View() == UnitSpec(sns[i], allData[i], headers, sums[i], details[i], isNumber)
  {
    var list: seq<PoeData.PowerOverEthernetTask> := [];
    for i := 0 to |sns|
      invariant i <= |allData| && i <= |details|
      invariant forall i' :: 0 <= i' < i ==> UnitBuildable(allData[i'], headers, sums[i'], details[i'])
      invariant |list| == i
      invariant forall i' :: 0 <= i' < i ==>
        list[i'].View() == UnitSpec(sns[i'], allData[i'], headers, sums[i'], details[i'], isNumber)
    {
      if i >= |allData| {
        return Err(ArgumentOutOfRange);
      }
      var summary := sums[i];
      if |summary| < 6 {
        return Err(ArgumentOutOfRange);
      }
      if i >= |details| {
        return Err(ArgumentOutOfRange);
      }
      var u := BuildUnit(sns[i], allData[i], headers, summary, details[i], isNumber);
      if u.Err? {
        return Err(ArgumentOutOfRange);
      }
      ghost var prev := list;
      list := list + [u.value];
      forall i' | 0 <= i' < i + 1
        ensures list[i'].View() == UnitSpec(sns[i'], allData[i'], headers, sums[i'], details[i'], isNumber)
      {
        if i' < i {
          assert list[i'] == prev[i'];
        }
      }
    }
    r := Ok(list);
  }

  /** The body of the outer loop: one unit and its tasks. */
  method BuildUnit(sn: string, data: seq<SectionTables>, headers: seq<string>, summary: Dict<string>,
                   details: seq<string>, isNumber: string -> bool)
    returns (u: Result<PoeData.PowerOverEthernetTask>)
    requires |summary| >= 6
    ensures u.Err? <==> !UnitBuildable(data, headers, summary, details)
    ensures u.Ok? ==> u.value.View() == UnitSpec(sn, data, headers, summary, details, isNumber)
  {
    var poeTask := new PoeData.PowerOverEthernetTask();
    poeTask.serialNumber := Some(sn);
    poeTask.summaryData := Some(summary);
    poeTask.hasPassed := summary[5].1 == "Pass";
    var ok := AddTasks(poeTask, data, headers, details, isNumber);
    if !ok {
      return Err(ArgumentOutOfRange);
    }
    u := Ok(poeTask);
  }

  /** The loop over a unit's sections, adding one task per section to
      `poeTask`; false when an indexer throws. */
  method AddTasks(poeTask: PoeData.PowerOverEthernetTask, data: seq<SectionTables>, headers: seq<string>,
                  details: seq<string>, isNumber: string -> bool)
    returns (ok: bool)
    requires poeTask.networkTasks == []
    modifies poeTask
    ensures ok <==> |data| <= |details| && forall j :: 0 <= j < |data| ==> |headers| <= |SectionValues(data[j])|
    ensures poeTask.serialNumber == old(poeTask.serialNumber) && poeTask.summaryData == old(poeTask.summaryData)
    ensures poeTask.hasPassed == old(poeTask.hasPassed)
    ensures ok ==> |poeTask.networkTasks| == |data|
    ensures ok ==> forall j :: 0 <= j < |data| ==>
      poeTask.networkTasks[j].View() == TaskSpec(headers, data[j], details[j], isNumber)
  {
    var index := 0;
    for j := 0 to |data|
      invariant index == j && j <= |details|
      invariant forall j' :: 0 <= j' < j ==> |headers| <= |SectionValues(data[j'])|
      invariant poeTask.serialNumber == old(poeTask.serialNumber) && poeTask.summaryData == old(poeTask.summaryData)
      invariant poeTask.hasPassed == old(poeTask.hasPassed)
      invariant |poeTask.networkTasks| == j
      invariant forall j' :: 0 <= j' < j ==>
        poeTask.networkTasks[j'].Shows(TaskSpec(headers, data[j'], details[j'], isNumber))
    {
      var item := data[j];
      var values := SectionValues(item);
      if index >= |details| {
        return false;
      }
      var status := details[index];
      index := index + 1;
      var t := BuildTask(item.0, status, headers, values, isNumber);
      if t.Err? {
        return false;
      }
      ghost var rec := TaskSpec(headers, data[j], details[j], isNumber);
      assert t.value.Shows(rec);
      ghost var prev := poeTask.networkTasks;
      poeTask.AddNetworkTask(t.value);
      forall j' | 0 <= j' < j + 1
        ensures poeTask.networkTasks[j'].Shows(TaskSpec(headers, data[j'], details[j'], isNumber))
      {
        if j' < j {
          assert poeTask.networkTasks[j'] == prev[j'];
        } else {
          assert poeTask.networkTasks[j'] == t.value;
        }
      }
    }
    ok := true;
  }

  /** The body of the inner loop: one task and its sections. */
  method BuildTask(name: string, status: string, headers: seq<string>, values: seq<string>, isNumber: string -> bool)
    returns (t: Result<PoeData.NetworkTask>)
    ensures t.Err? <==> |values| < |headers|
    ensures t.Ok? ==>
      t.value.Shows(PoeData.TaskRecord(Some(name), Some(status), SectionSpecs(headers, values, isNumber)))
  {
    var networkTask := new PoeData.NetworkTask();
    networkTask.name := Some(name);
    networkTask.status := Some(status);
    var taskSections: seq<PoeData.TaskSection> := [];
    for k := 0 to |headers|
      invariant k <= |values| && |taskSections| == k
      invariant networkTask.name == Some(name) && networkTask.status == Some(status)
      invariant forall k' :: 0 <= k' < k ==> taskSections[k'].View() == SectionSpec(headers, values, isNumber, k')
    {
      if k >= |values| {
        return Err(ArgumentOutOfRange);
      }
      var fieldName := headers[k];
      var isDataset := isNumber(values[k]);
      var section := new PoeData.TaskSection(fieldName, values[k], isDataset,
                                             Classifier.SetChartTypeBasedOnName(fieldName, isDataset));
      taskSections := taskSections + [section];
    }
    networkTask.taskSections := taskSections;
    t := Ok(networkTask);
  }

  /** The chart type string each section record carries names the member
      the classifier picked for its header, and a value that is not a
      number is never charted. */
  lemma SectionChartRoundTrip(headers: seq<string>, values: seq<string>, isNumber: string -> bool, k: nat)
    requires k < |headers| && k < |values|
    ensures var r := SectionSpec(headers, values, isNumber, k);
      PoeData.ParseChartType(r.networkChartType)
        == Some(Classifier.SetChartTypeBasedOnName(headers[k], isNumber(values[k])))
      && (!r.isDataSet ==> r.networkChartType == "None")
      && r.isDataSet == isNumber(values[k])
  {
    PoeData.ChartTypeNameRoundTrip(Classifier.SetChartTypeBasedOnName(headers[k], isNumber(values[k])));
  }

  /** When a section's own keys begin with the shared header list, every
      section record pairs a header with the value stored under that very
      header in the section's tables. */
  lemma AlignedPairing(headers: seq<string>, item: SectionTables, status: string, isNumber: string -> bool, k: nat)
    requires |headers| <= |SectionValues(item)|
    requires Keys(Flat(item.1))[..|headers|] == headers
    requires k < |headers|
    ensures var r := TaskSpec(headers, item, status, isNumber).taskSections[k];
      r.name.Some? && r.value.Some? && (r.name.value, r.value.value) in Flat(item.1)
  {
    var f := Flat(item.1);
    assert Keys(f)[k] == headers[k];
    assert f[k] == (headers[k], SectionValues(item)[k]);
  }

  /** Field names and values are paired by position only: a section whose
      tables list the same keys in another order than the header list gets
      each value under the wrong name. */
  lemma MisalignedPairing(isNumber: string -> bool)
    ensures var item: SectionTables := ("S", [[("B", "1"), ("A", "2")]]);
      var r := TaskSpec(["A", "B"], item, "Pass", isNumber).taskSections;
      r[0].name == Some("A") && r[0].value == Some("1")
      && r[1].name == Some("B") && r[1].value == Some("2")
  {
    var item: SectionTables := ("S", [[("B", "1"), ("A", "2")]]);
    assert Flat(item.1) == [("B", "1"), ("A", "2")] + Flat([]);
  }
}
