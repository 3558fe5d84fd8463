/** The records of `FileParser/PoENetworkData.cs`: one PoE report per serial
    number, holding one network task per log section, each holding one task
    section per field. They are mutable objects; a nullable property is an
    `Option`. */
module PoeData {
  import Outcomes
  import opened OrderedDict

  /** The chart a task section is drawn in, in declaration order. */
  datatype NetworkChartType =
    | TestDuration
    | TxPacketsVSRxPackets
    | FrameSizeDis
    | LatencyPerTest
    | TxLineRateVsTestName
    | ErrorCounts
    | None

  /** Every member, in declaration order. */
  const AllChartTypes: seq<NetworkChartType> :=
    [TestDuration, TxPacketsVSRxPackets, FrameSizeDis, LatencyPerTest,
     TxLineRateVsTestName, ErrorCounts, None]

  /** The underlying integer value of a member. */
  function Ordinal(t: NetworkChartType): (r: nat)
    ensures r < |AllChartTypes| && AllChartTypes[r] == t
  {
    match t
    case TestDuration => 0
    case TxPacketsVSRxPackets => 1
    case FrameSizeDis => 2
    case LatencyPerTest => 3
    case TxLineRateVsTestName => 4
    case ErrorCounts => 5
    case None => 6
  }

  /** The enum has exactly seven members, each listed once, in declaration order. */
  lemma ChartTypesAreSevenInOrder()
    ensures |AllChartTypes| == 7
    ensures forall t: NetworkChartType :: t in AllChartTypes
    ensures forall i :: 0 <= i < |AllChartTypes| ==> Ordinal(AllChartTypes[i]) == i
  {
    forall t: NetworkChartType ensures t in AllChartTypes {
      assert AllChartTypes[Ordinal(t)] == t;
    }
  }

  /** `ToString()` of a member: its declared name. */
  function ChartTypeName(t: NetworkChartType): (r: string)
    ensures |r| > 0
  {
    match t
    case TestDuration => "TestDuration"
    case TxPacketsVSRxPackets => "TxPacketsVSRxPackets"
    case FrameSizeDis => "FrameSizeDis"
    case LatencyPerTest => "LatencyPerTest"
    case TxLineRateVsTestName => "TxLineRateVsTestName"
    case ErrorCounts => "ErrorCounts"
    case None => "None"
  }

  /** `Enum.TryParse` of a declared name. */
  function ParseChartType(s: string): (r: Outcomes.Option<NetworkChartType>)
  {
    if s == "TestDuration" then Outcomes.Some(TestDuration)
    else if s == "TxPacketsVSRxPackets" then Outcomes.Some(TxPacketsVSRxPackets)
    else if s == "FrameSizeDis" then Outcomes.Some(FrameSizeDis)
    else if s == "LatencyPerTest" then Outcomes.Some(LatencyPerTest)
    else if s == "TxLineRateVsTestName" then Outcomes.Some(TxLineRateVsTestName)
    else if s == "ErrorCounts" then Outcomes.Some(ErrorCounts)
    else if s == "None" then Outcomes.Some(None)
    else Outcomes.None
  }

  /** The name stored in `TaskSection.NetworkChartType` identifies the member:
      parsing it back gives the member, so no two members share a name. */
  lemma ChartTypeNameRoundTrip(t: NetworkChartType)
    ensures ParseChartType(ChartTypeName(t)) == Outcomes.Some(t)
  {
  }

  lemma ChartTypeNameInjective(t: NetworkChartType, u: NetworkChartType)
    requires ChartTypeName(t) == ChartTypeName(u)
    ensures t == u
  {
    ChartTypeNameRoundTrip(t);
    ChartTypeNameRoundTrip(u);
  }

  /** The serialised image of a `TaskSection`, a `NetworkTask` and a
      `PowerOverEthernetTask`: their properties as plain values. */
  datatype SectionRecord = SectionRecord(
    name: Outcomes.Option<string>, value: Outcomes.Option<string>, isDataSet: bool, networkChartType: string)

  datatype TaskRecord = TaskRecord(
    name: Outcomes.Option<string>, status: Outcomes.Option<string>, taskSections: seq<SectionRecord>)

  datatype UnitRecord = UnitRecord(
    serialNumber: Outcomes.Option<string>, summaryData: Outcomes.Option<Dict<string>>,
    networkTasks: seq<TaskRecord>, hasPassed: bool)

  function SectionViews(ss: seq<TaskSection>): (r: seq<SectionRecord>)
    ensures |r| == |ss| && forall k :: 0 <= k < |ss| ==> r[k] == ss[k].View()
  {
    if |ss| == 0 then [] else [ss[0].View()] + SectionViews(ss[1..])
  }

  function TaskViews(ts: seq<NetworkTask>): (r: seq<TaskRecord>)
    reads ts
    ensures |r| == |ts| && forall j :: 0 <= j < |ts| ==> r[j] == ts[j].View()
  {
    if |ts| == 0 then [] else [ts[0].View()] + TaskViews(ts[1..])
  }

  /** `NetworkTask.TaskSection`: one field of a section. The chart type is
      kept as the member's name, a string. Its properties are set once, by
      the object initializer, and never written again. */
  class TaskSection {
    const name: Outcomes.Option<string>
    const value: Outcomes.Option<string>
    const isDataSet: bool
    const networkChartType: string

    /** The object initializer `new TaskSection { Name, Value, IsDataSet,
        NetworkChartType }`. */
    constructor (name: string, value: string, isDataSet: bool, chartType: NetworkChartType)
      ensures this.name == Outcomes.Some(name) && this.value == Outcomes.Some(value)
      ensures this.isDataSet == isDataSet
      ensures this.networkChartType == ChartTypeName(chartType)
    {
      this.name := Outcomes.Some(name);
      this.value := Outcomes.Some(value);
      this.isDataSet := isDataSet;
      this.networkChartType := ChartTypeName(chartType);
    }

    function View(): SectionRecord
    {
      SectionRecord(name, value, isDataSet, networkChartType)
    }
  }

  /** One section (task) of a PoE log. */
  class NetworkTask {
    var name: Outcomes.Option<string>
    var status: Outcomes.Option<string>
    var taskSections: seq<TaskSection>

    /** The constructor allocates an empty section list; the nullable
        properties start unset. */
    constructor ()
      ensures name == Outcomes.None && status == Outcomes.None
      ensures taskSections == []
    {
      name := Outcomes.None;
      status := Outcomes.None;
      taskSections := [];
    }

    function View(): TaskRecord
      reads this
    {
      TaskRecord(name, status, SectionViews(taskSections))
    }

    /** The task's view is `rec`, stated field by field. */
    predicate Shows(rec: TaskRecord)
      reads this
      ensures Shows(rec) ==> View() == rec
    {
      name == rec.name && status == rec.status && |taskSections| == |rec.taskSections|
      && forall k :: 0 <= k < |taskSections| ==> taskSections[k].View() == rec.taskSections[k]
    }
  }

  /** The report of one unit (one serial number). */
  class PowerOverEthernetTask {
    var serialNumber: Outcomes.Option<string>
    var summaryData: Outcomes.Option<Dict<string>>
    var networkTasks: seq<NetworkTask>
    var hasPassed: bool

    /** The constructor allocates an empty task list; `HasPassed` starts
        false and the nullable properties unset. */
    constructor ()
      ensures serialNumber == Outcomes.None && summaryData == Outcomes.None
      ensures networkTasks == [] && !hasPassed
    {
      serialNumber := Outcomes.None;
      summaryData := Outcomes.None;
      networkTasks := [];
      hasPassed := false;
    }

    function View(): UnitRecord
      reads this, networkTasks
    {
      UnitRecord(serialNumber, summaryData, TaskViews(networkTasks), hasPassed)
    }

    /** `NetworkTasks.Add(task)`. */
    method AddNetworkTask(task: NetworkTask)
      modifies this
      ensures networkTasks == old(networkTasks) + [task]
      ensures serialNumber == old(serialNumber) && summaryData == old(summaryData)
      ensures hasPassed == old(hasPassed)
    {
      networkTasks := networkTasks + [task];
    }
  }
}
