/** analyze_json_zip.py: listing the failed measurements of JSON test
    reports. Each report names its unit (`serialNumber`) and holds its
    measurements in one of three places; every measurement whose
    `hasPassed` is falsy is classified against its limits. The findings of
    all reports are sorted by unit, and the CSV writer puts one blank row
    between the groups of two units. */
module FailedMeasurements {
  import opened Outcomes
  import opened Text
  import opened OrderedDict

  // ---------------------------------------------------------------------
  // JSON values as Python sees them after `json.load`

  /** A JSON value; an object lists its members in document order, each
      key once. */
  datatype Json =
    | JNull
    | JBool(flag: bool)
    | JNum(number: real)
    | JStr(text: string)
    | JArr(items: seq<Json>)
    | JObj(members: Dict<Json>)

  /** Python truthiness. */
  predicate Truthy(v: Json) {
    match v
    case JNull => false
    case JBool(b) => b
    case JNum(x) => x != 0.0
    case JStr(s) => s != []
    case JArr(a) => a != []
    case JObj(m) => m != []
  }

  /** `d.get(key, default)` on a dict. */
  function Member(m: Dict<Json>, key: string, default: Json): (r: Json)
    ensures !HasKey(m, key) ==> r == default
    ensures HasKey(m, key) ==> Get(m, key) == Some(r)
  {
    Get(m, key).GetOr(default)
  }

  /** `v.get(key, default)`: only a dict has `get`. */
  function PyGet(v: Json, key: string, default: Json): (r: Result<Json>)
    ensures r.Err? <==> !v.JObj?
    ensures v.JObj? && !HasKey(v.members, key) ==> r == Ok(default)
    ensures v.JObj? && HasKey(v.members, key) ==> Get(v.members, key) == Some(r.value)
  {
    if v.JObj? then Ok(Get(v.members, key).GetOr(default)) else Err(PyAttributeError)
  }

  /** `for x in v`: a list gives its items, a string its characters and a
      dict its keys; anything else is not iterable. */
  function Iter(v: Json): (r: Result<seq<Json>>)
    ensures r.Err? <==> v.JNull? || v.JBool? || v.JNum?
    ensures v.JArr? ==> r == Ok(v.items)
    ensures r.Ok? ==> |r.value| == (match v case JArr(a) => |a| case JStr(s) => |s| case JObj(m) => |m| case _ => 0)
  {
    match v
    case JArr(a) => Ok(a)
    case JStr(s) => Ok(seq(|s|, i requires 0 <= i < |s| => JStr([s[i]])))
    case JObj(m) => Ok(seq(|m|, i requires 0 <= i < |m| => JStr(m[i].0)))
    case _ => Err(PyTypeError)
  }

  /** `float(v)` with ValueError and TypeError caught: `None` stands for
      the exception. Text goes through the given parser. */
  type FloatParser = string -> Option<real>

  function ToFloat(v: Json, toFloat: FloatParser): (r: Option<real>)
    ensures v.JNum? ==> r == Some(v.number)
    ensures v.JNull? || v.JArr? || v.JObj? ==> r.None?
  {
    match v
    case JNum(x) => Some(x)
    case JBool(b) => Some(if b then 1.0 else 0.0)
    case JStr(s) => toFloat(s)
    case _ => None
  }

  // ---------------------------------------------------------------------
  // The file-name stem: os.path.splitext(name)[0] (Windows path rules)

  predicate IsSep(c: char) {
    c == '\\' || c == '/'
  }

  /** The position of the last separator, or -1. */
  function LastSep(p: string): (r: int)
    ensures -1 <= r < |p|
    ensures r >= 0 ==> IsSep(p[r])
    ensures forall k :: r < k < |p| ==> !IsSep(p[k])
    decreases |p|
  {
    if |p| == 0 then -1 else if IsSep(p[|p| - 1]) then |p| - 1 else LastSep(p[..|p| - 1])
  }

  /** The position of the last '.', or -1. */
  function LastDot(p: string): (r: int)
    ensures -1 <= r < |p|
    ensures r >= 0 ==> p[r] == '.'
    ensures forall k :: r < k < |p| ==> p[k] != '.'
    decreases |p|
  {
    if |p| == 0 then -1 else if p[|p| - 1] == '.' then |p| - 1 else LastDot(p[..|p| - 1])
  }

  /** The last dot starts an extension unless everything between the last
      separator and it is dots (a name like ".profile" has none). */
  predicate HasExtAt(p: string, sep: int, dot: int)
    requires -1 <= sep && dot < |p|
  {
    dot > sep && exists k :: sep + 1 <= k < dot && p[k] != '.'
  }

  function Stem(p: string): (r: string)
    ensures |r| <= |p| && r == p[..|r|]
    ensures r != p ==> p[|r|] == '.' && forall k :: |r| < k < |p| ==> p[k] != '.' && !IsSep(p[k])
  {
    var sep := LastSep(p);
    var dot := LastDot(p);
    if HasExtAt(p, sep, dot) then p[..dot] else p
  }

  lemma {:induction false} LastSepAppend(a: string, t: string)
    requires forall k :: 0 <= k < |t| ==> !IsSep(t[k])
    ensures LastSep(a + t) == LastSep(a)
    decreases |t|
  {
    if |t| > 0 {
      var n := |t| - 1;
      assert (a + t)[..|a + t| - 1] == a + t[..n];
      LastSepAppend(a, t[..n]);
    } else {
      assert a + t == a;
    }
  }

  lemma {:induction false} LastDotAppend(a: string, t: string)
    requires |t| > 0 && t[0] == '.'
    requires forall k :: 0 < k < |t| ==> t[k] != '.'
    ensures LastDot(a + t) == |a|
    decreases |t|
  {
    if |t| > 1 {
      var n := |t| - 1;
      assert (a + t)[..|a + t| - 1] == a + t[..n];
      LastDotAppend(a, t[..n]);
    } else {
      assert (a + t)[|a|] == '.';
    }
  }

  /** A name with an extension gives back the name without it, provided
      its last path component holds something other than dots. */
  lemma StemDropsExtension(b: string, ext: string)
    requires |ext| > 0 && ext[0] == '.'
    requires forall k :: 0 < k < |ext| ==> ext[k] != '.' && !IsSep(ext[k])
    requires exists k :: LastSep(b) < k < |b| && b[k] != '.'
    ensures Stem(b + ext) == b
  {
    var p := b + ext;
    assert !IsSep(ext[0]);
    LastSepAppend(b, ext);
    LastDotAppend(b, ext);
    var k :| LastSep(b) < k < |b| && b[k] != '.';
    assert p[k] == b[k];
    var sep, dot := LastSep(p), LastDot(p);
    assert sep == LastSep(b) && dot == |b|;
    assert HasExtAt(p, sep, dot);
    assert p[..dot] == b;
  }

  // ---------------------------------------------------------------------
  // Classifying one measurement

  /** Where a value lies against its limits, with the (positive) distance. */
  datatype Status = Within | AboveUpper(deviation: real) | BelowLower(deviation: real)

  /** The upper limit is checked first. */
  function Classify(value: real, lower: Option<real>, upper: Option<real>): (s: Status)
    ensures s.AboveUpper? <==> upper.Some? && value > upper.value
    ensures s.AboveUpper? ==> s.deviation > 0.0 && value == upper.value + s.deviation
    ensures s.BelowLower? <==> !s.AboveUpper? && lower.Some? && value < lower.value
    ensures s.BelowLower? ==> s.deviation > 0.0 && value == lower.value - s.deviation
    ensures s.Within? <==> (upper.None? || value <= upper.value) && (lower.None? || value >= lower.value)
  {
    if upper.Some? && value > upper.value then AboveUpper(value - upper.value)
    else if lower.Some? && value < lower.value then BelowLower(lower.value - value)
    else Within
  }

  /** One row of the report. */
  datatype Failure = Failure(file: string, name: Json, value: real, lower: Option<real>, upper: Option<real>, status: Status)

  /** `float(x) if x is not None else None`; the outer `None` is the
      failed conversion. */
  function ToLimit(v: Json, toFloat: FloatParser): Option<Option<real>> {
    if v.JNull? then Some(None)
    else match ToFloat(v, toFloat)
      case None => None
      case Some(x) => Some(Some(x))
  }

  /** The row one measurement gives: nothing when it passed or a number
      fails to convert, a fault when it is not a dict. */
  function MeasureRow(file: string, measure: Json, toFloat: FloatParser): (r: Result<Option<Failure>>)
    ensures r.Err? <==> !measure.JObj?
    ensures r.Ok? && r.value.Some? ==> r.value.value.file == file
  {
    if !measure.JObj? then Err(PyAttributeError)
    else
      var m := measure.members;
      if Truthy(Member(m, "hasPassed", JBool(true))) then Ok(None)
      else
        var value := Member(m, "value", JNull);
        var upper := Member(m, "upperLimit", JNull);
        var lower := Member(m, "lowerLimit", JNull);
        match (ToFloat(value, toFloat), ToLimit(upper, toFloat), ToLimit(lower, toFloat))
        case (Some(v), Some(up), Some(lo)) =>
          Ok(Some(Failure(file, Member(m, "name", JNull), v, lo, up, Classify(v, lo, up))))
        case _ => Ok(None)
  }

  // ---------------------------------------------------------------------
  // Runs that stop at the first exception and keep what came before

  /** Rows appended so far and the exception that ended the run, if any. */
  datatype Partial = Partial(rows: seq<Failure>, fault: Option<Fault>)

  /** `acc` followed by the run `p`. */
  function Then(acc: seq<Failure>, p: Partial): Partial {
    Partial(acc + p.rows, p.fault)
  }

  /** The parts `k` to `n` one after another, up to the first one that
      raises. */
  function Chain(f: nat -> Partial, k: nat, n: nat): (r: Partial)
    decreases n - k
  {
    if k >= n then Partial([], None)
    else if f(k).fault.Some? then f(k)
    else Then(f(k).rows, Chain(f, k + 1, n))
  }

  lemma ChainStep(f: nat -> Partial, k: nat, n: nat, acc: seq<Failure>)
    requires k < n
    ensures f(k).fault.Some? ==> Then(acc, Chain(f, k, n)) == Then(acc, f(k))
    ensures f(k).fault.None? ==> Then(acc, Chain(f, k, n)) == Then(acc + f(k).rows, Chain(f, k + 1, n))
  {
    if f(k).fault.None? {
      assert acc + (f(k).rows + Chain(f, k + 1, n).rows) == (acc + f(k).rows) + Chain(f, k + 1, n).rows;
    }
  }

  lemma ChainStart(f: nat -> Partial, n: nat, acc: seq<Failure>)
    ensures Then(acc, Partial([], None)) == Partial(acc, None)
    ensures Then([], Chain(f, 0, n)) == Chain(f, 0, n)
  {
    assert acc + [] == acc;
    assert [] + Chain(f, 0, n).rows == Chain(f, 0, n).rows;
  }

  /** Every row of a run whose parts only give rows of `file` is of `file`. */
  lemma {:induction false} ChainFile(f: nat -> Partial, file: string, k: nat, n: nat)
    requires forall j :: k <= j < n ==> forall x :: x in f(j).rows ==> x.file == file
    ensures forall x :: x in Chain(f, k, n).rows ==> x.file == file
    decreases n - k
  {
    if k < n && f(k).fault.None? {
      ChainFile(f, file, k + 1, n);
    }
  }

  function OptionRows(o: Option<Failure>): seq<Failure> {
    if o.Some? then [o.value] else []
  }

  /** What measurement `k` adds, or the exception it raises. */
  function MeasureAt(file: string, ms: seq<Json>, toFloat: FloatParser, k: nat): Partial {
    if k >= |ms| then Partial([], None)
    else match MeasureRow(file, ms[k], toFloat)
      case Err(e) => Partial([], Some(e))
      case Ok(o) => Partial(OptionRows(o), None)
  }

  function MeasurePart(file: string, ms: seq<Json>, toFloat: FloatParser): nat -> Partial {
    (k: nat) => MeasureAt(file, ms, toFloat, k)
  }

  lemma MeasurePartAt(file: string, ms: seq<Json>, toFloat: FloatParser, k: nat)
    requires k < |ms|
    ensures MeasurePart(file, ms, toFloat)(k) ==
      match MeasureRow(file, ms[k], toFloat)
      case Err(e) => Partial([], Some(e))
      case Ok(o) => Partial(OptionRows(o), None)
  {
    assert MeasurePart(file, ms, toFloat)(k) == MeasureAt(file, ms, toFloat, k);
  }

  /** One turn of the loop over a list: a measurement that raises ends the
      run with what came before; one that does not adds its row, if any. */
  lemma MeasureStep(file: string, ms: seq<Json>, toFloat: FloatParser, k: nat, acc: seq<Failure>)
    requires k < |ms|
    ensures var f := MeasurePart(file, ms, toFloat);
      var row := MeasureRow(file, ms[k], toFloat);
      (row.Err? ==> Then(acc, Chain(f, k, |ms|)) == Partial(acc, Some(row.fault)))
      && (row.Ok? ==> Then(acc, Chain(f, k, |ms|)) == Then(acc + OptionRows(row.value), Chain(f, k + 1, |ms|)))
  {
    var f := MeasurePart(file, ms, toFloat);
    MeasurePartAt(file, ms, toFloat, k);
    ChainStep(f, k, |ms|, acc);
    if MeasureRow(file, ms[k], toFloat).Err? {
      assert acc + [] == acc;
    }
  }

  /** One list of measurements, which must itself be iterable. */
  function ListRun(file: string, measures: Json, toFloat: FloatParser): Partial {
    match Iter(measures)
    case Err(e) => Partial([], Some(e))
    case Ok(ms) => Chain(MeasurePart(file, ms, toFloat), 0, |ms|)
  }

  function ListPart(file: string, lists: seq<Json>, toFloat: FloatParser): nat -> Partial {
    (k: nat) => if k < |lists| then ListRun(file, lists[k], toFloat) else Partial([], None)
  }

  // ---------------------------------------------------------------------
  // process_json_data

  /** `sequence.get(field, [])` for each item. */
  function FieldOfEach(items: seq<Json>, field: string): (r: Result<seq<Json>>)
    ensures r.Ok? ==> |r.value| == |items|
    ensures r.Ok? ==> forall k :: 0 <= k < |items| ==> PyGet(items[k], field, JArr([])) == Ok(r.value[k])
    ensures r.Err? <==> exists k :: 0 <= k < |items| && !items[k].JObj?
    decreases |items|
  {
    if |items| == 0 then Ok([])
    else
      var first :- PyGet(items[0], field, JArr([]));
      var rest :- FieldOfEach(items[1..], field);
      assert forall k :: 1 <= k < |items| ==> items[1..][k - 1] == items[k];
      Ok([first] + rest)
  }

  /** The lists of measurements: each sequence's `sequenceDatas` when there
      are sequences, else `vcpDatas` as one list, else each network task's
      `taskSections`. */
  function MeasureLists(data: Json): (r: Result<seq<Json>>)
    ensures !data.JObj? ==> r == Err(PyAttributeError)
    ensures data.JObj? && !Truthy(Member(data.members, "sequences", JArr([])))
            && Truthy(Member(data.members, "vcpDatas", JArr([])))
            ==> r == Ok([Member(data.members, "vcpDatas", JArr([]))])
    ensures data.JObj? && !Truthy(Member(data.members, "sequences", JArr([])))
            && !Truthy(Member(data.members, "vcpDatas", JArr([])))
            && !Truthy(Member(data.members, "networkTasks", JArr([])))
            ==> r == Ok([])
  {
    if !data.JObj? then Err(PyAttributeError)
    else
      var m := data.members;
      var sequences := Member(m, "sequences", JArr([]));
      var vcpDatas := Member(m, "vcpDatas", JArr([]));
      var networkTasks := Member(m, "networkTasks", JArr([]));
      if Truthy(sequences) then
        var items :- Iter(sequences);
        FieldOfEach(items, "sequenceDatas")
      else if Truthy(vcpDatas) then Ok([vcpDatas])
      else if Truthy(networkTasks) then
        var items :- Iter(networkTasks);
        FieldOfEach(items, "taskSections")
      else Ok([])
  }

  /** The unit under test: `serialNumber`, or the file name without its
      extension. Only a string serial is modelled; another JSON value is
      reported as a TypeError. */
  function SerialOf(fileName: string, data: Json): (r: Result<string>)
    ensures data.JObj? && !HasKey(data.members, "serialNumber") ==> r == Ok(Stem(fileName))
    ensures !data.JObj? ==> r == Err(PyAttributeError)
  {
    var serial :- PyGet(data, "serialNumber", JStr(Stem(fileName)));
    if serial.JStr? then Ok(serial.text) else Err(PyTypeError)
  }

  /** What `process_json_data` appends to the results, and the exception
      that stopped it, if any. */
  function Process(fileName: string, data: Json, toFloat: FloatParser): Partial {
    match SerialOf(fileName, data)
    case Err(e) => Partial([], Some(e))
    case Ok(serial) =>
      match MeasureLists(data)
      case Err(e) => Partial([], Some(e))
      case Ok(lists) => Chain(ListPart(serial, lists, toFloat), 0, |lists|)
  }

  /** The inner loop of `process_json_data` over one list. */
  method MeasureList(serial: string, measures: Json, results0: seq<Failure>, toFloat: FloatParser)
    returns (results: seq<Failure>, fault: Option<Fault>)
    ensures Partial(results, fault) == Then(results0, ListRun(serial, measures, toFloat))
  {
    var it := Iter(measures);
    if it.Err? {
      return results0, Some(it.fault);
    }
    results, fault := MeasureLoop(serial, it.value, results0, toFloat);
  }

  method MeasureLoop(serial: string, ms: seq<Json>, results0: seq<Failure>, toFloat: FloatParser)
    returns (results: seq<Failure>, fault: Option<Fault>)
    ensures Partial(results, fault) == Then(results0, Chain(MeasurePart(serial, ms, toFloat), 0, |ms|))
  {
    results := results0;
    ghost var f := MeasurePart(serial, ms, toFloat);
    ChainStart(f, |ms|, results0);
    for k := 0 to |ms|
      invariant Then(results, Chain(f, k, |ms|)) == Then(results0, Chain(f, 0, |ms|))
    {
      var row := MeasureRow(serial, ms[k], toFloat);
      MeasureStep(serial, ms, toFloat, k, results);
      if row.Err? {
        return results, Some(row.fault);
      }
      ghost var before := results;
      if row.value.Some? {
        results := results + [row.value.value];
      }
      assert results == before + OptionRows(row.value);
    }
    assert Then(results, Partial([], None)) == Partial(results, None);
    fault := None;
  }

  /** `process_json_data`, appending to `results0`. */
  method ProcessJsonData(fileName: string, data: Json, results0: seq<Failure>, toFloat: FloatParser)
    returns (results: seq<Failure>, fault: Option<Fault>)
    ensures Partial(results, fault) == Then(results0, Process(fileName, data, toFloat))
  {
    results := results0;
    assert results0 + [] == results0;
    var serial := SerialOf(fileName, data);
    if serial.Err? {
      return results, Some(serial.fault);
    }
    var lists := MeasureLists(data);
    if lists.Err? {
      return results, Some(lists.fault);
    }
    ghost var f := ListPart(serial.value, lists.value, toFloat);
    ChainStart(f, |lists.value|, results0);
    for k := 0 to |lists.value|
      invariant Then(results, Chain(f, k, |lists.value|)) == Then(results0, Chain(f, 0, |lists.value|))
    {
      ChainStep(f, k, |lists.value|, results);
      var before := results;
      results, fault := MeasureList(serial.value, lists.value[k], results, toFloat);
      assert f(k) == ListRun(serial.value, lists.value[k], toFloat);
      if fault.Some? {
        return;
      }
    }
    assert Then(results, Partial([], None)) == Partial(results, None);
    fault := None;
  }

  // ---------------------------------------------------------------------
  // Properties of process_json_data

  /** Every row carries the unit's serial, or the file's stem when the
      report names none. */
  lemma ProcessRowsOfUnit(fileName: string, data: Json, toFloat: FloatParser)
    requires SerialOf(fileName, data).Ok?
    ensures forall x :: x in Process(fileName, data, toFloat).rows ==> x.file == SerialOf(fileName, data).value
  {
    var serial := SerialOf(fileName, data).value;
    match MeasureLists(data)
    case Err(_) =>
    case Ok(lists) =>
      var g := ListPart(serial, lists, toFloat);
      forall j | 0 <= j < |lists| ensures forall x :: x in g(j).rows ==> x.file == serial {
        ListRows(serial, lists[j], toFloat);
      }
      ChainFile(g, serial, 0, |lists|);
  }

  lemma ListRows(serial: string, measures: Json, toFloat: FloatParser)
    ensures forall x :: x in ListRun(serial, measures, toFloat).rows ==> x.file == serial
  {
    match Iter(measures)
    case Err(_) =>
    case Ok(ms) =>
      var g := MeasurePart(serial, ms, toFloat);
      forall j | 0 <= j < |ms| ensures forall x :: x in g(j).rows ==> x.file == serial {
        var o := MeasureRow(serial, ms[j], toFloat);
      }
      ChainFile(g, serial, 0, |ms|);
  }

  /** A measurement without `hasPassed` counts as passed, as does one whose
      `hasPassed` is truthy; a falsy one is reported once its numbers
      convert. */
  lemma MissingHasPassedIsPass(file: string, m: Dict<Json>, toFloat: FloatParser)
    requires !HasKey(m, "hasPassed") || Truthy(Member(m, "hasPassed", JBool(true)))
    ensures MeasureRow(file, JObj(m), toFloat) == Ok(None)
  {
  }

  lemma FailedMeasureReported(file: string, m: Dict<Json>, toFloat: FloatParser, v: real)
    requires !Truthy(Member(m, "hasPassed", JBool(true)))
    requires ToFloat(Member(m, "value", JNull), toFloat) == Some(v)
    requires ToLimit(Member(m, "lowerLimit", JNull), toFloat).Some?
    requires ToLimit(Member(m, "upperLimit", JNull), toFloat).Some?
    ensures var lo := ToLimit(Member(m, "lowerLimit", JNull), toFloat).value;
      var up := ToLimit(Member(m, "upperLimit", JNull), toFloat).value;
      MeasureRow(file, JObj(m), toFloat) == Ok(Some(Failure(file, Member(m, "name", JNull), v, lo, up, Classify(v, lo, up))))
  {
  }

  /** A value or a present limit that does not convert drops the
      measurement. */
  lemma BadNumberSkipped(file: string, m: Dict<Json>, toFloat: FloatParser)
    requires ToFloat(Member(m, "value", JNull), toFloat).None?
             || ToLimit(Member(m, "lowerLimit", JNull), toFloat).None?
             || ToLimit(Member(m, "upperLimit", JNull), toFloat).None?
    ensures MeasureRow(file, JObj(m), toFloat) == Ok(None)
  {
  }

  /** Sequences take precedence: with any sequence present, `vcpDatas` and
      `networkTasks` are ignored. */
  lemma SequencesFirst(data: Dict<Json>)
    requires Truthy(Member(data, "sequences", JArr([])))
    ensures MeasureLists(JObj(data)) == match Iter(Member(data, "sequences", JArr([])))
      case Err(e) => Err(e)
      case Ok(items) => FieldOfEach(items, "sequenceDatas")
  {
  }

  /** Network tasks are read only when there are neither sequences nor
      `vcpDatas`: then each task gives its `taskSections`. */
  lemma NetworkTasksLast(data: Dict<Json>)
    requires !Truthy(Member(data, "sequences", JArr([])))
    requires !Truthy(Member(data, "vcpDatas", JArr([])))
    requires Truthy(Member(data, "networkTasks", JArr([])))
    ensures MeasureLists(JObj(data)) == match Iter(Member(data, "networkTasks", JArr([])))
      case Err(e) => Err(e)
      case Ok(items) => FieldOfEach(items, "taskSections")
  {
  }

  // ---------------------------------------------------------------------
  // results.sort(key=lambda x: x['file'])

  /** Python's string order: by code point, a prefix first. */
  predicate StrLe(a: string, b: string)
    decreases |a|
  {
    a == [] || (b != [] && (a[0] < b[0] || (a[0] == b[0] && StrLe(a[1..], b[1..]))))
  }

  lemma {:induction false} StrLeTotal(a: string, b: string)
    ensures StrLe(a, b) || StrLe(b, a)
    decreases |a|
  {
    if a != [] && b != [] && a[0] == b[0] {
      StrLeTotal(a[1..], b[1..]);
    }
  }

  lemma {:induction false} StrLeTrans(a: string, b: string, c: string)
    requires StrLe(a, b) && StrLe(b, c)
    ensures StrLe(a, c)
    decreases |a|
  {
    if a != [] && b != [] && c != [] && a[0] == b[0] && b[0] == c[0] {
      StrLeTrans(a[1..], b[1..], c[1..]);
    }
  }

  lemma {:induction false} StrLeAntisym(a: string, b: string)
    requires StrLe(a, b) && StrLe(b, a)
    ensures a == b
    decreases |a|
  {
    if a != [] {
      StrLeAntisym(a[1..], b[1..]);
      assert a == [a[0]] + a[1..] && b == [b[0]] + b[1..];
    }
  }

  predicate SortedByFile(s: seq<Failure>) {
    forall i, j :: 0 <= i < j < |s| ==> StrLe(s[i].file, s[j].file)
  }

  /** `x` placed before the first row whose file is not below its own. */
  function Insert(x: Failure, s: seq<Failure>): (r: seq<Failure>)
    ensures multiset(r) == multiset([x] + s)
    decreases |s|
  {
    if s == [] || StrLe(x.file, s[0].file) then [x] + s
    else
      var r := [s[0]] + Insert(x, s[1..]);
      assert s == [s[0]] + s[1..];
      r
  }

  /** A stable sort by file. */
  function SortByFile(xs: seq<Failure>): (r: seq<Failure>)
    ensures multiset(r) == multiset(xs)
    decreases |xs|
  {
    if xs == [] then []
    else
      var r := Insert(xs[0], SortByFile(xs[1..]));
      assert xs == [xs[0]] + xs[1..];
      r
  }

  lemma {:induction false} InsertSorted(x: Failure, s: seq<Failure>)
    requires SortedByFile(s)
    ensures SortedByFile(Insert(x, s))
    decreases |s|
  {
    if s == [] || StrLe(x.file, s[0].file) {
      var r := [x] + s;
      forall i, j | 0 <= i < j < |r| ensures StrLe(r[i].file, r[j].file) {
        if i == 0 && j > 1 { StrLeTrans(x.file, s[0].file, s[j - 1].file); }
      }
    } else {
      StrLeTotal(x.file, s[0].file);
      InsertSorted(x, s[1..]);
      var t := Insert(x, s[1..]);
      var r := [s[0]] + t;
      forall i, j | 0 <= i < j < |r| ensures StrLe(r[i].file, r[j].file) {
        if i == 0 {
          assert r[j] in multiset([x] + s[1..]);
          assert r[j] == x || r[j] in s[1..];
        } else {
          assert r[i] == t[i - 1] && r[j] == t[j - 1];
        }
      }
    }
  }

  /** The rows of one file, in order. */
  function OfFile(s: seq<Failure>, file: string): (r: seq<Failure>)
    ensures forall x :: x in r ==> x in s && x.file == file
    decreases |s|
  {
    if s == [] then [] else (if s[0].file == file then [s[0]] else []) + OfFile(s[1..], file)
  }

  lemma {:induction false} InsertStable(x: Failure, s: seq<Failure>, file: string)
    ensures OfFile(Insert(x, s), file) == OfFile([x] + s, file)
    decreases |s|
  {
    if !(s == [] || StrLe(x.file, s[0].file)) {
      InsertStable(x, s[1..], file);
      assert x.file != s[0].file by { if x.file == s[0].file { StrLeTotal(x.file, x.file); } }
      var t := Insert(x, s[1..]);
      var px: seq<Failure> := if x.file == file then [x] else [];
      var p0: seq<Failure> := if s[0].file == file then [s[0]] else [];
      var rest := OfFile(s[1..], file);
      assert Insert(x, s) == [s[0]] + t;
      assert OfFile([s[0]] + t, file) == p0 + OfFile(t, file) by { assert ([s[0]] + t)[1..] == t; }
      assert OfFile(t, file) == px + rest by { assert ([x] + s[1..])[1..] == s[1..]; }
      assert OfFile([x] + s, file) == px + (p0 + rest) by { assert ([x] + s)[1..] == s; }
      assert p0 + (px + rest) == px + (p0 + rest) by { if px != [] { assert p0 == []; } }
    }
  }

  /** The sort orders the rows by file and keeps, for each file, its rows
      in their original order (so it is a permutation). */
  lemma {:induction false} SortByFileStable(xs: seq<Failure>)
    ensures SortedByFile(SortByFile(xs))
    ensures forall file :: OfFile(SortByFile(xs), file) == OfFile(xs, file)
    ensures multiset(SortByFile(xs)) == multiset(xs)
    decreases |xs|
  {
    if xs != [] {
      SortByFileStable(xs[1..]);
      InsertSorted(xs[0], SortByFile(xs[1..]));
      forall file ensures OfFile(SortByFile(xs), file) == OfFile(xs, file) {
        InsertStable(xs[0], SortByFile(xs[1..]), file);
        assert ([xs[0]] + SortByFile(xs[1..]))[1..] == SortByFile(xs[1..]);
      }
    }
  }

  // ---------------------------------------------------------------------
  // The CSV writer loop

  /** A CSV line after the header: `writer.writerow({})` or a result. */
  datatype CsvRow = Blank | Data(row: Failure)

  /** The blank row that separates a result from the previous file's. */
  function Separator(row: Failure, last: Option<string>): seq<CsvRow> {
    if last.Some? && last.value != row.file then [Blank] else []
  }

  /** The writer's rows from a given `last_file` on. */
  function Grouped(rows: seq<Failure>, last: Option<string>): (r: seq<CsvRow>)
    decreases |rows|
  {
    if rows == [] then []
    else Separator(rows[0], last) + [Data(rows[0])] + Grouped(rows[1..], Some(rows[0].file))
  }

  /** Writing result `i` after `done` leaves the rows of the results after it. */
  lemma GroupedStep(rows: seq<Failure>, i: nat, last: Option<string>, done: seq<CsvRow>)
    requires i < |rows|
    ensures (done + Separator(rows[i], last) + [Data(rows[i])]) + Grouped(rows[i + 1..], Some(rows[i].file))
      == done + Grouped(rows[i..], last)
  {
    var tl := rows[i..];
    assert tl[1..] == rows[i + 1..];
    var g := Grouped(rows[i + 1..], Some(rows[i].file));
    assert Grouped(tl, last) == Separator(rows[i], last) + [Data(rows[i])] + g;
  }

  method WriteRows(results: seq<Failure>) returns (out: seq<CsvRow>)
    ensures out == Grouped(results, None)
  {
    out := [];
    var lastFile: Option<string> := None;
    for i := 0 to |results|
      invariant lastFile == if i == 0 then None else Some(results[i - 1].file)
      invariant out + Grouped(results[i..], lastFile) == Grouped(results, None)
    {
      var row := results[i];
      ghost var done, last := out, lastFile;
      GroupedStep(results, i, lastFile, out);
      if Some(row.file) != lastFile {
        if lastFile.Some? {
          out := out + [Blank];
        }
        lastFile := Some(row.file);
      }
      out := out + [Data(row)];
      assert out == done + Separator(row, last) + [Data(row)];
    }
    assert results[|results|..] == [];
  }

  function DataRows(out: seq<CsvRow>): (r: seq<Failure>)
    decreases |out|
  {
    if out == [] then [] else (if out[0].Data? then [out[0].row] else []) + DataRows(out[1..])
  }

  /** Dropping the blank rows gives the results back. */
  lemma {:induction false} GroupedData(rows: seq<Failure>, last: Option<string>)
    ensures DataRows(Grouped(rows, last)) == rows
    decreases |rows|
  {
    if rows != [] {
      GroupedData(rows[1..], Some(rows[0].file));
      var b := if last.Some? && last.value != rows[0].file then [Blank] else [];
      DataRowsConcat(b + [Data(rows[0])], Grouped(rows[1..], Some(rows[0].file)));
      if b == [] {
        assert DataRows([Data(rows[0])]) == [rows[0]];
      } else {
        assert (b + [Data(rows[0])])[1..] == [Data(rows[0])];
        assert DataRows(b + [Data(rows[0])]) == [rows[0]];
      }
      assert rows == [rows[0]] + rows[1..];
    }
  }

  lemma {:induction false} DataRowsConcat(a: seq<CsvRow>, b: seq<CsvRow>)
    ensures DataRows(a + b) == DataRows(a) + DataRows(b)
    decreases |a|
  {
    if a != [] {
      DataRowsConcat(a[1..], b);
      assert (a + b)[0] == a[0];
      assert (a + b)[1..] == a[1..] + b;
    } else {
      assert a + b == b;
    }
  }

  /** Where the writer starts a row with file `f`, `Grouped` begins. */
  lemma GroupedHead(rows: seq<Failure>, last: Option<string>)
    requires rows != []
    ensures var g := Grouped(rows, last);
      |g| >= 1
      && (g[0].Blank? <==> last.Some? && last.value != rows[0].file)
      && (g[0].Blank? ==> |g| >= 2 && g[1] == Data(rows[0]))
      && (g[0].Data? ==> g[0] == Data(rows[0]))
  {
  }

  lemma GroupedSplit(rows: seq<Failure>, last: Option<string>)
    requires rows != []
    ensures var b := if last.Some? && last.value != rows[0].file then [Blank] else [];
      Grouped(rows, last) == b + [Data(rows[0])] + Grouped(rows[1..], Some(rows[0].file))
  {
  }

  /** The written rows never end with a blank. */
  lemma {:induction false} GroupedEndsWithData(rows: seq<Failure>, last: Option<string>)
    ensures var g := Grouped(rows, last); |g| > 0 ==> g[|g| - 1].Data?
    decreases |rows|
  {
    if rows != [] {
      GroupedEndsWithData(rows[1..], Some(rows[0].file));
      GroupedSplit(rows, last);
    }
  }

  /** Two results written one after the other are of the same file. */
  lemma {:induction false} GroupedAdjacentSameFile(rows: seq<Failure>, last: Option<string>)
    ensures var g := Grouped(rows, last);
      forall p :: 0 <= p < |g| - 1 && g[p].Data? && g[p + 1].Data? ==> g[p].row.file == g[p + 1].row.file
    decreases |rows|
  {
    if rows != [] {
      var x := rows[0];
      var tail := Grouped(rows[1..], Some(x.file));
      GroupedAdjacentSameFile(rows[1..], Some(x.file));
      GroupedSplit(rows, last);
      var g := Grouped(rows, last);
      var h := if last.Some? && last.value != x.file then 2 else 1;
      assert g[h - 1] == Data(x);
      forall p | 0 <= p < |g| - 1 && g[p].Data? && g[p + 1].Data? ensures g[p].row.file == g[p + 1].row.file {
        if p >= h {
          assert g[p] == tail[p - h] && g[p + 1] == tail[p + 1 - h];
        } else if p == h - 1 {
          GroupedHead(rows[1..], Some(x.file));
          assert g[p + 1] == tail[0];
        }
      }
    }
  }

  /** A blank row stands between two results of different files (the
      first of them being `last` when the blank opens the rows). */
  lemma {:induction false} GroupedBlankSeparates(rows: seq<Failure>, last: Option<string>)
    ensures var g := Grouped(rows, last);
      forall p :: 0 <= p < |g| && g[p].Blank? ==>
        p + 1 < |g| && g[p + 1].Data?
        && (if p > 0 then g[p - 1].Data? && g[p - 1].row.file != g[p + 1].row.file
            else last.Some? && last.value != g[p + 1].row.file)
    decreases |rows|
  {
    if rows != [] {
      var x := rows[0];
      var tail := Grouped(rows[1..], Some(x.file));
      GroupedBlankSeparates(rows[1..], Some(x.file));
      GroupedSplit(rows, last);
      var g := Grouped(rows, last);
      var h := if last.Some? && last.value != x.file then 2 else 1;
      assert g[h - 1] == Data(x);
      forall p | 0 <= p < |g| && g[p].Blank?
        ensures p + 1 < |g| && g[p + 1].Data?
          && (if p > 0 then g[p - 1].Data? && g[p - 1].row.file != g[p + 1].row.file
              else last.Some? && last.value != g[p + 1].row.file)
      {
        if p >= h {
          assert g[p] == tail[p - h] && g[p + 1] == tail[p + 1 - h];
          if p > h { assert g[p - 1] == tail[p - 1 - h]; }
        }
      }
    }
  }

  /** Written from the start, the rows open with a result. */
  lemma GroupedStartsWithData(rows: seq<Failure>)
    requires rows != []
    ensures Grouped(rows, None)[0] == Data(rows[0])
  {
    GroupedHead(rows, None);
  }

  // ---------------------------------------------------------------------
  // analyze_failed_measurements, after loading

  /** The results of all reports, each kept up to its first exception (a
      report that raises is reported and skipped). */
  function AllResults(reports: seq<(string, Json)>, toFloat: FloatParser): seq<Failure>
    decreases |reports|
  {
    if reports == [] then []
    else AllResults(reports[..|reports| - 1], toFloat) + Process(reports[|reports| - 1].0, reports[|reports| - 1].1, toFloat).rows
  }

  /** The CSV rows after the header, or `None` when nothing failed and no
      file is written. */
  function Analyze(reports: seq<(string, Json)>, toFloat: FloatParser): (r: Option<seq<CsvRow>>)
    ensures r.None? <==> AllResults(reports, toFloat) == []
    ensures r.Some? ==> DataRows(r.value) == SortByFile(AllResults(reports, toFloat))
    ensures r.Some? ==> |r.value| > 0 && r.value[0].Data?
  {
    var results := AllResults(reports, toFloat);
    if results == [] then None
    else
      var sorted := SortByFile(results);
      GroupedData(sorted, None);
      assert |sorted| > 0 by { assert multiset(sorted) == multiset(results); assert results[0] in multiset(results); }
      GroupedStartsWithData(sorted);
      Some(Grouped(sorted, None))
  }

  method AnalyzeFailedMeasurements(reports: seq<(string, Json)>, toFloat: FloatParser)
    returns (written: Option<seq<CsvRow>>)
    ensures written == Analyze(reports, toFloat)
  {
    var results: seq<Failure> := [];
    for i := 0 to |reports|
      invariant results == AllResults(reports[..i], toFloat)
    {
      var fault;
      results, fault := ProcessJsonData(reports[i].0, reports[i].1, results, toFloat);
      assert reports[..i + 1][..i] == reports[..i];
    }
    assert reports[..|reports|] == reports;
    if results == [] {
      return None;
    }
    var sorted := SortByFile(results);
    var rows := WriteRows(sorted);
    written := Some(rows);
  }
}
