/** scripts/validate_limits.py: checking parsed test rows against a table
    of lower and upper limits. Rows are Python dictionaries from column
    names to cells. Limits come from a JSON document of sections, each
    holding a list of `{key, lowerLimit, upperLimit}` entries, and are
    flattened into one dictionary under normalised keys. A row is either a
    record (with a key column and a value column, checked against the
    limit of its key) or flat (every limit key is a column of its own). */
module ValidateLimits {
  import opened Outcomes
  import opened Text
  import opened OrderedDict
  import opened Tokens

  // ---------------------------------------------------------------------
  // normalize_key

  /** No blank directly before a '('. */
  predicate ParenClean(s: string) {
    forall i :: 0 < i < |s| && s[i] == '(' ==> !IsSpace(s[i - 1])
  }

  /** `re.sub(r'\s+\(', '(', s)`: every run of blanks followed by '(' is
      dropped. */
  function DropSpaceBeforeParen(s: string): (r: string)
    ensures forall c :: c in r ==> c in s
    ensures |s| > 0 && !IsSpace(s[0]) ==> |r| > 0 && r[0] == s[0]
    ensures |s| > 0 && !IsSpace(s[|s| - 1]) ==> |r| > 0 && !IsSpace(r[|r| - 1])
    ensures |s| == 0 <==> |r| == 0
    decreases |s|
  {
    if |s| == 0 then []
    else if !IsSpace(s[0]) then [s[0]] + DropSpaceBeforeParen(s[1..])
    else
      var q := SpanEnd(s, 0);
      if q < |s| && s[q] == '(' then "(" + DropSpaceBeforeParen(s[q + 1..])
      else s[..q] + DropSpaceBeforeParen(s[q..])
  }

  /** Two clean texts join into a clean one unless a blank meets a '('. */
  lemma ParenCleanAppend(a: string, t: string)
    requires ParenClean(a) && ParenClean(t)
    requires |a| > 0 && |t| > 0 && t[0] == '(' ==> !IsSpace(a[|a| - 1])
    ensures ParenClean(a + t)
  {
    var r := a + t;
    forall i | 0 < i < |r| && r[i] == '('
      ensures !IsSpace(r[i - 1])
    {
      if i > |a| {
        assert r[i - 1] == t[i - 1 - |a|] && r[i] == t[i - |a|];
      } else if i < |a| {
        assert r[i - 1] == a[i - 1] && r[i] == a[i];
      }
    }
  }

  /** The first case of the substitution: a kept character before the
      rest. */
  lemma CleanAfterKept(s: string)
    requires |s| > 0 && !IsSpace(s[0]) && ParenClean(DropSpaceBeforeParen(s[1..]))
    ensures ParenClean(DropSpaceBeforeParen(s))
  {
    var t := DropSpaceBeforeParen(s[1..]);
    assert DropSpaceBeforeParen(s) == [s[0]] + t;
    ParenCleanAppend([s[0]], t);
  }

  /** A run of blanks before '(' becomes the '('. */
  lemma CleanAfterDropped(s: string, q: nat)
    requires |s| > 0 && IsSpace(s[0]) && q == SpanEnd(s, 0) && q < |s| && s[q] == '('
    requires ParenClean(DropSpaceBeforeParen(s[q + 1..]))
    ensures ParenClean(DropSpaceBeforeParen(s))
  {
    var t := DropSpaceBeforeParen(s[q + 1..]);
    assert DropSpaceBeforeParen(s) == "(" + t;
    ParenCleanAppend("(", t);
  }

  /** A run of blanks before anything else is kept. */
  lemma CleanAfterBlanks(s: string, q: nat)
    requires |s| > 0 && IsSpace(s[0]) && q == SpanEnd(s, 0) && !(q < |s| && s[q] == '(')
    requires ParenClean(DropSpaceBeforeParen(s[q..]))
    ensures ParenClean(DropSpaceBeforeParen(s))
  {
    var a := s[..q];
    var t := DropSpaceBeforeParen(s[q..]);
    assert DropSpaceBeforeParen(s) == a + t;
    assert forall i :: 0 <= i < |a| ==> a[i] == s[i];
    ParenCleanAppend(a, t);
  }

  lemma {:induction false} DropSpaceBeforeParenClean(s: string)
    ensures ParenClean(DropSpaceBeforeParen(s))
    decreases |s|
  {
    if |s| > 0 {
      if !IsSpace(s[0]) {
        DropSpaceBeforeParenClean(s[1..]);
        CleanAfterKept(s);
      } else {
        var q := SpanEnd(s, 0);
        if q < |s| && s[q] == '(' {
          DropSpaceBeforeParenClean(s[q + 1..]);
          CleanAfterDropped(s, q);
        } else {
          DropSpaceBeforeParenClean(s[q..]);
          CleanAfterBlanks(s, q);
        }
      }
    }
  }

  /** Blanks before a '(' are the only thing the substitution removes. */
  lemma {:induction false} DropSpaceBeforeParenFixed(s: string)
    requires ParenClean(s)
    ensures DropSpaceBeforeParen(s) == s
    decreases |s|
  {
    if |s| > 0 {
      if !IsSpace(s[0]) {
        DropSpaceBeforeParenFixed(s[1..]);
        assert s == [s[0]] + s[1..];
      } else {
        var q := SpanEnd(s, 0);
        if q < |s| {
          assert s[q] != '(' by { assert IsSpace(s[q - 1]); }
        }
        DropSpaceBeforeParenFixed(s[q..]);
        assert s == s[..q] + s[q..];
      }
    }
  }

  /** `normalize_key`: newlines become blanks, carriage returns and double
      quotes go, the ends are stripped, and blanks before '(' are dropped. */
  function NormalizeKey(key: string): string {
    var a := Replace(key, "\n", " ");
    var b := Replace(a, "\r", "");
    var c := Replace(b, "\"", "");
    DropSpaceBeforeParen(Trim(c))
  }

  /** The three promises of `normalize_key`: no newline, carriage return
      or double quote; no blank at either end; no blank before '('. */
  predicate Normal(s: string) {
    '\n' !in s && '\r' !in s && '"' !in s && (s == [] || (!IsSpace(s[0]) && !IsSpace(s[|s| - 1])))
    && ParenClean(s)
  }

  /** No newline, carriage return or double quote. */
  predicate NoBreaks(s: string) {
    '\n' !in s && '\r' !in s && '"' !in s
  }

  /** The three replacements leave none of the characters they replace,
      and stripping adds none. */
  lemma TrimmedNoBreaks(key: string)
    ensures NoBreaks(Trim(Replace(Replace(Replace(key, "\n", " "), "\r", ""), "\"", "")))
  {
    var a := Replace(key, "\n", " ");
    var b := Replace(a, "\r", "");
    var c := Replace(b, "\"", "");
    ReplaceChar(key, '\n', " ");
    ReplaceChar(a, '\r', "");
    ReplaceChar(b, '"', "");
    assert '\n' !in b;
    assert NoBreaks(c);
    var t := Trim(c);
    if !NoBreaks(t) {
      var x :| x in t && (x == '\n' || x == '\r' || x == '"');
      TrimKeeps(c, x);
    }
  }

  lemma NormalizeKeyIsNormal(key: string)
    ensures Normal(NormalizeKey(key))
  {
    var c := Replace(Replace(Replace(key, "\n", " "), "\r", ""), "\"", "");
    var t := Trim(c);
    TrimmedNoBreaks(key);
    DropSpaceBeforeParenClean(t);
    var r := DropSpaceBeforeParen(t);
    assert NoBreaks(r);
  }

  /** A normal key is its own normal form, so normalising twice is
      normalising once. */
  lemma NormalizeKeyIdempotent(key: string)
    ensures Normal(key) ==> NormalizeKey(key) == key
    ensures NormalizeKey(NormalizeKey(key)) == NormalizeKey(key)
  {
    NormalizeKeyIsNormal(key);
    NormalFixed(key);
    NormalFixed(NormalizeKey(key));
  }

  lemma NormalFixed(s: string)
    ensures Normal(s) ==> NormalizeKey(s) == s
  {
    if Normal(s) {
      ReplaceAbsent(s, '\n', " ");
      ReplaceAbsent(s, '\r', "");
      ReplaceAbsent(s, '"', "");
      TrimIdentity(s);
      DropSpaceBeforeParenFixed(s);
    }
  }

  // ---------------------------------------------------------------------
  // Rows and get_field

  /** A cell of a parsed row: a string, a JSON boolean or number, or None
      (a JSON null, or a field missing from a short CSV line). */
  datatype Cell = Str(text: string) | Bool(flag: bool) | Num(number: real) | Null

  /** Python truthiness. */
  predicate Truthy(c: Cell) {
    match c
    case Str(t) => t != []
    case Bool(b) => b
    case Num(x) => x != 0.0
    case Null => false
  }

  type Row = Dict<Cell>

  /** `row.get(k, default)`. */
  function RowGet(row: Row, k: string, default: Cell): (r: Cell)
    ensures HasKey(row, k) ==> Get(row, k) == Some(r)
    ensures !HasKey(row, k) ==> r == default
  {
    Get(row, k).GetOr(default)
  }

  /** The field names of a `get_field` call: one name or a list of them. */
  datatype FieldNames = Name(name: string) | Names(names: seq<string>)

  /** The value of the first listed name present in the row, or None. */
  function FirstPresent(row: Row, names: seq<string>): (r: Cell)
    ensures (forall k :: 0 <= k < |names| ==> !HasKey(row, names[k])) ==> r == Null
    ensures (exists k :: 0 <= k < |names| && HasKey(row, names[k])) ==>
      exists k :: 0 <= k < |names| && HasKey(row, names[k]) && Get(row, names[k]) == Some(r)
                  && forall k' :: 0 <= k' < k ==> !HasKey(row, names[k'])
    decreases |names|
  {
    if |names| == 0 then Null
    else if HasKey(row, names[0]) then RowGet(row, names[0], Null)
    else
      var r := FirstPresent(row, names[1..]);
      assert forall k :: 1 <= k < |names| ==> names[1..][k - 1] == names[k];
      r
  }

  /** `get_field`. */
  function GetField(row: Row, f: FieldNames): Cell {
    match f
    case Name(n) => RowGet(row, n, Null)
    case Names(ns) => FirstPresent(row, ns)
  }

  // ---------------------------------------------------------------------
  // load_limits

  /** One limit of the JSON document; a JSON null bound is `None`. */
  datatype LimitEntry = LimitEntry(key: string, lowerLimit: Option<real>, upperLimit: Option<real>)

  type Bounds = (Option<real>, Option<real>)

  /** The assignments one section makes, in order. */
  function SectionEntries(limits: seq<LimitEntry>): (r: Dict<Bounds>)
    ensures |r| == |limits|
    ensures forall i :: 0 <= i < |limits| ==>
      r[i] == (NormalizeKey(limits[i].key), (limits[i].lowerLimit, limits[i].upperLimit))
  {
    seq(|limits|, i requires 0 <= i < |limits| =>
      (NormalizeKey(limits[i].key), (limits[i].lowerLimit, limits[i].upperLimit)))
  }

  /** The assignments of all sections, in document order. */
  function FlatEntries(sections: seq<seq<LimitEntry>>): Dict<Bounds>
    decreases |sections|
  {
    if |sections| == 0 then [] else FlatEntries(sections[..|sections| - 1]) + SectionEntries(sections[|sections| - 1])
  }

  /** What `load_limits` returns: `flat_limits[key] = (low, high)` for each
      entry in order. */
  function FlatLimits(sections: seq<seq<LimitEntry>>): Dict<Bounds> {
    PutAll([], FlatEntries(sections))
  }

  method LoadLimits(sections: seq<seq<LimitEntry>>) returns (flat: Dict<Bounds>)
    ensures flat == FlatLimits(sections)
  {
    flat := [];
    for i := 0 to |sections|
      invariant flat == PutAll([], FlatEntries(sections[..i]))
    {
      var section := sections[i];
      assert FlatEntries(sections[..i]) + SectionEntries(section[..0]) == FlatEntries(sections[..i]);
      for k := 0 to |section|
        invariant flat == PutAll([], FlatEntries(sections[..i]) + SectionEntries(section[..k]))
      {
        var limit := section[k];
        LoadStep(FlatEntries(sections[..i]), section, k);
        flat := Put(flat, NormalizeKey(limit.key), (limit.lowerLimit, limit.upperLimit));
      }
      LoadSectionDone(sections, i);
    }
    assert sections[..|sections|] == sections;
  }

  lemma LoadStep(done: Dict<Bounds>, section: seq<LimitEntry>, k: nat)
    requires k < |section|
    ensures PutAll([], done + SectionEntries(section[..k + 1]))
            == Put(PutAll([], done + SectionEntries(section[..k])),
                   NormalizeKey(section[k].key), (section[k].lowerLimit, section[k].upperLimit))
  {
    var e := (NormalizeKey(section[k].key), (section[k].lowerLimit, section[k].upperLimit));
    SectionEntriesSnoc(section, k);
    assert done + SectionEntries(section[..k + 1]) == (done + SectionEntries(section[..k])) + [e];
    PutAllSnoc([], done + SectionEntries(section[..k]), e.0, e.1);
  }

  lemma SectionEntriesSnoc(section: seq<LimitEntry>, k: nat)
    requires k < |section|
    ensures SectionEntries(section[..k + 1])
            == SectionEntries(section[..k]) + [(NormalizeKey(section[k].key), (section[k].lowerLimit, section[k].upperLimit))]
  {
    var a, b := section[..k + 1], section[..k];
    var x, y := SectionEntries(a), SectionEntries(b);
    assert |x| == |y| + 1;
    forall j | 0 <= j < |y|
      ensures x[j] == y[j]
    {
      assert a[j] == b[j];
    }
    assert a[k] == section[k];
  }

  lemma LoadSectionDone(sections: seq<seq<LimitEntry>>, i: nat)
    requires i < |sections|
    ensures FlatEntries(sections[..i]) + SectionEntries(sections[i][..|sections[i]|]) == FlatEntries(sections[..i + 1])
  {
    assert sections[i][..|sections[i]|] == sections[i];
    assert sections[..i + 1][..i] == sections[..i];
  }

  /** A key holds the bounds of the last entry that normalises to it; a
      key no entry normalises to is absent. */
  lemma FlatLimitsLastWins(sections: seq<seq<LimitEntry>>, i: nat)
    requires i < |FlatEntries(sections)|
    requires forall j :: i < j < |FlatEntries(sections)| ==> FlatEntries(sections)[j].0 != FlatEntries(sections)[i].0
    ensures Get(FlatLimits(sections), FlatEntries(sections)[i].0) == Some(FlatEntries(sections)[i].1)
  {
    PutAllLast([], FlatEntries(sections), i);
  }

  lemma FlatLimitsOnlyNormalKeys(sections: seq<seq<LimitEntry>>, k: string)
    requires forall j :: 0 <= j < |FlatEntries(sections)| ==> FlatEntries(sections)[j].0 != k
    ensures Get(FlatLimits(sections), k).None?
  {
    PutAllAbsent([], FlatEntries(sections), k);
  }

  // ---------------------------------------------------------------------
  // validate_rows

  /** The `fields` entry of a validator's configuration; an absent entry
      takes the source's default. */
  datatype FieldMap = FieldMap(serial: Option<FieldNames>, key: Option<string>, value: Option<string>, name: Option<string>)

  /** One line of the results, by kind: the row number (from 1), the
      serial number, and what was found. */
  datatype Finding =
    | MissingKey(row: nat, serial: string, keyField: string, name: Cell)
    | MissingValue(row: nat, serial: string, name: Cell)
    | OutOfRange(row: nat, serial: string, shown: Cell, value: real, low: Option<real>, high: Option<real>)

  /** `float(x)`: `None` where Python raises ValueError (caught, so the
      value is skipped) and a fault where it raises TypeError. */
  type FloatParser = string -> Option<real>

  function FloatOf(c: Cell, toFloat: FloatParser): Result<Option<real>> {
    match c
    case Str(t) => Ok(toFloat(t))
    case Bool(b) => Ok(Some(if b then 1.0 else 0.0))
    case Num(x) => Ok(Some(x))
    case Null => Err(PyTypeError)
  }

  /** The serial number of a row: the stripped text of its serial field, or
      "N/A" when that is missing, empty or not a string. */
  function SerialOf(row: Row, fm: FieldMap): (r: string)
    ensures !Truthy(GetField(row, fm.serial.GetOr(Names(["SerialNumber"])))) ==> r == "N/A"
    ensures !GetField(row, fm.serial.GetOr(Names(["SerialNumber"]))).Str? ==> r == "N/A"
  {
    var v := GetField(row, fm.serial.GetOr(Names(["SerialNumber"])));
    if Truthy(v) && v.Str? then Trim(v.text) else "N/A"
  }

  /** `(low is not None and val < low) or (high is not None and val > high)`. */
  predicate OutOfBounds(val: real, low: Option<real>, high: Option<real>) {
    (low.Some? && val < low.value) || (high.Some? && val > high.value)
  }

  /** `limits_dict.get(key, (None, None))`; only a string key can match. */
  function LookupBounds(limits: Dict<Bounds>, key: Cell): Bounds {
    if key.Str? then Get(limits, key.text).GetOr((None, None)) else (None, None)
  }

  /** Findings of many parts (the limits of a row, or the rows), one after
      another: the parts from `k` to `n`, stopping at the first fault. */
  function Collect(f: nat -> Result<seq<Finding>>, k: nat, n: nat): Result<seq<Finding>>
    decreases n - k
  {
    if k >= n then Ok([])
    else
      var here :- f(k);
      var rest :- Collect(f, k + 1, n);
      Ok(here + rest)
  }

  /** Findings so far followed by those still to come. */
  function Prepend(acc: seq<Finding>, rest: Result<seq<Finding>>): Result<seq<Finding>> {
    if rest.Err? then rest else Ok(acc + rest.value)
  }

  lemma CollectStep(f: nat -> Result<seq<Finding>>, k: nat, n: nat, acc: seq<Finding>)
    requires k < n
    ensures f(k).Err? ==> Prepend(acc, Collect(f, k, n)) == Err(f(k).fault)
    ensures f(k).Ok? ==> Prepend(acc, Collect(f, k, n)) == Prepend(acc + f(k).value, Collect(f, k + 1, n))
  {
    if f(k).Ok? && Collect(f, k + 1, n).Ok? {
      assert acc + (f(k).value + Collect(f, k + 1, n).value) == (acc + f(k).value) + Collect(f, k + 1, n).value;
    }
  }

  lemma CollectFault(f: nat -> Result<seq<Finding>>, k: nat, n: nat, acc: seq<Finding>)
    requires k < n && f(k).Err?
    ensures Prepend(acc, Collect(f, k, n)) == Err(f(k).fault)
  {
    CollectStep(f, k, n, acc);
  }

  lemma CollectDone(f: nat -> Result<seq<Finding>>, n: nat, acc: seq<Finding>)
    ensures Prepend(acc, Collect(f, n, n)) == Ok(acc)
  {
    assert acc + [] == acc;
  }

  lemma CollectStart(f: nat -> Result<seq<Finding>>, n: nat)
    ensures Prepend([], Collect(f, 0, n)) == Collect(f, 0, n)
  {
    if Collect(f, 0, n).Ok? { assert [] + Collect(f, 0, n).value == Collect(f, 0, n).value; }
  }

  /** When part `j` reports only findings for row `j + 1`, the collected
      findings are numbered from `k + 1` to `n`, in order. */
  lemma {:induction false} CollectNumbered(f: nat -> Result<seq<Finding>>, k: nat, n: nat)
    requires forall j :: k <= j < n && f(j).Ok? ==> forall x :: x in f(j).value ==> x.row == j + 1
    requires Collect(f, k, n).Ok?
    ensures var fs := Collect(f, k, n).value;
      (forall a :: 0 <= a < |fs| ==> k + 1 <= fs[a].row <= n)
      && (forall a, b :: 0 <= a < b < |fs| ==> fs[a].row <= fs[b].row)
    decreases n - k
  {
    if k < n {
      var here := f(k).value;
      CollectNumbered(f, k + 1, n);
      var rest := Collect(f, k + 1, n).value;
      var fs := here + rest;
      assert Collect(f, k, n).value == fs;
      assert forall a :: 0 <= a < |here| ==> here[a] in f(k).value;
      forall a | 0 <= a < |fs| ensures k + 1 <= fs[a].row <= n {
        if a >= |here| { assert fs[a] == rest[a - |here|]; }
      }
      forall a, b | 0 <= a < b < |fs| ensures fs[a].row <= fs[b].row {
        if b < |here| {
        } else if a < |here| {
          assert fs[b] == rest[b - |here|];
        } else {
          assert fs[a] == rest[a - |here|] && fs[b] == rest[b - |here|];
        }
      }
    }
  }

  /** When every part reports findings for row `i` only, so does the whole. */
  lemma {:induction false} CollectSameRow(f: nat -> Result<seq<Finding>>, i: nat, k: nat, n: nat)
    requires forall j :: k <= j < n && f(j).Ok? ==> forall x :: x in f(j).value ==> x.row == i
    requires Collect(f, k, n).Ok?
    ensures forall x :: x in Collect(f, k, n).value ==> x.row == i
    decreases n - k
  {
    if k < n {
      CollectSameRow(f, i, k + 1, n);
    }
  }

  /** When every part reports one finding, the findings are those, in order. */
  lemma {:induction false} CollectSingles(f: nat -> Result<seq<Finding>>, g: nat -> Finding, k: nat, n: nat)
    requires k <= n
    requires forall j :: k <= j < n ==> f(j) == Ok([g(j)])
    ensures Collect(f, k, n).Ok? && |Collect(f, k, n).value| == n - k
    ensures forall j :: 0 <= j < n - k ==> Collect(f, k, n).value[j] == g(k + j)
    decreases n - k
  {
    if k < n {
      CollectSingles(f, g, k + 1, n);
      var rest := Collect(f, k + 1, n).value;
      assert Collect(f, k, n).value == [g(k)] + rest;
    }
  }

  /** A record row: its key column names the limit, its value column holds
      the measurement. Python's `float` raises TypeError on a None value. */
  function RecordFindings(i: nat, serial: string, row: Row, limits: Dict<Bounds>,
                          keyField: string, valueField: string, nameField: string, toFloat: FloatParser)
    : (r: Result<seq<Finding>>)
    ensures r.Ok? ==> |r.value| <= 1 && forall x :: x in r.value ==> x.row == i
    ensures !Truthy(RowGet(row, keyField, Null)) ==> r == Ok([MissingKey(i, serial, keyField, RowGet(row, nameField, Str("")))])
    ensures Truthy(RowGet(row, keyField, Null)) && RowGet(row, valueField, Str("")) == Str("")
            ==> r == Ok([MissingValue(i, serial, RowGet(row, nameField, Str("")))])
    ensures Truthy(RowGet(row, keyField, Null)) && RowGet(row, valueField, Str("")) != Str("") &&
            FloatOf(RowGet(row, valueField, Str("")), toFloat).Err?
            ==> r == Err(FloatOf(RowGet(row, valueField, Str("")), toFloat).fault)
    ensures Truthy(RowGet(row, keyField, Null)) && RowGet(row, valueField, Str("")) != Str("") &&
            FloatOf(RowGet(row, valueField, Str("")), toFloat) == Ok(None)
            ==> r == Ok([])
  {
    var key := RowGet(row, keyField, Null);
    var name := RowGet(row, nameField, Str(""));
    var valStr := RowGet(row, valueField, Str(""));
    if !Truthy(key) then Ok([MissingKey(i, serial, keyField, name)])
    else if valStr == Str("") then Ok([MissingValue(i, serial, name)])
    else
      var v :- FloatOf(valStr, toFloat);
      match v
      case None => Ok([])
      case Some(val) =>
        var bounds := LookupBounds(limits, key);
        if OutOfBounds(val, bounds.0, bounds.1)
        then Ok([OutOfRange(i, serial, if Truthy(name) then name else key, val, bounds.0, bounds.1)])
        else Ok([])
  }

  /** One limit of a flat row: its key is a column of the row; a comma in
      the value is read as the decimal point. */
  function FlatOne(i: nat, serial: string, row: Row, key: string, bounds: Bounds, toFloat: FloatParser)
    : (r: Result<seq<Finding>>)
    ensures r.Ok? ==> |r.value| <= 1 && forall x :: x in r.value ==> x.row == i
    ensures !Truthy(RowGet(row, key, Str(""))) ==> r == Ok([MissingValue(i, serial, Str(key))])
    ensures Truthy(RowGet(row, key, Str(""))) && !RowGet(row, key, Str("")).Str? ==> r == Err(PyAttributeError)
    ensures Truthy(RowGet(row, key, Str(""))) && RowGet(row, key, Str("")).Str? &&
            toFloat(Replace(RowGet(row, key, Str("")).text, ",", ".")).None?
            ==> r == Ok([])
  {
    var raw := RowGet(row, key, Str(""));
    if !Truthy(raw) then Ok([MissingValue(i, serial, Str(key))])
    else if !raw.Str? then Err(PyAttributeError)
    else
      match toFloat(Replace(raw.text, ",", "."))
      case None => Ok([])
      case Some(val) =>
        if OutOfBounds(val, bounds.0, bounds.1) then Ok([OutOfRange(i, serial, Str(key), val, bounds.0, bounds.1)]) else Ok([])
  }

  function FlatPart(i: nat, serial: string, row: Row, limits: Dict<Bounds>, toFloat: FloatParser): nat -> Result<seq<Finding>> {
    (k: nat) => if k < |limits| then FlatOne(i, serial, row, limits[k].0, limits[k].1, toFloat) else Ok([])
  }

  /** A flat row: every limit, in order. */
  function FlatFindings(i: nat, serial: string, row: Row, limits: Dict<Bounds>, toFloat: FloatParser)
    : Result<seq<Finding>>
  {
    Collect(FlatPart(i, serial, row, limits, toFloat), 0, |limits|)
  }

  /** The findings of row number `i` (counting from 1). */
  function RowFindings(i: nat, row: Row, limits: Dict<Bounds>, fm: FieldMap, toFloat: FloatParser)
    : Result<seq<Finding>>
  {
    var serial := SerialOf(row, fm);
    var keyField := fm.key.GetOr("NetworkChartType");
    var valueField := fm.value.GetOr("Value");
    var nameField := fm.name.GetOr("Name");
    if HasKey(row, keyField) && HasKey(row, valueField)
    then RecordFindings(i, serial, row, limits, keyField, valueField, nameField, toFloat)
    else FlatFindings(i, serial, row, limits, toFloat)
  }

  /** Row `i` of the loop, counting from 0. */
  function RowAt(rows: seq<Row>, limits: Dict<Bounds>, fm: FieldMap, toFloat: FloatParser, i: nat): Result<seq<Finding>> {
    if i < |rows| then RowFindings(i + 1, rows[i], limits, fm, toFloat) else Ok([])
  }

  function RowPart(rows: seq<Row>, limits: Dict<Bounds>, fm: FieldMap, toFloat: FloatParser): nat -> Result<seq<Finding>> {
    (i: nat) => RowAt(rows, limits, fm, toFloat, i)
  }

  lemma RowPartAt(rows: seq<Row>, limits: Dict<Bounds>, fm: FieldMap, toFloat: FloatParser, i: nat)
    requires i < |rows|
    ensures RowPart(rows, limits, fm, toFloat)(i) == RowFindings(i + 1, rows[i], limits, fm, toFloat)
  {
    assert RowPart(rows, limits, fm, toFloat)(i) == RowAt(rows, limits, fm, toFloat, i);
  }

  /** What `validate_rows` returns. */
  function Validate(rows: seq<Row>, limits: Dict<Bounds>, fm: FieldMap, toFloat: FloatParser): Result<seq<Finding>> {
    Collect(RowPart(rows, limits, fm, toFloat), 0, |rows|)
  }

  method FlatRow(i: nat, serial: string, row: Row, limits: Dict<Bounds>, toFloat: FloatParser)
    returns (r: Result<seq<Finding>>)
    ensures r == FlatFindings(i, serial, row, limits, toFloat)
  {
    ghost var f := FlatPart(i, serial, row, limits, toFloat);
    CollectStart(f, |limits|);
    var results: seq<Finding> := [];
    for k := 0 to |limits|
      invariant Prepend(results, Collect(f, k, |limits|)) == Collect(f, 0, |limits|)
    {
      var (key, bounds) := limits[k];
      var raw := RowGet(row, key, Str(""));
      var here: seq<Finding> := [];
      if !Truthy(raw) {
        here := [MissingValue(i, serial, Str(key))];
      } else if !raw.Str? {
        CollectFault(f, k, |limits|, results);
        return Err(PyAttributeError);
      } else {
        var val := toFloat(Replace(raw.text, ",", "."));
        if val.Some? && OutOfBounds(val.value, bounds.0, bounds.1) {
          here := [OutOfRange(i, serial, Str(key), val.value, bounds.0, bounds.1)];
        }
      }
      assert f(k) == Ok(here);
      CollectStep(f, k, |limits|, results);
      results := results + here;
    }
    CollectDone(f, |limits|, results);
    r := Ok(results);
  }

  method ValidateRows(rows: seq<Row>, limits: Dict<Bounds>, fm: FieldMap, toFloat: FloatParser)
    returns (r: Result<seq<Finding>>)
    ensures r == Validate(rows, limits, fm, toFloat)
  {
    ghost var f := RowPart(rows, limits, fm, toFloat);
    CollectStart(f, |rows|);
    var results: seq<Finding> := [];
    for i := 0 to |rows|
      invariant Prepend(results, Collect(f, i, |rows|)) == Collect(f, 0, |rows|)
    {
      var row := rows[i];
      var serial := SerialOf(row, fm);
      var keyField := fm.key.GetOr("NetworkChartType");
      var valueField := fm.value.GetOr("Value");
      var nameField := fm.name.GetOr("Name");
      var here: Result<seq<Finding>>;
      if HasKey(row, keyField) && HasKey(row, valueField) {
        here := RecordFindings(i + 1, serial, row, limits, keyField, valueField, nameField, toFloat);
      } else {
        here := FlatRow(i + 1, serial, row, limits, toFloat);
      }
      assert here == RowFindings(i + 1, row, limits, fm, toFloat);
      RowPartAt(rows, limits, fm, toFloat, i);
      if here.Err? {
        CollectFault(f, i, |rows|, results);
        return Err(here.fault);
      }
      CollectStep(f, i, |rows|, results);
      results := results + here.value;
    }
    CollectDone(f, |rows|, results);
    r := Ok(results);
  }

  // ---------------------------------------------------------------------
  // Properties of validate_rows

  /** Findings carry row numbers from 1 to the number of rows, in row order. */
  lemma FindingsInRowOrder(rows: seq<Row>, limits: Dict<Bounds>, fm: FieldMap, toFloat: FloatParser)
    requires Validate(rows, limits, fm, toFloat).Ok?
    ensures var fs := Validate(rows, limits, fm, toFloat).value;
      (forall a :: 0 <= a < |fs| ==> 1 <= fs[a].row <= |rows|)
      && (forall a, b :: 0 <= a < b < |fs| ==> fs[a].row <= fs[b].row)
  {
    var f := RowPart(rows, limits, fm, toFloat);
    forall j | 0 <= j < |rows| && f(j).Ok? ensures forall x :: x in f(j).value ==> x.row == j + 1 {
      RowPartAt(rows, limits, fm, toFloat, j);
      RowFindingsNumbered(j + 1, rows[j], limits, fm, toFloat);
    }
    CollectNumbered(f, 0, |rows|);
  }

  lemma RowFindingsNumbered(i: nat, row: Row, limits: Dict<Bounds>, fm: FieldMap, toFloat: FloatParser)
    requires RowFindings(i, row, limits, fm, toFloat).Ok?
    ensures forall x :: x in RowFindings(i, row, limits, fm, toFloat).value ==> x.row == i
  {
    var serial := SerialOf(row, fm);
    var keyField := fm.key.GetOr("NetworkChartType");
    var valueField := fm.value.GetOr("Value");
    if !(HasKey(row, keyField) && HasKey(row, valueField)) {
      var f := FlatPart(i, serial, row, limits, toFloat);
      CollectSameRow(f, i, 0, |limits|);
    }
  }

  /** A record row whose value reads as the number `val` (a parsed text, a
      number or a boolean) is reported exactly when the number lies outside
      the bounds of its key, a missing bound being no bound at all. */
  lemma RecordVerdict(i: nat, serial: string, row: Row, limits: Dict<Bounds>,
                      keyField: string, valueField: string, nameField: string, toFloat: FloatParser, val: real)
    requires Truthy(RowGet(row, keyField, Null))
    requires RowGet(row, valueField, Str("")) != Str("") && FloatOf(RowGet(row, valueField, Str("")), toFloat) == Ok(Some(val))
    ensures var b := LookupBounds(limits, RowGet(row, keyField, Null));
      RecordFindings(i, serial, row, limits, keyField, valueField, nameField, toFloat).Ok?
      && (|RecordFindings(i, serial, row, limits, keyField, valueField, nameField, toFloat).value| == 1
          <==> OutOfBounds(val, b.0, b.1))
  {
  }

  /** A flat row whose limit column holds a text that reads as `val` once a
      comma is taken for the decimal point is reported exactly when `val`
      lies outside the bounds. */
  lemma FlatVerdict(i: nat, serial: string, row: Row, key: string, bounds: Bounds, toFloat: FloatParser, t: string, val: real)
    requires RowGet(row, key, Str("")) == Str(t) && t != ""
    requires toFloat(Replace(t, ",", ".")) == Some(val)
    ensures FlatOne(i, serial, row, key, bounds, toFloat).Ok?
    ensures |FlatOne(i, serial, row, key, bounds, toFloat).value| == 1 <==> OutOfBounds(val, bounds.0, bounds.1)
  {
  }

  /** A flat row that holds none of the limit keys reports each of them as
      a missing value, in the order of the limits. */
  lemma FlatAllMissing(i: nat, serial: string, row: Row, limits: Dict<Bounds>, toFloat: FloatParser)
    requires forall j :: 0 <= j < |limits| ==> !HasKey(row, limits[j].0)
    ensures FlatFindings(i, serial, row, limits, toFloat).Ok?
    ensures |FlatFindings(i, serial, row, limits, toFloat).value| == |limits|
    ensures forall j :: 0 <= j < |limits| ==>
      FlatFindings(i, serial, row, limits, toFloat).value[j] == MissingValue(i, serial, Str(limits[j].0))
  {
    var g := (j: nat) => if j < |limits| then MissingValue(i, serial, Str(limits[j].0)) else MissingValue(i, serial, Str(""));
    CollectSingles(FlatPart(i, serial, row, limits, toFloat), g, 0, |limits|);
  }

  /** A blank serial field reads as "N/A", but one of blanks only is kept,
      stripped to the empty string. */
  lemma SerialOfBlank(row: Row, fm: FieldMap)
    requires GetField(row, fm.serial.GetOr(Names(["SerialNumber"]))) == Str("  ")
    ensures SerialOf(row, fm) == ""
  {
    assert AllSpace("  ");
  }
}
