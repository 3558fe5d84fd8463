/** The value-collecting rules of `ProcessAdacData` (FileParser/Program.cs):
    the equals-pairs rule that reads `Key = Value` pairs off one line, and
    the label/value table rules that read a header line and the row one or
    two lines below it. Every rule of every phase is one `TableRule` value;
    the phase blocks that use them are in `AdacScan`. */
module AdacRules {
  import opened Outcomes
  import opened Text
  import opened OrderedDict
  import opened Tokens

  /** `decimal.Parse`: the number a text denotes, if it denotes one. */
  type Parser = string -> Option<real>

  /** What a value row goes through before `RemoveAt(0)`: nothing, a
      `Where(x => !string.IsNullOrEmpty(x))` before it, or the same filter
      after it. */
  datatype Filter = NoFilter | FilterBefore | FilterAfter

  /** One label/value table rule.
      - It fires when the trimmed line contains one of `triggers` and line
        `j + ahead` contains `probe`.
      - Keys come from the line split by `keySep`, with the `TRIGG` columns
        renamed by position when `renameTrigg`, and with the first key
        dropped when `dropKeyHead`.
      - Values come from line `j + ahead` split on runs of two or more
        blanks, filtered as `filter` says, without the first one.
      - `tonCheck` marks the rule that also runs the "Ton Read" limit check.
      - A `stub` rule only looks at its lines and then does nothing. */
  datatype TableRule = TableRule(
    triggers: seq<string>, ahead: nat, probe: string, stub: bool,
    keySep: Separator, dropKeyHead: bool, filter: Filter, renameTrigg: bool, tonCheck: bool)

  /** The only key of the phase 1 limit table, and its bounds 1000..3000. */
  const TonKey: string := "Ton Read"

  predicate TonInRange(x: real) {
    1000.0 <= x <= 3000.0
  }

  /** The effect of one rule: the line index after it, the values map, and
      whether a "Ton Read" value fell inside its limits. */
  type RuleOutcome = (nat, Dict<string>, bool)

  // ---------------------------------------------------------------------
  // Keys and values of a table rule

  /** `keys.Select((item, index) => item.Contains("TRIGG") ? $"TRIGG{index + 1}" : item)`. */
  function RenameTrigg(keys: seq<string>): (r: seq<string>)
    ensures |r| == |keys|
    ensures forall i :: 0 <= i < |keys| ==>
      r[i] == if Contains(keys[i], "TRIGG") then "TRIGG" + NatToString(i + 1) else keys[i]
  {
    seq(|keys|, i requires 0 <= i < |keys| =>
      if Contains(keys[i], "TRIGG") then "TRIGG" + NatToString(i + 1) else keys[i])
  }

  /** `Where(x => !string.IsNullOrEmpty(x))`. */
  function NonEmpty(vs: seq<string>): (r: seq<string>)
    ensures |r| <= |vs|
    ensures forall k :: 0 <= k < |r| ==> r[k] != [] && r[k] in vs
    ensures forall v :: v in vs && v != [] ==> v in r
    decreases |vs|
  {
    if |vs| == 0 then []
    else if vs[0] == [] then NonEmpty(vs[1..])
    else [vs[0]] + NonEmpty(vs[1..])
  }

  /** The keys of a rule that fired on `clean`. */
  function RuleKeys(r: TableRule, clean: string): seq<string> {
    var k0 := Split(r.keySep, clean);
    var k1 := if r.renameTrigg then RenameTrigg(k0) else k0;
    if r.dropKeyHead then k1[1..] else k1
  }

  /** The values of a rule read from line `row`; `RemoveAt(0)` of an empty
      list throws. */
  function RuleValues(r: TableRule, row: string): Result<seq<string>> {
    var raw := SplitWide(row);
    var v0 := if r.filter == FilterBefore then NonEmpty(raw) else raw;
    if |v0| == 0 then Err(ArgumentOutOfRange)
    else Ok(if r.filter == FilterAfter then NonEmpty(v0[1..]) else v0[1..])
  }

  // ---------------------------------------------------------------------
  // The pair loops

  /** The entries a table rule writes: `prefix + keys[i]` to `values[i]`
      for every value. */
  function Zip(prefix: string, keys: seq<string>, vals: seq<string>): (r: Dict<string>)
    requires |vals| <= |keys|
    ensures |r| == |vals|
    ensures forall i :: 0 <= i < |vals| ==> r[i] == (prefix + keys[i], vals[i])
  {
    seq(|vals|, i requires 0 <= i < |vals| => (prefix + keys[i], vals[i]))
  }

  /** The checks of `for (i = 0; i < values.Count; i++) seq1Values[prefix + keys[i]] = values[i]`
      from `i` on: the indexer throws once `i` passes the end of `keys`, and
      with `ton` a "Ton Read" value goes through `decimal.Parse`, which
      throws on a text that is not a number. The result is whether some
      "Ton Read" value lay within its limits. */
  function PairsCheck(keys: seq<string>, vals: seq<string>, ton: bool, parse: Parser, i: nat)
    : (r: Result<bool>)
    ensures r.Ok? ==> |vals| <= |keys| || |vals| <= i
    decreases |vals| - i
  {
    if i >= |vals| then Ok(false)
    else if i >= |keys| then Err(ArgumentOutOfRange)
    else if ton && keys[i] == TonKey then
      match parse(vals[i])
      case None => Err(FormatError(vals[i]))
      case Some(x) =>
        var rest :- PairsCheck(keys, vals, ton, parse, i + 1);
        Ok(rest || TonInRange(x))
    else PairsCheck(keys, vals, ton, parse, i + 1)
  }

  /** The pair loop of a table rule: its first failure, or the entries it
      writes into `d` and whether the limit check passed. */
  function PairsRun(prefix: string, keys: seq<string>, vals: seq<string>, d: Dict<string>,
                    ton: bool, parse: Parser): (r: Result<(Dict<string>, bool)>)
  {
    var hit :- PairsCheck(keys, vals, ton, parse, 0);
    Ok((PutAll(d, Zip(prefix, keys, vals)), hit))
  }

  /** A partial result `hit` followed by the checks still to run. */
  function Joined(hit: bool, rest: Result<bool>): Result<bool> {
    if rest.Err? then rest else Ok(hit || rest.value)
  }

  /** Whether the pair at `i` passes the limit check. */
  predicate TonHit(key: string, value: string, ton: bool, parse: Parser) {
    ton && key == TonKey && parse(value).Some? && TonInRange(parse(value).value)
  }

  lemma PairsCheckStep(keys: seq<string>, vals: seq<string>, ton: bool, parse: Parser, i: nat, hit: bool)
    requires i < |vals| && i < |keys|
    requires !(ton && keys[i] == TonKey && parse(vals[i]).None?)
    ensures Joined(hit, PairsCheck(keys, vals, ton, parse, i))
            == Joined(hit || TonHit(keys[i], vals[i], ton, parse), PairsCheck(keys, vals, ton, parse, i + 1))
  {
  }

  method AssignPairs(prefix: string, keys: seq<string>, vals: seq<string>, d0: Dict<string>,
                     ton: bool, parse: Parser)
    returns (r: Result<(Dict<string>, bool)>)
    ensures r == PairsRun(prefix, keys, vals, d0, ton, parse)
  {
    var d := d0;
    var hit := false;
    for i := 0 to |vals|
      invariant i <= |keys|
      invariant d == PutAll(d0, Zip(prefix, keys, vals[..i]))
      invariant Joined(hit, PairsCheck(keys, vals, ton, parse, i)) == PairsCheck(keys, vals, ton, parse, 0)
    {
      if i >= |keys| {
        return Err(ArgumentOutOfRange);
      }
      var value := vals[i];
      var key := keys[i];
      if ton && key == TonKey && parse(value).None? {
        return Err(FormatError(value));
      }
      PairsCheckStep(keys, vals, ton, parse, i, hit);
      ZipSnoc(prefix, keys, vals, i);
      PutAllSnoc(d0, Zip(prefix, keys, vals[..i]), prefix + key, value);
      d := Put(d, prefix + key, value);
      if ton && key == TonKey {
        var x := parse(value);
        hit := hit || TonInRange(x.value);
      }
    }
    assert vals[..|vals|] == vals;
    r := Ok((d, hit));
  }

  lemma ZipSnoc(prefix: string, keys: seq<string>, vals: seq<string>, i: nat)
    requires i < |vals| && i < |keys|
    ensures Zip(prefix, keys, vals[..i + 1]) == Zip(prefix, keys, vals[..i]) + [(prefix + keys[i], vals[i])]
  {
  }

  /** The entries the equals rule writes: `prefix + parts[2k]` to
      `parts[2k + 1]` for every complete pair. */
  function EqualsPairs(prefix: string, parts: seq<string>): (r: Dict<string>)
    ensures |r| == |parts| / 2
    ensures forall k :: 0 <= k < |parts| / 2 ==> r[k] == (prefix + parts[2 * k], parts[2 * k + 1])
  {
    seq(|parts| / 2, k requires 0 <= k < |parts| / 2 => (prefix + parts[2 * k], parts[2 * k + 1]))
  }

  /** The checks of `for (i = 0; i < parts.Length - 1; i += 2) seq1Values[prefix + parts[i]] = parts[i + 1]`
      from `i` on, with the "Ton Read" check when `ton`. */
  function EqualsCheck(parts: seq<string>, ton: bool, parse: Parser, i: nat): (r: Result<bool>)
    ensures !ton ==> r == Ok(false)
    decreases |parts| - i
  {
    if i + 1 >= |parts| then Ok(false)
    else if ton && parts[i] == TonKey then
      match parse(parts[i + 1])
      case None => Err(FormatError(parts[i + 1]))
      case Some(x) =>
        var rest :- EqualsCheck(parts, ton, parse, i + 2);
        Ok(rest || TonInRange(x))
    else EqualsCheck(parts, ton, parse, i + 2)
  }

  function EqualsRun(prefix: string, parts: seq<string>, d: Dict<string>, ton: bool, parse: Parser)
    : (r: Result<(Dict<string>, bool)>)
  {
    var hit :- EqualsCheck(parts, ton, parse, 0);
    Ok((PutAll(d, EqualsPairs(prefix, parts)), hit))
  }

  lemma EqualsCheckStep(parts: seq<string>, ton: bool, parse: Parser, i: nat, hit: bool)
    requires i + 1 < |parts|
    requires !(ton && parts[i] == TonKey && parse(parts[i + 1]).None?)
    ensures Joined(hit, EqualsCheck(parts, ton, parse, i))
            == Joined(hit || TonHit(parts[i], parts[i + 1], ton, parse), EqualsCheck(parts, ton, parse, i + 2))
  {
  }

  method AssignEquals(prefix: string, parts: seq<string>, d0: Dict<string>, ton: bool, parse: Parser)
    returns (r: Result<(Dict<string>, bool)>)
    ensures r == EqualsRun(prefix, parts, d0, ton, parse)
  {
    var d := d0;
    var hit := false;
    var i := 0;
    while i + 1 < |parts|
      invariant i % 2 == 0 && i <= |parts|
      invariant d == PutAll(d0, EqualsPairs(prefix, parts[..i]))
      invariant Joined(hit, EqualsCheck(parts, ton, parse, i)) == EqualsCheck(parts, ton, parse, 0)
      decreases |parts| - i
    {
      var key := parts[i];
      var value := parts[i + 1];
      if ton && key == TonKey && parse(value).None? {
        return Err(FormatError(value));
      }
      EqualsCheckStep(parts, ton, parse, i, hit);
      EqualsPairsStep(prefix, parts, i);
      PutAllSnoc(d0, EqualsPairs(prefix, parts[..i]), prefix + key, value);
      d := Put(d, prefix + key, value);
      if ton && key == TonKey {
        var x := parse(value);
        hit := hit || TonInRange(x.value);
      }
      i := i + 2;
    }
    EqualsPairsDone(prefix, parts, i);
    r := Ok((d, hit));
  }

  lemma EqualsPairsStep(prefix: string, parts: seq<string>, i: nat)
    requires i % 2 == 0 && i + 1 < |parts|
    ensures EqualsPairs(prefix, parts[..i + 2])
            == EqualsPairs(prefix, parts[..i]) + [(prefix + parts[i], parts[i + 1])]
  {
    var l := EqualsPairs(prefix, parts[..i + 2]);
    var r := EqualsPairs(prefix, parts[..i]) + [(prefix + parts[i], parts[i + 1])];
    assert |l| == |r|;
    forall k | 0 <= k < |l| ensures l[k] == r[k] {
      if k < i / 2 {
        assert parts[..i + 2][2 * k] == parts[..i][2 * k];
        assert parts[..i + 2][2 * k + 1] == parts[..i][2 * k + 1];
      }
    }
  }

  lemma EqualsPairsDone(prefix: string, parts: seq<string>, i: nat)
    requires i % 2 == 0 && i <= |parts| && i + 1 >= |parts|
    ensures EqualsPairs(prefix, parts[..i]) == EqualsPairs(prefix, parts)
  {
    var l := EqualsPairs(prefix, parts[..i]);
    var r := EqualsPairs(prefix, parts);
    assert |l| == |r|;
    forall k | 0 <= k < |l| ensures l[k] == r[k] {
      assert parts[..i][2 * k] == parts[2 * k];
      assert parts[..i][2 * k + 1] == parts[2 * k + 1];
    }
  }

  // ---------------------------------------------------------------------
  // One table rule

  predicate ContainsAny(s: string, ps: seq<string>) {
    exists k :: 0 <= k < |ps| && Contains(s, ps[k])
  }

  /** Whether rule `r` fires at line `j`, or reading its look-ahead line
      runs past the end of the input. */
  predicate RuleTriggered(r: TableRule, clean: string) {
    ContainsAny(clean, r.triggers)
  }

  /** Rule `r` at line `j` reads its row and skips a line. */
  predicate RuleFires(r: TableRule, lines: seq<string>, j: nat, clean: string) {
    RuleTriggered(r, clean) && j + r.ahead < |lines| && Contains(lines[j + r.ahead], r.probe) && !r.stub
  }

  /** Rule `r` at line `j` (whose trimmed text is `clean`): a rule that
      fires writes its pairs and skips one line. */
  function RuleStep(r: TableRule, lines: seq<string>, j: nat, clean: string, prefix: string,
                    d: Dict<string>, parse: Parser): (o: Result<RuleOutcome>)
    ensures o.Ok? ==> o.value.0 == j || o.value.0 == j + 1
    ensures o.Ok? && o.value.0 == j ==> o.value.1 == d && !o.value.2
    ensures !RuleTriggered(r, clean) ==> o == Ok((j, d, false))
    ensures RuleTriggered(r, clean) && j + r.ahead >= |lines| ==> o == Err(IndexOutOfRange)
    ensures o.Ok? && RuleFires(r, lines, j, clean) ==> o.value.0 == j + 1
  {
    if !RuleTriggered(r, clean) then Ok((j, d, false))
    else if j + r.ahead >= |lines| then Err(IndexOutOfRange)
    else if !Contains(lines[j + r.ahead], r.probe) || r.stub then Ok((j, d, false))
    else
      var keys := RuleKeys(r, clean);
      var vals :- RuleValues(r, lines[j + r.ahead]);
      if |keys| > 0 && |vals| > 0 then
        var pr :- PairsRun(prefix, keys, vals, d, r.tonCheck, parse);
        Ok((j + 1, pr.0, pr.1))
      else Ok((j + 1, d, false))
  }

  method ApplyRule(r: TableRule, lines: seq<string>, j: nat, clean: string, prefix: string,
                   d: Dict<string>, parse: Parser)
    returns (o: Result<RuleOutcome>)
    ensures o == RuleStep(r, lines, j, clean, prefix, d, parse)
  {
    var fires := false;
    for k := 0 to |r.triggers|
      invariant fires <==> exists k' :: 0 <= k' < k && Contains(clean, r.triggers[k'])
    {
      if Contains(clean, r.triggers[k]) {
        fires := true;
      }
    }
    if !fires {
      return Ok((j, d, false));
    }
    if j + r.ahead >= |lines| {
      return Err(IndexOutOfRange);
    }
    if !Contains(lines[j + r.ahead], r.probe) || r.stub {
      return Ok((j, d, false));
    }
    var keys := RuleKeys(r, clean);
    var values := RuleValues(r, lines[j + r.ahead]);
    if values.Err? {
      return Err(values.fault);
    }
    if |keys| > 0 && |values.value| > 0 {
      var pr := AssignPairs(prefix, keys, values.value, d, r.tonCheck, parse);
      if pr.Err? {
        return Err(pr.fault);
      }
      o := Ok((j + 1, pr.value.0, pr.value.1));
    } else {
      o := Ok((j + 1, d, false));
    }
  }

  // ---------------------------------------------------------------------
  // Properties of the pair loops

  lemma {:induction false} PairsCheckErrWhenLonger(keys: seq<string>, vals: seq<string>, parse: Parser, i: nat)
    requires i <= |keys| < |vals|
    ensures PairsCheck(keys, vals, false, parse, i) == Err(ArgumentOutOfRange)
    decreases |keys| - i
  {
    if i < |keys| {
      PairsCheckErrWhenLonger(keys, vals, parse, i + 1);
    }
  }

  lemma {:induction false} PairsCheckOkWhenCovered(keys: seq<string>, vals: seq<string>, parse: Parser, i: nat)
    requires |vals| <= |keys|
    ensures PairsCheck(keys, vals, false, parse, i) == Ok(false)
    decreases |vals| - i
  {
    if i < |vals| {
      PairsCheckOkWhenCovered(keys, vals, parse, i + 1);
    }
  }

  /** Outside the limit check, a table rule's pair loop throws exactly when
      the values outnumber the keys; otherwise it writes `prefix + keys[i]`
      to `values[i]` for every value, which leaves each such key holding
      its value when the keys used are distinct, and every other key as it
      was. Keys beyond the last value are not used. */
  lemma PairsRunMeaning(prefix: string, keys: seq<string>, vals: seq<string>, d: Dict<string>, parse: Parser)
    ensures PairsRun(prefix, keys, vals, d, false, parse).Err? <==> |vals| > |keys|
    ensures |vals| > |keys| ==> PairsRun(prefix, keys, vals, d, false, parse) == Err(ArgumentOutOfRange)
    ensures |vals| <= |keys| && (forall a, b :: 0 <= a < b < |vals| ==> keys[a] != keys[b]) ==>
      var r := PairsRun(prefix, keys, vals, d, false, parse).value.0;
      (forall a :: 0 <= a < |vals| ==> Get(r, prefix + keys[a]) == Some(vals[a]))
      && (forall k :: (forall a :: 0 <= a < |vals| ==> k != prefix + keys[a]) ==> Get(r, k) == Get(d, k))
  {
    if |vals| > |keys| {
      PairsCheckErrWhenLonger(keys, vals, parse, 0);
    } else {
      PairsCheckOkWhenCovered(keys, vals, parse, 0);
      if forall a, b :: 0 <= a < b < |vals| ==> keys[a] != keys[b] {
        var z := Zip(prefix, keys, vals);
        forall a, b | 0 <= a < b < |z| ensures z[a].0 != z[b].0 {
          if z[a].0 == z[b].0 {
            PrefixInjective(prefix, keys[a], keys[b]);
          }
        }
        PutAllGet(d, z);
      }
    }
  }

  lemma PrefixInjective(prefix: string, a: string, b: string)
    requires prefix + a == prefix + b
    ensures a == b
  {
    assert a == (prefix + a)[|prefix|..];
    assert b == (prefix + b)[|prefix|..];
  }

  /** The limit check throws on a "Ton Read" value that is not a number. */
  lemma TonReadNotNumberThrows(prefix: string, rest: seq<string>, v: string, d: Dict<string>, parse: Parser)
    requires parse(v).None?
    ensures EqualsRun(prefix, [TonKey, v] + rest, d, true, parse) == Err(FormatError(v))
  {
    var parts := [TonKey, v] + rest;
    assert parts[0] == TonKey && parts[1] == v;
  }
}
