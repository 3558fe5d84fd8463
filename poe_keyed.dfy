/** `GetPacketSection` and `GetLearningSection` (FileParser/Program.cs): for
    every line and every key of a fixed list, a line that starts with the
    key (ignoring case) sets that key to the trimmed text after the line's
    first colon. The two differ only in their key lists, so both are one
    method over the list. */
module PoeKeyed {
  import opened Outcomes
  import opened Text
  import opened OrderedDict

  const PacketKeys: seq<string> :=
    ["Frame Count", "Frame Gap", "Burst Count", "Collision Release Gap", "Tx Timeout",
     "Wait for Read Counter"]

  const LearningKeys: seq<string> :=
    ["Learning Count", "Learning Delay", "Learning Gap", "Learning Timeout",
     "Allowable Tolerance Loss(Per Port)", "Allowable Tolerance Excess(Per Port)",
     "Minimum Collision"]

  /** `line.Split(new[] { ':' }, 2).LastOrDefault()?.Trim()`. */
  function KeyedValue(line: string): string {
    Trim(AfterFirst(line, ':'))
  }

  /** The inner loop over the keys, for one line. */
  function KeysStep(keys: seq<string>, d: Dict<string>, line: string): Dict<string>
    decreases |keys|
  {
    if |keys| == 0 then d
    else
      var d' := if StartsWithIgnoreCase(line, keys[0]) then Put(d, keys[0], KeyedValue(line)) else d;
      KeysStep(keys[1..], d', line)
  }

  /** The outer loop over the lines. */
  function KeyedRun(keys: seq<string>, d: Dict<string>, lines: seq<string>): Dict<string>
    decreases |lines|
  {
    if |lines| == 0 then d else KeyedRun(keys, KeysStep(keys, d, lines[0]), lines[1..])
  }

  /** The values a log gives the keys of `keys`. */
  function KeyedValues(keys: seq<string>, lines: seq<string>): Dict<string> {
    KeyedRun(keys, [], lines)
  }

  method ExtractKeyed(keys: seq<string>, lines: seq<string>) returns (r: Dict<string>)
    ensures r == KeyedValues(keys, lines)
  {
    r := [];
    for i := 0 to |lines|
      invariant KeyedRun(keys, r, lines[i..]) == KeyedValues(keys, lines)
    {
      assert lines[i..][0] == lines[i] && lines[i..][1..] == lines[i + 1..];
      var line := lines[i];
      ghost var before := r;
      for j := 0 to |keys|
        invariant KeysStep(keys[j..], r, line) == KeysStep(keys, before, line)
      {
        assert keys[j..][0] == keys[j] && keys[j..][1..] == keys[j + 1..];
        var key := keys[j];
        if StartsWithIgnoreCase(line, key) {
          r := Put(r, key, KeyedValue(line));
        }
      }
    }
  }

  method GetPacketSection(lines: seq<string>) returns (r: Dict<string>)
    ensures r == KeyedValues(PacketKeys, lines)
  {
    r := ExtractKeyed(PacketKeys, lines);
  }

  method GetLearningSection(lines: seq<string>) returns (r: Dict<string>)
    ensures r == KeyedValues(LearningKeys, lines)
  {
    r := ExtractKeyed(LearningKeys, lines);
  }

  /** The position of the last line satisfying `p`, or -1. */
  function LastWhere(p: string -> bool, lines: seq<string>): (j: int)
    ensures -1 <= j < |lines|
    ensures j == -1 <==> forall i :: 0 <= i < |lines| ==> !p(lines[i])
    ensures j != -1 ==> p(lines[j]) && forall i :: j < i < |lines| ==> !p(lines[i])
    decreases |lines|
  {
    if |lines| == 0 then -1
    else if p(lines[|lines| - 1]) then |lines| - 1
    else
      var front := lines[..|lines| - 1];
      assert forall i :: 0 <= i < |front| ==> front[i] == lines[i];
      LastWhere(p, front)
  }

  /** The value the key `k` ends with: that of the last line starting with
      it, if any. */
  function LastMatch(k: string, lines: seq<string>): Option<string> {
    var j := LastWhere(line => StartsWithIgnoreCase(line, k), lines);
    if j == -1 then None else Some(KeyedValue(lines[j]))
  }

  lemma {:induction false} KeysStepGet(keys: seq<string>, d: Dict<string>, line: string, k: string)
    ensures Get(KeysStep(keys, d, line), k) ==
      if k in keys && StartsWithIgnoreCase(line, k) then Some(KeyedValue(line)) else Get(d, k)
    decreases |keys|
  {
    if |keys| > 0 {
      var d' := if StartsWithIgnoreCase(line, keys[0]) then Put(d, keys[0], KeyedValue(line)) else d;
      KeysStepGet(keys[1..], d', line, k);
      assert k in keys <==> k == keys[0] || k in keys[1..];
    }
  }

  lemma {:induction false} KeyedRunAppend(keys: seq<string>, d: Dict<string>, a: seq<string>, line: string)
    ensures KeyedRun(keys, d, a + [line]) == KeysStep(keys, KeyedRun(keys, d, a), line)
    decreases |a|
  {
    if |a| == 0 {
      assert a + [line] == [line];
    } else {
      assert (a + [line])[0] == a[0] && (a + [line])[1..] == a[1..] + [line];
      KeyedRunAppend(keys, KeysStep(keys, d, a[0]), a[1..], line);
    }
  }

  /** A listed key holds the value of the last line that starts with it,
      and is absent when no line does. */
  lemma {:induction false} KeyedValuesLastMatch(keys: seq<string>, lines: seq<string>, k: string)
    requires k in keys
    ensures Get(KeyedValues(keys, lines), k) == LastMatch(k, lines)
    decreases |lines|
  {
    if |lines| == 0 {
      assert !HasKey<string>([], k);
    } else {
      var front := lines[..|lines| - 1];
      var last := lines[|lines| - 1];
      assert lines == front + [last];
      KeyedValuesLastMatch(keys, front, k);
      KeyedRunAppend(keys, [], front, last);
      KeysStepGet(keys, KeyedRun(keys, [], front), last, k);
    }
  }

  /** `KeysStep` over a sub-list `ks` of `keys` keeps every key within `keys`. */
  lemma {:induction false} KeysStepWithin(keys: seq<string>, ks: seq<string>, d: Dict<string>, line: string)
    requires forall k :: k in ks ==> k in keys
    requires forall i :: 0 <= i < |d| ==> d[i].0 in keys
    requires UniqueKeys(d)
    ensures var r := KeysStep(ks, d, line);
      UniqueKeys(r) && forall i :: 0 <= i < |r| ==> r[i].0 in keys
    decreases |ks|
  {
    if |ks| > 0 {
      var d' := if StartsWithIgnoreCase(line, ks[0]) then Put(d, ks[0], KeyedValue(line)) else d;
      if StartsWithIgnoreCase(line, ks[0]) {
        PutWithin(d, ks[0], KeyedValue(line), keys);
      }
      KeysStepWithin(keys, ks[1..], d', line);
    }
  }

  lemma PutWithin(d: Dict<string>, k: string, v: string, keys: seq<string>)
    requires k in keys
    requires forall i :: 0 <= i < |d| ==> d[i].0 in keys
    ensures forall i :: 0 <= i < |Put(d, k, v)| ==> Put(d, k, v)[i].0 in keys
  {
    var r := Put(d, k, v);
    if HasKey(d, k) {
      assert forall i :: 0 <= i < |r| ==> r[i].0 == Keys(r)[i] == Keys(d)[i];
    }
  }

  lemma {:induction false} KeyedRunKeys(keys: seq<string>, d: Dict<string>, lines: seq<string>)
    requires forall i :: 0 <= i < |d| ==> d[i].0 in keys
    requires UniqueKeys(d)
    ensures var r := KeyedRun(keys, d, lines);
      UniqueKeys(r) && forall i :: 0 <= i < |r| ==> r[i].0 in keys
    decreases |lines|
  {
    if |lines| > 0 {
      KeysStepWithin(keys, keys, d, lines[0]);
      KeyedRunKeys(keys, KeysStep(keys, d, lines[0]), lines[1..]);
    }
  }

  /** The result names only listed keys, each once, so it has at most as
      many entries as there are keys. */
  lemma KeyedValuesKeys(keys: seq<string>, lines: seq<string>)
    ensures var r := KeyedValues(keys, lines);
      UniqueKeys(r) && forall i :: 0 <= i < |r| ==> r[i].0 in keys
  {
    KeyedRunKeys(keys, [], lines);
  }
}
