/** A `Dictionary<string, V>` of .NET (Python `dict` alike) together with its
    enumeration order. Nothing in the modelled code removes single entries,
    so both enumerate in first-insertion order: an update of a present key
    keeps that key's place, a new key goes to the end. */
module OrderedDict {
  import opened Outcomes

  type Dict<V> = seq<(string, V)>

  function Keys<V>(d: Dict<V>): (r: seq<string>)
    ensures |r| == |d| && forall i :: 0 <= i < |d| ==> r[i] == d[i].0
  {
    seq(|d|, i requires 0 <= i < |d| => d[i].0)
  }

  /** `Values` in enumeration order. */
  function Values<V>(d: Dict<V>): (r: seq<V>)
    ensures |r| == |d| && forall i :: 0 <= i < |d| ==> r[i] == d[i].1
  {
    seq(|d|, i requires 0 <= i < |d| => d[i].1)
  }

  predicate HasKey<V>(d: Dict<V>, k: string) {
    k in Keys(d)
  }

  /** No key is listed twice: what every `Dictionary` satisfies. */
  ghost predicate UniqueKeys<V>(d: Dict<V>) {
    forall i, j :: 0 <= i < j < |d| ==> d[i].0 != d[j].0
  }

  /** The position of `k`, or -1. */
  function KeyIndex<V>(d: Dict<V>, k: string): (r: int)
    ensures r == -1 <==> !HasKey(d, k)
    ensures r != -1 ==> 0 <= r < |d| && d[r].0 == k
    ensures r != -1 ==> forall i :: 0 <= i < r ==> d[i].0 != k
    decreases |d|
  {
    if |d| == 0 then -1
    else if d[0].0 == k then 0
    else
      var t := KeyIndex(d[1..], k);
      assert Keys(d) == [d[0].0] + Keys(d[1..]);
      if t == -1 then -1 else t + 1
  }

  /** `TryGetValue`. */
  function Get<V>(d: Dict<V>, k: string): (r: Option<V>)
    ensures r.Some? <==> HasKey(d, k)
  {
    var i := KeyIndex(d, k);
    if i == -1 then None else Some(d[i].1)
  }

  /** Appending an entry for an absent key moves no other key. */
  lemma AppendKeyIndex<V>(d: Dict<V>, k: string, v: V, k': string)
    requires !HasKey(d, k)
    ensures KeyIndex(d + [(k, v)], k') == if k' == k then |d| else KeyIndex(d, k')
  {
    var r := d + [(k, v)];
    assert Keys(r) == Keys(d) + [k];
    var a := KeyIndex(d, k');
    if a == -1 {
      if k' != k {
        assert k' !in Keys(r);
      } else {
        assert forall x :: 0 <= x < |d| ==> r[x].0 != k;
      }
    } else {
      assert r[a].0 == k';
      assert forall x :: 0 <= x < a ==> r[x].0 != k';
    }
  }

  /** Replacing the value of the entry at `k`'s position moves no key. */
  lemma UpdateKeyIndex<V>(d: Dict<V>, i: nat, k: string, v: V, k': string)
    requires i < |d| && KeyIndex(d, k) == i
    ensures KeyIndex(d[i := (k, v)], k') == KeyIndex(d, k')
  {
    var r := d[i := (k, v)];
    assert Keys(r) == Keys(d);
    var a := KeyIndex(d, k');
    if a != -1 {
      assert r[a].0 == k';
      assert forall x :: 0 <= x < a ==> r[x].0 != k';
    }
  }

  /** The indexer assignment `d[k] = v`: replaces the value of a present key
      in place, otherwise appends the entry. */
  function Put<V>(d: Dict<V>, k: string, v: V): (r: Dict<V>)
    ensures Get(r, k) == Some(v)
    ensures forall k' :: k' != k ==> Get(r, k') == Get(d, k')
    ensures HasKey(d, k) ==> |r| == |d| && Keys(r) == Keys(d)
    ensures !HasKey(d, k) ==> r == d + [(k, v)]
    ensures UniqueKeys(d) ==> UniqueKeys(r)
    ensures HasKey(d, k) || |r| == |d| + 1
  {
    var i := KeyIndex(d, k);
    if i == -1 then
      var r := d + [(k, v)];
      AppendKeyIndex(d, k, v, k);
      assert UniqueKeys(d) ==> UniqueKeys(r) by {
        if UniqueKeys(d) {
          forall x, y | 0 <= x < y < |r| ensures r[x].0 != r[y].0 {
            if y == |d| { assert r[x].0 == Keys(d)[x]; }
          }
        }
      }
      forall k' | k' != k ensures Get(r, k') == Get(d, k') {
        AppendKeyIndex(d, k, v, k');
      }
      r
    else
      var r := d[i := (k, v)];
      assert Keys(r) == Keys(d);
      UpdateKeyIndex(d, i, k, v, k);
      forall k' | k' != k ensures Get(r, k') == Get(d, k') {
        UpdateKeyIndex(d, i, k, v, k');
      }
      r
  }

  /** `Dictionary.Add`: throws on a present key. */
  function Add<V>(d: Dict<V>, k: string, v: V): (r: Result<Dict<V>>)
    ensures r.Err? <==> HasKey(d, k)
    ensures r.Err? ==> r.fault == DuplicateKey(k)
    ensures r.Ok? ==> r.value == d + [(k, v)]
    ensures r.Ok? ==> Get(r.value, k) == Some(v)
    ensures r.Ok? ==> forall k' :: k' != k ==> Get(r.value, k') == Get(d, k')
  {
    if HasKey(d, k) then Err(DuplicateKey(k))
    else
      assert Put(d, k, v) == d + [(k, v)];
      Ok(d + [(k, v)])
  }

  /** On a fresh key `Add` agrees with the indexer assignment. */
  lemma AddIsPut<V>(d: Dict<V>, k: string, v: V)
    requires !HasKey(d, k)
    ensures Add(d, k, v) == Ok(Put(d, k, v))
  {
  }

  /** Every entry after `d[k] = v` is the new one or an entry of `d`. */
  lemma PutEntries<V>(d: Dict<V>, k: string, v: V)
    ensures forall i :: 0 <= i < |Put(d, k, v)| ==> Put(d, k, v)[i] == (k, v) || Put(d, k, v)[i] in d
  {
    var i := KeyIndex(d, k);
    if i != -1 {
      var r := d[i := (k, v)];
      assert forall x :: 0 <= x < |r| && x != i ==> r[x] == d[x];
    }
  }

  /** The indexer assignments `d[k] = v` for the pairs of `ps`, in order. */
  function PutAll<V>(d: Dict<V>, ps: Dict<V>): (r: Dict<V>)
    decreases |ps|
  {
    if |ps| == 0 then d else Put(PutAll(d, ps[..|ps| - 1]), ps[|ps| - 1].0, ps[|ps| - 1].1)
  }

  lemma PutAllSnoc<V>(d: Dict<V>, ps: Dict<V>, k: string, v: V)
    ensures PutAll(d, ps + [(k, v)]) == Put(PutAll(d, ps), k, v)
  {
    assert (ps + [(k, v)])[..|ps|] == ps;
  }

  /** After the assignments, a key written once holds its value, and a key
      never written holds what it held before. */
  lemma {:induction false} PutAllGet<V>(d: Dict<V>, ps: Dict<V>)
    requires forall a, b :: 0 <= a < b < |ps| ==> ps[a].0 != ps[b].0
    ensures forall a :: 0 <= a < |ps| ==> Get(PutAll(d, ps), ps[a].0) == Some(ps[a].1)
    ensures forall k :: (forall a :: 0 <= a < |ps| ==> ps[a].0 != k) ==> Get(PutAll(d, ps), k) == Get(d, k)
    decreases |ps|
  {
    if |ps| > 0 {
      var n := |ps| - 1;
      var init := ps[..n];
      PutAllGet(d, init);
      var r0 := PutAll(d, init);
      assert PutAll(d, ps) == Put(r0, ps[n].0, ps[n].1);
      forall a | 0 <= a < n
        ensures Get(PutAll(d, ps), ps[a].0) == Some(ps[a].1)
      {
        assert init[a] == ps[a];
        assert ps[a].0 != ps[n].0;
      }
      forall k | forall a :: 0 <= a < |ps| ==> ps[a].0 != k
        ensures Get(PutAll(d, ps), k) == Get(d, k)
      {
        assert ps[n].0 != k;
        assert forall a :: 0 <= a < n ==> init[a].0 != k;
      }
    }
  }

  /** The last assignment to a key decides its value. */
  lemma {:induction false} PutAllLast<V>(d: Dict<V>, ps: Dict<V>, i: nat)
    requires i < |ps|
    requires forall j :: i < j < |ps| ==> ps[j].0 != ps[i].0
    ensures Get(PutAll(d, ps), ps[i].0) == Some(ps[i].1)
    decreases |ps|
  {
    var n := |ps| - 1;
    var init := ps[..n];
    assert init + [(ps[n].0, ps[n].1)] == ps;
    PutAllSnoc(d, init, ps[n].0, ps[n].1);
    if i < n {
      assert init[i] == ps[i];
      forall j | i < j < n
        ensures init[j].0 != init[i].0
      {
        assert init[j] == ps[j];
      }
      PutAllLast(d, init, i);
      assert ps[n].0 != ps[i].0;
    }
  }

  lemma {:induction false} PutAllAbsent<V>(d: Dict<V>, ps: Dict<V>, k: string)
    requires forall j :: 0 <= j < |ps| ==> ps[j].0 != k
    ensures Get(PutAll(d, ps), k) == Get(d, k)
    decreases |ps|
  {
    if |ps| > 0 {
      var n := |ps| - 1;
      var init := ps[..n];
      forall j | 0 <= j < |init|
        ensures init[j].0 != k
      {
        assert init[j] == ps[j];
      }
      PutAllAbsent(d, init, k);
      var m := PutAll(d, init);
      assert PutAll(d, ps) == Put(m, ps[n].0, ps[n].1);
      assert ps[n].0 != k;
    }
  }
}
