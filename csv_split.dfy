/** scripts/split_csv_tests.py: splitting a CSV export into parts of `n`
    data lines each. The export starts with three filler lines and a
    header line; every part repeats those four lines before its slice of
    the data. */
module CsvSplit {
  import opened Outcomes
  import opened Text

  /** One output file: its part number and its lines. The file is named
      `PartName(prefix, number)`. */
  datatype PartFile = PartFile(number: nat, lines: seq<string>)

  /** The files written, and `part_num` as the closing message prints it. */
  datatype Written = Written(files: seq<PartFile>, partNum: nat)

  /** `f"{prefix}_part{part_num}.csv"`. */
  function PartName(prefix: string, number: nat): string {
    prefix + "_part" + NatToString(number) + ".csv"
  }

  /** `data_lines[i:i+n]`, cut short at the end. */
  function Slice(data: seq<string>, i: nat, n: nat): (r: seq<string>)
    requires i <= |data|
    ensures |r| == if i + n <= |data| then n else |data| - i
  {
    if i + n <= |data| then data[i..i + n] else data[i..]
  }

  /** Where the part after the one at `i` starts. */
  function NextStart(data: seq<string>, i: nat, n: nat): (r: nat)
    requires i < |data| && n > 0
    ensures i < r <= |data|
  {
    if i + n <= |data| then i + n else |data|
  }

  /** The file written for the slice at `i`: number `i // n + 1`. */
  function PartAt(head: seq<string>, data: seq<string>, n: nat, i: nat): PartFile
    requires n > 0 && i <= |data|
  {
    PartFile(i / n + 1, head + Slice(data, i, n))
  }

  /** The parts from data line `i` on. */
  function Parts(head: seq<string>, data: seq<string>, n: nat, i: nat): seq<PartFile>
    requires n > 0 && i <= |data|
    decreases |data| - i
  {
    if i == |data| then []
    else [PartAt(head, data, n, i)] + Parts(head, data, n, NextStart(data, i, n))
  }

  /** What `split_csv_preserve_format` does with the lines of the input
      and `rows_per_split`. Python raises IndexError on fewer than four
      lines, ValueError on a step of 0, and UnboundLocalError at the final
      message when no part was written (no data, or a negative step). */
  function Split(lines: seq<string>, prefix: string, n: int): (r: Result<Written>)
    ensures |lines| < 4 ==> r == Err(PyIndexError)
    ensures |lines| >= 4 && n == 0 ==> r == Err(PyValueError)
    ensures |lines| >= 4 && n != 0 && (n < 0 || |lines| == 4) ==> r == Err(PyUnboundLocal)
  {
    if |lines| < 4 then Err(PyIndexError)
    else if n == 0 then Err(PyValueError)
    else if n < 0 || |lines| == 4 then Err(PyUnboundLocal)
    else
      var files := Parts(lines[..4], lines[4..], n, 0);
      if files == [] then Err(PyUnboundLocal) else Ok(Written(files, files[|files| - 1].number))
  }

  /** One step of `Parts`: the part at `i`, then the rest. */
  lemma PartsAt(head: seq<string>, data: seq<string>, n: nat, i: nat)
    requires n > 0 && i < |data|
    ensures Parts(head, data, n, i) == [PartAt(head, data, n, i)] + Parts(head, data, n, NextStart(data, i, n))
  {
  }

  /** Writing the part at `i` after `done` leaves the parts after it to write. */
  lemma PartsStep(head: seq<string>, data: seq<string>, n: nat, i: nat, done: seq<PartFile>)
    requires n > 0 && i < |data|
    ensures (done + [PartAt(head, data, n, i)]) + Parts(head, data, n, NextStart(data, i, n))
      == done + Parts(head, data, n, i)
  {
    PartsAt(head, data, n, i);
    var rest := Parts(head, data, n, NextStart(data, i, n));
    assert (done + [PartAt(head, data, n, i)]) + rest == done + ([PartAt(head, data, n, i)] + rest);
  }

  /** The `for i in range(0, len(data_lines), n)` loop: writes the parts
      in order and leaves `part_num` at the last one's number, unset when
      no part was written. */
  method WriteParts(head: seq<string>, dataLines: seq<string>, n: nat) returns (files: seq<PartFile>, partNum: Option<nat>)
    requires n > 0
    ensures files == Parts(head, dataLines, n, 0)
    ensures partNum.None? <==> files == []
    ensures partNum.Some? ==> partNum.value == files[|files| - 1].number
  {
    files := [];
    partNum := None;
    var i: nat := 0;
    while i < |dataLines|
      invariant i <= |dataLines|
      invariant files + Parts(head, dataLines, n, i) == Parts(head, dataLines, n, 0)
      invariant partNum.None? <==> files == []
      invariant partNum.Some? ==> partNum.value == files[|files| - 1].number
      decreases |dataLines| - i
    {
      var num := i / n + 1;
      var here := PartFile(num, head + Slice(dataLines, i, n));
      var next := NextStart(dataLines, i, n);
      assert here == PartAt(head, dataLines, n, i);
      PartsStep(head, dataLines, n, i, files);
      files := files + [here];
      partNum := Some(num);
      i := next;
    }
    assert files == files + [];
  }

  method SplitCsvPreserveFormat(lines: seq<string>, prefix: string, rowsPerSplit: int) returns (r: Result<Written>)
    ensures r == Split(lines, prefix, rowsPerSplit)
  {
    if |lines| < 4 {
      return Err(PyIndexError);
    }
    var emptyLines := lines[..3];
    var headerLine := lines[3];
    var dataLines := lines[4..];
    if rowsPerSplit == 0 {
      return Err(PyValueError);
    }
    if rowsPerSplit < 0 {
      return Err(PyUnboundLocal);
    }
    var head := emptyLines + [headerLine];
    assert head == lines[..4];
    var files, partNum := WriteParts(head, dataLines, rowsPerSplit);
    if partNum.None? {
      return Err(PyUnboundLocal);
    }
    r := Ok(Written(files, partNum.value));
  }

  // ---------------------------------------------------------------------
  // Properties

  function Concat(files: seq<PartFile>, head: nat): seq<string>
    decreases |files|
  {
    if files == [] then []
    else var ls := files[0].lines; (if head <= |ls| then ls[head..] else []) + Concat(files[1..], head)
  }

  /** Part `k` from `i` on begins with the leading lines. */
  lemma {:induction false} PartHasHead(head: seq<string>, data: seq<string>, n: nat, i: nat, k: nat)
    requires n > 0 && i <= |data| && k < |Parts(head, data, n, i)|
    ensures var p := Parts(head, data, n, i)[k];
      |p.lines| >= |head| && p.lines[..|head|] == head
    decreases k
  {
    PartsAt(head, data, n, i);
    var next := NextStart(data, i, n);
    if k == 0 {
      PartAtHead(head, data, n, i);
    } else {
      PartHasHead(head, data, n, next, k - 1);
      PartsTail(PartAt(head, data, n, i), Parts(head, data, n, next), k);
    }
  }

  lemma PartAtHead(head: seq<string>, data: seq<string>, n: nat, i: nat)
    requires n > 0 && i <= |data|
    ensures var p := PartAt(head, data, n, i); |p.lines| >= |head| && p.lines[..|head|] == head
  {
    var p := PartAt(head, data, n, i);
    assert p.lines[..|head|] == head;
  }

  lemma PartsTail(p: PartFile, rest: seq<PartFile>, k: nat)
    requires 0 < k <= |rest|
    ensures ([p] + rest)[k] == rest[k - 1]
  {
  }

  /** The slices of the parts from `i` on, in order, give back the data
      from `i` on. */
  lemma {:induction false} PartsConcat(head: seq<string>, data: seq<string>, n: nat, i: nat)
    requires n > 0 && i <= |data|
    ensures Concat(Parts(head, data, n, i), |head|) == data[i..]
    decreases |data| - i
  {
    if i < |data| {
      var next := NextStart(data, i, n);
      PartsConcat(head, data, n, next);
      PartsAt(head, data, n, i);
      PartAtSlice(head, data, n, i);
      ConcatCons(PartAt(head, data, n, i), Parts(head, data, n, next), |head|);
    }
  }

  /** A part holds the head, then its slice, and that slice and the data
      after it are the data from `i` on. */
  lemma PartAtSlice(head: seq<string>, data: seq<string>, n: nat, i: nat)
    requires n > 0 && i < |data|
    ensures var p := PartAt(head, data, n, i);
      |head| <= |p.lines| && p.lines[|head|..] == Slice(data, i, n)
      && data[i..] == Slice(data, i, n) + data[NextStart(data, i, n)..]
  {
    var p := PartAt(head, data, n, i);
    assert p.lines[|head|..] == Slice(data, i, n);
    assert data[i..] == Slice(data, i, n) + data[NextStart(data, i, n)..];
  }

  lemma ConcatCons(p: PartFile, rest: seq<PartFile>, head: nat)
    requires head <= |p.lines|
    ensures Concat([p] + rest, head) == p.lines[head..] + Concat(rest, head)
  {
    assert ([p] + rest)[1..] == rest;
  }

  /** Each part begins with the four leading lines, and the slices, in
      order, give back the data. */
  lemma PartsReassemble(head: seq<string>, data: seq<string>, n: nat, i: nat)
    requires n > 0 && i <= |data|
    ensures var ps := Parts(head, data, n, i);
      (forall k :: 0 <= k < |ps| ==> |ps[k].lines| >= |head| && ps[k].lines[..|head|] == head)
      && Concat(ps, |head|) == data[i..]
  {
    var ps := Parts(head, data, n, i);
    forall k | 0 <= k < |ps|
      ensures |ps[k].lines| >= |head| && ps[k].lines[..|head|] == head
    {
      PartHasHead(head, data, n, i, k);
    }
    PartsConcat(head, data, n, i);
  }

  /** Part `k` from `i` on, `i` being `q` parts in, is numbered
      `q + k + 1`. */
  lemma {:induction false} PartNumbered(head: seq<string>, data: seq<string>, n: nat, i: nat, q: nat, k: nat)
    requires n > 0 && i <= |data| && i == q * n && k < |Parts(head, data, n, i)|
    ensures Parts(head, data, n, i)[k].number == q + k + 1
    decreases k
  {
    PartsAt(head, data, n, i);
    DivUnique(i, n, q);
    if k > 0 {
      var next := NextStart(data, i, n);
      var rest := Parts(head, data, n, next);
      assert rest != [];
      assert next == i + n;
      MulSucc(q, n);
      PartNumbered(head, data, n, next, q + 1, k - 1);
      assert Parts(head, data, n, i)[k] == rest[k - 1];
    }
  }

  /** Every part but the last holds `n` data lines and the last holds 1
      to `n`. */
  lemma {:induction false} PartsSized(head: seq<string>, data: seq<string>, n: nat, i: nat)
    requires n > 0 && i <= |data|
    ensures var ps := Parts(head, data, n, i);
      (forall k :: 0 <= k < |ps| - 1 ==> |ps[k].lines| == |head| + n)
      && (|ps| > 0 ==> |head| + 1 <= |ps[|ps| - 1].lines| <= |head| + n)
    decreases |data| - i
  {
    if i < |data| {
      var ps := Parts(head, data, n, i);
      PartsAt(head, data, n, i);
      var next := NextStart(data, i, n);
      var rest := Parts(head, data, n, next);
      PartsSized(head, data, n, next);
      if rest == [] {
        assert ps == [ps[0]];
      } else {
        assert next == i + n;
        assert ps[|ps| - 1] == rest[|rest| - 1];
        forall k | 1 <= k < |ps| - 1
          ensures |ps[k].lines| == |head| + n
        {
          assert ps[k] == rest[k - 1];
        }
      }
    }
  }

  /** How many slices of `n` cover `m` lines: ⌈m / n⌉, counted one
      slice at a time. */
  function Slices(m: nat, n: nat): nat
    requires n > 0
  {
    if m == 0 then 0 else if m <= n then 1 else 1 + Slices(m - n, n)
  }

  /** One part per slice of the data left. */
  lemma {:induction false} PartsSlices(head: seq<string>, data: seq<string>, n: nat, i: nat)
    requires n > 0 && i <= |data|
    ensures |Parts(head, data, n, i)| == Slices(|data| - i, n)
    decreases |data| - i
  {
    if i < |data| {
      PartsAt(head, data, n, i);
      PartsSlices(head, data, n, NextStart(data, i, n));
    }
  }

  /** No slices only for no lines; otherwise one slice fewer falls short
      of `m` and the count covers it. */
  lemma {:induction false} SlicesBounds(m: nat, n: nat)
    requires n > 0
    ensures Slices(m, n) == 0 <==> m == 0
    ensures Slices(m, n) > 0 ==> (Slices(m, n) - 1) * n < m <= Slices(m, n) * n
    decreases m
  {
    if m > n {
      SlicesBounds(m - n, n);
      MulSucc(Slices(m - n, n) - 1, n);
      MulSucc(Slices(m - n, n), n);
    } else if m > 0 {
      assert Slices(m, n) == 1;
    }
  }

  /** There are no parts only when no data is left; otherwise `n` times
      the count, less one part, falls short of the data left, and `n`
      times the count covers it. */
  lemma PartsCounted(head: seq<string>, data: seq<string>, n: nat, i: nat)
    requires n > 0 && i <= |data|
    ensures var ps := Parts(head, data, n, i);
      (|ps| == 0 <==> i == |data|)
      && (|ps| > 0 ==> (|ps| - 1) * n < |data| - i <= |ps| * n)
  {
    PartsSlices(head, data, n, i);
    SlicesBounds(|data| - i, n);
  }

  lemma MulSucc(x: int, n: int)
    ensures (x + 1) * n == x * n + n
  {
  }

  lemma MulAtLeast(x: int, n: int)
    requires x >= 1 && n > 0
    ensures x * n >= n
  {
  }

  lemma MulDiff(q: int, r: int, n: int)
    ensures q * n - r * n == (q - r) * n
  {
  }

  /** Python's `//` on non-negative operands: the one quotient that fits. */
  lemma DivUnique(a: nat, n: nat, q: nat)
    requires n > 0 && q * n <= a < q * n + n
    ensures a / n == q
  {
    var r := a / n;
    assert a == r * n + a % n;
    MulDiff(q, r, n);
    MulDiff(r, q, n);
    if r < q {
      MulAtLeast(q - r, n);
    } else if r > q {
      MulAtLeast(r - q, n);
    }
  }

  /** The closing message counts the parts: `part_num` ends at the number
      of files written, ⌈data lines / n⌉; every file repeats the four
      leading lines, and the slices, in order, give back the data. */
  lemma SplitCountsParts(lines: seq<string>, prefix: string, n: int)
    requires Split(lines, prefix, n).Ok?
    ensures var w := Split(lines, prefix, n).value;
      n > 0 && |w.files| == (|lines| - 4 + n - 1) / n && w.partNum == |w.files|
      && Concat(w.files, 4) == lines[4..]
      && (forall k :: 0 <= k < |w.files| ==> |w.files[k].lines| >= 4 && w.files[k].lines[..4] == lines[..4] && w.files[k].number == k + 1)
      && (forall k :: 0 <= k < |w.files| - 1 ==> |w.files[k].lines| == 4 + n)
      && 5 <= |w.files[|w.files| - 1].lines| <= 4 + n
  {
    var ps := Parts(lines[..4], lines[4..], n, 0);
    forall k | 0 <= k < |ps|
      ensures ps[k].number == k + 1
    {
      PartNumbered(lines[..4], lines[4..], n, 0, 0, k);
    }
    PartsCounted(lines[..4], lines[4..], n, 0);
    PartsSized(lines[..4], lines[4..], n, 0);
    PartsReassemble(lines[..4], lines[4..], n, 0);
    MulSucc(|ps| - 1, n);
    DivUnique(|lines| - 4 + n - 1, n, |ps|);
  }

  /** One digit exactly for the numbers below ten. */
  lemma NatToStringOneDigit(a: nat)
    ensures |NatToString(a)| == 1 <==> a < 10
  {
    if a >= 10 {
      assert |NatToString(a)| == |NatToString(a / 10)| + 1;
    }
  }

  /** Different decimal renderings for different numbers. */
  lemma {:induction false} NatToStringInjective(a: nat, b: nat)
    requires NatToString(a) == NatToString(b)
    ensures a == b
    decreases a
  {
    var sa, sb := NatToString(a), NatToString(b);
    NatToStringOneDigit(a);
    NatToStringOneDigit(b);
    if a < 10 && b < 10 {
      assert DigitChar(a) == sa[0] == DigitChar(b);
    } else if a >= 10 && b >= 10 {
      var ta, tb := NatToString(a / 10), NatToString(b / 10);
      assert sa[..|sa| - 1] == ta && sb[..|sb| - 1] == tb;
      assert DigitChar(a % 10) == sa[|sa| - 1] == DigitChar(b % 10);
      NatToStringInjective(a / 10, b / 10);
    }
  }

  /** Parts with different numbers are written to different files, so no
      part overwrites another. */
  lemma PartNamesDistinct(prefix: string, a: nat, b: nat)
    requires a != b
    ensures PartName(prefix, a) != PartName(prefix, b)
  {
    if PartName(prefix, a) == PartName(prefix, b) {
      var p := prefix + "_part";
      var sa, sb := NatToString(a), NatToString(b);
      assert PartName(prefix, a) == p + sa + ".csv";
      assert PartName(prefix, b) == p + sb + ".csv";
      assert |sa| == |sb|;
      assert sa == PartName(prefix, a)[|p|..|p| + |sa|];
      assert sb == PartName(prefix, b)[|p|..|p| + |sb|];
      NatToStringInjective(a, b);
    }
  }

  /** An input with at least one data line and a positive step is split
      without error. */
  lemma SplitSucceeds(lines: seq<string>, prefix: string, n: int)
    requires |lines| > 4 && n > 0
    ensures Split(lines, prefix, n).Ok?
  {
    PartsCounted(lines[..4], lines[4..], n, 0);
  }
}
