/** The regular expressions of `FileParser/Program.cs`, each written out as
    the scan the .NET engine performs for it (leftmost match, greedy runs,
    the backtracking that can happen). `\s` is `Text.IsSpace`, `\d` is an
    ASCII digit. */
module Tokens {
  import opened Text
  import opened Outcomes

  /** The end of the whitespace run that starts at `p`. */
  function SpanEnd(s: string, p: nat): (q: nat)
    requires p <= |s|
    ensures p <= q <= |s| && (q == |s| || !IsSpace(s[q]))
    ensures forall k :: p <= k < q ==> IsSpace(s[k])
    decreases |s| - p
  {
    if p == |s| || !IsSpace(s[p]) then p else SpanEnd(s, p + 1)
  }

  /** The end of the run of non-whitespace characters that starts at `p`. */
  function InkEnd(s: string, p: nat): (q: nat)
    requires p <= |s|
    ensures p <= q <= |s| && (q == |s| || IsSpace(s[q]))
    ensures forall k :: p <= k < q ==> !IsSpace(s[k])
    decreases |s| - p
  {
    if p == |s| || IsSpace(s[p]) then p else InkEnd(s, p + 1)
  }

  /** The end of the run of ASCII digits that starts at `p`. */
  function DigitsEnd(s: string, p: nat): (q: nat)
    requires p <= |s|
    ensures p <= q <= |s| && (q == |s| || !IsDigit(s[q]))
    decreases |s| - p
  {
    if p == |s| || !IsDigit(s[p]) then p else DigitsEnd(s, p + 1)
  }

  /** Everything `DigitsEnd` passes over is a digit. */
  lemma {:induction false} DigitsEndDigits(s: string, p: nat)
    requires p <= |s|
    ensures forall k :: p <= k < DigitsEnd(s, p) ==> IsDigit(s[k])
    decreases |s| - p
  {
    if p < |s| && IsDigit(s[p]) {
      DigitsEndDigits(s, p + 1);
    }
  }

  // ---------------------------------------------------------------------
  // Regex.Split with the three separator patterns of the burn-in scanner
  // ---------------------------------------------------------------------

  /** The separator patterns given to `Regex.Split`:
      `Wide` is `\s{2,}`, `EqualsOrWide` is `\s+=\s+|\s{2,}` and `BitsKeys`
      is `(?<!SLEW)\s{1,}(?!Rate)`. */
  datatype Separator = Wide | EqualsOrWide | BitsKeys

  /** `\s+=\s+` matches at `p`. */
  predicate EqualsAt(s: string, p: nat)
    requires p <= |s|
  {
    p < |s| && IsSpace(s[p]) &&
    var q := SpanEnd(s, p);
    q + 1 < |s| && s[q] == '=' && IsSpace(s[q + 1])
  }

  /** `\s{2,}` matches at `p`. */
  predicate WideAt(s: string, p: nat)
    requires p <= |s|
  {
    p + 1 < |s| && IsSpace(s[p]) && IsSpace(s[p + 1])
  }

  /** `(?<!SLEW)` holds at `p`. */
  predicate NotAfterSlew(s: string, p: nat)
    requires p <= |s|
  {
    !(p >= 4 && s[p - 4..p] == "SLEW")
  }

  /** `(?<!SLEW)\s{1,}(?!Rate)` matches at `p`: a whitespace run that does
      not follow `SLEW`, shortened by one when `Rate` follows it (possible
      only when the run is at least two long). */
  predicate BitsAt(s: string, p: nat)
    requires p <= |s|
  {
    p < |s| && IsSpace(s[p]) && NotAfterSlew(s, p) &&
    var q := SpanEnd(s, p);
    !StartsWith(s[q..], "Rate") || q - p >= 2
  }

  predicate MatchAt(sep: Separator, s: string, p: nat)
    requires p <= |s|
  {
    match sep
    case Wide => WideAt(s, p)
    case EqualsOrWide => EqualsAt(s, p) || WideAt(s, p)
    case BitsKeys => BitsAt(s, p)
  }

  /** Where the (greedy, first-alternative-first) match at `p` ends. */
  function MatchEnd(sep: Separator, s: string, p: nat): (e: nat)
    requires p <= |s| && MatchAt(sep, s, p)
    ensures p < e <= |s|
  {
    match sep
    case Wide => SpanEnd(s, p)
    case EqualsOrWide =>
      if EqualsAt(s, p) then SpanEnd(s, SpanEnd(s, p) + 1) else SpanEnd(s, p)
    case BitsKeys =>
      var q := SpanEnd(s, p);
      if StartsWith(s[q..], "Rate") then q - 1 else q
  }

  /** The leftmost position `>= from` at which the separator matches, or -1. */
  function FirstMatch(sep: Separator, s: string, from: nat): (p: int)
    requires from <= |s|
    ensures p == -1 || (from <= p < |s| && MatchAt(sep, s, p))
    ensures p == -1 ==> forall k :: from <= k <= |s| ==> !MatchAt(sep, s, k)
    ensures p != -1 ==> forall k :: from <= k < p ==> !MatchAt(sep, s, k)
    decreases |s| - from
  {
    if from == |s| then -1
    else if MatchAt(sep, s, from) then from
    else FirstMatch(sep, s, from + 1)
  }

  function SplitFrom(sep: Separator, s: string, start: nat): (r: seq<string>)
    requires start <= |s|
    ensures |r| >= 1
    ensures FirstMatch(sep, s, start) == -1 ==> r == [s[start..]]
    decreases |s| - start
  {
    var p := FirstMatch(sep, s, start);
    if p == -1 then [s[start..]]
    else [s[start..p]] + SplitFrom(sep, s, MatchEnd(sep, s, p))
  }

  /** `Regex.Split(s, pattern)`: the texts between successive matches,
      including an empty first (last) text when a match starts (ends) the
      input. */
  function Split(sep: Separator, s: string): (r: seq<string>)
    ensures |r| >= 1
    ensures (forall k :: 0 <= k <= |s| ==> !MatchAt(sep, s, k)) ==> r == [s]
  {
    var r := SplitFrom(sep, s, 0);
    assert s[0..] == s;
    r
  }

  /** `Regex.Split(s, @"\s{2,}")`. */
  function SplitWide(s: string): (r: seq<string>)
    ensures |r| >= 1
  {
    Split(Wide, s)
  }

  /** The texts the separator matched while `SplitFrom` cut `s[start..]`,
      in order; each is a non-empty run that starts with whitespace. */
  function SepsFrom(sep: Separator, s: string, start: nat): (r: seq<string>)
    requires start <= |s|
    ensures forall k :: 0 <= k < |r| ==> |r[k]| > 0 && IsSpace(r[k][0])
    decreases |s| - start
  {
    var p := FirstMatch(sep, s, start);
    if p == -1 then []
    else
      var e := MatchEnd(sep, s, p);
      assert MatchAt(sep, s, p) && IsSpace(s[p]);
      [s[p..e]] + SepsFrom(sep, s, e)
  }

  /** The separator matches of `Regex.Split(s, pattern)`, in order. */
  function Seps(sep: Separator, s: string): (r: seq<string>)
    ensures forall k :: 0 <= k < |r| ==> |r[k]| > 0 && IsSpace(r[k][0])
  {
    SepsFrom(sep, s, 0)
  }

  /** `pieces[0] + seps[0] + pieces[1] + ... + pieces[|seps|]`. */
  function Interleave(pieces: seq<string>, seps: seq<string>): string
    requires |pieces| == |seps| + 1
    decreases |seps|
  {
    if |seps| == 0 then pieces[0]
    else pieces[0] + seps[0] + Interleave(pieces[1..], seps[1..])
  }

  /** The pieces of `SplitFrom`, joined again by the matches between them,
      give back the text they were cut from. */
  lemma {:induction false} SplitFromReassembles(sep: Separator, s: string, start: nat)
    requires start <= |s|
    ensures |SplitFrom(sep, s, start)| == |SepsFrom(sep, s, start)| + 1
    ensures Interleave(SplitFrom(sep, s, start), SepsFrom(sep, s, start)) == s[start..]
    decreases |s| - start
  {
    var p := FirstMatch(sep, s, start);
    if p != -1 {
      var e := MatchEnd(sep, s, p);
      SplitFromReassembles(sep, s, e);
      var x, y := SplitFrom(sep, s, e), SepsFrom(sep, s, e);
      assert SplitFrom(sep, s, start) == [s[start..p]] + x;
      assert SepsFrom(sep, s, start) == [s[p..e]] + y;
      InterleaveGlue(s, start, p, e, x, y);
    }
  }

  /** A piece and a match put in front of the reassembly of `s[e..]`. */
  lemma InterleaveGlue(s: string, start: nat, p: nat, e: nat, x: seq<string>, y: seq<string>)
    requires start <= p < e <= |s| && |x| == |y| + 1 && Interleave(x, y) == s[e..]
    ensures Interleave([s[start..p]] + x, [s[p..e]] + y) == s[start..]
  {
    InterleaveCons(s[start..p], x, s[p..e], y);
    SliceJoin(s, start, p, e);
  }

  lemma SliceJoin(s: string, start: nat, p: nat, e: nat)
    requires start <= p <= e <= |s|
    ensures s[start..p] + s[p..e] + s[e..] == s[start..]
  {
  }

  lemma InterleaveCons(a: string, x: seq<string>, b: string, y: seq<string>)
    requires |x| == |y| + 1
    ensures Interleave([a] + x, [b] + y) == a + b + Interleave(x, y)
  {
    assert ([a] + x)[1..] == x;
    assert ([b] + y)[1..] == y;
  }

  /** `Regex.Split` loses nothing: its texts and the matches between them
      are the whole input, and there is one text more than there are
      matches. */
  lemma SplitReassembles(sep: Separator, s: string)
    ensures |Split(sep, s)| == |Seps(sep, s)| + 1
    ensures Interleave(Split(sep, s), Seps(sep, s)) == s
  {
    SplitFromReassembles(sep, s, 0);
    assert s[0..] == s;
  }

  /** The same for the `\s{2,}` split. */
  lemma SplitWideReassembles(s: string)
    ensures |SplitWide(s)| == |Seps(Wide, s)| + 1
    ensures Interleave(SplitWide(s), Seps(Wide, s)) == s
  {
    SplitReassembles(Wide, s);
  }

  /** An input that starts with two whitespace characters splits into an
      empty first text: what the table rules drop with `RemoveAt(0)`. */
  lemma SplitWideLeadingGap(s: string)
    requires |s| >= 2 && IsSpace(s[0]) && IsSpace(s[1])
    ensures SplitWide(s)[0] == ""
  {
    assert MatchAt(Wide, s, 0);
  }

  // ---------------------------------------------------------------------
  // dataRegex of GetStreamCounterResults: \((\d+, \d+, \d+)\)|\S+
  // ---------------------------------------------------------------------

  /** The end of a `\(\d+, \d+, \d+\)` match at `p`, or -1. */
  function TupleEnd(s: string, p: nat): (e: int)
    requires p <= |s|
    ensures e == -1 || (p < e <= |s| && s[p] == '(' && s[e - 1] == ')')
  {
    if p < |s| && s[p] == '(' then
      var a := DigitsEnd(s, p + 1);
      if a > p + 1 && a + 1 < |s| && s[a] == ',' && s[a + 1] == ' ' then
        var b := DigitsEnd(s, a + 2);
        if b > a + 2 && b + 1 < |s| && s[b] == ',' && s[b + 1] == ' ' then
          var c := DigitsEnd(s, b + 2);
          if c > b + 2 && c < |s| && s[c] == ')' then c + 1 else -1
        else -1
      else -1
    else -1
  }

  /** A match value of dataRegex: a tuple, or a run without whitespace. */
  predicate IsStreamToken(t: string) {
    |t| > 0 && (TupleEnd(t, 0) == |t| || forall k :: 0 <= k < |t| ==> !IsSpace(t[k]))
  }

  function StreamTokensFrom(s: string, p: nat): (r: seq<string>)
    requires p <= |s|
    ensures forall k :: 0 <= k < |r| ==> IsStreamToken(r[k])
    decreases |s| - p
  {
    if p == |s| then []
    else if IsSpace(s[p]) then StreamTokensFrom(s, p + 1)
    else
      var t := TupleEnd(s, p);
      var e := if t != -1 then t else InkEnd(s, p);
      var tok := s[p..e];
      assert IsStreamToken(tok) by {
        if t != -1 {
          StreamTupleShift(s, p, t);
        } else {
          forall k | 0 <= k < |tok| ensures !IsSpace(tok[k]) {
            assert tok[k] == s[p + k];
          }
        }
      }
      [tok] + StreamTokensFrom(s, e)
  }

  /** The fields of a tuple match at `p`: where each run of digits ends. */
  lemma TupleFields(s: string, p: nat) returns (a: nat, b: nat, c: nat)
    requires p <= |s| && TupleEnd(s, p) != -1
    ensures s[p] == '(' && a == DigitsEnd(s, p + 1) && a > p + 1 && a + 1 < |s| && s[a] == ',' && s[a + 1] == ' '
    ensures b == DigitsEnd(s, a + 2) && b > a + 2 && b + 1 < |s| && s[b] == ',' && s[b + 1] == ' '
    ensures c == DigitsEnd(s, b + 2) && c > b + 2 && c < |s| && s[c] == ')' && TupleEnd(s, p) == c + 1
  {
    a := DigitsEnd(s, p + 1);
    b := DigitsEnd(s, a + 2);
    c := DigitsEnd(s, b + 2);
  }

  /** A tuple whose fields are found at the start of `u` matches all of it. */
  lemma TupleAtStart(u: string, a: nat, b: nat, c: nat)
    requires |u| > 0 && u[0] == '(' && a == DigitsEnd(u, 1) && a > 1 && a + 1 < |u| && u[a] == ',' && u[a + 1] == ' '
    requires b == DigitsEnd(u, a + 2) && b > a + 2 && b + 1 < |u| && u[b] == ',' && u[b + 1] == ' '
    requires c == DigitsEnd(u, b + 2) && c > b + 2 && c + 1 == |u| && u[c] == ')'
    ensures TupleEnd(u, 0) == |u|
  {
  }

  /** The fields of a tuple matched at `p`, seen in the slice of the match. */
  lemma TupleFieldsShifted(s: string, p: nat, t: int) returns (a: nat, b: nat, c: nat)
    requires p <= |s| && TupleEnd(s, p) == t && t != -1
    ensures var u := s[p..t];
      |u| > 0 && u[0] == '(' && a == DigitsEnd(u, 1) && a > 1 && a + 1 < |u| && u[a] == ',' && u[a + 1] == ' '
      && b == DigitsEnd(u, a + 2) && b > a + 2 && b + 1 < |u| && u[b] == ',' && u[b + 1] == ' '
      && c == DigitsEnd(u, b + 2) && c > b + 2 && c + 1 == |u| && u[c] == ')'
  {
    var a0, b0, c0 := TupleFields(s, p);
    DigitsEndShift(s, p, t, p + 1, 1);
    DigitsEndShift(s, p, t, a0 + 2, (a0 - p) + 2);
    DigitsEndShift(s, p, t, b0 + 2, (b0 - p) + 2);
    SliceChars(s, p, t, a0, b0, c0);
    a, b, c := a0 - p, b0 - p, c0 - p;
  }

  lemma SliceChars(s: string, p: nat, t: nat, a: nat, b: nat, c: nat)
    requires p < a < b < c < t <= |s| && b > a + 1 && c > b + 1
    ensures var u := s[p..t];
      u[0] == s[p] && u[a - p] == s[a] && u[a - p + 1] == s[a + 1]
      && u[b - p] == s[b] && u[b - p + 1] == s[b + 1] && u[c - p] == s[c]
  {
  }

  /** A tuple found inside `s` is found again at the start of its slice. */
  lemma StreamTupleShift(s: string, p: nat, t: int)
    requires p <= |s| && TupleEnd(s, p) == t && t != -1
    ensures TupleEnd(s[p..t], 0) == t - p
  {
    var a, b, c := TupleFieldsShifted(s, p, t);
    TupleAtStart(s[p..t], a, b, c);
  }

  /** A run of digits inside the slice `s[p..t]` ends where it ends in `s`;
      `y` is its start in the slice. */
  lemma {:induction false} DigitsEndShift(s: string, p: nat, t: nat, x: nat, y: nat)
    requires p <= x <= t <= |s| && y == x - p
    requires DigitsEnd(s, x) < t
    ensures DigitsEnd(s[p..t], y) == DigitsEnd(s, x) - p
    decreases t - x
  {
    if x < t && IsDigit(s[x]) {
      DigitsEndShift(s, p, t, x + 1, y + 1);
    }
  }

  /** `dataRegex.Matches(line)` as the list of match values. */
  function StreamTokens(s: string): (r: seq<string>)
    ensures forall k :: 0 <= k < |r| ==> IsStreamToken(r[k])
  {
    StreamTokensFrom(s, 0)
  }

  // ---------------------------------------------------------------------
  // portPattern of ExtractFinalResult1: ^\d+\(\d+,\d+,\d+\)$
  // ---------------------------------------------------------------------

  /** The whole of `t` is `\d+\(\d+,\d+,\d+\)`. */
  predicate PortShape(t: string) {
    var a := DigitsEnd(t, 0);
    a > 0 && a < |t| && t[a] == '(' &&
    var b := DigitsEnd(t, a + 1);
    b > a + 1 && b < |t| && t[b] == ',' &&
    var c := DigitsEnd(t, b + 1);
    c > b + 1 && c < |t| && t[c] == ',' &&
    var d := DigitsEnd(t, c + 1);
    d > c + 1 && d + 1 == |t| && t[d] == ')'
  }

  /** `Regex.IsMatch(t, portPattern)`: `$` also matches before a final newline. */
  predicate IsPortId(t: string) {
    PortShape(t) || (|t| > 0 && t[|t| - 1] == '\n' && PortShape(t[..|t| - 1]))
  }

  /** A port id starts with a digit. */
  lemma PortIdShape(t: string)
    requires IsPortId(t)
    ensures |t| > 0 && IsDigit(t[0])
  {
    if !PortShape(t) {
      assert IsDigit(t[..|t| - 1][0]);
    }
  }

  // ---------------------------------------------------------------------
  // taskPattern of SplitIntoMultipleLines: Task Name\s+:\s+(.*)
  // ---------------------------------------------------------------------

  /** The end of the text `.` can match from `p`: up to the next newline. */
  function LineEnd(s: string, p: nat): (q: nat)
    requires p <= |s|
    ensures p <= q <= |s| && (q == |s| || s[q] == '\n')
    ensures '\n' !in s[p..q]
    decreases |s| - p
  {
    if p == |s| || s[p] == '\n' then p else LineEnd(s, p + 1)
  }

  /** Group 1 of a match of the task pattern that starts at `i`, if one does. */
  function TaskNameAt(s: string, i: nat): Option<string>
    requires i <= |s|
  {
    if !OccursAt(s, "Task Name", i) then None
    else
      var a := SpanEnd(s, i + 9);
      if a == i + 9 || a == |s| || s[a] != ':' then None
      else
        var b := SpanEnd(s, a + 1);
        if b == a + 1 then None else Some(s[b..LineEnd(s, b)])
  }

  function TaskNameFrom(s: string, i: nat): (r: Option<string>)
    requires i <= |s|
    decreases |s| - i
  {
    if TaskNameAt(s, i).Some? then TaskNameAt(s, i)
    else if i == |s| then None
    else TaskNameFrom(s, i + 1)
  }

  /** `Regex.Match(line, taskPattern)`: group 1 of the leftmost match. */
  function TaskNameMatch(s: string): (r: Option<string>)
  {
    TaskNameFrom(s, 0)
  }

  // ---------------------------------------------------------------------
  // GetProcessTimeSummary:
  // ^\s*(\d+)\s+([a-zA-Z\s]+)\s+\d{2}:\d{2}:\d{2}\s+\d{2}:\d{2}:\d{2}\s+(\d+)\s*sec
  // ---------------------------------------------------------------------

  /** The end of the run of `[a-zA-Z\s]` that starts at `p`. */
  function NameEnd(s: string, p: nat): (q: nat)
    requires p <= |s|
    ensures p <= q <= |s|
    ensures forall k :: p <= k < q ==> IsLetter(s[k]) || IsSpace(s[k])
    ensures q == |s| || !(IsLetter(s[q]) || IsSpace(s[q]))
    decreases |s| - p
  {
    if p == |s| || !(IsLetter(s[p]) || IsSpace(s[p])) then p else NameEnd(s, p + 1)
  }

  /** `\d{2}:\d{2}:\d{2}` at `p`. */
  predicate ClockAt(s: string, p: nat) {
    p + 8 <= |s| && IsDigit(s[p]) && IsDigit(s[p + 1]) && s[p + 2] == ':'
    && IsDigit(s[p + 3]) && IsDigit(s[p + 4]) && s[p + 5] == ':'
    && IsDigit(s[p + 6]) && IsDigit(s[p + 7])
  }

  /** The three groups of a process-time row. Group 2 is returned trimmed:
      the caller trims it, and its ends are whitespace given back to the
      surrounding `\s+` anyway. */
  datatype TimeRow = TimeRow(index: string, name: string, seconds: string)

  predicate AllDigits(t: string) {
    forall k :: 0 <= k < |t| ==> IsDigit(t[k])
  }

  /** A run of digits is its own trim. */
  lemma TrimDigits(t: string)
    requires AllDigits(t)
    ensures Trim(t) == t
  {
    assert t == [] || (IsDigit(t[0]) && IsDigit(t[|t| - 1]));
    TrimIdentity(t);
  }

  /** `\d{2}:\d{2}:\d{2}\s+\d{2}:\d{2}:\d{2}\s+` at `n`: where the seconds
      group starts, or -1. */
  function ClocksEnd(s: string, n: nat): (w: int)
    requires n <= |s|
    ensures w == -1 || n < w <= |s|
  {
    if !ClockAt(s, n) then -1
    else
      var w1 := SpanEnd(s, n + 8);
      if w1 == n + 8 || !ClockAt(s, w1) then -1
      else
        var w2 := SpanEnd(s, w1 + 8);
        if w2 == w1 + 8 then -1 else w2
  }

  /** The run `DigitsEnd` finds is all digits. */
  lemma DigitsRun(s: string, p: nat)
    requires p <= |s|
    ensures AllDigits(s[p..DigitsEnd(s, p)])
  {
    var t := s[p..DigitsEnd(s, p)];
    DigitsEndDigits(s, p);
    forall k | 0 <= k < |t| ensures IsDigit(t[k]) { assert t[k] == s[p + k]; }
  }

  /** The three groups of a process-time row, if the line is one. */
  function ProcessTimeMatch(s: string): (r: Option<TimeRow>)
    ensures r.Some? ==> |r.value.index| > 0 && AllDigits(r.value.index)
    ensures r.Some? ==> |r.value.seconds| > 0 && AllDigits(r.value.seconds)
  {
    var p0 := SpanEnd(s, 0);
    var d1 := DigitsEnd(s, p0);
    // (\d+) then \s+ ([a-zA-Z\s]+) \s+ : the class run must begin and end
    // with whitespace and hold at least three characters.
    var n := NameEnd(s, d1);
    if d1 == p0 || n < d1 + 3 || !IsSpace(s[d1]) || !IsSpace(s[n - 1]) then None
    else
      var w2 := ClocksEnd(s, n);
      if w2 == -1 then None
      else
        var d3 := DigitsEnd(s, w2);
        var w3 := SpanEnd(s, d3);
        if d3 == w2 || !StartsWith(s[w3..], "sec") then None
        else
          Some(TimeRowOf(s, p0, d1, Trim(s[d1..n]), w2, d3))
  }

  /** The groups of a matched row: the index run, the name, the seconds
      run. */
  function TimeRowOf(s: string, p0: nat, d1: nat, name: string, w2: nat, d3: nat): (r: TimeRow)
    requires p0 < d1 <= |s| && d1 == DigitsEnd(s, p0)
    requires w2 < d3 <= |s| && d3 == DigitsEnd(s, w2)
    ensures |r.index| > 0 && AllDigits(r.index)
    ensures |r.seconds| > 0 && AllDigits(r.seconds)
  {
    DigitsRun(s, p0);
    DigitsRun(s, w2);
    TimeRow(s[p0..d1], name, s[w2..d3])
  }
}
