/** String primitives of .NET and Python that the engine and the scripts use:
    trimming, ordinal search, ASCII case-insensitive prefix tests, the
    single-character splits and replacement. Strings are `seq<char>`. */
module Text {

  /** Whitespace as `char.IsWhiteSpace`, regex `\s` and Python `str.isspace`
      classify it, restricted to the characters this model distinguishes. */
  predicate IsSpace(c: char) {
    c == ' ' || c == '\t' || c == '\n' || c == '\r' || c == '\U{000B}' || c == '\U{000C}'
    || c == '\U{0085}' || c == '\U{00A0}'
  }

  /** `char.IsDigit` / regex `\d`, restricted to ASCII digits. */
  predicate IsDigit(c: char) {
    '0' <= c <= '9'
  }

  /** The regex class `[a-zA-Z]`. */
  predicate IsLetter(c: char) {
    'a' <= c <= 'z' || 'A' <= c <= 'Z'
  }

  predicate AllSpace(s: string) {
    forall i :: 0 <= i < |s| ==> IsSpace(s[i])
  }

  /** `string.IsNullOrWhiteSpace` on a non-null string. */
  predicate IsBlank(s: string) {
    AllSpace(s)
  }

  /** `TrimStart()`: drops the leading whitespace. */
  function TrimStart(s: string): (r: string)
    ensures |r| <= |s| && r == s[|s| - |r|..]
    ensures AllSpace(s[..|s| - |r|])
    ensures r == [] || !IsSpace(r[0])
    decreases |s|
  {
    if |s| > 0 && IsSpace(s[0]) then
      var t := TrimStart(s[1..]);
      TrimStartGrow(s, t);
      t
    else s
  }

  /** `TrimEnd()`: drops the trailing whitespace. */
  function TrimEnd(s: string): (r: string)
    ensures |r| <= |s| && r == s[..|r|]
    ensures AllSpace(s[|r|..])
    ensures r == [] || !IsSpace(r[|r| - 1])
    decreases |s|
  {
    if |s| > 0 && IsSpace(s[|s| - 1]) then
      var t := TrimEnd(s[..|s| - 1]);
      TrimEndGrow(s, t);
      t
    else s
  }

  /** A leading blank put back in front of what `TrimStart` dropped. */
  lemma TrimStartGrow(s: string, t: string)
    requires |s| > 0 && IsSpace(s[0])
    requires |t| <= |s| - 1 && t == s[1..][|s| - 1 - |t|..] && AllSpace(s[1..][..|s| - 1 - |t|])
    ensures t == s[|s| - |t|..] && AllSpace(s[..|s| - |t|])
  {
    assert s[..|s| - |t|] == [s[0]] + s[1..][..|s| - 1 - |t|];
  }

  /** A trailing blank put back after what `TrimEnd` dropped. */
  lemma TrimEndGrow(s: string, t: string)
    requires |s| > 0 && IsSpace(s[|s| - 1])
    requires |t| <= |s| - 1 && t == s[..|s| - 1][..|t|] && AllSpace(s[..|s| - 1][|t|..])
    ensures t == s[..|t|] && AllSpace(s[|t|..])
  {
    assert s[|t|..] == s[..|s| - 1][|t|..] + [s[|s| - 1]];
  }

  /** `Trim()` / Python `strip()`: `s` without its leading and trailing
      whitespace, so a slice with no whitespace at either end, empty exactly
      when `s` is blank. */
  function Trim(s: string): (r: string)
    ensures |r| <= |s|
    ensures r == [] || (!IsSpace(r[0]) && !IsSpace(r[|r| - 1]))
    ensures r == [] <==> AllSpace(s)
  {
    var a := TrimStart(s);
    var r := TrimEnd(a);
    TrimFramed(s, a, r);
    r
  }

  /** The trim is the slice of `s` that only whitespace surrounds. */
  lemma TrimIsFramed(s: string)
    ensures exists i :: SpaceFramed(s, Trim(s), i)
  {
    TrimFramed(s, TrimStart(s), Trim(s));
  }

  /** `s` is `r` with only whitespace before it (`i` characters) and after it. */
  predicate SpaceFramed(s: string, r: string, i: int) {
    0 <= i <= |s| - |r| && r == s[i..i + |r|] && AllSpace(s[..i]) && AllSpace(s[i + |r|..])
  }

  lemma TrimFramed(s: string, a: string, r: string)
    requires |a| <= |s| && a == s[|s| - |a|..] && AllSpace(s[..|s| - |a|])
    requires |r| <= |a| && r == a[..|r|] && AllSpace(a[|r|..])
    requires (a == [] || !IsSpace(a[0])) && (r == [] || !IsSpace(r[|r| - 1]))
    ensures SpaceFramed(s, r, |s| - |a|)
    ensures r == [] || (!IsSpace(r[0]) && !IsSpace(r[|r| - 1]))
    ensures r == [] <==> AllSpace(s)
  {
    var i := |s| - |a|;
    assert a[|r|..] == s[i + |r|..];
    if r == [] {
      assert a == a[|r|..];
      assert s == s[..i] + a;
      AllSpaceConcat(s[..i], a);
    } else {
      assert r[0] == a[0] == s[i];
    }
  }

  lemma AllSpaceConcat(x: string, y: string)
    requires AllSpace(x) && AllSpace(y)
    ensures AllSpace(x + y)
  {
  }

  /** A line that is not blank keeps a first character after `TrimStart()`. */
  lemma {:induction false} TrimStartOfNonBlank(s: string)
    requires !IsBlank(s)
    ensures |TrimStart(s)| > 0
    decreases |s|
  {
    var i :| 0 <= i < |s| && !IsSpace(s[i]);
    if IsSpace(s[0]) {
      assert !IsSpace(s[1..][i - 1]);
      TrimStartOfNonBlank(s[1..]);
    }
  }

  /** A text without whitespace at either end is its own trim. */
  lemma TrimIdentity(s: string)
    requires s == [] || (!IsSpace(s[0]) && !IsSpace(s[|s| - 1]))
    ensures Trim(s) == s
  {
  }

  /** Trimming introduces no character. */
  lemma TrimKeeps(s: string, c: char)
    requires c in Trim(s)
    ensures c in s
  {
    TrimIsFramed(s);
    var i :| SpaceFramed(s, Trim(s), i);
    FramedKeeps(s, Trim(s), i, c);
  }

  lemma FramedKeeps(s: string, r: string, i: int, c: char)
    requires SpaceFramed(s, r, i) && c in r
    ensures c in s
  {
    var j :| 0 <= j < |r| && r[j] == c;
    assert s[i + j] == c;
  }

  predicate StartsWith(s: string, p: string) {
    |p| <= |s| && s[..|p|] == p
  }

  predicate EndsWith(s: string, p: string) {
    |p| <= |s| && s[|s| - |p|..] == p
  }

  /** `p` occurs in `s` at index `i`. */
  predicate OccursAt(s: string, p: string, i: int) {
    0 <= i && i + |p| <= |s| && s[i..i + |p|] == p
  }

  /** Ordinal `IndexOf`: the first occurrence at or after `from`, or -1. */
  function IndexOfFrom(s: string, p: string, from: nat): (r: int)
    ensures r == -1 || (from <= r && OccursAt(s, p, r))
    ensures r == -1 ==> forall i :: from <= i ==> !OccursAt(s, p, i)
    ensures r != -1 ==> forall i :: from <= i < r ==> !OccursAt(s, p, i)
    decreases |s| - from
  {
    if from + |p| > |s| then -1
    else if s[from..from + |p|] == p then from
    else IndexOfFrom(s, p, from + 1)
  }

  function IndexOf(s: string, p: string): (r: int)
    ensures r == -1 || OccursAt(s, p, r)
    ensures r == -1 <==> forall i :: !OccursAt(s, p, i)
    ensures r != -1 ==> forall i :: 0 <= i < r ==> !OccursAt(s, p, i)
  {
    var r := IndexOfFrom(s, p, 0);
    assert r != -1 ==> OccursAt(s, p, r);
    r
  }

  /** Ordinal `Contains`. */
  predicate Contains(s: string, p: string) {
    IndexOf(s, p) >= 0
  }

  lemma ContainsAt(s: string, p: string, i: int)
    requires OccursAt(s, p, i)
    ensures Contains(s, p)
  {
  }

  /** The first index of `c` in `s`, or -1. */
  function IndexOfChar(s: string, c: char): (r: int)
    ensures r == -1 <==> c !in s
    ensures r != -1 ==> 0 <= r < |s| && s[r] == c && c !in s[..r]
    decreases |s|
  {
    if |s| == 0 then -1
    else if s[0] == c then 0
    else
      var k := IndexOfChar(s[1..], c);
      if k == -1 then -1
      else
        assert s[..k + 1] == [s[0]] + s[1..][..k];
        k + 1
  }

  /** The last index of `c` in `s`, or -1. */
  /** The first `c` of `a + [c] + b` is the one after `a` when `a` has none. */
  lemma {:induction false} IndexOfCharAfter(a: string, c: char, b: string)
    requires c !in a
    ensures IndexOfChar(a + [c] + b, c) == |a|
    decreases |a|
  {
    var s := a + [c] + b;
    if |a| > 0 {
      assert s[0] == a[0] && s[1..] == a[1..] + [c] + b;
      IndexOfCharAfter(a[1..], c, b);
    }
  }

  function LastIndexOfChar(s: string, c: char): (r: int)
    ensures r == -1 <==> c !in s
    ensures r != -1 ==> 0 <= r < |s| && s[r] == c && c !in s[r + 1..]
    decreases |s|
  {
    if |s| == 0 then -1
    else if s[|s| - 1] == c then |s| - 1
    else
      var k := LastIndexOfChar(s[..|s| - 1], c);
      assert k != -1 ==> s[k + 1..] == s[..|s| - 1][k + 1..] + [s[|s| - 1]];
      k
  }

  /** The last element of `s.Split(c, 2)`: the text after the first `c`,
      or the whole of `s` when it has none. */
  function AfterFirst(s: string, c: char): (r: string)
    ensures c !in s ==> r == s
    ensures c in s ==> exists i :: 0 <= i < |s| && s[i] == c && c !in s[..i] && r == s[i + 1..]
  {
    var i := IndexOfChar(s, c);
    if i == -1 then s else s[i + 1..]
  }

  /** `s.Split(c).Last()`: the text after the last `c`, or the whole of `s`. */
  function AfterLast(s: string, c: char): (r: string)
    ensures c !in r
    ensures c !in s ==> r == s
    ensures |r| <= |s| && r == s[|s| - |r|..]
    ensures c in s ==> |r| < |s| && s[|s| - |r| - 1] == c
  {
    var i := LastIndexOfChar(s, c);
    if i == -1 then s else s[i + 1..]
  }

  function UpperAscii(c: char): char {
    if 'a' <= c <= 'z' then (c as int - 32) as char else c
  }

  function LowerAscii(c: char): char {
    if 'A' <= c <= 'Z' then (c as int + 32) as char else c
  }

  /** Python `lower()`, restricted to ASCII letters. */
  function Lower(s: string): (r: string)
    ensures |r| == |s| && forall i :: 0 <= i < |s| ==> r[i] == LowerAscii(s[i])
  {
    seq(|s|, i requires 0 <= i < |s| => LowerAscii(s[i]))
  }

  predicate EqualsIgnoreCase(a: string, b: string) {
    |a| == |b| && forall i :: 0 <= i < |a| ==> UpperAscii(a[i]) == UpperAscii(b[i])
  }

  /** `StartsWith(p, OrdinalIgnoreCase)` and the regex `^p` with `IgnoreCase`
      (ASCII case folding). */
  predicate StartsWithIgnoreCase(s: string, p: string) {
    |p| <= |s| && EqualsIgnoreCase(s[..|p|], p)
  }

  predicate EndsWithIgnoreCase(s: string, p: string) {
    |p| <= |s| && EqualsIgnoreCase(s[|s| - |p|..], p)
  }

  lemma StartsWithIsCaseInsensitive(s: string, p: string)
    requires StartsWith(s, p)
    ensures StartsWithIgnoreCase(s, p)
  {
  }

  /** The first index `>= i` that holds a space `' '`, or `|s|`. */
  function WordEnd(s: string, i: nat): (e: nat)
    requires i <= |s|
    ensures i <= e <= |s| && (e == |s| || s[e] == ' ')
    ensures forall k :: i <= k < e ==> s[k] != ' '
    decreases |s| - i
  {
    if i == |s| || s[i] == ' ' then i else WordEnd(s, i + 1)
  }

  /** `s.Split(' ', RemoveEmptyEntries)`: the maximal runs of characters
      other than `' '` (tabs stay inside words). */
  function Words(s: string): (r: seq<string>)
    ensures forall k :: 0 <= k < |r| ==> |r[k]| > 0 && ' ' !in r[k]
    ensures s == [] ==> r == []
    decreases |s|
  {
    if |s| == 0 then []
    else if s[0] == ' ' then Words(s[1..])
    else
      var e := WordEnd(s, 0);
      assert ' ' !in s[..e] by {
        forall k | 0 <= k < e ensures s[..e][k] != ' ' { }
      }
      [s[..e]] + Words(s[e..])
  }

  /** A single space-free, non-empty text is one word. */
  lemma WordsOfWord(w: string)
    requires w != [] && ' ' !in w
    ensures Words(w) == [w]
  {
    assert WordEnd(w, 0) == |w|;
    assert w[..|w|] == w && w[|w|..] == [];
  }

  /** The word scan does not look past the first space after `i`. */
  lemma {:induction false} WordEndBeforeSpace(a: string, b: string, i: nat)
    requires i <= |a|
    ensures WordEnd(a + [' '] + b, i) == WordEnd(a, i)
    decreases |a| - i
  {
    var s := a + [' '] + b;
    if i < |a| && a[i] != ' ' {
      assert s[i] == a[i];
      WordEndBeforeSpace(a, b, i + 1);
    } else if i < |a| {
      assert s[i] == ' ';
    } else {
      assert s[i] == ' ';
    }
  }

  /** A space separates the words on its two sides: together with
      `WordsOfWord` and `Words([]) == []` this fixes the words of any text
      as its maximal space-free runs, in order. */
  lemma {:induction false} WordsAtSpace(a: string, b: string)
    ensures Words(a + [' '] + b) == Words(a) + Words(b)
    decreases |a|
  {
    var s := a + [' '] + b;
    if |a| == 0 {
      assert s == [' '] + b;
      assert s[1..] == b;
    } else if a[0] == ' ' {
      assert s[0] == ' ' && s[1..] == a[1..] + [' '] + b;
      WordsAtSpace(a[1..], b);
    } else {
      var e := WordEnd(a, 0);
      WordEndBeforeSpace(a, b, 0);
      assert s[0] == a[0];
      assert e > 0;
      assert s[..e] == a[..e];
      assert s[e..] == a[e..] + [' '] + b;
      WordsAtSpace(a[e..], b);
    }
  }

  /** Left-to-right, non-overlapping replacement of `pat` by `rep`
      (`string.Replace` and Python `str.replace`). */
  function Replace(s: string, pat: string, rep: string): (r: string)
    requires |pat| > 0
    decreases |s|
  {
    if |s| < |pat| then s
    else if s[..|pat|] == pat then rep + Replace(s[|pat|..], pat, rep)
    else [s[0]] + Replace(s[1..], pat, rep)
  }

  /** Replacing a single character `c` by a text without `c` removes every
      `c` and introduces no character that neither `s` nor `rep` holds. */
  lemma {:induction false} ReplaceChar(s: string, c: char, rep: string)
    ensures c !in rep ==> c !in Replace(s, [c], rep)
    ensures forall d :: d in Replace(s, [c], rep) ==> d in s || d in rep
    decreases |s|
  {
    if |s| >= 1 {
      ReplaceChar(s[1..], c, rep);
      var t := Replace(s[1..], [c], rep);
      if s[..1] == [c] {
        assert Replace(s, [c], rep) == rep + t;
        assert s[1..] == s[|[c]|..];
      } else {
        assert Replace(s, [c], rep) == [s[0]] + t;
        assert s[0] != c;
      }
      forall d | d in s[1..] ensures d in s { }
    }
  }

  /** A text without `c` is left alone by replacing `c`. */
  lemma {:induction false} ReplaceAbsent(s: string, c: char, rep: string)
    requires c !in s
    ensures Replace(s, [c], rep) == s
    decreases |s|
  {
    if |s| >= 1 {
      assert s[..1] != [c] by { assert s[0] != c; }
      ReplaceAbsent(s[1..], c, rep);
      assert s == [s[0]] + s[1..];
    }
  }

  function DigitChar(d: nat): char
    requires d < 10
  {
    ('0' as int + d) as char
  }

  /** Decimal rendering of a natural number (C# interpolation, Python f-string). */
  function NatToString(n: nat): (r: string)
    ensures |r| >= 1
    ensures forall i :: 0 <= i < |r| ==> IsDigit(r[i])
    decreases n
  {
    if n < 10 then [DigitChar(n)] else NatToString(n / 10) + [DigitChar(n % 10)]
  }
}
