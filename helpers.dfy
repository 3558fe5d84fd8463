/** The two string helpers of FileParser/Program.cs: `ExtractValue`, which
    reads the text after a label, and `CleanDragDropFilePath`, which turns
    a path dropped onto a console window into a plain path. */
module Helpers {
  import opened Outcomes
  import opened Text

  // ---------------------------------------------------------------------
  // ExtractValue

  /** The trimmed text after the first occurrence of `key`, or the empty
      string when `line` does not hold `key`. The source adds `key.Length`
      to the index of the match and tests the sum against `key.Length`,
      which fails exactly when the index is -1. */
  function ExtractValue(line: string, key: string): (r: string)
    ensures r == [] || (!IsSpace(r[0]) && !IsSpace(r[|r| - 1]))
    ensures !Contains(line, key) ==> r == []
    ensures Contains(line, key) ==> |r| <= |line| - |key|
  {
    var startIndex := IndexOf(line, key) + |key|;
    if startIndex >= |key| then Trim(line[startIndex..]) else []
  }

  /** A label followed by a value gives the value, trimmed, provided the
      label does not already occur earlier in the line. */
  lemma ExtractValueAfterLabel(a: string, key: string, b: string)
    requires forall i :: 0 <= i < |a| ==> !OccursAt(a + key + b, key, i)
    ensures ExtractValue(a + key + b, key) == Trim(b)
  {
    var line := a + key + b;
    assert line[|a|..|a| + |key|] == key;
    assert OccursAt(line, key, |a|);
    var i := IndexOf(line, key);
    assert i == |a|;
    assert line[|a| + |key|..] == b;
  }

  /** The empty label gives the whole line, trimmed. */
  lemma ExtractValueEmptyKey(line: string)
    ensures ExtractValue(line, []) == Trim(line)
  {
    assert OccursAt(line, [], 0);
    assert line[0..] == line;
  }

  // ---------------------------------------------------------------------
  // CleanDragDropFilePath

  /** Wrapped in one layer of matching double or single quotes. */
  predicate Quoted(s: string) {
    |s| > 1 && ((StartsWith(s, "\"") && EndsWith(s, "\"")) || (StartsWith(s, "'") && EndsWith(s, "'")))
  }

  /** The quote-peeling loop: while quoted, drop the outer quotes and trim. */
  function Peel(s: string): (r: string)
    ensures !Quoted(r)
    ensures |r| <= |s|
    decreases |s|
  {
    if Quoted(s) then Peel(Trim(s[1..|s| - 1])) else s
  }

  /** What `CleanDragDropFilePath` returns: nothing (`null`) for a blank
      input; otherwise the trimmed input without a leading "& " (as
      PowerShell prefixes a dropped path), without its quote layers, with
      every "&&" turned into "&". */
  function CleanPath(input: string): (r: Option<string>)
    ensures r.None? <==> IsBlank(input)
  {
    if IsBlank(input) then None
    else
      var t := Trim(input);
      var u := if StartsWith(t, "& ") then Trim(t[2..]) else t;
      Some(Replace(Peel(u), "&&", "&"))
  }

  method CleanDragDropFilePath(input0: string) returns (r: Option<string>)
    ensures r == CleanPath(input0)
  {
    if IsBlank(input0) {
      return None;
    }
    var input := Trim(input0);
    if StartsWith(input, "& ") {
      input := Trim(input[2..]);
    }
    ghost var start := input;
    while |input| > 1
          && ((StartsWith(input, "\"") && EndsWith(input, "\"")) || (StartsWith(input, "'") && EndsWith(input, "'")))
      invariant Peel(input) == Peel(start)
      decreases |input|
    {
      input := Trim(input[1..|input| - 1]);
    }
    input := Replace(input, "&&", "&");
    r := Some(input);
  }

  /** Replacing "&&" by "&" keeps a non-empty text non-empty, never grows
      it, and keeps its first and its last character unless that character
      is '&'. */
  lemma {:induction false} ReplaceAmpEnds(s: string)
    ensures var r := Replace(s, "&&", "&");
      |r| <= |s| && (|s| > 0 ==> |r| > 0)
      && (|s| > 0 && s[0] != '&' ==> r[0] == s[0])
      && (|s| > 0 && s[|s| - 1] != '&' ==> r[|r| - 1] == s[|s| - 1])
      && (|r| > 0 && r[0] != '&' ==> |s| > 0 && s[0] == r[0])
      && (|r| > 0 && r[|r| - 1] != '&' ==> |s| > 0 && s[|s| - 1] == r[|r| - 1])
    decreases |s|
  {
    if |s| >= 2 {
      if s[..2] == "&&" {
        ReplaceAmpEnds(s[2..]);
        assert s[0] == '&';
        if |s| > 2 {
          assert s[2..][|s[2..]| - 1] == s[|s| - 1];
        } else {
          assert s[1] == '&';
        }
      } else {
        ReplaceAmpEnds(s[1..]);
        assert s[1..][|s[1..]| - 1] == s[|s| - 1];
      }
    }
  }

  /** Replacing "&&" by "&" never wraps a text in quotes. */
  lemma ReplaceKeepsUnquoted(p: string)
    requires !Quoted(p)
    ensures !Quoted(Replace(p, "&&", "&"))
  {
    ReplaceAmpEnds(p);
  }

  /** The cleaned path is never wrapped in matching quotes. */
  lemma CleanPathUnquoted(input: string)
    requires !IsBlank(input)
    ensures !Quoted(CleanPath(input).value)
  {
    var t := Trim(input);
    var u := if StartsWith(t, "& ") then Trim(t[2..]) else t;
    ReplaceKeepsUnquoted(Peel(u));
  }

  /** A path PowerShell drops as `& 'path'` comes back as the bare path. */
  lemma CleanPathPowerShellDrop(p: string)
    requires |p| > 0 && !IsSpace(p[0]) && !IsSpace(p[|p| - 1])
    requires '&' !in p && !Quoted(p)
    ensures CleanPath("& " + Wrapped(p)) == Some(p)
  {
    DropPrefix(p);
    PeelWrapped(p);
    ReplaceWithoutAmp(p);
  }

  lemma DropPrefix(p: string)
    ensures var t := "& " + Wrapped(p);
      Trim(t) == t && !IsBlank(t) && StartsWith(t, "& ") && t[2..] == Wrapped(p)
  {
    var t := "& " + Wrapped(p);
    assert t[0] == '&' && t[|t| - 1] == '\'';
    TrimIdentity(t);
    assert !IsSpace(t[0]);
    assert t[..2] == "& ";
  }

  /** `p` in single quotes. */
  function Wrapped(p: string): (u: string)
    ensures |u| == |p| + 2 && u[0] == '\'' && u[|u| - 1] == '\''
    ensures u[1..|u| - 1] == p
  {
    ['\''] + p + ['\'']
  }

  lemma WrappedTrimmed(p: string)
    ensures Trim(Wrapped(p)) == Wrapped(p)
  {
    TrimIdentity(Wrapped(p));
  }

  lemma WrappedQuoted(p: string)
    ensures Quoted(Wrapped(p))
  {
    var u := Wrapped(p);
    assert u[..1] == "'" && u[|u| - 1..] == "'";
  }

  lemma PeelWrapped(p: string)
    requires |p| > 0 && !IsSpace(p[0]) && !IsSpace(p[|p| - 1]) && !Quoted(p)
    ensures Trim(Wrapped(p)) == Wrapped(p) && Peel(Wrapped(p)) == p
  {
    WrappedTrimmed(p);
    WrappedQuoted(p);
    TrimIdentity(p);
  }

  /** A text without '&' is left alone by the "&&" replacement. */
  lemma {:induction false} ReplaceWithoutAmp(s: string)
    requires '&' !in s
    ensures Replace(s, "&&", "&") == s
    decreases |s|
  {
    if |s| >= 2 {
      assert s[..2] != "&&" by { assert s[0] != '&'; }
      ReplaceWithoutAmp(s[1..]);
      assert s == [s[0]] + s[1..];
    }
  }
}
