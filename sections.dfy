/** `SplitIntoMultipleLines` (FileParser/Program.cs): cuts a PoE log into
    task sections. A section starts at a line matching `Task Name\s+:\s+(.*)`
    and runs up to the next such line; it is stored under the trimmed group. */
module Sections {
  import opened Outcomes
  import opened Text
  import opened Tokens
  import opened OrderedDict

  /** The trimmed task name of a marker line, `None` on other lines. */
  function MarkerName(line: string): (r: Option<string>)
  {
    match TaskNameMatch(line)
    case Some(g) => Some(Trim(g))
    case None => None
  }

  /** A marker recogniser: the section name a line opens, if it opens one.
      The splitter and its properties are stated for any recogniser; the log
      format uses `MarkerName`. */
  type Recognizer = string -> Option<string>

  predicate NoMarker(marker: Recognizer, lines: seq<string>) {
    forall i :: 0 <= i < |lines| ==> marker(lines[i]).None?
  }

  /** The loop state: the sections stored so far, and the name and lines of
      the one being accumulated. */
  datatype SplitState = SplitState(stored: Dict<seq<string>>, name: string, current: seq<string>)

  const SplitInit := SplitState([], "", [])

  /** One iteration of the `foreach`: on a marker the accumulated lines are
      stored (`Dictionary.Add`) when a name is pending, and dropped when not;
      the line then joins the (new) accumulation. */
  function SplitStep(marker: Recognizer, st: SplitState, line: string): Result<SplitState> {
    match marker(line)
    case None => Ok(st.(current := st.current + [line]))
    case Some(n) =>
      if st.name != "" then
        var stored :- Add(st.stored, st.name, st.current);
        Ok(SplitState(stored, n, [line]))
      else Ok(SplitState(st.stored, n, [line]))
  }

  function SplitRun(marker: Recognizer, st: SplitState, lines: seq<string>): Result<SplitState>
    decreases |lines|
  {
    if |lines| == 0 then Ok(st)
    else
      var next :- SplitStep(marker, st, lines[0]);
      SplitRun(marker, next, lines[1..])
  }

  /** After the loop: the last accumulation is stored unless its name is
      already present, in which case it is silently dropped. */
  function SplitFinish(st: SplitState): Dict<seq<string>> {
    if |st.current| > 0 && !HasKey(st.stored, st.name) then st.stored + [(st.name, st.current)]
    else st.stored
  }

  /** The sections of a log, or the duplicate-key fault `tt.Add` raises. */
  function SectionsBy(marker: Recognizer, lines: seq<string>): Result<Dict<seq<string>>> {
    var st :- SplitRun(marker, SplitInit, lines);
    Ok(SplitFinish(st))
  }

  function Sections(lines: seq<string>): Result<Dict<seq<string>>> {
    SectionsBy(MarkerName, lines)
  }

  /** `SplitIntoMultipleLines` with the task pattern as the recogniser. */
  method SplitIntoMultipleLines(lines: seq<string>) returns (r: Result<Dict<seq<string>>>)
    ensures r == Sections(lines)
  {
    r := SplitBy(MarkerName, lines);
  }

  /** The loop of `SplitIntoMultipleLines`, for the recogniser `marker`. */
  method SplitBy(marker: Recognizer, lines: seq<string>) returns (r: Result<Dict<seq<string>>>)
    ensures r == SectionsBy(marker, lines)
  {
    var stored: Dict<seq<string>> := [];
    var name: string := "";
    var current: seq<string> := [];
    var i := 0;
    while i < |lines|
      invariant 0 <= i <= |lines|
      invariant SplitRun(marker, SplitState(stored, name, current), lines[i..]) == SplitRun(marker, SplitInit, lines)
    {
      ghost var before := SplitState(stored, name, current);
      SplitRunAt(marker, before, lines, i);
      var line := lines[i];
      var m := marker(line);
      if m.Some? {
        if name != "" {
          if HasKey(stored, name) {
            assert SplitStep(marker, before, line) == Err(DuplicateKey(name));
            return Err(DuplicateKey(name));
          }
          stored := stored + [(name, current)];
          assert SplitStep(marker, before, line) == Ok(SplitState(stored, m.value, [line]));
        } else {
          assert SplitStep(marker, before, line) == Ok(SplitState(stored, m.value, [line]));
        }
        name := m.value;
        current := [line];
      } else {
        current := current + [line];
        assert SplitStep(marker, before, line) == Ok(SplitState(stored, name, current));
      }
      i := i + 1;
    }
    if |current| > 0 && !HasKey(stored, name) {
      stored := stored + [(name, current)];
    }
    r := Ok(stored);
  }

  /** One unfolding of the run at position `i`. */
  lemma SplitRunAt(marker: Recognizer, st: SplitState, lines: seq<string>, i: nat)
    requires i < |lines|
    ensures SplitRun(marker, st, lines[i..]) ==
      (match SplitStep(marker, st, lines[i]) case Ok(m) => SplitRun(marker, m, lines[i + 1..]) case Err(f) => Err(f))
  {
    assert lines[i..][0] == lines[i] && lines[i..][1..] == lines[i + 1..];
  }

  // ---------------------------------------------------------------------
  // Properties
  // ---------------------------------------------------------------------

  lemma {:induction false} SplitRunAppend(marker: Recognizer, st: SplitState, a: seq<string>, b: seq<string>)
    ensures SplitRun(marker, st, a + b) ==
      (match SplitRun(marker, st, a) case Ok(m) => SplitRun(marker, m, b) case Err(f) => Err(f))
    decreases |a|
  {
    if |a| > 0 {
      assert (a + b)[0] == a[0] && (a + b)[1..] == a[1..] + b;
      match SplitStep(marker, st, a[0])
      case Ok(next) => SplitRunAppend(marker, next, a[1..], b);
      case Err(_) =>
    } else {
      assert a + b == b;
    }
  }

  /** Lines without a marker only extend the accumulation. */
  lemma {:induction false} SplitRunNoMarker(marker: Recognizer, st: SplitState, lines: seq<string>)
    requires NoMarker(marker, lines)
    ensures SplitRun(marker, st, lines) == Ok(st.(current := st.current + lines))
    decreases |lines|
  {
    if |lines| > 0 {
      assert NoMarker(marker, lines[1..]) by {
        forall i | 0 <= i < |lines[1..]| ensures marker(lines[1..][i]).None? {
          assert lines[1..][i] == lines[i + 1];
        }
      }
      SplitRunNoMarker(marker, st.(current := st.current + [lines[0]]), lines[1..]);
      assert st.current + [lines[0]] + lines[1..] == st.current + lines;
    } else {
      assert st.current + lines == st.current;
    }
  }

  /** Without any marker line the whole log is one section, stored under the
      empty name (and an empty log has no section). */
  lemma SectionsWithoutMarker(marker: Recognizer, lines: seq<string>)
    requires NoMarker(marker, lines)
    ensures SectionsBy(marker, lines) == Ok(if lines == [] then [] else [("", lines)])
  {
    SplitRunNoMarker(marker, SplitInit, lines);
    var st := SplitState([], "", lines);
    assert SplitInit.current + lines == lines;
    assert SplitRun(marker, SplitInit, lines) == Ok(st);
    assert !HasKey<seq<string>>([], "");
    assert SectionsBy(marker, lines) == Ok(SplitFinish(st));
    if lines != [] {
      assert SplitFinish(st) == [("", lines)];
    }
  }

  /** The lines before the first marker are dropped. */
  lemma SectionsDropPreamble(marker: Recognizer, preamble: seq<string>, rest: seq<string>)
    requires NoMarker(marker, preamble)
    requires |rest| > 0 && marker(rest[0]).Some?
    ensures SectionsBy(marker, preamble + rest) == SectionsBy(marker, rest)
  {
    SplitRunNoMarker(marker, SplitInit, preamble);
    SplitRunAppend(marker, SplitInit, preamble, rest);
    var after := SplitState([], "", preamble);
    assert SplitInit.current + preamble == preamble;
    assert SplitRun(marker, after, rest) == SplitRun(marker, SplitStep(marker, after, rest[0]).value, rest[1..]);
    assert SplitRun(marker, SplitInit, rest) == SplitRun(marker, SplitStep(marker, SplitInit, rest[0]).value, rest[1..]);
  }

  /** A stored section: it starts with a marker naming it and holds no other
      marker. */
  predicate SectionShaped(marker: Recognizer, name: string, lines: seq<string>) {
    |lines| > 0 && marker(lines[0]) == Some(name) && NoMarker(marker, lines[1..])
  }

  predicate AllShaped(marker: Recognizer, d: Dict<seq<string>>) {
    forall i :: 0 <= i < |d| ==> SectionShaped(marker, d[i].0, d[i].1)
  }

  /** What the loop keeps once it has seen a marker. */
  predicate Marked(marker: Recognizer, st: SplitState) {
    AllShaped(marker, st.stored) && SectionShaped(marker, st.name, st.current)
  }

  lemma {:induction false} SplitRunKeepsMarked(marker: Recognizer, st: SplitState, lines: seq<string>)
    requires Marked(marker, st)
    ensures SplitRun(marker, st, lines).Ok? ==> Marked(marker, SplitRun(marker, st, lines).value)
    decreases |lines|
  {
    if |lines| > 0 {
      var r := SplitStep(marker, st, lines[0]);
      if r.Ok? {
        var next := r.value;
        if marker(lines[0]).None? {
          assert next.current[1..] == st.current[1..] + [lines[0]];
          assert NoMarker(marker, next.current[1..]) by {
            forall i | 0 <= i < |next.current[1..]| ensures marker(next.current[1..][i]).None? {
              if i < |st.current[1..]| {
                assert next.current[1..][i] == st.current[1..][i];
              }
            }
          }
        } else {
          assert next.current == [lines[0]];
          assert next.current[1..] == [];
          assert AllShaped(marker, next.stored) by {
            if st.name != "" {
              assert next.stored == st.stored + [(st.name, st.current)];
            }
          }
        }
        assert Marked(marker, next);
        SplitRunKeepsMarked(marker, next, lines[1..]);
      }
    }
  }

  lemma FinishKeepsShape(marker: Recognizer, st: SplitState)
    requires Marked(marker, st)
    ensures AllShaped(marker, SplitFinish(st))
  {
  }

  /** The first marker at or after `i`, which exists below `k`. */
  function FirstMarker(marker: Recognizer, lines: seq<string>, i: nat, k: nat): (f: nat)
    requires i <= k < |lines| && marker(lines[k]).Some?
    ensures i <= f <= k && marker(lines[f]).Some?
    ensures forall j :: i <= j < f ==> marker(lines[j]).None?
    decreases k - i
  {
    if marker(lines[i]).Some? then i else FirstMarker(marker, lines, i + 1, k)
  }

  /** When the log holds a marker, every stored section starts with the marker
      line that names it and holds no other marker. */
  lemma SectionsAreMarked(marker: Recognizer, lines: seq<string>, k: nat)
    requires k < |lines| && marker(lines[k]).Some?
    requires SectionsBy(marker, lines).Ok?
    ensures AllShaped(marker, SectionsBy(marker, lines).value)
  {
    var f := FirstMarker(marker, lines, 0, k);
    var preamble, rest := lines[..f], lines[f..];
    assert lines == preamble + rest;
    assert NoMarker(marker, preamble) by {
      forall j | 0 <= j < |preamble| ensures marker(preamble[j]).None? {
        assert preamble[j] == lines[j];
      }
    }
    SectionsDropPreamble(marker, preamble, rest);
    var n := marker(rest[0]).value;
    var st := SplitState([], n, [rest[0]]);
    assert SplitStep(marker, SplitInit, rest[0]) == Ok(st);
    assert [rest[0]][1..] == [];
    assert Marked(marker, st);
    assert SplitRun(marker, SplitInit, rest) == SplitRun(marker, st, rest[1..]);
    SplitRunKeepsMarked(marker, st, rest[1..]);
    FinishKeepsShape(marker, SplitRun(marker, st, rest[1..]).value);
  }

  /** A task name repeated by a section that is not the last one makes
      `tt.Add` throw. */
  lemma SectionsDuplicateThrows(marker: Recognizer, m1: string, b1: seq<string>, m2: string,
                                b2: seq<string>, m3: string, rest: seq<string>, n: string)
    requires n != "" && marker(m1) == Some(n) && marker(m2) == Some(n)
    requires marker(m3).Some? && NoMarker(marker, b1) && NoMarker(marker, b2)
    ensures SectionsBy(marker, [m1] + b1 + [m2] + b2 + [m3] + rest) == Err(DuplicateKey(n))
  {
    var s1 := SplitState([], n, [m1]);
    var s3 := SplitState([(n, [m1] + b1)], n, [m2]);
    var s4 := SplitState([(n, [m1] + b1)], n, [m2] + b2);
    SplitRunNoMarker(marker, s1, b1);
    SplitRunNoMarker(marker, s3, b2);
    var tail3 := [m3] + rest;
    var tail2 := [m2] + (b2 + tail3);
    var all := [m1] + (b1 + tail2);
    assert [m1] + b1 + [m2] + b2 + [m3] + rest == all;
    assert SplitRun(marker, SplitInit, all) == SplitRun(marker, s1, b1 + tail2);
    SplitRunAppend(marker, s1, b1, tail2);
    assert !HasKey<seq<string>>([], n);
    var empty: Dict<seq<string>> := [];
    assert empty + [(n, [m1] + b1)] == [(n, [m1] + b1)];
    assert Add(empty, n, [m1] + b1) == Ok([(n, [m1] + b1)]);
    assert SplitStep(marker, s1.(current := s1.current + b1), m2) == Ok(s3);
    assert tail2[0] == m2 && tail2[1..] == b2 + tail3;
    assert SplitRun(marker, s1.(current := s1.current + b1), tail2) == SplitRun(marker, s3, b2 + tail3);
    SplitRunAppend(marker, s3, b2, tail3);
    assert HasKey(s4.stored, n) by { assert Keys(s4.stored)[0] == n; }
    assert SplitStep(marker, s4, m3) == Err(DuplicateKey(n));
    assert SplitRun(marker, s4, tail3) == Err(DuplicateKey(n));
  }

  /** The same name on the last section is silently dropped: the first
      section with that name is kept and the final one is lost. */
  lemma SectionsFinalDuplicateDropped(marker: Recognizer, m1: string, b1: seq<string>, m2: string,
                                      b2: seq<string>, n: string)
    requires n != "" && marker(m1) == Some(n) && marker(m2) == Some(n)
    requires NoMarker(marker, b1) && NoMarker(marker, b2)
    ensures SectionsBy(marker, [m1] + b1 + [m2] + b2) == Ok([(n, [m1] + b1)])
  {
    var s1 := SplitState([], n, [m1]);
    var s3 := SplitState([(n, [m1] + b1)], n, [m2]);
    SplitRunNoMarker(marker, s1, b1);
    SplitRunNoMarker(marker, s3, b2);
    var tail2 := [m2] + b2;
    var all := [m1] + (b1 + tail2);
    assert [m1] + b1 + [m2] + b2 == all;
    assert SplitRun(marker, SplitInit, all) == SplitRun(marker, s1, b1 + tail2);
    SplitRunAppend(marker, s1, b1, tail2);
    assert !HasKey<seq<string>>([], n);
    var empty: Dict<seq<string>> := [];
    assert empty + [(n, [m1] + b1)] == [(n, [m1] + b1)];
    assert Add(empty, n, [m1] + b1) == Ok([(n, [m1] + b1)]);
    assert SplitStep(marker, s1.(current := s1.current + b1), m2) == Ok(s3);
    assert tail2[0] == m2 && tail2[1..] == b2;
    assert SplitRun(marker, s1.(current := s1.current + b1), tail2) == SplitRun(marker, s3, b2);
    assert HasKey(s3.stored, n) by { assert Keys(s3.stored)[0] == n; }
  }

  /** A literal marker line, `Task Name : <name>`. */
  function MarkerLine(n: string): string {
    "Task Name : " + n
  }

  /** A marker line built from a name gives that name back. */
  lemma MarkerLineName(n: string)
    requires |n| > 0 && !IsSpace(n[0]) && !IsSpace(n[|n| - 1]) && '\n' !in n
    ensures MarkerName(MarkerLine(n)) == Some(n)
  {
    var s := MarkerLine(n);
    assert s[0..9] == "Task Name";
    assert OccursAt(s, "Task Name", 0);
    assert s[9] == ' ' && s[10] == ':' && s[11] == ' ' && s[12] == n[0];
    assert SpanEnd(s, 10) == 10;
    assert SpanEnd(s, 9) == 10;
    assert SpanEnd(s, 12) == 12;
    assert SpanEnd(s, 11) == 12;
    assert s[12..] == n;
    var e := LineEnd(s, 12);
    assert e == |s|;
    assert s[12..e] == n;
    assert TaskNameAt(s, 0) == Some(n);
    assert TaskNameMatch(s) == Some(n);
    TrimIdentity(n);
  }
}
