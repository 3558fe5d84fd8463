/** `Array.FindIndex` over the lines of a log, for any line test. */
module LineScan {
  /** The first position at or after `i` whose line satisfies `p`, or -1. */
  function FindIndexFrom(p: string -> bool, lines: seq<string>, i: nat): (h: int)
    requires i <= |lines|
    ensures h == -1 || (i <= h < |lines| && p(lines[h]))
    ensures h == -1 ==> forall j :: i <= j < |lines| ==> !p(lines[j])
    ensures h != -1 ==> forall j :: i <= j < h ==> !p(lines[j])
    decreases |lines| - i
  {
    if i == |lines| then -1
    else if p(lines[i]) then i
    else FindIndexFrom(p, lines, i + 1)
  }

  /** `Array.FindIndex(lines, p)`. */
  method FindIndex(p: string -> bool, lines: seq<string>) returns (h: int)
    ensures h == FindIndexFrom(p, lines, 0)
  {
    h := 0;
    while h < |lines| && !p(lines[h])
      invariant 0 <= h <= |lines|
      invariant FindIndexFrom(p, lines, h) == FindIndexFrom(p, lines, 0)
    {
      h := h + 1;
    }
    if h == |lines| {
      h := -1;
    }
  }
}
