/** The marked fixture block of a source text: extracting it and replacing it. */
module Markers {
  import opened Wrappers

  // In two pieces: the prefix that `IsMarker` compares, and the rest, which it scans for dashes and line breaks.
  const BEGIN: string := "-- GE" + "NERATED_AUTHORITY_ACL_PROFILE_TUPLES_BEGIN"
  const END: string := "-- GE" + "NERATED_AUTHORITY_ACL_PROFILE_TUPLES_END"

  // ----- searching -----

  predicate OccursAt(s: string, pat: string, i: nat) {
    i + |pat| <= |s| && s[i..i+|pat|] == pat
  }

  ghost predicate SoleAt(s: string, pat: string, i: nat) {
    OccursAt(s, pat, i) && forall j: nat :: OccursAt(s, pat, j) ==> j == i
  }

  /** Occurrences that do not overlap, scanned from the left. */
  function Count(s: string, pat: string, start: nat): nat
    requires pat != []
    decreases |s| - start
  {
    if start + |pat| > |s| then 0
    else if OccursAt(s, pat, start) then 1 + Count(s, pat, start + |pat|)
    else Count(s, pat, start + 1)
  }

  /** The first occurrence, or the length of the text when there is none. */
  function Index(s: string, pat: string, start: nat): (i: nat)
    requires start <= |s|
    ensures start <= i <= |s|
    ensures OccursAt(s, pat, i) || (i == |s| && forall j: nat :: start <= j ==> !OccursAt(s, pat, j))
    ensures forall j: nat :: start <= j < i ==> !OccursAt(s, pat, j)
    decreases |s| - start
  {
    if OccursAt(s, pat, start) then start
    else if start == |s| then |s|
    else Index(s, pat, start + 1)
  }

  /** No occurrence of the pattern can start inside another one. */
  ghost predicate OverlapFree(pat: string) {
    pat != [] && forall s: string, i: nat, j: nat ::
      OccursAt(s, pat, i) && OccursAt(s, pat, j) && i < j ==> i + |pat| <= j
  }

  lemma {:induction false} CountIsZeroIff(s: string, pat: string, start: nat)
    requires pat != []
    ensures Count(s, pat, start) == 0 <==> forall j: nat :: start <= j ==> !OccursAt(s, pat, j)
    decreases |s| - start
  {
    if start + |pat| <= |s| && !OccursAt(s, pat, start) {
      CountIsZeroIff(s, pat, start + 1);
    }
  }

  /** Exactly one occurrence at or after `start`. */
  ghost predicate OneFrom(s: string, pat: string, start: nat) {
    exists i: nat :: start <= i && OccursAt(s, pat, i)
                     && forall j: nat :: start <= j && OccursAt(s, pat, j) ==> j == i
  }

  lemma {:induction false} CountIsOneIff(s: string, pat: string, start: nat)
    requires OverlapFree(pat)
    ensures Count(s, pat, start) == 1 <==> OneFrom(s, pat, start)
    decreases |s| - start
  {
    if start + |pat| > |s| {
    } else if OccursAt(s, pat, start) {
      CountIsZeroIff(s, pat, start + |pat|);
      if Count(s, pat, start) == 1 {
        forall j: nat | start <= j && OccursAt(s, pat, j) ensures j == start {
        }
      } else {
        var j: nat :| start + |pat| <= j && OccursAt(s, pat, j);
      }
    } else {
      CountIsOneIff(s, pat, start + 1);
      if OneFrom(s, pat, start) {
        var i: nat :| start <= i && OccursAt(s, pat, i)
                      && forall j: nat :: start <= j && OccursAt(s, pat, j) ==> j == i;
        assert start + 1 <= i;
      }
      if OneFrom(s, pat, start + 1) {
        var i: nat :| start + 1 <= i && OccursAt(s, pat, i)
                      && forall j: nat :: start + 1 <= j && OccursAt(s, pat, j) ==> j == i;
        assert start <= i;
      }
    }
  }

  // ----- the two markers -----

  /** Two dashes at the front and no other; no line break; `GE` as the fourth and fifth characters. */
  predicate IsMarker(pat: string) {
    |pat| >= 5 && pat[..5] == "-- GE" && '-' !in pat[5..] && '\n' !in pat[5..]
  }

  lemma BeginIsMarker()
    ensures IsMarker(BEGIN)
  {
    assert BEGIN[..5] == "-- GE" && BEGIN[5..] == "NERATED_AUTHORITY_ACL_PROFILE_TUPLES_BEGIN";
  }

  lemma EndIsMarker()
    ensures IsMarker(END)
  {
    assert END[..5] == "-- GE" && END[5..] == "NERATED_AUTHORITY_ACL_PROFILE_TUPLES_END";
  }

  lemma MarkersAreMarkers()
    ensures IsMarker(BEGIN) && IsMarker(END)
  {
    BeginIsMarker();
    EndIsMarker();
  }

  /** Inside a marker there is no second pair of dashes, no final dash and no line break. */
  lemma MarkerChars(pat: string, d: int)
    requires IsMarker(pat)
    ensures 0 <= d < |pat| ==> pat[d] != '\n'
    ensures 0 < d < |pat| ==> pat[d] != '-' || (d + 1 < |pat| && pat[d + 1] != '-')
    ensures pat[0] == '-' && pat[1] == '-' && pat[3] == 'G' && pat[4] == 'E'
  {
    assert pat == pat[..5] + pat[5..];
  }

  lemma OccurrenceAt(s: string, pat: string, i: nat, x: int)
    requires OccursAt(s, pat, i)
    ensures i <= x < i + |pat| ==> x < |s| && s[x] == pat[x - i]
  {
    if i <= x < i + |pat| { assert s[i..i+|pat|][x - i] == s[x]; }
  }

  lemma MarkersAreApart(s: string, pat: string, i: nat, j: nat)
    requires IsMarker(pat) && OccursAt(s, pat, i) && OccursAt(s, pat, j) && i < j
    ensures i + |pat| <= j
  {
    MarkerChars(pat, j - i);
    OccurrenceAt(s, pat, i, j);
    OccurrenceAt(s, pat, i, j + 1);
    OccurrenceAt(s, pat, j, j);
    OccurrenceAt(s, pat, j, j + 1);
  }

  lemma MarkersDoNotOverlap(pat: string)
    requires IsMarker(pat)
    ensures OverlapFree(pat)
  {
    forall s: string, i: nat, j: nat | OccursAt(s, pat, i) && OccursAt(s, pat, j) && i < j
      ensures i + |pat| <= j
    {
      MarkersAreApart(s, pat, i, j);
    }
  }

  // ----- extract and replace -----

  predicate WellMarked(source: string) {
    && Count(source, BEGIN, 0) == 1 && Count(source, END, 0) == 1
    && Index(source, BEGIN, 0) + |BEGIN| < Index(source, END, 0)
  }

  function BlockStart(source: string): nat {
    Index(source, BEGIN, 0) + |BEGIN|
  }

  function BlockEnd(source: string): nat {
    Index(source, END, 0)
  }

  /** The characters Python's `str.strip` removes. */
  predicate IsSpace(c: char) {
    var u := c as int;
    9 <= u <= 13 || 28 <= u <= 32 || u == 0x85 || u == 0xA0 || u == 0x1680 || 0x2000 <= u <= 0x200A
    || u == 0x2028 || u == 0x2029 || u == 0x202F || u == 0x205F || u == 0x3000
  }

  /** Of the ASCII characters, the space, the five that move the line and the four separators. */
  lemma AsciiSpaces(c: char)
    requires c as int < 128
    ensures IsSpace(c) <==> c == ' ' || c == '\t' || c == '\n' || c == '\r' || c as int in {11, 12, 28, 29, 30, 31}
  {
  }

  function StripLeft(s: string): string {
    if s != [] && IsSpace(s[0]) then StripLeft(s[1..]) else s
  }

  function StripRight(s: string): string {
    if s != [] && IsSpace(s[|s|-1]) then StripRight(s[..|s|-1]) else s
  }

  function CheckedInBlock(source: string): Result<string> {
    if Count(source, BEGIN, 0) != 1 || Count(source, END, 0) != 1 then
      Err("authority profile source must contain one marked fixture block")
    else if BlockEnd(source) <= BlockStart(source) then
      Err("authority profile fixture markers are misordered")
    else
      Ok(StripRight(StripLeft(source[BlockStart(source)..BlockEnd(source)])) + "\n")
  }

  function ReplaceBlock(source: string, rendered: string): Result<string> {
    if Count(source, BEGIN, 0) != 1 || Count(source, END, 0) != 1 then
      Err("authority profile source must contain one marked fixture block")
    else if BlockEnd(source) <= BlockStart(source) then
      Err("authority profile fixture markers are misordered")
    else
      Ok(source[..BlockStart(source)] + "\n" + rendered + source[BlockEnd(source)..])
  }

  // ----- what extracting does -----

  ghost predicate Blank(s: string) { forall i :: 0 <= i < |s| ==> IsSpace(s[i]) }

  lemma {:induction false} StripLeftSplits(s: string) returns (a: string)
    ensures s == a + StripLeft(s) && Blank(a)
    ensures StripLeft(s) != [] ==> !IsSpace(StripLeft(s)[0])
  {
    if s != [] && IsSpace(s[0]) {
      var rest := StripLeftSplits(s[1..]);
      a := [s[0]] + rest;
    } else {
      a := [];
    }
  }

  lemma {:induction false} StripRightSplits(s: string) returns (b: string)
    ensures s == StripRight(s) + b && Blank(b)
    ensures StripRight(s) != [] ==> !IsSpace(StripRight(s)[|StripRight(s)|-1]) && StripRight(s)[0] == s[0]
  {
    if s != [] && IsSpace(s[|s|-1]) {
      var rest := StripRightSplits(s[..|s|-1]);
      b := rest + [s[|s|-1]];
    } else {
      b := [];
    }
  }

  /** What stands between the markers, without the white space around it and with one line break after it. */
  lemma ExtractionStrips(source: string) returns (a: string, t: string, b: string)
    requires WellMarked(source)
    ensures source[BlockStart(source)..BlockEnd(source)] == a + t + b && Blank(a) && Blank(b)
    ensures t != [] ==> !IsSpace(t[0]) && !IsSpace(t[|t|-1])
    ensures CheckedInBlock(source) == Ok(t + "\n")
    ensures SoleAt(source, BEGIN, BlockStart(source) - |BEGIN|) && SoleAt(source, END, BlockEnd(source))
  {
    MarkedAt(source);
    var block := source[BlockStart(source)..BlockEnd(source)];
    a := StripLeftSplits(block);
    b := StripRightSplits(StripLeft(block));
    t := StripRight(StripLeft(block));
  }

  // ----- what replacing does -----

  ghost predicate NoGE(s: string) {
    forall i :: 0 <= i < |s| - 1 ==> !(s[i] == 'G' && s[i+1] == 'E')
  }

  /** A block text that is its own stripped form and cannot hold a marker. */
  ghost predicate IsBlockText(r: string) {
    |r| >= 2 && !IsSpace(r[0]) && !IsSpace(r[|r|-2]) && r[|r|-1] == '\n' && NoGE(r)
  }

  lemma MarkedAt(source: string)
    requires WellMarked(source)
    ensures SoleAt(source, BEGIN, Index(source, BEGIN, 0)) && SoleAt(source, END, Index(source, END, 0))
    ensures BlockStart(source) < BlockEnd(source) <= |source|
  {
    SoleIndex(source, BEGIN);
    SoleIndex(source, END);
  }

  lemma SoleIndex(s: string, pat: string)
    requires pat == BEGIN || pat == END
    ensures Count(s, pat, 0) == 1 <==> SoleAt(s, pat, Index(s, pat, 0))
  {
    MarkersAreMarkers();
    MarkersDoNotOverlap(pat);
    CountIsOneIff(s, pat, 0);
    if OneFrom(s, pat, 0) {
      var i: nat :| 0 <= i && OccursAt(s, pat, i) && forall j: nat :: 0 <= j && OccursAt(s, pat, j) ==> j == i;
      assert SoleAt(s, pat, i);
    }
  }

  lemma NoGEAt(r: string, x: int)
    requires NoGE(r)
    ensures 0 <= x < |r| - 1 ==> r[x] != 'G' || r[x+1] != 'E'
  {
  }

  /** In the new text a marker stands in the old head, or in the old tail, or nowhere. */
  lemma WhereMarkersStand(head: string, r: string, tail: string, pat: string, i: nat)
    requires IsMarker(pat) && IsBlockText(r) && OccursAt(head + "\n" + r + tail, pat, i)
    ensures (i + |pat| <= |head| && OccursAt(head, pat, i))
            || (i >= |head| + 1 + |r| && OccursAt(tail, pat, i - (|head| + 1 + |r|)))
  {
    var t, a, b := head + "\n" + r + tail, |head|, |head| + 1 + |r|;
    assert t[a] == '\n' && t[b - 1] == '\n' && t[a + 1..b] == r;
    MarkerChars(pat, a - i);
    MarkerChars(pat, b - 1 - i);
    OccurrenceAt(t, pat, i, a);
    OccurrenceAt(t, pat, i, b - 1);
    OccurrenceAt(t, pat, i, i + 3);
    OccurrenceAt(t, pat, i, i + 4);
    NoGEAt(r, i + 3 - (a + 1));
    if i + |pat| <= a {
      assert t[i..i+|pat|] == head[i..i+|pat|];
    }
    if i >= b { InSecondPart(head + "\n" + r, tail, pat, i); }
  }

  lemma InSecondPart(first: string, second: string, pat: string, i: nat)
    requires |first| <= i && OccursAt(first + second, pat, i)
    ensures OccursAt(second, pat, i - |first|)
  {
    assert (first + second)[i..i+|pat|] == second[i - |first|..i - |first| + |pat|];
  }

  lemma HeadAndTail(source: string, a: nat, b: nat, pat: string, i: nat)
    requires a <= b <= |source|
    ensures OccursAt(source[..a], pat, i) <==> OccursAt(source, pat, i) && i + |pat| <= a
    ensures OccursAt(source[b..], pat, i) <==> OccursAt(source, pat, i + b)
  {
    if i + |pat| <= a { assert source[..a][i..i+|pat|] == source[i..i+|pat|]; }
    if i + b + |pat| <= |source| { assert source[b..][i..i+|pat|] == source[i+b..i+b+|pat|]; }
  }

  lemma StandsInSource(source: string, a: nat, r: string, b: nat, pat: string, i: nat)
    requires IsMarker(pat) && IsBlockText(r) && a <= b <= |source|
    requires OccursAt(source[..a] + "\n" + r + source[b..], pat, i)
    ensures (i + |pat| <= a && OccursAt(source, pat, i))
            || (i >= a + 1 + |r| && OccursAt(source, pat, i - (a + 1 + |r|) + b))
  {
    WhereMarkersStand(source[..a], r, source[b..], pat, i);
    HeadAndTail(source, a, b, pat, i);
    if i >= a + 1 + |r| { HeadAndTail(source, a, b, pat, i - (a + 1 + |r|)); }
  }

  lemma HeadMarkerStays(source: string, a: nat, r: string, b: nat, pat: string, at: nat)
    requires IsMarker(pat) && IsBlockText(r) && a <= b <= |source|
    requires SoleAt(source, pat, at) && at + |pat| <= a
    ensures SoleAt(source[..a] + "\n" + r + source[b..], pat, at)
  {
    var t := source[..a] + "\n" + r + source[b..];
    assert t[at..at+|pat|] == source[at..at+|pat|];
    forall j: nat | OccursAt(t, pat, j) ensures j == at {
      StandsInSource(source, a, r, b, pat, j);
    }
  }

  lemma TailMarkerMoves(source: string, a: nat, r: string, b: nat, pat: string)
    requires IsMarker(pat) && IsBlockText(r) && a <= b <= |source| && SoleAt(source, pat, b)
    ensures SoleAt(source[..a] + "\n" + r + source[b..], pat, a + 1 + |r|)
  {
    var t, at := source[..a] + "\n" + r + source[b..], a + 1 + |r|;
    assert t[at..at+|pat|] == source[b..b+|pat|];
    forall j: nat | OccursAt(t, pat, j) ensures j == at {
      StandsInSource(source, a, r, b, pat, j);
    }
  }

  lemma SoleIsIndex(s: string, pat: string, i: nat)
    requires SoleAt(s, pat, i) && (pat == BEGIN || pat == END)
    ensures Index(s, pat, 0) == i && Count(s, pat, 0) == 1
  {
    SoleIndex(s, pat);
  }

  ghost predicate MarkedBetween(t: string, a: nat, b: nat) {
    a < b <= |t| && WellMarked(t) && BlockStart(t) == a && BlockEnd(t) == b
  }

  lemma NewMarkers(source: string, r: string)
    requires WellMarked(source) && IsBlockText(r)
    ensures MarkedBetween(ReplaceBlock(source, r).value, BlockStart(source), BlockStart(source) + 1 + |r|)
  {
    var t, at, a, b := ReplaceBlock(source, r).value, Index(source, BEGIN, 0), BlockStart(source), BlockEnd(source);
    MarkedAt(source);
    MarkersAreMarkers();
    assert t == source[..a] + "\n" + r + source[b..];
    HeadMarkerStays(source, a, r, b, BEGIN, at);
    TailMarkerMoves(source, a, r, b, END);
    SoleIsIndex(t, BEGIN, at);
    SoleIsIndex(t, END, a + 1 + |r|);
  }

  lemma Pieces(head: string, r: string, tail: string)
    ensures var t := head + "\n" + r + tail;
            && t[..|head|] == head && t[|head| + 1 + |r|..] == tail && t[|head|..|head| + 1 + |r|] == "\n" + r
  {
  }

  /** After a replacement there is again one ordered marker pair, around the new block; the rest is as before. */
  lemma ReplacementIsWellMarked(source: string, r: string)
    requires WellMarked(source) && IsBlockText(r)
    ensures var t := ReplaceBlock(source, r).value;
            && MarkedBetween(t, BlockStart(source), BlockStart(source) + 1 + |r|)
            && t[..BlockStart(t)] == source[..BlockStart(source)]
            && t[BlockEnd(t)..] == source[BlockEnd(source)..]
            && t[BlockStart(t)..BlockEnd(t)] == "\n" + r
  {
    NewMarkers(source, r);
    Pieces(source[..BlockStart(source)], r, source[BlockEnd(source)..]);
  }

  lemma StripBlockText(r: string)
    requires IsBlockText(r)
    ensures StripRight(StripLeft("\n" + r)) + "\n" == r
  {
    var s := "\n" + r;
    assert s[1..] == r;
    assert StripLeft(s) == r;
    assert StripRight(r) == StripRight(r[..|r|-1]) == r[..|r|-1];
    assert r[..|r|-1] + "\n" == r;
  }

  /** Extracting after replacing gives the new block exactly. */
  lemma ExtractAfterReplace(source: string, r: string)
    requires WellMarked(source) && IsBlockText(r)
    ensures CheckedInBlock(ReplaceBlock(source, r).value) == Ok(r)
  {
    ReplacementIsWellMarked(source, r);
    StripBlockText(r);
  }

  /** A second replacement forgets the first; putting back what was just extracted changes nothing. */
  lemma LastReplacementWins(source: string, r1: string, r2: string)
    requires WellMarked(source) && IsBlockText(r1)
    ensures var once := ReplaceBlock(source, r1).value;
            && ReplaceBlock(once, r2) == ReplaceBlock(source, r2)
            && CheckedInBlock(once).Ok? && ReplaceBlock(once, CheckedInBlock(once).value) == Ok(once)
  {
    ReplacementIsWellMarked(source, r1);
    StripBlockText(r1);
  }

  /** Both operations refuse exactly the texts without one ordered marker pair. */
  lemma RefusalIff(source: string, r: string)
    ensures ReplaceBlock(source, r).Ok? == CheckedInBlock(source).Ok? == WellMarked(source)
    ensures WellMarked(source) <==>
              exists i: nat, j: nat :: SoleAt(source, BEGIN, i) && SoleAt(source, END, j) && i + |BEGIN| < j
  {
    SoleIndex(source, BEGIN);
    SoleIndex(source, END);
  }
}
