// Removing unused Go imports from a source: byte ranges are cut from right to left, each
// together with the blanks around it and the end of its line.
module Imports {

  newtype Byte = x: int | 0 <= x < 256

  const TAB: Byte := 9
  const LF: Byte := 10
  const CR: Byte := 13
  const SPACE: Byte := 32

  predicate Blank(b: Byte) {
    b == SPACE || b == TAB
  }

  predicate White(b: Byte) {
    Blank(b) || b == CR || b == LF
  }

  // From start up to, not including, end.
  datatype Range = Range(start: nat, end: nat)

  // What the parser guarantees of an import spec: it lies in the source and ends in something
  // else than white space ...
  predicate RangeOk(source: seq<Byte>, r: Range) {
    r.start < r.end <= |source| && !White(source[r.end-1])
  }

  predicate Apart(q: Range, r: Range) {
    q.end <= r.start || r.end <= q.start
  }

  // ... and overlaps no other.
  ghost predicate RangesOk(source: seq<Byte>, ranges: seq<Range>) {
    && (forall r | r in ranges :: RangeOk(source, r))
    && (forall i, j | 0 <= i < j < |ranges| :: Apart(ranges[i], ranges[j]))
  }

  // The same from right to left.
  ghost predicate Falling(source: seq<Byte>, ranges: seq<Range>) {
    && (forall r | r in ranges :: RangeOk(source, r))
    && (forall i, j | 0 <= i < j < |ranges| :: ranges[j].end <= ranges[i].start)
  }

  // ----- The cut ------------------------------------------------------------------------

  function ExpandLeft(source: seq<Byte>, start: nat): (s: nat)
    requires start <= |source|
    ensures s <= start && (forall k | s <= k < start :: Blank(source[k])) && (s > 0 ==> !Blank(source[s-1]))
  {
    if start > 0 && Blank(source[start-1]) then ExpandLeft(source, start - 1) else start
  }

  function SkipBlanks(source: seq<Byte>, end: nat): (e: nat)
    requires end <= |source|
    ensures end <= e <= |source| && (forall k | end <= k < e :: Blank(source[k]))
    ensures (e < |source| ==> !Blank(source[e]))
    decreases |source| - end
  {
    if end < |source| && Blank(source[end]) then SkipBlanks(source, end + 1) else end
  }

  function SkipByte(source: seq<Byte>, end: nat, b: Byte): nat {
    if end < |source| && source[end] == b then end + 1 else end
  }

  function ExpandRight(source: seq<Byte>, end: nat): (e: nat)
    requires end <= |source|
    ensures end <= e <= |source| && forall k | end <= k < e :: White(source[k])
  {
    SkipByte(source, SkipByte(source, SkipBlanks(source, end), CR), LF)
  }

  // To the right a cut takes the blanks and then one line end, of either kind.
  lemma RightReaches(source: seq<Byte>, end: nat, m: nat)
    requires end <= m <= |source| && (forall k | end <= k < m :: Blank(source[k]))
    requires m < |source| ==> !Blank(source[m])
    ensures ExpandRight(source, end) == if [CR, LF] <= source[m..] then m + 2
      else if [CR] <= source[m..] || [LF] <= source[m..] then m + 1 else m
  {
    var e := SkipBlanks(source, end);
    assert e == m;
  }

  // expandGoImportRemoval.
  method Expand(source: seq<Byte>, start: nat, end: nat) returns (s: nat, e: nat)
    requires start <= end <= |source|
    ensures s == ExpandLeft(source, start) && e == ExpandRight(source, end)
  {
    s, e := start, end;
    while s > 0 && Blank(source[s-1])
      invariant s <= start && ExpandLeft(source, start) == ExpandLeft(source, s)
    {
      s := s - 1;
    }
    while e < |source| && Blank(source[e])
      invariant end <= e <= |source| && SkipBlanks(source, end) == SkipBlanks(source, e)
    {
      e := e + 1;
    }
    if e < |source| && source[e] == CR {
      e := e + 1;
    }
    if e < |source| && source[e] == LF {
      e := e + 1;
    }
  }

  function Cut(source: seq<Byte>, r: Range): seq<Byte>
    requires r.start <= r.end <= |source|
  {
    source[..ExpandLeft(source, r.start)] + source[ExpandRight(source, r.end)..]
  }

  // ----- The bytes that must stay -------------------------------------------------------

  predicate Covered(ranges: seq<Range>, i: nat) {
    exists r | r in ranges :: r.start <= i < r.end
  }

  // The bytes from lo up to hi that are neither white nor covered.
  function Outside(source: seq<Byte>, ranges: seq<Range>, lo: nat, hi: nat): seq<Byte>
    requires lo <= hi <= |source|
    decreases hi - lo
  {
    if lo == hi then [] else
      Outside(source, ranges, lo, hi - 1) + if White(source[hi-1]) || Covered(ranges, hi - 1) then []
        else [source[hi-1]]
  }

  function NonWhite(source: seq<Byte>): seq<Byte> {
    Outside(source, [], 0, |source|)
  }

  lemma {:induction false} OutsideSplit(source: seq<Byte>, ranges: seq<Range>, lo: nat, mid: nat, hi: nat)
    requires lo <= mid <= hi <= |source|
    ensures Outside(source, ranges, lo, hi) == Outside(source, ranges, lo, mid) + Outside(source, ranges, mid, hi)
    decreases hi
  {
    if mid >= hi {
    } else {
      OutsideSplit(source, ranges, lo, mid, hi - 1);
    }
  }

  lemma {:induction false} OutsideNothing(source: seq<Byte>, ranges: seq<Range>, lo: nat, hi: nat)
    requires lo <= hi <= |source| && forall k | lo <= k < hi :: White(source[k]) || Covered(ranges, k)
    ensures Outside(source, ranges, lo, hi) == []
    decreases hi
  {
    if lo >= hi {
    } else {
      OutsideNothing(source, ranges, lo, hi - 1);
    }
  }

  // The same bytes under the same cover, some way further on.
  lemma {:induction false} OutsideShift(a: seq<Byte>, b: seq<Byte>, p: seq<Range>, q: seq<Range>, lo: nat, hi: nat,
                                        d: nat)
    requires lo <= hi <= |a| && hi + d <= |b|
    requires forall k | lo <= k < hi :: a[k] == b[k + d] && (Covered(p, k) <==> Covered(q, k + d))
    ensures Outside(a, p, lo, hi) == Outside(b, q, lo + d, hi + d)
    decreases hi
  {
    if lo >= hi {
    } else {
      OutsideShift(a, b, p, q, lo, hi - 1, d);
    }
  }

  // Whatever lies left of a range still does after the blanks before the range are taken in.
  lemma StaysLeft(source: seq<Byte>, r: Range, q: Range)
    requires RangeOk(source, r) && RangeOk(source, q) && q.end <= r.start
    ensures q.end <= ExpandLeft(source, r.start) && RangeOk(Cut(source, r), q)
  {
    assert !Blank(source[q.end-1]);
  }

  lemma CoverOf(r: Range, rest: seq<Range>, k: nat)
    ensures Covered([r] + rest, k) <==> r.start <= k < r.end || Covered(rest, k)
  {
    assert r in [r] + rest;
    assert forall q | q in rest :: q in [r] + rest;
  }

  // What the ranges cover on either side of a cut.
  lemma CutCovers(r: Range, rest: seq<Range>, s: nat, e: nat)
    requires s <= r.start && r.end <= e && r.start < r.end && forall q | q in rest :: q.end <= s
    ensures forall k: nat | k < s :: Covered([r] + rest, k) <==> Covered(rest, k)
    ensures forall k: nat | r.start <= k < r.end :: Covered([r] + rest, k)
    ensures forall k: nat | e <= k :: !Covered([r] + rest, k)
    ensures forall k: nat | s <= k :: !Covered(rest, k)
  {
    forall k: nat ensures Covered([r] + rest, k) <==> r.start <= k < r.end || Covered(rest, k) {
      CoverOf(r, rest, k);
    }
    assert forall k: nat | s <= k :: !Covered(rest, k);
  }

  // What lies before the cut and after it.
  lemma SidesKept(source: seq<Byte>, n: seq<Byte>, rest: seq<Range>, all: seq<Range>, s: nat, e: nat)
    requires s <= e <= |source| && n == source[..s] + source[e..]
    requires forall k: nat | k < s :: Covered(all, k) <==> Covered(rest, k)
    requires forall k: nat | e <= k :: !Covered(all, k)
    requires forall k: nat | s <= k :: !Covered(rest, k)
    ensures Outside(n, rest, 0, s) == Outside(source, all, 0, s)
    ensures Outside(n, rest, s, |n|) == Outside(source, all, e, |source|)
  {
    hide Covered, Outside;
    assert forall k | 0 <= k < s :: n[k] == source[k + 0] && (Covered(rest, k) <==> Covered(all, k + 0));
    OutsideShift(n, source, rest, all, 0, s, 0);
    assert forall k | s <= k < |n| :: n[k] == source[k + (e - s)] && (Covered(rest, k) <==> Covered(all, k + (e - s)));
    OutsideShift(n, source, rest, all, s, |n|, e - s);
  }

  // Taking out source[s..e], which holds the range and otherwise white space.
  lemma SpliceKeeps(source: seq<Byte>, r: Range, rest: seq<Range>, s: nat, e: nat)
    requires s <= r.start && r.end <= e <= |source| && r.start < r.end && forall q | q in rest :: q.end <= s
    requires forall k | s <= k < e :: r.start <= k < r.end || White(source[k])
    ensures var n := source[..s] + source[e..]; Outside(n, rest, 0, |n|) == Outside(source, [r] + rest, 0, |source|)
  {
    hide White, Covered, Outside;
    var n, all := source[..s] + source[e..], [r] + rest;
    CutCovers(r, rest, s, e);
    SidesKept(source, n, rest, all, s, e);
    OutsideNothing(source, all, s, e);
    OutsideSplit(n, rest, 0, s, |n|);
    OutsideSplit(source, all, 0, s, |source|);
    OutsideSplit(source, all, s, e, |source|);
  }

  // Cutting the rightmost range leaves exactly the bytes outside it, and the other ranges where
  // they were.
  lemma CutKeeps(source: seq<Byte>, r: Range, rest: seq<Range>)
    requires RangeOk(source, r) && (forall q | q in rest :: RangeOk(source, q) && q.end <= r.start)
    ensures var n := Cut(source, r); Outside(n, rest, 0, |n|) == Outside(source, [r] + rest, 0, |source|)
    ensures forall q | q in rest :: RangeOk(Cut(source, r), q)
  {
    var s, e := ExpandLeft(source, r.start), ExpandRight(source, r.end);
    forall q | q in rest ensures q.end <= s && RangeOk(Cut(source, r), q) {
      StaysLeft(source, r, q);
    }
    SpliceKeeps(source, r, rest, s, e);
  }

  // ----- All ranges ---------------------------------------------------------------------

  function Insert(r: Range, s: seq<Range>): seq<Range> {
    if s == [] || r.start > s[0].start then [r] + s else [s[0]] + Insert(r, s[1..])
  }

  // sort.Slice, by falling start.
  function Sorted(s: seq<Range>): seq<Range> {
    if s == [] then [] else Insert(s[0], Sorted(s[1..]))
  }

  lemma {:induction false} InsertKeeps(source: seq<Byte>, r: Range, s: seq<Range>)
    requires RangeOk(source, r) && Falling(source, s) && forall q | q in s :: Apart(q, r)
    ensures Falling(source, Insert(r, s)) && forall q :: q in Insert(r, s) <==> q == r || q in s
  {
    if s == [] || r.start > s[0].start {
      assert Insert(r, s) == [r] + s;
      assert forall i | 0 <= i < |s| :: s[i] in s;
    } else {
      var rest := Insert(r, s[1..]);
      assert forall i | 0 < i < |s| :: s[1..][i-1] == s[i];
      InsertKeeps(source, r, s[1..]);
      assert Insert(r, s) == [s[0]] + rest;
      assert s[0] in s && Apart(s[0], r) && RangeOk(source, s[0]);
      forall q | q in rest ensures q.end <= s[0].start {
        if q != r {
          var i :| 0 <= i < |s[1..]| && s[1..][i] == q;
          assert s[i + 1] == q;
        }
      }
      FallingFrom(source, s[0], rest);
    }
  }

  lemma FallingFrom(source: seq<Byte>, r: Range, s: seq<Range>)
    requires RangeOk(source, r) && Falling(source, s) && forall q | q in s :: q.end <= r.start
    ensures Falling(source, [r] + s)
  {
    var t := [r] + s;
    assert forall i | 0 < i < |t| :: t[i] == s[i-1] && t[i] in s;
  }

  lemma {:induction false} SortedFalls(source: seq<Byte>, s: seq<Range>)
    requires RangesOk(source, s)
    ensures Falling(source, Sorted(s)) && forall q :: q in Sorted(s) <==> q in s
  {
    if s == [] {
    } else {
      assert forall i | 0 < i < |s| :: s[1..][i-1] == s[i];
      SortedFalls(source, s[1..]);
      forall q | q in Sorted(s[1..]) ensures Apart(q, s[0]) {
        var i :| 0 <= i < |s[1..]| && s[1..][i] == q;
        assert s[i + 1] == q && Apart(s[0], s[i + 1]);
      }
      InsertKeeps(source, s[0], Sorted(s[1..]));
    }
  }

  lemma {:induction false} SameCover(source: seq<Byte>, p: seq<Range>, q: seq<Range>, lo: nat, hi: nat)
    requires lo <= hi <= |source| && forall r :: r in p <==> r in q
    ensures Outside(source, p, lo, hi) == Outside(source, q, lo, hi)
    decreases hi
  {
    if lo >= hi {
    } else {
      SameCover(source, p, q, lo, hi - 1);
    }
  }

  // One range after the other is cut out.
  function CutAll(source: seq<Byte>, ranges: seq<Range>): seq<Byte>
    decreases |ranges|
  {
    if ranges == [] || !(ranges[0].start <= ranges[0].end <= |source|) then source
    else CutAll(Cut(source, ranges[0]), ranges[1..])
  }

  // The last part of removeUnusedGoImports: whatever ranges are cut, and in whatever order they
  // come, the result has exactly the non-white bytes outside them, in their order.
  method RemoveRanges(source: seq<Byte>, unused: seq<Range>) returns (cleaned: seq<Byte>)
    requires RangesOk(source, unused)
    ensures NonWhite(cleaned) == Outside(source, unused, 0, |source|)
    ensures cleaned == CutAll(source, Sorted(unused))
  {
    hide Outside, RangeOk, ExpandLeft, ExpandRight;
    cleaned := source;
    var ranges := Sorted(unused);
    SortedFalls(source, unused);
    SameCover(source, ranges, unused, 0, |source|);
    for i := 0 to |ranges|
      invariant Falling(cleaned, ranges[i..])
      invariant Outside(cleaned, ranges[i..], 0, |cleaned|) == Outside(source, unused, 0, |source|)
      invariant CutAll(cleaned, ranges[i..]) == CutAll(source, ranges)
    {
      CutNext(cleaned, ranges[i..]);
      assert ranges[i..][1..] == ranges[i+1..];
      var start, end := Expand(cleaned, ranges[i].start, ranges[i].end);
      cleaned := cleaned[..start] + cleaned[end..];
    }
    assert ranges[|ranges|..] == [];
  }

  lemma CutNext(source: seq<Byte>, ranges: seq<Range>)
    requires ranges != [] && Falling(source, ranges)
    ensures var r := ranges[0]; r.start <= r.end <= |source| && Falling(Cut(source, r), ranges[1..])
    ensures var n := Cut(source, ranges[0]); Outside(n, ranges[1..], 0, |n|) == Outside(source, ranges, 0, |source|)
  {
    var r, rest := ranges[0], ranges[1..];
    assert r in ranges && ranges == [r] + rest;
    forall q | q in rest ensures RangeOk(source, q) && q.end <= r.start {
      var i :| 0 <= i < |rest| && rest[i] == q;
      assert ranges[i + 1] == q && q in ranges;
    }
    CutKeeps(source, r, rest);
    hide RangeOk, Cut, Outside;
    forall i, j | 0 <= i < j < |rest| ensures rest[j].end <= rest[i].start {
      assert rest[j] == ranges[j + 1] && rest[i] == ranges[i + 1];
    }
  }

  // Without the guarantee that ranges end in something else than white space a cut could reach
  // into the next range and shift it: here the byte after both ranges is lost.
  lemma TrailingBlankMatters()
    ensures var source: seq<Byte> := [97, SPACE, 98, 99]; var left, right := Range(0, 2), Range(2, 3);
      && Apart(left, right) && Cut(source, right) == [97, 99] && Cut([97, 99], left) == []
      && Outside(source, [right, left], 0, 4) == [99]
  {
    var source: seq<Byte> := [97, SPACE, 98, 99];
    var left, right := Range(0, 2), Range(2, 3);
    var ranges := [right, left];
    assert ExpandLeft(source, 2) == ExpandLeft(source, 1) == 1;
    assert Cut(source, right) == [97, 99];
    assert left in ranges && right in ranges;
    assert Outside(source, ranges, 0, 1) == [] && Outside(source, ranges, 0, 2) == [];
    assert Outside(source, ranges, 0, 3) == [];
  }
}
