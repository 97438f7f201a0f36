/**
 Negative samples for the detector evaluation: every masked span is cut out of a text, last
 span first, and the whitespace left behind is collapsed.
 */
module Excision {
  import opened Options

  /** One entry of a privacy mask; entries without a start are ignored. */
  datatype Mark = Mark(start: Option<int>, end: int)

  datatype Span = Span(start: int, end: int)

  // ----- slices -----

  /** Where a slice bound falls in a sequence of length `n`: negative bounds count from the end. */
  function Bound(i: int, n: nat): (r: nat)
    ensures r <= n
  {
    if i < 0 then (if i + n < 0 then 0 else i + n) else if i > n then n else i
  }

  function Cut(s: string, span: Span): string {
    s[..Bound(span.start, |s|)] + s[Bound(span.end, |s|)..]
  }

  // ----- the spans, last first -----

  predicate Before(a: Span, b: Span) {
    a.start < b.start || (a.start == b.start && a.end <= b.end)
  }

  function Insert(span: Span, spans: seq<Span>): seq<Span> {
    if spans == [] || Before(spans[0], span) then [span] + spans
    else [spans[0]] + Insert(span, spans[1..])
  }

  function Descending(spans: seq<Span>): seq<Span> {
    if spans == [] then [] else Insert(spans[0], Descending(spans[1..]))
  }

  function Spans(mask: seq<Mark>): seq<Span> {
    if mask == [] then []
    else (if mask[0].start.Some? then [Span(mask[0].start.value, mask[0].end)] else []) + Spans(mask[1..])
  }

  predicate IsDescending(spans: seq<Span>) {
    forall i, j | 0 <= i < j < |spans| :: Before(spans[j], spans[i])
  }

  /** How many spans cover a position. */
  function Cover(spans: seq<Span>, x: int): nat {
    if spans == [] then 0
    else Cover(spans[..|spans| - 1], x) + Hits(spans[|spans| - 1], x)
  }

  function Hits(span: Span, x: int): nat {
    if span.start <= x < span.end then 1 else 0
  }

  lemma {:induction false} CoverFront(spans: seq<Span>, x: int)
    requires spans != []
    ensures Cover(spans, x) == Hits(spans[0], x) + Cover(spans[1..], x)
  {
    if |spans| > 1 {
      var front := spans[..|spans| - 1];
      CoverFront(front, x);
      assert front[1..] == spans[1..][..|spans| - 2];
    }
  }

  lemma {:induction false} InsertKeeps(span: Span, spans: seq<Span>, x: int)
    ensures Cover(Insert(span, spans), x) == Hits(span, x) + Cover(spans, x)
  {
    var r := Insert(span, spans);
    CoverFront(r, x);
    if spans == [] || Before(spans[0], span) {
      assert r[1..] == spans;
    } else {
      InsertKeeps(span, spans[1..], x);
      CoverFront(spans, x);
      assert r[1..] == Insert(span, spans[1..]);
    }
  }

  lemma {:induction false} InsertSorts(span: Span, spans: seq<Span>)
    requires IsDescending(spans)
    ensures IsDescending(Insert(span, spans))
    ensures forall other :: other in Insert(span, spans) ==> other == span || other in spans
  {
    if spans != [] && !Before(spans[0], span) {
      InsertSorts(span, spans[1..]);
      assert forall other :: other in spans ==> Before(other, spans[0]);
      Prepend(spans[0], Insert(span, spans[1..]));
    } else {
      Prepend(span, spans);
    }
  }

  lemma Prepend(span: Span, spans: seq<Span>)
    requires IsDescending(spans) && forall other :: other in spans ==> Before(other, span)
    ensures IsDescending([span] + spans)
  {
  }

  /** Sorting covers every position as often as before. */
  lemma {:induction false} DescendingKeeps(spans: seq<Span>, x: int)
    ensures Cover(Descending(spans), x) == Cover(spans, x)
    ensures IsDescending(Descending(spans))
    ensures forall span :: span in Descending(spans) ==> span in spans
  {
    if spans == [] {
    } else {
      DescendingKeeps(spans[1..], x);
      InsertKeeps(spans[0], Descending(spans[1..]), x);
      InsertSorts(spans[0], Descending(spans[1..]));
      CoverFront(spans, x);
    }
  }

  // ----- what excision should leave -----

  predicate InRange(spans: seq<Span>, text: string) {
    forall i | 0 <= i < |spans| :: 0 <= spans[i].start <= spans[i].end <= |text|
  }

  /** The characters at positions `i` to `j` that no span covers, in order. */
  function Outside(text: string, spans: seq<Span>, i: nat, j: nat): (r: string)
    requires i <= j <= |text|
    ensures |r| <= j - i
    decreases j - i
  {
    if i == j then [] else (if Cover(spans, i) == 0 then [text[i]] else []) + Outside(text, spans, i + 1, j)
  }

  ghost predicate Free(spans: seq<Span>, i: int, j: int) {
    forall x | i <= x < j :: Cover(spans, x) == 0
  }

  ghost predicate Full(spans: seq<Span>, i: int, j: int) {
    forall x | i <= x < j :: Cover(spans, x) > 0
  }

  /** Every position at or after one that two spans share is covered. */
  ghost predicate Clean(text: string, spans: seq<Span>) {
    forall x, y | 0 <= x <= y < |text| && Cover(spans, x) >= 2 :: Cover(spans, y) > 0
  }

  lemma {:induction false} OutsideSplit(text: string, spans: seq<Span>, i: nat, m: nat, j: nat)
    requires i <= m <= j <= |text|
    ensures Outside(text, spans, i, j) == Outside(text, spans, i, m) + Outside(text, spans, m, j)
    decreases m - i
  {
    if i == m {
    } else {
      OutsideSplit(text, spans, i + 1, m, j);
    }
  }

  /** Only the coverage of the positions in the range matters. */
  lemma {:induction false} OutsideSame(text: string, a: seq<Span>, b: seq<Span>, i: nat, j: nat)
    requires i <= j <= |text|
    requires forall x | i <= x < j :: Cover(a, x) == 0 <==> Cover(b, x) == 0
    ensures Outside(text, a, i, j) == Outside(text, b, i, j)
    decreases j - i
  {
    if i == j {
    } else {
      OutsideSame(text, a, b, i + 1, j);
    }
  }

  /** All of a range is outside exactly when none of it is covered; nothing of it when all is. */
  lemma {:induction false} OutsideAll(text: string, spans: seq<Span>, i: nat, j: nat)
    requires i <= j <= |text|
    ensures |Outside(text, spans, i, j)| == j - i <==> Free(spans, i, j)
    ensures Free(spans, i, j) ==> Outside(text, spans, i, j) == text[i..j]
    ensures Outside(text, spans, i, j) == [] <==> Full(spans, i, j)
    decreases j - i
  {
    if i == j {
    } else {
      OutsideAll(text, spans, i + 1, j);
      var rest := Outside(text, spans, i + 1, j);
      assert |Outside(text, spans, i, j)| == |rest| + if Cover(spans, i) == 0 then 1 else 0;
      assert Free(spans, i, j) <==> Cover(spans, i) == 0 && Free(spans, i + 1, j);
      assert text[i..j] == [text[i]] + text[i + 1..j];
      assert Full(spans, i, j) <==> Cover(spans, i) > 0 && Full(spans, i + 1, j);
    }
  }

  // ----- excision -----

  function Excise(text: string, spans: seq<Span>): string {
    if spans == [] then text else Cut(Excise(text, spans[..|spans| - 1]), spans[|spans| - 1])
  }

  /** The start of the last span cut, or the end of the text. */
  function Frontier(text: string, spans: seq<Span>): int {
    if spans == [] then |text| else spans[|spans| - 1].start
  }

  /** `r` is `e` with some characters left out. */
  ghost predicate Thinned(r: string, e: string) {
    r == [] || (e != [] && ((r[0] == e[0] && Thinned(r[1..], e[1..])) || Thinned(r, e[1..])))
  }

  lemma {:induction false} ThinnedLength(r: string, e: string)
    requires Thinned(r, e)
    ensures |r| <= |e|
    ensures |r| == |e| ==> r == e
  {
    if r == [] {
    } else {
      if r[0] == e[0] && Thinned(r[1..], e[1..]) {
        ThinnedLength(r[1..], e[1..]);
      } else {
        ThinnedLength(r, e[1..]);
      }
    }
  }

  lemma {:induction false} ThinnedAfter(x: string, r: string, e: string)
    requires Thinned(r, e)
    ensures Thinned(x + r, x + e)
  {
    if x == [] {
      assert x + r == r && x + e == e;
    } else {
      ThinnedAfter(x[1..], r, e);
      assert (x + r)[1..] == x[1..] + r && (x + e)[1..] == x[1..] + e;
    }
  }

  lemma {:induction false} ThinnedTail(r: string, e: string)
    requires Thinned(r, e) && r != []
    ensures e != [] && Thinned(r[1..], e[1..])
    decreases |e|
  {
    if !(r[0] == e[0] && Thinned(r[1..], e[1..])) {
      ThinnedTail(r, e[1..]);
    }
  }

  lemma ThinnedMore(r: string, e: string)
    requires e != [] && Thinned(r, e[1..])
    ensures Thinned(r, e)
  {
  }

  /** Dropping at least as many characters in front from the thinned text. */
  lemma {:induction false} ThinnedDrop(r: string, e: string, k: nat, u: nat)
    requires Thinned(r, e) && u <= |e| && u <= k <= |r|
    ensures Thinned(r[k..], e[u..])
    decreases k
  {
    if k == 0 {
      assert r[k..] == r && e[u..] == e;
    } else {
      ThinnedTail(r, e);
      var r', v := r[1..], if u == 0 then 0 else u - 1;
      ThinnedDrop(r', e[1..], k - 1, v);
      assert r'[k - 1..] == r[k..];
      if u == 0 {
        assert e[1..][0..] == e[1..] && e[0..] == e;
        ThinnedMore(r[k..], e);
      } else {
        assert e[1..][v..] == e[u..];
      }
    }
  }

  lemma {:induction false} NoCoverBelow(text: string, spans: seq<Span>)
    requires InRange(spans, text) && IsDescending(spans)
    ensures 0 <= Frontier(text, spans) <= |text|
    ensures Free(spans, 0, Frontier(text, spans))
  {
    if spans == [] {
    } else {
      var front := spans[..|spans| - 1];
      assert Frontier(text, spans) <= Frontier(text, front) by {
        if front != [] {
          assert Before(spans[|spans| - 1], spans[|spans| - 2]);
        }
      }
      NoCoverBelow(text, front);
    }
  }

  /** What is left: everything below the frontier, then some of what should be left above it. */
  ghost predicate Left(text: string, spans: seq<Span>, s: string, above: string) {
    var p := Frontier(text, spans);
    && 0 <= p <= |text| && s == text[..p] + above
    && Thinned(above, Outside(text, spans, p, |text|))
  }

  /** One more cut below the others. */
  lemma CutBelow(text: string, spans: seq<Span>, s: string, above: string, span: Span)
    requires Left(text, spans, s, above) && InRange(spans + [span], text) && IsDescending(spans + [span])
    requires span.end <= Frontier(text, spans)
    ensures Left(text, spans + [span], Cut(s, span), text[span.end..Frontier(text, spans)] + above)
    ensures |Outside(text, spans + [span], span.start, |text|)| ==
      Frontier(text, spans) - span.end + |Outside(text, spans, Frontier(text, spans), |text|)|
  {
    var all, p := spans + [span], Frontier(text, spans);
    Sub(text, spans, span);
    assert all[..|spans|] == spans && all[|spans|] == span;
    NoCoverBelow(text, spans);
    OutsideBelow(text, all, spans, span.start, span.end, p);
    CutPrefix(text, p, above, span);
    ThinnedAfter(text[span.end..p], above, Outside(text, spans, p, |text|));
  }

  lemma OutsideBelow(text: string, all: seq<Span>, spans: seq<Span>, a: nat, b: nat, p: nat)
    requires a <= b <= p <= |text| && Full(all, a, b) && Free(all, b, p)
    requires forall x | p <= x < |text| :: Cover(all, x) == 0 <==> Cover(spans, x) == 0
    ensures Outside(text, all, a, |text|) == text[b..p] + Outside(text, spans, p, |text|)
  {
    OutsideSplit(text, all, a, b, |text|);
    OutsideSplit(text, all, b, p, |text|);
    OutsideAll(text, all, a, b);
    OutsideAll(text, all, b, p);
    OutsideSame(text, all, spans, p, |text|);
  }

  lemma CutPrefix(text: string, p: nat, above: string, span: Span)
    requires 0 <= span.start <= span.end <= p <= |text|
    ensures Cut(text[..p] + above, span) == text[..span.start] + (text[span.end..p] + above)
  {
    assert Bound(span.end, |text[..p] + above|) == span.end;
  }

  lemma Sub(text: string, spans: seq<Span>, span: Span)
    requires InRange(spans + [span], text) && IsDescending(spans + [span])
    ensures InRange(spans, text) && IsDescending(spans) && 0 <= span.start <= span.end <= |text|
    ensures span.start <= Frontier(text, spans)
  {
    var all := spans + [span];
    assert all[|spans|] == span;
    assert forall i | 0 <= i < |spans| :: all[i] == spans[i];
    if spans != [] {
      assert Before(all[|spans|], all[|spans| - 1]);
    }
  }

  /** A cut that reaches past the frontier removes as many characters as it is long, covered ones or not. */
  lemma CutAcross(text: string, spans: seq<Span>, s: string, above: string, span: Span)
    requires Left(text, spans, s, above) && InRange(spans + [span], text) && IsDescending(spans + [span])
    requires span.end > Frontier(text, spans)
    ensures Left(text, spans + [span], Cut(s, span), above[Bound(span.end - Frontier(text, spans), |above|)..])
    ensures Outside(text, spans, Frontier(text, spans), |text|) ==
      Outside(text, spans, Frontier(text, spans), span.end) + Outside(text, spans, span.end, |text|)
    ensures Outside(text, spans + [span], span.start, |text|) == Outside(text, spans, span.end, |text|)
  {
    var all, p, a, b := spans + [span], Frontier(text, spans), span.start, span.end;
    Sub(text, spans, span);
    assert all[..|spans|] == spans && all[|spans|] == span;
    OutsideBelow(text, all, spans, a, b, b);
    assert text[b..b] + Outside(text, spans, b, |text|) == Outside(text, spans, b, |text|);
    OutsideSplit(text, spans, p, b, |text|);
    CutPast(text, p, above, span);
    DropThinned(above, Outside(text, spans, p, b), Outside(text, spans, b, |text|), b - p);
    LeftOf(text, all, Cut(s, span), above[Bound(b - p, |above|)..], Outside(text, spans, b, |text|), a);
  }

  lemma LeftOf(text: string, spans: seq<Span>, s: string, above: string, outside: string, p: nat)
    requires p == Frontier(text, spans) && p <= |text| && s == text[..p] + above
    requires outside == Outside(text, spans, p, |text|) && Thinned(above, outside)
    ensures Left(text, spans, s, above)
  {
  }

  lemma CutPast(text: string, p: nat, above: string, span: Span)
    requires 0 <= span.start <= p < span.end && p <= |text|
    ensures Cut(text[..p] + above, span) == text[..span.start] + above[Bound(span.end - p, |above|)..]
  {
    var s := text[..p] + above;
    assert s[Bound(span.end, |s|)..] == above[Bound(span.end - p, |above|)..];
  }

  lemma DropThinned(r: string, x: string, e: string, k: nat)
    requires Thinned(r, x + e) && |x| <= k
    ensures Thinned(r[Bound(k, |r|)..], e)
  {
    if k <= |r| {
      ThinnedLength(r, x + e);
      ThinnedDrop(r, x + e, k, |x|);
    }
  }

  /** How overlaps change with one more span below the others. */
  lemma CleanStep(text: string, spans: seq<Span>, span: Span)
    requires InRange(spans + [span], text) && IsDescending(spans + [span])
    ensures Free(spans, Frontier(text, spans), span.end) ==> (Clean(text, spans + [span]) <==> Clean(text, spans))
    ensures !Free(spans, Frontier(text, spans), span.end) ==>
      (Clean(text, spans + [span]) <==> Full(spans, span.end, |text|))
  {
    var all, p := spans + [span], Frontier(text, spans);
    assert all[..|spans|] == spans && all[|spans|] == span;
    Sub(text, spans, span);
    assert forall x :: Cover(all, x) == Cover(spans, x) + Hits(span, x);
    NoCoverBelow(text, spans);
    if Free(spans, p, span.end) {
      assert forall x | 0 <= x < |text| && Cover(spans, x) > 0 :: x >= span.end && Hits(span, x) == 0;
    } else {
      var x :| p <= x < span.end && Cover(spans, x) > 0;
      assert Cover(all, x) >= 2;
      assert Clean(text, all) ==> forall y | span.end <= y < |text| :: Cover(all, y) > 0 && Hits(span, y) == 0;
      if Full(spans, span.end, |text|) {
        forall x, y | 0 <= x <= y < |text| && Cover(all, x) >= 2
          ensures Cover(all, y) > 0
        {
          assert x >= span.start;
          assert y < span.end ==> Hits(span, y) == 1;
        }
      }
    }
  }

  /**
   Cutting the spans last first never leaves a covered character, whatever the overlaps:
   the result is a prefix of the text that no span touches followed by some of the
   characters outside, in order.  It is all of the characters outside exactly when everything after
   a position covered twice is covered too.
   */
  lemma {:induction false} ExcisionIsSafe(text: string, spans: seq<Span>)
    returns (above: string)
    requires InRange(spans, text) && IsDescending(spans)
    ensures Left(text, spans, Excise(text, spans), above)
    ensures |above| == |Outside(text, spans, Frontier(text, spans), |text|)| <==> Clean(text, spans)
    decreases |spans|
  {
    above := [];
    if spans == [] {
    } else {
      var front, span := spans[..|spans| - 1], spans[|spans| - 1];
      assert spans == front + [span];
      Sub(text, front, span);
      var before := ExcisionIsSafe(text, front);
      above := ExciseOne(text, front, span, Excise(text, front), before);
    }
  }

  lemma ExciseOne(text: string, spans: seq<Span>, span: Span, s: string, before: string) returns (above: string)
    requires InRange(spans + [span], text) && IsDescending(spans + [span])
    requires Left(text, spans, s, before)
    requires |before| == |Outside(text, spans, Frontier(text, spans), |text|)| <==> Clean(text, spans)
    ensures Left(text, spans + [span], Cut(s, span), above)
    ensures 0 <= span.start <= |text|
    ensures |above| == |Outside(text, spans + [span], span.start, |text|)| <==> Clean(text, spans + [span])
  {
    Sub(text, spans, span);
    if span.end <= Frontier(text, spans) {
      CutBelow(text, spans, s, before, span);
      CleanStep(text, spans, span);
      above := text[span.end..Frontier(text, spans)] + before;
    } else {
      above := ExciseAcross(text, spans, span, s, before);
    }
  }

  lemma ExciseAcross(text: string, spans: seq<Span>, span: Span, s: string, before: string) returns (above: string)
    requires InRange(spans + [span], text) && IsDescending(spans + [span])
    requires Left(text, spans, s, before) && span.end > Frontier(text, spans)
    requires |before| == |Outside(text, spans, Frontier(text, spans), |text|)| <==> Clean(text, spans)
    ensures Left(text, spans + [span], Cut(s, span), above) && 0 <= span.start <= |text|
    ensures |above| == |Outside(text, spans + [span], span.start, |text|)| <==> Clean(text, spans + [span])
  {
    var p := Frontier(text, spans);
    Sub(text, spans, span);
    CleanStep(text, spans, span);
    CutAcross(text, spans, s, before, span);
    OutsideAll(text, spans, p, span.end);
    OutsideAll(text, spans, span.end, |text|);
    above := before[Bound(span.end - p, |before|)..];
    ThinnedLength(before, Outside(text, spans, p, |text|));
    if Full(spans, span.end, |text|) {
      FullIsClean(text, spans, span);
    }
  }

  /** When everything behind a span that passes the frontier is covered, nothing is left above it. */
  lemma FullIsClean(text: string, spans: seq<Span>, span: Span)
    requires InRange(spans + [span], text) && IsDescending(spans + [span])
    requires Full(spans, span.end, |text|)
    ensures Clean(text, spans + [span])
  {
    CleanStep(text, spans, span);
    Sub(text, spans, span);
    NoCoverBelow(text, spans);
    if Free(spans, Frontier(text, spans), span.end) {
      assert forall y | span.end <= y < |text| :: Cover(spans, y) > 0;
    }
  }

  lemma BelowIsOutside(text: string, spans: seq<Span>)
    requires InRange(spans, text) && IsDescending(spans)
    ensures 0 <= Frontier(text, spans) <= |text|
    ensures Outside(text, spans, 0, |text|) == text[..Frontier(text, spans)] +
      Outside(text, spans, Frontier(text, spans), |text|)
  {
    var p := Frontier(text, spans);
    NoCoverBelow(text, spans);
    OutsideAll(text, spans, 0, p);
    OutsideSplit(text, spans, 0, p, |text|);
  }

  /**
   For any spans inside the text, in any order: no covered character survives, and what is
   left is in order.  Excision leaves exactly the characters
   outside all spans, in their order, if and only if every character from the first
   overlap on is covered (in particular, if no two spans overlap).
   */
  lemma ExcisionIsExactIff(text: string, spans: seq<Span>)
    requires InRange(spans, text)
    ensures Excise(text, Descending(spans)) == Outside(text, spans, 0, |text|) <==> Clean(text, spans)
    ensures Thinned(Excise(text, Descending(spans)), Outside(text, spans, 0, |text|))
  {
    var sorted := Descending(spans);
    forall x
      ensures Cover(sorted, x) == Cover(spans, x)
    {
      DescendingKeeps(spans, x);
    }
    DescendingKeeps(spans, 0);
    assert InRange(sorted, text) by {
      forall i | 0 <= i < |sorted|
        ensures 0 <= sorted[i].start <= sorted[i].end <= |text|
      {
        assert sorted[i] in spans;
      }
    }
    var above := ExcisionIsSafe(text, sorted);
    BelowIsOutside(text, sorted);
    OutsideSame(text, spans, sorted, 0, |text|);
    assert Clean(text, spans) <==> Clean(text, sorted);
    var p := Frontier(text, sorted);
    ThinnedAfter(text[..p], above, Outside(text, sorted, p, |text|));
    ThinnedLength(above, Outside(text, sorted, p, |text|));
  }

  predicate Disjoint(spans: seq<Span>) {
    forall i, j | 0 <= i < j < |spans| :: spans[i].end <= spans[j].start || spans[j].end <= spans[i].start
  }

  lemma {:induction false} DisjointCoversOnce(spans: seq<Span>, x: int)
    requires Disjoint(spans)
    ensures Cover(spans, x) <= 1
    ensures Cover(spans, x) == 1 <==> exists i | 0 <= i < |spans| :: Hits(spans[i], x) == 1
  {
    if spans == [] {
    } else {
      var front, last := spans[..|spans| - 1], spans[|spans| - 1];
      DisjointCoversOnce(front, x);
      if Cover(front, x) == 1 {
        var i :| 0 <= i < |front| && Hits(front[i], x) == 1;
        assert Hits(spans[i], x) == 1;
        assert Hits(last, x) == 0;
      }
    }
  }

  /** Disjoint spans are cut out exactly. */
  lemma DisjointIsExact(text: string, spans: seq<Span>)
    requires InRange(spans, text) && Disjoint(spans)
    ensures Excise(text, Descending(spans)) == Outside(text, spans, 0, |text|)
  {
    forall x
      ensures Cover(spans, x) <= 1
    {
      DisjointCoversOnce(spans, x);
    }
    ExcisionIsExactIff(text, spans);
  }

  /** A span marked twice takes the character after it along. */
  lemma OverlapTakesTooMuch()
    ensures Excise("abc", Descending([Span(0, 1), Span(0, 1)])) == "c"
    ensures Outside("abc", [Span(0, 1), Span(0, 1)], 0, 3) == "bc"
  {
    var one, two := [Span(0, 1)], [Span(0, 1), Span(0, 1)];
    assert two[1..] == one && one[1..] == [];
    assert Descending(one) == one && Descending(two) == two;
    assert two[..1] == one && one[..0] == [];
    assert Excise("abc", one) == "bc";
    assert Cover(two, 0) == 2 && Cover(two, 1) == 0 && Cover(two, 2) == 0;
  }

  // ----- whitespace -----

  predicate IsSpace(c: char) {
    || '\t' <= c <= '\r' || '\U{1c}' <= c <= ' ' || c == '\U{85}' || c == '\U{a0}' || c == '\U{1680}'
    || '\U{2000}' <= c <= '\U{200a}' || c == '\U{2028}' || c == '\U{2029}' || c == '\U{202f}' || c ==
      '\U{205f}' || c == '\U{3000}'
  }

  /** Splits `s` at runs of whitespace; `word` is the word being read. */
  function Split(s: string, word: string): seq<string> {
    if s == [] then Flush(word)
    else if IsSpace(s[0]) then Flush(word) + Split(s[1..], [])
    else Split(s[1..], word + [s[0]])
  }

  function Flush(word: string): seq<string> {
    if word == [] then [] else [word]
  }

  function Join(words: seq<string>): string {
    if words == [] then [] else if |words| == 1 then words[0] else words[0] + " " + Join(words[1..])
  }

  function Collapse(s: string): string {
    Join(Split(s, []))
  }

  /** The non-space characters, in order. */
  function Letters(s: string): string {
    if s == [] then [] else (if IsSpace(s[0]) then [] else [s[0]]) + Letters(s[1..])
  }

  predicate IsWord(word: string) {
    word != [] && forall i | 0 <= i < |word| :: !IsSpace(word[i])
  }

  predicate AllWords(words: seq<string>) {
    forall i | 0 <= i < |words| :: IsWord(words[i])
  }

  lemma {:induction false} LettersConcat(a: string, b: string)
    ensures Letters(a + b) == Letters(a) + Letters(b)
  {
    if a == [] {
      assert a + b == b;
    } else {
      assert (a + b)[1..] == a[1..] + b;
      LettersConcat(a[1..], b);
    }
  }

  lemma {:induction false} LettersOfWord(word: string)
    requires word == [] || IsWord(word)
    ensures Letters(word) == word
  {
    if word == [] {
    } else {
      LettersOfWord(word[1..]);
    }
  }

  function AllLetters(words: seq<string>): string {
    if words == [] then [] else words[0] + AllLetters(words[1..])
  }

  lemma {:induction false} SplitGivesWords(s: string, word: string)
    requires word == [] || IsWord(word)
    ensures AllWords(Split(s, word))
    decreases |s|
  {
    if s == [] {
    } else if IsSpace(s[0]) {
      SplitGivesWords(s[1..], []);
    } else {
      SplitGivesWords(s[1..], word + [s[0]]);
    }
  }

  lemma {:induction false} SplitKeepsLetters(s: string, word: string)
    requires word == [] || IsWord(word)
    ensures AllLetters(Split(s, word)) == word + Letters(s)
    decreases |s|
  {
    if s == [] {
      FlushedLetters(word, []);
      assert Flush(word) + [] == Flush(word);
    } else if IsSpace(s[0]) {
      SplitKeepsLetters(s[1..], []);
      FlushedLetters(word, Split(s[1..], []));
      Regroup([], [], Letters(s[1..]));
    } else {
      SplitKeepsLetters(s[1..], word + [s[0]]);
      Regroup(word, [s[0]], Letters(s[1..]));
    }
  }

  lemma FlushedLetters(word: string, rest: seq<string>)
    ensures AllLetters(Flush(word) + rest) == word + AllLetters(rest)
  {
    if word == [] {
      assert Flush(word) + rest == rest && [] + AllLetters(rest) == AllLetters(rest);
    } else {
      assert ([word] + rest)[1..] == rest;
    }
  }

  lemma Regroup(a: string, b: string, c: string)
    ensures (a + b) + c == a + (b + c) && [] + c == c && a + [] == a
  {
  }

  lemma {:induction false} LettersOfJoin(words: seq<string>)
    requires AllWords(words)
    ensures Letters(Join(words)) == AllLetters(words)
  {
    if words == [] {
    } else {
      LettersOfWord(words[0]);
      LettersOfJoin(words[1..]);
      if |words| == 1 {
        assert words[0] + [] == words[0];
      } else {
        LettersOfPair(words[0], Join(words[1..]));
      }
    }
  }

  lemma LettersOfPair(word: string, rest: string)
    requires IsWord(word)
    ensures Letters(word + " " + rest) == word + Letters(rest)
  {
    LettersConcat(word + " ", rest);
    LettersConcat(word, " ");
    LettersOfWord(word);
    assert Letters(" ") == [] && word + [] == word;
  }

  lemma {:induction false} SplitWord(word: string, s: string, read: string)
    requires forall i | 0 <= i < |word| :: !IsSpace(word[i])
    ensures Split(word + s, read) == Split(s, read + word)
    decreases |word|
  {
    if word == [] {
      assert word + s == s && read + word == read;
    } else {
      assert (word + s)[1..] == word[1..] + s;
      SplitWord(word[1..], s, read + [word[0]]);
      assert read + [word[0]] + word[1..] == read + word;
    }
  }

  /** Joined words split into themselves. */
  lemma {:induction false} SplitOfJoin(words: seq<string>)
    requires AllWords(words)
    ensures Split(Join(words), []) == words
  {
    if words == [] {
    } else {
      var rest := if |words| == 1 then [] else " " + Join(words[1..]);
      SplitOfJoin(words[1..]);
      SplitWord(words[0], rest, []);
      assert Join(words) == words[0] + rest && [] + words[0] == words[0];
      if |words| > 1 {
        assert rest[1..] == Join(words[1..]);
      }
    }
  }

  /**
   Collapsing keeps every non-space character in order, leaves words separated by single
   blanks, and does nothing the second time.
   */
  lemma CollapseKeepsLetters(s: string)
    ensures Letters(Collapse(s)) == Letters(s)
    ensures Collapse(Collapse(s)) == Collapse(s)
    ensures exists words: seq<string> :: Collapse(s) == Join(words) && AllWords(words)
  {
    SplitGivesWords(s, []);
    SplitKeepsLetters(s, []);
    Regroup([], [], Letters(s));
    LettersOfJoin(Split(s, []));
    SplitOfJoin(Split(s, []));
  }

  // ----- in terms of the mask and of positions -----

  /** The entries of a mask that mark a position. */
  ghost function Marking(mask: seq<Mark>, x: int): set<nat> {
    set k: nat | k < |mask| && mask[k].start.Some? && mask[k].start.value <= x < mask[k].end
  }

  /** The span of one entry, if it has a start. */
  function SpanOf(m: Mark): seq<Span> {
    if m.start.Some? then [Span(m.start.value, m.end)] else []
  }

  lemma {:induction false} SpansSnoc(mask: seq<Mark>, m: Mark)
    ensures Spans(mask + [m]) == Spans(mask) + SpanOf(m)
  {
    if mask == [] {
      assert [] + [m] == [m] && Spans([m]) == SpanOf(m) + Spans([]);
    } else {
      assert (mask + [m])[1..] == mask[1..] + [m] && (mask + [m])[0] == mask[0];
      SpansSnoc(mask[1..], m);
      SpansRegroup(SpanOf(mask[0]), Spans(mask[1..]), SpanOf(m));
    }
  }

  lemma SpansRegroup(a: seq<Span>, b: seq<Span>, c: seq<Span>)
    ensures (a + b) + c == a + (b + c)
  {
  }

  /** The spans of a mask are those of all entries but the last, and the last one's. */
  lemma SpansLast(mask: seq<Mark>)
    requires mask != []
    ensures Spans(mask) == Spans(mask[..|mask| - 1]) + SpanOf(mask[|mask| - 1])
  {
    assert mask == mask[..|mask| - 1] + [mask[|mask| - 1]];
    SpansSnoc(mask[..|mask| - 1], mask[|mask| - 1]);
  }

  lemma CoverMore(spans: seq<Span>, m: Mark, x: int)
    ensures Cover(spans + SpanOf(m), x) ==
      Cover(spans, x) + if m.start.Some? && m.start.value <= x < m.end then 1 else 0
  {
    if m.start.Some? {
      assert (spans + SpanOf(m))[..|spans|] == spans;
    } else {
      assert spans + SpanOf(m) == spans;
    }
  }

  lemma MarkingLast(mask: seq<Mark>, x: int)
    requires mask != []
    ensures var n, m := |mask| - 1, mask[|mask| - 1];
            |Marking(mask, x)| ==
              |Marking(mask[..n], x)| + if m.start.Some? && m.start.value <= x < m.end then 1 else 0
  {
    var n, m := |mask| - 1, mask[|mask| - 1];
    if m.start.Some? && m.start.value <= x < m.end {
      assert Marking(mask, x) == Marking(mask[..n], x) + {n};
    } else {
      assert Marking(mask, x) == Marking(mask[..n], x);
    }
  }

  /** The spans cover a position as often as entries with a start mark it. */
  lemma {:induction false} SpansCover(mask: seq<Mark>, x: int)
    ensures Cover(Spans(mask), x) ==
      |set k: nat | k < |mask| && mask[k].start.Some? && mask[k].start.value <= x < mask[k].end|
  {
    if mask == [] {
      assert Marking(mask, x) == {};
    } else {
      var n, m := |mask| - 1, mask[|mask| - 1];
      SpansCover(mask[..n], x);
      SpansLast(mask);
      CoverMore(Spans(mask[..n]), m, x);
      MarkingLast(mask, x);
    }
  }

  /** Some entry with a start marks the position. */
  predicate Marked(mask: seq<Mark>, x: int) {
    exists k | 0 <= k < |mask| :: mask[k].start.Some? && mask[k].start.value <= x < mask[k].end
  }

  lemma CoveredIffMarked(mask: seq<Mark>, x: int)
    ensures Cover(Spans(mask), x) > 0 <==> Marked(mask, x)
  {
    SpansCover(mask, x);
    if Marked(mask, x) {
      var k: nat :| k < |mask| && mask[k].start.Some? && mask[k].start.value <= x < mask[k].end;
      assert k in Marking(mask, x);
    } else {
      assert Marking(mask, x) == {};
    }
  }

  ghost predicate Increasing(kept: seq<nat>) {
    forall i, j | 0 <= i < j < |kept| :: kept[i] < kept[j]
  }

  /** The characters at these positions. */
  function Picked(text: string, kept: seq<nat>): string
    requires forall i | 0 <= i < |kept| :: kept[i] < |text|
  {
    seq(|kept|, i requires 0 <= i < |kept| => text[kept[i]])
  }

  lemma PickedMore(text: string, k: nat, kept: seq<nat>)
    requires k < |text| && Increasing(kept) && forall i | 0 <= i < |kept| :: k < kept[i] < |text|
    ensures Increasing([k] + kept)
    ensures Picked(text, [k] + kept) == [text[k]] + Picked(text, kept)
  {
  }

  lemma {:induction false} OutsideIsPicked(text: string, spans: seq<Span>, i: nat, j: nat) returns (kept: seq<nat>)
    requires i <= j <= |text|
    ensures Increasing(kept) && forall x: nat :: x in kept <==> i <= x < j && Cover(spans, x) == 0
    ensures (forall k | 0 <= k < |kept| :: kept[k] < |text|) && Outside(text, spans, i, j) == Picked(text, kept)
    decreases j - i
  {
    if i == j {
      kept := [];
    } else {
      kept := OutsideIsPicked(text, spans, i + 1, j);
      if Cover(spans, i) == 0 {
        assert forall k | 0 <= k < |kept| :: kept[k] in kept;
        PickedMore(text, i, kept);
        kept := [i] + kept;
      }
    }
  }

  lemma PickedTail(text: string, kept: seq<nat>)
    requires kept != [] && Increasing(kept) && forall i | 0 <= i < |kept| :: kept[i] < |text|
    ensures Increasing(kept[1..]) && forall i | 0 <= i < |kept[1..]| :: kept[0] < kept[1..][i] < |text|
    ensures Picked(text, kept)[0] == text[kept[0]] && Picked(text, kept)[1..] == Picked(text, kept[1..])
  {
  }

  lemma {:induction false} ThinnedIsPicked(r: string, text: string, kept: seq<nat>) returns (some: seq<nat>)
    requires Increasing(kept) && (forall i | 0 <= i < |kept| :: kept[i] < |text|) && Thinned(r, Picked(text, kept))
    ensures Increasing(some) && (forall i | 0 <= i < |some| :: some[i] in kept && some[i] < |text|)
    ensures r == Picked(text, some)
    decreases |kept|
  {
    if r == [] {
      some := [];
    } else {
      PickedTail(text, kept);
      if r[0] == text[kept[0]] && Thinned(r[1..], Picked(text, kept[1..])) {
        some := ThinnedIsPicked(r[1..], text, kept[1..]);
        PickedMore(text, kept[0], some);
        some := [kept[0]] + some;
      } else {
        some := ThinnedIsPicked(r, text, kept[1..]);
      }
    }
  }

  /** Every marked span lies in the text. */
  predicate MarksInRange(mask: seq<Mark>, text: string) {
    forall k | 0 <= k < |mask| && mask[k].start.Some? :: 0 <= mask[k].start.value <= mask[k].end <= |text|
  }

  /** No two marked spans overlap. */
  predicate MarksDisjoint(mask: seq<Mark>) {
    forall i, j | 0 <= i < j < |mask| && mask[i].start.Some? && mask[j].start.Some? ::
      mask[i].end <= mask[j].start.value || mask[j].end <= mask[i].start.value
  }

  lemma {:induction false} SpanIsMarked(mask: seq<Mark>, span: Span) returns (k: nat)
    requires span in Spans(mask)
    ensures k < |mask| && mask[k] == Mark(Some(span.start), span.end)
  {
    SpansLast(mask);
    if span in Spans(mask[..|mask| - 1]) {
      k := SpanIsMarked(mask[..|mask| - 1], span);
    } else {
      k := |mask| - 1;
    }
  }

  lemma SpansInRange(mask: seq<Mark>, text: string)
    requires MarksInRange(mask, text)
    ensures InRange(Spans(mask), text)
  {
    forall i | 0 <= i < |Spans(mask)|
      ensures 0 <= Spans(mask)[i].start <= Spans(mask)[i].end <= |text|
    {
      var k := SpanIsMarked(mask, Spans(mask)[i]);
    }
  }

  lemma {:induction false} SpansDisjoint(mask: seq<Mark>)
    requires MarksDisjoint(mask)
    ensures Disjoint(Spans(mask))
  {
    if mask == [] {
    } else {
      var n, m := |mask| - 1, mask[|mask| - 1];
      var front := Spans(mask[..n]);
      SpansDisjoint(mask[..n]);
      SpansLast(mask);
      forall i | 0 <= i < |front| && m.start.Some?
        ensures front[i].end <= m.start.value || m.end <= front[i].start
      {
        var k := SpanIsMarked(mask[..n], front[i]);
        assert mask[..n][k] == mask[k];
      }
    }
  }

  /** `r` consists of the characters at these positions of the text. */
  ghost predicate PickedFrom(text: string, kept: seq<nat>, r: string) {
    Increasing(kept) && (forall i | 0 <= i < |kept| :: kept[i] < |text|) && r == Picked(text, kept)
  }

  /** No marked character survives; if no two marks overlap, all others do. */
  lemma UnmarkedSurvive(text: string, mask: seq<Mark>) returns (kept: seq<nat>)
    requires MarksInRange(mask, text)
    ensures PickedFrom(text, kept, Excise(text, Descending(Spans(mask))))
    ensures forall x | x in kept :: !Marked(mask, x)
    ensures MarksDisjoint(mask) ==> forall x: nat :: x in kept <==> x < |text| && !Marked(mask, x)
  {
    var spans := Spans(mask);
    SpansInRange(mask, text);
    ExcisionIsExactIff(text, spans);
    var all := OutsideIsPicked(text, spans, 0, |text|);
    forall x: nat
      ensures Cover(spans, x) == 0 <==> !Marked(mask, x)
    {
      CoveredIffMarked(mask, x);
    }
    if MarksDisjoint(mask) {
      SpansDisjoint(mask);
      DisjointIsExact(text, spans);
      kept := all;
    } else {
      kept := ThinnedIsPicked(Excise(text, Descending(spans)), text, all);
    }
  }

  /** The residual text of a sample. */
  method MakeNegative(text: string, mask: seq<Mark>) returns (s: string)
    ensures s == Collapse(Excise(text, Descending(Spans(mask))))
    ensures InRange(Spans(mask), text) && Clean(text, Spans(mask)) ==>
      s == Collapse(Outside(text, Spans(mask), 0, |text|)) &&
        Letters(s) == Letters(Outside(text, Spans(mask), 0, |text|))
    ensures MarksInRange(mask, text) ==>
      exists r: string, kept: seq<nat> | PickedFrom(text, kept, r) ::
        s == Collapse(r) && forall x | x in kept :: !Marked(mask, x)
    ensures MarksInRange(mask, text) && MarksDisjoint(mask) ==>
      exists r: string, kept: seq<nat> | PickedFrom(text, kept, r) ::
        s == Collapse(r) && forall x: nat :: x in kept <==> x < |text| && !Marked(mask, x)
  {
    var spans := Descending(Spans(mask));
    s := text;
    for i := 0 to |spans|
      invariant s == Excise(text, spans[..i])
    {
      assert spans[..i + 1][..i] == spans[..i];
      s := Cut(s, spans[i]);
    }
    assert spans[..|spans|] == spans;
    CollapseKeepsLetters(s);
    if InRange(Spans(mask), text) {
      ExcisionIsExactIff(text, Spans(mask));
    }
    if MarksInRange(mask, text) {
      ghost var kept := UnmarkedSurvive(text, mask);
      assert PickedFrom(text, kept, s);
    }
    s := Collapse(s);
  }
}
