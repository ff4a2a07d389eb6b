/**
Background compaction: of the segments behind the `keepLargest` biggest ones, those below one twentieth
of the corpus are merged into one.
*/
module Folding {
  import opened Sorting
  import opened Sums

  /** A searchable segment with its live documents. */
  datatype Segment = Segment(id: nat, docs: multiset<nat>)

  predicate Bigger(a: Segment, b: Segment) { |a.docs| >= |b.docs| }

  function Size(): Segment -> int { (s: Segment) => |s.docs| }

  function TotalDocs(segments: seq<Segment>): int { Sum(segments, Size()) }

  ghost function AllDocs(segments: seq<Segment>): multiset<nat> {
    if segments == [] then multiset{} else segments[0].docs + AllDocs(segments[1..])
  }

  /** One twentieth of the corpus, rounded up, and at least one. */
  function Ceiling(total: nat): (c: nat)
    ensures c >= 1 && 20 * c >= total
    ensures forall n: nat :: n < c <==> 20 * n < total || (total == 0 && n == 0)
  {
    if total == 0 then 1 else (total + 19) / 20
  }

  function Below(ceiling: nat): Segment -> bool { (s: Segment) => |s.docs| < ceiling }

  function NotBelow(ceiling: nat): Segment -> bool { (s: Segment) => |s.docs| >= ceiling }

  function Skip<T>(s: seq<T>, n: nat): seq<T> { if n >= |s| then [] else s[n..] }

  function First<T>(s: seq<T>, n: nat): seq<T> { if n >= |s| then s else s[..n] }

  lemma BiggerIsTotal()
    ensures TotalPreorder(Bigger)
  {
  }

  lemma {:induction false} FilterSplit(s: seq<Segment>, ceiling: nat)
    ensures multiset(Filter(s, Below(ceiling))) + multiset(Filter(s, NotBelow(ceiling))) == multiset(s)
    ensures |Filter(s, Below(ceiling))| + |Filter(s, NotBelow(ceiling))| == |s|
  {
    if s == [] {
    } else {
      FilterSplit(s[1..], ceiling);
      assert s == [s[0]] + s[1..];
    }
  }

  // ---------------------------------------------------------------- documents

  lemma {:induction false} DocsAppend(a: seq<Segment>, b: seq<Segment>)
    ensures AllDocs(a + b) == AllDocs(a) + AllDocs(b)
  {
    if a == [] {
      assert a + b == b;
    } else {
      DocsAppend(a[1..], b);
      assert (a + b)[1..] == a[1..] + b;
    }
  }

  lemma {:induction false} DocsWithout(s: seq<Segment>, i: nat)
    requires i < |s|
    ensures AllDocs(s) == s[i].docs + AllDocs(s[..i] + s[i + 1..])
  {
    assert s == s[..i] + ([s[i]] + s[i + 1..]);
    assert ([s[i]] + s[i + 1..])[1..] == s[i + 1..];
    DocsAppend(s[..i], s[i + 1..]);
    DocsAppend(s[..i], [s[i]] + s[i + 1..]);
  }

  lemma {:induction false} DocsPermute(a: seq<Segment>, b: seq<Segment>)
    requires multiset(a) == multiset(b)
    ensures AllDocs(a) == AllDocs(b)
  {
    if a == [] {
      assert |multiset(b)| == 0;
    } else {
      var i := FirstElsewhere(a, b);
      DocsWithout(b, i);
      DocsPermute(a[1..], b[..i] + b[i + 1..]);
    }
  }

  // ---------------------------------------------------------------- one round

  /** What one round starts from: the biggest segments, the large ones among the others, and the small ones. */
  ghost predicate Parts(segments: seq<Segment>, keepLargest: nat, biggest: seq<Segment>, large: seq<Segment>,
      small: seq<Segment>) {
    && multiset(segments) == multiset(biggest) + multiset(large) + multiset(small)
    && |segments| == |biggest| + |large| + |small|
    && (|biggest| == keepLargest || (|biggest| < keepLargest && large == [] && small == []))
    && (forall x, y :: x in biggest && (y in large || y in small) ==> Bigger(x, y))
    && TotalDocs(segments) >= 0
    && (forall x :: x in large ==> |x.docs| >= Ceiling(TotalDocs(segments)))
    && (forall x :: x in small ==> |x.docs| < Ceiling(TotalDocs(segments)))
  }

  method SmallSegments(segments: seq<Segment>, keepLargest: nat)
    returns (biggest: seq<Segment>, large: seq<Segment>, small: seq<Segment>)
    ensures Parts(segments, keepLargest, biggest, large, small)
  {
    var sorted := Sort(segments, Bigger);
    SumNonNegative(segments, Size());
    var total := TotalDocs(segments);
    var tail := Skip(sorted, keepLargest);
    biggest := First(sorted, keepLargest);
    large := Filter(tail, NotBelow(Ceiling(total)));
    small := Filter(tail, Below(Ceiling(total)));
    BiggerIsTotal();
    SortPermutes(segments, Bigger);
    SortOrdered(segments, Bigger);
    PartsFit(segments, sorted, keepLargest, Ceiling(total));
  }

  lemma {:induction false} BiggestFirst(sorted: seq<Segment>, biggest: seq<Segment>, tail: seq<Segment>)
    requires Ordered(sorted, Bigger) && sorted == biggest + tail
    ensures forall x, y :: x in biggest && y in tail ==> Bigger(x, y)
  {
    forall x, y | x in biggest && y in tail ensures Bigger(x, y) {
      var i :| 0 <= i < |biggest| && biggest[i] == x;
      var j :| 0 <= j < |tail| && tail[j] == y;
      assert sorted[i] == x && sorted[|biggest| + j] == y;
    }
  }

  lemma {:induction false} TailSplits(tail: seq<Segment>, ceiling: nat)
    ensures var large, small := Filter(tail, NotBelow(ceiling)), Filter(tail, Below(ceiling));
      && multiset(tail) == multiset(large) + multiset(small) && |tail| == |large| + |small|
      && (forall x :: x in large ==> x in tail && |x.docs| >= ceiling)
      && (forall x :: x in small ==> x in tail && |x.docs| < ceiling)
  {
    FilterSplit(tail, ceiling);
    FilterKeeps(tail, NotBelow(ceiling));
    FilterKeeps(tail, Below(ceiling));
  }

  lemma {:induction false} PartsFit(segments: seq<Segment>, sorted: seq<Segment>, keepLargest: nat, ceiling: nat)
    requires multiset(sorted) == multiset(segments) && Ordered(sorted, Bigger) && |sorted| == |segments|
    requires TotalDocs(segments) >= 0 && ceiling == Ceiling(TotalDocs(segments))
    ensures var tail := Skip(sorted, keepLargest);
      Parts(segments, keepLargest, First(sorted, keepLargest),
            Filter(tail, NotBelow(ceiling)), Filter(tail, Below(ceiling)))
  {
    var biggest, tail := First(sorted, keepLargest), Skip(sorted, keepLargest);
    assert sorted == biggest + tail;
    BiggestFirst(sorted, biggest, tail);
    TailSplits(tail, ceiling);
    if keepLargest >= |sorted| {
      assert Filter(tail, NotBelow(ceiling)) == [] && Filter(tail, Below(ceiling)) == [];
    }
  }

  /** Merges the small segments into one, if there are at least two; a merge of nothing leaves nothing
      where `dropEmpty` says so. */
  method Compact(segments: seq<Segment>, keepLargest: nat, freshId: nat, dropEmpty: bool)
    returns (r: seq<Segment>, merged: nat, ghost biggest: seq<Segment>, ghost large: seq<Segment>,
      ghost small: seq<Segment>)
    ensures Parts(segments, keepLargest, biggest, large, small)
    ensures AllDocs(r) == AllDocs(segments)
    ensures |small| < 2 ==> merged == 0 && r == segments
    ensures |small| >= 2 ==> merged == |small| && |r| < |segments|
    ensures |small| >= 2 ==>
      r == biggest + large +
           (if AllDocs(small) == multiset{} && dropEmpty then [] else [Segment(freshId, AllDocs(small))])
    ensures forall x :: x in biggest || x in large ==> x in r
    ensures forall x :: x in segments && 0 < TotalDocs(segments) <= 20 * |x.docs| ==> x in r
  {
    var b, l, s := SmallSegments(segments, keepLargest);
    biggest, large, small := b, l, s;
    if |s| < 2 {
      Untouched(segments, b, l, s);
      return segments, 0, b, l, s;
    }
    var docs := MergeDocs(s);
    r := b + l + (if docs == multiset{} && dropEmpty then [] else [Segment(freshId, docs)]);
    merged := |s|;
    MergedDocs(segments, b, l, s, r, docs, freshId);
    LargeSurvive(segments, keepLargest, b, l, s);
  }

  lemma {:induction false} LargeSurvive(segments: seq<Segment>, keepLargest: nat, biggest: seq<Segment>,
      large: seq<Segment>, small: seq<Segment>)
    requires Parts(segments, keepLargest, biggest, large, small)
    ensures forall x :: x in segments && 0 < TotalDocs(segments) <= 20 * |x.docs| ==> x in biggest || x in large
  {
    forall x | x in segments && 0 < TotalDocs(segments) <= 20 * |x.docs| ensures x in biggest || x in large {
      assert x in multiset(segments);
      assert x !in small;
    }
  }

  method MergeDocs(small: seq<Segment>) returns (docs: multiset<nat>)
    ensures docs == AllDocs(small)
  {
    docs := multiset{};
    var k := |small|;
    while k > 0
      invariant 0 <= k <= |small| && docs == AllDocs(small[k..])
    {
      k := k - 1;
      assert small[k..][1..] == small[k + 1..];
      docs := small[k].docs + docs;
    }
    assert small[0..] == small;
  }

  lemma {:induction false} Untouched(segments: seq<Segment>, biggest: seq<Segment>, large: seq<Segment>,
      small: seq<Segment>)
    requires multiset(segments) == multiset(biggest) + multiset(large) + multiset(small)
    ensures forall x :: x in biggest || x in large ==> x in segments
  {
    forall x | x in biggest || x in large ensures x in segments {
      assert x in multiset(segments);
    }
  }

  lemma {:induction false} MergedDocs(segments: seq<Segment>, biggest: seq<Segment>, large: seq<Segment>,
      small: seq<Segment>,
      r: seq<Segment>, docs: multiset<nat>, freshId: nat)
    requires multiset(segments) == multiset(biggest) + multiset(large) + multiset(small) && docs == AllDocs(small)
    requires r == biggest + large + [Segment(freshId, docs)] || (docs == multiset{} && r == biggest + large + [])
    ensures AllDocs(r) == AllDocs(segments)
  {
    var kept, merged := biggest + large, [Segment(freshId, docs)];
    DocsPermute(segments, kept + small);
    DocsAppend(kept, small);
    DocsAppend(kept, merged);
    assert kept + [] == kept;
    assert AllDocs(merged) == docs;
  }

  // ---------------------------------------------------------------- settled

  lemma {:induction false} SumAtLeast(s: seq<Segment>, c: nat)
    requires forall x :: x in s ==> |x.docs| >= c
    ensures Sum(s, Size()) >= |s| * c
  {
    if s == [] {
    } else {
      SumAtLeast(s[1..], c);
      assert |s| * c == c + |s[1..]| * c;
    }
  }

  lemma FewAboveCeiling(n: nat, c: nat, total: nat)
    requires c >= 1 && n * c <= total <= 20 * c
    ensures n <= 20
  {
    assert n >= 21 ==> n * c >= 21 * c;
  }

  lemma {:induction false} BigOnes(segments: seq<Segment>, big: seq<Segment>, small: seq<Segment>, c: nat)
    requires multiset(segments) == multiset(big) + multiset(small) && forall x :: x in big ==> |x.docs| >= c
    ensures |big| * c <= TotalDocs(segments)
  {
    SumPermutes(segments, big + small, Size());
    SumAppend(big, small, Size());
    SumNonNegative(small, Size());
    SumAtLeast(big, c);
  }

  /** A set of segments in which there is nothing left to fold is small, whatever the corpus. */
  lemma {:induction false} SettledIsSmall(segments: seq<Segment>, keepLargest: nat, biggest: seq<Segment>,
      large: seq<Segment>, small: seq<Segment>)
    requires Parts(segments, keepLargest, biggest, large, small) && |small| < 2
    ensures |segments| <= (if keepLargest < 20 then 20 else keepLargest) + 1
  {
    if large != [] {
      var c := Ceiling(TotalDocs(segments));
      forall x | x in biggest + large ensures |x.docs| >= c {
        assert x in biggest ==> Bigger(x, large[0]);
      }
      assert multiset(biggest + large) == multiset(biggest) + multiset(large);
      BigOnes(segments, biggest + large, small, c);
      FewAboveCeiling(|biggest + large|, c, TotalDocs(segments));
    }
  }

  /** Folding again and again stops, loses no document, and leaves at most 21 segments where three are kept. */
  method FoldUntilSettled(segments: seq<Segment>, keepLargest: nat, dropEmpty: bool) returns (r: seq<Segment>)
    ensures AllDocs(r) == AllDocs(segments)
    ensures |r| <= |segments| && |r| <= (if keepLargest < 20 then 20 else keepLargest) + 1
  {
    r := segments;
    var nextId := 0;
    while true
      invariant AllDocs(r) == AllDocs(segments) && |r| <= |segments|
      decreases |r|
    {
      var next, merged;
      ghost var biggest, large, small;
      next, merged, biggest, large, small := Compact(r, keepLargest, nextId, dropEmpty);
      if merged == 0 {
        SettledIsSmall(r, keepLargest, biggest, large, small);
        return;
      }
      r, nextId := next, nextId + 1;
    }
  }
}
