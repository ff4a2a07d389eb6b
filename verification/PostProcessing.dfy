/**
Shaping of search results: filter by score and by the kind of the session a hit belongs to, sort, keep
the best few of each session, truncate.
*/
module PostProcessing {
  import opened Wrappers
  import opened Sorting

  datatype Group = Group(machine: string, source: string, session: string)

  datatype Hit = Hit(group: Group, kind: Option<string>, ts: nat, score: int, id: nat)

  datatype KindFilter = Primary | Subagent | Regular | All

  datatype SortBy = Score | Ts

  datatype Render = Render(minScore: Option<int>, kindFilter: KindFilter, sort: SortBy, topN: Option<nat>, limit: nat)

  predicate MatchesKind(filter: KindFilter, kind: Option<string>) {
    match filter
    case All => true
    case Regular => kind != Some("guardian_review")
    case Primary => kind.None? || kind == Some("main")
    case Subagent => kind.Some? && kind != Some("main") && kind != Some("guardian_review")
  }

  // ---------------------------------------------------------------- the kind of a group

  /** What the hits themselves say about a group, `None` where it has none: the first hit's kind, unless a
      later one says "main". */
  function GroupKind(hits: seq<Hit>, g: Group): Option<Option<string>> {
    if hits == [] then None else
      var last, before := hits[|hits| - 1], GroupKind(hits[..|hits| - 1], g);
      if last.group != g then before
      else if before.None? then Some(last.kind)
      else if last.kind == Some("main") then Some(Some("main"))
      else before
  }

  ghost predicate SaysMain(hits: seq<Hit>, g: Group) {
    exists i :: 0 <= i < |hits| && hits[i].group == g && hits[i].kind == Some("main")
  }

  ghost predicate IsFirst(hits: seq<Hit>, g: Group, i: nat) {
    i < |hits| && hits[i].group == g && forall j :: 0 <= j < i ==> hits[j].group != g
  }

  /** "main" if any hit of the group says so, and otherwise what its first hit says. */
  lemma {:induction false} GroupKindMeans(hits: seq<Hit>, g: Group, i: nat)
    requires IsFirst(hits, g, i)
    ensures GroupKind(hits, g) == Some(if SaysMain(hits, g) then Some("main") else hits[i].kind)
  {
    var n := |hits| - 1;
    assert forall j :: 0 <= j < n ==> hits[j] == hits[..n][j];
    if i < n {
      GroupKindMeans(hits[..n], g, i);
      assert SaysMain(hits, g) <==> SaysMain(hits[..n], g) || (hits[n].group == g && hits[n].kind == Some("main")) by {
        if SaysMain(hits[..n], g) {
          var j :| 0 <= j < n && hits[..n][j].group == g && hits[..n][j].kind == Some("main");
          assert hits[j].group == g && hits[j].kind == Some("main");
        }
      }
    } else {
      NoGroup(hits[..n], g);
    }
  }

  lemma {:induction false} NoGroup(hits: seq<Hit>, g: Group)
    requires forall j :: 0 <= j < |hits| ==> hits[j].group != g
    ensures GroupKind(hits, g).None?
  {
    if hits == [] {
    } else {
      NoGroup(hits[..|hits| - 1], g);
    }
  }

  /** The stored kind of the session if there is one, else what the hits say. */
  function ResolvedKind(hits: seq<Hit>, stored: map<Group, Option<string>>, g: Group): Option<string> {
    if g in stored && stored[g].Some? then stored[g]
    else if GroupKind(hits, g).Some? then GroupKind(hits, g).value
    else None
  }

  method GroupKinds(hits: seq<Hit>) returns (kinds: map<Group, Option<string>>)
    ensures forall g :: g in kinds <==> GroupKind(hits, g).Some?
    ensures forall g :: g in kinds ==> kinds[g] == GroupKind(hits, g).value
  {
    kinds := map[];
    for n := 0 to |hits|
      invariant forall g :: g in kinds <==> GroupKind(hits[..n], g).Some?
      invariant forall g :: g in kinds ==> kinds[g] == GroupKind(hits[..n], g).value
    {
      assert hits[..n + 1][..n] == hits[..n];
      var hit := hits[n];
      if hit.group !in kinds {
        kinds := kinds[hit.group := hit.kind];
      } else if hit.kind == Some("main") {
        kinds := kinds[hit.group := Some("main")];
      }
    }
    assert hits[..|hits|] == hits;
  }

  // ---------------------------------------------------------------- what survives the filters

  function AtLeast(score: int): Hit -> bool { (h: Hit) => h.score >= score }

  function Scored(hits: seq<Hit>, minScore: Option<int>): seq<Hit> {
    if minScore.None? then hits else Filter(hits, AtLeast(minScore.value))
  }

  /** The threshold keeps exactly the hits that reach it. */
  lemma {:induction false} ScoredMeans(hits: seq<Hit>, minScore: Option<int>)
    ensures forall h :: h in Scored(hits, minScore) <==> h in hits && (minScore.Some? ==> h.score >= minScore.value)
  {
    if minScore.Some? {
      FilterKeeps(hits, AtLeast(minScore.value));
    }
  }

  /** A decision about the group, the same for all its hits. */
  function InKeptGroup(filter: KindFilter, hits: seq<Hit>, stored: map<Group, Option<string>>): Hit -> bool {
    (h: Hit) => MatchesKind(filter, ResolvedKind(hits, stored, h.group))
  }

  function Survivors(hits: seq<Hit>, render: Render, stored: map<Group, Option<string>>): seq<Hit> {
    var scored := Scored(hits, render.minScore);
    Filter(scored, InKeptGroup(render.kindFilter, scored, stored))
  }

  method KeepKinds(filter: KindFilter, hits: seq<Hit>, stored: map<Group, Option<string>>) returns (kept: seq<Hit>)
    ensures kept == Filter(hits, InKeptGroup(filter, hits, stored))
  {
    var kinds := GroupKinds(hits);
    kept := [];
    for n := 0 to |hits|
      invariant kept == Filter(hits[..n], InKeptGroup(filter, hits, stored))
    {
      var g := hits[n].group;
      var kind := if g in stored && stored[g].Some? then stored[g] else if g in kinds then kinds[g] else None;
      FilterAppend(hits[..n], [hits[n]], InKeptGroup(filter, hits, stored));
      assert hits[..n + 1] == hits[..n] + [hits[n]];
      if MatchesKind(filter, kind) {
        kept := kept + [hits[n]];
      }
    }
    assert hits[..|hits|] == hits;
  }

  /** The kind filter keeps or removes the hits of a group together. */
  lemma {:induction false} GroupsStayTogether(hits: seq<Hit>, render: Render, stored: map<Group, Option<string>>,
      a: Hit, b: Hit)
    requires a in Scored(hits, render.minScore) && b in Scored(hits, render.minScore) && a.group == b.group
    ensures a in Survivors(hits, render, stored) <==> b in Survivors(hits, render, stored)
  {
    var scored := Scored(hits, render.minScore);
    FilterKeeps(scored, InKeptGroup(render.kindFilter, scored, stored));
  }

  lemma {:induction false} Divides(hits: seq<Hit>, all: Hit -> bool, one: Hit -> bool, other: Hit -> bool)
    requires forall h :: all(h) <==> one(h) || other(h)
    requires forall h :: !(one(h) && other(h))
    ensures multiset(Filter(hits, all)) == multiset(Filter(hits, one)) + multiset(Filter(hits, other))
  {
    if hits == [] {
    } else {
      Divides(hits[1..], all, one, other);
      assert hits == [hits[0]] + hits[1..];
    }
  }

  /** What is stored of a session decides its kind; of a session of which nothing is stored, that any of its hits says
      "main", and otherwise what its first hit says. */
  lemma KindOfSession(hits: seq<Hit>, stored: map<Group, Option<string>>, g: Group, i: nat)
    requires IsFirst(hits, g, i)
    ensures ResolvedKind(hits, stored, g) ==
      if g in stored && stored[g].Some? then stored[g]
      else if SaysMain(hits, g) then Some("main") else hits[i].kind
  {
    GroupKindMeans(hits, g, i);
  }

  /** What each filter lets through, of the hits that reach the score.  All: everything.  Regular: the sessions that are
      not permission reviews, which Primary and Subagent divide among them: Primary has those that are "main" or of no
      known kind. */
  lemma FiltersDivide(hits: seq<Hit>, render: Render, stored: map<Group, Option<string>>)
    ensures var scored := Scored(hits, render.minScore);
      && Survivors(hits, render.(kindFilter := All), stored) == scored
      && multiset(Survivors(hits, render.(kindFilter := Regular), stored)) ==
           multiset(Survivors(hits, render.(kindFilter := Primary), stored)) +
           multiset(Survivors(hits, render.(kindFilter := Subagent), stored))
      && (forall h :: h in scored <==> h in hits && (render.minScore.Some? ==> h.score >= render.minScore.value))
      && forall h :: h in scored ==>
           var kind := ResolvedKind(scored, stored, h.group);
           && (h in Survivors(hits, render.(kindFilter := Regular), stored) <==> kind != Some("guardian_review"))
           && (h in Survivors(hits, render.(kindFilter := Primary), stored) <==> kind in {None, Some("main")})
  {
    var scored := Scored(hits, render.minScore);
    var regular := InKeptGroup(Regular, scored, stored);
    var primary, subagent := InKeptGroup(Primary, scored, stored), InKeptGroup(Subagent, scored, stored);
    ScoredMeans(hits, render.minScore);
    EverythingKept(scored, scored, stored);
    Divides(scored, regular, primary, subagent);
    FilterKeeps(scored, regular);
    FilterKeeps(scored, primary);
  }

  // ---------------------------------------------------------------- the cap

  function InGroup(hits: seq<Hit>, g: Group): nat {
    if hits == [] then 0 else InGroup(hits[..|hits| - 1], g) + if hits[|hits| - 1].group == g then 1 else 0
  }

  /** The hits that have fewer than `k` hits of their group ranked before them. */
  function BestOfEach(hits: seq<Hit>, k: nat): seq<Hit> {
    if hits == [] then [] else
      var last, before := hits[|hits| - 1], hits[..|hits| - 1];
      BestOfEach(before, k) + if InGroup(before, last.group) < k then [last] else []
  }

  lemma {:induction false} InGroupAppend(hits: seq<Hit>, hit: Hit, g: Group)
    ensures InGroup(hits + [hit], g) == InGroup(hits, g) + if hit.group == g then 1 else 0
  {
    assert (hits + [hit])[..|hits|] == hits;
  }

  /** So each group keeps its best `k`, or all it has. */
  lemma {:induction false} CapCounts(hits: seq<Hit>, k: nat, g: Group)
    ensures InGroup(BestOfEach(hits, k), g) == if InGroup(hits, g) < k then InGroup(hits, g) else k
  {
    if hits == [] {
    } else {
      var last, before := hits[|hits| - 1], hits[..|hits| - 1];
      CapCounts(before, k, g);
      InGroupAppend(BestOfEach(before, k), last, g);
      assert BestOfEach(before, k) + [] == BestOfEach(before, k);
    }
  }

  /** `a` is `b` with elements left out. */
  predicate Subsequence<T(==)>(a: seq<T>, b: seq<T>) {
    if a == [] then true
    else if b == [] then false
    else Subsequence(a, b[..|b| - 1]) || (a[|a| - 1] == b[|b| - 1] && Subsequence(a[..|a| - 1], b[..|b| - 1]))
  }

  lemma {:induction false} CapKeepsOrder(hits: seq<Hit>, k: nat)
    ensures Subsequence(BestOfEach(hits, k), hits)
  {
    if hits == [] {
    } else {
      var last, before := hits[|hits| - 1], hits[..|hits| - 1];
      CapKeepsOrder(before, k);
      var kept := BestOfEach(before, k);
      if InGroup(before, last.group) < k {
        assert (kept + [last])[..|kept|] == kept;
      } else {
        assert kept + [] == kept;
      }
    }
  }

  lemma {:induction false} PrefixOfSubsequence<T>(a: seq<T>, b: seq<T>, n: nat)
    requires Subsequence(a, b) && n <= |a|
    ensures Subsequence(a[..n], b)
  {
    if n == |a| {
      assert a[..n] == a;
    } else if n > 0 {
      var b' := b[..|b| - 1];
      if Subsequence(a, b') {
        PrefixOfSubsequence(a, b', n);
      } else {
        PrefixOfSubsequence(a[..|a| - 1], b', n);
        assert a[..|a| - 1][..n] == a[..n];
      }
    }
  }

  /** Keeps a hit while its group's counter is below `k`. */
  method Cap(hits: seq<Hit>, k: nat) returns (kept: seq<Hit>)
    ensures kept == BestOfEach(hits, k)
  {
    kept := [];
    var counts: map<Group, nat> := map[];
    for n := 0 to |hits|
      invariant kept == BestOfEach(hits[..n], k)
      invariant forall g :: (if g in counts then counts[g] else 0) == InGroup(kept, g)
    {
      assert hits[..n + 1][..n] == hits[..n];
      var hit := hits[n];
      var count := if hit.group in counts then counts[hit.group] else 0;
      CapCounts(hits[..n], k, hit.group);
      if count < k {
        Counted(kept, hit);
        kept := kept + [hit];
        counts := counts[hit.group := count + 1];
      } else {
        assert kept + [] == kept;
        counts := counts[hit.group := count];
      }
    }
    assert hits[..|hits|] == hits;
  }

  lemma {:induction false} Counted(kept: seq<Hit>, hit: Hit)
    ensures forall g :: InGroup(kept + [hit], g) == InGroup(kept, g) + if hit.group == g then 1 else 0
  {
    forall g ensures InGroup(kept + [hit], g) == InGroup(kept, g) + if hit.group == g then 1 else 0 {
      InGroupAppend(kept, hit, g);
    }
  }

  /** A hit is dropped only where `k` better ones of its group have been kept. */
  lemma {:induction false} DroppedAfterK(hits: seq<Hit>, k: nat, i: nat)
    requires i < |hits|
    ensures BestOfEach(hits[..i + 1], k) ==
      if InGroup(BestOfEach(hits[..i], k), hits[i].group) < k then BestOfEach(hits[..i], k) + [hits[i]]
      else BestOfEach(hits[..i], k)
    ensures InGroup(BestOfEach(hits[..i], k), hits[i].group) <= k
  {
    assert hits[..i + 1][..i] == hits[..i];
    CapCounts(hits[..i], k, hits[i].group);
    assert BestOfEach(hits[..i], k) + [] == BestOfEach(hits[..i], k);
  }

  lemma {:induction false} PrefixCounts(hits: seq<Hit>, n: nat, g: Group)
    requires n <= |hits|
    ensures InGroup(hits[..n], g) <= InGroup(hits, g)
  {
    if n == |hits| {
      assert hits[..n] == hits;
    } else {
      PrefixCounts(hits[..|hits| - 1], n, g);
      assert hits[..|hits| - 1][..n] == hits[..n];
    }
  }

  // ---------------------------------------------------------------- the whole

  predicate ByScore(a: Hit, b: Hit) { a.score >= b.score }

  predicate ByTs(a: Hit, b: Hit) { a.ts >= b.ts }

  function OrderOf(sort: SortBy): (Hit, Hit) -> bool {
    match sort
    case Score => ByScore
    case Ts => ByTs
  }

  lemma OrdersAreTotal(sort: SortBy)
    ensures TotalPreorder(OrderOf(sort))
  {
  }

  lemma {:induction false} EverythingKept(hits: seq<Hit>, all: seq<Hit>, stored: map<Group, Option<string>>)
    ensures Filter(hits, InKeptGroup(All, all, stored)) == hits
  {
    if hits == [] {
    } else {
      EverythingKept(hits[1..], all, stored);
      assert hits == [hits[0]] + hits[1..];
    }
  }

  function Truncated<T>(s: seq<T>, n: nat): seq<T> { if |s| <= n then s else s[..n] }

  /** What the shaped results are of the ranked survivors. */
  ghost predicate Shaped(ranked: seq<Hit>, topN: Option<nat>, limit: nat, out: seq<Hit>) {
    && (var capped := if topN.Some? then BestOfEach(ranked, topN.value) else ranked;
        out <= capped && |out| == if limit <= |capped| then limit else |capped|)
    && Subsequence(out, ranked)
    && (topN.Some? ==> forall g :: InGroup(out, g) <= topN.value)
  }

  lemma {:induction false} Whole<T>(s: seq<T>)
    ensures Subsequence(s, s)
  {
    if s == [] {
    } else {
      Whole(s[..|s| - 1]);
    }
  }

  lemma {:induction false} ShapedSo(ranked: seq<Hit>, topN: Option<nat>, limit: nat, capped: seq<Hit>)
    requires capped == if topN.Some? then BestOfEach(ranked, topN.value) else ranked
    ensures Shaped(ranked, topN, limit, Truncated(capped, limit))
  {
    var out := Truncated(capped, limit);
    assert out == capped[..|out|];
    if topN.Some? {
      CapKeepsOrder(ranked, topN.value);
      forall g ensures InGroup(out, g) <= topN.value {
        CapCounts(ranked, topN.value, g);
        PrefixCounts(capped, |out|, g);
      }
    } else {
      Whole(ranked);
    }
    PrefixOfSubsequence(capped, ranked, |out|);
  }

  /** `out` is shaped from the stable sort of what survives the filters. */
  ghost predicate Processed(hits: seq<Hit>, render: Render, stored: map<Group, Option<string>>, out: seq<Hit>) {
    exists ranked ::
      && Ranked(ranked, Survivors(hits, render, stored), OrderOf(render.sort))
      && Shaped(ranked, render.topN, render.limit, out)
  }

  /** Best or newest first. */
  ghost predicate BestFirst(sort: SortBy, out: seq<Hit>) {
    match sort
    case Score => forall i, j :: 0 <= i < j < |out| ==> out[i].score >= out[j].score
    case Ts => forall i, j :: 0 <= i < j < |out| ==> out[i].ts >= out[j].ts
  }

  lemma OrderedIsBestFirst(sort: SortBy, out: seq<Hit>)
    requires Ordered(out, OrderOf(sort))
    ensures BestFirst(sort, out)
  {
    match sort
    case Score =>
      forall i, j | 0 <= i < j < |out| ensures out[i].score >= out[j].score {
        assert ByScore(out[i], out[j]);
      }
    case Ts =>
      forall i, j | 0 <= i < j < |out| ensures out[i].ts >= out[j].ts {
        assert ByTs(out[i], out[j]);
      }
  }

  lemma {:induction false} SurvivorsScored(hits: seq<Hit>, render: Render, stored: map<Group, Option<string>>)
    ensures forall h :: h in Survivors(hits, render, stored) ==>
      h in hits && (render.minScore.Some? ==> h.score >= render.minScore.value)
  {
    var scored := Scored(hits, render.minScore);
    FilterKeeps(scored, InKeptGroup(render.kindFilter, scored, stored));
    ScoredMeans(hits, render.minScore);
  }

  lemma {:induction false} PartsStayOrdered(a: seq<Hit>, b: seq<Hit>, leq: (Hit, Hit) -> bool)
    requires Subsequence(a, b) && Ordered(b, leq)
    ensures Ordered(a, leq) && forall x :: x in a ==> x in b
  {
    if a == [] {
    } else {
      var n, m := |a| - 1, |b| - 1;
      if Subsequence(a, b[..m]) {
        PartsStayOrdered(a, b[..m], leq);
      } else {
        PartsStayOrdered(a[..n], b[..m], leq);
        assert a == a[..n] + [a[n]];
        forall i | 0 <= i < n ensures leq(a[i], a[n]) {
          assert a[..n][i] in b[..m];
          var k :| 0 <= k < m && b[k] == a[i];
          assert leq(b[k], b[m]);
        }
      }
    }
  }

  /** Filter, sort, cap, truncate. */
  method PostProcess(hits: seq<Hit>, render: Render, stored: map<Group, Option<string>>) returns (out: seq<Hit>)
    ensures Processed(hits, render, stored, out)
    ensures BestFirst(render.sort, out)
    ensures forall h :: h in out ==> h in hits && (render.minScore.Some? ==> h.score >= render.minScore.value)
  {
    var scored := Scored(hits, render.minScore);
    var survivors := scored;
    if render.kindFilter != All {
      survivors := KeepKinds(render.kindFilter, scored, stored);
    } else {
      EverythingKept(scored, scored, stored);
    }
    OrdersAreTotal(render.sort);
    SortRanks(survivors, OrderOf(render.sort));
    out := Sort(survivors, OrderOf(render.sort));
    ghost var ranked := out;
    if render.topN.Some? {
      out := Cap(out, render.topN.value);
    }
    ShapedSo(ranked, render.topN, render.limit, out);
    out := Truncated(out, render.limit);
    ShapedParts(hits, render, stored, survivors, ranked, out);
  }

  lemma {:induction false} ShapedParts(hits: seq<Hit>, render: Render, stored: map<Group, Option<string>>,
      survivors: seq<Hit>, ranked: seq<Hit>, out: seq<Hit>)
    requires survivors == Survivors(hits, render, stored) && Ranked(ranked, survivors, OrderOf(render.sort))
    requires Subsequence(out, ranked)
    ensures BestFirst(render.sort, out)
    ensures forall h :: h in out ==> h in hits && (render.minScore.Some? ==> h.score >= render.minScore.value)
  {
    PartsStayOrdered(out, ranked, OrderOf(render.sort));
    OrderedIsBestFirst(render.sort, out);
    SurvivorsScored(hits, render, stored);
    forall h | h in out ensures h in survivors {
      assert h in multiset(ranked);
    }
  }
}
