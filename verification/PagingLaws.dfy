/**
What pages amount to together: read one after the other they are the whole sorted session, and that is
so for every offset and limit exactly when no two different records tie.
*/
module PagingLaws {
  import opened Sorting
  import opened Sums
  import opened Paging

  lemma {:induction false} PageSlice(session: seq<Record>, up: seq<Record>, offset: nat, limit: nat, page: seq<Record>)
    requires Ranked(up, session, Leq) && offset < |session| && IsPage(session, offset, limit, page)
    ensures PageEnd(|session|, offset, limit) <= |up|
    ensures NoTies(session, Leq) ==> page == up[offset..PageEnd(|session|, offset, limit)]
  {
    var end := PageEnd(|session|, offset, limit);
    var a, b :| PageFrom(session, a, b, offset, end, page);
    PageIsAnySlice(session, a, b, offset, end, page);
  }

  // ---------------------------------------------------------------- reading on

  /** Each page starts where the one before ended, and the last one ends the session. */
  ghost predicate Consecutive(session: seq<Record>, offset: nat, limit: nat, pages: seq<seq<Record>>)
    decreases |session| - offset
  {
    if offset >= |session| then pages == [] else
      && pages != [] && IsPage(session, offset, limit, pages[0])
      && Consecutive(session, PageEnd(|session|, offset, limit), limit, pages[1..])
  }

  /** Consecutive pages have no gap and no repeat. */
  lemma {:induction false} PagesCoverSession(session: seq<Record>, up: seq<Record>, offset: nat, limit: nat,
      pages: seq<seq<Record>>)
    requires NoTies(session, Leq) && Ranked(up, session, Leq) && offset <= |session|
    requires Consecutive(session, offset, limit, pages)
    ensures Concat(pages) == up[offset..]
    decreases |session| - offset
  {
    if offset == |session| {
    } else {
      var end := PageEnd(|session|, offset, limit);
      PageSlice(session, up, offset, limit, pages[0]);
      PagesCoverSession(session, up, end, limit, pages[1..]);
      assert up[offset..] == up[offset..end] + up[end..];
    }
  }

  // ---------------------------------------------------------------- ties

  ghost predicate PagesAreSlices(session: seq<Record>) {
    forall up, offset: nat, limit: nat, page ::
      Ranked(up, session, Leq) && offset < |session| && IsPage(session, offset, limit, page) ==>
        page == up[offset..PageEnd(|session|, offset, limit)]
  }

  /** Adding one more tied record at the far end does not change which comes first. */
  lemma {:induction false} FirstStays(part: seq<Record>, more: seq<Record>, z: Record, page: seq<Record>,
      longer: seq<Record>)
    requires more == part + [z] && Ranked(page, part, Leq) && Ranked(longer, more, Leq)
    requires page != [] && longer != [] && Ties(longer[0], Leq)(page[0])
    ensures longer[0] == page[0]
  {
    var tied := Ties(longer[0], Leq);
    OrdersAreTotal();
    TiesRespect(longer[0], Leq);
    FilterTail(page, tied);
    FilterTail(longer, tied);
    FilterAppend(part, [z], tied);
    assert Filter(page, tied) == Filter(part, tied) && Filter(longer, tied) == Filter(more, tied);
  }

  lemma {:induction false} TailIsPage(session: seq<Record>, up: seq<Record>, down: seq<Record>, i: nat,
      page: seq<Record>)
    requires Ranked(up, session, Leq) && Ranked(down, session, Geq) && 0 < i < |session|
    requires Ranked(page, down[..|session| - i], Leq)
    ensures IsPage(session, i, |session|, page) && PageEnd(|session|, i, |session|) == |session|
  {
    var n := |session|;
    assert Hits(up, down, i, n) == down[..n - i];
    FetchedPage(session, up, down, i, n, page);
  }

  /** Sorting the descending order again gives the ascending one. */
  lemma {:induction false} WholeTail(session: seq<Record>, up: seq<Record>, down: seq<Record>, page: seq<Record>)
    requires Ranked(up, session, Leq) && Ranked(down, session, Geq) && Ranked(page, down, Leq)
    ensures page == up
  {
    OrdersAreTotal();
    forall x ensures Filter(page, Ties(x, Leq)) == Filter(up, Ties(x, Leq)) {
      FilterAlike(down, Ties(x, Leq), Ties(x, Geq));
      FilterAlike(session, Ties(x, Leq), Ties(x, Geq));
    }
    StableUnique(page, up, Leq);
  }

  lemma SliceFor(session: seq<Record>, up: seq<Record>, offset: nat, limit: nat, page: seq<Record>)
    requires PagesAreSlices(session) && Ranked(up, session, Leq) && offset < |session|
    requires IsPage(session, offset, limit, page)
    ensures PageEnd(|session|, offset, limit) <= |up| && page == up[offset..PageEnd(|session|, offset, limit)]
  {
  }

  /** The records from `i` on, taken from the far end and sorted again, begin with record `i`. */
  lemma {:induction false} TailStarts(session: seq<Record>, up: seq<Record>, down: seq<Record>, i: nat,
      page: seq<Record>)
    requires PagesAreSlices(session) && Ranked(up, session, Leq) && Ranked(down, session, Geq)
    requires i < |session| && Ranked(page, down[..|session| - i], Leq)
    ensures page != [] && page[0] == up[i]
  {
    if i == 0 {
      assert down[..|session|] == down;
      WholeTail(session, up, down, page);
    } else {
      TailIsPage(session, up, down, i, page);
      SliceFor(session, up, i, |session|, page);
    }
  }

  lemma {:induction false} TiedNeighbours(session: seq<Record>, up: seq<Record>, i: nat)
    requires PagesAreSlices(session) && Ranked(up, session, Leq) && i + 1 < |session| && Ties(up[i], Leq)(up[i + 1])
    ensures up[i] == up[i + 1]
  {
    var n := |session|;
    OrdersAreTotal();
    var down := Ranking(session, Geq);
    var part, more := down[..n - i - 1], down[..n - i];
    var page := Ranking(part, Leq);
    var longer := Ranking(more, Leq);
    TailStarts(session, up, down, i + 1, page);
    TailStarts(session, up, down, i, longer);
    assert more == part + [down[n - i - 1]];
    FirstStays(part, more, down[n - i - 1], page, longer);
  }

  lemma {:induction false} TiedRange(session: seq<Record>, up: seq<Record>, i: nat, j: nat)
    requires PagesAreSlices(session) && Ranked(up, session, Leq)
    requires i < j < |session| && Leq(up[i], up[j]) && Leq(up[j], up[i])
    ensures up[i] == up[j]
    decreases j - i
  {
    assert Leq(up[i], up[i + 1]);
    assert i + 1 < j ==> Leq(up[i + 1], up[j]);
    TiedNeighbours(session, up, i);
    if i + 1 < j {
      TiedRange(session, up, i + 1, j);
    }
  }

  lemma {:induction false} SlicesMeanNoTies(session: seq<Record>)
    requires PagesAreSlices(session)
    ensures NoTies(session, Leq)
  {
    OrdersAreTotal();
    var up := Ranking(session, Leq);
    forall i, j | 0 <= i < |up| && 0 <= j < |up| && Leq(up[i], up[j]) && Leq(up[j], up[i]) ensures up[i] == up[j] {
      if i < j {
        TiedRange(session, up, i, j);
      } else if j < i {
        TiedRange(session, up, j, i);
      }
    }
    TiesPermute(up, session);
  }

  /** Every page of a session is its slice of the sorted session exactly when records with the same turn,
      time and document id are the same record. */
  lemma {:induction false} PagesAreSlicesIffNoTies(session: seq<Record>)
    ensures PagesAreSlices(session) <==> NoTies(session, Leq)
  {
    if PagesAreSlices(session) {
      SlicesMeanNoTies(session);
    }
    if NoTies(session, Leq) {
      forall up, offset: nat, limit: nat, page |
        Ranked(up, session, Leq) && offset < |session| && IsPage(session, offset, limit, page)
        ensures page == up[offset..PageEnd(|session|, offset, limit)]
      {
        PageSlice(session, up, offset, limit, page);
      }
    }
  }

  /** With two tied records, page by page the first is read twice and the second never. */
  lemma TiedPagesRepeat(a: Record, b: Record)
    requires a.key == b.key && a != b
    ensures IsPage([a, b], 0, 1, [a]) && IsPage([a, b], 1, 1, [a])
  {
    assert Hits([a, b], [a, b], 0, 1) == [a] && Hits([a, b], [a, b], 1, 2) == [a];
    FetchedPage([a, b], [a, b], [a, b], 0, 1, [a]);
    FetchedPage([a, b], [a, b], [a, b], 1, 1, [a]);
  }
}
