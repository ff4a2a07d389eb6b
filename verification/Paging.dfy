/**
Session pages and windows.  The index answers top-k queries from either end of a session; a page is
taken from the nearer end, a window around a record from both sides of it, and what comes back is
sorted again.  Both are slices of one sorted session.
*/
module Paging {
  import opened Sorting
  import opened Sums

  datatype Key = Key(turnId: nat, ts: nat, docId: nat)

  datatype Record = Record(key: Key, id: string, text: string)

  predicate KeyLeq(a: Key, b: Key) {
    a.turnId < b.turnId || (a.turnId == b.turnId && (a.ts < b.ts || (a.ts == b.ts && a.docId <= b.docId)))
  }

  predicate Leq(a: Record, b: Record) {
    KeyLeq(a.key, b.key)
  }

  predicate Geq(a: Record, b: Record) {
    KeyLeq(b.key, a.key)
  }

  predicate KeyGeq(a: Key, b: Key) {
    KeyLeq(b, a)
  }

  lemma OrdersAreTotal()
    ensures TotalPreorder(Leq) && TotalPreorder(Geq) && TotalPreorder(KeyLeq) && TotalPreorder(KeyGeq)
  {
  }

  function Keys(s: seq<Record>): (r: seq<Key>)
    ensures |r| == |s|
  {
    seq(|s|, i requires 0 <= i < |s| => s[i].key)
  }

  /** Skip, then take, as far as there is something. */
  function Window<T>(s: seq<T>, limit: nat, offset: nat): (r: seq<T>)
    ensures offset + limit <= |s| ==> r == s[offset..offset + limit]
  {
    if offset >= |s| then [] else if limit >= |s| - offset then s[offset..] else s[offset..offset + limit]
  }

  function Max(a: nat, b: nat): nat { if a < b then b else a }

  function Min(a: nat, b: nat): nat { if a < b then a else b }

  function Take<T>(s: seq<T>, n: nat): seq<T> {
    if n >= |s| then s else s[..n]
  }

  // ---------------------------------------------------------------- one order seen from both ends

  function Reversed<T>(s: seq<T>): (r: seq<T>)
    ensures |r| == |s|
  {
    seq(|s|, i requires 0 <= i < |s| => s[|s| - 1 - i])
  }

  lemma {:induction false} ReversedPermutes<T>(s: seq<T>)
    ensures multiset(Reversed(s)) == multiset(s)
  {
    if s == [] {
    } else {
      var n := |s| - 1;
      ReversedPermutes(s[..n]);
      assert s == s[..n] + [s[n]];
      assert Reversed(s) == [s[n]] + Reversed(s[..n]);
    }
  }

  lemma {:induction false} KeysPermute(a: seq<Record>, b: seq<Record>)
    requires multiset(a) == multiset(b)
    ensures multiset(Keys(a)) == multiset(Keys(b))
  {
    if a == [] {
      assert |multiset(b)| == 0;
    } else {
      var i := FirstElsewhere(a, b);
      var rest := b[..i] + b[i + 1..];
      KeysPermute(a[1..], rest);
      assert Keys(a) == [a[0].key] + Keys(a[1..]);
      assert Keys(rest) == Keys(b)[..i] + Keys(b)[i + 1..];
      assert Keys(b) == Keys(b)[..i] + ([b[i].key] + Keys(b)[i + 1..]);
    }
  }

  /** Without ties the descending order is the ascending one reversed. */
  lemma {:induction false} DescendingIsReversed<T(!new)>(up: seq<T>, down: seq<T>, leq: (T, T) -> bool,
      geq: (T, T) -> bool)
    requires TotalPreorder(leq) && (forall x, y :: geq(x, y) <==> leq(y, x))
    requires Ordered(up, leq) && Ordered(down, geq) && NoTies(up, leq) && multiset(up) == multiset(down)
    ensures down == Reversed(up)
  {
    var back := Reversed(down);
    ReversedPermutes(down);
    assert Ordered(back, leq) by {
      forall i, j | 0 <= i < j < |back| ensures leq(back[i], back[j]) {
        assert geq(down[|down| - 1 - j], down[|down| - 1 - i]);
      }
    }
    OrderedUnique(up, back, leq);
    assert down == Reversed(back);
  }

  lemma {:induction false} ReversedSlice<T>(s: seq<T>, lo: nat, hi: nat)
    requires lo <= hi <= |s|
    ensures Reversed(s)[|s| - hi..|s| - lo] == Reversed(s[lo..hi])
  {
    var a, b := Reversed(s)[|s| - hi..|s| - lo], Reversed(s[lo..hi]);
    forall i | 0 <= i < hi - lo ensures a[i] == b[i] {
      assert a[i] == Reversed(s)[|s| - hi + i] == s[hi - 1 - i];
    }
  }

  /** A slice counted from the far end, once sorted, is the slice itself. */
  lemma {:induction false} FarSlice<T(!new)>(up: seq<T>, down: seq<T>, page: seq<T>, lo: nat, hi: nat,
                                             leq: (T, T) -> bool, geq: (T, T) -> bool)
    requires TotalPreorder(leq) && (forall x, y :: geq(x, y) <==> leq(y, x))
    requires Ordered(up, leq) && Ordered(down, geq) && NoTies(up, leq) && multiset(up) == multiset(down)
    requires lo <= hi <= |up| == |down|
    requires Ordered(page, leq) && multiset(page) == multiset(down[|up| - hi..|up| - lo])
    ensures page == up[lo..hi]
  {
    DescendingIsReversed(up, down, leq, geq);
    ReversedSlice(up, lo, hi);
    ReversedPermutes(up[lo..hi]);
    OrderedUnique(up[lo..hi], page, leq);
  }

  lemma {:induction false} NearSlice<T(!new)>(up: seq<T>, page: seq<T>, lo: nat, hi: nat, leq: (T, T) -> bool)
    requires TotalPreorder(leq) && Ordered(up, leq) && NoTies(up, leq) && lo <= hi <= |up|
    requires Ordered(page, leq) && multiset(page) == multiset(up[lo..hi])
    ensures page == up[lo..hi]
  {
    OrderedUnique(up[lo..hi], page, leq);
  }

  lemma {:induction false} KeysOrdered(s: seq<Record>)
    requires Ordered(s, Leq)
    ensures Ordered(Keys(s), KeyLeq) && NoTies(Keys(s), KeyLeq)
  {
    forall i, j | 0 <= i < j < |s| ensures KeyLeq(Keys(s)[i], Keys(s)[j]) {
      assert Leq(s[i], s[j]);
    }
  }

  lemma {:induction false} KeysDescend(s: seq<Record>)
    requires Ordered(s, Geq)
    ensures Ordered(Keys(s), KeyGeq)
  {
    forall i, j | 0 <= i < j < |s| ensures KeyGeq(Keys(s)[i], Keys(s)[j]) {
      assert Geq(s[i], s[j]);
    }
  }

  lemma {:induction false} TiesPermute(a: seq<Record>, b: seq<Record>)
    requires NoTies(a, Leq) && multiset(a) == multiset(b)
    ensures NoTies(b, Leq)
  {
    forall i, j | 0 <= i < |b| && 0 <= j < |b| && Leq(b[i], b[j]) && Leq(b[j], b[i]) ensures b[i] == b[j] {
      assert b[i] in multiset(a) && b[j] in multiset(a);
    }
  }

  // ---------------------------------------------------------------- ranking

  lemma {:induction false} RankedUnique(s: seq<Record>, a: seq<Record>, b: seq<Record>)
    requires Ranked(a, s, Leq) && Ranked(b, s, Leq)
    ensures a == b
  {
    OrdersAreTotal();
    StableUnique(a, b, Leq);
  }

  method SortBy(s: seq<Record>, leq: (Record, Record) -> bool) returns (r: seq<Record>)
    requires TotalPreorder(leq)
    ensures Ranked(r, s, leq)
  {
    r := Sort(s, leq);
    SortRanks(s, leq);
  }

  /** The best hits of a query, best first: the collector skips `offset` and takes `limit`. */
  method TopDocs(docs: seq<Record>, order: (Record, Record) -> bool, limit: nat, offset: nat)
    returns (hits: seq<Record>, ghost ranked: seq<Record>)
    requires TotalPreorder(order) && limit > 0
    ensures Ranked(ranked, docs, order) && hits == Window(ranked, limit, offset)
  {
    var all := SortBy(docs, order);
    hits, ranked := Window(all, limit, offset), all;
  }

  // ---------------------------------------------------------------- pages

  /** The hits a page is made of: its slice of the ascending or the descending order, whichever is nearer. */
  function Hits<T>(up: seq<T>, down: seq<T>, lo: nat, hi: nat): seq<T>
    requires lo <= hi <= |up| == |down|
  {
    if lo <= |up| - hi then up[lo..hi] else down[|up| - hi..|up| - lo]
  }

  lemma {:induction false} HitsSlice<T(!new)>(up: seq<T>, down: seq<T>, page: seq<T>, lo: nat, hi: nat,
                                              leq: (T, T) -> bool, geq: (T, T) -> bool)
    requires TotalPreorder(leq) && (forall x, y :: geq(x, y) <==> leq(y, x))
    requires Ordered(up, leq) && Ordered(down, geq) && NoTies(up, leq) && multiset(up) == multiset(down)
    requires lo <= hi <= |up| == |down|
    requires Ordered(page, leq) && multiset(page) == multiset(Hits(up, down, lo, hi))
    ensures page == up[lo..hi]
  {
    if lo <= |up| - hi {
      NearSlice(up, page, lo, hi, leq);
    } else {
      FarSlice(up, down, page, lo, hi, leq, geq);
    }
  }

  lemma {:induction false} HitsKeys(up: seq<Record>, down: seq<Record>, page: seq<Record>, lo: nat, hi: nat)
    requires Ordered(up, Leq) && Ordered(down, Geq) && multiset(up) == multiset(down)
    requires lo <= hi <= |up| == |down|
    requires Ordered(page, Leq) && multiset(page) == multiset(Hits(up, down, lo, hi))
    ensures Keys(page) == Keys(up)[lo..hi]
  {
    KeysOrdered(up);
    KeysOrdered(page);
    KeysPermute(page, Hits(up, down, lo, hi));
    KeysPermute(up, down);
    KeysDescend(down);
    OrdersAreTotal();
    assert Keys(Hits(up, down, lo, hi)) == Hits(Keys(up), Keys(down), lo, hi);
    HitsSlice(Keys(up), Keys(down), Keys(page), lo, hi, KeyLeq, KeyGeq);
  }

  lemma {:induction false} HitsRecords(session: seq<Record>, up: seq<Record>, down: seq<Record>, page: seq<Record>,
      lo: nat, hi: nat)
    requires Ordered(up, Leq) && Ordered(down, Geq) && multiset(up) == multiset(down) == multiset(session)
    requires lo <= hi <= |up| == |down|
    requires Ordered(page, Leq) && multiset(page) == multiset(Hits(up, down, lo, hi))
    requires NoTies(session, Leq)
    ensures page == up[lo..hi]
  {
    TiesPermute(session, up);
    OrdersAreTotal();
    HitsSlice(up, down, page, lo, hi, Leq, Geq);
  }

  /** Where the page that starts at `offset` ends. */
  function PageEnd(total: nat, offset: nat, limit: nat): nat
    requires offset <= total
  {
    offset + Min(Max(limit, 1), total - offset)
  }

  ghost predicate PageFrom(session: seq<Record>, up: seq<Record>, down: seq<Record>, lo: nat, hi: nat,
      page: seq<Record>) {
    && Ranked(up, session, Leq) && Ranked(down, session, Geq)
    && lo <= hi <= |session| && Ranked(page, Hits(up, down, lo, hi), Leq)
  }

  /** `page` is what the index returns for this offset and limit. */
  ghost predicate IsPage(session: seq<Record>, offset: nat, limit: nat, page: seq<Record>) {
    if offset >= |session| then page == [] else
      var end := PageEnd(|session|, offset, limit);
      exists up, down :: PageFrom(session, up, down, offset, end, page)
  }

  lemma {:induction false} PageIsSlice(session: seq<Record>, up: seq<Record>, down: seq<Record>, lo: nat, hi: nat,
      page: seq<Record>)
    requires PageFrom(session, up, down, lo, hi, page)
    ensures Keys(page) == Keys(up)[lo..hi]
    ensures NoTies(session, Leq) ==> page == up[lo..hi]
  {
    HitsKeys(up, down, page, lo, hi);
    if NoTies(session, Leq) {
      HitsRecords(session, up, down, page, lo, hi);
    }
  }

  /** The hits of one page from the nearer end, sorted again. */
  method Fetch(session: seq<Record>, offset: nat, end: nat)
    returns (records: seq<Record>, ghost up: seq<Record>, ghost down: seq<Record>)
    requires offset < end <= |session|
    ensures PageFrom(session, up, down, offset, end, records)
  {
    var pageLimit, remainingAfter := end - offset, |session| - end;
    OrdersAreTotal();
    if offset <= remainingAfter {
      records, up := TopDocs(session, Leq, pageLimit, offset);
      down := Ranking(session, Geq);
    } else {
      records, down := TopDocs(session, Geq, pageLimit, remainingAfter);
      up := Ranking(session, Leq);
    }
    records := SortBy(records, Leq);
  }

  /** `records` is the part of the sorted session from `lo` to `hi`: always by key, and record for record
      where no two records tie. */
  ghost predicate IsSlice(session: seq<Record>, lo: nat, hi: nat, records: seq<Record>) {
    lo <= hi <= |session| && forall up :: Ranked(up, session, Leq) ==>
      && Keys(records) == Keys(up)[lo..hi]
      && (NoTies(session, Leq) ==> records == up[lo..hi])
  }

  lemma {:induction false} PageIsAnySlice(session: seq<Record>, up: seq<Record>, down: seq<Record>, lo: nat, hi: nat,
      page: seq<Record>)
    requires PageFrom(session, up, down, lo, hi, page)
    ensures IsSlice(session, lo, hi, page)
  {
    PageIsSlice(session, up, down, lo, hi, page);
    forall any | Ranked(any, session, Leq) ensures any == up {
      RankedUnique(session, up, any);
    }
  }

  lemma {:induction false} FetchedPage(session: seq<Record>, up: seq<Record>, down: seq<Record>, offset: nat,
      limit: nat, page: seq<Record>)
    requires offset < |session| && PageFrom(session, up, down, offset, PageEnd(|session|, offset, limit), page)
    ensures IsPage(session, offset, limit, page) && PageIsRight(session, offset, limit, page)
  {
    PageIsAnySlice(session, up, down, offset, PageEnd(|session|, offset, limit), page);
  }

  /** Nothing past the end; otherwise the slice of the sorted session. */
  ghost predicate PageIsRight(session: seq<Record>, offset: nat, limit: nat, page: seq<Record>) {
    if offset >= |session| then page == [] else IsSlice(session, offset, PageEnd(|session|, offset, limit), page)
  }

  /** One page of a session: the slice of the sorted session, and no record outside it is loaded. */
  method Page(session: seq<Record>, offset: nat, limit: nat) returns (records: seq<Record>, total: nat)
    ensures total == |session|
    ensures IsPage(session, offset, limit, records)
    ensures PageIsRight(session, offset, limit, records)
    ensures |records| ==
      if offset >= |session| then 0
      else if limit == 0 then 1
      else if limit <= |session| - offset then limit else |session| - offset
  {
    total := |session|;
    if offset >= total {
      return [], total;
    }
    var end := PageEnd(total, offset, limit);
    ghost var up, down;
    records, up, down := Fetch(session, offset, end);
    FetchedPage(session, up, down, offset, limit, records);
    assert |records| == |Hits(up, down, offset, end)|;
  }
}
