/**
The window around a record: so many predecessors from one query, so many successors from another,
sorted together, are one slice of the sorted session with the record inside it.
*/
module Around {
  import opened Wrappers
  import opened Sorting
  import opened Paging

  function HasId(id: string): Record -> bool { (r: Record) => r.id == id }

  /** Strictly before the anchor in turn, time and document id. */
  function Precedes(anchor: Key): Record -> bool {
    (r: Record) =>
      || r.key.turnId < anchor.turnId
      || (r.key.turnId == anchor.turnId && r.key.ts < anchor.ts)
      || (r.key.turnId == anchor.turnId && r.key.ts == anchor.ts && r.key.docId < anchor.docId)
  }

  /** The anchor itself and everything after it. */
  function Follows(anchor: Key): Record -> bool {
    (r: Record) =>
      || r.key.turnId > anchor.turnId
      || (r.key.turnId == anchor.turnId && r.key.ts > anchor.ts)
      || (r.key.turnId == anchor.turnId && r.key.ts == anchor.ts && r.key.docId >= anchor.docId)
  }

  lemma {:induction false} QueriesSplit(s: seq<Record>, anchor: Key)
    ensures multiset(Filter(s, Precedes(anchor))) + multiset(Filter(s, Follows(anchor))) == multiset(s)
    ensures |Filter(s, Precedes(anchor))| + |Filter(s, Follows(anchor))| == |s|
  {
    if s == [] {
    } else {
      QueriesSplit(s[1..], anchor);
      assert s == [s[0]] + s[1..];
    }
  }

  lemma {:induction false} WindowSlice<T(!new)>(up: seq<T>, pred: seq<T>, down: seq<T>, succ: seq<T>, records: seq<T>,
      before: nat, after: nat, leq: (T, T) -> bool, geq: (T, T) -> bool)
    requires TotalPreorder(leq) && (forall x, y :: geq(x, y) <==> leq(y, x))
    requires Ordered(up, leq) && Ordered(pred, leq) && Ordered(down, geq) && Ordered(succ, leq) && Ordered(records, leq)
    requires NoTies(up, leq) && multiset(up) == multiset(pred) + multiset(succ) && multiset(down) == multiset(pred)
    requires forall x, y :: x in pred && y in succ ==> leq(x, y)
    requires before <= |pred| == |down| && after <= |succ| && |up| == |pred| + |succ|
    requires multiset(records) == multiset(down[..before]) + multiset(succ[..after])
    ensures up == pred + succ
    ensures records == up[|pred| - before..|pred| + after]
  {
    assert multiset(pred + succ) == multiset(pred) + multiset(succ);
    assert Ordered(pred + succ, leq);
    OrderedUnique(up, pred + succ, leq);
    PredHalf(up, pred, down, before, leq, geq);
    var part := pred[|pred| - before..] + succ[..after];
    assert part == up[|pred| - before..|pred| + after];
    assert multiset(part) == multiset(pred[|pred| - before..]) + multiset(succ[..after]);
    NearSlice(up, records, |pred| - before, |pred| + after, leq);
  }

  lemma {:induction false} PredHalf<T(!new)>(up: seq<T>, pred: seq<T>, down: seq<T>, before: nat, leq: (T, T) -> bool,
      geq: (T, T) -> bool)
    requires TotalPreorder(leq) && (forall x, y :: geq(x, y) <==> leq(y, x))
    requires Ordered(pred, leq) && Ordered(down, geq) && NoTies(up, leq) && pred <= up
    requires multiset(down) == multiset(pred) && before <= |pred| == |down|
    ensures multiset(down[..before]) == multiset(pred[|pred| - before..])
  {
    assert NoTies(pred, leq);
    DescendingIsReversed(pred, down, leq, geq);
    assert down[..before] == Reversed(pred[|pred| - before..]);
    ReversedPermutes(pred[|pred| - before..]);
  }

  /** What the two queries yield: the session in two parts, before the anchor and from it on. */
  ghost predicate Split(session: seq<Record>, anchor: Key, earlier: seq<Record>, later: seq<Record>) {
    && multiset(session) == multiset(earlier) + multiset(later) && |session| == |earlier| + |later|
    && (forall x :: x in earlier ==> Precedes(anchor)(x))
    && (forall x :: x in later ==> Follows(anchor)(x))
  }

  method Queries(session: seq<Record>, anchor: Key) returns (earlier: seq<Record>, later: seq<Record>)
    ensures Split(session, anchor, earlier, later)
  {
    earlier, later := Filter(session, Precedes(anchor)), Filter(session, Follows(anchor));
    QueriesSplit(session, anchor);
    FilterKeeps(session, Precedes(anchor));
    FilterKeeps(session, Follows(anchor));
  }

  /** The rankings behind one window. */
  ghost predicate Sides(session: seq<Record>, earlier: seq<Record>, later: seq<Record>,
      up: seq<Record>, pred: seq<Record>, down: seq<Record>, succ: seq<Record>) {
    && Ranked(up, session, Leq) && Ranked(pred, earlier, Leq) && Ranked(down, earlier, Geq) && Ranked(succ, later, Leq)
  }

  lemma {:induction false} Apart(pred: seq<Record>, succ: seq<Record>, earlier: seq<Record>, later: seq<Record>,
      anchor: Key)
    requires multiset(pred) == multiset(earlier) && multiset(succ) == multiset(later)
    requires forall x :: x in earlier ==> Precedes(anchor)(x)
    requires forall x :: x in later ==> Follows(anchor)(x)
    ensures forall x, y :: x in pred && y in succ ==> Leq(x, y)
  {
    forall x, y | x in pred && y in succ ensures Leq(x, y) {
      assert x in multiset(earlier) && y in multiset(later);
      assert x in earlier && y in later;
      assert Precedes(anchor)(x) && Follows(anchor)(y);
    }
  }

  lemma {:induction false} KeysSidesFit(up: seq<Record>, pred: seq<Record>, down: seq<Record>, succ: seq<Record>,
      records: seq<Record>, before: nat, after: nat)
    requires multiset(up) == multiset(pred) + multiset(succ) && multiset(down) == multiset(pred)
    requires before <= |down| && after <= |succ|
    requires forall x, y :: x in pred && y in succ ==> Leq(x, y)
    requires multiset(records) == multiset(down[..before]) + multiset(succ[..after])
    ensures multiset(Keys(up)) == multiset(Keys(pred)) + multiset(Keys(succ))
    ensures multiset(Keys(down)) == multiset(Keys(pred))
    ensures forall x, y :: x in Keys(pred) && y in Keys(succ) ==> KeyLeq(x, y)
    ensures multiset(Keys(records)) == multiset(Keys(down)[..before]) + multiset(Keys(succ)[..after])
  {
    KeysPermute(up, pred + succ);
    assert Keys(pred + succ) == Keys(pred) + Keys(succ);
    KeysPermute(down, pred);
    KeysPermute(records, down[..before] + succ[..after]);
    assert Keys(down[..before] + succ[..after]) == Keys(down)[..before] + Keys(succ)[..after];
    forall x, y | x in Keys(pred) && y in Keys(succ) ensures KeyLeq(x, y) {
      var i :| 0 <= i < |pred| && pred[i].key == x;
      var j :| 0 <= j < |succ| && succ[j].key == y;
      assert Leq(pred[i], succ[j]);
    }
  }

  lemma {:induction false} KeysWindow(up: seq<Record>, pred: seq<Record>, down: seq<Record>, succ: seq<Record>,
      records: seq<Record>, before: nat, after: nat)
    requires Ordered(up, Leq) && Ordered(pred, Leq) && Ordered(down, Geq) && Ordered(succ, Leq) && Ordered(records, Leq)
    requires multiset(up) == multiset(pred) + multiset(succ) && multiset(down) == multiset(pred)
    requires forall x, y :: x in pred && y in succ ==> Leq(x, y)
    requires before <= |pred| == |down| && after <= |succ| && |up| == |pred| + |succ|
    requires multiset(records) == multiset(down[..before]) + multiset(succ[..after])
    ensures Keys(records) == Keys(up)[|pred| - before..|pred| + after]
  {
    KeysSidesFit(up, pred, down, succ, records, before, after);
    KeysOrdered(up);
    KeysOrdered(pred);
    KeysOrdered(succ);
    KeysOrdered(records);
    KeysDescend(down);
    OrdersAreTotal();
    WindowSlice(Keys(up), Keys(pred), Keys(down), Keys(succ), Keys(records), before, after, KeyLeq, KeyGeq);
  }

  lemma {:induction false} AroundIsSlice(session: seq<Record>, anchor: Key, earlier: seq<Record>, later: seq<Record>,
      up: seq<Record>, pred: seq<Record>, down: seq<Record>, succ: seq<Record>, records: seq<Record>, before: nat,
      after: nat)
    requires Split(session, anchor, earlier, later) && Sides(session, earlier, later, up, pred, down, succ)
    requires before <= |earlier| && after <= |later| && Ranked(records, down[..before] + succ[..after], Leq)
    ensures Keys(records) == Keys(up)[|earlier| - before..|earlier| + after]
    ensures NoTies(session, Leq) ==> up == pred + succ && records == up[|earlier| - before..|earlier| + after]
  {
    Apart(pred, succ, earlier, later, anchor);
    assert multiset(down[..before] + succ[..after]) == multiset(down[..before]) + multiset(succ[..after]);
    KeysWindow(up, pred, down, succ, records, before, after);
    if NoTies(session, Leq) {
      OrdersAreTotal();
      TiesPermute(session, up);
      WindowSlice(up, pred, down, succ, records, before, after, Leq, Geq);
    }
  }

  // ---------------------------------------------------------------- the operation

  datatype Found = Found(records: seq<Record>, total: nat, offset: nat)

  /** How many records to take on each side of an anchor with `anchorOffset` predecessors. */
  function Sizes(anchorOffset: nat, total: nat, limit: nat): (r: (nat, nat))
    requires anchorOffset < total && 1 <= limit <= total
    ensures r.0 <= anchorOffset && 1 <= r.1 <= total - anchorOffset && r.0 + r.1 == limit
    ensures anchorOffset - r.0 == Min(if anchorOffset < limit / 2 then 0 else anchorOffset - limit / 2, total - limit)
  {
    var before := Min(anchorOffset, limit / 2);
    var after := Min(total - anchorOffset, limit - before);
    (Min(anchorOffset, limit - after), after)
  }

  /** The first record of the session, in order, that carries the id. */
  ghost predicate IsAnchor(session: seq<Record>, id: string, anchor: Record) {
    anchor in session && anchor.id == id && forall x :: x in session && x.id == id ==> Leq(anchor, x)
  }

  method FindAnchor(session: seq<Record>, id: string) returns (anchor: Option<Record>)
    ensures anchor.Some? <==> exists x :: x in session && x.id == id
    ensures anchor.Some? ==> IsAnchor(session, id, anchor.value)
  {
    OrdersAreTotal();
    var hits;
    ghost var ranked;
    hits, ranked := TopDocs(Filter(session, HasId(id)), Leq, 2, 0);
    FilterKeeps(session, HasId(id));
    if hits == [] {
      assert Filter(session, HasId(id)) == [];
      return None;
    }
    assert hits[0] == ranked[0];
    FirstIsLeast(ranked, Filter(session, HasId(id)));
    return Some(hits[0]);
  }

  lemma {:induction false} FirstIsLeast(ranked: seq<Record>, s: seq<Record>)
    requires Ordered(ranked, Leq) && multiset(ranked) == multiset(s) && ranked != []
    ensures ranked[0] in s && forall x :: x in s ==> Leq(ranked[0], x)
  {
    assert ranked[0] in multiset(s);
    forall x | x in s ensures Leq(ranked[0], x) {
      assert x in multiset(ranked);
    }
  }

  /** The record with `id` that comes first in the sorted session `up` is inside the window of `size` at
      `offset`, which is centred on it as far as the ends allow. */
  ghost predicate Centred(up: seq<Record>, id: string, offset: nat, size: nat) {
    exists p: nat :: p < |up| && FirstWith(up, id, p) && offset <= p < offset + size <= |up|
      && offset == Min(if p < size / 2 then 0 else p - size / 2, |up| - size)
  }

  ghost predicate FirstWith(up: seq<Record>, id: string, p: nat)
    requires p < |up|
  {
    up[p].id == id && forall q :: 0 <= q < p ==> up[q].id != id
  }

  lemma {:induction false} AnchorIsLater(session: seq<Record>, anchor: Record, earlier: seq<Record>, later: seq<Record>)
    requires anchor in session && Split(session, anchor.key, earlier, later)
    ensures anchor in later
  {
    assert anchor in multiset(session);
    assert !Precedes(anchor.key)(anchor);
  }

  lemma {:induction false} AnchorLeads(session: seq<Record>, anchor: Record, earlier: seq<Record>, later: seq<Record>,
      succ: seq<Record>)
    requires anchor in session && NoTies(session, Leq) && Split(session, anchor.key, earlier, later)
    requires Ranked(succ, later, Leq)
    ensures succ != [] && succ[0] == anchor
  {
    AnchorIsLater(session, anchor, earlier, later);
    assert succ != [];
    FirstIsLeast(succ, later);
    assert Follows(anchor.key)(succ[0]);
    assert succ[0] in multiset(session);
    assert Leq(succ[0], anchor) && Leq(anchor, succ[0]);
  }

  lemma {:induction false} AnchorPlace(session: seq<Record>, id: string, anchor: Record, earlier: seq<Record>,
      later: seq<Record>,
      up: seq<Record>, pred: seq<Record>, succ: seq<Record>)
    requires IsAnchor(session, id, anchor) && NoTies(session, Leq) && up == pred + succ
    requires Split(session, anchor.key, earlier, later) && Ranked(pred, earlier, Leq) && Ranked(succ, later, Leq)
    ensures |earlier| < |up| && FirstWith(up, id, |earlier|)
  {
    AnchorLeads(session, anchor, earlier, later, succ);
    forall q | 0 <= q < |pred| ensures up[q].id != id {
      assert up[q] == pred[q] && pred[q] in multiset(earlier);
      assert Precedes(anchor.key)(pred[q]) && !Leq(anchor, pred[q]);
      assert pred[q] in multiset(session);
    }
  }

  /** Both sides of the window: so many hits of either query, sorted together. */
  method TopSides(session: seq<Record>, earlier: seq<Record>, later: seq<Record>, before: nat, after: nat)
    returns (records: seq<Record>, ghost up: seq<Record>, ghost pred: seq<Record>, ghost down: seq<Record>,
      ghost succ: seq<Record>)
    requires before <= |earlier| && after <= |later|
    ensures Sides(session, earlier, later, up, pred, down, succ)
    ensures Ranked(records, down[..before] + succ[..after], Leq)
  {
    OrdersAreTotal();
    var first, second;
    first, down := TopDocs(earlier, Geq, Max(before, 1), 0);
    second, succ := TopDocs(later, Leq, Max(after, 1), 0);
    assert Take(first, before) == down[..before] && Take(second, after) == succ[..after];
    records := SortBy(Take(first, before) + Take(second, after), Leq);
    up := Ranking(session, Leq);
    pred := Ranking(earlier, Leq);
  }

  /** The answer for an anchor: the slice of the sorted session that holds it. */
  ghost predicate IsWindow(session: seq<Record>, id: string, size: nat, found: Found) {
    && found.total == |session|
    && IsSlice(session, found.offset, found.offset + size, found.records)
    && (NoTies(session, Leq) ==> CentredIn(session, id, found.offset, size))
  }

  ghost predicate CentredIn(session: seq<Record>, id: string, offset: nat, size: nat) {
    forall up :: Ranked(up, session, Leq) ==> Centred(up, id, offset, size)
  }

  lemma {:induction false} CentredAnywhere(session: seq<Record>, up: seq<Record>, id: string, offset: nat, size: nat)
    requires Ranked(up, session, Leq) && Centred(up, id, offset, size)
    ensures CentredIn(session, id, offset, size)
  {
    forall any | Ranked(any, session, Leq) ensures any == up {
      RankedUnique(session, up, any);
    }
  }

  lemma {:induction false} SliceAnywhere(session: seq<Record>, up: seq<Record>, lo: nat, hi: nat, records: seq<Record>)
    requires Ranked(up, session, Leq) && lo <= hi <= |session| && Keys(records) == Keys(up)[lo..hi]
    requires NoTies(session, Leq) ==> records == up[lo..hi]
    ensures IsSlice(session, lo, hi, records)
  {
    forall any | Ranked(any, session, Leq) ensures any == up {
      RankedUnique(session, up, any);
    }
  }

  lemma {:induction false} CentredWindow(session: seq<Record>, id: string, anchor: Record,
      earlier: seq<Record>, later: seq<Record>, up: seq<Record>, pred: seq<Record>, succ: seq<Record>,
      offset: nat, size: nat)
    requires IsAnchor(session, id, anchor) && (NoTies(session, Leq) ==> up == pred + succ) && Ranked(up, session, Leq)
    requires Split(session, anchor.key, earlier, later) && Ranked(pred, earlier, Leq) && Ranked(succ, later, Leq)
    requires |earlier| < |session| && 1 <= size <= |session|
    requires offset == |earlier| - Sizes(|earlier|, |session|, size).0
    ensures NoTies(session, Leq) ==> CentredIn(session, id, offset, size)
  {
    if NoTies(session, Leq) {
      AnchorPlace(session, id, anchor, earlier, later, up, pred, succ);
      assert Centred(up, id, offset, size);
      CentredAnywhere(session, up, id, offset, size);
    }
  }

  /** The two sides of a window of `size` at `offset`. */
  ghost predicate Fits(earlier: seq<Record>, later: seq<Record>, before: nat, after: nat, offset: nat, size: nat) {
    before <= |earlier| && after <= |later| && offset + before == |earlier| && before + after == size
  }

  /** Both sides of the window: so many hits of either query, sorted together, are one slice. */
  method FetchSides(session: seq<Record>, ghost anchor: Key, earlier: seq<Record>, later: seq<Record>,
      before: nat, after: nat, ghost offset: nat, ghost size: nat)
    returns (records: seq<Record>, ghost up: seq<Record>, ghost pred: seq<Record>, ghost succ: seq<Record>)
    requires Split(session, anchor, earlier, later) && Fits(earlier, later, before, after, offset, size)
    ensures IsSlice(session, offset, offset + size, records)
    ensures Ranked(up, session, Leq) && Ranked(pred, earlier, Leq) && Ranked(succ, later, Leq)
    ensures NoTies(session, Leq) ==> up == pred + succ
  {
    ghost var down;
    records, up, pred, down, succ := TopSides(session, earlier, later, before, after);
    AroundIsSlice(session, anchor, earlier, later, up, pred, down, succ, records, before, after);
    SliceAnywhere(session, up, offset, offset + size, records);
  }

  /** So many records on either side of the anchor, put together. */
  method Assemble(session: seq<Record>, id: string, ghost anchor: Record, earlier: seq<Record>, later: seq<Record>,
      size: nat)
    returns (found: Found)
    requires IsAnchor(session, id, anchor) && Split(session, anchor.key, earlier, later)
    requires |earlier| < |session| && 1 <= size <= |session|
    ensures IsWindow(session, id, size, found)
  {
    var (before, after) := Sizes(|earlier|, |session|, size);
    var offset := |earlier| - before;
    assert Fits(earlier, later, before, after, offset, size);
    var records;
    ghost var up, pred, succ;
    records, up, pred, succ := FetchSides(session, anchor.key, earlier, later, before, after, offset, size);
    CentredWindow(session, id, anchor, earlier, later, up, pred, succ, offset, size);
    found := Found(records, |session|, offset);
  }

  /** The window around an anchor that was found. */
  method WindowOf(session: seq<Record>, id: string, anchor: Record, limit: nat) returns (found: Found)
    requires IsAnchor(session, id, anchor)
    ensures IsWindow(session, id, Min(Max(limit, 1), |session|), found)
  {
    var earlier, later := Queries(session, anchor.key);
    AnchorIsLater(session, anchor, earlier, later);
    found := Assemble(session, id, anchor, earlier, later, Min(Max(limit, 1), |session|));
  }

  /** The window around the record with `id`. */
  method ReadAround(session: seq<Record>, id: string, limit: nat) returns (r: Option<Found>)
    ensures r.Some? <==> exists x :: x in session && x.id == id
    ensures r.Some? ==> IsWindow(session, id, Min(Max(limit, 1), |session|), r.value)
  {
    var anchor := FindAnchor(session, id);
    if anchor.None? {
      return None;
    }
    var found := WindowOf(session, id, anchor.value, limit);
    return Some(found);
  }
}
