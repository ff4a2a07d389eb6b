/**
Stable sorting by a total preorder, and what pins its result down: it is ordered, it is a
permutation, and elements that compare equal keep their order.
*/
module Sorting {

  ghost predicate TotalPreorder<T(!new)>(leq: (T, T) -> bool) {
    && (forall x, y :: leq(x, y) || leq(y, x))
    && (forall x, y, z :: leq(x, y) && leq(y, z) ==> leq(x, z))
  }

  ghost predicate Ordered<T>(s: seq<T>, leq: (T, T) -> bool) {
    forall i, j {:trigger leq(s[i], s[j])} :: 0 <= i < j < |s| ==> leq(s[i], s[j])
  }

  /** Puts `x` before the first element that is not less than it. */
  function Insert<T>(x: T, s: seq<T>, leq: (T, T) -> bool): (r: seq<T>)
    ensures |r| == |s| + 1
  {
    if s == [] || leq(x, s[0]) then [x] + s else [s[0]] + Insert(x, s[1..], leq)
  }

  function Sort<T>(s: seq<T>, leq: (T, T) -> bool): (r: seq<T>)
    ensures |r| == |s|
  {
    if s == [] then [] else Insert(s[0], Sort(s[1..], leq), leq)
  }

  lemma {:induction false} InsertPermutes<T>(x: T, s: seq<T>, leq: (T, T) -> bool)
    ensures multiset(Insert(x, s, leq)) == multiset(s) + multiset{x}
  {
    if s == [] || leq(x, s[0]) {
    } else {
      InsertPermutes(x, s[1..], leq);
      assert s == [s[0]] + s[1..];
    }
  }

  lemma {:induction false} SortPermutes<T>(s: seq<T>, leq: (T, T) -> bool)
    ensures multiset(Sort(s, leq)) == multiset(s)
  {
    if s == [] {
    } else {
      SortPermutes(s[1..], leq);
      InsertPermutes(s[0], Sort(s[1..], leq), leq);
      assert s == [s[0]] + s[1..];
    }
  }

  lemma {:induction false} InsertOrdered<T(!new)>(x: T, s: seq<T>, leq: (T, T) -> bool)
    requires TotalPreorder(leq) && Ordered(s, leq)
    ensures Ordered(Insert(x, s, leq), leq)
  {
    var r := Insert(x, s, leq);
    if s == [] || leq(x, s[0]) {
      forall i, j | 0 <= i < j < |r| ensures leq(r[i], r[j]) {
        assert i > 0 ==> leq(s[i - 1], s[j - 1]);
        assert j > 1 ==> leq(s[0], s[j - 1]);
      }
    } else {
      InsertOrdered(x, s[1..], leq);
      InsertPermutes(x, s[1..], leq);
      var t := Insert(x, s[1..], leq);
      forall j | 0 <= j < |t| ensures leq(s[0], t[j]) {
        assert t[j] in multiset(t);
        assert t[j] == x || t[j] in s[1..];
      }
    }
  }

  lemma {:induction false} SortOrdered<T(!new)>(s: seq<T>, leq: (T, T) -> bool)
    requires TotalPreorder(leq)
    ensures Ordered(Sort(s, leq), leq)
  {
    if s == [] {
    } else {
      SortOrdered(s[1..], leq);
      InsertOrdered(s[0], Sort(s[1..], leq), leq);
    }
  }

  // ---------------------------------------------------------------- stability

  function Filter<T>(s: seq<T>, keep: T -> bool): seq<T> {
    if s == [] then [] else (if keep(s[0]) then [s[0]] else []) + Filter(s[1..], keep)
  }

  lemma {:induction false} FilterKeeps<T>(s: seq<T>, keep: T -> bool)
    ensures forall x :: x in Filter(s, keep) <==> x in s && keep(x)
  {
    if s == [] {
    } else {
      FilterKeeps(s[1..], keep);
      assert s == [s[0]] + s[1..];
    }
  }

  lemma Assoc<T>(a: seq<T>, b: seq<T>, c: seq<T>)
    ensures (a + b) + c == a + (b + c)
  {
  }

  lemma {:induction false} FilterHead<T>(x: T, s: seq<T>, keep: T -> bool)
    ensures Filter([x] + s, keep) == (if keep(x) then [x] else []) + Filter(s, keep)
  {
    assert ([x] + s)[1..] == s;
  }

  lemma {:induction false} FilterAppend<T>(s: seq<T>, t: seq<T>, keep: T -> bool)
    ensures Filter(s + t, keep) == Filter(s, keep) + Filter(t, keep)
  {
    if s == [] {
      assert s + t == t;
    } else {
      var x, tail := s[0], s[1..];
      FilterAppend(tail, t, keep);
      FilterHead(x, tail + t, keep);
      Assoc([x], tail, t);
      Assoc(if keep(x) then [x] else [], Filter(tail, keep), Filter(t, keep));
      assert s == [x] + tail;
    }
  }

  /** `keep` does not tell apart elements that compare equal. */
  ghost predicate Respects<T(!new)>(keep: T -> bool, leq: (T, T) -> bool) {
    forall x, y :: keep(x) && keep(y) ==> leq(x, y)
  }

  lemma {:induction false} InsertStable<T(!new)>(x: T, s: seq<T>, leq: (T, T) -> bool, keep: T -> bool)
    requires Respects(keep, leq)
    ensures Filter(Insert(x, s, leq), keep) == Filter([x] + s, keep)
  {
    if s == [] || leq(x, s[0]) {
    } else {
      InsertStable(x, s[1..], leq, keep);
      var t := Insert(x, s[1..], leq);
      assert ([s[0]] + t)[1..] == t;
      assert ([x] + s)[1..] == s;
      assert ([x] + s[1..])[1..] == s[1..];
    }
  }

  /** Within any class of elements that compare equal, sorting changes nothing. */
  lemma {:induction false} SortStable<T(!new)>(s: seq<T>, leq: (T, T) -> bool, keep: T -> bool)
    requires Respects(keep, leq)
    ensures Filter(Sort(s, leq), keep) == Filter(s, keep)
  {
    if s == [] {
    } else {
      SortStable(s[1..], leq, keep);
      var t := Sort(s[1..], leq);
      InsertStable(s[0], t, leq, keep);
      assert ([s[0]] + t)[1..] == t;
    }
  }

  // ---------------------------------------------------------------- uniqueness

  /** Elements that compare equal are equal. */
  ghost predicate NoTies<T>(s: seq<T>, leq: (T, T) -> bool) {
    forall i, j {:trigger leq(s[i], s[j])} ::
      0 <= i < |s| && 0 <= j < |s| && leq(s[i], s[j]) && leq(s[j], s[i]) ==> s[i] == s[j]
  }

  lemma {:induction false} SameFirst<T(!new)>(a: seq<T>, b: seq<T>, leq: (T, T) -> bool)
    requires TotalPreorder(leq) && Ordered(a, leq) && Ordered(b, leq) && NoTies(a, leq)
    requires a != [] && b != [] && a[0] in b && b[0] in a
    ensures a[0] == b[0]
  {
    var i :| 0 <= i < |b| && b[i] == a[0];
    var j :| 0 <= j < |a| && a[j] == b[0];
    assert leq(a[0], a[j]) && leq(b[0], b[i]);
  }

  /** Without ties there is only one ordered arrangement of the same elements. */
  lemma {:induction false} OrderedUnique<T(!new)>(a: seq<T>, b: seq<T>, leq: (T, T) -> bool)
    requires TotalPreorder(leq) && Ordered(a, leq) && Ordered(b, leq) && NoTies(a, leq)
    requires multiset(a) == multiset(b)
    ensures a == b
  {
    assert |a| == |multiset(a)| && |b| == |multiset(b)|;
    if a == [] {
    } else {
      assert a[0] in multiset(b) && b[0] in multiset(a);
      SameFirst(a, b, leq);
      assert a == [a[0]] + a[1..] && b == [b[0]] + b[1..];
      assert multiset(a[1..]) == multiset(a) - multiset{a[0]};
      assert multiset(b[1..]) == multiset(b) - multiset{b[0]};
      OrderedUnique(a[1..], b[1..], leq);
    }
  }

  // ---------------------------------------------------------------- stable arrangements

  /** `r` is the stable arrangement of `s`: what a collector yields for a score with ties by document
      address, and what a stable sort yields. */
  ghost predicate Ranked<T(!new)>(r: seq<T>, s: seq<T>, leq: (T, T) -> bool) {
    && Ordered(r, leq) && multiset(r) == multiset(s) && |r| == |s|
    && SameClasses(r, s, leq)
  }

  lemma {:induction false} SortRanks<T(!new)>(s: seq<T>, leq: (T, T) -> bool)
    requires TotalPreorder(leq)
    ensures Ranked(Sort(s, leq), s, leq)
  {
    SortPermutes(s, leq);
    SortOrdered(s, leq);
    forall x ensures Filter(Sort(s, leq), Ties(x, leq)) == Filter(s, Ties(x, leq)) {
      TiesRespect(x, leq);
      SortStable(s, leq, Ties(x, leq));
    }
  }

  lemma {:induction false} Ranking<T(!new)>(s: seq<T>, leq: (T, T) -> bool) returns (r: seq<T>)
    requires TotalPreorder(leq)
    ensures Ranked(r, s, leq)
  {
    r := Sort(s, leq);
    SortRanks(s, leq);
  }

  function Ties<T>(x: T, leq: (T, T) -> bool): T -> bool {
    y => leq(x, y) && leq(y, x)
  }

  /** Elements that tie stand in the same order. */
  ghost predicate SameClasses<T(!new)>(a: seq<T>, b: seq<T>, leq: (T, T) -> bool) {
    forall x :: Filter(a, Ties(x, leq)) == Filter(b, Ties(x, leq))
  }

  lemma {:induction false} FilterAlike<T(!new)>(s: seq<T>, f: T -> bool, g: T -> bool)
    requires forall x :: f(x) <==> g(x)
    ensures Filter(s, f) == Filter(s, g)
  {
    if s == [] {
    } else {
      FilterAlike(s[1..], f, g);
    }
  }

  lemma {:induction false} FirstTie<T(!new)>(a: seq<T>, b: seq<T>, leq: (T, T) -> bool)
    requires TotalPreorder(leq) && Ordered(a, leq) && Ordered(b, leq)
    requires a != [] && b != [] && multiset(a) == multiset(b)
    ensures Ties(a[0], leq)(b[0])
  {
    assert a[0] in multiset(b) && b[0] in multiset(a);
    var i :| 0 <= i < |b| && b[i] == a[0];
    var j :| 0 <= j < |a| && a[j] == b[0];
    assert leq(a[0], a[0]) && leq(b[0], b[0]);
    assert leq(a[0], a[j]) && leq(b[0], b[i]);
  }

  lemma TiesRespect<T(!new)>(x: T, leq: (T, T) -> bool)
    requires TotalPreorder(leq)
    ensures Respects(Ties(x, leq), leq) && Ties(x, leq)(x)
  {
    assert leq(x, x);
  }

  lemma FilterTail<T>(s: seq<T>, keep: T -> bool)
    requires s != []
    ensures keep(s[0]) ==>
      Filter(s, keep) != [] && Filter(s, keep)[0] == s[0] && Filter(s, keep)[1..] == Filter(s[1..], keep)
    ensures !keep(s[0]) ==> Filter(s, keep) == Filter(s[1..], keep)
  {
  }

  lemma {:induction false} SameTail<T(!new)>(a: seq<T>, b: seq<T>, leq: (T, T) -> bool)
    requires a != [] && b != [] && a[0] == b[0] && SameClasses(a, b, leq)
    ensures SameClasses(a[1..], b[1..], leq)
  {
    forall x ensures Filter(a[1..], Ties(x, leq)) == Filter(b[1..], Ties(x, leq)) {
      FilterTail(a, Ties(x, leq));
      FilterTail(b, Ties(x, leq));
    }
  }

  lemma {:induction false} SameHead<T(!new)>(a: seq<T>, b: seq<T>, leq: (T, T) -> bool)
    requires TotalPreorder(leq) && Ordered(a, leq) && Ordered(b, leq) && multiset(a) == multiset(b)
    requires a != [] && b != [] && SameClasses(a, b, leq)
    ensures a[0] == b[0]
  {
    FirstTie(a, b, leq);
    TiesRespect(a[0], leq);
    FilterTail(a, Ties(a[0], leq));
    FilterTail(b, Ties(a[0], leq));
  }

  lemma {:induction false} StableUnique<T(!new)>(a: seq<T>, b: seq<T>, leq: (T, T) -> bool)
    requires TotalPreorder(leq) && Ordered(a, leq) && Ordered(b, leq) && multiset(a) == multiset(b)
    requires SameClasses(a, b, leq)
    ensures a == b
  {
    assert |a| == |multiset(a)| && |b| == |multiset(b)|;
    if a == [] {
    } else {
      SameHead(a, b, leq);
      SameTail(a, b, leq);
      assert a == [a[0]] + a[1..] && b == [b[0]] + b[1..];
      assert multiset(a[1..]) == multiset(a) - multiset{a[0]};
      assert multiset(b[1..]) == multiset(b) - multiset{b[0]};
      StableUnique(a[1..], b[1..], leq);
    }
  }
}
