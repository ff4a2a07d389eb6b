/**
Sums over sequences and over the values of a map, and sequences put one behind the other.
*/
module Sums {

  function Sum<T>(s: seq<T>, weight: T -> int): int {
    if s == [] then 0 else weight(s[0]) + Sum(s[1..], weight)
  }

  lemma {:induction false} SumAppend<T>(s: seq<T>, t: seq<T>, weight: T -> int)
    ensures Sum(s + t, weight) == Sum(s, weight) + Sum(t, weight)
  {
    if s == [] {
      assert s + t == t;
    } else {
      SumAppend(s[1..], t, weight);
      assert (s + t)[1..] == s[1..] + t;
    }
  }

  lemma {:induction false} SumSnoc<T>(s: seq<T>, k: nat, weight: T -> int)
    requires k < |s|
    ensures Sum(s[..k + 1], weight) == Sum(s[..k], weight) + weight(s[k])
  {
    SumAppend(s[..k], [s[k]], weight);
    assert s[..k + 1] == s[..k] + [s[k]];
  }

  lemma {:induction false} SumWithout<T>(s: seq<T>, i: nat, weight: T -> int)
    requires i < |s|
    ensures Sum(s, weight) == weight(s[i]) + Sum(s[..i] + s[i + 1..], weight)
  {
    assert s == s[..i] + ([s[i]] + s[i + 1..]);
    assert ([s[i]] + s[i + 1..])[1..] == s[i + 1..];
    SumAppend(s[..i], s[i + 1..], weight);
    SumAppend(s[..i], [s[i]] + s[i + 1..], weight);
  }

  lemma {:induction false} Without<T>(s: seq<T>, i: nat)
    requires i < |s|
    ensures multiset(s[..i] + s[i + 1..]) == multiset(s) - multiset{s[i]}
  {
    assert s == s[..i] + ([s[i]] + s[i + 1..]);
  }

  lemma {:induction false} FirstElsewhere<T>(s: seq<T>, t: seq<T>) returns (i: nat)
    requires multiset(s) == multiset(t) && s != []
    ensures i < |t| && t[i] == s[0] && multiset(s[1..]) == multiset(t[..i] + t[i + 1..])
  {
    assert s[0] in multiset(t);
    i :| 0 <= i < |t| && t[i] == s[0];
    Without(t, i);
    assert s == [s[0]] + s[1..];
    assert multiset(s[1..]) == multiset(s) - multiset{s[0]};
  }

  /** Rearranging does not change a sum. */
  lemma {:induction false} SumPermutes<T>(s: seq<T>, t: seq<T>, weight: T -> int)
    requires multiset(s) == multiset(t)
    ensures Sum(s, weight) == Sum(t, weight)
  {
    if s == [] {
      assert |multiset(t)| == 0;
    } else {
      var i := FirstElsewhere(s, t);
      SumWithout(t, i, weight);
      SumPermutes(s[1..], t[..i] + t[i + 1..], weight);
    }
  }

  lemma {:induction false} SumNonNegative<T>(s: seq<T>, weight: T -> int)
    requires forall i :: 0 <= i < |s| ==> weight(s[i]) >= 0
    ensures Sum(s, weight) >= 0
  {
    if s == [] {
    } else {
      SumNonNegative(s[1..], weight);
    }
  }

  // ---------------------------------------------------------------- concatenation

  function Concat<T>(parts: seq<seq<T>>): seq<T> {
    if parts == [] then [] else parts[0] + Concat(parts[1..])
  }

  lemma {:induction false} ConcatSnoc<T>(parts: seq<seq<T>>)
    requires parts != []
    ensures Concat(parts) == Concat(parts[..|parts| - 1]) + parts[|parts| - 1]
  {
    if |parts| == 1 {
    } else {
      ConcatSnoc(parts[1..]);
      assert parts[1..][..|parts| - 2] == parts[..|parts| - 1][1..];
    }
  }

  // ---------------------------------------------------------------- maps

  function At<K(==)>(m: map<K, int>, key: K): int {
    if key in m then m[key] else 0
  }

  ghost function Total<K(!new)>(m: map<K, int>): int {
    if m == map[] then 0 else
      var key :| key in m;
      m[key] + Total(m - {key})
  }

  lemma {:induction false} TotalWithout<K(!new)>(m: map<K, int>, key: K)
    requires key in m
    ensures Total(m) == m[key] + Total(m - {key})
    decreases |m|
  {
    var first :| first in m && Total(m) == m[first] + Total(m - {first});
    if first != key {
      TotalWithout(m - {first}, key);
      TotalWithout(m - {key}, first);
      assert m - {first} - {key} == m - {key} - {first};
    }
  }

  lemma TotalUpdate<K(!new)>(m: map<K, int>, key: K, value: int)
    ensures Total(m[key := value]) == Total(m) - At(m, key) + value
  {
    TotalWithout(m[key := value], key);
    if key in m {
      TotalWithout(m, key);
      assert m[key := value] - {key} == m - {key};
    } else {
      assert m[key := value] - {key} == m;
    }
  }
}
