/**
 * Python's `list.sort(key=…)` and `sorted(…, key=…)`: a stable sort by a
 * real-valued key. A descending sort (`reverse=True`) keeps equal elements in
 * their original order too, so it is the ascending sort by the negated key.
 */
module Sorting {

  predicate SortedBy<T>(s: seq<T>, key: T -> real) {
    forall i, j :: 0 <= i < j < |s| ==> key(s[i]) <= key(s[j])
  }

  /** The elements of `s` whose key is `v`, in their order in `s`. */
  function WithKey<T>(s: seq<T>, key: T -> real, v: real): (r: seq<T>)
    ensures |r| <= |s|
  {
    if s == [] then []
    else WithKey(s[..|s| - 1], key, v) + (if key(s[|s| - 1]) == v then [s[|s| - 1]] else [])
  }

  lemma {:induction false} WithKeyAppend<T>(a: seq<T>, b: seq<T>, key: T -> real, v: real)
    ensures WithKey(a + b, key, v) == WithKey(a, key, v) + WithKey(b, key, v)
    decreases |b|
  {
    if b != [] {
      var b' := b[..|b| - 1];
      var t := if key(b[|b| - 1]) == v then [b[|b| - 1]] else [];
      assert (a + b)[..|a + b| - 1] == a + b';
      assert (a + b)[|a + b| - 1] == b[|b| - 1];
      WithKeyAppend(a, b', key, v);
      calc {
        WithKey(a + b, key, v);
        WithKey(a + b', key, v) + t;
        WithKey(a, key, v) + WithKey(b', key, v) + t;
        WithKey(a, key, v) + (WithKey(b', key, v) + t);
        WithKey(a, key, v) + WithKey(b, key, v);
      }
    } else {
      assert a + b == a;
    }
  }

  /** Puts `x` into the sorted `s` after every element whose key is not above its own. */
  function Insert<T(==,!new)>(x: T, s: seq<T>, key: T -> real): (r: seq<T>)
    ensures multiset(r) == multiset(s) + multiset{x}
    ensures forall y :: y in r <==> y in s || y == x
    ensures SortedBy(s, key) ==> SortedBy(r, key)
    ensures |r| == |s| + 1
  {
    if s == [] || key(s[|s| - 1]) <= key(x) then s + [x]
    else
      var front := s[..|s| - 1];
      var last := s[|s| - 1];
      assert s == front + [last];
      var r' := Insert(x, front, key);
      InsertBelow(r', front, x, last, key);
      r' + [last]
  }

  /** Appending an element whose key bounds all others keeps a sorted sequence sorted. */
  lemma InsertBelow<T>(r': seq<T>, front: seq<T>, x: T, last: T, key: T -> real)
    requires forall y :: y in r' <==> y in front || y == x
    requires key(x) < key(last)
    requires SortedBy(front + [last], key) ==> SortedBy(r', key)
    ensures SortedBy(front + [last], key) ==> SortedBy(r' + [last], key)
  {
    if SortedBy(front + [last], key) {
      forall y | y in front ensures key(y) <= key(last) {
        var i :| 0 <= i < |front| && front[i] == y;
        assert (front + [last])[i] == y && (front + [last])[|front|] == last;
      }
      forall i | 0 <= i < |r'| ensures key(r'[i]) <= key(last) {
        assert r'[i] in r';
      }
    }
  }

  /** Stable insertion sort: each element goes after the equal ones already placed. */
  function SortBy<T(==,!new)>(s: seq<T>, key: T -> real): (r: seq<T>)
    ensures SortedBy(r, key)
    ensures multiset(r) == multiset(s) && |r| == |s|
  {
    if s == [] then []
    else
      assert s == s[..|s| - 1] + [s[|s| - 1]];
      Insert(s[|s| - 1], SortBy(s[..|s| - 1], key), key)
  }

  lemma {:induction false} InsertKeepsKeyOrder<T(!new)>(x: T, s: seq<T>, key: T -> real, v: real)
    ensures WithKey(Insert(x, s, key), key, v) == WithKey(s, key, v) + WithKey([x], key, v)
    decreases |s|
  {
    if s == [] || key(s[|s| - 1]) <= key(x) {
      WithKeyAppend(s, [x], key, v);
    } else {
      var front := s[..|s| - 1];
      var last := s[|s| - 1];
      assert s == front + [last];
      InsertKeepsKeyOrder(x, front, key, v);
      WithKeyAppend(Insert(x, front, key), [last], key, v);
      WithKeyAppend(front, [last], key, v);
      assert WithKey([x], key, v) == (if key(x) == v then [x] else []);
      assert WithKey([last], key, v) == (if key(last) == v then [last] else []);
    }
  }

  /** The sort is stable: the elements sharing any one key keep their relative order. */
  lemma {:induction false} SortByStable<T(!new)>(s: seq<T>, key: T -> real, v: real)
    ensures WithKey(SortBy(s, key), key, v) == WithKey(s, key, v)
  {
    if s != [] {
      var front := s[..|s| - 1];
      SortByStable(front, key, v);
      InsertKeepsKeyOrder(s[|s| - 1], SortBy(front, key), key, v);
      assert WithKey([s[|s| - 1]], key, v) == (if key(s[|s| - 1]) == v then [s[|s| - 1]] else []);
    }
  }

  /** `s[:n]` for any integer `n`: a negative `n` drops that many elements from the end. */
  function PyPrefix<T>(s: seq<T>, n: int): (r: seq<T>)
    ensures |r| <= |s| && r == s[..|r|]
    ensures n >= 0 ==> |r| == if n < |s| then n else |s|
    ensures n < 0 ==> |r| == if |s| + n > 0 then |s| + n else 0
  {
    if n >= 0 then (if n < |s| then s[..n] else s)
    else if |s| + n > 0 then s[..|s| + n] else []
  }
}
