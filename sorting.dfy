/** `Array.prototype.sort` with a comparator. The ECMAScript sort is stable, so
    it is specified here by a stable insertion sort over a "less than or equal"
    relation `le` (comparator result <= 0). */
module Sorting {
  import opened Common

  ghost predicate TotalPreorder<T(!new)>(le: (T, T) -> bool) {
    && (forall a, b :: le(a, b) || le(b, a))
    && (forall a, b, c :: le(a, b) && le(b, c) ==> le(a, c))
  }

  ghost predicate Sorted<T>(s: seq<T>, le: (T, T) -> bool) {
    forall i, j :: 0 <= i < j < |s| ==> le(s[i], s[j])
  }

  /** Compare two records by a key under an order on keys. */
  function OnKey<T, K>(key: T -> K, le: (K, K) -> bool): (T, T) -> bool {
    (a: T, b: T) => le(key(a), key(b))
  }

  /** Ascending comparator on an integer key: `(a, b) => key(a) - key(b)`. */
  function Ascending<T>(key: T -> int): (T, T) -> bool {
    (a: T, b: T) => key(a) <= key(b)
  }

  /** Descending comparator on an integer key: `(a, b) => key(b) - key(a)`. */
  function Descending<T>(key: T -> int): (T, T) -> bool {
    (a: T, b: T) => key(b) <= key(a)
  }

  lemma OnKeyTotal<T(!new), K(!new)>(key: T -> K, le: (K, K) -> bool)
    requires TotalPreorder(le)
    ensures TotalPreorder(OnKey(key, le))
  {
    var r := OnKey(key, le);
    forall a, b ensures r(a, b) || r(b, a) {
      assert le(key(a), key(b)) || le(key(b), key(a));
    }
    forall a, b, c | r(a, b) && r(b, c) ensures r(a, c) {
      assert le(key(a), key(b)) && le(key(b), key(c));
    }
  }

  lemma AscendingTotal<T(!new)>(key: T -> int)
    ensures TotalPreorder(Ascending(key))
  {
  }

  lemma DescendingTotal<T(!new)>(key: T -> int)
    ensures TotalPreorder(Descending(key))
  {
  }

  /** Insert `x` before the first element it is `le`, so that it stays ahead of its equals. */
  function Insert<T>(x: T, s: seq<T>, le: (T, T) -> bool): (r: seq<T>)
    ensures multiset(r) == multiset(s) + multiset{x}
    decreases |s|
  {
    if s == [] then [x]
    else if le(x, s[0]) then [x] + s
    else
      assert s == [s[0]] + s[1..];
      [s[0]] + Insert(x, s[1..], le)
  }

  /** The stable sort of `s` under `le`. */
  function SortBy<T>(s: seq<T>, le: (T, T) -> bool): (r: seq<T>)
    ensures multiset(r) == multiset(s)
    ensures |r| == |s|
    decreases |s|
  {
    if s == [] then []
    else
      assert s == [s[0]] + s[1..];
      Insert(s[0], SortBy(s[1..], le), le)
  }

  lemma {:induction false} InsertSorted<T(!new)>(x: T, s: seq<T>, le: (T, T) -> bool)
    requires TotalPreorder(le) && Sorted(s, le)
    ensures Sorted(Insert(x, s, le), le)
    decreases |s|
  {
    if s != [] && !le(x, s[0]) {
      InsertSorted(x, s[1..], le);
      var tail := Insert(x, s[1..], le);
      assert le(s[0], x);
      forall j | 0 <= j < |tail| ensures le(s[0], tail[j]) {
        assert tail[j] in multiset(tail);
        assert tail[j] == x || tail[j] in multiset(s[1..]);
        if tail[j] != x {
          var k :| 0 <= k < |s[1..]| && s[1..][k] == tail[j];
          assert s[k + 1] == tail[j];
        }
      }
    } else if s != [] {
      forall j | 0 < j < |[x] + s| ensures le(([x] + s)[0], ([x] + s)[j]) {
        assert le(s[0], s[j - 1]) || j == 1;
      }
    }
  }

  /** Under a total preorder the sort's output is ordered. */
  lemma {:induction false} SortBySorted<T(!new)>(s: seq<T>, le: (T, T) -> bool)
    requires TotalPreorder(le)
    ensures Sorted(SortBy(s, le), le)
    decreases |s|
  {
    if s != [] {
      SortBySorted(s[1..], le);
      InsertSorted(s[0], SortBy(s[1..], le), le);
    }
  }

  /** A comparator that calls every pair equal (it always returns 0) leaves the order as it was. */
  lemma {:induction false} SortByAllEqual<T(!new)>(s: seq<T>, le: (T, T) -> bool)
    requires forall a, b :: le(a, b)
    ensures SortBy(s, le) == s
    decreases |s|
  {
    if s != [] {
      SortByAllEqual(s[1..], le);
      assert SortBy(s[1..], le) == s[1..];
      if s[1..] != [] {
        assert le(s[0], s[1..][0]);
      }
      assert s == [s[0]] + s[1..];
    }
  }

  /** The elements that `le` ranks equal to `e`. */
  function EqualTo<T>(e: T, le: (T, T) -> bool): T -> bool {
    (x: T) => le(x, e) && le(e, x)
  }

  /** Inserting `x` never moves it past an element it ranks equal to. */
  lemma {:induction false} InsertStable<T(!new)>(x: T, s: seq<T>, le: (T, T) -> bool, e: T)
    requires TotalPreorder(le)
    ensures Filter(Insert(x, s, le), EqualTo(e, le)) == Filter([x] + s, EqualTo(e, le))
    decreases |s|
  {
    var p := EqualTo(e, le);
    if s != [] && !le(x, s[0]) {
      InsertStable(x, s[1..], le, e);
      assert !(p(x) && p(s[0]));
      assert [s[0]] + ([x] + s[1..]) == [s[0], x] + s[1..];
      assert [x] + s == [x, s[0]] + s[1..];
      FilterConcat([s[0]], Insert(x, s[1..], le), p);
      FilterConcat([s[0]], [x] + s[1..], p);
      FilterConcat([s[0]], [x], p);
      FilterConcat([x], [s[0]], p);
      FilterConcat([s[0], x], s[1..], p);
      FilterConcat([x, s[0]], s[1..], p);
      FilterConcat([x], s[1..], p);
    }
  }

  /** Stability: for every `e`, the elements ranked equal to `e` leave the sort
      in the order they came in. */
  lemma {:induction false} SortByStable<T(!new)>(s: seq<T>, le: (T, T) -> bool, e: T)
    requires TotalPreorder(le)
    ensures Filter(SortBy(s, le), EqualTo(e, le)) == Filter(s, EqualTo(e, le))
    decreases |s|
  {
    if s != [] {
      var p := EqualTo(e, le);
      SortByStable(s[1..], le, e);
      InsertStable(s[0], SortBy(s[1..], le), le, e);
      FilterConcat([s[0]], SortBy(s[1..], le), p);
      FilterConcat([s[0]], s[1..], p);
      assert s == [s[0]] + s[1..];
    }
  }
}
