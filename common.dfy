/** The shared option and result types and the list operations the pages use on their
    state arrays: Array.prototype.filter, map-with-replace, slice, append and
    the checkbox/toggle updates. */
module Common {

  datatype Option<+T> = None | Some(value: T) {
    function GetOr(default: T): T {
      match this
      case Some(v) => v
      case None => default
    }
  }

  /** The outcome of an awaited call: the resolved value, or the rejection's message. */
  datatype Result<+T> = Ok(value: T) | Err(message: string)

  /** A file picked in an <input type="file">; only its identity matters here. */
  datatype File = File(name: string)

  /** `a` is an order-preserving subsequence of `b`. */
  ghost predicate IsSubsequence<T>(a: seq<T>, b: seq<T>)
    decreases |b|
  {
    a == [] || (b != [] && ((a[0] == b[0] && IsSubsequence(a[1..], b[1..])) || IsSubsequence(a, b[1..])))
  }

  lemma {:induction false} SubsequenceTransitive<T>(a: seq<T>, b: seq<T>, c: seq<T>)
    requires IsSubsequence(a, b) && IsSubsequence(b, c)
    ensures IsSubsequence(a, c)
    decreases |c|
  {
    if a != [] {
      if IsSubsequence(b, c[1..]) {
        SubsequenceTransitive(a, b, c[1..]);
      } else if a[0] == b[0] && IsSubsequence(a[1..], b[1..]) {
        SubsequenceTransitive(a[1..], b[1..], c[1..]);
      } else {
        SubsequenceTransitive(a, b[1..], c[1..]);
      }
    }
  }

  lemma {:induction false} SubsequenceReflexive<T>(a: seq<T>)
    ensures IsSubsequence(a, a)
    decreases |a|
  {
    if a != [] {
      SubsequenceReflexive(a[1..]);
    }
  }

  /** Array.prototype.filter: the kept elements, in their original order. */
  function Filter<T(!new)>(s: seq<T>, keep: T -> bool): (r: seq<T>)
    ensures |r| <= |s|
    ensures forall x :: x in r <==> x in s && keep(x)
    ensures forall i :: 0 <= i < |r| ==> keep(r[i])
    ensures IsSubsequence(r, s)
    decreases |s|
  {
    if s == [] then []
    else
      assert s == [s[0]] + s[1..];
      var rest := Filter(s[1..], keep);
      if keep(s[0]) then [s[0]] + rest else rest
  }

  /** Every element the test accepts keeps all its copies, and no other element survives. */
  lemma {:induction false} FilterCounts<T(!new)>(s: seq<T>, keep: T -> bool)
    ensures forall x :: multiset(Filter(s, keep))[x] == if keep(x) then multiset(s)[x] else 0
    decreases |s|
  {
    if s != [] {
      FilterCounts(s[1..], keep);
      assert s == [s[0]] + s[1..];
      assert multiset(s) == multiset{s[0]} + multiset(s[1..]);
    }
  }

  lemma {:induction false} FilterConcat<T(!new)>(a: seq<T>, b: seq<T>, keep: T -> bool)
    ensures Filter(a + b, keep) == Filter(a, keep) + Filter(b, keep)
    decreases |a|
  {
    if a == [] {
      assert a + b == b;
    } else {
      assert (a + b)[1..] == a[1..] + b;
      FilterConcat(a[1..], b, keep);
    }
  }

  /** Filters with pointwise-equal tests give the same list. */
  lemma {:induction false} FilterSameKeep<T(!new)>(s: seq<T>, a: T -> bool, b: T -> bool)
    requires forall x :: a(x) == b(x)
    ensures Filter(s, a) == Filter(s, b)
    decreases |s|
  {
    if s != [] {
      FilterSameKeep(s[1..], a, b);
    }
  }

  /** Two filters in a row keep what both keep. */
  lemma {:induction false} FilterFilter<T(!new)>(s: seq<T>, a: T -> bool, b: T -> bool, both: T -> bool)
    requires forall x :: both(x) == (a(x) && b(x))
    ensures Filter(Filter(s, a), b) == Filter(s, both)
    decreases |s|
  {
    if s != [] {
      FilterFilter(s[1..], a, b, both);
      if a(s[0]) {
        assert ([s[0]] + Filter(s[1..], a))[1..] == Filter(s[1..], a);
      }
    }
  }

  /** A filter that keeps every element of `s` returns `s` unchanged. */
  lemma {:induction false} FilterKeepsAll<T(!new)>(s: seq<T>, keep: T -> bool)
    requires forall x :: x in s ==> keep(x)
    ensures Filter(s, keep) == s
    decreases |s|
  {
    if s != [] {
      assert s[0] in s;
      assert forall x :: x in s[1..] ==> x in s;
      FilterKeepsAll(s[1..], keep);
    }
  }

  /** The number of elements kept by a filter. */
  function CountWhere<T(!new)>(s: seq<T>, p: T -> bool): (n: nat)
    ensures n <= |s|
    ensures n == |Filter(s, p)|
    decreases |s|
  {
    if s == [] then 0 else (if p(s[0]) then 1 else 0) + CountWhere(s[1..], p)
  }

  /** `list.filter(y => y !== x)`: every occurrence of `x` removed. */
  function RemoveAll<T(==,!new)>(s: seq<T>, x: T): (r: seq<T>)
    ensures x !in r
    ensures forall y :: y != x ==> (y in r <==> y in s)
    ensures IsSubsequence(r, s)
    ensures forall y :: multiset(r)[y] == if y == x then 0 else multiset(s)[y]
  {
    FilterCounts(s, y => y != x);
    Filter(s, y => y != x)
  }

  lemma RemoveAbsent<T(!new)>(s: seq<T>, x: T)
    requires x !in s
    ensures RemoveAll(s, x) == s
  {
    FilterKeepsAll(s, y => y != x);
  }

  /** `list.map(e => match(e) ? x : e)`: every matching element replaced by `x`. */
  function ReplaceWhere<T>(s: seq<T>, matches: T -> bool, x: T): (r: seq<T>)
    ensures |r| == |s|
  {
    seq(|s|, i requires 0 <= i < |s| => if matches(s[i]) then x else s[i])
  }

  lemma ReplaceWhereAt<T>(s: seq<T>, matches: T -> bool, x: T, i: int)
    requires 0 <= i < |s|
    ensures ReplaceWhere(s, matches, x)[i] == if matches(s[i]) then x else s[i]
  {
  }

  /** `list.slice(0, n)` for n >= 0. */
  function Take<T>(s: seq<T>, n: nat): (r: seq<T>)
    ensures |r| == if n < |s| then n else |s|
    ensures r <= s
  {
    if n < |s| then s[..n] else s
  }

  /** A checkbox handler: `checked ? [...current, item] : current.filter(t => t !== item)`. */
  function CheckboxUpdate<T(==,!new)>(current: seq<T>, item: T, checked: bool): (r: seq<T>)
    ensures checked ==> r == current + [item]
    ensures !checked ==> item !in r && IsSubsequence(r, current)
    ensures forall y :: y != item ==> (y in r <==> y in current)
    ensures !checked ==> forall y :: multiset(r)[y] == if y == item then 0 else multiset(current)[y]
  {
    if checked then current + [item] else RemoveAll(current, item)
  }

  /** `prev.includes(x) ? prev.filter(id => id !== x) : [...prev, x]`. */
  function Toggle<T(==,!new)>(s: seq<T>, x: T): (r: seq<T>)
    ensures (x in r) <==> (x !in s)
    ensures forall y :: y != x ==> (y in r <==> y in s)
  {
    if x in s then RemoveAll(s, x) else s + [x]
  }

  /** Toggling an absent item twice restores the list exactly. */
  lemma ToggleTwiceRestores<T(!new)>(s: seq<T>, x: T)
    requires x !in s
    ensures Toggle(Toggle(s, x), x) == s
  {
    assert x in s + [x];
    FilterConcat(s, [x], y => y != x);
    RemoveAbsent(s, x);
    assert Filter([x], y => y != x) == [];
  }

  /** `list.map(e => idOf(e) === id ? x : e)`: every record with that id replaced. */
  function ReplaceById<T>(s: seq<T>, idOf: T -> string, id: string, x: T): (r: seq<T>)
    ensures |r| == |s|
    ensures forall i :: 0 <= i < |s| && idOf(s[i]) == id ==> r[i] == x
    ensures forall i :: 0 <= i < |s| && idOf(s[i]) != id ==> r[i] == s[i]
  {
    ReplaceWhere(s, (e: T) => idOf(e) == id, x)
  }

  /** `list.filter(e => idOf(e) !== id)`: every record with that id removed. */
  function WithoutId<T(!new)>(s: seq<T>, idOf: T -> string, id: string): (r: seq<T>)
    ensures forall e :: e in r <==> e in s && idOf(e) != id
    ensures IsSubsequence(r, s)
    ensures forall e :: multiset(r)[e] == if idOf(e) == id then 0 else multiset(s)[e]
  {
    FilterCounts(s, (e: T) => idOf(e) != id);
    Filter(s, (e: T) => idOf(e) != id)
  }

  /** Deleting an id that no record has leaves the list as it was. */
  lemma WithoutAbsentId<T(!new)>(s: seq<T>, idOf: T -> string, id: string)
    requires forall e :: e in s ==> idOf(e) != id
    ensures WithoutId(s, idOf, id) == s
  {
    FilterKeepsAll(s, (e: T) => idOf(e) != id);
  }

  /** `stats?.field || 0` for a stat card: a missing record, a missing field
      and 0 all show 0. */
  function StatOrZero<S>(stats: Option<S>, field: S -> Option<int>): (n: int)
    ensures stats.None? ==> n == 0
    ensures stats.Some? && field(stats.value).None? ==> n == 0
    ensures stats.Some? && field(stats.value).Some? ==> n == field(stats.value).value
  {
    if stats.Some? && field(stats.value).Some? then field(stats.value).value else 0
  }
}
