// Sequence helpers: filters, counts, first-occurrence deduplication (Python's list(set(...))
// where only membership matters) and a stable sort by an integer key (Python's sorted()).
module Seqs {
  import opened Wrappers

  predicate NoDup<T(==)>(s: seq<T>)
  {
    forall i, j :: 0 <= i < j < |s| ==> s[i] != s[j]
  }

  function Filter<T(!new)>(s: seq<T>, p: T -> bool): (r: seq<T>)
    ensures |r| <= |s|
    ensures forall i :: 0 <= i < |r| ==> p(r[i])
    ensures forall x :: x in r <==> x in s && p(x)
  {
    if s == [] then [] else (if p(s[0]) then [s[0]] else []) + Filter(s[1..], p)
  }

  function Count<T>(s: seq<T>, p: T -> bool): (n: nat)
    ensures n <= |s|
  {
    if s == [] then 0 else (if p(s[0]) then 1 else 0) + Count(s[1..], p)
  }

  lemma {:induction false} CountIsFilterLength<T(!new)>(s: seq<T>, p: T -> bool)
    ensures Count(s, p) == |Filter(s, p)|
  {
    if s != [] { CountIsFilterLength(s[1..], p); }
  }

  lemma {:induction false} FilterAppend<T(!new)>(a: seq<T>, b: seq<T>, p: T -> bool)
    ensures Filter(a + b, p) == Filter(a, p) + Filter(b, p)
  {
    if a != [] {
      var h := if p(a[0]) then [a[0]] else [];
      calc {
        Filter(a + b, p);
      == { assert (a + b)[0] == a[0]; assert (a + b)[1..] == a[1..] + b; }
        h + Filter(a[1..] + b, p);
      == { FilterAppend(a[1..], b, p); }
        h + (Filter(a[1..], p) + Filter(b, p));
      ==
        (h + Filter(a[1..], p)) + Filter(b, p);
      }
    } else {
      assert a + b == b;
    }
  }

  /** A filter that no element passes leaves nothing. */
  lemma FilterNone<T(!new)>(s: seq<T>, p: T -> bool)
    requires forall x :: x in s ==> !p(x)
    ensures Filter(s, p) == []
  {
    if Filter(s, p) != [] {
      assert Filter(s, p)[0] in Filter(s, p);
    }
  }

  /** Nothing is dropped when every element passes. */
  lemma {:induction false} FilterAll<T(!new)>(s: seq<T>, p: T -> bool)
    requires forall x :: x in s ==> p(x)
    ensures Filter(s, p) == s
  {
    if s != [] {
      assert p(s[0]) by { assert s[0] in s; }
      assert Filter(s, p) == [s[0]] + Filter(s[1..], p);
      assert forall x :: x in s[1..] ==> p(x) by { assert forall x :: x in s[1..] ==> x in s; }
      FilterAll(s[1..], p);
      assert s == [s[0]] + s[1..];
    }
  }

  /** Elements the filter rejects can be cut out of the middle without changing the result. */
  lemma FilterSkips<T(!new)>(a: seq<T>, b: seq<T>, c: seq<T>, p: T -> bool)
    requires forall x :: x in b ==> !p(x)
    ensures Filter(a + b + c, p) == Filter(a + c, p)
  {
    FilterNone(b, p);
    FilterAppend(a, b, p);
    assert Filter(a + b, p) == Filter(a, p) + [];
    assert Filter(a, p) + [] == Filter(a, p);
    FilterAppend(a + b, c, p);
    FilterAppend(a, c, p);
  }

  lemma {:induction false} CountAppend<T>(a: seq<T>, b: seq<T>, p: T -> bool)
    ensures Count(a + b, p) == Count(a, p) + Count(b, p)
  {
    if a != [] {
      assert (a + b)[0] == a[0];
      assert (a + b)[1..] == a[1..] + b;
      CountAppend(a[1..], b, p);
      assert Count(a + b, p) == (if p(a[0]) then 1 else 0) + Count(a[1..] + b, p);
    } else {
      assert a + b == b;
    }
  }

  /** Replacing one element changes the count by what the old and the new element contribute. */
  lemma {:induction false} CountUpdate<T>(s: seq<T>, k: nat, x: T, p: T -> bool)
    requires k < |s|
    ensures Count(s[k := x], p) == Count(s, p) - (if p(s[k]) then 1 else 0) + (if p(x) then 1 else 0)
  {
    if k > 0 {
      CountUpdate(s[1..], k - 1, x, p);
      assert s[k := x][1..] == s[1..][k - 1 := x];
    } else {
      assert s[k := x][1..] == s[1..];
    }
  }

  /** Two predicates that never hold together count at most the whole sequence between them. */
  lemma {:induction false} CountDisjoint<T>(s: seq<T>, p: T -> bool, q: T -> bool)
    requires forall x :: x in s ==> !(p(x) && q(x))
    ensures Count(s, p) + Count(s, q) <= |s|
  {
    if s != [] { CountDisjoint(s[1..], p, q); }
  }

  /** Keeps the first occurrence of every element, in order. */
  function Dedup<T(==,!new)>(s: seq<T>): (r: seq<T>)
    ensures NoDup(r)
    ensures forall x :: x in r <==> x in s
    ensures |r| <= |s|
  {
    if s == [] then []
    else
      var d := Dedup(s[..|s| - 1]);
      assert forall x :: x in s <==> x in s[..|s| - 1] || x == s[|s| - 1];
      if s[|s| - 1] in d then d else d + [s[|s| - 1]]
  }

  /** The results of f that are present, in order (a comprehension with a filter on the result). */
  function Collect<A, B>(xs: seq<A>, f: A -> Option<B>): (r: seq<B>)
    ensures |r| <= |xs|
    ensures forall j :: 0 <= j < |r| ==> exists x :: x in xs && f(x) == Some(r[j])
  {
    if xs == [] then []
    else
      var rest := Collect(xs[..|xs| - 1], f);
      assert forall x :: x in xs[..|xs| - 1] ==> x in xs;
      match f(xs[|xs| - 1])
      case None => rest
      case Some(y) => rest + [y]
  }

  /** The first position from k on where g yields a value, with that value. */
  function FirstAt<A, B>(xs: seq<A>, k: nat, g: A -> Option<B>): (r: Option<(nat, B)>)
    requires k <= |xs|
    ensures r.Some? ==> k <= r.value.0 < |xs| && g(xs[r.value.0]) == Some(r.value.1)
    ensures r.Some? ==> forall j :: k <= j < r.value.0 ==> g(xs[j]).None?
    ensures r.None? <==> forall j :: k <= j < |xs| ==> g(xs[j]).None?
    decreases |xs| - k
  {
    if k == |xs| then None
    else
      match g(xs[k])
      case Some(y) => Some((k, y))
      case None => FirstAt(xs, k + 1, g)
  }

  /** The index of the first element whose key is `key`, if any (a search loop that returns at the first hit). */
  function FirstWith<T>(xs: seq<T>, keyOf: T -> string, key: string): (r: Option<nat>)
    ensures r.Some? ==> r.value < |xs| && keyOf(xs[r.value]) == key && forall j :: 0 <= j < r.value ==> keyOf(xs[j]) != key
    ensures r.None? ==> forall j :: 0 <= j < |xs| ==> keyOf(xs[j]) != key
  {
    if xs == [] then None
    else if keyOf(xs[0]) == key then Some(0)
    else match FirstWith(xs[1..], keyOf, key)
      case None => None
      case Some(k) => Some(k + 1)
  }

  /** The first value g yields along xs (a loop that sets a variable once, while it is still unset). */
  function FirstSome<A, B>(xs: seq<A>, g: A -> Option<B>): (r: Option<B>)
    ensures r.Some? ==> exists k :: 0 <= k < |xs| && g(xs[k]) == r && forall j :: 0 <= j < k ==> g(xs[j]).None?
    ensures r.None? ==> forall k :: 0 <= k < |xs| ==> g(xs[k]).None?
    decreases |xs|
  {
    if xs == [] then None
    else
      var before := FirstSome(xs[..|xs| - 1], g);
      if before.Some? then before else g(xs[|xs| - 1])
  }

  /** The last value g yields along xs (a loop that overwrites a variable whenever it can). */
  function LastSome<A, B>(xs: seq<A>, g: A -> Option<B>): (r: Option<B>)
    ensures r.Some? ==> exists k :: 0 <= k < |xs| && g(xs[k]) == r && forall j :: k < j < |xs| ==> g(xs[j]).None?
    ensures r.None? ==> forall k :: 0 <= k < |xs| ==> g(xs[k]).None?
    decreases |xs|
  {
    if xs == [] then None
    else if g(xs[|xs| - 1]).Some? then g(xs[|xs| - 1])
    else LastSome(xs[..|xs| - 1], g)
  }

  // ---------------------------------------------------------------- stable sort

  predicate SortedBy<T>(s: seq<T>, key: T -> int)
  {
    forall i, j :: 0 <= i < j < |s| ==> key(s[i]) <= key(s[j])
  }

  /** The elements of s whose key is k, in their order in s. */
  function WithKey<T>(s: seq<T>, key: T -> int, k: int): seq<T>
  {
    if s == [] then [] else (if key(s[0]) == k then [s[0]] else []) + WithKey(s[1..], key, k)
  }

  /** Put x before the first element whose key is not smaller than its own. */
  function Insert<T(==,!new)>(x: T, s: seq<T>, key: T -> int): (r: seq<T>)
    ensures multiset(r) == multiset(s) + multiset{x}
    ensures forall y :: y in r <==> y == x || y in s
    ensures |r| == |s| + 1
  {
    if s == [] || key(x) <= key(s[0]) then [x] + s
    else
      assert s == [s[0]] + s[1..];
      [s[0]] + Insert(x, s[1..], key)
  }

  /** Python's sorted(s, key=key): a stable ascending sort. */
  function SortBy<T(==,!new)>(s: seq<T>, key: T -> int): (r: seq<T>)
    ensures multiset(r) == multiset(s)
    ensures forall y :: y in r <==> y in s
    ensures |r| == |s|
  {
    if s == [] then []
    else
      assert s == [s[0]] + s[1..];
      Insert(s[0], SortBy(s[1..], key), key)
  }

  /** Inserting an element no smaller than a bound keeps every key at or above the bound. */
  lemma {:induction false} InsertAbove<T(!new)>(x: T, s: seq<T>, key: T -> int, lo: int)
    requires lo <= key(x) && forall i :: 0 <= i < |s| ==> lo <= key(s[i])
    ensures forall i :: 0 <= i < |s| + 1 ==> lo <= key(Insert(x, s, key)[i])
  {
    if s != [] && key(x) > key(s[0]) {
      InsertAbove(x, s[1..], key, lo);
      assert Insert(x, s, key) == [s[0]] + Insert(x, s[1..], key);
    }
  }

  lemma {:induction false} InsertSorted<T(!new)>(x: T, s: seq<T>, key: T -> int)
    requires SortedBy(s, key)
    ensures SortedBy(Insert(x, s, key), key)
  {
    if s != [] && key(x) > key(s[0]) {
      InsertSorted(x, s[1..], key);
      InsertAbove(x, s[1..], key, key(s[0]));
      assert Insert(x, s, key) == [s[0]] + Insert(x, s[1..], key);
    }
  }

  lemma {:induction false} InsertWithKey<T(!new)>(x: T, s: seq<T>, key: T -> int, k: int)
    requires SortedBy(s, key)
    ensures WithKey(Insert(x, s, key), key, k) == WithKey([x] + s, key, k)
  {
    if s != [] && key(x) > key(s[0]) {
      InsertWithKey(x, s[1..], key, k);
      assert ([s[0]] + Insert(x, s[1..], key))[1..] == Insert(x, s[1..], key);
      assert ([x] + s)[1..] == s;
      assert ([x] + s[1..])[1..] == s[1..];
      assert s == [s[0]] + s[1..];
    }
  }

  /** The sort orders by key. */
  lemma {:induction false} SortBySorted<T(!new)>(s: seq<T>, key: T -> int)
    ensures SortedBy(SortBy(s, key), key)
  {
    if s != [] {
      SortBySorted(s[1..], key);
      InsertSorted(s[0], SortBy(s[1..], key), key);
    }
  }

  /** Elements with equal keys keep their relative order: the sort is stable. */
  lemma {:induction false} SortByStable<T(!new)>(s: seq<T>, key: T -> int, k: int)
    ensures WithKey(SortBy(s, key), key, k) == WithKey(s, key, k)
  {
    if s != [] {
      SortByStable(s[1..], key, k);
      SortBySorted(s[1..], key);
      InsertWithKey(s[0], SortBy(s[1..], key), key, k);
      assert ([s[0]] + SortBy(s[1..], key))[1..] == SortBy(s[1..], key);
      assert ([s[0]] + s[1..]) == s;
    }
  }
}
