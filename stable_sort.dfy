/**
 * A stable sort by a real-valued key, the ordering lodash `orderBy` and
 * `Array.prototype.sort` (stable since ES2019) produce: insertion sort, where
 * an element goes in front of every element that does not rank above it.
 * Ascending order is descending order on the negated key.
 */
module StableSort {
  import opened Seqs

  /** Inserts `x` before the first element of `s` whose key is not greater than `x`'s. */
  function InsertDesc<T>(x: T, s: seq<T>, key: T -> real): (r: seq<T>)
    ensures multiset(r) == multiset(s) + multiset{x}
    decreases |s|
  {
    if s == [] || key(s[0]) <= key(x) then [x] + s
    else
      assert s == [s[0]] + s[1..];
      [s[0]] + InsertDesc(x, s[1..], key)
  }

  /** `xs` in non-increasing key order; equal keys keep their input order. */
  function SortDesc<T>(xs: seq<T>, key: T -> real): (r: seq<T>)
    ensures multiset(r) == multiset(xs)
    decreases |xs|
  {
    if xs == [] then []
    else
      assert xs == [xs[0]] + xs[1..];
      InsertDesc(xs[0], SortDesc(xs[1..], key), key)
  }

  /** The key negated, so that a descending sort on it is an ascending sort on `key`. */
  function Negated<T>(key: T -> real): T -> real {
    x => -key(x)
  }

  /** `xs` in non-decreasing key order; equal keys keep their input order. */
  function SortAsc<T>(xs: seq<T>, key: T -> real): seq<T> {
    SortDesc(xs, Negated(key))
  }

  ghost predicate SortedDesc<T>(s: seq<T>, key: T -> real) {
    forall i, j :: 0 <= i < j < |s| ==> key(s[i]) >= key(s[j])
  }

  ghost predicate SortedAsc<T>(s: seq<T>, key: T -> real) {
    forall i, j :: 0 <= i < j < |s| ==> key(s[i]) <= key(s[j])
  }

  /** A prefix of a sorted sequence is sorted. */
  lemma SortedDescPrefix<T>(r: seq<T>, s: seq<T>, key: T -> real)
    requires SortedDesc(s, key) && |r| <= |s| && r == s[..|r|]
    ensures SortedDesc(r, key)
  {
    assert forall i :: 0 <= i < |r| ==> r[i] == s[i];
  }

  /** A prefix of an ascending sequence is ascending. */
  lemma SortedAscPrefix<T>(r: seq<T>, s: seq<T>, key: T -> real)
    requires SortedAsc(s, key) && |r| <= |s| && r == s[..|r|]
    ensures SortedAsc(r, key)
  {
    assert forall i :: 0 <= i < |r| ==> r[i] == s[i];
  }

  /**
   * The first entries of an ascending permutation of `t` have keys no
   * larger than any element of `t` left out of them.
   */
  lemma SortedAscPrefixLowest<T>(r: seq<T>, s: seq<T>, t: seq<T>, key: T -> real)
    requires SortedAsc(s, key) && multiset(s) == multiset(t) && |r| <= |s| && r == s[..|r|]
    ensures forall i, x :: 0 <= i < |r| && x in t && x !in r ==> key(r[i]) <= key(x)
  {
    forall i, x | 0 <= i < |r| && x in t && x !in r ensures key(r[i]) <= key(x) {
      assert x in multiset(s);
      var j :| 0 <= j < |s| && s[j] == x;
    }
  }

  /** The predicate "the key of an element equals `v`". */
  function HasKey<T>(key: T -> real, v: real): T -> bool {
    x => key(x) == v
  }

  /** The elements whose key equals `v`, in their order in `s`. */
  function WithKey<T>(s: seq<T>, key: T -> real, v: real): seq<T> {
    Filter(s, HasKey(key, v))
  }

  /**
   * Stability: for every key value the elements carrying it appear in the
   * same relative order in `r` as in `s`.
   */
  ghost predicate SameOrderPerKey<T>(r: seq<T>, s: seq<T>, key: T -> real) {
    forall v :: WithKey(r, key, v) == WithKey(s, key, v)
  }

  /** An element ranking at least as high as every element of a sorted sequence can go in front. */
  lemma SortedDescCons<T>(h: T, t: seq<T>, key: T -> real)
    requires SortedDesc(t, key)
    requires forall j :: 0 <= j < |t| ==> key(h) >= key(t[j])
    ensures SortedDesc([h] + t, key)
  {
    assert forall j :: 0 < j <= |t| ==> ([h] + t)[j] == t[j - 1];
  }

  lemma {:induction false} InsertDescSorted<T>(x: T, s: seq<T>, key: T -> real)
    requires SortedDesc(s, key)
    ensures SortedDesc(InsertDesc(x, s, key), key)
    decreases |s|
  {
    if s == [] {
      SortedDescCons(x, s, key);
    } else if key(s[0]) <= key(x) {
      SortedDescCons(x, s, key);
    } else {
      InsertDescSorted(x, s[1..], key);
      var t := InsertDesc(x, s[1..], key);
      forall j | 0 <= j < |t| ensures key(s[0]) >= key(t[j]) {
        assert t[j] in multiset(s[1..]) + multiset{x};
      }
      SortedDescCons(s[0], t, key);
    }
  }

  lemma FilterCons<T>(x: T, s: seq<T>, p: T -> bool)
    ensures Filter([x] + s, p) == (if p(x) then [x] else []) + Filter(s, p)
  {
    FilterConcat([x], s, p);
    assert [x][..0] == [];
    assert Filter([x], p) == Filter([], p) + (if p(x) then [x] else []);
  }

  /** Prepending an element the filter skips, or that ranks above every kept one, commutes with the filter. */
  lemma SkipAhead<T>(y: T, x: T, rest: seq<T>, key: T -> real, v: real)
    requires key(y) > key(x)
    ensures (if HasKey(key, v)(y) then [y] else []) + ((if key(x) == v then [x] else []) + rest)
         == (if key(x) == v then [x] else []) + ((if HasKey(key, v)(y) then [y] else []) + rest)
  {
  }

  lemma {:induction false} InsertDescWithKey<T>(x: T, s: seq<T>, key: T -> real, v: real)
    ensures WithKey(InsertDesc(x, s, key), key, v) == (if key(x) == v then [x] else []) + WithKey(s, key, v)
    decreases |s|
  {
    hide Filter;
    if s == [] || key(s[0]) <= key(x) {
      FilterCons(x, s, HasKey(key, v));
    } else {
      var t := InsertDesc(x, s[1..], key);
      assert InsertDesc(x, s, key) == [s[0]] + t;
      InsertDescWithKey(x, s[1..], key, v);
      assert s == [s[0]] + s[1..];
      PassOver(s[0], x, t, s[1..], key, v);
    }
  }

  /** Putting a higher-ranked element in front of both sides keeps `x` ahead of it among the elements with key `v`. */
  lemma PassOver<T>(y: T, x: T, t: seq<T>, rest: seq<T>, key: T -> real, v: real)
    requires key(y) > key(x)
    requires WithKey(t, key, v) == (if key(x) == v then [x] else []) + WithKey(rest, key, v)
    ensures WithKey([y] + t, key, v) == (if key(x) == v then [x] else []) + WithKey([y] + rest, key, v)
  {
    var p := HasKey(key, v);
    FilterCons(y, t, p);
    FilterCons(y, rest, p);
    SkipAhead(y, x, Filter(rest, p), key, v);
  }

  /** `SortDesc` orders by key, permutes its input and is stable. */
  lemma {:induction false} SortDescCorrect<T>(xs: seq<T>, key: T -> real)
    ensures SortedDesc(SortDesc(xs, key), key)
    ensures multiset(SortDesc(xs, key)) == multiset(xs)
    ensures SameOrderPerKey(SortDesc(xs, key), xs, key)
    decreases |xs|
  {
    if xs != [] {
      SortDescCorrect(xs[1..], key);
      InsertDescSorted(xs[0], SortDesc(xs[1..], key), key);
      forall v ensures WithKey(SortDesc(xs, key), key, v) == WithKey(xs, key, v) {
        InsertDescWithKey(xs[0], SortDesc(xs[1..], key), key, v);
        FilterCons(xs[0], xs[1..], HasKey(key, v));
        assert xs == [xs[0]] + xs[1..];
      }
    }
  }

  lemma {:induction false} FilterExtensional<T>(s: seq<T>, p: T -> bool, q: T -> bool)
    requires forall x :: p(x) == q(x)
    ensures Filter(s, p) == Filter(s, q)
    decreases |s|
  {
    if s != [] {
      FilterExtensional(s[..|s| - 1], p, q);
    }
  }

  /** `SortAsc` orders by key, permutes its input and is stable. */
  lemma SortAscCorrect<T>(xs: seq<T>, key: T -> real)
    ensures SortedAsc(SortAsc(xs, key), key)
    ensures multiset(SortAsc(xs, key)) == multiset(xs)
    ensures SameOrderPerKey(SortAsc(xs, key), xs, key)
  {
    var r := SortAsc(xs, key);
    SortDescCorrect(xs, Negated(key));
    forall v ensures WithKey(r, key, v) == WithKey(xs, key, v) {
      assert WithKey(r, Negated(key), -v) == WithKey(xs, Negated(key), -v);
      FilterExtensional(r, HasKey(key, v), HasKey(Negated(key), -v));
      FilterExtensional(xs, HasKey(key, v), HasKey(Negated(key), -v));
    }
  }
}
