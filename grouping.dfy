/**
 * Grouping rows by a string key, as lodash `groupBy` does and as the legacy
 * engine does with a plain object of arrays: groups appear in the order their
 * key is first seen, and each group keeps its rows in input order.
 */
module Grouping {
  import opened Seqs

  /** One named group and its members. */
  datatype Bucket<T> = Bucket(name: string, items: seq<T>)

  /** Position of the group named `k`, or `|gs|` when there is none. */
  function IndexOfName<T>(gs: seq<Bucket<T>>, k: string): (i: nat)
    ensures i <= |gs|
    ensures i < |gs| ==> gs[i].name == k
    ensures forall j :: 0 <= j < i ==> gs[j].name != k
  {
    if gs == [] then 0 else if gs[0].name == k then 0 else 1 + IndexOfName(gs[1..], k)
  }

  /** Appends `x` to the group of its key, opening a new group at the end when the key is new. */
  function Place<T>(gs: seq<Bucket<T>>, x: T, key: T -> string): (r: seq<Bucket<T>>)
    ensures |gs| <= |r| <= |gs| + 1
    ensures (forall i :: 0 <= i < |gs| ==> |gs[i].items| > 0) ==> forall i :: 0 <= i < |r| ==> |r[i].items| > 0
  {
    var i := IndexOfName(gs, key(x));
    if i < |gs| then gs[i := Bucket(gs[i].name, gs[i].items + [x])]
    else gs + [Bucket(key(x), [x])]
  }

  /**
   * Groups `xs` by `key`, one pass from left to right: no more groups than
   * elements, at least one group when there is an element, and no group
   * empty.
   */
  function GroupBy<T>(xs: seq<T>, key: T -> string): (r: seq<Bucket<T>>)
    ensures |r| <= |xs|
    ensures |r| == 0 <==> |xs| == 0
    ensures forall i :: 0 <= i < |r| ==> |r[i].items| > 0
    decreases |xs|
  {
    if xs == [] then [] else Place(GroupBy(xs[..|xs| - 1], key), xs[|xs| - 1], key)
  }

  /** The first group carrying a name is the one `IndexOfName` reports. */
  lemma {:induction false} IndexOfFirst<T>(gs: seq<Bucket<T>>, k: string, j: nat)
    requires j <= |gs|
    requires j < |gs| ==> gs[j].name == k
    requires forall m :: 0 <= m < j ==> gs[m].name != k
    ensures j == IndexOfName(gs, k)
    decreases |gs|
  {
    if gs != [] && gs[0].name != k {
      IndexOfFirst(gs[1..], k, j - 1);
    }
  }

  /** Placing an element whose key first names group `j` appends it to that group. */
  lemma PlaceFound<T>(gs: seq<Bucket<T>>, x: T, key: T -> string, j: nat)
    requires j < |gs| && gs[j].name == key(x)
    requires forall m :: 0 <= m < j ==> gs[m].name != key(x)
    ensures Place(gs, x, key) == gs[j := Bucket(gs[j].name, gs[j].items + [x])]
  {
    IndexOfFirst(gs, key(x), j);
  }

  /** Placing an element whose key names no group opens a group at the end. */
  lemma PlaceNew<T>(gs: seq<Bucket<T>>, x: T, key: T -> string)
    requires forall m :: 0 <= m < |gs| ==> gs[m].name != key(x)
    ensures Place(gs, x, key) == gs + [Bucket(key(x), [x])]
  {
    IndexOfFirst(gs, key(x), |gs|);
  }

  /** Grouping one more element places it into the grouping of the others. */
  lemma GroupBySnoc<T>(xs: seq<T>, x: T, key: T -> string)
    ensures GroupBy(xs + [x], key) == Place(GroupBy(xs, key), x, key)
  {
    assert (xs + [x])[..|xs|] == xs;
  }

  /** All members of all groups, group after group. */
  function Flatten<T>(gs: seq<Bucket<T>>): seq<T>
    decreases |gs|
  {
    if gs == [] then [] else Flatten(gs[..|gs| - 1]) + gs[|gs| - 1].items
  }

  /** The total of `f` over every group's members. */
  function SumOverBuckets<T>(gs: seq<Bucket<T>>, f: T -> real): real
    decreases |gs|
  {
    if gs == [] then 0.0 else SumOverBuckets(gs[..|gs| - 1], f) + SumBy(gs[|gs| - 1].items, f)
  }

  /** The total number of members of all groups. */
  function CountOverBuckets<T>(gs: seq<Bucket<T>>): nat
    decreases |gs|
  {
    if gs == [] then 0 else CountOverBuckets(gs[..|gs| - 1]) + |gs[|gs| - 1].items|
  }

  ghost predicate DistinctNames<T>(gs: seq<Bucket<T>>) {
    forall i, j :: 0 <= i < j < |gs| ==> gs[i].name != gs[j].name
  }

  /** The set of group names. */
  function NameSet<T>(gs: seq<Bucket<T>>): set<string> {
    set i | 0 <= i < |gs| :: gs[i].name
  }

  /**
   * `gs` partitions `xs` by `key`: names are distinct, every group is non-empty
   * and holds exactly the elements of `xs` with its key, in input order, and
   * every key of `xs` has a group.
   */
  ghost predicate IsPartition<T>(gs: seq<Bucket<T>>, xs: seq<T>, key: T -> string) {
    && DistinctNames(gs)
    && (forall i :: 0 <= i < |gs| ==> gs[i].items == KeyFilter(xs, key, gs[i].name))
    && (forall i :: 0 <= i < |gs| ==> gs[i].items != [])
    && NameSet(gs) == KeySet(xs, key)
  }

  lemma KeyFilterSnoc<T>(xs: seq<T>, x: T, key: T -> string, k: string)
    ensures KeyFilter(xs + [x], key, k) == KeyFilter(xs, key, k) + (if key(x) == k then [x] else [])
  {
    assert (xs + [x])[..|xs|] == xs;
  }

  lemma KeySetSnoc<T>(xs: seq<T>, x: T, key: T -> string)
    ensures KeySet(xs + [x], key) == KeySet(xs, key) + {key(x)}
  {
    var ys := xs + [x];
    forall k | k in KeySet(ys, key) ensures k in KeySet(xs, key) + {key(x)} {
      var i :| 0 <= i < |ys| && key(ys[i]) == k;
      if i < |xs| { assert ys[i] == xs[i]; }
    }
    forall k | k in KeySet(xs, key) ensures k in KeySet(ys, key) {
      var i :| 0 <= i < |xs| && key(xs[i]) == k;
      assert ys[i] == xs[i];
    }
    assert key(ys[|xs|]) == key(x);
  }

  /** A key that does not occur selects nothing. */
  lemma {:induction false} AbsentKeyFilter<T>(xs: seq<T>, key: T -> string, k: string)
    requires k !in KeySet(xs, key)
    ensures KeyFilter(xs, key, k) == []
    decreases |xs|
  {
    if xs != [] {
      var init := xs[..|xs| - 1];
      assert xs == init + [xs[|xs| - 1]];
      KeySetSnoc(init, xs[|xs| - 1], key);
      AbsentKeyFilter(init, key, k);
      KeyFilterSnoc(init, xs[|xs| - 1], key, k);
    }
  }

  /** A key with no group has no element in a partitioned input. */
  lemma NoGroupNoElements<T>(gs: seq<Bucket<T>>, xs: seq<T>, key: T -> string, k: string)
    requires NameSet(gs) == KeySet(xs, key)
    requires IndexOfName(gs, k) == |gs|
    ensures KeyFilter(xs, key, k) == []
  {
    assert k !in NameSet(gs);
    AbsentKeyFilter(xs, key, k);
  }

  lemma PlaceItems<T>(gs: seq<Bucket<T>>, xs: seq<T>, x: T, key: T -> string, j: nat)
    requires IsPartition(gs, xs, key)
    requires j < |Place(gs, x, key)|
    ensures Place(gs, x, key)[j].items == KeyFilter(xs + [x], key, Place(gs, x, key)[j].name)
  {
    var hs := Place(gs, x, key);
    var i := IndexOfName(gs, key(x));
    KeyFilterSnoc(xs, x, key, hs[j].name);
    if j < |gs| {
      if key(x) == hs[j].name {
        assert j == i;
      }
    } else {
      NoGroupNoElements(gs, xs, key, key(x));
    }
  }

  lemma PlaceNames<T>(gs: seq<Bucket<T>>, x: T, key: T -> string)
    requires DistinctNames(gs)
    ensures DistinctNames(Place(gs, x, key))
    ensures NameSet(Place(gs, x, key)) == NameSet(gs) + {key(x)}
  {
    var hs := Place(gs, x, key);
    var i := IndexOfName(gs, key(x));
    if i < |gs| {
      assert forall j :: 0 <= j < |hs| ==> hs[j].name == gs[j].name;
      assert NameSet(hs) == NameSet(gs);
    } else {
      assert hs == gs + [Bucket(key(x), [x])];
      forall k | k in NameSet(hs) ensures k in NameSet(gs) + {key(x)} {
        var j :| 0 <= j < |hs| && hs[j].name == k;
        if j < |gs| { assert hs[j] == gs[j]; }
      }
      forall k | k in NameSet(gs) + {key(x)} ensures k in NameSet(hs) {
        if k == key(x) {
          assert hs[|gs|].name == k;
        } else {
          var j :| 0 <= j < |gs| && gs[j].name == k;
          assert hs[j] == gs[j];
        }
      }
    }
  }

  lemma PlacePreservesPartition<T>(gs: seq<Bucket<T>>, xs: seq<T>, x: T, key: T -> string)
    requires IsPartition(gs, xs, key)
    ensures IsPartition(Place(gs, x, key), xs + [x], key)
  {
    var hs := Place(gs, x, key);
    forall j | 0 <= j < |hs| ensures hs[j].items == KeyFilter(xs + [x], key, hs[j].name) {
      PlaceItems(gs, xs, x, key, j);
    }
    PlaceNames(gs, x, key);
    KeySetSnoc(xs, x, key);
  }

  /** `GroupBy` partitions its input (names distinct, groups non-empty, members in input order). */
  lemma {:induction false} GroupByIsPartition<T>(xs: seq<T>, key: T -> string)
    ensures IsPartition(GroupBy(xs, key), xs, key)
    decreases |xs|
  {
    if xs != [] {
      var init := xs[..|xs| - 1];
      GroupByIsPartition(init, key);
      assert xs == init + [xs[|xs| - 1]];
      PlacePreservesPartition(GroupBy(init, key), init, xs[|xs| - 1], key);
    } else {
      assert KeySet(xs, key) == {};
    }
  }

  lemma FlattenSnoc<T>(gs: seq<Bucket<T>>, b: Bucket<T>)
    ensures Flatten(gs + [b]) == Flatten(gs) + b.items
  {
    assert (gs + [b])[..|gs|] == gs;
  }

  /** Appending to one group adds one member to the flattened contents. */
  lemma {:induction false} FlattenAppendAt<T>(gs: seq<Bucket<T>>, i: nat, x: T)
    requires i < |gs|
    ensures multiset(Flatten(gs[i := Bucket(gs[i].name, gs[i].items + [x])])) == multiset(Flatten(gs)) + multiset{x}
    decreases |gs|
  {
    var hs := gs[i := Bucket(gs[i].name, gs[i].items + [x])];
    var n := |gs| - 1;
    assert gs == gs[..n] + [gs[n]];
    assert hs == hs[..n] + [hs[n]];
    FlattenSnoc(gs[..n], gs[n]);
    FlattenSnoc(hs[..n], hs[n]);
    if i < n {
      assert hs[..n] == gs[..n][i := Bucket(gs[i].name, gs[i].items + [x])];
      FlattenAppendAt(gs[..n], i, x);
    } else {
      assert hs[..n] == gs[..n];
    }
  }

  /** The groups hold every element of the input exactly as often as the input does. */
  lemma {:induction false} GroupByPermutation<T>(xs: seq<T>, key: T -> string)
    ensures multiset(Flatten(GroupBy(xs, key))) == multiset(xs)
    decreases |xs|
  {
    if xs != [] {
      var init := xs[..|xs| - 1];
      var x := xs[|xs| - 1];
      var gs := GroupBy(init, key);
      GroupByPermutation(init, key);
      assert xs == init + [x];
      var i := IndexOfName(gs, key(x));
      if i < |gs| {
        FlattenAppendAt(gs, i, x);
      } else {
        FlattenSnoc(gs, Bucket(key(x), [x]));
      }
    }
  }

  lemma {:induction false} SumOverBucketsIsSumOfFlatten<T>(gs: seq<Bucket<T>>, f: T -> real)
    ensures SumOverBuckets(gs, f) == SumBy(Flatten(gs), f)
    decreases |gs|
  {
    if gs != [] {
      SumOverBucketsIsSumOfFlatten(gs[..|gs| - 1], f);
      SumByConcat(Flatten(gs[..|gs| - 1]), gs[|gs| - 1].items, f);
    }
  }

  lemma {:induction false} CountOverBucketsIsLength<T>(gs: seq<Bucket<T>>)
    ensures CountOverBuckets(gs) == |Flatten(gs)|
    decreases |gs|
  {
    if gs != [] {
      CountOverBucketsIsLength(gs[..|gs| - 1]);
    }
  }

  /** Group totals of any quantity add up to the total over the input. */
  lemma GroupBySums<T>(xs: seq<T>, key: T -> string, f: T -> real)
    ensures SumOverBuckets(GroupBy(xs, key), f) == SumBy(xs, f)
    ensures CountOverBuckets(GroupBy(xs, key)) == |xs|
  {
    var gs := GroupBy(xs, key);
    GroupByPermutation(xs, key);
    SumOverBucketsIsSumOfFlatten(gs, f);
    SumByPermutation(Flatten(gs), xs, f);
    CountOverBucketsIsLength(gs);
    assert |Flatten(gs)| == |multiset(Flatten(gs))| == |multiset(xs)| == |xs|;
  }

  /** Distinct names: there are as many groups as names. */
  lemma {:induction false} DistinctNamesCount<T>(gs: seq<Bucket<T>>)
    requires DistinctNames(gs)
    ensures |NameSet(gs)| == |gs|
    decreases |gs|
  {
    if gs != [] {
      var init := gs[..|gs| - 1];
      DistinctNamesCount(init);
      assert NameSet(gs) == NameSet(init) + {gs[|gs| - 1].name} by {
        forall k | k in NameSet(gs) ensures k in NameSet(init) + {gs[|gs| - 1].name} {
          var j :| 0 <= j < |gs| && gs[j].name == k;
          if j < |gs| - 1 { assert init[j] == gs[j]; }
        }
      }
      assert gs[|gs| - 1].name !in NameSet(init);
    }
  }

  /** There is exactly one group per distinct key. */
  lemma GroupCountIsDistinctKeys<T>(xs: seq<T>, key: T -> string)
    ensures |GroupBy(xs, key)| == |KeySet(xs, key)|
  {
    GroupByIsPartition(xs, key);
    DistinctNamesCount(GroupBy(xs, key));
  }
}
