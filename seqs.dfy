/**
 * Sequence helpers shared by both engines: JavaScript's `filter`, `includes`
 * and `slice(0, n)`, and lodash's `sumBy`.  Recursion runs from the END of a
 * sequence so that a loop over `xs[..i]` lines up with the definitions.
 */
module Seqs {

  /** The elements of `xs` satisfying `p`, in their original order (`Array.prototype.filter`). */
  function Filter<T>(xs: seq<T>, p: T -> bool): (r: seq<T>)
    ensures |r| <= |xs|
    ensures forall i :: 0 <= i < |r| ==> r[i] in xs && p(r[i])
    ensures forall i :: 0 <= i < |xs| && p(xs[i]) ==> xs[i] in r
    decreases |xs|
  {
    if xs == [] then []
    else
      var init := xs[..|xs| - 1];
      assert xs == init + [xs[|xs| - 1]];
      if p(xs[|xs| - 1]) then Filter(init, p) + [xs[|xs| - 1]] else Filter(init, p)
  }

  /** Filtering distributes over concatenation: it never reorders what it keeps. */
  lemma {:induction false} FilterConcat<T>(a: seq<T>, b: seq<T>, p: T -> bool)
    ensures Filter(a + b, p) == Filter(a, p) + Filter(b, p)
    decreases |b|
  {
    if b == [] {
      assert a + b == a;
    } else {
      var b' := b[..|b| - 1];
      assert (a + b)[..|a + b| - 1] == a + b';
      FilterConcat(a, b', p);
    }
  }

  /** Filtering keeps every occurrence of an element that passes and none of one that fails. */
  lemma {:induction false} FilterMultiset<T>(xs: seq<T>, p: T -> bool, x: T)
    ensures multiset(Filter(xs, p))[x] == if p(x) then multiset(xs)[x] else 0
    decreases |xs|
  {
    if xs != [] {
      var init := xs[..|xs| - 1];
      assert xs == init + [xs[|xs| - 1]];
      FilterMultiset(init, p, x);
    }
  }

  /** The predicate "the key of an element is `k`". */
  function Matching<T>(key: T -> string, k: string): T -> bool {
    x => key(x) == k
  }

  /** The elements whose key is `k`, in their original order. */
  function KeyFilter<T>(xs: seq<T>, key: T -> string, k: string): (r: seq<T>)
    ensures forall i :: 0 <= i < |r| ==> r[i] in xs && key(r[i]) == k
    ensures forall i :: 0 <= i < |xs| && key(xs[i]) == k ==> xs[i] in r
  {
    Filter(xs, Matching(key, k))
  }

  /** The distinct keys occurring in `xs`. */
  function KeySet<T>(xs: seq<T>, key: T -> string): set<string> {
    set i | 0 <= i < |xs| :: key(xs[i])
  }

  /** lodash `sumBy`: the sum of `f` over the elements, left to right; 0 for an empty sequence. */
  function SumBy<T>(xs: seq<T>, f: T -> real): real
    decreases |xs|
  {
    if xs == [] then 0.0 else SumBy(xs[..|xs| - 1], f) + f(xs[|xs| - 1])
  }

  lemma {:induction false} SumByConcat<T>(a: seq<T>, b: seq<T>, f: T -> real)
    ensures SumBy(a + b, f) == SumBy(a, f) + SumBy(b, f)
    decreases |b|
  {
    if b == [] {
      assert a + b == a;
    } else {
      var b' := b[..|b| - 1];
      assert (a + b)[..|a + b| - 1] == a + b';
      SumByConcat(a, b', f);
    }
  }

  /** Taking one element out of a sequence removes one occurrence of it. */
  lemma RemoveAtMultiset<T>(b: seq<T>, j: nat)
    requires j < |b|
    ensures multiset(b[..j] + b[j + 1..]) == multiset(b) - multiset{b[j]}
  {
    var front, back := b[..j], b[j + 1..];
    assert b == front + [b[j]] + back;
    assert multiset(b) == multiset(front) + multiset{b[j]} + multiset(back);
    assert multiset(front + back) == multiset(front) + multiset(back);
  }

  /** Taking one element out of a sequence removes one term of the sum. */
  lemma RemoveAtSum<T>(b: seq<T>, j: nat, f: T -> real)
    requires j < |b|
    ensures SumBy(b, f) == SumBy(b[..j] + b[j + 1..], f) + f(b[j])
  {
    hide *;
    assert b == b[..j] + [b[j]] + b[j + 1..];
    SumByMiddle(b[..j], b[j], b[j + 1..], f);
  }

  /** The sum with one term in the middle is the sum without it plus that term. */
  lemma SumByMiddle<T>(front: seq<T>, x: T, back: seq<T>, f: T -> real)
    ensures SumBy(front + [x] + back, f) == SumBy(front + back, f) + f(x)
  {
    assert SumBy([x], f) == f(x) by { assert [x][..0] == []; }
    hide SumBy;
    SumByConcat(front + [x], back, f);
    SumByConcat(front, [x], f);
    SumByConcat(front, back, f);
  }

  /** A sum does not depend on the order of its terms. */
  lemma {:induction false} SumByPermutation<T>(a: seq<T>, b: seq<T>, f: T -> real)
    requires multiset(a) == multiset(b)
    ensures SumBy(a, f) == SumBy(b, f)
    decreases |a|
  {
    if a == [] {
      assert |b| == |multiset(b)| == 0;
    } else {
      var x := a[|a| - 1];
      var a' := a[..|a| - 1];
      assert a == a' + [x];
      assert multiset(a') == multiset(a) - multiset{x};
      assert x in multiset(b);
      var j :| 0 <= j < |b| && b[j] == x;
      RemoveAtMultiset(b, j);
      RemoveAtSum(b, j, f);
      SumByPermutation(a', b[..j] + b[j + 1..], f);
    }
  }

  /** Every element of a prefix of a permutation of `t` is an element of `t`. */
  lemma PrefixMembers<T>(r: seq<T>, s: seq<T>, t: seq<T>)
    requires |r| <= |s| && r == s[..|r|] && multiset(s) == multiset(t)
    ensures forall i :: 0 <= i < |r| ==> r[i] in t
  {
    forall i | 0 <= i < |r| ensures r[i] in t {
      assert r[i] == s[i] && s[i] in multiset(s);
    }
  }

  /** In a sequence whose elements have pairwise distinct labels, an element occurs once. */
  lemma DistinctLabelsOccurOnce<T>(s: seq<T>, f: T -> string, p: nat)
    requires p < |s|
    requires forall i, j :: 0 <= i < j < |s| ==> f(s[i]) != f(s[j])
    ensures multiset(s)[s[p]] == 1
  {
    var x := s[p];
    assert s == s[..p] + [x] + s[p + 1..];
    var front := s[..p];
    assert x !in front by {
      forall i | 0 <= i < |front| ensures front[i] != x {
        assert front[i] == s[i];
      }
    }
    var back := s[p + 1..];
    assert x !in back by {
      forall i | 0 <= i < |back| ensures back[i] != x {
        assert back[i] == s[p + 1 + i];
      }
    }
  }

  /** An element at two positions occurs at least twice. */
  lemma TwiceOccurring<T>(r: seq<T>, i: nat, j: nat)
    requires i < j < |r| && r[i] == r[j]
    ensures multiset(r)[r[i]] >= 2
  {
    assert r == r[..j] + [r[j]] + r[j + 1..];
    assert r[..j][i] == r[i];
    assert r[i] in multiset(r[..j]);
  }

  /** A permutation of a sequence with pairwise distinct labels has pairwise distinct labels. */
  lemma PermutationKeepsLabelsDistinct<T>(r: seq<T>, s: seq<T>, f: T -> string)
    requires multiset(r) == multiset(s)
    requires forall i, j :: 0 <= i < j < |s| ==> f(s[i]) != f(s[j])
    ensures forall i, j :: 0 <= i < j < |r| ==> f(r[i]) != f(r[j])
  {
    forall i, j | 0 <= i < j < |r| ensures f(r[i]) != f(r[j]) {
      assert r[i] in multiset(s) && r[j] in multiset(s);
      var p :| 0 <= p < |s| && s[p] == r[i];
      var q :| 0 <= q < |s| && s[q] == r[j];
      DistinctLabelsOccurOnce(s, f, p);
      if p == q {
        TwiceOccurring(r, i, j);
        assert false;
      }
      if p < q {
        assert f(s[p]) != f(s[q]);
      } else {
        assert f(s[q]) != f(s[p]);
      }
    }
  }

  /** `sub` occurs in `s` at position 0. */
  predicate IsPrefix(sub: string, s: string) {
    |sub| <= |s| && s[..|sub|] == sub
  }

  /** JavaScript `s.includes(sub)`: `sub` occurs somewhere in `s`. */
  predicate Contains(s: string, sub: string)
    decreases |s|
  {
    IsPrefix(sub, s) || (|s| > 0 && Contains(s[1..], sub))
  }

  /** `sub` occurs in `s` starting at position `i`. */
  predicate OccursAt(s: string, sub: string, i: nat) {
    i + |sub| <= |s| && s[i..i + |sub|] == sub
  }

  /** `includes` holds exactly when `sub` occurs at some position of `s`. */
  lemma {:induction false} ContainsIff(s: string, sub: string)
    ensures Contains(s, sub) <==> exists i: nat :: i <= |s| && OccursAt(s, sub, i)
    decreases |s|
  {
    if IsPrefix(sub, s) {
      assert OccursAt(s, sub, 0);
    } else if |s| > 0 {
      ContainsIff(s[1..], sub);
      if Contains(s[1..], sub) {
        var i: nat :| i <= |s[1..]| && OccursAt(s[1..], sub, i);
        assert s[1..][i..i + |sub|] == s[i + 1..i + 1 + |sub|];
        assert OccursAt(s, sub, i + 1);
      } else if exists i: nat :: i <= |s| && OccursAt(s, sub, i) {
        var i: nat :| i <= |s| && OccursAt(s, sub, i);
        assert i != 0;
        assert s[1..][i - 1..i - 1 + |sub|] == s[i..i + |sub|];
        assert OccursAt(s[1..], sub, i - 1);
      }
    }
  }

  /** A text shorter than `sub` does not contain it. */
  lemma {:induction false} ShortNotContains(s: string, sub: string)
    requires |s| < |sub|
    ensures !Contains(s, sub)
    decreases |s|
  {
    if |s| > 0 {
      ShortNotContains(s[1..], sub);
    }
  }

  /** Where `slice(0, end)` stops on a sequence of length `len`: a negative end counts from the back. */
  function SliceEnd(len: nat, end: int): (r: nat)
    ensures r <= len
    ensures 0 <= end ==> r == if end < len then end else len
    ensures end < 0 ==> r == if len + end < 0 then 0 else len + end
  {
    if end < 0 then (if len + end < 0 then 0 else len + end)
    else if end < len then end else len
  }

  /** JavaScript `xs.slice(0, end)`: always a prefix of `xs`. */
  function SliceTo<T>(xs: seq<T>, end: int): (r: seq<T>)
    ensures |r| == SliceEnd(|xs|, end) && r == xs[..|r|]
  {
    xs[..SliceEnd(|xs|, end)]
  }
}
