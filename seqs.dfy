/**
 * Sequence helpers shared by the components: `Array.prototype.filter`, the
 * subsequence relation it establishes, duplicate-freedom, and `Shuffle`, the
 * model of `sort(() => Math.random() - 0.5)` as an arbitrary permutation.
 */
module Seqs {
  import opened Arith

  /** `r` can be obtained from `s` by deleting elements: same order, nothing new. */
  predicate IsSubsequence<T(==)>(r: seq<T>, s: seq<T>)
    decreases |s|
  {
    if r == [] then true
    else if s == [] then false
    else (r[0] == s[0] && IsSubsequence(r[1..], s[1..])) || IsSubsequence(r, s[1..])
  }

  /** `s.filter(p)`: the elements satisfying `p`, in their original order. */
  function Filter<T(==)>(s: seq<T>, p: T -> bool): (r: seq<T>)
    ensures |r| <= |s|
    ensures forall i :: 0 <= i < |r| ==> r[i] in s && p(r[i])
    ensures forall i :: 0 <= i < |s| && p(s[i]) ==> s[i] in r
    ensures IsSubsequence(r, s)
    ensures (forall i :: 0 <= i < |s| ==> p(s[i])) ==> r == s
  {
    if s == [] then []
    else if p(s[0]) then [s[0]] + Filter(s[1..], p)
    else Filter(s[1..], p)
  }

  /** `filter` keeps every copy of a kept element and no copy of a dropped one. */
  lemma {:induction false} FilterCount<T>(s: seq<T>, p: T -> bool)
    ensures forall i :: 0 <= i < |s| ==>
      multiset(Filter(s, p))[s[i]] == if p(s[i]) then multiset(s)[s[i]] else 0
    decreases |s|
  {
    if s != [] {
      FilterCount(s[1..], p);
      FilterCountCons(s, p, Filter(s[1..], p));
    }
  }

  /** The step of `Filter`'s recursion that keeps every copy of a kept element. */
  lemma FilterCountCons<T>(s: seq<T>, p: T -> bool, rest: seq<T>)
    requires s != []
    requires forall i :: 0 <= i < |rest| ==> rest[i] in s[1..]
    requires forall i :: 0 <= i < |s| - 1 ==>
      multiset(rest)[s[1..][i]] == if p(s[1..][i]) then multiset(s[1..])[s[1..][i]] else 0
    ensures var r := if p(s[0]) then [s[0]] + rest else rest;
      forall i :: 0 <= i < |s| ==> multiset(r)[s[i]] == if p(s[i]) then multiset(s)[s[i]] else 0
  {
    var t := s[1..];
    assert s == [s[0]] + t;
    var r := if p(s[0]) then [s[0]] + rest else rest;
    forall i | 0 <= i < |s| ensures multiset(r)[s[i]] == if p(s[i]) then multiset(s)[s[i]] else 0 {
      var x := s[i];
      if x in t {
        var j :| 0 <= j < |t| && t[j] == x;
      }
    }
  }

  /** Two predicates that agree on the elements of `s` filter `s` alike. */
  lemma {:induction false} FilterCongruent<T>(s: seq<T>, p: T -> bool, q: T -> bool)
    requires forall i :: 0 <= i < |s| ==> p(s[i]) == q(s[i])
    ensures Filter(s, p) == Filter(s, q)
  {
    if s != [] {
      FilterCongruent(s[1..], p, q);
    }
  }

  /** Filtering with a weaker predicate keeps at least the same elements, in the same order. */
  lemma {:induction false} FilterMonotone<T>(s: seq<T>, p: T -> bool, q: T -> bool)
    requires forall i :: 0 <= i < |s| && p(s[i]) ==> q(s[i])
    ensures IsSubsequence(Filter(s, p), Filter(s, q))
  {
    if s != [] {
      FilterMonotone(s[1..], p, q);
      var fp, fq := Filter(s[1..], p), Filter(s[1..], q);
      if p(s[0]) {
        assert Filter(s, p) == [s[0]] + fp && Filter(s, q) == [s[0]] + fq;
        assert ([s[0]] + fp)[1..] == fp && ([s[0]] + fq)[1..] == fq;
      } else if q(s[0]) {
        assert Filter(s, q) == [s[0]] + fq;
        assert ([s[0]] + fq)[1..] == fq;
      }
    }
  }

  predicate NoDuplicates<T(==)>(s: seq<T>) {
    forall i, j :: 0 <= i < j < |s| ==> s[i] != s[j]
  }

  lemma {:induction false} NoDuplicatesCount<T>(s: seq<T>, x: T)
    requires NoDuplicates(s)
    ensures multiset(s)[x] <= 1
  {
    if s != [] {
      assert s == [s[0]] + s[1..];
      assert NoDuplicates(s[1..]) by {
        forall i, j | 0 <= i < j < |s[1..]| ensures s[1..][i] != s[1..][j] {
          assert s[1..][i] == s[i + 1] && s[1..][j] == s[j + 1];
        }
      }
      NoDuplicatesCount(s[1..], x);
      if s[0] == x {
        assert x !in s[1..] by {
          forall k | 0 <= k < |s[1..]| ensures s[1..][k] != x {
            assert s[1..][k] == s[k + 1];
          }
        }
      }
    }
  }

  lemma RepeatedCount<T>(s: seq<T>, i: nat, j: nat)
    requires i < j < |s| && s[i] == s[j]
    ensures multiset(s)[s[i]] >= 2
  {
    assert s == s[..j] + s[j..];
    assert s[i] in s[..j];
    assert s[j] in s[j..];
  }

  /** A permutation of a duplicate-free sequence is duplicate-free. */
  lemma PermutationNoDuplicates<T>(s: seq<T>, t: seq<T>)
    requires NoDuplicates(s) && multiset(t) == multiset(s)
    ensures NoDuplicates(t)
  {
    forall i, j | 0 <= i < j < |t| ensures t[i] != t[j] {
      if t[i] == t[j] {
        RepeatedCount(t, i, j);
        NoDuplicatesCount(s, t[i]);
      }
    }
  }

  function Head(picks: seq<nat>): nat {
    if picks == [] then 0 else picks[0]
  }

  function Tail(picks: seq<nat>): seq<nat> {
    if picks == [] then [] else picks[1..]
  }

  /**
   * The order a random comparator leaves `s` in. Each pick chooses, wrapped around the
   * number of elements left, which remaining element comes next; missing picks
   * count as 0. Every permutation arises from some picks (ShuffleReachesAll), so
   * a property proved for all picks holds for every order the sort may produce.
   */
  function Shuffle<T>(s: seq<T>, picks: seq<nat>): (r: seq<T>)
    ensures multiset(r) == multiset(s)
    ensures |r| == |s|
    decreases |s|
  {
    if s == [] then []
    else
      var k := Wrap(Head(picks), |s|);
      assert s == s[..k] + [s[k]] + s[k + 1..];
      [s[k]] + Shuffle(s[..k] + s[k + 1..], Tail(picks))
  }

  function IndexOf<T(==)>(s: seq<T>, x: T): (k: nat)
    requires x in s
    ensures k < |s| && s[k] == x
  {
    if s[0] == x then 0 else 1 + IndexOf(s[1..], x)
  }

  lemma HeadTailOfCons(k: nat, more: seq<nat>)
    ensures Head([k] + more) == k && Tail([k] + more) == more
  {
    assert ([k] + more)[1..] == more;
  }

  lemma MultisetCancel<T>(a: multiset<T>, b: multiset<T>, x: T)
    requires a + multiset{x} == b + multiset{x}
    ensures a == b
  {
    forall y ensures a[y] == b[y] {
      assert (a + multiset{x})[y] == (b + multiset{x})[y];
    }
  }

  /** The picks that make `Shuffle(s, _)` produce the permutation `t`. */
  function PicksFor<T(==)>(s: seq<T>, t: seq<T>): seq<nat>
    requires multiset(t) == multiset(s)
    decreases |s|
  {
    if s == [] then []
    else
      assert t != [] by { assert |t| == |multiset(t)| == |multiset(s)| == |s|; }
      assert t[0] in multiset(s) by { assert t == [t[0]] + t[1..]; }
      var k := IndexOf(s, t[0]);
      assert s == s[..k] + [s[k]] + s[k + 1..];
      assert t == [t[0]] + t[1..];
      assert multiset(s) == multiset(s[..k] + s[k + 1..]) + multiset{s[k]};
      assert multiset(t) == multiset(t[1..]) + multiset{t[0]};
      MultisetCancel(multiset(t[1..]), multiset(s[..k] + s[k + 1..]), t[0]);
      [k] + PicksFor(s[..k] + s[k + 1..], t[1..])
  }

  lemma {:induction false} ShuffleReachesAll<T>(s: seq<T>, t: seq<T>)
    requires multiset(t) == multiset(s)
    ensures Shuffle(s, PicksFor(s, t)) == t
    decreases |s|
  {
    if s == [] {
      assert |t| == |multiset(t)| == 0;
    } else {
      assert |t| == |multiset(t)| == |multiset(s)| == |s|;
      assert t == [t[0]] + t[1..];
      assert t[0] in multiset(s);
      var k := IndexOf(s, t[0]);
      var rest := s[..k] + s[k + 1..];
      assert s == s[..k] + [s[k]] + s[k + 1..];
      assert multiset(s) == multiset(rest) + multiset{s[k]};
      assert multiset(t) == multiset(t[1..]) + multiset{t[0]};
      MultisetCancel(multiset(t[1..]), multiset(rest), t[0]);
      var more := PicksFor(rest, t[1..]);
      assert PicksFor(s, t) == [k] + more;
      HeadTailOfCons(k, more);
      ShuffleReachesAll(rest, t[1..]);
      assert Shuffle(s, [k] + more) == [s[k]] + Shuffle(rest, more);
    }
  }

  /** Every order of `s` is `Shuffle(s, picks)` for some picks. */
  lemma ShuffleIsAnyPermutation<T>(s: seq<T>, t: seq<T>)
    requires multiset(t) == multiset(s)
    ensures exists picks :: Shuffle(s, picks) == t
  {
    ShuffleReachesAll(s, t);
  }
}
