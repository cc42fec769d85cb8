/** Sequence helpers for the `Array.prototype` idioms the components use:
    `filter` and `find`. */
module Seqs {
  import opened Optional

  /** `s.filter(keep)`: the elements of `s` that satisfy `keep`, in their
      original order. */
  function Filter<T(!new)>(s: seq<T>, keep: T -> bool): (r: seq<T>)
    ensures |r| <= |s|
    ensures forall i :: 0 <= i < |r| ==> keep(r[i]) && r[i] in s
    ensures forall i :: 0 <= i < |s| && keep(s[i]) ==> s[i] in r
    decreases |s|
  {
    if |s| == 0 then []
    else
      var rest := Filter(s[1..], keep);
      assert forall i :: 1 <= i < |s| ==> s[i] == s[1..][i - 1];
      (if keep(s[0]) then [s[0]] else []) + rest
  }

  /** Filtering keeps the multiplicity of every element it keeps. */
  lemma {:induction false} FilterCounts<T(!new)>(s: seq<T>, keep: T -> bool, x: T)
    requires keep(x)
    ensures multiset(Filter(s, keep))[x] == multiset(s)[x]
    decreases |s|
  {
    if |s| != 0 {
      var tail := s[1..];
      var head := if keep(s[0]) then [s[0]] else [];
      assert s == [s[0]] + tail;
      calc {
        multiset(Filter(s, keep))[x];
      == { assert Filter(s, keep) == head + Filter(tail, keep); }
        multiset(head)[x] + multiset(Filter(tail, keep))[x];
      == { FilterCounts(tail, keep, x); }
        multiset(head)[x] + multiset(tail)[x];
      == { assert s[0] == x ==> head == [s[0]]; }
        multiset([s[0]])[x] + multiset(tail)[x];
      ==
        multiset(s)[x];
      }
    }
  }

  /** Filtering distributes over concatenation, which is what "keeps the
      order of the rest" means. */
  lemma {:induction false} FilterAppend<T(!new)>(a: seq<T>, b: seq<T>, keep: T -> bool)
    ensures Filter(a + b, keep) == Filter(a, keep) + Filter(b, keep)
    decreases |a|
  {
    if |a| == 0 {
      assert a + b == b;
    } else {
      assert (a + b)[1..] == a[1..] + b;
      FilterAppend(a[1..], b, keep);
    }
  }

  /** A filter that every element passes is the identity. */
  lemma {:induction false} FilterKeepsAll<T(!new)>(s: seq<T>, keep: T -> bool)
    requires forall i :: 0 <= i < |s| ==> keep(s[i])
    ensures Filter(s, keep) == s
    decreases |s|
  {
    if |s| != 0 {
      FilterKeepsAll(s[1..], keep);
    }
  }

  /** Two predicates that agree on every element give the same filter. */
  lemma {:induction false} FilterCongruent<T(!new)>(s: seq<T>, p: T -> bool, q: T -> bool)
    requires forall i :: 0 <= i < |s| ==> p(s[i]) == q(s[i])
    ensures Filter(s, p) == Filter(s, q)
    decreases |s|
  {
    if |s| != 0 {
      FilterCongruent(s[1..], p, q);
    }
  }

  /** The test `t => t !== x`. */
  function DiffersFrom<T(==)>(x: T): T -> bool {
    t => t != x
  }

  /** `s.filter(t => t !== x)`: every occurrence of `x` removed. */
  function RemoveAll<T(==,!new)>(s: seq<T>, x: T): (r: seq<T>)
    ensures x !in r
    ensures forall y :: y != x ==> (y in r <==> y in s)
  {
    Filter(s, DiffersFrom(x))
  }

  /** A one-element sequence whose element fails the test filters to nothing. */
  lemma FilterRejectsSingle<T(!new)>(x: T, keep: T -> bool)
    requires !keep(x)
    ensures Filter([x], keep) == []
  {
    assert [x][1..] == [];
  }

  /** Removing the one occurrence of `x` closes the gap it leaves. */
  lemma RemoveSingle<T(!new)>(a: seq<T>, x: T, b: seq<T>)
    requires x !in a && x !in b
    ensures RemoveAll(a + [x] + b, x) == a + b
  {
    var keep := DiffersFrom(x);
    assert forall i :: 0 <= i < |a| ==> keep(a[i]);
    assert forall i :: 0 <= i < |b| ==> keep(b[i]);
    calc {
      Filter(a + [x] + b, keep);
    == { FilterAppend(a + [x], b, keep); }
      Filter(a + [x], keep) + Filter(b, keep);
    == { FilterAppend(a, [x], keep); }
      Filter(a, keep) + Filter([x], keep) + Filter(b, keep);
    == { FilterKeepsAll(a, keep); FilterKeepsAll(b, keep); FilterRejectsSingle(x, keep); }
      a + [] + b;
    == { assert a + [] == a; }
      a + b;
    }
  }

  /** `s.find(p)` as an index: the first position whose element satisfies `p`. */
  function FindIndex<T>(s: seq<T>, p: T -> bool): (r: Option<nat>)
    ensures r.Some? ==> r.value < |s| && p(s[r.value])
    ensures r.Some? ==> forall j :: 0 <= j < r.value ==> !p(s[j])
    ensures r.None? <==> forall j :: 0 <= j < |s| ==> !p(s[j])
    decreases |s|
  {
    if |s| == 0 then None
    else if p(s[0]) then Some(0)
    else match FindIndex(s[1..], p)
      case None => None
      case Some(i) => Some(i + 1)
  }

  /** No two positions of `s` hold equal elements. */
  ghost predicate NoDuplicates<T>(s: seq<T>) {
    forall i, j :: 0 <= i < j < |s| ==> s[i] != s[j]
  }

  /** Filtering a duplicate-free sequence leaves it duplicate-free. */
  lemma {:induction false} FilterKeepsDistinct<T(!new)>(s: seq<T>, keep: T -> bool)
    requires NoDuplicates(s)
    ensures NoDuplicates(Filter(s, keep))
    decreases |s|
  {
    if |s| != 0 {
      var tail := s[1..];
      assert NoDuplicates(tail) by {
        forall i, j | 0 <= i < j < |tail|
          ensures tail[i] != tail[j]
        {
          assert tail[i] == s[i + 1] && tail[j] == s[j + 1];
        }
      }
      FilterKeepsDistinct(tail, keep);
      var rest := Filter(tail, keep);
      assert s[0] !in tail by {
        forall k | 0 <= k < |tail|
          ensures tail[k] != s[0]
        {
          assert tail[k] == s[k + 1];
        }
      }
      assert s[0] !in rest;
      var head := if keep(s[0]) then [s[0]] else [];
      assert Filter(s, keep) == head + rest;
    }
  }

  /** Removing an element from a duplicate-free sequence leaves it duplicate-free. */
  lemma RemoveKeepsDistinct<T(!new)>(s: seq<T>, x: T)
    requires NoDuplicates(s)
    ensures NoDuplicates(RemoveAll(s, x))
  {
    FilterKeepsDistinct(s, DiffersFrom(x));
  }
}
