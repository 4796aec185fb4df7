/** Generic list operations shared by the components: the array `filter`
    of JavaScript and the first-occurrence de-duplication that spreading a
    `Set` built from a list performs. */
module Sequences {

  /** `r` can be obtained from `s` by deleting elements: order is kept and
      nothing is added. Greedy matching from the front. */
  ghost predicate IsSubsequence<T>(r: seq<T>, s: seq<T>)
    decreases |s|
  {
    if r == [] then true
    else if s == [] then false
    else if r[0] == s[0] then IsSubsequence(r[1..], s[1..])
    else IsSubsequence(r, s[1..])
  }

  /** `xs.filter(p)`: the elements of `s` that satisfy `p`, in their order. */
  function Filter<T(==,!new)>(s: seq<T>, p: T -> bool): (r: seq<T>)
    ensures |r| <= |s|
    ensures forall i :: 0 <= i < |r| ==> p(r[i])
    ensures forall x :: multiset(r)[x] == if p(x) then multiset(s)[x] else 0
    ensures forall x :: x in r <==> x in s && p(x)
    ensures IsSubsequence(r, s)
  {
    if s == [] then []
    else
      assert s == [s[0]] + s[1..];
      if p(s[0]) then [s[0]] + Filter(s[1..], p) else Filter(s[1..], p)
  }

  /** A filter whose predicate holds everywhere returns its input. */
  lemma {:induction false} FilterKeepsAll<T(!new)>(s: seq<T>, p: T -> bool)
    requires forall i :: 0 <= i < |s| ==> p(s[i])
    ensures Filter(s, p) == s
  {
    if s != [] {
      FilterKeepsAll(s[1..], p);
    }
  }

  /** Two predicates that agree on the elements of `s` filter it alike. */
  lemma {:induction false} FilterCongruent<T(!new)>(s: seq<T>, p: T -> bool, q: T -> bool)
    requires forall i :: 0 <= i < |s| ==> p(s[i]) == q(s[i])
    ensures Filter(s, p) == Filter(s, q)
  {
    if s != [] {
      FilterCongruent(s[1..], p, q);
    }
  }

  /** No element occurs twice. */
  predicate NoDup<T(==)>(s: seq<T>)
  {
    forall i, j :: 0 <= i < j < |s| ==> s[i] != s[j]
  }

  /** The index of the first occurrence of `x` in `s`. */
  function FirstIndex<T(==)>(s: seq<T>, x: T): (k: nat)
    requires x in s
    ensures k < |s| && s[k] == x && x !in s[..k]
  {
    if s[0] == x then 0
    else
      var k := FirstIndex(s[1..], x) + 1;
      assert s[..k] == [s[0]] + s[1..][..k - 1];
      k
  }

  /** Any position holding `x` with no `x` before it is the first one. */
  lemma FirstIndexUnique<T>(s: seq<T>, x: T, k: nat)
    requires k < |s| && s[k] == x && x !in s[..k]
    ensures FirstIndex(s, x) == k
  {
  }

  /** Extending a list at the back does not move first occurrences. */
  lemma FirstIndexPrefix<T>(s: seq<T>, y: T, x: T)
    requires x in s
    ensures x in s + [y] && FirstIndex(s + [y], x) == FirstIndex(s, x)
  {
    var k := FirstIndex(s, x);
    assert (s + [y])[..k] == s[..k];
    FirstIndexUnique(s + [y], x, k);
  }

  /** `[...new Set(s)]`: each distinct element once, in first-occurrence
      order. */
  function Distinct<T(==,!new)>(s: seq<T>): (r: seq<T>)
    ensures NoDup(r)
    ensures forall x :: x in r <==> x in s
    ensures forall i, j :: 0 <= i < j < |r| ==> FirstIndex(s, r[i]) < FirstIndex(s, r[j])
  {
    if s == [] then []
    else
      var init := s[..|s| - 1];
      var last := s[|s| - 1];
      assert s == init + [last];
      var r0 := Distinct(init);
      if last in r0 then
        DistinctOrderExtends(init, last, r0);
        r0
      else
        DistinctOrderAppend(init, last, r0);
        r0 + [last]
  }

  lemma DistinctOrderExtends<T>(init: seq<T>, last: T, r0: seq<T>)
    requires forall x :: x in r0 <==> x in init
    requires forall i, j :: 0 <= i < j < |r0| ==> FirstIndex(init, r0[i]) < FirstIndex(init, r0[j])
    ensures forall x :: x in r0 ==> x in init + [last]
    ensures forall i, j :: 0 <= i < j < |r0| ==> FirstIndex(init + [last], r0[i]) < FirstIndex(init + [last], r0[j])
  {
    forall i | 0 <= i < |r0| ensures FirstIndex(init + [last], r0[i]) == FirstIndex(init, r0[i]) {
      FirstIndexPrefix(init, last, r0[i]);
    }
  }

  lemma DistinctOrderAppend<T>(init: seq<T>, last: T, r0: seq<T>)
    requires forall x :: x in r0 <==> x in init
    requires last !in init
    requires forall i, j :: 0 <= i < j < |r0| ==> FirstIndex(init, r0[i]) < FirstIndex(init, r0[j])
    ensures forall i, j :: 0 <= i < j < |r0 + [last]| ==>
      FirstIndex(init + [last], (r0 + [last])[i]) < FirstIndex(init + [last], (r0 + [last])[j])
  {
    var s := init + [last];
    DistinctOrderExtends(init, last, r0);
    assert s[..|init|] == init;
    FirstIndexUnique(s, last, |init|);
  }

  /** A list without duplicates has as many elements as its set. */
  lemma {:induction false} NoDupCardinality<T>(s: seq<T>)
    requires NoDup(s)
    ensures |set x | x in s| == |s|
  {
    if s != [] {
      var tail := s[1..];
      assert NoDup(tail) by {
        forall i, j | 0 <= i < j < |tail| ensures tail[i] != tail[j] {
          assert tail[i] == s[i + 1] && tail[j] == s[j + 1];
        }
      }
      NoDupCardinality(tail);
      assert s[0] !in tail;
      assert (set x | x in s) == {s[0]} + (set x | x in tail);
    }
  }

  /** The de-duplicated list is as long as the number of distinct values. */
  lemma DistinctCardinality<T(!new)>(s: seq<T>)
    ensures |Distinct(s)| == |set x | x in s|
  {
    var r := Distinct(s);
    NoDupCardinality(r);
    assert (set x | x in r) == (set x | x in s);
  }
}
