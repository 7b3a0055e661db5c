/**
 * The two stream operations `start()` relies on: `filter`, which keeps the
 * elements a predicate accepts in encounter order, and the per-element
 * mapping done inside `forEach`.
 */
module Sequences {

  /** The elements of `s` that `keep` accepts, in their original order. */
  function Filter<T(!new)>(s: seq<T>, keep: T -> bool): (r: seq<T>)
    ensures |r| <= |s|
    ensures forall x :: x in r <==> x in s && keep(x)
  {
    if s == [] then []
    else (if keep(s[0]) then [s[0]] else []) + Filter(s[1..], keep)
  }

  /** Filtering distributes over concatenation, so it can be done element by element. */
  lemma {:induction false} FilterAppend<T(!new)>(a: seq<T>, b: seq<T>, keep: T -> bool)
    ensures Filter(a + b, keep) == Filter(a, keep) + Filter(b, keep)
  {
    if a == [] {
      assert a + b == b;
    } else {
      assert (a + b)[0] == a[0];
      assert (a + b)[1..] == a[1..] + b;
      FilterAppend(a[1..], b, keep);
    }
  }

  /** `f` applied to each element of `s`, position by position. */
  function MapSeq<A, B>(s: seq<A>, f: A -> B): (r: seq<B>)
    ensures |r| == |s|
    ensures forall i :: 0 <= i < |s| ==> r[i] == f(s[i])
  {
    seq(|s|, i requires 0 <= i < |s| => f(s[i]))
  }

  /** Mapping distributes over concatenation. */
  lemma MapAppend<A, B>(a: seq<A>, b: seq<A>, f: A -> B)
    ensures MapSeq(a + b, f) == MapSeq(a, f) + MapSeq(b, f)
  {
    assert forall i :: 0 <= i < |a| + |b| ==> MapSeq(a + b, f)[i] == (MapSeq(a, f) + MapSeq(b, f))[i];
  }

  /** Every element of `s` has its image in `MapSeq(s, f)`. */
  lemma MapContains<A, B>(s: seq<A>, f: A -> B, x: A)
    requires x in s
    ensures f(x) in MapSeq(s, f)
  {
    var i :| 0 <= i < |s| && s[i] == x;
    assert MapSeq(s, f)[i] == f(x);
  }
}
