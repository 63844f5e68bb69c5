/**
 * Completion order. Both scripts collect the results of a process pool with
 * `as_completed`, which yields them in whatever order the workers finish.
 * Here that order is a permutation of the indices of the submitted jobs, given as input,
 * and the tallies are shown not to depend on it.
 */
module Completion {

  /** Each of the indices 0..n-1 appears exactly once in `order`. */
  predicate IsPermutation(order: seq<nat>, n: nat) {
    && |order| == n
    && (forall k :: 0 <= k < n ==> order[k] < n)
    && (forall j, k :: 0 <= j < n && 0 <= k < n && j != k ==> order[j] != order[k])
    && (forall i :: 0 <= i < n ==> i in order)
  }

  /** The elements of `s` in the order `order` visits them. */
  function Reorder<T>(s: seq<T>, order: seq<nat>): (r: seq<T>)
    requires forall k :: 0 <= k < |order| ==> order[k] < |s|
    ensures |r| == |order|
    ensures forall k :: 0 <= k < |order| ==> r[k] == s[order[k]]
  {
    seq(|order|, k requires 0 <= k < |order| => s[order[k]])
  }

  /** How many elements of `s` satisfy `p`. */
  function Count<T>(s: seq<T>, p: T -> bool): (c: nat)
    ensures c <= |s|
  {
    if s == [] then 0 else Count(s[..|s| - 1], p) + (if p(s[|s| - 1]) then 1 else 0)
  }

  function Holders<T>(s: seq<T>, p: T -> bool): set<nat> {
    set i: nat | i < |s| && p(s[i])
  }

  /** Count(s, p) is the number of positions at which `p` holds. */
  lemma {:induction false} CountIsCardinality<T>(s: seq<T>, p: T -> bool)
    ensures Count(s, p) == |Holders(s, p)|
  {
    if s != [] {
      var t := s[..|s| - 1];
      CountIsCardinality(t, p);
      var last := |s| - 1;
      if p(s[last]) {
        assert Holders(s, p) == Holders(t, p) + {last};
        assert last !in Holders(t, p);
      } else {
        assert Holders(s, p) == Holders(t, p);
      }
    }
  }

  /** An injective index map keeps the size of a set. */
  lemma {:induction false} InjectiveImageSize(a: set<nat>, order: seq<nat>)
    requires forall k :: k in a ==> k < |order|
    requires forall j, k :: 0 <= j < |order| && 0 <= k < |order| && j != k ==> order[j] != order[k]
    ensures |(set k | k in a :: order[k])| == |a|
    decreases a
  {
    if a != {} {
      var x :| x in a;
      var rest := a - {x};
      InjectiveImageSize(rest, order);
      assert (set k | k in a :: order[k]) == (set k | k in rest :: order[k]) + {order[x]};
      assert order[x] !in (set k | k in rest :: order[k]);
    }
  }

  /** The tasks whose results satisfy `p` are the images of the completion positions that do. */
  lemma HoldersReorder<T>(s: seq<T>, order: seq<nat>, p: T -> bool)
    requires IsPermutation(order, |s|)
    ensures (set k | k in Holders(Reorder(s, order), p) :: order[k]) == Holders(s, p)
  {
    var r := Reorder(s, order);
    var done := Holders(r, p);
    var image := set k | k in done :: order[k];
    forall i | i in image
      ensures i in Holders(s, p)
    {
      var k :| k in done && order[k] == i;
      assert p(r[k]);
    }
    forall i | i in Holders(s, p)
      ensures i in image
    {
      assert i < |s| && i in order;
      var k :| 0 <= k < |order| && order[k] == i;
      assert r[k] == s[i];
      assert k in done;
    }
  }

  /** Counting in completion order gives the same number as counting in task order. */
  lemma CountReorder<T>(s: seq<T>, order: seq<nat>, p: T -> bool)
    requires IsPermutation(order, |s|)
    ensures Count(Reorder(s, order), p) == Count(s, p)
  {
    var r := Reorder(s, order);
    CountIsCardinality(r, p);
    CountIsCardinality(s, p);
    InjectiveImageSize(Holders(r, p), order);
    HoldersReorder(s, order, p);
  }

  /** `p` holds of every element exactly when the count is the length. */
  lemma {:induction false} CountAll<T>(s: seq<T>, p: T -> bool)
    ensures Count(s, p) == |s| <==> forall i :: 0 <= i < |s| ==> p(s[i])
  {
    if s != [] {
      var t := s[..|s| - 1];
      CountAll(t, p);
      assert forall i :: 0 <= i < |t| ==> t[i] == s[i];
    }
  }

  /** `p` holds of every element in completion order exactly when it holds of every task. */
  lemma AllReorder<T>(s: seq<T>, order: seq<nat>, p: T -> bool)
    requires IsPermutation(order, |s|)
    ensures (forall k :: 0 <= k < |order| ==> p(Reorder(s, order)[k])) <==> (forall i :: 0 <= i < |s| ==> p(s[i]))
  {
    CountReorder(s, order, p);
    CountAll(s, p);
    CountAll(Reorder(s, order), p);
  }
}
