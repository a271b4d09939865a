/** Stage queues as FIFO sequences, and the one bulk operation the line
    inspector uses on them: `Collection.removeIf`. */
module Queues {

  /** The queue left after removing, in one atomic sweep, every element that
      satisfies `drop`. */
  function RemoveIf<T(!new)>(xs: seq<T>, drop: T -> bool): (r: seq<T>)
    ensures |r| <= |xs|
    ensures forall i :: 0 <= i < |r| ==> !drop(r[i])
    ensures forall x :: x in r <==> x in xs && !drop(x)
    decreases |xs|
  {
    if |xs| == 0 then []
    else
      (if drop(xs[0]) then [] else [xs[0]]) + RemoveIf(xs[1..], drop)
  }

  /** The sweep works element by element: it commutes with concatenation, so
      the survivors keep their original relative order. */
  lemma {:induction false} RemoveIfAppend<T(!new)>(a: seq<T>, b: seq<T>, drop: T -> bool)
    ensures RemoveIf(a + b, drop) == RemoveIf(a, drop) + RemoveIf(b, drop)
    decreases |a|
  {
    if |a| == 0 {
      assert a + b == b;
    } else {
      assert (a + b)[1..] == a[1..] + b;
      RemoveIfAppend(a[1..], b, drop);
    }
  }

  /** The sweep keeps every copy of each surviving element: as a multiset,
      the result is the input with the matching elements taken out. */
  lemma {:induction false} RemoveIfCount<T(!new)>(xs: seq<T>, drop: T -> bool, x: T)
    ensures multiset(RemoveIf(xs, drop))[x] == if drop(x) then 0 else multiset(xs)[x]
    decreases |xs|
  {
    if |xs| > 0 {
      RemoveIfCount(xs[1..], drop, x);
      assert xs == [xs[0]] + xs[1..];
    }
  }

  /** A queue in which nothing satisfies `drop` is left exactly as it is. */
  lemma {:induction false} RemoveIfNone<T(!new)>(xs: seq<T>, drop: T -> bool)
    requires forall i :: 0 <= i < |xs| ==> !drop(xs[i])
    ensures RemoveIf(xs, drop) == xs
    decreases |xs|
  {
    if |xs| > 0 {
      RemoveIfNone(xs[1..], drop);
      assert [xs[0]] + xs[1..] == xs;
    }
  }

  /** `removeIf` returns true, i.e. the queue shrank, exactly when some
      element satisfied `drop`. */
  lemma {:induction false} RemoveIfShrinks<T(!new)>(xs: seq<T>, drop: T -> bool)
    ensures |RemoveIf(xs, drop)| < |xs| <==> exists i :: 0 <= i < |xs| && drop(xs[i])
    decreases |xs|
  {
    if |xs| > 0 {
      RemoveIfShrinks(xs[1..], drop);
      if !drop(xs[0]) {
        if exists i :: 0 <= i < |xs| && drop(xs[i]) {
          var i :| 0 <= i < |xs| && drop(xs[i]);
          assert drop(xs[1..][i - 1]);
        }
      } else {
        assert drop(xs[0]);
      }
    }
  }

  /** A second sweep with the same predicate removes nothing. */
  lemma RemoveIfIdempotent<T(!new)>(xs: seq<T>, drop: T -> bool)
    ensures RemoveIf(RemoveIf(xs, drop), drop) == RemoveIf(xs, drop)
  {
    RemoveIfNone(RemoveIf(xs, drop), drop);
  }
}
