/** Small facts about sequences used by the talk store and the waiter list. */
module Seqs {

  predicate Distinct<T(==)>(xs: seq<T>) {
    forall i, j :: 0 <= i < j < |xs| ==> xs[i] != xs[j]
  }

  /** `xs.filter(y => y !== x)`: every occurrence of `x` dropped, the rest kept in order. */
  function Remove<T(==, !new)>(xs: seq<T>, x: T): (r: seq<T>)
    ensures forall y :: y in r <==> y in xs && y != x
    ensures Distinct(xs) ==> Distinct(r)
    ensures x !in xs ==> r == xs
    ensures multiset(r) == multiset(xs)[x := 0]
  {
    if xs == [] then []
    else if xs[0] == x then
      assert xs == [x] + xs[1..];
      Remove(xs[1..], x)
    else
      var rest := Remove(xs[1..], x);
      assert xs == [xs[0]] + xs[1..];
      if Distinct(xs) then
        DistinctTail(xs);
        [xs[0]] + rest
      else
        [xs[0]] + rest
  }

  /**
   * Filtering works piece by piece, keeping each kept element where it was: on a one-element
   * sequence it keeps or drops that element, and on a concatenation it filters each part.
   */
  lemma {:induction false} RemoveKeepsOrder<T(!new)>(a: seq<T>, b: seq<T>, x: T)
    ensures Remove(a + b, x) == Remove(a, x) + Remove(b, x)
    ensures |a| == 1 ==> Remove(a, x) == (if a[0] == x then [] else a)
    decreases |a|
  {
    if a == [] {
      assert a + b == b;
    } else {
      var ab := a + b;
      assert ab != [] && ab[0] == a[0];
      assert ab[1..] == a[1..] + b;
      RemoveKeepsOrder(a[1..], b, x);
      var rest := Remove(a[1..], x);
      if a[0] == x {
        assert Remove(ab, x) == Remove(a[1..] + b, x);
        assert Remove(a, x) == rest;
      } else {
        assert Remove(ab, x) == [a[0]] + Remove(a[1..] + b, x);
        assert Remove(a, x) == [a[0]] + rest;
        ConsAppend(a[0], rest, Remove(b, x));
      }
    }
  }

  /** Putting an element in front of a concatenation puts it in front of the first part. */
  lemma ConsAppend<T>(h: T, p: seq<T>, q: seq<T>)
    ensures [h] + (p + q) == ([h] + p) + q
  {
  }

  /** Dropping the head of a duplicate-free sequence keeps it duplicate-free and loses the head. */
  lemma DistinctTail<T>(xs: seq<T>)
    requires xs != [] && Distinct(xs)
    ensures Distinct(xs[1..]) && xs[0] !in xs[1..]
  {
  }

  /** Appending a new element keeps a sequence duplicate-free. */
  lemma DistinctAppend<T>(xs: seq<T>, x: T)
    requires Distinct(xs) && x !in xs
    ensures Distinct(xs + [x])
  {
  }

  /** A duplicate-free sequence has as many elements as the set of its elements. */
  lemma {:induction false} DistinctCardinality<T>(xs: seq<T>)
    requires Distinct(xs)
    ensures |set x | x in xs| == |xs|
  {
    if xs != [] {
      var tail := xs[1..];
      DistinctTail(xs);
      DistinctCardinality(tail);
      assert (set x | x in xs) == {xs[0]} + (set x | x in tail);
      assert xs[0] !in (set x | x in tail);
    }
  }
}
