/** The one query operation the views and the cascading deletes rely on:
    narrowing a collection of rows to those that satisfy a predicate, keeping
    their natural order (a QuerySet `filter`, or the rows that survive a
    `DELETE ... WHERE`). */
module Query {

  /** The rows of `xs` for which `keep` holds, in their original order. */
  function Narrow<T(!new)>(xs: seq<T>, keep: T -> bool): (r: seq<T>)
    ensures |r| <= |xs|
    ensures forall x :: x in r <==> x in xs && keep(x)
  {
    if xs == [] then []
    else if keep(xs[0]) then [xs[0]] + Narrow(xs[1..], keep)
    else Narrow(xs[1..], keep)
  }

  /** Narrowing twice is narrowing once by the conjunction: a chain of
      filters is the filter of the conjoined predicates. */
  lemma {:induction false} NarrowTwice<T(!new)>(xs: seq<T>, first: T -> bool, second: T -> bool, both: T -> bool)
    requires forall x :: both(x) == (first(x) && second(x))
    ensures Narrow(Narrow(xs, first), second) == Narrow(xs, both)
  {
    if xs != [] {
      NarrowTwice(xs[1..], first, second, both);
      if first(xs[0]) {
        assert Narrow(xs, first) == [xs[0]] + Narrow(xs[1..], first);
        assert Narrow(xs, first)[1..] == Narrow(xs[1..], first);
      }
    }
  }

  /** A predicate that every row satisfies leaves the collection as it is. */
  lemma {:induction false} NarrowKeepsAll<T(!new)>(xs: seq<T>, keep: T -> bool)
    requires forall x :: x in xs ==> keep(x)
    ensures Narrow(xs, keep) == xs
  {
    if xs != [] {
      assert forall x :: x in xs[1..] ==> x in xs;
      NarrowKeepsAll(xs[1..], keep);
    }
  }

  /** Narrowing depends only on the values of the predicate, not on how it
      is written. */
  lemma {:induction false} NarrowSameKeep<T(!new)>(xs: seq<T>, keep: T -> bool, keep': T -> bool)
    requires forall x :: keep(x) == keep'(x)
    ensures Narrow(xs, keep) == Narrow(xs, keep')
  {
    if xs != [] {
      NarrowSameKeep(xs[1..], keep, keep');
    }
  }

  /** Narrowing is idempotent. */
  lemma {:induction false} NarrowIdempotent<T(!new)>(xs: seq<T>, keep: T -> bool)
    ensures Narrow(Narrow(xs, keep), keep) == Narrow(xs, keep)
  {
    NarrowTwice(xs, keep, keep, keep);
  }
}
