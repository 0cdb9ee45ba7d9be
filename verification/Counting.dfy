/** Sums and bags over the phases of a fixed set of threads, and how one thread's step changes them. */
module Counting {

  function Sum<T>(xs: seq<T>, w: T -> int): int {
    if xs == [] then 0 else w(xs[0]) + Sum(xs[1..], w)
  }

  lemma {:induction false} SumUpdate<T>(xs: seq<T>, i: nat, x: T, w: T -> int)
    requires i < |xs|
    ensures Sum(xs[i := x], w) == Sum(xs, w) - w(xs[i]) + w(x)
  {
    if i == 0 {
      assert xs[i := x][1..] == xs[1..];
    } else {
      assert xs[i := x][1..] == xs[1..][i - 1 := x];
      SumUpdate(xs[1..], i - 1, x, w);
    }
  }

  lemma {:induction false} SumZero<T>(xs: seq<T>, w: T -> int)
    requires forall x :: x in xs ==> w(x) == 0
    ensures Sum(xs, w) == 0
  {
    if xs != [] {
      assert xs[0] in xs;
      SumZero(xs[1..], w);
    }
  }

  /** With weights of 0 or 1 the sum counts threads; one thread off the count leaves it below the number of threads. */
  lemma {:induction false} SumBounds<T>(xs: seq<T>, w: T -> int)
    requires forall x :: x in xs ==> 0 <= w(x) <= 1
    ensures 0 <= Sum(xs, w) <= |xs|
    ensures forall x :: x in xs && w(x) == 0 ==> Sum(xs, w) < |xs|
    ensures forall x :: x in xs ==> Sum(xs, w) >= w(x)
  {
    if xs != [] {
      assert xs[0] in xs;
      SumBounds(xs[1..], w);
      assert forall x :: x in xs ==> x == xs[0] || x in xs[1..];
    }
  }

  lemma {:induction false} SumAdd<T>(xs: seq<T>, v: T -> int, w: T -> int, both: T -> int)
    requires forall x :: x in xs ==> both(x) == v(x) + w(x)
    ensures Sum(xs, both) == Sum(xs, v) + Sum(xs, w)
  {
    if xs != [] {
      assert xs[0] in xs;
      SumAdd(xs[1..], v, w, both);
    }
  }

  lemma {:induction false} SumSame<T>(xs: seq<T>, v: T -> int, w: T -> int)
    requires forall x :: x in xs ==> v(x) == w(x)
    ensures Sum(xs, v) == Sum(xs, w)
  {
    if xs != [] {
      assert xs[0] in xs;
      SumSame(xs[1..], v, w);
    }
  }

  ghost function Bag<T, E>(xs: seq<T>, w: T -> multiset<E>): multiset<E> {
    if xs == [] then multiset{} else w(xs[0]) + Bag(xs[1..], w)
  }

  lemma {:induction false} BagUpdate<T, E>(xs: seq<T>, i: nat, x: T, w: T -> multiset<E>)
    requires i < |xs|
    ensures Bag(xs[i := x], w) + w(xs[i]) == Bag(xs, w) + w(x)
  {
    if i == 0 {
      assert xs[i := x][1..] == xs[1..];
    } else {
      var rest := xs[1..];
      assert xs[i := x][1..] == rest[i - 1 := x];
      BagUpdate(rest, i - 1, x, w);
      calc {
        Bag(xs[i := x], w) + w(xs[i]);
        w(xs[0]) + (Bag(rest[i - 1 := x], w) + w(rest[i - 1]));
        w(xs[0]) + (Bag(rest, w) + w(x));
        Bag(xs, w) + w(x);
      }
    }
  }

  lemma {:induction false} BagEmpty<T, E>(xs: seq<T>, w: T -> multiset<E>)
    requires forall x :: x in xs ==> w(x) == multiset{}
    ensures Bag(xs, w) == multiset{}
  {
    if xs != [] {
      assert xs[0] in xs;
      BagEmpty(xs[1..], w);
    }
  }

  lemma {:induction false} BagContains<T, E>(xs: seq<T>, i: nat, w: T -> multiset<E>)
    requires i < |xs|
    ensures w(xs[i]) <= Bag(xs, w)
  {
    if i > 0 {
      BagContains(xs[1..], i - 1, w);
    }
  }

  /** The size of a bag is the sum of its parts. */
  lemma {:induction false} BagSize<T, E>(xs: seq<T>, w: T -> multiset<E>, size: T -> int)
    requires forall x :: x in xs ==> |w(x)| == size(x)
    ensures |Bag(xs, w)| == Sum(xs, size)
  {
    if xs != [] {
      assert xs[0] in xs;
      BagSize(xs[1..], w, size);
    }
  }
}
