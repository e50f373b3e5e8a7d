/** Sums over sequences and subsequences: the sequence theory several modules share. */
module Seqs {
  /** The elements at the positions `at` of another sequence, in its order. */
  ghost predicate TakenFrom<T>(some: seq<T>, all: seq<T>, at: seq<nat>) {
    |at| == |some| && (forall i :: 0 <= i < |at| ==> at[i] < |all| && some[i] == all[at[i]]) &&
    forall i, j :: 0 <= i < j < |at| ==> at[i] < at[j]
  }

  /** The sum of f over xs. Recursion is on the last element, the way logs and ledgers grow. */
  ghost function SumBy<T(!new)>(xs: seq<T>, f: T -> int): int {
    if xs == [] then 0 else SumBy(xs[..|xs| - 1], f) + f(xs[|xs| - 1])
  }

  lemma SumByAppend<T(!new)>(xs: seq<T>, x: T, f: T -> int)
    ensures SumBy(xs + [x], f) == SumBy(xs, f) + f(x)
  {
    assert (xs + [x])[..|xs|] == xs;
  }

  /** Replacing one element moves the sum by the difference of the two elements. */
  lemma {:induction false} SumByUpdate<T(!new)>(xs: seq<T>, k: nat, x: T, f: T -> int)
    requires k < |xs|
    ensures SumBy(xs[k := x], f) == SumBy(xs, f) - f(xs[k]) + f(x)
  {
    var n := |xs| - 1;
    if k == n {
      assert xs[k := x][..n] == xs[..n];
    } else {
      SumByUpdate(xs[..n], k, x, f);
      assert xs[k := x][..n] == xs[..n][k := x];
    }
  }

  lemma {:induction false} SumByLower<T(!new)>(xs: seq<T>, f: T -> int, low: int)
    requires forall x :: f(x) >= low
    ensures SumBy(xs, f) >= low * |xs|
  {
    if xs != [] {
      SumByLower(xs[..|xs| - 1], f, low);
    }
  }
}
