/**
 How often the wheel of Pool.Pick stops at each candidate while the candidate list stays the same:
 in proportion to weight over every window of consecutive cursor values, wherever the window starts.
 Turns counts along a cursor that does not wrap, WrappedTurns along the 64-bit one.
 */
module Fairness {
  import opened Tables
  import opened Pool
  import opened Words

  /** How many of the m cursor values after `cursor` choose candidate i. */
  function Turns(cands: seq<Upstream>, i: nat, cursor: nat, m: nat): nat
    requires cands != []
  {
    if m == 0 then 0
    else
      TotalPositive(cands);
      Turns(cands, i, cursor, m - 1) + (if Owner(cands, (cursor + m) % Total(cands)) == i then 1 else 0)
  }

  function Clamp(x: int, w: nat): nat {
    if x < 0 then 0 else if x > w then w else x
  }

  /** How many numbers below y have their residue in the slot range [p, p + w) of a wheel of size W. */
  function Passed(W: nat, p: nat, w: nat, y: nat): nat
    requires W > 0
  {
    y / W * w + Clamp(y % W - p, w)
  }

  lemma {:induction false} DivStep(W: nat, y: nat)
    requires W > 0
    ensures if y % W == W - 1 then (y + 1) / W == y / W + 1 && (y + 1) % W == 0
            else (y + 1) / W == y / W && (y + 1) % W == y % W + 1
  {
    var q, r := y / W, y % W;
    assert y == q * W + r;
    if r == W - 1 {
      assert y + 1 == (q + 1) * W;
      DivUnique(W, y + 1, q + 1, 0);
    } else {
      DivUnique(W, y + 1, q, r + 1);
    }
  }

  lemma {:induction false} DivUnique(W: nat, y: nat, q: nat, r: nat)
    requires W > 0 && y == q * W + r && r < W
    ensures y / W == q && y % W == r
  {
    var d := q - y / W;
    assert d * W + r == y % W;
    assert d * W == y % W - r;
    assert d >= 1 ==> d * W >= W;
    assert d <= -1 ==> d * W + W <= 0;
  }

  lemma {:induction false} PassedStep(W: nat, p: nat, w: nat, y: nat)
    requires W > 0 && p + w <= W
    ensures Passed(W, p, w, y + 1) == Passed(W, p, w, y) + (if p <= y % W < p + w then 1 else 0)
  {
    DivStep(W, y);
    if y % W == W - 1 {
      assert (y / W + 1) * w == y / W * w + w;
    }
  }

  lemma {:induction false} TurnsArePassed(cands: seq<Upstream>, i: nat, cursor: nat, m: nat)
    requires i < |cands|
    ensures var W, p, w := Total(cands), Total(cands[..i]), WeightOf(cands[i]);
      W > 0 && p + w <= W &&
      Turns(cands, i, cursor, m) == Passed(W, p, w, cursor + m + 1) - Passed(W, p, w, cursor + 1)
  {
    var W, p, w := Total(cands), Total(cands[..i]), WeightOf(cands[i]);
    TotalPositive(cands);
    TotalPrefixes(cands, i, |cands|);
    assert cands[..|cands|] == cands;
    if m > 0 {
      TurnsArePassed(cands, i, cursor, m - 1);
      PassedStep(W, p, w, cursor + m);
      OwnerIff(cands, (cursor + m) % W, i);
    }
  }

  lemma {:induction false} PassedPeriod(W: nat, p: nat, w: nat, y: nat, q: nat)
    requires W > 0
    ensures Passed(W, p, w, y + q * W) == Passed(W, p, w, y) + q * w
  {
    var z := y + q * W;
    assert z == (y / W + q) * W + y % W;
    DivUnique(W, z, y / W + q, y % W);
    assert (y / W + q) * w == y / W * w + q * w;
  }

  lemma {:induction false} PassedMonotone(W: nat, p: nat, w: nat, y: nat, d: nat)
    requires W > 0 && p + w <= W
    ensures Passed(W, p, w, y) <= Passed(W, p, w, y + d)
  {
    if d > 0 {
      PassedMonotone(W, p, w, y, d - 1);
      PassedStep(W, p, w, y + d - 1);
    }
  }

  lemma {:induction false} PassedAtLeast(W: nat, p: nat, w: nat, y: nat, m: nat)
    requires W > 0 && p + w <= W
    ensures Passed(W, p, w, y + m) - Passed(W, p, w, y) >= m / W * w
  {
    var q := m / W;
    assert q * W <= m;
    PassedPeriod(W, p, w, y, q);
    PassedMonotone(W, p, w, y + q * W, m - q * W);
    assert y + q * W + (m - q * W) == y + m;
  }

  lemma {:induction false} PassedAtMost(W: nat, p: nat, w: nat, y: nat, m: nat)
    requires W > 0 && p + w <= W
    ensures Passed(W, p, w, y + m) - Passed(W, p, w, y) <= (m + W - 1) / W * w
  {
    var q := (m + W - 1) / W;
    assert q * W >= m;
    PassedPeriod(W, p, w, y, q);
    PassedMonotone(W, p, w, y + m, q * W - m);
    assert y + m + (q * W - m) == y + q * W;
  }

  /**
   Weighted fairness: with total weight W, m consecutive picks give a candidate of weight w at least
   floor(m / W) * w and at most ceil(m / W) * w turns.
   */
  lemma {:induction false} TurnsAreProportional(cands: seq<Upstream>, i: nat, cursor: nat, m: nat)
    requires i < |cands|
    ensures var W, w := Total(cands), WeightOf(cands[i]);
      W > 0 && m / W * w <= Turns(cands, i, cursor, m) <= (m + W - 1) / W * w
  {
    var W, p, w := Total(cands), Total(cands[..i]), WeightOf(cands[i]);
    TurnsArePassed(cands, i, cursor, m);
    PassedAtLeast(W, p, w, cursor + 1, m);
    PassedAtMost(W, p, w, cursor + 1, m);
  }

  /** Over k full turns of the wheel the shares are exact. */
  lemma {:induction false} FullTurnsAreExact(cands: seq<Upstream>, i: nat, cursor: nat, k: nat)
    requires i < |cands|
    ensures Turns(cands, i, cursor, k * Total(cands)) == k * WeightOf(cands[i])
  {
    var W, p, w := Total(cands), Total(cands[..i]), WeightOf(cands[i]);
    TurnsArePassed(cands, i, cursor, k * W);
    PassedPeriod(W, p, w, cursor + 1, k);
    assert cursor + k * W + 1 == cursor + 1 + k * W;
  }

  // ---------------------------------------------------------------- the 64-bit cursor

  /** The slot the wrapping cursor stands on after x increments from 0. */
  function WrappedSlot(cands: seq<Upstream>, x: nat): nat
    requires cands != []
  {
    TotalPositive(cands);
    x % TWO_64 % Total(cands)
  }

  /** How many of the m picks after the first `cursor` choose candidate i, as the 64-bit cursor counts. */
  function WrappedTurns(cands: seq<Upstream>, i: nat, cursor: nat, m: nat): nat
    requires cands != []
  {
    if m == 0 then 0
    else WrappedTurns(cands, i, cursor, m - 1) + (if Owner(cands, WrappedSlot(cands, cursor + m)) == i then 1 else 0)
  }

  /** Moving a window one pick on trades its first pick for the one after its last. */
  lemma {:induction false} SlideWindow(cands: seq<Upstream>, i: nat, cursor: nat, m: nat)
    requires cands != []
    ensures WrappedTurns(cands, i, cursor + 1, m) + (if Owner(cands, WrappedSlot(cands, cursor + 1)) == i then 1 else 0)
         == WrappedTurns(cands, i, cursor, m) + (if Owner(cands, WrappedSlot(cands, cursor + 1 + m)) == i then 1 else 0)
  {
    hide Owner, WrappedSlot;
    if m > 0 {
      SlideWindow(cands, i, cursor, m - 1);
      assert cursor + 1 + (m - 1) == cursor + m && cursor + 1 + m == (cursor + 1) + m;
    }
  }

  lemma Regroup(k: nat, q: nat, j: nat, W: nat, z: nat)
    ensures k * (q * W) + (j * W + z) == (k * q + j) * W + z
  {
    assert k * (q * W) == (k * q) * W;
    assert (k * q + j) * W == (k * q) * W + j * W;
  }

  /** Whole turns do not move the slot. */
  lemma ModOfMod(k: nat, q: nat, y: nat, W: nat)
    requires W > 0
    ensures (k * (q * W) + y) % W == y % W
  {
    var j, z := y / W, y % W;
    assert y == j * W + z;
    Regroup(k, q, j, W, z);
    Residue(W, k * (q * W) + y, k * q + j, z);
  }

  lemma Residue(W: nat, y: nat, q: nat, r: nat)
    requires W > 0 && y == q * W + r && r < W
    ensures y % W == r
  {
    DivUnique(W, y, q, r);
  }

  lemma SlotIgnoresWrap(x: nat, W: nat)
    requires W > 0 && TWO_64 % W == 0
    ensures x % TWO_64 % W == x % W
  {
    var q := TWO_64 / W;
    assert q * W == TWO_64;
    ModOfMod(x / TWO_64, q, x % TWO_64, W);
  }

  /** The picks up to cursor + m meet no wrap, or a wheel that does not notice one. */
  predicate Smooth(cands: seq<Upstream>, cursor: nat, m: nat)
    requires cands != []
  {
    cursor + m < TWO_64 || |cands| == 1 || (TotalPositive(cands); TWO_64 % Total(cands) == 0)
  }

  lemma SmoothSlot(cands: seq<Upstream>, cursor: nat, m: nat)
    requires cands != [] && Smooth(cands, cursor, m)
    ensures Total(cands) > 0
    ensures Owner(cands, WrappedSlot(cands, cursor + m)) == Owner(cands, (cursor + m) % Total(cands))
  {
    TotalPositive(cands);
    if cursor + m < TWO_64 {
      SmallMod(cursor + m, 0);
    } else if |cands| > 1 {
      SlotIgnoresWrap(cursor + m, Total(cands));
    }
  }

  lemma {:induction false} NoticesNoWrap(cands: seq<Upstream>, i: nat, cursor: nat, m: nat)
    requires cands != [] && Smooth(cands, cursor, m)
    ensures WrappedTurns(cands, i, cursor, m) == Turns(cands, i, cursor, m)
  {
    TotalPositive(cands);
    if m > 0 {
      NoticesNoWrap(cands, i, cursor, m - 1);
      SmoothSlot(cands, cursor, m);
    }
  }

  /**
   Weighted fairness of the 64-bit cursor: m consecutive picks give a candidate of weight w, of total weight W,
   between floor(m / W) * w and ceil(m / W) * w turns, and k * W picks exactly k * w - unless the window wraps
   and the wheel notices it (ExactAcrossWrapIff).
   */
  lemma {:induction false} CursorIsFair(cands: seq<Upstream>, i: nat, cursor: nat, m: nat)
    requires i < |cands| && Smooth(cands, cursor, m)
    ensures var W, w := Total(cands), WeightOf(cands[i]);
      W > 0 && m / W * w <= WrappedTurns(cands, i, cursor, m) <= (m + W - 1) / W * w &&
      forall k: nat :: m == k * W ==> WrappedTurns(cands, i, cursor, m) == k * w
  {
    NoticesNoWrap(cands, i, cursor, m);
    TurnsAreProportional(cands, i, cursor, m);
    forall k: nat | m == k * Total(cands) ensures Turns(cands, i, cursor, m) == k * WeightOf(cands[i]) {
      FullTurnsAreExact(cands, i, cursor, k);
    }
  }

  lemma FirstSlots(cands: seq<Upstream>, n: nat)
    requires |cands| > 1 && n < Total(cands)
    ensures WeightOf(cands[0]) < Total(cands)
    ensures Owner(cands, n) == 0 <==> n < WeightOf(cands[0])
  {
    OwnerIff(cands, n, 0);
    TotalPrefixes(cands, 1, 2);
    TotalPrefixes(cands, 2, |cands|);
    assert cands[..0] == [] && cands[..1][..0] == [] && cands[..|cands|] == cands;
    assert Total(cands[..1]) == WeightOf(cands[0]);
  }

  /** Where the wrap shows: slot s comes again where slot s + r should follow, and b lies between them. */
  lemma Seam(W: nat, b: nat, r: nat) returns (s: nat, x: nat)
    requires 0 < b < W <= TWO_64 && r == TWO_64 % W && r > 0
    ensures s < b <= s + r < W && x > 0
    ensures x % TWO_64 % W == s + r && (x + W) % TWO_64 % W == s
  {
    s := if r >= b then 0 else b - r;
    x := TWO_64 - W + s;
    LastTurn(W, r, s);
    SmallMod(x, s);
    Residue(W, s, 0, s);
  }

  lemma LastTurn(W: nat, r: nat, s: nat)
    requires 0 < W <= TWO_64 && r == TWO_64 % W && s + r < W
    ensures (TWO_64 - W + s) % W == s + r
  {
    var q := TWO_64 / W;
    assert TWO_64 == q * W + r;
    assert q == 0 ==> q * W == 0;
    assert (q - 1) * W == q * W - W;
    Residue(W, TWO_64 - W + s, q - 1, s + r);
  }

  /** A place on the wheel where one full turn and the next differ for the first candidate. */
  lemma SeamShows(cands: seq<Upstream>) returns (x: nat)
    requires |cands| > 1 && Total(cands) <= TWO_64 && TWO_64 % Total(cands) != 0
    ensures x > 0 && Owner(cands, WrappedSlot(cands, x)) != 0 && Owner(cands, WrappedSlot(cands, x + Total(cands))) == 0
  {
    TotalPositive(cands);
    FirstSlots(cands, 0);
    var s;
    s, x := Seam(Total(cands), WeightOf(cands[0]), TWO_64 % Total(cands));
    FirstSlots(cands, s + TWO_64 % Total(cands));
    FirstSlots(cands, s);
  }

  lemma SmallMod(x: nat, s: nat)
    requires x < TWO_64 && s < TWO_64
    ensures x % TWO_64 == x && (TWO_64 + s) % TWO_64 == s
  {
  }

  /** Every full turn, wherever it starts, gives every candidate exactly its weight. */
  ghost predicate AlwaysExact(cands: seq<Upstream>)
    requires cands != []
  {
    forall i: nat, cursor: nat :: i < |cands| ==> WrappedTurns(cands, i, cursor, Total(cands)) == WeightOf(cands[i])
  }

  /**
   The cursor wraps at 2^64. Full turns of the wheel stay exact across every wrap if and only if there is
   only one candidate or the total weight divides 2^64. A total that Go's int holds is below 2^64.
   */
  lemma ExactAcrossWrapIff(cands: seq<Upstream>)
    requires cands != [] && Total(cands) <= MAX_INT64
    ensures AlwaysExact(cands) <==> |cands| == 1 || TWO_64 % Total(cands) == 0
  {
    var W := Total(cands);
    if |cands| == 1 || TWO_64 % W == 0 {
      forall i: nat, cursor: nat | i < |cands| ensures WrappedTurns(cands, i, cursor, W) == WeightOf(cands[i]) {
        NoticesNoWrap(cands, i, cursor, W);
        FullTurnsAreExact(cands, i, cursor, 1);
        assert 1 * W == W;
      }
    } else {
      var x := SeamShows(cands);
      SlideWindow(cands, 0, x - 1, W);
      assert WrappedTurns(cands, 0, x, W) != WrappedTurns(cands, 0, x - 1, W);
    }
  }

  /** Three equal candidates, for instance, are not served in rotation across the wrap. */
  lemma WrapBreaksFairness(cands: seq<Upstream>)
    requires |cands| == 3 && forall u :: u in cands ==> u.weight == 1
    ensures !AlwaysExact(cands)
    ensures Choose(cands, TWO_64 - 1) == cands[0] == Choose(cands, Advance(TWO_64 - 1))
  {
    assert Total(cands[..1]) == 1 && Total(cands[..2]) == 2 && Total(cands) == 3 by {
      assert cands[..1][..0] == [] && cands[..2][..1] == cands[..1];
      assert cands[0] in cands && cands[1] in cands && cands[2] in cands;
    }
    assert cands[..0] == [];
    ExactAcrossWrapIff(cands);
    OwnerIff(cands, 0, 0);
    assert (TWO_64 - 1) % 3 == 0;
  }
}
