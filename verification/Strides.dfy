/**
 Shares of a user of the pool that does not take every cursor value. When other traffic takes a fixed number
 of picks between any two of its own, it sees every d-th value of the shared cursor, and whether the weights
 still mean anything to it depends on what d and the total weight have in common.
 */
module Strides {
  import opened Tables
  import opened Pool
  import opened Fairness

  /** How many of the picks at cursor + d, cursor + 2 * d, .., cursor + m * d choose candidate i. */
  function StrideTurns(cands: seq<Upstream>, i: nat, cursor: nat, d: nat, m: nat): nat
    requires cands != []
  {
    if m == 0 then 0
    else
      TotalPositive(cands);
      StrideTurns(cands, i, cursor, d, m - 1) +
      (if Owner(cands, (cursor + m * d) % Total(cands)) == i then 1 else 0)
  }

  // ---------------------------------------------------------------- sums along a stride

  /** The sum of h at c + d, c + 2 * d, .., c + m * d. */
  function Sum(h: nat -> nat, c: nat, d: nat, m: nat): nat {
    if m == 0 then 0 else Sum(h, c, d, m - 1) + h(c + m * d)
  }

  ghost predicate Periodic(h: nat -> nat, W: nat) {
    forall n: nat :: h(n + W) == h(n)
  }

  lemma {:induction false} ManyPeriods(h: nat -> nat, W: nat, n: nat, k: nat)
    requires Periodic(h, W)
    ensures h(n + k * W) == h(n)
  {
    if k > 0 {
      ManyPeriods(h, W, n, k - 1);
      assert n + k * W == (n + (k - 1) * W) + W;
    } else {
      assert k * W == 0;
    }
  }

  lemma {:induction false} SumIsPeriodic(h: nat -> nat, W: nat, c: nat, k: nat, d: nat, m: nat)
    requires Periodic(h, W)
    ensures Sum(h, c + k * W, d, m) == Sum(h, c, d, m)
  {
    if m > 0 {
      SumIsPeriodic(h, W, c, k, d, m - 1);
      ManyPeriods(h, W, c + m * d, k);
      assert c + k * W + m * d == (c + m * d) + k * W;
    }
  }

  /** One stride on, a window trades its first value for the one after its last. */
  lemma {:induction false} SlideSum(h: nat -> nat, c: nat, d: nat, m: nat)
    ensures Sum(h, c + d, d, m) + h(c + d) == Sum(h, c, d, m) + h(c + d + m * d)
  {
    if m > 0 {
      SlideSum(h, c, d, m - 1);
      assert c + d + (m - 1) * d == c + m * d;
    } else {
      assert m * d == 0;
    }
  }

  lemma OneStrideStays(h: nat -> nat, W: nat, c: nat, d: nat, m: nat, l: nat)
    requires Periodic(h, W) && m * d == l * W
    ensures Sum(h, c + d, d, m) == Sum(h, c, d, m)
  {
    SlideSum(h, c, d, m);
    ManyPeriods(h, W, c + d, l);
  }

  lemma OneMore(k: nat, d: nat)
    requires k > 0
    ensures k * d == (k - 1) * d + d
  {
  }

  /** A window of whole turns does not notice being moved along its stride. */
  lemma {:induction false} WholeTurnsStay(h: nat -> nat, W: nat, c: nat, d: nat, m: nat, l: nat, k: nat)
    requires Periodic(h, W) && m * d == l * W
    ensures Sum(h, c + k * d, d, m) == Sum(h, c, d, m)
  {
    hide Sum, Periodic;
    if k > 0 {
      WholeTurnsStay(h, W, c, d, m, l, k - 1);
      OneMore(k, d);
      OneStrideStays(h, W, c + (k - 1) * d, d, m, l);
    } else {
      assert k * d == 0;
    }
  }

  // ---------------------------------------------------------------- averaging over starts

  /** The windows of stride d from c + e, c + 2 * e, .., c + n * e, added up. */
  function SumOfSums(h: nat -> nat, c: nat, e: nat, n: nat, d: nat, m: nat): nat {
    if n == 0 then 0 else SumOfSums(h, c, e, n - 1, d, m) + Sum(h, c + n * e, d, m)
  }

  lemma {:induction false} PeelLast(h: nat -> nat, c: nat, e: nat, n: nat, d: nat, m: nat)
    requires m > 0
    ensures SumOfSums(h, c, e, n, d, m) == SumOfSums(h, c, e, n, d, m - 1) + Sum(h, c + m * d, e, n)
  {
    if n > 0 {
      PeelLast(h, c, e, n - 1, d, m);
      assert c + n * e + m * d == c + m * d + n * e;
    }
  }

  lemma {:induction false} NoPicks(h: nat -> nat, c: nat, e: nat, n: nat, d: nat)
    ensures SumOfSums(h, c, e, n, d, 0) == 0
  {
    if n > 0 {
      NoPicks(h, c, e, n - 1, d);
    }
  }

  /** If e divides the stride and the period, each of the m picks sees the class of c modulo e once over all starts. */
  lemma {:induction false} Average(h: nat -> nat, W: nat, c: nat, e: nat, n: nat, q: nat, m: nat)
    requires Periodic(h, W) && n * e == W
    ensures SumOfSums(h, c, e, n, q * e, m) == m * Sum(h, c, e, n)
  {
    hide Sum, SumOfSums, Periodic;
    if m == 0 {
      NoPicks(h, c, e, n, q * e);
      assert m * Sum(h, c, e, n) == 0;
    } else {
      Average(h, W, c, e, n, q, m - 1);
      PeelLast(h, c, e, n, q * e, m);
      MulAssoc(m, q, e);
      assert 1 * W == W;
      WholeTurnsStay(h, W, c, e, n, 1, m * q);
      OneMore(m, Sum(h, c, e, n));
    }
  }

  lemma {:induction false} SameEverywhere(h: nat -> nat, c: nat, e: nat, n: nat, d: nat, m: nat, f: nat)
    requires forall t: nat :: Sum(h, c + t * e, d, m) == f
    ensures SumOfSums(h, c, e, n, d, m) == n * f
  {
    if n > 0 {
      SameEverywhere(h, c, e, n - 1, d, m, f);
      assert n * f == (n - 1) * f + f;
    }
  }

  /** So if all starts give the same f, f is e times what one walk through the class gives. */
  lemma {:induction false} SameMeansMultiple(h: nat -> nat, W: nat, c: nat, e: nat, n: nat, q: nat, f: nat)
    requires Periodic(h, W) && n * e == W && n > 0
    requires forall t: nat :: Sum(h, c + t * e, q * e, W) == f
    ensures f == e * Sum(h, c, e, n)
  {
    var N := Sum(h, c, e, n);
    SameEverywhere(h, c, e, n, q * e, W, f);
    Average(h, W, c, e, n, q, W);
    assert n * f == n * (e * N) by {
      assert W * N == n * (e * N) by {
        MulAssoc(n, e, N);
      }
    }
    Cancel(n, f, e * N);
  }

  lemma MulAssoc(a: nat, b: nat, c: nat)
    ensures (a * b) * c == a * (b * c)
  {
  }

  lemma Cancel(n: nat, a: int, b: int)
    requires n > 0 && n * a == n * b
    ensures a == b
  {
    assert n * (a - b) == 0 == n * (b - a);
    if a > b {
      Positive(n, a - b);
    } else if a < b {
      Positive(n, b - a);
    }
  }

  lemma Positive(a: int, b: int)
    requires a > 0 && b > 0
    ensures a * b > 0
  {
  }

  // ---------------------------------------------------------------- common divisors

  predicate Divides(e: nat, n: nat) {
    e > 0 && n % e == 0
  }

  function Gcd(a: nat, b: nat): nat
    decreases b
  {
    if b == 0 then a else Gcd(b, a % b)
  }

  lemma MultipleDivides(g: nat, k: nat)
    requires g > 0
    ensures Divides(g, k * g)
  {
    DivUnique(g, k * g, k, 0);
  }

  lemma {:induction false} GcdDivides(a: nat, b: nat)
    requires a > 0
    ensures Divides(Gcd(a, b), a) && Divides(Gcd(a, b), b)
    decreases b
  {
    if b > 0 {
      GcdDivides(b, a % b);
      LinearDivides(Gcd(a, b), a / b, b, a % b);
      assert a == a / b * b + a % b;
    }
  }

  lemma LinearDivides(g: nat, q: nat, x: nat, y: nat)
    requires Divides(g, x) && Divides(g, y)
    ensures Divides(g, q * x + y)
  {
    var k, l := x / g, y / g;
    assert x == k * g && y == l * g;
    Regroup(q, k, l, g, 0);
    MultipleDivides(g, q * k + l);
  }

  /** The greatest common divisor as a combination of the two numbers. */
  lemma {:induction false} Combination(a: nat, b: nat) returns (x: int, y: int)
    ensures x * a + y * b == Gcd(a, b)
    decreases b
  {
    if b == 0 {
      x, y := 1, 0;
    } else {
      var x', y' := Combination(b, a % b);
      var q := a / b;
      assert a == q * b + a % b;
      x, y := y', x' - q * y';
      assert y' * (a - q * b) == y' * a - (q * y') * b by {
        assert y' * (q * b) == (q * y') * b;
      }
      assert (x' - q * y') * b == x' * b - (q * y') * b;
    }
  }

  lemma Rearrange(d: int, W: int, x: int, y: int, q: int)
    ensures (x + (1 - q) * W) * d == (x * d + y * W) + ((1 - q) * d - y) * W
  {
    assert ((1 - q) * W) * d == ((1 - q) * d) * W;
    assert (x + (1 - q) * W) * d == x * d + ((1 - q) * W) * d;
    assert ((1 - q) * d - y) * W == ((1 - q) * d) * W - y * W;
  }

  lemma AtLeast(a: int, b: int)
    requires a >= 0 && b >= 1
    ensures a * b >= a
  {
    assert a * (b - 1) >= 0;
  }

  lemma NotBehind(g: int, W: int, w: int)
    requires g <= W && W > 0 && g + w * W >= W
    ensures w >= 0
  {
    if w < 0 {
      Behind(w, W);
    }
  }

  lemma Behind(w: int, W: int)
    requires w < 0 && W > 0
    ensures w * W <= -W
  {
    AtLeast(W, -w);
    assert w * W == -(W * (-w));
  }

  lemma Above(x: int, W: nat)
    requires W > 0
    ensures x + (1 - x / W) * W == x % W + W
  {
    assert x == (x / W) * W + x % W;
    assert (1 - x / W) * W == W - (x / W) * W;
  }

  /** Some number of strides leads gcd(d, W) ahead, up to whole turns. */
  lemma StridesReach(d: nat, W: nat) returns (u: nat, v: nat)
    requires d > 0 && W > 0
    ensures u * d == Gcd(d, W) + v * W
  {
    hide Gcd;
    GcdDivides(d, W);
    AtMost(Gcd(d, W), W);
    hide Divides;
    var x, y := Combination(d, W);
    var w := (1 - x / W) * d - y;
    Above(x, W);
    Rearrange(d, W, x, y, x / W);
    u := x % W + W;
    AtLeast(u, d);
    NotBehind(Gcd(d, W), W, w);
    v := w;
  }

  lemma AtMost(g: nat, n: nat)
    requires Divides(g, n) && n > 0
    ensures g <= n
  {
  }

  // ---------------------------------------------------------------- the wheel

  /** 1 where the wheel stops at candidate i. */
  function HitOf(cands: seq<Upstream>, i: nat): nat -> nat
    requires cands != []
  {
    TotalPositive(cands);
    (n: nat) => if Owner(cands, n % Total(cands)) == i then 1 else 0
  }

  lemma HitsArePeriodic(cands: seq<Upstream>, i: nat)
    requires cands != []
    ensures Periodic(HitOf(cands, i), Total(cands))
  {
    TotalPositive(cands);
    forall n: nat ensures (n + Total(cands)) % Total(cands) == n % Total(cands) {
      OneTurn(n, Total(cands));
    }
  }

  lemma OneTurn(n: nat, W: nat)
    requires W > 0
    ensures (n + W) % W == n % W
  {
    DivUnique(W, n + W, n / W + 1, n % W);
  }

  lemma {:induction false} TurnsAreSums(cands: seq<Upstream>, i: nat, cursor: nat, d: nat, m: nat)
    requires cands != []
    ensures StrideTurns(cands, i, cursor, d, m) == Sum(HitOf(cands, i), cursor, d, m)
  {
    TotalPositive(cands);
    if m > 0 {
      TurnsAreSums(cands, i, cursor, d, m - 1);
    }
  }

  /** The same wheel in units of g. */
  function Scaled(cands: seq<Upstream>, g: nat): seq<Upstream>
    requires g > 0
  {
    seq(|cands|, k requires 0 <= k < |cands| => cands[k].(weight := WeightOf(cands[k]) / g))
  }

  ghost predicate AllDivide(cands: seq<Upstream>, g: nat) {
    forall k :: 0 <= k < |cands| ==> Divides(g, WeightOf(cands[k]))
  }

  lemma ScaledWeight(u: Upstream, g: nat)
    requires Divides(g, WeightOf(u))
    ensures WeightOf(u.(weight := WeightOf(u) / g)) * g == WeightOf(u)
  {
  }

  lemma Distribute(a: int, b: int, g: int)
    ensures (a + b) * g == a * g + b * g
  {
  }

  lemma {:induction false} ScaledTotal(cands: seq<Upstream>, g: nat)
    requires g > 0 && AllDivide(cands, g)
    ensures Total(Scaled(cands, g)) * g == Total(cands)
  {
    hide Divides, WeightOf;
    if cands != [] {
      var n := |cands| - 1;
      var before := cands[..n];
      assert forall k :: 0 <= k < n ==> before[k] == cands[k];
      ScaledTotal(before, g);
      assert Scaled(cands, g)[..n] == Scaled(before, g);
      ScaledWeight(cands[n], g);
      Distribute(Total(Scaled(before, g)), WeightOf(Scaled(cands, g)[n]), g);
    }
  }

  /** A slot belongs to the owner of the unit it lies in. */
  lemma {:induction false} ScaledOwner(cands: seq<Upstream>, g: nat, n: nat)
    requires cands != [] && g > 0 && AllDivide(cands, g)
    ensures Owner(cands, n) == Owner(Scaled(cands, g), n / g)
  {
    var last := |cands| - 1;
    var before := cands[..last];
    assert forall k :: 0 <= k < last ==> before[k] == cands[k];
    assert Scaled(cands, g)[..last] == Scaled(before, g);
    if last > 0 {
      ScaledOwner(before, g, n);
      ScaledTotal(before, g);
      UnitBound(n, Total(Scaled(before, g)), g);
    }
  }

  lemma UnitBound(n: nat, t: nat, g: nat)
    requires g > 0
    ensures n >= t * g <==> n / g >= t
  {
    var q := n / g;
    assert n == q * g + n % g;
    if q >= t {
      assert q * g >= t * g;
    } else {
      assert (q + 1) * g <= t * g;
    }
  }

  /** Walking through a class modulo g is walking along the scaled wheel. */
  lemma {:induction false} ClassIsScaledWheel(cands: seq<Upstream>, i: nat, c: nat, g: nat, m: nat)
    requires cands != [] && g > 0 && AllDivide(cands, g)
    ensures Sum(HitOf(cands, i), c, g, m) == Turns(Scaled(cands, g), i, c / g, m)
  {
    TotalPositive(cands);
    TotalPositive(Scaled(cands, g));
    if m > 0 {
      ClassIsScaledWheel(cands, i, c, g, m - 1);
      ScaledTotal(cands, g);
      ScaledOwner(cands, g, (c + m * g) % Total(cands));
      SlotInUnits(c, m, g, Total(Scaled(cands, g)));
    }
  }

  lemma SlotInUnits(c: nat, m: nat, g: nat, T: nat)
    requires g > 0 && T > 0 && T * g > 0
    ensures (c + m * g) % (T * g) / g == (c / g + m) % T
  {
    var q, r := Split(c, g);
    var k, y := Split(q + m, T);
    UnitSlot(c, m, g, T, q, r, k, y);
    DivUnique(T * g, c + m * g, k, y * g + r);
    DivUnique(g, y * g + r, y, r);
  }

  lemma Split(n: nat, d: nat) returns (q: nat, r: nat)
    requires d > 0
    ensures q == n / d && r == n % d && n == q * d + r && r < d
  {
    q, r := n / d, n % d;
  }

  lemma UnitSlot(c: nat, m: nat, g: nat, T: nat, q: nat, r: nat, k: nat, y: nat)
    requires c == q * g + r && r < g && q + m == k * T + y && y < T
    ensures c + m * g == k * (T * g) + (y * g + r) && y * g + r < T * g
  {
    Distribute(q, m, g);
    Distribute(k * T, y, g);
    MulAssoc(k, T, g);
    Distribute(y, 1, g);
    Distribute(T - (y + 1), y + 1, g);
    assert (T - (y + 1)) * g >= 0;
  }

  // ---------------------------------------------------------------- exact shares

  /** W picks along the stride, from any start, give every candidate exactly its weight. */
  ghost predicate StrideExact(cands: seq<Upstream>, d: nat)
    requires cands != []
  {
    forall i: nat, cursor: nat ::
      i < |cands| ==> StrideTurns(cands, i, cursor, d, Total(cands)) == WeightOf(cands[i])
  }

  lemma Quotient(e: nat, n: nat) returns (q: nat)
    requires Divides(e, n)
    ensures q * e == n && (n > 0 ==> q > 0)
  {
    q := n / e;
    assert n == q * e + n % e;
  }

  /** If the starts c, c + e, c + 2 * e, .. all give f, then f is e times one walk through their class. */
  lemma ClassShare(cands: seq<Upstream>, i: nat, c: nat, d: nat, e: nat, f: nat) returns (n: nat)
    requires cands != [] && Divides(e, d) && Divides(e, Total(cands))
    requires forall t: nat :: Sum(HitOf(cands, i), c + t * e, d, Total(cands)) == f
    ensures n * e == Total(cands) && f == e * Sum(HitOf(cands, i), c, e, n)
  {
    TotalPositive(cands);
    HitsArePeriodic(cands, i);
    n := Quotient(e, Total(cands));
    var q := Quotient(e, d);
    hide HitOf, Sum, Periodic, Total, Divides;
    SameMeansMultiple(HitOf(cands, i), Total(cands), c, e, n, q, f);
  }

  lemma ExactMeansDivides(cands: seq<Upstream>, d: nat, e: nat)
    requires cands != [] && StrideExact(cands, d) && Divides(e, d) && Divides(e, Total(cands))
    ensures AllDivide(cands, e)
  {
    hide HitOf, Sum, Total, StrideTurns;
    forall i: nat | i < |cands| ensures Divides(e, WeightOf(cands[i])) {
      forall t: nat ensures Sum(HitOf(cands, i), 0 + t * e, d, Total(cands)) == WeightOf(cands[i]) {
        TurnsAreSums(cands, i, 0 + t * e, d, Total(cands));
      }
      var n := ClassShare(cands, i, 0, d, e, WeightOf(cands[i]));
      MultipleDivides(e, Sum(HitOf(cands, i), 0, e, n));
      Commute(e, Sum(HitOf(cands, i), 0, e, n));
    }
  }

  lemma Commute(a: int, b: int)
    ensures a * b == b * a
  {
  }

  /** Moving the start by the greatest common divisor changes nothing: some number of strides does it. */
  lemma GcdStays(h: nat -> nat, W: nat, c: nat, d: nat)
    requires Periodic(h, W) && d > 0 && W > 0
    ensures Sum(h, c + Gcd(d, W), d, W) == Sum(h, c, d, W)
  {
    hide Sum, Periodic, Gcd;
    var u, v := StridesReach(d, W);
    SumIsPeriodic(h, W, c + Gcd(d, W), v, d, W);
    assert W * d == d * W;
    WholeTurnsStay(h, W, c, d, W, d, u);
  }

  lemma {:induction false} GcdsStay(h: nat -> nat, W: nat, c: nat, d: nat, t: nat)
    requires Periodic(h, W) && d > 0 && W > 0
    ensures Sum(h, c + t * Gcd(d, W), d, W) == Sum(h, c, d, W)
  {
    hide Sum, Periodic, Gcd;
    if t > 0 {
      GcdsStay(h, W, c, d, t - 1);
      OneMore(t, Gcd(d, W));
      GcdStays(h, W, c + (t - 1) * Gcd(d, W), d);
    } else {
      assert t * Gcd(d, W) == 0;
    }
  }

  lemma OneScaledTurn(cands: seq<Upstream>, i: nat, cursor: nat)
    requires i < |cands|
    ensures Turns(cands, i, cursor, Total(cands)) == WeightOf(cands[i])
  {
    FullTurnsAreExact(cands, i, cursor, 1);
    assert 1 * Total(cands) == Total(cands);
  }

  lemma ScaledLength(cands: seq<Upstream>, g: nat, n: nat)
    requires g > 0 && AllDivide(cands, g) && n * g == Total(cands)
    ensures Total(Scaled(cands, g)) == n
  {
    ScaledTotal(cands, g);
    hide Total, Scaled, AllDivide;
    var T := Total(Scaled(cands, g));
    Commute(g, T);
    Commute(g, n);
    Cancel(g, T, n);
  }

  lemma ClassIsOneTurn(cands: seq<Upstream>, i: nat, c: nat, g: nat, n: nat)
    requires i < |cands| && g > 0 && AllDivide(cands, g) && n * g == Total(cands)
    ensures Sum(HitOf(cands, i), c, g, n) == WeightOf(Scaled(cands, g)[i])
  {
    hide HitOf, Sum, Total, Turns, WeightOf, Divides, AllDivide;
    ClassIsScaledWheel(cands, i, c, g, n);
    ScaledLength(cands, g, n);
    OneScaledTurn(Scaled(cands, g), i, c / g);
  }

  /** If g divides all weights, one walk through any class modulo g sees every candidate a g-th of its weight. */
  lemma ClassTurns(cands: seq<Upstream>, i: nat, c: nat, g: nat, n: nat)
    requires i < |cands| && g > 0 && AllDivide(cands, g) && n * g == Total(cands)
    ensures g * Sum(HitOf(cands, i), c, g, n) == WeightOf(cands[i])
  {
    assert Divides(g, WeightOf(cands[i]));
    hide HitOf, Sum, Total, WeightOf, Divides, AllDivide;
    ClassIsOneTurn(cands, i, c, g, n);
    ScaledWeight(cands[i], g);
    Commute(g, Sum(HitOf(cands, i), c, g, n));
  }

  lemma DividesMeansExact(cands: seq<Upstream>, d: nat, i: nat, cursor: nat)
    requires i < |cands| && d > 0 && AllDivide(cands, Gcd(d, Total(cands)))
    ensures StrideTurns(cands, i, cursor, d, Total(cands)) == WeightOf(cands[i])
  {
    TotalPositive(cands);
    HitsArePeriodic(cands, i);
    TurnsAreSums(cands, i, cursor, d, Total(cands));
    GcdDivides(d, Total(cands));
    hide HitOf, Sum, Total, StrideTurns, WeightOf, Gcd, Periodic, AllDivide;
    var g, f := Gcd(d, Total(cands)), Sum(HitOf(cands, i), cursor, d, Total(cands));
    forall t: nat ensures Sum(HitOf(cands, i), cursor + t * g, d, Total(cands)) == f {
      GcdsStay(HitOf(cands, i), Total(cands), cursor, d, t);
    }
    var n := ClassShare(cands, i, cursor, d, g, f);
    ClassTurns(cands, i, cursor, g, n);
  }

  /**
   A user of the pool that gets every d-th cursor value is served exactly by weight, over every W of its
   picks and from every start, if and only if whatever divides both d and the total weight W divides every
   single weight.
   */
  lemma StrideExactIff(cands: seq<Upstream>, d: nat)
    requires cands != [] && d > 0
    ensures StrideExact(cands, d) <==>
      forall e: nat :: Divides(e, d) && Divides(e, Total(cands)) ==> AllDivide(cands, e)
  {
    TotalPositive(cands);
    if StrideExact(cands, d) {
      forall e: nat | Divides(e, d) && Divides(e, Total(cands)) ensures AllDivide(cands, e) {
        ExactMeansDivides(cands, d, e);
      }
    }
    if forall e: nat :: Divides(e, d) && Divides(e, Total(cands)) ==> AllDivide(cands, e) {
      GcdDivides(d, Total(cands));
      forall i: nat, cursor: nat | i < |cands|
        ensures StrideTurns(cands, i, cursor, d, Total(cands)) == WeightOf(cands[i])
      {
        DividesMeansExact(cands, d, i, cursor);
      }
    }
  }

  /** With one other pick between any two: exact if and only if the total is odd or all weights are even. */
  lemma EveryOtherPickIff(cands: seq<Upstream>)
    requires cands != []
    ensures StrideExact(cands, 2) <==> Total(cands) % 2 == 1 || AllDivide(cands, 2)
  {
    StrideExactIff(cands, 2);
    forall e: nat | Divides(e, 2) ensures e == 1 || e == 2 {
      AtMost(e, 2);
    }
    assert AllDivide(cands, 1);
  }

  /** Two upstreams of weight 1, for instance, are not: every second pick finds the same one. */
  lemma EveryOtherPickStarves(cands: seq<Upstream>, cursor: nat, j: nat)
    requires |cands| == 2 && WeightOf(cands[0]) == WeightOf(cands[1]) == 1
    ensures !StrideExact(cands, 2)
    ensures Choose(cands, cursor + 2 * j) == Choose(cands, cursor)
  {
    assert Total(cands[..1]) == 1 && Total(cands) == 2 by {
      assert cands[..1][..0] == [];
    }
    EveryOtherPickIff(cands);
    assert !Divides(2, WeightOf(cands[0]));
    ManyPeriods((n: nat) => n % 2, 2, cursor, j);
  }
}
