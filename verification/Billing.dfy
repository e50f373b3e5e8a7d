/**
 The price of one call (internal/store/store.go): 42 micro-credits per 1000 input tokens,
 rounded to nearest, at least 1. The arithmetic is Go's int64 arithmetic.
 */
module Billing {
  import opened Words

  const NUM := 42
  const DEN := 1000

  /** Two's-complement wrap-around of a mathematical integer to int64. */
  function Wrap64(x: int): int {
    (x + MAX_INT64 + 1) % TWO_64 - (MAX_INT64 + 1)
  }

  /** Go's integer division truncates toward zero. */
  function GoDiv(a: int, b: int): int
    requires b > 0
  {
    if a >= 0 then a / b else -((-a) / b)
  }

  function UsageCost(inputTokens: int): int {
    if inputTokens <= 0 then 0
    else
      var cost := GoDiv(Wrap64(Wrap64(inputTokens * NUM) + DEN / 2), DEN);
      if cost < 1 then 1 else cost
  }

  /** What the price list says: the nearest whole micro-credit, ties upward, and never less than 1. */
  ghost predicate IsNearestPrice(tokens: int, cost: int)
    requires tokens > 0
  {
    cost >= 1 &&
    DEN * cost - NUM * tokens <= (if cost == 1 then DEN else DEN / 2) &&
    NUM * tokens - DEN * cost < DEN / 2
  }

  /** Token counts whose price fits the machine arithmetic. */
  predicate InRange(tokens: int) {
    tokens * NUM + DEN / 2 <= MAX_INT64
  }

  lemma WrapFits(x: int)
    requires 0 <= x <= MAX_INT64
    ensures Wrap64(x) == x
  {
  }

  lemma InRangeCost(tokens: int)
    requires 0 < tokens && InRange(tokens)
    ensures UsageCost(tokens) == if tokens * NUM + DEN / 2 < DEN then 1 else (tokens * NUM + DEN / 2) / DEN
  {
    WrapFits(tokens * NUM);
    WrapFits(tokens * NUM + DEN / 2);
  }

  /** The charge is never negative, and a positive token count always costs something, overflow or not. */
  lemma CostSign(tokens: int)
    ensures UsageCost(tokens) >= 0
    ensures UsageCost(tokens) > 0 <==> tokens > 0
  {
  }

  /** The price is the advertised one exactly for the token counts whose product fits in int64. */
  lemma CostIsNearestIff(tokens: int)
    requires 0 < tokens <= MAX_INT64
    ensures IsNearestPrice(tokens, UsageCost(tokens)) <==> InRange(tokens)
  {
    if InRange(tokens) {
      InRangeCost(tokens);
    } else {
      // A wrapped price is at most MAX_INT64 / DEN, more than half a unit short of the real one.
      var w := Wrap64(Wrap64(tokens * NUM) + DEN / 2);
      assert w <= tokens * NUM + DEN / 2 - TWO_64 by { WrapDrops(tokens * NUM); }
      if w >= 0 {
        assert DEN * GoDiv(w, DEN) <= w;
      }
    }
  }

  lemma WrapDrops(x: int)
    requires 0 <= x && x + DEN / 2 > MAX_INT64
    ensures Wrap64(Wrap64(x) + DEN / 2) <= x + DEN / 2 - TWO_64
  {
    var a := x + MAX_INT64 + 1;
    var q := a / TWO_64;
    assert Wrap64(x) == x - q * TWO_64;
    var y := Wrap64(x) + DEN / 2;
    var p := (y + MAX_INT64 + 1) / TWO_64;
    assert Wrap64(y) == y - p * TWO_64;
    if q == 0 {
      assert p >= 1;
    }
  }

  /** Outside that range the price is wrong on a concrete count: this many tokens cost 1 micro-credit. */
  lemma OverflowedCost()
    ensures UsageCost(439208192231179801) == 1
  {
  }

  /** More tokens never cost less. */
  lemma CostMonotone(a: int, b: int)
    requires a <= b && InRange(b)
    ensures UsageCost(a) <= UsageCost(b)
  {
    if a > 0 {
      InRangeCost(a);
      InRangeCost(b);
    } else {
      CostSign(a);
      CostSign(b);
    }
  }

  /** Billing two calls as one changes the total by at most one micro-credit. */
  lemma {:induction false} CostMerge(a: int, b: int)
    requires a > 0 && b > 0 && InRange(a + b)
    ensures -1 <= UsageCost(a + b) - UsageCost(a) - UsageCost(b) <= 1
  {
    InRangeCost(a);
    InRangeCost(b);
    InRangeCost(a + b);
  }

  ghost function TotalTokens(ts: seq<int>): int {
    if ts == [] then 0 else TotalTokens(ts[..|ts| - 1]) + ts[|ts| - 1]
  }

  ghost function TotalCost(ts: seq<int>): int {
    if ts == [] then 0 else TotalCost(ts[..|ts| - 1]) + UsageCost(ts[|ts| - 1])
  }

  /** One call drifts by at least -498 and at most 958 thousandths; both ends are even because NUM and DEN are. */
  lemma CostDrift(tokens: int)
    requires tokens > 0 && InRange(tokens)
    ensures -498 <= DEN * UsageCost(tokens) - NUM * tokens <= 958
  {
    InRangeCost(tokens);
    assert DEN * UsageCost(tokens) - NUM * tokens == 2 * (500 * UsageCost(tokens) - 21 * tokens);
  }

  /** Rounding drift of a whole bill against the exact price, in thousandths of a micro-credit. */
  lemma {:induction false} BillingError(ts: seq<int>)
    requires forall t :: t in ts ==> t > 0 && InRange(t)
    ensures -498 * |ts| <= DEN * TotalCost(ts) - NUM * TotalTokens(ts) <= 958 * |ts|
  {
    if ts != [] {
      var n := |ts| - 1;
      assert ts[n] in ts;
      assert forall t :: t in ts[..n] ==> t in ts;
      BillingError(ts[..n]);
      CostDrift(ts[n]);
    }
  }

  /** Both ends of the drift are reached. */
  lemma BillingErrorTight()
    ensures DEN * UsageCost(1) - NUM * 1 == 958
    ensures exists t :: t > 0 && InRange(t) && DEN * UsageCost(t) - NUM * t == -498
  {
    assert DEN * UsageCost(869) - NUM * 869 == -498;
  }
}
