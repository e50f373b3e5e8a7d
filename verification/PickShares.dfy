/**
 Weighted fairness over every interleaving: calls and catalogue requests share one cursor, so their picks
 taken together are served exactly like the picks of a single caller.
 */
module PickShares {
  import opened Tables
  import opened CallMachine
  import opened Interleaving
  import opened Words
  import opened Fairness
  import opened Strides
  import P = Pool

  /** The j-th pick got the j-th cursor value. */
  ghost predicate Numbered(picks: seq<Pick>) {
    forall j :: 0 <= j < |picks| ==> picks[j].cands != [] && picks[j].cursor == (j + 1) % TWO_64
  }

  ghost predicate InOrder(s: System) {
    s.sh.poolCursor == |s.picks| % TWO_64 && Numbered(s.picks)
  }

  lemma StepCursor(sh: Shared, c: Call, e: Env)
    ensures CallStep(sh, c, e).sh.poolCursor ==
      if c.pc.Selecting? && c.pc.cands != [] then P.Advance(sh.poolCursor) else sh.poolCursor
  {
  }

  lemma AdvanceWraps(n: nat)
    ensures P.Advance(n % TWO_64) == (n + 1) % TWO_64
  {
  }

  lemma {:induction false} PicksInOrder(es: seq<Event>)
    ensures InOrder(Run(es))
  {
    hide Apply, InOrder;
    if es == [] {
      StartInOrder();
    } else {
      PicksInOrder(es[..|es| - 1]);
      ApplyKeepsOrder(Run(es[..|es| - 1]), es[|es| - 1]);
    }
  }

  lemma StartInOrder()
    ensures InOrder(START)
  {
  }

  lemma ApplyKeepsOrder(s: System, ev: Event)
    requires InOrder(s)
    ensures InOrder(Apply(s, ev))
  {
    hide CallStep;
    StartsOne(s, ev);
    if ev.act.Advance? && ev.act.call < |s.calls| {
      StepCursor(s.sh, s.calls[ev.act.call], EnvOf(ev));
      AdvanceWraps(|s.picks|);
    }
  }

  /** How many of the m picks from position `from` on chose candidate i of the list cands. */
  function CountPicked(picks: seq<Pick>, cands: seq<Upstream>, i: nat, from: nat, m: nat): nat
    requires cands != [] && from + m <= |picks|
  {
    if m == 0 then 0
    else
      P.TotalPositive(cands);
      CountPicked(picks, cands, i, from, m - 1) +
      (if P.Owner(cands, picks[from + m - 1].cursor % P.Total(cands)) == i then 1 else 0)
  }

  lemma {:induction false} PickedAreTurns(picks: seq<Pick>, cands: seq<Upstream>, i: nat, from: nat, m: nat)
    requires cands != [] && from + m <= |picks| && Smooth(cands, from, m)
    requires forall j :: from <= j < from + m ==> picks[j].cursor == (j + 1) % TWO_64
    ensures CountPicked(picks, cands, i, from, m) == Turns(cands, i, from, m)
  {
    P.TotalPositive(cands);
    if m > 0 {
      PickedAreTurns(picks, cands, i, from, m - 1);
      SmoothSlot(cands, from, m);
      assert picks[from + m - 1].cursor == (from + m) % TWO_64;
      hide P.Owner, P.Total;
    }
  }

  /**
   Any m consecutive picks of a run that saw the same candidates, whoever made them - calls or catalogue
   requests - gave candidate i between floor(m / W) * w and ceil(m / W) * w of the picks, and exactly k * w
   of k * W. The 64-bit cursor may wrap in between if there is one candidate or W divides 2^64.
   */
  lemma {:induction false} PicksAreProportional(es: seq<Event>, cands: seq<Upstream>, i: nat, from: nat, m: nat)
    requires var picks := Run(es).picks;
      i < |cands| && Smooth(cands, from, m) && from + m <= |picks| &&
      forall j :: from <= j < from + m ==> picks[j].cands == cands
    ensures var W, w := P.Total(cands), P.WeightOf(cands[i]);
      W > 0 && m / W * w <= CountPicked(Run(es).picks, cands, i, from, m) <= (m + W - 1) / W * w
    ensures forall k: nat :: m == k * P.Total(cands) ==>
      CountPicked(Run(es).picks, cands, i, from, m) == k * P.WeightOf(cands[i])
  {
    PicksInOrder(es);
    PickedAreTurns(Run(es).picks, cands, i, from, m);
    TurnsAreProportional(cands, i, from, m);
    forall k: nat | m == k * P.Total(cands)
      ensures CountPicked(Run(es).picks, cands, i, from, m) == k * P.WeightOf(cands[i])
    {
      FullTurnsAreExact(cands, i, from, k);
    }
  }

  // ---------------------------------------------------------------- what calls get of it

  /** Pick p was made for a call to Evaluate. */
  predicate ByCall(s: System, p: nat) {
    p < |s.picks| && s.picks[p].call < |s.calls| && s.calls[s.picks[p].call].task.Evaluation?
  }

  /** How many of the n picks from position `from` on were made by calls and chose candidate i. */
  function CountByCalls(s: System, cands: seq<Upstream>, i: nat, from: nat, n: nat): nat
    requires cands != [] && from + n <= |s.picks|
  {
    if n == 0 then 0
    else
      P.TotalPositive(cands);
      CountByCalls(s, cands, i, from, n - 1) +
      (if ByCall(s, from + n - 1) && P.Owner(cands, s.picks[from + n - 1].cursor % P.Total(cands)) == i then 1 else 0)
  }

  /** From position `from` on, every d-th of m * d picks is a call's, from the list cands, and the others are not. */
  ghost predicate Interspersed(s: System, cands: seq<Upstream>, from: nat, d: nat, m: nat)
    requires d > 0
  {
    from + m * d <= |s.picks| &&
    forall n: nat :: n < m * d ==>
      (ByCall(s, from + n) <==> n % d == d - 1) && (ByCall(s, from + n) ==> s.picks[from + n].cands == cands)
  }

  /** Catalogue picks do not count. */
  lemma {:induction false} SkipCatalogue(
    s: System, cands: seq<Upstream>, i: nat, from: nat, d: nat, m: nat, j: nat, r: nat)
    requires cands != [] && d > 0 && Interspersed(s, cands, from, d, m) && j < m && r < d && j * d + r <= m * d
    ensures CountByCalls(s, cands, i, from, j * d + r) == CountByCalls(s, cands, i, from, j * d)
  {
    if r > 0 {
      SkipCatalogue(s, cands, i, from, d, m, j, r - 1);
      DivUnique(d, j * d + r - 1, j, r - 1);
      assert !ByCall(s, from + (j * d + r - 1));
    }
  }

  lemma LastOfStride(s: System, cands: seq<Upstream>, i: nat, from: nat, n: nat)
    requires cands != [] && n > 0 && from + n <= |s.picks| && InOrder(s) && Smooth(cands, from, n)
    requires ByCall(s, from + (n - 1))
    ensures P.Total(cands) > 0
    ensures CountByCalls(s, cands, i, from, n) == CountByCalls(s, cands, i, from, n - 1) +
      (if P.Owner(cands, (from + n) % P.Total(cands)) == i then 1 else 0)
  {
    assert s.picks[from + n - 1].cursor == (from + n) % TWO_64;
    SmoothSlot(cands, from, n);
  }

  /** The j-th stride ends at a call's pick. */
  lemma StrideEnds(s: System, cands: seq<Upstream>, from: nat, d: nat, m: nat, j: nat)
    requires cands != [] && d > 0 && Interspersed(s, cands, from, d, m) && 0 < j && j * d <= m * d
    requires Smooth(cands, from, m * d)
    ensures j * d == (j - 1) * d + d && from + j * d <= |s.picks|
    ensures ByCall(s, from + (j * d - 1)) && Smooth(cands, from, j * d)
  {
    OneMore(j, d);
    DivUnique(d, j * d - 1, j - 1, d - 1);
  }

  lemma {:induction false} CallsTakeStrides(s: System, cands: seq<Upstream>, i: nat, from: nat, d: nat, m: nat, j: nat)
    requires cands != [] && d > 0 && InOrder(s) && Interspersed(s, cands, from, d, m) && j <= m
    requires Smooth(cands, from, m * d) && j * d <= m * d
    ensures CountByCalls(s, cands, i, from, j * d) == StrideTurns(cands, i, from, d, j)
  {
    if j > 0 {
      StrideEnds(s, cands, from, d, m, j);
      hide Smooth, Interspersed, InOrder;
      CallsTakeStrides(s, cands, i, from, d, m, j - 1);
      SkipCatalogue(s, cands, i, from, d, m, j - 1, d - 1);
      LastOfStride(s, cands, i, from, j * d);
    } else {
      assert j * d == 0;
    }
  }

  /**
   In every run: where calls make every d-th pick, catalogue requests the others, and the candidates stay the
   same, calls find candidate i as often as every d-th cursor value stops at it; and exactly by weight over
   every W of their picks if whatever divides d and the total weight W divides every weight.
   */
  lemma {:induction false} CallsGetStrides(es: seq<Event>, cands: seq<Upstream>, i: nat, from: nat, d: nat, m: nat)
    requires i < |cands| && d > 0 && Interspersed(Run(es), cands, from, d, m) && Smooth(cands, from, m * d)
    ensures CountByCalls(Run(es), cands, i, from, m * d) == StrideTurns(cands, i, from, d, m)
    ensures m == P.Total(cands) &&
            (forall e: nat :: Divides(e, d) && Divides(e, P.Total(cands)) ==> AllDivide(cands, e)) ==>
      CountByCalls(Run(es), cands, i, from, m * d) == P.WeightOf(cands[i])
  {
    PicksInOrder(es);
    CallsTakeStrides(Run(es), cands, i, from, d, m, m);
    StrideExactIff(cands, d);
  }
}
