/**
 How calls end, told from the events of the run that decided it: the event at which a call asked for its
 hold, and the event at which it settled. With runs in which the less expected outcomes happen.
 */
module Outcomes {
  import opened CallMachine
  import opened Admission
  import opened Interleaving
  import opened Conservation
  import L = Ledger

  /** Event i is the next step of call k. */
  ghost predicate Steps(es: seq<Event>, k: nat, i: nat) {
    i < |es| && es[i].act.Advance? && es[i].act.call == k && k < |Run(es[..i]).calls|
  }

  /** Event i is the step at which call k starts: validation and hold. */
  ghost predicate EnteredAt(es: seq<Event>, k: nat, i: nat) {
    Steps(es, k, i) && Run(es[..i]).calls[k].pc.Enter?
  }

  /** Event i is the step at which call k gives its hold back or turns it into a charge. */
  ghost predicate SettledAt(es: seq<Event>, k: nat, i: nat) {
    Steps(es, k, i) && Run(es[..i]).calls[k].pc.Settling? && Run(es[..i]).calls[k].held
  }

  // ---------------------------------------------------------------- what a step leaves alone

  predicate Settled(c: Call) {
    c.pc.Logging? || c.pc.Done?
  }

  function PlanOf(c: Call): Plan
    requires Settled(c)
  {
    c.pc.plan
  }

  /** From its settlement on, a call's outcome is fixed. */
  ghost predicate SameOutcome(c: Call, c': Call) {
    Settled(c) && Settled(c') && PlanOf(c') == PlanOf(c) && c'.charged == c.charged && c'.settleOK == c.settleOK &&
    SameCaller(c, c') && c'.tally.holds == c.tally.holds
  }

  lemma SettledStep(sh: Shared, c: Call, e: Env)
    requires Settled(c)
    ensures SameOutcome(c, CallStep(sh, c, e).call)
  {
  }

  lemma {:induction false} OutcomeStays(es: seq<Event>, k: nat, i: nat)
    requires i <= |es| && k < |Run(es[..i]).calls| && Settled(Run(es[..i]).calls[k])
    ensures k < |Run(es).calls| && SameOutcome(Run(es[..i]).calls[k], Run(es).calls[k])
  {
    hide CallStep;
    var n := |es| - 1;
    if i == |es| {
      assert es[..i] == es;
    } else {
      assert es[..n][..i] == es[..i];
      OutcomeStays(es[..n], k, i);
      CallMoves(Run(es[..n]), es[n], k);
      if Steps(es, k, n) {
        SettledStep(Run(es[..n]).sh, Run(es[..n]).calls[k], EnvOf(es[n]));
      }
    }
  }

  /** A call past its start has or has not its hold, and that no longer changes. */
  ghost predicate SameHold(c: Call, c': Call) {
    !c'.pc.Enter? && c'.tally.holds == c.tally.holds && SameCaller(c, c')
  }

  lemma {:induction false} HoldStays(es: seq<Event>, k: nat, i: nat)
    requires i <= |es| && k < |Run(es[..i]).calls| && !Run(es[..i]).calls[k].pc.Enter?
    ensures k < |Run(es).calls| && SameHold(Run(es[..i]).calls[k], Run(es).calls[k])
  {
    hide CallStep;
    var n := |es| - 1;
    if i == |es| {
      assert es[..i] == es;
    } else {
      assert es[..n][..i] == es[..i];
      HoldStays(es[..n], k, i);
      CallMoves(Run(es[..n]), es[n], k);
      if Steps(es, k, n) {
        StepLeads(Run(es[..n]).sh, Run(es[..n]).calls[k], EnvOf(es[n]));
      }
    }
  }

  // ---------------------------------------------------------------- the deciding events exist

  /** A call in the state after event n was there before, or began with it. */
  lemma BeforeOrNew(s: System, ev: Event, k: nat)
    requires k < |Apply(s, ev).calls|
    ensures k >= |s.calls| ==> Apply(s, ev).calls[k].pc.Enter? && Apply(s, ev).calls[k].tally == Tally(0, 0, 0, 0)
  {
    hide CallStep;
    StartsOne(s, ev);
  }

  lemma {:induction false} EnterEvent(es: seq<Event>, k: nat)
    requires k < |Run(es).calls| && !Run(es).calls[k].pc.Enter?
    ensures exists i: nat :: EnteredAt(es, k, i)
  {
    hide CallStep, Apply;
    if es != [] {
      var n := |es| - 1;
      BeforeOrNew(Run(es[..n]), es[n], k);
      CallMoves(Run(es[..n]), es[n], k) by {
        assert k < |Run(es[..n]).calls|;
      }
      if Run(es[..n]).calls[k].pc.Enter? {
        assert EnteredAt(es, k, n);
      } else {
        EnterEvent(es[..n], k);
        var i: nat :| EnteredAt(es[..n], k, i);
        assert es[..n][..i] == es[..i];
        assert EnteredAt(es, k, i);
      }
    }
  }

  lemma {:induction false} SettleEvent(es: seq<Event>, k: nat)
    requires k < |Run(es).calls| && Run(es).calls[k].tally.settles > 0
    ensures exists i: nat :: SettledAt(es, k, i)
  {
    hide CallStep, Apply;
    if es != [] {
      var n := |es| - 1;
      var s := Run(es[..n]);
      BeforeOrNew(s, es[n], k);
      CallMoves(s, es[n], k) by {
        assert k < |s.calls|;
      }
      if s.calls[k].tally.settles == 0 {
        StepLeads(s.sh, s.calls[k], EnvOf(es[n]));
        assert SettledAt(es, k, n);
      } else {
        SettleEvent(es[..n], k);
        var i: nat :| SettledAt(es[..n], k, i);
        assert es[..n][..i] == es[..i];
        assert SettledAt(es, k, i);
      }
    }
  }

  // ---------------------------------------------------------------- accounts stay

  lemma AccountsStay(s: System, ev: Event)
    ensures s.sh.db.accounts.Keys <= Apply(s, ev).sh.db.accounts.Keys
  {
    hide CallStep, VisitStep, L.InsertCodes;
    match ev.act {
      case Advance(k, _, _, _) =>
        if k < |s.calls| {
          CallKeepsAccounts(s.sh, s.calls[k], EnvOf(ev));
        }
      case Proceed(i, _) =>
        if i < |s.visits| {
          VisitKeepsDb(s, i, ev);
        }
      case IssueCodes(items) => CodesKeepAccounts(s.sh.db, items);
      case _ =>
    }
  }

  lemma VisitKeepsDb(s: System, i: nat, ev: Event)
    requires i < |s.visits| && ev.act.Proceed?
    ensures AdvanceVisit(s, i, ev.now, ev.act.fails).sh.db == s.sh.db
  {
  }

  lemma CallKeepsAccounts(sh: Shared, c: Call, e: Env)
    ensures CallStep(sh, c, e).sh.db.accounts.Keys == sh.db.accounts.Keys
  {
  }

  lemma {:induction false} CodesKeepAccounts(db: L.Db, items: seq<(string, int)>)
    ensures L.InsertCodes(db, items).0.accounts == db.accounts
  {
    if items != [] {
      CodesKeepAccounts(db, items[..|items| - 1]);
    }
  }

  lemma HolderStep(sh: Shared, c: Call, e: Env)
    ensures CallStep(sh, c, e).call.tally.holds > c.tally.holds ==>
      c.pc.Enter? && Owner(c).Some? && Owner(c).value in sh.db.accounts
  {
    if !c.pc.Enter? {
      hide CallStep;
      StepLeads(sh, c, e);
    }
  }

  /** A call that ever took a hold keeps its account: accounts are never removed. */
  lemma {:induction false} HoldersKeepTheirAccount(es: seq<Event>)
    ensures forall k :: 0 <= k < |Run(es).calls| && Run(es).calls[k].tally.holds > 0 ==>
      Owner(Run(es).calls[k]).Some? && Owner(Run(es).calls[k]).value in Run(es).sh.db.accounts
  {
    hide CallStep, Apply, Owner;
    if es != [] {
      var n := |es| - 1;
      var s, s' := Run(es[..n]), Run(es);
      HoldersKeepTheirAccount(es[..n]);
      AccountsStay(s, es[n]);
      forall k | 0 <= k < |s'.calls| && s'.calls[k].tally.holds > 0
        ensures Owner(s'.calls[k]).Some? && Owner(s'.calls[k]).value in s'.sh.db.accounts
      {
        BeforeOrNew(s, es[n], k);
        CallMoves(s, es[n], k) by {
          assert k < |s.calls|;
        }
        var c, c' := s.calls[k], s'.calls[k];
        if Steps(es, k, n) {
          HolderStep(s.sh, c, EnvOf(es[n]));
          StepLeads(s.sh, c, EnvOf(es[n]));
          SameOwner(c, c');
        }
        assert Owner(c) == Owner(c');
        assert c.tally.holds > 0 ==> Owner(c).Some? && Owner(c).value in s.sh.db.accounts;
        assert Owner(c).value in s.sh.db.accounts.Keys;
      }
    }
  }

  lemma SameOwner(c: Call, c': Call)
    requires SameCaller(c, c')
    ensures Owner(c') == Owner(c)
  {
  }

  // ---------------------------------------------------------------- the laws

  lemma EnterOutcome(sh: Shared, c: Call, e: Env)
    requires c.pc.Enter? && c.task.Evaluation? && c.tally == Tally(0, 0, 0, 0)
    ensures var c' := CallStep(sh, c, e).call;
      !c'.pc.Enter? && SameCaller(c, c') &&
      (c.bodyOk && Owner(c).Some? ==>
        (c'.tally.holds == 0 <==> e.fails || Owner(c).value !in sh.db.accounts || L.Credits(sh.db, Owner(c).value) < 1))
  {
  }

  /** Who goes unlogged, by what a caller can see at the moment the call starts. */
  ghost predicate TurnsAway(s: System, k: nat, e: Env)
    requires k < |s.calls|
  {
    var c := s.calls[k];
    !c.bodyOk ||
    (Owner(c).Some? && (e.fails || Owner(c).value !in s.sh.db.accounts || L.Credits(s.sh.db, Owner(c).value) < 1))
  }

  /**
   A finished call to Evaluate wrote no log row exactly if, at the event that started it, its body was bad,
   or it had an owner and the database failed, the account was unknown, or its balance was below 1.
   */
  lemma {:induction false} UnloggedIff(es: seq<Event>, k: nat)
    requires k < |Run(es).calls| && Run(es).calls[k].pc.Done? && Run(es).calls[k].task.Evaluation?
    ensures exists i: nat ::
      EnteredAt(es, k, i) && (Run(es).calls[k].tally.logs == 0 <==> TurnsAway(Run(es[..i]), k, EnvOf(es[i])))
  {
    hide CallStep, Apply;
    EnterEvent(es, k);
    var i: nat :| EnteredAt(es, k, i);
    var s, e := Run(es[..i]), EnvOf(es[i]);
    RunStep(es, i);
    CallMoves(s, es[i], k);
    BooksAlwaysRight(es[..i]);
    assert CallOk(s.calls[k]);
    StepLeads(s.sh, s.calls[k], e);
    HoldStays(es, k, i + 1);
    EnterOutcome(s.sh, s.calls[k], e);
    SettledAndLoggedOnce(es, k);
    SameOwner(s.calls[k], Run(es).calls[k]);
  }

  /**
   How a hold ends. A finished call that held has a settling event, its account existed then, and the
   settlement went through exactly if the database worked and balance plus hold covered the price: so a
   failed call keeps the hold exactly if the database failed or the balance was below -1.
   */
  lemma {:induction false} HoldKeptIff(es: seq<Event>, k: nat)
    requires k < |Run(es).calls| && Run(es).calls[k].pc.Done? && Run(es).calls[k].tally.holds > 0
    ensures exists i: nat :: SettledAt(es, k, i)
    ensures forall i: nat :: SettledAt(es, k, i) ==> SettlesAs(Run(es[..i]), es[i], Run(es).calls[k])
  {
    hide CallStep, Apply, SettlesAs;
    BooksAlwaysRight(es);
    assert CallOk(Run(es).calls[k]);
    SettleEvent(es, k);
    forall i: nat | SettledAt(es, k, i) ensures SettlesAs(Run(es[..i]), es[i], Run(es).calls[k]) {
      SettledAs(es, k, i);
    }
  }

  /** The final outcome c, read off the state and the event of its settlement. */
  ghost predicate SettlesAs(s: System, ev: Event, c: Call)
    requires ev.act.Advance?
  {
    c.pc.Done? && Owner(c).Some? && Owner(c).value in s.sh.db.accounts &&
    (c.settleOK <==> !ev.act.fails && L.Credits(s.sh.db, Owner(c).value) + 1 >= PriceOf(c.pc.plan)) &&
    c.charged == if c.settleOK then PriceOf(c.pc.plan) else 1
  }

  lemma SettleStepAs(sh: Shared, c: Call, e: Env)
    requires c.pc.Settling? && c.held && CallOk(c) && Owner(c).value in sh.db.accounts
    ensures var c' := CallStep(sh, c, e).call;
      c'.pc == Logging(c.pc.plan) && SameCaller(c, c') &&
      (c'.settleOK <==> !e.fails && L.Credits(sh.db, Owner(c).value) + 1 >= PriceOf(c.pc.plan)) &&
      c'.charged == if c'.settleOK then PriceOf(c.pc.plan) else 1
  {
    L.SettleRefusedIff(sh.db, AccountId(c), 1, c.pc.cost, L.CallRef(RefOf(c.rid)), c.pc.callOk);
  }

  lemma {:induction false} SettledAs(es: seq<Event>, k: nat, i: nat)
    requires SettledAt(es, k, i) && k < |Run(es).calls| && Run(es).calls[k].pc.Done?
    ensures SettlesAs(Run(es[..i]), es[i], Run(es).calls[k])
  {
    hide CallStep, Apply;
    var s := Run(es[..i]);
    var c := s.calls[k];
    RunStep(es, i);
    CallMoves(s, es[i], k);
    BooksAlwaysRight(es[..i]);
    assert CallOk(c);
    HoldersKeepTheirAccount(es[..i]);
    SettleStepAs(s.sh, c, EnvOf(es[i]));
    OutcomeStays(es, k, i + 1);
    SameOwner(c, Run(es).calls[k]);
  }

  /**
   The documented "a failed call gives its hold back", for every finished call without a 2xx answer: it does
   exactly if, at its settling event, the database worked and its balance was at least -1.
   */
  lemma {:induction false} FailureRefundsIff(es: seq<Event>, k: nat)
    requires k < |Run(es).calls| && Run(es).calls[k].pc.Done? && Run(es).calls[k].tally.holds > 0
    requires PriceOf(Run(es).calls[k].pc.plan) == 0
    ensures var c := Run(es).calls[k];
      Owner(c).Some? && c.charged == (if c.settleOK then 0 else 1) &&
      exists i: nat :: SettledAt(es, k, i) &&
        (c.charged == 0 <==> !es[i].act.fails && L.Credits(Run(es[..i]).sh.db, Owner(c).value) >= -1)
  {
    HoldKeptIff(es, k);
    var i: nat :| SettledAt(es, k, i);
    assert SettlesAs(Run(es[..i]), es[i], Run(es).calls[k]);
  }

  /** A finished 2xx call pays its price exactly if balance plus hold covered it then; otherwise it pays 1. */
  lemma {:induction false} SuccessBilledIff(es: seq<Event>, k: nat)
    requires k < |Run(es).calls| && Run(es).calls[k].pc.Done? && Run(es).calls[k].tally.holds > 0
    requires PriceOf(Run(es).calls[k].pc.plan) > 1
    ensures var c := Run(es).calls[k];
      Owner(c).Some? && c.charged in {1, PriceOf(c.pc.plan)} &&
      exists i: nat :: SettledAt(es, k, i) &&
        (c.charged == PriceOf(c.pc.plan) <==>
         !es[i].act.fails && L.Credits(Run(es[..i]).sh.db, Owner(c).value) + 1 >= PriceOf(c.pc.plan))
  {
    HoldKeptIff(es, k);
    var i: nat :| SettledAt(es, k, i);
    assert SettlesAs(Run(es[..i]), es[i], Run(es).calls[k]);
  }

  /**
   The documented refund: if no adjustment ever leaves its account below zero, every finished call whose
   answer is no 2xx costs nothing, as long as its settlement reached the database.
   */
  lemma {:induction false} FailuresCostNothing(es: seq<Event>, k: nat)
    requires NoOverdraft(es)
    requires k < |Run(es).calls| && Run(es).calls[k].pc.Done? && PriceOf(Run(es).calls[k].pc.plan) == 0
    requires forall i: nat :: SettledAt(es, k, i) ==> !es[i].act.fails
    ensures Run(es).calls[k].charged == 0
  {
    BooksAlwaysRight(es);
    assert CallOk(Run(es).calls[k]);
    if Run(es).calls[k].tally.holds > 0 {
      HoldKeptIff(es, k);
      var i: nat :| SettledAt(es, k, i);
      assert SettlesAs(Run(es[..i]), es[i], Run(es).calls[k]);
      NoOverdraftBefore(es, i);
      NeverNegative(es[..i]);
    }
  }

  lemma {:induction false} NoOverdraftBefore(es: seq<Event>, n: nat)
    requires NoOverdraft(es) && n <= |es|
    ensures NoOverdraft(es[..n])
  {
    forall i | 0 <= i < n && es[..n][i].act.AdjustCredits?
      ensures L.Credits(Run(es[..n][..i + 1]).sh.db, es[..n][i].act.account) >= 0
    {
      assert es[..n][..i + 1] == es[..i + 1];
    }
  }
}
