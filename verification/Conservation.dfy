/**
 Money over every interleaving: what each call owes, that nothing is created or lost, that each call
 settles and logs once, and when balances can be negative.
 */
module Conservation {
  import opened Wrappers
  import opened Seqs
  import opened Tables
  import opened OutProxy
  import opened CallMachine
  import opened Admission
  import opened Interleaving
  import Billing
  import L = Ledger

  /** What call c has taken from account a and not given back: its hold, or after settlement its charge. */
  function Owed(c: Call): int {
    (if c.held then 1 else 0) + c.charged
  }

  function OwedOf(a: int): Call -> int {
    (c: Call) => if Owner(c) == Some(a) then Owed(c) else 0
  }

  /** The price of what the call reports: tokens of a 2xx answer, nothing for anything else. */
  function PriceOf(plan: Plan): int {
    if plan.upstream.Some? && Success(plan.status) then Billing.UsageCost(plan.inputTokens) else 0
  }

  /** A call to Evaluate that was turned away at its start: bad body, or no hold. */
  predicate TurnedAway(c: Call, plan: Plan) {
    c.task.Evaluation? && c.tally.holds == 0 && plan.upstream.None? &&
    ((!c.bodyOk && plan.status == 400) || (c.bodyOk && Owner(c).Some? && plan.status in {402, 500}))
  }

  /** Where a call stands with its money and its log row at every program point. */
  ghost predicate CallOk(c: Call) {
    var took := if Owner(c).Some? then 1 else 0;
    (c.task.Evaluation? && !c.pc.Enter? && !c.pc.Done? ==> c.bodyOk) &&
    c.tally.rows <= c.tally.logs && (c.tally.rows > 0 ==> c.pc.Done?) &&
    match c.pc
    case Enter => Untouched(c)
    case Settling(cost, callOk, plan) =>
      c.held == (took == 1) && c.charged == 0 && c.settleOK && c.tally == Tally(took, 0, 0, 0) &&
      c.task.Evaluation? && (if callOk then cost else 0) == PriceOf(plan)
    case Logging(plan) => Charged(c, plan) && c.tally == Tally(took, took, 0, 0)
    case Done(plan) =>
      (Charged(c, plan) && c.tally == Tally(took, took, 1, c.tally.rows) && (c.task.Evaluation? ==> c.bodyOk)) ||
      (Untouched(c) && (c.task.Evaluation? ==> TurnedAway(c, plan)))
    case _ => c.held == (took == 1) && c.charged == 0 && c.settleOK && c.tally == Tally(took, 0, 0, 0)
  }

  ghost predicate Untouched(c: Call) {
    !c.held && c.charged == 0 && c.settleOK && c.tally == Tally(0, 0, 0, 0)
  }

  /** Settled: the price if the settlement went through, the kept hold if it was refused. */
  ghost predicate Charged(c: Call, plan: Plan) {
    !c.held &&
    c.charged == (if Owner(c).None? then 0 else if c.settleOK then PriceOf(plan) else 1) &&
    (Owner(c).None? ==> c.settleOK)
  }

  ghost predicate AnswerPcOk(c: Call) {
    (c.pc.Counting? ==> c.task.Evaluation? && c.pc.reply.Http? && Success(c.pc.reply.status)) &&
    (c.pc.Limiting? ==> c.task.Evaluation?) &&
    (c.pc.MarkingUp? && c.task.Evaluation? ==> Failing(c.pc.reply) || Success(c.pc.reply.status))
  }

  // ---------------------------------------------------------------- one step of one call

  lemma PickStepsKeepCallOk(sh: Shared, c: Call, e: Env)
    requires CallOk(c) && AnswerPcOk(c)
    requires c.pc.Picking? || c.pc.Selecting?
    ensures var turn := CallStep(sh, c, e);
      CallOk(turn.call) && AnswerPcOk(turn.call) && turn.sh.db == sh.db && Owed(turn.call) == Owed(c) &&
      SameCaller(c, turn.call)
  {
    hide Billing.UsageCost;
  }

  /** What a step that moves no money keeps. */
  ghost predicate StillOk(c: Call, c': Call) {
    CallOk(c') && AnswerPcOk(c') && Owed(c') == Owed(c) && SameCaller(c, c')
  }

  lemma GivingUpKeepsCallOk(c: Call, up: Upstream, last: Last)
    requires CallOk(c) && (c.pc.Limiting? || c.pc.Exiting? || c.pc.Spinning?)
    ensures StillOk(c, Retry(c, up.id, last)) && StillOk(c, NoExit(c, up))
  {
    hide Billing.UsageCost;
  }

  lemma TryStepsKeepCallOk(sh: Shared, c: Call, e: Env)
    requires CallOk(c) && AnswerPcOk(c)
    requires c.pc.Exiting? || c.pc.Spinning?
    ensures var turn := CallStep(sh, c, e);
      CallOk(turn.call) && AnswerPcOk(turn.call) && turn.sh.db == sh.db && Owed(turn.call) == Owed(c) &&
      SameCaller(c, turn.call)
  {
    hide Billing.UsageCost, NoExit, LookUp, Spin;
    GivingUpKeepsCallOk(c, c.pc.up, NO_LAST);
  }

  lemma LimitStepKeepsCallOk(sh: Shared, c: Call, e: Env)
    requires CallOk(c) && AnswerPcOk(c) && c.pc.Limiting?
    ensures var turn := CallStep(sh, c, e);
      CallOk(turn.call) && AnswerPcOk(turn.call) && turn.sh.db == sh.db && Owed(turn.call) == Owed(c) &&
      SameCaller(c, turn.call)
  {
    hide Billing.UsageCost;
  }

  lemma EndStepsKeepCallOk(sh: Shared, c: Call, e: Env)
    requires CallOk(c) && AnswerPcOk(c)
    requires c.pc.Forwarding? || c.pc.Logging? || c.pc.Done?
    ensures var turn := CallStep(sh, c, e);
      CallOk(turn.call) && AnswerPcOk(turn.call) && turn.sh.db == sh.db && Owed(turn.call) == Owed(c) &&
      SameCaller(c, turn.call)
  {
    hide Billing.UsageCost;
  }

  lemma LateStepsKeepCallOk(sh: Shared, c: Call, e: Env)
    requires CallOk(c) && AnswerPcOk(c)
    requires c.pc.MarkingProxy? || c.pc.MarkingUp? || c.pc.Counting?
    ensures var turn := CallStep(sh, c, e);
      CallOk(turn.call) && AnswerPcOk(turn.call) && turn.sh.db == sh.db && Owed(turn.call) == Owed(c) &&
      SameCaller(c, turn.call)
  {
    hide Billing.UsageCost;
  }

  /** How the ledger rows under one reference sum up. */
  ghost function Net(db: L.Db, ref: string): int {
    SumBy(db.ledger, L.CallOf(ref))
  }

  /** What the ledger calls a request: by its id, and all those without one by the same word. */
  function NamedBy(rid: string): (ref: string)
    ensures ref == RefOf(rid)
  {
    if rid == "" then "usage" else rid
  }

  /** What a call owes under a reference. */
  function OwedUnder(ref: string): Call -> int {
    (c: Call) => if NamedBy(c.rid) == ref then Owed(c) else 0
  }

  ghost function Funded(db: L.Db, a: int): int {
    SumBy(db.ledger, L.FundOf(a))
  }

  /**
   One step keeps the tables sound, moves money only between an account and the call, funds nothing, and
   books exactly the change in what this call owes under this call's reference.
   */
  ghost predicate Balanced(db: L.Db, c: Call, db': L.Db, c': Call) {
    L.DbOk(db') &&
    (forall a ::
       L.Credits(db', a) + OwedOf(a)(c') == L.Credits(db, a) + OwedOf(a)(c) && Funded(db', a) == Funded(db, a)) &&
    (forall r: string :: Net(db', r) == Net(db, r) - OwedUnder(r)(c') + OwedUnder(r)(c))
  }

  lemma PostIsBalanced(db: L.Db, c: Call, c': Call, delta: int, reason: L.Reason)
    requires L.DbOk(db) && Owner(c).Some? && SameCaller(c, c') && (reason == L.Hold || reason == L.Settle)
    requires L.Post(db, AccountId(c), delta, false, reason, L.CallRef(RefOf(c.rid))).1.Ok?
    requires Owed(c') == Owed(c) - delta
    ensures Balanced(db, c, L.Post(db, AccountId(c), delta, false, reason, L.CallRef(RefOf(c.rid))).0, c')
  {
    var id, ref := AccountId(c), L.CallRef(RefOf(c.rid));
    var db' := L.Post(db, id, delta, false, reason, ref).0;
    L.PostKeeps(db, id, delta, false, reason, ref);
    L.PostCommitsIff(db, id, delta, reason, ref);
    hide L.Post, L.DbOk;
    forall a
      ensures L.Credits(db', a) + OwedOf(a)(c') == L.Credits(db, a) + OwedOf(a)(c) && Funded(db', a) == Funded(db, a)
    {
      L.PostTotal(db, id, delta, false, reason, ref, L.FundOf(a));
    }
    forall r: string ensures Net(db', r) == Net(db, r) - OwedUnder(r)(c') + OwedUnder(r)(c) {
      L.PostTotal(db, id, delta, false, reason, ref, L.CallOf(r));
    }
  }

  lemma EnterKeepsCallOk(sh: Shared, c: Call, e: Env)
    requires c.pc.Enter? && CallOk(c)
    ensures var c' := EnterStep(sh, c, e).call; CallOk(c') && AnswerPcOk(c') && SameCaller(c, c')
  {
    hide L.Post, Billing.UsageCost;
  }

  lemma EnterIsBalanced(sh: Shared, c: Call, e: Env)
    requires L.DbOk(sh.db) && c.pc.Enter? && CallOk(c)
    ensures var turn := EnterStep(sh, c, e); Balanced(sh.db, c, turn.sh.db, turn.call)
  {
    EnterKeepsCallOk(sh, c, e);
    var turn := EnterStep(sh, c, e);
    assert turn.call.held ==> turn.sh.db == L.Post(sh.db, AccountId(c), -1, false, L.Hold, L.CallRef(RefOf(c.rid))).0;
    assert !turn.call.held ==> turn.sh.db == sh.db && turn.call.charged == 0;
    hide EnterStep, L.DbOk;
    if turn.call.held {
      PostIsBalanced(sh.db, c, turn.call, -1, L.Hold);
    }
  }

  lemma SettleKeepsCallOk(sh: Shared, c: Call, e: Env)
    requires c.pc.Settling? && CallOk(c)
    ensures var turn := SettleStep(sh, c, e);
      CallOk(turn.call) && SameCaller(c, turn.call) && turn.call.pc == Logging(c.pc.plan)
  {
    hide Billing.UsageCost, L.Post;
  }

  lemma SettleIsBalanced(sh: Shared, c: Call, e: Env)
    requires L.DbOk(sh.db) && c.pc.Settling? && CallOk(c)
    ensures var turn := SettleStep(sh, c, e); Balanced(sh.db, c, turn.sh.db, turn.call)
  {
    hide PriceOf, L.Post, L.DbOk;
    var turn := SettleStep(sh, c, e);
    if c.held && turn.call.settleOK {
      var delta := -((if c.pc.callOk then c.pc.cost else 0) - 1);
      PostIsBalanced(sh.db, c, turn.call, delta, L.Settle);
      assert turn.sh.db == L.Post(sh.db, AccountId(c), delta, false, L.Settle, L.CallRef(RefOf(c.rid))).0;
    } else {
      assert turn.sh.db == sh.db && Owed(turn.call) == Owed(c);
    }
  }

  lemma EnteringStep(sh: Shared, c: Call, e: Env)
    requires c.pc.Enter?
    ensures CallStep(sh, c, e) == EnterStep(sh, c, e)
  {
  }

  lemma SettlingStep(sh: Shared, c: Call, e: Env)
    requires c.pc.Settling?
    ensures CallStep(sh, c, e) == SettleStep(sh, c, e)
  {
  }

  lemma {:induction false} StepIsBalanced(sh: Shared, c: Call, e: Env)
    requires L.DbOk(sh.db) && CallOk(c) && AnswerPcOk(c)
    ensures var turn := CallStep(sh, c, e);
      CallOk(turn.call) && AnswerPcOk(turn.call) && SameCaller(c, turn.call) &&
      Balanced(sh.db, c, turn.sh.db, turn.call)
  {
    hide CallStep;
    match c.pc {
      case Enter =>
        EnterKeepsCallOk(sh, c, e);
        EnterIsBalanced(sh, c, e);
        EnteringStep(sh, c, e);
      case Settling(_, _, _) =>
        SettleKeepsCallOk(sh, c, e);
        SettleIsBalanced(sh, c, e);
        SettlingStep(sh, c, e);
      case Picking => PickStepsKeepCallOk(sh, c, e);
      case Selecting(_, _) => PickStepsKeepCallOk(sh, c, e);
      case Limiting(_) => LimitStepKeepsCallOk(sh, c, e);
      case Exiting(_, _) => TryStepsKeepCallOk(sh, c, e);
      case Spinning(_, _, _, _) => TryStepsKeepCallOk(sh, c, e);
      case MarkingProxy(_, _, _) => LateStepsKeepCallOk(sh, c, e);
      case MarkingUp(_, _) => LateStepsKeepCallOk(sh, c, e);
      case Counting(_, _) => LateStepsKeepCallOk(sh, c, e);
      case _ => EndStepsKeepCallOk(sh, c, e);
    }
  }

  // ---------------------------------------------------------------- runs

  /** Credits plus everything calls hold or were charged is everything that was ever funded. */
  ghost predicate Conserved(s: System, a: int) {
    L.Credits(s.sh.db, a) + SumBy(s.calls, OwedOf(a)) == Funded(s.sh.db, a)
  }

  ghost predicate Books(s: System) {
    L.DbOk(s.sh.db) &&
    (forall a :: Conserved(s, a)) &&
    (forall k :: 0 <= k < |s.calls| ==> CallOk(s.calls[k]) && AnswerPcOk(s.calls[k])) &&
    (forall r: string :: Booked(s, r))
  }

  /** The rows under a reference take exactly what the calls carrying it owe. */
  ghost predicate Booked(s: System, ref: string) {
    Net(s.sh.db, ref) == -SumBy(s.calls, OwedUnder(ref))
  }

  /** What event ev pays into account a from outside, read off the answer its transaction gives. */
  function Inflow(db: L.Db, ev: Event, a: int): int {
    match ev.act
    case AdjustCredits(b, delta, neg) =>
      if b == a && L.Post(db, b, delta, neg, L.Adjust, L.NoRef).1.Ok? then delta else 0
    case Redeem(hash, b) =>
      (match L.RedeemCode(db, hash, b, ev.now).1
       case Ok((added, _)) => if b == a then added else 0
       case Err(_) => 0)
    case _ => 0
  }

  /** Everything paid into a over a whole run. */
  function PaidIn(es: seq<Event>, a: int): int {
    if es == [] then 0
    else PaidIn(es[..|es| - 1], a) + Inflow(Run(es[..|es| - 1]).sh.db, es[|es| - 1], a)
  }

  lemma {:induction false} AdvanceKeepsBooks(s: System, k: nat, e: Env)
    requires Books(s) && k < |s.calls|
    ensures Books(AdvanceCall(s, k, e))
    ensures forall a :: Funded(AdvanceCall(s, k, e).sh.db, a) == Funded(s.sh.db, a)
  {
    hide CallStep, CallOk, AnswerPcOk, Owed;
    var c := s.calls[k];
    var s' := AdvanceCall(s, k, e);
    StepIsBalanced(s.sh, c, e);
    forall a ensures Conserved(s', a) {
      assert Conserved(s, a);
      SumByUpdate(s.calls, k, s'.calls[k], OwedOf(a));
    }
    forall r: string ensures Booked(s', r) {
      assert Booked(s, r);
      SumByUpdate(s.calls, k, s'.calls[k], OwedUnder(r));
    }
  }

  lemma BeginKeepsBooks(s: System, c: Call, visits: seq<Visit>)
    requires Books(s) && c == NewCall(c.task, c.rid, c.user, c.bodyOk)
    ensures Books(s.(calls := s.calls + [c], visits := visits))
  {
    var s' := s.(calls := s.calls + [c], visits := visits);
    forall a ensures Conserved(s', a) {
      assert Conserved(s, a);
      SumByAppend(s.calls, c, OwedOf(a));
    }
    forall r: string ensures Booked(s', r) {
      assert Booked(s, r);
      SumByAppend(s.calls, c, OwedUnder(r));
    }
  }

  /** A transaction that is no call's doing changes every balance by what it funds. */
  ghost predicate Outside(db: L.Db, db': L.Db, ev: Event) {
    L.DbOk(db') &&
    (forall a :: L.Credits(db', a) == L.Credits(db, a) + Inflow(db, ev, a)) &&
    (forall a :: Funded(db', a) == Funded(db, a) + Inflow(db, ev, a)) &&
    (forall r: string :: Net(db', r) == Net(db, r))
  }

  lemma OutsideKeepsBooks(s: System, db: L.Db, ev: Event)
    requires Books(s) && Outside(s.sh.db, db, ev)
    ensures Books(s.(sh := s.sh.(db := db)))
  {
    var s' := s.(sh := s.sh.(db := db));
    forall a ensures Conserved(s', a) {
      assert Conserved(s, a);
    }
    forall r: string ensures Booked(s', r) {
      assert Booked(s, r);
    }
  }

  lemma FundingPost(db: L.Db, id: int, delta: int, neg: bool, reason: L.Reason, ref: L.Ref)
    requires (reason == L.Adjust || reason == L.Redeem) && !ref.CallRef?
    ensures var (db', r) := L.Post(db, id, delta, neg, reason, ref);
      (forall a :: L.Credits(db', a) == L.Credits(db, a) + if r.Ok? && a == id then delta else 0) &&
      (forall a :: Funded(db', a) == Funded(db, a) + if r.Ok? && a == id then delta else 0) &&
      (forall r: string :: Net(db', r) == Net(db, r))
  {
    var (db', r) := L.Post(db, id, delta, neg, reason, ref);
    forall a ensures Funded(db', a) == Funded(db, a) + if r.Ok? && a == id then delta else 0 {
      L.PostTotal(db, id, delta, neg, reason, ref, L.FundOf(a));
    }
    forall r: string ensures Net(db', r) == Net(db, r) {
      L.PostTotal(db, id, delta, neg, reason, ref, L.CallOf(r));
    }
  }

  lemma AdjustIsOutside(db: L.Db, ev: Event)
    requires L.DbOk(db) && ev.act.AdjustCredits?
    ensures Outside(db, L.Post(db, ev.act.account, ev.act.delta, ev.act.allowNegative, L.Adjust, L.NoRef).0, ev)
  {
    L.PostKeeps(db, ev.act.account, ev.act.delta, ev.act.allowNegative, L.Adjust, L.NoRef);
    FundingPost(db, ev.act.account, ev.act.delta, ev.act.allowNegative, L.Adjust, L.NoRef);
  }

  lemma {:induction false} RedeemIsOutside(db: L.Db, ev: Event)
    requires L.DbOk(db) && ev.act.Redeem?
    ensures Outside(db, L.RedeemCode(db, ev.act.hash, ev.act.account, ev.now).0, ev)
  {
    hide L.DbOk;
    L.RedeemKeeps(db, ev.act.hash, ev.act.account, ev.now);
    var (db', r) := L.RedeemCode(db, ev.act.hash, ev.act.account, ev.now);
    if r.Ok? {
      var k := L.FindCode(db.codes, ev.act.hash).value;
      var marked := db.(codes := db.codes[k := db.codes[k].(redeemed := Some(L.Redemption(ev.act.account, ev.now)))]);
      FundingPost(marked, ev.act.account, db.codes[k].credits, true, L.Redeem, L.CodeRef(k));
      assert forall a :: L.Credits(marked, a) == L.Credits(db, a) && Funded(marked, a) == Funded(db, a);
      assert forall r: string :: Net(marked, r) == Net(db, r);
    }
  }

  lemma UnfundedIsOutside(db: L.Db, db': L.Db, ev: Event)
    requires L.DbOk(db') && db'.ledger == db.ledger && !ev.act.AdjustCredits? && !ev.act.Redeem?
    requires forall a :: L.Credits(db', a) == L.Credits(db, a)
    ensures Outside(db, db', ev)
  {
  }

  /** Events that are transactions of their own. */
  predicate Transaction(act: Action) {
    act.AdjustCredits? || act.Redeem? || act.IssueCodes? || act.NewAccount?
  }

  lemma {:induction false} TransactionIsOutside(s: System, ev: Event)
    requires L.DbOk(s.sh.db) && Transaction(ev.act)
    ensures Outside(s.sh.db, Apply(s, ev).sh.db, ev)
    ensures Apply(s, ev) == s.(sh := s.sh.(db := Apply(s, ev).sh.db))
  {
    hide L.Post, L.RedeemCode, L.InsertCodes, L.InsertAccount, L.DbOk, Outside;
    match ev.act {
      case AdjustCredits(_, _, _) => AdjustIsOutside(s.sh.db, ev);
      case Redeem(_, _) => RedeemIsOutside(s.sh.db, ev);
      case IssueCodes(items) =>
        L.InsertCodesKeeps(s.sh.db, items);
        assert Apply(s, ev).sh.db.accounts == s.sh.db.accounts;
        UnfundedIsOutside(s.sh.db, Apply(s, ev).sh.db, ev);
      case NewAccount(name, role, only) =>
        L.InsertAccountKeeps(s.sh.db, name, role, only);
        UnfundedIsOutside(s.sh.db, Apply(s, ev).sh.db, ev);
    }
  }

  lemma ApplyKeepsBooks(s: System, ev: Event)
    requires Books(s)
    ensures Books(Apply(s, ev))
    ensures forall a :: Funded(Apply(s, ev).sh.db, a) == Funded(s.sh.db, a) + Inflow(s.sh.db, ev, a)
  {
    hide CallStep, CallOk, AnswerPcOk;
    if Transaction(ev.act) {
      TransactionIsOutside(s, ev);
      OutsideKeepsBooks(s, Apply(s, ev).sh.db, ev);
    } else if Starts(s, ev.act).Some? {
      StartsOne(s, ev);
      BeginKeepsBooks(s, Starts(s, ev.act).value, Apply(s, ev).visits);
    } else if ev.act.Advance? {
      if ev.act.call < |s.calls| {
        AdvanceKeepsBooks(s, ev.act.call, EnvOf(ev));
      }
    } else {
      SameMoney(s, Apply(s, ev));
    }
  }

  lemma SameMoney(s: System, s': System)
    requires Books(s) && s'.sh.db == s.sh.db && s'.calls == s.calls
    ensures Books(s')
  {
    forall a ensures Conserved(s', a) {
      assert Conserved(s, a);
    }
    forall r: string ensures Booked(s', r) {
      assert Booked(s, r);
    }
  }

  /** The books are right in every reachable state of every interleaving, and account for every payment. */
  lemma {:induction false} BooksAlwaysRight(es: seq<Event>)
    ensures Books(Run(es))
    ensures forall a :: Funded(Run(es).sh.db, a) == PaidIn(es, a)
  {
    if es != [] {
      BooksAlwaysRight(es[..|es| - 1]);
      ApplyKeepsBooks(Run(es[..|es| - 1]), es[|es| - 1]);
    }
  }

  // ---------------------------------------------------------------- the laws

  /**
   Conservation: at every moment of every interleaving, an account's balance plus its unreleased holds
   plus everything its calls were charged is exactly what was paid in.
   */
  lemma {:induction false} MoneyIsConserved(es: seq<Event>, a: int)
    ensures L.Credits(Run(es).sh.db, a) + SumBy(Run(es).calls, OwedOf(a)) == PaidIn(es, a)
  {
    BooksAlwaysRight(es);
    assert Conserved(Run(es), a);
  }

  /**
   Ledger chain: the rows of an account, in id order, have non-zero deltas and balances that are running
   sums from 0, and the last of them is the balance stored in the account.
   */
  lemma {:induction false} LedgerMatchesBalances(es: seq<Event>, a: int)
    ensures L.AccountOk(Run(es).sh.db, a)
    ensures L.Credits(Run(es).sh.db, a) == SumBy(Run(es).sh.db.ledger, L.DeltaOf(a))
  {
    BooksAlwaysRight(es);
    L.CreditsAreLedgerSum(Run(es).sh.db, a);
  }

  /**
   Under every reference, at every moment: the ledger rows take exactly what the calls carrying that request
   id owe together. Clients choose request ids, so there may be several.
   */
  lemma {:induction false} RowsMatchRequestId(es: seq<Event>, ref: string)
    ensures Net(Run(es).sh.db, ref) == -SumBy(Run(es).calls, OwedUnder(ref))
  {
    BooksAlwaysRight(es);
    assert Booked(Run(es), ref);
  }

  /** What the calls other than k owe under a reference. */
  ghost function OthersOwe(calls: seq<Call>, k: nat, ref: string): int
    requires k < |calls|
  {
    SumBy(calls[..k] + calls[k + 1..], OwedUnder(ref))
  }

  lemma {:induction false} WithoutOne(calls: seq<Call>, k: nat, f: Call -> int)
    requires k < |calls|
    ensures SumBy(calls, f) == SumBy(calls[..k] + calls[k + 1..], f) + f(calls[k])
  {
    var n := |calls| - 1;
    if k == n {
      assert calls[..k] + calls[k + 1..] == calls[..n];
    } else {
      WithoutOne(calls[..n], k, f);
      assert calls[..k] + calls[k + 1..] == (calls[..n][..k] + calls[..n][k + 1..]) + [calls[n]];
      SumByAppend(calls[..n][..k] + calls[..n][k + 1..], calls[n], f);
    }
  }

  lemma DoneOwesCharge(c: Call)
    requires CallOk(c) && c.pc.Done?
    ensures Owed(c) == c.charged
  {
  }

  /** The rows under a finished call's request id are its own charge iff the other calls carrying it owe nothing. */
  lemma {:induction false} RowsAreOwnIff(es: seq<Event>, k: nat)
    requires k < |Run(es).calls| && Run(es).calls[k].pc.Done?
    ensures var s, c := Run(es), Run(es).calls[k];
      Net(s.sh.db, NamedBy(c.rid)) == -c.charged <==> OthersOwe(s.calls, k, NamedBy(c.rid)) == 0
  {
    hide NamedBy, Net;
    var s, c := Run(es), Run(es).calls[k];
    BooksAlwaysRight(es);
    DoneOwesCharge(c) by {
      assert CallOk(c);
    }
    hide Run, Books;
    RowsMatchRequestId(es, NamedBy(c.rid));
    WithoutOne(s.calls, k, OwedUnder(NamedBy(c.rid)));
  }

  lemma {:induction false} NobodyElse(calls: seq<Call>, ref: string)
    requires forall c :: c in calls ==> NamedBy(c.rid) != ref
    ensures SumBy(calls, OwedUnder(ref)) == 0
  {
    if calls != [] {
      assert calls[|calls| - 1] in calls && forall c :: c in calls[..|calls| - 1] ==> c in calls;
      NobodyElse(calls[..|calls| - 1], ref);
    }
  }

  /** If no other call of the run carries its request id, the rows under it are a finished call's own charge. */
  lemma {:induction false} UniqueIdOwnsItsRows(es: seq<Event>, k: nat)
    requires k < |Run(es).calls| && Run(es).calls[k].pc.Done?
    requires forall j :: 0 <= j < |Run(es).calls| && j != k ==>
      NamedBy(Run(es).calls[j].rid) != NamedBy(Run(es).calls[k].rid)
    ensures Net(Run(es).sh.db, NamedBy(Run(es).calls[k].rid)) == -Run(es).calls[k].charged
  {
    var calls := Run(es).calls;
    RowsAreOwnIff(es, k);
    NobodyElse(calls[..k] + calls[k + 1..], NamedBy(calls[k].rid));
  }

  /**
   Exactly once: a finished call to Evaluate either was turned away before any money moved, or it attempted
   its settlement once per hold and its log row once, and was charged the price of its 2xx answer, 0 for
   anything else, or the kept hold if the settlement was refused. No row was attempted exactly for the first.
   */
  lemma {:induction false} SettledAndLoggedOnce(es: seq<Event>, k: nat)
    requires k < |Run(es).calls| && Run(es).calls[k].pc.Done? && Run(es).calls[k].task.Evaluation?
    ensures var c := Run(es).calls[k];
      !c.held && (c.tally.logs == 0 <==> !c.bodyOk || (Owner(c).Some? && c.tally.holds == 0)) &&
      if c.tally.logs == 0 then c.tally == Tally(0, 0, 0, 0) && c.charged == 0 && TurnedAway(c, c.pc.plan)
      else
        c.tally.logs == 1 && c.tally.settles == c.tally.holds == (if Owner(c).Some? then 1 else 0) &&
        c.charged == if Owner(c).None? then 0 else if c.settleOK then PriceOf(c.pc.plan) else 1
  {
    BooksAlwaysRight(es);
    assert CallOk(Run(es).calls[k]);
  }

  /** Models and Probe never move money, whatever account the key belongs to. */
  lemma {:induction false} OthersAreFree(es: seq<Event>, k: nat)
    requires k < |Run(es).calls| && !Run(es).calls[k].task.Evaluation?
    ensures Owed(Run(es).calls[k]) == 0
  {
    BooksAlwaysRight(es);
    assert CallOk(Run(es).calls[k]) && AnswerPcOk(Run(es).calls[k]);
  }

  /** Every adjustment in the run left its account at zero or above. */
  ghost predicate NoOverdraft(es: seq<Event>) {
    forall i :: 0 <= i < |es| && es[i].act.AdjustCredits? ==>
      L.Credits(Run(es[..i + 1]).sh.db, es[i].act.account) >= 0
  }

  lemma StepStaysNonNegative(sh: Shared, c: Call, e: Env)
    requires forall a :: L.Credits(sh.db, a) >= 0
    ensures forall a :: L.Credits(CallStep(sh, c, e).sh.db, a) >= 0
  {
    if c.pc.Enter? {
      var turn := EnterStep(sh, c, e);
      L.PostCommitsIff(sh.db, AccountId(c), -1, L.Hold, L.CallRef(RefOf(c.rid)));
    } else if c.pc.Settling? {
      L.SettleRefusedIff(sh.db, AccountId(c), 1, c.pc.cost, L.CallRef(RefOf(c.rid)), c.pc.callOk);
    }
  }

  lemma ApplyStaysNonNegative(s: System, ev: Event)
    requires L.DbOk(s.sh.db) && forall a :: L.Credits(s.sh.db, a) >= 0
    requires ev.act.AdjustCredits? ==> L.Credits(Apply(s, ev).sh.db, ev.act.account) >= 0
    ensures forall a :: L.Credits(Apply(s, ev).sh.db, a) >= 0
  {
    hide CallStep, L.Post, L.InsertCodes, L.InsertAccount, L.DbOk;
    if Transaction(ev.act) {
      TransactionIsOutside(s, ev);
      if ev.act.Redeem? {
        RedeemedCreditsPositive(s.sh.db, ev.act.hash, ev.act.account, ev.now);
      }
    } else if ev.act.Advance? && ev.act.call < |s.calls| {
      StepStaysNonNegative(s.sh, s.calls[ev.act.call], EnvOf(ev));
    }
  }

  lemma RedeemedCreditsPositive(db: L.Db, hash: string, account: int, now: int)
    requires L.DbOk(db)
    ensures match L.RedeemCode(db, hash, account, now).1 case Ok((added, _)) => added > 0 case Err(_) => true
  {
    L.FoundCode(db.codes, hash);
  }

  lemma {:induction false} NeverNegative(es: seq<Event>)
    requires NoOverdraft(es)
    ensures forall a :: L.Credits(Run(es).sh.db, a) >= 0
  {
    if es != [] {
      var n := |es| - 1;
      forall i | 0 <= i < n && es[..n][i].act.AdjustCredits?
        ensures L.Credits(Run(es[..n][..i + 1]).sh.db, es[..n][i].act.account) >= 0
      {
        assert es[..n][..i + 1] == es[..i + 1];
      }
      NeverNegative(es[..n]);
      BooksAlwaysRight(es[..n]);
      assert es[..n + 1] == es;
      ApplyStaysNonNegative(Run(es[..n]), es[n]);
    }
  }

  lemma {:induction false} OwedIsNonNegative(calls: seq<Call>, a: int)
    requires forall c :: c in calls ==> CallOk(c)
    ensures SumBy(calls, OwedOf(a)) >= 0
  {
    if calls != [] {
      var c := calls[|calls| - 1];
      assert c in calls;
      assert forall d :: d in calls[..|calls| - 1] ==> d in calls;
      OwedIsNonNegative(calls[..|calls| - 1], a);
      ChargeIsNonNegative(c);
    }
  }

  lemma ChargeIsNonNegative(c: Call)
    requires CallOk(c)
    ensures Owed(c) >= 0
  {
    if c.pc.Logging? || c.pc.Done? {
      Billing.CostSign(c.pc.plan.inputTokens);
    }
  }

  /**
   No overspend: if no adjustment ever leaves its account below zero, no balance is ever below zero, and
   what an account's calls hold and were charged never exceeds what was paid in - nor is it ever negative.
   */
  lemma {:induction false} NoOverspend(es: seq<Event>, a: int)
    requires NoOverdraft(es)
    ensures L.Credits(Run(es).sh.db, a) >= 0
    ensures 0 <= SumBy(Run(es).calls, OwedOf(a)) <= PaidIn(es, a)
  {
    NeverNegative(es);
    BooksAlwaysRight(es);
    MoneyIsConserved(es, a);
    OwedIsNonNegative(Run(es).calls, a);
  }
}
