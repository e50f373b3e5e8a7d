/**
 The token quota of a user key is tested when Authenticate reads the key and charged after the call, so
 requests and calls in flight can overshoot it. Over every interleaving the overshoot is bounded by what
 those in flight may use.
 */
module Quota {
  import opened Wrappers
  import opened Seqs
  import opened Authentication
  import opened CallMachine
  import opened Admission
  import opened Interleaving

  /** 1 while a call of user key u may still add tokens. */
  function OpenOf(u: int): Call -> int {
    (c: Call) =>
      if c.task.Evaluation? && UserId(c) == u && !(c.pc.Settling? || c.pc.Logging? || c.pc.Done?) then 1 else 0
  }

  /** 1 while a request of user key u is past its quota test and not yet a call. */
  function WaitingOf(u: int): Visit -> int {
    (v: Visit) => if (v.CheckingCredit? || v.TakingSlot? || v.Inside?) && v.key.id == u then 1 else 0
  }

  ghost function InFlight(s: System, u: int): int {
    SumBy(s.calls, OpenOf(u)) + SumBy(s.visits, WaitingOf(u))
  }

  predicate InBounds(reply: Reply, most: int) {
    reply.Http? ==> 0 <= reply.inputTokens <= most
  }

  /** The reply a call is processing reports between 0 and `most` input tokens. */
  ghost predicate ReplyOk(c: Call, most: int) {
    match c.pc
    case MarkingProxy(_, _, reply) => InBounds(reply, most)
    case MarkingUp(_, reply) => InBounds(reply, most)
    case Counting(_, reply) => InBounds(reply, most) && c.task.Evaluation?
    case _ => true
  }

  // ---------------------------------------------------------------- one step of a call

  lemma CountUsesTokens(sh: Shared, c: Call, e: Env, u: int, most: nat)
    requires c.pc.Counting? && u > 0 && ReplyOk(c, most)
    ensures var turn, f := CountStep(sh, c, e), OpenOf(u);
      f(turn.call) <= f(c) && UsedBy(turn.sh.tokens, u) + most * f(turn.call) <= UsedBy(sh.tokens, u) + most * f(c)
  {
  }

  lemma OthersKeepTables(sh: Shared, c: Call, e: Env)
    requires !c.pc.Counting?
    ensures CallStep(sh, c, e).sh.tokens == sh.tokens && CallStep(sh, c, e).sh.keys == sh.keys
  {
  }

  lemma CountKeepsKeys(sh: Shared, c: Call, e: Env)
    requires c.pc.Counting?
    ensures CallStep(sh, c, e).sh.keys == sh.keys && CallStep(sh, c, e) == CountStep(sh, c, e)
  {
  }

  /** A call that has settled, or is about to, stays past its tokens. */
  lemma EndsStay(sh: Shared, c: Call, e: Env)
    requires c.pc.Settling? || c.pc.Logging? || c.pc.Done?
    ensures var c' := CallStep(sh, c, e).call; c'.pc.Logging? || c'.pc.Done?
  {
  }

  lemma StepKeepsReplyOk(sh: Shared, c: Call, e: Env, most: nat)
    requires ReplyOk(c, most) && InBounds(e.reply, most)
    ensures ReplyOk(CallStep(sh, c, e).call, most)
  {
    if !c.pc.Forwarding? {
      hide CallStep;
      StepLeads(sh, c, e);
    }
  }

  lemma StepUsesTokens(sh: Shared, c: Call, e: Env, u: int, most: nat)
    requires u > 0 && ReplyOk(c, most) && InBounds(e.reply, most)
    ensures var turn, f := CallStep(sh, c, e), OpenOf(u);
      ReplyOk(turn.call, most) && turn.sh.keys == sh.keys &&
      UsedBy(turn.sh.tokens, u) + most * f(turn.call) <= UsedBy(sh.tokens, u) + most * f(c)
  {
    hide CallStep, ReplyOk;
    StepKeepsReplyOk(sh, c, e, most);
    if c.pc.Counting? {
      CountKeepsKeys(sh, c, e);
      CountUsesTokens(sh, c, e, u, most);
    } else {
      OthersKeepTables(sh, c, e);
      StepLeads(sh, c, e);
      if c.pc.Settling? || c.pc.Logging? || c.pc.Done? {
        EndsStay(sh, c, e);
      }
      var f := OpenOf(u);
      MulMono(most, f(CallStep(sh, c, e).call), f(c));
    }
  }

  lemma MulMono(m: nat, a: int, b: int)
    requires a <= b
    ensures m * a <= m * b
  {
  }

  // ---------------------------------------------------------------- runs

  /** Every row of user key u has quota q. */
  ghost predicate Pinned(keys: seq<UserKey>, u: int, q: int) {
    forall row :: row in keys && row.id == u ==> row.tokenQuota == q
  }

  /** Replies report at most `most` tokens; no edit of the keys changes u's quota or raises its count. */
  ghost predicate QuotaEvent(s: System, ev: Event, u: int, q: int, most: int) {
    match ev.act
    case Advance(_, reply, _, _) => InBounds(reply, most)
    case EditKeys(keys, tokens) => Pinned(keys, u, q) && UsedBy(tokens, u) <= UsedBy(s.sh.tokens, u)
    case _ => true
  }

  /** Such a run, with at most `atOnce` requests and calls of u in flight at any time. */
  ghost predicate QuotaRun(es: seq<Event>, u: int, q: int, most: int, atOnce: int) {
    es == [] ||
    var es', ev := es[..|es| - 1], es[|es| - 1];
    QuotaRun(es', u, q, most, atOnce) && QuotaEvent(Run(es'), ev, u, q, most) && InFlight(Run(es), u) <= atOnce
  }

  ghost predicate WithinQuota(s: System, u: int, q: int, most: int, atOnce: int) {
    UsedBy(s.sh.tokens, u) + most * InFlight(s, u) <= q - 1 + atOnce * most && Pinned(s.sh.keys, u, q) &&
    forall k :: 0 <= k < |s.calls| ==> ReplyOk(s.calls[k], most)
  }

  lemma AdvanceKeepsQuota(s: System, k: nat, e: Env, u: int, q: int, most: nat, atOnce: nat)
    requires WithinQuota(s, u, q, most, atOnce) && u > 0 && k < |s.calls| && InBounds(e.reply, most)
    ensures WithinQuota(AdvanceCall(s, k, e), u, q, most, atOnce)
  {
    hide CallStep, ReplyOk, OpenOf;
    var c, s' := s.calls[k], AdvanceCall(s, k, e);
    StepUsesTokens(s.sh, c, e, u, most);
    SumByUpdate(s.calls, k, s'.calls[k], OpenOf(u));
    var f, a := OpenOf(u), InFlight(s, u);
    assert most * (a - f(c) + f(s'.calls[k])) == most * a - most * f(c) + most * f(s'.calls[k]);
  }

  /** The gate: a request gets past its look-up only with fewer than q tokens used. */
  lemma LookUpGates(sh: Shared, v: Visit, e: Env, u: int, q: int)
    requires Pinned(sh.keys, u, q) && q > 0 && v.LookingUp?
    ensures WaitingOf(u)(VisitStep(sh, v, e).1) > 0 ==> UsedBy(sh.tokens, u) < q
  {
    if v.digest.Some? {
      LookupFinds(sh.keys, v.digest.value);
    }
  }

  lemma LaterVisitSteps(sh: Shared, v: Visit, e: Env, u: int)
    requires !v.LookingUp?
    ensures WaitingOf(u)(VisitStep(sh, v, e).1) <= WaitingOf(u)(v)
  {
  }

  lemma VisitStepKeepsTables(sh: Shared, v: Visit, e: Env)
    ensures var sh' := VisitStep(sh, v, e).0; sh'.tokens == sh.tokens && sh'.keys == sh.keys
  {
  }

  lemma VisitKeepsQuota(s: System, i: nat, now: int, fails: bool, u: int, q: int, most: nat, atOnce: nat)
    requires WithinQuota(s, u, q, most, atOnce) && u > 0 && q > 0 && i < |s.visits|
    requires InFlight(AdvanceVisit(s, i, now, fails), u) <= atOnce
    ensures WithinQuota(AdvanceVisit(s, i, now, fails), u, q, most, atOnce)
  {
    hide VisitStep, ReplyOk;
    var v, e, s' := s.visits[i], Env(now, Transport, fails, false), AdvanceVisit(s, i, now, fails);
    VisitStepKeepsTables(s.sh, v, e);
    SumByUpdate(s.visits, i, s'.visits[i], WaitingOf(u));
    if v.LookingUp? {
      LookUpGates(s.sh, v, e, u, q);
    } else {
      LaterVisitSteps(s.sh, v, e, u);
    }
    if WaitingOf(u)(s'.visits[i]) <= WaitingOf(u)(v) {
      MulMono(most, InFlight(s', u), InFlight(s, u));
    } else {
      MulMono(most, InFlight(s', u), atOnce);
    }
  }

  /** A request let in becomes a call: it is in flight as the one or the other, never as both. */
  lemma AdmitKeepsQuota(s: System, ev: Event, u: int, q: int, most: nat, atOnce: nat)
    requires WithinQuota(s, u, q, most, atOnce) && u > 0 && Starts(s, ev.act).Some?
    ensures WithinQuota(Apply(s, ev), u, q, most, atOnce)
  {
    StartsOne(s, ev);
    var c, s' := Starts(s, ev.act).value, Apply(s, ev);
    assert ReplyOk(c, most);
    hide CallStep, ReplyOk;
    SumByAppend(s.calls, c, OpenOf(u));
    if ev.act.Admit? {
      SumByUpdate(s.visits, ev.act.visit, s'.visits[ev.act.visit], WaitingOf(u));
    }
    MulMono(most, InFlight(s', u), InFlight(s, u));
  }

  lemma {:induction false} KnockKeepsQuota(s: System, digest: Option<string>, u: int, q: int, most: nat, atOnce: nat)
    requires WithinQuota(s, u, q, most, atOnce)
    ensures WithinQuota(s.(visits := s.visits + [LookingUp(digest)]), u, q, most, atOnce)
  {
    SumByAppend(s.visits, LookingUp(digest), WaitingOf(u));
  }

  lemma EditKeepsQuota(s: System, s': System, u: int, q: int, most: nat, atOnce: nat)
    requires WithinQuota(s, u, q, most, atOnce) && s'.calls == s.calls && s'.visits == s.visits
    requires Pinned(s'.sh.keys, u, q) && UsedBy(s'.sh.tokens, u) <= UsedBy(s.sh.tokens, u)
    ensures WithinQuota(s', u, q, most, atOnce)
  {
  }

  lemma ApplyKeepsQuota(s: System, ev: Event, u: int, q: int, most: nat, atOnce: nat)
    requires u > 0 && q > 0 && WithinQuota(s, u, q, most, atOnce) && QuotaEvent(s, ev, u, q, most)
    requires InFlight(Apply(s, ev), u) <= atOnce
    ensures WithinQuota(Apply(s, ev), u, q, most, atOnce)
  {
    hide AdvanceCall, AdvanceVisit, WithinQuota;
    if Starts(s, ev.act).Some? {
      AdmitKeepsQuota(s, ev, u, q, most, atOnce);
    } else if ev.act.Advance? {
      if ev.act.call < |s.calls| {
        AdvanceKeepsQuota(s, ev.act.call, EnvOf(ev), u, q, most, atOnce);
      }
    } else if ev.act.Proceed? {
      if ev.act.visit < |s.visits| {
        VisitKeepsQuota(s, ev.act.visit, ev.now, ev.act.fails, u, q, most, atOnce);
      }
    } else if ev.act.Knock? {
      KnockKeepsQuota(s, ev.act.digest, u, q, most, atOnce);
    } else {
      StillPinned(s, u, q, most, atOnce);
      EditKeepsQuota(s, Apply(s, ev), u, q, most, atOnce);
    }
  }

  lemma StillPinned(s: System, u: int, q: int, most: nat, atOnce: nat)
    requires WithinQuota(s, u, q, most, atOnce)
    ensures Pinned(s.sh.keys, u, q)
  {
  }

  lemma {:induction false} QuotaHolds(es: seq<Event>, u: int, q: int, most: nat, atOnce: nat)
    requires u > 0 && q > 0 && QuotaRun(es, u, q, most, atOnce)
    ensures WithinQuota(Run(es), u, q, most, atOnce)
  {
    hide Apply;
    if es == [] {
      assert InFlight(START, u) == 0;
      MulMono(most, 0, atOnce);
    } else {
      QuotaHolds(es[..|es| - 1], u, q, most, atOnce);
      ApplyKeepsQuota(Run(es[..|es| - 1]), es[|es| - 1], u, q, most, atOnce);
    }
  }

  /** Overshoot bound: never more than q - 1 tokens plus what the requests and calls in flight at once may use. */
  lemma {:induction false} QuotaOvershoot(es: seq<Event>, u: int, q: int, most: nat, atOnce: nat)
    requires u > 0 && q > 0 && QuotaRun(es, u, q, most, atOnce)
    ensures UsedBy(Run(es).sh.tokens, u) <= q - 1 + atOnce * most
  {
    hide Run;
    QuotaHolds(es, u, q, most, atOnce);
    SumByLower(Run(es).calls, OpenOf(u), 0);
    SumByLower(Run(es).visits, WaitingOf(u), 0);
    MulMono(most, 0, InFlight(Run(es), u));
  }
}
