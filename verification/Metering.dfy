/**
 The tokens a user key has used, over every interleaving: exactly the input tokens of the 2xx replies its calls
 to Evaluate passed on, as far as their count reached the database.
 */
module Metering {
  import opened Wrappers
  import opened Tables
  import opened OutProxy
  import opened CallMachine
  import opened Admission
  import opened Interleaving
  import opened Outcomes
  import opened Answers
  import Auth = Authentication
  import L = Ledger
  import P = Pool
  import S = Store
  import Billing
  import RateLimit

  /** Event i is the step at which call k has its tokens counted. */
  ghost predicate CountsAt(es: seq<Event>, k: nat, i: nat) {
    Steps(es, k, i) && Run(es[..i]).calls[k].pc.Counting?
  }

  /** What event i adds to the tokens of user key u: the input tokens of the reply its call got last. */
  ghost function CountedAt(es: seq<Event>, i: nat, u: int): int
    requires i < |es|
  {
    if es[i].act.Advance? && CountsAt(es, es[i].act.call, i) && !es[i].act.fails &&
       UserId(Run(es[..i]).calls[es[i].act.call]) == u
    then
      match LatestReply(es[..i], es[i].act.call)
      case Some(Http(_, tokens, _)) => tokens
      case _ => 0
    else 0
  }

  /** What the events from n on add. */
  ghost function CountedSince(es: seq<Event>, n: nat, u: int): int
    requires n <= |es|
  {
    if n == |es| then 0
    else CountedSince(es[..|es| - 1], n, u) + CountedAt(es, |es| - 1, u)
  }

  // ---------------------------------------------------------------- the account

  /** Only a count and an edit of the key table move the tokens of a key. */
  lemma OthersKeepTokens(sh: Shared, c: Call, e: Env)
    requires !c.pc.Counting?
    ensures CallStep(sh, c, e).sh.tokens == sh.tokens
  {
  }

  lemma CountAdds(sh: Shared, c: Call, e: Env, u: int)
    requires c.pc.Counting? && u > 0 && u in sh.tokens
    ensures var sh' := CallStep(sh, c, e).sh;
      u in sh'.tokens &&
      sh'.tokens[u] == sh.tokens[u] +
        (if UserId(c) == u && !e.fails && c.pc.reply.Http? then c.pc.reply.inputTokens else 0)
  {
  }

  lemma VisitKeepsTokens(sh: Shared, v: Visit, e: Env)
    ensures VisitStep(sh, v, e).0.tokens == sh.tokens
  {
  }

  lemma {:induction false} EventKeepsTokens(s: System, ev: Event)
    requires !ev.act.EditKeys? && !(ev.act.Advance? && ev.act.call < |s.calls|)
    ensures Apply(s, ev).sh.tokens == s.sh.tokens
  {
    hide CallStep, VisitStep;
    if ev.act.Proceed? && ev.act.visit < |s.visits| {
      VisitKeepsTokens(s.sh, s.visits[ev.act.visit], Env(ev.now, Transport, ev.act.fails, false));
    }
  }

  lemma {:induction false} EventAdds(es: seq<Event>, ev: Event, u: int)
    requires !ev.act.EditKeys? && u > 0 && u in Run(es).sh.tokens
    ensures var tokens := Apply(Run(es), ev).sh.tokens;
      u in tokens && tokens[u] == Run(es).sh.tokens[u] + CountedAt(es + [ev], |es|, u)
  {
    assert (es + [ev])[..|es|] == es;
    if ev.act.Advance? && ev.act.call < |Run(es).calls| {
      AlwaysRemembers(es, ev.act.call);
      StepAdds(Run(es), ev, u, LatestReply(es, ev.act.call));
    } else {
      EventKeepsTokens(Run(es), ev);
    }
  }

  lemma {:induction false} StepAdds(s: System, ev: Event, u: int, latest: Option<Reply>)
    requires ev.act.Advance? && ev.act.call < |s.calls| && Remembers(s.calls[ev.act.call], latest)
    requires u > 0 && u in s.sh.tokens
    ensures var c, tokens := s.calls[ev.act.call], Apply(s, ev).sh.tokens;
      u in tokens &&
      tokens[u] == s.sh.tokens[u] +
        if c.pc.Counting? && UserId(c) == u && !ev.act.fails && latest.Some? && latest.value.Http?
        then latest.value.inputTokens else 0
  {
    hide CallStep;
    var c, e := s.calls[ev.act.call], EnvOf(ev);
    if c.pc.Counting? {
      CountAdds(s.sh, c, e, u);
    } else {
      OthersKeepTokens(s.sh, c, e);
    }
  }

  /**
   The exact account. In every run, between edits of the key table, what a known key has used is what it had
   used before plus the input tokens of the replies its calls had counted in the meantime.
   */
  lemma {:induction false} TokensAreExact(es: seq<Event>, n: nat, u: int)
    requires n <= |es| && u > 0 && u in Run(es[..n]).sh.tokens
    requires forall i :: n <= i < |es| ==> !es[i].act.EditKeys?
    ensures u in Run(es).sh.tokens
    ensures Run(es).sh.tokens[u] == Run(es[..n]).sh.tokens[u] + CountedSince(es, n, u)
  {
    if n == |es| {
      assert es[..n] == es;
    } else {
      var before, ev := es[..|es| - 1], es[|es| - 1];
      assert before[..n] == es[..n] && before + [ev] == es;
      TokensAreExact(before, n, u);
      EventAdds(before, ev, u);
    }
  }

  // ---------------------------------------------------------------- every 2xx is counted, once

  /** The call's answer is a 2xx, its tokens counted. */
  predicate Counted(c: Call) {
    match c.pc
    case Settling(_, _, plan) => c.task.Evaluation? && 200 <= plan.status < 300
    case Logging(plan) => c.task.Evaluation? && 200 <= plan.status < 300
    case Done(plan) => c.task.Evaluation? && 200 <= plan.status < 300
    case _ => false
  }

  /** A last error is never a 2xx. */
  ghost predicate NoFalseSuccess(c: Call) {
    Sound(c) && !Success(c.last.code)
  }

  lemma StepCounts(sh: Shared, c: Call, e: Env)
    requires NoFalseSuccess(c)
    ensures var c' := CallStep(sh, c, e).call; NoFalseSuccess(c') && (Counted(c') <==> Counted(c) || c.pc.Counting?)
  {
    StepFollows(sh, c, e);
    assert Sound(CallStep(sh, c, e).call);
    hide Follows, Sound, Carries, Decides, CallStep;
    match c.pc {
      case Enter => EarlyCounts(sh, c, e);
      case Picking => EarlyCounts(sh, c, e);
      case Selecting(_, _) => EarlyCounts(sh, c, e);
      case Limiting(_) => LimitCounts(sh, c, e);
      case Exiting(_, _) => ExitCounts(sh, c, e);
      case Spinning(_, _, _, _) => ExitCounts(sh, c, e);
      case MarkingUp(_, _) => MarkCounts(sh, c, e);
      case _ => LateCounts(sh, c, e);
    }
  }

  /** Giving up on an upstream reports no 2xx. */
  lemma RetryCounts(c: Call, up: int, last: Last)
    requires !Success(last.code)
    ensures !Counted(Retry(c, up, last)) && !Success(Retry(c, up, last).last.code)
  {
  }

  lemma EarlyCounts(sh: Shared, c: Call, e: Env)
    requires (c.pc.Enter? || c.pc.Picking? || c.pc.Selecting?) && !Success(c.last.code)
    ensures var c' := CallStep(sh, c, e).call; !Success(c'.last.code) && !Counted(c')
  {
    hide P.Candidates, P.Choose, L.Post;
  }

  lemma LimitCounts(sh: Shared, c: Call, e: Env)
    requires c.pc.Limiting? && !Success(c.last.code)
    ensures var c' := LimitStep(sh, c, e).call; !Success(c'.last.code) && !Counted(c')
  {
    forall last: Last | !Success(last.code)
      ensures !Counted(Retry(c, c.pc.up.id, last)) && !Success(Retry(c, c.pc.up.id, last).last.code)
    {
      RetryCounts(c, c.pc.up.id, last);
    }
    hide Retry, RateLimit.Decide;
  }

  lemma ExitCounts(sh: Shared, c: Call, e: Env)
    requires (c.pc.Exiting? || c.pc.Spinning?) && !Success(c.last.code)
    ensures var c' := if c.pc.Exiting? then ExitStep(sh, c, e) else SpinStep(sh, c, e).call;
      !Success(c'.last.code) && !Counted(c')
  {
    RetryCounts(c, c.pc.up.id, Last(502, ProxyError, 0));
    hide Retry, LookUp, Spin;
  }

  lemma MarkCounts(sh: Shared, c: Call, e: Env)
    requires c.pc.MarkingUp? && !Success(c.last.code)
    ensures var c' := MarkUpStep(sh, c, e).call; !Success(c'.last.code) && !Counted(c')
  {
    if MarksErr(c.task, c.pc.reply) {
      RetryCounts(c, c.pc.up.id, LastOf(c.pc.reply));
      hide Retry;
    }
  }

  lemma LateCounts(sh: Shared, c: Call, e: Env)
    requires NoFalseSuccess(c)
    requires c.pc.Forwarding? || c.pc.MarkingProxy? || c.pc.Counting? || c.pc.Settling? || c.pc.Logging? || c.pc.Done?
    ensures var c' := CallStep(sh, c, e).call;
      !Success(c'.last.code) && (Counted(c') <==> Counted(c) || c.pc.Counting?)
  {
    hide L.SettleUsage, Billing.UsageCost, TouchProxyErr, TouchProxyOK, S.Spent;
  }

  /**
   A finished call to Evaluate had its tokens counted at a step of its own exactly if it answered with a 2xx; there
   was one such step, and the reply it counted is the one the call passed on.
   */
  lemma {:induction false} CountedOnceIff(es: seq<Event>, k: nat)
    requires k < |Run(es).calls| && Run(es).calls[k].pc.Done? && Run(es).calls[k].task.Evaluation?
    ensures var plan := Run(es).calls[k].pc.plan;
      ((exists i: nat :: CountsAt(es, k, i)) <==> 200 <= plan.status < 300) &&
      (forall i: nat, j: nat :: CountsAt(es, k, i) && CountsAt(es, k, j) ==> i == j) &&
      forall i: nat :: CountsAt(es, k, i) ==>
        LatestReply(es[..i], k).Some? && LatestReply(es[..i], k).value.Http? &&
        LatestReply(es[..i], k).value.status == plan.status &&
        LatestReply(es[..i], k).value.inputTokens == plan.inputTokens
  {
    CountedRight(es, k);
    forall i: nat | CountsAt(es, k, i)
      ensures LatestReply(es[..i], k).Some? && LatestReply(es[..i], k).value.Http?
      ensures LatestReply(es[..i], k).value.status == Run(es).calls[k].pc.plan.status
      ensures LatestReply(es[..i], k).value.inputTokens == Run(es).calls[k].pc.plan.inputTokens
    {
      CountedIsAnswer(es, k, i);
    }
  }

  /** The count of a call is behind it exactly if one of its steps, and only one, counted. */
  ghost predicate CountRight(es: seq<Event>, k: nat, c: Call) {
    NoFalseSuccess(c) && (Counted(c) <==> exists i: nat :: CountsAt(es, k, i)) &&
    forall i: nat, j: nat :: CountsAt(es, k, i) && CountsAt(es, k, j) ==> i == j
  }

  lemma {:induction false} CountsLater(es: seq<Event>, ev: Event, k: nat)
    ensures forall i: nat :: i < |es| ==> (CountsAt(es + [ev], k, i) <==> CountsAt(es, k, i))
  {
    forall i: nat | i < |es| ensures (es + [ev])[..i] == es[..i] && (es + [ev])[i] == es[i] {
    }
  }

  lemma {:induction false} StepCountsRight(es: seq<Event>, ev: Event, k: nat, c: Call, c': Call)
    requires CountRight(es, k, c) && NoFalseSuccess(c')
    requires CountsAt(es + [ev], k, |es|) ==> !Counted(c) && Counted(c')
    requires !CountsAt(es + [ev], k, |es|) ==> (Counted(c') <==> Counted(c))
    ensures CountRight(es + [ev], k, c')
  {
    hide NoFalseSuccess, Counted, Run;
    var es' := es + [ev];
    CountsLater(es, ev, k);
    forall i: nat | CountsAt(es, k, i) ensures CountsAt(es', k, i) {
    }
    forall i: nat | CountsAt(es', k, i) && i != |es| ensures CountsAt(es, k, i) {
    }
  }

  lemma {:induction false} NothingCounted(es: seq<Event>, k: nat, c: Call)
    requires k >= |Run(es).calls| && c.pc.Enter? && c.i == 0 && c.exclude == {} && c.last == NO_LAST
    ensures CountRight(es, k, c)
  {
    forall i: nat ensures !CountsAt(es, k, i) {
      if i < |es| {
        CallsGrow(es, i);
      }
    }
  }

  lemma {:induction false} CountedRight(es: seq<Event>, k: nat)
    requires k < |Run(es).calls|
    ensures CountRight(es, k, Run(es).calls[k])
  {
    if es != [] {
      var before, ev := es[..|es| - 1], es[|es| - 1];
      assert before + [ev] == es && es[..|before|] == before;
      hide Apply, CallStep, CountRight, Counted, NoFalseSuccess;
      if k >= |Run(before).calls| {
        StartsOne(Run(before), ev);
        BeforeOrNew(Run(before), ev, k);
        NewCounts(before, ev, k);
      } else {
        CountedRight(before, k);
        CallMoves(Run(before), ev, k);
        OneCounts(before, ev, k);
      }
    }
  }

  lemma {:induction false} NewCounts(es: seq<Event>, ev: Event, k: nat)
    requires |Run(es).calls| <= k < |Apply(Run(es), ev).calls|
    ensures CountRight(es + [ev], k, Apply(Run(es), ev).calls[k])
  {
    hide CallStep, Run, Apply;
    StartsOne(Run(es), ev);
    var c := Apply(Run(es), ev).calls[k];
    NothingCounted(es, k, c);
    assert (es + [ev])[..|es|] == es;
    StepCountsRight(es, ev, k, c, c);
  }

  lemma {:induction false} OneCounts(es: seq<Event>, ev: Event, k: nat)
    requires k < |Run(es).calls| && CountRight(es, k, Run(es).calls[k])
    ensures k < |Apply(Run(es), ev).calls| && CountRight(es + [ev], k, Apply(Run(es), ev).calls[k])
  {
    hide CallStep, Run, Apply;
    CallMoves(Run(es), ev, k);
    var c, c' := Run(es).calls[k], Apply(Run(es), ev).calls[k];
    assert (es + [ev])[..|es|] == es;
    if ev.act.Advance? && ev.act.call == k {
      StepCounts(Run(es).sh, c, EnvOf(ev));
    }
    StepCountsRight(es, ev, k, c, c');
  }

  lemma {:induction false} CountedIsAnswer(es: seq<Event>, k: nat, i: nat)
    requires CountsAt(es, k, i) && k < |Run(es).calls| && Run(es).calls[k].pc.Done?
    ensures var latest, plan := LatestReply(es[..i], k), Run(es).calls[k].pc.plan;
      latest.Some? && latest.value.Http? && latest.value.status == plan.status &&
      latest.value.inputTokens == plan.inputTokens
  {
    var c := Run(es[..i]).calls[k];
    RunStep(es, i);
    hide CallStep, Apply;
    AlwaysRemembers(es[..i], k);
    AlwaysTold(es[..i], k);
    CallMoves(Run(es[..i]), es[i], k);
    CountSettles(Run(es[..i]).sh, c, EnvOf(es[i]));
    PlanStays(es, k, i + 1);
  }

  lemma CountSettles(sh: Shared, c: Call, e: Env)
    requires c.pc.Counting? && Sound(c)
    ensures var pc := CallStep(sh, c, e).call.pc;
      pc.Settling? && pc.plan.status == c.pc.reply.status && pc.plan.inputTokens == c.pc.reply.inputTokens
  {
  }

  /** From the moment a call is settling, its answer stays. */
  lemma {:induction false} PlanStays(es: seq<Event>, k: nat, i: nat)
    requires i <= |es| && k < |Run(es[..i]).calls|
    requires var pc := Run(es[..i]).calls[k].pc; pc.Settling? || pc.Logging? || pc.Done?
    ensures k < |Run(es).calls| && var pc := Run(es).calls[k].pc;
      (pc.Settling? || pc.Logging? || pc.Done?) && pc.plan == Run(es[..i]).calls[k].pc.plan
  {
    hide CallStep, Apply;
    if i == |es| {
      assert es[..i] == es;
    } else {
      var n := |es| - 1;
      assert es[..n][..i] == es[..i];
      PlanStays(es[..n], k, i);
      CallMoves(Run(es[..n]), es[n], k);
      if Steps(es, k, n) {
        PlanStep(Run(es[..n]).sh, Run(es[..n]).calls[k], EnvOf(es[n]));
      }
    }
  }

  lemma PlanStep(sh: Shared, c: Call, e: Env)
    requires c.pc.Settling? || c.pc.Logging? || c.pc.Done?
    ensures var pc := CallStep(sh, c, e).call.pc; (pc.Logging? || pc.Done?) && pc.plan == c.pc.plan
  {
  }

  // ---------------------------------------------------------------- what the quota makes of it

  /**
   The quota binds: a usable key whose tokens, with what its calls had counted since, reach its quota is refused
   at its next look-up.
   */
  lemma {:induction false} SpentKeyIsRefused(es: seq<Event>, n: nat, v: nat, now: int)
    requires n <= |es| && forall i :: n <= i < |es| ==> !es[i].act.EditKeys?
    requires v < |Run(es).visits| && Run(es).visits[v].LookingUp?
    requires RowFor(Run(es).sh, Run(es).visits[v].digest, false).Some?
    requires var k := RowFor(Run(es).sh, Run(es).visits[v].digest, false).value;
      Admission.Usable(k, now) && k.id > 0 && k.id in Run(es[..n]).sh.tokens &&
      0 < k.tokenQuota <= Run(es[..n]).sh.tokens[k.id] + CountedSince(es, n, k.id)
    ensures Apply(Run(es), Event(now, Proceed(v, false))).visits[v] == Refused(Auth.QuotaExceeded)
  {
    var k := RowFor(Run(es).sh, Run(es).visits[v].digest, false).value;
    TokensAreExact(es, n, k.id);
    hide Run;
  }
}
