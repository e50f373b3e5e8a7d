/**
 What a call answers, over every interleaving, told from the one event of the run that decides it: the reply,
 the refusal or the failure the caller gets to see.
 */
module Answers {
  import opened Wrappers
  import opened Tables
  import opened OutProxy
  import opened CallMachine
  import opened Interleaving
  import opened Outcomes
  import L = Ledger
  import P = Pool
  import RateLimit
  import RetryAfter
  import Billing

  /** The answer, and on how many upstreams the call has given up by the time it gives it. */
  datatype Verdict = Verdict(plan: Plan, lost: nat)

  // ---------------------------------------------------------------- what decides

  /** An attempt failed this way. Evaluate reports it if it is the third; Models then lists what it knows by itself. */
  function Lost(c: Call, status: int, retryAfter: int): Option<Verdict> {
    if c.task.Probing? then Some(Verdict(Plan(status, None, 0, 0), |c.exclude| + 1))
    else if |c.exclude| < 2 then None
    else if c.task.Catalogue? then Some(Verdict(Plan(200, None, 0, 0), |c.exclude| + 1))
    else Some(Verdict(Plan(status, None, 0, retryAfter), |c.exclude| + 1))
  }

  /** What an upstream's reply decides. A final one is passed on, whatever its status. */
  function ByReply(c: Call, up: Upstream, reply: Reply): Option<Verdict> {
    match reply
    case Transport => Lost(c, 502, 0)
    case Http(status, tokens, retryAfter) =>
      if status == 429 || status == 529 || status >= 500 || status == 401 || status == 403 then
        Lost(c, status, match retryAfter case Some(n) => n case None => 0)
      else if c.task.Probing? && !(200 <= status < 300) then Lost(c, status, 0)
      else Some(Verdict(Plan(status, Some(up.id), if c.task.Evaluation? then tokens else 0, 0), |c.exclude|))
  }

  /** What validation and hold decide. */
  function ByEntry(c: Call, db: L.Db, fails: bool): Option<Verdict> {
    match c.task
    case Probing(_) => None
    case Catalogue(cached) => if cached then Some(Verdict(Plan(200, None, 0, 0), |c.exclude|)) else None
    case Evaluation =>
      if !c.bodyOk then Some(Verdict(Plan(400, None, 0, 0), |c.exclude|))
      else if c.user.None? || c.user.value.owner.None? then None
      else
        var account := c.user.value.owner.value;
        if fails || account !in db.accounts then Some(Verdict(Plan(500, None, 0, 0), |c.exclude|))
        else if db.accounts[account].credits < 1 then Some(Verdict(Plan(402, None, 0, 0), |c.exclude|))
        else None
  }

  /** What the table decides: no row of it is open to the call. */
  ghost function ByTable(c: Call, ups: seq<Upstream>, now: int, fails: bool): Option<Verdict> {
    if fails then Some(Verdict(Plan(500, None, 0, 0), |c.exclude|))
    else if exists u :: u in ups && u.status == "active" && u.cooldownUntil <= now && u.id !in c.exclude then None
    else Some(Verdict(Plan(if c.task.Evaluation? then 503 else 200, None, 0, 0), |c.exclude|))
  }

  /** What the upstream's own limiter decides: the whole seconds until the oldest counted admission is a minute old. */
  ghost function ByLimiter(c: Call, ws: RateLimit.Windows, up: Upstream, now: int): Option<Verdict> {
    var key := RateLimit.UpstreamRpm(up.id);
    if RetryAfter.Refused(ws, key, up.rpmLimit, 60_000, now) then
      var left := RetryAfter.Counted(ws, key, 60_000, now)[0] + 60_000 - now;
      Lost(c, 429, if left < 1_000 then 1 else left / 1_000)
    else None
  }

  /** Upstream and call are left without an exit. */
  ghost predicate Stranded(c: Call, proxies: seq<Proxy>, up: Upstream, e: Env) {
    match up.proxyId
    case Some(id) => id != 0 && (e.fails || e.sealed || !MayUse(proxies, id, e.now))
    case None =>
      e.fails ||
      ((exists p :: p in proxies && Pooled(p, e.now)) &&
       forall p :: p in proxies && Pooled(p, e.now) ==> p.id in c.proxyExclude)
  }

  /** What a step of the call decides about its answer, if anything. */
  ghost function Decides(sh: Shared, c: Call, e: Env): Option<Verdict> {
    match c.pc
    case Enter => ByEntry(c, sh.db, e.fails)
    case Picking => ByTable(c, sh.upstreams, e.now, e.fails)
    case Selecting(_, _) => if e.sealed then Some(Verdict(Plan(500, None, 0, 0), |c.exclude|)) else None
    case Limiting(up) => ByLimiter(c, sh.windows, up, e.now)
    case Exiting(up, _) => if Stranded(c, sh.proxies, up, e) then Lost(c, 502, 0) else None
    case Spinning(up, _, _, _) => if e.sealed then Lost(c, 502, 0) else None
    case Forwarding(up, _, _, _) => ByReply(c, up, e.reply)
    case _ => None
  }

  // ---------------------------------------------------------------- what is decided

  /** The answer a call carries once it is decided. */
  function Carries(c: Call): Option<Verdict> {
    match c.pc
    case MarkingProxy(up, _, reply) => ByReply(c, up, reply)
    case MarkingUp(up, reply) => ByReply(c, up, reply)
    case Counting(up, reply) => ByReply(c, up, reply)
    case Settling(_, _, plan) => Some(Verdict(plan, |c.exclude|))
    case Logging(plan) => Some(Verdict(plan, |c.exclude|))
    case Done(plan) => Some(Verdict(plan, |c.exclude|))
    case _ => None
  }

  /** One attempt for each upstream given up on, and the upstream in use is another one. */
  ghost predicate InUse(c: Call, up: Upstream) {
    |c.exclude| == c.i < ATTEMPTS && up.id !in c.exclude
  }

  ghost predicate Sound(c: Call) {
    match c.pc
    case Enter => c.i == 0 && c.exclude == {}
    case Picking => !c.task.Probing? && |c.exclude| == c.i < ATTEMPTS
    case Selecting(cands, _) => !c.task.Probing? && cands != [] && forall u :: u in cands ==> InUse(c, u)
    case Limiting(up) => c.task.Evaluation? && InUse(c, up)
    case Exiting(up, _) => InUse(c, up)
    case Spinning(up, _, exits, _) => InUse(c, up) && exits != []
    case Forwarding(up, _, _, _) => InUse(c, up)
    case MarkingProxy(up, _, _) => InUse(c, up)
    case MarkingUp(up, reply) => InUse(c, up) && (c.task.Evaluation? ==> Failing(reply) || Success(reply.status))
    case Counting(up, reply) => c.task.Evaluation? && reply.Http? && Success(reply.status)
    case _ => true
  }

  /** What one step does to the answer: a decided one stays, an undecided one is decided by this step or not yet. */
  ghost predicate Follows(sh: Shared, c: Call, e: Env, c': Call) {
    Sound(c') && Carries(c') == if Carries(c).Some? then Carries(c) else Decides(sh, c, e)
  }

  // ---------------------------------------------------------------- one step

  lemma OneMoreLost(c: Call, up: Upstream)
    requires InUse(c, up)
    ensures |c.exclude + {up.id}| == |c.exclude| + 1
  {
  }

  /** Giving up on the upstream in use loses the attempt, and the third one decides. */
  lemma RetryFollows(c: Call, up: Upstream, last: Last)
    requires InUse(c, up) && (c.task.Evaluation? ==> last.code != 0)
    ensures Sound(Retry(c, up.id, last)) && Carries(Retry(c, up.id, last)) == Lost(c, last.code, last.retryAfter)
  {
    OneMoreLost(c, up);
  }

  lemma EnterFollows(sh: Shared, c: Call, e: Env)
    requires c.pc.Enter? && Sound(c)
    ensures Follows(sh, c, e, EnterStep(sh, c, e).call)
  {
  }

  lemma PickFollows(sh: Shared, c: Call, e: Env)
    requires c.pc.Picking? && Sound(c)
    ensures Follows(sh, c, e, PickStep(sh, c, e))
  {
    hide P.Candidates;
    var cands := P.Candidates(sh.upstreams, c.exclude, e.now);
    P.CandidateIff(sh.upstreams, c.exclude, e.now);
    if cands != [] {
      assert cands[0] in cands;
    }
  }

  lemma SelectFollows(sh: Shared, c: Call, e: Env)
    requires c.pc.Selecting? && Sound(c)
    ensures Follows(sh, c, e, SelectStep(sh, c, e).call)
  {
    hide P.Choose;
    P.ChosenIsCandidate(c.pc.cands, P.Advance(sh.poolCursor));
  }

  lemma LimitFollows(sh: Shared, c: Call, e: Env)
    requires c.pc.Limiting? && Sound(c)
    ensures Follows(sh, c, e, LimitStep(sh, c, e).call)
  {
    var up := c.pc.up;
    RetryAfter.RefusedIff(sh.windows, RateLimit.UpstreamRpm(up.id), up.rpmLimit, RateLimit.MINUTE, e.now);
    var v := RateLimit.Decide(sh.windows, RateLimit.UpstreamRpm(up.id), up.rpmLimit, RateLimit.MINUTE, e.now).1;
    RetryFollows(c, up, Last(429, RateLimited, v.wait / RateLimit.SECOND));
    hide Retry, RateLimit.Prune;
  }

  lemma NoExitFollows(c: Call)
    requires (c.pc.Exiting? || c.pc.Spinning?) && Sound(c)
    ensures Sound(NoExit(c, c.pc.up)) && Carries(NoExit(c, c.pc.up)) == Lost(c, 502, 0)
  {
    if !c.task.Probing? {
      RetryFollows(c, c.pc.up, Last(502, ProxyError, 0));
    }
  }

  lemma StrandedIff(c: Call, proxies: seq<Proxy>, up: Upstream, e: Env)
    ensures Stranded(c, proxies, up, e) <==>
      match LookUp(proxies, up, c.proxyExclude, e.now, e.fails)
      case Decided(Ok(exit)) => exit.Via? && e.sealed
      case Decided(Err(_)) => true
      case Among(_) => false
  {
    ExitIs(proxies, up, c.proxyExclude, e.now, e.fails);
    hide LookUp, MayUse, Pooled;
  }

  lemma ExitFollows(sh: Shared, c: Call, e: Env)
    requires c.pc.Exiting? && Sound(c)
    ensures Follows(sh, c, e, ExitStep(sh, c, e))
  {
    NoExitFollows(c);
    ExitOrNot(sh, c, e);
    var c' := ExitStep(sh, c, e);
    if !Stranded(c, sh.proxies, c.pc.up, e) {
      assert InUse(c', c.pc.up) by {
        assert InUse(c, c.pc.up);
      }
    }
    hide ExitStep, NoExit, Stranded, Lost, InUse;
  }

  lemma ExitOrNot(sh: Shared, c: Call, e: Env)
    requires c.pc.Exiting?
    ensures var c' := ExitStep(sh, c, e);
      if Stranded(c, sh.proxies, c.pc.up, e) then c' == NoExit(c, c.pc.up)
      else
        c' == c.(pc := c'.pc) && (c'.pc.Forwarding? || (c'.pc.Spinning? && c'.pc.exits != [])) && c'.pc.up == c.pc.up
  {
    StrandedIff(c, sh.proxies, c.pc.up, e);
    AmongSome(sh.proxies, c.pc.up, c.proxyExclude, e);
    hide LookUp, NoExit, Stranded;
  }

  lemma {:induction false} AmongSome(proxies: seq<Proxy>, up: Upstream, exclude: set<int>, e: Env)
    ensures var look := LookUp(proxies, up, exclude, e.now, e.fails); look.Among? ==> look.cands != []
  {
  }

  lemma SpinFollows(sh: Shared, c: Call, e: Env)
    requires c.pc.Spinning? && Sound(c)
    ensures Follows(sh, c, e, SpinStep(sh, c, e).call)
  {
    NoExitFollows(c);
    hide NoExit;
  }

  /** A reply that is marked as a failure loses the attempt. */
  lemma ReplyLost(c: Call, up: Upstream, reply: Reply)
    requires MarksErr(c.task, reply)
    ensures var last := LastOf(reply);
      ByReply(c, up, reply) == Lost(c, last.code, last.retryAfter) && (c.task.Evaluation? ==> last.code != 0)
  {
  }

  /** Any other is passed on. */
  lemma ReplyPassed(c: Call, up: Upstream, reply: Reply)
    requires !MarksErr(c.task, reply)
    ensures reply.Http?
    ensures ByReply(c, up, reply) ==
      Some(Verdict(Plan(reply.status, Some(up.id), if c.task.Evaluation? then reply.inputTokens else 0, 0),
                   |c.exclude|))
  {
  }

  lemma MarkUpFollows(sh: Shared, c: Call, e: Env)
    requires c.pc.MarkingUp? && Sound(c)
    ensures Follows(sh, c, e, MarkUpStep(sh, c, e).call)
  {
    var up, reply := c.pc.up, c.pc.reply;
    if MarksErr(c.task, reply) {
      ReplyLost(c, up, reply);
      RetryFollows(c, up, LastOf(reply));
      hide Retry, ByReply, Lost, Sound;
    } else {
      MarkOkFollows(sh, c, e);
    }
  }

  lemma MarkOkFollows(sh: Shared, c: Call, e: Env)
    requires c.pc.MarkingUp? && Sound(c) && !MarksErr(c.task, c.pc.reply)
    ensures Follows(sh, c, e, MarkUpStep(sh, c, e).call)
  {
    var c' := MarkUpStep(sh, c, e).call;
    ReplyPassed(c, c.pc.up, c.pc.reply);
    if c'.pc.Counting? {
      ReplyPassed(c', c.pc.up, c.pc.reply);
    }
    hide ByReply, Lost;
  }

  lemma ForwardFollows(sh: Shared, c: Call, e: Env)
    requires c.pc.Forwarding? && Sound(c)
    ensures Follows(sh, c, e, ForwardStep(c, e))
  {
    SameAnswer(c, ForwardStep(c, e), c.pc.up, e.reply);
    hide ByReply;
  }

  /** What a reply decides depends on the task and on how many upstreams were given up. */
  lemma SameAnswer(c: Call, c': Call, up: Upstream, reply: Reply)
    requires c'.task == c.task && c'.exclude == c.exclude
    ensures ByReply(c', up, reply) == ByReply(c, up, reply)
  {
  }

  lemma MarkProxyFollows(sh: Shared, c: Call, e: Env)
    requires c.pc.MarkingProxy? && Sound(c)
    ensures Follows(sh, c, e, MarkProxyStep(sh, c, e).call)
  {
    SameAnswer(c, MarkProxyStep(sh, c, e).call, c.pc.up, c.pc.reply);
    if !MarksErr(c.task, c.pc.reply) {
      ReplyPassed(c, c.pc.up, c.pc.reply);
    }
    hide ByReply, TouchProxyErr, TouchProxyOK;
  }

  lemma CountFollows(sh: Shared, c: Call, e: Env)
    requires c.pc.Counting? && Sound(c)
    ensures Follows(sh, c, e, CountStep(sh, c, e).call)
  {
    ReplyPassed(c, c.pc.up, c.pc.reply);
    hide ByReply, Billing.UsageCost;
  }

  lemma EndFollows(sh: Shared, c: Call, e: Env)
    requires c.pc.Settling? || c.pc.Logging? || c.pc.Done?
    ensures Follows(sh, c, e, CallStep(sh, c, e).call)
  {
    hide L.SettleUsage;
  }

  lemma StepFollows(sh: Shared, c: Call, e: Env)
    requires Sound(c)
    ensures Follows(sh, c, e, CallStep(sh, c, e).call)
  {
    hide Follows, Sound, EnterStep, PickStep, SelectStep, LimitStep, ExitStep, SpinStep;
    hide ForwardStep, MarkProxyStep, MarkUpStep, CountStep;
    match c.pc {
      case Enter => EnterFollows(sh, c, e);
      case Picking => PickFollows(sh, c, e);
      case Selecting(_, _) => SelectFollows(sh, c, e);
      case Limiting(_) => LimitFollows(sh, c, e);
      case Exiting(_, _) => ExitFollows(sh, c, e);
      case Spinning(_, _, _, _) => SpinFollows(sh, c, e);
      case MarkingUp(_, _) => MarkUpFollows(sh, c, e);
      case Forwarding(_, _, _, _) => ForwardFollows(sh, c, e);
      case MarkingProxy(_, _, _) => MarkProxyFollows(sh, c, e);
      case Counting(_, _) => CountFollows(sh, c, e);
      case _ => EndFollows(sh, c, e);
    }
  }

  // ---------------------------------------------------------------- runs

  /** Event i is a step of call k and decides its answer to be v. */
  ghost predicate DecidedAt(es: seq<Event>, k: nat, i: nat, v: Verdict) {
    Steps(es, k, i) && Decides(Run(es[..i]).sh, Run(es[..i]).calls[k], EnvOf(es[i])) == Some(v)
  }

  /** What the call carries was decided at one of its steps, and no step decided anything else. */
  ghost predicate Told(es: seq<Event>, k: nat, c: Call) {
    Sound(c) && (forall v :: Carries(c) == Some(v) ==> exists i: nat :: DecidedAt(es, k, i, v)) &&
    forall i: nat, v :: DecidedAt(es, k, i, v) ==> Carries(c) == Some(v)
  }

  lemma {:induction false} DecidedLater(es: seq<Event>, ev: Event, k: nat)
    ensures forall i: nat, v :: i < |es| ==> (DecidedAt(es + [ev], k, i, v) <==> DecidedAt(es, k, i, v))
  {
    forall i: nat | i < |es| ensures (es + [ev])[..i] == es[..i] && (es + [ev])[i] == es[i] {
    }
  }

  lemma {:induction false} NewIsTold(es: seq<Event>, ev: Event, k: nat)
    requires |Run(es).calls| <= k < |Apply(Run(es), ev).calls|
    ensures Told(es + [ev], k, Apply(Run(es), ev).calls[k])
  {
    hide CallStep, Apply;
    StartsOne(Run(es), ev);
    var c := Apply(Run(es), ev).calls[k];
    assert Sound(c) && Carries(c).None?;
    forall i: nat, v ensures !DecidedAt(es + [ev], k, i, v) {
      if DecidedAt(es + [ev], k, i, v) {
        assert (es + [ev])[..i] == es[..i];
        CallsGrow(es, i);
      }
    }
  }

  lemma {:induction false} CallsGrow(es: seq<Event>, i: nat)
    requires i <= |es|
    ensures |Run(es[..i]).calls| <= |Run(es).calls|
  {
    hide Apply;
    if i == |es| {
      assert es[..i] == es;
    } else {
      assert es[..|es| - 1][..i] == es[..i];
      CallsGrow(es[..|es| - 1], i);
      StartsOne(Run(es[..|es| - 1]), es[|es| - 1]);
    }
  }

  lemma {:induction false} StepIsTold(es: seq<Event>, ev: Event, k: nat)
    requires k < |Run(es).calls| && Told(es, k, Run(es).calls[k]) && ev.act.Advance? && ev.act.call == k
    ensures Told(es + [ev], k, CallStep(Run(es).sh, Run(es).calls[k], EnvOf(ev)).call)
  {
    hide CallStep, Run, Decides, Sound, Carries;
    var n, es', s, c, e := |es|, es + [ev], Run(es), Run(es).calls[k], EnvOf(ev);
    var c' := CallStep(s.sh, c, e).call;
    assert es'[..n] == es && es'[n] == ev;
    StepFollows(s.sh, c, e);
    DecidedLater(es, ev, k);
    CarriersDecideNothing(s.sh, c, e);
    forall v | Carries(c') == Some(v) ensures exists i: nat :: DecidedAt(es', k, i, v) {
      if Carries(c).Some? {
        var i: nat :| DecidedAt(es, k, i, v);
        assert DecidedAt(es', k, i, v);
      } else {
        assert DecidedAt(es', k, n, v);
      }
    }
  }

  lemma CarriersDecideNothing(sh: Shared, c: Call, e: Env)
    ensures Carries(c).Some? ==> Decides(sh, c, e).None?
  {
  }

  lemma {:induction false} AlwaysTold(es: seq<Event>, k: nat)
    requires k < |Run(es).calls|
    ensures Told(es, k, Run(es).calls[k])
  {
    if es != [] {
      var before, ev := es[..|es| - 1], es[|es| - 1];
      assert before + [ev] == es && Run(es) == Apply(Run(before), ev);
      hide Apply, Run, Told, CallStep;
      if k >= |Run(before).calls| {
        NewIsTold(before, ev, k);
      } else {
        AlwaysTold(before, k);
        CallMoves(Run(before), ev, k);
        if ev.act.Advance? && ev.act.call == k {
          StepIsTold(before, ev, k);
        } else {
          OtherIsTold(before, ev, k, Run(before).calls[k]);
        }
      }
    }
  }

  lemma {:induction false} OtherIsTold(es: seq<Event>, ev: Event, k: nat, c: Call)
    requires Told(es, k, c) && !(ev.act.Advance? && ev.act.call == k)
    ensures Told(es + [ev], k, c)
  {
    hide Run, Decides, Sound, Carries;
    var es' := es + [ev];
    DecidedLater(es, ev, k);
    assert es'[|es|] == ev;
    forall v | Carries(c) == Some(v) ensures exists i: nat :: DecidedAt(es', k, i, v) {
      var i: nat :| DecidedAt(es, k, i, v);
      assert DecidedAt(es', k, i, v);
    }
  }

  /**
   In every run, the answer of a finished call is what one of its own steps decided - the reply it passed on,
   what failed at its third attempt, an empty table, a refused hold, a failure of its own - and no step of it
   decided another answer.
   */
  lemma {:induction false} AnswerIsDecided(es: seq<Event>, k: nat)
    requires k < |Run(es).calls| && Run(es).calls[k].pc.Done?
    ensures var c := Run(es).calls[k];
      (exists i: nat :: DecidedAt(es, k, i, Verdict(c.pc.plan, |c.exclude|))) &&
      forall i: nat, v :: DecidedAt(es, k, i, v) ==> v == Verdict(c.pc.plan, |c.exclude|)
  {
    var c := Run(es).calls[k];
    AlwaysTold(es, k);
    hide Run, DecidedAt;
    assert Carries(c) == Some(Verdict(c.pc.plan, |c.exclude|));
  }

  /** How a third attempt at event i failed, and what Evaluate then answers. */
  ghost predicate ThirdFailed(s: System, k: nat, ev: Event, plan: Plan)
    requires k < |s.calls| && ev.act.Advance?
  {
    var c, reply := s.calls[k], ev.act.reply;
    |c.exclude| == 2 && plan.upstream == None && plan.inputTokens == 0 &&
    match c.pc
    case Limiting(up) =>
      var key := RateLimit.UpstreamRpm(up.id);
      RetryAfter.Refused(s.sh.windows, key, up.rpmLimit, 60_000, ev.now) && plan.status == 429 &&
      var left := RetryAfter.Counted(s.sh.windows, key, 60_000, ev.now)[0] + 60_000 - ev.now;
      plan.retryAfter == if left < 1_000 then 1 else left / 1_000
    case Exiting(up, _) => Stranded(c, s.sh.proxies, up, EnvOf(ev)) && plan.status == 502 && plan.retryAfter == 0
    case Spinning(_, _, _, _) => ev.act.sealed && plan.status == 502 && plan.retryAfter == 0
    case Forwarding(_, _, _, _) =>
      if reply.Transport? then plan.status == 502 && plan.retryAfter == 0
      else
        (reply.status in {429, 529, 401, 403} || reply.status >= 500) && plan.status == reply.status &&
        plan.retryAfter == if reply.retryAfter.Some? then reply.retryAfter.value else 0
    case _ => false
  }

  /**
   A call to Evaluate that gave up on three upstreams answers with what happened at the third: the upstream's
   status and Retry-After, 502 if it could not be reached, or 429 and the seconds its limiter asks for.
   */
  lemma {:induction false} ThirdFailureIsReported(es: seq<Event>, k: nat)
    requires k < |Run(es).calls| && Run(es).calls[k].pc.Done? && Run(es).calls[k].task.Evaluation?
    requires |Run(es).calls[k].exclude| == 3
    ensures exists i: nat :: Steps(es, k, i) && ThirdFailed(Run(es[..i]), k, es[i], Run(es).calls[k].pc.plan)
  {
    AnswerIsDecided(es, k);
    var c := Run(es).calls[k];
    var i: nat :| DecidedAt(es, k, i, Verdict(c.pc.plan, 3));
    AlwaysTold(es[..i], k);
    SameTask(es, k, i);
    ThirdIsLost(Run(es[..i]), k, es[i], Verdict(c.pc.plan, 3));
  }

  lemma AtMostTwo(c: Call)
    requires Sound(c) && Carries(c).None?
    ensures |c.exclude| <= 2
  {
    if c.pc.Selecting? {
      assert InUse(c, c.pc.cands[0]);
    }
  }

  lemma {:induction false} ThirdIsLost(s: System, k: nat, ev: Event, v: Verdict)
    requires k < |s.calls| && ev.act.Advance? && Sound(s.calls[k]) && s.calls[k].task.Evaluation?
    requires Decides(s.sh, s.calls[k], EnvOf(ev)) == Some(v) && v.lost == 3
    ensures ThirdFailed(s, k, ev, v.plan)
  {
    AtMostTwo(s.calls[k]);
  }

  lemma {:induction false} SameTask(es: seq<Event>, k: nat, i: nat)
    requires i <= |es| && k < |Run(es[..i]).calls|
    ensures k < |Run(es).calls| && SameCaller(Run(es[..i]).calls[k], Run(es).calls[k])
  {
    hide CallStep, Apply;
    if i == |es| {
      assert es[..i] == es;
    } else {
      var n := |es| - 1;
      assert es[..n][..i] == es[..i];
      SameTask(es[..n], k, i);
      CallMoves(Run(es[..n]), es[n], k);
      if Steps(es, k, n) {
        StepLeads(Run(es[..n]).sh, Run(es[..n]).calls[k], EnvOf(es[n]));
      }
    }
  }

  // ---------------------------------------------------------------- the reply a call is working on

  /** The reply call k got last. */
  ghost function LatestReply(es: seq<Event>, k: nat): Option<Reply> {
    if es == [] then None
    else if Steps(es, k, |es| - 1) && Run(es[..|es| - 1]).calls[k].pc.Forwarding? then Some(es[|es| - 1].act.reply)
    else LatestReply(es[..|es| - 1], k)
  }

  /** The reply a call is working on is the one it got last; a probe without exit works on a transport error. */
  ghost predicate Remembers(c: Call, latest: Option<Reply>) {
    match c.pc
    case MarkingProxy(_, _, reply) => latest == Some(reply)
    case MarkingUp(_, reply) => latest == Some(reply) || (c.task.Probing? && latest.None? && reply == Transport)
    case Counting(_, reply) => latest == Some(reply)
    case Forwarding(_, _, _, _) => true
    case _ => c.task.Probing? && !Settled(c) && !c.pc.Settling? ==> latest.None?
  }

  lemma RetryRemembers(c: Call, up: int, last: Last, latest: Option<Reply>)
    ensures Remembers(Retry(c, up, last), latest)
  {
  }

  lemma StepRemembers(sh: Shared, c: Call, e: Env, latest: Option<Reply>)
    requires Remembers(c, latest)
    ensures Remembers(CallStep(sh, c, e).call, if c.pc.Forwarding? then Some(e.reply) else latest)
  {
    if c.pc.Exiting? || c.pc.Spinning? {
      ExitRemembers(sh, c, e, latest);
    } else if c.pc.MarkingUp? {
      MarkRemembers(sh, c, e, latest);
    } else if !c.pc.Forwarding? {
      hide CallStep;
      StepLeads(sh, c, e);
      StepStaysOpen(sh, c, e);
    }
  }

  /** A probe gets to its end by marking its upstream. */
  lemma StepStaysOpen(sh: Shared, c: Call, e: Env)
    requires !c.pc.Exiting? && !c.pc.Spinning? && !c.pc.Forwarding? && !c.pc.MarkingUp?
    ensures var c' := CallStep(sh, c, e).call;
      c.pc.MarkingProxy? && c.task.Probing? ==> c'.pc.MarkingUp?
  {
  }

  lemma MarkRemembers(sh: Shared, c: Call, e: Env, latest: Option<Reply>)
    requires c.pc.MarkingUp? && Remembers(c, latest)
    ensures Remembers(MarkUpStep(sh, c, e).call, latest)
  {
    RetryRemembers(c, c.pc.up.id, LastOf(c.pc.reply), latest);
    hide Retry;
  }

  lemma ExitRemembers(sh: Shared, c: Call, e: Env, latest: Option<Reply>)
    requires (c.pc.Exiting? || c.pc.Spinning?) && Remembers(c, latest)
    ensures Remembers(if c.pc.Exiting? then ExitStep(sh, c, e) else SpinStep(sh, c, e).call, latest)
  {
    assert Remembers(NoExit(c, c.pc.up), latest);
  }

  lemma {:induction false} AlwaysRemembers(es: seq<Event>, k: nat)
    requires k < |Run(es).calls|
    ensures Remembers(Run(es).calls[k], LatestReply(es, k))
  {
    if es != [] {
      var before, ev := es[..|es| - 1], es[|es| - 1];
      hide CallStep, Apply, Remembers;
      if k >= |Run(before).calls| {
        BeforeOrNew(Run(before), ev, k);
        NoReplyYet(before, k);
        NewRemembers(Run(es).calls[k], LatestReply(es, k));
      } else {
        AlwaysRemembers(before, k);
        CallMoves(Run(before), ev, k);
        if Steps(es, k, |es| - 1) {
          StepRemembers(Run(before).sh, Run(before).calls[k], EnvOf(ev), LatestReply(before, k));
        }
      }
    }
  }

  lemma {:induction false} NoReplyYet(es: seq<Event>, k: nat)
    requires k >= |Run(es).calls|
    ensures LatestReply(es, k).None?
  {
    if es != [] {
      StartsOne(Run(es[..|es| - 1]), es[|es| - 1]);
      hide Apply;
      NoReplyYet(es[..|es| - 1], k);
    }
  }

  lemma NewRemembers(c: Call, latest: Option<Reply>)
    requires c.pc.Enter? && latest.None?
    ensures Remembers(c, latest)
  {
  }
}
