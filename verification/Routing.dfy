/**
 Where requests go, over every interleaving of calls, catalogue requests and probes with each other and
 with edits of the routing tables: the exit policy, no second request to the same upstream, at most three.
 */
module Routing {
  import opened Tables
  import opened OutProxy
  import opened CallMachine
  import opened Interleaving
  import P = Pool

  // ---------------------------------------------------------------- one call

  /** An exit that is chosen, or about to be, obeys the policy for the tables it was chosen from. */
  ghost predicate ExitOk(c: Call) {
    match c.pc
    case Spinning(up, _, exits, saw) =>
      exits != [] && forall n: nat :: SafeExit(saw.proxies, up, c.proxyExclude, saw.at, Spin(exits, n))
    case Forwarding(up, _, exit, saw) => SafeExit(saw.proxies, up, c.proxyExclude, saw.at, exit)
    case _ => true
  }

  lemma ExitStepOk(sh: Shared, c: Call, e: Env)
    requires c.pc.Exiting?
    ensures ExitOk(ExitStep(sh, c, e))
  {
    hide SafeExit, LookUp;
    DecidedIsSafe(sh.proxies, c.pc.up, c.proxyExclude, e.now, e.fails);
  }

  /** What a step from c to c' keeps of the exits and of the proxies given up on. */
  ghost predicate ExitStepsOk(c: Call, c': Call, e: Env) {
    ExitOk(c') && c.proxyExclude <= c'.proxyExclude &&
    (c.pc.Forwarding? && e.reply.Transport? && c.pc.exit.Via? ==> c.pc.exit.proxy in c'.proxyExclude)
  }

  lemma UsingStepsExitOk(sh: Shared, c: Call, e: Env)
    requires ExitOk(c) && (c.pc.Exiting? || c.pc.Spinning? || c.pc.Forwarding?)
    ensures ExitStepsOk(c, CallStep(sh, c, e).call, e)
  {
    hide SafeExit, LookUp;
    if c.pc.Exiting? {
      ExitStepOk(sh, c, e);
    }
  }

  lemma StepKeepsExitOk(sh: Shared, c: Call, e: Env)
    requires ExitOk(c)
    ensures ExitStepsOk(c, CallStep(sh, c, e).call, e)
  {
    if c.pc.Exiting? || c.pc.Spinning? || c.pc.Forwarding? {
      hide CallStep, ExitOk, ExitStepsOk;
      UsingStepsExitOk(sh, c, e);
    } else {
      hide CallStep, SafeExit;
      StepLeads(sh, c, e);
    }
  }

  /** The upstream a call is about to use is one it has not given up on, and the loop is not over. */
  ghost predicate Fresh(c: Call) {
    match c.pc
    case Picking => c.i < ATTEMPTS
    case Selecting(cands, _) => c.i < ATTEMPTS && forall u :: u in cands ==> u.id !in c.exclude
    case Limiting(up) => c.i < ATTEMPTS && up.id !in c.exclude
    case Exiting(up, _) => c.i < ATTEMPTS && up.id !in c.exclude
    case Spinning(up, _, _, _) => c.i < ATTEMPTS && up.id !in c.exclude
    case Forwarding(up, _, _, _) => c.i < ATTEMPTS && up.id !in c.exclude
    case MarkingProxy(_, _, _) => c.i < ATTEMPTS
    case MarkingUp(_, _) => c.i < ATTEMPTS
    case Counting(_, _) => c.i < ATTEMPTS
    case Enter => c.i == 0 && c.exclude == {}
    case _ => true
  }

  /** No more requests will leave on behalf of this call. */
  predicate Over(c: Call) {
    c.pc.Counting? || c.pc.Settling? || c.pc.Logging? || c.pc.Done?
  }

  /** The upstreams the call has used so far, while it may still use another. */
  function Used(c: Call): set<int> {
    c.exclude + (match c.pc
                 case MarkingProxy(up, _, _) => {up.id}
                 case MarkingUp(up, _) => {up.id}
                 case _ => {})
  }

  /** How many requests the call may have sent by now. */
  function Quota(c: Call): nat {
    if Over(c) then ATTEMPTS else c.i + (if c.pc.MarkingProxy? || c.pc.MarkingUp? then 1 else 0)
  }

  /** What a step from c to c' keeps; `sent` tells whether a request left in it. */
  ghost predicate FreshStep(c: Call, c': Call) {
    Fresh(c') && (Over(c) ==> Over(c')) && (!Over(c') ==> Used(c) <= Used(c')) &&
    Quota(c) + (if c.pc.Forwarding? then 1 else 0) <= Quota(c') <= ATTEMPTS &&
    (c.pc.Forwarding? ==> c.pc.up.id !in Used(c) && !Over(c) && (!Over(c') ==> c.pc.up.id in Used(c')))
  }

  lemma RetryIsFresh(c: Call, last: Last)
    requires c.pc.Limiting? || c.pc.Exiting? || c.pc.Spinning? || c.pc.MarkingUp?
    requires Fresh(c)
    ensures FreshStep(c, Retry(c, c.pc.up.id, last))
  {
  }

  lemma PickIsFresh(sh: Shared, c: Call, e: Env)
    requires c.pc.Picking? && Fresh(c)
    ensures FreshStep(c, PickStep(sh, c, e))
  {
    hide P.Candidates;
    P.CandidateIff(sh.upstreams, c.exclude, e.now);
  }

  lemma SelectIsFresh(sh: Shared, c: Call, e: Env)
    requires c.pc.Selecting? && Fresh(c)
    ensures FreshStep(c, SelectStep(sh, c, e).call)
  {
    hide P.Choose;
    if c.pc.cands != [] {
      P.ChosenIsCandidate(c.pc.cands, P.Advance(sh.poolCursor));
    }
  }

  lemma ExitIsFresh(sh: Shared, c: Call, e: Env)
    requires (c.pc.Exiting? || c.pc.Spinning?) && Fresh(c)
    ensures FreshStep(c, if c.pc.Exiting? then ExitStep(sh, c, e) else SpinStep(sh, c, e).call)
  {
    hide LookUp, Spin, LoopHead;
    RetryIsFresh(c, Last(502, ProxyError, 0));
    assert FreshStep(c, NoExit(c, c.pc.up));
    hide NoExit, Retry, FreshStep, Fresh;
    if c.pc.Exiting? {
      ExitGoesOn(sh, c, e);
    } else {
      SpinGoesOn(sh, c, e);
    }
  }

  lemma ExitGoesOn(sh: Shared, c: Call, e: Env)
    requires c.pc.Exiting? && Fresh(c) && FreshStep(c, NoExit(c, c.pc.up))
    ensures FreshStep(c, ExitStep(sh, c, e))
  {
    hide LookUp, NoExit;
  }

  lemma SpinGoesOn(sh: Shared, c: Call, e: Env)
    requires c.pc.Spinning? && Fresh(c) && FreshStep(c, NoExit(c, c.pc.up))
    ensures FreshStep(c, SpinStep(sh, c, e).call)
  {
    hide Spin, NoExit;
  }

  lemma LimitIsFresh(sh: Shared, c: Call, e: Env)
    requires c.pc.Limiting? && Fresh(c)
    ensures FreshStep(c, LimitStep(sh, c, e).call)
  {
    forall last ensures FreshStep(c, Retry(c, c.pc.up.id, last)) {
      RetryIsFresh(c, last);
    }
  }

  lemma MarkIsFresh(sh: Shared, c: Call, e: Env)
    requires (c.pc.MarkingUp? || c.pc.MarkingProxy?) && Fresh(c)
    ensures FreshStep(c, if c.pc.MarkingUp? then MarkUpStep(sh, c, e).call else MarkProxyStep(sh, c, e).call)
  {
    hide LoopHead;
    if c.pc.MarkingUp? {
      RetryIsFresh(c, LastOf(c.pc.reply));
    }
  }

  lemma StepKeepsFresh(sh: Shared, c: Call, e: Env)
    requires Fresh(c)
    ensures FreshStep(c, CallStep(sh, c, e).call)
  {
    hide FreshStep, Fresh, PickStep, SelectStep, LimitStep, ExitStep, SpinStep, MarkProxyStep, MarkUpStep;
    match c.pc {
      case Picking => PickIsFresh(sh, c, e);
      case Selecting(_, _) => SelectIsFresh(sh, c, e);
      case Limiting(_) => LimitIsFresh(sh, c, e);
      case Exiting(_, _) => ExitIsFresh(sh, c, e);
      case Spinning(_, _, _, _) => ExitIsFresh(sh, c, e);
      case MarkingProxy(_, _, _) => MarkIsFresh(sh, c, e);
      case MarkingUp(_, _) => MarkIsFresh(sh, c, e);
      case _ => EndsAreFresh(sh, c, e);
    }
  }

  lemma EndsAreFresh(sh: Shared, c: Call, e: Env)
    requires Fresh(c)
    requires c.pc.Enter? || c.pc.Forwarding? || c.pc.Counting? || c.pc.Settling? || c.pc.Logging? || c.pc.Done?
    ensures FreshStep(c, CallStep(sh, c, e).call)
  {
  }

  // ---------------------------------------------------------------- all calls

  function CountSent(sent: seq<Sent>, k: nat): nat {
    if sent == [] then 0 else CountSent(sent[..|sent| - 1], k) + (if sent[|sent| - 1].call == k then 1 else 0)
  }

  /** Every request that ever left used an exit the policy allows. */
  ghost predicate ExitsSafe(sent: seq<Sent>) {
    forall m :: 0 <= m < |sent| ==>
      SafeExit(sent[m].saw.proxies, sent[m].up, sent[m].excluded, sent[m].saw.at, sent[m].exit)
  }

  /** A proxy that failed an earlier request of the same call was excluded when this one's exit was chosen. */
  ghost predicate FailedExcluded(sent: seq<Sent>) {
    forall j, m :: 0 <= j < m < |sent| && sent[j].call == sent[m].call && sent[j].failed && sent[j].exit.Via? ==>
      sent[j].exit.proxy in sent[m].excluded
  }

  ghost predicate NoRepeats(sent: seq<Sent>) {
    forall j, m :: 0 <= j < m < |sent| && sent[j].call == sent[m].call ==> sent[j].up.id != sent[m].up.id
  }

  /** What the calls remember about the requests they sent. */
  ghost predicate Remembered(calls: seq<Call>, sent: seq<Sent>) {
    forall m :: 0 <= m < |sent| ==>
      sent[m].call < |calls| &&
      (sent[m].failed && sent[m].exit.Via? ==> sent[m].exit.proxy in calls[sent[m].call].proxyExclude) &&
      (!Over(calls[sent[m].call]) ==> sent[m].up.id in Used(calls[sent[m].call]))
  }

  ghost predicate CallsOk(calls: seq<Call>, sent: seq<Sent>) {
    (forall k :: 0 <= k < |calls| ==>
       ExitOk(calls[k]) && Fresh(calls[k]) && CountSent(sent, k) <= Quota(calls[k]) <= ATTEMPTS) &&
    (forall k: nat :: k >= |calls| ==> CountSent(sent, k) == 0)
  }

  ghost predicate Routes(s: System) {
    ExitsSafe(s.sent) && FailedExcluded(s.sent) && NoRepeats(s.sent) &&
    Remembered(s.calls, s.sent) && CallsOk(s.calls, s.sent)
  }

  lemma CountSentAppend(sent: seq<Sent>, x: Sent, k: nat)
    ensures CountSent(sent + [x], k) == CountSent(sent, k) + (if x.call == k then 1 else 0)
  {
    assert (sent + [x])[..|sent|] == sent;
  }

  lemma {:induction false} AdvanceKeepsRemembered(s: System, k: nat, e: Env)
    requires Routes(s) && k < |s.calls|
    ensures Remembered(AdvanceCall(s, k, e).calls, AdvanceCall(s, k, e).sent)
  {
    hide CallStep, ExitOk, Fresh, Used, Over, Quota;
    StepKeepsExitOk(s.sh, s.calls[k], e);
    StepKeepsFresh(s.sh, s.calls[k], e);
  }

  lemma SentCounts(s: System, k: nat, e: Env, j: nat)
    requires k < |s.calls|
    ensures CountSent(AdvanceCall(s, k, e).sent, j) ==
      CountSent(s.sent, j) + (if j == k && s.calls[k].pc.Forwarding? then 1 else 0)
  {
    hide CallStep;
    var c := s.calls[k];
    if c.pc.Forwarding? {
      CountSentAppend(s.sent, SentBy(k, c, e)[0], j);
    } else {
      assert AdvanceCall(s, k, e).sent == s.sent;
    }
  }

  lemma {:induction false} AdvanceKeepsCalls(s: System, k: nat, e: Env)
    requires Routes(s) && k < |s.calls|
    ensures CallsOk(AdvanceCall(s, k, e).calls, AdvanceCall(s, k, e).sent)
  {
    hide CallStep, ExitOk, Fresh, Used, Over, Quota;
    var c, s' := s.calls[k], AdvanceCall(s, k, e);
    assert s'.calls == s.calls[k := CallStep(s.sh, c, e).call];
    StepKeepsExitOk(s.sh, c, e);
    StepKeepsFresh(s.sh, c, e);
    hide AdvanceCall, CountSent;
    forall j: nat
      ensures CountSent(s'.sent, j) == CountSent(s.sent, j) + (if j == k && c.pc.Forwarding? then 1 else 0) {
      SentCounts(s, k, e, j);
    }
  }

  lemma AdvanceKeepsSent(s: System, k: nat, e: Env)
    requires Routes(s) && k < |s.calls|
    ensures var sent := AdvanceCall(s, k, e).sent; ExitsSafe(sent) && FailedExcluded(sent) && NoRepeats(sent)
  {
    hide CallStep, Used, Over, SafeExit;
    var c := s.calls[k];
    if c.pc.Forwarding? {
      StepKeepsFresh(s.sh, c, e);
      assert s.sent + SentBy(k, c, e) == s.sent + [SentBy(k, c, e)[0]];
    } else {
      assert s.sent + SentBy(k, c, e) == s.sent;
    }
  }

  lemma {:induction false} ApplyKeepsRoutes(s: System, ev: Event)
    requires Routes(s)
    ensures Routes(Apply(s, ev))
  {
    hide AdvanceCall, ExitsSafe, FailedExcluded, NoRepeats, SafeExit;
    if ev.act.Advance? {
      if ev.act.call < |s.calls| {
        AdvanceKeepsSent(s, ev.act.call, EnvOf(ev));
        AdvanceKeepsCalls(s, ev.act.call, EnvOf(ev));
        AdvanceKeepsRemembered(s, ev.act.call, EnvOf(ev));
      }
    } else {
      assert Apply(s, ev).sent == s.sent;
    }
  }

  lemma {:induction false} RoutesAlwaysSafe(es: seq<Event>)
    ensures Routes(Run(es))
  {
    if es != [] {
      RoutesAlwaysSafe(es[..|es| - 1]);
      ApplyKeepsRoutes(Run(es[..|es| - 1]), es[|es| - 1]);
    }
  }

  // ---------------------------------------------------------------- what was seen was there

  /**
   At the step at which call k chose an exit for upstream up, with at most n requests sent by anyone, the
   proxy table was exactly this and the clock read exactly that.
   */
  ghost predicate WasSeen(es: seq<Event>, k: nat, up: Upstream, saw: Sighting, n: nat) {
    exists i: nat :: SeenAt(es, i, k, up, saw, n)
  }

  ghost predicate SeenAt(es: seq<Event>, i: nat, k: nat, up: Upstream, saw: Sighting, n: nat) {
    i < |es| && es[i].act.Advance? && es[i].act.call == k && es[i].now == saw.at &&
    var s := Run(es[..i]);
    k < |s.calls| && s.calls[k].pc.Exiting? && s.calls[k].pc.up == up && s.sh.proxies == saw.proxies && |s.sent| <= n
  }

  ghost predicate SightingsReal(es: seq<Event>, s: System) {
    (forall m :: 0 <= m < |s.sent| ==> WasSeen(es, s.sent[m].call, s.sent[m].up, s.sent[m].saw, m)) &&
    (forall k :: 0 <= k < |s.calls| ==>
      (s.calls[k].pc.Spinning? || s.calls[k].pc.Forwarding? ==>
        WasSeen(es, k, s.calls[k].pc.up, s.calls[k].pc.saw, |s.sent|)))
  }

  lemma SeenLater(es: seq<Event>, ev: Event, k: nat, up: Upstream, saw: Sighting, n: nat, n': nat)
    requires WasSeen(es, k, up, saw, n) && n <= n'
    ensures WasSeen(es + [ev], k, up, saw, n')
  {
    var i: nat :| SeenAt(es, i, k, up, saw, n);
    assert (es + [ev])[..i] == es[..i] && (es + [ev])[i] == es[i];
    assert SeenAt(es + [ev], i, k, up, saw, n');
  }

  /** Only an exit step takes a new sighting, and it sees the tables as they are. */
  ghost predicate Saw(sh: Shared, c: Call, c': Call, e: Env) {
    c'.pc.Spinning? || c'.pc.Forwarding? ==>
      if c.pc.Exiting? then c'.pc.saw == Sighting(e.now, sh.proxies) && c'.pc.up == c.pc.up
      else (c.pc.Spinning? || c.pc.Forwarding?) && c'.pc.saw == c.pc.saw && c'.pc.up == c.pc.up
  }

  lemma ExitSaw(sh: Shared, c: Call, e: Env)
    ensures c.pc.Exiting? ==> Saw(sh, c, ExitStep(sh, c, e), e)
    ensures c.pc.Spinning? ==> Saw(sh, c, SpinStep(sh, c, e).call, e)
  {
    hide LookUp, Spin;
  }

  lemma StepKeepsSighting(sh: Shared, c: Call, e: Env)
    ensures Saw(sh, c, CallStep(sh, c, e).call, e)
  {
    if c.pc.Exiting? || c.pc.Spinning? {
      hide Saw, ExitStep, SpinStep;
      ExitSaw(sh, c, e);
    } else {
      hide CallStep;
      StepLeads(sh, c, e);
    }
  }

  lemma {:induction false} SightingsAlwaysReal(es: seq<Event>)
    ensures SightingsReal(es, Run(es))
  {
    hide Apply, SightingsReal;
    if es == [] {
      NothingSeen();
    } else {
      var es', ev := es[..|es| - 1], es[|es| - 1];
      SightingsAlwaysReal(es');
      assert es' + [ev] == es;
      if ev.act.Advance? && ev.act.call < |Run(es').calls| {
        AdvanceSightings(es', ev);
      } else {
        OtherSightings(es', ev);
      }
    }
  }

  lemma NothingSeen()
    ensures SightingsReal([], START)
  {
  }

  lemma {:induction false} OtherSightings(es: seq<Event>, ev: Event)
    requires SightingsReal(es, Run(es)) && !(ev.act.Advance? && ev.act.call < |Run(es).calls|)
    ensures SightingsReal(es + [ev], Apply(Run(es), ev))
  {
    hide CallStep, Run, WasSeen;
    var s := Run(es);
    var s' := Apply(s, ev);
    StartsOne(s, ev);
    assert s'.sent == s.sent;
    forall m | 0 <= m < |s.sent| ensures WasSeen(es + [ev], s.sent[m].call, s.sent[m].up, s.sent[m].saw, m) {
      SeenLater(es, ev, s.sent[m].call, s.sent[m].up, s.sent[m].saw, m, m);
    }
    forall k | 0 <= k < |s'.calls| && (s'.calls[k].pc.Spinning? || s'.calls[k].pc.Forwarding?)
      ensures WasSeen(es + [ev], k, s'.calls[k].pc.up, s'.calls[k].pc.saw, |s'.sent|)
    {
      assert k < |s.calls| && s'.calls[k] == s.calls[k];
      SeenLater(es, ev, k, s.calls[k].pc.up, s.calls[k].pc.saw, |s.sent|, |s.sent|);
    }
  }

  lemma {:induction false} AdvanceSightings(es: seq<Event>, ev: Event)
    requires SightingsReal(es, Run(es)) && ev.act.Advance? && ev.act.call < |Run(es).calls|
    ensures SightingsReal(es + [ev], Apply(Run(es), ev))
  {
    hide CallStep, Run, WasSeen;
    var s, k, e := Run(es), ev.act.call, EnvOf(ev);
    var c, s' := s.calls[k], Apply(s, ev);
    StepKeepsSighting(s.sh, c, e);
    forall m | 0 <= m < |s'.sent| ensures WasSeen(es + [ev], s'.sent[m].call, s'.sent[m].up, s'.sent[m].saw, m) {
      SeenLater(es, ev, s'.sent[m].call, s'.sent[m].up, s'.sent[m].saw, m, m);
    }
    forall j | 0 <= j < |s'.calls| && (s'.calls[j].pc.Spinning? || s'.calls[j].pc.Forwarding?)
      ensures WasSeen(es + [ev], j, s'.calls[j].pc.up, s'.calls[j].pc.saw, |s'.sent|)
    {
      if j == k && c.pc.Exiting? {
        SeenNow(es, ev, s'.calls[j].pc.saw, |s'.sent|);
      } else {
        SeenLater(es, ev, j, s'.calls[j].pc.up, s'.calls[j].pc.saw, |s.sent|, |s'.sent|);
      }
    }
  }

  lemma {:induction false} SeenNow(es: seq<Event>, ev: Event, saw: Sighting, n: nat)
    requires ev.act.Advance? && ev.act.call < |Run(es).calls| && Run(es).calls[ev.act.call].pc.Exiting?
    requires saw == Sighting(ev.now, Run(es).sh.proxies) && |Run(es).sent| <= n
    ensures WasSeen(es + [ev], ev.act.call, Run(es).calls[ev.act.call].pc.up, saw, n)
  {
    assert (es + [ev])[..|es|] == es;
    assert SeenAt(es + [ev], |es|, ev.act.call, Run(es).calls[ev.act.call].pc.up, saw, n);
  }

  // ---------------------------------------------------------------- the laws

  /**
   Exit safety: every request to an upstream bound to proxy n went through n, which was live when chosen;
   to a forced-direct upstream it went direct; to an unbound one it went direct only if no proxy was live
   when chosen, and otherwise through a live proxy. "When chosen" is the step at which that very call chose
   its exit for that upstream, before the request left: the proxy table and the clock at that step.
   */
  lemma {:induction false} ExitPolicyHolds(es: seq<Event>, m: nat)
    requires m < |Run(es).sent|
    ensures var x := Run(es).sent[m];
      WasSeen(es, x.call, x.up, x.saw, m) && SafeExit(x.saw.proxies, x.up, x.excluded, x.saw.at, x.exit)
  {
    RoutesAlwaysSafe(es);
    SightingsAlwaysReal(es);
  }

  /** Within one call, an unbound upstream is never reached through a proxy that already failed in that call. */
  lemma {:induction false} FailedProxyNotReused(es: seq<Event>, j: nat, m: nat)
    requires var sent := Run(es).sent;
      j < m < |sent| && sent[j].call == sent[m].call && sent[j].failed && sent[m].up.proxyId.None?
    ensures var sent := Run(es).sent; sent[m].exit.Direct? || sent[m].exit != sent[j].exit
  {
    RoutesAlwaysSafe(es);
  }

  /** One call sends at most three requests, each to another upstream. */
  lemma {:induction false} AtMostThreeUpstreams(es: seq<Event>, k: nat)
    ensures CountSent(Run(es).sent, k) <= ATTEMPTS
    ensures var sent := Run(es).sent;
      forall j, m :: 0 <= j < m < |sent| && sent[j].call == k == sent[m].call ==> sent[j].up.id != sent[m].up.id
  {
    RoutesAlwaysSafe(es);
  }
}
