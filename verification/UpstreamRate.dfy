/**
 The limiter and the retry loop together: however many calls run at once, the requests that took an
 admission to one upstream stay within its rate, counted by the moment of the admission. Every request of
 Evaluate takes one; catalogue requests and probes go out without.
 */
module UpstreamRate {
  import opened Wrappers
  import opened Seqs
  import opened Tables
  import opened Admission
  import opened CallMachine
  import opened Interleaving
  import opened RateLimit
  import P = Pool
  import H = RateLimitHistory

  /** An admission in (lo, hi]. */
  predicate Within(t: Option<int>, lo: int, hi: int) {
    t.Some? && lo < t.value <= hi
  }

  /** Requests to upstream u whose admission lies in (lo, hi]. */
  function SentIn(sent: seq<Sent>, u: int, lo: int, hi: int): nat {
    if sent == [] then 0
    else
      var x := sent[|sent| - 1];
      SentIn(sent[..|sent| - 1], u, lo, hi) + (if x.up.id == u && Within(x.admitted, lo, hi) then 1 else 0)
  }

  /** 1 if the call holds an admission to u from that window that it has not used yet. */
  function PendingOf(u: int, lo: int, hi: int): Call -> int {
    (c: Call) =>
      match c.pc
      case Exiting(up, t) => if up.id == u && Within(t, lo, hi) then 1 else 0
      case Spinning(up, t, _, _) => if up.id == u && Within(t, lo, hi) then 1 else 0
      case Forwarding(up, t, _, _) => if up.id == u && Within(t, lo, hi) then 1 else 0
      case _ => 0
  }

  function Admissions(limits: seq<H.Event>, u: int): seq<int> {
    H.History(map[], limits, UpstreamRpm(u))
  }

  // ---------------------------------------------------------------- the limiter's own history

  /** The shared windows are what the recorded limiter events produce. */
  ghost predicate LimitsOk(s: System) {
    s.sh.windows == H.Run(map[], s.limits)
  }

  lemma RunAppend(ws: Windows, es: seq<H.Event>, e: H.Event)
    ensures H.Run(ws, es + [e]) == H.Step(H.Run(ws, es), e)
    ensures forall key :: H.History(ws, es + [e], key) == H.History(ws, es, key) + H.Recorded(H.Run(ws, es), e, key)
  {
    assert (es + [e])[..|es|] == es;
  }

  lemma StepWindows(sh: Shared, c: Call, e: Env)
    ensures CallStep(sh, c, e).sh.windows ==
      if c.pc.Limiting? then Decide(sh.windows, UpstreamRpm(c.pc.up.id), c.pc.up.rpmLimit, MINUTE, e.now).0
      else sh.windows
  {
  }

  lemma AdvanceKeepsLimits(s: System, k: nat, e: Env)
    requires LimitsOk(s) && k < |s.calls|
    ensures LimitsOk(AdvanceCall(s, k, e))
  {
    hide CallStep;
    var c := s.calls[k];
    StepWindows(s.sh, c, e);
    if c.pc.Limiting? {
      RunAppend(map[], s.limits, LimitedBy(c, e)[0]);
    } else {
      assert s.limits + LimitedBy(c, e) == s.limits;
    }
  }

  lemma VisitKeepsLimits(s: System, i: nat, now: int, fails: bool)
    requires LimitsOk(s) && i < |s.visits|
    ensures LimitsOk(AdvanceVisit(s, i, now, fails))
  {
    var v := s.visits[i];
    if v.TakingSlot? {
      RunAppend(map[], s.limits, H.Attempt(UserRpm(v.key.id), v.key.rpmLimit, MINUTE, now));
    } else {
      assert s.limits + [] == s.limits;
    }
  }

  lemma ApplyKeepsLimits(s: System, ev: Event)
    requires LimitsOk(s)
    ensures LimitsOk(Apply(s, ev))
  {
    hide AdvanceCall, AdvanceVisit, Decide, Collect;
    match ev.act {
      case Advance(k, _, _, _) =>
        if k < |s.calls| {
          AdvanceKeepsLimits(s, k, EnvOf(ev));
        }
      case Proceed(i, fails) =>
        if i < |s.visits| {
          VisitKeepsLimits(s, i, ev.now, fails);
        }
      case SignInAttempt(kind, ip, limit, width) =>
        RunAppend(map[], s.limits, H.Attempt(Auth(kind, ip), limit, width, ev.now));
      case Sweep => RunAppend(map[], s.limits, H.Gc(ev.now));
      case _ =>
    }
  }

  lemma {:induction false} LimitsAlwaysOk(es: seq<Event>)
    ensures LimitsOk(Run(es))
  {
    if es != [] {
      LimitsAlwaysOk(es[..|es| - 1]);
      ApplyKeepsLimits(Run(es[..|es| - 1]), es[|es| - 1]);
    }
  }

  // ---------------------------------------------------------------- requests against admissions

  /** Requests sent and requests still to be sent never outnumber the admissions. */
  ghost predicate Covered(s: System, u: int, lo: int, hi: int) {
    SentIn(s.sent, u, lo, hi) + SumBy(s.calls, PendingOf(u, lo, hi)) <= H.CountIn(Admissions(s.limits, u), lo, hi)
  }

  /** Rows of u carry limit r wherever a call has copied them to. */
  ghost predicate Carries(c: Call, u: int, r: int) {
    match c.pc
    case Selecting(cands, _) => forall row :: row in cands && row.id == u ==> row.rpmLimit == r
    case Limiting(up) => up.id == u ==> up.rpmLimit == r
    case _ => true
  }

  ghost predicate Pinned(ups: seq<Upstream>, u: int, r: int) {
    forall row :: row in ups && row.id == u ==> row.rpmLimit == r
  }

  function Bit(b: bool): nat {
    if b then 1 else 0
  }

  /** An admission is used for at most one request, and only by the call that got it. */
  ghost predicate Spends(sh: Shared, c: Call, c': Call, e: Env, u: int, lo: int, hi: int) {
    var p := PendingOf(u, lo, hi);
    p(c') + Bit(c.pc.Forwarding? && c.pc.up.id == u && Within(c.pc.admitted, lo, hi)) <=
    p(c) + Bit(c.pc.Limiting? && c.pc.up.id == u && lo < e.now <= hi &&
               Decide(sh.windows, UpstreamRpm(u), c.pc.up.rpmLimit, MINUTE, e.now).1.ok)
  }

  lemma StepSpendsAdmission(sh: Shared, c: Call, e: Env, u: int, lo: int, hi: int)
    ensures Spends(sh, c, CallStep(sh, c, e).call, e, u, lo, hi)
  {
    hide Decide, CallStep;
    if c.pc.Limiting? || c.pc.Forwarding? {
      AttemptSpendsAdmission(sh, c, e, u, lo, hi);
    } else if c.pc.Enter? || c.pc.Selecting? {
      OpeningSpendsNothing(sh, c, e, u, lo, hi);
    } else {
      StepLeads(sh, c, e);
    }
  }

  lemma AttemptSpendsAdmission(sh: Shared, c: Call, e: Env, u: int, lo: int, hi: int)
    requires c.pc.Limiting? || c.pc.Forwarding?
    ensures Spends(sh, c, CallStep(sh, c, e).call, e, u, lo, hi)
  {
    hide Decide;
  }

  /** The steps that lead to an exit without an admission. */
  lemma OpeningSpendsNothing(sh: Shared, c: Call, e: Env, u: int, lo: int, hi: int)
    requires c.pc.Enter? || c.pc.Selecting?
    ensures PendingOf(u, lo, hi)(CallStep(sh, c, e).call) == 0
  {
    hide P.Candidates, P.Choose;
  }

  lemma {:induction false} TouchesKeepLimits(ups: seq<Upstream>, id: int, until: int, auth: bool, u: int, r: int)
    requires Pinned(ups, u, r)
    ensures Pinned(TouchUpstreamOK(ups, id), u, r)
    ensures Pinned(TouchUpstreamErr(ups, id, until, auth), u, r)
  {
    if ups != [] {
      assert ups[|ups| - 1] in ups && forall x :: x in ups[..|ups| - 1] ==> x in ups;
      TouchesKeepLimits(ups[..|ups| - 1], id, until, auth, u, r);
    }
  }

  lemma StepKeepsCarries(sh: Shared, c: Call, e: Env, u: int, r: int)
    requires Carries(c, u, r) && Pinned(sh.upstreams, u, r)
    ensures Carries(CallStep(sh, c, e).call, u, r)
  {
    hide P.Candidates, P.Choose, Pinned;
    if c.pc.Picking? {
      CandidatesArePinned(sh.upstreams, c.exclude, e.now, u, r);
    } else if c.pc.Selecting? {
      if c.pc.cands != [] {
        P.ChosenIsCandidate(c.pc.cands, P.Advance(sh.poolCursor));
      }
    } else {
      hide CallStep;
      StepLeads(sh, c, e);
    }
  }

  lemma CandidatesArePinned(ups: seq<Upstream>, exclude: set<int>, now: int, u: int, r: int)
    requires Pinned(ups, u, r)
    ensures Pinned(P.Candidates(ups, exclude, now), u, r)
    ensures forall row :: row in P.Candidates(ups, exclude, now) && row.id == u ==> row.rpmLimit == r
  {
    P.CandidateIff(ups, exclude, now);
  }

  lemma StepKeepsPinned(sh: Shared, c: Call, e: Env, u: int, r: int)
    requires Pinned(sh.upstreams, u, r)
    ensures Pinned(CallStep(sh, c, e).sh.upstreams, u, r)
  {
    hide Pinned;
    if c.pc.MarkingUp? {
      var status := StatusOf(c.pc.reply);
      TouchesKeepLimits(sh.upstreams, c.pc.up.id, e.now + CooldownMs(status), AuthFail(status), u, r);
    }
  }

  /** Everything the bound needs, for an upstream u whose limit is r throughout. */
  ghost predicate Steady(s: System, u: int, r: int, now: int) {
    LimitsOk(s) && Pinned(s.sh.upstreams, u, r) &&
    (forall k :: 0 <= k < |s.calls| ==> Carries(s.calls[k], u, r)) &&
    H.FixedLimit(s.limits, UpstreamRpm(u), r) && H.FixedWidth(s.limits, UpstreamRpm(u), MINUTE) &&
    H.Clocked(s.limits, now)
  }

  lemma AdvanceKeepsSteady(s: System, k: nat, e: Env, u: int, r: int, now: int)
    requires Steady(s, u, r, now) && now <= e.now && k < |s.calls|
    ensures Steady(AdvanceCall(s, k, e), u, r, e.now)
  {
    hide CallStep, Pinned, LimitsOk, Decide;
    AdvanceKeepsLimits(s, k, e);
    StepKeepsCarries(s.sh, s.calls[k], e, u, r);
    StepKeepsPinned(s.sh, s.calls[k], e, u, r);
  }

  lemma ApplyKeepsSteady(s: System, ev: Event, u: int, r: int, now: int)
    requires Steady(s, u, r, now) && now <= ev.now
    requires ev.act.EditTables? ==> Pinned(ev.act.upstreams, u, r)
    ensures Steady(Apply(s, ev), u, r, ev.now)
  {
    hide AdvanceCall, LimitsOk, Pinned;
    ApplyKeepsLimits(s, ev);
    if ev.act.Advance? {
      if ev.act.call < |s.calls| {
        AdvanceKeepsSteady(s, ev.act.call, EnvOf(ev), u, r, now);
      }
    } else {
      StartsOne(s, ev);
      OthersKeepLimits(s, ev, u, r, now);
    }
  }

  /** No event but a call's own step touches upstream keys of the limiter. */
  lemma OthersKeepLimits(s: System, ev: Event, u: int, r: int, now: int)
    requires !ev.act.Advance? && now <= ev.now
    requires H.FixedLimit(s.limits, UpstreamRpm(u), r) && H.FixedWidth(s.limits, UpstreamRpm(u), MINUTE)
    requires H.Clocked(s.limits, now)
    ensures var limits := Apply(s, ev).limits;
      H.FixedLimit(limits, UpstreamRpm(u), r) && H.FixedWidth(limits, UpstreamRpm(u), MINUTE) &&
      H.Clocked(limits, ev.now)
  {
    hide VisitStep;
  }

  lemma AdvanceKeepsCovered(s: System, k: nat, e: Env, u: int, r: int, now: int, lo: int, hi: int)
    requires Steady(s, u, r, now) && r > 0 && k < |s.calls| && Covered(s, u, lo, hi)
    ensures Covered(AdvanceCall(s, k, e), u, lo, hi)
  {
    hide CallStep, Decide;
    var c, s', f := s.calls[k], AdvanceCall(s, k, e), PendingOf(u, lo, hi);
    StepSpendsAdmission(s.sh, c, e, u, lo, hi);
    SumByUpdate(s.calls, k, s'.calls[k], f);
    if c.pc.Forwarding? {
      var x := SentBy(k, c, e)[0];
      assert s'.sent[..|s.sent|] == s.sent && s'.sent[|s.sent|] == x && |s'.sent| == |s.sent| + 1;
      assert s'.limits == s.limits;
    } else {
      assert s'.sent == s.sent;
      if c.pc.Limiting? {
        RunAppend(map[], s.limits, LimitedBy(c, e)[0]);
        H.CountSplit(Admissions(s.limits, u), H.Recorded(s.sh.windows, LimitedBy(c, e)[0], UpstreamRpm(u)), lo, hi);
        CountOne(e.now, lo, hi);
      } else {
        assert s'.limits == s.limits;
      }
    }
  }

  lemma CountOne(t: int, lo: int, hi: int)
    ensures H.CountIn([t], lo, hi) == Bit(lo < t <= hi) && H.CountIn([], lo, hi) == 0
  {
    assert [t][..0] == [];
  }

  lemma ForeignEvent(limits: seq<H.Event>, e: H.Event, u: int)
    requires e.Attempt? ==> e.key != UpstreamRpm(u)
    ensures Admissions(limits + [e], u) == Admissions(limits, u)
  {
    RunAppend(map[], limits, e);
    assert Admissions(limits, u) + [] == Admissions(limits, u);
  }

  lemma ApplyKeepsCovered(s: System, ev: Event, u: int, r: int, now: int, lo: int, hi: int)
    requires Steady(s, u, r, now) && r > 0 && Covered(s, u, lo, hi)
    ensures Covered(Apply(s, ev), u, lo, hi)
  {
    hide AdvanceCall, Decide, Admissions, Steady;
    if ev.act.Advance? {
      if ev.act.call < |s.calls| {
        AdvanceKeepsCovered(s, ev.act.call, EnvOf(ev), u, r, now, lo, hi);
      }
    } else if Starts(s, ev.act).Some? {
      StartsOne(s, ev);
      SumByAppend(s.calls, Starts(s, ev.act).value, PendingOf(u, lo, hi));
    } else if ev.act.Proceed? {
      if ev.act.visit < |s.visits| && s.visits[ev.act.visit].TakingSlot? {
        var key := s.visits[ev.act.visit].key;
        ForeignEvent(s.limits, H.Attempt(UserRpm(key.id), key.rpmLimit, MINUTE, ev.now), u);
      } else if ev.act.visit < |s.visits| {
        assert s.limits + [] == s.limits;
      }
    } else if ev.act.SignInAttempt? {
      ForeignEvent(s.limits, H.Attempt(Auth(ev.act.kind, ev.act.ip), ev.act.limit, ev.act.width, ev.now), u);
    } else if ev.act.Sweep? {
      ForeignEvent(s.limits, H.Gc(ev.now), u);
    }
  }

  /** The clock does not run backwards and every table edit leaves upstream u at limit r. */
  ghost predicate SteadyRun(es: seq<Event>, u: int, r: int) {
    (forall i, j :: 0 <= i < j < |es| ==> es[i].now <= es[j].now) &&
    (forall i :: 0 <= i < |es| && es[i].act.EditTables? ==> Pinned(es[i].act.upstreams, u, r))
  }

  lemma {:induction false} AlwaysCovered(es: seq<Event>, u: int, r: int, lo: int, hi: int)
    requires SteadyRun(es, u, r) && r > 0
    ensures Steady(Run(es), u, r, if es == [] then 0 else es[|es| - 1].now) && Covered(Run(es), u, lo, hi)
  {
    if es != [] {
      var es', ev := es[..|es| - 1], es[|es| - 1];
      AlwaysCovered(es', u, r, lo, hi);
      var now := if es' == [] then ev.now else es'[|es'| - 1].now;
      ApplyKeepsSteady(Run(es'), ev, u, r, now);
      ApplyKeepsCovered(Run(es'), ev, u, r, now, lo, hi);
    }
  }

  /**
   End-to-end rate: with any number of calls in flight, retries, sweeps and other traffic, the requests
   sent to upstream u on admissions from any one-minute window never exceed its limit.
   */
  lemma {:induction false} RequestsWithinRpm(es: seq<Event>, u: int, r: nat, start: int)
    requires SteadyRun(es, u, r) && r > 0
    ensures SentIn(Run(es).sent, u, start, start + MINUTE) <= r
  {
    var s := Run(es);
    AlwaysCovered(es, u, r, start, start + MINUTE);
    H.RateBound(s.limits, UpstreamRpm(u), r, MINUTE, if es == [] then 0 else es[|es| - 1].now, start);
    SumByLower(s.calls, PendingOf(u, start, start + MINUTE), 0);
  }

  // ---------------------------------------------------------------- who takes an admission

  /** A call to Evaluate has an admission whenever it is on its way out; the other tasks never have one. */
  ghost predicate AdmittedOk(c: Call) {
    match c.pc
    case Limiting(_) => c.task.Evaluation?
    case Exiting(_, t) => c.task.Evaluation? <==> t.Some?
    case Spinning(_, t, _, _) => c.task.Evaluation? <==> t.Some?
    case Forwarding(_, t, _, _) => c.task.Evaluation? <==> t.Some?
    case _ => true
  }

  lemma StepKeepsAdmittedOk(sh: Shared, c: Call, e: Env)
    requires AdmittedOk(c)
    ensures AdmittedOk(CallStep(sh, c, e).call)
  {
    hide CallStep;
    if c.pc.Enter? || c.pc.Selecting? || c.pc.Limiting? {
      OpeningKeepsAdmittedOk(sh, c, e);
    } else {
      StepLeads(sh, c, e);
    }
  }

  lemma OpeningKeepsAdmittedOk(sh: Shared, c: Call, e: Env)
    requires AdmittedOk(c) && (c.pc.Enter? || c.pc.Selecting? || c.pc.Limiting?)
    ensures AdmittedOk(CallStep(sh, c, e).call)
  {
    hide P.Choose, Decide;
  }

  ghost predicate AdmissionsOk(s: System) {
    (forall k :: 0 <= k < |s.calls| ==> AdmittedOk(s.calls[k])) &&
    (forall m :: 0 <= m < |s.sent| ==>
      s.sent[m].call < |s.calls| && (s.sent[m].admitted.Some? <==> s.calls[s.sent[m].call].task.Evaluation?))
  }

  lemma ApplyKeepsAdmissions(s: System, ev: Event)
    requires AdmissionsOk(s)
    ensures AdmissionsOk(Apply(s, ev))
  {
    hide CallStep, AdmittedOk;
    if ev.act.Advance? && ev.act.call < |s.calls| {
      var c, e := s.calls[ev.act.call], EnvOf(ev);
      StepKeepsAdmittedOk(s.sh, c, e);
      StepLeads(s.sh, c, e);
      SendsAdmitted(c);
    } else {
      StartsOne(s, ev);
      assert Apply(s, ev).sent == s.sent;
      if Starts(s, ev.act).Some? {
        FreshAdmittedOk(Starts(s, ev.act).value);
      }
    }
  }

  lemma SendsAdmitted(c: Call)
    requires AdmittedOk(c)
    ensures c.pc.Forwarding? ==> (c.pc.admitted.Some? <==> c.task.Evaluation?)
  {
  }

  lemma FreshAdmittedOk(c: Call)
    requires c.pc.Enter?
    ensures AdmittedOk(c)
  {
  }

  lemma {:induction false} AdmissionsAlwaysOk(es: seq<Event>)
    ensures AdmissionsOk(Run(es))
  {
    hide Apply;
    if es != [] {
      AdmissionsAlwaysOk(es[..|es| - 1]);
      ApplyKeepsAdmissions(Run(es[..|es| - 1]), es[|es| - 1]);
    }
  }

  /** A request left on an admission exactly if it was sent by a call to Evaluate. */
  lemma {:induction false} AdmittedIffBilled(es: seq<Event>, m: nat)
    requires m < |Run(es).sent|
    ensures var s := Run(es);
      s.sent[m].call < |s.calls| && (s.sent[m].admitted.Some? <==> s.calls[s.sent[m].call].task.Evaluation?)
  {
    AdmissionsAlwaysOk(es);
  }

  /** No catalogue request and no probe has been sent to u. */
  ghost predicate OnlyBilled(s: System, u: int) {
    forall m :: 0 <= m < |s.sent| && s.sent[m].up.id == u ==>
      s.sent[m].call < |s.calls| && s.calls[s.sent[m].call].task.Evaluation?
  }

  /** Every request to u left on an admission exactly if none was a catalogue request or a probe. */
  lemma {:induction false} AllAdmittedIff(es: seq<Event>, u: int)
    ensures OnlyBilled(Run(es), u) <==>
      forall m :: 0 <= m < |Run(es).sent| && Run(es).sent[m].up.id == u ==> Run(es).sent[m].admitted.Some?
  {
    AdmissionsAlwaysOk(es);
  }

  /** All requests to u that some admission does not place outside (lo, hi]: admitted inside it, or not at all. */
  function SentOrUntimed(sent: seq<Sent>, u: int, lo: int, hi: int): nat {
    if sent == [] then 0
    else
      var x := sent[|sent| - 1];
      SentOrUntimed(sent[..|sent| - 1], u, lo, hi) +
      (if x.up.id == u && (x.admitted.None? || Within(x.admitted, lo, hi)) then 1 else 0)
  }

  lemma {:induction false} NoneUntimed(sent: seq<Sent>, u: int, lo: int, hi: int)
    requires forall m :: 0 <= m < |sent| && sent[m].up.id == u ==> sent[m].admitted.Some?
    ensures SentOrUntimed(sent, u, lo, hi) == SentIn(sent, u, lo, hi)
  {
    if sent != [] {
      NoneUntimed(sent[..|sent| - 1], u, lo, hi);
    }
  }

  /**
   The documented limit, on all requests to u: it holds in every run in which no catalogue request and no
   probe goes to u.
   */
  lemma {:induction false} AllWithinRpm(es: seq<Event>, u: int, r: nat, start: int)
    requires SteadyRun(es, u, r) && r > 0 && OnlyBilled(Run(es), u)
    ensures SentOrUntimed(Run(es).sent, u, start, start + MINUTE) <= r
  {
    AllAdmittedIff(es, u);
    NoneUntimed(Run(es).sent, u, start, start + MINUTE);
    RequestsWithinRpm(es, u, r, start);
  }
}
