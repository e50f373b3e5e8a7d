/**
 Failover completeness: a call that runs alone, with an exit and a free rate slot for every upstream, finds an
 answer as long as at most two of the upstreams it may meet fail - whatever the weights, the order of the
 tables, the cursors, and the time that passes.
 */
module Failover {
  import opened Wrappers
  import opened Tables
  import opened OutProxy
  import opened CallMachine
  import opened RateLimit
  import Ledger
  import Billing
  import P = Pool
  import S = Store

  /** A reply after which Evaluate tries another upstream. */
  predicate Unhelpful(reply: Reply): (yes: bool)
    ensures yes == Failing(reply)
  {
    match reply
    case Transport => true
    case Http(status, _, _) => status == 429 || status == 529 || status == 401 || status == 403 || status >= 500
  }

  /** How each upstream answers during the call, by id. */
  type Behaviour = int -> Reply

  /**
   The circumstances of one call: clock readings lie in [from, until], the upstreams enabled at its start are
   those in `enabled`, and the bad ones those in `bad`.
   */
  datatype Setting = Setting(from: int, until: int, beh: Behaviour, enabled: set<int>, bad: set<int>)

  /** An upstream with room in its minute, already at the start of the call. */
  ghost predicate HasRoom(ws: Windows, u: Upstream, from: int) {
    u.rpmLimit <= 0 || |Prune(Times(ws, UpstreamRpm(u.id)), from - MINUTE)| < u.rpmLimit
  }

  /** No proxy is enabled. */
  ghost predicate Idle(proxies: seq<Proxy>) {
    forall p :: p in proxies ==> p.status != ACTIVE
  }

  /** The proxies of the shared pool that are live from the first moment on, by id. */
  ghost function PoolIds(proxies: seq<Proxy>, from: int): set<int> {
    set p | p in proxies && Pooled(p, from) :: p.id
  }

  /**
   The upstream has an exit, as long as only the proxies in `dead` fail: always direct; bound to a proxy that is
   live from the first moment on; or unbound, with no proxy enabled or one for each attempt in the pool.
   */
  ghost predicate HasExit(z: Setting, proxies: seq<Proxy>, dead: set<int>, u: Upstream) {
    match u.proxyId
    case Some(id) => id == 0 || (z.from >= 0 && (id in dead || MayUse(proxies, id, z.from)))
    case None => Idle(proxies) || (z.from >= 0 && |PoolIds(proxies, z.from) - dead| + |dead| >= ATTEMPTS)
  }

  /** v may go through the proxy that u is bound to. */
  predicate MaySharePath(u: Upstream, v: Upstream) {
    u.proxyId.Some? && u.proxyId != Some(0) && (v.proxyId == u.proxyId || v.proxyId.None?)
  }

  /** Where an upstream cannot be reached, no upstream bound to a proxy it may have gone through counts as good. */
  ghost predicate SharedFate(z: Setting, ups: seq<Upstream>) {
    forall u, v :: u in ups && v in ups && MaySharePath(u, v) && z.beh(v.id).Transport? ==> Unhelpful(z.beh(u.id))
  }

  /** Who is bound to a dead proxy fails. */
  ghost predicate DeadFail(z: Setting, ups: seq<Upstream>, dead: set<int>) {
    forall u :: u in ups && u.proxyId.Some? && u.proxyId.value != 0 && u.proxyId.value in dead ==> Failing(z.beh(u.id))
  }

  /** The upstream answers from the first moment on. */
  ghost predicate Answers(z: Setting, u: Upstream) {
    u.status == ACTIVE && u.cooldownUntil <= z.from && !Unhelpful(z.beh(u.id))
  }

  /** Nothing bad about this row beyond what `bad` lists. */
  ghost predicate RowOk(z: Setting, proxies: seq<Proxy>, dead: set<int>, u: Upstream) {
    HasExit(z, proxies, dead, u) && (u.status == ACTIVE ==> u.id in z.enabled) &&
    (u.status == ACTIVE && u.cooldownUntil <= z.until && Failing(z.beh(u.id)) ==> u.id in z.bad)
  }

  /** The tables allow the call to succeed; `out` are the upstreams, `dead` the proxies it will not use again. */
  ghost predicate TablesOk(z: Setting, sh: Shared, out: set<int>, dead: set<int>) {
    |z.bad| < ATTEMPTS && (forall id :: id in z.bad ==> Failing(z.beh(id))) &&
    (exists g :: g in sh.upstreams && Answers(z, g)) &&
    (forall u :: u in sh.upstreams ==> RowOk(z, sh.proxies, dead, u)) &&
    (forall u :: u in sh.upstreams && u.id !in out ==> HasRoom(sh.windows, u, z.from)) &&
    SharedFate(z, sh.upstreams) && DeadFail(z, sh.upstreams, dead)
  }

  /** A row of the table goes out as u does. */
  ghost predicate Routed(ups: seq<Upstream>, u: Upstream) {
    exists v :: v in ups && v.id == u.id && v.proxyId == u.proxyId
  }

  /** The upstream a call is working on. */
  ghost predicate TargetOk(z: Setting, ups: seq<Upstream>, c: Call, u: Upstream) {
    u.id !in c.exclude && u.id in z.enabled && (Failing(z.beh(u.id)) ==> u.id in z.bad) && Routed(ups, u)
  }

  /** The call so far has only given up on bad upstreams, and lost at most one proxy with each. */
  ghost predicate OnTrack(z: Setting, c: Call) {
    c.task.Evaluation? && c.exclude <= z.bad && |c.exclude| == c.i &&
    (forall id :: id in z.bad ==> Failing(z.beh(id))) &&
    |c.proxyExclude| <= c.i + (if c.pc.MarkingProxy? || c.pc.MarkingUp? then 1 else 0)
  }

  /** The answer of an upstream that was enabled when the call began and does not fail. */
  ghost predicate PlanOk(z: Setting, plan: Plan) {
    plan.upstream.Some? && plan.upstream.value in z.enabled - z.bad && var reply := z.beh(plan.upstream.value);
    !Unhelpful(reply) && plan.status == reply.status && plan.inputTokens == reply.inputTokens
  }

  /** The call is on track with this upstream in use. */
  ghost predicate Using(z: Setting, sh: Shared, c: Call, up: Upstream) {
    OnTrack(z, c) && TablesOk(z, sh, c.exclude + {up.id}, c.proxyExclude) && TargetOk(z, sh.upstreams, c, up)
  }

  /** A proxy is the upstream's own, or one of the pool if it has none. */
  ghost predicate ExitFits(z: Setting, up: Upstream, exit: Choice) {
    exit.Via? ==> z.from >= 0 && (up.proxyId.None? || (up.proxyId == Some(exit.proxy) && exit.proxy != 0))
  }

  ghost predicate Promising(z: Setting, sh: Shared, c: Call) {
    match c.pc
    case Enter => false
    case Picking => OnTrack(z, c) && TablesOk(z, sh, c.exclude, c.proxyExclude)
    case Selecting(cands, _) =>
      OnTrack(z, c) && TablesOk(z, sh, c.exclude, c.proxyExclude) && cands != [] &&
      forall u :: u in cands ==> TargetOk(z, sh.upstreams, c, u) && u in sh.upstreams
    case Limiting(up) =>
      OnTrack(z, c) && TablesOk(z, sh, c.exclude, c.proxyExclude) && TargetOk(z, sh.upstreams, c, up) &&
      up in sh.upstreams
    case Exiting(up, _) => Using(z, sh, c, up) && HasExit(z, sh.proxies, c.proxyExclude, up)
    case Spinning(up, _, exits, _) => Using(z, sh, c, up) && exits != [] && up.proxyId.None? && z.from >= 0
    case Forwarding(up, _, exit, _) => Using(z, sh, c, up) && ExitFits(z, up, exit)
    case MarkingProxy(up, exit, reply) =>
      Using(z, sh, c, up) && reply == z.beh(up.id) && (exit.Via? ==> z.from >= 0) &&
      (exit.Via? && reply.Transport? ==> exit.proxy in c.proxyExclude)
    case MarkingUp(up, reply) => Using(z, sh, c, up) && reply == z.beh(up.id)
    case Counting(up, reply) =>
      c.task.Evaluation? && !Failing(reply) && reply == z.beh(up.id) && up.id in z.enabled - z.bad
    case Settling(_, _, plan) => PlanOk(z, plan)
    case Logging(plan) => PlanOk(z, plan)
    case Done(plan) => PlanOk(z, plan)
  }

  /** No failures of our own, and a clock that stays within the setting. */
  ghost predicate Calm(z: Setting, e: Env) {
    !e.fails && !e.sealed && z.from <= e.now <= z.until
  }

  lemma PickStaysPromising(z: Setting, sh: Shared, c: Call, e: Env)
    requires c.pc.Picking? && Promising(z, sh, c) && Calm(z, e)
    ensures Promising(z, sh, PickStep(sh, c, e))
  {
    hide P.Candidates, HasRoom, HasExit, SharedFate, DeadFail;
    P.CandidateIff(sh.upstreams, c.exclude, e.now);
    var g :| g in sh.upstreams && Answers(z, g);
    assert g in P.Candidates(sh.upstreams, c.exclude, e.now);
  }

  lemma SelectStaysPromising(z: Setting, sh: Shared, c: Call, e: Env)
    requires c.pc.Selecting? && Promising(z, sh, c) && Calm(z, e)
    ensures var turn := SelectStep(sh, c, e); Promising(z, turn.sh, turn.call)
  {
    hide P.Choose, HasRoom, Answers, RowOk, SharedFate, DeadFail, Routed;
    P.ChosenIsCandidate(c.pc.cands, P.Advance(sh.poolCursor));
    var sh' := SelectStep(sh, c, e).sh;
    assert sh'.upstreams == sh.upstreams && sh'.proxies == sh.proxies && sh'.windows == sh.windows;
  }

  lemma {:induction false} PruneLess(ts: seq<int>, a: int, b: int)
    requires a <= b
    ensures |Prune(ts, b)| <= |Prune(ts, a)|
  {
    if ts != [] && ts[0] <= a {
      PruneLess(ts[1..], a, b);
    } else {
      PruneShorter(ts, b);
    }
  }

  lemma {:induction false} PruneShorter(ts: seq<int>, a: int)
    ensures |Prune(ts, a)| <= |ts|
  {
    if ts != [] && ts[0] <= a {
      PruneShorter(ts[1..], a);
    }
  }

  lemma LimitStaysPromising(z: Setting, sh: Shared, c: Call, e: Env)
    requires c.pc.Limiting? && Promising(z, sh, c) && Calm(z, e)
    ensures var turn := LimitStep(sh, c, e); Promising(z, turn.sh, turn.call)
  {
    hide Prune, Answers, HasExit, SharedFate, DeadFail, Routed;
    assert RowOk(z, sh.proxies, c.proxyExclude, c.pc.up);
    PruneLess(Times(sh.windows, UpstreamRpm(c.pc.up.id)), z.from - MINUTE, e.now - MINUTE);
  }

  // ---------------------------------------------------------------- exits

  /** From the first moment on is now, too. */
  lemma MayUseLater(proxies: seq<Proxy>, id: int, from: int, now: int)
    requires MayUse(proxies, id, from) && from <= now
    ensures MayUse(proxies, id, now)
  {
    var n: nat :| FirstAt(proxies, id, n) && proxies[n].status == "active" && proxies[n].cooldownUntil <= from;
  }

  lemma SubsetSize(a: set<int>, b: set<int>)
    requires a <= b
    ensures |a| <= |b|
  {
    assert b == a + (b - a);
  }

  /** The exit that a call on track finds, if any: only a call to a bad upstream may find none. */
  lemma LooksOut(z: Setting, proxies: seq<Proxy>, dead: set<int>, up: Upstream, e: Env)
    requires HasExit(z, proxies, dead, up) && |dead| < ATTEMPTS && Calm(z, e)
    ensures match LookUp(proxies, up, dead, e.now, false)
            case Decided(Ok(exit)) => ExitFits(z, up, exit)
            case Decided(Err(_)) => up.proxyId.Some? && up.proxyId.value != 0 && up.proxyId.value in dead
            case Among(exits) => exits != [] && up.proxyId.None? && z.from >= 0
  {
    ExitIs(proxies, up, dead, e.now, false);
    match up.proxyId {
      case Some(id) =>
        if id != 0 && MayUse(proxies, id, z.from) {
          MayUseLater(proxies, id, z.from, e.now);
        }
      case None =>
        if !Idle(proxies) {
          PoolHasRoom(proxies, dead, z.from);
          var p :| p in proxies && Pooled(p, z.from) && p.id !in dead;
          assert Pooled(p, e.now);
          DecidedIsSafe(proxies, up, dead, e.now, false);
        }
    }
  }

  lemma PoolHasRoom(proxies: seq<Proxy>, dead: set<int>, from: int)
    requires |PoolIds(proxies, from) - dead| + |dead| >= ATTEMPTS && |dead| < ATTEMPTS
    ensures exists p :: p in proxies && Pooled(p, from) && p.id !in dead
  {
    var id :| id in PoolIds(proxies, from) - dead;
  }

  /** Giving up on a bad upstream still leaves an attempt: there are fewer bad ones than attempts. */
  lemma GivesUp(z: Setting, sh: Shared, c: Call, up: Upstream, last: Last)
    requires Using(z, sh, c, up) && up.id in z.bad
    ensures Promising(z, sh, Retry(c, up.id, last))
  {
    hide HasRoom, Answers, RowOk, SharedFate, DeadFail;
    SubsetSize(c.exclude + {up.id}, z.bad);
  }

  lemma ExitStaysPromising(z: Setting, sh: Shared, c: Call, e: Env)
    requires c.pc.Exiting? && Promising(z, sh, c) && Calm(z, e)
    ensures Promising(z, sh, ExitStep(sh, c, e))
  {
    var up := c.pc.up;
    BadLeft(z, sh, c, up);
    LooksOut(z, sh.proxies, c.proxyExclude, up, e);
    var look := LookUp(sh.proxies, up, c.proxyExclude, e.now, false);
    hide LookUp, TablesOk, HasExit, Retry, Routed;
    if look.Decided? && look.r.Err? {
      assert ExitStep(sh, c, e) == Retry(c, up.id, Last(502, ProxyError, 0));
      DeadIsBad(z, sh, c, up);
      GivesUp(z, sh, c, up, Last(502, ProxyError, 0));
    }
  }

  /** With an attempt going on, fewer proxies are lost than there are attempts. */
  lemma BadLeft(z: Setting, sh: Shared, c: Call, up: Upstream)
    requires Using(z, sh, c, up) && !c.pc.MarkingProxy? && !c.pc.MarkingUp?
    ensures |c.proxyExclude| < ATTEMPTS
  {
    hide RowOk, HasRoom, Answers, SharedFate, DeadFail;
    SubsetSize(c.exclude, z.bad);
  }

  /** An upstream whose proxy is lost is a bad one. */
  lemma DeadIsBad(z: Setting, sh: Shared, c: Call, up: Upstream)
    requires Using(z, sh, c, up) && up.proxyId.Some? && up.proxyId.value != 0 && up.proxyId.value in c.proxyExclude
    ensures up.id in z.bad
  {
    hide RowOk, HasRoom, Answers, SharedFate;
    var v :| v in sh.upstreams && v.id == up.id && v.proxyId == up.proxyId;
  }

  lemma SpinStaysPromising(z: Setting, sh: Shared, c: Call, e: Env)
    requires c.pc.Spinning? && Promising(z, sh, c) && Calm(z, e)
    ensures var turn := SpinStep(sh, c, e); Promising(z, turn.sh, turn.call)
  {
    hide Answers, RowOk, HasRoom, SharedFate, DeadFail, Routed;
  }

  /** One more proxy lost: whoever is bound to it shares the fate of the upstream that lost it. */
  lemma DeadGrows(z: Setting, sh: Shared, out: set<int>, dead: set<int>, up: Upstream, p: int)
    requires TablesOk(z, sh, out, dead) && Routed(sh.upstreams, up) && z.beh(up.id).Transport?
    requires ExitFits(z, up, Via(p))
    ensures TablesOk(z, sh, out, dead + {p})
  {
    hide HasRoom, Answers;
    forall u | u in sh.upstreams ensures RowOk(z, sh.proxies, dead + {p}, u) {
      MoreDead(z, sh.proxies, dead, u, p);
    }
    var v :| v in sh.upstreams && v.id == up.id && v.proxyId == up.proxyId;
    forall u | u in sh.upstreams && u.proxyId.Some? && u.proxyId.value != 0 && u.proxyId.value in dead + {p}
      ensures Failing(z.beh(u.id))
    {
      assert u.proxyId.value == p ==> MaySharePath(u, v);
    }
  }

  lemma MoreDead(z: Setting, proxies: seq<Proxy>, dead: set<int>, u: Upstream, p: int)
    requires HasExit(z, proxies, dead, u) && z.from >= 0
    ensures HasExit(z, proxies, dead + {p}, u)
  {
    if u.proxyId.None? && !Idle(proxies) {
      var ids := PoolIds(proxies, z.from);
      if p !in dead {
        assert ids - dead <= (ids - (dead + {p})) + {p};
        SubsetSize(ids - dead, (ids - (dead + {p})) + {p});
      } else {
        assert dead + {p} == dead;
      }
    }
  }

  lemma ForwardStaysPromising(z: Setting, sh: Shared, c: Call, e: Env)
    requires c.pc.Forwarding? && Promising(z, sh, c) && Calm(z, e) && e.reply == z.beh(c.pc.up.id)
    ensures Promising(z, sh, ForwardStep(c, e))
  {
    var up, exit, c' := c.pc.up, c.pc.exit, ForwardStep(c, e);
    LosesOne(z, c, e);
    assert TargetOk(z, sh.upstreams, c', up) && Routed(sh.upstreams, up);
    hide TablesOk, TargetOk, Routed, OnTrack;
    if e.reply.Transport? && exit.Via? {
      DeadGrows(z, sh, c.exclude + {up.id}, c.proxyExclude, up, exit.proxy);
    }
    assert Using(z, sh, c', up);
  }

  lemma LosesOne(z: Setting, c: Call, e: Env)
    requires c.pc.Forwarding? && OnTrack(z, c)
    ensures OnTrack(z, ForwardStep(c, e))
  {
  }

  // ---------------------------------------------------------------- marks

  /** Marking a lost proxy as failed, or a working one as working, takes no upstream's exit. */
  lemma {:induction false} MarksKeepExit(
    z: Setting, proxies: seq<Proxy>, dead: set<int>, u: Upstream, p: int, until: int)
    requires HasExit(z, proxies, dead, u) && z.from >= 0
    ensures p in dead ==> HasExit(z, TouchProxyErr(proxies, p, until), dead, u)
    ensures HasExit(z, TouchProxyOK(proxies, p), dead, u)
  {
    TouchedProxyAt(proxies, p, until);
    var bad, good := TouchProxyErr(proxies, p, until), TouchProxyOK(proxies, p);
    hide TouchProxyErr, TouchProxyOK;
    match u.proxyId {
      case Some(id) =>
        if id != 0 && id !in dead {
          var n: nat :| FirstAt(proxies, id, n) && proxies[n].status == "active" && proxies[n].cooldownUntil <= z.from;
          assert FirstAt(good, id, n);
          assert p in dead ==> FirstAt(bad, id, n) && bad[n] == proxies[n];
        }
      case None =>
        if Idle(proxies) {
          StillIdle(proxies, bad);
          StillIdle(proxies, good);
        } else {
          PoolGrows(proxies, good, dead, z.from);
          if p in dead {
            PoolGrows(proxies, bad, dead, z.from);
          }
        }
    }
  }

  lemma StillIdle(ps: seq<Proxy>, ps': seq<Proxy>)
    requires Idle(ps) && |ps| == |ps'| && forall n :: 0 <= n < |ps| ==> ps'[n].status == ps[n].status
    ensures Idle(ps')
  {
  }

  /** As many proxies are left as before. */
  lemma PoolGrows(ps: seq<Proxy>, ps': seq<Proxy>, dead: set<int>, from: int)
    requires |ps| == |ps'| && forall n :: 0 <= n < |ps| ==>
      ps'[n].id == ps[n].id && (Pooled(ps[n], from) && ps[n].id !in dead ==> Pooled(ps'[n], from))
    ensures |PoolIds(ps, from) - dead| <= |PoolIds(ps', from) - dead|
  {
    forall id | id in PoolIds(ps, from) - dead ensures id in PoolIds(ps', from) - dead {
      var p :| p in ps && Pooled(p, from) && p.id == id;
      var n :| 0 <= n < |ps| && ps[n] == p;
      assert ps'[n] in ps';
    }
    SubsetSize(PoolIds(ps, from) - dead, PoolIds(ps', from) - dead);
  }

  lemma MarkProxyStaysPromising(z: Setting, sh: Shared, c: Call, e: Env)
    requires c.pc.MarkingProxy? && Promising(z, sh, c) && Calm(z, e)
    ensures var turn := MarkProxyStep(sh, c, e); Promising(z, turn.sh, turn.call)
  {
    ProxyMarkKeepsTables(z, sh, c, e);
    MarkProxyGoesOn(z, sh, c, e);
  }

  lemma ProxyMarkKeepsTables(z: Setting, sh: Shared, c: Call, e: Env)
    requires c.pc.MarkingProxy? && Promising(z, sh, c) && Calm(z, e)
    ensures var sh' := MarkProxyStep(sh, c, e).sh;
      TablesOk(z, sh', c.exclude + {c.pc.up.id}, c.proxyExclude) && sh'.upstreams == sh.upstreams
  {
    hide TablesOk, TouchProxyErr, TouchProxyOK;
    if c.pc.exit.Via? {
      var until := e.now + PROXY_COOLDOWN;
      TablesMarked(z, sh, c.exclude + {c.pc.up.id}, c.proxyExclude, c.pc.exit.proxy, until);
    }
  }

  lemma MarkProxyGoesOn(z: Setting, sh: Shared, c: Call, e: Env)
    requires c.pc.MarkingProxy? && Promising(z, sh, c) && Calm(z, e)
    requires var sh' := MarkProxyStep(sh, c, e).sh;
      TablesOk(z, sh', c.exclude + {c.pc.up.id}, c.proxyExclude) && sh'.upstreams == sh.upstreams
    ensures var turn := MarkProxyStep(sh, c, e); Promising(z, turn.sh, turn.call)
  {
    hide TablesOk, TouchProxyErr, TouchProxyOK, Routed;
  }

  lemma TablesMarked(z: Setting, sh: Shared, out: set<int>, dead: set<int>, p: int, until: int)
    requires TablesOk(z, sh, out, dead) && z.from >= 0
    ensures p in dead ==> TablesOk(z, sh.(proxies := TouchProxyErr(sh.proxies, p, until)), out, dead)
    ensures TablesOk(z, sh.(proxies := TouchProxyOK(sh.proxies, p)), out, dead)
  {
    forall u | u in sh.upstreams
      ensures p in dead ==> HasExit(z, TouchProxyErr(sh.proxies, p, until), dead, u)
      ensures HasExit(z, TouchProxyOK(sh.proxies, p), dead, u)
    {
      assert RowOk(z, sh.proxies, dead, u);
      MarksKeepExit(z, sh.proxies, dead, u, p, until);
    }
    hide HasExit, HasRoom, Answers, SharedFate, DeadFail, TouchProxyErr, TouchProxyOK;
  }

  /** Row by row, the same ids and exits. */
  ghost predicate SamePaths(ups: seq<Upstream>, ups': seq<Upstream>) {
    |ups| == |ups'| && forall n :: 0 <= n < |ups| ==> ups'[n].id == ups[n].id && ups'[n].proxyId == ups[n].proxyId
  }

  lemma PathBack(ups: seq<Upstream>, ups': seq<Upstream>, u: Upstream)
    requires SamePaths(ups, ups') && u in ups'
    ensures Routed(ups, u)
  {
    var n :| 0 <= n < |ups'| && ups'[n] == u;
    assert ups[n] in ups;
  }

  lemma {:induction false} FateKept(z: Setting, ups: seq<Upstream>, ups': seq<Upstream>, dead: set<int>)
    requires SamePaths(ups, ups') && SharedFate(z, ups) && DeadFail(z, ups, dead)
    ensures SharedFate(z, ups') && DeadFail(z, ups', dead)
    ensures forall u :: Routed(ups, u) ==> Routed(ups', u)
  {
    hide SamePaths, Failing;
    forall u, v | u in ups' && v in ups' && MaySharePath(u, v) && z.beh(v.id).Transport? ensures Failing(z.beh(u.id)) {
      PathBack(ups, ups', u);
      PathBack(ups, ups', v);
      var u0 :| u0 in ups && u0.id == u.id && u0.proxyId == u.proxyId;
      var v0 :| v0 in ups && v0.id == v.id && v0.proxyId == v.proxyId;
      assert MaySharePath(u0, v0);
    }
    forall u | u in ups' && u.proxyId.Some? && u.proxyId.value != 0 && u.proxyId.value in dead
      ensures Failing(z.beh(u.id))
    {
      PathBack(ups, ups', u);
    }
    forall u | Routed(ups, u) ensures Routed(ups', u) {
      var v :| v in ups && v.id == u.id && v.proxyId == u.proxyId;
      SamePathsBack(ups, ups');
      PathBack(ups', ups, v);
    }
  }

  lemma SamePathsBack(ups: seq<Upstream>, ups': seq<Upstream>)
    requires SamePaths(ups, ups')
    ensures SamePaths(ups', ups)
  {
  }

  /** A row after a failure mark on a bad upstream. */
  lemma RowTouched(z: Setting, sh: Shared, out: set<int>, dead: set<int>, u: Upstream, u': Upstream, id: int)
    requires RowOk(z, sh.proxies, dead, u) && (u.id !in out ==> HasRoom(sh.windows, u, z.from)) && id in z.bad
    requires u' == u || (u.id == id && u' == u.(failCount := u'.failCount, cooldownUntil := u'.cooldownUntil))
    ensures RowOk(z, sh.proxies, dead, u') && (u'.id !in out ==> HasRoom(sh.windows, u', z.from))
  {
  }

  lemma {:induction false} TouchErrKeepsTables(
    z: Setting, sh: Shared, out: set<int>, dead: set<int>, id: int, until: int, auth: bool)
    requires TablesOk(z, sh, out, dead) && id in z.bad
    ensures TablesOk(z, sh.(upstreams := TouchUpstreamErr(sh.upstreams, id, until, auth)), out, dead)
    ensures forall u :: Routed(sh.upstreams, u) ==> Routed(TouchUpstreamErr(sh.upstreams, id, until, auth), u)
  {
    var ups, ups' := sh.upstreams, TouchUpstreamErr(sh.upstreams, id, until, auth);
    TouchedAt(ups, id, until, auth);
    hide RowOk, HasRoom, TouchUpstreamErr, TouchUpstreamOK, SharedFate, DeadFail, Routed;
    FateKept(z, ups, ups', dead);
    var g :| g in ups && Answers(z, g);
    var n :| 0 <= n < |ups| && ups[n] == g;
    assert ups'[n] in ups';
    forall u | u in ups' ensures RowOk(z, sh.proxies, dead, u) && (u.id !in out ==> HasRoom(sh.windows, u, z.from)) {
      var m :| 0 <= m < |ups'| && ups'[m] == u;
      RowTouched(z, sh, out, dead, ups[m], u, id);
    }
  }

  lemma MarkUpStaysPromising(z: Setting, sh: Shared, c: Call, e: Env)
    requires c.pc.MarkingUp? && Promising(z, sh, c) && Calm(z, e)
    ensures var turn := MarkUpStep(sh, c, e); Promising(z, turn.sh, turn.call)
  {
    var up, reply := c.pc.up, c.pc.reply;
    if Failing(reply) {
      var status := StatusOf(reply);
      var until := e.now + CooldownMs(status);
      assert MarkUpStep(sh, c, e) ==
        Turn(sh.(upstreams := TouchUpstreamErr(sh.upstreams, up.id, until, AuthFail(status))),
             Retry(c, up.id, LastOf(reply)));
      hide TouchUpstreamErr, TablesOk, Retry, Routed, MarkUpStep;
      TouchErrKeepsTables(z, sh, c.exclude + {up.id}, c.proxyExclude, up.id, until, AuthFail(status));
      GivesUp(z, sh.(upstreams := TouchUpstreamErr(sh.upstreams, up.id, until, AuthFail(status))), c, up,
              LastOf(reply));
    } else {
      hide TouchUpstreamErr, TouchUpstreamOK, TablesOk, Retry, Routed;
    }
  }

  lemma StepStaysPromising(z: Setting, sh: Shared, c: Call, e: Env)
    requires Promising(z, sh, c) && Calm(z, e)
    requires c.pc.Forwarding? ==> e.reply == z.beh(c.pc.up.id)
    ensures var turn := CallStep(sh, c, e); Promising(z, turn.sh, turn.call)
  {
    hide Promising, PickStep, SelectStep, LimitStep, ExitStep, SpinStep, ForwardStep, MarkUpStep, MarkProxyStep;
    match c.pc {
      case Picking => PickStaysPromising(z, sh, c, e);
      case Selecting(_, _) => SelectStaysPromising(z, sh, c, e);
      case Limiting(_) => LimitStaysPromising(z, sh, c, e);
      case Exiting(_, _) => ExitStaysPromising(z, sh, c, e);
      case Spinning(_, _, _, _) => SpinStaysPromising(z, sh, c, e);
      case Forwarding(_, _, _, _) => ForwardStaysPromising(z, sh, c, e);
      case MarkingUp(_, _) => MarkUpStaysPromising(z, sh, c, e);
      case MarkingProxy(_, _, _) => MarkProxyStaysPromising(z, sh, c, e);
      case _ => OthersStayPromising(z, sh, c, e);
    }
  }

  lemma OthersStayPromising(z: Setting, sh: Shared, c: Call, e: Env)
    requires Promising(z, sh, c) && Calm(z, e)
    requires c.pc.Enter? || c.pc.Counting? || c.pc.Settling? || c.pc.Logging? || c.pc.Done?
    ensures var turn := CallStep(sh, c, e); Promising(z, turn.sh, turn.call)
  {
    hide Ledger.SettleUsage, Billing.UsageCost, S.Spent;
  }

  /** The replies on the tape are those of the upstreams the call turns to. */
  ghost predicate Follows(z: Setting, sh: Shared, c: Call, tape: nat -> Env, t: nat)
    decreases Fuel(c)
  {
    if c.pc.Done? then true
    else
      StepsRunOut(sh, c, tape(t));
      var turn := CallStep(sh, c, tape(t));
      Calm(z, tape(t)) && (c.pc.Forwarding? ==> tape(t).reply == z.beh(c.pc.up.id)) &&
      Follows(z, turn.sh, turn.call, tape, t + 1)
  }

  lemma {:induction false} PromisingFinishes(z: Setting, sh: Shared, c: Call, tape: nat -> Env, t: nat)
    requires Promising(z, sh, c) && Follows(z, sh, c, tape, t)
    ensures var turn := Finish(sh, c, tape, t); turn.call.pc.Done? && PlanOk(z, turn.call.pc.plan)
    decreases Fuel(c)
  {
    hide CallStep;
    if !c.pc.Done? {
      StepsRunOut(sh, c, tape(t));
      StepStaysPromising(z, sh, c, tape(t));
      var turn := CallStep(sh, c, tape(t));
      PromisingFinishes(z, turn.sh, turn.call, tape, t + 1);
    }
  }

  /** The failing upstreams the call could meet before `until`. */
  ghost function BadIds(ups: seq<Upstream>, beh: Behaviour, until: int): set<int> {
    set u | u in ups && u.status == ACTIVE && u.cooldownUntil <= until && Unhelpful(beh(u.id)) :: u.id
  }

  ghost function EnabledIds(ups: seq<Upstream>): set<int> {
    set u | u in ups && u.status == ACTIVE :: u.id
  }

  /**
   Failover completeness: if the call gets past its hold, every upstream has an exit and room in its minute, at
   most two of those it could meet fail and some upstream answers, then the call ends with the answer of an
   enabled row of that table that is not one of the failing ones. Exits may be of every kind: direct, a live
   proxy of the upstream's own, or a pool with a live proxy for each attempt.
   */
  lemma {:induction false} FailoverFindsAnswer(
    z: Setting, sh: Shared, rid: string, user: Option<User>, tape: nat -> Env)
    requires |BadIds(sh.upstreams, z.beh, z.until)| < ATTEMPTS && z.bad == BadIds(sh.upstreams, z.beh, z.until)
    requires z.enabled == EnabledIds(sh.upstreams)
    requires exists g :: g in sh.upstreams && Answers(z, g)
    requires forall u :: u in sh.upstreams ==> HasExit(z, sh.proxies, {}, u) && HasRoom(sh.windows, u, z.from)
    requires SharedFate(z, sh.upstreams)
    requires EnterStep(sh, NewCall(Evaluation, rid, user, true), tape(0)).call.pc.Picking?
    requires Follows(z, sh, NewCall(Evaluation, rid, user, true), tape, 0)
    ensures var turn := Finish(sh, NewCall(Evaluation, rid, user, true), tape, 0);
      turn.call.pc.Done? && PlanOk(z, turn.call.pc.plan)
  {
    hide HasExit, HasRoom;
    var c := NewCall(Evaluation, rid, user, true);
    var turn := EnterStep(sh, c, tape(0));
    assert turn == CallStep(sh, c, tape(0));
    assert turn.sh.upstreams == sh.upstreams && turn.sh.proxies == sh.proxies && turn.sh.windows == sh.windows;
    assert Promising(z, turn.sh, turn.call);
    PromisingFinishes(z, turn.sh, turn.call, tape, 1);
  }
}
