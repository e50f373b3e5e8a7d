/**
 The gateway object and its methods Authenticate, Evaluate, Models and Probe, in the form of the source:
 local variables, a release closure, and loops of at most three attempts. Each is proved to do exactly what
 the machines of modules Admission and CallMachine do when nothing interferes, reading the clock, the
 replies and the failures from a tape.
 */
module Gateway {
  import opened Wrappers
  import opened Tables
  import opened OutProxy
  import opened Admission
  import opened CallMachine
  import Ledger
  import RateLimit
  import Auth = Authentication
  import Billing
  import P = Pool
  import S = Store

  class Gateway {
    const store: S.Store
    const pool: P.Pool
    const picker: Picker
    const limit: RateLimit.Limiter

    constructor (store: S.Store)
      ensures this.store == store && pool.store == store && picker.store == store
      ensures fresh(pool) && fresh(picker) && fresh(limit)
      ensures pool.cursor == 0 && picker.cursor == 0 && limit.windows == map[]
    {
      this.store := store;
      pool := new P.Pool(store);
      picker := new Picker(store);
      limit := new RateLimit.Limiter();
    }

    ghost predicate Wired() {
      pool.store == store && picker.store == store
    }

    /** The shared state as the machine sees it. */
    ghost function Sh(): Shared
      reads store, pool, picker, limit
    {
      Shared(store.Money(), store.logs, store.upstreams, store.proxies, store.tokens, store.userKeys,
             limit.windows, pool.cursor, picker.cursor)
    }

    /** TrySpendCredits with amount 0: true exactly if a hold placed now would go through. */
    method HasCredits(account: int, fails: bool) returns (r: Result<bool, Ledger.Error>)
      ensures forall ref :: r == Ok(true) <==>
        !fails && Ledger.Post(store.Money(), account, -1, false, Ledger.Hold, ref).1.Ok?
      ensures r == if fails then Err(Ledger.Io)
                   else if account !in store.accounts then Err(Ledger.NotFound)
                   else Ok(Ledger.Credits(store.Money(), account) > 0)
    {
      if fails {
        return Err(Ledger.Io);
      }
      if account !in store.accounts {
        return Err(Ledger.NotFound);
      }
      return Ok(store.accounts[account].credits > 0);
    }

    /** What the three tests of Authenticate leave behind and answer. */
    ghost predicate Answers(sh: Shared, v: Visit, r: Result<Auth.UserKey, Auth.AuthError>)
      reads store, pool, picker, limit
    {
      Sh() == sh && match r case Ok(key) => v == Inside(key) case Err(e) => v == Refused(e)
    }

    /** hash is the digest of a key; each of the three tests reads its own clock. */
    method Authenticate(header: string, hash: string -> string, e0: Env, e1: Env, e2: Env)
      returns (r: Result<Auth.UserKey, Auth.AuthError>)
      modifies limit
      ensures var plain := Auth.Presented(header);
        var (sh, v) := Alone(old(Sh()), if plain.Some? then Some(hash(plain.value)) else None, e0, e1, e2);
        Answers(sh, v, r)
    {
      var plain := Auth.Presented(header);
      if plain.None? {
        return Err(Auth.InvalidKey);
      }
      if e0.fails {
        return Err(Auth.AuthError.Internal);
      }
      var found := Auth.Lookup(store.userKeys, hash(plain.value));
      if found.None? {
        return Err(Auth.InvalidKey);
      }
      var key := found.value;
      if !Auth.Active(key, e0.now) {
        return Err(Auth.InvalidKey);
      }
      if key.tokenQuota > 0 && Auth.UsedBy(store.tokens, key.id) >= key.tokenQuota {
        return Err(Auth.QuotaExceeded);
      }
      if key.owner.Some? {
        var has := HasCredits(key.owner.value, e1.fails);
        if has.Err? {
          return Err(Auth.AuthError.Internal);
        }
        if !has.value {
          return Err(Auth.AuthError.InsufficientCredits);
        }
      }
      var ok, wait := limit.Allow(RateLimit.UserRpm(key.id), key.rpmLimit, e2.now);
      if !ok {
        return Err(Auth.AuthError.RateLimited(wait / RateLimit.SECOND));
      }
      return Ok(key);
    }

    method MarkProxyTransportErr(exit: Choice, now: int, fails: bool)
      modifies store`proxies
      ensures store.proxies == if exit.Direct? || fails then old(store.proxies)
                               else TouchProxyErr(old(store.proxies), exit.proxy, now + PROXY_COOLDOWN)
      ensures exit.Via? && !fails ==>
        forall t, p :: p in ListActiveProxies(store.proxies, t) && p.id == exit.proxy ==> now + PROXY_COOLDOWN <= t
    {
      if exit.Direct? {
        return;
      }
      ghost var until := now + PROXY_COOLDOWN;
      ghost var after := TouchProxyErr(store.proxies, exit.proxy, until);
      forall t, p | p in ListActiveProxies(after, t) && p.id == exit.proxy ensures until <= t {
        FailedProxyRests(store.proxies, exit.proxy, until, t);
      }
      if !fails {
        store.proxies := TouchProxyErr(store.proxies, exit.proxy, now + PROXY_COOLDOWN);
      }
    }

    method MarkProxyOK(exit: Choice, fails: bool)
      modifies store`proxies
      ensures store.proxies == if exit.Direct? || fails then old(store.proxies)
                               else TouchProxyOK(old(store.proxies), exit.proxy)
      ensures exit.Via? && !fails ==>
        forall t, p :: t >= 0 && p in old(store.proxies) && p.id == exit.proxy && p.status == ACTIVE ==>
          p.(failCount := 0, cooldownUntil := 0) in ListActiveProxies(store.proxies, t)
    {
      if exit.Direct? {
        return;
      }
      forall t | t >= 0
        ensures forall p :: p in store.proxies && p.id == exit.proxy && p.status == ACTIVE ==>
          p.(failCount := 0, cooldownUntil := 0) in ListActiveProxies(TouchProxyOK(store.proxies, exit.proxy), t)
      {
        WorkingProxyReturns(store.proxies, exit.proxy, t);
      }
      if !fails {
        store.proxies := TouchProxyOK(store.proxies, exit.proxy);
      }
    }

    method MarkErr(id: int, status: int, now: int, fails: bool)
      modifies store`upstreams
      ensures store.upstreams ==
        if fails then old(store.upstreams)
        else TouchUpstreamErr(old(store.upstreams), id, now + CooldownMs(status), AuthFail(status))
    {
      var cool := now + 15_000;
      var authFail := status == 401 || status == 403;
      if status == 429 {
        cool := now + 30_000;
      } else if status == 529 {
        cool := now + 10_000;
      } else if authFail {
        cool := now + 600_000;
      } else if status >= 500 {
        cool := now + 20_000;
      }
      if !fails {
        store.upstreams := TouchUpstreamErr(store.upstreams, id, cool, authFail);
      }
    }

    method MarkOK(id: int, fails: bool)
      modifies store`upstreams
      ensures store.upstreams == if fails then old(store.upstreams) else TouchUpstreamOK(old(store.upstreams), id)
      ensures !fails ==> forall u, exclude, t :: t >= 0 && u in store.upstreams && u.id == id ==>
        (P.Eligible(u, exclude, t) <==> u.status == ACTIVE && id !in exclude)
    {
      if !fails {
        forall u, exclude, t | t >= 0 && u in TouchUpstreamOK(store.upstreams, id) && u.id == id
          ensures P.Eligible(u, exclude, t) <==> u.status == ACTIVE && id !in exclude
        {
          P.MarkedOkIsEligible(store.upstreams, id, exclude, t);
        }
        store.upstreams := TouchUpstreamOK(store.upstreams, id);
      }
    }

    /** The release closure. */
    method Release(rid: string, ghost c: Call, accountId: int, held: bool, cost: int, callOk: bool, e: Env)
      returns (charged: int, settleOK: bool)
      requires c.pc.Settling? && c.pc.cost == cost && c.pc.callOk == callOk
      requires c.held == held && c.charged == 0 && c.settleOK && accountId == AccountId(c) && c.rid == rid
      modifies store`accounts, store`ledger
      ensures SettleStep(old(Sh()), c, e) == Turn(Sh(), Released(c, charged, settleOK))
    {
      charged, settleOK := 0, true;
      if !held {
        return;
      }
      var got := store.SettleUsage(accountId, 1, cost, Ledger.CallRef(RefOf(rid)), callOk, e.fails);
      if got.Err? {
        return 1, false;
      }
      charged := got.value;
    }

    /** Settle, write the log row, and end the call. */
    method Conclude(rid: string, ghost c: Call, userId: int, accountId: int, held: bool,
                    cost: int, callOk: bool, plan: Plan, tape: nat -> Env, t: nat)
      requires c.pc == Settling(cost, callOk, plan)
      requires c.held == held && c.charged == 0 && c.settleOK && accountId == AccountId(c) && userId == UserId(c)
      requires c.rid == rid
      modifies store`accounts, store`ledger, store`logs
      ensures var turn := Finish(old(Sh()), c, tape, t); Sh() == turn.sh && turn.call.pc == Done(plan)
    {
      hide Finish;
      UnfoldSettle(Sh(), c, tape, t);
      var charged, settleOK := Release(rid, c, accountId, held, cost, callOk, tape(t));
      ghost var c1 := Released(c, charged, settleOK);
      UnfoldLog(Sh(), c1, tape, t + 1);
      var row := UsageLog(rid, userId, plan.upstream, plan.inputTokens, plan.status,
                          plan.upstream.Some? && Success(plan.status), accountId, charged,
                          plan.upstream.None? && !settleOK);
      ghost var sh1 := Sh();
      store.InsertLog(row, tape(t + 1).fails);
      assert LogStep(sh1, c1, tape(t + 1)).sh == Sh();
      FinishDone(Sh(), LogStep(sh1, c1, tape(t + 1)).call, tape, t + 2);
    }

    /**
     The exit for one upstream, its password opened if it is a proxy; `spun` tells whether the shared pool's
     cursor was used. A bound proxy's password is opened as it is looked up, a pool proxy's after the spin.
     */
    method PickExit(up: Upstream, exclude: set<int>, now: int, fails: bool, boundSealed: bool, poolSealed: bool)
      returns (r: Result<Choice, ExitError>, spun: bool)
      requires Wired()
      modifies picker
      ensures match LookUp(store.proxies, up, exclude, now, fails)
              case Decided(d) =>
                !spun && picker.cursor == old(picker.cursor) &&
                r == if d.Ok? && d.value.Via? && boundSealed then Err(Failed) else d
              case Among(cands) =>
                cands != [] && spun && picker.cursor == P.Advance(old(picker.cursor)) &&
                r == if poolSealed then Err(Failed) else Ok(Spin(cands, picker.cursor))
    {
      r := picker.Pick(up, exclude, now, fails);
      DecidedIsSafe(store.proxies, up, exclude, now, fails);
      spun := up.proxyId.None? && r.Ok? && r.value.Via?;
      if r.Err? || r.value.Direct? {
        return;
      }
      if (if spun then poolSealed else boundSealed) {
        r := Err(Failed);
      }
    }

    /** pickExit as one or two steps of the machine. */
    method FindExit(ghost c: Call, up: Upstream, proxyExclude: set<int>, tape: nat -> Env, t: nat)
      returns (exit: Result<Choice, ExitError>, t': nat)
      requires Wired() && c.pc.Exiting? && c.pc.up == up && c.proxyExclude == proxyExclude
      modifies picker
      ensures Finish(old(Sh()), c, tape, t) ==
        Finish(Sh(),
               if exit.Ok? then
                 c.(pc := Forwarding(up, c.pc.admitted, exit.value, Sighting(tape(t).now, store.proxies)))
               else NoExit(c, up),
               tape, t')
    {
      hide Finish, LoopHead, NoExit;
      UnfoldExit(Sh(), c, tape, t);
      ghost var saw := Sighting(tape(t).now, store.proxies);
      ghost var look := LookUp(store.proxies, up, proxyExclude, tape(t).now, tape(t).fails);
      if look.Among? {
        UnfoldSpin(Sh(), c.(pc := Spinning(up, c.pc.admitted, look.cands, saw)), tape, t + 1);
        NoExitForgets(c, Spinning(up, c.pc.admitted, look.cands, saw), up);
      }
      var spun;
      exit, spun := PickExit(up, proxyExclude, tape(t).now, tape(t).fails, tape(t).sealed, tape(t + 1).sealed);
      t' := if spun then t + 2 else t + 1;
    }

    /**
     One iteration of the loop after the pick: limiter, exit, exchange, bookkeeping. `again` carries the
     error of a `continue`; otherwise `reply` is the answer to return.
     */
    method Attempt(ghost c: Call, up: Upstream, proxyExclude: set<int>, tape: nat -> Env, t: nat)
      returns (again: Option<Last>, reply: Reply, proxyExclude': set<int>, t': nat)
      requires Wired() && c.pc == Limiting(up) && c.proxyExclude == proxyExclude && c.task.Evaluation?
      modifies store`upstreams, store`proxies, picker, limit
      ensures again.None? ==> !Failing(reply)
      ensures var c' := c.(proxyExclude := proxyExclude');
        Finish(old(Sh()), c, tape, t) ==
        Finish(Sh(), if again.Some? then Retry(c', up.id, again.value) else Answered(c', up, reply), tape, t')
    {
      hide Finish, LoopHead, Retryable, AuthFail;
      reply, proxyExclude' := Transport, proxyExclude;
      UnfoldLimit(Sh(), c, tape, t);
      var ok, wait := limit.Allow(RateLimit.UpstreamRpm(up.id), up.rpmLimit, tape(t).now);
      if !ok {
        again, t' := Some(Last(429, RateLimited, wait / RateLimit.SECOND)), t + 1;
        return;
      }
      again, reply, proxyExclude', t' := Reach(c.(pc := Exiting(up, Some(tape(t).now))), up, proxyExclude, tape, t + 1);
    }

    /** Forward the request and record how it went. */
    method Exchange(ghost c: Call, up: Upstream, exit: Choice, proxyExclude: set<int>, tape: nat -> Env, t: nat)
      returns (again: Option<Last>, reply: Reply, proxyExclude': set<int>, t': nat)
      requires c.pc.Forwarding? && c.pc.up == up && c.pc.exit == exit && c.proxyExclude == proxyExclude
      requires !c.task.Probing?
      modifies store`upstreams, store`proxies
      ensures again.None? ==> !Failing(reply)
      ensures var c' := c.(proxyExclude := proxyExclude');
        Finish(old(Sh()), c, tape, t) ==
        Finish(Sh(), if again.Some? then Retry(c', up.id, again.value) else Answered(c', up, reply), tape, t')
    {
      hide Finish, LoopHead;
      again, proxyExclude' := None, proxyExclude;
      UnfoldForward(Sh(), c, tape, t);
      reply := tape(t).reply;
      if reply.Transport? && exit.Via? {
        proxyExclude' := proxyExclude' + {exit.proxy};
      }
      ghost var c1 := c.(pc := MarkingProxy(up, exit, reply), proxyExclude := proxyExclude');
      UnfoldMarkProxy(Sh(), c1, tape, t + 1);
      NoteExit(c1, exit, reply, tape(t + 1));
      t' := t + 2;
      if reply.Transport? || Retryable(reply.status) || AuthFail(reply.status) {
        t' := GiveUp(c1.(pc := MarkingUp(up, reply)), up, reply, tape, t + 2);
        again := Some(LastOf(reply));
      }
    }

    method NoteExit(ghost c: Call, exit: Choice, reply: Reply, e: Env)
      requires c.pc.MarkingProxy? && c.pc.exit == exit && c.pc.reply == reply && !c.task.Probing?
      modifies store`proxies
      ensures MarkProxyStep(old(Sh()), c, e).sh == Sh()
    {
      hide TouchProxyErr, TouchProxyOK;
      if reply.Transport? {
        MarkProxyTransportErr(exit, e.now, e.fails);
      } else {
        MarkProxyOK(exit, e.fails);
      }
    }

    method GiveUp(ghost c: Call, up: Upstream, reply: Reply, tape: nat -> Env, t: nat) returns (t': nat)
      requires c.pc == MarkingUp(up, reply) && Failing(reply)
      modifies store`upstreams
      ensures Finish(old(Sh()), c, tape, t) == Finish(Sh(), Retry(c, up.id, LastOf(reply)), tape, t')
    {
      hide Finish, TouchUpstreamErr;
      UnfoldMarkUp(Sh(), c, tape, t);
      MarkErr(up.id, StatusOf(reply), tape(t).now, tape(t).fails);
      t' := t + 1;
    }

    method Evaluate(rid: string, user: Option<User>, bodyOk: bool, tape: nat -> Env) returns (plan: Plan)
      requires Wired()
      modifies store, pool, picker, limit
      ensures var turn := Finish(old(Sh()), NewCall(Evaluation, rid, user, bodyOk), tape, 0);
        Sh() == turn.sh && turn.call.pc == Done(plan)
    {
      hide Finish, EnterStep, Answered, Sh;
      ghost var goal := Finish(Sh(), NewCall(Evaluation, rid, user, bodyOk), tape, 0);
      UnfoldEnter(Sh(), NewCall(Evaluation, rid, user, bodyOk), tape, 0);
      var userId := if user.Some? then user.value.id else 0;
      var accountId := if user.Some? && user.value.owner.Some? then user.value.owner.value else 0;
      var held, refused := Hold(rid, user, bodyOk, accountId, tape(0));
      if refused.Some? {
        FinishDone(Sh(), Reject(NewCall(Evaluation, rid, user, bodyOk), refused.value), tape, 1);
        return Plan(refused.value, None, 0, 0);
      }
      plan := TryUpstreams(rid, user, bodyOk, userId, accountId, held, tape, goal);
    }

    /** The loop of three attempts and what follows it. */
    method TryUpstreams(rid: string, user: Option<User>, bodyOk: bool, userId: int, accountId: int, held: bool,
                        tape: nat -> Env, ghost goal: Turn)
      returns (plan: Plan)
      requires Wired()
      requires var c := NewCall(Evaluation, rid, user, bodyOk);
        accountId == AccountId(c) && userId == UserId(c) && Finish(Sh(), Opened(c, held), tape, 1) == goal
      modifies store, pool, picker, limit
      ensures Sh() == goal.sh && goal.call.pc == Done(plan)
    {
      hide Finish, Answered, Sh;
      var exclude: set<int>, proxyExclude: set<int>, last := {}, {}, NO_LAST;
      var t: nat := 1;
      ghost var c := Opened(NewCall(Evaluation, rid, user, bodyOk), held);
      var i := 0;
      while i < ATTEMPTS
        invariant 0 <= i <= ATTEMPTS
        invariant c == Call(Evaluation, rid, user, bodyOk, LoopHead(Evaluation, i, last), i, held, 0, true,
                            exclude, proxyExclude, last, Tally(if held then 1 else 0, 0, 0, 0))
        invariant Finish(Sh(), c, tape, t) == goal
      {
        var sel, ticks := Select(c, exclude, tape, t);
        t := t + ticks;
        if sel.Err? {
          plan := Plan(if sel.error == P.NoUpstream then 503 else 500, None, 0, 0);
          Conclude(rid, Fail(c, plan.status), userId, accountId, held, 0, false, plan, tape, t);
          return;
        }
        var up := sel.value;
        var again, reply;
        c := c.(pc := Limiting(up));
        again, reply, proxyExclude, t := Attempt(c, up, proxyExclude, tape, t);
        c := c.(proxyExclude := proxyExclude);
        if again.Some? {
          exclude := exclude + {up.id};
          last := again.value;
          c := Retry(c, up.id, last);
          i := i + 1;
          continue;
        }
        plan := Deliver(rid, c, up, reply, userId, accountId, held, tape, t);
        return;
      }
      if last.code == 0 {
        last := Last(502, UpstreamError, 0);
      }
      plan := Plan(last.code, None, 0, last.retryAfter);
      Conclude(rid, c, userId, accountId, held, 0, false, plan, tape, t);
    }

    /** Models: the same loop without limiter and without money; without an upstream it answers all the same. */
    method Models(rid: string, user: Option<User>, cached: bool, tape: nat -> Env) returns (plan: Plan)
      requires Wired()
      modifies store, pool, picker, limit
      ensures var turn := Finish(old(Sh()), NewCall(Catalogue(cached), rid, user, true), tape, 0);
        Sh() == turn.sh && turn.call.pc == Done(plan)
    {
      hide Finish, Sh;
      ghost var begun := NewCall(Catalogue(cached), rid, user, true);
      ghost var goal := Finish(Sh(), begun, tape, 0);
      UnfoldEnter(Sh(), begun, tape, 0);
      if cached {
        FinishDone(Sh(), Reject(begun, 200), tape, 1);
        return Plan(200, None, 0, 0);
      }
      var userId := if user.Some? then user.value.id else 0;
      var exclude: set<int>, proxyExclude: set<int> := {}, {};
      ghost var last := NO_LAST;
      var t: nat := 1;
      ghost var c := begun.(pc := Picking);
      var i := 0;
      while i < ATTEMPTS
        invariant 0 <= i <= ATTEMPTS
        invariant c == Call(Catalogue(cached), rid, user, true, LoopHead(Catalogue(cached), i, last), i, false, 0, true,
                            exclude, proxyExclude, last, Tally(0, 0, 0, 0))
        invariant Finish(Sh(), c, tape, t) == goal
      {
        var sel, ticks := Select(c, exclude, tape, t);
        t := t + ticks;
        if sel.Err? {
          plan := Plan(if sel.error == P.NoUpstream then 200 else 500, None, 0, 0);
          FinishDone(Sh(), Fail(c, if sel.error == P.NoUpstream then 503 else 500), tape, t);
          return;
        }
        var up := sel.value;
        var again, reply;
        c := c.(pc := Exiting(up, None));
        again, reply, proxyExclude, t := Reach(c, up, proxyExclude, tape, t);
        c := c.(proxyExclude := proxyExclude);
        if again.Some? {
          exclude := exclude + {up.id};
          last := again.value;
          c := Retry(c, up.id, last);
          i := i + 1;
          continue;
        }
        plan := Listed(rid, c, up, reply, userId, tape, t);
        return;
      }
      plan := Plan(200, None, 0, 0);
      FinishDone(Sh(), c, tape, t);
    }

    /** One attempt past the limiter: exit, exchange, bookkeeping. */
    method Reach(ghost c: Call, up: Upstream, proxyExclude: set<int>, tape: nat -> Env, t: nat)
      returns (again: Option<Last>, reply: Reply, proxyExclude': set<int>, t': nat)
      requires Wired() && c.pc.Exiting? && c.pc.up == up && c.proxyExclude == proxyExclude && !c.task.Probing?
      modifies store`upstreams, store`proxies, picker
      ensures again.None? ==> !Failing(reply)
      ensures var c' := c.(proxyExclude := proxyExclude');
        Finish(old(Sh()), c, tape, t) ==
        Finish(Sh(), if again.Some? then Retry(c', up.id, again.value) else Answered(c', up, reply), tape, t')
    {
      hide Finish, LoopHead, Retryable, AuthFail;
      reply, proxyExclude' := Transport, proxyExclude;
      var exit;
      exit, t' := FindExit(c, up, proxyExclude, tape, t);
      if exit.Err? {
        again := Some(Last(502, ProxyError, 0));
        return;
      }
      ghost var c1 := c.(pc := Forwarding(up, c.pc.admitted, exit.value, Sighting(tape(t).now, store.proxies)));
      again, reply, proxyExclude', t' := Exchange(c1, up, exit.value, proxyExclude, tape, t');
    }

    /** A catalogue answer: mark the upstream, log the request under the client's id, charge nobody. */
    method Listed(rid: string, ghost c: Call, up: Upstream, reply: Reply, userId: int, tape: nat -> Env, t: nat)
      returns (plan: Plan)
      requires !Failing(reply) && c.task.Catalogue? && c.rid == rid && c.charged == 0 && c.settleOK
      requires userId == UserId(c)
      modifies store`upstreams, store`logs
      ensures var turn := Finish(old(Sh()), Answered(c, up, reply), tape, t);
        Sh() == turn.sh && turn.call.pc == Done(plan)
    {
      hide Finish;
      plan := Plan(reply.status, Some(up.id), 0, 0);
      UnfoldMarkUp(Sh(), c.(pc := MarkingUp(up, reply)), tape, t);
      MarkOK(up.id, tape(t).fails);
      ghost var c1 := c.(pc := Logging(plan));
      UnfoldLog(Sh(), c1, tape, t + 1);
      ghost var sh1 := Sh();
      store.InsertLog(UsageLog(rid, userId, plan.upstream, 0, plan.status, Success(plan.status), 0, 0, false),
                      tape(t + 1).fails);
      assert LogStep(sh1, c1, tape(t + 1)).sh == Sh();
      FinishDone(Sh(), LogStep(sh1, c1, tape(t + 1)).call, tape, t + 2);
    }

    /** Probe of one row and the marks of its handlers: the proxy's for a transport error or a 2xx, the row's always. */
    method Probe(up: Upstream, tape: nat -> Env) returns (plan: Plan)
      requires Wired()
      modifies store`upstreams, store`proxies, picker
      ensures var turn := Finish(old(Sh()), NewCall(Probing(up), "probe", None, true), tape, 0);
        Sh() == turn.sh && turn.call.pc == Done(plan)
    {
      hide Finish;
      ghost var c := NewCall(Probing(up), "probe", None, true).(pc := Exiting(up, None));
      UnfoldEnter(Sh(), NewCall(Probing(up), "probe", None, true), tape, 0);
      var exit, t := FindExit(c, up, {}, tape, 1);
      if exit.Err? {
        plan := ProbeMarks(NoExit(c, up), up, Transport, tape, t);
        return;
      }
      plan := ProbeForward(c.(pc := Forwarding(up, None, exit.value, Sighting(tape(1).now, store.proxies))),
                           up, exit.value, tape, t);
    }

    /** The exchange of a probe. */
    method ProbeForward(ghost c: Call, up: Upstream, exit: Choice, tape: nat -> Env, t: nat) returns (plan: Plan)
      requires c.task.Probing? && c.pc.Forwarding? && c.pc.up == up && c.pc.exit == exit
      modifies store`upstreams, store`proxies
      ensures var turn := Finish(old(Sh()), c, tape, t); Sh() == turn.sh && turn.call.pc == Done(plan)
    {
      hide Finish;
      UnfoldForward(Sh(), c, tape, t);
      var reply := tape(t).reply;
      ghost var c1 := ForwardStep(c, tape(t));
      UnfoldMarkProxy(Sh(), c1, tape, t + 1);
      ProbeNoteExit(c1, exit, reply, tape(t + 1));
      plan := ProbeMarks(c1.(pc := MarkingUp(up, reply)), up, reply, tape, t + 2);
    }

    method ProbeNoteExit(ghost c: Call, exit: Choice, reply: Reply, e: Env)
      requires c.task.Probing? && c.pc.MarkingProxy? && c.pc.exit == exit && c.pc.reply == reply
      modifies store`proxies
      ensures MarkProxyStep(old(Sh()), c, e).sh == Sh()
    {
      hide TouchProxyErr, TouchProxyOK;
      if reply.Transport? {
        MarkProxyTransportErr(exit, e.now, e.fails);
      } else if 200 <= reply.status < 300 {
        MarkProxyOK(exit, e.fails);
      }
    }

    /** The mark a probe leaves on its row, which ends it. */
    method ProbeMarks(ghost c: Call, up: Upstream, reply: Reply, tape: nat -> Env, t: nat) returns (plan: Plan)
      requires c.task.Probing? && c.pc == MarkingUp(up, reply)
      modifies store`upstreams
      ensures var turn := Finish(old(Sh()), c, tape, t); Sh() == turn.sh && turn.call.pc == Done(plan)
    {
      hide Finish, TouchUpstreamErr, TouchUpstreamOK;
      UnfoldMarkUp(Sh(), c, tape, t);
      ghost var turn := MarkUpStep(Sh(), c, tape(t));
      if reply.Http? && 200 <= reply.status < 300 {
        MarkOK(up.id, tape(t).fails);
        plan := Plan(reply.status, Some(up.id), 0, 0);
      } else {
        MarkErr(up.id, if reply.Http? then reply.status else 0, tape(t).now, tape(t).fails);
        plan := Plan(if reply.Http? then reply.status else 502, None, 0, 0);
      }
      FinishDone(Sh(), turn.call, tape, t + 1);
    }

    /** Validation and the one-micro-credit hold; `refused` is the status of an early return. */
    method Hold(rid: string, user: Option<User>, bodyOk: bool, accountId: int, e: Env)
      returns (held: bool, refused: Option<int>)
      requires user.Some? && user.value.owner.Some? ==> accountId == user.value.owner.value
      modifies store`accounts, store`ledger
      ensures var c := NewCall(Evaluation, rid, user, bodyOk);
        EnterStep(old(Sh()), c, e) ==
        Turn(Sh(), if refused.Some? then Reject(c, refused.value) else Opened(c, held))
    {
      held, refused := false, None;
      if !bodyOk {
        return false, Some(400);
      }
      if user.Some? && user.value.owner.Some? {
        var posted := store.PostCredit(accountId, -1, false, Ledger.Hold, Ledger.CallRef(RefOf(rid)), e.fails);
        if posted == Err(Ledger.InsufficientCredits) {
          return false, Some(402);
        }
        if posted.Err? {
          return false, Some(500);
        }
        held := true;
      }
    }

    /** Pool.Pick as the machine's two steps: read the table, then advance the cursor. */
    method Select(ghost c: Call, exclude: set<int>, tape: nat -> Env, t: nat)
      returns (r: Result<Upstream, P.PickError>, ticks: nat)
      requires Wired() && c.pc.Picking? && c.exclude == exclude && !c.task.Probing?
      modifies pool
      ensures Finish(old(Sh()), c, tape, t) ==
        Finish(Sh(),
               if r.Ok? then c.(pc := if c.task.Evaluation? then Limiting(r.value) else Exiting(r.value, None))
               else Fail(c, if r.error == P.NoUpstream then 503 else 500),
               tape, t + ticks)
    {
      hide Finish;
      UnfoldPick(Sh(), c, tape, t);
      ghost var cands := P.Candidates(store.upstreams, exclude, tape(t).now);
      if !tape(t).fails && cands != [] {
        UnfoldSelect(Sh(), c.(pc := Selecting(cands, Reading(tape(t).now, store.upstreams))), tape, t + 1);
      }
      r := pool.Pick(exclude, tape(t).now, tape(t).fails, tape(t + 1).sealed);
      ticks := if r == Err(P.NoUpstream) || tape(t).fails then 1 else 2;
    }

    /** An upstream's answer that ends the call: bill it if it is a 2xx, otherwise give the hold back. */
    method Deliver(rid: string, ghost c: Call, up: Upstream, reply: Reply, userId: int, accountId: int, held: bool,
                   tape: nat -> Env, t: nat)
      returns (plan: Plan)
      requires !Failing(reply) && c.held == held && c.charged == 0 && c.settleOK
      requires accountId == AccountId(c) && userId == UserId(c) && c.rid == rid && c.task.Evaluation?
      modifies store
      ensures var turn := Finish(old(Sh()), Answered(c, up, reply), tape, t);
        Sh() == turn.sh && turn.call.pc == Done(plan)
    {
      hide Finish, Billing.UsageCost, Sh;
      plan := Plan(reply.status, Some(up.id), reply.inputTokens, 0);
      if 200 <= reply.status < 300 {
        var cost := Billing.UsageCost(reply.inputTokens);
        var t' := RecordSuccess(c, up, reply, userId, tape, t);
        Conclude(rid, c.(pc := Settling(cost, true, plan)), userId, accountId, held, cost, true, plan, tape, t');
      } else {
        Conclude(rid, c.(pc := Settling(0, false, plan)), userId, accountId, held, 0, false, plan, tape, t);
      }
    }

    /** MarkOK and AddTokens after a 2xx answer. */
    method RecordSuccess(ghost c: Call, up: Upstream, reply: Reply, userId: int, tape: nat -> Env, t: nat)
      returns (t': nat)
      requires reply.Http? && Success(reply.status) && userId == UserId(c) && c.task.Evaluation?
      modifies store`upstreams, store`tokens
      ensures Finish(old(Sh()), c.(pc := MarkingUp(up, reply)), tape, t) ==
        Finish(Sh(), c.(pc := Settling(Billing.UsageCost(reply.inputTokens), true,
                                          Plan(reply.status, Some(up.id), reply.inputTokens, 0))), tape, t')
    {
      hide Finish;
      UnfoldMarkUp(Sh(), c.(pc := MarkingUp(up, reply)), tape, t);
      MarkOK(up.id, tape(t).fails);
      UnfoldCount(Sh(), c.(pc := Counting(up, reply)), tape, t + 1);
      if userId > 0 && !tape(t + 1).fails {
        store.AddTokens(userId, reply.inputTokens);
      }
      t' := t + 2;
    }
  }

  lemma NoExitForgets(c: Call, pc: Pc, up: Upstream)
    ensures NoExit(c.(pc := pc), up) == NoExit(c, up)
  {
  }

  /** A new call past validation and hold. */
  ghost function Opened(c: Call, held: bool): Call {
    c.(held := held, pc := Picking, tally := c.tally.(holds := c.tally.holds + if held then 1 else 0))
  }

  /** The call after its release closure ran. */
  ghost function Released(c: Call, charged: int, settleOK: bool): Call
    requires c.pc.Settling?
  {
    c.(held := false, charged := charged, settleOK := settleOK, pc := Logging(c.pc.plan),
       tally := if c.held then c.tally.(settles := c.tally.settles + 1) else c.tally)
  }

  /** The call once it has an answer it will not retry. */
  ghost function Answered(c: Call, up: Upstream, reply: Reply): Call
    requires !Failing(reply)
  {
    if Success(reply.status) || !c.task.Evaluation? then c.(pc := MarkingUp(up, reply))
    else c.(pc := Settling(0, false, Plan(reply.status, Some(up.id), reply.inputTokens, 0)))
  }
}
