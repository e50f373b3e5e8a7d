/**
 One call (internal/proxy/proxy.go) as a machine that takes one atomic step at a time: a store transaction
 or statement, a limiter decision, a cursor increment, or one exchange with an upstream. Between two steps
 of a call any other call may run. What a step cannot compute - the clock, the upstream's reply, whether
 the database or a decryption fails - arrives with it in an Env.

 Evaluate is the call that bills. Models and Probe share its parts - the pool, the exits, the marks, the
 log - but take no admission and move no money.
 */
module CallMachine {
  import opened Wrappers
  import opened Tables
  import opened OutProxy
  import Auth = Authentication
  import Ledger
  import RateLimit
  import Billing
  import P = Pool
  import S = Store

  const ATTEMPTS := 3
  const PROXY_COOLDOWN := 30_000

  /** Everything calls share. */
  datatype Shared = Shared(
    db: Ledger.Db,
    logs: seq<UsageLog>,
    upstreams: seq<Upstream>,
    proxies: seq<Proxy>,
    tokens: map<int, int>,
    keys: seq<Auth.UserKey>,
    windows: RateLimit.Windows,
    poolCursor: nat,
    exitCursor: nat)

  /** A user key; the playground passes id 0 with an owner. */
  datatype User = User(id: int, owner: Option<int>)

  datatype Reply = Transport | Http(status: int, inputTokens: int, retryAfter: Option<int>)

  /** fails: the database does not answer. sealed: a stored secret does not decrypt. */
  datatype Env = Env(now: int, reply: Reply, fails: bool, sealed: bool)

  /** What a call is for: Evaluate, Models (answered at once while its cache is fresh), or Probe of one row. */
  datatype Task = Evaluation | Catalogue(cached: bool) | Probing(up: Upstream)

  datatype Kind = RateLimited | ProxyError | UpstreamError

  /** The error of the latest failed attempt; code 0 means none yet. */
  datatype Last = Last(code: int, kind: Kind, retryAfter: int)

  const NO_LAST := Last(0, UpstreamError, 0)

  /** What the call has decided to report, before it settles and logs. */
  datatype Plan = Plan(status: int, upstream: Option<int>, inputTokens: int, retryAfter: int)

  /** The upstream table as it was when the candidates were read from it. */
  datatype Reading = Reading(at: int, upstreams: seq<Upstream>)

  /** The proxy table as it was when the exit was chosen. */
  datatype Sighting = Sighting(at: int, proxies: seq<Proxy>)

  datatype Pc =
    | Enter
    | Picking
    | Selecting(cands: seq<Upstream>, read: Reading)
    | Limiting(up: Upstream)
    | Exiting(up: Upstream, admitted: Option<int>)
    | Spinning(up: Upstream, admitted: Option<int>, exits: seq<Proxy>, saw: Sighting)
    | Forwarding(up: Upstream, admitted: Option<int>, exit: Choice, saw: Sighting)
    | MarkingProxy(up: Upstream, exit: Choice, reply: Reply)
    | MarkingUp(up: Upstream, reply: Reply)
    | Counting(up: Upstream, reply: Reply)
    | Settling(cost: int, callOk: bool, plan: Plan)
    | Logging(plan: Plan)
    | Done(plan: Plan)

  /**
   How often a call has done the things it must do at most once; `rows` counts the log writes that went
   through. The source keeps no such counts.
   */
  datatype Tally = Tally(holds: nat, settles: nat, logs: nat, rows: nat)

  /** One call: its program counter, its parameters and local variables, and the tally of what it did. */
  datatype Call = Call(
    task: Task,
    rid: string,
    user: Option<User>,
    bodyOk: bool,
    pc: Pc,
    i: nat,
    held: bool,
    charged: int,
    settleOK: bool,
    exclude: set<int>,
    proxyExclude: set<int>,
    last: Last,
    tally: Tally)

  function NewCall(task: Task, rid: string, user: Option<User>, bodyOk: bool): Call {
    Call(task, rid, user, bodyOk, Enter, 0, false, 0, true, {}, {}, NO_LAST, Tally(0, 0, 0, 0))
  }

  /** The account a call is billed to. Only Evaluate looks at the key's owner. */
  function Owner(c: Call): Option<int> {
    if c.task.Evaluation? && c.user.Some? then c.user.value.owner else None
  }

  /** The reference of the call's ledger rows: the client's request id, which other calls may carry too. */
  function RefOf(rid: string): string {
    if rid == "" then "usage" else rid
  }

  function UserId(c: Call): int {
    if c.user.Some? then c.user.value.id else 0
  }

  function AccountId(c: Call): int {
    if Owner(c).Some? then Owner(c).value else 0
  }

  // ---------------------------------------------------------------- classification

  predicate Success(status: int) {
    200 <= status < 300
  }

  predicate Retryable(status: int) {
    status == 429 || status == 529 || status >= 500
  }

  predicate AuthFail(status: int) {
    status == 401 || status == 403
  }

  /** The call gives up on this upstream and tries another. */
  predicate Failing(reply: Reply) {
    reply.Transport? || Retryable(reply.status) || AuthFail(reply.status)
  }

  /** How long MarkErr keeps an upstream out; status 0 stands for a transport error. */
  function CooldownMs(status: int): int {
    if status == 429 then 30_000
    else if status == 529 then 10_000
    else if AuthFail(status) then 600_000
    else if status >= 500 then 20_000
    else 15_000
  }

  function StatusOf(reply: Reply): int {
    match reply
    case Transport => 0
    case Http(status, _, _) => status
  }

  function LastOf(reply: Reply): Last {
    match reply
    case Transport => Last(502, UpstreamError, 0)
    case Http(status, _, ra) => Last(status, UpstreamError, if ra.Some? then ra.value else 0)
  }

  // ---------------------------------------------------------------- steps

  datatype Turn = Turn(sh: Shared, call: Call)

  /** Where the loop stands after i attempts: another one, or out of it. A probe has no loop. */
  function LoopHead(task: Task, i: nat, last: Last): Pc {
    if task.Probing? then Done(Plan(last.code, None, 0, 0))
    else if i < ATTEMPTS then Picking
    else if task.Catalogue? then Done(Plan(200, None, 0, 0)) // the fallback list
    else Settling(0, false, if last.code == 0 then Plan(502, None, 0, 0) else Plan(last.code, None, 0, last.retryAfter))
  }

  /** `continue` after a failed attempt on upstream up. */
  function Retry(c: Call, up: int, last: Last): Call {
    c.(exclude := c.exclude + {up}, last := last, i := c.i + 1, pc := LoopHead(c.task, c.i + 1, last))
  }

  /** No upstream could be picked. Without one, Models answers with its fallback list. */
  function Fail(c: Call, status: int): Call {
    if c.task.Evaluation? then c.(pc := Settling(0, false, Plan(status, None, 0, 0)))
    else c.(pc := Done(Plan(if status == 503 then 200 else status, None, 0, 0)))
  }

  /** No exit could be had. A probe marks its upstream as for a transport error. */
  function NoExit(c: Call, up: Upstream): Call {
    if c.task.Probing? then c.(pc := MarkingUp(up, Transport)) else Retry(c, up.id, Last(502, ProxyError, 0))
  }

  function Reject(c: Call, status: int): Call {
    c.(pc := Done(Plan(status, None, 0, 0)))
  }

  function EnterStep(sh: Shared, c: Call, e: Env): Turn {
    if c.task.Probing? then Turn(sh, c.(pc := Exiting(c.task.up, None)))
    else if c.task.Catalogue? then Turn(sh, if c.task.cached then Reject(c, 200) else c.(pc := Picking))
    else if !c.bodyOk then Turn(sh, Reject(c, 400))
    else if Owner(c).None? then Turn(sh, c.(pc := Picking))
    else if e.fails then Turn(sh, Reject(c, 500))
    else
      match Ledger.Post(sh.db, AccountId(c), -1, false, Ledger.Hold, Ledger.CallRef(RefOf(c.rid)))
      case (db, Ok(_)) =>
        Turn(sh.(db := db), c.(held := true, pc := Picking, tally := c.tally.(holds := c.tally.holds + 1)))
      case (_, Err(err)) => Turn(sh, Reject(c, if err == Ledger.InsufficientCredits then 402 else 500))
  }

  function PickStep(sh: Shared, c: Call, e: Env): Call {
    if e.fails then Fail(c, 500)
    else
      var cands := P.Candidates(sh.upstreams, c.exclude, e.now);
      if cands == [] then Fail(c, 503) else c.(pc := Selecting(cands, Reading(e.now, sh.upstreams)))
  }

  function SelectStep(sh: Shared, c: Call, e: Env): Turn
    requires c.pc.Selecting?
  {
    if c.pc.cands == [] then Turn(sh, Fail(c, 503)) // PickStep never leaves this list empty
    else
      var cursor := P.Advance(sh.poolCursor);
      Turn(sh.(poolCursor := cursor),
           if e.sealed then Fail(c, 500)
           else if c.task.Evaluation? then c.(pc := Limiting(P.Choose(c.pc.cands, cursor)))
           else c.(pc := Exiting(P.Choose(c.pc.cands, cursor), None)))
  }

  function LimitStep(sh: Shared, c: Call, e: Env): Turn
    requires c.pc.Limiting?
  {
    var up := c.pc.up;
    var (windows, v) :=
      RateLimit.Decide(sh.windows, RateLimit.UpstreamRpm(up.id), up.rpmLimit, RateLimit.MINUTE, e.now);
    Turn(sh.(windows := windows),
         if v.ok then c.(pc := Exiting(up, Some(e.now)))
         else Retry(c, up.id, Last(429, RateLimited, v.wait / RateLimit.SECOND)))
  }

  function ExitStep(sh: Shared, c: Call, e: Env): Call
    requires c.pc.Exiting?
  {
    var saw := Sighting(e.now, sh.proxies);
    match LookUp(sh.proxies, c.pc.up, c.proxyExclude, e.now, e.fails)
    case Decided(Ok(exit)) =>
      if exit.Via? && e.sealed then NoExit(c, c.pc.up) else c.(pc := Forwarding(c.pc.up, c.pc.admitted, exit, saw))
    case Decided(Err(_)) => NoExit(c, c.pc.up)
    case Among(cands) => c.(pc := Spinning(c.pc.up, c.pc.admitted, cands, saw))
  }

  function SpinStep(sh: Shared, c: Call, e: Env): Turn
    requires c.pc.Spinning?
  {
    if c.pc.exits == [] then Turn(sh, NoExit(c, c.pc.up)) // ExitStep never leaves this list empty
    else
      var cursor := P.Advance(sh.exitCursor);
      Turn(sh.(exitCursor := cursor),
           if e.sealed then NoExit(c, c.pc.up)
           else c.(pc := Forwarding(c.pc.up, c.pc.admitted, Spin(c.pc.exits, cursor), c.pc.saw)))
  }

  function ForwardStep(c: Call, e: Env): Call
    requires c.pc.Forwarding?
  {
    c.(pc := MarkingProxy(c.pc.up, c.pc.exit, e.reply),
       proxyExclude :=
         if e.reply.Transport? && c.pc.exit.Via? then c.proxyExclude + {c.pc.exit.proxy} else c.proxyExclude)
  }

  /** What counts as a failure when the upstream is marked: for a probe, anything but a 2xx. */
  predicate MarksErr(task: Task, reply: Reply) {
    Failing(reply) || (task.Probing? && !Success(reply.status))
  }

  function MarkProxyStep(sh: Shared, c: Call, e: Env): Turn
    requires c.pc.MarkingProxy?
  {
    var reply := c.pc.reply;
    var proxies :=
      if c.pc.exit.Direct? || e.fails then sh.proxies
      else if reply.Transport? then TouchProxyErr(sh.proxies, c.pc.exit.proxy, e.now + PROXY_COOLDOWN)
      else if c.task.Probing? && !Success(reply.status) then sh.proxies
      else TouchProxyOK(sh.proxies, c.pc.exit.proxy);
    Turn(sh.(proxies := proxies),
         if Failing(reply) || Success(reply.status) || !c.task.Evaluation? then c.(pc := MarkingUp(c.pc.up, reply))
         else c.(pc := Settling(0, false, Plan(reply.status, Some(c.pc.up.id), reply.inputTokens, 0))))
  }

  function MarkUpStep(sh: Shared, c: Call, e: Env): Turn
    requires c.pc.MarkingUp?
  {
    var up, reply := c.pc.up, c.pc.reply;
    if MarksErr(c.task, reply) then
      var status := StatusOf(reply);
      var ups :=
        if e.fails then sh.upstreams
        else TouchUpstreamErr(sh.upstreams, up.id, e.now + CooldownMs(status), AuthFail(status));
      Turn(sh.(upstreams := ups), Retry(c, up.id, LastOf(reply)))
    else
      Turn(sh.(upstreams := if e.fails then sh.upstreams else TouchUpstreamOK(sh.upstreams, up.id)),
           c.(pc := match c.task
                    case Evaluation => Counting(up, reply)
                    case Catalogue(_) => Logging(Plan(reply.status, Some(up.id), 0, 0))
                    case Probing(_) => Done(Plan(reply.status, Some(up.id), 0, 0))))
  }

  function CountStep(sh: Shared, c: Call, e: Env): Turn
    requires c.pc.Counting?
  {
    var n := if c.pc.reply.Http? then c.pc.reply.inputTokens else 0;
    Turn(sh.(tokens := if UserId(c) > 0 && !e.fails then S.Spent(sh.tokens, UserId(c), n) else sh.tokens),
         c.(pc := Settling(Billing.UsageCost(n), true, Plan(StatusOf(c.pc.reply), Some(c.pc.up.id), n, 0))))
  }

  /** The release closure. */
  function SettleStep(sh: Shared, c: Call, e: Env): Turn
    requires c.pc.Settling?
  {
    var c' := c.(held := false, pc := Logging(c.pc.plan), tally := c.tally.(settles := c.tally.settles + 1));
    if !c.held then Turn(sh, c.(pc := Logging(c.pc.plan)))
    else if e.fails then Turn(sh, c'.(settleOK := false, charged := 1))
    else
      match Ledger.SettleUsage(sh.db, AccountId(c), 1, c.pc.cost, Ledger.CallRef(RefOf(c.rid)), c.pc.callOk)
      case (db, Ok(got)) => Turn(sh.(db := db), c'.(charged := got))
      case (_, Err(_)) => Turn(sh, c'.(settleOK := false, charged := 1))
  }

  function LogOf(c: Call, plan: Plan): UsageLog {
    UsageLog(c.rid, UserId(c), plan.upstream, plan.inputTokens, plan.status,
             plan.upstream.Some? && Success(plan.status), AccountId(c), c.charged, plan.upstream.None? && !c.settleOK)
  }

  function LogStep(sh: Shared, c: Call, e: Env): Turn
    requires c.pc.Logging?
  {
    Turn(sh.(logs := if e.fails then sh.logs else sh.logs + [LogOf(c, c.pc.plan)]),
         c.(pc := Done(c.pc.plan),
            tally := c.tally.(logs := c.tally.logs + 1, rows := c.tally.rows + if e.fails then 0 else 1)))
  }

  /** One atomic step of a call. A finished call stays as it is. */
  function CallStep(sh: Shared, c: Call, e: Env): Turn {
    match c.pc
    case Enter => EnterStep(sh, c, e)
    case Picking => Turn(sh, PickStep(sh, c, e))
    case Selecting(_, _) => SelectStep(sh, c, e)
    case Limiting(_) => LimitStep(sh, c, e)
    case Exiting(_, _) => Turn(sh, ExitStep(sh, c, e))
    case Spinning(_, _, _, _) => SpinStep(sh, c, e)
    case Forwarding(_, _, _, _) => Turn(sh, ForwardStep(c, e))
    case MarkingProxy(_, _, _) => MarkProxyStep(sh, c, e)
    case MarkingUp(_, _) => MarkUpStep(sh, c, e)
    case Counting(_, _) => CountStep(sh, c, e)
    case Settling(_, _, _) => SettleStep(sh, c, e)
    case Logging(_) => LogStep(sh, c, e)
    case Done(_) => Turn(sh, c)
  }

  // ---------------------------------------------------------------- what can follow what

  /** Who a call is for, and what it carries, never changes. */
  ghost predicate SameCaller(c: Call, c': Call) {
    c'.task == c.task && c'.rid == c.rid && c'.user == c.user && c'.bodyOk == c.bodyOk
  }

  /** Which program points can follow which, and which steps can touch which local variables. */
  ghost predicate Leads(c: Call, c': Call) {
    SameCaller(c, c') && !c'.pc.Enter? && (c.pc.Done? ==> c' == c) &&
    (c'.pc.Selecting? ==> c.pc.Picking?) &&
    (c'.pc.Limiting? ==> c.pc.Selecting?) &&
    (c'.pc.Exiting? ==> c.pc.Enter? || c.pc.Selecting? || c.pc.Limiting?) &&
    (c'.pc.Spinning? ==> c.pc.Exiting? && c'.pc.up == c.pc.up && c'.pc.admitted == c.pc.admitted) &&
    (c'.pc.Forwarding? ==>
      (c.pc.Exiting? || c.pc.Spinning?) && c'.pc.up == c.pc.up && c'.pc.admitted == c.pc.admitted) &&
    (c'.pc.MarkingProxy? ==> c.pc.Forwarding?) &&
    (c'.pc.MarkingUp? ==>
      if c.pc.MarkingProxy? then c'.pc.reply == c.pc.reply
      else (c.pc.Exiting? || c.pc.Spinning?) && c'.pc.reply == Transport) &&
    (c'.pc.Counting? ==> c.pc.MarkingUp? && c.task.Evaluation? && c'.pc.reply == c.pc.reply) &&
    (!c.pc.Enter? ==> c'.tally.holds == c.tally.holds) &&
    (!(c.pc.Settling? && c.held) ==> c'.tally.settles == c.tally.settles) &&
    (!c.pc.Logging? ==> c'.tally.logs == c.tally.logs && c'.tally.rows == c.tally.rows) &&
    (if c.pc.Forwarding? then c.proxyExclude <= c'.proxyExclude else c'.proxyExclude == c.proxyExclude)
  }

  lemma StepLeads(sh: Shared, c: Call, e: Env)
    ensures Leads(c, CallStep(sh, c, e).call)
  {
    match c.pc
    case Enter => EnterLeads(sh, c, e);
    case Picking => PickLeads(sh, c, e);
    case Selecting(_, _) => PickLeads(sh, c, e);
    case Limiting(_) => TryLeads(sh, c, e);
    case Exiting(_, _) => ExitLeads(sh, c, e);
    case Spinning(_, _, _, _) => ExitLeads(sh, c, e);
    case MarkingUp(_, _) => TryLeads(sh, c, e);
    case _ => EndLeads(sh, c, e);
  }

  lemma EnterLeads(sh: Shared, c: Call, e: Env)
    requires c.pc.Enter?
    ensures Leads(c, CallStep(sh, c, e).call)
  {
    hide Ledger.Post;
  }

  lemma PickLeads(sh: Shared, c: Call, e: Env)
    requires c.pc.Picking? || c.pc.Selecting?
    ensures Leads(c, CallStep(sh, c, e).call)
  {
    FailLeads(c);
    hide P.Candidates, P.Choose, P.Advance, Fail;
  }

  lemma FailLeads(c: Call)
    requires c.pc.Picking? || c.pc.Selecting?
    ensures forall status :: Leads(c, Fail(c, status))
  {
  }

  lemma GivingUpLeads(c: Call)
    requires c.pc.Limiting? || c.pc.Exiting? || c.pc.Spinning? || c.pc.MarkingUp?
    ensures forall last :: Leads(c, Retry(c, c.pc.up.id, last))
    ensures c.pc.Exiting? || c.pc.Spinning? ==> Leads(c, NoExit(c, c.pc.up))
  {
  }

  lemma TryLeads(sh: Shared, c: Call, e: Env)
    requires c.pc.Limiting? || c.pc.MarkingUp?
    ensures Leads(c, CallStep(sh, c, e).call)
  {
    GivingUpLeads(c);
    hide Retry, RateLimit.Decide, TouchUpstreamErr, TouchUpstreamOK, MarksErr;
  }

  lemma ExitLeads(sh: Shared, c: Call, e: Env)
    requires c.pc.Exiting? || c.pc.Spinning?
    ensures Leads(c, CallStep(sh, c, e).call)
  {
    GivingUpLeads(c);
    hide LookUp, Spin, NoExit;
  }

  lemma EndLeads(sh: Shared, c: Call, e: Env)
    requires c.pc.Forwarding? || c.pc.MarkingProxy? || c.pc.Counting? || c.pc.Settling? || c.pc.Logging? || c.pc.Done?
    ensures Leads(c, CallStep(sh, c, e).call)
  {
    hide Ledger.SettleUsage, Billing.UsageCost, TouchProxyErr, TouchProxyOK, S.Spent, Failing, Success;
  }

  // ---------------------------------------------------------------- termination and the solo run

  function Rank(pc: Pc): nat {
    match pc
    case Enter => 12
    case Picking => 11
    case Selecting(_, _) => 10
    case Limiting(_) => 9
    case Exiting(_, _) => 8
    case Spinning(_, _, _, _) => 7
    case Forwarding(_, _, _, _) => 6
    case MarkingProxy(_, _, _) => 5
    case MarkingUp(_, _) => 4
    case Counting(_, _) => 3
    case Settling(_, _, _) => 2
    case Logging(_) => 1
    case Done(_) => 0
  }

  /** A bound on the steps a call still has to take. */
  function Fuel(c: Call): nat {
    (if c.i < ATTEMPTS then 10 * (ATTEMPTS - c.i) else 0) + Rank(c.pc)
  }

  /** Every step of an unfinished call brings it closer to its end, whatever the environment does. */
  lemma StepsRunOut(sh: Shared, c: Call, e: Env)
    requires !c.pc.Done?
    ensures Fuel(CallStep(sh, c, e).call) < Fuel(c)
  {
    hide Fuel, Retry, Fail, NoExit;
    match c.pc
    case Enter => OpeningRunsOut(sh, c, e);
    case Picking => OpeningRunsOut(sh, c, e);
    case Selecting(_, _) => OpeningRunsOut(sh, c, e);
    case Limiting(_) => LimitRunsOut(sh, c, e);
    case Exiting(_, _) => ExitRunsOut(sh, c, e);
    case Spinning(_, _, _, _) => ExitRunsOut(sh, c, e);
    case MarkingUp(_, _) => MarkRunsOut(sh, c, e);
    case _ => EndRunsOut(sh, c, e);
  }

  lemma RetryRunsOut(c: Call, up: int, last: Last)
    requires Rank(c.pc) >= 4
    ensures Fuel(Retry(c, up, last)) < Fuel(c)
  {
  }

  lemma OpeningRunsOut(sh: Shared, c: Call, e: Env)
    requires c.pc.Enter? || c.pc.Picking? || c.pc.Selecting?
    ensures Fuel(CallStep(sh, c, e).call) < Fuel(c)
  {
    hide P.Candidates, P.Choose, Ledger.Post;
    assert c.pc.Enter? ==> EnterStep(sh, c, e).call.i == c.i;
  }

  lemma LimitRunsOut(sh: Shared, c: Call, e: Env)
    requires c.pc.Limiting?
    ensures Fuel(LimitStep(sh, c, e).call) < Fuel(c)
  {
    hide Retry;
    forall last ensures Fuel(Retry(c, c.pc.up.id, last)) < Fuel(c) {
      RetryRunsOut(c, c.pc.up.id, last);
    }
  }

  lemma ExitRunsOut(sh: Shared, c: Call, e: Env)
    requires c.pc.Exiting? || c.pc.Spinning?
    ensures Fuel(if c.pc.Exiting? then ExitStep(sh, c, e) else SpinStep(sh, c, e).call) < Fuel(c)
  {
    hide Retry, LookUp;
    RetryRunsOut(c, c.pc.up.id, Last(502, ProxyError, 0));
  }

  lemma MarkRunsOut(sh: Shared, c: Call, e: Env)
    requires c.pc.MarkingUp?
    ensures Fuel(MarkUpStep(sh, c, e).call) < Fuel(c)
  {
    hide Retry;
    RetryRunsOut(c, c.pc.up.id, LastOf(c.pc.reply));
  }

  lemma EndRunsOut(sh: Shared, c: Call, e: Env)
    requires c.pc.Forwarding? || c.pc.MarkingProxy? || c.pc.Counting? || c.pc.Settling? || c.pc.Logging?
    ensures Fuel(CallStep(sh, c, e).call) < Fuel(c)
  {
    hide Ledger.SettleUsage, Billing.UsageCost, TouchProxyErr, TouchProxyOK, S.Spent, Failing, Success;
  }

  /** The call runs on alone, reading its environment from the tape starting at position t. */
  function Finish(sh: Shared, c: Call, tape: nat -> Env, t: nat): Turn
    decreases Fuel(c)
  {
    if c.pc.Done? then Turn(sh, c)
    else
      StepsRunOut(sh, c, tape(t));
      var turn := CallStep(sh, c, tape(t));
      Finish(turn.sh, turn.call, tape, t + 1)
  }

  lemma FinishDone(sh: Shared, c: Call, tape: nat -> Env, t: nat)
    requires c.pc.Done?
    ensures Finish(sh, c, tape, t) == Turn(sh, c)
  {
  }

  lemma UnfoldPick(sh: Shared, c: Call, tape: nat -> Env, t: nat)
    requires c.pc.Picking?
    ensures Finish(sh, c, tape, t) == Finish(sh, PickStep(sh, c, tape(t)), tape, t + 1)
  {
  }

  lemma UnfoldExit(sh: Shared, c: Call, tape: nat -> Env, t: nat)
    requires c.pc.Exiting?
    ensures Finish(sh, c, tape, t) == Finish(sh, ExitStep(sh, c, tape(t)), tape, t + 1)
  {
  }

  lemma UnfoldForward(sh: Shared, c: Call, tape: nat -> Env, t: nat)
    requires c.pc.Forwarding?
    ensures Finish(sh, c, tape, t) == Finish(sh, ForwardStep(c, tape(t)), tape, t + 1)
  {
  }

  lemma UnfoldEnter(sh: Shared, c: Call, tape: nat -> Env, t: nat)
    requires c.pc.Enter?
    ensures Finish(sh, c, tape, t) ==
      var turn := EnterStep(sh, c, tape(t)); Finish(turn.sh, turn.call, tape, t + 1)
  {
  }

  lemma UnfoldSelect(sh: Shared, c: Call, tape: nat -> Env, t: nat)
    requires c.pc.Selecting?
    ensures Finish(sh, c, tape, t) ==
      var turn := SelectStep(sh, c, tape(t)); Finish(turn.sh, turn.call, tape, t + 1)
  {
  }

  lemma UnfoldLimit(sh: Shared, c: Call, tape: nat -> Env, t: nat)
    requires c.pc.Limiting?
    ensures Finish(sh, c, tape, t) ==
      var turn := LimitStep(sh, c, tape(t)); Finish(turn.sh, turn.call, tape, t + 1)
  {
  }

  lemma UnfoldSpin(sh: Shared, c: Call, tape: nat -> Env, t: nat)
    requires c.pc.Spinning?
    ensures Finish(sh, c, tape, t) ==
      var turn := SpinStep(sh, c, tape(t)); Finish(turn.sh, turn.call, tape, t + 1)
  {
  }

  lemma UnfoldMarkProxy(sh: Shared, c: Call, tape: nat -> Env, t: nat)
    requires c.pc.MarkingProxy?
    ensures Finish(sh, c, tape, t) ==
      var turn := MarkProxyStep(sh, c, tape(t)); Finish(turn.sh, turn.call, tape, t + 1)
  {
  }

  lemma UnfoldMarkUp(sh: Shared, c: Call, tape: nat -> Env, t: nat)
    requires c.pc.MarkingUp?
    ensures Finish(sh, c, tape, t) ==
      var turn := MarkUpStep(sh, c, tape(t)); Finish(turn.sh, turn.call, tape, t + 1)
  {
  }

  lemma UnfoldCount(sh: Shared, c: Call, tape: nat -> Env, t: nat)
    requires c.pc.Counting?
    ensures Finish(sh, c, tape, t) ==
      var turn := CountStep(sh, c, tape(t)); Finish(turn.sh, turn.call, tape, t + 1)
  {
  }

  lemma UnfoldSettle(sh: Shared, c: Call, tape: nat -> Env, t: nat)
    requires c.pc.Settling?
    ensures Finish(sh, c, tape, t) ==
      var turn := SettleStep(sh, c, tape(t)); Finish(turn.sh, turn.call, tape, t + 1)
  {
  }

  lemma UnfoldLog(sh: Shared, c: Call, tape: nat -> Env, t: nat)
    requires c.pc.Logging?
    ensures Finish(sh, c, tape, t) ==
      var turn := LogStep(sh, c, tape(t)); Finish(turn.sh, turn.call, tape, t + 1)
  {
  }
}
