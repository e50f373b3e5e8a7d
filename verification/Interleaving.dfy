/**
 Everything running at once. A run is any sequence of events: a request at the door or a step of its
 authentication, a new call, one atomic step of some call, a probe, an administrator's adjustment or edit,
 a redemption, a registration, a sign-in attempt, a limiter sweep. Every interleaving is such a sequence.
 */
module Interleaving {
  import opened Wrappers
  import opened Tables
  import opened OutProxy
  import opened CallMachine
  import opened Admission
  import Auth = Authentication
  import Ledger
  import RateLimit
  import H = RateLimitHistory
  import P = Pool

  datatype Action =
    | Knock(digest: Option<string>)
    | Proceed(visit: nat, fails: bool)
    | Admit(visit: nat, task: Task, rid: string, bodyOk: bool)
    | TryOut(owner: int, rid: string, bodyOk: bool)
    | ProbeRow(up: Upstream)
    | Advance(call: nat, reply: Reply, fails: bool, sealed: bool)
    | AdjustCredits(account: int, delta: int, allowNegative: bool)
    | Redeem(hash: string, account: int)
    | IssueCodes(items: seq<(string, int)>)
    | NewAccount(username: string, role: Ledger.Role, onlyIfEmpty: bool)
    | EditTables(upstreams: seq<Upstream>, proxies: seq<Proxy>)
    | EditKeys(keys: seq<Auth.UserKey>, tokens: map<int, int>)
    | SignInAttempt(kind: string, ip: string, limit: int, width: int)
    | Sweep

  datatype Event = Event(now: int, act: Action)

  /** A request that left for an upstream: the row and exit used, and how the exit was chosen. */
  datatype Sent = Sent(call: nat, up: Upstream, admitted: Option<int>, exit: Choice, saw: Sighting,
                       excluded: set<int>, failed: bool)

  /**
   One use of the pool's cursor: the call that made it, the table it had read and the ids it had given up on,
   the candidates, the cursor's value, and the row the call went on with, if its secret could be opened.
   */
  datatype Pick = Pick(call: nat, read: Reading, excluded: set<int>, cands: seq<Upstream>, cursor: nat,
                       got: Option<Upstream>)

  /** One use of the exits' cursor: as for a pick, with the proxy table instead of the upstreams'. */
  datatype ExitPick = ExitPick(call: nat, saw: Sighting, excluded: set<int>, cursor: nat, got: Option<Choice>)

  /** The shared state, the requests at the door, the calls, and four histories kept only to talk about runs. */
  datatype System = System(sh: Shared, visits: seq<Visit>, calls: seq<Call>, sent: seq<Sent>, picks: seq<Pick>,
                           exits: seq<ExitPick>, limits: seq<H.Event>)

  const START := System(Shared(Ledger.EMPTY, [], [], [], map[], [], map[], 0, 0), [], [], [], [], [], [])

  function EnvOf(ev: Event): Env
    requires ev.act.Advance?
  {
    Env(ev.now, ev.act.reply, ev.act.fails, ev.act.sealed)
  }

  function SentBy(k: nat, c: Call, e: Env): seq<Sent> {
    if c.pc.Forwarding?
    then [Sent(k, c.pc.up, c.pc.admitted, c.pc.exit, c.pc.saw, c.proxyExclude, e.reply.Transport?)]
    else []
  }

  function PickedBy(k: nat, sh: Shared, c: Call, c': Call): seq<Pick> {
    if c.pc.Selecting? && c.pc.cands != []
    then [Pick(k, c.pc.read, c.exclude, c.pc.cands, P.Advance(sh.poolCursor), Target(c'))]
    else []
  }

  /** The upstream a call has just turned to. */
  function Target(c: Call): Option<Upstream> {
    if c.pc.Limiting? || c.pc.Exiting? then Some(c.pc.up) else None
  }

  function SpunBy(k: nat, sh: Shared, c: Call, c': Call): seq<ExitPick> {
    if c.pc.Spinning? && c.pc.exits != []
    then [ExitPick(k, c.pc.saw, c.proxyExclude, P.Advance(sh.exitCursor),
                   if c'.pc.Forwarding? then Some(c'.pc.exit) else None)]
    else []
  }

  function LimitedBy(c: Call, e: Env): seq<H.Event> {
    if c.pc.Limiting?
    then [H.Attempt(RateLimit.UpstreamRpm(c.pc.up.id), c.pc.up.rpmLimit, RateLimit.MINUTE, e.now)]
    else []
  }

  function AdvanceCall(s: System, k: nat, e: Env): System
    requires k < |s.calls|
  {
    var c := s.calls[k];
    var turn := CallStep(s.sh, c, e);
    System(turn.sh, s.visits, s.calls[k := turn.call], s.sent + SentBy(k, c, e),
           s.picks + PickedBy(k, s.sh, c, turn.call), s.exits + SpunBy(k, s.sh, c, turn.call),
           s.limits + LimitedBy(c, e))
  }

  function AdvanceVisit(s: System, i: nat, now: int, fails: bool): System
    requires i < |s.visits|
  {
    var v := s.visits[i];
    var (sh, v') := VisitStep(s.sh, v, Env(now, Transport, fails, false));
    s.(sh := sh, visits := s.visits[i := v'],
       limits := s.limits + if v.TakingSlot? then
                              [H.Attempt(RateLimit.UserRpm(v.key.id), v.key.rpmLimit, RateLimit.MINUTE, now)]
                            else [])
  }

  /**
   The call an action begins: an admitted request that has not been served yet, an account trying the
   service out from the console (the key it passes has id 0), or a probe of an upstream's row.
   */
  function Starts(s: System, act: Action): Option<Call> {
    match act
    case Admit(i, task, rid, bodyOk) =>
      if i < |s.visits| && s.visits[i].Inside? && !task.Probing? then
        Some(NewCall(task, rid, Some(User(s.visits[i].key.id, s.visits[i].key.owner)), bodyOk))
      else None
    case TryOut(owner, rid, bodyOk) => Some(NewCall(Evaluation, rid, Some(User(0, Some(owner))), bodyOk))
    case ProbeRow(up) => Some(NewCall(Probing(up), "probe", None, true))
    case _ => None
  }

  function Apply(s: System, ev: Event): System {
    match ev.act
    case Knock(digest) => s.(visits := s.visits + [LookingUp(digest)])
    case Proceed(i, fails) => if i < |s.visits| then AdvanceVisit(s, i, ev.now, fails) else s
    case Admit(i, _, _, _) =>
      (match Starts(s, ev.act)
       case Some(c) => s.(calls := s.calls + [c], visits := s.visits[i := Served(s.visits[i].key)])
       case None => s)
    case TryOut(_, _, _) => s.(calls := s.calls + [Starts(s, ev.act).value])
    case ProbeRow(_) => s.(calls := s.calls + [Starts(s, ev.act).value])
    case Advance(k, _, _, _) => if k < |s.calls| then AdvanceCall(s, k, EnvOf(ev)) else s
    case AdjustCredits(a, delta, neg) =>
      s.(sh := s.sh.(db := Ledger.Post(s.sh.db, a, delta, neg, Ledger.Adjust, Ledger.NoRef).0))
    case Redeem(hash, a) => s.(sh := s.sh.(db := Ledger.RedeemCode(s.sh.db, hash, a, ev.now).0))
    case IssueCodes(items) => s.(sh := s.sh.(db := Ledger.InsertCodes(s.sh.db, items).0))
    case NewAccount(name, role, only) => s.(sh := s.sh.(db := Ledger.InsertAccount(s.sh.db, name, role, only).0))
    case EditTables(ups, proxies) => s.(sh := s.sh.(upstreams := ups, proxies := proxies))
    case EditKeys(keys, tokens) => s.(sh := s.sh.(keys := keys, tokens := tokens))
    case SignInAttempt(kind, ip, limit, width) =>
      var key := RateLimit.Auth(kind, ip);
      s.(sh := s.sh.(windows := RateLimit.Decide(s.sh.windows, key, limit, width, ev.now).0),
         limits := s.limits + [H.Attempt(key, limit, width, ev.now)])
    case Sweep =>
      s.(sh := s.sh.(windows := RateLimit.Collect(s.sh.windows, ev.now)), limits := s.limits + [H.Gc(ev.now)])
  }

  function Run(es: seq<Event>): System {
    if es == [] then START else Apply(Run(es[..|es| - 1]), es[|es| - 1])
  }

  /** An action either begins one call and leaves everything shared alone, or keeps the length of the list of calls. */
  lemma StartsOne(s: System, ev: Event)
    ensures match Starts(s, ev.act)
            case Some(c) => Apply(s, ev) == s.(calls := s.calls + [c], visits := Apply(s, ev).visits) && c.pc.Enter? &&
                            c == NewCall(c.task, c.rid, c.user, c.bodyOk)
            case None => |Apply(s, ev).calls| == |s.calls| && (!ev.act.Advance? ==> Apply(s, ev).calls == s.calls)
  {
    hide CallStep, VisitStep, Ledger.Post, Ledger.RedeemCode, Ledger.InsertCodes, Ledger.InsertAccount;
  }

  lemma RunStep(es: seq<Event>, i: nat)
    requires i < |es|
    ensures Run(es[..i + 1]) == Apply(Run(es[..i]), es[i])
  {
    assert es[..i + 1][..i] == es[..i];
  }

  /** What happens to call k in one event: nothing, or, if the event is its own, its next step. */
  lemma CallMoves(s: System, ev: Event, k: nat)
    requires k < |s.calls|
    ensures k < |Apply(s, ev).calls|
    ensures Apply(s, ev).calls[k] ==
      if ev.act.Advance? && ev.act.call == k then CallStep(s.sh, s.calls[k], EnvOf(ev)).call else s.calls[k]
  {
    hide CallStep;
    StartsOne(s, ev);
  }
}
