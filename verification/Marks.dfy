/**
 What replies leave on the rows of the routing tables, over every interleaving: cooldowns and failure counts,
 told from the reply of the exchange that is being recorded.
 */
module Marks {
  import opened Tables
  import opened OutProxy
  import opened CallMachine
  import opened Admission
  import opened Interleaving
  import opened Outcomes
  import opened Answers

  /** Event i is the step at which call k records its exchange on the row of its upstream. */
  ghost predicate MarksAt(es: seq<Event>, k: nat, i: nat, up: Upstream) {
    Steps(es, k, i) && Run(es[..i]).calls[k].pc.MarkingUp? && Run(es[..i]).calls[k].pc.up == up
  }

  /** Event i is the step at which call k records its exchange on the proxy it went through. */
  ghost predicate MarksExitAt(es: seq<Event>, k: nat, i: nat, exit: Choice) {
    Steps(es, k, i) && Run(es[..i]).calls[k].pc.MarkingProxy? && Run(es[..i]).calls[k].pc.exit == exit
  }

  /** Event i is an exchange of call k with upstream up. */
  ghost predicate ExchangesAt(es: seq<Event>, k: nat, i: nat, up: Upstream, reply: Reply) {
    Steps(es, k, i) && Run(es[..i]).calls[k].pc.Forwarding? && Run(es[..i]).calls[k].pc.up == up &&
    es[i].act.reply == reply
  }

  /** What there is to record: the reply of the call's latest exchange, or that it found no exit. */
  ghost function ToRecord(es: seq<Event>, k: nat): Reply {
    match LatestReply(es, k) case Some(reply) => reply case None => Transport
  }

  // ---------------------------------------------------------------- the marks

  /** How long a failing upstream rests, in milliseconds. */
  function Rest(reply: Reply): int {
    match reply
    case Transport => 15_000
    case Http(status, _, _) =>
      if status == 429 then 30_000
      else if status == 529 then 10_000
      else if status == 401 || status == 403 then 600_000
      else if status >= 500 then 20_000
      else 15_000
  }

  /** The reply counts against the upstream; for a probe everything but a 2xx does. */
  predicate Fails(task: Task, reply: Reply) {
    match reply
    case Transport => true
    case Http(status, _, _) =>
      status == 429 || status == 529 || status == 401 || status == 403 || status >= 500 ||
      (task.Probing? && !(200 <= status < 300))
  }

  /** The row after the reply is recorded at time now: a key that was turned down counts as five failures. */
  function Marked(u: Upstream, task: Task, reply: Reply, now: int): Upstream {
    if Fails(task, reply) then
      u.(failCount := u.failCount + (if reply.Http? && (reply.status == 401 || reply.status == 403) then 5 else 1),
         cooldownUntil := now + Rest(reply))
    else u.(failCount := 0, cooldownUntil := 0)
  }

  function MarkedProxy(p: Proxy, task: Task, reply: Reply, now: int): Proxy {
    match reply
    case Transport => p.(failCount := p.failCount + 1, cooldownUntil := now + 30_000)
    case Http(status, _, _) =>
      if task.Probing? && !(200 <= status < 300) then p else p.(failCount := 0, cooldownUntil := 0)
  }

  /** Row by row: those with this id are marked, the others stay. */
  ghost predicate RowsMarked(ups: seq<Upstream>, ups': seq<Upstream>, id: int, task: Task, reply: Reply, now: int) {
    |ups'| == |ups| && forall n :: 0 <= n < |ups| ==>
      ups'[n] == if ups[n].id == id then Marked(ups[n], task, reply, now) else ups[n]
  }

  ghost predicate ProxiesMarked(
    ps: seq<Proxy>, ps': seq<Proxy>, exit: Choice, task: Task, reply: Reply, now: int) {
    |ps'| == |ps| && forall n :: 0 <= n < |ps| ==>
      ps'[n] == if exit == Via(ps[n].id) then MarkedProxy(ps[n], task, reply, now) else ps[n]
  }

  lemma MarkUpMarks(sh: Shared, c: Call, e: Env)
    requires c.pc.MarkingUp? && !e.fails
    ensures RowsMarked(sh.upstreams, MarkUpStep(sh, c, e).sh.upstreams, c.pc.up.id, c.task, c.pc.reply, e.now)
  {
    var status := StatusOf(c.pc.reply);
    TouchedAt(sh.upstreams, c.pc.up.id, e.now + CooldownMs(status), AuthFail(status));
    hide TouchUpstreamErr, TouchUpstreamOK, Retry;
  }

  lemma MarkProxyMarks(sh: Shared, c: Call, e: Env)
    requires c.pc.MarkingProxy? && !e.fails
    ensures ProxiesMarked(sh.proxies, MarkProxyStep(sh, c, e).sh.proxies, c.pc.exit, c.task, c.pc.reply, e.now)
  {
    if c.pc.exit.Via? {
      TouchedProxyAt(sh.proxies, c.pc.exit.proxy, e.now + PROXY_COOLDOWN);
    }
    hide TouchProxyErr, TouchProxyOK;
  }

  lemma OtherStepsKeepRows(sh: Shared, c: Call, e: Env)
    ensures !c.pc.MarkingUp? || e.fails ==> CallStep(sh, c, e).sh.upstreams == sh.upstreams
    ensures !c.pc.MarkingProxy? || e.fails ==> CallStep(sh, c, e).sh.proxies == sh.proxies
  {
    hide Retry, NoExit, Fail;
  }

  lemma VisitKeepsRows(sh: Shared, v: Visit, e: Env)
    ensures VisitStep(sh, v, e).0.upstreams == sh.upstreams && VisitStep(sh, v, e).0.proxies == sh.proxies
  {
  }

  lemma OtherEventsKeepRows(s: System, ev: Event)
    requires !ev.act.EditTables? && !(ev.act.Advance? && ev.act.call < |s.calls|)
    ensures Apply(s, ev).sh.upstreams == s.sh.upstreams && Apply(s, ev).sh.proxies == s.sh.proxies
  {
    hide CallStep, VisitStep;
    if ev.act.Proceed? && ev.act.visit < |s.visits| {
      VisitKeepsRows(s.sh, s.visits[ev.act.visit], Env(ev.now, Transport, ev.act.fails, false));
    }
  }

  /** What event i records on the table of upstreams. */
  ghost predicate RecordsUp(es: seq<Event>, i: nat, ups: seq<Upstream>, ups': seq<Upstream>)
    requires i < |es|
  {
    if exists k: nat, up :: MarksAt(es, k, i, up) && !es[i].act.fails then
      forall k: nat, up :: MarksAt(es, k, i, up) ==>
        RowsMarked(ups, ups', up.id, Run(es[..i]).calls[k].task, ToRecord(es[..i], k), es[i].now)
    else ups' == ups
  }

  ghost predicate RecordsProxy(es: seq<Event>, i: nat, ps: seq<Proxy>, ps': seq<Proxy>)
    requires i < |es|
  {
    if exists k: nat, exit :: MarksExitAt(es, k, i, exit) && !es[i].act.fails then
      forall k: nat, exit :: MarksExitAt(es, k, i, exit) ==>
        ProxiesMarked(ps, ps', exit, Run(es[..i]).calls[k].task, ToRecord(es[..i], k), es[i].now)
    else ps' == ps
  }

  /**
   Between edits, the routing tables change exactly by marks: when a call records an exchange and the database
   works, the rows of that upstream rest or are cleared as its reply demands, and nothing else moves.
   */
  lemma {:induction false} OnlyMarksMove(es: seq<Event>, i: nat)
    requires i < |es| && !es[i].act.EditTables?
    ensures RecordsUp(es, i, Run(es[..i]).sh.upstreams, Run(es[..i + 1]).sh.upstreams)
    ensures RecordsProxy(es, i, Run(es[..i]).sh.proxies, Run(es[..i + 1]).sh.proxies)
  {
    var s, ev := Run(es[..i]), es[i];
    RunStep(es, i);
    if ev.act.Advance? && ev.act.call < |s.calls| {
      var k := ev.act.call;
      AlwaysRemembers(es[..i], k);
      StepRecords(s, ev, ToRecord(es[..i], k));
      hide Run, Apply, RowsMarked, ProxiesMarked, ToRecord;
      var pc := s.calls[k].pc;
      assert pc.MarkingUp? ==> MarksAt(es, k, i, pc.up);
      assert pc.MarkingProxy? ==> MarksExitAt(es, k, i, pc.exit);
    } else {
      hide Run, Apply;
      OtherEventsKeepRows(s, ev);
    }
  }

  lemma StepRecords(s: System, ev: Event, reply: Reply)
    requires ev.act.Advance? && ev.act.call < |s.calls|
    requires var pc := s.calls[ev.act.call].pc; pc.MarkingUp? || pc.MarkingProxy? ==> pc.reply == reply
    ensures var c, s' := s.calls[ev.act.call], Apply(s, ev);
      (if c.pc.MarkingUp? && !ev.act.fails
       then RowsMarked(s.sh.upstreams, s'.sh.upstreams, c.pc.up.id, c.task, reply, ev.now)
       else s'.sh.upstreams == s.sh.upstreams) &&
      (if c.pc.MarkingProxy? && !ev.act.fails
       then ProxiesMarked(s.sh.proxies, s'.sh.proxies, c.pc.exit, c.task, reply, ev.now)
       else s'.sh.proxies == s.sh.proxies)
  {
    hide RowsMarked, ProxiesMarked;
    var c, e := s.calls[ev.act.call], EnvOf(ev);
    OtherStepsKeepRows(s.sh, c, e);
    if c.pc.MarkingUp? && !e.fails {
      assert CallStep(s.sh, c, e) == MarkUpStep(s.sh, c, e);
      MarkUpMarks(s.sh, c, e);
    } else if c.pc.MarkingProxy? && !e.fails {
      assert CallStep(s.sh, c, e) == MarkProxyStep(s.sh, c, e);
      MarkProxyMarks(s.sh, c, e);
    }
    hide CallStep;
  }

  // ---------------------------------------------------------------- every exchange is recorded

  /** The call has an exchange with upstream up, answered by this reply, still to record. */
  ghost predicate Owes(c: Call, up: Upstream, exit: Choice, reply: Reply) {
    c.pc == MarkingProxy(up, exit, reply) || c.pc == MarkingUp(up, reply)
  }

  /** The row is marked: not for an answer to Evaluate that neither fails nor is a 2xx. */
  predicate IsRecorded(task: Task, reply: Reply) {
    Fails(task, reply) || !task.Evaluation? || 200 <= reply.status < 300
  }

  lemma ForwardOwes(sh: Shared, c: Call, e: Env)
    requires c.pc.Forwarding?
    ensures var c' := CallStep(sh, c, e).call; c'.pc == MarkingProxy(c.pc.up, c.pc.exit, e.reply) && c'.task == c.task
  {
  }

  lemma MarkProxyOwes(sh: Shared, c: Call, e: Env)
    requires c.pc.MarkingProxy? && IsRecorded(c.task, c.pc.reply)
    ensures var c' := CallStep(sh, c, e).call; c'.pc == MarkingUp(c.pc.up, c.pc.reply) && c'.task == c.task
  {
  }

  /** The exchange at event i has been recorded on the exit and on the row, or is about to be. */
  ghost predicate Recorded(es: seq<Event>, k: nat, i: nat, up: Upstream, exit: Choice, c: Call, reply: Reply) {
    c.pc == MarkingProxy(up, exit, reply) ||
    ((exists j: nat :: j > i && MarksExitAt(es, k, j, exit)) &&
     (c.pc == MarkingUp(up, reply) || exists m: nat :: m > i && MarksAt(es, k, m, up)))
  }

  lemma {:induction false} MarksLater(es: seq<Event>, ev: Event, k: nat, i: nat, up: Upstream, exit: Choice)
    ensures MarksAt(es, k, i, up) ==> MarksAt(es + [ev], k, i, up)
    ensures MarksExitAt(es, k, i, exit) ==> MarksExitAt(es + [ev], k, i, exit)
  {
    if i < |es| {
      assert (es + [ev])[..i] == es[..i];
    }
  }

  lemma {:induction false} StaysRecorded(
    es: seq<Event>, ev: Event, k: nat, i: nat, up: Upstream, exit: Choice, c: Call, c': Call, reply: Reply)
    requires Recorded(es, k, i, up, exit, c, reply) && i < |es|
    requires c.pc == MarkingProxy(up, exit, reply) ==>
      c' == c || (c'.pc == MarkingUp(up, reply) && MarksExitAt(es + [ev], k, |es|, exit))
    requires c.pc == MarkingUp(up, reply) ==> c' == c || MarksAt(es + [ev], k, |es|, up)
    ensures Recorded(es + [ev], k, i, up, exit, c', reply)
  {
    hide Run;
    if c.pc == MarkingProxy(up, exit, reply) {
    } else {
      var j: nat :| j > i && MarksExitAt(es, k, j, exit);
      MarksLater(es, ev, k, j, up, exit);
      assert MarksExitAt(es + [ev], k, j, exit);
      if c.pc != MarkingUp(up, reply) {
        var m: nat :| m > i && MarksAt(es, k, m, up);
        MarksLater(es, ev, k, m, up, exit);
        assert MarksAt(es + [ev], k, m, up);
      }
    }
  }

  lemma {:induction false} RecordStep(
    es: seq<Event>, ev: Event, k: nat, i: nat, up: Upstream, exit: Choice, reply: Reply)
    requires k < |Run(es).calls| && i < |es| && Recorded(es, k, i, up, exit, Run(es).calls[k], reply)
    requires IsRecorded(Run(es).calls[k].task, reply)
    ensures k < |Apply(Run(es), ev).calls| && Recorded(es + [ev], k, i, up, exit, Apply(Run(es), ev).calls[k], reply)
  {
    hide CallStep, Apply, Recorded;
    CallMoves(Run(es), ev, k);
    var c, c' := Run(es).calls[k], Apply(Run(es), ev).calls[k];
    assert (es + [ev])[..|es|] == es && (es + [ev])[|es|] == ev;
    if ev.act.Advance? && ev.act.call == k {
      if c.pc == MarkingProxy(up, exit, reply) {
        MarkProxyOwes(Run(es).sh, c, EnvOf(ev));
      }
    }
    StaysRecorded(es, ev, k, i, up, exit, c, c', reply);
  }

  lemma {:induction false} ExchangeStays(es: seq<Event>, k: nat, i: nat, up: Upstream, reply: Reply)
    requires ExchangesAt(es, k, i, up, reply) && IsRecorded(Run(es[..i]).calls[k].task, reply)
    ensures k < |Run(es).calls| && Run(es).calls[k].task == Run(es[..i]).calls[k].task
    ensures Recorded(es, k, i, up, Run(es[..i]).calls[k].pc.exit, Run(es).calls[k], reply)
  {
    hide CallStep, Apply, Recorded;
    var before, ev := es[..|es| - 1], es[|es| - 1];
    assert before + [ev] == es;
    if i == |es| - 1 {
      CallMoves(Run(before), ev, k);
      ForwardOwes(Run(before).sh, Run(before).calls[k], EnvOf(ev));
      NowRecorded(es, k, i, up, Run(before).calls[k].pc.exit, Run(es).calls[k], reply);
    } else {
      assert before[..i] == es[..i];
      ExchangeStays(before, k, i, up, reply);
      RecordStep(before, ev, k, i, up, Run(es[..i]).calls[k].pc.exit, reply);
      CallMoves(Run(before), ev, k);
      if ev.act.Advance? && ev.act.call == k {
        StepLeads(Run(before).sh, Run(before).calls[k], EnvOf(ev));
      }
    }
  }

  lemma NowRecorded(es: seq<Event>, k: nat, i: nat, up: Upstream, exit: Choice, c: Call, reply: Reply)
    requires c.pc == MarkingProxy(up, exit, reply)
    ensures Recorded(es, k, i, up, exit, c, reply)
  {
  }

  /**
   Every exchange of a call that has since ended was recorded, on the proxy it used and on the upstream's row -
   only an answer passed on by Evaluate that is no 2xx leaves the row alone.
   */
  lemma {:induction false} ExchangeIsRecorded(es: seq<Event>, k: nat, i: nat, up: Upstream, reply: Reply)
    requires ExchangesAt(es, k, i, up, reply) && IsRecorded(Run(es[..i]).calls[k].task, reply)
    requires k < |Run(es).calls| && Run(es).calls[k].pc.Done?
    ensures exists j: nat :: j > i && MarksExitAt(es, k, j, Run(es[..i]).calls[k].pc.exit)
    ensures exists m: nat :: m > i && MarksAt(es, k, m, up)
  {
    ExchangeStays(es, k, i, up, reply);
  }

  // ---------------------------------------------------------------- what a failing upstream rests

  /** The rows of this id are closed until that time. */
  ghost predicate RestsUntil(ups: seq<Upstream>, id: int, until: int) {
    forall u :: u in ups && u.id == id ==> u.cooldownUntil == until
  }

  /** Event i neither edits the tables nor records an exchange with the upstream. */
  ghost predicate QuietAt(es: seq<Event>, i: nat, id: int)
    requires i < |es|
  {
    !es[i].act.EditTables? && forall k: nat, up :: MarksAt(es, k, i, up) ==> up.id != id
  }

  /** Nor does any event from n on. */
  ghost predicate Unmarked(es: seq<Event>, n: nat, id: int) {
    forall i: nat :: n <= i < |es| ==> QuietAt(es, i, id)
  }

  /**
   A failing upstream rests: after a call records a failure, the rows of that upstream are closed to every call
   until the time its reply demands has passed, unless the table is edited or another exchange is recorded.
   */
  lemma {:induction false} FailingUpstreamRests(es: seq<Event>, k: nat, i: nat, up: Upstream)
    requires MarksAt(es, k, i, up) && !es[i].act.fails && Unmarked(es, i + 1, up.id)
    requires Fails(Run(es[..i]).calls[k].task, ToRecord(es[..i], k))
    ensures RestsUntil(Run(es).sh.upstreams, up.id, es[i].now + Rest(ToRecord(es[..i], k)))
  {
    hide Run, ToRecord, Rest, Fails, RestsUntil, QuietAt;
    JustMarked(es, k, i, up);
    RestsOn(es, i + 1, up.id, es[i].now + Rest(ToRecord(es[..i], k)));
  }

  lemma {:induction false} RestsOn(es: seq<Event>, n: nat, id: int, until: int)
    requires n <= |es| && RestsUntil(Run(es[..n]).sh.upstreams, id, until) && Unmarked(es, n, id)
    ensures RestsUntil(Run(es).sh.upstreams, id, until)
    decreases |es| - n
  {
    hide Run, RestsUntil, QuietAt;
    if n == |es| {
      assert es[..n] == es;
    } else {
      assert QuietAt(es, n, id);
      OthersRest(es, n, id);
      RestsOn(es, n + 1, id, until);
    }
  }

  lemma {:induction false} JustMarked(es: seq<Event>, k: nat, i: nat, up: Upstream)
    requires MarksAt(es, k, i, up) && !es[i].act.fails && Fails(Run(es[..i]).calls[k].task, ToRecord(es[..i], k))
    ensures RestsUntil(Run(es[..i + 1]).sh.upstreams, up.id, es[i].now + Rest(ToRecord(es[..i], k)))
  {
    OnlyMarksMove(es, i);
    hide Run, ToRecord, Rest, Fails;
    var ups, ups' := Run(es[..i]).sh.upstreams, Run(es[..i + 1]).sh.upstreams;
    assert RowsMarked(ups, ups', up.id, Run(es[..i]).calls[k].task, ToRecord(es[..i], k), es[i].now);
  }

  /** An event that does not mark this upstream leaves its rows alone. */
  lemma {:induction false} OthersRest(es: seq<Event>, i: nat, id: int)
    requires i < |es| && QuietAt(es, i, id)
    ensures forall t ::
      RestsUntil(Run(es[..i]).sh.upstreams, id, t) ==> RestsUntil(Run(es[..i + 1]).sh.upstreams, id, t)
  {
    OnlyMarksMove(es, i);
    hide Run, ToRecord, Marked;
    var ups, ups' := Run(es[..i]).sh.upstreams, Run(es[..i + 1]).sh.upstreams;
    forall u | u in ups' && u.id == id ensures u in ups {
      var n :| 0 <= n < |ups'| && ups'[n] == u;
      if ups' != ups {
        var k: nat, up :| MarksAt(es, k, i, up);
        MarkedId(ups[n], Run(es[..i]).calls[k].task, ToRecord(es[..i], k), es[i].now);
        assert ups[n] in ups;
      }
    }
  }

  lemma MarkedId(u: Upstream, task: Task, reply: Reply, now: int)
    ensures Marked(u, task, reply, now).id == u.id
  {
  }
}
