/** Runs in which the less expected outcomes happen: each is a list of events from the empty system. */
module Witnesses {
  import opened Wrappers
  import opened Seqs
  import opened Tables
  import opened OutProxy
  import opened CallMachine
  import opened Interleaving
  import opened Conservation
  import Billing
  import L = Ledger
  import P = Pool

  /** The next step of call k, with nothing failing. */
  function Next(k: nat): Event {
    Event(0, Advance(k, Transport, false, false))
  }

  /** An account with 5 micro-credits. */
  function Opening(): seq<Event> {
    [Event(0, NewAccount("a", L.User, false)), Event(0, AdjustCredits(1, 5, true))]
  }

  lemma RunSnoc(es: seq<Event>, ev: Event)
    ensures Run(es + [ev]) == Apply(Run(es), ev)
  {
    assert (es + [ev])[..|es|] == es;
  }

  lemma Opened()
    ensures var s := Run(Opening());
      s == START.(sh := START.sh.(db := s.sh.db)) && s.sh.db.accounts == map[1 := L.Account("a", L.User, 5)]
  {
    var e0, e1 := Opening()[0], Opening()[1];
    assert [] + [e0] == [e0] && [e0] + [e1] == Opening();
    RunSnoc([], e0);
    RunSnoc([e0], e1);
    assert Run([e0]).sh.db == L.Db(map[1 := L.Account("a", L.User, 0)], 2, [], []);
  }

  function Tried(rid: string): Call {
    NewCall(Evaluation, rid, Some(User(0, Some(1))), true)
  }

  /** A state in which the given account has the given credits and no upstream is configured. */
  ghost predicate Plain(s: System, credits: int) {
    1 in s.sh.db.accounts && s.sh.db.accounts[1].credits == credits && s.sh.upstreams == []
  }

  lemma TryOutStep(s: System, rid: string, credits: int)
    requires Plain(s, credits)
    ensures var s' := Apply(s, Event(0, TryOut(1, rid, true)));
      Plain(s', credits) && s'.calls == s.calls + [Tried(rid)] && s'.sh == s.sh
  {
  }

  /** Holding: the call that has its hold. */
  function Holding(rid: string): Call {
    Tried(rid).(held := true, pc := Picking, tally := Tally(1, 0, 0, 0))
  }

  lemma EnterNext(s: System, k: nat, rid: string, credits: int)
    requires Plain(s, credits) && credits > 0 && k < |s.calls| && s.calls[k] == Tried(rid)
    ensures var s' := Apply(s, Next(k));
      Plain(s', credits - 1) && s'.calls == s.calls[k := Holding(rid)] && s'.sh.logs == s.sh.logs
  {
  }

  lemma PickNext(s: System, k: nat, rid: string, credits: int)
    requires Plain(s, credits) && k < |s.calls| && s.calls[k] == Holding(rid)
    ensures var s' := Apply(s, Next(k));
      Plain(s', credits) && s'.calls == s.calls[k := Fail(Holding(rid), 503)] && s'.sh.logs == s.sh.logs
  {
    assert P.Candidates([], {}, 0) == [];
  }

  /** The call that kept its hold. */
  function Kept(rid: string, pc: Pc, tally: Tally): Call {
    Holding(rid).(held := false, charged := 1, settleOK := false, pc := pc, tally := tally)
  }

  const NO_UPSTREAM := Plan(503, None, 0, 0)

  lemma SettleNext(s: System, k: nat, rid: string, credits: int, fails: bool)
    requires Plain(s, credits) && k < |s.calls| && s.calls[k] == Fail(Holding(rid), 503) && (fails || credits < -1)
    ensures var s' := Apply(s, Event(0, Advance(k, Transport, fails, false)));
      Plain(s', credits) && s'.calls == s.calls[k := Kept(rid, Logging(NO_UPSTREAM), Tally(1, 1, 0, 0))] &&
      s'.sh.logs == s.sh.logs
  {
  }

  lemma LogNext(s: System, k: nat, rid: string, credits: int)
    requires Plain(s, credits) && k < |s.calls| && s.calls[k] == Kept(rid, Logging(NO_UPSTREAM), Tally(1, 1, 0, 0))
    ensures var s' := Apply(s, Next(k));
      Plain(s', credits) && s'.calls == s.calls[k := Kept(rid, Done(NO_UPSTREAM), Tally(1, 1, 1, 1))] &&
      s'.sh.logs == s.sh.logs + [UsageLog(rid, 0, None, 0, 503, false, 1, 1, true)]
  {
  }

  /** An administrator takes 10 while a call holds 1 of 5: the call fails and its hold is not given back. */
  function DebitMidCall(): seq<Event> {
    Opening() + [Event(0, TryOut(1, "r", true))] + [Next(0)] + [Event(0, AdjustCredits(1, -10, true))] +
    [Next(0)] + [Next(0)] + [Next(0)]
  }

  lemma HoldCanBeKept()
    ensures var s := Run(DebitMidCall());
      s.calls == [Kept("r", Done(NO_UPSTREAM), Tally(1, 1, 1, 1))] && L.Credits(s.sh.db, 1) == -6
  {
    hide Run, Apply;
    Opened();
    var a := Opening();
    var b := a + [Event(0, TryOut(1, "r", true))];
    var c := b + [Next(0)];
    var d := c + [Event(0, AdjustCredits(1, -10, true))];
    var e := d + [Next(0)];
    var f := e + [Next(0)];
    RunSnoc(a, Event(0, TryOut(1, "r", true)));
    TryOutStep(Run(a), "r", 5);
    RunSnoc(b, Next(0));
    EnterNext(Run(b), 0, "r", 5);
    RunSnoc(c, Event(0, AdjustCredits(1, -10, true)));
    DebitNext(Run(c), 4, -10);
    RunSnoc(d, Next(0));
    PickNext(Run(d), 0, "r", -6);
    RunSnoc(e, Next(0));
    SettleNext(Run(e), 0, "r", -6, false);
    RunSnoc(f, Next(0));
    LogNext(Run(f), 0, "r", -6);
  }

  lemma DebitNext(s: System, credits: int, delta: int)
    requires Plain(s, credits)
    ensures var s' := Apply(s, Event(0, AdjustCredits(1, delta, true)));
      Plain(s', credits + delta) && s'.calls == s.calls && s'.sh.logs == s.sh.logs
  {
  }

  /** Two calls sent with the same X-Request-Id, each of which loses its hold when the database fails as it settles. */
  function SharedRequestId(): seq<Event> {
    Opening() + [Event(0, TryOut(1, "x", true))] + [Event(0, TryOut(1, "x", true))] + [Next(0)] + [Next(1)] +
    [Next(0)] + [Event(0, Advance(0, Transport, true, false))] + [Next(0)] +
    [Next(1)] + [Event(0, Advance(1, Transport, true, false))] + [Next(1)]
  }

  /** Each call was charged 1, yet the ledger rows with its reference sum to -2, and two log rows have its id. */
  lemma RequestIdCanBeShared()
    ensures var s := Run(SharedRequestId());
      |s.calls| == 2 && s.calls[0].charged == s.calls[1].charged == 1 && s.calls[0].rid == s.calls[1].rid == "x" &&
      Net(s.sh.db, "x") == -2 &&
      |s.sh.logs| == 2 && s.sh.logs[0].requestId == s.sh.logs[1].requestId == "x"
  {
    hide Run, Apply;
    Opened();
    var try := Event(0, TryOut(1, "x", true));
    var a := Opening();
    var b := a + [try];
    var c := b + [try];
    var d := c + [Next(0)];
    var e := d + [Next(1)];
    RunSnoc(a, try);
    TryOutStep(Run(a), "x", 5);
    RunSnoc(b, try);
    TryOutStep(Run(b), "x", 5);
    RunSnoc(c, Next(0));
    EnterNext(Run(c), 0, "x", 5);
    RunSnoc(d, Next(1));
    EnterNext(Run(d), 1, "x", 4);
    var f := Dies(e, 0, "x", 3);
    var g := Dies(f, 1, "x", 3);
    RowsMatchRequestId(g, "x");
    var s := Run(g);
    assert s.calls == [s.calls[0], s.calls[1]];
    SumOfTwo(s.calls[0], s.calls[1], OwedUnder("x"));
  }

  lemma SumOfTwo(c: Call, d: Call, f: Call -> int)
    ensures SumBy([c, d], f) == f(c) + f(d)
  {
    assert [c, d] == ([] + [c]) + [d];
    SumByAppend([], c, f);
    SumByAppend([] + [c], d, f);
  }

  /** Pick, settle and log of a call that finds no upstream and whose settlement fails. */
  lemma Dies(es: seq<Event>, k: nat, rid: string, credits: int) returns (fs: seq<Event>)
    requires Plain(Run(es), credits) && k < |Run(es).calls| && Run(es).calls[k] == Holding(rid)
    ensures fs == es + [Next(k)] + [Event(0, Advance(k, Transport, true, false))] + [Next(k)]
    ensures Plain(Run(fs), credits)
    ensures Run(fs).calls == Run(es).calls[k := Kept(rid, Done(NO_UPSTREAM), Tally(1, 1, 1, 1))]
    ensures Run(fs).sh.logs == Run(es).sh.logs + [UsageLog(rid, 0, None, 0, 503, false, 1, 1, true)]
  {
    hide Run, Apply;
    var a := es + [Next(k)];
    var b := a + [Event(0, Advance(k, Transport, true, false))];
    fs := b + [Next(k)];
    RunSnoc(es, Next(k));
    PickNext(Run(es), k, rid, credits);
    RunSnoc(a, Event(0, Advance(k, Transport, true, false)));
    SettleNext(Run(a), k, rid, credits, true);
    RunSnoc(b, Next(k));
    LogNext(Run(b), k, rid, credits);
  }

  /** One upstream, unlimited and always direct. */
  const UP := Upstream(1, 1, 0, ACTIVE, 0, 0, Some(0))

  const MILLION := Http(200, 1_000_000, None)
  const SERVED := Plan(200, Some(1), 1_000_000, 0)

  ghost predicate Serving(s: System, credits: int, c: Call) {
    1 in s.sh.db.accounts && s.sh.db.accounts[1].credits == credits && s.sh.upstreams == [UP] && s.calls == [c]
  }

  lemma ServePick(s: System)
    requires Serving(s, 4, Holding("r"))
    ensures Serving(Apply(s, Next(0)), 4, Holding("r").(pc := Selecting([UP], Reading(0, [UP]))))
  {
    assert [UP][..0] == [];
    assert P.Candidates([UP], {}, 0) == [] + [UP] == [UP];
  }

  lemma ServeSelect(s: System)
    requires Serving(s, 4, Holding("r").(pc := Selecting([UP], Reading(0, [UP]))))
    ensures Serving(Apply(s, Next(0)), 4, Holding("r").(pc := Limiting(UP)))
  {
    P.ChosenIsCandidate([UP], P.Advance(s.sh.poolCursor));
  }

  lemma ServeExit(s: System)
    requires Serving(s, 4, Holding("r").(pc := Limiting(UP)))
    ensures var s' := Apply(Apply(s, Next(0)), Next(0));
      Serving(s', 4, Holding("r").(pc := Forwarding(UP, Some(0), Direct, Sighting(0, s.sh.proxies))))
  {
    var mid := Apply(s, Next(0));
    assert mid.calls == [Holding("r").(pc := Exiting(UP, Some(0)))] && mid.sh.proxies == s.sh.proxies;
  }

  lemma ServeForward(s: System, saw: Sighting)
    requires Serving(s, 4, Holding("r").(pc := Forwarding(UP, Some(0), Direct, saw)))
    ensures var s' := Apply(Apply(s, Event(0, Advance(0, MILLION, false, false))), Next(0));
      Serving(s', 4, Holding("r").(pc := MarkingUp(UP, MILLION)))
  {
    var mid := Apply(s, Event(0, Advance(0, MILLION, false, false)));
    assert mid.calls == [Holding("r").(pc := MarkingProxy(UP, Direct, MILLION))] && mid.sh == s.sh;
  }

  lemma ServeCount(s: System)
    requires Serving(s, 4, Holding("r").(pc := MarkingUp(UP, MILLION)))
    ensures var s' := Apply(Apply(s, Next(0)), Next(0));
      Serving(s', 4, Holding("r").(pc := Settling(42_000, true, SERVED)))
  {
    var mid := Apply(s, Next(0));
    assert TouchUpstreamOK([UP], 1) == [UP] by {
      assert [UP][..0] == [];
    }
    assert mid.calls == [Holding("r").(pc := Counting(UP, MILLION))];
    Billing.InRangeCost(1_000_000);
  }

  lemma ServeSettle(s: System)
    requires Serving(s, 4, Holding("r").(pc := Settling(42_000, true, SERVED)))
    ensures var s' := Apply(Apply(s, Next(0)), Next(0));
      Serving(s', 4, Kept("r", Done(SERVED), Tally(1, 1, 1, 1)))
  {
    var mid := Apply(s, Next(0));
    assert mid.calls == [Kept("r", Logging(SERVED), Tally(1, 1, 0, 0))];
  }

  /** A 2xx answer of a million tokens, priced 42000, for an account with 5 micro-credits. */
  function TooDear(): seq<Event> {
    Opening() + [Event(0, TryOut(1, "r", true))] + [Next(0)] + [Event(0, EditTables([UP], []))] +
    [Next(0)] + [Next(0)] + [Next(0)] + [Next(0)] +
    [Event(0, Advance(0, MILLION, false, false))] + [Next(0)] + [Next(0)] + [Next(0)] + [Next(0)] + [Next(0)]
  }

  /** It is answered, and charged 1. */
  lemma SuccessCanCostOne()
    ensures var s := Run(TooDear());
      s.calls == [Kept("r", Done(SERVED), Tally(1, 1, 1, 1))] && PriceOf(SERVED) == 42_000 && L.Credits(s.sh.db, 1) == 4
  {
    hide Run, Apply, PriceOf;
    Opened();
    var a := Opening();
    var b := a + [Event(0, TryOut(1, "r", true))];
    var c := b + [Next(0)];
    var d := c + [Event(0, EditTables([UP], []))];
    RunSnoc(a, Event(0, TryOut(1, "r", true)));
    TryOutStep(Run(a), "r", 5);
    RunSnoc(b, Next(0));
    EnterNext(Run(b), 0, "r", 5);
    RunSnoc(c, Event(0, EditTables([UP], [])));
    EditNext(Run(c));
    Served(d);
    assert PriceOf(SERVED) == 42_000 by {
      MillionCosts();
    }
  }

  lemma MillionCosts()
    ensures PriceOf(SERVED) == 42_000
  {
    Billing.InRangeCost(1_000_000);
  }

  lemma EditNext(s: System)
    requires Plain(s, 4) && s.calls == [Holding("r")]
    ensures Serving(Apply(s, Event(0, EditTables([UP], []))), 4, Holding("r"))
  {
  }

  lemma Served(d: seq<Event>)
    requires Serving(Run(d), 4, Holding("r"))
    ensures var es := d + [Next(0)] + [Next(0)] + [Next(0)] + [Next(0)] +
        [Event(0, Advance(0, MILLION, false, false))] + [Next(0)] + [Next(0)] + [Next(0)] + [Next(0)] + [Next(0)];
      Serving(Run(es), 4, Kept("r", Done(SERVED), Tally(1, 1, 1, 1)))
  {
    hide Run, Apply, Serving;
    var next, answer := [Next(0)], [Event(0, Advance(0, MILLION, false, false))];
    var e := d + next;
    var f := e + next;
    var g := f + next + next;
    var h := g + answer + next;
    var i := h + next + next;
    RunSnoc(d, Next(0));
    ServePick(Run(d));
    RunSnoc(e, Next(0));
    ServeSelect(Run(e));
    RunTwice(f, Next(0), Next(0));
    ServeExit(Run(f));
    RunTwice(g, answer[0], Next(0));
    ServeForward(Run(g), Sighting(0, Run(f).sh.proxies));
    RunTwice(h, Next(0), Next(0));
    ServeCount(Run(h));
    RunTwice(i, Next(0), Next(0));
    ServeSettle(Run(i));
  }

  lemma RunTwice(es: seq<Event>, ev: Event, ev': Event)
    ensures Run(es + [ev] + [ev']) == Apply(Apply(Run(es), ev), ev')
  {
    RunSnoc(es, ev);
    RunSnoc(es + [ev], ev');
  }

  // ---------------------------------------------------------------- not logged

  /** A bad body. */
  function BadBody(): seq<Event> {
    [Event(0, TryOut(1, "r", false))] + [Next(0)]
  }

  /** The call is over, and the log is empty. */
  lemma CallCanGoUnlogged()
    ensures var s := Run(BadBody());
      |s.calls| == 1 && s.calls[0].pc == Done(Plan(400, None, 0, 0)) && s.calls[0].tally.logs == 0 && s.sh.logs == []
  {
    hide Run, Apply;
    var a := [Event(0, TryOut(1, "r", false))];
    BadTry();
    RunSnoc(a, Next(0));
    BadEnds(Run(a));
  }

  const REFUSED := NewCall(Evaluation, "r", Some(User(0, Some(1))), false)

  lemma BadTry()
    ensures var s := Run([Event(0, TryOut(1, "r", false))]); s.calls == [REFUSED] && s.sh.logs == []
  {
    var ev := Event(0, TryOut(1, "r", false));
    assert [] + [ev] == [ev] && Run([]) == START;
    hide Run;
    RunSnoc([], ev);
  }

  lemma BadEnds(s: System)
    requires s.calls == [REFUSED]
    ensures var s' := Apply(s, Next(0));
      |s'.calls| == 1 && s'.calls[0].pc == Done(Plan(400, None, 0, 0)) && s'.calls[0].tally.logs == 0 &&
      s'.sh.logs == s.sh.logs
  {
  }

  // ---------------------------------------------------------------- no admission

  /** An upstream limited to one request a minute, always direct. */
  const SLOW := Upstream(1, 1, 1, ACTIVE, 0, 0, Some(0))

  /** A probe of it that gets as far as its request. */
  function OneProbe(k: nat): seq<Event> {
    [Event(0, ProbeRow(SLOW))] + [Next(k)] + [Next(k)] + [Next(k)]
  }

  lemma ProbeSends(es: seq<Event>)
    ensures var s, s' := Run(es), Run(es + OneProbe(|Run(es).calls|));
      |s'.calls| == |s.calls| + 1 && |s'.sent| == |s.sent| + 1 && s'.sent[..|s.sent|] == s.sent &&
      s'.sent[|s.sent|].up == SLOW && s'.sent[|s.sent|].admitted == None
  {
    var k := |Run(es).calls|;
    var start, begun := Event(0, ProbeRow(SLOW)), NewCall(Probing(SLOW), "probe", None, true);
    var a := es + [start];
    assert es + OneProbe(k) == a + [Next(k)] + [Next(k)] + [Next(k)];
    RunSnoc(es, start);
    StartsOne(Run(es), start);
    RunTwice(a, Next(k), Next(k));
    RunSnoc(a + [Next(k)] + [Next(k)], Next(k));
    hide Run;
    ProbeLeaves(Run(a), k);
  }

  lemma ProbeLeaves(s: System, k: nat)
    requires k < |s.calls| && s.calls[k] == NewCall(Probing(SLOW), "probe", None, true)
    ensures var s' := Apply(Apply(Apply(s, Next(k)), Next(k)), Next(k));
      |s'.calls| == |s.calls| && |s'.sent| == |s.sent| + 1 && s'.sent[..|s.sent|] == s.sent &&
      s'.sent[|s.sent|].up == SLOW && s'.sent[|s.sent|].admitted == None
  {
    var s1 := Apply(s, Next(k));
    assert s1.calls == s.calls[k := s.calls[k].(pc := Exiting(SLOW, None))] && s1.sent == s.sent && s1.sh == s.sh;
    ProbeGoesOut(s1, k);
  }

  lemma ProbeGoesOut(s: System, k: nat)
    requires k < |s.calls| && s.calls[k] == NewCall(Probing(SLOW), "probe", None, true).(pc := Exiting(SLOW, None))
    ensures var s' := Apply(Apply(s, Next(k)), Next(k));
      |s'.calls| == |s.calls| && |s'.sent| == |s.sent| + 1 && s'.sent[..|s.sent|] == s.sent &&
      s'.sent[|s.sent|].up == SLOW && s'.sent[|s.sent|].admitted == None
  {
    var s1 := Apply(s, Next(k));
    var saw := Sighting(0, s.sh.proxies);
    assert s1.calls == s.calls[k := s.calls[k].(pc := Forwarding(SLOW, None, Direct, saw))] && s1.sent == s.sent;
  }

  /** Two requests in one millisecond to an upstream limited to one a minute. */
  lemma LimitCanBePassed()
    ensures var s := Run(OneProbe(0) + OneProbe(1));
      |s.sent| == 2 && s.sent[0].up == s.sent[1].up == SLOW && s.sent[0].admitted == s.sent[1].admitted == None
  {
    assert [] + OneProbe(0) == OneProbe(0);
    ProbeSends([]);
    ProbeSends(OneProbe(0));
    assert Run(OneProbe(0) + OneProbe(1)).sent[..1][0] == Run(OneProbe(0)).sent[0];
  }
}
