/**
 A complete run in which catalogue traffic decides which upstream calls get: two equal upstreams, one
 catalogue request between two calls, and both calls picked the same upstream.
 */
module Starvation {
  import opened Wrappers
  import opened Tables
  import opened CallMachine
  import opened Admission
  import opened Interleaving
  import opened Witnesses
  import Auth = Authentication
  import P = Pool

  const LEFT := Upstream(1, 1, 0, ACTIVE, 0, 0, Some(0))
  const RIGHT := Upstream(2, 1, 0, ACTIVE, 0, 0, Some(0))

  function Two(): seq<Upstream> {
    [LEFT, RIGHT]
  }

  const READ := Reading(0, Two())

  /** A first pick among the two. */
  function PickOf(k: nat, cursor: nat): Pick {
    Pick(k, READ, {}, Two(), cursor, Some(P.Choose(Two(), cursor)))
  }

  /** A key without owner, quota or limit. */
  const KEY := Auth.UserKey(7, "h", "active", None, 0, 0, None)

  /** Two upstreams, an account with the given credits, and the next cursor value. */
  ghost predicate Stocked(s: System, credits: int, cursor: nat) {
    1 in s.sh.db.accounts && s.sh.db.accounts[1].credits == credits &&
    s.sh.upstreams == Two() && s.sh.poolCursor == cursor
  }

  lemma BothAreCandidates()
    ensures P.Candidates(Two(), {}, 0) == Two()
  {
    assert Two()[..1] == [LEFT] && [LEFT][..0] == [];
    assert P.Candidates([LEFT], {}, 0) == [] + [LEFT] == [LEFT];
  }

  lemma OddIsRight(cursor: nat)
    requires cursor % 2 == 1
    ensures P.Choose(Two(), cursor) == RIGHT
  {
    assert Two()[..1] == [LEFT] && [LEFT][..0] == [];
    assert P.Total([LEFT]) == 1 && P.Total(Two()) == 2;
  }

  lemma EnterStepOf(s: System, k: nat, rid: string, credits: int, cursor: nat)
    requires Stocked(s, credits, cursor) && credits > 0 && k < |s.calls| && s.calls[k] == Tried(rid)
    ensures var s' := Apply(s, Next(k));
      Stocked(s', credits - 1, cursor) && s'.calls == s.calls[k := Holding(rid)] && s'.picks == s.picks
  {
  }

  /** A call waiting to pick. */
  ghost predicate Waiting(c: Call) {
    c.pc.Picking? && c.exclude == {} && !c.task.Probing?
  }

  function Picked(c: Call, cursor: nat): Call {
    var up := P.Choose(Two(), cursor);
    c.(pc := if c.task.Evaluation? then Limiting(up) else Exiting(up, None))
  }

  lemma PickStepOf(s: System, k: nat, credits: int, cursor: nat)
    requires Stocked(s, credits, cursor) && k < |s.calls| && Waiting(s.calls[k])
    ensures var s' := Apply(s, Next(k));
      Stocked(s', credits, cursor) && s'.calls == s.calls[k := s.calls[k].(pc := Selecting(Two(), READ))] &&
      s'.picks == s.picks
  {
    BothAreCandidates();
  }

  lemma SelectStepOf(s: System, k: nat, credits: int, cursor: nat, c: Call)
    requires Stocked(s, credits, cursor) && k < |s.calls| && s.calls[k] == c.(pc := Selecting(Two(), READ))
    requires !c.task.Probing? && c.exclude == {}
    ensures var s' := Apply(s, Next(k));
      Stocked(s', credits, P.Advance(cursor)) && s'.calls == s.calls[k := Picked(c, P.Advance(cursor))] &&
      s'.picks == s.picks + [PickOf(k, P.Advance(cursor))]
  {
  }

  /** The two steps of a pick. */
  lemma PickTwice(es: seq<Event>, k: nat, credits: int, cursor: nat)
    requires Stocked(Run(es), credits, cursor) && k < |Run(es).calls| && Waiting(Run(es).calls[k])
    ensures var s, s' := Run(es), Run(es + [Next(k)] + [Next(k)]);
      Stocked(s', credits, P.Advance(cursor)) && s'.calls == s.calls[k := Picked(s.calls[k], P.Advance(cursor))] &&
      s'.picks == s.picks + [PickOf(k, P.Advance(cursor))]
  {
    hide Apply, Run;
    RunTwice(es, Next(k), Next(k));
    PickStepOf(Run(es), k, credits, cursor);
    SelectStepOf(Apply(Run(es), Next(k)), k, credits, cursor, Run(es).calls[k]);
  }

  function Proceeds(): Event {
    Event(0, Proceed(0, false))
  }

  /** A catalogue request let in, and two calls begun. */
  function Crowd(): seq<Event> {
    Opening() + [Event(0, EditTables(Two(), []))] + [Event(0, EditKeys([KEY], map[]))] +
    [Event(0, Knock(Some("h")))] + [Proceeds()] + [Proceeds()] +
    [Event(0, Admit(0, Catalogue(false), "c", true))] +
    [Event(0, TryOut(1, "a", true))] + [Event(0, TryOut(1, "b", true))]
  }

  function Listing(): Call {
    NewCall(Catalogue(false), "c", Some(User(7, None)), true)
  }

  /** Both tables are filled and a request stands at the door as given. */
  ghost predicate AtDoor(s: System, v: Visit) {
    Stocked(s, 5, 0) && s.sh.keys == [KEY] && s.sh.tokens == map[] && s.visits == [v] && s.calls == [] && s.picks == []
  }

  lemma Knocked()
    ensures AtDoor(Run(Opening() + [Event(0, EditTables(Two(), []))] + [Event(0, EditKeys([KEY], map[]))] +
                       [Event(0, Knock(Some("h")))]), LookingUp(Some("h")))
  {
    Opened();
    var a := Opening();
    var tables, keys := Event(0, EditTables(Two(), [])), Event(0, EditKeys([KEY], map[]));
    var knock := Event(0, Knock(Some("h")));
    RunSnoc(a, tables);
    RunSnoc(a + [tables], keys);
    RunSnoc(a + [tables] + [keys], knock);
  }

  lemma LetInStep(s: System, v: Visit)
    requires AtDoor(s, v)
    ensures v == LookingUp(Some("h")) ==> AtDoor(Apply(s, Proceeds()), TakingSlot(KEY))
    ensures v == TakingSlot(KEY) ==> AtDoor(Apply(s, Proceeds()), Inside(KEY))
  {
  }

  lemma BeginStep(s: System)
    requires AtDoor(s, Inside(KEY))
    ensures var s' := Apply(s, Event(0, Admit(0, Catalogue(false), "c", true)));
      Stocked(s', 5, 0) && s'.calls == [Listing()] && s'.picks == []
  {
  }

  lemma TryStep(s: System, rid: string)
    requires Stocked(s, 5, 0)
    ensures var s' := Apply(s, Event(0, TryOut(1, rid, true)));
      Stocked(s', 5, 0) && s'.calls == s.calls + [Tried(rid)] && s'.picks == s.picks
  {
  }

  lemma Crowded()
    ensures var s := Run(Crowd()); Stocked(s, 5, 0) && s.calls == [Listing(), Tried("a"), Tried("b")] && s.picks == []
  {
    hide Apply, Run;
    Knocked();
    var a := Opening() + [Event(0, EditTables(Two(), []))] + [Event(0, EditKeys([KEY], map[]))] +
             [Event(0, Knock(Some("h")))];
    var b := a + [Proceeds()] + [Proceeds()];
    var admit := Event(0, Admit(0, Catalogue(false), "c", true));
    var one, two := Event(0, TryOut(1, "a", true)), Event(0, TryOut(1, "b", true));
    RunTwice(a, Proceeds(), Proceeds());
    LetInStep(Run(a), LookingUp(Some("h")));
    LetInStep(Apply(Run(a), Proceeds()), TakingSlot(KEY));
    RunSnoc(b, admit);
    BeginStep(Run(b));
    RunSnoc(b + [admit], one);
    TryStep(Run(b + [admit]), "a");
    RunSnoc(b + [admit] + [one], two);
    TryStep(Run(b + [admit] + [one]), "b");
  }

  /** Call 1 picks, the catalogue request picks, call 2 picks. */
  function Alternating(): seq<Event> {
    Crowd() + [Next(1)] + [Next(2)] + [Next(0)] + [Next(1)] + [Next(1)] + [Next(0)] + [Next(0)] + [Next(2)] + [Next(2)]
  }

  lemma ListingStep(s: System)
    requires Stocked(s, 3, 0) && |s.calls| == 3 && s.calls[0] == Listing()
    ensures var s' := Apply(s, Next(0));
      Stocked(s', 3, 0) && s'.calls == s.calls[0 := Listing().(pc := Picking)] && s'.picks == s.picks
  {
  }

  /** Of the three picks the calls made the first and the last, and both found the second upstream. */
  lemma CallsCanStarve()
    ensures var s := Run(Alternating());
      s.picks == [PickOf(1, 1), PickOf(0, 2), PickOf(2, 3)] &&
      |s.calls| == 3 && s.calls[1].pc == s.calls[2].pc == Limiting(RIGHT) && s.calls[0].task == Catalogue(false)
  {
    hide Apply, Run;
    Crowded();
    var a := Crowd();
    var b := a + [Next(1)];
    var c := b + [Next(2)];
    var d := c + [Next(0)];
    RunSnoc(a, Next(1));
    EnterStepOf(Run(a), 1, "a", 5, 0);
    RunSnoc(b, Next(2));
    EnterStepOf(Run(b), 2, "b", 4, 0);
    RunSnoc(c, Next(0));
    ListingStep(Run(c));
    PickTwice(d, 1, 3, 0);
    var e := d + [Next(1)] + [Next(1)];
    PickTwice(e, 0, 3, 1);
    var f := e + [Next(0)] + [Next(0)];
    PickTwice(f, 2, 3, 2);
    OddIsRight(1);
    OddIsRight(3);
  }
}
