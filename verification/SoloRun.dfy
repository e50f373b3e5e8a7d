/**
 The two views of a call agree: what Gateway.Evaluate does when nothing interferes is one of the runs
 the laws about interleavings speak of, and every call comes to an end.
 */
module SoloRun {
  import opened CallMachine
  import opened Interleaving

  /** Events applied from the first to the last. */
  function Play(s: System, es: seq<Event>): System
    decreases |es|
  {
    if es == [] then s else Play(Apply(s, es[0]), es[1..])
  }

  lemma {:induction false} RunThenPlay(es: seq<Event>, fs: seq<Event>)
    ensures Run(es + fs) == Play(Run(es), fs)
    decreases |fs|
  {
    hide Apply;
    if fs == [] {
      assert es + fs == es;
    } else {
      assert es + fs == (es + [fs[0]]) + fs[1..];
      assert (es + [fs[0]])[..|es|] == es;
      RunThenPlay(es + [fs[0]], fs[1..]);
    }
  }

  /** The events of call k running to its end with nothing in between. */
  function SoloEvents(sh: Shared, k: nat, c: Call, tape: nat -> Env, t: nat): seq<Event>
    decreases Fuel(c)
  {
    if c.pc.Done? then []
    else
      StepsRunOut(sh, c, tape(t));
      var turn := CallStep(sh, c, tape(t));
      [Event(tape(t).now, Advance(k, tape(t).reply, tape(t).fails, tape(t).sealed))] +
      SoloEvents(turn.sh, k, turn.call, tape, t + 1)
  }

  lemma {:induction false} SoloPlays(s: System, k: nat, tape: nat -> Env, t: nat)
    requires k < |s.calls|
    ensures var end, turn := Play(s, SoloEvents(s.sh, k, s.calls[k], tape, t)), Finish(s.sh, s.calls[k], tape, t);
      end.sh == turn.sh && end.calls == s.calls[k := turn.call]
    decreases Fuel(s.calls[k])
  {
    hide CallStep;
    var c := s.calls[k];
    if !c.pc.Done? {
      StepsRunOut(s.sh, c, tape(t));
      var s' := AdvanceCall(s, k, tape(t));
      SoloPlays(s', k, tape, t + 1);
      var rest := SoloEvents(s'.sh, k, s'.calls[k], tape, t + 1);
      var first := Event(tape(t).now, Advance(k, tape(t).reply, tape(t).fails, tape(t).sealed));
      assert EnvOf(first) == tape(t);
      assert ([first] + rest)[1..] == rest;
      assert s.calls[k := s'.calls[k]][k := Finish(s'.sh, s'.calls[k], tape, t + 1).call] ==
             s.calls[k := Finish(s'.sh, s'.calls[k], tape, t + 1).call];
    } else {
      assert s.calls[k := c] == s.calls;
    }
  }

  /** Every call ends, whatever its environment does. */
  lemma {:induction false} CallsEnd(sh: Shared, c: Call, tape: nat -> Env, t: nat)
    ensures Finish(sh, c, tape, t).call.pc.Done?
    decreases Fuel(c)
  {
    hide CallStep;
    if !c.pc.Done? {
      StepsRunOut(sh, c, tape(t));
      CallsEnd(CallStep(sh, c, tape(t)).sh, CallStep(sh, c, tape(t)).call, tape, t + 1);
    }
  }

  /** A call that runs alone as events: an action begins it, then it takes all its steps. */
  function CallEvents(s: System, how: Action, c: Call, tape: nat -> Env): seq<Event> {
    [Event(tape(0).now, how)] + SoloEvents(s.sh, |s.calls|, c, tape, 0)
  }

  /**
   After any history, a call that runs alone is a run: the event that begins it followed by its own steps
   leads to the shared state and the finished call that Finish - and so Gateway.Evaluate - computes.
   */
  lemma {:induction false} SoloCallIsARun(es: seq<Event>, how: Action, tape: nat -> Env)
    requires Starts(Run(es), how).Some?
    ensures var s, c := Run(es), Starts(Run(es), how).value;
      var turn, end := Finish(s.sh, c, tape, 0), Run(es + CallEvents(s, how, c, tape));
      end.sh == turn.sh && end.calls == s.calls + [turn.call] && turn.call.pc.Done?
  {
    hide CallStep, Finish, SoloEvents, Apply;
    var s, c := Run(es), Starts(Run(es), how).value;
    var fs := CallEvents(s, how, c, tape);
    StartsOne(s, fs[0]);
    var s' := Apply(s, fs[0]);
    assert fs[1..] == SoloEvents(s.sh, |s.calls|, c, tape, 0);
    RunThenPlay(es, fs);
    SoloPlays(s', |s.calls|, tape, 0);
    CallsEnd(s.sh, c, tape, 0);
  }
}
