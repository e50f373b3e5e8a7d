/** What a sign-up is answered, over every interleaving, told from the one step of it that decides it. */
module SignUpAnswers {
  import opened Wrappers
  import opened Ledger
  import opened Registration

  /**
   What a step of a sign-up decides: the database fails, registration is closed once there is an account, the name
   is taken or the race for the first account lost, or the session is issued.
   */
  ghost function Decides(db: Db, u: SignUp, open: bool, fails: bool): Option<Reply> {
    match u.pc
    case Counting =>
      if fails then Some(Internal) else if db.accounts.Keys != {} && !open then Some(Closed) else None
    case Inserting(counted) =>
      if fails then Some(Internal)
      else if HasName(db, u.username) || (counted == 0 && db.accounts.Keys != {}) then Some(NameTaken)
      else None
    case Issuing(id) => Some(if fails then Internal else Created(id))
    case Done(_) => None
  }

  /** An insert that goes through adds one account of this name without credits: an administrator if it found none. */
  lemma InsertAdds(db: Db, username: string, counted: nat)
    ensures var (db', reply) := Insert(db, username, counted);
      if HasName(db, username) || (counted == 0 && db.accounts.Keys != {}) then db' == db && reply == NameTaken
      else
        reply == Created(db.nextAccount) && db'.nextAccount == db.nextAccount + 1 &&
        db'.accounts == db.accounts[db.nextAccount := Account(username, if counted == 0 then Admin else User, 0)]
  {
    NameTakenIff(db, username, counted);
    assert |db.accounts.Keys| == 0 <==> db.accounts.Keys == {};
  }

  /** A step answers what it decides; a finished sign-up has its answer. */
  lemma StepAnswers(db: Db, u: SignUp, open: bool, fails: bool)
    ensures var u' := Step(db, u, open, fails).1;
      u'.pc.Done? <==> u.pc.Done? || Decides(db, u, open, fails).Some?
    ensures var u' := Step(db, u, open, fails).1;
      u'.pc.Done? ==> Some(u'.pc.reply) == if u.pc.Done? then Some(u.pc.reply) else Decides(db, u, open, fails)
  {
    assert |db.accounts.Keys| == 0 <==> db.accounts.Keys == {};
    if u.pc.Inserting? {
      InsertAdds(db, u.username, u.pc.counted);
      hide Insert, HasName;
    }
  }

  /** Event i is a step of sign-up k and decides this answer. */
  ghost predicate DecidedAt(open: bool, es: seq<Event>, k: nat, i: nat, reply: Reply) {
    i < |es| && es[i].Advance? && es[i].k == k && k < |Run(open, es[..i]).signUps| &&
    Decides(Run(open, es[..i]).db, Run(open, es[..i]).signUps[k], open, es[i].fails) == Some(reply)
  }

  ghost predicate Told(open: bool, es: seq<Event>, k: nat, u: SignUp) {
    (u.pc.Done? ==> exists i: nat :: DecidedAt(open, es, k, i, u.pc.reply)) &&
    forall i: nat, reply :: DecidedAt(open, es, k, i, reply) ==> u.pc == Done(reply)
  }

  lemma {:induction false} DecidedLater(open: bool, es: seq<Event>, ev: Event, k: nat)
    ensures forall i: nat, r :: i < |es| ==> (DecidedAt(open, es + [ev], k, i, r) <==> DecidedAt(open, es, k, i, r))
  {
    forall i: nat | i < |es| ensures (es + [ev])[..i] == es[..i] && (es + [ev])[i] == es[i] {
    }
  }

  lemma {:induction false} StepIsTold(open: bool, es: seq<Event>, ev: Event, k: nat)
    requires k < |Run(open, es).signUps| && Told(open, es, k, Run(open, es).signUps[k]) && ev.Advance? && ev.k == k
    ensures var s := Run(open, es); Told(open, es + [ev], k, Step(s.db, s.signUps[k], open, ev.fails).1)
  {
    hide Run, Step, Decides;
    var n, es', s := |es|, es + [ev], Run(open, es);
    var u, u' := s.signUps[k], Step(s.db, s.signUps[k], open, ev.fails).1;
    assert es'[..n] == es && es'[n] == ev;
    StepAnswers(s.db, u, open, ev.fails);
    DecidedLater(open, es, ev, k);
    DoneDecidesNothing(s.db, u, open, ev.fails);
    if u'.pc.Done? {
      if u.pc.Done? {
        var i: nat :| DecidedAt(open, es, k, i, u.pc.reply);
        assert DecidedAt(open, es', k, i, u'.pc.reply);
      } else {
        assert DecidedAt(open, es', k, n, u'.pc.reply);
      }
    }
  }

  lemma DoneDecidesNothing(db: Db, u: SignUp, open: bool, fails: bool)
    ensures u.pc.Done? ==> Decides(db, u, open, fails).None?
  {
  }

  lemma {:induction false} OtherIsTold(open: bool, es: seq<Event>, ev: Event, k: nat, u: SignUp)
    requires Told(open, es, k, u) && !(ev.Advance? && ev.k == k)
    ensures Told(open, es + [ev], k, u)
  {
    hide Run, Decides;
    var es' := es + [ev];
    DecidedLater(open, es, ev, k);
    assert es'[|es|] == ev;
    if u.pc.Done? {
      var i: nat :| DecidedAt(open, es, k, i, u.pc.reply);
      assert DecidedAt(open, es', k, i, u.pc.reply);
    }
  }

  lemma {:induction false} NewIsTold(open: bool, es: seq<Event>, ev: Event, k: nat, u: SignUp)
    requires k >= |Run(open, es).signUps| && u.pc.Counting?
    ensures Told(open, es + [ev], k, u)
  {
    forall i: nat, reply ensures !DecidedAt(open, es + [ev], k, i, reply) {
      if i <= |es| {
        assert (es + [ev])[..i] == es[..i];
        SignUpsGrow(open, es, i);
      }
    }
  }

  lemma {:induction false} AlwaysTold(open: bool, es: seq<Event>, k: nat)
    requires k < |Run(open, es).signUps|
    ensures Told(open, es, k, Run(open, es).signUps[k])
  {
    if es != [] {
      var before, ev := es[..|es| - 1], es[|es| - 1];
      assert before + [ev] == es;
      hide Apply, Told, Step;
      SignUpMoves(Run(open, before), open, ev, k);
      if k >= |Run(open, before).signUps| {
        NewIsTold(open, before, ev, k, Run(open, es).signUps[k]);
      } else {
        AlwaysTold(open, before, k);
        if ev.Advance? && ev.k == k {
          StepIsTold(open, before, ev, k);
        } else {
          OtherIsTold(open, before, ev, k, Run(open, before).signUps[k]);
        }
      }
    }
  }

  /** In every run a finished sign-up is answered what one of its own steps decided, and no step of it decided else. */
  lemma {:induction false} ReplyIsDecided(open: bool, es: seq<Event>, k: nat)
    requires k < |Run(open, es).signUps| && Run(open, es).signUps[k].pc.Done?
    ensures var reply := Run(open, es).signUps[k].pc.reply;
      (exists i: nat :: DecidedAt(open, es, k, i, reply)) &&
      forall i: nat, other :: DecidedAt(open, es, k, i, other) ==> other == reply
  {
    AlwaysTold(open, es, k);
  }
}
