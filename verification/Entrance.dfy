/**
 Who gets in, over every interleaving: a request that was let in passed each test of Authenticate at an
 event of its own, on the tables and the clock of that event.
 */
module Entrance {
  import opened Wrappers
  import opened Authentication
  import opened CallMachine
  import opened Admission
  import opened Interleaving
  import RateLimit

  /** Event i is the next test of request v, which stands at `at`. */
  ghost predicate Tested(es: seq<Event>, i: nat, v: nat, at: Visit) {
    i < |es| && es[i].act.Proceed? && es[i].act.visit == v && v < |Run(es[..i]).visits| && Run(es[..i]).visits[v] == at
  }

  /**
   The request's key stood in the table at event i: its status was "active", its expiry, if it has one, was not
   over, and if it has a quota, fewer tokens than that had been used.
   */
  ghost predicate FoundAt(es: seq<Event>, i: nat, v: nat, digest: string, k: UserKey) {
    Tested(es, i, v, LookingUp(Some(digest))) && !es[i].act.fails &&
    var sh := Run(es[..i]).sh;
    k in sh.keys && k.hash == digest && k.status == "active" &&
    (forall x :: k.expiresAt == Some(x) ==> es[i].now <= x) &&
    (k.tokenQuota > 0 ==> (if k.id in sh.tokens then sh.tokens[k.id] else 0) < k.tokenQuota)
  }

  /** The owner's account had at least one micro-credit at event i. */
  ghost predicate SolventAt(es: seq<Event>, i: nat, v: nat, k: UserKey) {
    Tested(es, i, v, CheckingCredit(k)) && !es[i].act.fails && k.owner.Some? &&
    var db := Run(es[..i]).sh.db; k.owner.value in db.accounts && db.accounts[k.owner.value].credits >= 1
  }

  /** The limiter admitted the key at event i. */
  ghost predicate SlotAt(es: seq<Event>, i: nat, v: nat, k: UserKey) {
    Tested(es, i, v, TakingSlot(k)) &&
    RateLimit.Decide(Run(es[..i]).sh.windows, RateLimit.UserRpm(k.id), k.rpmLimit, RateLimit.MINUTE, es[i].now).1.ok
  }

  ghost predicate Found(es: seq<Event>, v: nat, k: UserKey) {
    exists i: nat, digest :: FoundAt(es, i, v, digest, k)
  }

  ghost predicate Vetted(es: seq<Event>, v: nat, k: UserKey) {
    Found(es, v, k) && (k.owner.Some? ==> exists i: nat :: SolventAt(es, i, v, k))
  }

  ghost predicate LetIn(es: seq<Event>, v: nat, k: UserKey) {
    Vetted(es, v, k) && exists i: nat :: SlotAt(es, i, v, k)
  }

  /** What a request has behind it at each point. */
  ghost predicate Passed(es: seq<Event>, v: nat, at: Visit) {
    match at
    case CheckingCredit(k) => Found(es, v, k) && k.owner.Some?
    case TakingSlot(k) => Vetted(es, v, k)
    case Inside(k) => LetIn(es, v, k)
    case Served(k) => LetIn(es, v, k)
    case _ => true
  }

  lemma {:induction false} TestedLater(es: seq<Event>, ev: Event, i: nat, v: nat, at: Visit)
    requires Tested(es, i, v, at)
    ensures Tested(es + [ev], i, v, at) && (es + [ev])[..i] == es[..i] && (es + [ev])[i] == es[i]
  {
    assert (es + [ev])[..i] == es[..i];
  }

  lemma {:induction false} FoundLater(es: seq<Event>, ev: Event, v: nat, k: UserKey)
    requires Found(es, v, k)
    ensures Found(es + [ev], v, k)
  {
    var i: nat, digest :| FoundAt(es, i, v, digest, k);
    TestedLater(es, ev, i, v, LookingUp(Some(digest)));
    assert FoundAt(es + [ev], i, v, digest, k);
  }

  lemma {:induction false} VettedLater(es: seq<Event>, ev: Event, v: nat, k: UserKey)
    requires Vetted(es, v, k)
    ensures Vetted(es + [ev], v, k)
  {
    FoundLater(es, ev, v, k);
    if k.owner.Some? {
      var i: nat :| SolventAt(es, i, v, k);
      TestedLater(es, ev, i, v, CheckingCredit(k));
      assert SolventAt(es + [ev], i, v, k);
    }
  }

  lemma {:induction false} LetInLater(es: seq<Event>, ev: Event, v: nat, k: UserKey)
    requires LetIn(es, v, k)
    ensures LetIn(es + [ev], v, k)
  {
    VettedLater(es, ev, v, k);
    var i: nat :| SlotAt(es, i, v, k);
    TestedLater(es, ev, i, v, TakingSlot(k));
    assert SlotAt(es + [ev], i, v, k);
  }

  lemma {:induction false} PassedLater(es: seq<Event>, ev: Event, v: nat, at: Visit)
    requires Passed(es, v, at)
    ensures Passed(es + [ev], v, at)
  {
    hide Found, Vetted, LetIn;
    match at
    case CheckingCredit(k) => FoundLater(es, ev, v, k);
    case TakingSlot(k) => VettedLater(es, ev, v, k);
    case Inside(k) => LetInLater(es, ev, v, k);
    case Served(k) => LetInLater(es, ev, v, k);
    case _ =>
  }

  /** One test of one request. */
  lemma {:induction false} TestPasses(es: seq<Event>, ev: Event, v: nat)
    requires ev.act.Proceed? && ev.act.visit == v && v < |Run(es).visits| && Passed(es, v, Run(es).visits[v])
    ensures var e := Env(ev.now, Transport, ev.act.fails, false);
      Passed(es + [ev], v, VisitStep(Run(es).sh, Run(es).visits[v], e).1)
  {
    var s, at, es' := Run(es), Run(es).visits[v], es + [ev];
    assert es'[..|es|] == es && es'[|es|] == ev;
    assert Tested(es', |es|, v, at);
    match at
    case LookingUp(digest) =>
      if digest.Some? && !ev.act.fails && Lookup(s.sh.keys, digest.value).Some? {
        LookupFinds(s.sh.keys, digest.value);
        var k := Lookup(s.sh.keys, digest.value).value;
        if Active(k, ev.now) && QuotaLeft(k, s.sh.tokens) {
          assert FoundAt(es', |es|, v, digest.value, k);
        }
      }
    case CheckingCredit(k) =>
      FoundLater(es, ev, v, k);
      if !ev.act.fails && Solvent(k, s.sh.db) && k.owner.value in s.sh.db.accounts {
        assert SolventAt(es', |es|, v, k);
      }
    case TakingSlot(k) =>
      VettedLater(es, ev, v, k);
      if SlotStep(s.sh, k, Env(ev.now, Transport, ev.act.fails, false)).1.Inside? {
        assert SlotAt(es', |es|, v, k);
      }
    case _ => PassedLater(es, ev, v, at);
  }

  /** What an event does to request v: its next test, being served, or nothing. */
  lemma VisitMoves(s: System, ev: Event, v: nat)
    requires v < |Apply(s, ev).visits|
    ensures if v >= |s.visits| then Apply(s, ev).visits[v].LookingUp?
            else if ev.act.Proceed? && ev.act.visit == v then
              Apply(s, ev).visits[v] == VisitStep(s.sh, s.visits[v], Env(ev.now, Transport, ev.act.fails, false)).1
            else Apply(s, ev).visits[v] == s.visits[v] ||
                 (s.visits[v].Inside? && Apply(s, ev).visits[v] == Served(s.visits[v].key))
  {
    hide CallStep, VisitStep;
  }

  lemma {:induction false} EveryonePassed(es: seq<Event>, v: nat)
    requires v < |Run(es).visits|
    ensures Passed(es, v, Run(es).visits[v])
  {
    if es != [] {
      var n := |es| - 1;
      var s := Run(es[..n]);
      assert es == es[..n] + [es[n]] && Run(es) == Apply(s, es[n]);
      hide Apply, Run, Found, Vetted, LetIn, VisitStep;
      VisitMoves(s, es[n], v);
      if v < |s.visits| {
        EveryonePassed(es[..n], v);
        if es[n].act.Proceed? && es[n].act.visit == v {
          TestPasses(es[..n], es[n], v);
        } else {
          PassedLater(es[..n], es[n], v, s.visits[v]);
        }
      }
    }
  }

  /**
   Nobody gets in without passing every test: for a request that was let in there are events of this run, its
   own, at which its key was read active and within quota, its owner had credits, and the limiter admitted it.
   */
  lemma {:induction false} InsidersWereEntitled(es: seq<Event>, v: nat)
    requires v < |Run(es).visits| && (Run(es).visits[v].Inside? || Run(es).visits[v].Served?)
    ensures var k := Run(es).visits[v].key;
      (exists i: nat, digest :: FoundAt(es, i, v, digest, k)) &&
      (k.owner.Some? ==> exists i: nat :: SolventAt(es, i, v, k)) &&
      (exists i: nat :: SlotAt(es, i, v, k))
  {
    EveryonePassed(es, v);
  }

  // ---------------------------------------------------------------- who calls are for

  /** Event i begins call k for this user: a request let in under that key, or an account from the console. */
  ghost predicate BegunAt(es: seq<Event>, i: nat, k: nat, user: Option<User>) {
    i < |es| && |Run(es[..i]).calls| == k &&
    match es[i].act
    case Admit(v, task, _, _) =>
      v < |Run(es[..i]).visits| && Run(es[..i]).visits[v].Inside? && !task.Probing? &&
      user == Some(User(Run(es[..i]).visits[v].key.id, Run(es[..i]).visits[v].key.owner))
    case TryOut(owner, _, _) => user == Some(User(0, Some(owner)))
    case ProbeRow(_) => user == None
    case _ => false
  }

  lemma StartsFor(s: System, ev: Event)
    requires Starts(s, ev.act).Some?
    ensures var user := Starts(s, ev.act).value.user;
      match ev.act
      case Admit(v, task, _, _) =>
        v < |s.visits| && s.visits[v].Inside? && !task.Probing? &&
        user == Some(User(s.visits[v].key.id, s.visits[v].key.owner))
      case TryOut(owner, _, _) => user == Some(User(0, Some(owner)))
      case ProbeRow(_) => user == None
      case _ => false
  {
  }

  /**
   Every call is for whoever it was begun for: a request that had been let in, under its key and for that key's
   owner; an account trying the service out; or nobody, for a probe.
   */
  lemma {:induction false} CallsAreForThoseLetIn(es: seq<Event>, k: nat)
    requires k < |Run(es).calls|
    ensures exists i: nat :: BegunAt(es, i, k, Run(es).calls[k].user)
  {
    var before, ev := es[..|es| - 1], es[|es| - 1];
    assert before + [ev] == es;
    hide CallStep, Apply;
    StartsOne(Run(before), ev);
    if k >= |Run(before).calls| {
      StartsFor(Run(before), ev);
      assert BegunAt(es, |es| - 1, k, Run(es).calls[k].user);
    } else {
      CallsAreForThoseLetIn(before, k);
      CallMoves(Run(before), ev, k);
      if ev.act.Advance? && ev.act.call == k {
        StepLeads(Run(before).sh, Run(before).calls[k], EnvOf(ev));
      }
      var i: nat :| BegunAt(before, i, k, Run(before).calls[k].user);
      assert before[..i] == es[..i];
      assert BegunAt(es, i, k, Run(es).calls[k].user);
    }
  }

  /** A request becomes one call: once it is served, nothing begins another. */
  lemma {:induction false} ServedOnce(es: seq<Event>, i: nat, j: nat)
    requires i < j < |es| && es[i].act.Admit? && es[j].act.Admit? && es[i].act.visit == es[j].act.visit
    requires Starts(Run(es[..i]), es[i].act).Some?
    ensures Starts(Run(es[..j]), es[j].act).None?
  {
    RunStep(es, i);
    StaysServed(es[..j], es[i].act.visit, i + 1) by {
      assert es[..j][..i + 1] == es[..i + 1];
    }
  }

  lemma {:induction false} StaysServed(es: seq<Event>, v: nat, i: nat)
    requires i <= |es| && v < |Run(es[..i]).visits| && Run(es[..i]).visits[v].Served?
    ensures v < |Run(es).visits| && Run(es).visits[v].Served?
  {
    if i == |es| {
      assert es[..i] == es;
    } else {
      var before, ev := es[..|es| - 1], es[|es| - 1];
      assert before[..i] == es[..i];
      hide Apply;
      StaysServed(before, v, i);
      VisitsStay(Run(before), ev);
      VisitMoves(Run(before), ev, v);
    }
  }

  lemma VisitsStay(s: System, ev: Event)
    ensures |Apply(s, ev).visits| >= |s.visits|
  {
    hide CallStep, VisitStep;
  }
}
