/**
 Sign-up: register counts the accounts in one transaction, inserts in another and issues a session in a
 third, so other sign-ups and credit transactions can run in between.
 */
module Registration {
  import opened Wrappers
  import opened Ledger
  import S = Store

  datatype Reply = Created(id: int) | Closed | NameTaken | Internal

  datatype Pc = Counting | Inserting(counted: nat) | Issuing(id: int) | Done(reply: Reply)

  /** account is the id the sign-up's insert returned, whatever its client is told in the end. */
  datatype SignUp = SignUp(username: string, account: Option<int>, pc: Pc)

  /** The tables, the sign-ups in progress, and, only to talk about runs, the ids in order of insertion. */
  datatype System = System(db: Db, signUps: seq<SignUp>, created: seq<int>)

  const START := System(EMPTY, [], [])

  datatype Event =
    | Arrive(username: string)
    | Advance(k: nat, fails: bool)
    | Credit(account: int, delta: int, allowNegative: bool, reason: Reason, ref: Ref)
    | Claim(hash: string, account: int, now: int)
    | Issue(items: seq<(string, int)>)

  /** The store call the counted number leads to, and the answer it gives the client. */
  function Insert(db: Db, username: string, counted: nat): (Db, Reply) {
    var (db', r) :=
      if counted == 0 then InsertAccount(db, username, Admin, true)
      else InsertAccount(db, username, User, false);
    match r
    case Ok(id) => (db', Created(id))
    case Err(Conflict) => (db', NameTaken)
    case Err(_) => (db', Internal)
  }

  /** One transaction of one sign-up. */
  function Step(db: Db, u: SignUp, open: bool, fails: bool): (Db, SignUp) {
    match u.pc
    case Counting =>
      var n := |db.accounts|;
      (db, u.(pc := if fails then Done(Internal) else if n > 0 && !open then Done(Closed) else Inserting(n)))
    case Inserting(counted) =>
      if fails then (db, u.(pc := Done(Internal)))
      else
        var (db', reply) := Insert(db, u.username, counted);
        (db', Inserted(u, reply))
    case Issuing(id) => (db, u.(pc := Done(if fails then Internal else Created(id))))
    case Done(_) => (db, u)
  }

  function Inserted(u: SignUp, reply: Reply): SignUp {
    if reply.Created? then u.(account := Some(reply.id), pc := Issuing(reply.id)) else u.(pc := Done(reply))
  }

  function Apply(s: System, open: bool, ev: Event): System {
    match ev
    case Arrive(name) => s.(signUps := s.signUps + [SignUp(name, None, Counting)])
    case Advance(k, fails) =>
      if k >= |s.signUps| then s
      else
        var (db', u) := Step(s.db, s.signUps[k], open, fails);
        System(db', s.signUps[k := u],
               if u.pc.Issuing? && s.signUps[k].pc.Inserting? then s.created + [u.pc.id] else s.created)
    case Credit(a, delta, neg, reason, ref) => s.(db := Post(s.db, a, delta, neg, reason, ref).0)
    case Claim(hash, a, now) => s.(db := RedeemCode(s.db, hash, a, now).0)
    case Issue(items) => s.(db := InsertCodes(s.db, items).0)
  }

  function Run(open: bool, es: seq<Event>): System {
    if es == [] then START else Apply(Run(open, es[..|es| - 1]), open, es[|es| - 1])
  }

  class Server {
    const store: S.Store
    const open: bool

    constructor (store: S.Store, open: bool)
      ensures this.store == store && this.open == open
    {
      this.store, this.open := store, open;
    }

    /** register, with nothing else running. */
    method Register(username: string, countFails: bool, insertFails: bool, sessionFails: bool) returns (reply: Reply)
      modifies store`accounts, store`nextAccount
      ensures var counted := Step(old(store.Money()), SignUp(username, None, Counting), open, countFails);
        var inserted := Step(counted.0, counted.1, open, insertFails);
        var (db, u) := Step(inserted.0, inserted.1, open, sessionFails);
        store.Money() == db && u.username == username && u.pc == Done(reply)
    {
      if countFails {
        return Internal;
      }
      var n := store.CountAccounts();
      if n > 0 && !open {
        return Closed;
      }
      if insertFails {
        return Internal;
      }
      var r;
      if n == 0 {
        r := store.InsertAccount(username, Admin, true);
      } else {
        r := store.InsertAccount(username, User, false);
      }
      if r == Err(Conflict) {
        return NameTaken;
      }
      if r.Err? {
        return Internal;
      }
      if sessionFails {
        return Internal;
      }
      reply := Created(r.value);
    }
  }

  // ---------------------------------------------------------------- what every run keeps

  /** Ids are given out in order from 1, nobody shares a name, and only the first account is an administrator. */
  ghost predicate Founded(s: System) {
    s.db.nextAccount == |s.created| + 1 && s.db.nextAccount == |s.db.accounts| + 1 &&
    (forall i :: 0 <= i < |s.created| ==> s.created[i] == i + 1) &&
    (forall a :: a in s.db.accounts <==> 1 <= a <= |s.created|) &&
    (forall a :: a in s.db.accounts ==> (s.db.accounts[a].role == Admin <==> a == 1)) &&
    (forall a, b ::
       (a in s.db.accounts && b in s.db.accounts && s.db.accounts[a].username == s.db.accounts[b].username) ==> a == b)
  }

  /** A sign-up that counted accounts will still find some; one that inserted has its account. */
  ghost predicate SignUpOk(db: Db, open: bool, u: SignUp) {
    (u.account.Some? ==> u.account.value in db.accounts && db.accounts[u.account.value].username == u.username) &&
    match u.pc
    case Counting => u.account.None?
    case Inserting(n) => u.account.None? && n <= |db.accounts| && (n > 0 ==> open)
    case Issuing(id) => u.account == Some(id)
    case Done(Created(id)) => u.account == Some(id)
    case Done(_) => true
  }

  /** Names, roles and ids are what they were. */
  predicate SamePeople(db: Db, db': Db) {
    db'.nextAccount == db.nextAccount && db'.accounts.Keys == db.accounts.Keys &&
    forall a :: a in db.accounts ==>
      db'.accounts[a].role == db.accounts[a].role && db'.accounts[a].username == db.accounts[a].username
  }

  lemma CreditsKeepPeople(s: System, open: bool, ev: Event)
    requires !ev.Arrive? && !ev.Advance?
    ensures SamePeople(s.db, Apply(s, open, ev).db)
  {
    match ev
    case Credit(_, _, _, _, _) =>
    case Claim(_, _, _) =>
    case Issue(items) => CodesKeepPeople(s.db, items);
  }

  lemma {:induction false} CodesKeepPeople(db: Db, items: seq<(string, int)>)
    ensures InsertCodes(db, items).0.accounts == db.accounts && InsertCodes(db, items).0.nextAccount == db.nextAccount
  {
    if items != [] {
      CodesKeepPeople(db, items[..|items| - 1]);
    }
  }

  lemma SameSize(db: Db, db': Db)
    requires SamePeople(db, db')
    ensures |db'.accounts| == |db.accounts|
  {
    assert |db'.accounts| == |db'.accounts.Keys| && |db.accounts| == |db.accounts.Keys|;
  }

  ghost predicate Invariant(s: System, open: bool) {
    Founded(s) &&
    (forall k :: 0 <= k < |s.signUps| ==> SignUpOk(s.db, open, s.signUps[k])) &&
    (forall j, k :: 0 <= j < k < |s.signUps| && s.signUps[j].account.Some? ==>
      s.signUps[j].account != s.signUps[k].account) &&
    (!open ==> |s.created| <= 1)
  }

  /** The first account is inserted as the administrator, every later one as a user. */
  lemma InsertFounds(s: System, username: string, counted: nat)
    requires Founded(s) && counted <= |s.db.accounts|
    ensures var (db', reply) := Insert(s.db, username, counted);
      if reply.Created? then
        Founded(s.(db := db', created := s.created + [reply.id])) && reply.id !in s.db.accounts &&
        reply.id in db'.accounts && db'.accounts[reply.id].username == username &&
        (counted == 0 ==> s.created == []) &&
        forall a :: a in s.db.accounts ==> a in db'.accounts && db'.accounts[a] == s.db.accounts[a]
      else db' == s.db
  {
    var (db', reply) := Insert(s.db, username, counted);
    if reply.Created? {
      var role := if counted == 0 then Admin else User;
      assert db'.accounts == s.db.accounts[s.db.nextAccount := Account(username, role, 0)];
      assert |db'.accounts| == |s.db.accounts| + 1;
      assert s.created == [] <==> |s.db.accounts| == 0;
    }
  }

  lemma {:induction false} AdvanceKeeps(s: System, open: bool, k: nat, fails: bool)
    requires Invariant(s, open)
    ensures Invariant(Apply(s, open, Advance(k, fails)), open)
  {
    if k < |s.signUps| && s.signUps[k].pc.Inserting? && !fails {
      InsertKeeps(s, open, k);
    } else {
      var s' := Apply(s, open, Advance(k, fails));
      assert s'.db == s.db && s'.created == s.created;
    }
  }

  lemma {:induction false} InsertKeeps(s: System, open: bool, k: nat)
    requires Invariant(s, open) && k < |s.signUps| && s.signUps[k].pc.Inserting?
    ensures Invariant(Apply(s, open, Advance(k, false)), open)
  {
    var u, s' := s.signUps[k], Apply(s, open, Advance(k, false));
    var counted := u.pc.counted;
    assert SignUpOk(s.db, open, u);
    InsertFounds(s, u.username, counted);
    var (db', reply) := Insert(s.db, u.username, counted);
    assert s'.db == db' && s'.signUps == s.signUps[k := Inserted(u, reply)];
    assert s'.created == if reply.Created? then s.created + [reply.id] else s.created;
    forall j | 0 <= j < |s.signUps| && s.signUps[j].account.Some? ensures s.signUps[j].account.value in s.db.accounts {
      assert SignUpOk(s.db, open, s.signUps[j]);
    }
    assert forall j :: 0 <= j < |s.signUps| && j != k ==> s'.signUps[j] == s.signUps[j];
    hide Insert, Founded, Apply;
    if reply.Created? {
      assert s' == s.(db := db', created := s.created + [reply.id]).(signUps := s'.signUps);
      FoundedIgnoresSignUps(s.(db := db', created := s.created + [reply.id]), s'.signUps);
    } else {
      assert s' == s.(signUps := s'.signUps);
      FoundedIgnoresSignUps(s, s'.signUps);
    }
    SizeGrows(s, s');
  }

  lemma FoundedIgnoresSignUps(s: System, signUps: seq<SignUp>)
    requires Founded(s)
    ensures Founded(s.(signUps := signUps))
  {
  }

  lemma SizeGrows(s: System, s': System)
    requires Founded(s) && Founded(s') && |s.created| <= |s'.created|
    ensures |s.db.accounts| <= |s'.db.accounts|
  {
  }

  lemma OthersKeep(s: System, open: bool, ev: Event)
    requires Invariant(s, open) && !ev.Advance?
    ensures Invariant(Apply(s, open, ev), open)
  {
    var s' := Apply(s, open, ev);
    if ev.Arrive? {
      assert s'.db == s.db && s'.signUps == s.signUps + [SignUp(ev.username, None, Counting)];
      assert SignUpOk(s.db, open, SignUp(ev.username, None, Counting));
      hide SignUpOk;
    } else {
      CreditsKeepPeople(s, open, ev);
      SameSize(s.db, s'.db);
      assert s'.signUps == s.signUps && s'.created == s.created;
      hide Apply;
      forall k | 0 <= k < |s.signUps| ensures SignUpOk(s'.db, open, s'.signUps[k]) {
        SignUpStays(s.db, s'.db, open, s.signUps[k]);
      }
    }
  }

  lemma SignUpStays(db: Db, db': Db, open: bool, u: SignUp)
    requires SamePeople(db, db') && SignUpOk(db, open, u)
    ensures SignUpOk(db', open, u)
  {
    SameSize(db, db');
    if u.account.Some? {
      var a := u.account.value;
      assert db'.accounts.Keys == db.accounts.Keys && a in db'.accounts.Keys;
      assert db'.accounts[a].username == db.accounts[a].username;
    }
  }

  lemma {:induction false} RunKeeps(open: bool, es: seq<Event>)
    ensures Invariant(Run(open, es), open)
  {
    if es != [] {
      RunKeeps(open, es[..|es| - 1]);
      var s, ev := Run(open, es[..|es| - 1]), es[|es| - 1];
      hide Invariant;
      match ev
      case Advance(k, fails) => AdvanceKeeps(s, open, k, fails);
      case _ => OthersKeep(s, open, ev);
    }
  }

  // ---------------------------------------------------------------- main results

  /** However sign-ups interleave, once there is an account exactly one is an administrator: the first inserted. */
  lemma {:induction false} SingleBootstrapAdmin(open: bool, es: seq<Event>)
    ensures var s := Run(open, es);
      |s.db.accounts| > 0 ==>
        s.created != [] && forall a :: a in s.db.accounts ==> (s.db.accounts[a].role == Admin <==> a == s.created[0])
    ensures var s := Run(open, es);
      forall a :: a in s.db.accounts <==> a in s.created
  {
    RunKeeps(open, es);
    var s := Run(open, es);
    forall a | a in s.db.accounts ensures a in s.created {
      assert s.created[a - 1] == a;
    }
  }

  /** With open registration off there is never a second account. */
  lemma {:induction false} ClosedMeansOneAccount(es: seq<Event>)
    ensures |Run(false, es).db.accounts| <= 1
  {
    RunKeeps(false, es);
  }

  /**
   A sign-up whose insert went through has that account, under its own name, and no other sign-up has it. A
   sign-up answered with an account is one of these.
   */
  lemma {:induction false} CreatedMeansOwned(open: bool, es: seq<Event>, k: nat)
    requires k < |Run(open, es).signUps|
    ensures var s := Run(open, es);
      var u := s.signUps[k];
      (u.pc.Done? && u.pc.reply.Created? ==> u.account == Some(u.pc.reply.id)) &&
      (u.account.Some? ==>
        u.account.value in s.db.accounts && s.db.accounts[u.account.value].username == u.username &&
        forall j :: 0 <= j < |s.signUps| && j != k ==> s.signUps[j].account != u.account)
  {
    RunKeeps(open, es);
    var s := Run(open, es);
    assert SignUpOk(s.db, open, s.signUps[k]);
    forall j | 0 <= j < |s.signUps| && j != k && s.signUps[k].account.Some?
      ensures s.signUps[j].account != s.signUps[k].account
    {
      var a, b := if j < k then j else k, if j < k then k else j;
      assert s.signUps[a].account.Some? ==> s.signUps[a].account != s.signUps[b].account;
    }
  }

  predicate HasName(db: Db, username: string) {
    exists a :: a in db.accounts && db.accounts[a].username == username
  }

  /** "Name taken" is also what the loser of the race for the first account hears, whatever its name. */
  lemma NameTakenIff(db: Db, username: string, counted: nat)
    ensures Insert(db, username, counted).1 == NameTaken
       <==> HasName(db, username) || (counted == 0 && |db.accounts| > 0)
  {
    if HasName(db, username) {
      var a :| a in db.accounts && db.accounts[a].username == username;
      assert a in db.accounts.Keys && |db.accounts.Keys| > 0;
    }
  }

  lemma RunSnoc(open: bool, es: seq<Event>, ev: Event)
    ensures Run(open, es + [ev]) == Apply(Run(open, es), open, ev)
  {
    assert (es + [ev])[..|es|] == es;
  }

  /** Two first sign-ups with different names: the loser hears that its free name is taken. */
  lemma RaceLoserIsMisled(open: bool, a: string, b: string)
    requires a != b
    ensures
      var es := [Arrive(a), Arrive(b), Advance(0, false), Advance(1, false), Advance(0, false), Advance(1, false)];
      var s := Run(open, es);
      |s.signUps| == 2 && s.signUps[1] == SignUp(b, None, Done(NameTaken)) && !HasName(s.db, b)
  {
    var es := [Arrive(a), Arrive(b), Advance(0, false), Advance(1, false), Advance(0, false), Advance(1, false)];
    var two := [Arrive(a), Arrive(b)];
    assert [] + [Arrive(a)] == [Arrive(a)] && [Arrive(a)] + [Arrive(b)] == two;
    RunSnoc(open, [], Arrive(a));
    RunSnoc(open, [Arrive(a)], Arrive(b));
    RunSnoc(open, two, Advance(0, false));
    RunSnoc(open, two + [Advance(0, false)], Advance(1, false));
    var counted := two + [Advance(0, false)] + [Advance(1, false)];
    var waiting := System(EMPTY, [SignUp(a, None, Inserting(0)), SignUp(b, None, Inserting(0))], []);
    assert Run(open, counted) == waiting;
    RunSnoc(open, counted, Advance(0, false));
    RunSnoc(open, counted + [Advance(0, false)], Advance(1, false));
    assert counted + [Advance(0, false)] + [Advance(1, false)] == es;
    var db := EMPTY.(accounts := map[1 := Account(a, Admin, 0)], nextAccount := 2);
    assert Insert(EMPTY, a, 0) == (db, Created(1));
    assert Insert(db, b, 0) == (db, NameTaken);
  }

  /** A session that cannot be issued: the client hears of an error, yet the account exists. */
  lemma AccountWithoutAnswer(open: bool, name: string)
    ensures var s := Run(open, [Arrive(name), Advance(0, false), Advance(0, false), Advance(0, true)]);
      s.signUps == [SignUp(name, Some(1), Done(Internal))] && s.db.accounts == map[1 := Account(name, Admin, 0)]
  {
    var a := [Arrive(name)];
    var b := a + [Advance(0, false)];
    var c := b + [Advance(0, false)];
    assert [] + [Arrive(name)] == a;
    RunSnoc(open, [], Arrive(name));
    RunSnoc(open, a, Advance(0, false));
    RunSnoc(open, b, Advance(0, false));
    RunSnoc(open, c, Advance(0, true));
    assert c + [Advance(0, true)] == [Arrive(name), Advance(0, false), Advance(0, false), Advance(0, true)];
    assert Run(open, b) == System(EMPTY, [SignUp(name, None, Inserting(0))], []);
    assert Insert(EMPTY, name, 0) ==
      (EMPTY.(accounts := map[1 := Account(name, Admin, 0)], nextAccount := 2), Created(1));
  }

  // ---------------------------------------------------------------- accounts nobody was told of

  /** Event i is the next step of sign-up k, which stands at the given point. */
  ghost predicate StepsAt(open: bool, es: seq<Event>, k: nat, i: nat, fails: bool) {
    i < |es| && es[i] == Advance(k, fails) && k < |Run(open, es[..i]).signUps|
  }

  /** At event i sign-up k has its account and fails to get its session. */
  ghost predicate LosesSession(open: bool, es: seq<Event>, k: nat, i: nat) {
    StepsAt(open, es, k, i, true) && Run(open, es[..i]).signUps[k].pc.Issuing?
  }

  /** At event i the insert of sign-up k goes through. */
  ghost predicate Inserts(open: bool, es: seq<Event>, k: nat, i: nat) {
    StepsAt(open, es, k, i, false) && Run(open, es[..i]).signUps[k].pc.Inserting? &&
    var s := Run(open, es[..i]);
    Insert(s.db, s.signUps[k].username, s.signUps[k].pc.counted).1.Created?
  }

  /** What the answer to a sign-up leaves out. */
  predicate Untold(u: SignUp) {
    u.pc.Done? && !u.pc.reply.Created? && u.account.Some?
  }

  /** What one event does to sign-up k. */
  lemma SignUpMoves(s: System, open: bool, ev: Event, k: nat)
    requires k < |Apply(s, open, ev).signUps|
    ensures if k >= |s.signUps| then
              Apply(s, open, ev).signUps[k].pc.Counting? && Apply(s, open, ev).signUps[k].account.None?
            else if ev.Advance? && ev.k == k then
              Apply(s, open, ev).signUps[k] == Step(s.db, s.signUps[k], open, ev.fails).1
            else Apply(s, open, ev).signUps[k] == s.signUps[k]
  {
    hide Step, Post, RedeemCode, InsertCodes;
  }

  /** How one step of a sign-up changes what it has and what it was told. */
  lemma StepTells(db: Db, u: SignUp, open: bool, fails: bool)
    requires SignUpOk(db, open, u)
    ensures var u' := Step(db, u, open, fails).1;
      (Untold(u') <==> (Untold(u) || (u.pc.Issuing? && fails))) &&
      (u'.account.Some? <==>
        (u.account.Some? || (u.pc.Inserting? && !fails && Insert(db, u.username, u.pc.counted).1.Created?)))
  {
    hide Insert;
  }

  ghost predicate EverLoses(open: bool, es: seq<Event>, k: nat) {
    exists i: nat :: LosesSession(open, es, k, i)
  }

  ghost predicate EverInserts(open: bool, es: seq<Event>, k: nat) {
    exists i: nat :: Inserts(open, es, k, i)
  }

  lemma SameEvent(open: bool, es: seq<Event>, n: nat, k: nat, i: nat)
    requires i < n < |es|
    ensures LosesSession(open, es[..n + 1], k, i) == LosesSession(open, es[..n], k, i)
    ensures Inserts(open, es[..n + 1], k, i) == Inserts(open, es[..n], k, i)
  {
    assert es[..n + 1][..i] == es[..i] == es[..n][..i];
    hide Run, Insert;
  }

  /** A longer run has the events of the shorter one, and its own last one. */
  lemma {:induction false} OneMoreEvent(open: bool, es: seq<Event>, n: nat, k: nat)
    requires n < |es|
    ensures EverLoses(open, es[..n + 1], k) <==> (EverLoses(open, es[..n], k) || LosesSession(open, es[..n + 1], k, n))
    ensures EverInserts(open, es[..n + 1], k) <==> (EverInserts(open, es[..n], k) || Inserts(open, es[..n + 1], k, n))
  {
    hide Run, Insert;
    var a, b := es[..n], es[..n + 1];
    if EverLoses(open, b, k) {
      var i: nat :| LosesSession(open, b, k, i);
      if i < n {
        SameEvent(open, es, n, k, i);
      }
    }
    if EverLoses(open, a, k) {
      var i: nat :| LosesSession(open, a, k, i);
      SameEvent(open, es, n, k, i);
      assert LosesSession(open, b, k, i);
    }
    if EverInserts(open, b, k) {
      var i: nat :| Inserts(open, b, k, i);
      if i < n {
        SameEvent(open, es, n, k, i);
      }
    }
    if EverInserts(open, a, k) {
      var i: nat :| Inserts(open, a, k, i);
      SameEvent(open, es, n, k, i);
      assert Inserts(open, b, k, i);
    }
  }

  lemma {:induction false} SignUpsGrow(open: bool, es: seq<Event>, i: nat)
    requires i <= |es|
    ensures |Run(open, es[..i]).signUps| <= |Run(open, es).signUps|
  {
    if i < |es| {
      var n := |es| - 1;
      assert es[..n][..i] == es[..i];
      SignUpsGrow(open, es[..n], i);
    } else {
      assert es[..i] == es;
    }
  }

  lemma {:induction false} NothingYet(open: bool, es: seq<Event>, k: nat)
    requires k >= |Run(open, es).signUps|
    ensures !EverLoses(open, es, k) && !EverInserts(open, es, k)
  {
    forall i: nat | i < |es| ensures |Run(open, es[..i]).signUps| <= k {
      SignUpsGrow(open, es, i);
    }
  }

  /**
   In every run: a finished sign-up has an account its client was not told of exactly if its session failed to
   be issued at some event of its own; and any sign-up has an account exactly if its insert went through.
   */
  lemma {:induction false} UntoldIff(open: bool, es: seq<Event>, k: nat)
    requires k < |Run(open, es).signUps|
    ensures Untold(Run(open, es).signUps[k]) <==> exists i: nat :: LosesSession(open, es, k, i)
    ensures Run(open, es).signUps[k].account.Some? <==> exists i: nat :: Inserts(open, es, k, i)
  {
    if es != [] {
      var n := |es| - 1;
      var s := Run(open, es[..n]);
      assert es[..n + 1] == es && Run(open, es) == Apply(s, open, es[n]);
      SignUpMoves(s, open, es[n], k);
      OneMoreEvent(open, es, n, k);
      if k < |s.signUps| {
        UntoldIff(open, es[..n], k);
        RunKeeps(open, es[..n]);
        LastStepTells(open, es, k);
      } else {
        NothingYet(open, es[..n], k);
      }
    }
  }

  lemma {:induction false} LastStepTells(open: bool, es: seq<Event>, k: nat)
    requires es != []
    requires var s := Run(open, es[..|es| - 1]); k < |s.signUps| && SignUpOk(s.db, open, s.signUps[k])
    requires k < |Run(open, es).signUps|
    ensures var n := |es| - 1;
      var u, u' := Run(open, es[..n]).signUps[k], Run(open, es).signUps[k];
      (Untold(u') <==> (Untold(u) || LosesSession(open, es, k, n))) &&
      (u'.account.Some? <==> (u.account.Some? || Inserts(open, es, k, n)))
  {
    var n := |es| - 1;
    var s, ev := Run(open, es[..n]), es[n];
    assert Run(open, es) == Apply(s, open, ev);
    SignUpMoves(s, open, ev, k);
    if ev.Advance? && ev.k == k {
      StepTells(s.db, s.signUps[k], open, ev.fails);
    }
    hide Apply, Step, Insert, Run;
  }
}
