/**
 The money tables of the store and the transactions on them (internal/store/store.go). A transaction
 is a function from the old tables to the new ones and its answer; a rolled-back one returns the old
 tables. Amounts are micro-credits.
 */
module Ledger {
  import opened Wrappers
  import opened Seqs

  datatype Reason = Adjust | Redeem | Hold | Settle

  /** Who wrote the row: nobody in particular, a call under its request id, or a redemption. */
  datatype Ref = NoRef | CallRef(request: string) | CodeRef(code: nat)

  datatype Entry = Entry(account: int, delta: int, balance: int, reason: Reason, ref: Ref)

  datatype Role = Admin | User

  datatype Account = Account(username: string, role: Role, credits: int)

  datatype Redemption = Redemption(account: int, at: int)

  datatype Code = Code(hash: string, credits: int, redeemed: Option<Redemption>)

  datatype Error = NotFound | Conflict | InsufficientCredits | RedeemUsed | BadCredits | Io

  datatype Db = Db(accounts: map<int, Account>, nextAccount: int, ledger: seq<Entry>, codes: seq<Code>)

  const EMPTY := Db(map[], 1, [], [])

  // ---------------------------------------------------------------- transactions

  /** The body of postCreditTx: change one balance and append one ledger row, or refuse. */
  function Post(db: Db, id: int, delta: int, allowNegative: bool, reason: Reason, ref: Ref): (Db, Result<int, Error>) {
    if id !in db.accounts then (db, Err(NotFound))
    else
      var next := db.accounts[id].credits + delta;
      if next < 0 && !allowNegative then (db, Err(InsufficientCredits))
      else
        var rows := if delta != 0 then [Entry(id, delta, next, reason, ref)] else [];
        (db.(accounts := db.accounts[id := db.accounts[id].(credits := next)], ledger := db.ledger + rows), Ok(next))
  }

  function SettleUsage(db: Db, account: int, hold: int, cost: int, ref: Ref, ok: bool): (Db, Result<int, Error>) {
    var target := if ok then cost else 0;
    match Post(db, account, -(target - hold), false, Settle, ref)
    case (db', Ok(_)) => (db', Ok(target))
    case (_, Err(e)) => (db, Err(e))
  }

  /** Position of the code with this hash. */
  function FindCode(codes: seq<Code>, hash: string): Option<nat> {
    if codes == [] then None
    else if codes[|codes| - 1].hash == hash then Some(|codes| - 1)
    else FindCode(codes[..|codes| - 1], hash)
  }

  function RedeemCode(db: Db, hash: string, account: int, now: int): (Db, Result<(int, int), Error>) {
    match FindCode(db.codes, hash)
    case None => (db, Err(NotFound))
    case Some(k) =>
      if k >= |db.codes| then (db, Err(NotFound))
      else if db.codes[k].redeemed.Some? then (db, Err(RedeemUsed))
      else
        var marked := db.(codes := db.codes[k := db.codes[k].(redeemed := Some(Redemption(account, now)))]);
        match Post(marked, account, db.codes[k].credits, true, Redeem, CodeRef(k))
        case (db', Ok(next)) => (db', Ok((db.codes[k].credits, next)))
        case (_, Err(e)) => (db, Err(e))
  }

  /** All of the batch or none of it: a non-positive amount or a known hash rolls everything back. */
  function InsertCodes(db: Db, items: seq<(string, int)>): (Db, Result<(), Error>) {
    if items == [] then (db, Ok(()))
    else
      var (hash, credits) := items[|items| - 1];
      match InsertCodes(db, items[..|items| - 1])
      case (_, Err(e)) => (db, Err(e))
      case (mid, Ok(_)) =>
        if credits <= 0 then (db, Err(BadCredits))
        else if FindCode(mid.codes, hash).Some? then (db, Err(Conflict))
        else (mid.(codes := mid.codes + [Code(hash, credits, None)]), Ok(()))
  }

  /** A new account with no credits. onlyIfEmpty makes it the bootstrap insert. */
  function InsertAccount(db: Db, username: string, role: Role, onlyIfEmpty: bool): (Db, Result<int, Error>) {
    if onlyIfEmpty && |db.accounts| > 0 then (db, Err(Conflict))
    else if exists a :: a in db.accounts && db.accounts[a].username == username then (db, Err(Conflict))
    else
      (db.(accounts := db.accounts[db.nextAccount := Account(username, role, 0)], nextAccount := db.nextAccount + 1),
       Ok(db.nextAccount))
  }

  // ---------------------------------------------------------------- what the tables mean

  function Credits(db: Db, a: int): int {
    if a in db.accounts then db.accounts[a].credits else 0
  }

  /** What e adds to the balance of account a. */
  function DeltaOf(a: int): Entry -> int {
    (e: Entry) => if e.account == a then e.delta else 0
  }

  /** What e adds to the balance of a from outside: adjustments and redeemed codes. */
  function FundOf(a: int): Entry -> int {
    (e: Entry) => if e.account == a && (e.reason == Adjust || e.reason == Redeem) then e.delta else 0
  }

  function RedeemOf(a: int): Entry -> int {
    (e: Entry) => if e.account == a && e.reason == Redeem then e.delta else 0
  }

  /** What e adds under a call reference, whatever the account. */
  function CallOf(request: string): Entry -> int {
    (e: Entry) => if e.ref == CallRef(request) then e.delta else 0
  }

  function CodeOf(a: int): Code -> int {
    (c: Code) => if c.redeemed.Some? && c.redeemed.value.account == a then c.credits else 0
  }

  /** The ledger rows of one account in id order. */
  function Rows(ledger: seq<Entry>, a: int): seq<Entry> {
    if ledger == [] then []
    else
      var e := ledger[|ledger| - 1];
      Rows(ledger[..|ledger| - 1], a) + (if e.account == a then [e] else [])
  }

  /** The balance after the last of an account's rows, 0 before the first. */
  function EndBalance(rows: seq<Entry>): int {
    if rows == [] then 0 else rows[|rows| - 1].balance
  }

  /** Rows in id order: no empty row, every balance is the previous one plus the delta, starting from 0. */
  ghost predicate Chain(rows: seq<Entry>) {
    rows == [] ||
    var rest, e := rows[..|rows| - 1], rows[|rows| - 1];
    Chain(rest) && e.delta != 0 && e.balance == EndBalance(rest) + e.delta
  }

  /** An account's chain is sound and ends at the balance stored in the account row. */
  ghost predicate AccountOk(db: Db, a: int) {
    Chain(Rows(db.ledger, a)) && Credits(db, a) == EndBalance(Rows(db.ledger, a))
  }

  /** What every transaction keeps. */
  ghost predicate DbOk(db: Db) {
    (forall a :: AccountOk(db, a)) &&
    (forall a :: a in db.accounts ==> 0 < a < db.nextAccount) && db.nextAccount > 0 &&
    (forall c :: c in db.codes ==> c.credits > 0) &&
    (forall i, j :: 0 <= i < j < |db.codes| ==> db.codes[i].hash != db.codes[j].hash) &&
    (forall a :: SumBy(db.ledger, RedeemOf(a)) == SumBy(db.codes, CodeOf(a)))
  }

  // ---------------------------------------------------------------- every transaction keeps them

  lemma RowsAppend(ledger: seq<Entry>, e: Entry, a: int)
    ensures Rows(ledger + [e], a) == Rows(ledger, a) + (if e.account == a then [e] else [])
  {
    assert (ledger + [e])[..|ledger|] == ledger;
  }

  lemma {:induction false} PostKeepsAccount(
    db: Db, id: int, delta: int, allowNegative: bool, reason: Reason, ref: Ref, a: int)
    requires AccountOk(db, a)
    ensures AccountOk(Post(db, id, delta, allowNegative, reason, ref).0, a)
  {
    var (db', r) := Post(db, id, delta, allowNegative, reason, ref);
    var rows := Rows(db.ledger, a);
    if r.Err? || delta == 0 {
      assert db'.ledger == db.ledger;
    } else {
      var e := Entry(id, delta, r.value, reason, ref);
      assert db'.ledger == db.ledger + [e] && Credits(db', a) == if a == id then r.value else Credits(db, a);
      hide Post, Credits;
      RowsAppend(db.ledger, e, a);
      if a == id {
        assert r.value == Credits(db, a) + delta;
        ChainAppend(rows, e);
      } else {
        assert Rows(db'.ledger, a) == rows;
      }
    }
  }

  /** A new row extends its account's chain exactly if it moves the balance and shows the running sum. */
  lemma ChainExtendsIff(ledger: seq<Entry>, e: Entry, a: int)
    requires Chain(Rows(ledger, a))
    ensures Chain(Rows(ledger + [e], a)) <==>
      e.account != a || (e.delta != 0 && e.balance == EndBalance(Rows(ledger, a)) + e.delta)
  {
    RowsAppend(ledger, e, a);
    var rows := Rows(ledger, a);
    if e.account == a {
      assert (rows + [e])[..|rows|] == rows;
    } else {
      assert rows + [] == rows;
    }
  }

  lemma ChainAppend(rows: seq<Entry>, e: Entry)
    requires Chain(rows) && e.delta != 0 && e.balance == EndBalance(rows) + e.delta
    ensures Chain(rows + [e]) && EndBalance(rows + [e]) == e.balance
  {
    assert (rows + [e])[..|rows|] == rows;
  }

  lemma PostKeepsAccounts(db: Db, id: int, delta: int, allowNegative: bool, reason: Reason, ref: Ref)
    requires forall a :: AccountOk(db, a)
    ensures forall a :: AccountOk(Post(db, id, delta, allowNegative, reason, ref).0, a)
  {
    forall a ensures AccountOk(Post(db, id, delta, allowNegative, reason, ref).0, a) {
      PostKeepsAccount(db, id, delta, allowNegative, reason, ref, a);
    }
  }

  /** How any ledger total moves: by the one row a committed non-zero posting appends. */
  lemma PostTotal(db: Db, id: int, delta: int, allowNegative: bool, reason: Reason, ref: Ref, f: Entry -> int)
    ensures var (db', r) := Post(db, id, delta, allowNegative, reason, ref);
      SumBy(db'.ledger, f) == SumBy(db.ledger, f) +
        (if r.Ok? && delta != 0 then f(Entry(id, delta, r.value, reason, ref)) else 0)
  {
    var (db', r) := Post(db, id, delta, allowNegative, reason, ref);
    if r.Ok? && delta != 0 {
      SumByAppend(db.ledger, Entry(id, delta, r.value, reason, ref), f);
    } else {
      assert db'.ledger == db.ledger;
    }
  }

  lemma PostKeeps(db: Db, id: int, delta: int, allowNegative: bool, reason: Reason, ref: Ref)
    requires DbOk(db) && reason != Redeem
    ensures DbOk(Post(db, id, delta, allowNegative, reason, ref).0)
  {
    var (db', r) := Post(db, id, delta, allowNegative, reason, ref);
    PostKeepsAccounts(db, id, delta, allowNegative, reason, ref);
    forall a ensures SumBy(db'.ledger, RedeemOf(a)) == SumBy(db'.codes, CodeOf(a)) {
      PostTotal(db, id, delta, allowNegative, reason, ref, RedeemOf(a));
      assert SumBy(db.ledger, RedeemOf(a)) == SumBy(db.codes, CodeOf(a));
    }
  }

  lemma SettleKeeps(db: Db, account: int, hold: int, cost: int, ref: Ref, ok: bool)
    requires DbOk(db)
    ensures DbOk(SettleUsage(db, account, hold, cost, ref, ok).0)
  {
    PostKeeps(db, account, -((if ok then cost else 0) - hold), false, Settle, ref);
  }

  lemma {:induction false} FoundCode(codes: seq<Code>, hash: string)
    ensures match FindCode(codes, hash)
            case Some(k) => k < |codes| && codes[k].hash == hash
            case None => forall c :: c in codes ==> c.hash != hash
  {
    if codes != [] {
      FoundCode(codes[..|codes| - 1], hash);
    }
  }

  lemma RedeemKeeps(db: Db, hash: string, account: int, now: int)
    requires DbOk(db)
    ensures DbOk(RedeemCode(db, hash, account, now).0)
  {
    FoundCode(db.codes, hash);
    var (db', r) := RedeemCode(db, hash, account, now);
    if r.Ok? {
      var k := FindCode(db.codes, hash).value;
      var code := db.codes[k].(redeemed := Some(Redemption(account, now)));
      var marked := db.(codes := db.codes[k := code]);
      forall a ensures AccountOk(marked, a) { assert AccountOk(db, a); }
      PostKeepsAccounts(marked, account, code.credits, true, Redeem, CodeRef(k));
      forall a ensures SumBy(db'.ledger, RedeemOf(a)) == SumBy(db'.codes, CodeOf(a)) {
        PostTotal(marked, account, code.credits, true, Redeem, CodeRef(k), RedeemOf(a));
        SumByUpdate(db.codes, k, code, CodeOf(a));
        assert SumBy(db.ledger, RedeemOf(a)) == SumBy(db.codes, CodeOf(a));
      }
    }
  }

  lemma {:induction false} InsertCodesKeeps(db: Db, items: seq<(string, int)>)
    requires DbOk(db)
    ensures DbOk(InsertCodes(db, items).0)
    ensures InsertCodes(db, items).0.(codes := db.codes) == db
  {
    if items != [] {
      InsertCodesKeeps(db, items[..|items| - 1]);
      if InsertCodes(db, items).1.Ok? {
        var (hash, credits) := items[|items| - 1];
        AddCodeKeeps(InsertCodes(db, items[..|items| - 1]).0, hash, credits);
      }
    }
  }

  lemma AddCodeKeeps(db: Db, hash: string, credits: int)
    requires DbOk(db) && credits > 0 && FindCode(db.codes, hash).None?
    ensures DbOk(db.(codes := db.codes + [Code(hash, credits, None)]))
  {
    FoundCode(db.codes, hash);
    var code := Code(hash, credits, None);
    var db' := db.(codes := db.codes + [code]);
    forall a ensures AccountOk(db', a) { assert AccountOk(db, a); }
    forall a ensures SumBy(db'.ledger, RedeemOf(a)) == SumBy(db'.codes, CodeOf(a)) {
      SumByAppend(db.codes, code, CodeOf(a));
      assert SumBy(db.ledger, RedeemOf(a)) == SumBy(db.codes, CodeOf(a));
    }
  }

  lemma InsertAccountKeeps(db: Db, username: string, role: Role, onlyIfEmpty: bool)
    requires DbOk(db)
    ensures DbOk(InsertAccount(db, username, role, onlyIfEmpty).0)
    ensures forall a :: Credits(InsertAccount(db, username, role, onlyIfEmpty).0, a) == Credits(db, a)
    ensures InsertAccount(db, username, role, onlyIfEmpty).0.ledger == db.ledger
  {
    var (db', r) := InsertAccount(db, username, role, onlyIfEmpty);
    forall a ensures AccountOk(db', a) {
      assert AccountOk(db, a);
    }
  }

  /** A sound chain makes the stored balance the sum of all the account's ledger rows. */
  lemma CreditsAreLedgerSum(db: Db, a: int)
    requires AccountOk(db, a)
    ensures Credits(db, a) == SumBy(db.ledger, DeltaOf(a))
  {
    ChainSums(db.ledger, a);
  }

  lemma {:induction false} ChainSums(ledger: seq<Entry>, a: int)
    requires Chain(Rows(ledger, a))
    ensures SumBy(ledger, DeltaOf(a)) == EndBalance(Rows(ledger, a))
  {
    if ledger != [] {
      var rest, e := ledger[..|ledger| - 1], ledger[|ledger| - 1];
      var rows := Rows(rest, a);
      if e.account == a {
        assert (rows + [e])[..|rows|] == rows;
      } else {
        assert rows + [] == rows;
      }
      ChainSums(rest, a);
    }
  }

  // ---------------------------------------------------------------- refusals

  /** A posting that may not go negative commits exactly when the account exists and can bear it. */
  lemma PostCommitsIff(db: Db, id: int, delta: int, reason: Reason, ref: Ref)
    ensures var (db', r) := Post(db, id, delta, false, reason, ref);
      (r.Ok? <==> id in db.accounts && Credits(db, id) + delta >= 0) &&
      (r.Ok? ==> Credits(db', id) == Credits(db, id) + delta == r.value >= 0) &&
      (r.Ok? ==> db'.ledger == db.ledger + if delta == 0 then [] else [Entry(id, delta, r.value, reason, ref)]) &&
      (r.Err? ==> db' == db) &&
      (forall b :: b != id ==> Credits(db', b) == Credits(db, b))
  {
  }

  /**
   A settlement is refused, and the hold kept, exactly when the account is gone or its balance after
   the settlement would be negative. For a failed call that means a balance below -1 at that moment,
   which only a debit by an administrator can produce; for a successful one, a cost above balance + hold.
   */
  lemma SettleRefusedIff(db: Db, account: int, hold: int, cost: int, ref: Ref, ok: bool)
    ensures var (db', r) := SettleUsage(db, account, hold, cost, ref, ok);
      (r.Err? <==> account !in db.accounts || Credits(db, account) + hold < (if ok then cost else 0)) &&
      (r.Err? ==> db' == db) &&
      (r.Ok? ==>
        r.value == (if ok then cost else 0) && Credits(db', account) == Credits(db, account) + hold - r.value &&
        db'.ledger == db.ledger +
          if hold == r.value then [] else [Entry(account, hold - r.value, Credits(db', account), Settle, ref)]) &&
      (forall b :: b != account ==> Credits(db', b) == Credits(db, b))
  {
  }

  /**
   The documented "when the balance covers one call, a concurrent second one gets 402" holds exactly when
   the balance is 1: the hold reserves one micro-credit, not the price. With any larger balance both calls
   are admitted, and if each costs that whole balance neither settlement goes through: both pay 1.
   */
  lemma SecondHoldRefusedIff(db: Db, a: int, j: string, k: string)
    requires a in db.accounts && Credits(db, a) >= 1
    ensures var (db1, r1) := Post(db, a, -1, false, Hold, CallRef(j));
      var (db2, r2) := Post(db1, a, -1, false, Hold, CallRef(k));
      r1.Ok? && (r2.Err? <==> Credits(db, a) == 1) &&
      (r2.Ok? ==> SettleUsage(db2, a, 1, Credits(db, a), CallRef(j), true).1 == Err(InsufficientCredits) &&
                  SettleUsage(db2, a, 1, Credits(db, a), CallRef(k), true).1 == Err(InsufficientCredits))
  {
  }
}
