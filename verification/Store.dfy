/**
 The store itself: mutable tables, one method per transaction or statement. Each method is proved
 against the pure transaction of the same name; a rollback restores every table the transaction touched.
 An I/O failure of the database (`broken`) aborts before anything is committed.
 */
module Store {
  import opened Wrappers
  import opened Tables
  import Auth = Authentication
  import Ledger

  class Store {
    var accounts: map<int, Ledger.Account>
    var nextAccount: int
    var ledger: seq<Ledger.Entry>
    var codes: seq<Ledger.Code>
    var logs: seq<UsageLog>
    var upstreams: seq<Upstream>
    var proxies: seq<Proxy>
    var tokens: map<int, int>
    var userKeys: seq<Auth.UserKey>

    function Money(): Ledger.Db
      reads this
    {
      Ledger.Db(accounts, nextAccount, ledger, codes)
    }

    constructor ()
      ensures Money() == Ledger.EMPTY && logs == [] && upstreams == [] && proxies == [] && tokens == map[]
      ensures userKeys == []
    {
      accounts, nextAccount, ledger, codes := map[], 1, [], [];
      logs, upstreams, proxies, tokens, userKeys := [], [], [], map[], [];
    }

    method PostCreditTx(id: int, delta: int, allowNegative: bool, reason: Ledger.Reason, ref: Ledger.Ref)
      returns (r: Result<int, Ledger.Error>)
      modifies this`accounts, this`ledger
      ensures (Money(), r) == Ledger.Post(old(Money()), id, delta, allowNegative, reason, ref)
    {
      if id !in accounts {
        return Err(Ledger.NotFound);
      }
      var next := accounts[id].credits + delta;
      if next < 0 && !allowNegative {
        return Err(Ledger.InsufficientCredits);
      }
      accounts := accounts[id := accounts[id].(credits := next)];
      if delta != 0 {
        InsertLedger(id, delta, next, reason, ref);
      }
      assert ledger == old(ledger) + (if delta != 0 then [Ledger.Entry(id, delta, next, reason, ref)] else []);
      return Ok(next);
    }

    method InsertLedger(account: int, delta: int, balance: int, reason: Ledger.Reason, ref: Ledger.Ref)
      modifies this`ledger
      ensures ledger == old(ledger) + [Ledger.Entry(account, delta, balance, reason, ref)]
      ensures forall a :: Ledger.Chain(old(Ledger.Rows(ledger, a))) ==>
        (Ledger.Chain(Ledger.Rows(ledger, a)) <==>
         a != account || (delta != 0 && balance == Ledger.EndBalance(old(Ledger.Rows(ledger, a))) + delta))
    {
      var e := Ledger.Entry(account, delta, balance, reason, ref);
      forall a | Ledger.Chain(Ledger.Rows(ledger, a))
        ensures Ledger.Chain(Ledger.Rows(ledger + [e], a)) <==>
          a != account || (delta != 0 && balance == Ledger.EndBalance(Ledger.Rows(ledger, a)) + delta)
      {
        Ledger.ChainExtendsIff(ledger, e, a);
      }
      ledger := ledger + [e];
    }

    method PostCredit(id: int, delta: int, allowNegative: bool, reason: Ledger.Reason, ref: Ledger.Ref, broken: bool)
      returns (r: Result<int, Ledger.Error>)
      modifies this`accounts, this`ledger
      ensures broken ==> Money() == old(Money()) && r == Err(Ledger.Io)
      ensures !broken ==> (Money(), r) == Ledger.Post(old(Money()), id, delta, allowNegative, reason, ref)
    {
      if broken {
        return Err(Ledger.Io);
      }
      r := PostCreditTx(id, delta, allowNegative, reason, ref);
    }

    method SettleUsage(account: int, hold: int, cost: int, ref: Ledger.Ref, ok: bool, broken: bool)
      returns (r: Result<int, Ledger.Error>)
      modifies this`accounts, this`ledger
      ensures broken ==> Money() == old(Money()) && r == Err(Ledger.Io)
      ensures !broken ==> (Money(), r) == Ledger.SettleUsage(old(Money()), account, hold, cost, ref, ok)
    {
      if broken {
        return Err(Ledger.Io);
      }
      var target := 0;
      if ok {
        target := cost;
      }
      var delta := -(target - hold);
      var posted := PostCreditTx(account, delta, false, Ledger.Settle, ref);
      if posted.Err? {
        return Err(posted.error);
      }
      return Ok(target);
    }

    method RedeemCode(hash: string, account: int, now: int) returns (r: Result<(int, int), Ledger.Error>)
      modifies this`accounts, this`ledger, this`codes
      ensures (Money(), r) == Ledger.RedeemCode(old(Money()), hash, account, now)
    {
      var found := Ledger.FindCode(codes, hash);
      Ledger.FoundCode(codes, hash);
      if found.None? {
        return Err(Ledger.NotFound);
      }
      var k := found.value;
      if codes[k].redeemed.Some? {
        return Err(Ledger.RedeemUsed);
      }
      var credits := codes[k].credits;
      var before := codes;
      codes := codes[k := codes[k].(redeemed := Some(Ledger.Redemption(account, now)))];
      var posted := PostCreditTx(account, credits, true, Ledger.Redeem, Ledger.CodeRef(k));
      if posted.Err? {
        codes := before; // rollback
        return Err(posted.error);
      }
      return Ok((credits, posted.value));
    }

    method InsertRedeemCodes(items: seq<(string, int)>) returns (r: Result<(), Ledger.Error>)
      modifies this`codes
      ensures (Money(), r) == Ledger.InsertCodes(old(Money()), items)
    {
      var before := codes;
      var i := 0;
      while i < |items|
        invariant 0 <= i <= |items|
        invariant (Money(), Ok(())) == Ledger.InsertCodes(old(Money()), items[..i])
        invariant Money().(codes := before) == old(Money())
      {
        var (hash, credits) := items[i];
        assert items[..i + 1][..i] == items[..i];
        if credits <= 0 || Ledger.FindCode(codes, hash).Some? {
          codes := before; // rollback
          r := Err(if credits <= 0 then Ledger.BadCredits else Ledger.Conflict);
          FailedBatch(old(Money()), items, i + 1, r.error);
          return;
        }
        codes := codes + [Ledger.Code(hash, credits, None)];
        i := i + 1;
      }
      assert items[..i] == items;
      return Ok(());
    }

    /** Zero exactly while a bootstrap insert could still succeed. */
    method CountAccounts() returns (n: nat)
      ensures n == |accounts|
      ensures forall name :: n == 0 <==> Ledger.InsertAccount(Money(), name, Ledger.Admin, true).1.Ok?
    {
      n := |accounts|;
      if n == 0 {
        assert accounts.Keys == {};
      }
    }

    method InsertAccount(username: string, role: Ledger.Role, onlyIfEmpty: bool) returns (r: Result<int, Ledger.Error>)
      modifies this`accounts, this`nextAccount
      ensures (Money(), r) == Ledger.InsertAccount(old(Money()), username, role, onlyIfEmpty)
    {
      if onlyIfEmpty {
        var n := |accounts|;
        if n > 0 {
          return Err(Ledger.Conflict);
        }
      }
      if exists a :: a in accounts && accounts[a].username == username {
        return Err(Ledger.Conflict);
      }
      var id := nextAccount;
      accounts := accounts[id := Ledger.Account(username, role, 0)];
      nextAccount := id + 1;
      return Ok(id);
    }

    method AddTokens(key: int, n: int)
      modifies this`tokens
      ensures tokens == Spent(old(tokens), key, n) && tokens.Keys == old(tokens).Keys
      ensures forall u ::
        Auth.UsedBy(tokens, u) == Auth.UsedBy(old(tokens), u) + if u == key && u in tokens then n else 0
    {
      if key in tokens {
        tokens := tokens[key := tokens[key] + n];
      }
    }

    method InsertLog(l: UsageLog, broken: bool)
      modifies this`logs
      ensures logs == old(logs) + (if broken then [] else [l])
    {
      if !broken {
        logs := logs + [l];
      }
    }
  }

  /** tokens_used of one user key grows; an unknown key changes nothing. */
  function Spent(tokens: map<int, int>, key: int, n: int): map<int, int> {
    if key in tokens then tokens[key := tokens[key] + n] else tokens
  }

  /** Once a prefix of a batch is refused, the whole batch is refused for the same reason. */
  lemma {:induction false} FailedBatch(db: Ledger.Db, items: seq<(string, int)>, i: nat, e: Ledger.Error)
    requires i <= |items| && Ledger.InsertCodes(db, items[..i]) == (db, Err(e))
    ensures Ledger.InsertCodes(db, items) == (db, Err(e))
  {
    if i == |items| {
      assert items[..i] == items;
    } else {
      assert items[..|items| - 1][..i] == items[..i];
      FailedBatch(db, items[..|items| - 1], i, e);
    }
  }
}
