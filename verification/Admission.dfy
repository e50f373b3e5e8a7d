/**
 Authenticate (internal/proxy/proxy.go) as a machine: it reads the key row, then the owner's balance, then
 asks the limiter. Between two of its steps any call may run and any row may change.
 */
module Admission {
  import opened Wrappers
  import opened Authentication
  import opened CallMachine
  import Ledger
  import RateLimit

  /** Where a request stands: its three tests, let in, turned away, or let in and since become a call. */
  datatype Visit =
    | LookingUp(digest: Option<string>)
    | CheckingCredit(key: UserKey)
    | TakingSlot(key: UserKey)
    | Inside(key: UserKey)
    | Refused(error: AuthError)
    | Served(key: UserKey)

  /** The key row as read together with its token count; digest is None when the header holds no key. */
  function LookUpStep(sh: Shared, digest: Option<string>, e: Env): Visit {
    if digest.None? then Refused(InvalidKey)
    else if e.fails then Refused(AuthError.Internal)
    else
      match Lookup(sh.keys, digest.value)
      case None => Refused(InvalidKey)
      case Some(k) =>
        if !Active(k, e.now) then Refused(InvalidKey)
        else if !QuotaLeft(k, sh.tokens) then Refused(QuotaExceeded)
        else if k.owner.Some? then CheckingCredit(k)
        else TakingSlot(k)
  }

  function CreditStep(sh: Shared, k: UserKey, e: Env): Visit {
    if k.owner.None? then TakingSlot(k)
    else if e.fails || k.owner.value !in sh.db.accounts then Refused(AuthError.Internal)
    else if !Solvent(k, sh.db) then Refused(AuthError.InsufficientCredits)
    else TakingSlot(k)
  }

  function SlotStep(sh: Shared, k: UserKey, e: Env): (RateLimit.Windows, Visit) {
    var (windows, v) := RateLimit.Decide(sh.windows, RateLimit.UserRpm(k.id), k.rpmLimit, RateLimit.MINUTE, e.now);
    (windows, if v.ok then Inside(k) else Refused(AuthError.RateLimited(v.wait / RateLimit.SECOND)))
  }

  function VisitStep(sh: Shared, v: Visit, e: Env): (Shared, Visit) {
    match v
    case LookingUp(digest) => (sh, LookUpStep(sh, digest, e))
    case CheckingCredit(k) => (sh, CreditStep(sh, k, e))
    case TakingSlot(k) =>
      var (windows, v') := SlotStep(sh, k, e);
      (sh.(windows := windows), v')
    case _ => (sh, v)
  }

  /** The three steps with nothing in between, each with its own clock. */
  function Alone(sh: Shared, digest: Option<string>, e0: Env, e1: Env, e2: Env): (Shared, Visit) {
    var v := LookUpStep(sh, digest, e0);
    var v' := if v.CheckingCredit? then CreditStep(sh, v.key, e1) else v;
    VisitStep(sh, v', e2)
  }

  /** The row alone: in use, and not past its expiry, which is its last valid millisecond. */
  predicate Usable(k: UserKey, now: int) {
    k.status == "active" && match k.expiresAt case Some(x) => now <= x case None => true
  }

  /** The row's tokens used, read at the same moment, are below its quota; a quota of 0 or less is none. */
  predicate BelowQuota(k: UserKey, tokens: map<int, int>) {
    k.tokenQuota <= 0 || (if k.id in tokens then tokens[k.id] else 0) < k.tokenQuota
  }

  /** The key's owner has an account with at least one micro-credit; a key without owner needs none. */
  predicate OwnerPays(k: UserKey, db: Ledger.Db) {
    match k.owner
    case Some(a) => a in db.accounts && db.accounts[a].credits >= 1
    case None => true
  }

  /** The row a request's key names, unless the database fails. */
  function RowFor(sh: Shared, digest: Option<string>, fails: bool): Option<UserKey> {
    if digest.None? || fails then None else Lookup(sh.keys, digest.value)
  }

  /**
   Alone, a request reaches the limiter exactly if its key names a row that is in use and not expired, has quota
   left and an owner who pays, and it is let in exactly if the limiter then admits it. Any other refusal leaves
   the limiter untouched.
   */
  lemma AdmittedAloneIff(sh: Shared, digest: Option<string>, e0: Env, e1: Env, e2: Env)
    ensures var (sh', v) := Alone(sh, digest, e0, e1, e2);
      match RowFor(sh, digest, e0.fails)
      case None => sh' == sh && v == Refused(if digest.Some? && e0.fails then AuthError.Internal else InvalidKey)
      case Some(k) =>
        if Usable(k, e0.now) && BelowQuota(k, sh.tokens) && OwnerPays(k, sh.db) && !(e1.fails && k.owner.Some?) then
          var (windows, verdict) :=
            RateLimit.Decide(sh.windows, RateLimit.UserRpm(k.id), k.rpmLimit, RateLimit.MINUTE, e2.now);
          sh' == sh.(windows := windows) &&
          v == if verdict.ok then Inside(k) else Refused(AuthError.RateLimited(verdict.wait / 1_000))
        else sh' == sh && v.Refused? && !v.error.RateLimited?
  {
  }

  /**
   Each reason for turning a request away before the limiter is given exactly when it is the first to apply. With
   a working database a key is invalid exactly if no row has it, or its row is not active or past its expiry.
   */
  lemma RefusalsAre(sh: Shared, digest: Option<string>, e0: Env, e1: Env, e2: Env)
    ensures var v := Alone(sh, digest, e0, e1, e2).1;
      match RowFor(sh, digest, e0.fails)
      case None => v == Refused(if digest.Some? && e0.fails then AuthError.Internal else InvalidKey)
      case Some(k) =>
        var passed := Usable(k, e0.now) && BelowQuota(k, sh.tokens);
        (v == Refused(InvalidKey) <==> !Usable(k, e0.now)) &&
        (v == Refused(QuotaExceeded) <==> Usable(k, e0.now) && !BelowQuota(k, sh.tokens)) &&
        (v == Refused(AuthError.InsufficientCredits) <==>
           passed && !e1.fails && k.owner.Some? && k.owner.value in sh.db.accounts && !OwnerPays(k, sh.db)) &&
        (v == Refused(AuthError.Internal) <==>
           passed && k.owner.Some? && (e1.fails || k.owner.value !in sh.db.accounts))
  {
  }
}
