/** Redeem codes over every interleaving: used at most once, paid exactly once. */
module Redemption {
  import opened Wrappers
  import opened Seqs
  import opened CallMachine
  import opened Interleaving
  import Conservation
  import L = Ledger

  /** A redemption commits exactly for a known, unused code and an existing account, and pays its face value once. */
  lemma RedeemCommitsIff(db: L.Db, hash: string, account: int, now: int)
    requires L.DbOk(db)
    ensures var (db', r) := L.RedeemCode(db, hash, account, now);
      (r.Ok? <==> account in db.accounts &&
                  exists k :: 0 <= k < |db.codes| && db.codes[k].hash == hash && db.codes[k].redeemed.None?) &&
      (r.Err? ==> db' == db) &&
      (r.Ok? ==> r.value.0 > 0 && r.value.1 == L.Credits(db', account) == L.Credits(db, account) + r.value.0 &&
                 exists k :: 0 <= k < |db.codes| && db.codes[k].hash == hash && db.codes[k].redeemed.None? &&
                             r.value.0 == db.codes[k].credits &&
                             db'.ledger == db.ledger +
                               [L.Entry(account, r.value.0, r.value.1, L.Redeem, L.CodeRef(k))] &&
                             db'.codes == db.codes[k := db.codes[k].(redeemed := Some(L.Redemption(account, now)))])
  {
    L.FoundCode(db.codes, hash);
    match L.FindCode(db.codes, hash) {
      case None =>
        assert forall k :: 0 <= k < |db.codes| ==> db.codes[k] in db.codes;
      case Some(k) =>
        assert forall j :: 0 <= j < |db.codes| && db.codes[j].hash == hash ==> j == k;
    }
  }

  /** A batch that may be stored: positive amounts, and hashes that differ from each other and from those known. */
  ghost predicate Acceptable(codes: seq<L.Code>, items: seq<(string, int)>) {
    (forall i :: 0 <= i < |items| ==> items[i].1 > 0 && forall c :: c in codes ==> c.hash != items[i].0) &&
    forall i, j :: 0 <= i < j < |items| ==> items[i].0 != items[j].0
  }

  function Unused(items: seq<(string, int)>): seq<L.Code> {
    seq(|items|, i requires 0 <= i < |items| => L.Code(items[i].0, items[i].1, None))
  }

  /** A batch of codes is stored exactly if it is acceptable, then whole, unused and in order; otherwise nothing is. */
  lemma {:induction false} IssueCommitsIff(db: L.Db, items: seq<(string, int)>)
    ensures var (db', r) := L.InsertCodes(db, items);
      (r.Ok? <==> Acceptable(db.codes, items)) &&
      db' == if r.Ok? then db.(codes := db.codes + Unused(items)) else db
  {
    if items != [] {
      var n := |items| - 1;
      IssueCommitsIff(db, items[..n]);
      var mid := L.InsertCodes(db, items[..n]).0;
      L.FoundCode(mid.codes, items[n].0);
      assert Unused(items) == Unused(items[..n]) + [L.Code(items[n].0, items[n].1, None)];
      if L.InsertCodes(db, items[..n]).1.Ok? {
        LastFits(db.codes, items);
      }
    }
  }

  /** The last item fits in exactly if it clashes with no code there, old or added. */
  lemma LastFits(codes: seq<L.Code>, items: seq<(string, int)>)
    requires items != [] && Acceptable(codes, items[..|items| - 1])
    ensures var (hash, credits) := items[|items| - 1];
      Acceptable(codes, items) <==>
        credits > 0 && forall c :: c in codes + Unused(items[..|items| - 1]) ==> c.hash != hash
  {
    var n := |items| - 1;
    var added := Unused(items[..n]);
    if forall c :: c in codes + added ==> c.hash != items[n].0 {
      forall i | 0 <= i < n ensures items[i].0 != items[n].0 {
        assert added[i] in codes + added;
      }
    }
  }

  /** Codes are only ever added, and a used code never changes again. */
  ghost predicate CodesFollow(before: seq<L.Code>, after: seq<L.Code>) {
    |before| <= |after| &&
    forall j :: 0 <= j < |before| ==>
      after[j].hash == before[j].hash && after[j].credits == before[j].credits &&
      (before[j].redeemed.Some? ==> after[j] == before[j])
  }

  lemma CallLeavesCodes(sh: Shared, c: Call, e: Env)
    ensures CallStep(sh, c, e).sh.db.codes == sh.db.codes
  {
  }

  lemma {:induction false} IssueFollows(db: L.Db, items: seq<(string, int)>)
    ensures CodesFollow(db.codes, L.InsertCodes(db, items).0.codes)
  {
    if items != [] {
      IssueFollows(db, items[..|items| - 1]);
    }
  }

  lemma ApplyFollows(s: System, ev: Event)
    ensures CodesFollow(s.sh.db.codes, Apply(s, ev).sh.db.codes)
  {
    hide CallStep;
    match ev.act {
      case Advance(k, _, _, _) =>
        if k < |s.calls| {
          CallLeavesCodes(s.sh, s.calls[k], EnvOf(ev));
        }
      case Redeem(hash, _) => L.FoundCode(s.sh.db.codes, hash);
      case IssueCodes(items) => IssueFollows(s.sh.db, items);
      case _ =>
    }
  }

  /** Used once, used forever by the same account: whatever happens after moment i, a used code stays as it is. */
  lemma {:induction false} RedeemedForever(es: seq<Event>, i: nat)
    requires i <= |es|
    ensures CodesFollow(Run(es[..i]).sh.db.codes, Run(es).sh.db.codes)
  {
    var n := |es| - 1;
    if i == |es| {
      assert es[..i] == es;
    } else {
      assert es[..n][..i] == es[..i];
      RedeemedForever(es[..n], i);
      ApplyFollows(Run(es[..n]), es[n]);
    }
  }

  /** The redeem rows of an account's ledger add up to the face values of the codes it redeemed. */
  lemma {:induction false} RedeemRowsMatchCodes(es: seq<Event>, a: int)
    ensures SumBy(Run(es).sh.db.ledger, L.RedeemOf(a)) == SumBy(Run(es).sh.db.codes, L.CodeOf(a))
  {
    Conservation.BooksAlwaysRight(es);
  }
}
