/**
 Weighted round robin over the upstream keys (internal/pool/pool.go): filter the table, advance a
 shared cursor, and read the cursor as a position on a wheel with one slot per unit of weight.
 */
module Pool {
  import opened Wrappers
  import opened Tables
  import opened Words
  import opened Seqs
  import S = Store

  datatype PickError = NoUpstream | Failed

  function WeightOf(u: Upstream): int {
    if u.weight <= 0 then 1 else u.weight
  }

  predicate Eligible(u: Upstream, exclude: set<int>, now: int) {
    u.status == ACTIVE && u.cooldownUntil <= now && u.id !in exclude
  }

  function Candidates(items: seq<Upstream>, exclude: set<int>, now: int): seq<Upstream> {
    if items == [] then []
    else
      var u := items[|items| - 1];
      Candidates(items[..|items| - 1], exclude, now) + (if Eligible(u, exclude, now) then [u] else [])
  }

  function Total(cands: seq<Upstream>): nat {
    if cands == [] then 0 else Total(cands[..|cands| - 1]) + WeightOf(cands[|cands| - 1])
  }

  /** atomic.AddUint64 wraps. */
  function Advance(cursor: nat): nat {
    (cursor + 1) % TWO_64
  }

  /** The candidate that owns slot n: the first whose running weight exceeds n. */
  function Owner(cands: seq<Upstream>, n: nat): nat
    requires cands != []
  {
    if |cands| == 1 || n >= Total(cands[..|cands| - 1]) then |cands| - 1
    else Owner(cands[..|cands| - 1], n)
  }

  lemma TotalPositive(cands: seq<Upstream>)
    requires cands != []
    ensures Total(cands) > 0
  {
  }

  lemma {:induction false} OwnerInRange(cands: seq<Upstream>, n: nat)
    requires cands != []
    ensures Owner(cands, n) < |cands|
  {
    if |cands| > 1 && n < Total(cands[..|cands| - 1]) {
      OwnerInRange(cands[..|cands| - 1], n);
    }
  }

  /** The candidate the cursor stands on. */
  function Choose(cands: seq<Upstream>, cursor: nat): Upstream
    requires cands != []
  {
    TotalPositive(cands);
    OwnerInRange(cands, cursor % Total(cands));
    cands[Owner(cands, cursor % Total(cands))]
  }

  /** How often a row is a candidate: as often as it stands in the table, or not at all. */
  function Standing(items: seq<Upstream>, exclude: set<int>, now: int, u: Upstream): nat {
    if u.status == "active" && u.cooldownUntil <= now && u.id !in exclude then multiset(items)[u] else 0
  }

  /**
   Each row is a candidate as often as it stands in the table if it is active, its cooldown is over and the call
   has not given up on it, and otherwise not at all; and the candidates are in the order of the table.
   */
  lemma {:induction false} CandidatesAre(items: seq<Upstream>, exclude: set<int>, now: int)
    ensures forall u :: multiset(Candidates(items, exclude, now))[u] == Standing(items, exclude, now, u)
    ensures exists at :: TakenFrom(Candidates(items, exclude, now), items, at)
  {
    CandidatesInOrder(items, exclude, now);
    if items != [] {
      var before, u := items[..|items| - 1], items[|items| - 1];
      CandidatesAre(before, exclude, now);
      assert items == before + [u];
      var more := if Eligible(u, exclude, now) then [u] else [];
      assert multiset(Candidates(items, exclude, now)) == multiset(Candidates(before, exclude, now)) + multiset(more);
    }
  }

  /** Where in the table the candidates stand. */
  function Places(items: seq<Upstream>, exclude: set<int>, now: int): seq<nat> {
    if items == [] then []
    else
      var n := |items| - 1;
      Places(items[..n], exclude, now) + (if Eligible(items[n], exclude, now) then [n] else [])
  }

  lemma {:induction false} CandidatesInOrder(items: seq<Upstream>, exclude: set<int>, now: int)
    ensures TakenFrom(Candidates(items, exclude, now), items, Places(items, exclude, now))
  {
    if items != [] {
      var n := |items| - 1;
      CandidatesInOrder(items[..n], exclude, now);
      assert forall p :: 0 <= p < n ==> items[..n][p] == items[p];
    }
  }

  lemma CandidateIff(items: seq<Upstream>, exclude: set<int>, now: int)
    ensures forall u :: u in Candidates(items, exclude, now) <==> u in items && Eligible(u, exclude, now)
  {
    CandidatesAre(items, exclude, now);
    forall u ensures u in Candidates(items, exclude, now) <==> u in items && Eligible(u, exclude, now) {
      assert u in items <==> u in multiset(items);
      assert u in Candidates(items, exclude, now) <==> u in multiset(Candidates(items, exclude, now));
    }
  }

  /** A 2xx makes the upstream's row eligible at once, unless it is disabled or this call has given up on it. */
  lemma {:induction false} MarkedOkIsEligible(items: seq<Upstream>, id: int, exclude: set<int>, now: int)
    requires now >= 0
    ensures forall u :: u in TouchUpstreamOK(items, id) && u.id == id ==>
      u.failCount == 0 && (Eligible(u, exclude, now) <==> u.status == ACTIVE && id !in exclude)
    ensures forall u: Upstream :: u.id != id ==> (u in TouchUpstreamOK(items, id) <==> u in items)
  {
    if items != [] {
      var before, last := items[..|items| - 1], items[|items| - 1];
      MarkedOkIsEligible(before, id, exclude, now);
      assert items == before + [last];
    }
  }

  /** A failure keeps it from being picked, by this call or any other, until the cooldown is over. */
  lemma {:induction false} MarkedErrRests(
    items: seq<Upstream>, id: int, until: int, auth: bool, exclude: set<int>, now: int)
    requires now < until
    ensures forall u :: u in Candidates(TouchUpstreamErr(items, id, until, auth), exclude, now) ==> u.id != id
    ensures forall u: Upstream :: u.id != id ==> (u in TouchUpstreamErr(items, id, until, auth) <==> u in items)
  {
    if items != [] {
      var before, last := items[..|items| - 1], items[|items| - 1];
      MarkedErrRests(before, id, until, auth, exclude, now);
      assert items == before + [last];
    }
  }

  lemma ChosenIsCandidate(cands: seq<Upstream>, cursor: nat)
    requires cands != []
    ensures Choose(cands, cursor) in cands
  {
    TotalPositive(cands);
    OwnerInRange(cands, cursor % Total(cands));
  }

  // ---------------------------------------------------------------- owners and slots

  lemma {:induction false} TotalPrefixes(cands: seq<Upstream>, i: nat, j: nat)
    requires i <= j <= |cands|
    ensures Total(cands[..i]) <= Total(cands[..j])
    ensures i < j ==> Total(cands[..i]) + WeightOf(cands[i]) <= Total(cands[..j])
  {
    if i < j {
      TotalPrefixes(cands, i, j - 1);
      assert cands[..j][..j - 1] == cands[..j - 1];
    }
  }

  /** Candidate i owns exactly the WeightOf(i) slots that follow the weights before it. */
  lemma {:induction false} OwnerIff(cands: seq<Upstream>, n: nat, i: nat)
    requires i < |cands| && n < Total(cands)
    ensures Owner(cands, n) == i <==> Total(cands[..i]) <= n < Total(cands[..i]) + WeightOf(cands[i])
  {
    var m := |cands| - 1;
    var rest := cands[..m];
    if m == 0 || n >= Total(rest) {
      if i < m {
        TotalPrefixes(cands, i, m);
      }
    } else if i < m {
      OwnerIff(rest, n, i);
      assert rest[..i] == cands[..i];
    } else {
      OwnerInRange(rest, n);
    }
  }

  class Pool {
    const store: S.Store
    var cursor: nat

    constructor (store: S.Store)
      ensures this.store == store && cursor == 0
    {
      this.store := store;
      cursor := 0;
    }

    /** listFails: the table could not be read. openFails: the chosen key could not be decrypted. */
    method Pick(exclude: set<int>, now: int, listFails: bool, openFails: bool) returns (r: Result<Upstream, PickError>)
      modifies this
      ensures var cands := Candidates(store.upstreams, exclude, now);
        if listFails || cands == [] then
          cursor == old(cursor) && r == Err(if listFails then Failed else NoUpstream)
        else
          cursor == Advance(old(cursor)) && r == if openFails then Err(Failed) else Ok(Choose(cands, cursor))
    {
      if listFails {
        return Err(Failed);
      }
      var items := store.upstreams;
      var candidates := [];
      for i := 0 to |items|
        invariant candidates == Candidates(items[..i], exclude, now)
      {
        assert items[..i + 1][..i] == items[..i];
        var u := items[i];
        if u.status != ACTIVE {
          continue;
        }
        if u.cooldownUntil > now {
          continue;
        }
        if u.id in exclude {
          continue;
        }
        candidates := candidates + [u];
      }
      assert items[..|items|] == items;
      if |candidates| == 0 {
        return Err(NoUpstream);
      }
      var total := 0;
      for i := 0 to |candidates|
        invariant total == Total(candidates[..i])
      {
        assert candidates[..i + 1][..i] == candidates[..i];
        var w := candidates[i].weight;
        if w <= 0 {
          w := 1;
        }
        total := total + w;
      }
      assert candidates[..|candidates|] == candidates;
      TotalPositive(candidates);
      cursor := (cursor + 1) % TWO_64;
      var n := cursor % total;
      var acc := 0;
      var pick := None;
      for i := 0 to |candidates|
        invariant acc == Total(candidates[..i]) && acc <= n && pick.None?
      {
        assert candidates[..i + 1][..i] == candidates[..i];
        var w := candidates[i].weight;
        if w <= 0 {
          w := 1;
        }
        acc := acc + w;
        if n < acc {
          OwnerIff(candidates, n, i);
          pick := Some(i);
          break;
        }
      }
      if openFails {
        return Err(Failed);
      }
      return Ok(candidates[pick.value]);
    }
  }
}
