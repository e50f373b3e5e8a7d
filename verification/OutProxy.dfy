/**
 Choosing the way out for one upstream (internal/outproxy/pick.go, and pickExit in internal/proxy/proxy.go):
 bound to a proxy, forced direct, or round robin over the shared pool of live proxies.
 */
module OutProxy {
  import opened Wrappers
  import opened Tables
  import opened Words
  import S = Store
  import P = Pool

  datatype Choice = Direct | Via(proxy: int)

  datatype ExitError = BoundUnavailable | NoProxy | Failed

  /** What reading the tables decides: an exit, an error, or a non-empty list for the cursor to choose from. */
  datatype Look = Decided(r: Result<Choice, ExitError>) | Among(cands: seq<Proxy>)

  function Usable(items: seq<Proxy>, exclude: set<int>): seq<Proxy> {
    if items == [] then []
    else
      var p := items[|items| - 1];
      Usable(items[..|items| - 1], exclude) + (if p.id in exclude then [] else [p])
  }

  function LookUp(proxies: seq<Proxy>, up: Upstream, exclude: set<int>, now: int, fails: bool): Look {
    match up.proxyId
    case Some(id) =>
      if id == 0 then Decided(Ok(Direct))
      else if fails then Decided(Err(Failed))
      else (
        match GetProxy(proxies, id)
        case None => Decided(Err(BoundUnavailable))
        case Some(p) => Decided(if Live(p, now) then Ok(Via(p.id)) else Err(BoundUnavailable)))
    case None =>
      if fails then Decided(Err(Failed))
      else
        var items := ListActiveProxies(proxies, now);
        var cand := Usable(items, exclude);
        if cand != [] then Among(cand)
        else if items == [] then Decided(Ok(Direct))
        else Decided(Err(NoProxy))
  }

  function Spin(cands: seq<Proxy>, cursor: nat): Choice
    requires cands != []
  {
    Via(cands[cursor % |cands|].id)
  }

  lemma {:induction false} UsableAre(items: seq<Proxy>, exclude: set<int>)
    ensures forall p :: p in Usable(items, exclude) <==> p in items && p.id !in exclude
  {
    if items != [] {
      UsableAre(items[..|items| - 1], exclude);
      assert items == items[..|items| - 1] + [items[|items| - 1]];
    }
  }

  /**
   The exit policy. Bound: through that proxy, live now, or not at all. Forced direct: direct. Unbound:
   direct only when no proxy is live, otherwise through a live one that is not excluded.
   */
  ghost predicate SafeExit(proxies: seq<Proxy>, up: Upstream, exclude: set<int>, now: int, exit: Choice) {
    match up.proxyId
    case Some(id) =>
      if id == 0 then exit == Direct
      else exit == Via(id) && exists p :: p in proxies && p.id == id && Live(p, now)
    case None =>
      match exit
      case Direct => forall p :: p in proxies ==> !Live(p, now)
      case Via(id) => id !in exclude && exists p :: p in proxies && p.id == id && Live(p, now)
  }

  lemma DecidedIsSafe(proxies: seq<Proxy>, up: Upstream, exclude: set<int>, now: int, fails: bool)
    ensures match LookUp(proxies, up, exclude, now, fails)
            case Decided(Ok(exit)) => SafeExit(proxies, up, exclude, now, exit)
            case Decided(Err(_)) => true
            case Among(cands) => cands != [] && forall n: nat :: SafeExit(proxies, up, exclude, now, Spin(cands, n))
  {
    ActiveAreLive(proxies, now);
    UsableAre(ListActiveProxies(proxies, now), exclude);
    match up.proxyId {
      case Some(id) => FoundProxy(proxies, id);
      case None =>
        var items := ListActiveProxies(proxies, now);
        var cand := Usable(items, exclude);
        if cand != [] {
          forall n: nat ensures SafeExit(proxies, up, exclude, now, Spin(cand, n)) {
            assert cand[n % |cand|] in cand;
          }
        } else if items == [] {
          assert forall p :: p in proxies && Live(p, now) ==> p in items;
        }
    }
  }

  /** The upstream's own proxy, by the first row with that id, may be used. */
  ghost predicate MayUse(proxies: seq<Proxy>, id: int, now: int) {
    exists n: nat :: FirstAt(proxies, id, n) && proxies[n].status == "active" && proxies[n].cooldownUntil <= now
  }

  /** The row is in the shared pool now. */
  predicate Pooled(p: Proxy, now: int) {
    p.status == "active" && p.cooldownUntil <= now
  }

  /**
   Exactly which exit an upstream gets, and when it is refused one. Bound to proxy N: through N if N's row is
   active and not cooling down, otherwise refused. Unbound: direct if no proxy is live, refused if all live ones
   are excluded, otherwise one of the live ones that are not, each as often as the table holds it.
   */
  lemma ExitIs(proxies: seq<Proxy>, up: Upstream, exclude: set<int>, now: int, fails: bool)
    ensures var look := LookUp(proxies, up, exclude, now, fails);
      match up.proxyId
      case Some(id) =>
        if id == 0 then look == Decided(Ok(Direct))
        else if fails then look == Decided(Err(Failed))
        else look == Decided(if MayUse(proxies, id, now) then Ok(Via(id)) else Err(BoundUnavailable))
      case None =>
        if fails then look == Decided(Err(Failed))
        else if forall p :: p in proxies ==> !Pooled(p, now) then look == Decided(Ok(Direct))
        else if forall p :: p in proxies && Pooled(p, now) ==> p.id in exclude then look == Decided(Err(NoProxy))
        else look.Among? && forall p ::
          multiset(look.cands)[p] == (if Pooled(p, now) && p.id !in exclude then multiset(proxies)[p] else 0)
  {
    match up.proxyId {
      case Some(id) => FoundProxy(proxies, id);
      case None => PoolIs(proxies, exclude, now);
    }
  }

  lemma PoolIs(proxies: seq<Proxy>, exclude: set<int>, now: int)
    ensures var items := ListActiveProxies(proxies, now);
      (items == [] <==> forall p :: p in proxies ==> !Pooled(p, now)) &&
      (Usable(items, exclude) == [] <==> forall p :: p in proxies && Pooled(p, now) ==> p.id in exclude) &&
      forall p :: multiset(Usable(items, exclude))[p] ==
        if Pooled(p, now) && p.id !in exclude then multiset(proxies)[p] else 0
  {
    var items := ListActiveProxies(proxies, now);
    ActiveAreLive(proxies, now);
    UsableAre(items, exclude);
    UsableCounts(items, exclude);
    if items != [] {
      assert items[0] in items;
    }
    if Usable(items, exclude) != [] {
      assert Usable(items, exclude)[0] in Usable(items, exclude);
    }
  }

  lemma {:induction false} UsableCounts(items: seq<Proxy>, exclude: set<int>)
    ensures forall p :: multiset(Usable(items, exclude))[p] == if p.id in exclude then 0 else multiset(items)[p]
  {
    if items != [] {
      var before, p := items[..|items| - 1], items[|items| - 1];
      UsableCounts(before, exclude);
      assert items == before + [p];
      var more := if p.id in exclude then [] else [p];
      assert multiset(Usable(items, exclude)) == multiset(Usable(before, exclude)) + multiset(more);
    }
  }

  class Picker {
    const store: S.Store
    var cursor: nat

    constructor (store: S.Store)
      ensures this.store == store && cursor == 0
    {
      this.store := store;
      cursor := 0;
    }

    method Pick(up: Upstream, exclude: set<int>, now: int, fails: bool) returns (r: Result<Choice, ExitError>)
      modifies this
      ensures match LookUp(store.proxies, up, exclude, now, fails)
              case Decided(d) => cursor == old(cursor) && r == d
              case Among(cands) => cands != [] && cursor == P.Advance(old(cursor)) && r == Ok(Spin(cands, cursor))
    {
      if up.proxyId.Some? {
        var id := up.proxyId.value;
        if id == 0 {
          return Ok(Direct);
        }
        if fails {
          return Err(Failed);
        }
        var row := GetProxy(store.proxies, id);
        if row.None? {
          return Err(BoundUnavailable);
        }
        if row.value.status != ACTIVE {
          return Err(BoundUnavailable);
        }
        if row.value.cooldownUntil > now {
          return Err(BoundUnavailable);
        }
        return Ok(Via(row.value.id));
      }
      if fails {
        return Err(Failed);
      }
      var items := ListActiveProxies(store.proxies, now);
      var cand := [];
      for i := 0 to |items|
        invariant cand == Usable(items[..i], exclude)
      {
        assert items[..i + 1][..i] == items[..i];
        if items[i].id in exclude {
          continue;
        }
        cand := cand + [items[i]];
      }
      assert items[..|items|] == items;
      if |cand| == 0 {
        if |items| == 0 {
          return Ok(Direct);
        }
        return Err(NoProxy);
      }
      cursor := (cursor + 1) % TWO_64;
      var n := cursor % |cand|;
      return Ok(Via(cand[n].id));
    }
  }
}
