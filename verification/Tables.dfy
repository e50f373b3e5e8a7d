/** The routing tables of the store: upstream keys and outbound proxies, as rows in id order. */
module Tables {
  import opened Wrappers

  /** proxyId: None = shared proxy pool, Some(0) = always direct, Some(n) = bound to proxy n. */
  datatype Upstream = Upstream(id: int, weight: int, rpmLimit: int, status: string,
                               failCount: int, cooldownUntil: int, proxyId: Option<int>)

  datatype Proxy = Proxy(id: int, status: string, failCount: int, cooldownUntil: int)

  /**
   One row of usage_logs, with the columns that carry billing and routing. requestId is what the client
   sent as X-Request-Id; holdKept is the "credit hold not refunded" suffix of the error text.
   */
  datatype UsageLog = UsageLog(requestId: string, userId: int, upstream: Option<int>, inputTokens: int, status: int,
                               ok: bool, account: int, creditMicro: int, holdKept: bool)

  const ACTIVE := "active"

  predicate Live(p: Proxy, now: int) {
    p.status == ACTIVE && p.cooldownUntil <= now
  }

  function ListActiveProxies(proxies: seq<Proxy>, now: int): seq<Proxy> {
    if proxies == [] then []
    else
      var p := proxies[|proxies| - 1];
      ListActiveProxies(proxies[..|proxies| - 1], now) + (if Live(p, now) then [p] else [])
  }

  function GetProxy(proxies: seq<Proxy>, id: int): Option<Proxy> {
    if proxies == [] then None
    else if proxies[0].id == id then Some(proxies[0])
    else GetProxy(proxies[1..], id)
  }

  function TouchUpstreamOK(ups: seq<Upstream>, id: int): seq<Upstream> {
    if ups == [] then []
    else
      var u := ups[|ups| - 1];
      TouchUpstreamOK(ups[..|ups| - 1], id) + [if u.id == id then u.(failCount := 0, cooldownUntil := 0) else u]
  }

  function TouchUpstreamErr(ups: seq<Upstream>, id: int, until: int, authFail: bool): seq<Upstream> {
    if ups == [] then []
    else
      var u := ups[|ups| - 1];
      TouchUpstreamErr(ups[..|ups| - 1], id, until, authFail) +
      [if u.id == id then u.(failCount := u.failCount + (if authFail then 5 else 1), cooldownUntil := until) else u]
  }

  function TouchProxyOK(proxies: seq<Proxy>, id: int): seq<Proxy> {
    if proxies == [] then []
    else
      var p := proxies[|proxies| - 1];
      TouchProxyOK(proxies[..|proxies| - 1], id) + [if p.id == id then p.(failCount := 0, cooldownUntil := 0) else p]
  }

  function TouchProxyErr(proxies: seq<Proxy>, id: int, until: int): seq<Proxy> {
    if proxies == [] then []
    else
      var p := proxies[|proxies| - 1];
      TouchProxyErr(proxies[..|proxies| - 1], id, until) +
      [if p.id == id then p.(failCount := p.failCount + 1, cooldownUntil := until) else p]
  }

  /** What the marks leave row by row. */
  lemma {:induction false} TouchedAt(ups: seq<Upstream>, id: int, until: int, auth: bool)
    ensures var bad, good := TouchUpstreamErr(ups, id, until, auth), TouchUpstreamOK(ups, id);
      |bad| == |good| == |ups| &&
      forall n :: 0 <= n < |ups| ==>
        bad[n] == (if ups[n].id != id then ups[n]
                   else ups[n].(failCount := ups[n].failCount + (if auth then 5 else 1), cooldownUntil := until)) &&
        good[n] == (if ups[n].id != id then ups[n] else ups[n].(failCount := 0, cooldownUntil := 0))
  {
    if ups != [] {
      TouchedAt(ups[..|ups| - 1], id, until, auth);
    }
  }

  lemma {:induction false} TouchedProxyAt(proxies: seq<Proxy>, id: int, until: int)
    ensures var bad, good := TouchProxyErr(proxies, id, until), TouchProxyOK(proxies, id);
      |bad| == |good| == |proxies| &&
      forall n :: 0 <= n < |proxies| ==>
        bad[n] == (if proxies[n].id != id then proxies[n]
                   else proxies[n].(failCount := proxies[n].failCount + 1, cooldownUntil := until)) &&
        good[n] == (if proxies[n].id != id then proxies[n] else proxies[n].(failCount := 0, cooldownUntil := 0))
  {
    if proxies != [] {
      TouchedProxyAt(proxies[..|proxies| - 1], id, until);
    }
  }

  /** The active list holds each row as often as the table if it is active and not cooling down, and no other. */
  lemma {:induction false} ActiveAreLive(proxies: seq<Proxy>, now: int)
    ensures forall p :: p in ListActiveProxies(proxies, now) <==> p in proxies && Live(p, now)
    ensures forall p :: multiset(ListActiveProxies(proxies, now))[p] ==
                        if p.status == "active" && p.cooldownUntil <= now then multiset(proxies)[p] else 0
  {
    if proxies != [] {
      var before, p := proxies[..|proxies| - 1], proxies[|proxies| - 1];
      ActiveAreLive(before, now);
      assert proxies == before + [p];
      var more := if Live(p, now) then [p] else [];
      assert multiset(ListActiveProxies(proxies, now)) == multiset(ListActiveProxies(before, now)) + multiset(more);
    }
  }

  /** A transport error takes the proxy out of the active list until its cooldown is over, and no other proxy. */
  lemma {:induction false} FailedProxyRests(proxies: seq<Proxy>, id: int, until: int, now: int)
    ensures forall p :: p in ListActiveProxies(TouchProxyErr(proxies, id, until), now) && p.id == id ==> until <= now
    ensures forall p: Proxy :: p.id != id ==>
      (p in ListActiveProxies(TouchProxyErr(proxies, id, until), now) <==> p in ListActiveProxies(proxies, now))
  {
    if proxies != [] {
      FailedProxyRests(proxies[..|proxies| - 1], id, until, now);
    }
  }

  /** An answer puts the proxy back on the active list, whatever its cooldown was, unless it is disabled. */
  lemma {:induction false} WorkingProxyReturns(proxies: seq<Proxy>, id: int, now: int)
    requires now >= 0
    ensures forall p :: p in proxies && p.id == id && p.status == ACTIVE ==>
      p.(failCount := 0, cooldownUntil := 0) in ListActiveProxies(TouchProxyOK(proxies, id), now)
    ensures forall p: Proxy :: p.id != id ==>
      (p in ListActiveProxies(TouchProxyOK(proxies, id), now) <==> p in ListActiveProxies(proxies, now))
  {
    if proxies != [] {
      var before, last := proxies[..|proxies| - 1], proxies[|proxies| - 1];
      WorkingProxyReturns(before, id, now);
      assert proxies == before + [last];
    }
  }

  /** Row n is the first with this id. */
  ghost predicate FirstAt(proxies: seq<Proxy>, id: int, n: nat) {
    n < |proxies| && proxies[n].id == id && forall m :: 0 <= m < n ==> proxies[m].id != id
  }

  lemma {:induction false} FoundProxy(proxies: seq<Proxy>, id: int)
    ensures match GetProxy(proxies, id)
            case Some(p) => p in proxies && p.id == id && exists n: nat :: FirstAt(proxies, id, n) && proxies[n] == p
            case None => forall p :: p in proxies ==> p.id != id
  {
    if proxies != [] {
      FoundProxy(proxies[1..], id);
      assert proxies == [proxies[0]] + proxies[1..];
      if proxies[0].id == id {
        assert FirstAt(proxies, id, 0);
      } else if GetProxy(proxies, id).Some? {
        var n: nat :| FirstAt(proxies[1..], id, n) && proxies[1..][n] == GetProxy(proxies, id).value;
        assert FirstAt(proxies, id, n + 1);
      }
    }
  }
}
