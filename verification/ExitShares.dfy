/**
 The shared pool of proxies, over every interleaving: its live members take turns. A proxy is served like an
 upstream row of weight 1, so the shares of RowShares carry over.
 */
module ExitShares {
  import opened Wrappers
  import opened Tables
  import opened OutProxy
  import opened CallMachine
  import opened Interleaving
  import opened Words
  import opened PickShares
  import opened RowShares
  import P = Pool

  /** Row n of the proxy table was open to this choice of an exit. */
  predicate InPool(x: ExitPick, n: nat)
    requires n < |x.saw.proxies|
  {
    var p := x.saw.proxies[n];
    p.status == "active" && p.cooldownUntil <= x.saw.at && p.id !in x.excluded
  }

  /** How many of the first n rows were. */
  function PoolSize(x: ExitPick, n: nat): nat
    requires n <= |x.saw.proxies|
  {
    if n == 0 then 0 else PoolSize(x, n - 1) + (if InPool(x, n - 1) then 1 else 0)
  }

  /** How many of the m choices from position `from` on went through this proxy. */
  function TimesUsed(xs: seq<ExitPick>, id: int, from: nat, m: nat): nat
    requires from + m <= |xs|
  {
    if m == 0 then 0
    else TimesUsed(xs, id, from, m - 1) + (if xs[from + m - 1].got == Some(Via(id)) then 1 else 0)
  }

  /** Two choices between which no proxy joined or left the pool. */
  ghost predicate SamePool(x: ExitPick, y: ExitPick) {
    |x.saw.proxies| == |y.saw.proxies| &&
    forall n :: 0 <= n < |x.saw.proxies| ==>
      x.saw.proxies[n].id == y.saw.proxies[n].id && InPool(x, n) == InPool(y, n)
  }

  ghost predicate SteadyPool(xs: seq<ExitPick>, from: nat, m: nat) {
    from + m <= |xs| && forall j :: from <= j < from + m ==> SamePool(xs[from], xs[j]) && xs[j].got.Some?
  }

  // ---------------------------------------------------------------- as picks of rows of weight 1

  function RowOf(p: Proxy): Upstream {
    Upstream(p.id, 1, 0, p.status, p.failCount, p.cooldownUntil, None)
  }

  function RowsOf(proxies: seq<Proxy>): seq<Upstream> {
    seq(|proxies|, i requires 0 <= i < |proxies| => RowOf(proxies[i]))
  }

  /** The exits the cursor chose from. */
  function ExitsOf(x: ExitPick): seq<Proxy> {
    Usable(ListActiveProxies(x.saw.proxies, x.saw.at), x.excluded)
  }

  function PickOf(x: ExitPick): Pick {
    var cands := RowsOf(ExitsOf(x));
    Pick(x.call, Reading(x.saw.at, RowsOf(x.saw.proxies)), x.excluded, cands, x.cursor,
         if x.got.Some? && cands != [] then Some(P.Choose(cands, x.cursor)) else None)
  }

  function PicksOf(xs: seq<ExitPick>): seq<Pick> {
    seq(|xs|, j requires 0 <= j < |xs| => PickOf(xs[j]))
  }

  /** What a recorded choice is: the cursor's place among the usable live rows. */
  ghost predicate ExitPickOk(x: ExitPick) {
    ExitsOf(x) != [] && (x.got.Some? ==> x.got.value == Spin(ExitsOf(x), x.cursor))
  }

  lemma {:induction false} UsableAppend(a: seq<Proxy>, p: Proxy, exclude: set<int>)
    ensures Usable(a + [p], exclude) == Usable(a, exclude) + (if p.id in exclude then [] else [p])
    ensures Usable(a + [], exclude) == Usable(a, exclude)
  {
    assert (a + [p])[..|a|] == a && a + [] == a;
  }

  lemma RowsAppend(a: seq<Proxy>, p: Proxy)
    ensures RowsOf(a + [p]) == RowsOf(a) + [RowOf(p)]
  {
  }

  lemma CandidatesAppend(rows: seq<Upstream>, u: Upstream, exclude: set<int>, now: int)
    ensures P.Candidates(rows + [u], exclude, now) ==
      P.Candidates(rows, exclude, now) + (if P.Eligible(u, exclude, now) then [u] else [])
  {
    assert (rows + [u])[..|rows|] == rows;
  }

  lemma {:induction false} UsableAreCandidates(proxies: seq<Proxy>, exclude: set<int>, now: int)
    ensures RowsOf(Usable(ListActiveProxies(proxies, now), exclude)) == P.Candidates(RowsOf(proxies), exclude, now)
  {
    if proxies != [] {
      var before, p := proxies[..|proxies| - 1], proxies[|proxies| - 1];
      var live := ListActiveProxies(before, now);
      assert proxies == before + [p] && ListActiveProxies(proxies, now) == live + (if Live(p, now) then [p] else []);
      hide Usable, ListActiveProxies, RowsOf, P.Candidates;
      UsableAreCandidates(before, exclude, now);
      RowsAppend(before, p);
      CandidatesAppend(RowsOf(before), RowOf(p), exclude, now);
      UsableAppend(live, p, exclude);
      RowsAppend(Usable(live, exclude), p);
    }
  }

  lemma {:induction false} AllWeightOne(proxies: seq<Proxy>, n: nat)
    ensures P.Total(RowsOf(proxies)) == |proxies|
    ensures n < |proxies| ==> P.Owner(RowsOf(proxies), n) == n
  {
    if proxies != [] {
      var before := proxies[..|proxies| - 1];
      assert RowsOf(proxies)[..|before|] == RowsOf(before);
      AllWeightOne(before, n);
    }
  }

  /** Spinning over proxies is choosing among rows of weight 1. */
  lemma {:induction false} SpinIsChoice(exits: seq<Proxy>, cursor: nat)
    requires exits != []
    ensures Spin(exits, cursor) == Via(P.Choose(RowsOf(exits), cursor).id)
  {
    AllWeightOne(exits, cursor % |exits|);
  }

  lemma MappedPickOk(x: ExitPick)
    requires ExitPickOk(x)
    ensures PickOk(PickOf(x)) && PickOf(x).got.Some? == x.got.Some?
    ensures forall id :: x.got == Some(Via(id)) <==> PickOf(x).got.Some? && PickOf(x).got.value.id == id
  {
    UsableAreCandidates(x.saw.proxies, x.excluded, x.saw.at);
    SpinIsChoice(ExitsOf(x), x.cursor);
  }

  lemma {:induction false} PoolSizeIsWeight(x: ExitPick, n: nat)
    requires n <= |x.saw.proxies|
    ensures OpenWeight(PickOf(x), n) == PoolSize(x, n)
  {
    if n > 0 {
      PoolSizeIsWeight(x, n - 1);
      assert Open(PickOf(x), n - 1) == InPool(x, n - 1);
    }
  }

  // ---------------------------------------------------------------- runs

  /** A call about to spin holds the usable live rows of the table it saw. */
  ghost predicate Holds(c: Call) {
    c.pc.Spinning? ==>
      c.pc.exits != [] && c.pc.exits == Usable(ListActiveProxies(c.pc.saw.proxies, c.pc.saw.at), c.proxyExclude)
  }

  ghost predicate ExitPicksOk(xs: seq<ExitPick>) {
    forall j :: 0 <= j < |xs| ==> ExitPickOk(xs[j]) && xs[j].cursor == (j + 1) % TWO_64
  }

  ghost predicate Spun(s: System) {
    s.sh.exitCursor == |s.exits| % TWO_64 && ExitPicksOk(s.exits) &&
    forall k :: 0 <= k < |s.calls| ==> Holds(s.calls[k])
  }

  lemma StepHolds(sh: Shared, c: Call, e: Env)
    ensures Holds(CallStep(sh, c, e).call)
  {
    if c.pc.Exiting? {
      ExitHolds(sh, c, e);
    } else {
      hide CallStep, Usable, ListActiveProxies;
      StepLeads(sh, c, e);
    }
  }

  lemma ExitHolds(sh: Shared, c: Call, e: Env)
    requires c.pc.Exiting?
    ensures Holds(ExitStep(sh, c, e))
  {
    hide Usable, ListActiveProxies, NoExit;
    assert !NoExit(c, c.pc.up).pc.Spinning? by {
      NoExitMoves(c);
    }
  }

  lemma NoExitMoves(c: Call)
    requires c.pc.Exiting?
    ensures !NoExit(c, c.pc.up).pc.Spinning?
  {
  }

  lemma StepSpins(k: nat, sh: Shared, c: Call, e: Env)
    requires Holds(c)
    ensures var turn := CallStep(sh, c, e);
      turn.sh.exitCursor == (if c.pc.Spinning? then P.Advance(sh.exitCursor) else sh.exitCursor) &&
      |SpunBy(k, sh, c, turn.call)| == (if c.pc.Spinning? then 1 else 0) &&
      forall x :: x in SpunBy(k, sh, c, turn.call) ==> ExitPickOk(x) && x.cursor == P.Advance(sh.exitCursor)
  {
    hide Usable, ListActiveProxies, Spin;
    if !c.pc.Spinning? {
      StepKeepsExitCursor(sh, c, e);
    }
  }

  lemma StepKeepsExitCursor(sh: Shared, c: Call, e: Env)
    requires !c.pc.Spinning?
    ensures CallStep(sh, c, e).sh.exitCursor == sh.exitCursor
  {
  }

  lemma {:induction false} ApplySpins(s: System, ev: Event)
    requires Spun(s)
    ensures Spun(Apply(s, ev))
  {
    hide CallStep, Holds, ExitPickOk, SpunBy;
    StartsOne(s, ev);
    if ev.act.Advance? && ev.act.call < |s.calls| {
      StepHolds(s.sh, s.calls[ev.act.call], EnvOf(ev));
      StepSpins(ev.act.call, s.sh, s.calls[ev.act.call], EnvOf(ev));
      AdvanceWraps(|s.exits|);
    } else if Starts(s, ev.act).Some? {
      NewHolds(Starts(s, ev.act).value);
    }
  }

  lemma NewHolds(c: Call)
    requires c.pc.Enter?
    ensures Holds(c)
  {
  }

  lemma {:induction false} AlwaysSpun(es: seq<Event>)
    ensures Spun(Run(es))
  {
    if es != [] {
      AlwaysSpun(es[..|es| - 1]);
      hide Apply, Spun;
      ApplySpins(Run(es[..|es| - 1]), es[|es| - 1]);
    }
  }

  lemma {:induction false} UsedIsGot(xs: seq<ExitPick>, picks: seq<Pick>, id: int, from: nat, m: nat)
    requires |picks| == |xs| && from + m <= |xs|
    requires forall j :: 0 <= j < |xs| ==>
      (xs[j].got == Some(Via(id)) <==> picks[j].got.Some? && picks[j].got.value.id == id)
    ensures TimesUsed(xs, id, from, m) == TimesGot(picks, id, from, m)
  {
    if m > 0 {
      UsedIsGot(xs, picks, id, from, m - 1);
    }
  }

  lemma {:induction false} MappedIsSteady(xs: seq<ExitPick>, from: nat, m: nat)
    requires ExitPicksOk(xs) && SteadyPool(xs, from, m)
    ensures Steady(PicksOf(xs), from, m) && PicksOk(PicksOf(xs)) && Numbered(PicksOf(xs))
  {
    var picks := PicksOf(xs);
    forall j | 0 <= j < |xs| ensures PickOk(picks[j]) && picks[j].got.Some? == xs[j].got.Some? {
      MappedPickOk(xs[j]);
    }
    forall j | from <= j < from + m ensures SameWheel(picks[from], picks[j]) {
      assert SamePool(xs[from], xs[j]);
      forall n | 0 <= n < |xs[from].saw.proxies| ensures Open(picks[from], n) == Open(picks[j], n) {
        assert InPool(xs[from], n) == InPool(xs[j], n);
      }
    }
  }

  /** What the proxy in row n got of the m choices from position `from` on, with so many proxies in the pool. */
  ghost predicate TakesTurns(xs: seq<ExitPick>, from: nat, m: nat, n: nat)
    requires from + m <= |xs| && m > 0 && n < |xs[from].saw.proxies|
  {
    var x := xs[from];
    var used, size := TimesUsed(xs, x.saw.proxies[n].id, from, m), PoolSize(x, |x.saw.proxies|);
    if InPool(x, n) then size > 0 && m / size <= used <= (m + size - 1) / size && (m % size == 0 ==> used == m / size)
    else used == 0
  }

  /**
   Round robin. In every run, while no proxy joins or leaves the pool, each of m choices in a row takes the next
   live proxy: of a pool of that size each gets floor(m / size) or ceil(m / size) of them, and any other none.
   */
  lemma {:induction false} ProxiesTakeTurns(es: seq<Event>, from: nat, m: nat, n: nat)
    requires var xs := Run(es).exits;
      m > 0 && SteadyPool(xs, from, m) && n < |xs[from].saw.proxies| &&
      (forall a, b :: 0 <= a < b < |xs[from].saw.proxies| ==>
         xs[from].saw.proxies[a].id != xs[from].saw.proxies[b].id) &&
      Unwrapped(from, m, PoolSize(xs[from], |xs[from].saw.proxies|))
    ensures TakesTurns(Run(es).exits, from, m, n)
  {
    AlwaysSpun(es);
    TurnsTaken(Run(es).exits, from, m, n);
  }

  lemma {:induction false} MappedGot(xs: seq<ExitPick>, id: int)
    requires ExitPicksOk(xs)
    ensures forall j :: 0 <= j < |xs| ==>
      (xs[j].got == Some(Via(id)) <==> PicksOf(xs)[j].got.Some? && PicksOf(xs)[j].got.value.id == id)
  {
    forall j | 0 <= j < |xs|
      ensures xs[j].got == Some(Via(id)) <==> PicksOf(xs)[j].got.Some? && PicksOf(xs)[j].got.value.id == id
    {
      MappedPickOk(xs[j]);
    }
  }

  lemma {:induction false} TurnsTaken(xs: seq<ExitPick>, from: nat, m: nat, n: nat)
    requires ExitPicksOk(xs) && m > 0 && from + m <= |xs| && SteadyPool(xs, from, m) && n < |xs[from].saw.proxies|
    requires forall a, b :: 0 <= a < b < |xs[from].saw.proxies| ==>
      xs[from].saw.proxies[a].id != xs[from].saw.proxies[b].id
    requires Unwrapped(from, m, PoolSize(xs[from], |xs[from].saw.proxies|))
    ensures TakesTurns(xs, from, m, n)
  {
    hide PickOf, ExitPicksOk, SteadyPool, Steady, PicksOk, Numbered, TimesGot, OpenWeight, PoolSize, InPool;
    var x, picks := xs[from], PicksOf(xs);
    var id := x.saw.proxies[n].id;
    MappedIsSteady(xs, from, m);
    PoolSizeIsWeight(x, |x.saw.proxies|);
    MappedGot(xs, id);
    UsedIsGot(xs, picks, id, from, m);
    assert picks[from] == PickOf(x);
    FairTurns(x, picks, from, m, n);
  }

  lemma FairTurns(x: ExitPick, picks: seq<Pick>, from: nat, m: nat, n: nat)
    requires PicksOk(picks) && Numbered(picks) && Steady(picks, from, m) && m > 0 && picks[from] == PickOf(x)
    requires n < |x.saw.proxies|
    requires forall a, b :: 0 <= a < b < |x.saw.proxies| ==> x.saw.proxies[a].id != x.saw.proxies[b].id
    requires PoolSize(x, |x.saw.proxies|) == OpenWeight(picks[from], |x.saw.proxies|)
    requires Unwrapped(from, m, PoolSize(x, |x.saw.proxies|))
    ensures var used, size := TimesGot(picks, x.saw.proxies[n].id, from, m), PoolSize(x, |x.saw.proxies|);
      if InPool(x, n) then
        size > 0 && m / size <= used <= (m + size - 1) / size && (m % size == 0 ==> used == m / size)
      else used == 0
  {
    RecordedIsFair(picks, from, m, n);
    assert Open(PickOf(x), n) == InPool(x, n);
    hide Proportional, PicksOk, Numbered, Steady, TimesGot, OpenWeight;
    if InPool(x, n) {
      InTurn(TimesGot(picks, x.saw.proxies[n].id, from, m), m, PoolSize(x, |x.saw.proxies|));
    }
  }

  lemma InTurn(t: nat, m: nat, W: nat)
    requires Proportional(t, m, 1, W)
    ensures W > 0 && m / W <= t <= (m + W - 1) / W && (m % W == 0 ==> t == m / W)
  {
    assert m % W == 0 ==> m == (m / W) * W;
  }
}
