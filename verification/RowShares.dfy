/**
 What each row of the upstream table gets, over every interleaving: told from the tables the picks read and
 the rows they went on with.
 */
module RowShares {
  import opened Tables
  import opened CallMachine
  import opened Interleaving
  import opened Words
  import opened Fairness
  import opened PickShares
  import opened Outcomes
  import P = Pool

  /** Row n of the table it read was open to pick p. */
  predicate Open(p: Pick, n: nat)
    requires n < |p.read.upstreams|
  {
    var u := p.read.upstreams[n];
    u.status == "active" && u.cooldownUntil <= p.read.at && u.id !in p.excluded
  }

  /** The documented weight: at least 1. */
  function Share(u: Upstream): nat {
    if u.weight > 1 then u.weight else 1
  }

  /** The weight of the first n rows, as far as they were open to pick p. */
  function OpenWeight(p: Pick, n: nat): nat
    requires n <= |p.read.upstreams|
  {
    if n == 0 then 0 else OpenWeight(p, n - 1) + (if Open(p, n - 1) then Share(p.read.upstreams[n - 1]) else 0)
  }

  /** Two picks between which no row was added, removed, reweighted, opened or closed; anything else may differ. */
  ghost predicate SameWheel(p: Pick, q: Pick) {
    |p.read.upstreams| == |q.read.upstreams| &&
    forall n :: 0 <= n < |p.read.upstreams| ==>
      p.read.upstreams[n].id == q.read.upstreams[n].id && p.read.upstreams[n].weight == q.read.upstreams[n].weight &&
      Open(p, n) == Open(q, n)
  }

  ghost predicate DistinctIds(ups: seq<Upstream>) {
    forall a, b :: 0 <= a < b < |ups| ==> ups[a].id != ups[b].id
  }

  /** How many of the m picks from position `from` on went on with a row of this id. */
  function TimesGot(picks: seq<Pick>, id: int, from: nat, m: nat): nat
    requires from + m <= |picks|
  {
    if m == 0 then 0
    else
      TimesGot(picks, id, from, m - 1) +
      (if picks[from + m - 1].got.Some? && picks[from + m - 1].got.value.id == id then 1 else 0)
  }

  // ---------------------------------------------------------------- what the picks of a run are

  ghost predicate PickOk(p: Pick) {
    p.cands != [] && p.cands == P.Candidates(p.read.upstreams, p.excluded, p.read.at) &&
    (p.got.Some? ==> p.got.value == P.Choose(p.cands, p.cursor))
  }

  /** A call that has read its candidates holds those of the table it read. */
  ghost predicate HasRead(c: Call) {
    c.pc.Selecting? ==> c.pc.cands == P.Candidates(c.pc.read.upstreams, c.exclude, c.pc.read.at)
  }

  ghost predicate PicksOk(picks: seq<Pick>) {
    forall j :: 0 <= j < |picks| ==> PickOk(picks[j])
  }

  ghost predicate Recorded(s: System) {
    PicksOk(s.picks) && forall k :: 0 <= k < |s.calls| ==> HasRead(s.calls[k])
  }

  lemma StepReads(sh: Shared, c: Call, e: Env)
    ensures HasRead(CallStep(sh, c, e).call)
  {
    hide P.Candidates;
    if !c.pc.Picking? {
      hide CallStep;
      StepLeads(sh, c, e);
    }
  }

  lemma StepPicks(k: nat, sh: Shared, c: Call, e: Env)
    requires HasRead(c)
    ensures forall p :: p in PickedBy(k, sh, c, CallStep(sh, c, e).call) ==> PickOk(p)
  {
    hide P.Candidates, P.Choose;
  }

  lemma {:induction false} ApplyRecords(s: System, ev: Event)
    requires Recorded(s)
    ensures Recorded(Apply(s, ev))
  {
    hide CallStep, HasRead, PickOk, PickedBy;
    StartsOne(s, ev);
    if ev.act.Advance? && ev.act.call < |s.calls| {
      StepReads(s.sh, s.calls[ev.act.call], EnvOf(ev));
      StepPicks(ev.act.call, s.sh, s.calls[ev.act.call], EnvOf(ev));
    } else if Starts(s, ev.act).Some? {
      NewHasRead(Starts(s, ev.act).value);
    }
  }

  lemma NewHasRead(c: Call)
    requires c.pc.Enter?
    ensures HasRead(c)
  {
  }

  lemma {:induction false} AlwaysRecorded(es: seq<Event>)
    ensures Recorded(Run(es))
  {
    if es != [] {
      AlwaysRecorded(es[..|es| - 1]);
      hide Apply, Recorded;
      ApplyRecords(Run(es[..|es| - 1]), es[|es| - 1]);
    }
  }

  // ---------------------------------------------------------------- the tables were really there

  /** Event i is call k reading the upstream table: these rows, at this time, for a call that gave up on these ids. */
  ghost predicate ReadAt(es: seq<Event>, i: nat, k: nat, read: Reading, excluded: set<int>) {
    Steps(es, k, i) && es[i].now == read.at && Run(es[..i]).sh.upstreams == read.upstreams &&
    Run(es[..i]).calls[k].pc.Picking? && Run(es[..i]).calls[k].exclude == excluded
  }

  ghost predicate WasRead(es: seq<Event>, k: nat, read: Reading, excluded: set<int>) {
    exists i: nat :: ReadAt(es, i, k, read, excluded)
  }

  lemma {:induction false} ReadLater(es: seq<Event>, ev: Event, k: nat, read: Reading, excluded: set<int>)
    requires WasRead(es, k, read, excluded)
    ensures WasRead(es + [ev], k, read, excluded)
  {
    var i: nat :| ReadAt(es, i, k, read, excluded);
    assert (es + [ev])[..i] == es[..i];
    assert ReadAt(es + [ev], i, k, read, excluded);
  }

  lemma {:induction false} ReadNow(es: seq<Event>, ev: Event, k: nat)
    requires ev.act.Advance? && ev.act.call == k && k < |Run(es).calls| && Run(es).calls[k].pc.Picking?
    ensures WasRead(es + [ev], k, Reading(ev.now, Run(es).sh.upstreams), Run(es).calls[k].exclude)
  {
    assert (es + [ev])[..|es|] == es;
    assert ReadAt(es + [ev], |es|, k, Reading(ev.now, Run(es).sh.upstreams), Run(es).calls[k].exclude);
  }

  lemma PickReads(sh: Shared, c: Call, e: Env)
    ensures var c' := CallStep(sh, c, e).call;
      c'.pc.Selecting? ==> c.pc.Picking? && c'.pc.read == Reading(e.now, sh.upstreams) && c'.exclude == c.exclude
  {
    hide P.Candidates;
    if !c.pc.Picking? {
      hide CallStep;
      StepLeads(sh, c, e);
    }
  }

  lemma {:induction false} CallHasRead(es: seq<Event>, k: nat)
    requires k < |Run(es).calls| && Run(es).calls[k].pc.Selecting?
    ensures WasRead(es, k, Run(es).calls[k].pc.read, Run(es).calls[k].exclude)
  {
    if es != [] {
      var before, ev := es[..|es| - 1], es[|es| - 1];
      assert before + [ev] == es;
      hide Apply, WasRead, CallStep;
      BeforeOrNew(Run(before), ev, k);
      CallMoves(Run(before), ev, k) by {
        assert k < |Run(before).calls|;
      }
      if ev.act.Advance? && ev.act.call == k {
        PickReads(Run(before).sh, Run(before).calls[k], EnvOf(ev));
        ReadNow(before, ev, k);
      } else {
        CallHasRead(before, k);
        ReadLater(before, ev, k, Run(es).calls[k].pc.read, Run(es).calls[k].exclude);
      }
    }
  }

  /** A pick of the state after an event was there before, or is what the call of that event had read. */
  lemma {:induction false} PicksGrow(s: System, ev: Event, j: nat)
    requires j < |Apply(s, ev).picks|
    ensures var p := Apply(s, ev).picks[j];
      if j < |s.picks| then p == s.picks[j]
      else ev.act.Advance? && p.call == ev.act.call < |s.calls| &&
           var c := s.calls[p.call]; c.pc.Selecting? && p.read == c.pc.read && p.excluded == c.exclude
  {
    hide CallStep;
    StartsOne(s, ev);
  }

  /** What a pick is recorded to have read was the table at the step at which that call read it. */
  lemma {:induction false} PickWasRead(es: seq<Event>, j: nat)
    requires j < |Run(es).picks|
    ensures var p := Run(es).picks[j]; WasRead(es, p.call, p.read, p.excluded)
  {
    if es != [] {
      var before, ev := es[..|es| - 1], es[|es| - 1];
      var p, s := Run(es).picks[j], Run(before);
      assert before + [ev] == es;
      PicksGrow(s, ev, j);
      hide WasRead, Apply, Run;
      if j < |s.picks| {
        PickWasRead(before, j);
      } else {
        CallHasRead(before, ev.act.call);
      }
      ReadLater(before, ev, p.call, p.read, p.excluded);
    }
  }

  // ---------------------------------------------------------------- rows and candidates

  lemma {:induction false} CandidatesOfPrefix(items: seq<Upstream>, exclude: set<int>, now: int, n: nat)
    requires n <= |items|
    ensures P.Candidates(items[..n], exclude, now) <= P.Candidates(items, exclude, now)
  {
    if n < |items| {
      assert items[..|items| - 1][..n] == items[..n];
      CandidatesOfPrefix(items[..|items| - 1], exclude, now, n);
    } else {
      assert items[..n] == items;
    }
  }

  /** Which candidate row n is. */
  ghost function PlaceOf(p: Pick, n: nat): nat
    requires n < |p.read.upstreams|
  {
    |P.Candidates(p.read.upstreams[..n], p.excluded, p.read.at)|
  }

  lemma RowIsCandidate(p: Pick, n: nat)
    requires n < |p.read.upstreams| && Open(p, n) && PickOk(p)
    ensures PlaceOf(p, n) < |p.cands| && p.cands[PlaceOf(p, n)] == p.read.upstreams[n]
  {
    var ups := p.read.upstreams;
    assert ups[..n + 1][..n] == ups[..n];
    CandidatesOfPrefix(ups, p.excluded, p.read.at, n + 1);
    var before := P.Candidates(ups[..n], p.excluded, p.read.at);
    assert P.Candidates(ups[..n + 1], p.excluded, p.read.at) == before + [ups[n]];
    assert (before + [ups[n]])[|before|] == p.cands[|before|];
  }

  /** Candidates of one id are one candidate, and each is an open row. */
  lemma CandidateIsRow(p: Pick, i: nat) returns (n: nat)
    requires PickOk(p) && i < |p.cands|
    ensures n < |p.read.upstreams| && Open(p, n) && p.cands[i] == p.read.upstreams[n]
    ensures forall j :: 0 <= j < |p.cands| && j != i && DistinctIds(p.read.upstreams) ==> p.cands[j].id != p.cands[i].id
  {
    P.CandidatesInOrder(p.read.upstreams, p.excluded, p.read.at);
    P.CandidateIff(p.read.upstreams, p.excluded, p.read.at);
    var at := P.Places(p.read.upstreams, p.excluded, p.read.at);
    n := at[i];
    assert p.cands[i] in p.cands;
  }

  /** Row by row, two tables that give one wheel. */
  ghost predicate SameRows(ups: seq<Upstream>, x: set<int>, t: int, ups': seq<Upstream>, x': set<int>, t': int) {
    |ups| == |ups'| && forall n :: 0 <= n < |ups| ==>
      ups[n].id == ups'[n].id && ups[n].weight == ups'[n].weight &&
      P.Eligible(ups[n], x, t) == P.Eligible(ups'[n], x', t')
  }

  ghost predicate SameSlots(cs: seq<Upstream>, cs': seq<Upstream>) {
    |cs| == |cs'| && forall i :: 0 <= i < |cs| ==> cs[i].id == cs'[i].id && P.WeightOf(cs[i]) == P.WeightOf(cs'[i])
  }

  lemma {:induction false} SameRowsSameSlots(
    ups: seq<Upstream>, x: set<int>, t: int, ups': seq<Upstream>, x': set<int>, t': int)
    requires SameRows(ups, x, t, ups', x', t')
    ensures SameSlots(P.Candidates(ups, x, t), P.Candidates(ups', x', t'))
  {
    if ups != [] {
      var n := |ups| - 1;
      SameRowsSameSlots(ups[..n], x, t, ups'[..n], x', t');
    }
  }

  lemma {:induction false} SameSlotsSameOwner(cs: seq<Upstream>, cs': seq<Upstream>, n: nat)
    requires SameSlots(cs, cs')
    ensures P.Total(cs) == P.Total(cs') && (cs != [] ==> P.Owner(cs, n) == P.Owner(cs', n))
  {
    if cs != [] {
      SameSlotsSameOwner(cs[..|cs| - 1], cs'[..|cs| - 1], n);
    }
  }

  lemma {:induction false} TotalAppend(cs: seq<Upstream>, u: Upstream)
    ensures P.Total(cs + [u]) == P.Total(cs) + Share(u) && P.Total(cs + []) == P.Total(cs)
  {
    assert (cs + [u])[..|cs|] == cs && cs + [] == cs;
  }

  lemma {:induction false} OpenWeightIsTotal(p: Pick, n: nat)
    requires n <= |p.read.upstreams|
    ensures OpenWeight(p, n) == P.Total(P.Candidates(p.read.upstreams[..n], p.excluded, p.read.at))
  {
    if n > 0 {
      OpenWeightIsTotal(p, n - 1);
      assert p.read.upstreams[..n][..n - 1] == p.read.upstreams[..n - 1];
      hide P.Total;
      TotalAppend(P.Candidates(p.read.upstreams[..n - 1], p.excluded, p.read.at), p.read.upstreams[n - 1]);
    }
  }

  // ---------------------------------------------------------------- the law

  /** The two picks choose by the same wheel. */
  lemma WheelsAgree(p: Pick, q: Pick)
    requires PickOk(p) && PickOk(q) && SameWheel(p, q)
    ensures SameSlots(p.cands, q.cands)
  {
    forall n | 0 <= n < |p.read.upstreams|
      ensures P.Eligible(p.read.upstreams[n], p.excluded, p.read.at) ==
              P.Eligible(q.read.upstreams[n], q.excluded, q.read.at)
    {
      assert Open(p, n) == Open(q, n);
    }
    SameRowsSameSlots(p.read.upstreams, p.excluded, p.read.at, q.read.upstreams, q.excluded, q.read.at);
  }

  /** Pick q, on the wheel of p, gets row n of p's table exactly if the cursor stands on that row's slots. */
  lemma GotRowIff(p: Pick, q: Pick, n: nat)
    requires PickOk(p) && PickOk(q) && SameWheel(p, q) && q.got.Some?
    requires n < |p.read.upstreams| && Open(p, n) && DistinctIds(p.read.upstreams)
    ensures P.Total(p.cands) > 0 && PlaceOf(p, n) < |p.cands|
    ensures q.got.value.id == p.read.upstreams[n].id <==> P.Owner(p.cands, q.cursor % P.Total(p.cands)) == PlaceOf(p, n)
  {
    P.TotalPositive(p.cands);
    WheelsAgree(p, q);
    var slot := q.cursor % P.Total(p.cands);
    SameSlotsSameOwner(p.cands, q.cands, slot);
    P.OwnerInRange(p.cands, slot);
    RowIsCandidate(p, n);
    var _ := CandidateIsRow(p, PlaceOf(p, n));
    hide P.Owner, P.Total, PickOk;
  }

  /** A row that was closed is not got. */
  lemma ClosedNotGot(p: Pick, q: Pick, n: nat)
    requires PickOk(q) && SameWheel(p, q) && q.got.Some?
    requires n < |p.read.upstreams| && !Open(p, n) && DistinctIds(p.read.upstreams)
    ensures q.got.value.id != p.read.upstreams[n].id
  {
    P.TotalPositive(q.cands);
    P.OwnerInRange(q.cands, q.cursor % P.Total(q.cands));
    var i := P.Owner(q.cands, q.cursor % P.Total(q.cands));
    var n' := CandidateIsRow(q, i);
    assert Open(p, n') == Open(q, n');
  }

  /** The m picks from position `from` on all had a row to go on with, and the wheel of the first. */
  ghost predicate Steady(picks: seq<Pick>, from: nat, m: nat) {
    from + m <= |picks| && forall j :: from <= j < from + m ==> SameWheel(picks[from], picks[j]) && picks[j].got.Some?
  }

  lemma {:induction false} GotAreTurns(picks: seq<Pick>, from: nat, m: nat, n: nat, l: nat)
    requires PicksOk(picks) && Numbered(picks) && Steady(picks, from, m) && l <= m && m > 0
    requires n < |picks[from].read.upstreams| && DistinctIds(picks[from].read.upstreams)
    requires Open(picks[from], n) && Smooth(picks[from].cands, from, m)
    ensures var p := picks[from];
      TimesGot(picks, p.read.upstreams[n].id, from, l) == Turns(p.cands, PlaceOf(p, n), from, l)
  {
    var p := picks[from];
    if l > 0 {
      GotAreTurns(picks, from, m, n, l - 1);
      var q := picks[from + l - 1];
      GotRowIff(p, q, n);
      SmoothSlot(p.cands, from, l);
      assert q.cursor == (from + l) % TWO_64;
      hide PicksOk, Numbered, Steady, Open, P.Owner, P.Total, DistinctIds;
    }
  }

  lemma {:induction false} ClosedGetsNothing(picks: seq<Pick>, from: nat, m: nat, n: nat, l: nat)
    requires PicksOk(picks) && Steady(picks, from, m) && l <= m && m > 0
    requires n < |picks[from].read.upstreams| && DistinctIds(picks[from].read.upstreams)
    requires !Open(picks[from], n)
    ensures TimesGot(picks, picks[from].read.upstreams[n].id, from, l) == 0
  {
    if l > 0 {
      ClosedGetsNothing(picks, from, m, n, l - 1);
      ClosedNotGot(picks[from], picks[from + l - 1], n);
    }
  }

  /** The cursor does not wrap during these picks, or the wrap makes no difference. */
  predicate Unwrapped(from: nat, m: nat, W: nat) {
    from + m < TWO_64 || (W > 0 && TWO_64 % W == 0)
  }

  /** t of m turns, in proportion to weight w of W. */
  ghost predicate Proportional(t: nat, m: nat, w: nat, W: nat) {
    W > 0 && m / W * w <= t <= (m + W - 1) / W * w && forall k: nat :: m == k * W ==> t == k * w
  }

  lemma TurnsAreFair(cands: seq<Upstream>, i: nat, cursor: nat, m: nat)
    requires i < |cands|
    ensures Proportional(Turns(cands, i, cursor, m), m, Share(cands[i]), P.Total(cands))
  {
    TurnsAreProportional(cands, i, cursor, m);
    forall k: nat | m == k * P.Total(cands) ensures Turns(cands, i, cursor, m) == k * Share(cands[i]) {
      FullTurnsAreExact(cands, i, cursor, k);
    }
  }

  /** What row n got of the m picks from position `from` on. */
  ghost predicate Fair(picks: seq<Pick>, from: nat, m: nat, n: nat)
    requires from + m <= |picks| && m > 0 && n < |picks[from].read.upstreams|
  {
    var p := picks[from];
    var u := p.read.upstreams[n];
    var got := TimesGot(picks, u.id, from, m);
    if Open(p, n) then Proportional(got, m, Share(u), OpenWeight(p, |p.read.upstreams|)) else got == 0
  }

  lemma {:induction false} RecordedIsFair(picks: seq<Pick>, from: nat, m: nat, n: nat)
    requires PicksOk(picks) && Numbered(picks)
    requires m > 0 && Steady(picks, from, m) && n < |picks[from].read.upstreams|
    requires DistinctIds(picks[from].read.upstreams)
    requires Unwrapped(from, m, OpenWeight(picks[from], |picks[from].read.upstreams|))
    ensures Fair(picks, from, m, n)
  {
    var p := picks[from];
    OpenWeightIsTotal(p, |p.read.upstreams|);
    assert p.read.upstreams[..|p.read.upstreams|] == p.read.upstreams;
    P.TotalPositive(p.cands);
    hide Numbered, DistinctIds, P.Total, OpenWeight;
    if Open(p, n) {
      RowIsCandidate(p, n);
      GotAreTurns(picks, from, m, n, m);
      hide PicksOk, Open, Steady, TimesGot, Proportional, Turns;
      TurnsAreFair(p.cands, PlaceOf(p, n), from, m);
    } else {
      ClosedGetsNothing(picks, from, m, n, m);
    }
  }

  /**
   The documented weights. In every run, while no row is added, removed, reweighted, opened or closed, m picks
   in a row - by calls and catalogue requests together - go to an open row of weight w between floor(m / W) * w
   and ceil(m / W) * w times, where W is the weight of the open rows of the table; k * W picks go to it exactly
   k * w times; and a closed row gets none.
   */
  lemma {:induction false} RowsGetTheirWeight(es: seq<Event>, from: nat, m: nat, n: nat)
    requires var picks := Run(es).picks;
      m > 0 && Steady(picks, from, m) && n < |picks[from].read.upstreams| &&
      DistinctIds(picks[from].read.upstreams) &&
      Unwrapped(from, m, OpenWeight(picks[from], |picks[from].read.upstreams|))
    ensures Fair(Run(es).picks, from, m, n)
    ensures forall j :: from <= j < from + m ==>
      WasRead(es, Run(es).picks[j].call, Run(es).picks[j].read, Run(es).picks[j].excluded)
  {
    forall j | from <= j < from + m
      ensures WasRead(es, Run(es).picks[j].call, Run(es).picks[j].read, Run(es).picks[j].excluded)
    {
      PickWasRead(es, j);
    }
    AlwaysRecorded(es);
    PicksInOrder(es);
    RecordedIsFair(Run(es).picks, from, m, n);
  }
}
