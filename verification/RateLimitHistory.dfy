/**
 What the pruned and garbage-collected windows mean. A run is any sequence of attempts and
 collector ticks; a key's history is the list of all its recorded admissions, never pruned.
 The limiter is compared with the definition over that full history.
 */
module RateLimitHistory {
  import opened Wrappers
  import opened RateLimit

  datatype Event =
    | Attempt(key: Key, limit: int, width: int, now: int)
    | Gc(now: int)

  function Step(ws: Windows, e: Event): Windows {
    match e
    case Attempt(key, limit, width, now) => Decide(ws, key, limit, width, now).0
    case Gc(now) => Collect(ws, now)
  }

  function Run(ws: Windows, es: seq<Event>): Windows {
    if es == [] then ws else Step(Run(ws, es[..|es| - 1]), es[|es| - 1])
  }

  /** The admission that e records under key, if it records one. Unlimited attempts record nothing. */
  function Recorded(ws: Windows, e: Event, key: Key): seq<int> {
    if e.Attempt? && e.key == key && e.limit > 0 && e.width > 0
       && Decide(ws, key, e.limit, e.width, e.now).1.ok
    then [e.now] else []
  }

  /** All recorded admissions of key, oldest first. */
  function History(ws: Windows, es: seq<Event>, key: Key): seq<int> {
    if es == [] then []
    else
      var es' := es[..|es| - 1];
      History(ws, es', key) + Recorded(Run(ws, es'), es[|es| - 1], key)
  }

  /** How many entries of ts lie in the half-open window (lo, hi]. */
  function CountIn(ts: seq<int>, lo: int, hi: int): nat {
    if ts == [] then 0
    else CountIn(ts[..|ts| - 1], lo, hi) + (if lo < ts[|ts| - 1] <= hi then 1 else 0)
  }

  /** Clock readings do not decrease and none is later than `now`. */
  ghost predicate Clocked(es: seq<Event>, now: int) {
    (forall i, j :: 0 <= i < j < |es| ==> es[i].now <= es[j].now) &&
    (forall i :: 0 <= i < |es| ==> es[i].now <= now)
  }

  /** Every limited attempt on key uses the same width. Each caller of the limiter has its own fixed span. */
  ghost predicate FixedWidth(es: seq<Event>, key: Key, width: int) {
    forall i :: 0 <= i < |es| && es[i].Attempt? && es[i].key == key && es[i].limit > 0 ==> es[i].width == width
  }

  ghost predicate FixedLimit(es: seq<Event>, key: Key, limit: int) {
    forall i :: 0 <= i < |es| && es[i].Attempt? && es[i].key == key ==> es[i].limit == limit
  }

  /** The cutoff of the latest collector tick. */
  function LastSweep(es: seq<Event>): Option<int> {
    if es == [] then None
    else if es[|es| - 1].Gc? then Some(es[|es| - 1].now - GC_AGE)
    else LastSweep(es[..|es| - 1])
  }

  /** The far end of the window the limiter can still see at `now`. */
  function Horizon(es: seq<Event>, width: int, now: int): int {
    match LastSweep(es)
    case None => now - width
    case Some(cut) => Max(now - width, cut)
  }

  // ---------------------------------------------------------------- pruning

  lemma {:induction false} PrunePrune(ts: seq<int>, a: int, b: int)
    ensures Prune(Prune(ts, a), b) == Prune(ts, Max(a, b))
  {
    if ts != [] && ts[0] <= a {
      PrunePrune(ts[1..], a, b);
    }
  }

  lemma {:induction false} PruneAppend(ts: seq<int>, t: int, cutoff: int)
    requires t > cutoff
    ensures Prune(ts + [t], cutoff) == Prune(ts, cutoff) + [t]
  {
    if ts != [] {
      assert (ts + [t])[1..] == ts[1..] + [t];
      PruneAppend(ts[1..], t, cutoff);
    }
  }

  lemma {:induction false} PruneSuffix(ts: seq<int>, cutoff: int)
    ensures var k := Prune(ts, cutoff);
            |k| <= |ts| && k == ts[|ts| - |k|..] && (k != [] ==> k[0] > cutoff)
    ensures forall i :: 0 <= i < |ts| - |Prune(ts, cutoff)| ==> ts[i] <= cutoff
  {
    if ts != [] && ts[0] <= cutoff {
      PruneSuffix(ts[1..], cutoff);
    }
  }

  ghost predicate Sorted(ts: seq<int>) {
    forall i, j :: 0 <= i < j < |ts| ==> ts[i] <= ts[j]
  }

  lemma {:induction false} CountAll(ts: seq<int>, lo: int, hi: int)
    requires forall i :: 0 <= i < |ts| ==> lo < ts[i] <= hi
    ensures CountIn(ts, lo, hi) == |ts|
  {
    if ts != [] {
      CountAll(ts[..|ts| - 1], lo, hi);
    }
  }

  lemma {:induction false} CountSplit(a: seq<int>, b: seq<int>, lo: int, hi: int)
    ensures CountIn(a + b, lo, hi) == CountIn(a, lo, hi) + CountIn(b, lo, hi)
  {
    if b == [] {
      assert a + b == a;
    } else {
      assert (a + b)[..|a + b| - 1] == a + b[..|b| - 1];
      CountSplit(a, b[..|b| - 1], lo, hi);
    }
  }

  lemma {:induction false} CountNone(ts: seq<int>, lo: int, hi: int)
    requires forall i :: 0 <= i < |ts| ==> ts[i] <= lo || ts[i] > hi
    ensures CountIn(ts, lo, hi) == 0
  {
    if ts != [] {
      CountNone(ts[..|ts| - 1], lo, hi);
    }
  }

  /** On a sorted list, pruning leaves exactly the entries inside the window. */
  lemma PruneCounts(ts: seq<int>, lo: int, hi: int)
    requires Sorted(ts)
    requires forall i :: 0 <= i < |ts| ==> ts[i] <= hi
    ensures |Prune(ts, lo)| == CountIn(ts, lo, hi)
  {
    PruneSuffix(ts, lo);
    var k := |ts| - |Prune(ts, lo)|;
    assert ts == ts[..k] + ts[k..];
    CountSplit(ts[..k], ts[k..], lo, hi);
    CountNone(ts[..k], lo, hi);
    CountAll(ts[k..], lo, hi);
  }

  // ---------------------------------------------------------------- the refinement

  lemma ClockedPrefix(es: seq<Event>, now: int)
    requires Clocked(es, now) && es != []
    ensures es[|es| - 1].now <= now && Clocked(es[..|es| - 1], es[|es| - 1].now)
  {
  }

  lemma {:induction false} HistorySorted(ws: Windows, es: seq<Event>, key: Key, now: int)
    requires Clocked(es, now)
    ensures Sorted(History(ws, es, key))
    ensures forall i :: 0 <= i < |History(ws, es, key)| ==> History(ws, es, key)[i] <= now
  {
    if es != [] {
      ClockedPrefix(es, now);
      HistorySorted(ws, es[..|es| - 1], key, es[|es| - 1].now);
    }
  }

  /**
   The limiter's list is always the full history pruned at some floor, and the floor is never
   later than the horizon, nor earlier than the latest sweep.
   */
  lemma {:induction false} WindowIsPrunedHistory(es: seq<Event>, key: Key, width: int, now: int) returns (floor: int)
    requires Clocked(es, now) && FixedWidth(es, key, width) && width > 0
    ensures Times(Run(map[], es), key) == Prune(History(map[], es, key), floor)
    ensures floor <= Horizon(es, width, now)
    ensures LastSweep(es).Some? ==> LastSweep(es).value <= floor
  {
    if es == [] {
      floor := now - width;
    } else {
      var es', e := es[..|es| - 1], es[|es| - 1];
      ClockedPrefix(es, now);
      var f := WindowIsPrunedHistory(es', key, width, e.now);
      SweepBeforeNow(es', e.now);
      floor := NextFloor(f, e, key);
      StepPrunes(Run(map[], es'), key, History(map[], es', key), f, e);
    }
  }

  function NextFloor(floor: int, e: Event, key: Key): int {
    match e
    case Gc(now) => Max(floor, now - GC_AGE)
    case Attempt(k, limit, width, now) => if k == key && limit > 0 then Max(floor, now - width) else floor
  }

  lemma StepPrunes(ws: Windows, key: Key, h: seq<int>, floor: int, e: Event)
    requires e.Attempt? && e.key == key && e.limit > 0 ==> e.width > 0
    requires Times(ws, key) == Prune(h, floor) && floor < e.now
    ensures Times(Step(ws, e), key) == Prune(h + Recorded(ws, e, key), NextFloor(floor, e, key))
  {
    assert h + [] == h;
    if e.Gc? {
      PrunePrune(h, floor, e.now - GC_AGE);
    } else if e.key == key && e.limit > 0 {
      AttemptPrunes(ws, h, floor, e);
    }
  }

  lemma AttemptPrunes(ws: Windows, h: seq<int>, floor: int, e: Event)
    requires e.Attempt? && e.limit > 0 && e.width > 0
    requires Times(ws, e.key) == Prune(h, floor) && floor < e.now
    ensures Times(Step(ws, e), e.key) == Prune(h + Recorded(ws, e, e.key), Max(floor, e.now - e.width))
  {
    var kept := Prune(Times(ws, e.key), e.now - e.width);
    assert kept == Prune(h, Max(floor, e.now - e.width)) by { PrunePrune(h, floor, e.now - e.width); }
    if |kept| < e.limit {
      PruneAppend(h, e.now, Max(floor, e.now - e.width));
    } else {
      assert h + [] == h;
    }
  }

  lemma {:induction false} SweepBeforeNow(es: seq<Event>, now: int)
    requires Clocked(es, now)
    ensures LastSweep(es).Some? ==> LastSweep(es).value <= now - GC_AGE
  {
    if es != [] && !es[|es| - 1].Gc? {
      ClockedPrefix(es, now);
      SweepBeforeNow(es[..|es| - 1], es[|es| - 1].now);
    }
  }

  /** After its own pruning, an attempt sees exactly the admissions inside the horizon. */
  lemma {:induction false} SeenAtAttempt(es: seq<Event>, key: Key, width: int, now: int)
    requires Clocked(es, now) && FixedWidth(es, key, width) && width > 0
    ensures Prune(Times(Run(map[], es), key), now - width) == Prune(History(map[], es, key), Horizon(es, width, now))
  {
    var f := WindowIsPrunedHistory(es, key, width, now);
    PrunePrune(History(map[], es, key), f, now - width);
  }

  /** For any span: an attempt is admitted iff fewer than limit admissions lie inside the horizon. */
  lemma {:induction false} AdmitsIffHorizonFree(es: seq<Event>, key: Key, limit: int, width: int, now: int)
    requires Clocked(es, now) && FixedWidth(es, key, width) && width > 0 && limit > 0
    ensures Decide(Run(map[], es), key, limit, width, now).1.ok <==>
            CountIn(History(map[], es, key), Horizon(es, width, now), now) < limit
  {
    SeenAtAttempt(es, key, width, now);
    HistorySorted(map[], es, key, now);
    PruneCounts(History(map[], es, key), Horizon(es, width, now), now);
  }

  /** What the limiter promises at one attempt: a full window means refusal and nothing else does. */
  ghost predicate ExactAt(es: seq<Event>, key: Key, limit: int, width: int, now: int) {
    Decide(Run(map[], es), key, limit, width, now).1.ok <==>
      CountIn(History(map[], es, key), now - width, now) < limit
  }

  /** Up to two minutes the collector is invisible: the limiter is the full-history definition. */
  lemma {:induction false} ExactUpToGcAge(es: seq<Event>, key: Key, limit: int, width: int, now: int)
    requires Clocked(es, now) && FixedWidth(es, key, width) && 0 < width <= GC_AGE && limit > 0
    ensures ExactAt(es, key, limit, width, now)
  {
    AdmitsIffHorizonFree(es, key, limit, width, now);
    SweepBeforeNow(es, now);
  }

  /** Nothing but attempts of one kind, all in millisecond 0. */
  ghost predicate Burst(es: seq<Event>, key: Key, limit: int, width: int) {
    forall i :: 0 <= i < |es| ==> es[i] == Attempt(key, limit, width, 0)
  }

  lemma {:induction false} BurstNeverSweeps(es: seq<Event>, key: Key, limit: int, width: int)
    requires Burst(es, key, limit, width)
    ensures LastSweep(es).None?
  {
    if es != [] {
      BurstNeverSweeps(es[..|es| - 1], key, limit, width);
    }
  }

  lemma BurstPrefix(es: seq<Event>, key: Key, limit: int, width: int)
    requires Burst(es, key, limit, width)
    ensures Clocked(es, 0) && FixedWidth(es, key, width)
    ensures es != [] ==> Burst(es[..|es| - 1], key, limit, width) && es[|es| - 1] == Attempt(key, limit, width, 0)
  {
  }

  /** One more attempt, recorded if it is admitted. */
  lemma BurstGrows(es: seq<Event>, key: Key, limit: int, width: int)
    requires es != [] && Burst(es, key, limit, width) && limit > 0 && width > 0
    requires Decide(Run(map[], es[..|es| - 1]), key, limit, width, 0).1.ok
    ensures History(map[], es, key) == History(map[], es[..|es| - 1], key) + [0]
  {
    hide Decide, Run;
  }

  /** All at the same moment. */
  ghost predicate AllZero(h: seq<int>, n: nat) {
    |h| == n && forall i :: 0 <= i < n ==> h[i] == 0
  }

  lemma BurstOneMore(es: seq<Event>, key: Key, limit: int, width: int)
    requires Burst(es, key, limit, width) && |es| < limit && width > 0 && AllZero(History(map[], es, key), |es|)
    ensures Decide(Run(map[], es), key, limit, width, 0).1.ok
  {
    BurstPrefix(es, key, limit, width);
    BurstNeverSweeps(es, key, limit, width);
    var h, from := History(map[], es, key), Horizon(es, width, 0);
    assert from < 0;
    hide *;
    AdmitsIffHorizonFree(es, key, limit, width, 0);
    ZerosCount(h, from, |es|);
  }

  lemma ZerosCount(h: seq<int>, from: int, n: nat)
    requires AllZero(h, n) && from < 0
    ensures CountIn(h, from, 0) == n
  {
    CountAll(h, from, 0);
  }

  lemma {:induction false} BurstAdmitted(es: seq<Event>, key: Key, limit: int, width: int)
    requires Burst(es, key, limit, width) && |es| <= limit && width > 0
    ensures AllZero(History(map[], es, key), |es|)
  {
    if es != [] {
      var es' := es[..|es| - 1];
      BurstPrefix(es, key, limit, width);
      hide Burst, Run, Decide;
      BurstAdmitted(es', key, limit, width);
      BurstOneMore(es', key, limit, width);
      BurstGrows(es, key, limit, width);
      hide History;
    }
  }

  /** `limit` attempts at once, and the collector two minutes later. */
  function BurstThenSweep(key: Key, limit: nat, width: int): seq<Event> {
    seq(limit, _ => Attempt(key, limit, width, 0)) + [Gc(GC_AGE)]
  }

  lemma SweepRecordsNothing(es: seq<Event>, now: int, key: Key)
    ensures History(map[], es + [Gc(now)], key) == History(map[], es, key)
    ensures LastSweep(es + [Gc(now)]) == Some(now - GC_AGE)
  {
    assert (es + [Gc(now)])[..|es|] == es;
  }

  lemma BurstIsOrderly(key: Key, limit: nat, width: int)
    ensures var es := BurstThenSweep(key, limit, width); Clocked(es, GC_AGE) && FixedWidth(es, key, width)
  {
  }

  /** What is left of the burst: all of it is admitted, and the sweep forgets it. */
  lemma {:induction false} BurstHistory(key: Key, limit: nat, width: int)
    requires width > 0
    ensures var es := BurstThenSweep(key, limit, width);
      LastSweep(es) == Some(0) && AllZero(History(map[], es, key), limit)
  {
    var b := seq(limit, _ => Attempt(key, limit, width, 0));
    hide History, LastSweep;
    BurstAdmitted(b, key, limit, width);
    SweepRecordsNothing(b, GC_AGE, key);
  }

  /** Beyond two minutes a sweep forgets admissions the span still covers, and the limit is exceeded. */
  lemma {:induction false} InexactBeyondGcAge(key: Key, limit: nat, width: int)
    requires width > GC_AGE && limit > 0
    ensures var es := BurstThenSweep(key, limit, width);
      Clocked(es, GC_AGE) && FixedWidth(es, key, width) && !ExactAt(es, key, limit, width, GC_AGE) &&
      Decide(Run(map[], es), key, limit, width, GC_AGE).1.ok
  {
    var es := BurstThenSweep(key, limit, width);
    BurstIsOrderly(key, limit, width);
    BurstHistory(key, limit, width);
    hide History, Run, Decide, LastSweep, BurstThenSweep, Clocked, FixedWidth;
    var h := History(map[], es, key);
    CountAll(h, GC_AGE - width, GC_AGE);
    CountNone(h, Horizon(es, width, GC_AGE), GC_AGE);
    AdmitsIffHorizonFree(es, key, limit, width, GC_AGE);
  }

  /** A span is enforced exactly, whatever the traffic and the sweeps, iff it is at most two minutes. */
  lemma {:induction false} SpanEnforcedIff(key: Key, limit: int, width: int)
    requires width > 0 && limit > 0
    ensures width <= 120_000 <==>
      forall es, now :: Clocked(es, now) && FixedWidth(es, key, width) ==> ExactAt(es, key, limit, width, now)
  {
    if width <= GC_AGE {
      forall es, now | Clocked(es, now) && FixedWidth(es, key, width)
        ensures ExactAt(es, key, limit, width, now)
      {
        ExactUpToGcAge(es, key, limit, width, now);
      }
    } else {
      InexactBeyondGcAge(key, limit, width);
    }
  }

  // ---------------------------------------------------------------- the rate bound

  /** How much of a span the limiter enforces: all of it up to the collector's age. */
  function Enforced(width: int): int {
    if width <= 120_000 then width else 120_000
  }

  /** Entries `limit` or more apart in the list are at least `width` apart in time. */
  ghost predicate Spaced(h: seq<int>, limit: nat, width: int) {
    forall i, j :: 0 <= i && i + limit <= j < |h| ==> h[i] + width <= h[j]
  }

  lemma SpacedAppend(h: seq<int>, x: int, limit: nat, width: int)
    requires Spaced(h, limit, width) && limit > 0 && (|h| >= limit ==> h[|h| - limit] + width <= x)
    requires Sorted(h)
    ensures Spaced(h + [x], limit, width)
  {
    forall i | 0 <= i && i + limit <= |h| ensures h[i] + width <= x {
      assert i <= |h| - limit;
    }
  }

  /** What the last event of such traffic records, and the traffic before it. */
  lemma LastRecords(es: seq<Event>, key: Key, limit: nat, width: int)
    requires es != [] && FixedWidth(es, key, width) && FixedLimit(es, key, limit) && limit > 0
    ensures var es', e := es[..|es| - 1], es[|es| - 1];
      var more := Recorded(Run(map[], es'), e, key);
      FixedWidth(es', key, width) && FixedLimit(es', key, limit) &&
      History(map[], es, key) == History(map[], es', key) + more &&
      (more == [] || (more == [e.now] && Decide(Run(map[], es'), key, limit, width, e.now).1.ok))
  {
    hide Decide;
  }

  /** With a fixed limit, admissions `limit` apart in the history are the enforced part of the span apart in time. */
  lemma {:induction false} AdmissionsSpaced(es: seq<Event>, key: Key, limit: nat, width: int, now: int)
    requires Clocked(es, now) && FixedWidth(es, key, width) && FixedLimit(es, key, limit)
    requires width > 0 && limit > 0
    ensures Spaced(History(map[], es, key), limit, Enforced(width))
  {
    if es != [] {
      var es', e := es[..|es| - 1], es[|es| - 1];
      ClockedPrefix(es, now);
      LastRecords(es, key, limit, width);
      hide *;
      AdmissionsSpaced(es', key, limit, width, e.now);
      var h, more := History(map[], es', key), Recorded(Run(map[], es'), e, key);
      if more == [] {
        assert h + more == h;
      } else {
        AdmittedFar(es', key, limit, width, e.now);
        HistorySorted(map[], es', key, e.now);
        SpacedAppend(h, e.now, limit, Enforced(width));
      }
    }
  }

  lemma AdmittedFar(es: seq<Event>, key: Key, limit: nat, width: int, now: int)
    requires Clocked(es, now) && FixedWidth(es, key, width) && width > 0 && limit > 0
    requires Decide(Run(map[], es), key, limit, width, now).1.ok
    ensures var h := History(map[], es, key); |h| >= limit ==> h[|h| - limit] + Enforced(width) <= now
  {
    var h := History(map[], es, key);
    SeenAtAttempt(es, key, width, now);
    SweepBeforeNow(es, now);
    assert Horizon(es, width, now) <= now - Enforced(width);
    PruneSuffix(h, Horizon(es, width, now));
  }

  /**
   No window as long as the span, or as two minutes if that is shorter, ever holds more than limit
   admissions, wherever it starts.
   */
  lemma {:induction false} RateBound(es: seq<Event>, key: Key, limit: nat, width: int, now: int, start: int)
    requires Clocked(es, now) && FixedWidth(es, key, width) && FixedLimit(es, key, limit)
    requires width > 0 && limit > 0
    ensures CountIn(History(map[], es, key), start, start + Enforced(width)) <= limit
  {
    var h := History(map[], es, key);
    AdmissionsSpaced(es, key, limit, width, now);
    HistorySorted(map[], es, key, now);
    SpacedCount(h, limit, Enforced(width), start);
  }

  lemma SpacedCount(h: seq<int>, limit: nat, width: int, start: int)
    requires Sorted(h) && limit > 0
    requires Spaced(h, limit, width)
    ensures CountIn(h, start, start + width) <= limit
  {
    PruneSuffix(h, start);
    var p := |h| - |Prune(h, start)|;
    CountBetween(h, start, start + width, p, p + limit);
  }

  /** Only positions from p up to q can hold entries of the window. */
  lemma {:induction false} CountBetween(h: seq<int>, lo: int, hi: int, p: nat, q: nat)
    requires p <= q
    requires forall i :: 0 <= i < |h| && i < p ==> h[i] <= lo
    requires forall i :: q <= i < |h| ==> h[i] > hi
    ensures CountIn(h, lo, hi) <= (if |h| <= p then 0 else if |h| <= q then |h| - p else q - p)
  {
    if h != [] {
      CountBetween(h[..|h| - 1], lo, hi, p, q);
    }
  }
}
