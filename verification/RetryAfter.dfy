/**
 What a refusal's wait is worth. The caller is told to come back after `wait` milliseconds,
 never less than a second; over HTTP the wait is cut to whole seconds.
 */
module RetryAfter {
  import opened RateLimit
  import opened RateLimitHistory

  /** The admissions a refused attempt at `now` counted. */
  function Counted(ws: Windows, key: Key, width: int, now: int): seq<int> {
    Prune(Times(ws, key), now - width)
  }

  /** An attempt that is refused: the limit is positive and the window is full. */
  ghost predicate Refused(ws: Windows, key: Key, limit: int, width: int, now: int) {
    limit > 0 && width > 0 && |Counted(ws, key, width, now)| >= limit
  }

  lemma RefusedIff(ws: Windows, key: Key, limit: int, width: int, now: int)
    ensures Refused(ws, key, limit, width, now) <==> !Decide(ws, key, limit, width, now).1.ok
  {
  }

  /** No event of es records an admission of key. */
  ghost predicate Quiet(ws: Windows, es: seq<Event>, key: Key) {
    History(ws, es, key) == []
  }

  lemma PruneShrinks(ts: seq<int>, a: int, c: int)
    ensures |Prune(Prune(ts, a), c)| <= |Prune(ts, c)|
  {
    PrunePrune(ts, a, c);
    PrunePrune(ts, c, a);
    PruneSuffix(Prune(ts, c), a);
  }

  /** Quiet traffic and sweeps can only shrink what an attempt will count. */
  lemma {:induction false} QuietShrinks(ws: Windows, es: seq<Event>, key: Key, cutoff: int)
    requires Quiet(ws, es, key)
    ensures |Prune(Times(Run(ws, es), key), cutoff)| <= |Prune(Times(ws, key), cutoff)|
  {
    if es != [] {
      var es', e := es[..|es| - 1], es[|es| - 1];
      QuietShrinks(ws, es', key, cutoff);
      QuietStepShrinks(Run(ws, es'), e, key, cutoff);
    }
  }

  lemma QuietStepShrinks(ws: Windows, e: Event, key: Key, cutoff: int)
    requires Recorded(ws, e, key) == []
    ensures |Prune(Times(Step(ws, e), key), cutoff)| <= |Prune(Times(ws, key), cutoff)|
  {
    match e {
      case Gc(now) => PruneShrinks(Times(ws, key), now - GC_AGE, cutoff);
      case Attempt(_, _, width, now) => PruneShrinks(Times(ws, key), now - width, cutoff);
    }
  }

  lemma {:induction false} WindowNeverOverfull(es: seq<Event>, key: Key, limit: nat)
    requires FixedLimit(es, key, limit)
    ensures |Times(Run(map[], es), key)| <= limit
  {
    if es != [] {
      var es', e := es[..|es| - 1], es[|es| - 1];
      WindowNeverOverfull(es', key, limit);
      var ts := Times(Run(map[], es'), key);
      match e {
        case Gc(now) => PruneSuffix(ts, now - GC_AGE);
        case Attempt(_, _, width, now) => PruneSuffix(ts, now - width);
      }
    }
  }

  /**
   The wait is enough: under a fixed limit, whatever sweeps and refusals come in between, an attempt
   made `wait` or more after the refusal is admitted if nobody else was admitted meanwhile.
   */
  lemma {:induction false} WaitIsSufficient(
    past: seq<Event>, key: Key, limit: nat, width: int, now: int, es: seq<Event>, later: int)
    requires FixedLimit(past, key, limit)
    requires var ws := Run(map[], past);
      Refused(ws, key, limit, width, now) &&
      Quiet(Decide(ws, key, limit, width, now).0, es, key) &&
      later >= now + Decide(ws, key, limit, width, now).1.wait
    ensures var (ws', _) := Decide(Run(map[], past), key, limit, width, now);
      Decide(Run(ws', es), key, limit, width, later).1.ok
  {
    var ws := Run(map[], past);
    var kept := Counted(ws, key, width, now);
    WindowNeverOverfull(past, key, limit);
    PruneSuffix(Times(ws, key), now - width);
    var (ws', v) := Decide(ws, key, limit, width, now);
    assert Times(ws', key) == kept;
    QuietShrinks(ws', es, key, later - width);
    assert kept[0] <= later - width;
    PruneSuffix(kept[1..], later - width);
  }

  /** Until the oldest counted admission expires, nothing on this key changes: every attempt is refused. */
  lemma {:induction false} WindowFrozen(ws: Windows, key: Key, limit: int, width: int, now: int, es: seq<Event>)
    requires Refused(ws, key, limit, width, now) && width <= GC_AGE
    requires FixedLimit(es, key, limit) && FixedWidth(es, key, width)
    requires forall e :: e in es ==> e.now < Counted(ws, key, width, now)[0] + width
    ensures var (ws', _) := Decide(ws, key, limit, width, now);
      Times(Run(ws', es), key) == Counted(ws, key, width, now) && Quiet(ws', es, key)
  {
    if es != [] {
      var e := es[|es| - 1];
      assert e in es;
      WindowFrozen(ws, key, limit, width, now, es[..|es| - 1]);
    }
  }

  /**
   The wait is not longer than needed: unless the one-second floor raised it, every attempt strictly
   before `now + wait` is refused, whatever other attempts and sweeps come in between.
   */
  lemma {:induction false} WaitIsTight(
    ws: Windows, key: Key, limit: int, width: int, now: int, es: seq<Event>, early: int)
    requires Refused(ws, key, limit, width, now) && width <= GC_AGE
    requires FixedLimit(es, key, limit) && FixedWidth(es, key, width)
    requires Counted(ws, key, width, now)[0] + width - now >= SECOND
    requires var wait := Decide(ws, key, limit, width, now).1.wait;
      early < now + wait && forall e :: e in es ==> e.now < now + wait
    ensures var (ws', _) := Decide(ws, key, limit, width, now);
      Refused(Run(ws', es), key, limit, width, early)
  {
    WindowFrozen(ws, key, limit, width, now, es);
  }

  /** The Retry-After header: time.Duration.Seconds() converted to int drops the fraction. */
  function HeaderSeconds(wait: int): int {
    wait / SECOND
  }

  /**
   A client that obeys the header alone is let in exactly when the oldest admission that counted against it
   had at most a second left in the window, or a whole number of seconds; otherwise it comes back too early.
   */
  lemma {:induction false} HeaderSufficesIff(past: seq<Event>, key: Key, limit: nat, width: int, now: int)
    requires FixedLimit(past, key, limit) && Refused(Run(map[], past), key, limit, width, now)
    ensures var ws := Run(map[], past);
      var (ws', v) := Decide(ws, key, limit, width, now);
      var left := Counted(ws, key, width, now)[0] + width - now;
      Decide(ws', key, limit, width, now + SECOND * HeaderSeconds(v.wait)).1.ok <==>
        left <= SECOND || left % SECOND == 0
  {
    var ws := Run(map[], past);
    var (ws', v) := Decide(ws, key, limit, width, now);
    var kept := Counted(ws, key, width, now);
    var left := kept[0] + width - now;
    if left <= SECOND || left % SECOND == 0 {
      WaitIsSufficient(past, key, limit, width, now, [], now + v.wait);
    } else {
      var back := now + SECOND * HeaderSeconds(v.wait);
      assert ws'[key] == kept && kept[0] > back - width;
      assert Prune(kept, back - width) == kept;
    }
  }

  /** One admission a minute, used at 0: refused at 58.5 s, told "1 second", refused again at 59.5 s. */
  lemma HeaderTooShort(key: Key)
    ensures var past, now := [Attempt(key, 1, MINUTE, 0)], 58_500;
      var (ws', v) := Decide(Run(map[], past), key, 1, MINUTE, now);
      v == Verdict(false, 1_500) && HeaderSeconds(v.wait) == 1 &&
      !Decide(ws', key, 1, MINUTE, now + SECOND * HeaderSeconds(v.wait)).1.ok
  {
    var past := [Attempt(key, 1, MINUTE, 0)];
    assert past[..0] == [] && Run(map[], past[..0]) == map[];
    assert Run(map[], past) == Step(map[], past[0]) == map[key := [] + [0]];
    HeaderSufficesIff(past, key, 1, MINUTE, 58_500);
  }
}
