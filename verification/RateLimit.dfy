/**
 The in-process sliding-window limiter (internal/ratelimit/ratelimit.go). Times are Unix
 milliseconds; the clock reading of every operation is a parameter.
 */
module RateLimit {
  /** The three families of string keys the callers build: "u:<id>", "up:<id>", "auth:<kind>:<ip>". */
  datatype Key = UserRpm(id: int) | UpstreamRpm(id: int) | Auth(kind: string, ip: string)

  type Windows = map<Key, seq<int>>

  const MINUTE := 60_000
  const GC_AGE := 120_000
  const SECOND := 1_000

  datatype Verdict = Verdict(ok: bool, wait: int)

  function Max(a: int, b: int): int {
    if a >= b then a else b
  }

  function Times(ws: Windows, key: Key): seq<int> {
    if key in ws then ws[key] else []
  }

  /** Drops the leading entries that are no later than the cutoff. */
  function Prune(ts: seq<int>, cutoff: int): seq<int> {
    if ts != [] && ts[0] <= cutoff then Prune(ts[1..], cutoff) else ts
  }

  /** One attempt: the new table and the answer. */
  function Decide(ws: Windows, key: Key, limit: int, width: int, now: int): (Windows, Verdict) {
    if limit <= 0 || width <= 0 then (ws, Verdict(true, 0))
    else
      var kept := Prune(Times(ws, key), now - width);
      if |kept| >= limit then (ws[key := kept], Verdict(false, Max(SECOND, kept[0] + width - now)))
      else (ws[key := kept + [now]], Verdict(true, 0))
  }

  /** One tick of the collector. */
  function Collect(ws: Windows, now: int): Windows {
    map k | k in ws && Prune(ws[k], now - GC_AGE) != [] :: Prune(ws[k], now - GC_AGE)
  }

  lemma PruneFrom(ts: seq<int>, cutoff: int, i: nat)
    requires i <= |ts|
    requires forall j :: 0 <= j < i ==> ts[j] <= cutoff
    requires i < |ts| ==> ts[i] > cutoff
    ensures Prune(ts, cutoff) == ts[i..]
  {
    if i > 0 {
      PruneFrom(ts[1..], cutoff, i - 1);
      assert ts[1..][i - 1..] == ts[i..];
    }
  }

  class Limiter {
    var windows: Windows

    /** How many leading entries the cutoff has expired. */
    static method Expired(times: seq<int>, cutoff: int) returns (i: nat)
      ensures i <= |times| && Prune(times, cutoff) == times[i..]
    {
      i := 0;
      while i < |times| && times[i] <= cutoff
        invariant i <= |times|
        invariant forall j :: 0 <= j < i ==> times[j] <= cutoff
      {
        i := i + 1;
      }
      PruneFrom(times, cutoff, i);
    }

    constructor ()
      ensures windows == map[]
    {
      windows := map[];
    }

    /** At most rpm admissions a minute. A non-positive rpm means no limit. */
    method Allow(key: Key, rpm: int, now: int) returns (ok: bool, retryAfter: int)
      modifies this
      ensures windows == Decide(old(windows), key, rpm, MINUTE, now).0
      ensures Verdict(ok, retryAfter) == Decide(old(windows), key, rpm, MINUTE, now).1
    {
      if rpm <= 0 {
        return true, 0;
      }
      var cutoff := now - MINUTE;
      if key !in windows {
        windows := windows[key := []];
      }
      var times := windows[key];
      var i := Expired(times, cutoff);
      if i > 0 {
        times := times[i..];
      }
      windows := windows[key := times];
      assert windows == old(windows)[key := times];
      if |times| >= rpm {
        var wait := times[0] + MINUTE - now;
        if wait < SECOND {
          wait := SECOND;
        }
        return false, wait;
      }
      windows := windows[key := times + [now]];
      assert windows == old(windows)[key := times + [now]];
      return true, 0;
    }

    /** At most limit admissions per span. A non-positive limit or span means no limit. */
    method AllowWindow(key: Key, limit: int, span: int, now: int) returns (ok: bool, retryAfter: int)
      modifies this
      ensures windows == Decide(old(windows), key, limit, span, now).0
      ensures Verdict(ok, retryAfter) == Decide(old(windows), key, limit, span, now).1
    {
      if limit <= 0 || span <= 0 {
        return true, 0;
      }
      var cutoff := now - span;
      if key !in windows {
        windows := windows[key := []];
      }
      var times := windows[key];
      var i := Expired(times, cutoff);
      if i > 0 {
        times := times[i..];
      }
      windows := windows[key := times];
      assert windows == old(windows)[key := times];
      if |times| >= limit {
        var wait := times[0] + span - now;
        if wait < SECOND {
          wait := SECOND;
        }
        return false, wait;
      }
      windows := windows[key := times + [now]];
      assert windows == old(windows)[key := times + [now]];
      return true, 0;
    }

    /** One pass of the collector over the table, in whatever order the map yields its keys. */
    method Gc(now: int)
      modifies this
      ensures windows == Collect(old(windows), now)
    {
      var cutoff := now - GC_AGE;
      var todo := windows.Keys;
      while todo != {}
        invariant todo <= windows.Keys <= old(windows).Keys
        invariant forall k :: k in todo ==> windows[k] == old(windows)[k]
        invariant forall k :: k in windows && k !in todo ==>
          k in Collect(old(windows), now) && windows[k] == Collect(old(windows), now)[k]
        invariant forall k :: k in Collect(old(windows), now) && k !in todo ==> k in windows
        decreases todo
      {
        var k :| k in todo;
        var times := windows[k];
        var i := Expired(times, cutoff);
        todo := todo - {k};
        if i == |times| {
          windows := windows - {k};
        } else {
          windows := windows[k := times[i..]];
        }
      }
    }
  }
}
