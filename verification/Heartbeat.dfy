/** Why a live run is not swept (src/skeino/ops/runs.py:1158-1194, config.py): how old
    the heartbeat of an in-flight row can get while its owner is alive.
 */
module Heartbeat {

  /** One heartbeat pass of the owner. A pass that fails touches nothing; one that does
      not writes `stamp`, read from the clock no earlier than its start, at `landed`. */
  datatype Pass = Pass(start: real, stamp: real, landed: real, end: real, ok: bool)

  /** The interval slept between passes; the longest pass, timer slack included; and how
      old the timestamp of any other write to the row can be when it lands. */
  datatype Timing = Timing(interval: real, pass: real, lag: real)

  /** A live owner: `sleep(interval)`, then a pass, forever; no two passes in a row fail. */
  ghost predicate Alive(ps: nat -> Pass, t: Timing) {
    && t.interval > 0.0 && t.pass >= 0.0 && t.lag >= 0.0
    && forall i: nat :: Follows(ps(i), ps(i + 1), t)
  }

  predicate Follows(p: Pass, q: Pass, t: Timing) {
    && p.start <= p.end && p.end + t.interval <= q.start <= p.start + t.interval + t.pass
    && (p.ok ==> p.start <= p.stamp <= p.landed <= p.end)
    && (p.ok || q.ok)
  }

  /** A row, and when its run became one of the registry's active runs: before the
      insert for a streaming run, just after it for a background run. */
  datatype Owned = Owned(inserted: real, registered: real)

  function From(row: Owned): real { if row.inserted < row.registered then row.registered else row.inserted }

  /** How long the row is there before its run is tracked. */
  function Delay(row: Owned): real { From(row) - row.inserted }

  /** The pass heartbeats the row. */
  predicate Touches(p: Pass, row: Owned) {
    p.ok && p.start >= row.registered && p.landed >= row.inserted
  }

  /** The write that the row shows: a pass, or the insert or another update. */
  datatype Last = ByPass(i: nat) | ByOther(at: real, stamp: real)

  function At(ps: nat -> Pass, last: Last): real { if last.ByPass? then ps(last.i).landed else last.at }

  function UpdatedAt(ps: nat -> Pass, last: Last): real { if last.ByPass? then ps(last.i).stamp else last.stamp }

  /** `last` is the row's latest write at time `now`. */
  ghost predicate Shows(ps: nat -> Pass, t: Timing, row: Owned, last: Last, now: real) {
    && row.inserted <= At(ps, last) <= now
    && (last.ByPass? ==> Touches(ps(last.i), row))
    && (last.ByOther? ==> last.at - t.lag <= last.stamp)
    && forall i: nat :: Touches(ps(i), row) && ps(i).landed <= now ==> ps(i).landed <= At(ps, last)
  }

  function Bound(t: Timing, row: Owned): real { 2.0 * t.interval + 3.0 * t.pass + t.lag + Delay(row) }

  // ---------------------------------------------------------------- finding passes

  lemma {:induction false} StartsGrow(ps: nat -> Pass, t: Timing, i: nat)
    requires Alive(ps, t)
    ensures ps(i).start >= ps(0).start + i as real * t.interval
  {
    if i > 0 {
      StartsGrow(ps, t, i - 1);
      assert Follows(ps(i - 1), ps(i - 1 + 1), t);
    }
  }

  lemma SomeStart(ps: nat -> Pass, t: Timing, x: real) returns (n: nat)
    requires Alive(ps, t)
    ensures ps(n).start >= x
  {
    var gap := x - ps(0).start;
    if gap <= 0.0 { return 0; }
    n := (gap / t.interval).Floor + 1;
    StartsGrow(ps, t, n);
    var q := gap / t.interval;
    assert q * t.interval == gap;
    assert n as real >= q;
    assert n as real * t.interval >= q * t.interval;
  }

  /** The first pass that starts at `x` or later starts no more than a round after it. */
  lemma {:induction false} FirstStart(ps: nat -> Pass, t: Timing, x: real, n: nat) returns (f: nat)
    requires Alive(ps, t) && ps(n).start >= x && ps(0).start <= x + t.interval + t.pass
    ensures x <= ps(f).start <= x + t.interval + t.pass
  {
    if n == 0 { return 0; }
    if ps(n - 1).start >= x {
      f := FirstStart(ps, t, x, n - 1);
    } else {
      assert Follows(ps(n - 1), ps(n - 1 + 1), t);
      f := n;
    }
  }

  /** Of two passes in a row, one succeeds, and has landed within the second one. */
  lemma NextLands(ps: nat -> Pass, t: Timing, i: nat) returns (j: nat)
    requires Alive(ps, t)
    ensures i <= j && ps(j).ok && ps(i).start <= ps(j).start <= ps(j).landed
    ensures ps(j).landed <= ps(i).start + t.interval + 2.0 * t.pass
  {
    assert Follows(ps(i), ps(i + 1), t) && Follows(ps(i + 1), ps(i + 1 + 1), t);
    j := if ps(i).ok then i else i + 1;
  }

  // ---------------------------------------------------------------- the bound

  lemma {:induction false} InOrder(ps: nat -> Pass, t: Timing, i: nat, j: nat)
    requires Alive(ps, t) && i < j
    ensures ps(i).end <= ps(j).start
    decreases j
  {
    assert Follows(ps(j - 1), ps(j - 1 + 1), t);
    if i < j - 1 { InOrder(ps, t, i, j - 1); }
  }

  ghost predicate LatestTouch(ps: nat -> Pass, row: Owned, i: nat, now: real) {
    && Touches(ps(i), row) && ps(i).landed <= now
    && forall j: nat :: Touches(ps(j), row) && ps(j).landed <= now ==> ps(j).landed <= ps(i).landed
  }

  ghost predicate Untouched(ps: nat -> Pass, row: Owned, now: real) {
    forall j: nat :: Touches(ps(j), row) ==> ps(j).landed > now
  }

  /** By `now` the row has a latest heartbeat, or none yet. */
  lemma {:induction false} FindTouch(ps: nat -> Pass, t: Timing, row: Owned, now: real, n: nat)
    returns (found: bool, i: nat)
    requires Alive(ps, t)
    requires forall j: nat :: j >= n && Touches(ps(j), row) ==> ps(j).landed > now
    ensures if found then LatestTouch(ps, row, i, now) else Untouched(ps, row, now)
  {
    if n == 0 { return false, 0; }
    i := n - 1;
    if Touches(ps(i), row) && ps(i).landed <= now {
      forall j: nat | Touches(ps(j), row) && ps(j).landed <= now ensures ps(j).landed <= ps(i).landed {
        if j < i {
          InOrder(ps, t, j, i);
          assert Follows(ps(j), ps(j + 1), t) && Follows(ps(i), ps(i + 1), t);
        }
      }
      found := true;
    } else {
      found, i := FindTouch(ps, t, row, now, n - 1);
    }
  }

  /** A heartbeat is replaced by the next successful one, at most a pass late. */
  lemma AfterTouch(ps: nat -> Pass, t: Timing, row: Owned, i: nat, now: real)
    requires Alive(ps, t) && LatestTouch(ps, row, i, now)
    ensures now - ps(i).start <= 2.0 * t.interval + 3.0 * t.pass
  {
    assert Follows(ps(i), ps(i + 1), t);
    var j := NextLands(ps, t, i + 1);
    assert Touches(ps(j), row) && ps(j).landed > ps(i).landed;
  }

  /** Before the first heartbeat the row is no older than the rounds it can take. */
  lemma BeforeTouch(ps: nat -> Pass, t: Timing, row: Owned, now: real)
    requires Alive(ps, t) && Untouched(ps, row, now) && ps(0).start <= From(row) + t.interval + t.pass
    ensures now - From(row) <= 2.0 * t.interval + 3.0 * t.pass
  {
    var n := SomeStart(ps, t, From(row));
    var f := FirstStart(ps, t, From(row), n);
    var j := NextLands(ps, t, f);
    assert Touches(ps(j), row);
  }

  /** The oldest a live run's row can look: two intervals and three passes, plus the
      lag of its other writes and the delay before it is tracked. */
  lemma AgeIsBounded(ps: nat -> Pass, t: Timing, row: Owned, last: Last, now: real)
    requires Alive(ps, t) && Shows(ps, t, row, last, now)
    requires ps(0).start <= From(row) + t.interval + t.pass
    ensures now - UpdatedAt(ps, last) <= Bound(t, row)
  {
    if last.ByPass? {
      assert Follows(ps(last.i), ps(last.i + 1), t);
      AfterTouch(ps, t, row, last.i, now);
    } else {
      var n := SomeStart(ps, t, now + 1.0);
      forall j: nat | j >= n && Touches(ps(j), row) ensures ps(j).landed > now {
        if j > n { InOrder(ps, t, n, j); }
        assert Follows(ps(n), ps(n + 1), t) && Follows(ps(j), ps(j + 1), t);
      }
      var found, i := FindTouch(ps, t, row, now, n);
      if found {
        assert Follows(ps(i), ps(i + 1), t);
        AfterTouch(ps, t, row, i, now);
      } else {
        BeforeTouch(ps, t, row, now);
      }
    }
  }

  // ---------------------------------------------------------------- the sweep's test

  /** `fail_stale_runs`: `updated_at < now - timeout`, by the sweeper's clock, which is
      ahead of the owner's by `skew`. */
  predicate Stale(updatedAt: real, now: real, skew: real, timeout: real) {
    updatedAt < now + skew - timeout
  }

  /** A live run is never swept if the timeout covers the bound and the clock skew. */
  lemma LiveRunIsNotSwept(ps: nat -> Pass, t: Timing, row: Owned, last: Last, now: real, skew: real, timeout: real)
    requires Alive(ps, t) && Shows(ps, t, row, last, now)
    requires ps(0).start <= From(row) + t.interval + t.pass
    requires Bound(t, row) + skew <= timeout
    ensures !Stale(UpdatedAt(ps, last), now, skew, timeout)
  {
    AgeIsBounded(ps, t, row, last, now);
  }

  // ---------------------------------------------------------------- the bound is exact

  /** Every other pass fails, and every pass takes as long as it may; the first one
      starts, and fails, a full round after `d`. */
  function WorstPass(t: Timing, d: real, i: nat): Pass {
    var start := d + (i + 1) as real * (t.interval + t.pass);
    Pass(start, start, start + t.pass, start + t.pass, i % 2 == 1)
  }

  function Worst(t: Timing, d: real): nat -> Pass { (i: nat) => WorstPass(t, d, i) }

  lemma WorstIsAlive(t: Timing, d: real)
    requires t.interval > 0.0 && t.pass >= 0.0 && t.lag >= 0.0
    ensures Alive(Worst(t, d), t)
  {
    var ps := Worst(t, d);
    forall i: nat ensures Follows(ps(i), ps(i + 1), t) {
      assert (i + 2) as real * (t.interval + t.pass) == (i + 1) as real * (t.interval + t.pass) + (t.interval + t.pass);
    }
  }

  lemma WorstLandsLate(t: Timing, d: real, i: nat)
    requires t.interval > 0.0 && t.pass >= 0.0 && i >= 1
    ensures WorstPass(t, d, i).landed >= d + 2.0 * t.interval + 3.0 * t.pass
  {
    assert (i + 1) as real * (t.interval + t.pass) >= 2.0 * (t.interval + t.pass);
  }

  /** A row inserted with the oldest stamp it may have, `d` before its run is tracked,
      looks stale to any smaller timeout just before its first heartbeat lands. */
  lemma BoundIsTight(t: Timing, d: real, skew: real, timeout: real)
    returns (row: Owned, last: Last, now: real)
    requires t.interval > 0.0 && t.pass >= 0.0 && t.lag >= 0.0 && d >= 0.0
    requires timeout < 2.0 * t.interval + 3.0 * t.pass + t.lag + d + skew
    ensures var ps := Worst(t, d);
      && Alive(ps, t) && Shows(ps, t, row, last, now) && Delay(row) == d
      && ps(0).start <= From(row) + t.interval + t.pass
      && Stale(UpdatedAt(ps, last), now, skew, timeout)
  {
    var ps := Worst(t, d);
    WorstIsAlive(t, d);
    row, last := Owned(0.0, d), ByOther(0.0, -t.lag);
    var first, needed := d + 2.0 * t.interval + 3.0 * t.pass, timeout - t.lag - skew;
    now := ((if needed < 0.0 then 0.0 else needed) + first) / 2.0;
    forall i: nat | Touches(ps(i), row) ensures ps(i).landed > now {
      WorstLandsLate(t, d, i);
    }
  }

  /** No live run that is tracked within `d` of its insert is stale at any moment, for a
      sweeper whose clock is `skew` ahead. */
  ghost predicate NeverSwept(t: Timing, d: real, skew: real, timeout: real) {
    forall ps: nat -> Pass, row: Owned, last: Last, now: real ::
      Alive(ps, t) && Shows(ps, t, row, last, now) && Delay(row) <= d
      && ps(0).start <= From(row) + t.interval + t.pass
      ==> !Stale(UpdatedAt(ps, last), now, skew, timeout)
  }

  /** The exact slack, for streaming and background runs alike: two intervals, three
      passes, the lag of other writes, the delay until the run is tracked, the skew. */
  lemma SafeExactlyFromTheBound(t: Timing, d: real, skew: real, timeout: real)
    requires t.interval > 0.0 && t.pass >= 0.0 && t.lag >= 0.0 && d >= 0.0
    ensures NeverSwept(t, d, skew, timeout)
       <==> timeout >= 2.0 * t.interval + 3.0 * t.pass + t.lag + d + skew
  {
    if timeout >= 2.0 * t.interval + 3.0 * t.pass + t.lag + d + skew {
      forall ps: nat -> Pass, row: Owned, last: Last, now: real |
        Alive(ps, t) && Shows(ps, t, row, last, now) && Delay(row) <= d
        && ps(0).start <= From(row) + t.interval + t.pass
        ensures !Stale(UpdatedAt(ps, last), now, skew, timeout)
      {
        LiveRunIsNotSwept(ps, t, row, last, now, skew, timeout);
      }
    } else {
      var row, last, now := BoundIsTight(t, d, skew, timeout);
      assert Alive(Worst(t, d), t) && Shows(Worst(t, d), t, row, last, now);
    }
  }

  // ---------------------------------------------------------------- the settings

  /** `_orphan_timeout_outlasts_heartbeat`. */
  predicate SettingsAccepted(interval: real, timeout: real) { timeout >= 3.0 * interval }

  /** Every timeout that the settings check accepts protects every live run. */
  ghost predicate SettingsProtect(t: Timing, d: real, skew: real) {
    forall timeout: real :: SettingsAccepted(t.interval, timeout) ==> NeverSwept(t, d, skew, timeout)
  }

  /** The settings check is enough exactly when three passes, the lag, the delay and the
      clock skew fit into one interval. */
  lemma SettingsProtectLiveRuns(t: Timing, d: real, skew: real)
    requires t.interval > 0.0 && t.pass >= 0.0 && t.lag >= 0.0 && d >= 0.0
    ensures SettingsProtect(t, d, skew) <==> 3.0 * t.pass + t.lag + d + skew <= t.interval
  {
    forall timeout: real ensures NeverSwept(t, d, skew, timeout) <==>
      timeout >= 2.0 * t.interval + 3.0 * t.pass + t.lag + d + skew
    {
      SafeExactlyFromTheBound(t, d, skew, timeout);
    }
    assert SettingsAccepted(t.interval, 3.0 * t.interval);
  }

  /** So passes of a third of the interval are short enough for streaming runs, whose
      slot is reserved before the insert, while their other writes stamp without lag and
      all workers share one clock; and for no others: a background run is tracked a
      little after its insert. */
  lemma BackgroundRunsNeedMore(t: Timing, d: real, skew: real)
    requires t.interval > 0.0 && t.pass == t.interval / 3.0 && t.lag >= 0.0 && d >= 0.0 && skew >= 0.0
    ensures SettingsProtect(t, d, skew) <==> t.lag == 0.0 && d == 0.0 && skew == 0.0
  {
    SettingsProtectLiveRuns(t, d, skew);
  }
}
