/** `RunStreamRegistry`: which finished streams are kept for replay, and for how long. */
module Retention {
  import opened Common
  import opened Delivery
  import opened EventStream

  /** `time.monotonic`: any reading not before the previous one. */
  class MonotonicClock {
    var last: real

    method Read() returns (now: real)
      modifies this
      ensures now == last && now >= old(last)
    {
      now := *;
      if now < last {
        now := last;
      }
      last := now;
    }
  }

  function RunIds(streams: seq<RunEventStream>): set<string> {
    set s | s in streams :: s.runId
  }

  lemma {:induction false} AtMostOneIdEach(streams: seq<RunEventStream>)
    ensures |RunIds(streams)| <= |streams|
  {
    if streams != [] {
      AtMostOneIdEach(streams[1..]);
      assert RunIds(streams) == {streams[0].runId} + RunIds(streams[1..]);
    }
  }

  class RunStreamRegistry {
    const retention: real
    const maxRetained: nat
    const maxHistoryEvents: int
    const maxHistoryBytes: int
    const clock: MonotonicClock
    var streams: map<string, RunEventStream>
    var expiry: seq<RunEventStream>

    constructor (retention: real, maxRetained: nat, maxHistoryEvents: int, maxHistoryBytes: int, clock: MonotonicClock)
      ensures Valid() && streams == map[] && expiry == []
      ensures this.retention == retention && this.maxRetained == maxRetained && this.clock == clock
      ensures this.maxHistoryEvents == maxHistoryEvents && this.maxHistoryBytes == maxHistoryBytes
    {
      this.retention, this.maxRetained, this.clock := retention, maxRetained, clock;
      this.maxHistoryEvents, this.maxHistoryBytes := maxHistoryEvents, maxHistoryBytes;
      streams, expiry := map[], [];
    }

    /** The constructor as callers reach it: a negative budget is a ValueError. */
    static method Create(retention: real, maxRetained: int, maxHistoryEvents: int, maxHistoryBytes: int,
                         clock: MonotonicClock)
      returns (r: Result<RunStreamRegistry, ()>)
      ensures r.Err? <==> maxRetained < 0
      ensures r.Ok? ==> fresh(r.value) && r.value.Valid() && r.value.streams == map[]
      ensures r.Ok? ==> r.value.retention == retention && r.value.maxRetained == maxRetained && r.value.clock == clock
      ensures r.Ok? ==>
                r.value.maxHistoryEvents == maxHistoryEvents && r.value.maxHistoryBytes == maxHistoryBytes
    {
      if maxRetained < 0 {
        return Err(());
      }
      var registry := new RunStreamRegistry(retention, maxRetained, maxHistoryEvents, maxHistoryBytes, clock);
      return Ok(registry);
    }

    /** The stream was opened with this registry's history budgets. */
    predicate Budgeted(s: RunEventStream) {
      s.maxHistoryEvents == maxHistoryEvents && s.maxHistoryBytes == maxHistoryBytes
    }

    /** The expiry queue holds finished resumable streams, each once, in the order
        they were closed, and every finished stream still mapped is in it. */
    ghost predicate Sound()
      reads this, clock, streams.Values, expiry
    {
      && (forall id <- streams :: streams[id].runId == id && Budgeted(streams[id]))
      && (forall i :: 0 <= i < |expiry| ==> expiry[i].closedAt.Some? && expiry[i].closedAt.value <= clock.last)
      && (forall i, j :: 0 <= i < j < |expiry| ==>
                           expiry[i] != expiry[j] && expiry[i].closedAt.value <= expiry[j].closedAt.value)
      && (forall id <- streams :: streams[id].closedAt.Some? ==> streams[id].resumable && streams[id] in expiry)
    }

    /** Between calls it is within the budget, too. */
    ghost predicate Valid()
      reads this, clock, streams.Values, expiry
    {
      Sound() && |expiry| <= maxRetained
    }

    ghost predicate Expired(s: RunEventStream)
      reads this, clock, s
    {
      s.closedAt.Some? && clock.last - s.closedAt.value >= retention
    }

    /** The run ids of the finished streams still kept. */
    function Finished(): (ids: set<string>)
      reads this, streams.Values
    {
      set id | id in streams && streams[id].closedAt.Some?
    }

    /** The finished streams kept never exceed the budget, after any method. */
    lemma FinishedFit()
      requires Valid()
      ensures |Finished()| <= maxRetained
    {
      FinishedAreQueued();
    }

    /** A mapped resumable stream keeps the longest suffix of what it published that fits
        the two history budgets of the registry; a cursor expires only below it. */
    lemma HistoryFits(id: string)
      requires Valid() && id in streams && streams[id].Valid() && streams[id].resumable
      ensures var s := streams[id];
        && s.evictedThroughId <= |s.published| && s.history == s.published[s.evictedThroughId..]
        && (s.history == [] || Fits(s.history, maxHistoryEvents, maxHistoryBytes))
        && forall k :: 0 <= k < s.evictedThroughId ==> !Fits(s.published[k..], maxHistoryEvents, maxHistoryBytes)
    {
      var s := streams[id];
      assert Budgeted(s) && LongestFittingSuffix(s.View());
    }

    lemma FinishedAreQueued()
      requires Sound()
      ensures |Finished()| <= |expiry|
    {
      AtMostOneIdEach(expiry);
      forall id | id in Finished() ensures id in RunIds(expiry) {
        assert streams[id] in expiry;
      }
      SubsetSize(Finished(), RunIds(expiry));
    }

    /** What dropping these streams leaves mapped. */
    static ghost predicate Without(before: map<string, RunEventStream>, gone: seq<RunEventStream>,
                                   after: map<string, RunEventStream>)
    {
      && after.Keys <= before.Keys
      && (forall id <- before :: if before[id] in gone then id !in after else id in after && after[id] == before[id])
    }

    static lemma WithoutBoth(before: map<string, RunEventStream>, a: seq<RunEventStream>,
                             middle: map<string, RunEventStream>, b: seq<RunEventStream>,
                             after: map<string, RunEventStream>)
      requires Without(before, a, middle) && Without(middle, b, after)
      ensures Without(before, a + b, after)
    {
    }

    ghost predicate Dropped(before: map<string, RunEventStream>, queue: seq<RunEventStream>, n: nat)
      reads this
      requires n <= |queue|
    {
      expiry == queue[n..] && Without(before, queue[..n], streams)
    }

    method DropOldest(ghost before: map<string, RunEventStream>, ghost queue: seq<RunEventStream>, ghost n: nat)
      requires expiry != [] && n < |queue| && Dropped(before, queue, n)
      requires forall id <- before :: before[id].runId == id
      modifies this`streams, this`expiry
      ensures Dropped(before, queue, n + 1)
    {
      var oldest := expiry[0];
      expiry := expiry[1..];
      assert oldest == queue[n] && queue[..n + 1] == queue[..n] + [queue[n]];
      if oldest.runId in streams && streams[oldest.runId] == oldest {
        streams := streams - {oldest.runId};
      }
    }

    /** `_sweep`: only the front is looked at, yet everything expired goes, and
        nothing else does. */
    method Sweep() returns (ghost n: nat)
      requires Sound()
      modifies this`streams, this`expiry, clock
      ensures Sound() && clock.last >= old(clock.last)
      ensures n <= |old(expiry)| && Dropped(old(streams), old(expiry), n)
      ensures forall i :: 0 <= i < n ==> Expired(old(expiry)[i])
      ensures forall i :: 0 <= i < |expiry| ==> !Expired(expiry[i])
      ensures forall id <- old(streams) :: if Expired(old(streams)[id]) then id !in streams
                                           else id in streams && streams[id] == old(streams)[id]
      ensures streams.Keys <= old(streams).Keys && |expiry| <= |old(expiry)|
    {
      var now := clock.Read();
      n := 0;
      while expiry != [] && now - expiry[0].closedAt.value >= retention
        invariant clock.last == now
        invariant n <= |old(expiry)| && Dropped(old(streams), old(expiry), n)
        invariant forall i :: 0 <= i < n ==> Expired(old(expiry)[i])
        decreases |expiry|
      {
        assert expiry[0] == old(expiry)[n];
        DropOldest(old(streams), old(expiry), n);
        n := n + 1;
      }
    }

    /** `open`: no stream of another run is affected, unless it had expired. */
    method Open(threadId: string, runId: string, resumable: bool) returns (stream: RunEventStream)
      requires Valid()
      modifies this`streams, this`expiry, clock
      ensures Valid() && fresh(stream)
      ensures stream.threadId == threadId && stream.runId == runId && stream.resumable == resumable
      ensures stream.View() == NewLog(resumable, maxHistoryEvents, maxHistoryBytes) && stream.Valid()
      ensures runId in streams && streams[runId] == stream
      ensures forall id <- old(streams) | id != runId ::
                if Expired(old(streams)[id]) then id !in streams else id in streams && streams[id] == old(streams)[id]
    {
      ghost var _ := Sweep();
      stream := new RunEventStream(threadId, runId, resumable, maxHistoryEvents, maxHistoryBytes);
      streams := streams[runId := stream];
    }

    /** `get`: never an expired stream, never another thread's; a stream that is
        there under its own thread, running or within its window, is found. */
    method Get(threadId: string, runId: string) returns (r: Option<RunEventStream>)
      requires Valid()
      modifies this`streams, this`expiry, clock
      ensures Valid()
      ensures r.Some? ==> r.value.threadId == threadId && r.value.runId == runId && !Expired(r.value)
                          && runId in old(streams) && r.value == old(streams)[runId]
      ensures r.None? ==> runId !in old(streams) || old(streams)[runId].threadId != threadId
                          || Expired(old(streams)[runId])
      ensures forall id <- old(streams) ::
                old(streams)[id].closedAt.None? ==> id in streams && streams[id] == old(streams)[id]
    {
      ghost var _ := Sweep();
      if runId in streams && streams[runId].threadId == threadId {
        r := Some(streams[runId]);
      } else {
        r := None;
      }
    }

    /** Evict the oldest finished streams beyond the budget. */
    method Trim() returns (ghost n: nat)
      requires Sound()
      modifies this`streams, this`expiry
      ensures Valid() && |Finished()| <= maxRetained
      ensures n <= |old(expiry)| && Dropped(old(streams), old(expiry), n) && (n > 0 ==> |expiry| == maxRetained)
    {
      n := 0;
      while |expiry| > maxRetained
        invariant n <= |old(expiry)| && Dropped(old(streams), old(expiry), n)
        invariant n > 0 ==> |expiry| >= maxRetained
        decreases |expiry|
      {
        DropOldest(old(streams), old(expiry), n);
        n := n + 1;
      }
      FinishedAreQueued();
    }

    method Shut(stream: RunEventStream)
      requires stream.Valid()
      modifies clock, stream`closedAt, stream.subscribers.Keys
      ensures clock.last >= old(clock.last)
      ensures stream.closedAt == if old(stream.closedAt).Some? then old(stream.closedAt) else Some(clock.last)
    {
      var now := clock.Read();
      stream.Close(now);
    }

    /** The part of `close` that finishes the stream and queues it for expiry. */
    method Finish(stream: RunEventStream)
      requires Valid() && stream.Valid()
      requires stream.closedAt.None? ==> stream.runId in streams && streams[stream.runId] == stream
      modifies this`streams, this`expiry, clock, stream`closedAt, stream.subscribers.Keys
      ensures Sound() && stream.closedAt.Some?
      ensures var kept := stream.resumable && retention > 0.0;
              && streams == (if kept then old(streams) else old(streams) - {stream.runId})
              && expiry == old(expiry) + (if kept && old(stream.closedAt.None?) then [stream] else [])
    {
      var wasClosed := stream.closedAt.Some?;
      assert !wasClosed ==> stream !in expiry;
      Shut(stream);
      assert forall i :: 0 <= i < |expiry| ==> expiry[i].closedAt == old(expiry[i].closedAt);
      if !stream.resumable || retention <= 0.0 {
        streams := streams - {stream.runId};
      } else if !wasClosed {
        expiry := expiry + [stream];
      }
    }

    /** A queued stream is dropped only for cause: it expired, or the budget is
        filled by streams closed after it. */
    ghost predicate ForCause(queue: seq<RunEventStream>, n: nat)
      reads this, clock, queue
      requires n <= |queue|
    {
      forall i :: 0 <= i < n ==> Expired(queue[i]) || |queue| - i > maxRetained
    }

    method SweepAndTrim() returns (ghost n: nat)
      requires Sound()
      modifies this`streams, this`expiry, clock
      ensures Valid() && |Finished()| <= maxRetained && clock.last >= old(clock.last)
      ensures n <= |old(expiry)| && Dropped(old(streams), old(expiry), n) && ForCause(old(expiry), n)
      ensures forall i :: 0 <= i < |expiry| ==> !Expired(expiry[i])
    {
      ghost var k := Sweep();
      ghost var middle, queue := streams, expiry;
      ghost var m := Trim();
      n := k + m;
      TakeMore(old(expiry), k, m);
      WithoutBoth(old(streams), old(expiry)[..k], middle, queue[..m], streams);
    }

    /** `close`. Every other running stream stays, and no more than the budget of
        finished streams is kept: the `n` streams that go are the oldest, and each goes
        because it expired or because newer ones fill the budget. */
    method Close(stream: RunEventStream) returns (ghost n: nat)
      requires Valid() && stream.Valid()
      requires stream.closedAt.None? ==> stream.runId in streams && streams[stream.runId] == stream
      modifies this`streams, this`expiry, clock, stream`closedAt, stream.subscribers.Keys
      ensures Valid() && stream.closedAt.Some?
      ensures forall id <- old(streams) :: old(streams[id].closedAt.None?) && id != stream.runId ==>
                                             id in streams && streams[id] == old(streams)[id]
      ensures |Finished()| <= maxRetained
      ensures forall i :: 0 <= i < |expiry| ==> !Expired(expiry[i])
      ensures !stream.resumable || retention <= 0.0 ==> stream.runId !in streams
      ensures stream.resumable && retention > 0.0 && old(stream.closedAt).None? && maxRetained > 0 && !Expired(stream)
              ==> stream.runId in streams && streams[stream.runId] == stream
      ensures |old(expiry)| < maxRetained ==>
                forall id <- old(streams) | id != stream.runId && !Expired(old(streams)[id]) ::
                  id in streams && streams[id] == old(streams)[id]
      ensures var kept := stream.resumable && retention > 0.0;
              var queue := old(expiry) + (if kept && old(stream.closedAt.None?) then [stream] else []);
              var mapped := if kept then old(streams) else old(streams) - {stream.runId};
              n <= |queue| && expiry == queue[n..] && Without(mapped, queue[..n], streams) && ForCause(queue, n)
    {
      Finish(stream);
      n := SweepAndTrim();
    }
  }
}
