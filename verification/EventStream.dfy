/** `RunEventStream` and its subscriptions as the objects they are, proved against
    the functions of Delivery.dfy.
 */
module EventStream {
  import opened Common
  import opened Frames
  import opened Delivery

  // ------------------------------------------------- one resumption of the drain

  predicate AtYield(sub: Sub) { sub.pc.ReplayYield? || sub.pc.LiveYield? }

  /** The generator has handed over an event, waits on its queue, or has ended. */
  predicate Suspended(sub: Sub) {
    sub.Done() || AtYield(sub) || (sub.pc.Get? && sub.queue == [])
  }

  /** The overflow mark is only ever alone in a queue. */
  predicate MarkAlone(queue: seq<Item>) {
    forall i :: 0 < i < |queue| ==> !queue[i].Overflow?
  }

  function UntilSuspended(log: Log, sub: Sub): Sub
    requires MarkAlone(sub.queue)
    decreases Rank(log, sub)
  {
    if Suspended(sub) then sub
    else
      MovesOn(log, sub);
      UntilSuspended(log, Move(log, sub))
  }

  /** What one resumption of the generator does. */
  function Resumed(log: Log, sub: Sub): Sub
    requires MarkAlone(sub.queue)
  {
    UntilSuspended(log, if AtYield(sub) then Move(log, sub) else sub)
  }

  lemma MovesOn(log: Log, sub: Sub)
    requires MarkAlone(sub.queue) && !Suspended(sub)
    ensures Rank(log, Move(log, sub)) < Rank(log, sub) && MarkAlone(Move(log, sub).queue)
  {
    if sub.pc.Get? {
      MatchingIsNoLonger(log.history, sub.delivered, sub.modes);
    }
  }

  /** A resumption is some number of the machine's moves. */
  lemma {:induction false} UntilSuspendedIsMoves(log: Log, sub: Sub) returns (n: nat)
    requires MarkAlone(sub.queue)
    ensures UntilSuspended(log, sub) == Moves(log, sub, n) && Suspended(Moves(log, sub, n))
    decreases Rank(log, sub)
  {
    if Suspended(sub) {
      n := 0;
    } else {
      MovesOn(log, sub);
      n := UntilSuspendedIsMoves(log, Move(log, sub));
      n := n + 1;
    }
  }

  lemma ResumedIsMoves(log: Log, sub: Sub) returns (n: nat)
    requires MarkAlone(sub.queue)
    ensures Resumed(log, sub) == Moves(log, sub, n) && Suspended(Moves(log, sub, n))
  {
    n := UntilSuspendedIsMoves(log, if AtYield(sub) then Move(log, sub) else sub);
    if AtYield(sub) {
      n := n + 1;
    }
  }

  lemma SuspendedStays(log: Log, sub: Sub)
    requires MarkAlone(sub.queue) && Suspended(sub)
    ensures UntilSuspended(log, sub) == sub
  {
  }

  lemma OfferAlone(queue: seq<Item>, modes: seq<string>, e: StreamEvent)
    requires MarkAlone(queue)
    ensures MarkAlone(Offer(queue, modes, e))
  {
  }

  lemma {:induction false} MovesKeep(log: Log, sub: Sub, n: nat)
    requires LogInv(log) && SubInv(log, sub)
    ensures SubInv(log, Moves(log, sub, n))
    decreases n
  {
    if n > 0 {
      MoveKeeps(log, sub);
      MovesKeep(log, Move(log, sub), n - 1);
    }
  }

  lemma ResumedKeeps(log: Log, sub: Sub)
    requires LogInv(log) && SubInv(log, sub) && MarkAlone(sub.queue)
    ensures SubInv(log, Resumed(log, sub))
  {
    var n := ResumedIsMoves(log, sub);
    MovesKeep(log, sub, n);
  }

  // ---------------------------------------------------------------- the objects

  /** `asyncio.Queue(maxsize=256)`, by its contents. */
  class SubscriberQueue {
    var items: seq<Item>

    constructor (items: seq<Item>)
      ensures this.items == items
    {
      this.items := items;
    }
  }

  class RunEventStream {
    const threadId: string
    const runId: string
    const resumable: bool
    const maxHistoryEvents: int
    const maxHistoryBytes: int
    var closedAt: Option<real>
    var nextId: nat
    var history: seq<StreamEvent>
    var historyBytes: int
    var evictedThroughId: nat
    var subscribers: map<SubscriberQueue, seq<string>>
    ghost var published: seq<StreamEvent>

    constructor (threadId: string, runId: string, resumable: bool, maxHistoryEvents: int, maxHistoryBytes: int)
      ensures Valid() && View() == NewLog(resumable, maxHistoryEvents, maxHistoryBytes)
      ensures this.threadId == threadId && this.runId == runId && this.resumable == resumable
      ensures closedAt == None && subscribers == map[]
    {
      this.threadId, this.runId, this.resumable := threadId, runId, resumable;
      this.maxHistoryEvents, this.maxHistoryBytes := maxHistoryEvents, maxHistoryBytes;
      closedAt, nextId, history, historyBytes, evictedThroughId := None, 1, [], 0, 0;
      subscribers, published := map[], [];
    }

    ghost function View(): Log
      reads this
    {
      Log(resumable, maxHistoryEvents, maxHistoryBytes, published, history, historyBytes,
          evictedThroughId, closedAt.Some?)
    }

    ghost predicate Valid()
      reads this
    {
      nextId == |published| + 1 && LogInv(View())
    }

    function LastEventId(): int
      reads this
    {
      nextId - 1
    }

    predicate CursorExpired(after: int)
      reads this
    {
      evictedThroughId > 0 && after < evictedThroughId
    }

    /** The part of `publish` that numbers and retains the event. */
    method Retain(e: StreamEvent)
      requires Valid() && closedAt.None? && e.eventId == nextId
      modifies this`nextId, this`published, this`history, this`historyBytes, this`evictedThroughId
      ensures Valid() && View() == Append(old(View()), e)
    {
      AppendKeepsLog(View(), e);
      hide LogInv;
      nextId, published := nextId + 1, published + [e];
      if resumable {
        history, historyBytes := history + [e], historyBytes + Utf8Length(e.frame);
        while history != [] && (|history| > maxHistoryEvents || historyBytes > maxHistoryBytes)
          invariant nextId == |published| + 1
          invariant Evict(View()) == Append(old(View()), e)
          decreases |history|
        {
          var evicted := history[0];
          history, historyBytes := history[1..], historyBytes - Utf8Length(evicted.frame);
          evictedThroughId := evicted.eventId;
        }
      }
    }

    /** What offering an event did to one registered queue. */
    twostate predicate Offered(q: SubscriberQueue, modes: seq<string>, e: StreamEvent)
      reads this, q
    {
      && q.items == Offer(old(q.items), modes, e)
      && (q in subscribers <==> !Overflows(old(q.items), modes, e))
    }

    /** The part of `publish` that offers the event to every subscriber. */
    method FanOut(e: StreamEvent)
      modifies this`subscribers, subscribers.Keys
      ensures forall q <- old(subscribers) :: Offered(q, old(subscribers)[q], e)
      ensures forall q <- subscribers :: q in old(subscribers) && subscribers[q] == old(subscribers)[q]
      ensures forall s: Subscription :: old(allocated(s)) && s.stream == this && old(s.Valid()) ==>
                                          s.Valid() && s.View() == Deliver(old(s.View()), e)
    {
      hide Offer, Overflows, ModeMatches, MarkAlone;
      var all := subscribers;
      var todo := subscribers.Keys;
      while todo != {}
        invariant todo <= all.Keys
        invariant forall q <- todo :: q in subscribers && q.items == old(q.items)
        invariant forall q | q in all && q !in todo :: Offered(q, all[q], e)
        invariant forall q <- subscribers :: q in all && subscribers[q] == all[q]
        decreases |todo|
      {
        var q :| q in todo;
        todo := todo - {q};
        OfferTo(q, all[q], e);
      }
      forall s: Subscription | old(allocated(s)) && s.stream == this && old(s.Valid())
        ensures s.Valid() && s.View() == Deliver(old(s.View()), e)
      {
        OfferAlone(old(s.queue.items), s.modes, e);
      }
    }

    method OfferTo(q: SubscriberQueue, modes: seq<string>, e: StreamEvent)
      modifies this`subscribers, q
      ensures q.items == Offer(old(q.items), modes, e)
      ensures subscribers == if Overflows(old(q.items), modes, e) then old(subscribers) - {q} else old(subscribers)
    {
      if ModeMatches(e.event, modes) {
        if |q.items| >= QUEUE_SIZE {
          Detach(q);
        } else {
          q.items := q.items + [Ev(e)];
        }
      }
    }

    twostate lemma EndsExact(s: Subscription)
      requires s.stream == this && old(s.Exact()) && s.queue == old(s.queue) && Valid()
      requires s.queue in subscribers ==>
                 s.queue in old(subscribers) && subscribers[s.queue] == old(subscribers)[s.queue]
      requires old(closedAt).None? && View() == old(View()).(closed := true)
      requires s.View() == Release(old(s.View()))
      ensures s.Exact()
    {
      CloseKeeps(old(View()), old(s.View()));
    }

    /** `publish`: the error is the RuntimeError of a closed stream. Every subscriber
        registered with this stream sees exactly the machine's `Deliver`. */
    method Publish(event: string, data: JsonText) returns (r: Result<StreamEvent, ()>)
      requires Valid()
      modifies this, subscribers.Keys
      ensures Valid() && closedAt == old(closedAt)
      ensures r.Err? <==> closedAt.Some?
      ensures r.Err? ==> View() == old(View()) && subscribers == old(subscribers)
                         && forall q <- subscribers :: q.items == old(q.items)
      ensures r.Ok? ==> r.value == NextEvent(old(View()), event, data)
                        && View() == Append(old(View()), r.value)
      ensures r.Ok? ==> forall q <- old(subscribers) :: Offered(q, old(subscribers)[q], r.value)
      ensures r.Ok? ==> forall q <- subscribers :: q in old(subscribers) && subscribers[q] == old(subscribers)[q]
      ensures r.Ok? ==> forall s: Subscription :: old(allocated(s)) && s.stream == this && old(s.Valid()) ==>
                                                    s.View() == Deliver(old(s.View()), r.value)
      ensures forall s: Subscription :: old(allocated(s)) && s.stream == this && old(s.Exact()) ==> s.Exact()
    {
      if closedAt.Some? {
        return Err(());
      }
      hide LogInv, SubInv, Append, Deliver, Offer, Overflows, ModeMatches, MarkAlone;
      ghost var log := View();
      var e := StreamEvent(nextId, event, SseEvent(event, data, Some(nextId)));
      Retain(e);
      FanOut(e);
      forall s: Subscription | old(allocated(s)) && s.stream == this && old(s.Exact()) ensures s.Exact() {
        PublishKeeps(log, old(s.View()), e);
      }
      return Ok(e);
    }

    /** `_detach`: drop a lagging subscriber's queued events and mark the loss. */
    method Detach(q: SubscriberQueue)
      modifies this`subscribers, q
      ensures subscribers == old(subscribers) - {q}
      ensures q.items == [Overflow]
    {
      subscribers := subscribers - {q};
      while q.items != []
        invariant subscribers == old(subscribers) - {q}
        decreases |q.items|
      {
        q.items := q.items[1..];
      }
      q.items := q.items + [Overflow];
    }

    /** `close`. Idempotent. */
    method Close(now: real)
      requires Valid()
      modifies this`closedAt, subscribers.Keys
      ensures Valid()
      ensures old(closedAt).Some? ==> closedAt == old(closedAt) && forall q <- subscribers :: q.items == old(q.items)
      ensures old(closedAt).None? ==>
                closedAt == Some(now) && forall q <- subscribers :: q.items == Finish(old(q.items))
      ensures old(closedAt).None? ==>
                forall s: Subscription :: old(allocated(s)) && s.stream == this && old(s.Valid()) ==>
                                            s.View() == Release(old(s.View()))
      ensures forall s: Subscription :: old(allocated(s)) && s.stream == this && old(s.Exact()) ==> s.Exact()
    {
      if closedAt.Some? {
        return;
      }
      closedAt := Some(now);
      var todo := subscribers.Keys;
      while todo != {}
        invariant todo <= subscribers.Keys && closedAt == Some(now)
        invariant forall q <- todo :: q.items == old(q.items)
        invariant forall q <- subscribers.Keys - todo :: q.items == Finish(old(q.items))
        decreases |todo|
      {
        var q :| q in todo;
        todo := todo - {q};
        if |q.items| < QUEUE_SIZE {
          q.items := q.items + [End];
        }
      }
      forall s: Subscription | old(allocated(s)) && s.stream == this && old(s.Exact()) ensures s.Exact() {
        EndsExact(s);
      }
    }

    /** `_attach`: snapshot and registration in one step. */
    method AttachQueue(after: Option<int>, modes: seq<string>)
      returns (replay: seq<StreamEvent>, queue: SubscriberQueue)
      modifies this`subscribers
      ensures fresh(queue) && queue.items == (if closedAt.Some? then [End] else [])
      ensures subscribers == if closedAt.Some? then old(subscribers) else old(subscribers)[queue := modes]
      ensures replay == if after.Some? then Matching(history, after.value, modes) else []
    {
      replay := [];
      if after.Some? {
        for i := 0 to |history|
          invariant replay == Matching(history[..i], after.value, modes)
        {
          assert history[..i + 1][..i] == history[..i];
          if history[i].eventId > after.value && ModeMatches(history[i].event, modes) {
            replay := replay + [history[i]];
          }
        }
        assert history[..|history|] == history;
      }
      if closedAt.Some? {
        queue := new SubscriberQueue([End]);
      } else {
        queue := new SubscriberQueue([]);
        subscribers := subscribers[queue := modes];
      }
    }

    /** `subscribe`: registration is eager, iteration is not. */
    method Subscribe(after: Option<int>, modes: seq<string>) returns (s: Subscription)
      requires Valid()
      modifies this`subscribers
      ensures Valid() && fresh(s) && s.stream == this && s.Valid()
      ensures s.View() == Delivery.Subscribe(View(), after, modes) && s.Exact()
      ensures fresh(s.queue) && subscribers - {s.queue} == old(subscribers)
      ensures forall t: Subscription :: old(allocated(t)) && t.stream == this && old(t.Exact()) ==>
                                          t.Exact() && t.View() == old(t.View()) && t.queue == old(t.queue) != s.queue
    {
      hide LogInv, SubInv, Matching;
      var delivered := if after.Some? then after.value else LastEventId();
      var replay, queue := AttachQueue(after, modes);
      s := new Subscription(this, replay, queue, delivered, modes);
      SubscribeEstablishes(View(), after, modes);
    }
  }

  datatype Heard = Event(e: StreamEvent) | Nothing | Skipped | Finished | Lagging

  /** The drain generator of one subscriber. */
  class Subscription {
    const stream: RunEventStream
    const modes: seq<string>
    var pc: Pc
    var replay: seq<StreamEvent>
    var queue: SubscriberQueue
    var delivered: int
    ghost const cursor: int
    ghost const start: int
    ghost var yielded: seq<StreamEvent>
    ghost var catchUps: nat

    constructor (stream: RunEventStream, replay: seq<StreamEvent>, queue: SubscriberQueue,
                 delivered: int, modes: seq<string>)
      ensures this.stream == stream && this.queue == queue
      ensures View() == Sub(modes, Replay, replay, delivered, queue.items, queue in stream.subscribers,
                            [], delivered, FirstAvailable(stream.View(), delivered), 0)
    {
      this.stream, this.modes, pc, this.replay, this.queue := stream, modes, Replay, replay, queue;
      this.delivered, cursor, start := delivered, delivered, FirstAvailable(stream.View(), delivered);
      yielded, catchUps := [], 0;
    }

    ghost function View(): Sub
      reads this, queue, stream
    {
      Sub(modes, pc, replay, delivered, queue.items, queue in stream.subscribers, yielded, cursor, start, catchUps)
    }

    ghost predicate Valid()
      reads this, queue, stream
    {
      && MarkAlone(queue.items)
      && (pc.ReplayYield? ==> replay != [])
      && (queue in stream.subscribers ==> stream.subscribers[queue] == modes)
    }

    /** So far it has lost and repeated nothing. */
    ghost predicate Exact()
      reads this, queue, stream
    {
      Valid() && stream.Valid() && SubInv(stream.View(), View())
    }

    /** What the generator still does once it took the end, or the overflow mark. */
    static ghost function Stopped(sub: Sub): Sub {
      sub.(pc := Returned, attached := false)
    }

    static ghost function CaughtUp(log: Log, sub: Sub): Sub {
      if !log.resumable || Expired(log, sub.delivered) then sub.(pc := Raised, attached := false)
      else UntilSuspended(log, Attach(log, sub.(pc := Replay, catchUps := sub.catchUps + 1), Some(sub.delivered)))
    }

    /** What is left to do after `heard`. */
    static ghost function After(log: Log, sub: Sub, heard: Heard): Sub
      requires MarkAlone(sub.queue)
    {
      match heard
      case Skipped => UntilSuspended(log, sub)
      case Finished => Stopped(sub)
      case Lagging => CaughtUp(log, sub)
      case _ => sub
    }

    /** Take the next item off the queue. */
    method Take() returns (heard: Heard)
      requires Valid() && pc.Get? && queue.items != []
      modifies this`pc, this`yielded, queue
      ensures Valid() && |queue.items| < old(|queue.items|)
      ensures After(stream.View(), View(), heard) == UntilSuspended(stream.View(), old(View()))
      ensures match heard
              case Event(e) => pc.LiveYield? && yielded != [] && yielded[|yielded| - 1] == e
              case Nothing => false
              case Skipped => pc.Live?
              case Finished => pc.Get?
              case Lagging => pc.Get? && Lost(old(queue.items))
      ensures !Lost(queue.items)
    {
      ghost var before := View();
      assert UntilSuspended(stream.View(), before) == UntilSuspended(stream.View(), Move(stream.View(), before));
      var item := queue.items[0];
      queue.items := queue.items[1..];
      if item.End? {
        heard := Finished;
      } else if item.Overflow? {
        heard := Lagging;
      } else if item.e.eventId <= delivered {
        pc := Live;
        heard := Skipped;
      } else {
        pc, yielded := LiveYield(item.e), yielded + [item.e];
        heard := Event(item.e);
      }
    }

    /** The inner loop of `_drain`: take queued items until one is handed over, the
        queue runs dry, or it gives the end or the overflow mark. */
    method Listen() returns (heard: Heard)
      requires Valid() && (pc.Live? || pc.Get?)
      modifies this`pc, this`yielded, queue
      ensures Valid()
      ensures After(stream.View(), View(), heard) == UntilSuspended(stream.View(), old(View()))
      ensures match heard
              case Event(e) => pc.LiveYield? && yielded != [] && yielded[|yielded| - 1] == e
              case Nothing => pc.Get? && queue.items == []
              case Skipped => false
              case Finished => pc.Live? || pc.Get?
              case Lagging => pc.Get? && Lost(old(queue.items))
    {
      ghost var log, was := stream.View(), UntilSuspended(stream.View(), View());
      heard := Skipped;
      while heard.Skipped? && (pc.Get? || !(stream.closedAt.Some? && queue.items == []))
        invariant Valid() && After(log, View(), heard) == was
        invariant match heard
                  case Event(e) => pc.LiveYield? && yielded != [] && yielded[|yielded| - 1] == e
                  case Nothing => pc.Get? && queue.items == []
                  case Skipped => pc.Live? || pc.Get?
                  case Finished => pc.Get?
                  case Lagging => pc.Get? && Lost(old(queue.items))
        invariant Lost(queue.items) ==> Lost(old(queue.items))
        decreases heard.Skipped?, |queue.items|
      {
        pc := Get;
        assert UntilSuspended(log, View()) == was;
        if queue.items == [] {
          heard := Nothing;
        } else {
          heard := Take();
        }
      }
      if heard.Skipped? {
        assert Move(log, View()) == Stopped(View());
        assert UntilSuspended(log, Move(log, View())) == was;
        heard := Finished;
      }
    }

    /** After an overflow: fail, or resume from history with a fresh live queue. */
    method CatchUp()
      requires Valid() && pc.Get?
      modifies this`pc, this`catchUps, this`replay, this`queue, stream`subscribers
      ensures Valid() && stream.View() == old(stream.View())
      ensures pc.Replay? || pc.Raised?
      ensures UntilSuspended(stream.View(), View()) == CaughtUp(stream.View(), old(View()))
      ensures queue == old(queue) || (fresh(queue) && !Lost(queue.items))
      ensures stream.subscribers - {queue} == old(stream.subscribers) - {old(queue)}
      ensures pc.Replay? ==> queue != old(queue)
      ensures forall s: Subscription ::
                old(allocated(s)) && s != this && s.stream == stream && old(s.Exact()) && old(s.queue != queue) ==>
                  s.Exact() && s.View() == old(s.View()) && s.queue == old(s.queue) != queue
    {
      hide LogInv, SubInv;
      stream.subscribers := stream.subscribers - {queue};
      if !stream.resumable || stream.CursorExpired(delivered) {
        pc := Raised;
      } else {
        pc, catchUps := Replay, catchUps + 1;
        replay, queue := stream.AttachQueue(Some(delivered), modes);
      }
    }

    method Leave()
      modifies this`pc, stream`subscribers
      ensures View() == Stopped(old(View())) && stream.View() == old(stream.View())
      ensures stream.subscribers == old(stream.subscribers) - {queue}
    {
      pc := Returned;
      stream.subscribers := stream.subscribers - {queue};
    }

    /** The statement after a yield: the event handed over has been consumed. */
    method Acknowledge()
      requires Valid()
      modifies this`pc, this`delivered, this`replay
      ensures Valid() && stream.View() == old(stream.View())
      ensures View() == if AtYield(old(View())) then Move(stream.View(), old(View())) else old(View())
      ensures !AtYield(View())
    {
      if pc.ReplayYield? {
        delivered, replay, pc := replay[0].eventId, replay[1..], Replay;
      } else if pc.LiveYield? {
        delivered, pc := pc.current.eventId, Live;
      }
    }

    /** One round of the outer loop of `_drain`: replay, then listen. It goes round
        again only after an overflow it can catch up from. */
    method Round() returns (event: Option<StreamEvent>, again: bool)
      requires Valid() && (pc.Replay? || pc.Live? || pc.Get?)
      modifies this, queue, stream`subscribers
      ensures Valid() && stream.View() == old(stream.View())
      ensures UntilSuspended(stream.View(), View()) == UntilSuspended(stream.View(), old(View()))
      ensures again ==> pc.Replay? && Lost(old(queue.items)) && !Lost(queue.items)
      ensures !again ==> Suspended(View())
      ensures !again && AtYield(View()) ==> yielded != [] && event == Some(yielded[|yielded| - 1])
      ensures !AtYield(View()) ==> event == None
      ensures queue == old(queue) || fresh(queue)
      ensures stream.subscribers - {queue} == old(stream.subscribers) - {old(queue)}
    {
      event, again := None, false;
      if pc.Replay? {
        if replay != [] {
          pc, yielded := ReplayYield, yielded + [replay[0]];
          return Some(replay[0]), false;
        }
        pc := Live;
      }
      var heard := Listen();
      match heard {
        case Event(e) => event := Some(e);
        case Nothing =>
        case Finished => Leave();
        case Lagging =>
          CatchUp();
          again := pc.Replay?;
      }
    }

    /** The outer loop of `_drain`, up to its next yield, wait or end. */
    method RunOn() returns (event: Option<StreamEvent>)
      requires Valid() && !AtYield(View()) && !View().Done()
      modifies this, queue, stream`subscribers
      ensures Valid() && stream.View() == old(stream.View())
      ensures View() == UntilSuspended(stream.View(), old(View()))
      ensures AtYield(View()) ==> yielded != [] && event == Some(yielded[|yielded| - 1])
      ensures !AtYield(View()) ==> event == None
      ensures queue == old(queue) || fresh(queue)
      ensures stream.subscribers - {queue} == old(stream.subscribers) - {old(queue)}
    {
      hide LogInv, MarkAlone, UntilSuspended, Move;
      ghost var log, target := stream.View(), UntilSuspended(stream.View(), View());
      var again := true;
      event := None;
      while again
        invariant Valid() && stream.View() == log
        invariant UntilSuspended(log, View()) == target
        invariant again ==> pc.Replay? || pc.Live? || pc.Get?
        invariant !again ==> Suspended(View())
        invariant !again && AtYield(View()) ==> yielded != [] && event == Some(yielded[|yielded| - 1])
        invariant !AtYield(View()) ==> event == None
        invariant queue == old(queue) || fresh(queue)
        invariant stream.subscribers - {queue} == old(stream.subscribers) - {old(queue)}
        decreases again, Lost(queue.items)
      {
        event, again := Round();
      }
      SuspendedStays(log, View());
    }

    /** Resume the generator (`_drain`) until it yields, waits on its queue or ends.
        The result is the event handed over, if it yielded. */
    method Advance() returns (event: Option<StreamEvent>)
      requires Valid()
      modifies this, queue, stream`subscribers
      ensures Valid() && stream.View() == old(stream.View())
      ensures View() == Resumed(stream.View(), old(View()))
      ensures old(Exact()) ==> Exact()
      ensures AtYield(View()) ==> yielded != [] && event == Some(yielded[|yielded| - 1])
      ensures !AtYield(View()) ==> event == None
      ensures queue == old(queue) || fresh(queue)
      ensures stream.subscribers - {queue} == old(stream.subscribers) - {old(queue)}
      ensures forall s: Subscription ::
                old(allocated(s)) && s != this && s.stream == stream && old(s.Exact()) && old(s.queue != queue) ==>
                  s.Exact() && s.View() == old(s.View()) && s.queue == old(s.queue) != queue
    {
      hide LogInv, SubInv, MarkAlone, UntilSuspended, Move;
      Acknowledge();
      event := None;
      if pc.Returned? || pc.Raised? || pc.Abandoned? {
        SuspendedStays(stream.View(), View());
      } else {
        event := RunOn();
      }
      if old(Exact()) { ResumesExact(); }
      forall s: Subscription |
        old(allocated(s)) && s != this && s.stream == stream && old(s.Exact()) && old(s.queue != queue)
        ensures s.Exact() && s.View() == old(s.View()) && s.queue == old(s.queue) != queue
      {
        assert s.queue in stream.subscribers <==> s.queue in stream.subscribers - {queue};
        assert s.queue in old(stream.subscribers) <==> s.queue in old(stream.subscribers) - {old(queue)};
      }
    }

    twostate lemma ResumesExact()
      requires old(Exact()) && Valid() && stream.nextId == old(stream.nextId) && stream.View() == old(stream.View())
      requires View() == Resumed(old(stream.View()), old(View()))
      ensures Exact()
    {
      ResumedKeeps(old(stream.View()), old(View()));
    }

    /** Closing the iterator early, or `detach` for one never iterated. */
    method Abandon()
      modifies this, stream`subscribers
      ensures View() == if old(View()).Done() then old(View()) else old(View()).(pc := Pc.Abandoned, attached := false)
      ensures stream.subscribers - {queue} == old(stream.subscribers) - {queue} && queue == old(queue)
      ensures old(Exact()) ==> Exact()
      ensures forall s: Subscription ::
                old(allocated(s)) && s != this && s.stream == stream && old(s.Exact()) && old(s.queue != queue) ==>
                  s.Exact() && s.View() == old(s.View()) && s.queue == old(s.queue) != queue
    {
      if Exact() && !View().Done() { AbandonKeeps(stream.View(), View()); }
      if !(pc.Returned? || pc.Raised? || pc.Abandoned?) {
        pc := Pc.Abandoned;
        stream.subscribers := stream.subscribers - {queue};
      }
    }
  }

  /** Exact delivery, for the objects: the events a subscription has handed over are, in
      this order, the first of the published ones it is owed, and all of them once its
      generator has returned. */
  lemma DeliveredExactly(s: Subscription)
    requires s.Exact()
    ensures var owed := Matching(s.stream.published, s.start, s.modes);
            && s.yielded <= owed
            && (s.pc.Returned? ==> s.stream.closedAt.Some? && s.yielded == owed)
  {
    var sub := s.View();
    if !sub.Done() {
      assert sub.yielded <= sub.yielded + Unread(sub) <= sub.yielded + Unread(sub) + Above(sub.queue, sub.start);
    }
  }
}
