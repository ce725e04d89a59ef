/** The delivery protocol of one run's event stream and one of its subscribers
    (src/skeino/streaming/run_streams.py), as functions on values.

    A subscriber's queue is written only by the stream and read only by its own
    drain, so a stream with any number of subscribers is, for each of them, this
    two-party machine. The classes in EventStream.dfy are proved against it.
 */
module Delivery {
  import opened Common
  import opened Frames

  // ---------------------------------------------------------------- mode filter

  const LIFECYCLE_EVENTS: set<string> := {"metadata", "error", "end"}
  const QUEUE_SIZE: nat := 256

  predicate StartsWith(s: string, prefix: string) {
    |prefix| <= |s| && s[..|prefix|] == prefix
  }

  /** `stream_mode_matches`. */
  predicate ModeMatches(event: string, modes: seq<string>) {
    || modes == []
    || event in LIFECYCLE_EVENTS
    || event in modes
    || (StartsWith(event, "messages") && ("messages" in modes || "messages-tuple" in modes))
    || (var bar := IndexOf(event, '|'); bar < |event| && event[..bar] in modes)
  }

  /** An event of a subgraph of this mode. */
  predicate OfSubgraph(event: string, mode: string, rest: string) { event == mode + "|" + rest }

  predicate Continues(event: string, prefix: string, rest: string) { event == prefix + rest }

  /** What a subscriber asks for by naming modes, told from the names alone. */
  ghost predicate AskedFor(event: string, modes: seq<string>) {
    || event == "metadata" || event == "error" || event == "end"
    || event in modes
    || (exists mode, rest :: mode in modes && '|' !in mode && OfSubgraph(event, mode, rest))
    || (("messages" in modes || "messages-tuple" in modes) && exists rest :: Continues(event, "messages", rest))
  }

  /** No modes ask for everything; others for the lifecycle events, the events named
      like a mode, those of its subgraphs, and all `messages*` events if either
      `messages` mode is among them; and for nothing else. */
  lemma FilterAccepts(event: string, modes: seq<string>)
    ensures ModeMatches(event, modes) <==> modes == [] || AskedFor(event, modes)
  {
    var bar := IndexOf(event, '|');
    if bar < |event| && event[..bar] in modes {
      assert OfSubgraph(event, event[..bar], event[bar + 1..]);
    }
    if mode, rest :| mode in modes && '|' !in mode && OfSubgraph(event, mode, rest) {
      FirstBar(mode, rest);
      assert event[..|mode|] == mode;
    }
    if StartsWith(event, "messages") {
      assert Continues(event, "messages", event[8..]);
    }
    if rest :| Continues(event, "messages", rest) {
      assert event[..8] == "messages";
    }
  }

  lemma {:induction false} FirstBar(mode: string, rest: string)
    requires '|' !in mode
    ensures IndexOf(mode + "|" + rest, '|') == |mode|
  {
    if mode != "" {
      assert (mode + "|" + rest)[0] == mode[0];
      assert (mode + "|" + rest)[1..] == mode[1..] + "|" + rest;
      FirstBar(mode[1..], rest);
    }
  }

  // ---------------------------------------------------------------- history

  datatype StreamEvent = StreamEvent(eventId: nat, event: string, frame: string)

  /** The stream's own state: the history deque with its two budgets, and (for the
      specification) everything ever published. */
  datatype Log = Log(
    resumable: bool, maxEvents: int, maxBytes: int,
    published: seq<StreamEvent>, history: seq<StreamEvent>,
    historyBytes: int, evictedThrough: nat, closed: bool)
  {
    function LastId(): nat { |published| }
  }

  function NewLog(resumable: bool, maxEvents: int, maxBytes: int): Log {
    Log(resumable, maxEvents, maxBytes, [], [], 0, 0, false)
  }

  function CharBytes(c: char): nat {
    if c as int < 0x80 then 1 else if c as int < 0x800 then 2 else if c as int < 0x10000 then 3 else 4
  }

  /** Length of the UTF-8 encoding of a text. */
  function Utf8Length(s: string): nat {
    if s == "" then 0 else Utf8Length(s[..|s| - 1]) + CharBytes(s[|s| - 1])
  }

  /** The UTF-8 encoding of a character (section 3 of RFC 3629). */
  function Encoded(c: char): seq<int> {
    var n := c as int;
    if n < 0x80 then [n]
    else if n < 0x800 then [0xC0 + n / 0x40, 0x80 + n % 0x40]
    else if n < 0x10000 then [0xE0 + n / 0x1000, 0x80 + n / 0x40 % 0x40, 0x80 + n % 0x40]
    else [0xF0 + n / 0x40000, 0x80 + n / 0x1000 % 0x40, 0x80 + n / 0x40 % 0x40, 0x80 + n % 0x40]
  }

  /** What a decoder makes of one whole encoded character, by its first byte. */
  function Decoded(bytes: seq<int>): int {
    if |bytes| == 1 && bytes[0] < 0x80 then bytes[0]
    else if |bytes| == 2 && 0xC0 <= bytes[0] < 0xE0 then (bytes[0] - 0xC0) * 0x40 + (bytes[1] - 0x80)
    else if |bytes| == 3 && 0xE0 <= bytes[0] < 0xF0 then
      (bytes[0] - 0xE0) * 0x1000 + (bytes[1] - 0x80) * 0x40 + (bytes[2] - 0x80)
    else if |bytes| == 4 && 0xF0 <= bytes[0] then
      (bytes[0] - 0xF0) * 0x40000 + (bytes[1] - 0x80) * 0x1000 + (bytes[2] - 0x80) * 0x40 + (bytes[3] - 0x80)
    else -1
  }

  lemma EncodedDecodes(c: char)
    ensures Decoded(Encoded(c)) == c as int
    ensures |Encoded(c)| == CharBytes(c) && forall i :: 0 <= i < |Encoded(c)| ==> 0 <= Encoded(c)[i] < 0x100
    ensures forall i :: 0 < i < |Encoded(c)| ==> 0x80 <= Encoded(c)[i] < 0xC0
  {
    var n := c as int;
    assert n == n / 0x40 * 0x40 + n % 0x40;
    assert n / 0x40 == n / 0x1000 * 0x40 + n / 0x40 % 0x40;
    assert n / 0x1000 == n / 0x40000 * 0x40 + n / 0x1000 % 0x40;
  }

  function EncodedText(s: string): seq<int> {
    if s == "" then [] else EncodedText(s[..|s| - 1]) + Encoded(s[|s| - 1])
  }

  /** The byte counter counts the bytes of the UTF-8 encoding; a plain text has one for
      each character. */
  lemma {:induction false} Utf8IsEncoded(s: string)
    ensures Utf8Length(s) == |EncodedText(s)|
    ensures (forall c :: c in s ==> c as int < 0x80) ==> Utf8Length(s) == |s|
    decreases |s|
  {
    if s != "" {
      var front := s[..|s| - 1];
      assert forall c :: c in front ==> c in s;
      assert s[|s| - 1] in s;
      Utf8IsEncoded(front);
      EncodedDecodes(s[|s| - 1]);
    }
  }

  function Bytes(events: seq<StreamEvent>): nat {
    if events == [] then 0 else Utf8Length(events[0].frame) + Bytes(events[1..])
  }

  /** The eviction loop of `publish`. */
  function Evict(log: Log): Log
    decreases |log.history|
  {
    if log.history != [] && (|log.history| > log.maxEvents || log.historyBytes > log.maxBytes) then
      Evict(log.(history := log.history[1..],
                 historyBytes := log.historyBytes - Utf8Length(log.history[0].frame),
                 evictedThrough := log.history[0].eventId))
    else log
  }

  function NextEvent(log: Log, event: string, data: JsonText): StreamEvent {
    var id := log.LastId() + 1;
    StreamEvent(id, event, SseEvent(event, data, Some(id)))
  }

  function Grown(log: Log, e: StreamEvent): Log {
    log.(published := log.published + [e], history := log.history + [e],
         historyBytes := log.historyBytes + Utf8Length(e.frame))
  }

  /** What `publish` does to the stream itself. */
  function Append(log: Log, e: StreamEvent): Log {
    if log.resumable then Evict(Grown(log, e)) else log.(published := log.published + [e])
  }

  /** `cursor_expired`. */
  predicate Expired(log: Log, after: int) {
    log.evictedThrough > 0 && after < log.evictedThrough
  }

  predicate Fits(events: seq<StreamEvent>, maxEvents: int, maxBytes: int) {
    |events| <= maxEvents && Bytes(events) <= maxBytes
  }

  ghost predicate Numbered(events: seq<StreamEvent>) {
    forall i :: 0 <= i < |events| ==> events[i].eventId == i + 1
  }

  /** `history` is the longest suffix of everything published that fits both
      budgets; the evicted events are exactly those before it. */
  ghost predicate LongestFittingSuffix(log: Log) {
    && log.evictedThrough <= |log.published|
    && log.history == log.published[log.evictedThrough..]
    && (log.history == [] || Fits(log.history, log.maxEvents, log.maxBytes))
    && forall k :: 0 <= k < log.evictedThrough ==> !Fits(log.published[k..], log.maxEvents, log.maxBytes)
  }

  ghost predicate LogInv(log: Log) {
    && Numbered(log.published)
    && log.historyBytes == Bytes(log.history)
    && (log.resumable ==> LongestFittingSuffix(log))
    && (!log.resumable ==> log.history == [] && log.evictedThrough == 0)
  }

  lemma {:induction false} BytesAppend(a: seq<StreamEvent>, e: StreamEvent)
    ensures Bytes(a + [e]) == Bytes(a) + Utf8Length(e.frame)
  {
    if a == [] {
      assert [] + [e] == [e] && [e][1..] == [];
    } else {
      assert (a + [e])[1..] == a[1..] + [e];
      BytesAppend(a[1..], e);
    }
  }

  /** Eviction may start from a history that is still too large. */
  ghost predicate Evicting(log: Log) {
    && Numbered(log.published)
    && log.evictedThrough <= |log.published|
    && log.history == log.published[log.evictedThrough..]
    && log.historyBytes == Bytes(log.history)
    && forall k :: 0 <= k < log.evictedThrough ==> !Fits(log.published[k..], log.maxEvents, log.maxBytes)
  }

  predicate OverBudget(log: Log) {
    log.history != [] && (|log.history| > log.maxEvents || log.historyBytes > log.maxBytes)
  }

  function EvictOne(log: Log): Log
    requires log.history != []
  {
    log.(history := log.history[1..],
         historyBytes := log.historyBytes - Utf8Length(log.history[0].frame),
         evictedThrough := log.history[0].eventId)
  }

  lemma EvictOneKeeps(log: Log)
    requires Evicting(log) && OverBudget(log)
    ensures Evicting(EvictOne(log)) && EvictOne(log).evictedThrough == log.evictedThrough + 1
  {
    var k := log.evictedThrough;
    assert log.history[0] == log.published[k];
    assert log.history[1..] == log.published[k + 1..];
    assert !Fits(log.published[k..], log.maxEvents, log.maxBytes);
  }

  lemma {:induction false} EvictKeeps(log: Log)
    requires Evicting(log)
    ensures var after := Evict(log);
            && Evicting(after) && !OverBudget(after)
            && after == log.(history := after.history, historyBytes := after.historyBytes,
                             evictedThrough := after.evictedThrough)
            && log.evictedThrough <= after.evictedThrough
    decreases |log.history|
  {
    if OverBudget(log) {
      EvictOneKeeps(log);
      EvictKeeps(EvictOne(log));
    }
  }

  lemma GrownIsEvicting(log: Log, e: StreamEvent)
    requires LogInv(log) && log.resumable && e.eventId == log.LastId() + 1
    ensures Evicting(Grown(log, e))
  {
    var grown, k := Grown(log, e), log.evictedThrough;
    BytesAppend(log.history, e);
    assert grown.published[k..] == log.published[k..] + [e];
    forall j | 0 <= j < k ensures !Fits(grown.published[j..], log.maxEvents, log.maxBytes) {
      assert grown.published[j..] == log.published[j..] + [e];
      BytesAppend(log.published[j..], e);
      assert !Fits(log.published[j..], log.maxEvents, log.maxBytes);
    }
  }

  /** One publish keeps the history the longest fitting suffix. */
  lemma AppendKeepsLog(log: Log, e: StreamEvent)
    requires LogInv(log) && e.eventId == log.LastId() + 1
    ensures var after := Append(log, e);
            && LogInv(after)
            && after.published == log.published + [e] && after.closed == log.closed
            && after.resumable == log.resumable
            && after.maxEvents == log.maxEvents && after.maxBytes == log.maxBytes
            && log.evictedThrough <= after.evictedThrough
  {
    if log.resumable {
      GrownIsEvicting(log, e);
      EvictKeeps(Grown(log, e));
    }
  }

  /** On a resumable stream a cursor has expired exactly when some event above it
      was published and is no longer retained. */
  lemma ExpiredExactlyWhenSomethingIsLost(log: Log, after: int)
    requires LogInv(log) && log.resumable
    ensures Expired(log, after)
       <==> exists e :: e in log.published && e.eventId > after && e !in log.history
  {
    if Expired(log, after) {
      var e := log.published[log.evictedThrough - 1];
      assert forall h :: h in log.history ==> h.eventId > log.evictedThrough;
      assert e in log.published && e.eventId > after && e !in log.history;
    }
    forall i | log.evictedThrough <= i < |log.published|
      ensures log.published[i] in log.history
    {
      assert log.history[i - log.evictedThrough] == log.published[i];
    }
  }

  // ---------------------------------------------------------------- subscriber

  datatype Item = Ev(e: StreamEvent) | End | Overflow

  /** Where the drain generator stands. `Loop` points are inside one run of the
      generator, `ReplayYield`/`LiveYield` are its yields, `Get` its await. */
  datatype Pc =
    | Replay | ReplayYield | Live | Get | LiveYield(current: StreamEvent)
    | Returned | Raised | Abandoned

  /** `replay` is what is left of the list being replayed (its head is the event
      being yielded at `ReplayYield`); `yielded`, `cursor`, `start` and `catchUps`
      record the subscription's history for the specification. */
  datatype Sub = Sub(
    modes: seq<string>, pc: Pc, replay: seq<StreamEvent>, delivered: int,
    queue: seq<Item>, attached: bool,
    yielded: seq<StreamEvent>, cursor: int, start: int, catchUps: nat)
  {
    predicate Done() { pc.Returned? || pc.Raised? || pc.Abandoned? }
  }

  function Matching(events: seq<StreamEvent>, after: int, modes: seq<string>): seq<StreamEvent> {
    if events == [] then []
    else
      var rest := Matching(events[..|events| - 1], after, modes);
      var last := events[|events| - 1];
      if last.eventId > after && ModeMatches(last.event, modes) then rest + [last] else rest
  }

  /** `_attach`: replay snapshot and live registration in one step. */
  function Attach(log: Log, sub: Sub, after: Option<int>): Sub {
    sub.(replay := if after.Some? then Matching(log.history, after.value, sub.modes) else [],
         queue := if log.closed then [End] else [],
         attached := !log.closed)
  }

  /** The first id a subscription can still be given: above its cursor, and above
      everything the stream no longer (or never) retains. */
  function FirstAvailable(log: Log, cursor: int): int {
    Max(cursor, if log.resumable then log.evictedThrough else log.LastId())
  }

  /** `subscribe`. */
  function Subscribe(log: Log, after: Option<int>, modes: seq<string>): Sub {
    var cursor := if after.Some? then after.value else log.LastId();
    Attach(log, Sub(modes, Replay, [], cursor, [], false, [], cursor, FirstAvailable(log, cursor), 0), after)
  }

  /** A full queue overflows on the next event its modes accept. */
  predicate Overflows(queue: seq<Item>, modes: seq<string>, e: StreamEvent) {
    ModeMatches(e.event, modes) && |queue| >= QUEUE_SIZE
  }

  function Offer(queue: seq<Item>, modes: seq<string>, e: StreamEvent): seq<Item> {
    if !ModeMatches(e.event, modes) then queue
    else if |queue| >= QUEUE_SIZE then [Overflow]
    else queue + [Ev(e)]
  }

  /** What `publish` does to one subscriber. */
  function Deliver(sub: Sub, e: StreamEvent): Sub {
    if sub.attached then
      sub.(attached := !Overflows(sub.queue, sub.modes, e), queue := Offer(sub.queue, sub.modes, e))
    else sub
  }

  function Finish(queue: seq<Item>): seq<Item> {
    if |queue| < QUEUE_SIZE then queue + [End] else queue
  }

  /** What `close` does to one subscriber. */
  function Release(sub: Sub): Sub {
    if sub.attached then sub.(queue := Finish(sub.queue)) else sub
  }

  /** The drain's next move; a blocked or finished drain stays where it is. */
  function Move(log: Log, sub: Sub): Sub {
    match sub.pc
    case Replay =>
      if sub.replay != [] then sub.(pc := ReplayYield, yielded := sub.yielded + [sub.replay[0]])
      else sub.(pc := Live)
    case ReplayYield =>
      if sub.replay == [] then sub
      else sub.(pc := Replay, delivered := sub.replay[0].eventId, replay := sub.replay[1..])
    case Live =>
      if log.closed && sub.queue == [] then sub.(pc := Returned, attached := false)
      else sub.(pc := Get)
    case Get =>
      if sub.queue == [] then sub
      else
        var rest := sub.(queue := sub.queue[1..]);
        (match sub.queue[0]
         case End => rest.(pc := Returned, attached := false)
         case Overflow =>
           if !log.resumable || Expired(log, sub.delivered)
           then rest.(pc := Raised, attached := false)
           else Attach(log, rest.(pc := Replay, catchUps := sub.catchUps + 1), Some(sub.delivered))
         case Ev(e) =>
           if e.eventId <= sub.delivered then rest.(pc := Live)
           else rest.(pc := LiveYield(e), yielded := sub.yielded + [e]))
    case LiveYield(e) => sub.(pc := Live, delivered := e.eventId)
    case _ => sub
  }

  // ---------------------------------------------------------------- whole runs

  datatype System = System(log: Log, sub: Sub)

  datatype Action =
    | Publish(event: string, data: JsonText)
    | Close
    | Drain
    | Abandon  // the consumer closes the iterator, or `detach`

  function Step(s: System, a: Action): System {
    match a
    case Publish(event, data) =>
      if s.log.closed then s  // RuntimeError
      else
        var e := NextEvent(s.log, event, data);
        System(Append(s.log, e), Deliver(s.sub, e))
    case Close =>
      if s.log.closed then s else System(s.log.(closed := true), Release(s.sub))
    case Drain => s.(sub := Move(s.log, s.sub))
    case Abandon =>
      if s.sub.Done() then s else s.(sub := s.sub.(pc := Abandoned, attached := false))
  }

  function Run(s: System, actions: seq<Action>): System
    decreases |actions|
  {
    if actions == [] then s else Run(Step(s, actions[0]), actions[1..])
  }

  /** Everything the subscriber is owed so far. */
  function Owed(log: Log, sub: Sub): seq<StreamEvent> {
    Matching(log.published, sub.start, sub.modes)
  }

  // ---------------------------------------------------------------- invariant

  function Above(queue: seq<Item>, after: int): seq<StreamEvent> {
    if queue == [] then []
    else
      var rest := Above(queue[..|queue| - 1], after);
      var last := queue[|queue| - 1];
      if last.Ev? && last.e.eventId > after then rest + [last.e] else rest
  }

  /** The last id handed to the consumer, or the cursor it came with. */
  function Reached(sub: Sub): int {
    if sub.yielded == [] then sub.cursor else sub.yielded[|sub.yielded| - 1].eventId
  }

  function Unread(sub: Sub): seq<StreamEvent> {
    if sub.pc.ReplayYield? && sub.replay != [] then sub.replay[1..] else sub.replay
  }

  /** The overflow mark is queued alone, once the stream has detached the queue. */
  predicate Lost(queue: seq<Item>) {
    queue != [] && queue[0].Overflow?
  }

  /** Events in order; the end mark, if any, is last and only after the stream
      closed. An event at or below `start` is one the drain will skip. */
  ghost predicate QueueOk(log: Log, sub: Sub) {
    && |sub.queue| <= QUEUE_SIZE
    && (sub.attached || log.closed)
    && (forall i :: 0 <= i < |sub.queue| ==> !sub.queue[i].Overflow?)
    && (forall i :: 0 <= i < |sub.queue| && sub.queue[i].End? ==> i == |sub.queue| - 1 && log.closed)
    && (forall i :: 0 <= i < |sub.queue| && sub.queue[i].Ev? ==>
                      sub.queue[i].e.eventId > sub.start || sub.queue[i].e.eventId <= sub.cursor)
    && (log.closed && sub.pc.Get? ==> sub.queue != [])
  }

  ghost predicate LostOk(sub: Sub) {
    |sub.queue| == 1 && !sub.attached
  }

  /** What `delivered` is, or becomes once the drain is resumed after a yield. */
  function InHand(sub: Sub): int {
    match sub.pc
    case ReplayYield => if sub.replay == [] then sub.delivered else sub.replay[0].eventId
    case LiveYield(e) => e.eventId
    case _ => sub.delivered
  }

  ghost predicate PositionOk(sub: Sub) {
    && InHand(sub) == Reached(sub)
    && (sub.pc.ReplayYield? ==> sub.replay != [])
    && (sub.pc.ReplayYield? || sub.pc.Replay? || sub.replay == [])
    && (sub.pc.ReplayYield? || sub.pc.LiveYield? ==> sub.yielded != [])
  }

  /** The central invariant: what was yielded, what is left to replay and what is
      queued make up, in this order, exactly what is owed; after an overflow the
      first two are still a prefix of it. */
  ghost predicate ActiveInv(log: Log, sub: Sub) {
    && PositionOk(sub)
    && if Lost(sub.queue) then
         LostOk(sub) && sub.yielded + Unread(sub) <= Owed(log, sub)
       else
         QueueOk(log, sub) && sub.yielded + Unread(sub) + Above(sub.queue, sub.start) == Owed(log, sub)
  }

  ghost predicate DoneInv(log: Log, sub: Sub) {
    && !sub.attached
    && sub.yielded <= Owed(log, sub)
    && (sub.pc.Returned? ==> log.closed && sub.yielded == Owed(log, sub))
    && (sub.pc.Raised? ==> sub.delivered == Reached(sub) && (log.resumable ==> Expired(log, sub.delivered)))
  }

  ghost predicate SubInv(log: Log, sub: Sub) {
    && sub.cursor <= sub.start <= FirstAvailable(log, sub.cursor)
    && if sub.Done() then DoneInv(log, sub) else ActiveInv(log, sub)
  }

  ghost predicate Inv(s: System) {
    LogInv(s.log) && SubInv(s.log, s.sub)
  }

  // ---------------------------------------------------------------- list facts

  ghost predicate Increasing(events: seq<StreamEvent>) {
    forall i, j :: 0 <= i < j < |events| ==> events[i].eventId < events[j].eventId
  }

  /** The matching events are exactly the published ones above the cursor that the
      modes accept, each once and in order of publication. */
  lemma {:induction false} MatchingIds(events: seq<StreamEvent>, after: int, modes: seq<string>)
    requires Numbered(events)
    ensures Increasing(Matching(events, after, modes))
    ensures forall e :: e in Matching(events, after, modes) ==> e.eventId <= |events|
    ensures forall e :: e in Matching(events, after, modes)
                   <==> e in events && e.eventId > after && ModeMatches(e.event, modes)
    decreases |events|
  {
    if events != [] {
      var front, last := events[..|events| - 1], events[|events| - 1];
      MatchingIds(front, after, modes);
      var m, rest := Matching(events, after, modes), Matching(front, after, modes);
      assert events == front + [last] && last.eventId == |events|;
      assert forall i :: 0 <= i < |rest| ==> rest[i] in rest;
      if m != rest {
        assert m == rest + [last];
      }
    }
  }

  /** Cutting the matching events after their `k`-th is matching from its id on. */
  lemma {:induction false} MatchingSplit(events: seq<StreamEvent>, after: int, modes: seq<string>, k: nat)
    requires Numbered(events)
    requires 0 < k <= |Matching(events, after, modes)|
    ensures var m := Matching(events, after, modes);
            m[k..] == Matching(events, m[k - 1].eventId, modes)
    decreases |events|
  {
    var m := Matching(events, after, modes);
    var front := events[..|events| - 1];
    var rest := Matching(front, after, modes);
    var last := events[|events| - 1];
    MatchingIds(events, after, modes);
    MatchingIds(front, after, modes);
    if k <= |rest| {
      MatchingSplit(front, after, modes, k);
      assert m[k - 1] == rest[k - 1];
      if m != rest {
        assert m[k..] == rest[k..] + [last];
      }
    } else {
      assert m == rest + [last] && m[k - 1] == last && m[k..] == [];
      MatchingNone(events, last.eventId, modes);
    }
  }

  lemma {:induction false} MatchingNone(events: seq<StreamEvent>, after: int, modes: seq<string>)
    requires Numbered(events) && after >= |events|
    ensures Matching(events, after, modes) == []
    decreases |events|
  {
    if events != [] {
      MatchingNone(events[..|events| - 1], after, modes);
    }
  }

  /** Dropping a prefix whose ids are not above the cursor changes nothing. */
  lemma {:induction false} MatchingSuffix(events: seq<StreamEvent>, k: nat, after: int, modes: seq<string>)
    requires Numbered(events) && k <= |events| && (k > 0 ==> after >= k)
    ensures Matching(events[k..], after, modes) == Matching(events, after, modes)
    decreases |events|
  {
    if k == |events| {
      if k > 0 {
        MatchingNone(events, after, modes);
      }
    } else {
      var front := events[..|events| - 1];
      assert events[k..][..|events[k..]| - 1] == front[k..];
      MatchingSuffix(front, k, after, modes);
    }
  }

  /** Ids start at 1, so any cursor below 1 selects the same events. */
  lemma {:induction false} MatchingFromBelow(events: seq<StreamEvent>, a: int, b: int, modes: seq<string>)
    requires Numbered(events) && a <= 0 && b <= 0
    ensures Matching(events, a, modes) == Matching(events, b, modes)
    decreases |events|
  {
    if events != [] {
      MatchingFromBelow(events[..|events| - 1], a, b, modes);
    }
  }

  lemma AboveAppend(queue: seq<Item>, item: Item, after: int)
    ensures Above(queue + [item], after)
         == Above(queue, after) + (if item.Ev? && item.e.eventId > after then [item.e] else [])
  {
    assert (queue + [item])[..|queue|] == queue;
    assert Above(queue, after) + [] == Above(queue, after);
  }

  lemma {:induction false} AboveTail(queue: seq<Item>, after: int)
    requires queue != []
    ensures Above(queue, after)
         == (if queue[0].Ev? && queue[0].e.eventId > after then [queue[0].e] else []) + Above(queue[1..], after)
    decreases |queue|
  {
    if |queue| == 1 {
      assert queue[..0] == [] && queue[1..] == [];
    } else {
      var front := queue[..|queue| - 1];
      AboveTail(front, after);
      assert front[1..] == queue[1..][..|queue[1..]| - 1];
    }
  }

  /** Publishing adds at most the new event to what is owed. */
  lemma OwedAppend(log: Log, sub: Sub, e: StreamEvent)
    requires LogInv(log) && e.eventId == log.LastId() + 1
    ensures Owed(Append(log, e), sub)
         == Owed(log, sub) + (if e.eventId > sub.start && ModeMatches(e.event, sub.modes) then [e] else [])
  {
    AppendKeepsLog(log, e);
    assert (log.published + [e])[..|log.published|] == log.published;
    assert Owed(log, sub) + [] == Owed(log, sub);
  }

  // ---------------------------------------------------------------- preservation

  lemma SubscribeEstablishes(log: Log, after: Option<int>, modes: seq<string>)
    requires LogInv(log)
    ensures Inv(System(log, Subscribe(log, after, modes)))
  {
    var sub := Subscribe(log, after, modes);
    var cursor := sub.cursor;
    if log.resumable {
      var k := log.evictedThrough;
      MatchingSuffix(log.published, k, sub.start, modes);
      if after.None? {
        MatchingNone(log.published, sub.start, modes);
      } else if cursor >= k {
        assert sub.start == cursor;
      } else {
        HistoryAboveItsStart(log, cursor, modes);
      }
    } else {
      MatchingNone(log.published, sub.start, modes);
    }
    assert Above(sub.queue, sub.start) == [];
    assert sub.yielded + Unread(sub) + [] == sub.replay;
  }

  /** A cursor before the retained window selects the whole window. */
  lemma HistoryAboveItsStart(log: Log, cursor: int, modes: seq<string>)
    requires LogInv(log) && log.resumable && cursor <= log.evictedThrough
    ensures Matching(log.history, cursor, modes) == Matching(log.published, log.evictedThrough, modes)
  {
    MatchingSuffix(log.published, log.evictedThrough, log.evictedThrough, modes);
    SameWindow(log.history, cursor, log.evictedThrough, modes);
  }

  lemma {:induction false} SameWindow(events: seq<StreamEvent>, a: int, b: int, modes: seq<string>)
    requires forall e :: e in events ==> e.eventId > a && e.eventId > b
    ensures Matching(events, a, modes) == Matching(events, b, modes)
    decreases |events|
  {
    if events != [] {
      SameWindow(events[..|events| - 1], a, b, modes);
    }
  }

  lemma EnqueueKeepsQueue(log: Log, log': Log, sub: Sub, e: StreamEvent)
    requires QueueOk(log, sub) && !log.closed && !log'.closed && |sub.queue| < QUEUE_SIZE && !Lost(sub.queue)
    requires e.eventId > sub.start || e.eventId <= sub.cursor
    ensures var sub' := sub.(queue := sub.queue + [Ev(e)]);
            QueueOk(log', sub') && !Lost(sub'.queue)
  {
  }

  lemma EnqueueKeeps(log: Log, log': Log, sub: Sub, e: StreamEvent)
    requires ActiveInv(log, sub) && !Lost(sub.queue) && !log.closed && !log'.closed
    requires |sub.queue| < QUEUE_SIZE
    requires e.eventId > sub.start || e.eventId <= sub.cursor
    requires Owed(log', sub) == Owed(log, sub) + (if e.eventId > sub.start then [e] else [])
    ensures ActiveInv(log', sub.(queue := sub.queue + [Ev(e)]))
  {
    var sub' := sub.(queue := sub.queue + [Ev(e)]);
    EnqueueKeepsQueue(log, log', sub, e);
    AboveAppend(sub.queue, Ev(e), sub.start);
    var last := if e.eventId > sub.start then [e] else [];
    calc {
      sub'.yielded + Unread(sub') + Above(sub'.queue, sub'.start);
      (sub.yielded + Unread(sub)) + (Above(sub.queue, sub.start) + last);
      (sub.yielded + Unread(sub) + Above(sub.queue, sub.start)) + last;
      Owed(log', sub);
      Owed(log', sub');
    }
  }

  lemma OverflowKeeps(log: Log, log': Log, sub: Sub)
    requires ActiveInv(log, sub) && !Lost(sub.queue) && Owed(log, sub) <= Owed(log', sub)
    ensures ActiveInv(log', sub.(attached := false, queue := [Overflow]))
  {
    var read := sub.yielded + Unread(sub);
    assert read <= read + Above(sub.queue, sub.start);
    assert Owed(log', sub.(attached := false, queue := [Overflow])) == Owed(log', sub);
  }

  lemma DeliverKeepsActive(log: Log, log': Log, sub: Sub, e: StreamEvent)
    requires ActiveInv(log, sub) && !log.closed && !log'.closed && log'.resumable == log.resumable
    requires e.eventId > sub.start || e.eventId <= sub.cursor
    requires Owed(log', sub)
          == Owed(log, sub) + (if e.eventId > sub.start && ModeMatches(e.event, sub.modes) then [e] else [])
    ensures ActiveInv(log', Deliver(sub, e))
  {
    if Lost(sub.queue) {
    } else if !ModeMatches(e.event, sub.modes) {
      assert Owed(log, sub) + [] == Owed(log, sub);
    } else if |sub.queue| < QUEUE_SIZE {
      EnqueueKeeps(log, log', sub, e);
    } else {
      OverflowKeeps(log, log', sub);
    }
  }

  lemma DeliverKeeps(log: Log, log': Log, sub: Sub, e: StreamEvent)
    requires SubInv(log, sub) && !log.closed && !log'.closed && log'.resumable == log.resumable
    requires e.eventId == log.LastId() + 1 && log'.LastId() == log.LastId() + 1
    requires log.evictedThrough <= log.LastId() && log.evictedThrough <= log'.evictedThrough
    requires Owed(log', sub)
          == Owed(log, sub) + (if e.eventId > sub.start && ModeMatches(e.event, sub.modes) then [e] else [])
    ensures SubInv(log', Deliver(sub, e))
  {
    if !sub.Done() {
      DeliverKeepsActive(log, log', sub, e);
    }
  }

  lemma PublishKeeps(log: Log, sub: Sub, e: StreamEvent)
    requires LogInv(log) && SubInv(log, sub) && !log.closed && e.eventId == log.LastId() + 1
    ensures LogInv(Append(log, e)) && SubInv(Append(log, e), Deliver(sub, e))
  {
    AppendKeepsLog(log, e);
    OwedAppend(log, sub, e);
    var log' := Append(log, e);
    DeliverKeeps(log, log', sub, e);
  }

  lemma ReleaseOwes(log: Log, sub: Sub)
    ensures Owed(log, Release(sub)) == Owed(log, sub)
  {
  }

  lemma ReleaseKeepsActive(log: Log, log': Log, sub: Sub)
    requires ActiveInv(log, sub) && !log.closed && log'.closed && Owed(log', sub) == Owed(log, sub)
    ensures ActiveInv(log', Release(sub))
  {
    ReleaseOwes(log', sub);
    hide Owed;
    var sub' := Release(sub);
    if !Lost(sub.queue) {
      AboveAppend(sub.queue, End, sub.start);
      assert Above(sub.queue, sub.start) + [] == Above(sub.queue, sub.start);
      assert QueueOk(log', sub') && !Lost(sub'.queue);
    }
  }

  lemma CloseKeeps(log: Log, sub: Sub)
    requires LogInv(log) && SubInv(log, sub) && !log.closed
    ensures LogInv(log.(closed := true)) && SubInv(log.(closed := true), Release(sub))
  {
    assert Owed(log.(closed := true), sub) == Owed(log, sub);
    if !sub.Done() {
      ReleaseKeepsActive(log, log.(closed := true), sub);
    }
  }

  /** Catching up loses and repeats nothing: while the cursor has not expired, what
      history holds above it is exactly what is still owed. */
  lemma CatchUpIsExact(log: Log, sub: Sub)
    requires LogInv(log) && log.resumable && !Expired(log, Reached(sub))
    requires sub.cursor <= sub.start <= FirstAvailable(log, sub.cursor)
    requires sub.yielded <= Owed(log, sub)
    ensures sub.yielded + Matching(log.history, Reached(sub), sub.modes) == Owed(log, sub)
  {
    var owed, reached, k := Owed(log, sub), Reached(sub), |sub.yielded|;
    MatchingSuffix(log.published, log.evictedThrough, reached, sub.modes);
    if k == 0 {
      if sub.start != sub.cursor {
        MatchingFromBelow(log.published, sub.start, sub.cursor, sub.modes);
      }
      assert sub.yielded + owed == owed;
    } else {
      MatchingSplit(log.published, sub.start, sub.modes, k);
      assert owed == sub.yielded + owed[k..];
    }
  }

  lemma ReplayKeeps(log: Log, sub: Sub)
    requires ActiveInv(log, sub) && sub.pc.Replay?
    ensures ActiveInv(log, Move(log, sub)) && !Move(log, sub).Done()
  {
    if sub.replay != [] {
      assert sub.yielded + [sub.replay[0]] + sub.replay[1..] == sub.yielded + sub.replay;
    }
  }

  lemma LiveKeeps(log: Log, sub: Sub)
    requires SubInv(log, sub) && sub.pc.Live?
    ensures SubInv(log, Move(log, sub))
  {
    if log.closed && sub.queue == [] {
      assert sub.yielded + [] + [] == sub.yielded;
    }
  }

  lemma ReattachKeeps(log: Log, sub: Sub)
    requires LogInv(log) && SubInv(log, sub) && sub.pc.Get? && Lost(sub.queue)
    requires log.resumable && !Expired(log, sub.delivered)
    ensures SubInv(log, Move(log, sub))
  {
    CatchUpIsExact(log, sub);
    hide LogInv;
    var sub' := Move(log, sub);
    assert Above(sub'.queue, sub'.start) == [];
    assert sub'.yielded + sub'.replay + [] == sub'.yielded + sub'.replay;
  }

  lemma TakeOverflowKeeps(log: Log, sub: Sub)
    requires LogInv(log) && SubInv(log, sub) && sub.pc.Get? && Lost(sub.queue)
    ensures SubInv(log, Move(log, sub))
  {
    if log.resumable && !Expired(log, sub.delivered) {
      ReattachKeeps(log, sub);
    } else {
      assert sub.yielded + [] == sub.yielded;
    }
  }

  /** The drain skips a queued event exactly when it is not owed. */
  lemma SkipsExactlyWhatIsNotOwed(log: Log, sub: Sub)
    requires LogInv(log) && ActiveInv(log, sub) && sub.cursor <= sub.start
    requires sub.pc.Get? && sub.queue != [] && sub.queue[0].Ev?
    ensures sub.queue[0].e.eventId > sub.delivered <==> sub.queue[0].e.eventId > sub.start
  {
    var e, y, owed := sub.queue[0].e, sub.yielded, Owed(log, sub);
    if y != [] {
      AboveTail(sub.queue, sub.start);
      MatchingIds(log.published, sub.start, sub.modes);
      assert owed[|y| - 1] == y[|y| - 1];
      assert owed[|y| - 1] in owed;
      if e.eventId > sub.start {
        assert y + Unread(sub) == y;
        assert owed == y + ([e] + Above(sub.queue[1..], sub.start));
        assert owed[|y|] == e;
      }
    }
  }

  lemma QueueTailOk(log: Log, sub: Sub)
    requires QueueOk(log, sub) && sub.queue != [] && sub.queue[0].Ev?
    ensures QueueOk(log, sub.(queue := sub.queue[1..], pc := Live)) && !Lost(sub.queue[1..])
  {
  }

  lemma TakeSkippedKeeps(log: Log, sub: Sub)
    requires ActiveInv(log, sub) && sub.pc.Get? && sub.queue != [] && sub.queue[0].Ev?
    requires sub.queue[0].e.eventId <= sub.start
    ensures ActiveInv(log, sub.(queue := sub.queue[1..], pc := Live))
  {
    QueueTailOk(log, sub);
    AboveTail(sub.queue, sub.start);
    assert [] + Above(sub.queue[1..], sub.start) == Above(sub.queue[1..], sub.start);
  }

  lemma TakeOwedKeeps(log: Log, sub: Sub)
    requires ActiveInv(log, sub) && sub.pc.Get? && sub.queue != [] && sub.queue[0].Ev?
    requires sub.queue[0].e.eventId > sub.start
    ensures var e := sub.queue[0].e;
            ActiveInv(log, sub.(queue := sub.queue[1..], pc := LiveYield(e), yielded := sub.yielded + [e]))
  {
    var e, rest, y := sub.queue[0].e, sub.queue[1..], sub.yielded;
    QueueTailOk(log, sub);
    AboveTail(sub.queue, sub.start);
    var sub' := sub.(queue := rest, pc := LiveYield(e), yielded := y + [e]);
    assert y + [] + ([e] + Above(rest, sub.start)) == y + [e] + [] + Above(rest, sub.start);
    assert Owed(log, sub') == Owed(log, sub);
    assert QueueOk(log, sub');
  }

  lemma TakeEventKeeps(log: Log, sub: Sub)
    requires LogInv(log) && ActiveInv(log, sub) && sub.cursor <= sub.start
    requires sub.pc.Get? && sub.queue != [] && sub.queue[0].Ev?
    ensures ActiveInv(log, Move(log, sub))
  {
    SkipsExactlyWhatIsNotOwed(log, sub);
    if sub.queue[0].e.eventId > sub.start {
      TakeOwedKeeps(log, sub);
    } else {
      TakeSkippedKeeps(log, sub);
    }
  }

  lemma TakeEndKeeps(log: Log, sub: Sub)
    requires LogInv(log) && SubInv(log, sub) && sub.pc.Get? && sub.queue != [] && sub.queue[0].End?
    ensures SubInv(log, Move(log, sub))
  {
    AboveTail(sub.queue, sub.start);
    assert sub.queue[1..] == [];
    assert sub.yielded + [] + [] == sub.yielded;
  }

  lemma ResumeKeeps(log: Log, sub: Sub)
    requires ActiveInv(log, sub) && (sub.pc.ReplayYield? || sub.pc.LiveYield?)
    ensures ActiveInv(log, Move(log, sub)) && !Move(log, sub).Done()
  {
  }

  lemma TakeKeeps(log: Log, sub: Sub)
    requires LogInv(log) && SubInv(log, sub) && sub.pc.Get?
    ensures SubInv(log, Move(log, sub))
  {
    if sub.queue != [] {
      match sub.queue[0]
      case End => TakeEndKeeps(log, sub);
      case Overflow => TakeOverflowKeeps(log, sub);
      case Ev(_) => TakeEventKeeps(log, sub);
    }
  }

  lemma MoveKeeps(log: Log, sub: Sub)
    requires LogInv(log) && SubInv(log, sub)
    ensures SubInv(log, Move(log, sub))
  {
    if sub.Done() {
    } else if sub.pc.Replay? {
      ReplayKeeps(log, sub);
    } else if sub.pc.Live? {
      LiveKeeps(log, sub);
    } else if sub.pc.Get? {
      TakeKeeps(log, sub);
    } else {
      ResumeKeeps(log, sub);
    }
  }

  lemma AbandonKeeps(log: Log, sub: Sub)
    requires SubInv(log, sub) && !sub.Done()
    ensures SubInv(log, sub.(pc := Pc.Abandoned, attached := false))
  {
    var sub' := sub.(pc := Pc.Abandoned, attached := false);
    assert Owed(log, sub') == Owed(log, sub);
    assert sub.yielded <= sub.yielded + Unread(sub) <= sub.yielded + Unread(sub) + Above(sub.queue, sub.start);
  }

  lemma StepKeeps(s: System, a: Action)
    requires Inv(s)
    ensures Inv(Step(s, a))
  {
    match a
    case Publish(event, data) =>
      if !s.log.closed {
        PublishKeeps(s.log, s.sub, NextEvent(s.log, event, data));
      }
    case Close =>
      if !s.log.closed {
        CloseKeeps(s.log, s.sub);
      }
    case Drain => MoveKeeps(s.log, s.sub);
    case Abandon =>
      if !s.sub.Done() {
        AbandonKeeps(s.log, s.sub);
      }
  }

  lemma {:induction false} RunKeeps(s: System, actions: seq<Action>)
    requires Inv(s)
    ensures Inv(Run(s, actions))
    decreases |actions|
  {
    if actions != [] {
      StepKeeps(s, actions[0]);
      RunKeeps(Step(s, actions[0]), actions[1..]);
    }
  }

  // ---------------------------------------------------------------- main results

  /** The stream alone, before the subscriber arrives. */
  function LogStep(log: Log, a: Action): Log {
    match a
    case Publish(event, data) => if log.closed then log else Append(log, NextEvent(log, event, data))
    case Close => log.(closed := true)
    case _ => log
  }

  function RunLog(log: Log, actions: seq<Action>): Log
    decreases |actions|
  {
    if actions == [] then log else RunLog(LogStep(log, actions[0]), actions[1..])
  }

  lemma {:induction false} RunLogKeeps(log: Log, actions: seq<Action>)
    requires LogInv(log)
    ensures LogInv(RunLog(log, actions)) && RunLog(log, actions).resumable == log.resumable
    decreases |actions|
  {
    if actions != [] {
      var a := actions[0];
      if a.Publish? && !log.closed {
        AppendKeepsLog(log, NextEvent(log, a.event, a.data));
      }
      RunLogKeeps(LogStep(log, a), actions[1..]);
    }
  }

  /** The retained history of a resumable stream is, after any publishes, the longest
      suffix of everything published that fits both budgets, and the byte counter is
      its true size; a non-resumable stream keeps none. */
  lemma RetainedHistory(resumable: bool, maxEvents: int, maxBytes: int, actions: seq<Action>)
    ensures var log := RunLog(NewLog(resumable, maxEvents, maxBytes), actions);
            && log.historyBytes == Bytes(log.history)
            && (resumable ==> LongestFittingSuffix(log))
            && (!resumable ==> log.history == [])
  {
    RunLogKeeps(NewLog(resumable, maxEvents, maxBytes), actions);
  }

  /** What a run never changes: the past, the kind of stream, the subscription. */
  ghost predicate Extends(s: System, after: System) {
    && s.log.published <= after.log.published
    && after.log.resumable == s.log.resumable && s.log.evictedThrough <= after.log.evictedThrough
    && (s.log.closed ==> after.log == s.log)
    && after.sub.start == s.sub.start && after.sub.cursor == s.sub.cursor && after.sub.modes == s.sub.modes
  }

  lemma StepExtends(s: System, a: Action)
    requires LogInv(s.log)
    ensures LogInv(Step(s, a).log) && Extends(s, Step(s, a))
  {
    if a.Publish? && !s.log.closed {
      AppendKeepsLog(s.log, NextEvent(s.log, a.event, a.data));
    }
  }

  lemma {:induction false} RunExtends(s: System, actions: seq<Action>)
    requires LogInv(s.log)
    ensures Extends(s, Run(s, actions))
    decreases |actions|
  {
    if actions != [] {
      StepExtends(s, actions[0]);
      RunExtends(Step(s, actions[0]), actions[1..]);
    }
  }

  /** A subscription: a stream with any past, then a subscriber arriving. */
  function Subscribed(resumable: bool, maxEvents: int, maxBytes: int, past: seq<Action>,
                      after: Option<int>, modes: seq<string>): System
  {
    var log := RunLog(NewLog(resumable, maxEvents, maxBytes), past);
    System(log, Subscribe(log, after, modes))
  }

  lemma SubscribedInv(resumable: bool, maxEvents: int, maxBytes: int, past: seq<Action>,
                      after: Option<int>, modes: seq<string>, actions: seq<Action>)
    ensures Inv(Subscribed(resumable, maxEvents, maxBytes, past, after, modes))
    ensures Inv(Run(Subscribed(resumable, maxEvents, maxBytes, past, after, modes), actions))
  {
    var s := Subscribed(resumable, maxEvents, maxBytes, past, after, modes);
    RunLogKeeps(NewLog(resumable, maxEvents, maxBytes), past);
    SubscribeEstablishes(s.log, after, modes);
    RunKeeps(s, actions);
  }

  /** Exact delivery. For any past of the stream, any subscription and any
      interleaving of publishes, drains, overflows, catch-ups, close and abandonment,
      what was yielded is a prefix of the published matching events above `start`, and
      all of them once the drain returns. `start` is the cursor of a resumable
      subscriber whose cursor had not expired, and otherwise the cursor or the last id
      the stream could not replay, whichever is higher. */
  lemma ExactDelivery(resumable: bool, maxEvents: int, maxBytes: int, past: seq<Action>,
                      after: Option<int>, modes: seq<string>, actions: seq<Action>)
    ensures var s0 := Subscribed(resumable, maxEvents, maxBytes, past, after, modes);
            var s := Run(s0, actions);
            var cursor := if after.Some? then after.value else s0.log.LastId();
            var owed := Matching(s.log.published, FirstAvailable(s0.log, cursor), modes);
            && s0.log.published <= s.log.published
            && s.sub.yielded <= owed
            && (s.sub.pc.Returned? ==> s.log.closed && s.sub.yielded == owed)
            && (resumable && !Expired(s0.log, cursor) ==> owed == Matching(s.log.published, cursor, modes))
  {
    var s0 := Subscribed(resumable, maxEvents, maxBytes, past, after, modes);
    var s := Run(s0, actions);
    SubscribedInv(resumable, maxEvents, maxBytes, past, after, modes, actions);
    RunExtends(s0, actions);
    RunLogKeeps(NewLog(resumable, maxEvents, maxBytes), past);
    if !s.sub.Done() {
      var read := s.sub.yielded + Unread(s.sub);
      assert s.sub.yielded <= read <= read + Above(s.sub.queue, s.sub.start);
    }
    if resumable && !Expired(s0.log, s0.sub.cursor) && s0.sub.start != s0.sub.cursor {
      MatchingFromBelow(s.log.published, s0.sub.start, s0.sub.cursor, modes);
    }
  }

  // ---------------------------------------------------------------- when a queue overflows

  function PublishCount(actions: seq<Action>): nat {
    if actions == [] then 0 else (if actions[0].Publish? then 1 else 0) + PublishCount(actions[1..])
  }

  /** No overflow so far, and at most `n` events are waiting. */
  ghost predicate KeepsUp(s: System, n: nat, catchUps: nat) {
    && (!s.log.closed ==> |s.sub.queue| <= n)
    && (forall i :: 0 <= i < |s.sub.queue| ==> !s.sub.queue[i].Overflow?)
    && s.sub.catchUps == catchUps && !s.sub.pc.Raised?
  }

  lemma KeepsUpOnce(s: System, a: Action, n: nat, catchUps: nat)
    requires KeepsUp(s, n, catchUps) && (a.Publish? ==> n < QUEUE_SIZE)
    ensures KeepsUp(Step(s, a), n + PublishCount([a]), catchUps)
  {
    hide ModeMatches, Matching, Evict;
    assert [a][1..] == [];
  }

  /** A subscriber with `n` events waiting keeps its queue, and neither fails nor has to
      catch up, for the next 256 - `n` events, whether it drains them or not: a queue
      overflows only when 256 accepted events wait in it. */
  lemma {:induction false} BurstFits(s: System, actions: seq<Action>, n: nat, catchUps: nat)
    requires KeepsUp(s, n, catchUps) && n + PublishCount(actions) <= QUEUE_SIZE
    ensures KeepsUp(Run(s, actions), n + PublishCount(actions), catchUps)
    decreases |actions|
  {
    hide KeepsUp, Step;
    if actions != [] {
      assert PublishCount([actions[0]]) == if actions[0].Publish? then 1 else 0 by { assert [actions[0]][1..] == []; }
      KeepsUpOnce(s, actions[0], n, catchUps);
      BurstFits(Step(s, actions[0]), actions[1..], n + PublishCount([actions[0]]), catchUps);
    }
  }

  lemma RaisedEvicted(log: Log, sub: Sub) returns (e: StreamEvent)
    requires LogInv(log) && SubInv(log, sub) && log.resumable && sub.pc.Raised?
    ensures e in log.published && e !in log.history && e.eventId > Reached(sub)
  {
    e := log.published[log.evictedThrough - 1];
    assert forall h :: h in log.history ==> h.eventId > log.evictedThrough;
  }

  lemma RaisedLost(log: Log, sub: Sub)
    requires LogInv(log) && SubInv(log, sub) && log.resumable && sub.pc.Raised?
    ensures exists e :: e in log.published && e !in log.history && e.eventId > Reached(sub)
    ensures sub.modes == [] && sub.start <= Max(sub.cursor, 0) ==>
              exists e :: e in Owed(log, sub) && e !in sub.yielded && e !in log.history
  {
    var e := RaisedEvicted(log, sub);
    var owed, y := Owed(log, sub), sub.yielded;
    assert Numbered(log.published) && y <= owed;
    MatchingIds(log.published, sub.start, sub.modes);
    hide LogInv, SubInv;
    assert forall i :: 0 <= i < |y| ==> y[i] == owed[i];
    if sub.modes == [] && sub.start <= Max(sub.cursor, 0) {
      if y != [] {
        assert y[|y| - 1] in owed;
      }
      assert e in owed;
      assert e !in y;
    }
  }

  /** Honest overflow. A resumable subscriber that fails lost something: an event
      above the last one it yielded was evicted. Without a mode filter, and with a
      cursor that had not expired, that is an event it was owed and never got. */
  lemma HonestOverflow(maxEvents: int, maxBytes: int, past: seq<Action>,
                       after: Option<int>, modes: seq<string>, actions: seq<Action>)
    requires Run(Subscribed(true, maxEvents, maxBytes, past, after, modes), actions).sub.pc.Raised?
    ensures var s0 := Subscribed(true, maxEvents, maxBytes, past, after, modes);
            var s := Run(s0, actions);
            && (exists e :: e in s.log.published && e !in s.log.history && e.eventId > Reached(s.sub))
            && (modes == [] && !Expired(s0.log, s0.sub.cursor) ==>
                  exists e :: e in Owed(s.log, s.sub) && e !in s.sub.yielded && e !in s.log.history)
  {
    var s0 := Subscribed(true, maxEvents, maxBytes, past, after, modes);
    var s := Run(s0, actions);
    SubscribedInv(true, maxEvents, maxBytes, past, after, modes, actions);
    RunLogKeeps(NewLog(true, maxEvents, maxBytes), past);
    RunExtends(s0, actions);
    RaisedLost(s.log, s.sub);
  }

  // ---------------------------------------------------------------- guaranteed end

  /** How many moves a drain has left once the stream is closed. */
  function Rank(log: Log, sub: Sub): nat {
    var waiting := 3 * |sub.queue| + if Lost(sub.queue) then 2 * |log.history| + 3 else 0;
    match sub.pc
    case Replay => 2 * |sub.replay| + 2 + waiting
    case ReplayYield => 2 * |sub.replay| + 1 + waiting
    case Live => 1 + waiting
    case Get => waiting
    case LiveYield(_) => 2 + waiting
    case _ => 0
  }

  lemma {:induction false} MatchingIsNoLonger(events: seq<StreamEvent>, after: int, modes: seq<string>)
    ensures |Matching(events, after, modes)| <= |events|
    decreases |events|
  {
    if events != [] {
      MatchingIsNoLonger(events[..|events| - 1], after, modes);
    }
  }

  /** Nearer the end: a smaller rank, no second overflow, and failure only after one. */
  ghost predicate Nearer(log: Log, sub: Sub, sub': Sub) {
    && Rank(log, sub') < Rank(log, sub)
    && sub'.catchUps + (if Lost(sub'.queue) then 1 else 0) <= sub.catchUps + (if Lost(sub.queue) then 1 else 0)
    && !sub'.pc.Abandoned?
    && (sub'.pc.Raised? || Lost(sub'.queue) ==> Lost(sub.queue))
  }

  lemma ClosedTakes(log: Log, sub: Sub)
    requires ActiveInv(log, sub) && log.closed && sub.pc.Get?
    ensures Nearer(log, sub, Move(log, sub))
  {
    if Lost(sub.queue) {
      MatchingIsNoLonger(log.history, sub.delivered, sub.modes);
    } else if sub.queue[0].Ev? {
      QueueTailOk(log, sub);
    }
  }

  lemma ClosedMoves(log: Log, sub: Sub)
    requires SubInv(log, sub) && log.closed && !sub.Done()
    ensures Nearer(log, sub, Move(log, sub))
  {
    if sub.pc.Get? {
      ClosedTakes(log, sub);
    }
  }

  function Moves(log: Log, sub: Sub, n: nat): Sub
    decreases n
  {
    if n == 0 then sub else Moves(log, Move(log, sub), n - 1)
  }

  /** After close every drain, wherever it stands, finishes within `Rank` moves, with
      at most one more catch-up, and never waits on an empty queue. It can only fail
      if its queue had been lost; otherwise it returns having yielded all it is owed. */
  lemma {:induction false} GuaranteedEnd(log: Log, sub: Sub, n: nat)
    requires LogInv(log) && SubInv(log, sub) && log.closed && !sub.Done()
    requires n >= Rank(log, sub)
    ensures var last := Moves(log, sub, n);
            && last.catchUps <= sub.catchUps + (if Lost(sub.queue) then 1 else 0)
            && (last.pc.Returned? || last.pc.Raised?)
            && (!Lost(sub.queue) ==> last.pc.Returned?)
            && SubInv(log, last)
    decreases n
  {
    ClosedMoves(log, sub);
    MoveKeeps(log, sub);
    var sub' := Move(log, sub);
    if sub'.Done() {
      DoneStays(log, sub', n - 1);
    } else {
      GuaranteedEnd(log, sub', n - 1);
    }
  }

  lemma {:induction false} DoneStays(log: Log, sub: Sub, n: nat)
    requires sub.Done()
    ensures Moves(log, sub, n) == sub
  {
    if n > 0 {
      DoneStays(log, sub, n - 1);
    }
  }

  // ------------------------------------- overflow of a filtered subscriber

  function Publishes(event: string, n: nat): seq<Action> {
    seq(n, _ => Publish(event, "{}"))
  }

  lemma {:induction false} Utf8AtMost(s: string)
    ensures Utf8Length(s) <= 4 * |s|
  {
    if s != "" {
      Utf8AtMost(s[..|s| - 1]);
    }
  }

  lemma {:induction false} BytesAtMost(events: seq<StreamEvent>)
    requires forall e :: e in events ==> |e.frame| <= 30
    ensures Bytes(events) <= 120 * |events|
  {
    if events != [] {
      Utf8AtMost(events[0].frame);
      BytesAtMost(events[1..]);
    }
  }

  /** All frames but the first. */
  ghost predicate ShortFrames(log: Log) {
    forall i :: 1 <= i < |log.published| ==> |log.published[i].frame| <= 30
  }

  lemma ShortFrame(log: Log)
    requires log.LastId() < 999
    ensures |NextEvent(log, "end", "{}").frame| <= 30
  {
    var id := log.LastId() + 1;
    assert id >= 10 ==> Decimal(id) == Decimal(id / 10) + [DigitChar(id % 10)];
    assert |Decimal(id)| <= 3;
  }

  /** A subscriber that reads nothing: each event goes to its queue, whatever its modes. */
  lemma {:induction false} QueueFills(s: System, n: nat)
    requires LogInv(s.log) && !s.log.closed && s.sub.attached
    requires |s.sub.queue| + n <= QUEUE_SIZE && s.log.LastId() + n < 999 && ShortFrames(s.log)
    ensures var t := Run(s, Publishes("end", n));
            && Extends(s, t) && LogInv(t.log) && !t.log.closed && ShortFrames(t.log)
            && t.sub == s.sub.(queue := t.sub.queue) && |t.sub.queue| == |s.sub.queue| + n
            && t.log.LastId() == s.log.LastId() + n
            && t.log.maxEvents == s.log.maxEvents && t.log.maxBytes == s.log.maxBytes
    decreases n
  {
    if n > 0 {
      var a := Publish("end", "{}");
      assert Publishes("end", n)[0] == a && Publishes("end", n)[1..] == Publishes("end", n - 1);
      ShortFrame(s.log);
      AppendKeepsLog(s.log, NextEvent(s.log, "end", "{}"));
      QueueFills(Step(s, a), n - 1);
    }
  }

  lemma {:induction false} RunConcat(s: System, a: seq<Action>, b: seq<Action>)
    ensures Run(s, a + b) == Run(Run(s, a), b)
    decreases |a|
  {
    if a == [] {
      assert a + b == b;
    } else {
      assert (a + b)[0] == a[0] && (a + b)[1..] == a[1..] + b;
      RunConcat(Step(s, a[0]), a[1..], b);
    }
  }

  /** The evicted part is just event 1. */
  lemma OnlyTheFirstIsEvicted(log: Log)
    requires LogInv(log) && log.resumable && ShortFrames(log)
    requires log.maxEvents == 257 && log.maxBytes == 100_000 && log.LastId() == 258
    ensures log.evictedThrough == 1 && log.history == log.published[1..]
  {
    var kept := log.published[1..];
    assert forall e :: e in kept ==> |e.frame| <= 30;
    BytesAtMost(kept);
    assert Fits(kept, 257, 100_000);
  }

  function Zs(n: nat): (z: string)
    ensures |z| == n
  {
    seq(n, _ => 'z')
  }

  function Longest(modes: seq<string>): nat {
    if modes == [] then 0 else Max(|modes[0]|, Longest(modes[1..]))
  }

  lemma {:induction false} NoneIsLonger(modes: seq<string>, mode: string)
    requires mode in modes
    ensures |mode| <= Longest(modes)
  {
    if mode != modes[0] {
      NoneIsLonger(modes[1..], mode);
    }
  }

  /** An event name that a filter rejects: it is longer than every mode. */
  function Rejected(modes: seq<string>): string { Zs(Longest(modes) + 1) }

  lemma {:induction false} NoBar(n: nat)
    ensures IndexOf(Zs(n), '|') == n
  {
    if n > 0 {
      NoBar(n - 1);
      assert Zs(n)[1..] == Zs(n - 1);
    }
  }

  lemma StartsAlike(s: string, prefix: string)
    requires s != "" && prefix != ""
    ensures StartsWith(s, prefix) ==> s[0] == prefix[0]
  {
  }

  lemma RejectedIsRejected(modes: seq<string>)
    requires modes != []
    ensures !ModeMatches(Rejected(modes), modes)
  {
    var z := Rejected(modes);
    NoBar(|z|);
    if z in modes { NoneIsLonger(modes, z); }
    assert z[0] == 'z';
    assert "metadata"[0] == 'm' && "error"[0] == 'e' && "end"[0] == 'e';
    StartsAlike(z, "messages");
  }

  lemma FirstIsRejected(s0: System)
    requires LogInv(s0.log) && !s0.log.closed && s0.log.resumable && s0.log.LastId() == 0
    requires s0.log.maxEvents == 257 && s0.log.maxBytes == 100_000
    requires s0.sub.modes != [] && s0.sub.attached
    ensures var name := Rejected(s0.sub.modes);
            var s1 := Step(s0, Publish(name, "{}"));
            && LogInv(s1.log) && !s1.log.closed && ShortFrames(s1.log) && s1.log.LastId() == 1
            && s1.log.published[0].event == name && s1.log.resumable
            && s1.log.maxEvents == 257 && s1.log.maxBytes == 100_000
            && s1.sub == s0.sub
  {
    RejectedIsRejected(s0.sub.modes);
    AppendKeepsLog(s0.log, NextEvent(s0.log, Rejected(s0.sub.modes), "{}"));
  }

  lemma FullQueueOverflows(s2: System)
    requires LogInv(s2.log) && !s2.log.closed && ShortFrames(s2.log) && s2.log.resumable
    requires s2.log.LastId() == 257 && s2.log.maxEvents == 257 && s2.log.maxBytes == 100_000
    requires s2.sub.attached && |s2.sub.queue| == QUEUE_SIZE
    requires s2.sub.pc.Replay? && s2.sub.replay == [] && s2.sub.delivered == 0
    ensures var s := Run(s2, [Publish("end", "{}"), Drain, Drain, Drain]);
            && s.sub.pc.Raised? && LogInv(s.log)
            && s2.log.published <= s.log.published && s.log.history == s.log.published[1..]
            && s.sub.start == s2.sub.start && s.sub.modes == s2.sub.modes
  {
    var e := NextEvent(s2.log, "end", "{}");
    var log, sub := Append(s2.log, e), Deliver(s2.sub, e);
    ShortFrame(s2.log);
    AppendKeepsLog(s2.log, e);
    OnlyTheFirstIsEvicted(log);
    assert sub == s2.sub.(attached := false, queue := [Overflow]);
    var live, get := sub.(pc := Live), sub.(pc := Get);
    assert Move(log, sub) == live && Move(log, live) == get && Move(log, get).pc.Raised?;
    var s3 := System(log, sub);
    assert Step(s2, Publish("end", "{}")) == s3;
    assert Run(s3, [Drain, Drain, Drain]) == Run(System(log, live), [Drain, Drain])
        == Run(System(log, get), [Drain]) == System(log, Move(log, get)) by {
      assert [Drain, Drain, Drain][1..] == [Drain, Drain] && [Drain, Drain][1..] == [Drain] && [Drain][1..] == [];
    }
    assert [Publish("end", "{}"), Drain, Drain, Drain][1..] == [Drain, Drain, Drain];
  }

  lemma OnlyTheRejectedIsLost(log: Log, sub: Sub)
    requires LogInv(log) && log.published != [] && log.history == log.published[1..]
    requires sub.modes != [] && log.published[0].event == Rejected(sub.modes)
    ensures forall e :: e in Owed(log, sub) ==> e in log.history
  {
    RejectedIsRejected(sub.modes);
    MatchingIds(log.published, sub.start, sub.modes);
    forall e | e in Owed(log, sub) ensures e in log.history {
      var i :| 0 <= i < |log.published| && log.published[i] == e;
      assert i != 0;
      assert log.history[i - 1] == e;
    }
  }

  /** One event that the filter rejects, and one more that it accepts than the queue and
      the history can hold. */
  function FilteredRun(modes: seq<string>): seq<Action> {
    [Publish(Rejected(modes), "{}")] + Publishes("end", 256) + [Publish("end", "{}"), Drain, Drain, Drain]
  }

  lemma RunFirst(s: System, a: Action, rest: seq<Action>)
    ensures Run(s, [a] + rest) == Run(Step(s, a), rest)
  {
    assert ([a] + rest)[1..] == rest;
  }

  lemma FilteredRunRaises(s0: System)
    requires LogInv(s0.log) && !s0.log.closed && s0.log.resumable && s0.log.LastId() == 0
    requires s0.log.maxEvents == 257 && s0.log.maxBytes == 100_000
    requires s0.sub.modes != [] && s0.sub.attached && s0.sub.queue == []
    requires s0.sub.pc.Replay? && s0.sub.replay == [] && s0.sub.delivered == 0
    ensures var s := Run(s0, FilteredRun(s0.sub.modes));
            s.sub.pc.Raised? && forall e :: e in Owed(s.log, s.sub) ==> e in s.log.history
  {
    hide LogInv, Step, Run, Publishes, Owed, Rejected;
    var modes := s0.sub.modes;
    var b, fill := Publish(Rejected(modes), "{}"), Publishes("end", 256);
    var rest := [Publish("end", "{}"), Drain, Drain, Drain];
    var s1 := Step(s0, b);
    FirstIsRejected(s0);
    QueueFills(s1, 256);
    var s2 := Run(s1, fill);
    FullQueueOverflows(s2);
    var s := Run(s2, rest);
    assert FilteredRun(modes) == [b] + (fill + rest);
    RunFirst(s0, b, fill + rest);
    RunConcat(s1, fill, rest);
    assert s.log.published[0] == s1.log.published[0];
    OnlyTheRejectedIsLost(s.log, s.sub);
  }

  /** Under every mode filter an overflow can be raised although nothing the subscriber
      asked for was evicted: event 1, which its filter rejects, is the only one lost. */
  lemma FilteredOverflowIsConservative(modes: seq<string>)
    requires modes != []
    ensures var s := Run(Subscribed(true, 257, 100_000, [], Some(0), modes), FilteredRun(modes));
            s.sub.pc.Raised? && forall e :: e in Owed(s.log, s.sub) ==> e in s.log.history
  {
    FilteredRunRaises(Subscribed(true, 257, 100_000, [], Some(0), modes));
  }

  // ------------------------------------- exactly when overflow is honest

  /** If it raises, from a cursor that had not expired, an event it was owed and never
      got has been evicted. */
  ghost predicate Honest(s0: System, actions: seq<Action>) {
    var s := Run(s0, actions);
    s.sub.pc.Raised? && !Expired(s0.log, s0.sub.cursor) ==>
      exists e :: e in Owed(s.log, s.sub) && e !in s.sub.yielded && e !in s.log.history
  }

  /** For any budgets, any past, any cursor and any interleaving. */
  ghost predicate AlwaysHonest(modes: seq<string>) {
    forall maxEvents: int, maxBytes: int, past: seq<Action>, after: Option<int>, actions: seq<Action> ::
      Honest(Subscribed(true, maxEvents, maxBytes, past, after, modes), actions)
  }

  /** A subscriber of a resumable stream is only ever failed for an event it missed if
      and only if it filters nothing. */
  lemma HonestExactlyUnfiltered(modes: seq<string>)
    ensures AlwaysHonest(modes) <==> modes == []
  {
    if modes == [] {
      forall maxEvents: int, maxBytes: int, past: seq<Action>, after: Option<int>, actions: seq<Action>
        ensures Honest(Subscribed(true, maxEvents, maxBytes, past, after, modes), actions)
      {
        var s0 := Subscribed(true, maxEvents, maxBytes, past, after, modes);
        if Run(s0, actions).sub.pc.Raised? {
          HonestOverflow(maxEvents, maxBytes, past, after, modes, actions);
        }
      }
    } else {
      hide Run, Owed;
      FilteredOverflowIsConservative(modes);
      assert !Honest(Subscribed(true, 257, 100_000, [], Some(0), modes), FilteredRun(modes));
    }
  }
}
