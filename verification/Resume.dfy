/** Reconnecting to a run's stream: the `Last-Event-ID` cursor, the decision of
    `join_run_stream` (src/skeino/ops/runs.py), and what a client that was cut off
    and came back has received in all.
 */
module Resume {
  import opened Common
  import opened Frames
  import opened Delivery

  // ---------------------------------------------------------------- the cursor

  /** Python's `str.isspace`, one character at a time. */
  predicate IsSpace(c: char) {
    var n := c as int;
    || 0x09 <= n <= 0x0D || 0x1C <= n <= 0x20 || n == 0x85 || n == 0xA0 || n == 0x1680
    || 0x2000 <= n <= 0x200A || n == 0x2028 || n == 0x2029 || n == 0x202F || n == 0x205F || n == 0x3000
  }

  function StripLeft(s: string): string {
    if s != "" && IsSpace(s[0]) then StripLeft(s[1..]) else s
  }

  function StripRight(s: string): string {
    if s != "" && IsSpace(s[|s| - 1]) then StripRight(s[..|s| - 1]) else s
  }

  predicate IsDigit(c: char) { '0' <= c <= '9' }

  /** Decimal digits, single underscores allowed between them. */
  function ParseDigits(s: string): Option<nat>
    decreases |s|
  {
    if s == "" || !IsDigit(s[|s| - 1]) then None
    else
      var digit := (s[|s| - 1] - '0') as nat;
      var front := s[..|s| - 1];
      if front == "" then Some(digit)
      else
        var high := ParseDigits(if front[|front| - 1] == '_' then front[..|front| - 1] else front);
        if high.None? then None else Some(10 * high.value + digit)
  }

  /** Python's `int` on a stripped text. */
  function ParseInt(s: string): Option<int> {
    if s != "" && s[0] == '-' then
      var n := ParseDigits(s[1..]);
      if n.None? then None else Some(-(n.value as int))
    else
      var n := ParseDigits(if s != "" && s[0] == '+' then s[1..] else s);
      if n.None? then None else Some(n.value)
  }

  /** `_parse_last_event_id`; the error is the 422 response. */
  function ParseLastEventId(header: Option<string>): (r: Result<Option<int>, ()>)
    ensures r.Ok? && r.value.Some? ==> r.value.value >= -1
  {
    if header.None? || StripRight(StripLeft(header.value)) == "" then Ok(None)
    else
      var id := ParseInt(StripRight(StripLeft(header.value)));
      if id.None? || id.value < -1 then Err(()) else Ok(Some(id.value))
  }

  lemma {:induction false} DigitsRoundTrip(n: nat)
    ensures ParseDigits(Decimal(n)) == Some(n)
  {
    DecimalDigits(n);
    var s := Decimal(n);
    if n >= 10 {
      DigitsRoundTrip(n / 10);
      DecimalDigits(n / 10);
      var front := s[..|s| - 1];
      assert front == Decimal(n / 10);
      assert front[|front| - 1] in front;
      assert s[|s| - 1] == DigitChar(n % 10);
    }
  }

  /** The id a client was last given parses back to that id. */
  lemma CursorRoundTrip(n: nat)
    ensures ParseLastEventId(Some(Decimal(n))) == Ok(Some(n))
  {
    var s := Decimal(n);
    DecimalDigits(n);
    assert s[0] in s && s[|s| - 1] in s;
    assert StripLeft(s) == s && StripRight(s) == s;
    DigitsRoundTrip(n);
  }

  /** The SDK's "from the beginning" is accepted; every other negative id is not. */
  lemma NegativeCursors(n: nat)
    requires n > 0
    ensures ParseLastEventId(Some("-" + Decimal(n))) == if n == 1 then Ok(Some(-1)) else Err(())
  {
    var s := "-" + Decimal(n);
    DecimalDigits(n);
    assert s[|s| - 1] in Decimal(n);
    assert StripLeft(s) == s && StripRight(s) == s;
    assert s[1..] == Decimal(n);
    DigitsRoundTrip(n);
  }

  // ---------------------------------------------------------------- what a header denotes

  /** Digits in groups, with single underscores between the groups. */
  predicate Grouped(s: string) {
    && s != "" && IsDigit(s[0]) && IsDigit(s[|s| - 1])
    && (forall i :: 0 <= i < |s| ==> IsDigit(s[i]) || s[i] == '_')
    && (forall i :: 0 < i < |s| && s[i] == '_' ==> s[i - 1] != '_')
  }

  /** The number its digits write. */
  function ValueOf(s: string): nat
    requires forall i :: 0 <= i < |s| ==> IsDigit(s[i]) || s[i] == '_'
  {
    if s == "" then 0
    else
      var last := s[|s| - 1];
      var front := ValueOf(s[..|s| - 1]);
      if IsDigit(last) then 10 * front + (last - '0') as nat else front
  }

  predicate Denotes(s: string, n: int) {
    || (Grouped(s) && n == ValueOf(s))
    || (s != "" && s[0] == '+' && Grouped(s[1..]) && n == ValueOf(s[1..]))
    || (s != "" && s[0] == '-' && Grouped(s[1..]) && n == -(ValueOf(s[1..]) as int))
  }

  lemma {:induction false} DigitsExactly(s: string)
    ensures ParseDigits(s) == if Grouped(s) then Some(ValueOf(s)) else None
    decreases |s|
  {
    if s != "" && IsDigit(s[|s| - 1]) && |s| > 1 {
      var front := s[..|s| - 1];
      if front[|front| - 1] == '_' {
        var rest := front[..|front| - 1];
        DigitsExactly(rest);
        assert Grouped(s) <==> Grouped(rest) by { GroupedAfterBar(s); }
      } else {
        DigitsExactly(front);
        assert Grouped(s) <==> Grouped(front) by { GroupedAfterDigit(s); }
      }
    }
  }

  lemma GroupedAfterDigit(s: string)
    requires |s| > 1 && IsDigit(s[|s| - 1]) && s[|s| - 2] != '_'
    ensures Grouped(s) <==> Grouped(s[..|s| - 1])
  {
    var front := s[..|s| - 1];
    assert forall i :: 0 <= i < |front| ==> front[i] == s[i];
    if Grouped(s) { assert front[|front| - 1] == s[|s| - 2]; }
  }

  lemma GroupedAfterBar(s: string)
    requires |s| > 1 && IsDigit(s[|s| - 1]) && s[|s| - 2] == '_'
    ensures Grouped(s) <==> Grouped(s[..|s| - 1][..|s| - 2])
  {
    var rest := s[..|s| - 1][..|s| - 2];
    assert forall i :: 0 <= i < |rest| ==> rest[i] == s[i];
    if Grouped(s) {
      assert rest != "";
      assert s[|s| - 3] != '_' && rest[|rest| - 1] == s[|s| - 3];
    }
    if Grouped(rest) { assert rest[|rest| - 1] == s[|s| - 3]; }
  }

  lemma IntExactly(s: string, n: int)
    ensures ParseInt(s) == Some(n) <==> Denotes(s, n)
  {
    DigitsExactly(s);
    if s != "" { DigitsExactly(s[1..]); }
  }

  predicate AllSpace(s: string) { forall i :: 0 <= i < |s| ==> IsSpace(s[i]) }

  lemma {:induction false} StripsLeft(pad: string, s: string)
    requires AllSpace(pad) && (s == "" || !IsSpace(s[0]))
    ensures StripLeft(pad + s) == s
    decreases |pad|
  {
    if pad == "" {
      assert pad + s == s;
    } else {
      assert (pad + s)[1..] == pad[1..] + s;
      StripsLeft(pad[1..], s);
    }
  }

  lemma {:induction false} StripsRight(s: string, pad: string)
    requires AllSpace(pad) && (s == "" || !IsSpace(s[|s| - 1]))
    ensures StripRight(s + pad) == s
    decreases |pad|
  {
    if pad == "" {
      assert s + pad == s;
    } else {
      assert (s + pad)[..|s + pad| - 1] == s + pad[..|pad| - 1];
      StripsRight(s, pad[..|pad| - 1]);
    }
  }

  /** A header of blanks is no header. */
  lemma BlankIsNone(blank: string)
    requires AllSpace(blank)
    ensures ParseLastEventId(Some(blank)) == Ok(None)
  {
    StripsLeft(blank, "");
    assert blank + "" == blank;
  }

  /** Any other is a text with blanks around it: it is taken for the number the text
      denotes, if that is -1 or more, and refused otherwise. */
  lemma HeaderIsItsNumber(before: string, text: string, behind: string)
    requires AllSpace(before) && AllSpace(behind)
    requires text != "" && !IsSpace(text[0]) && !IsSpace(text[|text| - 1])
    ensures var r := ParseLastEventId(Some(before + text + behind));
            && (forall n :: r == Ok(Some(n)) <==> Denotes(text, n) && n >= -1)
            && (r.Err? <==> forall n :: Denotes(text, n) ==> n < -1)
            && r != Ok(None)
  {
    assert before + text + behind == before + (text + behind);
    StripsLeft(before, text + behind);
    StripsRight(text, behind);
    forall n ensures ParseInt(text) == Some(n) <==> Denotes(text, n) { IntExactly(text, n); }
    hide ParseInt, Denotes;
    var id := ParseInt(text);
    if id.Some? { assert Denotes(text, id.value); }
  }

  // ---------------------------------------------------------------- joining

  datatype Join = Attached(sub: Sub) | FinalState | Unprocessable | Ahead | ExpiredCursor

  /** What `join_run_stream` does for a run whose stream this process holds. */
  function JoinStream(log: Log, taskDone: bool, header: Option<string>, modes: seq<string>): Join {
    var parsed := ParseLastEventId(header);
    if parsed.Err? then Unprocessable
    else
      var after := parsed.value;
      if (log.closed || taskDone) && (after.None? || !log.resumable) then FinalState
      else if after.Some? && after.value > log.LastId() then Ahead
      else if after.Some? && Expired(log, after.value) then ExpiredCursor
      else Attached(Subscribe(log, after, modes))
  }

  /** Which answer a join gets, by the header and the state of the stream. A finished run
      is joined for its final state, unless its events are retained and a cursor is
      given; a malformed header is refused in any case; and of the other cursors those
      that no event has reached yet, and those below which a later event is lost. */
  lemma JoinAnswers(log: Log, taskDone: bool, header: Option<string>, modes: seq<string>)
    requires LogInv(log)
    ensures var j, parsed := JoinStream(log, taskDone, header, modes), ParseLastEventId(header);
            var final := (log.closed || taskDone) && (parsed.Ok? && (parsed.value.None? || !log.resumable));
            var cursor := if parsed.Ok? && !final then parsed.value else None;
            && (j.Unprocessable? <==> parsed.Err?)
            && (j.FinalState? <==> final)
            && (j.Ahead? <==> cursor.Some? && cursor.value > log.LastId())
            && (j.ExpiredCursor? <==>
                  && cursor.Some? && log.resumable && cursor.value <= log.LastId()
                  && exists e :: e in log.published && e.eventId > cursor.value && e !in log.history)
            && (j.Attached? ==> j.sub == Subscribe(log, cursor, modes) && j.sub.cursor <= log.LastId())
  {
    var parsed := ParseLastEventId(header);
    if parsed.Ok? && parsed.value.Some? && log.resumable {
      ExpiredExactlyWhenSomethingIsLost(log, parsed.value.value);
    }
    hide ParseLastEventId;
  }

  /** Whoever is attached misses nothing that comes: every event that is published after
      the join, and that its modes accept, is owed to it; on a resumable stream every
      such event above the id it sent is. */
  lemma AttachedIsOwedWhatComes(log: Log, taskDone: bool, header: Option<string>, modes: seq<string>,
                                actions: seq<Action>, e: StreamEvent)
    requires LogInv(log) && JoinStream(log, taskDone, header, modes).Attached?
    requires var s := Run(System(log, JoinStream(log, taskDone, header, modes).sub), actions);
             e in s.log.published && ModeMatches(e.event, modes)
    ensures var sub, parsed := JoinStream(log, taskDone, header, modes).sub, ParseLastEventId(header);
            var s := Run(System(log, sub), actions);
            && parsed.Ok?
            && (e.eventId > log.LastId() ==> e in Owed(s.log, s.sub))
            && (log.resumable && parsed.value.Some? && e.eventId > parsed.value.value ==> e in Owed(s.log, s.sub))
  {
    var sub := JoinStream(log, taskDone, header, modes).sub;
    var s0 := System(log, sub);
    var s := Run(s0, actions);
    JoinAnswers(log, taskDone, header, modes);
    SubscribeEstablishes(log, ParseLastEventId(header).value, modes);
    RunKeeps(s0, actions);
    RunExtends(s0, actions);
    hide ModeMatches, Run, ParseLastEventId;
    MatchingIds(s.log.published, s.sub.start, modes);
  }

  // ---------------------------------------------------------------- records

  /** The (id, event, data) list that these actions publish on a stream. */
  function RecordsOf(log: Log, actions: seq<Action>): seq<Record>
    decreases |actions|
  {
    if actions == [] then []
    else RecordOf(log, actions[0]) + RecordsOf(LogStep(log, actions[0]), actions[1..])
  }

  function RecordOf(log: Log, a: Action): seq<Record> {
    if a.Publish? && !log.closed then [Record(log.LastId() + 1, a.event, a.data)] else []
  }

  predicate Prints(e: StreamEvent, r: Record) {
    e.eventId == r.id && e.event == r.event && e.frame == Frame(r)
  }

  ghost predicate Carries(events: seq<StreamEvent>, records: seq<Record>)
    decreases |events|
  {
    && |events| == |records|
    && (events != [] ==> Prints(events[0], records[0]) && Carries(events[1..], records[1..]))
  }

  lemma LogStepCarries(log: Log, a: Action) returns (more: seq<StreamEvent>)
    requires LogInv(log)
    ensures LogInv(LogStep(log, a)) && LogStep(log, a).published == log.published + more
    ensures Carries(more, RecordOf(log, a))
  {
    more := [];
    if a.Publish? && !log.closed {
      AppendKeepsLog(log, NextEvent(log, a.event, a.data));
      more := [NextEvent(log, a.event, a.data)];
    }
  }

  lemma {:induction false} CarriesConcat(a: seq<StreamEvent>, r: seq<Record>, b: seq<StreamEvent>, t: seq<Record>)
    requires Carries(a, r) && Carries(b, t)
    ensures Carries(a + b, r + t)
    decreases |a|
  {
    if a == [] {
      assert a + b == b && r + t == t;
    } else {
      CarriesConcat(a[1..], r[1..], b, t);
      assert (a + b)[1..] == a[1..] + b && (r + t)[1..] == r[1..] + t;
    }
  }

  lemma {:induction false} CarriesDrop(events: seq<StreamEvent>, records: seq<Record>, k: nat)
    requires Carries(events, records) && k <= |events|
    ensures Carries(events[k..], records[k..])
    decreases |events|
  {
    if k > 0 {
      CarriesDrop(events[1..], records[1..], k - 1);
      assert events[1..][k - 1..] == events[k..] && records[1..][k - 1..] == records[k..];
    }
  }

  lemma {:induction false} CarriesAt(events: seq<StreamEvent>, records: seq<Record>, i: nat)
    requires Carries(events, records) && i < |events|
    ensures Prints(events[i], records[i])
    decreases |events|
  {
    if i > 0 {
      CarriesAt(events[1..], records[1..], i - 1);
    }
  }

  lemma {:induction false} RunLogCarries(log: Log, actions: seq<Action>) returns (more: seq<StreamEvent>)
    requires LogInv(log)
    ensures LogInv(RunLog(log, actions)) && RunLog(log, actions).published == log.published + more
    ensures Carries(more, RecordsOf(log, actions))
    decreases |actions|
  {
    hide LogInv, LogStep, RecordOf;
    if actions == [] {
      more := [];
    } else {
      var a, next := actions[0], LogStep(log, actions[0]);
      var first := LogStepCarries(log, a);
      var rest := RunLogCarries(next, actions[1..]);
      more := first + rest;
      assert log.published + first + rest == log.published + more;
      CarriesConcat(first, RecordOf(log, a), rest, RecordsOf(next, actions[1..]));
      assert RunLog(log, actions) == RunLog(next, actions[1..]);
      assert RecordsOf(log, actions) == RecordOf(log, a) + RecordsOf(next, actions[1..]);
    }
  }

  lemma {:induction false} RunIsRunLog(s: System, actions: seq<Action>)
    ensures Run(s, actions).log == RunLog(s.log, actions)
    decreases |actions|
  {
    if actions != [] {
      RunIsRunLog(Step(s, actions[0]), actions[1..]);
    }
  }

  /** The response body a subscriber's relay writes. */
  function Body(events: seq<StreamEvent>): string {
    if events == [] then "" else events[0].frame + Body(events[1..])
  }

  lemma {:induction false} BodyIsText(events: seq<StreamEvent>, records: seq<Record>)
    requires Carries(events, records)
    ensures Body(events) == Text(records)
    decreases |events|
  {
    if events != [] {
      BodyIsText(events[1..], records[1..]);
    }
  }

  lemma {:induction false} CarriesTake(events: seq<StreamEvent>, records: seq<Record>, k: nat)
    requires Carries(events, records) && k <= |events|
    ensures Carries(events[..k], records[..k])
    decreases |events|
  {
    if k > 0 {
      CarriesTake(events[1..], records[1..], k - 1);
      assert events[..k][1..] == events[1..][..k - 1] && records[..k][1..] == records[1..][..k - 1];
    }
  }

  lemma CarriesLength(events: seq<StreamEvent>, records: seq<Record>)
    requires Carries(events, records)
    ensures |events| == |records|
  {
  }

  predicate AllNamed(records: seq<Record>) { forall r :: r in records ==> ValidName(r.event) }

  lemma NamedPrefix(all: seq<Record>, n: nat)
    requires AllNamed(all) && n <= |all|
    ensures AllNamed(all[..n])
  {
    hide ValidName;
    assert forall r :: r in all[..n] ==> r in all;
  }

  lemma PrefixIsTake<T>(a: seq<T>, b: seq<T>)
    requires a <= b
    ensures a == b[..|a|]
  {
  }

  lemma {:induction false} ExpectedConcat(a: seq<Record>, b: seq<Record>)
    ensures ExpectedAll(a + b) == ExpectedAll(a) + ExpectedAll(b)
    decreases |a|
  {
    if a == [] {
      assert a + b == b;
    } else {
      assert (a + b)[1..] == a[1..] + b;
      ExpectedConcat(a[1..], b);
    }
  }

  // ---------------------------------------------------------------- what a filter chooses

  /** The records that a client asking for these modes is to get. */
  function Chosen(records: seq<Record>, modes: seq<string>): seq<Record>
    decreases |records|
  {
    if records == [] then []
    else
      var n := |records| - 1;
      Chosen(records[..n], modes) + if ModeMatches(records[n].event, modes) then [records[n]] else []
  }

  lemma {:induction false} ChosenConcat(a: seq<Record>, b: seq<Record>, modes: seq<string>)
    ensures Chosen(a + b, modes) == Chosen(a, modes) + Chosen(b, modes)
    decreases |b|
  {
    hide ModeMatches;
    if b == [] {
      assert a + b == a;
    } else {
      var n := |b| - 1;
      assert (a + b)[..|a + b| - 1] == a + b[..n];
      ChosenConcat(a, b[..n], modes);
    }
  }

  /** Without modes, all of them. */
  lemma {:induction false} UnfilteredIsAll(records: seq<Record>)
    ensures Chosen(records, []) == records
    decreases |records|
  {
    if records != [] {
      var n := |records| - 1;
      UnfilteredIsAll(records[..n]);
      assert records == records[..n] + [records[n]];
    }
  }

  predicate Ordered(records: seq<Record>) { forall i :: 0 <= i < |records| ==> records[i].id == i + 1 }

  lemma CarriesOrdered(log: Log, records: seq<Record>)
    requires LogInv(log) && Carries(log.published, records)
    ensures Ordered(records)
  {
    forall i | 0 <= i < |records| ensures records[i].id == i + 1 { CarriesAt(log.published, records, i); }
  }

  /** The first `j` chosen after `k` are those chosen up to the id of the last of them. */
  lemma {:induction false} ChosenUpTo(all: seq<Record>, k: nat, modes: seq<string>, j: nat)
    requires Ordered(all) && k <= |all| && 0 < j <= |Chosen(all[k..], modes)|
    ensures var id := Chosen(all[k..], modes)[j - 1].id;
            k < id <= |all| && Chosen(all[k..id], modes) == Chosen(all[k..], modes)[..j]
    decreases |all|
  {
    hide ModeMatches;
    if k < |all| {
      var n := |all| - 1;
      var front := all[..n];
      assert all[k..][..|all[k..]| - 1] == front[k..];
      if j <= |Chosen(front[k..], modes)| {
        ChosenUpTo(front, k, modes, j);
        var id := Chosen(front[k..], modes)[j - 1].id;
        assert front[k..id] == all[k..id];
      } else {
        assert all[k..n + 1] == all[k..];
      }
    }
  }

  /** What a stream owes is what the filter chooses. */
  lemma {:induction false} MatchingCarries(events: seq<StreamEvent>, records: seq<Record>, k: nat, modes: seq<string>)
    requires Numbered(events) && Carries(events, records) && k <= |events|
    ensures k <= |records| && Carries(Matching(events, k, modes), Chosen(records[k..], modes))
    decreases |events|
  {
    hide Carries, Prints, ModeMatches;
    CarriesLength(events, records);
    if k == |events| {
      MatchingNone(events, k, modes);
      assert records[k..] == [];
      NothingCarried();
    } else {
      var n := |events| - 1;
      CarriesTake(events, records, n);
      MatchingCarries(events[..n], records[..n], k, modes);
      CarriesAt(events, records, n);
      SameName(events[n], records[n]);
      var mine, theirs := Chosen(records[..n][k..], modes), Matching(events[..n], k, modes);
      assert records[k..][..n - k] == records[..n][k..] && records[k..][n - k] == records[n];
      assert events[n].eventId > k;
      if ModeMatches(events[n].event, modes) {
        OneCarried(events[n], records[n]);
        CarriesConcat(theirs, mine, [events[n]], [records[n]]);
      } else {
        assert Chosen(records[k..], modes) == mine + [] == mine;
      }
    }
  }

  lemma NothingCarried()
    ensures Carries([], [])
  {
  }

  lemma OneCarried(e: StreamEvent, r: Record)
    requires Prints(e, r)
    ensures Carries([e], [r])
  {
  }

  lemma SameName(e: StreamEvent, r: Record)
    requires Prints(e, r)
    ensures e.event == r.event
  {
  }

  // ---------------------------------------------------------------- one connection

  /** What a client decodes from the first `n` characters of a body. */
  function Received(records: seq<Record>, n: nat): Client
    requires n <= |Text(records)|
  {
    Decode(Text(records)[..n])
  }

  /** The header a reconnecting client sends: none before its first whole event. */
  function ReconnectHeader(client: Client): Option<string> {
    if client.lastEventId == "" then None else Some(client.lastEventId)
  }

  lemma {:induction false} WholeText(records: seq<Record>)
    ensures WholeFrames(records, |Text(records)|) == |records|
  {
    if records != [] {
      WholeText(records[1..]);
    }
  }

  lemma DecodeNamed(records: seq<Record>, n: nat) returns (j: nat)
    requires AllNamed(records) && n <= |Text(records)|
    ensures j <= |records| && (n == |Text(records)| ==> j == |records|)
    ensures Received(records, n).messages == ExpectedAll(records[..j])
    ensures Received(records, n).lastEventId == if j == 0 then "" else Decimal(records[j - 1].id)
    ensures j == WholeFrames(records, n)
  {
    hide Decode, ExpectedAll, Text, ValidName, Decimal;
    j := WholeFrames(records, n);
    DecodeCut(records, n);
    WholeText(records);
  }

  /** A client of any modes, cut off after any number of characters, reconnects at the id
      of the last whole frame it received, unless that cursor is no longer retained. */
  lemma ReconnectsWhereItStopped(log: Log, all: seq<Record>, modes: seq<string>, n: nat, taskDone: bool)
    requires LogInv(log) && log.resumable && Carries(log.published, all)
    requires AllNamed(Chosen(all, modes)) && n <= |Text(Chosen(all, modes))|
    ensures var mine := Chosen(all, modes);
            var k, client := WholeFrames(mine, n), Received(mine, n);
            && client.messages == ExpectedAll(mine[..k])
            && (k == 0 <==> client.lastEventId == "")
            && (k > 0 ==>
                  JoinStream(log, taskDone, ReconnectHeader(client), modes) ==
                  (if Expired(log, mine[k - 1].id) then ExpiredCursor
                   else Attached(Subscribe(log, Some(mine[k - 1].id), modes))))
  {
    hide Chosen, Decode, Carries, Ordered, Subscribe, ParseLastEventId, AllNamed, Text, ExpectedAll;
    var mine := Chosen(all, modes);
    var k := DecodeNamed(mine, n);
    if k > 0 {
      CarriesOrdered(log, all);
      CarriesLength(log.published, all);
      assert all[0..] == all;
      ChosenUpTo(all, 0, modes, k);
      DecimalDigits(mine[k - 1].id);
      CursorRoundTrip(mine[k - 1].id);
    }
  }

  /** What one attachment at `k`, the cursor or the last id, yields. */
  lemma DrainedFrom(log: Log, records: seq<Record>, header: Option<string>, k: nat, modes: seq<string>, sub: Sub,
                    during: seq<Action>)
    returns (m: nat)
    requires LogInv(log) && log.resumable && Carries(log.published, records)
    requires if header.None? then k == log.LastId() else k <= log.LastId() && !Expired(log, k)
    requires sub == Subscribe(log, if header.None? then None else Some(k), modes)
    ensures var s, all := Run(System(log, sub), during), records + RecordsOf(log, during);
            && LogInv(s.log) && s.log.resumable && Carries(s.log.published, all) && k <= |all|
            && m <= |Chosen(all[k..], modes)| && Carries(s.sub.yielded, Chosen(all[k..], modes)[..m])
            && (s.sub.pc.Returned? ==> m == |Chosen(all[k..], modes)|)
  {
    var s, all := Run(System(log, sub), during), records + RecordsOf(log, during);
    StreamCarries(log, records, sub, during);
    var owed := Matching(s.log.published, k, modes);
    m := |s.sub.yielded|;
    assert Numbered(s.log.published) && s.sub.yielded <= owed && (s.sub.pc.Returned? ==> s.sub.yielded == owed) by {
      YieldsOwed(log, header, k, modes, sub, during);
    }
    hide LogInv, Carries, Run, RecordsOf, Chosen, Matching, Subscribe;
    CarriesLength(s.log.published, all);
    MatchingCarries(s.log.published, all, k, modes);
    CarriesLength(owed, Chosen(all[k..], modes));
    CarriesTake(owed, Chosen(all[k..], modes), m);
    PrefixIsTake(s.sub.yielded, owed);
  }

  lemma StreamCarries(log: Log, records: seq<Record>, sub: Sub, during: seq<Action>)
    requires LogInv(log) && log.resumable && Carries(log.published, records)
    ensures var s, all := Run(System(log, sub), during), records + RecordsOf(log, during);
            && LogInv(s.log) && s.log.resumable && Carries(s.log.published, all)
            && |log.published| <= |s.log.published|
  {
    hide LogInv, Carries, Run, RunLog, RecordsOf;
    RunIsRunLog(System(log, sub), during);
    RunLogKeeps(log, during);
    var more := RunLogCarries(log, during);
    CarriesConcat(log.published, records, more, RecordsOf(log, during));
  }

  lemma YieldsOwed(log: Log, header: Option<string>, k: nat, modes: seq<string>, sub: Sub, during: seq<Action>)
    requires LogInv(log) && log.resumable
    requires if header.None? then k == log.LastId() else k <= log.LastId() && !Expired(log, k)
    requires sub == Subscribe(log, if header.None? then None else Some(k), modes)
    ensures var s := Run(System(log, sub), during);
            var owed := Matching(s.log.published, k, modes);
            && Numbered(s.log.published) && k <= |s.log.published|
            && s.sub.yielded <= owed && (s.sub.pc.Returned? ==> s.sub.yielded == owed)
  {
    var s0 := System(log, sub);
    var s := Run(s0, during);
    SubscribeEstablishes(log, if header.None? then None else Some(k), modes);
    RunKeeps(s0, during);
    RunExtends(s0, during);
    assert s.sub.start == k;
    if !s.sub.Done() {
      var read := s.sub.yielded + Unread(s.sub);
      assert s.sub.yielded <= read <= read + Above(s.sub.queue, k);
    }
  }

  /** What a subscription from a live cursor hands over once it returns: a body that
      decodes to exactly the events of the rest of the run that its modes accept. */
  lemma ReturnedGetsTheRest(log: Log, records: seq<Record>, k: nat, after: Option<int>, modes: seq<string>,
                            actions: seq<Action>)
    requires LogInv(log) && log.resumable && Carries(log.published, records) && k <= |records|
    requires k == (if after.Some? then after.value else log.LastId()) && !Expired(log, k)
    requires Run(System(log, Subscribe(log, after, modes)), actions).sub.pc.Returned?
    requires AllNamed(Chosen((records + RecordsOf(log, actions))[k..], modes))
    ensures var s := Run(System(log, Subscribe(log, after, modes)), actions);
            Decode(Body(s.sub.yielded)).messages
            == ExpectedAll(Chosen((records + RecordsOf(log, actions))[k..], modes))
  {
    hide LogInv, Carries, Run, RecordsOf, Chosen, Decode, Body, Subscribe, AllNamed, ExpectedAll;
    CarriesLength(log.published, records);
    var s := Run(System(log, Subscribe(log, after, modes)), actions);
    var mine := Chosen((records + RecordsOf(log, actions))[k..], modes);
    var header := if after.None? then None else Some("");
    var m := DrainedFrom(log, records, header, k, modes, Subscribe(log, after, modes), actions);
    var body := Body(s.sub.yielded);
    var j := DecodedFrom(s.sub.yielded, mine, m, body, |body|);
    assert body[..|body|] == body && mine[..j] == mine;
  }

  /** What a client decodes of the first characters of such a stream. */
  lemma DecodedFrom(yielded: seq<StreamEvent>, mine: seq<Record>, m: nat, body: string, n: nat) returns (j: nat)
    requires m <= |mine| && Carries(yielded, mine[..m]) && AllNamed(mine)
    requires body == Body(yielded) && n <= |body|
    ensures j <= m && (n == |body| ==> j == m)
    ensures Decode(body[..n]).messages == ExpectedAll(mine[..j])
    ensures Decode(body[..n]).lastEventId == if j == 0 then "" else Decimal(mine[j - 1].id)
  {
    hide Carries, Decode, Body, Text, ExpectedAll, AllNamed, Decimal;
    NamedPrefix(mine, m);
    BodyIsText(yielded, mine[..m]);
    j := DecodeNamed(mine[..m], n);
    assert mine[..m][..j] == mine[..j];
  }

  // ---------------------------------------------------------------- any number of visits

  /** One connection of a client: what the run does before it, and while it lasts, and
      how many characters of its body arrive. */
  datatype Visit = Visit(gap: seq<Action>, taskDone: bool, during: seq<Action>, n: nat)

  /** A client and the run it reads: the modes it asks for, the header it would send,
      what it has decoded over all its connections, and the last id of the run when it
      last joined without a header. */
  datatype Reader = Reader(
    log: Log, records: seq<Record>, modes: seq<string>, header: Option<string>, got: seq<Message>, from: nat)

  function Joined(r: Reader, v: Visit): Join {
    JoinStream(RunLog(r.log, v.gap), v.taskDone, r.header, r.modes)
  }

  function Drained(r: Reader, v: Visit): System
    requires Joined(r, v).Attached?
  {
    Run(System(RunLog(r.log, v.gap), Joined(r, v).sub), v.during)
  }

  predicate Visits(r: Reader, v: Visit) {
    Joined(r, v).Attached? && v.n <= |Body(Drained(r, v).sub.yielded)|
  }

  function Visited(r: Reader, v: Visit): Reader
    requires Visits(r, v)
  {
    var before, s := RunLog(r.log, v.gap), Drained(r, v);
    var client := Decode(Body(s.sub.yielded)[..v.n]);
    Reader(s.log, r.records + RecordsOf(r.log, v.gap) + RecordsOf(before, v.during), r.modes,
           if client.lastEventId == "" then r.header else Some(client.lastEventId),
           r.got + client.messages,
           if r.header.None? then before.LastId() else r.from)
  }

  /** All the visits of a client, if each is let in. */
  function VisitedAll(r: Reader, visits: seq<Visit>): Option<Reader>
    decreases |visits|
  {
    if visits == [] then Some(r)
    else if !Visits(r, visits[0]) then None
    else VisitedAll(Visited(r, visits[0]), visits[1..])
  }

  /** It was let in to the end: its last stream returned, and all of it arrived. */
  predicate ReadsOn(r: Reader, v: Visit) {
    Visits(r, v) && Drained(r, v).sub.pc.Returned? && v.n == |Body(Drained(r, v).sub.yielded)|
  }

  /** The client has decoded what its modes choose from `from` up to its header, and
      nothing else. */
  ghost predicate ReaderInv(r: Reader, k: nat) {
    && LogInv(r.log) && r.log.resumable && Carries(r.log.published, r.records)
    && (if r.header.None? then r.got == []
        else
          && r.from < k <= |r.records| && r.header == Some(Decimal(k))
          && r.got == ExpectedAll(Chosen(r.records[r.from..k], r.modes)))
  }

  ghost predicate Named(r: Reader) { AllNamed(Chosen(r.records, r.modes)) }

  /** Where a visit starts: at the header's id, or, without one, at the last id. */
  function Start(r: Reader, v: Visit, k: nat): nat {
    if r.header.None? then RunLog(r.log, v.gap).LastId() else k
  }

  lemma VisitAttaches(r: Reader, v: Visit, k: nat)
    requires ReaderInv(r, k) && Joined(r, v).Attached?
    ensures var log, at := RunLog(r.log, v.gap), Start(r, v, k);
            && LogInv(log) && log.resumable && Carries(log.published, r.records + RecordsOf(r.log, v.gap))
            && at <= log.LastId() && (r.header.Some? ==> !Expired(log, at))
            && Joined(r, v).sub == Subscribe(log, if r.header.None? then None else Some(at), r.modes)
  {
    RunLogKeeps(r.log, v.gap);
    var more := RunLogCarries(r.log, v.gap);
    CarriesConcat(r.log.published, r.records, more, RecordsOf(r.log, v.gap));
    if r.header.Some? { CursorRoundTrip(k); }
    hide LogInv, RunLog, Carries, Subscribe, ParseLastEventId;
  }

  lemma NamedSuffix(all: seq<Record>, k: nat, modes: seq<string>)
    requires AllNamed(Chosen(all, modes)) && k <= |all|
    ensures AllNamed(Chosen(all[k..], modes))
  {
    hide ValidName, Chosen;
    assert all == all[..k] + all[k..];
    ChosenConcat(all[..k], all[k..], modes);
    assert forall r :: r in Chosen(all[k..], modes) ==> r in Chosen(all, modes);
  }

  /** The stream of a visit, and what the client decodes of it. */
  lemma VisitDecodes(r: Reader, v: Visit, k: nat) returns (j: nat)
    requires ReaderInv(r, k) && Visits(r, v) && Named(Visited(r, v))
    ensures var r', at := Visited(r, v), Start(r, v, k);
            && LogInv(r'.log) && r'.log.resumable && Carries(r'.log.published, r'.records) && at <= |r'.records|
            && var mine := Chosen(r'.records[at..], r.modes);
               && j <= |mine|
               && r'.got == r.got + ExpectedAll(mine[..j])
               && r'.header == (if j == 0 then r.header else Some(Decimal(mine[j - 1].id)))
               && (ReadsOn(r, v) ==> j == |mine|)
  {
    hide ReaderInv, LogInv, Carries, RunLog, RecordsOf, Run, JoinStream, Joined, Subscribe, Decode, Body, AllNamed;
    hide Chosen, ExpectedAll;
    var log, at, r' := RunLog(r.log, v.gap), Start(r, v, k), Visited(r, v);
    VisitAttaches(r, v, k);
    var m := DrainedFrom(log, r.records + RecordsOf(r.log, v.gap), r.header, at, r.modes, Joined(r, v).sub, v.during);
    NamedSuffix(r'.records, at, r.modes);
    var mine := Chosen(r'.records[at..], r.modes);
    j := DecodedFrom(Drained(r, v).sub.yielded, mine, m, Body(Drained(r, v).sub.yielded), v.n);
    if j > 0 { DecimalDigits(mine[j - 1].id); }
  }

  /** What the client has after a visit, of all the run has published. */
  lemma GotMore(all: seq<Record>, modes: seq<string>, from: nat, at: nat, j: nat) returns (k: nat)
    requires Ordered(all) && from <= at <= |all| && j <= |Chosen(all[at..], modes)|
    ensures at <= k <= |all| && (j == 0 ==> k == at)
    ensures j > 0 ==> k > at && k == Chosen(all[at..], modes)[j - 1].id
    ensures Chosen(all[from..at], modes) + Chosen(all[at..], modes)[..j] == Chosen(all[from..k], modes)
    ensures j == |Chosen(all[at..], modes)| ==> Chosen(all[from..k], modes) == Chosen(all[from..], modes)
  {
    hide Chosen;
    k := at;
    if j > 0 {
      ChosenUpTo(all, at, modes, j);
      k := Chosen(all[at..], modes)[j - 1].id;
      assert all[from..at] + all[at..k] == all[from..k];
      ChosenConcat(all[from..at], all[at..k], modes);
    }
    assert all[from..at] + all[at..] == all[from..];
    ChosenConcat(all[from..at], all[at..], modes);
  }

  lemma VisitKeeps(r: Reader, v: Visit, k: nat) returns (k': nat)
    requires ReaderInv(r, k) && Visits(r, v) && Named(Visited(r, v))
    ensures ReaderInv(Visited(r, v), k')
    ensures var r' := Visited(r, v);
            ReadsOn(r, v) ==>
              r'.from <= |r'.records| && r'.got == ExpectedAll(Chosen(r'.records[r'.from..], r'.modes))
  {
    hide LogInv, Carries, RunLog, RecordsOf, Run, Joined, Drained, Decode, Body, AllNamed, ReadsOn, Chosen, ExpectedAll;
    hide Ordered;
    var r', at := Visited(r, v), Start(r, v, k);
    var j := VisitDecodes(r, v, k);
    assert r.records <= r'.records;
    CarriesOrdered(r'.log, r'.records);
    k' := GotMore(r'.records, r.modes, r'.from, at, j);
    var mine := Chosen(r'.records[at..], r.modes);
    assert r.got == ExpectedAll(Chosen(r'.records[r'.from..at], r.modes)) by {
      if r.header.Some? {
        assert r'.records[r.from..k] == r.records[r.from..k];
      } else {
        assert r'.records[at..at] == [];
        NothingChosen(r.modes);
      }
    }
    ExpectedConcat(Chosen(r'.records[r'.from..at], r.modes), mine[..j]);
  }

  lemma NothingChosen(modes: seq<string>)
    ensures ExpectedAll(Chosen([], modes)) == []
  {
  }

  lemma {:induction false} VisitsOn(r: Reader, visits: seq<Visit>)
    requires VisitedAll(r, visits).Some?
    ensures var end := VisitedAll(r, visits).value; r.records <= end.records && end.modes == r.modes
    decreases |visits|
  {
    if visits != [] {
      hide Visited, Visits;
      RecordsGrow(r, visits[0]);
      VisitsOn(Visited(r, visits[0]), visits[1..]);
    }
  }

  lemma RecordsGrow(r: Reader, v: Visit)
    requires Visits(r, v)
    ensures r.records <= Visited(r, v).records && Visited(r, v).modes == r.modes
  {
  }

  lemma NamedBefore(r: Reader, end: Reader)
    requires Named(end) && r.records <= end.records && r.modes == end.modes
    ensures Named(r)
  {
    hide ValidName, Chosen;
    PrefixIsTake(r.records, end.records);
    var rest := end.records[|r.records|..];
    assert end.records == r.records + rest;
    ChosenConcat(r.records, rest, r.modes);
    assert forall x :: x in Chosen(r.records, r.modes) ==> x in Chosen(end.records, r.modes);
  }

  /** The last of the visits, and the reader it is made by. */
  lemma {:induction false} VisitsKeep(r: Reader, visits: seq<Visit>, k: nat)
    requires ReaderInv(r, k) && visits != [] && VisitedAll(r, visits).Some?
    requires Named(VisitedAll(r, visits).value)
    requires VisitedAll(r, visits[..|visits| - 1]).Some?
    requires ReadsOn(VisitedAll(r, visits[..|visits| - 1]).value, visits[|visits| - 1])
    ensures var end := VisitedAll(r, visits).value;
            end.from <= |end.records| && end.got == ExpectedAll(Chosen(end.records[end.from..], end.modes))
    decreases |visits|
  {
    hide ReaderInv, Visits, Visited, ReadsOn, Named, ExpectedAll, Chosen;
    var v := visits[0];
    VisitsOn(Visited(r, v), visits[1..]);
    NamedBefore(Visited(r, v), VisitedAll(r, visits).value);
    var k' := VisitKeeps(r, v, k);
    if |visits| > 1 {
      assert visits[1..][..|visits[1..]| - 1] == visits[..|visits| - 1][1..];
      VisitsKeep(Visited(r, v), visits[1..], k');
    } else {
      assert visits[..0] == [] && visits[1..] == [];
    }
  }

  /** What was decoded from `from` on is everything exactly when nothing before it counts. */
  lemma AllExactlyFrom(all: seq<Record>, modes: seq<string>, from: nat)
    requires from <= |all|
    ensures ExpectedAll(Chosen(all[from..], modes)) == ExpectedAll(Chosen(all, modes)) <==>
            Chosen(all[..from], modes) == []
  {
    hide Chosen;
    assert all == all[..from] + all[from..];
    ChosenConcat(all[..from], all[from..], modes);
    assert [] + Chosen(all[from..], modes) == Chosen(all[from..], modes);
  }

  // ---------------------------------------------------------------- theorems

  /** A client at the start of a run: nothing is published, nothing decoded. */
  function FirstReader(maxEvents: int, maxBytes: int, modes: seq<string>): Reader {
    Reader(NewLog(true, maxEvents, maxBytes), [], modes, None, [], 0)
  }

  /** Reconnecting any number of times. A client asking for any modes is connected to a
      resumable run, cut off after any number of characters, and let in again with the
      last event id it decoded, again and again; once a stream has returned and arrived
      whole, all the responses together decode to exactly the events of the run that its
      modes accept, each once and in order, if and only if none of them had been
      published when it last joined without an id. */
  lemma ManyReconnects(maxEvents: int, maxBytes: int, modes: seq<string>, visits: seq<Visit>)
    requires visits != [] && VisitedAll(FirstReader(maxEvents, maxBytes, modes), visits).Some?
    requires Named(VisitedAll(FirstReader(maxEvents, maxBytes, modes), visits).value)
    requires var before := VisitedAll(FirstReader(maxEvents, maxBytes, modes), visits[..|visits| - 1]);
             before.Some? && ReadsOn(before.value, visits[|visits| - 1])
    ensures var end := VisitedAll(FirstReader(maxEvents, maxBytes, modes), visits).value;
            && end.from <= |end.records| && end.modes == modes
            && (end.got == ExpectedAll(Chosen(end.records, modes)) <==> Chosen(end.records[..end.from], modes) == [])
  {
    hide VisitedAll, ReadsOn, Named, Chosen, ExpectedAll;
    var r := FirstReader(maxEvents, maxBytes, modes);
    var end := VisitedAll(r, visits).value;
    VisitsKeep(r, visits, 0);
    VisitsOn(r, visits);
    AllExactlyFrom(end.records, modes, end.from);
  }

  /** Resume round trip. A resumable run publishes (`past`), a client asking for any modes
      reads any number of characters of what they choose, is cut off, and reconnects with
      the last event id it decoded while that id is retained; when its second stream
      returns, the two responses together decode to exactly the events of the run that
      its modes accept, each once and in order. It fails exactly for a client that had
      decoded nothing, and so sends no cursor, when such an event was published. */
  lemma ResumeRoundTrip(maxEvents: int, maxBytes: int, past: seq<Action>, modes: seq<string>, n: nat, taskDone: bool,
                        sub: Sub, later: seq<Action>)
    requires var records := RecordsOf(NewLog(true, maxEvents, maxBytes), past);
             var log := RunLog(NewLog(true, maxEvents, maxBytes), past);
             && AllNamed(Chosen(records + RecordsOf(log, later), modes))
             && n <= |Text(Chosen(records, modes))|
             && JoinStream(log, taskDone, ReconnectHeader(Received(Chosen(records, modes), n)), modes) == Attached(sub)
             && Run(System(log, sub), later).sub.pc.Returned?
    ensures var records := RecordsOf(NewLog(true, maxEvents, maxBytes), past);
            var log := RunLog(NewLog(true, maxEvents, maxBytes), past);
            var first := Received(Chosen(records, modes), n);
            ((first.messages + Decode(Body(Run(System(log, sub), later).sub.yielded)).messages
              == ExpectedAll(Chosen(records + RecordsOf(log, later), modes)))
             <==> (first.lastEventId != "" || Chosen(records, modes) == []))
  {
    var log0 := NewLog(true, maxEvents, maxBytes);
    var records, log := RecordsOf(log0, past), RunLog(log0, past);
    var more := RunLogCarries(log0, past);
    assert log.published == more;
    RunLogKeeps(log0, past);
    ResumeOf(log, records, modes, n, taskDone, sub, later);
  }

  /** The client after its first response, as a reader. */
  function Interrupted(log: Log, records: seq<Record>, modes: seq<string>, n: nat): Reader
    requires n <= |Text(Chosen(records, modes))|
  {
    var client := Received(Chosen(records, modes), n);
    Reader(log, records, modes, ReconnectHeader(client), client.messages, 0)
  }

  lemma InterruptedInv(log: Log, records: seq<Record>, modes: seq<string>, n: nat) returns (k: nat)
    requires LogInv(log) && log.resumable && Carries(log.published, records)
    requires AllNamed(Chosen(records, modes)) && n <= |Text(Chosen(records, modes))|
    ensures ReaderInv(Interrupted(log, records, modes, n), k)
  {
    hide LogInv, Carries, Chosen, Decode, Text, ExpectedAll, AllNamed, Ordered;
    var mine := Chosen(records, modes);
    var j := DecodeNamed(mine, n);
    CarriesOrdered(log, records);
    assert records[0..] == records && records[0..0] == [];
    assert Chosen([], modes) + mine[..j] == mine[..j] by { NoneChosen(modes); }
    k := GotMore(records, modes, 0, 0, j);
    if j > 0 {
      DecimalDigits(k);
    } else {
      assert mine[..j] == [];
      NoneExpected();
    }
  }

  lemma NoneChosen(modes: seq<string>)
    ensures Chosen([], modes) == []
  {
  }

  lemma NoneExpected()
    ensures ExpectedAll([]) == []
  {
  }

  lemma ResumeOf(log: Log, records: seq<Record>, modes: seq<string>, n: nat, taskDone: bool, sub: Sub,
                 later: seq<Action>)
    requires LogInv(log) && log.resumable && Carries(log.published, records)
    requires AllNamed(Chosen(records + RecordsOf(log, later), modes))
    requires n <= |Text(Chosen(records, modes))|
    requires JoinStream(log, taskDone, ReconnectHeader(Received(Chosen(records, modes), n)), modes) == Attached(sub)
    requires Run(System(log, sub), later).sub.pc.Returned?
    ensures var first := Received(Chosen(records, modes), n);
            ((first.messages + Decode(Body(Run(System(log, sub), later).sub.yielded)).messages
              == ExpectedAll(Chosen(records + RecordsOf(log, later), modes)))
             <==> (first.lastEventId != "" || Chosen(records, modes) == []))
  {
    hide LogInv, Carries, Chosen, Decode, Text, Body, ExpectedAll, AllNamed, JoinStream, Run, ReaderInv;
    var all, r := records + RecordsOf(log, later), Interrupted(log, records, modes, n);
    var body := Body(Run(System(log, sub), later).sub.yielded);
    var v := Visit([], taskDone, later, |body|);
    assert RunLog(log, []) == log && RecordsOf(log, []) == [];
    assert body[..|body|] == body && records + [] == records;
    var r' := Visited(r, v);
    assert r'.records == all;
    NamedBefore(r, r');
    var k := InterruptedInv(log, records, modes, n);
    var k' := VisitKeeps(r, v, k);
    AllExactlyFrom(all, modes, r'.from);
    assert r.header.None? ==> all[..r'.from] == records by { CarriesLength(log.published, records); }
    assert r.header.Some? ==> Chosen(all[..r'.from], modes) == [] by { NoneChosen(modes); }
  }
}
