/** Server-sent-event frames (src/skeino/streaming/sse.py) and the client that
    decodes them: the event-stream interpretation of section 9.2.6 of the WHATWG
    HTML Living Standard, as an incremental machine fed one character at a time.
 */
module Frames {
  import opened Common

  // ---------------------------------------------------------------- printer

  function DigitChar(d: nat): char
    requires d < 10
  {
    '0' + d as char
  }

  /** Python's `str` of a non-negative integer. */
  function Decimal(n: nat): string {
    if n < 10 then [DigitChar(n)] else Decimal(n / 10) + [DigitChar(n % 10)]
  }

  predicate NoBreaks(s: string) {
    '\n' !in s && '\r' !in s
  }

  /** What `json.dumps` returns: text that never holds a raw line break. */
  type JsonText = s: string | NoBreaks(s) witness ""

  /** `sse_event`. */
  function SseEvent(event: string, data: JsonText, id: Option<nat>): string {
    var body := "event: " + event + "\n" + "data: " + data + "\n" + "\n";
    match id
    case None => body
    case Some(n) => "id: " + Decimal(n) + "\n" + body
  }

  // ---------------------------------------------------------------- client

  datatype Message = Message(lastEventId: string, event: string, data: string)

  /** The client's buffers: the unfinished line, the data, event type and last
      event ID buffers, the last event ID string, and the messages dispatched. */
  datatype Client = Client(
    line: string, afterCr: bool,
    data: string, event: string, idBuffer: string, lastEventId: string,
    messages: seq<Message>)

  const FRESH_CLIENT := Client("", false, "", "", "", "", [])

  function IndexOf(s: string, c: char): (i: nat)
    ensures i <= |s|
    ensures i < |s| ==> s[i] == c
    ensures c !in s[..i]
  {
    if s == [] || s[0] == c then 0
    else
      var rest := IndexOf(s[1..], c);
      assert s[..1 + rest] == [s[0]] + s[1..][..rest];
      1 + rest
  }

  function SetField(client: Client, field: string, value: string): Client {
    if field == "event" then client.(event := value)
    else if field == "data" then client.(data := client.data + value + "\n")
    else if field == "id" && '\0' !in value then client.(idBuffer := value)
    else client
  }

  function Dispatch(client: Client): Client {
    var current := client.(lastEventId := client.idBuffer);
    if current.data == "" then current.(event := "")
    else
      var message := Message(
                       current.lastEventId,
                       if current.event == "" then "message" else current.event,
                       if current.data[|current.data| - 1] == '\n'
                       then current.data[..|current.data| - 1] else current.data);
      current.(data := "", event := "", messages := current.messages + [message])
  }

  function EndLine(client: Client): Client {
    var line := client.line;
    var cleared := client.(line := "");
    if line == "" then Dispatch(cleared)
    else if line[0] == ':' then cleared
    else
      var colon := IndexOf(line, ':');
      if colon == |line| then SetField(cleared, line, "")
      else
        var value := line[colon + 1..];
        SetField(cleared, line[..colon],
                 if value != "" && value[0] == ' ' then value[1..] else value)
  }

  function Feed(client: Client, c: char): Client {
    if c == '\n' && client.afterCr then client.(afterCr := false)
    else if c == '\n' || c == '\r' then EndLine(client).(afterCr := c == '\r')
    else client.(line := client.line + [c], afterCr := false)
  }

  function FeedAll(client: Client, text: string): Client
    decreases |text|
  {
    if text == "" then client else FeedAll(Feed(client, text[0]), text[1..])
  }

  /** Decode a response body; a leading byte order mark is skipped. What is left
      unfinished at the end of the body is discarded. */
  function Decode(text: string): Client {
    FeedAll(FRESH_CLIENT,
            if text != "" && text[0] == '\U{FEFF}' then text[1..] else text)
  }

  // ---------------------------------------------------------------- feeding

  lemma {:induction false} FeedAllConcat(client: Client, a: string, b: string)
    ensures FeedAll(client, a + b) == FeedAll(FeedAll(client, a), b)
    decreases |a|
  {
    if a == "" {
      assert a + b == b;
    } else {
      assert (a + b)[0] == a[0] && (a + b)[1..] == a[1..] + b;
      FeedAllConcat(Feed(client, a[0]), a[1..], b);
    }
  }

  /** Text without line breaks only extends the unfinished line. */
  lemma {:induction false} FeedText(client: Client, text: string)
    requires NoBreaks(text) && !client.afterCr
    ensures FeedAll(client, text) == client.(line := client.line + text)
    decreases |text|
  {
    if text != "" {
      assert text[0] in text;
      FeedText(Feed(client, text[0]), text[1..]);
      assert client.line + [text[0]] + text[1..] == client.line + text;
    } else {
      assert client.line + text == client.line;
    }
  }

  lemma FeedOne(client: Client, c: char)
    ensures FeedAll(client, [c]) == Feed(client, c)
  {
    assert [c][1..] == "";
  }

  lemma FeedLine(client: Client, text: string)
    requires NoBreaks(text) && !client.afterCr && client.line == ""
    ensures FeedAll(client, text + "\n") == EndLine(client.(line := text))
  {
    FeedAllConcat(client, text, "\n");
    FeedText(client, text);
    assert client.line + text == text;
    FeedOne(client.(line := text), '\n');
  }

  lemma EndFieldLine(client: Client, field: string, value: string)
    requires field != "" && ':' !in field
    ensures EndLine(client.(line := field + ": " + value)) == SetField(client.(line := ""), field, value)
  {
    var line := field + ": " + value;
    assert line[0] == field[0] && field[0] in field;
    var colon := IndexOf(line, ':');
    assert line[|field|] == ':';
    assert forall i :: 0 <= i < |field| ==> line[i] == field[i] && field[i] in field;
    assert forall i :: 0 <= i < colon ==> line[i] == line[..colon][i] && line[i] in line[..colon];
    assert line[..colon] == field;
    assert line[colon + 1..] == " " + value;
  }

  lemma {:induction false} DecimalDigits(n: nat)
    ensures Decimal(n) != "" && forall c :: c in Decimal(n) ==> '0' <= c <= '9'
  {
    if n >= 10 {
      DecimalDigits(n / 10);
    }
  }

  // ---------------------------------------------------------------- one frame

  datatype Record = Record(id: nat, event: string, data: JsonText)

  function Frame(r: Record): string {
    SseEvent(r.event, r.data, Some(r.id))
  }

  function Expected(r: Record): Message {
    Message(Decimal(r.id), r.event, r.data)
  }

  /** An event name the protocol can carry. */
  predicate ValidName(event: string) {
    event != "" && NoBreaks(event)
  }

  /** Between two frames: nothing buffered except the last event ID. */
  predicate Idle(client: Client) {
    client.line == "" && !client.afterCr && client.data == "" && client.event == ""
  }

  function AfterFrame(client: Client, r: Record): Client {
    client.(idBuffer := Decimal(r.id), lastEventId := Decimal(r.id),
            messages := client.messages + [Expected(r)])
  }

  function IdLine(r: Record): string { "id: " + Decimal(r.id) }

  function EventLine(r: Record): string { "event: " + r.event }

  function DataLine(r: Record): string { "data: " + r.data }

  function Head(r: Record): string { IdLine(r) + "\n" + (EventLine(r) + "\n") + (DataLine(r) + "\n") }

  lemma FrameIsHeadAndBlankLine(r: Record)
    ensures Frame(r) == Head(r) + "\n"
  {
    assert Frame(r) == IdLine(r) + "\n" + (EventLine(r) + "\n" + DataLine(r) + "\n" + "\n");
  }

  lemma LinesHaveNoBreaks(r: Record)
    requires ValidName(r.event)
    ensures NoBreaks(IdLine(r)) && NoBreaks(EventLine(r)) && NoBreaks(DataLine(r))
  {
    DecimalDigits(r.id);
  }

  function AfterId(client: Client, r: Record): Client {
    client.(idBuffer := Decimal(r.id))
  }

  function AfterHead(client: Client, r: Record): Client {
    AfterId(client, r).(event := r.event, data := r.data + "\n")
  }

  lemma FeedIdLine(client: Client, r: Record)
    requires Idle(client) && ValidName(r.event)
    ensures FeedAll(client, IdLine(r) + "\n") == AfterId(client, r)
  {
    LinesHaveNoBreaks(r);
    DecimalDigits(r.id);
    FeedLine(client, IdLine(r));
    EndFieldLine(client, "id", Decimal(r.id));
    assert IdLine(r) == "id" + ": " + Decimal(r.id);
  }

  lemma FeedEventLine(client: Client, r: Record)
    requires Idle(client) && ValidName(r.event)
    ensures FeedAll(AfterId(client, r), EventLine(r) + "\n") == AfterId(client, r).(event := r.event)
  {
    LinesHaveNoBreaks(r);
    FeedLine(AfterId(client, r), EventLine(r));
    EndFieldLine(AfterId(client, r), "event", r.event);
    assert EventLine(r) == "event" + ": " + r.event;
  }

  lemma FeedDataLine(client: Client, r: Record)
    requires Idle(client) && ValidName(r.event)
    ensures FeedAll(AfterId(client, r).(event := r.event), DataLine(r) + "\n") == AfterHead(client, r)
  {
    LinesHaveNoBreaks(r);
    var c := AfterId(client, r).(event := r.event);
    FeedLine(c, DataLine(r));
    EndFieldLine(c, "data", r.data);
    assert DataLine(r) == "data" + ": " + r.data;
    assert "" + r.data + "\n" == r.data + "\n";
  }

  lemma FeedHead(client: Client, r: Record)
    requires Idle(client) && ValidName(r.event)
    ensures FeedAll(client, Head(r)) == AfterHead(client, r)
  {
    var one, two, three := IdLine(r) + "\n", EventLine(r) + "\n", DataLine(r) + "\n";
    FeedAllConcat(client, one + two, three);
    FeedAllConcat(client, one, two);
    FeedIdLine(client, r);
    FeedEventLine(client, r);
    FeedDataLine(client, r);
  }

  /** A whole frame dispatches exactly its event and leaves the client idle. */
  lemma FeedFrame(client: Client, r: Record)
    requires Idle(client) && ValidName(r.event)
    ensures FeedAll(client, Frame(r)) == AfterFrame(client, r) && Idle(AfterFrame(client, r))
  {
    FrameIsHeadAndBlankLine(r);
    FeedAllConcat(client, Head(r), "\n");
    FeedHead(client, r);
    var c := AfterHead(client, r);
    FeedOne(c, '\n');
    assert c.data[..|c.data| - 1] == r.data;
  }

  /** A frame cut anywhere before its last character dispatches nothing and does
      not move the last event ID. */
  lemma FeedPartOfFrame(client: Client, r: Record, n: nat)
    requires Idle(client) && ValidName(r.event) && n < |Frame(r)|
    ensures FeedAll(client, Frame(r)[..n]).messages == client.messages
    ensures FeedAll(client, Frame(r)[..n]).lastEventId == client.lastEventId
  {
    LinesHaveNoBreaks(r);
    FrameIsHeadAndBlankLine(r);
    var one := IdLine(r) + "\n";
    var two := one + (EventLine(r) + "\n");
    var part := Frame(r)[..n];
    if n < |one| {
      assert part == IdLine(r)[..n];
      FeedText(client, part);
    } else if n < |two| {
      assert part == one + EventLine(r)[..n - |one|];
      FeedAllConcat(client, one, EventLine(r)[..n - |one|]);
      FeedIdLine(client, r);
      FeedText(AfterId(client, r), EventLine(r)[..n - |one|]);
    } else if n < |Head(r)| {
      assert part == two + DataLine(r)[..n - |two|];
      FeedAllConcat(client, two, DataLine(r)[..n - |two|]);
      FeedAllConcat(client, one, EventLine(r) + "\n");
      FeedIdLine(client, r);
      FeedEventLine(client, r);
      FeedText(AfterId(client, r).(event := r.event), DataLine(r)[..n - |two|]);
    } else {
      assert part == Head(r);
      FeedHead(client, r);
    }
  }

  // ---------------------------------------------------------------- many frames

  function Text(records: seq<Record>): string {
    if records == [] then "" else Frame(records[0]) + Text(records[1..])
  }

  function ExpectedAll(records: seq<Record>): (messages: seq<Message>)
    ensures |messages| == |records|
  {
    if records == [] then [] else [Expected(records[0])] + ExpectedAll(records[1..])
  }

  lemma {:induction false} ExpectedAt(records: seq<Record>, i: nat)
    requires i < |records|
    ensures ExpectedAll(records)[i] == Expected(records[i])
  {
    if i > 0 {
      ExpectedAt(records[1..], i - 1);
    }
  }

  function LastId(records: seq<Record>, before: string): string {
    if records == [] then before else Decimal(records[|records| - 1].id)
  }

  lemma {:induction false} FeedFrames(client: Client, records: seq<Record>)
    requires Idle(client) && forall r :: r in records ==> ValidName(r.event)
    ensures var after := FeedAll(client, Text(records));
            && Idle(after)
            && after.messages == client.messages + ExpectedAll(records)
            && after.lastEventId == LastId(records, client.lastEventId)
            && (records != [] ==> after.idBuffer == after.lastEventId)
    decreases |records|
  {
    if records == [] {
      assert client.messages + [] == client.messages;
    } else {
      var first, rest := records[0], records[1..];
      FeedAllConcat(client, Frame(first), Text(rest));
      FeedFrame(client, first);
      var middle := AfterFrame(client, first);
      assert FeedAll(client, Text(records)) == FeedAll(middle, Text(rest));
      FeedFrames(middle, rest);
      assert middle.messages + ExpectedAll(rest) == client.messages + ExpectedAll(records);
    }
  }

  /** How many whole frames the first `n` characters of the body hold. */
  function WholeFrames(records: seq<Record>, n: nat): (k: nat)
    ensures k <= |records|
  {
    if records == [] || n < |Frame(records[0])| then 0
    else 1 + WholeFrames(records[1..], n - |Frame(records[0])|)
  }

  lemma {:induction false} FeedCut(client: Client, records: seq<Record>, n: nat)
    requires Idle(client) && forall r :: r in records ==> ValidName(r.event)
    requires n <= |Text(records)|
    ensures var after := FeedAll(client, Text(records)[..n]);
            var k := WholeFrames(records, n);
            && after.messages == client.messages + ExpectedAll(records[..k])
            && after.lastEventId == LastId(records[..k], client.lastEventId)
    decreases |records|
  {
    if records == [] {
      assert Text(records)[..n] == "" && client.messages + [] == client.messages;
    } else if n < |Frame(records[0])| {
      assert Text(records)[..n] == Frame(records[0])[..n];
      FeedPartOfFrame(client, records[0], n);
      assert records[..0] == [] && client.messages + [] == client.messages;
    } else {
      var first, tail, rest := records[0], records[1..], n - |Frame(records[0])|;
      var text := Text(tail)[..rest];
      assert Text(records)[..n] == Frame(first) + text;
      FeedAllConcat(client, Frame(first), text);
      FeedFrame(client, first);
      FeedCut(AfterFrame(client, first), tail, rest);
      ExpectedOneMore(client, records, WholeFrames(tail, rest));
    }
  }

  lemma ExpectedOneMore(client: Client, records: seq<Record>, k: nat)
    requires records != [] && k < |records|
    ensures AfterFrame(client, records[0]).messages + ExpectedAll(records[1..][..k])
         == client.messages + ExpectedAll(records[..1 + k])
    ensures LastId(records[1..][..k], Decimal(records[0].id)) == LastId(records[..1 + k], client.lastEventId)
  {
    assert records[..1 + k][1..] == records[1..][..k];
  }

  lemma {:induction false} TextHasNoMark(records: seq<Record>)
    ensures Text(records) == "" || Text(records)[0] == 'i'
  {
  }

  /** Cutting the connection after any number of characters: the client has
      decoded exactly the whole frames received, and its last event ID is the id
      of the last of them. */
  lemma DecodeCut(records: seq<Record>, n: nat)
    requires forall r :: r in records ==> ValidName(r.event)
    requires n <= |Text(records)|
    ensures var k := WholeFrames(records, n);
            && Decode(Text(records)[..n]).messages == ExpectedAll(records[..k])
            && Decode(Text(records)[..n]).lastEventId == LastId(records[..k], "")
  {
    TextHasNoMark(records);
    FeedCut(FRESH_CLIENT, records, n);
    var k := WholeFrames(records, n);
    assert [] + ExpectedAll(records[..k]) == ExpectedAll(records[..k]);
  }

  // ------------------------------------------------- exactly when it round-trips

  /** What the client buffers and dispatches never holds a line break inside an
      event type, and no dispatched type is empty. */
  ghost predicate Decodable(client: Client) {
    && NoBreaks(client.line) && NoBreaks(client.event)
    && forall m :: m in client.messages ==> ValidName(m.event)
  }

  lemma DispatchDecodable(client: Client)
    requires Decodable(client)
    ensures Decodable(Dispatch(client))
  {
    var after := Dispatch(client);
    if client.data != "" {
      assert after.messages == client.messages + [after.messages[|client.messages|]];
    }
  }

  lemma EndLineDecodable(client: Client)
    requires Decodable(client)
    ensures Decodable(EndLine(client))
  {
    if client.line == "" {
      DispatchDecodable(client.(line := ""));
    }
  }

  lemma FeedDecodable(client: Client, c: char)
    requires Decodable(client)
    ensures Decodable(Feed(client, c))
  {
    if c == '\n' || c == '\r' {
      EndLineDecodable(client);
    }
  }

  lemma {:induction false} FeedAllDecodable(client: Client, text: string)
    requires Decodable(client)
    ensures Decodable(FeedAll(client, text))
    decreases |text|
  {
    if text != "" {
      FeedDecodable(client, text[0]);
      FeedAllDecodable(Feed(client, text[0]), text[1..]);
    }
  }

  /** The frames decode to exactly the published (id, event, data) list if and only
      if every event name is non-empty and free of line breaks. */
  lemma RoundTripExactlyForValidNames(records: seq<Record>)
    ensures Decode(Text(records)).messages == ExpectedAll(records)
       <==> forall r :: r in records ==> ValidName(r.event)
  {
    if forall r :: r in records ==> ValidName(r.event) {
      TextHasNoMark(records);
      FeedFrames(FRESH_CLIENT, records);
      assert [] + ExpectedAll(records) == ExpectedAll(records);
    }
    if Decode(Text(records)).messages == ExpectedAll(records) {
      TextHasNoMark(records);
      FeedAllDecodable(FRESH_CLIENT, Text(records));
      forall r | r in records ensures ValidName(r.event) {
        var i :| 0 <= i < |records| && records[i] == r;
        ExpectedAt(records, i);
        assert ExpectedAll(records)[i] in Decode(Text(records)).messages;
      }
    }
  }

  /** The case the round trip misses: an event published with an empty name. */
  lemma EmptyNameIsLost()
    ensures Decode(Text([Record(1, "", "{}")])).messages != ExpectedAll([Record(1, "", "{}")])
  {
    var records := [Record(1, "", "{}")];
    RoundTripExactlyForValidNames(records);
    assert !ValidName(records[0].event) && records[0] in records;
  }
}
