/**
  Server-sent events: the two printers of the repository (format_sse in backend/app/gateway/services.py and
  format_sse_event in writing-service/app/sse.py), the generators that use them, and the parser of section 9.2.6 of
  the WHATWG HTML Living Standard, which undoes both.

  A payload is the text json.dumps returned; all that is used of it is that it holds no line break.
 */
module Sse {
  import Decimals

  const CR := '\r'
  const LF := '\n'

  // ---- The standard's parser -----------------------------------------------------------

  datatype Message = Message(kind: string, data: string, lastId: string)

  // The buffers, and the events dispatched so far.
  datatype Parser = Parser(kind: string, data: string, lastId: string, messages: seq<Message>)

  const START := Parser("", "", "", [])

  predicate Unbroken(s: string) {
    forall i :: 0 <= i < |s| ==> s[i] != CR && s[i] != LF
  }

  // Where the first line ends.
  function LineEnd(s: string): (k: nat)
    ensures k <= |s| && Unbroken(s[..k]) && (k < |s| ==> s[k] == CR || s[k] == LF)
  {
    if s == "" || s[0] == CR || s[0] == LF then 0
    else
      var k := 1 + LineEnd(s[1..]);
      assert s[1..][..k - 1] == s[1..k];
      k
  }

  // The lines of a stream, ended by CR LF, CR or LF; what follows the last line end is discarded.
  function Lines(s: string): seq<string> {
    var k := LineEnd(s);
    if k == |s| then []
    else if s[k] == CR && k + 1 < |s| && s[k + 1] == LF then [s[..k]] + Lines(s[k + 2..])
    else [s[..k]] + Lines(s[k + 1..])
  }

  function Colon(line: string): (k: nat)
    ensures k <= |line|
  {
    if line == "" || line[0] == ':' then 0 else 1 + Colon(line[1..])
  }

  // A dispatched event has the type "message" unless one was given.
  function Dispatch(p: Parser): Parser {
    if p.data == "" then Parser("", "", p.lastId, p.messages)
    else
      var data := if p.data[|p.data| - 1] == LF then p.data[..|p.data| - 1] else p.data;
      Parser("", "", p.lastId, p.messages + [Message(if p.kind == "" then "message" else p.kind, data, p.lastId)])
  }

  // The reconnection time set by "retry" is not part of the events.
  function Field(p: Parser, name: string, value: string): Parser {
    if name == "event" then p.(kind := value)
    else if name == "data" then p.(data := p.data + value + [LF])
    else if name == "id" && '\0' !in value then p.(lastId := value)
    else p
  }

  function Line(p: Parser, line: string): Parser {
    if line == "" then Dispatch(p)
    else if line[0] == ':' then p
    else
      var k := Colon(line);
      if k == |line| then Field(p, line, "")
      else if k + 1 < |line| && line[k + 1] == ' ' then Field(p, line[..k], line[k + 2..])
      else Field(p, line[..k], line[k + 1..])
  }

  function ParseLines(p: Parser, lines: seq<string>): Parser
    decreases |lines|
  {
    if lines == [] then p else ParseLines(Line(p, lines[0]), lines[1..])
  }

  // One byte order mark at the start is skipped; an event not yet dispatched at the end is dropped.
  function Parse(stream: string): seq<Message> {
    var text := if stream != "" && stream[0] == '\U{FEFF}' then stream[1..] else stream;
    ParseLines(START, Lines(text)).messages
  }

  // ---- The printers --------------------------------------------------------------------

  // id "" stands for none; writing tells which printer prints the event.
  datatype Chunk = Event(kind: string, data: string, id: string, writing: bool) | Comment(text: string)

  // format_sse: event, data, id.
  function GatewayLines(kind: string, data: string, id: string): seq<string> {
    ["event: " + kind, "data: " + data] + (if id != "" then ["id: " + id] else []) + [""]
  }

  // format_sse_event: id, event, data.
  function WritingLines(kind: string, data: string, id: string): seq<string> {
    (if id != "" then ["id: " + id] else []) + ["event: " + kind, "data: " + data] + [""]
  }

  // Each line followed by a line feed.
  function Ended(lines: seq<string>): string {
    if lines == [] then "" else lines[0] + [LF] + Ended(lines[1..])
  }

  function FormatSse(kind: string, data: string, id: string): string {
    "event: " + kind + "\n" + "data: " + data + "\n" + (if id != "" then "id: " + id + "\n" else "") + "\n"
  }

  function FormatSseEvent(kind: string, data: string, id: string): string {
    (if id != "" then "id: " + id + "\n" else "") + "event: " + kind + "\n" + "data: " + data + "\n" + "\n"
  }

  function FormatSseComment(text: string): string {
    ": " + text + "\n\n"
  }

  function Printed(chunk: Chunk): string {
    match chunk
    case Event(kind, data, id, writing) => if writing then FormatSseEvent(kind, data, id) else FormatSse(kind, data, id)
    case Comment(text) => FormatSseComment(text)
  }

  function Stream(chunks: seq<Chunk>): string {
    if chunks == [] then "" else Stream(chunks[..|chunks| - 1]) + Printed(chunks[|chunks| - 1])
  }

  predicate Clean(chunk: Chunk) {
    match chunk
    case Event(kind, data, id, _) => Unbroken(kind) && Unbroken(data) && Unbroken(id)
    case Comment(text) => Unbroken(text)
  }

  predicate AllClean(chunks: seq<Chunk>) {
    forall i :: 0 <= i < |chunks| ==> Clean(chunks[i])
  }

  // ---- What was sent -------------------------------------------------------------------

  // The last id after these chunks: an event may leave it as it was.
  function LastId(chunks: seq<Chunk>): string {
    if chunks == [] then ""
    else
      var last := chunks[|chunks| - 1];
      if last.Event? && last.id != "" && '\0' !in last.id then last.id else LastId(chunks[..|chunks| - 1])
  }

  function Sent(chunks: seq<Chunk>): seq<Message> {
    if chunks == [] then []
    else
      var last := chunks[|chunks| - 1];
      Sent(chunks[..|chunks| - 1]) +
      (if last.Event? then [Message(if last.kind == "" then "message" else last.kind, last.data, LastId(chunks))]
       else [])
  }

  // ---- Round trip ----------------------------------------------------------------------

  function ChunkLines(chunk: Chunk): seq<string> {
    match chunk
    case Event(kind, data, id, writing) =>
      if writing then WritingLines(kind, data, id) else GatewayLines(kind, data, id)
    case Comment(text) => [": " + text, ""]
  }

  lemma {:induction false} LineEndIs(line: string, rest: string)
    requires Unbroken(line)
    ensures LineEnd(line + [LF] + rest) == |line|
  {
    var s := line + [LF] + rest;
    var k := LineEnd(s);
    assert s[|line|] == LF && forall i :: 0 <= i < |line| ==> s[i] == line[i];
    assert forall i :: 0 <= i < k ==> s[i] == s[..k][i];
  }

  lemma FirstLine(line: string, rest: string)
    requires Unbroken(line)
    ensures Lines(line + [LF] + rest) == [line] + Lines(rest)
  {
    LineEndIs(line, rest);
    var s := line + [LF] + rest;
    assert s[..|line|] == line && s[|line| + 1..] == rest;
  }

  lemma {:induction false} EndedLines(lines: seq<string>, rest: string)
    requires forall i :: 0 <= i < |lines| ==> Unbroken(lines[i])
    ensures Lines(Ended(lines) + rest) == lines + Lines(rest)
  {
    hide Lines, LineEnd, Unbroken;
    if lines == [] {
      assert Ended(lines) + rest == rest;
    } else {
      assert Ended(lines) + rest == lines[0] + [LF] + (Ended(lines[1..]) + rest);
      FirstLine(lines[0], Ended(lines[1..]) + rest);
      EndedLines(lines[1..], rest);
    }
  }

  lemma {:induction false} ParseLinesConcat(p: Parser, a: seq<string>, b: seq<string>)
    ensures ParseLines(p, a + b) == ParseLines(ParseLines(p, a), b)
    decreases |a|
  {
    if a == [] {
      assert a + b == b;
    } else {
      assert (a + b)[1..] == a[1..] + b;
      ParseLinesConcat(Line(p, a[0]), a[1..], b);
    }
  }

  lemma {:induction false} ColonIs(name: string, rest: string)
    requires ':' !in name
    ensures Colon(name + ":" + rest) == |name|
  {
    if name == "" {
      assert (name + ":" + rest)[0] == ':';
    } else {
      assert (name + ":" + rest)[1..] == name[1..] + ":" + rest;
      assert (name + ":" + rest)[0] == name[0];
      ColonIs(name[1..], rest);
    }
  }

  lemma FieldLine(p: Parser, name: string, value: string)
    requires name != "" && ':' !in name
    ensures Line(p, name + ": " + value) == Field(p, name, value)
  {
    hide Field;
    var line := name + ": " + value;
    assert line == name + ":" + (" " + value);
    ColonIs(name, " " + value);
    assert line[0] == name[0] && line[|name| + 1] == ' ';
    assert line[..|name|] == name && line[|name| + 2..] == value;
  }

  lemma FieldLines(p: Parser, value: string)
    ensures Line(p, "event: " + value) == p.(kind := value)
    ensures Line(p, "data: " + value) == p.(data := p.data + value + [LF])
    ensures Line(p, "id: " + value) == if '\0' in value then p else p.(lastId := value)
  {
    hide Line, Colon;
    FieldLine(p, "event", value);
    FieldLine(p, "data", value);
    FieldLine(p, "id", value);
    assert "event" + ": " == "event: " && "data" + ": " == "data: " && "id" + ": " == "id: ";
  }

  // The parser between two chunks.
  function Between(chunks: seq<Chunk>): Parser {
    Parser("", "", LastId(chunks), Sent(chunks))
  }

  lemma ParseLine(p: Parser, line: string, rest: seq<string>)
    ensures ParseLines(p, [line] + rest) == ParseLines(Line(p, line), rest)
  {
  }

  lemma ParseId(p: Parser, id: string, rest: seq<string>)
    ensures ParseLines(p, (if id != "" then ["id: " + id] else []) + rest) ==
            ParseLines(p.(lastId := if id != "" && '\0' !in id then id else p.lastId), rest)
  {
    hide Line;
    FieldLines(p, id);
    if id != "" {
      ParseLine(p, "id: " + id, rest);
    } else {
      assert [] + rest == rest;
    }
  }

  lemma ParseEvent(p: Parser, kind: string, data: string, rest: seq<string>)
    requires p.data == ""
    ensures ParseLines(p, ["event: " + kind, "data: " + data] + rest) ==
            ParseLines(p.(kind := kind, data := data + [LF]), rest)
  {
    hide Line;
    FieldLines(p, kind);
    FieldLines(p.(kind := kind), data);
    assert ["event: " + kind, "data: " + data] + rest == ["event: " + kind] + (["data: " + data] + rest);
    ParseLine(p, "event: " + kind, ["data: " + data] + rest);
    ParseLine(p.(kind := kind), "data: " + data, rest);
    assert "" + data + [LF] == data + [LF];
  }

  lemma ParseEnd(p: Parser, data: string)
    requires p.data == data + [LF]
    ensures ParseLines(p, [""]) ==
            Parser("", "", p.lastId, p.messages + [Message(if p.kind == "" then "message" else p.kind, data, p.lastId)])
  {
  }

  // Both printers' lines make the same event.
  lemma ParseFrame(p: Parser, kind: string, data: string, id: string)
    requires p.kind == "" && p.data == ""
    ensures var lastId := if id != "" && '\0' !in id then id else p.lastId;
            var message := Message(if kind == "" then "message" else kind, data, lastId);
            var next := Parser("", "", lastId, p.messages + [message]);
            ParseLines(p, GatewayLines(kind, data, id)) == next && ParseLines(p, WritingLines(kind, data, id)) == next
  {
    hide ParseLines, Line;
    var idLines := if id != "" then ["id: " + id] else [];
    var lastId := if id != "" && '\0' !in id then id else p.lastId;
    var full := Parser(kind, data + [LF], p.lastId, p.messages);
    assert GatewayLines(kind, data, id) == ["event: " + kind, "data: " + data] + (idLines + [""]);
    ParseEvent(p, kind, data, idLines + [""]);
    ParseId(full, id, [""]);
    ParseEnd(full.(lastId := lastId), data);
    assert WritingLines(kind, data, id) == idLines + (["event: " + kind, "data: " + data] + [""]);
    ParseId(p, id, ["event: " + kind, "data: " + data] + [""]);
    ParseEvent(p.(lastId := lastId), kind, data, [""]);
  }

  lemma ParseComment(p: Parser, text: string)
    requires p.kind == "" && p.data == ""
    ensures ParseLines(p, [": " + text, ""]) == p
  {
    assert (": " + text)[0] == ':';
    assert Line(p, ": " + text) == p && Line(p, "") == p;
    assert [": " + text, ""][1..] == [""] && [""][1..] == [];
    assert ParseLines(p, [""]) == ParseLines(p, []);
  }

  lemma ParseChunk(chunks: seq<Chunk>, chunk: Chunk)
    ensures ParseLines(Between(chunks), ChunkLines(chunk)) == Between(chunks + [chunk])
  {
    hide ParseLines, GatewayLines, WritingLines;
    assert (chunks + [chunk])[..|chunks|] == chunks;
    match chunk
    case Event(kind, data, id, writing) => ParseFrame(Between(chunks), kind, data, id);
    case Comment(text) =>
      ParseComment(Between(chunks), text);
      assert Sent(chunks) + [] == Sent(chunks);
  }

  lemma UnbrokenConcat(a: string, b: string)
    requires Unbroken(a) && Unbroken(b)
    ensures Unbroken(a + b)
  {
  }

  lemma ChunkLinesUnbroken(chunk: Chunk)
    requires Clean(chunk)
    ensures forall i :: 0 <= i < |ChunkLines(chunk)| ==> Unbroken(ChunkLines(chunk)[i])
  {
    match chunk
    case Event(kind, data, id, writing) =>
      UnbrokenConcat("event: ", kind);
      UnbrokenConcat("data: ", data);
      UnbrokenConcat("id: ", id);
    case Comment(text) =>
      UnbrokenConcat(": ", text);
  }

  lemma {:induction false} EndedConcat(a: seq<string>, b: seq<string>)
    ensures Ended(a + b) == Ended(a) + Ended(b)
    decreases |a|
  {
    if a == [] {
      assert a + b == b;
    } else {
      assert (a + b)[1..] == a[1..] + b;
      EndedConcat(a[1..], b);
      assert a[0] + [LF] + (Ended(a[1..]) + Ended(b)) == a[0] + [LF] + Ended(a[1..]) + Ended(b);
    }
  }

  lemma EndedOne(line: string)
    ensures Ended([line]) == line + "\n"
  {
  }

  // The printers print their lines.
  lemma PrintedLines(chunk: Chunk)
    ensures Printed(chunk) == Ended(ChunkLines(chunk))
  {
    hide Ended;
    EndedOne("");
    match chunk
    case Event(kind, data, id, writing) =>
      EndedOne("event: " + kind);
      EndedOne("data: " + data);
      EndedOne("id: " + id);
      var idLines := if id != "" then ["id: " + id] else [];
      EndedNone();
      var idText := if id != "" then "id: " + id + "\n" else "";
      assert Ended(idLines) == idText;
      var body, text := ["event: " + kind] + ["data: " + data], "event: " + kind + "\n" + ("data: " + data + "\n");
      EndedConcat(["event: " + kind], ["data: " + data]);
      EndedConcat(body, idLines + [""]);
      EndedConcat(idLines, [""]);
      EndedConcat(idLines, body + [""]);
      EndedConcat(body, [""]);
      PrintedShape(kind, data, id);
      assert GatewayLines(kind, data, id) == body + (idLines + [""]);
      assert WritingLines(kind, data, id) == idLines + (body + [""]);
    case Comment(text) =>
      EndedOne(": " + text);
      EndedConcat([": " + text], [""]);
      assert [": " + text] + [""] == [": " + text, ""];
      assert ": " + text + "\n\n" == (": " + text + "\n") + ("" + "\n");
  }

  lemma EndedNone()
    ensures Ended([]) == ""
  {
  }

  lemma PrintedShape(kind: string, data: string, id: string)
    ensures var idText := if id != "" then "id: " + id + "\n" else "";
            var text := "event: " + kind + "\n" + ("data: " + data + "\n");
            FormatSse(kind, data, id) == text + (idText + ("" + "\n")) &&
              FormatSseEvent(kind, data, id) == idText + (text + ("" + "\n"))
  {
  }

  function AllLines(chunks: seq<Chunk>): seq<string> {
    if chunks == [] then [] else AllLines(chunks[..|chunks| - 1]) + ChunkLines(chunks[|chunks| - 1])
  }

  lemma {:induction false} StreamLines(chunks: seq<Chunk>)
    requires AllClean(chunks)
    ensures Stream(chunks) == Ended(AllLines(chunks))
    ensures forall i :: 0 <= i < |AllLines(chunks)| ==> Unbroken(AllLines(chunks)[i])
    ensures ParseLines(START, AllLines(chunks)) == Between(chunks)
  {
    hide Ended, ChunkLines, Unbroken, Line, Clean, Printed;
    if chunks == [] {
      EndedNone();
    } else {
      var front, last := chunks[..|chunks| - 1], chunks[|chunks| - 1];
      StreamLines(front);
      EndedConcat(AllLines(front), ChunkLines(last));
      PrintedLines(last);
      ChunkLinesUnbroken(last);
      ParseLinesConcat(START, AllLines(front), ChunkLines(last));
      ParseChunk(front, last);
      assert front + [last] == chunks;
    }
  }

  lemma {:induction false} NoByteOrderMark(chunks: seq<Chunk>)
    requires AllClean(chunks) && chunks != []
    ensures AllLines(chunks) != [] && AllLines(chunks)[0] != "" && AllLines(chunks)[0][0] < '\U{FEFF}'
    ensures Stream(chunks) != "" && Stream(chunks)[0] < '\U{FEFF}'
  {
    StreamLines(chunks);
    hide Stream, AllClean;
    var front, last := chunks[..|chunks| - 1], chunks[|chunks| - 1];
    if front == [] {
      assert AllLines(chunks) == ChunkLines(last);
    } else {
      NoMarkFront(front);
    }
    assert Ended(AllLines(chunks))[0] == AllLines(chunks)[0][0];
  }

  lemma {:induction false} NoMarkFront(chunks: seq<Chunk>)
    requires chunks != []
    ensures AllLines(chunks) != [] && AllLines(chunks)[0] != "" && AllLines(chunks)[0][0] < '\U{FEFF}'
  {
    var front, last := chunks[..|chunks| - 1], chunks[|chunks| - 1];
    if front == [] {
      assert AllLines(chunks) == ChunkLines(last);
    } else {
      NoMarkFront(front);
    }
  }

  // Whatever printer printed each event and wherever comments stand, the standard's parser gives back exactly the
  // events sent, with their data and last ids.
  lemma ParsesBack(chunks: seq<Chunk>)
    requires AllClean(chunks)
    ensures Parse(Stream(chunks)) == Sent(chunks)
  {
    hide AllLines, Ended, Unbroken, ParseLines;
    StreamLines(chunks);
    if chunks != [] {
      NoByteOrderMark(chunks);
    } else {
      StreamNone();
    }
    EndedLines(AllLines(chunks), "");
    assert Ended(AllLines(chunks)) + "" == Ended(AllLines(chunks));
    assert Lines("") == [] && AllLines(chunks) + [] == AllLines(chunks);
  }

  lemma StreamNone()
    ensures Stream([]) == ""
  {
  }

  // ---- stream_to_sse -------------------------------------------------------------------

  // What came of one event: a type and payload, or the payload of the error sent instead, when the serializer raised or
  // when its data could not be encoded.
  datatype Attempt =
    | Serialized(kind: string, payload: string)
    | Unserializable(payload: string)
    | Unencodable(payload: string)

  // clock: the loop's time when the event arrived.
  datatype Input = Input(clock: real, attempt: Attempt)

  datatype End = Finished | Failed(payload: string) | Cancelled

  datatype Progress = Progress(counter: nat, lastHeartbeat: real, chunks: seq<Chunk>)

  function Outcome(attempt: Attempt, counter: nat): Chunk {
    match attempt
    case Serialized(kind, payload) => Event(kind, payload, Decimals.Decimal(counter), true)
    case Unserializable(payload) => Event("error", payload, "", true)
    case Unencodable(payload) => Event("error", payload, "", true)
  }

  function Take(p: Progress, input: Input, interval: real): Progress {
    var due := input.clock - p.lastHeartbeat >= interval;
    var counter := if input.attempt.Unserializable? then p.counter else p.counter + 1;
    Progress(
      counter,
      if due then input.clock else p.lastHeartbeat,
      p.chunks + (if due then [Comment("heartbeat")] else []) + [Outcome(input.attempt, counter)])
  }

  function TakeAll(inputs: seq<Input>, start: real, interval: real): Progress {
    if inputs == [] then Progress(0, start, [])
    else Take(TakeAll(inputs[..|inputs| - 1], start, interval), inputs[|inputs| - 1], interval)
  }

  function StreamChunks(inputs: seq<Input>, start: real, interval: real, end: End): seq<Chunk> {
    TakeAll(inputs, start, interval).chunks + (if end.Failed? then [Event("error", end.payload, "", true)] else [])
  }

  function PrintedAll(chunks: seq<Chunk>): seq<string> {
    seq(|chunks|, i requires 0 <= i < |chunks| => Printed(chunks[i]))
  }

  lemma PrintedMore(chunks: seq<Chunk>, chunk: Chunk)
    ensures PrintedAll(chunks + [chunk]) == PrintedAll(chunks) + [Printed(chunk)]
  {
    hide Printed;
  }

  lemma PrintedNone()
    ensures PrintedAll([]) == []
  {
  }

  method StreamToSse(inputs: seq<Input>, start: real, interval: real, end: End) returns (frames: seq<string>)
    ensures frames == PrintedAll(StreamChunks(inputs, start, interval, end))
  {
    hide Printed, PrintedAll, FormatSse, FormatSseComment, FormatSseEvent, Decimals.Decimal;
    frames := [];
    PrintedNone();
    var eventCounter := 0;
    var lastHeartbeat := start;
    ghost var p := Progress(0, start, []);
    for i := 0 to |inputs|
      invariant p == TakeAll(inputs[..i], start, interval) && p.counter == eventCounter &&
                p.lastHeartbeat == lastHeartbeat
      invariant frames == PrintedAll(p.chunks)
    {
      assert inputs[..i + 1][..i] == inputs[..i];
      var now := inputs[i].clock;
      ghost var chunks := p.chunks;
      p := Take(p, inputs[i], interval);
      if now - lastHeartbeat >= interval {
        lastHeartbeat := now;
        frames := frames + [FormatSseComment("heartbeat")];
        PrintedIs(Comment("heartbeat"));
        PrintedMore(chunks, Comment("heartbeat"));
        chunks := chunks + [Comment("heartbeat")];
      }
      match inputs[i].attempt {
        case Serialized(kind, payload) =>
          eventCounter := eventCounter + 1;
          frames := frames + [FormatSseEvent(kind, payload, Decimals.Decimal(eventCounter))];
        case Unserializable(payload) =>
          frames := frames + [FormatSseEvent("error", payload, "")];
        case Unencodable(payload) =>
          eventCounter := eventCounter + 1;
          frames := frames + [FormatSseEvent("error", payload, "")];
      }
      PrintedIs(Outcome(inputs[i].attempt, eventCounter));
      PrintedMore(chunks, Outcome(inputs[i].attempt, eventCounter));
      assert p.chunks == chunks + [Outcome(inputs[i].attempt, eventCounter)];
    }
    assert inputs[..|inputs|] == inputs;
    if end.Failed? {
      frames := frames + [FormatSseEvent("error", end.payload, "")];
      PrintedIs(Event("error", end.payload, "", true));
      PrintedMore(p.chunks, Event("error", end.payload, "", true));
    } else {
      assert StreamChunks(inputs, start, interval, end) == p.chunks;
    }
  }

  lemma PrintedIs(chunk: Chunk)
    ensures chunk.Comment? ==> Printed(chunk) == FormatSseComment(chunk.text)
    ensures chunk.Event? && chunk.writing ==> Printed(chunk) == FormatSseEvent(chunk.kind, chunk.data, chunk.id)
    ensures chunk.Event? && !chunk.writing ==> Printed(chunk) == FormatSse(chunk.kind, chunk.data, chunk.id)
  {
  }

  // When the last of these heartbeats was sent; beats[k] tells whether one went before the k-th event.
  function LastBeat(inputs: seq<Input>, start: real, beats: seq<bool>): real
    requires |beats| <= |inputs|
  {
    if beats == [] then start
    else
      var n := |beats| - 1;
      if beats[n] then inputs[n].clock else LastBeat(inputs, start, beats[..n])
  }

  // A heartbeat goes before an event exactly when the last one, or the start, is an interval or more ago.
  predicate Beats(inputs: seq<Input>, start: real, interval: real, beats: seq<bool>) {
    && |beats| == |inputs|
    && forall k :: 0 <= k < |beats| ==>
       (beats[k] <==> inputs[k].clock - LastBeat(inputs, start, beats[..k]) >= interval)
  }

  // What is a heartbeat among the chunks, if each event is preceded by one or not as told.
  function BeatMarks(beats: seq<bool>): seq<bool> {
    if beats == [] then []
    else BeatMarks(beats[..|beats| - 1]) + (if beats[|beats| - 1] then [true, false] else [false])
  }

  function Marks(chunks: seq<Chunk>): seq<bool> {
    seq(|chunks|, i requires 0 <= i < |chunks| => chunks[i].Comment?)
  }

  lemma {:induction false} LastBeatSame(inputs: seq<Input>, more: seq<Input>, start: real, beats: seq<bool>)
    requires |beats| <= |inputs| && inputs <= more
    ensures LastBeat(more, start, beats) == LastBeat(inputs, start, beats)
    decreases |beats|
  {
    if beats != [] {
      LastBeatSame(inputs, more, start, beats[..|beats| - 1]);
    }
  }

  lemma BeatsMore(inputs: seq<Input>, input: Input, start: real, interval: real, beats: seq<bool>, due: bool)
    requires Beats(inputs, start, interval, beats)
    requires due <==> input.clock - LastBeat(inputs, start, beats) >= interval
    ensures Beats(inputs + [input], start, interval, beats + [due])
  {
    hide LastBeat;
    var all, marks := inputs + [input], beats + [due];
    forall k | 0 <= k < |marks|
      ensures marks[k] <==> all[k].clock - LastBeat(all, start, marks[..k]) >= interval
    {
      assert marks[..k] == beats[..k];
      LastBeatSame(inputs, all, start, beats[..k]);
      assert k == |beats| ==> beats[..k] == beats;
    }
  }

  predicate SameHeartbeats(chunks: seq<Chunk>) {
    forall i :: 0 <= i < |chunks| && chunks[i].Comment? ==> chunks[i].text == "heartbeat"
  }

  lemma TakeMarks(p: Progress, input: Input, interval: real)
    requires SameHeartbeats(p.chunks)
    ensures var next, due := Take(p, input, interval), input.clock - p.lastHeartbeat >= interval;
            && Marks(next.chunks) == Marks(p.chunks) + (if due then [true, false] else [false])
            && next.lastHeartbeat == (if due then input.clock else p.lastHeartbeat) && SameHeartbeats(next.chunks)
  {
  }

  lemma BeatAdded(inputs: seq<Input>, input: Input, start: real, beats: seq<bool>, due: bool)
    requires |beats| == |inputs|
    ensures BeatMarks(beats + [due]) == BeatMarks(beats) + (if due then [true, false] else [false])
    ensures LastBeat(inputs + [input], start, beats + [due]) ==
            if due then input.clock else LastBeat(inputs, start, beats)
  {
    assert (beats + [due])[..|beats|] == beats;
    LastBeatSame(inputs, inputs + [input], start, beats);
  }

  lemma NothingBeats(start: real, interval: real)
    ensures Beats([], start, interval, []) && BeatMarks([]) == [] && LastBeat([], start, []) == start
    ensures Marks([]) == [] && SameHeartbeats([])
  {
  }

  // The heartbeats among what is yielded are those due, each right before its event, and all alike.
  lemma {:induction false} HeartbeatsWhenDue(inputs: seq<Input>, start: real, interval: real) returns (beats: seq<bool>)
    ensures Beats(inputs, start, interval, beats) && |beats| == |inputs|
    ensures var p := TakeAll(inputs, start, interval);
            && Marks(p.chunks) == BeatMarks(beats) && p.lastHeartbeat == LastBeat(inputs, start, beats)
            && SameHeartbeats(p.chunks)
  {
    hide Beats, BeatMarks, LastBeat, Marks, Take, SameHeartbeats;
    if inputs == [] {
      NothingBeats(start, interval);
      beats := [];
    } else {
      var front, last := inputs[..|inputs| - 1], inputs[|inputs| - 1];
      var before := HeartbeatsWhenDue(front, start, interval);
      var p := TakeAll(front, start, interval);
      var due := last.clock - p.lastHeartbeat >= interval;
      beats := before + [due];
      assert front + [last] == inputs;
      BeatsMore(front, last, start, interval, before, due);
      BeatAdded(front, last, start, before, due);
      TakeMarks(p, last, interval);
    }
  }

  function Joined(frames: seq<string>): string {
    if frames == [] then "" else Joined(frames[..|frames| - 1]) + frames[|frames| - 1]
  }

  lemma {:induction false} JoinedIsStream(chunks: seq<Chunk>)
    ensures Joined(PrintedAll(chunks)) == Stream(chunks)
  {
    hide Printed;
    if chunks != [] {
      var front := chunks[..|chunks| - 1];
      JoinedIsStream(front);
      assert PrintedAll(chunks)[..|chunks| - 1] == PrintedAll(front);
    }
  }

  // How many numbers the events have used up: an unencodable event uses one without showing it.
  function Used(inputs: seq<Input>): nat {
    if inputs == [] then 0
    else Used(inputs[..|inputs| - 1]) + (if inputs[|inputs| - 1].attempt.Unserializable? then 0 else 1)
  }

  predicate Shows(m: Message, before: string, input: Input, used: nat) {
    match input.attempt
    case Serialized(kind, payload) =>
      m == Message(if kind == "" then "message" else kind, payload, Decimals.Decimal(used))
    case Unserializable(payload) => m == Message("error", payload, before)
    case Unencodable(payload) => m == Message("error", payload, before)
  }

  lemma SentMore(chunks: seq<Chunk>, chunk: Chunk)
    ensures LastId(chunks + [chunk]) ==
            if chunk.Event? && chunk.id != "" && '\0' !in chunk.id then chunk.id else LastId(chunks)
    ensures Sent(chunks + [chunk]) ==
            if chunk.Event? then
              var kind := if chunk.kind == "" then "message" else chunk.kind;
              Sent(chunks) + [Message(kind, chunk.data, LastId(chunks + [chunk]))]
            else Sent(chunks)
  {
  }

  // The id shown by the last message, "" before the first.
  function Shown(messages: seq<Message>): string {
    if messages == [] then "" else messages[|messages| - 1].lastId
  }

  lemma TakeSent(p: Progress, input: Input, interval: real)
    requires LastId(p.chunks) == Shown(Sent(p.chunks))
    ensures var next := Take(p, input, interval);
            var before, after := Sent(p.chunks), Sent(next.chunks);
            && |after| == |before| + 1 && after[..|before|] == before
            && Shows(after[|before|], Shown(before), input, next.counter)
            && LastId(next.chunks) == Shown(after)
  {
    hide LastId, Sent, Decimals.Decimal;
    var counter := if input.attempt.Unserializable? then p.counter else p.counter + 1;
    var due := input.clock - p.lastHeartbeat >= interval;
    var middle := p.chunks + (if due then [Comment("heartbeat")] else []);
    SentMore(p.chunks, Comment("heartbeat"));
    assert !due ==> middle == p.chunks;
    SentMore(middle, Outcome(input.attempt, counter));
    NumberShown(counter);
  }

  lemma NumberShown(n: nat)
    ensures Decimals.Decimal(n) != "" && '\0' !in Decimals.Decimal(n)
  {
  }

  ghost predicate Numbered(inputs: seq<Input>, p: Progress, sent: seq<Message>) {
    && p.counter == Used(inputs) && LastId(p.chunks) == Shown(sent) && |sent| == |inputs|
    && forall k :: 0 <= k < |inputs| ==> Shows(sent[k], Shown(sent[..k]), inputs[k], Used(inputs[..k + 1]))
  }

  lemma NumberedMore(inputs: seq<Input>, input: Input, p: Progress, sent: seq<Message>, next: Progress, m: Message)
    requires Numbered(inputs, p, sent)
    requires next.counter == p.counter + (if input.attempt.Unserializable? then 0 else 1)
    requires Shows(m, Shown(sent), input, next.counter) && LastId(next.chunks) == m.lastId
    ensures Numbered(inputs + [input], next, sent + [m])
  {
    hide Shows, LastId;
    var all, after := inputs + [input], sent + [m];
    assert all[..|inputs|] == inputs;
    forall k | 0 <= k < |all| ensures Shows(after[k], Shown(after[..k]), all[k], Used(all[..k + 1])) {
      if k < |inputs| {
        assert all[..k + 1] == inputs[..k + 1] && after[..k] == sent[..k];
      } else {
        assert all[..k + 1] == all && after[..k] == sent;
      }
    }
  }

  // Every event is shown once, in order: with its number, or as an error that leaves the last id as it was.
  lemma {:induction false} EventsNumbered(inputs: seq<Input>, start: real, interval: real)
    ensures Numbered(inputs, TakeAll(inputs, start, interval), Sent(TakeAll(inputs, start, interval).chunks))
  {
    hide Numbered, Sent, LastId, Shows;
    if inputs == [] {
      NoneNumbered(start);
    } else {
      var n := |inputs| - 1;
      var front := inputs[..n];
      var p := TakeAll(front, start, interval);
      EventsNumbered(front, start, interval);
      NumberedLast(front, p, Sent(p.chunks));
      TakeSent(p, inputs[n], interval);
      var next := Take(p, inputs[n], interval);
      var sent := Sent(next.chunks);
      assert front + [inputs[n]] == inputs && sent == Sent(p.chunks) + [sent[n]];
      NumberedMore(front, inputs[n], p, Sent(p.chunks), next, sent[n]);
    }
  }

  lemma NoneNumbered(start: real)
    ensures Numbered([], Progress(0, start, []), Sent([]))
  {
  }

  lemma NumberedLast(inputs: seq<Input>, p: Progress, sent: seq<Message>)
    requires Numbered(inputs, p, sent)
    ensures LastId(p.chunks) == Shown(sent) && |sent| == |inputs|
  {
  }

  predicate CleanInput(input: Input) {
    Unbroken(input.attempt.payload) && (input.attempt.Serialized? ==> Unbroken(input.attempt.kind))
  }

  lemma {:induction false} StreamClean(inputs: seq<Input>, start: real, interval: real)
    requires forall k :: 0 <= k < |inputs| ==> CleanInput(inputs[k])
    ensures AllClean(TakeAll(inputs, start, interval).chunks)
  {
    if inputs != [] {
      var n := |inputs| - 1;
      var p := TakeAll(inputs[..n], start, interval);
      StreamClean(inputs[..n], start, interval);
      var counter := if inputs[n].attempt.Unserializable? then p.counter else p.counter + 1;
      assert Clean(Comment("heartbeat"));
      Decimals.DecimalDigits(counter);
      assert CleanInput(inputs[n]) && Clean(Outcome(inputs[n].attempt, counter));
      hide Clean, Outcome;
    }
  }

  // End to end: parsing what stream_to_sse yields gives one event for each event of the iterator, in order, numbered as
  // described, heartbeats notwithstanding; a failing iterator adds one error event.
  lemma StreamDecodes(inputs: seq<Input>, start: real, interval: real, end: End)
    requires forall k :: 0 <= k < |inputs| ==> CleanInput(inputs[k])
    requires end.Failed? ==> Unbroken(end.payload)
    ensures var m := Parse(Joined(PrintedAll(StreamChunks(inputs, start, interval, end))));
            && |m| == |inputs| + (if end.Failed? then 1 else 0)
            && (forall k :: 0 <= k < |inputs| ==> Shows(m[k], Shown(m[..k]), inputs[k], Used(inputs[..k + 1])))
            && (end.Failed? ==> m[|inputs|] == Message("error", end.payload, Shown(m[..|inputs|])))
  {
    hide Sent, LastId, Parse, Joined, PrintedAll, Shows, Used, TakeAll, AllClean, CleanInput, Unbroken;
    var chunks := StreamChunks(inputs, start, interval, end);
    var body := TakeAll(inputs, start, interval).chunks;
    StreamClean(inputs, start, interval);
    EventsNumbered(inputs, start, interval);
    if end.Failed? {
      var error := Event("error", end.payload, "", true);
      NameUnbroken();
      CleanMore(body, error);
      SentMore(body, error);
    } else {
      assert chunks == body;
    }
    JoinedIsStream(chunks);
    ParsesBack(chunks);
    var m := Sent(chunks);
    assert forall k :: 0 <= k <= |inputs| ==> m[..k] == Sent(body)[..k];
    assert Sent(body)[..|inputs|] == Sent(body);
  }

  lemma NameUnbroken()
    ensures Unbroken("error") && Unbroken("")
  {
  }

  lemma CleanMore(chunks: seq<Chunk>, chunk: Chunk)
    requires AllClean(chunks) && Clean(chunk)
    ensures AllClean(chunks + [chunk])
  {
  }

  // ---- sse_consumer --------------------------------------------------------------------

  datatype Entry = Heartbeat | Closing(id: string) | Data(event: string, payload: string, id: string)

  // disconnected: what the request says when the entry arrives.
  datatype Arrival = Arrival(entry: Entry, disconnected: bool)

  function EntryChunk(entry: Entry): Chunk {
    match entry
    case Heartbeat => Comment("heartbeat")
    case Closing(id) => Event("end", "null", id, false)
    case Data(event, payload, id) => Event(event, payload, id, false)
  }

  // How many entries are sent: up to the end marker, or before the first that finds the client gone.
  function SentCount(arrivals: seq<Arrival>): (n: nat)
    ensures n <= |arrivals|
  {
    if arrivals == [] || arrivals[0].disconnected then 0
    else if arrivals[0].entry.Closing? then 1
    else 1 + SentCount(arrivals[1..])
  }

  function EntryChunks(arrivals: seq<Arrival>): seq<Chunk> {
    seq(|arrivals|, i requires 0 <= i < |arrivals| => EntryChunk(arrivals[i].entry))
  }

  method SseConsumer(arrivals: seq<Arrival>) returns (frames: seq<string>)
    ensures frames == PrintedAll(EntryChunks(arrivals[..SentCount(arrivals)]))
  {
    hide Printed, PrintedAll, EntryChunks, EntryChunk, SentCount, FormatSse, FormatSseComment;
    frames := [];
    NothingSent();
    assert arrivals[0..] == arrivals;
    for i := 0 to |arrivals|
      invariant SentCount(arrivals) == i + SentCount(arrivals[i..])
      invariant frames == PrintedAll(EntryChunks(arrivals[..i]))
    {
      SentStep(arrivals, i);
      EntryMore(arrivals, i);
      if arrivals[i].disconnected {
        return;
      }
      EntryPrinted(arrivals[i].entry);
      PrintedMore(EntryChunks(arrivals[..i]), EntryChunk(arrivals[i].entry));
      match arrivals[i].entry {
        case Heartbeat =>
          frames := frames + [FormatSseComment("heartbeat")];
        case Closing(id) =>
          frames := frames + [FormatSse("end", "null", id)];
          return;
        case Data(event, payload, id) =>
          frames := frames + [FormatSse(event, payload, id)];
      }
    }
    assert arrivals[..|arrivals|] == arrivals;
  }

  lemma NothingSent()
    ensures PrintedAll(EntryChunks([])) == [] && SentCount([]) == 0
  {
  }

  lemma SentStep(arrivals: seq<Arrival>, i: nat)
    requires i < |arrivals|
    ensures SentCount(arrivals[i..]) ==
            if arrivals[i].disconnected then 0
            else if arrivals[i].entry.Closing? then 1
            else 1 + SentCount(arrivals[i + 1..])
  {
    assert arrivals[i..][1..] == arrivals[i + 1..];
  }

  lemma EntryMore(arrivals: seq<Arrival>, i: nat)
    requires i < |arrivals|
    ensures EntryChunks(arrivals[..i + 1]) == EntryChunks(arrivals[..i]) + [EntryChunk(arrivals[i].entry)]
  {
  }

  lemma EntryPrinted(entry: Entry)
    ensures Printed(EntryChunk(entry)) ==
            match entry
            case Heartbeat => FormatSseComment("heartbeat")
            case Closing(id) => FormatSse("end", "null", id)
            case Data(event, payload, id) => FormatSse(event, payload, id)
  {
    PrintedIs(EntryChunk(entry));
    hide FormatSse, FormatSseComment;
  }

  // Parsing what the consumer yields gives exactly the entries sent, heartbeats left out.
  lemma ConsumerDecodes(arrivals: seq<Arrival>)
    requires forall i :: 0 <= i < |arrivals| ==> Clean(EntryChunk(arrivals[i].entry))
    ensures var chunks := EntryChunks(arrivals[..SentCount(arrivals)]);
            Parse(Joined(PrintedAll(chunks))) == Sent(chunks)
  {
    var chunks := EntryChunks(arrivals[..SentCount(arrivals)]);
    hide Parse, Sent, Clean;
    JoinedIsStream(chunks);
    ParsesBack(chunks);
  }

  // The consumer goes on until it finds the client gone or has sent the end marker, and no further.
  lemma {:induction false} SentUntil(arrivals: seq<Arrival>)
    ensures var n := SentCount(arrivals);
            && (forall i :: 0 <= i < n ==> !arrivals[i].disconnected && (arrivals[i].entry.Closing? ==> i == n - 1))
            && (n < |arrivals| ==> arrivals[n].disconnected || (n > 0 && arrivals[n - 1].entry.Closing?))
  {
    if arrivals != [] && !arrivals[0].disconnected && !arrivals[0].entry.Closing? {
      SentUntil(arrivals[1..]);
      var n := SentCount(arrivals);
      assert forall i :: 1 <= i < |arrivals| ==> arrivals[i] == arrivals[1..][i - 1];
    }
  }

  // How an entry reaches the client; previous is the last id before it.
  predicate Reaches(entry: Entry, m: Message, previous: string) {
    match entry
    case Heartbeat => false
    case Closing(id) => m == Message("end", "null", if id != "" && '\0' !in id then id else previous)
    case Data(event, payload, id) =>
      m == Message(if event == "" then "message" else event, payload, if id != "" && '\0' !in id then id else previous)
  }

  // The entries that are no heartbeats.
  function Visible(arrivals: seq<Arrival>): seq<Entry> {
    if arrivals == [] then []
    else
      var last := arrivals[|arrivals| - 1].entry;
      Visible(arrivals[..|arrivals| - 1]) + (if last.Heartbeat? then [] else [last])
  }

  // Every entry that is no heartbeat reaches the client once, in its order.
  lemma {:induction false} EntriesReach(arrivals: seq<Arrival>)
    ensures var m, entries := Sent(EntryChunks(arrivals)), Visible(arrivals);
            && |m| == |entries| && LastId(EntryChunks(arrivals)) == Shown(m)
            && forall k :: 0 <= k < |m| ==> Reaches(entries[k], m[k], Shown(m[..k]))
  {
    hide Sent, LastId;
    if arrivals == [] {
      NothingReaches();
    } else {
      var n := |arrivals| - 1;
      var front, last := arrivals[..n], arrivals[n].entry;
      EntriesReach(front);
      EntryMore(arrivals, n);
      assert arrivals[..n + 1] == arrivals;
      ReachesMore(EntryChunks(front), last, Visible(front));
      hide EntryChunk, Reaches;
      assert EntryChunks(arrivals) == EntryChunks(front) + [EntryChunk(last)];
    }
  }

  // One more entry.
  lemma ReachesMore(chunks: seq<Chunk>, entry: Entry, entries: seq<Entry>)
    requires |Sent(chunks)| == |entries| && LastId(chunks) == Shown(Sent(chunks))
    requires forall k :: 0 <= k < |entries| ==> Reaches(entries[k], Sent(chunks)[k], Shown(Sent(chunks)[..k]))
    ensures var m, all := Sent(chunks + [EntryChunk(entry)]), entries + (if entry.Heartbeat? then [] else [entry]);
            && |m| == |all| && LastId(chunks + [EntryChunk(entry)]) == Shown(m)
            && forall k :: 0 <= k < |m| ==> Reaches(all[k], m[k], Shown(m[..k]))
  {
    hide Sent, LastId;
    SentMore(chunks, EntryChunk(entry));
    var m, before := Sent(chunks + [EntryChunk(entry)]), Sent(chunks);
    var all := entries + (if entry.Heartbeat? then [] else [entry]);
    if entry.Heartbeat? {
      assert all == entries;
    } else {
      assert Reaches(entry, m[|before|], Shown(before));
      hide Reaches, Shown, EntryChunk;
      forall k | 0 <= k < |m| ensures Reaches(all[k], m[k], Shown(m[..k])) {
        assert m[..k] == if k < |before| then before[..k] else before;
      }
    }
  }

  lemma NothingReaches()
    ensures Sent(EntryChunks([])) == [] && LastId(EntryChunks([])) == ""
  {
  }
}
