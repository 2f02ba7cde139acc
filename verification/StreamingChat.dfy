/**
  Answering on a streaming channel: chunks of the agent's stream are merged into the text so far, published as throttled
  updates, and closed by one final message (backend/app/channels/manager.py).

  Chunks carry decoded JSON. A call that raises is modelled by its result; the stream itself ends normally, by an
  exception, or by cancellation.
 */
module StreamingChat {
  import opened Common

  datatype Value =
    | Null
    | Bool(b: bool)
    | Number(n: real)
    | Text(text: string)
    | List(items: seq<Value>)
    | Dict(entries: map<string, Value>)

  function Get(entries: map<string, Value>, key: string, default: Value): Value {
    if key in entries then entries[key] else default
  }

  function Join(parts: seq<string>): string {
    if parts == [] then "" else parts[0] + Join(parts[1..])
  }

  // ---- Merging deltas and snapshots ----------------------------------------------------

  predicate EndsWith(s: string, tail: string) {
    |tail| <= |s| && s[|s| - |tail|..] == tail
  }

  // _merge_stream_text
  function Merge(existing: string, chunk: string): string {
    if chunk == "" then existing
    else if existing == "" || chunk == existing then (if chunk != "" then chunk else existing)
    else if existing <= chunk then chunk
    else if EndsWith(existing, chunk) then existing
    else existing + chunk
  }

  lemma MergeOnlyGrows(existing: string, chunk: string)
    ensures existing <= Merge(existing, chunk)
    ensures Merge(Merge(existing, chunk), chunk) == Merge(existing, chunk)
    ensures chunk == "" || EndsWith(Merge(existing, chunk), chunk)
  {
  }

  // A delta is taken at face value unless it is empty-handed: the text so far ends with it, or it begins with that
  // text.
  predicate Ambiguous(text: string, delta: string) {
    delta != "" && text != "" && (text <= delta || EndsWith(text, delta))
  }

  lemma DeltaMerges(text: string, delta: string)
    ensures Merge(text, delta) == text + delta <==> !Ambiguous(text, delta)
  {
  }

  lemma SnapshotMerges(text: string, snapshot: string)
    ensures Merge(text, snapshot) == snapshot <==> text <= snapshot
  {
  }

  // One chunk of a message whose text grows by added: sent as that delta, or as the whole text so far.
  datatype Piece = Piece(added: string, whole: bool)

  function TrueText(pieces: seq<Piece>): string {
    if pieces == [] then "" else TrueText(pieces[..|pieces| - 1]) + pieces[|pieces| - 1].added
  }

  function Sent(pieces: seq<Piece>, i: nat): string
    requires i < |pieces|
  {
    if pieces[i].whole then TrueText(pieces[..i + 1]) else pieces[i].added
  }

  function Chunks(pieces: seq<Piece>): (chunks: seq<string>)
    ensures |chunks| == |pieces|
  {
    seq(|pieces|, i requires 0 <= i < |pieces| => Sent(pieces, i))
  }

  function Fold(chunks: seq<string>): string {
    if chunks == [] then "" else Merge(Fold(chunks[..|chunks| - 1]), chunks[|chunks| - 1])
  }

  lemma TrueTextGrows(pieces: seq<Piece>, i: nat)
    requires i < |pieces|
    ensures TrueText(pieces[..i + 1]) == TrueText(pieces[..i]) + pieces[i].added
  {
    assert pieces[..i + 1][..i] == pieces[..i];
  }

  lemma FoldStep(chunks: seq<string>, n: nat)
    requires n < |chunks|
    ensures Fold(chunks[..n + 1]) == Merge(Fold(chunks[..n]), chunks[n])
  {
    assert chunks[..n + 1][..n] == chunks[..n];
  }

  // Some delta is ambiguous after the text before it.
  ghost predicate Confusing(pieces: seq<Piece>) {
    exists i :: 0 <= i < |pieces| && !pieces[i].whole && Ambiguous(TrueText(pieces[..i]), pieces[i].added)
  }

  lemma {:induction false} FoldsTo(pieces: seq<Piece>, n: nat)
    requires n <= |pieces| && !Confusing(pieces)
    ensures Fold(Chunks(pieces)[..n]) == TrueText(pieces[..n])
  {
    if n > 0 {
      FoldsTo(pieces, n - 1);
      FoldStep(Chunks(pieces), n - 1);
      TrueTextGrows(pieces, n - 1);
      var text := TrueText(pieces[..n - 1]);
      DeltaMerges(text, pieces[n - 1].added);
      SnapshotMerges(text, text + pieces[n - 1].added);
    }
  }

  // Any mix of deltas and snapshots yields the true text after every chunk exactly when no delta is ambiguous.
  lemma FoldIsTrueText(pieces: seq<Piece>)
    ensures (forall n :: 0 <= n <= |pieces| ==> Fold(Chunks(pieces)[..n]) == TrueText(pieces[..n])) <==>
            !Confusing(pieces)
  {
    if !Confusing(pieces) {
      forall n | 0 <= n <= |pieces| ensures Fold(Chunks(pieces)[..n]) == TrueText(pieces[..n]) {
        FoldsTo(pieces, n);
      }
    } else {
      var i :| 0 <= i < |pieces| && !pieces[i].whole && Ambiguous(TrueText(pieces[..i]), pieces[i].added);
      FoldStep(Chunks(pieces), i);
      TrueTextGrows(pieces, i);
      DeltaMerges(TrueText(pieces[..i]), pieces[i].added);
      assert Fold(Chunks(pieces)[..i]) != TrueText(pieces[..i]) ||
             Fold(Chunks(pieces)[..i + 1]) != TrueText(pieces[..i + 1]);
    }
  }

  // A repeated letter is lost when it comes as a delta of its own.
  lemma RepetitionLost()
    ensures var pieces := [Piece("bo", false), Piece("o", false)];
            Fold(Chunks(pieces)) == "bo" && TrueText(pieces) == "boo"
  {
    var pieces := [Piece("bo", false), Piece("o", false)];
    assert pieces[..1] == [Piece("bo", false)] && pieces[..1][..0] == [];
    var chunks := Chunks(pieces);
    assert chunks == ["bo", "o"] && chunks[..1] == ["bo"] && chunks[..1][..0] == [];
    assert Fold(chunks[..1]) == "bo" && EndsWith("bo", "o");
    assert "bo" + "o" == "boo";
  }

  // ---- Reading a message chunk ---------------------------------------------------------

  function BlockText(block: Value): string {
    match block
    case Text(text) => text
    case Dict(entries) =>
      if Get(entries, "text", Null).Text? then entries["text"].text
      else if Get(entries, "content", Null).Text? then entries["content"].text
      else ""
    case _ => ""
  }

  function BlockTexts(blocks: seq<Value>): seq<string> {
    seq(|blocks|, i requires 0 <= i < |blocks| => BlockText(blocks[i]))
  }

  // _extract_text_content
  function TextContent(content: Value): string {
    if content.List? then Join(BlockTexts(content.items)) else BlockText(content)
  }

  function Named(candidate: Value): Option<string> {
    if !candidate.Dict? then None
    else
      var id, messageId := Get(candidate.entries, "id", Null), Get(candidate.entries, "message_id", Null);
      if id.Text? && id.text != "" then Some(id.text)
      else if messageId.Text? && messageId.text != "" then Some(messageId.text)
      else None
  }

  // _extract_stream_message_id
  function MessageId(payload: Value, metadata: Value): Option<string> {
    if Named(payload).Some? then Named(payload)
    else if Named(metadata).Some? then Named(metadata)
    else if payload.Dict? then Named(Get(payload.entries, "kwargs", Null))
    else None
  }

  // str.lower, as far as it can make up the word: no letter outside ASCII has one of its letters as lower case.
  function Lower(c: char): char {
    if 'A' <= c <= 'Z' then c - 'A' + 'a' else c
  }

  predicate MentionsTool(name: string) {
    exists i :: 0 <= i <= |name| - 4 && MentionsAt(name, i)
  }

  predicate MentionsAt(name: string, i: int)
    requires 0 <= i <= |name| - 4
  {
    Lower(name[i]) == 't' && Lower(name[i + 1]) == 'o' && Lower(name[i + 2]) == 'o' && Lower(name[i + 3]) == 'l'
  }

  // The part of repr that could make up the word: a tab is shown as a backslash and a t.
  function Shown(text: string): string {
    if text == "" then "" else (if text[0] == '\t' then "\\t" else [text[0]]) + Shown(text[1..])
  }

  // The printed form of a value inside a list or an object mentions a tool.
  predicate ShowsTool(v: Value) {
    match v
    case Text(text) => MentionsTool(Shown(text))
    case List(items) => exists i :: 0 <= i < |items| && ShowsTool(items[i])
    case Dict(entries) => exists key :: key in entries && (MentionsTool(Shown(key)) || ShowsTool(entries[key]))
    case _ => false
  }

  // str(type) mentions a tool, in any case; the printed forms of null, booleans and numbers do not.
  predicate ToolType(kind: Value) {
    if kind.Text? then MentionsTool(kind.text) else ShowsTool(kind)
  }

  predicate ToolPayload(payload: Value) {
    payload.Dict? && ToolType(Get(payload.entries, "type", Text("")))
  }

  function Payload(data: Value): Value {
    if data.List? && data.items != [] then data.items[0] else data
  }

  function Metadata(data: Value): Value {
    if data.List? && |data.items| > 1 then data.items[1] else Null
  }

  function PayloadText(entries: map<string, Value>): string {
    var text := TextContent(Get(entries, "content", Null));
    var kwargs := Get(entries, "kwargs", Null);
    if text == "" && kwargs.Dict? then TextContent(Get(kwargs.entries, "content", Null)) else text
  }

  const DEFAULT_ID := "__default__"

  function Or(id: Option<string>, fallback: string): string {
    if id.Some? && id.value != "" then id.value else fallback
  }

  // Which message a chunk belongs to, and its text; None when it is to be ignored.
  function Route(current: Option<string>, data: Value): Option<(string, string)> {
    var payload := Payload(data);
    if payload.Text? then Some((Or(current, DEFAULT_ID), payload.text))
    else if !payload.Dict? || ToolPayload(payload) || PayloadText(payload.entries) == "" then None
    else Some((Or(MessageId(payload, Metadata(data)), Or(current, DEFAULT_ID)), PayloadText(payload.entries)))
  }

  function Buffer(buffers: map<string, string>, id: string): string {
    if id in buffers then buffers[id] else ""
  }

  class StreamBuffers {
    var buffers: map<string, string>

    constructor ()
      ensures buffers == map[]
    {
      buffers := map[];
    }

    // _accumulate_stream_text: only the buffer of the chunk's message grows; ignored chunks change nothing.
    method Accumulate(current: Option<string>, data: Value) returns (text: Option<string>, id: Option<string>)
      modifies this
      ensures Track(buffers, id) == Follow(Track(old(buffers), current), data)
      ensures match Route(current, data)
              case None => buffers == old(buffers) && text == None && id == current
              case Some((m, chunk)) =>
                && buffers == old(buffers)[m := Merge(Buffer(old(buffers), m), chunk)]
                && text == Some(buffers[m]) && id == Some(m)
      ensures BringsNothing(data) ==> buffers == old(buffers) && text == None && id == current
      ensures forall m, chunk :: Brings(current, data, m, chunk) ==>
                && buffers == old(buffers)[m := Merge(Buffer(old(buffers), m), chunk)]
                && text == Some(buffers[m]) && id == Some(m)
    {
      RoutesAs(current, data);
      hide Brings, BringsNothing, Merge, Named, TextContent, ShowsTool, MentionsTool;
      var payload, metadata := data, Null;
      if data.List? {
        if data.items != [] {
          payload := data.items[0];
        }
        if |data.items| > 1 {
          metadata := data.items[1];
        }
      }
      if payload.Text? {
        var m := Or(current, DEFAULT_ID);
        buffers := buffers[m := Merge(Buffer(buffers, m), payload.text)];
        return Some(buffers[m]), Some(m);
      }
      if !payload.Dict? {
        return None, current;
      }
      if ToolPayload(payload) {
        return None, current;
      }
      var content := TextContent(Get(payload.entries, "content", Null));
      if content == "" && Get(payload.entries, "kwargs", Null).Dict? {
        content := TextContent(Get(payload.entries["kwargs"].entries, "content", Null));
      }
      if content == "" {
        return None, current;
      }
      var named := MessageId(payload, metadata);
      var m := Or(named, Or(current, DEFAULT_ID));
      buffers := buffers[m := Merge(Buffer(buffers, m), content)];
      return Some(buffers[m]), Some(m);
    }
  }

  // A payload whose type, printed, mentions a tool in any case is never shown and moves nothing.
  lemma ToolsIgnored(track: Track, data: Value)
    requires Payload(data).Dict? && ToolType(Get(Payload(data).entries, "type", Text("")))
    ensures Follow(track, data) == track
  {
  }

  // The buffers and the current message after these chunks.
  datatype Track = Track(buffers: map<string, string>, current: Option<string>)

  function Follow(track: Track, data: Value): Track {
    match Route(track.current, data)
    case None => track
    case Some((m, chunk)) => Track(track.buffers[m := Merge(Buffer(track.buffers, m), chunk)], Some(m))
  }

  function FollowAll(datas: seq<Value>): Track {
    if datas == [] then Track(map[], None) else Follow(FollowAll(datas[..|datas| - 1]), datas[|datas| - 1])
  }

  // The chunks that went to one message.
  function ChunksOf(datas: seq<Value>, id: string): seq<string> {
    if datas == [] then []
    else
      var front := datas[..|datas| - 1];
      match Route(FollowAll(front).current, datas[|datas| - 1])
      case None => ChunksOf(front, id)
      case Some((m, chunk)) => if m == id then ChunksOf(front, id) + [chunk] else ChunksOf(front, id)
  }

  // However the messages interleave, each buffer is the fold of its own message's chunks.
  lemma {:induction false} BufferIsOwnFold(datas: seq<Value>, id: string)
    ensures Buffer(FollowAll(datas).buffers, id) == Fold(ChunksOf(datas, id))
  {
    hide Route, Merge;
    if datas != [] {
      var front := datas[..|datas| - 1];
      BufferIsOwnFold(front, id);
      match Route(FollowAll(front).current, datas[|datas| - 1])
      case None =>
      case Some((m, chunk)) =>
        var before := ChunksOf(front, id);
        assert (before + [chunk])[..|before + [chunk]| - 1] == before;
    }
  }

  // ---- What a chunk says, and of which message -----------------------------------------

  predicate HoldsText(v: Value, key: string) {
    v.Dict? && key in v.entries && v.entries[key].Text?
  }

  // A block says its text: a string, or the string under "text" of an object, or, lacking that, the one under
  // "content".
  predicate BlockSays(block: Value, text: string) {
    if block.Text? then text == block.text
    else if HoldsText(block, "text") then text == block.entries["text"].text
    else if HoldsText(block, "content") then text == block.entries["content"].text
    else text == ""
  }

  // A list of blocks says what they say, one after the other.
  ghost predicate BlocksSay(blocks: seq<Value>, text: string) {
    if blocks == [] then text == ""
    else exists k :: 0 <= k <= |text| && BlockSays(blocks[0], text[..k]) && BlocksSay(blocks[1..], text[k..])
  }

  ghost predicate ContentSays(content: Value, text: string) {
    if content.List? then BlocksSay(content.items, text) else BlockSays(content, text)
  }

  // An object says what its content says, and if that is nothing, what the content of its "kwargs" says.
  ghost predicate ObjectSays(payload: Value, text: string)
    requires payload.Dict?
  {
    var own, kwargs := Get(payload.entries, "content", Null), Get(payload.entries, "kwargs", Null);
    if ContentSays(own, "") && kwargs.Dict? then ContentSays(Get(kwargs.entries, "content", Null), text)
    else ContentSays(own, text)
  }

  lemma {:induction false} BlocksSayIff(blocks: seq<Value>, text: string)
    ensures BlocksSay(blocks, text) <==> text == Join(BlockTexts(blocks))
  {
    hide BlockSays, BlockText;
    if blocks != [] {
      var first, rest := BlockText(blocks[0]), Join(BlockTexts(blocks[1..]));
      assert BlockTexts(blocks)[1..] == BlockTexts(blocks[1..]);
      assert Join(BlockTexts(blocks)) == first + rest;
      forall k | 0 <= k <= |text|
        ensures BlockSays(blocks[0], text[..k]) && BlocksSay(blocks[1..], text[k..]) <==>
                text[..k] == first && text[k..] == rest
      {
        BlockSaysIff(blocks[0], text[..k]);
        BlocksSayIff(blocks[1..], text[k..]);
      }
      if text == first + rest {
        assert text[..|first|] == first && text[|first|..] == rest;
      }
      assert forall k :: 0 <= k <= |text| && text[..k] == first && text[k..] == rest ==> text == first + rest;
    }
  }

  lemma BlockSaysIff(block: Value, text: string)
    ensures BlockSays(block, text) <==> text == BlockText(block)
  {
  }

  lemma ObjectSaysIff(payload: Value, text: string)
    requires payload.Dict?
    ensures ObjectSays(payload, text) <==> text == PayloadText(payload.entries)
  {
    hide BlockText, BlockTexts, BlockSays, BlocksSay;
    var own, kwargs := Get(payload.entries, "content", Null), Get(payload.entries, "kwargs", Null);
    ContentSaysIff(own, "");
    ContentSaysIff(own, text);
    if kwargs.Dict? {
      ContentSaysIff(Get(kwargs.entries, "content", Null), text);
    }
  }

  lemma ContentSaysIff(content: Value, text: string)
    ensures ContentSays(content, text) <==> text == TextContent(content)
  {
    if content.List? {
      BlocksSayIff(content.items, text);
    } else {
      BlockSaysIff(content, text);
    }
  }

  // Two lists of blocks say what the first says and then what the second says.
  lemma {:induction false} BlocksSayBoth(a: seq<Value>, b: seq<Value>, s: string, t: string)
    requires BlocksSay(a, s) && BlocksSay(b, t)
    ensures BlocksSay(a + b, s + t)
  {
    hide BlockSays;
    if a == [] {
      assert a + b == b && s + t == t;
    } else {
      var k :| 0 <= k <= |s| && BlockSays(a[0], s[..k]) && BlocksSay(a[1..], s[k..]);
      BlocksSayBoth(a[1..], b, s[k..], t);
      assert (a + b)[1..] == a[1..] + b && (s + t)[..k] == s[..k] && (s + t)[k..] == s[k..] + t;
      assert BlockSays((a + b)[0], (s + t)[..k]) && BlocksSay((a + b)[1..], (s + t)[k..]);
    }
  }

  // A nonempty string under this key.
  predicate Names(v: Value, key: string, id: string) {
    HoldsText(v, key) && v.entries[key].text == id && id != ""
  }

  predicate NamesNothing(v: Value, key: string) {
    HoldsText(v, key) ==> v.entries[key].text == ""
  }

  // The first name of six decides whose text it is, and if there is none, the message before goes on.
  ghost predicate Addressed(payload: Value, metadata: Value, current: Option<string>, id: string) {
    var kwargs := if payload.Dict? then Get(payload.entries, "kwargs", Null) else Null;
    if !NamesNothing(payload, "id") then Names(payload, "id", id)
    else if !NamesNothing(payload, "message_id") then Names(payload, "message_id", id)
    else if !NamesNothing(metadata, "id") then Names(metadata, "id", id)
    else if !NamesNothing(metadata, "message_id") then Names(metadata, "message_id", id)
    else if !NamesNothing(kwargs, "id") then Names(kwargs, "id", id)
    else if !NamesNothing(kwargs, "message_id") then Names(kwargs, "message_id", id)
    else GoesOn(current, id)
  }

  predicate GoesOn(current: Option<string>, id: string) {
    if current.Some? && current.value != "" then id == current.value else id == "__default__"
  }

  // The chunk brings text for message id: as a string, or as an object that is no tool message. A list stands for its
  // first item, with its second as metadata.
  ghost predicate Brings(current: Option<string>, data: Value, id: string, text: string) {
    var payload := if data.List? && |data.items| > 0 then data.items[0] else data;
    var metadata := if data.List? && |data.items| > 1 then data.items[1] else Null;
    || (payload.Text? && text == payload.text && GoesOn(current, id))
    || (payload.Dict? && !SpellsTool(payload) && text != "" && ObjectSays(payload, text) &&
        Addressed(payload, metadata, current, id))
  }

  // It brings none.
  ghost predicate BringsNothing(data: Value) {
    var payload := if data.List? && |data.items| > 0 then data.items[0] else data;
    !payload.Text? && (payload.Dict? ==> SpellsTool(payload) || ObjectSays(payload, ""))
  }

  // The word tool in any case; first holds what may stand for its t.
  ghost predicate Spells(text: string, first: string) {
    exists i :: SpellsAt(text, first, i)
  }

  predicate SpellsAt(text: string, first: string, i: int) {
    0 <= i <= |text| - 4 && text[i] in first && text[i + 1] in "oO" && text[i + 2] in "oO" && text[i + 3] in "lL"
  }

  // The printed form of a value inside a list or an object, where a tab is shown as a backslash and a t.
  ghost predicate Prints(v: Value) {
    match v
    case Text(text) => Spells(text, "tT\t")
    case List(items) => exists i :: 0 <= i < |items| && Prints(items[i])
    case Dict(entries) => exists key :: key in entries && (Spells(key, "tT\t") || Prints(entries[key]))
    case _ => false
  }

  // The type of an object spells the word: a string does, or what a list or an object prints.
  ghost predicate SpellsTool(payload: Value) {
    && payload.Dict? && "type" in payload.entries
    && var kind := payload.entries["type"];
       if kind.Text? then Spells(kind.text, "tT") else Prints(kind)
  }

  lemma MentionsIff(name: string)
    ensures MentionsTool(name) <==> Spells(name, "tT")
  {
    forall i | 0 <= i <= |name| - 4 ensures MentionsAt(name, i) <==> SpellsAt(name, "tT", i) {
    }
    assert forall i :: SpellsAt(name, "tT", i) ==> 0 <= i <= |name| - 4;
    hide MentionsAt, SpellsAt;
  }

  // The rest of the word.
  predicate Ends(text: string) {
    |text| >= 3 && text[0] in "oO" && text[1] in "oO" && text[2] in "lL"
  }

  lemma SpellsFront(c: char, text: string, first: string)
    ensures Spells([c] + text, first) <==> (c in first && Ends(text)) || Spells(text, first)
  {
    assert forall i :: i >= 0 ==> (SpellsAt([c] + text, first, i + 1) <==> SpellsAt(text, first, i));
    assert SpellsAt([c] + text, first, 0) <==> c in first && Ends(text);
    hide SpellsAt, Ends;
    if i :| SpellsAt([c] + text, first, i) {
      SpelledWithin([c] + text, first, i);
      assert i == 0 || SpellsAt(text, first, i - 1);
    }
    if i :| SpellsAt(text, first, i) {
      SpelledWithin(text, first, i);
      assert SpellsAt([c] + text, first, i + 1);
    }
  }

  lemma SpelledWithin(text: string, first: string, i: int)
    requires SpellsAt(text, first, i)
    ensures 0 <= i
  {
  }

  lemma ShownFront(text: string)
    requires text != ""
    ensures Shown(text) == if text[0] == '\t' then ['\\'] + (['t'] + Shown(text[1..])) else [text[0]] + Shown(text[1..])
  {
  }

  lemma EndsShown(text: string)
    ensures Ends(Shown(text)) <==> Ends(text)
  {
    if text != "" {
      ShownFront(text);
      if |text| > 1 {
        ShownFront(text[1..]);
        assert text[1..][1..] == text[2..];
        if |text| > 2 {
          ShownFront(text[2..]);
        }
      }
    }
  }

  lemma NothingSpelled()
    ensures Shown("") == "" && !Spells("", "tT") && !Spells("", "tT\t")
  {
  }

  lemma {:induction false} ShownIff(text: string)
    ensures MentionsTool(Shown(text)) <==> Spells(text, "tT\t")
  {
    hide MentionsTool, Spells, Ends, Shown;
    MentionsIff(Shown(text));
    if text == "" {
      NothingSpelled();
    } else {
      var c, rest := text[0], text[1..];
      ShownFront(text);
      EndsShown(rest);
      ShownIff(rest);
      MentionsIff(Shown(rest));
      assert [c] + rest == text;
      SpellsFront(c, rest, "tT\t");
      if c == '\t' {
        SpellsFront('t', Shown(rest), "tT");
        SpellsFront('\\', ['t'] + Shown(rest), "tT");
      } else {
        SpellsFront(c, Shown(rest), "tT");
      }
    }
  }

  lemma {:induction false} PrintsIff(v: Value)
    ensures ShowsTool(v) <==> Prints(v)
  {
    hide MentionsTool, Shown, Spells;
    match v
    case Text(text) => ShownIff(text);
    case List(items) =>
      forall i | 0 <= i < |items| ensures ShowsTool(items[i]) <==> Prints(items[i]) {
        PrintsIff(items[i]);
      }
    case Dict(entries) =>
      forall key | key in entries
        ensures MentionsTool(Shown(key)) <==> Spells(key, "tT\t")
        ensures ShowsTool(entries[key]) <==> Prints(entries[key])
      {
        ShownIff(key);
        PrintsIff(entries[key]);
      }
    case _ =>
  }

  // A payload is hidden exactly when its type spells the word.
  lemma ToolPayloadIff(payload: Value)
    ensures ToolPayload(payload) <==> SpellsTool(payload)
  {
    hide MentionsTool, Shown, ShowsTool, Prints, Spells;
    if payload.Dict? {
      var kind := Get(payload.entries, "type", Text(""));
      PrintsIff(kind);
      if kind.Text? {
        MentionsIff(kind.text);
      }
    }
    NothingSpelled();
  }

  lemma AddressedIff(payload: Value, metadata: Value, current: Option<string>, id: string)
    requires payload.Dict?
    ensures Addressed(payload, metadata, current, id) <==>
            id == Or(MessageId(payload, metadata), Or(current, DEFAULT_ID))
  {
    NamedIff(payload, id);
    NamedIff(metadata, id);
    NamedIff(Get(payload.entries, "kwargs", Null), id);
    hide Named;
  }

  lemma NamedIff(v: Value, id: string)
    ensures Named(v).None? <==> NamesNothing(v, "id") && NamesNothing(v, "message_id")
    ensures Named(v).Some? ==>
      Named(v).value != "" && (Named(v).value == id <==>
        if !NamesNothing(v, "id") then Names(v, "id", id) else Names(v, "message_id", id))
  {
  }

  // Every chunk does one or the other, and this is how it is read.
  lemma RouteIff(current: Option<string>, data: Value, id: string, text: string)
    ensures Route(current, data) == Some((id, text)) <==> Brings(current, data, id, text)
    ensures Route(current, data) == None <==> BringsNothing(data)
  {
    hide ToolPayload, SpellsTool, PayloadText, MessageId, ObjectSays, Addressed;
    var payload := Payload(data);
    ToolPayloadIff(payload);
    if payload.Dict? {
      ObjectSaysIff(payload, text);
      ObjectSaysIff(payload, "");
      AddressedIff(payload, Metadata(data), current, id);
    }
  }

  lemma RoutesAs(current: Option<string>, data: Value)
    ensures BringsNothing(data) ==> Route(current, data) == None
    ensures forall id, text :: Brings(current, data, id, text) ==> Route(current, data) == Some((id, text))
  {
    hide Brings, BringsNothing, Route;
    RouteIff(current, data, "", "");
    forall id, text ensures Brings(current, data, id, text) ==> Route(current, data) == Some((id, text)) {
      RouteIff(current, data, id, text);
    }
  }

  // What a chunk does to the buffers: the text it brings is merged into those of its message, and only there.
  lemma ChunkFollowed(track: Track, data: Value, id: string, text: string)
    ensures Brings(track.current, data, id, text) ==>
      Follow(track, data) == Track(track.buffers[id := Merge(Buffer(track.buffers, id), text)], Some(id))
    ensures BringsNothing(data) ==> Follow(track, data) == track
    ensures BringsNothing(data) || exists m, t :: Brings(track.current, data, m, t)
  {
    hide Brings, BringsNothing, Merge;
    RouteIff(track.current, data, id, text);
    match Route(track.current, data)
    case None =>
    case Some((m, t)) => RouteIff(track.current, data, m, t);
  }

  // A type that contains the word hides the payload, and so does a list or an object holding such a string; the agent's
  // own types do not.
  lemma ToolTypesHide(track: Track, payload: Value, before: string, word: string, after: string)
    requires payload.Dict? && "type" in payload.entries && word in ["tool", "Tool", "TOOL"]
    requires var kind, text := payload.entries["type"], before + word + after;
             || kind == Text(text)
             || (kind.List? && Text(text) in kind.items)
             || (kind.Dict? &&
                 (text in kind.entries || exists key :: key in kind.entries && kind.entries[key] == Text(text)))
    ensures Follow(track, payload) == track && Follow(track, List([payload])) == track
  {
    hide Follow, ToolPayload, Spells;
    WordSpelled(before, word, after);
    HeldPrinted(payload.entries["type"], before + word + after);
    ToolPayloadIff(payload);
    hide Prints;
    Hidden(track, payload);
  }

  lemma Hidden(track: Track, payload: Value)
    requires ToolPayload(payload)
    ensures Follow(track, payload) == track && Follow(track, List([payload])) == track
  {
    hide Follow, ToolType;
    ToolsIgnored(track, payload);
    ToolsIgnored(track, List([payload]));
  }

  lemma HeldPrinted(kind: Value, text: string)
    requires Spells(text, "tT\t")
    ensures kind.List? && Text(text) in kind.items ==> Prints(kind)
    ensures kind.Dict? &&
            (text in kind.entries || exists key :: key in kind.entries && kind.entries[key] == Text(text)) ==>
            Prints(kind)
  {
    hide Spells;
    assert Prints(Text(text));
  }

  lemma WordSpelled(before: string, word: string, after: string)
    requires word in ["tool", "Tool", "TOOL"]
    ensures Spells(before + word + after, "tT") && Spells(before + word + after, "tT\t")
  {
    var text, i := before + word + after, |before|;
    assert text[i] == word[0] && text[i + 1] == word[1] && text[i + 2] == word[2] && text[i + 3] == word[3];
    assert SpellsAt(text, "tT", i) && SpellsAt(text, "tT\t", i);
  }

  lemma AgentTypesPass(payload: Value)
    requires payload.Dict?
    requires "type" in payload.entries ==> payload.entries["type"] in [Text("ai"), Text("AIMessageChunk"), Text("")]
    ensures !ToolPayload(payload)
  {
    hide ToolPayload;
    ToolPayloadIff(payload);
  }

  // ---- The text of a finished answer ---------------------------------------------------

  // The parts joined for a list of content blocks; they need not all be strings.
  function Parts(blocks: seq<Value>): seq<Value> {
    if blocks == [] then []
    else
      var block := blocks[|blocks| - 1];
      Parts(blocks[..|blocks| - 1]) +
      (if block.Text? then [block]
       else if block.Dict? && Get(block.entries, "type", Null) == Text("text") then
         [Get(block.entries, "text", Text(""))]
       else [])
  }

  predicate AllText(parts: seq<Value>) {
    forall i :: 0 <= i < |parts| ==> parts[i].Text?
  }

  function TextOf(part: Value): string {
    if part.Text? then part.text else ""
  }

  function Texts(parts: seq<Value>): seq<string> {
    seq(|parts|, i requires 0 <= i < |parts| => TextOf(parts[i]))
  }

  function JoinTexts(parts: seq<Value>): string {
    Join(Texts(parts))
  }

  // What the backward scan does at one message.
  datatype Look = Skip | Stop | Say(text: string) | Crash

  function LookAtContent(content: Value): Look {
    if content.Text? then (if content.text != "" then Say(content.text) else Skip)
    else if !content.List? then Skip
    else if !AllText(Parts(content.items)) then Crash
    else if JoinTexts(Parts(content.items)) != "" then Say(JoinTexts(Parts(content.items)))
    else Skip
  }

  function LookAt(message: Value): Look {
    if !message.Dict? then Skip
    else
      var kind := Get(message.entries, "type", Null);
      var content := Get(message.entries, "content", Text(""));
      if kind == Text("human") then Stop
      else if kind == Text("tool") then
        (if Get(message.entries, "name", Null) == Text("ask_clarification") && content.Text? then LookAtContent(content)
         else Skip)
      else if kind == Text("ai") then LookAtContent(content)
      else Skip
  }

  // The first message from the end that is not skipped decides; None when the scan raises.
  predicate Decides(messages: seq<Value>, k: int) {
    0 <= k < |messages| && !LookAt(messages[k]).Skip? && forall j :: k < j < |messages| ==> LookAt(messages[j]).Skip?
  }

  function ScanText(messages: seq<Value>): Option<string> {
    if messages == [] then Some("")
    else
      match LookAt(messages[|messages| - 1])
      case Skip => ScanText(messages[..|messages| - 1])
      case Stop => Some("")
      case Say(text) => Some(text)
      case Crash => None
  }

  // The messages of a result; iterating over a string or an object meets no message. None: not iterable backwards.
  function Messages(result: Value): Option<seq<Value>> {
    match result
    case List(items) => Some(items)
    case Dict(entries) =>
      var messages := Get(entries, "messages", List([]));
      if messages.List? then Some(messages.items) else if messages.Text? || messages.Dict? then Some([]) else None
    case _ => Some([])
  }

  function ResponseText(result: Value): Option<string> {
    match Messages(result)
    case None => None
    case Some(messages) => ScanText(messages)
  }

  lemma {:induction false} ScanTextIff(messages: seq<Value>)
    ensures ScanText(messages) == None <==> exists k :: Decides(messages, k) && LookAt(messages[k]).Crash?
    ensures forall text :: text != "" ==>
      (ScanText(messages) == Some(text) <==> exists k :: Decides(messages, k) && LookAt(messages[k]) == Say(text))
  {
    hide LookAt;
    if messages != [] {
      var n := |messages| - 1;
      var front := messages[..n];
      ScanTextIff(front);
      if LookAt(messages[n]).Skip? {
        assert forall k :: Decides(messages, k) <==> Decides(front, k);
      } else {
        assert forall k :: Decides(messages, k) <==> k == n;
      }
    }
  }

  // Iterating over it raises.
  predicate Scalar(v: Value) {
    v.Null? || v.Bool? || v.Number?
  }

  predicate HasType(message: Value, kind: string) {
    message.Dict? && Get(message.entries, "type", Null) == Text(kind)
  }

  // A text block whose text is no string.
  predicate GarbledBlock(block: Value) {
    HasType(block, "text") && "text" in block.entries && !block.entries["text"].Text?
  }

  // A block that adds no character: an empty string, a text block without text, or a block of another kind.
  predicate WordlessBlock(block: Value) {
    && (block.Text? ==> block.text == "")
    && (HasType(block, "text") && "text" in block.entries ==> block.entries["text"] == Text(""))
  }

  predicate GarbledContent(content: Value) {
    content.List? && exists i :: 0 <= i < |content.items| && GarbledBlock(content.items[i])
  }

  // An AI message with a garbled block among its content blocks.
  predicate Garbled(message: Value) {
    HasType(message, "ai") && "content" in message.entries && GarbledContent(message.entries["content"])
  }

  predicate QuietContent(content: Value) {
    && (content.Text? ==> content.text == "")
    && (content.List? ==> forall i :: 0 <= i < |content.items| ==> WordlessBlock(content.items[i]))
  }

  // The tool message of a clarification request with text content.
  predicate AsksBack(message: Value) {
    && HasType(message, "tool") && Get(message.entries, "name", Null) == Text("ask_clarification")
    && "content" in message.entries && message.entries["content"].Text?
  }

  // A message that is not human, asks nothing back and, from the AI, says nothing.
  predicate Quiet(message: Value) {
    && !HasType(message, "human")
    && (HasType(message, "ai") && "content" in message.entries ==> QuietContent(message.entries["content"]))
    && (AsksBack(message) ==> message.entries["content"].text == "")
  }

  // The messages of a result that can be listed.
  function MessageList(result: Value): seq<Value> {
    match result
    case List(items) => items
    case Dict(entries) => if "messages" in entries && entries["messages"].List? then entries["messages"].items else []
    case _ => []
  }

  predicate NoMessages(result: Value) {
    result.Dict? && "messages" in result.entries && Scalar(result.entries["messages"])
  }

  // The messages cannot be iterated, or a garbled message is followed by quiet ones only.
  predicate Unjoinable(result: Value) {
    var messages := MessageList(result);
    || NoMessages(result)
    || exists k :: 0 <= k < |messages| && Garbled(messages[k]) && forall j :: k < j < |messages| ==> Quiet(messages[j])
  }

  lemma JoinMore(parts: seq<Value>, part: Value)
    ensures JoinTexts(parts + [part]) == "" <==> JoinTexts(parts) == "" && (part.Text? ==> part.text == "")
  {
    hide Join, Texts;
    TextsMore(parts, part);
    JoinEmpty(Texts(parts) + [TextOf(part)]);
    JoinEmpty(Texts(parts));
    EmptyMore(Texts(parts), TextOf(part));
  }

  lemma TextsMore(parts: seq<Value>, part: Value)
    ensures Texts(parts + [part]) == Texts(parts) + [TextOf(part)]
  {
    hide TextOf;
  }

  lemma EmptyMore(texts: seq<string>, text: string)
    ensures (forall i :: 0 <= i < |texts + [text]| ==> (texts + [text])[i] == "") <==>
            (forall i :: 0 <= i < |texts| ==> texts[i] == "") && text == ""
  {
    var more := texts + [text];
    assert more[|texts|] == text && forall i :: 0 <= i < |texts| ==> more[i] == texts[i];
  }

  lemma {:induction false} JoinEmpty(parts: seq<string>)
    ensures Join(parts) == "" <==> forall i :: 0 <= i < |parts| ==> parts[i] == ""
  {
    if parts != [] {
      JoinEmpty(parts[1..]);
      assert forall i :: 1 <= i < |parts| ==> parts[i] == parts[1..][i - 1];
    }
  }

  lemma {:induction false} PartsShape(blocks: seq<Value>)
    ensures AllText(Parts(blocks)) <==> forall i :: 0 <= i < |blocks| ==> !GarbledBlock(blocks[i])
    ensures (forall i :: 0 <= i < |blocks| ==> WordlessBlock(blocks[i])) ==> AllText(Parts(blocks))
    ensures AllText(Parts(blocks)) ==>
      (JoinTexts(Parts(blocks)) == "" <==> forall i :: 0 <= i < |blocks| ==> WordlessBlock(blocks[i]))
  {
    if blocks != [] {
      var front, block := blocks[..|blocks| - 1], blocks[|blocks| - 1];
      PartsShape(front);
      hide JoinTexts;
      assert forall i :: 0 <= i < |front| ==> blocks[i] == front[i];
      if block.Text? {
        JoinMore(Parts(front), block);
        AllTextMore(Parts(front), block);
      } else if HasType(block, "text") {
        JoinMore(Parts(front), Get(block.entries, "text", Text("")));
        AllTextMore(Parts(front), Get(block.entries, "text", Text("")));
      } else {
        assert Parts(blocks) == Parts(front);
      }
    }
  }

  lemma AllTextMore(parts: seq<Value>, part: Value)
    ensures AllText(parts + [part]) <==> AllText(parts) && part.Text?
  {
    var all := parts + [part];
    assert all[|parts|] == part;
    assert forall i :: 0 <= i < |parts| ==> all[i] == parts[i];
  }

  lemma ContentShape(content: Value)
    ensures LookAtContent(content).Skip? <==> QuietContent(content)
    ensures LookAtContent(content).Crash? <==> GarbledContent(content)
  {
    hide Parts, AllText, JoinTexts, GarbledBlock, WordlessBlock;
    if content.List? {
      PartsShape(content.items);
    }
  }

  lemma LookShape(message: Value)
    ensures LookAt(message).Skip? <==> Quiet(message)
    ensures LookAt(message).Crash? <==> Garbled(message)
  {
    hide LookAtContent, QuietContent, GarbledContent;
    if message.Dict? {
      ContentShape(Get(message.entries, "content", Text("")));
      TextShape(Get(message.entries, "content", Text("")));
    }
  }

  lemma TextShape(content: Value)
    ensures content.Text? ==> (LookAtContent(content).Skip? <==> content.text == "") && !LookAtContent(content).Crash?
    ensures content == Text("") ==> QuietContent(content) && !GarbledContent(content)
  {
  }

  // Reading the text of a result raises exactly when it has this shape.
  lemma UnjoinableIff(result: Value)
    ensures ResponseText(result).None? <==> Unjoinable(result)
  {
    hide LookAt, Quiet, Garbled;
    var messages := MessageList(result);
    assert !NoMessages(result) ==> Messages(result) == Some(messages);
    ScanTextIff(messages);
    forall i | 0 <= i < |messages|
      ensures LookAt(messages[i]).Skip? <==> Quiet(messages[i])
      ensures LookAt(messages[i]).Crash? <==> Garbled(messages[i])
    {
      LookShape(messages[i]);
    }
    assert forall k :: Decides(messages, k) && LookAt(messages[k]).Crash? <==>
      0 <= k < |messages| && Garbled(messages[k]) && forall j :: k < j < |messages| ==> Quiet(messages[j]);
  }

  // _extract_response_text
  method ExtractResponseText(result: Value) returns (text: Option<string>)
    ensures text == ResponseText(result)
  {
    hide LookAt, Messages;
    var messages := Messages(result);
    if messages.None? {
      return None;
    }
    var i := |messages.value|;
    assert messages.value[..i] == messages.value;
    while i > 0
      invariant 0 <= i <= |messages.value|
      invariant ScanText(messages.value[..i]) == ScanText(messages.value)
    {
      assert messages.value[..i][..i - 1] == messages.value[..i - 1];
      i := i - 1;
      match LookAt(messages.value[i]) {
        case Skip =>
        case Stop => return Some("");
        case Say(said) => return Some(said);
        case Crash => return None;
      }
    }
    return Some("");
  }

  // The text blocks of a finished message, and the strings among its blocks, one after the other; a block of another
  // kind, or a text block without text, adds nothing.
  predicate WordsOf(block: Value, text: string) {
    if block.Text? then text == block.text
    else if HasType(block, "text") && "text" in block.entries then block.entries["text"] == Text(text)
    else text == ""
  }

  ghost predicate WordsOfAll(blocks: seq<Value>, text: string) {
    if blocks == [] then text == ""
    else
      var n := |blocks| - 1;
      exists k :: 0 <= k <= |text| && WordsOfAll(blocks[..n], text[..k]) && WordsOf(blocks[n], text[k..])
  }

  ghost predicate Says(message: Value, text: string) {
    && text != "" && (HasType(message, "ai") || AsksBack(message)) && "content" in message.entries
    && var content := message.entries["content"];
       content == Text(text) || (HasType(message, "ai") && content.List? && WordsOfAll(content.items, text))
  }

  // The answer of a result: what its last message that is not quiet says; nothing if that is a human message, or there
  // is none.
  ghost predicate Answers(result: Value, text: string) {
    var messages := MessageList(result);
    && !NoMessages(result)
    && if text == "" then
         (forall j :: 0 <= j < |messages| ==> Quiet(messages[j])) ||
         exists k :: LastLoud(messages, k) && HasType(messages[k], "human")
       else exists k :: LastLoud(messages, k) && Says(messages[k], text)
  }

  ghost predicate LastLoud(messages: seq<Value>, k: int) {
    0 <= k < |messages| && !Quiet(messages[k]) && forall j :: k < j < |messages| ==> Quiet(messages[j])
  }

  lemma {:induction false} JoinConcat(parts: seq<string>, last: string)
    ensures Join(parts + [last]) == Join(parts) + last
  {
    if parts == [] {
      assert [last][1..] == [];
      assert [] + [last] == [last];
    } else {
      assert (parts + [last])[1..] == parts[1..] + [last];
      JoinConcat(parts[1..], last);
    }
  }

  // A block makes one part of its word, or none and has no word.
  lemma PartOf(blocks: seq<Value>, word: string)
    requires blocks != []
    ensures var front, block := Parts(blocks[..|blocks| - 1]), blocks[|blocks| - 1];
            if Parts(blocks) == front then WordsOf(block, word) <==> word == ""
            else exists part :: Parts(blocks) == front + [part] && (WordsOf(block, word) <==> part == Text(word))
  {
    var front, block := Parts(blocks[..|blocks| - 1]), blocks[|blocks| - 1];
    if block.Text? {
      assert Parts(blocks) == front + [block];
    } else if HasType(block, "text") {
      assert Parts(blocks) == front + [Get(block.entries, "text", Text(""))];
    } else {
      assert Parts(blocks) == front + [] == front;
    }
  }

  lemma PartJoins(parts: seq<Value>, part: Value)
    ensures AllText(parts + [part]) <==> AllText(parts) && part.Text?
    ensures JoinTexts(parts + [part]) == JoinTexts(parts) + TextOf(part)
  {
    hide TextOf, Join;
    TextsMore(parts, part);
    JoinConcat(Texts(parts), TextOf(part));
    var all := parts + [part];
    assert all[|parts|] == part && forall i :: 0 <= i < |parts| ==> all[i] == parts[i];
  }

  lemma {:induction false} WordsIff(blocks: seq<Value>, text: string)
    ensures WordsOfAll(blocks, text) <==> AllText(Parts(blocks)) && JoinTexts(Parts(blocks)) == text
  {
    if blocks == [] {
      NoWords();
    } else {
      hide WordsOf, JoinTexts, AllText, Parts;
      var n := |blocks| - 1;
      var front, block := blocks[..n], blocks[n];
      var said := JoinTexts(Parts(front));
      forall k | 0 <= k <= |text|
        ensures WordsOfAll(front, text[..k]) <==> AllText(Parts(front)) && text[..k] == said
      {
        WordsIff(front, text[..k]);
      }
      forall k | 0 <= k <= |text| && AllText(Parts(front)) && text[..k] == said
        ensures WordsOf(block, text[k..]) <==> AllText(Parts(blocks)) && JoinTexts(Parts(blocks)) == text
      {
        WordAdded(blocks, text[k..]);
        assert text == said + text[k..];
      }
      if AllText(Parts(blocks)) && JoinTexts(Parts(blocks)) == text {
        WordAdded(blocks, "");
        assert text[..|said|] == said;
      }
    }
  }

  lemma WordAdded(blocks: seq<Value>, word: string)
    requires blocks != []
    ensures var front, block := Parts(blocks[..|blocks| - 1]), blocks[|blocks| - 1];
            && (AllText(Parts(blocks)) ==> AllText(front) && JoinTexts(front) <= JoinTexts(Parts(blocks)))
            && (AllText(front) ==>
                  (WordsOf(block, word) <==>
                   AllText(Parts(blocks)) && JoinTexts(Parts(blocks)) == JoinTexts(front) + word))
  {
    hide WordsOf, JoinTexts, AllText, Parts;
    PartOf(blocks, word);
    var front, block := Parts(blocks[..|blocks| - 1]), blocks[|blocks| - 1];
    if Parts(blocks) == front {
      assert JoinTexts(front) + "" == JoinTexts(front);
    } else {
      var part :| Parts(blocks) == front + [part] && (WordsOf(block, word) <==> part == Text(word));
      PartJoins(front, part);
      assert (JoinTexts(front) + TextOf(part))[|JoinTexts(front)|..] == TextOf(part);
      assert (JoinTexts(front) + word)[|JoinTexts(front)|..] == word;
    }
  }

  lemma NoWords()
    ensures AllText(Parts([])) && JoinTexts(Parts([])) == ""
  {
  }

  lemma SaysIff(message: Value, text: string)
    requires text != ""
    ensures Says(message, text) <==> LookAt(message) == Say(text)
  {
    hide WordsOfAll, Parts, AllText, JoinTexts;
    if message.Dict? && "content" in message.entries && message.entries["content"].List? {
      WordsIff(message.entries["content"].items, text);
    }
  }

  lemma StopsIff(message: Value)
    ensures HasType(message, "human") <==> LookAt(message).Stop?
  {
  }

  // Nothing else is answered.
  lemma AnswersIff(result: Value, text: string)
    ensures ResponseText(result) == Some(text) <==> Answers(result, text)
  {
    hide LookAt, Quiet, Garbled, Says, HasType;
    var messages := MessageList(result);
    assert !NoMessages(result) ==> Messages(result) == Some(messages);
    forall i | 0 <= i < |messages|
      ensures LookAt(messages[i]).Skip? <==> Quiet(messages[i])
      ensures text != "" ==> (Says(messages[i], text) <==> LookAt(messages[i]) == Say(text))
      ensures HasType(messages[i], "human") <==> LookAt(messages[i]).Stop?
    {
      LookShape(messages[i]);
      StopsIff(messages[i]);
      if text != "" {
        SaysIff(messages[i], text);
      }
    }
    ScanTextIff(messages);
    assert forall k :: LastLoud(messages, k) <==> Decides(messages, k);
    if text == "" {
      ScanNothing(messages);
    }
  }

  lemma {:induction false} ScanNothing(messages: seq<Value>)
    ensures ScanText(messages) == Some("") <==>
            (forall j :: 0 <= j < |messages| ==> LookAt(messages[j]).Skip?) ||
              exists k :: Decides(messages, k) && LookAt(messages[k]).Stop?
  {
    hide LookAt;
    if messages != [] {
      var n := |messages| - 1;
      var front := messages[..n];
      NeverSaysNothing(messages[n]);
      ScanNothing(front);
      if LookAt(messages[n]).Skip? {
        assert forall k :: Decides(messages, k) <==> Decides(front, k);
      } else {
        assert forall k :: Decides(messages, k) <==> k == n;
        assert Decides(messages, n);
      }
    }
  }

  lemma NeverSaysNothing(message: Value)
    ensures LookAt(message) != Say("")
  {
    hide Parts, JoinTexts, AllText;
  }

  // ---- Artifacts -----------------------------------------------------------------------

  function Strings(paths: seq<Value>): seq<string> {
    if paths == [] then []
    else Strings(paths[..|paths| - 1]) + (if paths[|paths| - 1].Text? then [paths[|paths| - 1].text] else [])
  }

  // The paths presented by one tool call; None when its arguments are not an object.
  function CallPaths(call: Value): Option<seq<string>> {
    if !call.Dict? || Get(call.entries, "name", Null) != Text("present_files") then Some([])
    else
      var args := Get(call.entries, "args", Dict(map[]));
      if !args.Dict? then None
      else
        var paths := Get(args.entries, "filepaths", List([]));
        Some(if paths.List? then Strings(paths.items) else [])
  }

  function CallsPaths(calls: seq<Value>): Option<seq<string>> {
    if calls == [] then Some([])
    else
      var front, last := CallsPaths(calls[..|calls| - 1]), CallPaths(calls[|calls| - 1]);
      if front.None? || last.None? then None else Some(front.value + last.value)
  }

  function MessagePaths(message: Value): Option<seq<string>> {
    if !message.Dict? || Get(message.entries, "type", Null) != Text("ai") then Some([])
    else
      var calls := Get(message.entries, "tool_calls", List([]));
      if calls.List? then CallsPaths(calls.items) else if calls.Text? || calls.Dict? then Some([]) else None
  }

  predicate Human(message: Value) {
    message.Dict? && Get(message.entries, "type", Null) == Text("human")
  }

  function After(found: seq<string>, rest: Option<seq<string>>): Option<seq<string>> {
    if rest.None? then None else Some(found + rest.value)
  }

  function ScanPaths(messages: seq<Value>): Option<seq<string>> {
    if messages == [] || Human(messages[|messages| - 1]) then Some([])
    else
      var last, rest := MessagePaths(messages[|messages| - 1]), ScanPaths(messages[..|messages| - 1]);
      if last.None? then None else After(last.value, rest)
  }

  function Artifacts(result: Value): Option<seq<string>> {
    match Messages(result)
    case None => None
    case Some(messages) => ScanPaths(messages)
  }

  // Message k belongs to the answer to the last human message.
  predicate Current(messages: seq<Value>, k: int) {
    0 <= k < |messages| && forall j :: k <= j < |messages| ==> !HasType(messages[j], "human")
  }

  // A call of present_files whose arguments are no object.
  predicate BadCall(call: Value) {
    && call.Dict? && Get(call.entries, "name", Null) == Text("present_files")
    && "args" in call.entries && !call.entries["args"].Dict?
  }

  predicate CallPresents(call: Value, path: string) {
    && call.Dict? && Get(call.entries, "name", Null) == Text("present_files")
    && "args" in call.entries && call.entries["args"].Dict?
    && var args := call.entries["args"].entries;
       "filepaths" in args && args["filepaths"].List? && Text(path) in args["filepaths"].items
  }

  // An AI message whose tool calls cannot be iterated or hold a bad call.
  predicate BadCalls(message: Value) {
    && HasType(message, "ai") && "tool_calls" in message.entries
    && var calls := message.entries["tool_calls"];
       Scalar(calls) || (calls.List? && exists i :: 0 <= i < |calls.items| && BadCall(calls.items[i]))
  }

  predicate Presents(message: Value, path: string) {
    && HasType(message, "ai") && "tool_calls" in message.entries && message.entries["tool_calls"].List?
    && var calls := message.entries["tool_calls"].items;
       exists i :: 0 <= i < |calls| && CallPresents(calls[i], path)
  }

  lemma {:induction false} StringsAre(paths: seq<Value>, path: string)
    ensures path in Strings(paths) <==> Text(path) in paths
  {
    if paths != [] {
      StringsAre(paths[..|paths| - 1], path);
    }
  }

  lemma CallPathsIff(call: Value, path: string)
    ensures CallPaths(call).None? <==> BadCall(call)
    ensures CallPaths(call).Some? ==> (path in CallPaths(call).value <==> CallPresents(call, path))
  {
    if call.Dict? && "args" in call.entries && call.entries["args"].Dict? {
      var paths := Get(call.entries["args"].entries, "filepaths", List([]));
      if paths.List? {
        StringsAre(paths.items, path);
      }
    }
  }

  lemma {:induction false} CallsPathsIff(calls: seq<Value>, path: string)
    ensures CallsPaths(calls).None? <==> exists i :: 0 <= i < |calls| && BadCall(calls[i])
    ensures CallsPaths(calls).Some? ==>
      (path in CallsPaths(calls).value <==> exists i :: 0 <= i < |calls| && CallPresents(calls[i], path))
  {
    hide CallPaths, BadCall, CallPresents;
    if calls != [] {
      var front := calls[..|calls| - 1];
      CallsPathsIff(front, path);
      CallPathsIff(calls[|calls| - 1], path);
      assert forall i :: 0 <= i < |front| ==> calls[i] == front[i];
    }
  }

  lemma MessagePathsIff(message: Value, path: string)
    ensures MessagePaths(message).None? <==> BadCalls(message)
    ensures MessagePaths(message).Some? ==> (path in MessagePaths(message).value <==> Presents(message, path))
  {
    hide CallsPaths, BadCall, CallPresents;
    CallsPathsIff([], path);
    if HasType(message, "ai") && "tool_calls" in message.entries && message.entries["tool_calls"].List? {
      CallsPathsIff(message.entries["tool_calls"].items, path);
    }
  }

  // Reading the artifacts raises exactly when a message after the last human one has bad calls; otherwise a path is an
  // artifact exactly when such a message presents it.
  lemma {:induction false} ScanPathsIff(messages: seq<Value>, path: string)
    ensures ScanPaths(messages) == None <==> exists k :: Current(messages, k) && BadCalls(messages[k])
    ensures ScanPaths(messages).Some? ==>
      (path in ScanPaths(messages).value <==> exists k :: Current(messages, k) && Presents(messages[k], path))
  {
    hide MessagePaths, BadCalls, Presents;
    if messages != [] {
      var n := |messages| - 1;
      var front := messages[..n];
      if Human(messages[n]) {
        assert forall k :: !Current(messages, k);
      } else {
        ScanPathsIff(front, path);
        MessagePathsIff(messages[n], path);
        assert forall k :: Current(messages, k) <==> k == n || Current(front, k);
      }
    }
  }

  // The messages cannot be iterated, or one after the last human one has bad calls.
  predicate Unlistable(result: Value) {
    var messages := MessageList(result);
    NoMessages(result) || exists k :: 0 <= k < |messages| && Current(messages, k) && BadCalls(messages[k])
  }

  // Reading the artifacts of a result raises exactly when it has this shape.
  lemma UnlistableIff(result: Value)
    ensures Artifacts(result).None? <==> Unlistable(result)
  {
    hide BadCalls, Presents;
    var messages := MessageList(result);
    assert !NoMessages(result) ==> Messages(result) == Some(messages);
    ScanPathsIff(messages, "");
  }

  // A message presents some path after the last human one.
  ghost predicate Presented(result: Value, path: string) {
    var messages := MessageList(result);
    exists k :: Current(messages, k) && Presents(messages[k], path)
  }

  lemma ArtifactsIff(result: Value, path: string)
    requires !Unlistable(result)
    ensures Artifacts(result).Some? && (path in Artifacts(result).value <==> Presented(result, path))
  {
    hide Presents, BadCalls;
    UnlistableIff(result);
    assert Messages(result) == Some(MessageList(result));
    ScanPathsIff(MessageList(result), path);
  }

  // An AI message with calls that present these paths.
  function CallFor(paths: seq<string>): Value {
    var values := seq(|paths|, i requires 0 <= i < |paths| => Text(paths[i]));
    Dict(map["name" := Text("present_files"), "args" := Dict(map["filepaths" := List(values)])])
  }

  function MessageFor(calls: seq<seq<string>>): Value {
    Dict(map["type" := Text("ai"),
             "tool_calls" := List(seq(|calls|, i requires 0 <= i < |calls| => CallFor(calls[i])))])
  }

  // The lists one after the other.
  function Flat(lists: seq<seq<string>>): seq<string> {
    if lists == [] then [] else Flat(lists[..|lists| - 1]) + lists[|lists| - 1]
  }

  // The messages from the last to the first, the calls of each in their order.
  function Newest(answers: seq<seq<seq<string>>>): seq<string> {
    if answers == [] then [] else Flat(answers[|answers| - 1]) + Newest(answers[..|answers| - 1])
  }

  lemma {:induction false} StringsOf(paths: seq<string>)
    ensures Strings(seq(|paths|, i requires 0 <= i < |paths| => Text(paths[i]))) == paths
  {
    var values := seq(|paths|, i requires 0 <= i < |paths| => Text(paths[i]));
    if paths != [] {
      var front := paths[..|paths| - 1];
      StringsOf(front);
      assert values[..|paths| - 1] == seq(|front|, i requires 0 <= i < |front| => Text(front[i]));
      assert front + [paths[|paths| - 1]] == paths;
    }
  }

  lemma CallForPaths(paths: seq<string>)
    ensures CallPaths(CallFor(paths)) == Some(paths)
  {
    hide Strings;
    StringsOf(paths);
  }

  lemma {:induction false} CallsOf(calls: seq<seq<string>>)
    ensures CallsPaths(seq(|calls|, i requires 0 <= i < |calls| => CallFor(calls[i]))) == Some(Flat(calls))
  {
    hide CallFor, CallPaths;
    var values := seq(|calls|, i requires 0 <= i < |calls| => CallFor(calls[i]));
    if calls != [] {
      var front, last := calls[..|calls| - 1], calls[|calls| - 1];
      CallsOf(front);
      assert values[..|calls| - 1] == seq(|front|, i requires 0 <= i < |front| => CallFor(front[i]));
      assert values[|calls| - 1] == CallFor(last);
      CallForPaths(last);
    }
  }

  lemma MessageForPaths(calls: seq<seq<string>>)
    ensures MessagePaths(MessageFor(calls)) == Some(Flat(calls)) && !Human(MessageFor(calls))
  {
    hide CallsPaths, CallFor, Flat;
    CallsOf(calls);
  }

  lemma {:induction false} ScansInOrder(answers: seq<seq<seq<string>>>)
    ensures ScanPaths(seq(|answers|, i requires 0 <= i < |answers| => MessageFor(answers[i]))) == Some(Newest(answers))
  {
    hide MessagePaths, MessageFor, Human, Flat;
    var messages := seq(|answers|, i requires 0 <= i < |answers| => MessageFor(answers[i]));
    if answers != [] {
      var n := |answers| - 1;
      var front := answers[..n];
      ScansInOrder(front);
      assert messages[..n] == seq(|front|, i requires 0 <= i < |front| => MessageFor(front[i]));
      MessageForPaths(answers[n]);
      assert messages[n] == MessageFor(answers[n]);
    }
  }

  // The artifacts of the newest message come first, those of one message in the order of its calls.
  lemma ArtifactsInOrder(answers: seq<seq<seq<string>>>)
    ensures Artifacts(List(seq(|answers|, i requires 0 <= i < |answers| => MessageFor(answers[i])))) ==
            Some(Newest(answers))
  {
    hide ScanPaths, MessageFor;
    ScansInOrder(answers);
  }

  lemma AfterMore(found: seq<string>, paths: seq<string>, rest: Option<seq<string>>)
    ensures After(found, After(paths, rest)) == After(found + paths, rest)
  {
    if rest.Some? {
      assert found + (paths + rest.value) == found + paths + rest.value;
    }
  }

  // _extract_artifacts
  method ExtractArtifacts(result: Value) returns (artifacts: Option<seq<string>>)
    ensures artifacts == Artifacts(result)
  {
    var messages := Messages(result);
    if messages.None? {
      return None;
    }
    var found: seq<string> := [];
    var i := |messages.value|;
    assert messages.value[..i] == messages.value;
    assert ScanPaths(messages.value).Some? ==>
           found + ScanPaths(messages.value).value == ScanPaths(messages.value).value;
    while i > 0 && !Human(messages.value[i - 1])
      invariant 0 <= i <= |messages.value|
      invariant Artifacts(result) == After(found, ScanPaths(messages.value[..i]))
    {
      assert messages.value[..i][..i - 1] == messages.value[..i - 1];
      i := i - 1;
      var paths := MessagePaths(messages.value[i]);
      if paths.None? {
        return None;
      }
      AfterMore(found, paths.value, ScanPaths(messages.value[..i]));
      found := found + paths.value;
    }
    assert messages.value[..i] == [] || Human(messages.value[..i][i - 1]);
    assert found + [] == found;
    return Some(found);
  }

  // ---- Delivery ------------------------------------------------------------------------

  const OUTPUTS_PREFIX := "/mnt/user-data/outputs/"

  function Basename(path: string): string {
    if path == "" || path[|path| - 1] == '/' then "" else Basename(path[..|path| - 1]) + [path[|path| - 1]]
  }

  function Listed(paths: seq<string>): string {
    if paths == [] then ""
    else if |paths| == 1 then Basename(paths[0])
    else Listed(paths[..|paths| - 1]) + "\U{3001}" + Basename(paths[|paths| - 1])
  }

  // _format_artifact_text
  function ArtifactText(paths: seq<string>): string {
    (if |paths| == 1 then "Created File: \U{1F4CE} " else "Created Files: \U{1F4CE} ") + Listed(paths)
  }

  // A path is attached when it lies under the outputs directory and resolves to a file there.
  predicate Attachable(path: string, files: set<string>) {
    OUTPUTS_PREFIX <= path && path in files
  }

  function Attachments(artifacts: seq<string>, files: set<string>): seq<string> {
    if artifacts == [] then []
    else
      var last := artifacts[|artifacts| - 1];
      Attachments(artifacts[..|artifacts| - 1], files) + (if Attachable(last, files) then [last] else [])
  }

  function Unresolved(artifacts: seq<string>, files: set<string>): seq<string> {
    if artifacts == [] then []
    else
      var last := artifacts[|artifacts| - 1];
      Unresolved(artifacts[..|artifacts| - 1], files) + (if Attachable(last, files) then [] else [last])
  }

  function WithArtifacts(text: string, paths: seq<string>): string {
    if paths == [] then text else if text == "" then ArtifactText(paths) else text + "\n\n" + ArtifactText(paths)
  }

  // _prepare_artifact_delivery, the text
  function DeliveredText(text: string, artifacts: seq<string>, files: set<string>): string {
    WithArtifacts(WithArtifacts(text, Unresolved(artifacts, files)), Attachments(artifacts, files))
  }

  predicate Contains(text: string, part: string) {
    exists i :: 0 <= i <= |text| && part <= text[i..]
  }

  lemma ContainsMore(text: string, part: string, before: string, after: string)
    requires Contains(text, part)
    ensures Contains(before + text + after, part)
  {
    var i :| 0 <= i <= |text| && part <= text[i..];
    assert (before + text + after)[|before| + i..] == text[i..] + after;
  }

  lemma ContainsSelf(part: string)
    ensures Contains(part, part)
  {
    assert part <= part[0..];
  }

  lemma {:induction false} ListedNames(paths: seq<string>, k: nat)
    requires k < |paths|
    ensures Contains(Listed(paths), Basename(paths[k]))
  {
    hide Contains, Basename;
    var n := |paths| - 1;
    var name := Basename(paths[k]);
    ContainsSelf(name);
    if n > 0 {
      var front := Listed(paths[..n]) + "\U{3001}";
      if k == n {
        ContainsMore(name, name, front, "");
        assert front + name + "" == Listed(paths);
      } else {
        ListedNames(paths[..n], k);
        ContainsMore(Listed(paths[..n]), name, "", "\U{3001}" + Basename(paths[n]));
        assert "" + Listed(paths[..n]) + ("\U{3001}" + Basename(paths[n])) == Listed(paths);
      }
    }
  }

  lemma ArtifactTextNames(paths: seq<string>, k: nat)
    requires k < |paths|
    ensures Contains(ArtifactText(paths), Basename(paths[k]))
  {
    ListedNames(paths, k);
    var head := if |paths| == 1 then "Created File: \U{1F4CE} " else "Created Files: \U{1F4CE} ";
    ContainsMore(Listed(paths), Basename(paths[k]), head, "");
    assert head + Listed(paths) + "" == ArtifactText(paths);
  }

  lemma WithArtifactsNames(text: string, paths: seq<string>, k: nat)
    requires k < |paths|
    ensures Contains(WithArtifacts(text, paths), Basename(paths[k]))
  {
    ArtifactTextNames(paths, k);
    if text != "" {
      ContainsMore(ArtifactText(paths), Basename(paths[k]), text + "\n\n", "");
      assert text + "\n\n" + ArtifactText(paths) + "" == WithArtifacts(text, paths);
    }
  }

  lemma WithArtifactsKeeps(text: string, paths: seq<string>)
    ensures text <= WithArtifacts(text, paths)
    ensures forall part :: Contains(text, part) ==> Contains(WithArtifacts(text, paths), part)
  {
    hide ArtifactText, Contains;
    var all := WithArtifacts(text, paths);
    var rest := all[|text|..];
    assert "" + text + rest == all;
    forall part | Contains(text, part) ensures Contains(all, part) {
      ContainsMore(text, part, "", rest);
    }
  }

  lemma {:induction false} AttachedOrNot(artifacts: seq<string>, files: set<string>)
    ensures forall path :: path in artifacts <==>
            path in Attachments(artifacts, files) || path in Unresolved(artifacts, files)
    ensures forall path :: path in Attachments(artifacts, files) ==> Attachable(path, files)
  {
    if artifacts != [] {
      AttachedOrNot(artifacts[..|artifacts| - 1], files);
    }
  }

  // The delivered text starts with the answer and names every artifact, attached or not; only files under the outputs
  // directory are attached.
  lemma EveryArtifactNamed(text: string, artifacts: seq<string>, files: set<string>)
    ensures text <= DeliveredText(text, artifacts, files)
    ensures forall path :: path in artifacts ==> Contains(DeliveredText(text, artifacts, files), Basename(path))
    ensures forall path :: path in Attachments(artifacts, files) ==> path in artifacts && Attachable(path, files)
  {
    var attached, others := Attachments(artifacts, files), Unresolved(artifacts, files);
    var middle := WithArtifacts(text, others);
    AttachedOrNot(artifacts, files);
    WithArtifactsKeeps(text, others);
    WithArtifactsKeeps(middle, attached);
    hide WithArtifacts, Contains, Attachments, Unresolved;
    forall path | path in artifacts ensures Contains(DeliveredText(text, artifacts, files), Basename(path)) {
      if path in attached {
        var k: nat :| k < |attached| && attached[k] == path;
        WithArtifactsNames(middle, attached, k);
      } else {
        var k: nat :| k < |others| && others[k] == path;
        WithArtifactsNames(text, others, k);
      }
    }
  }

  // Attached are exactly the artifacts that are files under the outputs directory, in their order; the others are only
  // named.
  lemma {:induction false} AttachmentsAre(artifacts: seq<string>, files: set<string>, path: string)
    ensures path in Attachments(artifacts, files) <==>
            path in artifacts && "/mnt/user-data/outputs/" <= path && path in files
    ensures path in Unresolved(artifacts, files) <==>
            path in artifacts && !("/mnt/user-data/outputs/" <= path && path in files)
    ensures forall k :: 0 <= k <= |artifacts| ==>
            && Attachments(artifacts, files) == Attachments(artifacts[..k], files) + Attachments(artifacts[k..], files)
            && Unresolved(artifacts, files) == Unresolved(artifacts[..k], files) + Unresolved(artifacts[k..], files)
  {
    if artifacts != [] {
      AttachmentsAre(artifacts[..|artifacts| - 1], files, path);
    }
    forall k | 0 <= k <= |artifacts|
      ensures Attachments(artifacts, files) == Attachments(artifacts[..k], files) + Attachments(artifacts[k..], files)
      ensures Unresolved(artifacts, files) == Unresolved(artifacts[..k], files) + Unresolved(artifacts[k..], files)
    {
      AttachmentsSplit(artifacts, k, files);
    }
  }

  lemma {:induction false} AttachmentsSplit(artifacts: seq<string>, k: nat, files: set<string>)
    requires k <= |artifacts|
    ensures Attachments(artifacts, files) == Attachments(artifacts[..k], files) + Attachments(artifacts[k..], files)
    ensures Unresolved(artifacts, files) == Unresolved(artifacts[..k], files) + Unresolved(artifacts[k..], files)
    decreases |artifacts|
  {
    var n := |artifacts| - 1;
    if k <= n {
      AttachmentsSplit(artifacts[..n], k, files);
      assert artifacts[..n][..k] == artifacts[..k] && artifacts[..n][k..] == artifacts[k..][..n - k];
    } else {
      assert artifacts[..k] == artifacts && artifacts[k..] == [];
    }
  }

  // What follows the last slash.
  ghost predicate FileName(path: string, name: string) {
    '/' !in name && (path == name || exists dir :: path == dir + "/" + name)
  }

  // The names of the files with a comma of the language between them.
  ghost predicate FileNames(paths: seq<string>, names: string) {
    if paths == [] then names == ""
    else if |paths| == 1 then FileName(paths[0], names)
    else
      var n := |paths| - 1;
      exists k :: 0 <= k < |names| && FileNames(paths[..n], names[..k]) && names[k] == '\U{3001}' &&
        FileName(paths[n], names[k + 1..])
  }

  // The text with a line naming the files under it.
  ghost predicate Appended(text: string, paths: seq<string>, all: string) {
    if paths == [] then all == text
    else
      exists names :: FileNames(paths, names) &&
        all == (if text == "" then "" else text + "\n\n") +
               (if |paths| == 1 then "Created File: \U{1F4CE} " else "Created Files: \U{1F4CE} ") + names
  }

  lemma {:induction false} BasenameIs(path: string)
    ensures FileName(path, Basename(path))
  {
    if path != "" && path[|path| - 1] != '/' {
      var front, c := path[..|path| - 1], path[|path| - 1];
      BasenameIs(front);
      assert front + [c] == path;
      if front != Basename(front) {
        var dir :| front == dir + "/" + Basename(front);
        assert path == dir + "/" + (Basename(front) + [c]);
      }
    } else if path != "" {
      assert path == path[..|path| - 1] + "/" + "";
    }
  }

  lemma {:induction false} ListedIs(paths: seq<string>)
    ensures FileNames(paths, Listed(paths))
  {
    hide FileName, Basename;
    if |paths| == 1 {
      BasenameIs(paths[0]);
    } else if |paths| > 1 {
      var n := |paths| - 1;
      var before, name := Listed(paths[..n]), Basename(paths[n]);
      ListedIs(paths[..n]);
      BasenameIs(paths[n]);
      var names := Listed(paths);
      assert names == before + "\U{3001}" + name;
      assert names[..|before|] == before && names[|before| + 1..] == name;
    }
  }

  lemma AppendedIs(text: string, paths: seq<string>)
    ensures Appended(text, paths, WithArtifacts(text, paths))
  {
    hide FileNames, Listed;
    ListedIs(paths);
    if paths != [] {
      var head := if |paths| == 1 then "Created File: \U{1F4CE} " else "Created Files: \U{1F4CE} ";
      if text == "" {
        assert "" + head + Listed(paths) == head + Listed(paths);
      } else {
        assert text + "\n\n" + (head + Listed(paths)) == text + "\n\n" + head + Listed(paths);
      }
    }
  }

  // The delivered text is the answer, a line naming what is not attached, and a line naming what is.
  lemma DeliveredIs(text: string, artifacts: seq<string>, files: set<string>)
    ensures exists middle ::
              && Appended(text, Unresolved(artifacts, files), middle)
              && Appended(middle, Attachments(artifacts, files), DeliveredText(text, artifacts, files))
  {
    hide Appended, Unresolved, Attachments, WithArtifacts;
    AppendedIs(text, Unresolved(artifacts, files));
    AppendedIs(WithArtifacts(text, Unresolved(artifacts, files)), Attachments(artifacts, files));
  }

  // ---- The handler ---------------------------------------------------------------------

  const MIN_INTERVAL := 0.35
  const BUSY := "This conversation is already processing another request. Please wait for it to finish and try again."
  const FAILED := "An error occurred while processing your request. Please try again."
  const SILENT := "(No response from agent)"

  // clock: what the monotonic clock reads if this chunk asks for it.
  datatype Chunk = Chunk(event: string, data: Value, clock: real)

  // How the stream ended after the chunks it delivered. An exception or a cancellation that strikes while the last
  // update is being published is the same ending: the call has been made, and nothing read afterwards depends on it.
  datatype End = Finished | Raised(busy: bool) | Cancelled

  datatype Outbound = Outbound(text: string, artifacts: seq<string>, attachments: seq<string>, isFinal: bool)

  datatype Update = Update(text: string, at: real)

  // The handler's variables, the updates it has published, and whether reading a snapshot raised.
  datatype Handler = Handler(track: Track, latest: string, values: Option<Value>, updates: seq<Update>, raised: bool)

  function Start(): Handler {
    Handler(Track(map[], None), "", None, [], false)
  }

  function LastText(updates: seq<Update>): string {
    if updates == [] then "" else updates[|updates| - 1].text
  }

  function LastAt(updates: seq<Update>): real {
    if updates == [] then 0.0 else updates[|updates| - 1].at
  }

  predicate Snapshot(chunk: Chunk) {
    chunk.event == "values" && (chunk.data.Dict? || chunk.data.List?)
  }

  // The chunk's effect on the text so far.
  function Absorb(h: Handler, chunk: Chunk): Handler {
    if chunk.event == "messages-tuple" then
      var track := Follow(h.track, chunk.data);
      match Route(h.track.current, chunk.data)
      case None => h
      case Some((m, _)) => h.(track := track, latest := if track.buffers[m] != "" then track.buffers[m] else h.latest)
    else if Snapshot(chunk) then
      match ResponseText(chunk.data)
      case None => h.(values := Some(chunk.data), raised := true)
      case Some(text) => h.(values := Some(chunk.data), latest := if text != "" then text else h.latest)
    else h
  }

  predicate Due(h: Handler, clock: real) {
    && h.latest != "" && h.latest != LastText(h.updates)
    && (LastText(h.updates) == "" || clock - LastAt(h.updates) >= MIN_INTERVAL)
  }

  function Consume(h: Handler, chunk: Chunk): Handler {
    if h.raised then h
    else
      var next := Absorb(h, chunk);
      if !next.raised && Due(next, chunk.clock) then next.(updates := next.updates + [Update(next.latest, chunk.clock)])
      else next
  }

  function ConsumeAll(chunks: seq<Chunk>): Handler {
    if chunks == [] then Start() else Consume(ConsumeAll(chunks[..|chunks| - 1]), chunks[|chunks| - 1])
  }

  lemma ConsumeStep(chunks: seq<Chunk>, n: nat)
    requires n < |chunks|
    ensures ConsumeAll(chunks[..n + 1]) == Consume(ConsumeAll(chunks[..n]), chunks[n])
  {
    assert chunks[..n + 1][..n] == chunks[..n];
  }

  lemma ConsumeNothing()
    ensures ConsumeAll([]) == Start()
  {
  }

  // What the final message is read from.
  function Result(values: Option<Value>, latest: string): Value {
    match values
    case Some(data) => data
    case None => Dict(map["messages" := List([Dict(map["type" := Text("ai"), "content" := Text(latest)])])])
  }

  function Fallback(latest: string, end: End): string {
    match end
    case Raised(busy) => if busy then BUSY else FAILED
    case _ => if latest != "" then latest else SILENT
  }

  // The finally block; None: it raised before publishing.
  function Final(values: Option<Value>, latest: string, end: End, files: set<string>): Option<Outbound> {
    var text, artifacts := ResponseText(Result(values, latest)), Artifacts(Result(values, latest));
    if text.None? || artifacts.None? then None
    else
      var delivered := DeliveredText(text.value, artifacts.value, files);
      Some(Outbound(
        if delivered != "" then delivered else Fallback(latest, end),
        artifacts.value, Attachments(artifacts.value, files), true))
  }

  method Finish(values: Option<Value>, latest: string, end: End, files: set<string>) returns (final: Option<Outbound>)
    ensures final == Final(values, latest, end, files)
  {
    hide ResponseText, Artifacts, DeliveredText, Attachments;
    var result := Result(values, latest);
    var text := ExtractResponseText(result);
    if text.None? {
      return None;
    }
    var artifacts := ExtractArtifacts(result);
    if artifacts.None? {
      return None;
    }
    var response := DeliveredText(text.value, artifacts.value, files);
    if response == "" {
      match end {
        case Raised(busy) => response := if busy then BUSY else FAILED;
        case _ => response := if latest != "" then latest else SILENT;
      }
    }
    return Some(Outbound(response, artifacts.value, Attachments(artifacts.value, files), true));
  }

  function Updates(updates: seq<Update>): seq<Outbound> {
    seq(|updates|, i requires 0 <= i < |updates| => Outbound(updates[i].text, [], [], false))
  }

  // Everything put on the bus: the updates, then the final message.
  function Published(chunks: seq<Chunk>, end: End, files: set<string>): seq<Outbound> {
    var h := ConsumeAll(chunks);
    var final := Final(h.values, h.latest, end, files);
    Updates(h.updates) + (if final.Some? then [final.value] else [])
  }

  // The first half of the loop body: what a chunk does to the text so far.
  method ReadChunk(buffers: StreamBuffers, currentMessageId: Option<string>, latestText: string,
                   lastValues: Option<Value>, chunk: Chunk, ghost h: Handler)
    returns (id: Option<string>, latest: string, values: Option<Value>, raised: bool)
    requires h.track == Track(buffers.buffers, currentMessageId) && h.latest == latestText && h.values == lastValues &&
             !h.raised
    modifies buffers
    ensures Absorb(h, chunk) == Handler(Track(buffers.buffers, id), latest, values, h.updates, raised)
  {
    hide Route, Merge, ResponseText;
    id, latest, values, raised := currentMessageId, latestText, lastValues, false;
    if chunk.event == "messages-tuple" {
      var text;
      text, id := buffers.Accumulate(currentMessageId, chunk.data);
      if text.Some? && text.value != "" {
        latest := text.value;
      }
    } else if chunk.event == "values" && (chunk.data.Dict? || chunk.data.List?) {
      values := Some(chunk.data);
      var text := ExtractResponseText(chunk.data);
      if text.None? {
        raised := true;
        return;
      }
      if text.value != "" {
        latest := text.value;
      }
    }
  }

  // _handle_streaming_chat. Reading a snapshot raises an ordinary exception, which is remembered like one of the
  // stream.
  method HandleStreamingChat(chunks: seq<Chunk>, end: End, files: set<string>) returns (published: seq<Outbound>)
    ensures published == Published(chunks, end, files)
  {
    hide Absorb, Final, ConsumeAll;
    var lastValues: Option<Value> := None;
    var buffers := new StreamBuffers();
    var currentMessageId: Option<string> := None;
    var latestText, lastPublishedText := "", "";
    var lastPublishAt := 0.0;
    var streamError: End := end;
    published := [];
    ghost var h := Start();
    assert chunks[..0] == [];
    ConsumeNothing();
    var i := 0;
    while i < |chunks|
      invariant 0 <= i <= |chunks| && h == ConsumeAll(chunks[..i]) && !h.raised
      invariant h.track == Track(buffers.buffers, currentMessageId) && h.latest == latestText && h.values == lastValues
      invariant LastText(h.updates) == lastPublishedText && (h.updates != [] ==> LastAt(h.updates) == lastPublishAt)
      invariant (h.updates == [] <==> lastPublishedText == "") && published == Updates(h.updates) && streamError == end
    {
      var chunk := chunks[i];
      ConsumeStep(chunks, i);
      ghost var before := h;
      h := Consume(h, chunk);
      i := i + 1;
      var raised;
      currentMessageId, latestText, lastValues, raised :=
        ReadChunk(buffers, currentMessageId, latestText, lastValues, chunk, before);
      if raised {
        streamError := Raised(false);
        break;
      }
      if latestText == "" || latestText == lastPublishedText {
        continue;
      }
      if lastPublishedText != "" && chunk.clock - lastPublishAt < MIN_INTERVAL {
        continue;
      }
      published := published + [Outbound(latestText, [], [], false)];
      lastPublishedText, lastPublishAt := latestText, chunk.clock;
    }
    assert h == ConsumeAll(chunks) by {
      StaysRaised(chunks, i);
      assert chunks[..|chunks|] == chunks;
    }
    if h.raised {
      RaisedTwice(chunks, end, files);
      RaisedTwice(chunks, streamError, files);
    }
    assert published == published + [];
    var final := Finish(lastValues, latestText, streamError, files);
    if final.Some? {
      published := published + [final.value];
    }
  }

  // The snapshot that could not be read in the loop is read again for the final message.
  lemma {:induction false} RaisedTwice(chunks: seq<Chunk>, end: End, files: set<string>)
    requires ConsumeAll(chunks).raised
    ensures ConsumeAll(chunks).values.Some? && ResponseText(ConsumeAll(chunks).values.value) == None
    ensures Final(ConsumeAll(chunks).values, ConsumeAll(chunks).latest, end, files) == None
  {
    hide ResponseText, Route, Artifacts, DeliveredText;
    if chunks != [] && ConsumeAll(chunks[..|chunks| - 1]).raised {
      RaisedTwice(chunks[..|chunks| - 1], end, files);
    }
  }

  // Once reading a snapshot has raised, nothing more is consumed.
  lemma {:induction false} StaysRaised(chunks: seq<Chunk>, i: nat)
    requires i <= |chunks| && (ConsumeAll(chunks[..i]).raised || i == |chunks|)
    ensures ConsumeAll(chunks) == ConsumeAll(chunks[..i])
    decreases |chunks|
  {
    if i < |chunks| {
      var front := chunks[..|chunks| - 1];
      assert front[..i] == chunks[..i];
      StaysRaised(front, i);
    } else {
      assert chunks[..i] == chunks;
    }
  }

  // ---- What is published ---------------------------------------------------------------

  ghost predicate Paced(updates: seq<Update>) {
    && (forall i :: 0 <= i < |updates| ==> updates[i].text != "")
    && (forall i, j :: 0 <= i && j == i + 1 && j < |updates| ==>
          updates[j].text != updates[i].text && updates[j].at - updates[i].at >= MIN_INTERVAL)
  }

  lemma AbsorbKeeps(h: Handler, chunk: Chunk)
    requires !h.raised
    ensures Absorb(h, chunk).updates == h.updates
    ensures Absorb(h, chunk).raised <==> Snapshot(chunk) && ResponseText(chunk.data) == None
    ensures Absorb(h, chunk).values == if Snapshot(chunk) then Some(chunk.data) else h.values
    ensures h.latest != "" ==> Absorb(h, chunk).latest != ""
  {
  }

  lemma PacedMore(updates: seq<Update>, update: Update)
    requires Paced(updates) && update.text != ""
    requires updates != [] ==> update.text != LastText(updates) && update.at - LastAt(updates) >= MIN_INTERVAL
    ensures Paced(updates + [update])
  {
  }

  lemma {:induction false} UpdatesPaced(chunks: seq<Chunk>)
    ensures Paced(ConsumeAll(chunks).updates)
  {
    if chunks != [] {
      hide ResponseText, Absorb, Paced;
      var h, chunk := ConsumeAll(chunks[..|chunks| - 1]), chunks[|chunks| - 1];
      UpdatesPaced(chunks[..|chunks| - 1]);
      if !h.raised {
        AbsorbKeeps(h, chunk);
        var next := Absorb(h, chunk);
        if !next.raised && Due(next, chunk.clock) {
          NoEmptyUpdate(h.updates);
          PacedMore(h.updates, Update(next.latest, chunk.clock));
        }
      }
    }
  }

  lemma NoEmptyUpdate(updates: seq<Update>)
    requires Paced(updates)
    ensures updates != [] ==> LastText(updates) != ""
  {
  }

  lemma {:induction false} PacedSpan(updates: seq<Update>, i: nat, j: nat)
    requires Paced(updates) && i <= j < |updates|
    ensures updates[j].at - updates[i].at >= MIN_INTERVAL * (j - i) as real
    decreases j
  {
    if i < j {
      PacedSpan(updates, i, j - 1);
      assert (j - i) as real == (j - 1 - i) as real + 1.0;
    }
  }

  // Updates are nonempty, consecutive ones differ, and n of them span at least n - 1 intervals, whatever the clock
  // does.
  lemma UpdatesThrottled(chunks: seq<Chunk>)
    ensures Paced(ConsumeAll(chunks).updates)
    ensures var u := ConsumeAll(chunks).updates;
            forall i :: 0 < i < |u| ==> u[i].at - u[i - 1].at >= 0.35 && u[i].text != u[i - 1].text
    ensures var u := ConsumeAll(chunks).updates;
            u != [] ==> u[|u| - 1].at - u[0].at >= MIN_INTERVAL * (|u| - 1) as real
  {
    hide ConsumeAll;
    UpdatesPaced(chunks);
    var u := ConsumeAll(chunks).updates;
    if u != [] {
      PacedSpan(u, 0, |u| - 1);
    }
    PacedSteps(u);
  }

  lemma PacedSteps(updates: seq<Update>)
    requires Paced(updates)
    ensures forall i :: 0 < i < |updates| ==>
              updates[i].at - updates[i - 1].at >= 0.35 && updates[i].text != updates[i - 1].text
  {
  }

  // After every chunk the last update shows the latest text, unless the throttle has just held it back.
  lemma {:induction false} NeverStale(chunks: seq<Chunk>)
    requires chunks != [] && !ConsumeAll(chunks).raised
    ensures var h := ConsumeAll(chunks);
            h.latest == LastText(h.updates) ||
              (h.updates != [] && chunks[|chunks| - 1].clock - LastAt(h.updates) < 0.35)
  {
    hide ResponseText, Absorb, Paced, LastAt;
    var h, chunk := ConsumeAll(chunks[..|chunks| - 1]), chunks[|chunks| - 1];
    LatestOnlyReplaced(chunks[..|chunks| - 1]);
    AbsorbKeeps(h, chunk);
  }

  // The latest text is what the last chunk with something to show has made it: a message's text so far, or a snapshot's
  // answer.
  lemma LatestIs(h: Handler, chunk: Chunk, id: string, text: string)
    requires !h.raised
    ensures chunk.event == "messages-tuple" && BringsNothing(chunk.data) ==> Absorb(h, chunk) == h
    ensures chunk.event == "messages-tuple" && Brings(h.track.current, chunk.data, id, text) ==>
      var merged := Merge(Buffer(h.track.buffers, id), text);
      && Absorb(h, chunk).track == Track(h.track.buffers[id := merged], Some(id))
      && Absorb(h, chunk).latest == if merged != "" then merged else h.latest
    ensures chunk.event == "values" && (chunk.data.Dict? || chunk.data.List?) && Answers(chunk.data, text) ==>
      && Absorb(h, chunk).latest == (if text != "" then text else h.latest)
      && Absorb(h, chunk).values == Some(chunk.data)
    ensures chunk.event != "messages-tuple" && chunk.event != "values" ==> Absorb(h, chunk) == h
  {
    hide Route, Brings, BringsNothing, Answers, ResponseText, Merge;
    RouteIff(h.track.current, chunk.data, id, text);
    AnswersIff(chunk.data, text);
  }

  // There is text as soon as anything was published.
  lemma {:induction false} LatestOnlyReplaced(chunks: seq<Chunk>)
    ensures ConsumeAll(chunks).latest == "" ==> ConsumeAll(chunks).updates == []
  {
    hide ResponseText, Absorb, LastAt, LastText;
    if chunks != [] {
      var h := ConsumeAll(chunks[..|chunks| - 1]);
      LatestOnlyReplaced(chunks[..|chunks| - 1]);
      if !h.raised {
        AbsorbKeeps(h, chunks[|chunks| - 1]);
      }
    }
  }

  // ---- The final message ---------------------------------------------------------------

  // The snapshots among the chunks, in order.
  function Snapshots(chunks: seq<Chunk>): seq<Value> {
    if chunks == [] then []
    else
      var last := chunks[|chunks| - 1];
      Snapshots(chunks[..|chunks| - 1]) + (if Snapshot(last) then [last.data] else [])
  }

  predicate Readable(snapshots: seq<Value>) {
    forall i :: 0 <= i < |snapshots| ==> !Unjoinable(snapshots[i])
  }

  lemma {:induction false} RaisedIff(chunks: seq<Chunk>)
    ensures ConsumeAll(chunks).raised <==> !Readable(Snapshots(chunks))
    ensures !ConsumeAll(chunks).raised ==>
      ConsumeAll(chunks).values == (var all := Snapshots(chunks); if all == [] then None else Some(all[|all| - 1]))
  {
    hide ResponseText, Absorb, Snapshot, Unjoinable;
    if chunks != [] {
      var front, last := chunks[..|chunks| - 1], chunks[|chunks| - 1];
      RaisedIff(front);
      UnjoinableIff(last.data);
      if !ConsumeAll(front).raised {
        AbsorbKeeps(ConsumeAll(front), last);
      }
      var before, all := Snapshots(front), Snapshots(chunks);
      assert forall i :: 0 <= i < |before| ==> all[i] == before[i];
      assert Snapshot(last) ==> all[|all| - 1] == last.data;
    }
  }

  // A stream without snapshots always has a text to finish with and no artifacts.
  lemma NoSnapshotResult(latest: string)
    ensures ResponseText(Result(None, latest)) == Some(latest) && Artifacts(Result(None, latest)) == Some([])
  {
    var message := Dict(map["type" := Text("ai"), "content" := Text(latest)]);
    assert [message][..0] == [];
    assert ScanText([message]) == Some(latest);
    assert MessagePaths(message) == Some([]);
    var none: seq<string> := [];
    assert ScanPaths([message]) == After(none, ScanPaths([message][..0])) == Some(none + none);
    assert none + none == none;
    assert Messages(Result(None, latest)) == Some([message]);
  }

  // The final message is published exactly when no snapshot the stream delivered is unjoinable and the last of them is
  // not unlistable.
  lemma FinalIff(chunks: seq<Chunk>, end: End, files: set<string>)
    ensures var h := ConsumeAll(chunks);
            var all := Snapshots(chunks);
            Final(h.values, h.latest, end, files).Some? <==>
            (forall i :: 0 <= i < |all| ==> !Unjoinable(all[i])) && (all != [] ==> !Unlistable(all[|all| - 1]))
  {
    hide ResponseText, Artifacts, ConsumeAll, DeliveredText, Attachments, Unjoinable, Unlistable;
    var h := ConsumeAll(chunks);
    var all := Snapshots(chunks);
    RaisedIff(chunks);
    NoSnapshotResult(h.latest);
    if all != [] {
      UnjoinableIff(all[|all| - 1]);
      UnlistableIff(all[|all| - 1]);
    }
    if h.raised {
      RaisedTwice(chunks, end, files);
    }
  }

  // Whatever the chunks, clocks and failures: the final message, if published, is the last one, the only final one, and
  // not empty; all others are updates.
  lemma OneFinalLast(chunks: seq<Chunk>, end: End, files: set<string>)
    ensures var p := Published(chunks, end, files);
            var n := |ConsumeAll(chunks).updates|;
            && n <= |p| <= n + 1
            && (forall i :: 0 <= i < |p| ==> (p[i].isFinal <==> i == n))
            && (forall i :: 0 <= i < n ==> p[i].text == ConsumeAll(chunks).updates[i].text)
            && (|p| == n + 1 ==> p[n].text != "")
  {
    hide ResponseText, Artifacts, ConsumeAll, DeliveredText, Attachments;
  }

  lemma {:induction false} LatestWithoutSnapshots(chunks: seq<Chunk>)
    requires Snapshots(chunks) == []
    ensures ConsumeAll(chunks).values == None && !ConsumeAll(chunks).raised
  {
    RaisedIff(chunks);
  }

  lemma LastTextAlone(latest: string, end: End, files: set<string>)
    requires latest != ""
    ensures Final(None, latest, end, files) == Some(Outbound(latest, [], [], true))
  {
    NoSnapshotResult(latest);
    hide ResponseText, Artifacts;
  }

  // If text was accumulated and no snapshot arrived, the final message is that text, however the stream ended.
  lemma LastTextIsFinal(chunks: seq<Chunk>, end: End, files: set<string>)
    requires Snapshots(chunks) == [] && ConsumeAll(chunks).latest != ""
    ensures Final(ConsumeAll(chunks).values, ConsumeAll(chunks).latest, end, files) ==
            Some(Outbound(ConsumeAll(chunks).latest, [], [], true))
  {
    LatestWithoutSnapshots(chunks);
    LastTextAlone(ConsumeAll(chunks).latest, end, files);
  }

  // When there is nothing to show: a rejected stream says so, a failed one says so, and otherwise the text streamed
  // before an empty snapshot is shown, if there is any.
  lemma NothingToShow(values: Option<Value>, latest: string, end: End, files: set<string>)
    requires ResponseText(Result(values, latest)) == Some("") && Artifacts(Result(values, latest)) == Some([])
    ensures var final := Final(values, latest, end, files);
            && final.Some?
            && (end == Raised(true) ==>
                final.value.text ==
                "This conversation is already processing another request. Please wait for it to finish and try again.")
            && (end == Raised(false) ==>
                  final.value.text == "An error occurred while processing your request. Please try again.")
            && (!end.Raised? ==> final.value.text == if latest == "" then "(No response from agent)" else latest)
  {
    hide ResponseText, Artifacts;
  }

  // With a readable last snapshot the final message starts with the snapshot's answer, carries and names exactly the
  // files its messages present, and attaches those that are files under the outputs directory.
  lemma SnapshotIsFinal(chunks: seq<Chunk>, end: End, files: set<string>, text: string)
    requires var all := Snapshots(chunks);
             all != [] && Readable(all) && Answers(all[|all| - 1], text) && !Unlistable(all[|all| - 1])
    ensures var final := Final(ConsumeAll(chunks).values, ConsumeAll(chunks).latest, end, files);
            var snapshot := Snapshots(chunks)[|Snapshots(chunks)| - 1];
            && final.Some? && final.value.isFinal && text <= final.value.text
            && (forall path :: path in final.value.artifacts <==> Presented(snapshot, path))
            && (forall path :: path in final.value.attachments <==>
                Presented(snapshot, path) && "/mnt/user-data/outputs/" <= path && path in files)
            && (forall path :: Presented(snapshot, path) ==> Contains(final.value.text, Basename(path)))
            && (text != "" && final.value.artifacts == [] ==> final.value.text == text)
  {
    hide ResponseText, Artifacts, ConsumeAll, Attachments, Contains, Answers, Presented, Unlistable, Readable,
         Unresolved, WithArtifacts;
    RaisedIff(chunks);
    var snapshot := Snapshots(chunks)[|Snapshots(chunks)| - 1];
    AnswersIff(snapshot, text);
    ArtifactsIff(snapshot, "");
    var artifacts := Artifacts(snapshot).value;
    EveryArtifactNamed(text, artifacts, files);
    NamesSomething(text, artifacts, files);
    forall path
      ensures path in artifacts <==> Presented(snapshot, path)
      ensures path in Attachments(artifacts, files) <==>
              path in artifacts && "/mnt/user-data/outputs/" <= path && path in files
    {
      ArtifactsIff(snapshot, path);
      AttachmentsAre(artifacts, files, path);
    }
    if artifacts == [] {
      NothingAppended(text, files);
    }
  }

  lemma NothingAppended(text: string, files: set<string>)
    ensures DeliveredText(text, [], files) == text
  {
  }

  lemma NamesSomething(text: string, artifacts: seq<string>, files: set<string>)
    ensures DeliveredText(text, artifacts, files) == "" ==> artifacts == []
  {
    hide Attachments;
    AttachedOrNot(artifacts, files);
    if artifacts != [] {
      assert artifacts[0] in artifacts;
    }
  }

  // A snapshot whose last AI message holds a text block without text ends the stream and leaves no final message.
  lemma NoFinalMessage(end: End, files: set<string>, clock: real)
    ensures var block := Dict(map["type" := Text("text"), "text" := Null]);
            var message := Dict(map["type" := Text("ai"), "content" := List([block])]);
            Published([Chunk("values", List([message]), clock)], end, files) == []
  {
    hide ResponseText, Artifacts, DeliveredText, Attachments;
    var block := Dict(map["type" := Text("text"), "text" := Null]);
    var message := Dict(map["type" := Text("ai"), "content" := List([block])]);
    var chunks := [Chunk("values", List([message]), clock)];
    UnreadableSnapshot();
    assert chunks[..0] == [] && ConsumeAll(chunks[..0]) == Start();
    assert ConsumeAll(chunks) == Consume(Start(), chunks[0]);
  }

  lemma UnreadableSnapshot()
    ensures var block := Dict(map["type" := Text("text"), "text" := Null]);
            ResponseText(List([Dict(map["type" := Text("ai"), "content" := List([block])])])) == None
  {
  }

  lemma OneChunk(chunk: Chunk)
    ensures ConsumeAll([chunk]) == Consume(Start(), chunk)
  {
    assert [chunk][..0] == [] && ConsumeAll([chunk][..0]) == Start();
  }

  // A snapshot with a good text and a call of present_files without arguments: its text is shown as an update, and no
  // final message follows.
  lemma NoFinalAfterBadCall(end: End, files: set<string>, clock: real)
    ensures var call := Dict(map["name" := Text("present_files"), "args" := Null]);
            var message := Dict(map["type" := Text("ai"), "content" := Text("done"), "tool_calls" := List([call])]);
            Published([Chunk("values", List([message]), clock)], end, files) == [Outbound("done", [], [], false)]
  {
    hide ResponseText, Artifacts, DeliveredText, Attachments;
    var call := Dict(map["name" := Text("present_files"), "args" := Null]);
    var message := Dict(map["type" := Text("ai"), "content" := Text("done"), "tool_calls" := List([call])]);
    var chunk := Chunk("values", List([message]), clock);
    BadCallSnapshot();
    OneChunk(chunk);
    var h := ConsumeAll([chunk]);
    assert h.updates == [Update("done", clock)] && h.values == Some(List([message]));
    assert Final(h.values, h.latest, end, files) == None;
  }

  lemma BadCallSnapshot()
    ensures var call := Dict(map["name" := Text("present_files"), "args" := Null]);
            var message := Dict(map["type" := Text("ai"), "content" := Text("done"), "tool_calls" := List([call])]);
            ResponseText(List([message])) == Some("done") && Artifacts(List([message])) == None
  {
    var call := Dict(map["name" := Text("present_files"), "args" := Null]);
    var message := Dict(map["type" := Text("ai"), "content" := Text("done"), "tool_calls" := List([call])]);
    assert LookAt(message) == Say("done");
    assert BadCall([call][0]) && BadCalls(message);
    assert Current([message], 0);
    UnlistableIff(List([message]));
  }

  // ---- From the agent's text to the user's ---------------------------------------------

  // A chunk that leaves the text so far as it is: an ignored payload, an unknown event, or a snapshot that shows no
  // text or the text so far.
  ghost predicate Harmless(h: Handler, chunk: Chunk) {
    if chunk.event == "messages-tuple" then BringsNothing(chunk.data)
    else Snapshot(chunk) ==> Answers(chunk.data, "") || Answers(chunk.data, h.latest)
  }

  // After the first b chunks, which are not about message id, every chunk is the next of its pieces or harmless.
  ghost predicate Tells(chunks: seq<Chunk>, b: nat, id: string, pieces: seq<Piece>)
    requires b <= |chunks|
  {
    if |chunks| == b then
      pieces == [] && !ConsumeAll(chunks).raised && Buffer(ConsumeAll(chunks).track.buffers, id) == ""
    else
      var front, last := chunks[..|chunks| - 1], chunks[|chunks| - 1];
      var h := ConsumeAll(front);
      || (pieces != [] && TellsNext(h, last, id, pieces) && Tells(front, b, id, pieces[..|pieces| - 1]))
      || (Harmless(h, last) && Tells(front, b, id, pieces))
  }

  ghost predicate TellsNext(h: Handler, chunk: Chunk, id: string, pieces: seq<Piece>)
    requires pieces != []
  {
    chunk.event == "messages-tuple" && Brings(h.track.current, chunk.data, id, Sent(pieces, |pieces| - 1))
  }

  lemma PieceMerges(pieces: seq<Piece>)
    requires pieces != [] && !Confusing(pieces)
    ensures Merge(TrueText(pieces[..|pieces| - 1]), Sent(pieces, |pieces| - 1)) == TrueText(pieces)
    ensures !Confusing(pieces[..|pieces| - 1])
  {
    hide Merge, Ambiguous, TrueText, Confusing;
    var n := |pieces| - 1;
    var front := pieces[..n];
    TrueTextStep(pieces);
    ConfusingFront(pieces);
    DeltaMerges(TrueText(front), pieces[n].added);
    SnapshotMerges(TrueText(front), TrueText(pieces));
    assert pieces[..n + 1] == pieces;
  }

  lemma TrueTextStep(pieces: seq<Piece>)
    requires pieces != []
    ensures TrueText(pieces) == TrueText(pieces[..|pieces| - 1]) + pieces[|pieces| - 1].added
  {
  }

  lemma ConfusingFront(pieces: seq<Piece>)
    requires pieces != [] && !Confusing(pieces)
    ensures var front, last := pieces[..|pieces| - 1], pieces[|pieces| - 1];
            !Confusing(front) && (!last.whole ==> !Ambiguous(TrueText(front), last.added))
  {
    hide Ambiguous, TrueText;
    var front := pieces[..|pieces| - 1];
    forall i | 0 <= i < |front| ensures !(!front[i].whole && Ambiguous(TrueText(front[..i]), front[i].added)) {
      assert front[..i] == pieces[..i];
    }
  }

  // What holds while a message is told: the handler has its text so far, or, before it has any, what it had.
  ghost predicate Telling(h: Handler, preface: Handler, id: string, text: string) {
    && !h.raised && Buffer(h.track.buffers, id) == text && preface.updates <= h.updates
    && h.latest == (if text == "" then preface.latest else text)
    && forall i :: |preface.updates| <= i < |h.updates| ==>
       h.updates[i].text <= text || h.updates[i].text == preface.latest
  }

  lemma TellingNext(h: Handler, preface: Handler, chunk: Chunk, id: string, text: string, sent: string)
    requires Telling(h, preface, id, text)
    requires chunk.event == "messages-tuple" && Brings(h.track.current, chunk.data, id, sent)
    ensures Telling(Consume(h, chunk), preface, id, Merge(text, sent))
  {
    MergeOnlyGrows(text, sent);
    RouteIff(h.track.current, chunk.data, id, sent);
    hide Route, Merge, ResponseText, Brings;
  }

  lemma TellingOn(h: Handler, preface: Handler, chunk: Chunk, id: string, text: string)
    requires Telling(h, preface, id, text) && Harmless(h, chunk)
    ensures Telling(Consume(h, chunk), preface, id, text)
  {
    RouteIff(h.track.current, chunk.data, id, text);
    AnswersIff(chunk.data, "");
    AnswersIff(chunk.data, h.latest);
    hide Route, Merge, ResponseText, BringsNothing, Answers;
  }

  lemma {:induction false} StreamsTrueText(chunks: seq<Chunk>, b: nat, id: string, pieces: seq<Piece>)
    requires b <= |chunks| && Tells(chunks, b, id, pieces) && !Confusing(pieces)
    ensures Telling(ConsumeAll(chunks), ConsumeAll(chunks[..b]), id, TrueText(pieces))
    decreases |chunks|
  {
    hide Telling, Consume, Confusing, Route, Harmless, Merge, Buffer;
    if |chunks| == b {
      TellingStarts(chunks, id);
      assert chunks[..b] == chunks;
    } else {
      var front, last := chunks[..|chunks| - 1], chunks[|chunks| - 1];
      var h := ConsumeAll(front);
      assert front[..b] == chunks[..b];
      if pieces != [] && TellsNext(h, last, id, pieces) && Tells(front, b, id, pieces[..|pieces| - 1]) {
        PieceMerges(pieces);
        StreamsTrueText(front, b, id, pieces[..|pieces| - 1]);
        TellingNext(h, ConsumeAll(chunks[..b]), last, id, TrueText(pieces[..|pieces| - 1]), Sent(pieces, |pieces| - 1));
      } else {
        StreamsTrueText(front, b, id, pieces);
        TellingOn(h, ConsumeAll(chunks[..b]), last, id, TrueText(pieces));
      }
    }
  }

  lemma TellingStarts(chunks: seq<Chunk>, id: string)
    requires !ConsumeAll(chunks).raised && Buffer(ConsumeAll(chunks).track.buffers, id) == ""
    ensures Telling(ConsumeAll(chunks), ConsumeAll(chunks), id, TrueText([]))
  {
  }

  // The last snapshot shows this text, or, when the stream did not fail, nothing at all.
  ghost predicate Agrees(snapshot: Value, text: string, end: End) {
    && !Unlistable(snapshot)
    && (Answers(snapshot, text) ||
        (Answers(snapshot, "") && (forall path :: !Presented(snapshot, path)) && !end.Raised?))
  }

  lemma NothingPresented(result: Value)
    requires !Unlistable(result) && forall path :: !Presented(result, path)
    ensures Artifacts(result) == Some([])
  {
    hide Presented, Unlistable, Artifacts;
    ArtifactsIff(result, "");
    var artifacts := Artifacts(result).value;
    if artifacts != [] {
      ArtifactsIff(result, artifacts[0]);
    }
  }

  lemma AgreedFinal(values: Option<Value>, text: string, end: End, files: set<string>)
    requires text != "" && (values.Some? ==> Agrees(values.value, text, end))
    ensures var final := Final(values, text, end, files);
            && final.Some? && text <= final.value.text && final.value.isFinal
            && (final.value.artifacts == [] ==> final.value == Outbound(text, [], [], true))
  {
    hide ResponseText, Artifacts, Unlistable, Answers, Presented;
    if values.None? {
      LastTextAlone(text, end, files);
    } else {
      UnlistableIff(values.value);
      AnswersIff(values.value, text);
      AnswersIff(values.value, "");
      if Answers(values.value, text) {
        EveryArtifactNamed(text, Artifacts(values.value).value, files);
      } else {
        NothingPresented(values.value);
        NothingToShow(values, text, end, files);
      }
    }
  }

  // A message streamed as any mix of deltas and snapshots, none of the deltas ambiguous, among ignored chunks and state
  // snapshots that agree, and after any others, is delivered whole by the final message; every update from its first
  // chunk on shows a beginning of it, or still the text before it.
  lemma MessageDelivered(chunks: seq<Chunk>, b: nat, id: string, pieces: seq<Piece>, end: End, files: set<string>)
    requires b <= |chunks| && Tells(chunks, b, id, pieces) && !Confusing(pieces) && TrueText(pieces) != ""
    requires var all := Snapshots(chunks);
             all != [] ==> Agrees(all[|all| - 1], TrueText(pieces), end)
    ensures var p := Published(chunks, end, files);
            var preface := ConsumeAll(chunks[..b]);
            && |p| > |preface.updates| && p[|p| - 1].isFinal && TrueText(pieces) <= p[|p| - 1].text
            && (p[|p| - 1].artifacts == [] ==> p[|p| - 1] == Outbound(TrueText(pieces), [], [], true))
            && forall i :: |preface.updates| <= i < |p| - 1 ==>
               p[i].text <= TrueText(pieces) || p[i].text == preface.latest
  {
    hide ConsumeAll, Tells, Confusing, TrueText, Agrees, Final, Buffer;
    StreamsTrueText(chunks, b, id, pieces);
    RaisedIff(chunks);
    AgreedFinal(ConsumeAll(chunks).values, TrueText(pieces), end, files);
  }
}
