/**
  The store of IM conversations: a (channel, chat, optional topic) triple flattened into a colon-separated key
  (ChannelStore, backend/app/channels/store.py). Saving to disk is not part of this model.
 */
module ChannelStore {
  import opened Common

  datatype Entry = Entry(threadId: string, userId: string, createdAt: real, updatedAt: real)

  datatype Triple = Triple(channel: string, chat: string, topic: Option<string>)

  type Data = map<string, Entry>

  // An empty topic is no topic.
  function Normal(t: Triple): Triple {
    if t.topic == Some("") then t.(topic := None) else t
  }

  function Key(t: Triple): string {
    if t.topic.Some? && t.topic.value != "" then t.channel + ":" + t.chat + ":" + t.topic.value
    else t.channel + ":" + t.chat
  }

  predicate ColonFree(s: string) {
    ':' !in s
  }

  ghost predicate Plain(t: Triple) {
    ColonFree(t.channel) && ColonFree(t.chat)
  }

  // ---- key.split(":", 2) ---------------------------------------------------------------

  function FirstColon(s: string): (i: nat)
    ensures i <= |s| && ColonFree(s[..i]) && (i < |s| ==> s[i] == ':')
  {
    if s == "" || s[0] == ':' then 0
    else
      var i := 1 + FirstColon(s[1..]);
      assert s[..i] == [s[0]] + s[1..][..i - 1];
      i
  }

  function SplitAtColons(s: string, n: nat): seq<string>
    decreases n
  {
    var i := FirstColon(s);
    if n == 0 || i == |s| then [s] else [s[..i]] + SplitAtColons(s[i + 1..], n - 1)
  }

  function Parse(key: string): Triple {
    var parts := SplitAtColons(key, 2);
    Triple(parts[0], if |parts| > 1 then parts[1] else "", if |parts| > 2 then Some(parts[2]) else None)
  }

  lemma {:induction false} ColonAfter(a: string, rest: string)
    requires ColonFree(a)
    ensures FirstColon(a) == |a| && FirstColon(a + ":" + rest) == |a|
  {
    if a != "" {
      assert (a + ":" + rest)[1..] == a[1..] + ":" + rest;
      ColonAfter(a[1..], rest);
    }
  }

  lemma SplitHead(a: string, rest: string, n: nat)
    requires ColonFree(a)
    ensures SplitAtColons(a, n) == [a]
    ensures n > 0 ==> SplitAtColons(a + ":" + rest, n) == [a] + SplitAtColons(rest, n - 1)
  {
    ColonAfter(a, rest);
    var s := a + ":" + rest;
    assert s[..|a|] == a && s[|a| + 1..] == rest;
  }

  lemma ParsePair(channel: string, chat: string)
    requires ColonFree(channel) && ColonFree(chat)
    ensures Parse(channel + ":" + chat) == Triple(channel, chat, None)
  {
    SplitHead(channel, chat, 2);
    SplitHead(chat, "", 1);
  }

  lemma ParseTriple(channel: string, chat: string, rest: string)
    requires ColonFree(channel) && ColonFree(chat)
    ensures Parse(channel + ":" + chat + ":" + rest) == Triple(channel, chat, Some(rest))
  {
    var tail := chat + ":" + rest;
    assert channel + ":" + chat + ":" + rest == channel + ":" + tail;
    SplitHead(channel, tail, 2);
    SplitHead(chat, rest, 1);
    hide FirstColon;
  }

  lemma ParseKey(t: Triple)
    requires Plain(t)
    ensures Parse(Key(t)) == Normal(t)
  {
    if t.topic.Some? && t.topic.value != "" {
      ParseTriple(t.channel, t.chat, t.topic.value);
    } else {
      ParsePair(t.channel, t.chat);
    }
  }

  lemma {:induction false} PartsColonFree(s: string, n: nat, i: nat)
    requires i < n && i < |SplitAtColons(s, n)|
    ensures ColonFree(SplitAtColons(s, n)[i])
    decreases n
  {
    hide ColonFree, FirstColon;
    var k := FirstColon(s);
    if k == |s| {
      assert s[..k] == s;
    } else if i > 0 {
      PartsColonFree(s[k + 1..], n - 1, i - 1);
    }
  }

  // The triple comes back from its key exactly when neither the channel nor the chat contains a colon.
  lemma KeyParsesIff(t: Triple)
    ensures Parse(Key(t)) == Normal(t) <==> Plain(t)
  {
    var parts := SplitAtColons(Key(t), 2);
    PartsColonFree(Key(t), 2, 0);
    if |parts| > 1 {
      PartsColonFree(Key(t), 2, 1);
    }
    if Plain(t) {
      ParseKey(t);
    }
  }

  // Keys of colon-free channels and chats never collide.
  lemma KeysDistinct(t: Triple, u: Triple)
    requires Plain(t) && Plain(u)
    ensures Key(t) == Key(u) <==> Normal(t) == Normal(u)
  {
    ParseKey(t);
    ParseKey(u);
  }

  // With a colon in the chat they can: a chat id and a topic of another chat share a key.
  lemma ColonsCollide(channel: string, chat: string, topic: string)
    requires topic != ""
    ensures Key(Triple(channel, chat + ":" + topic, None)) == Key(Triple(channel, chat, Some(topic)))
  {
  }

  // ---- Operations on the data ----------------------------------------------------------

  function WithThread(data: Data, key: string, threadId: string, userId: string, now: real): Data {
    data[key := Entry(threadId, userId, if key in data then data[key].createdAt else now, now)]
  }

  predicate Under(key: string, prefix: string) {
    key == prefix || (|prefix| < |key| && key[..|prefix|] == prefix && key[|prefix|] == ':')
  }

  function WithoutChat(data: Data, prefix: string): Data {
    map key | key in data && !Under(key, prefix) :: data[key]
  }

  lemma UnderSplits(key: string, prefix: string)
    requires Under(key, prefix) && key != prefix
    ensures key == prefix + ":" + key[|prefix| + 1..]
  {
  }

  lemma UnderOnlyChat(t: Triple, channel: string, chat: string)
    requires Plain(t) && ColonFree(channel) && ColonFree(chat)
    requires Under(Key(t), channel + ":" + chat)
    ensures t.channel == channel && t.chat == chat
  {
    var key, prefix := Key(t), channel + ":" + chat;
    ParseKey(t);
    hide Key, Parse, ColonFree;
    if key == prefix {
      ParsePair(channel, chat);
    } else {
      UnderSplits(key, prefix);
      ParseTriple(channel, chat, key[|prefix| + 1..]);
    }
  }

  // The keys of a chat are those under its own key.
  lemma UnderChat(t: Triple, channel: string, chat: string)
    requires Plain(t) && ColonFree(channel) && ColonFree(chat)
    ensures Under(Key(t), Key(Triple(channel, chat, None))) <==> t.channel == channel && t.chat == chat
  {
    var key, prefix := Key(t), channel + ":" + chat;
    if Under(key, prefix) {
      UnderOnlyChat(t, channel, chat);
    }
    if t.channel == channel && t.chat == chat && t.topic.Some? && t.topic.value != "" {
      assert key == prefix + ":" + t.topic.value;
      assert key[..|prefix|] == prefix;
    }
  }

  datatype Item = Item(channel: string, chat: string, topic: Option<string>, entry: Entry)

  function ItemOf(key: string, entry: Entry): Item {
    var t := Parse(key);
    Item(t.channel, t.chat, t.topic, entry)
  }

  predicate OfChannel(channel: Option<string>, t: Triple) {
    channel.None? || channel.value == "" || t.channel == channel.value
  }

  predicate Selected(channel: Option<string>, key: string) {
    OfChannel(channel, Parse(key))
  }

  // order lists the keys of the data, each once.
  predicate Orders(order: seq<string>, data: Data) {
    && (forall key :: key in order ==> key in data) && (forall key :: key in data ==> key in order)
    && NoRepeats(order)
  }

  // The keys that are still in the data, in the order they had.
  function Remaining(order: seq<string>, data: Data): seq<string> {
    if order == [] then []
    else
      var last := order[|order| - 1];
      Remaining(order[..|order| - 1], data) + (if last in data then [last] else [])
  }

  // The keys of one channel, or all, in their order.
  function Chosen(order: seq<string>, channel: Option<string>): seq<string> {
    if order == [] then []
    else
      var last := order[|order| - 1];
      Chosen(order[..|order| - 1], channel) + (if Selected(channel, last) then [last] else [])
  }

  lemma {:induction false} RemainingAre(order: seq<string>, data: Data)
    requires NoRepeats(order)
    ensures forall key :: key in Remaining(order, data) <==> key in order && key in data
    ensures NoRepeats(Remaining(order, data))
  {
    if order != [] {
      var front := order[..|order| - 1];
      RemainingAre(front, data);
      AppendNew(Remaining(front, data), order[|order| - 1]);
    }
  }

  // Every selected entry is chosen once, and no other.
  lemma {:induction false} ChosenAre(order: seq<string>, channel: Option<string>)
    requires NoRepeats(order)
    ensures forall key :: key in Chosen(order, channel) <==> key in order && Selected(channel, key)
    ensures NoRepeats(Chosen(order, channel))
  {
    hide Selected;
    if order != [] {
      var front := order[..|order| - 1];
      ChosenAre(front, channel);
      AppendNew(Chosen(front, channel), order[|order| - 1]);
    }
  }

  // What the listing of a channel, or of all, is: an item for each chosen key.
  ghost predicate Lists(results: seq<Item>, data: Data, order: seq<string>, channel: Option<string>) {
    var chosen := Chosen(order, channel);
    && |results| == |chosen|
    && forall i :: 0 <= i < |chosen| ==> chosen[i] in data && results[i] == ItemOf(chosen[i], data[chosen[i]])
  }

  lemma ChosenNone(channel: Option<string>)
    ensures Chosen([], channel) == []
  {
  }

  lemma ChosenStep(order: seq<string>, i: nat, channel: Option<string>)
    requires i < |order|
    ensures Chosen(order[..i + 1], channel) ==
            Chosen(order[..i], channel) + (if Selected(channel, order[i]) then [order[i]] else [])
  {
    hide Selected;
    assert order[..i + 1][..i] == order[..i];
  }

  lemma SelectedItem(channel: Option<string>, key: string, entry: Entry)
    ensures Selected(channel, key) <==>
            !(channel.Some? && channel.value != "" && ItemOf(key, entry).channel != channel.value)
  {
    hide Parse;
  }

  lemma {:induction false} RemainingAll(order: seq<string>, data: Data)
    requires forall key :: key in order ==> key in data
    ensures Remaining(order, data) == order
  {
    if order != [] {
      RemainingAll(order[..|order| - 1], data);
    }
  }

  class Store {
    var data: Data
    var order: seq<string>      // the dictionary's insertion order

    predicate Valid()
      reads this
    {
      Orders(order, data)
    }

    constructor (loaded: Data, order: seq<string>)
      requires Orders(order, loaded)
      ensures Valid() && data == loaded && this.order == order
    {
      data, this.order := loaded, order;
    }

    method GetThreadId(t: Triple) returns (threadId: Option<string>)
      ensures threadId == if Key(t) in data then Some(data[Key(t)].threadId) else None
    {
      var key := Key(t);
      if key in data {
        return Some(data[key].threadId);
      }
      return None;
    }

    method SetThreadId(t: Triple, threadId: string, userId: string, now: real)
      requires Valid()
      modifies this
      ensures Valid() && data == WithThread(old(data), Key(t), threadId, userId, now)
      ensures order == if Key(t) in old(data) then old(order) else old(order) + [Key(t)]
    {
      var key := Key(t);
      var createdAt := now;
      if key in data {
        createdAt := data[key].createdAt;
      } else {
        order := order + [key];
      }
      data := data[key := Entry(threadId, userId, createdAt, now)];
    }

    // With a topic, even an empty one, only that mapping goes; without, all mappings of the chat.
    method Remove(channel: string, chat: string, topic: Option<string>) returns (removed: bool)
      requires Valid()
      modifies this
      ensures Valid() && data == Removed(old(data), channel, chat, topic) && order == Remaining(old(order), data)
      ensures removed <==> data != old(data)
    {
      RemainingAll(order, data);
      if topic.Some? {
        var key := Key(Triple(channel, chat, topic));
        if key in data {
          Delete({key});
          return true;
        }
        assert data - {key} == data;
        return false;
      }
      var prefix := Key(Triple(channel, chat, None));
      var keysToDelete := set key | key in data && Under(key, prefix);
      if keysToDelete == {} {
        assert forall key :: key in data ==> key in keysToDelete || !Under(key, prefix);
        return false;
      }
      assert data - keysToDelete == WithoutChat(data, prefix);
      Delete(keysToDelete);
      return true;
    }

    // Drops the entries one key after another.
    method Delete(keys: set<string>)
      requires Valid() && keys <= data.Keys && keys != {}
      modifies this
      ensures Valid() && data == old(data) - keys && order == Remaining(old(order), data)
      ensures data != old(data)
    {
      ghost var before := data;
      hide Remaining, NoRepeats;
      var rest := keys;
      while rest != {}
        invariant rest <= data.Keys <= before.Keys && data - rest == before - keys && order == old(order)
        decreases |rest|
      {
        var key :| key in rest;
        data, rest := data - {key}, rest - {key};
      }
      assert data - {} == data;
      ghost var key :| key in keys;
      assert key in before && key !in data;
      RemainingAre(order, data);
      order := Remaining(order, data);
    }

    method ListEntries(channel: Option<string>) returns (results: seq<Item>)
      requires Valid()
      ensures Lists(results, data, order, channel)
    {
      hide Parse, Selected, Chosen, NoRepeats;
      results := [];
      ghost var chosen: seq<string> := [];
      ChosenNone(channel);
      for i := 0 to |order|
        invariant chosen == Chosen(order[..i], channel) && |results| == |chosen|
        invariant forall j :: 0 <= j < |chosen| ==>
          chosen[j] in data && results[j] == ItemOf(chosen[j], data[chosen[j]])
      {
        ChosenStep(order, i, channel);
        var key := order[i];
        assert key in order;
        var item := ItemOf(key, data[key]);
        SelectedItem(channel, key, data[key]);
        if channel.Some? && channel.value != "" && item.channel != channel.value {
          continue;
        }
        results, chosen := results + [item], chosen + [key];
      }
      assert order[..|order|] == order;
    }
  }

  function Removed(data: Data, channel: string, chat: string, topic: Option<string>): Data {
    if topic.Some? then data - {Key(Triple(channel, chat, topic))}
    else WithoutChat(data, Key(Triple(channel, chat, None)))
  }

  // ---- Runs, seen triple by triple -----------------------------------------------------

  datatype Op =
    | Set(t: Triple, threadId: string, userId: string, now: real)
    | Remove(channel: string, chat: string, topic: Option<string>)

  ghost predicate PlainOp(op: Op) {
    match op
    case Set(t, _, _, _) => Plain(t)
    case Remove(channel, chat, _) => ColonFree(channel) && ColonFree(chat)
  }

  function Perform(data: Data, op: Op): Data {
    match op
    case Set(t, threadId, userId, now) => WithThread(data, Key(t), threadId, userId, now)
    case Remove(channel, chat, topic) => Removed(data, channel, chat, topic)
  }

  function PerformAll(data: Data, ops: seq<Op>): Data {
    if ops == [] then data else Perform(PerformAll(data, ops[..|ops| - 1]), ops[|ops| - 1])
  }

  function Lookup(data: Data, t: Triple): Option<Entry> {
    if Key(t) in data then Some(data[Key(t)]) else None
  }

  // op removes the mapping of t.
  predicate Drops(op: Op, t: Triple) {
    op.Remove? && op.channel == t.channel && op.chat == t.chat
    && (op.topic.None? || Normal(Triple(op.channel, op.chat, op.topic)) == Normal(t))
  }

  predicate Sets(op: Op, t: Triple) {
    op.Set? && Normal(op.t) == Normal(t)
  }

  // The mapping of t as its own history makes it, starting from first: the last set gives the thread and user, and the
  // creation time is that of the first set since the last removal.
  function History(first: Option<Entry>, ops: seq<Op>, t: Triple): Option<Entry> {
    if ops == [] then first
    else
      var op := ops[|ops| - 1];
      var before := History(first, ops[..|ops| - 1], t);
      if Drops(op, t) then None
      else if Sets(op, t) then
        Some(Entry(op.threadId, op.userId, if before.Some? then before.value.createdAt else op.now, op.now))
      else before
  }

  lemma PerformIsLocal(data: Data, op: Op, t: Triple)
    requires Plain(t) && PlainOp(op)
    ensures Lookup(Perform(data, op), t) == History(Lookup(data, t), [op], t)
  {
    assert [op][..0] == [];
    match op
    case Set(u, _, _, _) => KeysDistinct(t, u);
    case Remove(channel, chat, topic) =>
      if topic.Some? {
        KeysDistinct(t, Triple(channel, chat, topic));
      } else {
        UnderChat(t, channel, chat);
      }
  }

  // For colon-free channels and chats the store is a map keyed by triples: whatever the run, what is stored for t is
  // what t's own history says.
  lemma {:induction false} StoreRefinesMap(data: Data, ops: seq<Op>, t: Triple)
    requires Plain(t) && forall op :: op in ops ==> PlainOp(op)
    ensures Lookup(PerformAll(data, ops), t) == History(Lookup(data, t), ops, t)
  {
    if ops != [] {
      var before, op := ops[..|ops| - 1], ops[|ops| - 1];
      StoreRefinesMap(data, before, t);
      PerformIsLocal(PerformAll(data, before), op, t);
      assert [op][..0] == [];
    }
  }

  lemma {:induction false} HistoryKeepsCreation(first: Option<Entry>, ops: seq<Op>, t: Triple, k: nat)
    requires k < |ops| && Sets(ops[k], t) && History(first, ops[..k], t).None?
    requires forall i :: k < i < |ops| ==> !Drops(ops[i], t)
    ensures History(first, ops, t).Some? && History(first, ops, t).value.createdAt == ops[k].now
  {
    var n := |ops| - 1;
    if k < n {
      assert ops[..n][..k] == ops[..k];
      HistoryKeepsCreation(first, ops[..n], t, k);
    }
  }

  // The creation time is that of the first set since the last removal.
  lemma CreatedAtFirstSet(data: Data, ops: seq<Op>, t: Triple, k: nat)
    requires Plain(t) && forall op :: op in ops ==> PlainOp(op)
    requires k < |ops| && Sets(ops[k], t)
    requires Lookup(PerformAll(data, ops[..k]), t).None?
    requires forall i :: k < i < |ops| ==> !Drops(ops[i], t)
    ensures Lookup(PerformAll(data, ops), t).Some? && Lookup(PerformAll(data, ops), t).value.createdAt == ops[k].now
  {
    StoreRefinesMap(data, ops[..k], t);
    StoreRefinesMap(data, ops, t);
    hide PerformAll, Lookup, Plain, PlainOp;
    HistoryKeepsCreation(Lookup(data, t), ops, t, k);
  }

  // Listing gives every stored triple back, with its entry.
  lemma ListingRecovers(t: Triple, entry: Entry)
    requires Plain(t)
    ensures ItemOf(Key(t), entry) == Item(t.channel, t.chat, Normal(t).topic, entry)
  {
    ParseKey(t);
  }

  ghost predicate PlainKey(key: string) {
    exists t: Triple :: Plain(t) && Key(t) == key
  }

  // Every key comes from a triple without colons in its channel and chat.
  ghost predicate PlainData(data: Data) {
    forall key :: key in data ==> PlainKey(key)
  }

  // It stays so.
  lemma {:induction false} RunsStayPlain(data: Data, ops: seq<Op>)
    requires PlainData(data) && forall op :: op in ops ==> PlainOp(op)
    ensures PlainData(PerformAll(data, ops))
  {
    hide PlainKey, Plain, Under, Key;
    if ops != [] {
      var op := ops[|ops| - 1];
      RunsStayPlain(data, ops[..|ops| - 1]);
      if op.Set? {
        assert PlainOp(op);
        KeyIsPlain(op.t);
      }
    }
  }

  lemma KeyIsPlain(t: Triple)
    requires Plain(t)
    ensures PlainKey(Key(t))
  {
  }

  ghost predicate Shows(item: Item, data: Data, t: Triple) {
    Lookup(data, t).Some? && item == Item(t.channel, t.chat, Normal(t).topic, Lookup(data, t).value)
  }

  ghost predicate ShowsStored(item: Item, data: Data, channel: Option<string>) {
    exists t: Triple :: Plain(t) && OfChannel(channel, t) && Shows(item, data, t)
  }

  // A listed item shows a stored triple of the channel, and every triple it shows has the key it was made from.
  lemma ItemShows(results: seq<Item>, data: Data, order: seq<string>, channel: Option<string>, i: nat)
    requires Orders(order, data) && PlainData(data) && Lists(results, data, order, channel) && i < |results|
    ensures ShowsStored(results[i], data, channel)
    ensures forall t :: Plain(t) && Shows(results[i], data, t) ==> Key(t) == Chosen(order, channel)[i]
  {
    hide Key, Parse, Plain, Chosen;
    var key := Chosen(order, channel)[i];
    ChosenAre(order, channel);
    assert key in Chosen(order, channel) && PlainKey(key);
    var u: Triple :| Plain(u) && Key(u) == key;
    ParseKey(u);
    assert Shows(results[i], data, u) && OfChannel(channel, u);
    forall t | Plain(t) && Shows(results[i], data, t) ensures Key(t) == key {
      KeysDistinct(t, u);
    }
  }

  // End to end: the listing holds, for each stored triple of the channel, exactly one item, and nothing else.
  lemma ListingComplete(results: seq<Item>, data: Data, order: seq<string>, channel: Option<string>)
    requires Orders(order, data) && PlainData(data) && Lists(results, data, order, channel)
    ensures forall t :: Plain(t) && Lookup(data, t).Some? && OfChannel(channel, t) ==>
            exists i :: 0 <= i < |results| && Shows(results[i], data, t)
    ensures forall i, j, t :: 0 <= i < j < |results| && Plain(t) && Shows(results[i], data, t) ==>
            !Shows(results[j], data, t)
    ensures forall i :: 0 <= i < |results| ==> ShowsStored(results[i], data, channel)
  {
    hide Key, Parse, Plain, Chosen, Shows, ShowsStored, Lookup, OfChannel;
    ChosenAre(order, channel);
    forall t | Plain(t) && Lookup(data, t).Some? && OfChannel(channel, t)
      ensures exists i :: 0 <= i < |results| && Shows(results[i], data, t)
    {
      var i := ItemOfTriple(results, data, order, channel, t);
    }
    forall i | 0 <= i < |results| ensures ShowsStored(results[i], data, channel) {
      ItemShows(results, data, order, channel, i);
    }
    forall i, j, t | 0 <= i < j < |results| && Plain(t) && Shows(results[i], data, t)
      ensures !Shows(results[j], data, t)
    {
      ItemShows(results, data, order, channel, i);
      ItemShows(results, data, order, channel, j);
    }
  }

  lemma ItemOfTriple(results: seq<Item>, data: Data, order: seq<string>, channel: Option<string>, t: Triple)
    returns (i: nat)
    requires Orders(order, data) && Lists(results, data, order, channel)
    requires Plain(t) && Lookup(data, t).Some? && OfChannel(channel, t)
    ensures i < |results| && Shows(results[i], data, t)
  {
    hide Key, Parse, Plain, Chosen, ItemOf;
    ChosenAre(order, channel);
    ParseKey(t);
    assert Key(t) in Chosen(order, channel);
    i :| 0 <= i < |results| && Chosen(order, channel)[i] == Key(t);
    ListingRecovers(t, data[Key(t)]);
  }
}
