/**
  The card a Feishu reply is streamed into: created once, patched while the answer grows, finished by the final message
  (the running-card methods and send, backend/app/channels/feishu.py).

  The channel's two dictionaries are shared by every conversation. A class carries them, with the methods that run
  without suspending; a state machine over those methods interleaves creation tasks, their done-callbacks and sends, an
  action being what one of them does between two suspension points.
 */
module FeishuCard {
  const MAX_RETRIES: nat := 3
  const WORKING := "Working on it..."

  // id: what the reply returned, "" standing for None.
  datatype Result = Running | Returned(id: string) | Raised

  datatype Creation = Creation(source: string, text: string, result: Result, finalized: bool) {
    // Returned, its callback still to come.
    predicate Pending(source: string) {
      this.source == source && !finalized && result.Returned?
    }
  }

  datatype Cards = Cards(ids: map<string, string>, tasks: map<string, nat>, creations: seq<Creation>)

  datatype Message = Message(text: string, isFinal: bool)

  // Where a send is suspended, or how it ended.
  datatype Point =
    | Sleeping                    // before its next attempt
    | AwaitingTask(task: nat)     // in _send_card_message
    | AwaitingEnsured(task: nat)  // in _ensure_running_card
    | Patching(id: string)
    | Replying
    | Reacting
    | Done
    | Failed

  function Recorded(c: Cards, source: string): string {
    if source in c.ids then c.ids[source] else ""
  }

  // _ensure_running_card_started
  function EnsureStarted(c: Cards, source: string, text: string): Cards {
    if Recorded(c, source) != "" || source in c.tasks then c
    else Cards(c.ids, c.tasks[source := |c.creations|], c.creations + [Creation(source, text, Running, false)])
  }

  // The end of _create_running_card
  function Finished(c: Cards, task: nat, result: Result): Cards
    requires task < |c.creations|
  {
    var creation := c.creations[task];
    Cards(
      if result.Returned? && result.id != "" then c.ids[creation.source := result.id] else c.ids,
      c.tasks, c.creations[task := creation.(result := result)])
  }

  // _finalize_running_card_task, as the done-callback of this task
  function Finalized(c: Cards, task: nat): Cards
    requires task < |c.creations|
  {
    var creation := c.creations[task];
    var source := creation.source;
    Cards(
      c.ids,
      if source in c.tasks && c.tasks[source] == task then c.tasks - {source} else c.tasks,
      c.creations[task := creation.(finalized := true)])
  }

  // _send_card_message, up to its first suspension: the cards, and where it suspends.
  function Attempted(c: Cards, source: string, msg: Message): (Cards, Point) {
    var id := Recorded(c, source);
    if id != "" then (c, Patching(id))
    else if source in c.tasks then (c, AwaitingTask(c.tasks[source]))
    else if msg.isFinal then (c, Replying)
    else
      var next := EnsureStarted(c, source, msg.text);
      (next, AwaitingEnsured(next.tasks[source]))
  }

  // Its last step for a final message.
  function Dropped(c: Cards, source: string): Cards {
    c.(ids := c.ids - {source})
  }

  class FeishuChannel {
    var runningCardIds: map<string, string>
    var runningCardTasks: map<string, nat>
    var creations: seq<Creation>           // the tasks started so far

    function Contents(): Cards
      reads this
    {
      Cards(runningCardIds, runningCardTasks, creations)
    }

    constructor ()
      ensures Contents() == Cards(map[], map[], [])
    {
      runningCardIds, runningCardTasks, creations := map[], map[], [];
    }

    // some: is there a task to await?
    method EnsureRunningCardStarted(source: string, text: string) returns (some: bool, task: nat)
      modifies this
      ensures Contents() == EnsureStarted(old(Contents()), source, text)
      ensures some == (Recorded(old(Contents()), source) == "")
      ensures some ==> source in runningCardTasks && runningCardTasks[source] == task
      ensures source in old(runningCardIds) && old(runningCardIds)[source] != "" ==> Contents() == old(Contents())
      ensures source in old(runningCardTasks) ==> Contents() == old(Contents())
    {
      if source in runningCardIds && runningCardIds[source] != "" {
        return false, 0;
      }
      if source in runningCardTasks {
        return true, runningCardTasks[source];
      }
      task := |creations|;
      creations := creations + [Creation(source, text, Running, false)];
      runningCardTasks := runningCardTasks[source := task];
      return true, task;
    }

    // _ensure_running_card, up to its suspension: the id, or the task to await.
    method EnsureRunningCard(source: string, text: string) returns (id: string, task: nat)
      modifies this
      ensures Contents() == EnsureStarted(old(Contents()), source, text)
      ensures id == Recorded(old(Contents()), source)
      ensures id == "" ==> source in runningCardTasks && runningCardTasks[source] == task
    {
      id := if source in runningCardIds then runningCardIds[source] else "";
      if id != "" {
        return id, 0;
      }
      var some;
      some, task := EnsureRunningCardStarted(source, text);
    }

    method SendCardMessage(source: string, msg: Message) returns (at: Point)
      modifies this
      ensures (Contents(), at) == Attempted(old(Contents()), source, msg)
      ensures if source in old(runningCardIds) && old(runningCardIds)[source] != "" then
                at == Patching(old(runningCardIds)[source]) && Contents() == old(Contents())
              else if source in old(runningCardTasks) then
                at == AwaitingTask(old(runningCardTasks)[source]) && Contents() == old(Contents())
              else if msg.isFinal then at == Replying && Contents() == old(Contents())
              else
                && at == AwaitingEnsured(|old(creations)|) && runningCardIds == old(runningCardIds)
                && runningCardTasks == old(runningCardTasks)[source := |old(creations)|]
                && creations == old(creations) + [Creation(source, msg.text, Running, false)]
    {
      if source in runningCardIds && runningCardIds[source] != "" {
        return Patching(runningCardIds[source]);
      }
      if source in runningCardTasks {
        return AwaitingTask(runningCardTasks[source]);
      }
      if msg.isFinal {
        return Replying;
      }
      var id, task := EnsureRunningCard(source, msg.text);
      return AwaitingEnsured(task);
    }

    method DropCard(source: string)
      modifies this
      ensures Contents() == Dropped(old(Contents()), source)
    {
      runningCardIds := runningCardIds - {source};
    }

    method FinishCreation(task: nat, result: Result)
      requires task < |creations|
      modifies this
      ensures Contents() == Finished(old(Contents()), task, result)
      ensures var source := old(creations)[task].source;
              if result.Returned? && result.id != "" then runningCardIds == old(runningCardIds)[source := result.id]
              else runningCardIds == old(runningCardIds)
    {
      var creation := creations[task];
      if result.Returned? && result.id != "" {
        runningCardIds := runningCardIds[creation.source := result.id];
      }
      creations := creations[task := creation.(result := result)];
    }

    method FinalizeRunningCardTask(task: nat)
      requires task < |creations|
      modifies this
      ensures Contents() == Finalized(old(Contents()), task)
      ensures var source := old(creations)[task].source;
              if source in old(runningCardTasks) && old(runningCardTasks)[source] == task then
                runningCardTasks == old(runningCardTasks) - {source}
              else runningCardTasks == old(runningCardTasks)
    {
      var source := creations[task].source;
      if source in runningCardTasks && runningCardTasks[source] == task {
        runningCardTasks := runningCardTasks - {source};
      }
      creations := creations[task := creations[task].(finalized := true)];
    }
  }

  // ---- Sends ---------------------------------------------------------------------------

  datatype Send = Send(msg: Message, begun: nat, attempt: nat, at: Point) {
    predicate Over() {
      at.Done? || at.Failed?
    }
  }

  // What happened to the conversation of one source message; ok: the call did not raise.
  datatype Event =
    | Began(msg: Message)
    | Started(task: nat)     // the creation of a card
    | NoId(task: nat)        // the awaited creation gave no id, and the message is skipped
    | Broke(task: nat)       // the awaited creation raised
    | NewCard(id: string)
    | Patch(id: string, text: string, ok: bool)
    | Reply(text: string, ok: bool)
    | CardDropped
    | MarkedDone             // the reaction to the user's message

  datatype State = State(cards: Cards, known: set<string>, sends: map<string, Send>, logs: map<string, seq<Event>>)

  datatype Action =
    | Inbound(source: string)
    | Begin(source: string, msg: Message)
    | Attempt(source: string)
    | Wake(source: string)
    | PatchDone(source: string, ok: bool)
    | ReplyDone(source: string, ok: bool)
    | Reacted(source: string)
    | CreationDone(task: nat, result: Result)
    | Callback(task: nat)

  function Init(): State {
    State(Cards(map[], map[], []), {}, map[], map[])
  }

  function Log(st: State, source: string): seq<Event> {
    if source in st.logs then st.logs[source] else []
  }

  function At(st: State, source: string, at: Point): State
    requires source in st.sends
  {
    st.(sends := st.sends[source := st.sends[source].(at := at)])
  }

  function Logged(st: State, source: string, e: Event): State {
    st.(logs := st.logs[source := Log(st, source) + [e]])
  }

  // The attempt raised: sleep before the next one, or raise.
  function Fail(st: State, source: string): State
    requires source in st.sends
  {
    var send := st.sends[source];
    st.(sends := st.sends[source :=
      if send.attempt + 1 < MAX_RETRIES then send.(attempt := send.attempt + 1, at := Sleeping)
      else send.(at := Failed)])
  }

  // After the text was put: a final message drops the card and reacts.
  function Settle(st: State, source: string): State
    requires source in st.sends
  {
    if st.sends[source].msg.isFinal then
      At(Logged(st, source, CardDropped), source, Reacting).(cards := Dropped(st.cards, source))
    else At(st, source, Done)
  }

  predicate Suspended(st: State, source: string) {
    source in st.sends && !st.sends[source].Over()
  }

  // A send awaiting a task that has finished.
  predicate Woken(st: State, source: string) {
    && source in st.sends
    && (st.sends[source].at.AwaitingTask? || st.sends[source].at.AwaitingEnsured?)
    && st.sends[source].at.task < |st.cards.creations|
    && !st.cards.creations[st.sends[source].at.task].result.Running?
  }

  // The done-callback of every finished creation for this source has run.
  predicate CallbacksRun(c: Cards, source: string) {
    forall t :: 0 <= t < |c.creations| && c.creations[t].source == source && !c.creations[t].result.Running? ==>
      c.creations[t].finalized
  }

  // The event loop is first in, first out: the callback of the creation that gave a card its id is queued before the
  // card can be patched, so it runs before that patch is answered.
  // One inbound message per source, before its sends; sends for one source one after another.
  predicate Enabled(st: State, a: Action) {
    match a
    case Inbound(source) => source !in st.known
    case Begin(source, _) => !Suspended(st, source)
    case Attempt(source) => source in st.sends && st.sends[source].at.Sleeping?
    case Wake(source) => Woken(st, source)
    case PatchDone(source, _) => source in st.sends && st.sends[source].at.Patching? && CallbacksRun(st.cards, source)
    case ReplyDone(source, _) => source in st.sends && st.sends[source].at.Replying?
    case Reacted(source) => source in st.sends && st.sends[source].at.Reacting?
    case CreationDone(task, result) =>
      task < |st.cards.creations| && st.cards.creations[task].result.Running? && !result.Running?
    case Callback(task) =>
      task < |st.cards.creations| && !st.cards.creations[task].result.Running? && !st.cards.creations[task].finalized
  }

  function AttemptNext(st: State, source: string): State
    requires source in st.sends
  {
    var (cards, at) := Attempted(st.cards, source, st.sends[source].msg);
    Starting(At(st, source, at), source, cards)
  }

  // The cards after a step that may have started a creation.
  function Starting(st: State, source: string, cards: Cards): State {
    (if |cards.creations| > |st.cards.creations| then Logged(st, source, Started(|st.cards.creations|)) else st).(
      cards := cards)
  }

  // After the awaited task: its id is patched; without one a final message replies and any other is skipped.
  function WakeNext(st: State, source: string): State
    requires Woken(st, source)
  {
    var send := st.sends[source];
    var result := st.cards.creations[send.at.task].result;
    if result.Raised? then Fail(Logged(st, source, Broke(send.at.task)), source)
    else if send.at.AwaitingEnsured? then Settle(st, source)
    else if result.id != "" then At(st, source, Patching(result.id))
    else if send.msg.isFinal then At(st, source, Replying)
    else Settle(Logged(st, source, NoId(send.at.task)), source)
  }

  function PatchNext(st: State, source: string, ok: bool): State
    requires source in st.sends && st.sends[source].at.Patching?
  {
    var send := st.sends[source];
    var next := Logged(st, source, Patch(send.at.id, send.msg.text, ok));
    if ok then Settle(next, source)
    else if send.msg.isFinal then At(next, source, Replying)
    else Fail(next, source)
  }

  function ReplyNext(st: State, source: string, ok: bool): State
    requires source in st.sends
  {
    var next := Logged(st, source, Reply(st.sends[source].msg.text, ok));
    if ok then Settle(next, source) else Fail(next, source)
  }

  function CreationNext(st: State, task: nat, result: Result): State
    requires task < |st.cards.creations|
  {
    var next := st.(cards := Finished(st.cards, task, result));
    if result.Returned? && result.id != "" then Logged(next, st.cards.creations[task].source, NewCard(result.id))
    else next
  }

  function Next(st: State, a: Action): State
    requires Enabled(st, a)
  {
    match a
    case Inbound(source) =>
      Starting(st, source, EnsureStarted(st.cards, source, WORKING)).(known := st.known + {source})
    case Begin(source, msg) =>
      Logged(st, source, Began(msg)).(
        known := st.known + {source},
        sends := st.sends[source := Send(msg, |Log(st, source)|, 0, Sleeping)])
    case Attempt(source) => AttemptNext(st, source)
    case Wake(source) => WakeNext(st, source)
    case PatchDone(source, ok) => PatchNext(st, source, ok)
    case ReplyDone(source, ok) => ReplyNext(st, source, ok)
    case Reacted(source) => At(Logged(st, source, MarkedDone), source, Done)
    case CreationDone(task, result) => CreationNext(st, task, result)
    case Callback(task) => st.(cards := Finalized(st.cards, task))
  }

  // The channel's methods carry out every action of the state machine.
  method Perform(channel: FeishuChannel, st: State, a: Action)
    requires Enabled(st, a) && channel.Contents() == st.cards
    modifies channel
    ensures channel.Contents() == Next(st, a).cards
  {
    match a {
      case Inbound(source) =>
        var some, task := channel.EnsureRunningCardStarted(source, WORKING);
      case Attempt(source) =>
        var at := channel.SendCardMessage(source, st.sends[source].msg);
      case Wake(source) =>
        var send := st.sends[source];
        if send.msg.isFinal && send.at.AwaitingEnsured? && !st.cards.creations[send.at.task].result.Raised? {
          channel.DropCard(source);
        }
      case PatchDone(source, ok) =>
        if ok && st.sends[source].msg.isFinal {
          channel.DropCard(source);
        }
      case ReplyDone(source, ok) =>
        if ok && st.sends[source].msg.isFinal {
          channel.DropCard(source);
        }
      case CreationDone(task, result) =>
        channel.FinishCreation(task, result);
      case Callback(task) =>
        channel.FinalizeRunningCardTask(task);
      case _ =>
    }
  }

  ghost predicate IsRun(states: seq<State>, actions: seq<Action>) {
    && |states| == |actions| + 1 && states[0] == Init()
    && forall i, j :: 0 <= i && j == i + 1 && j < |states| ==>
       Enabled(states[i], actions[i]) && states[j] == Next(states[i], actions[i])
  }

  // ---- The invariant -------------------------------------------------------------------

  // The card in use after these events, "" when there is none.
  function Card(log: seq<Event>): string {
    if log == [] then ""
    else
      var e := log[|log| - 1];
      match e
      case NewCard(id) => id
      case CardDropped => ""
      case _ => Card(log[..|log| - 1])
  }

  // A card is created and adopted, and a message skipped, only when there is none; only the card in use is patched; and
  // a reply is made only when there is none, or right after the same text could not be put on it.
  predicate Fits(log: seq<Event>, e: Event) {
    match e
    case NewCard(id) => id != "" && Card(log) == ""
    case Patch(id, _, _) => id != "" && Card(log) == id
    case Started(_) => Card(log) == ""
    case NoId(_) => Card(log) == ""
    case Reply(text, _) => Card(log) == "" || (log != [] && log[|log| - 1] == Patch(Card(log), text, false))
    case _ => true
  }

  predicate Sound(log: seq<Event>) {
    forall k :: 0 <= k < |log| ==> Fits(log[..k], log[k])
  }

  predicate InProgress(c: Cards, source: string, t: nat) {
    t < |c.creations| && c.creations[t].source == source && c.creations[t].result.Running?
  }

  ghost predicate NoneRunning(c: Cards, source: string) {
    forall t: nat :: !InProgress(c, source, t)
  }

  // No finished creation with an id is waiting for its callback.
  predicate NonePending(c: Cards, source: string) {
    forall t :: 0 <= t < |c.creations| && c.creations[t].Pending(source) ==> c.creations[t].result.id == ""
  }

  ghost predicate CardsKept(c: Cards, source: string) {
    && (source in c.tasks ==>
          c.tasks[source] < |c.creations| && c.creations[c.tasks[source]].source == source &&
            !c.creations[c.tasks[source]].finalized)
    && (forall t :: 0 <= t < |c.creations| && c.creations[t].source == source && !c.creations[t].finalized ==>
          source in c.tasks && c.tasks[source] == t)
    && (forall t :: 0 <= t < |c.creations| && c.creations[t].source == source && c.creations[t].finalized ==>
          !c.creations[t].result.Running?)
    && (source in c.ids ==> c.ids[source] != "" && NoneRunning(c, source))
    && (forall t :: 0 <= t < |c.creations| && c.creations[t].Pending(source) ==>
          c.creations[t].result.id == Recorded(c, source))
  }

  // A call that put this text in front of the user.
  predicate Puts(e: Event, text: string) {
    (e.Patch? || e.Reply?) && e.ok && e.text == text
  }

  // No call since begun has succeeded.
  predicate NothingPut(log: seq<Event>, begun: nat) {
    forall k :: begun < k < |log| ==> !((log[k].Patch? || log[k].Reply?) && log[k].ok)
  }

  // Since begun exactly one call succeeded, and it put this text.
  predicate PutOnce(log: seq<Event>, begun: nat, text: string) {
    exists j :: begun < j < |log| && Puts(log[j], text) && NothingPut(log[..j], begun) && NothingPut(log, j)
  }

  // Since begun exactly one call succeeded, a patch with this text.
  predicate PatchedOnce(log: seq<Event>, begun: nat, text: string) {
    exists j :: begun < j < |log| && Puts(log[j], text) && log[j].Patch? && NothingPut(log[..j], begun) &&
                NothingPut(log, j)
  }

  // Since begun the creation of a card with this text was started, and it has not raised.
  ghost predicate StartedWith(st: State, source: string, begun: nat, text: string, t: nat) {
    && t < |st.cards.creations| && st.cards.creations[t].source == source && st.cards.creations[t].text == text
    && exists j :: begun < j < |Log(st, source)| && Log(st, source)[j] == Started(t)
  }

  predicate Gave(c: Cards, t: nat) {
    t < |c.creations| && c.creations[t].result.Returned?
  }

  // Since begun the message was skipped, because the creation it had awaited gave no id.
  ghost predicate SkippedFor(st: State, source: string, begun: nat, t: nat) {
    && t < |st.cards.creations| && st.cards.creations[t].source == source
    && st.cards.creations[t].result == Returned("")
    && exists j :: begun < j < |Log(st, source)| && Log(st, source)[j] == NoId(t)
  }

  // What became of a send that is not the final one and has returned.
  ghost predicate SeenTo(st: State, source: string, send: Send) {
    var log := Log(st, source);
    || PatchedOnce(log, send.begun, send.msg.text)
    || (NothingPut(log, send.begun) && exists t :: SkippedFor(st, source, send.begun, t))
    || (NothingPut(log, send.begun) &&
        exists t :: StartedWith(st, source, send.begun, send.msg.text, t) && Gave(st.cards, t))
  }

  ghost predicate SendKept(st: State, source: string, send: Send) {
    var log := Log(st, source);
    && send.begun < |log| && log[send.begun] == Began(send.msg) && send.attempt < MAX_RETRIES
    && (!send.at.Reacting? && !send.at.Done? ==> NothingPut(log, send.begun))
    && match send.at
       case Sleeping | Failed => true
       case AwaitingTask(t) =>
         && t < |st.cards.creations| && st.cards.creations[t].source == source
         && (forall u: nat :: InProgress(st.cards, source, u) ==> u == t)
         && (st.cards.creations[t].result.Returned? ==> st.cards.creations[t].result.id == Recorded(st.cards, source))
       case AwaitingEnsured(t) =>
         !send.msg.isFinal && StartedWith(st, source, send.begun, send.msg.text, t)
       case Patching(id) => id != "" && id == Recorded(st.cards, source)
       case Replying =>
         && send.msg.isFinal && NoneRunning(st.cards, source) && NonePending(st.cards, source)
         && Fits(log, Reply(send.msg.text, true))
       case Reacting =>
         send.msg.isFinal && source !in st.cards.ids && NoneRunning(st.cards, source) &&
           PutOnce(log, send.begun, send.msg.text)
       case Done =>
         if send.msg.isFinal then
           && source !in st.cards.ids && NoneRunning(st.cards, source) && PutOnce(log, send.begun, send.msg.text)
           && log[|log| - 1] == MarkedDone
         else SeenTo(st, source, send)
  }

  ghost predicate Kept(st: State, source: string) {
    && CardsKept(st.cards, source)
    && Sound(Log(st, source)) && Card(Log(st, source)) == Recorded(st.cards, source)
    && (source in st.sends ==> source in st.known && SendKept(st, source, st.sends[source]))
    && (forall t :: 0 <= t < |st.cards.creations| && st.cards.creations[t].source == source ==> source in st.known)
  }

  // ---- Each action keeps it ------------------------------------------------------------

  predicate SameFor(st: State, next: State, source: string) {
    && (source in st.cards.ids <==> source in next.cards.ids)
    && (source in st.cards.ids ==> st.cards.ids[source] == next.cards.ids[source])
    && (source in st.cards.tasks <==> source in next.cards.tasks)
    && (source in st.cards.tasks ==> st.cards.tasks[source] == next.cards.tasks[source])
    && |st.cards.creations| <= |next.cards.creations|
    && (forall t :: 0 <= t < |st.cards.creations| ==>
          && next.cards.creations[t].source == st.cards.creations[t].source
          && (st.cards.creations[t].source == source ==> next.cards.creations[t] == st.cards.creations[t]))
    && (forall t :: |st.cards.creations| <= t < |next.cards.creations| ==> next.cards.creations[t].source != source)
    && Log(next, source) == Log(st, source)
    && (source in st.sends <==> source in next.sends)
    && (source in st.sends ==> st.sends[source] == next.sends[source])
    && (source in st.known ==> source in next.known)
  }

  // The conversation an action belongs to.
  function Source(st: State, a: Action): string
    requires Enabled(st, a)
  {
    match a
    case Inbound(source) => source
    case Begin(source, _) => source
    case Attempt(source) => source
    case Wake(source) => source
    case PatchDone(source, _) => source
    case ReplyDone(source, _) => source
    case Reacted(source) => source
    case CreationDone(task, _) => st.cards.creations[task].source
    case Callback(task) => st.cards.creations[task].source
  }

  lemma OthersUntouched(st: State, a: Action, source: string)
    requires Enabled(st, a) && source != Source(st, a)
    ensures SameFor(st, Next(st, a), source)
  {
    match a
    case Attempt(_) => AttemptOthers(st, a, source);
    case Wake(_) => WakeOthers(st, a, source);
    case PatchDone(_, _) => PatchOthers(st, a, source);
    case ReplyDone(_, _) => ReplyOthers(st, a, source);
    case CreationDone(_, _) => CreationOthers(st, a, source);
    case _ =>
  }

  lemma AttemptOthers(st: State, a: Action, source: string)
    requires Enabled(st, a) && a.Attempt? && source != Source(st, a)
    ensures SameFor(st, Next(st, a), source)
  {
  }

  lemma WakeOthers(st: State, a: Action, source: string)
    requires Enabled(st, a) && a.Wake? && source != Source(st, a)
    ensures SameFor(st, Next(st, a), source)
  {
    hide Settle, Fail, SameFor, At, Logged;
    var s := a.source;
    var send := st.sends[s];
    var result := st.cards.creations[send.at.task].result;
    if result.Raised? {
      LoggedOthers(st, s, Broke(send.at.task), source);
      FailOthers(Logged(st, s, Broke(send.at.task)), s, source);
      SameForBoth(st, Logged(st, s, Broke(send.at.task)), Next(st, a), source);
    } else if send.at.AwaitingEnsured? {
      SettleOthers(st, s, source);
    } else if result.id != "" {
      AtOthers(st, s, Patching(result.id), source);
    } else if send.msg.isFinal {
      AtOthers(st, s, Replying, source);
    } else {
      LoggedOthers(st, s, NoId(send.at.task), source);
      SettleOthers(Logged(st, s, NoId(send.at.task)), s, source);
      SameForBoth(st, Logged(st, s, NoId(send.at.task)), Next(st, a), source);
    }
  }

  lemma LoggedOthers(st: State, s: string, e: Event, source: string)
    requires source != s
    ensures SameFor(st, Logged(st, s, e), source) && Logged(st, s, e).sends == st.sends
  {
  }

  lemma SameForBoth(a: State, b: State, c: State, source: string)
    requires SameFor(a, b, source) && SameFor(b, c, source)
    ensures SameFor(a, c, source)
  {
  }

  lemma SettleOthers(st: State, s: string, source: string)
    requires s in st.sends && source != s
    ensures SameFor(st, Settle(st, s), source)
  {
  }

  lemma FailOthers(st: State, s: string, source: string)
    requires s in st.sends && source != s
    ensures SameFor(st, Fail(st, s), source)
  {
  }

  lemma AtOthers(st: State, s: string, at: Point, source: string)
    requires s in st.sends && source != s
    ensures SameFor(st, At(st, s, at), source)
  {
  }

  lemma PatchOthers(st: State, a: Action, source: string)
    requires Enabled(st, a) && a.PatchDone? && source != Source(st, a)
    ensures SameFor(st, Next(st, a), source)
  {
  }

  lemma ReplyOthers(st: State, a: Action, source: string)
    requires Enabled(st, a) && a.ReplyDone? && source != Source(st, a)
    ensures SameFor(st, Next(st, a), source)
  {
  }

  lemma CreationOthers(st: State, a: Action, source: string)
    requires Enabled(st, a) && a.CreationDone? && source != Source(st, a)
    ensures SameFor(st, Next(st, a), source)
  {
  }

  // The log has only grown, and no creation for the source has changed but to finish.
  ghost predicate Continues(st: State, next: State, source: string) {
    && Log(st, source) <= Log(next, source) && |st.cards.creations| <= |next.cards.creations|
    && forall t :: 0 <= t < |st.cards.creations| && st.cards.creations[t].source == source ==>
       var before, now := st.cards.creations[t], next.cards.creations[t];
       now.source == source && now.text == before.text && (before.result.Running? || now.result == before.result)
  }

  lemma StartedStays(st: State, next: State, source: string, begun: nat, text: string, t: nat)
    requires StartedWith(st, source, begun, text, t) && Continues(st, next, source)
    ensures StartedWith(next, source, begun, text, t) && (Gave(st.cards, t) ==> Gave(next.cards, t))
  {
    var j :| begun < j < |Log(st, source)| && Log(st, source)[j] == Started(t);
    assert Log(next, source)[j] == Started(t);
  }

  lemma SkippedStays(st: State, next: State, source: string, begun: nat, t: nat)
    requires SkippedFor(st, source, begun, t) && Continues(st, next, source)
    ensures SkippedFor(next, source, begun, t)
  {
    var j :| begun < j < |Log(st, source)| && Log(st, source)[j] == NoId(t);
    assert Log(next, source)[j] == NoId(t);
  }

  lemma PatchedStays(log: seq<Event>, begun: nat, text: string, id: string)
    requires PatchedOnce(log, begun, text)
    ensures PatchedOnce(log + [NewCard(id)], begun, text)
  {
    var j :| begun < j < |log| && Puts(log[j], text) && log[j].Patch? && NothingPut(log[..j], begun) &&
             NothingPut(log, j);
    assert (log + [NewCard(id)])[..j] == log[..j] && Puts((log + [NewCard(id)])[j], text);
  }

  // What was seen to stays so while nothing more is put.
  lemma SeenToStays(st: State, next: State, source: string, send: Send)
    requires SeenTo(st, source, send) && Continues(st, next, source)
    requires Log(next, source) == Log(st, source) || exists id :: Log(next, source) == Log(st, source) + [NewCard(id)]
    ensures SeenTo(next, source, send)
  {
    hide PatchedOnce, NothingPut, StartedWith, SkippedFor, Continues, Gave;
    var log := Log(st, source);
    if Log(next, source) != log {
      var id :| Log(next, source) == log + [NewCard(id)];
      if PatchedOnce(log, send.begun, send.msg.text) {
        PatchedStays(log, send.begun, send.msg.text, id);
      } else {
        NewCardPutsNothing(log, send.begun, Returned(id));
      }
    }
    if !PatchedOnce(log, send.begun, send.msg.text) {
      if t :| SkippedFor(st, source, send.begun, t) {
        SkippedStays(st, next, source, send.begun, t);
      } else {
        var t :| StartedWith(st, source, send.begun, send.msg.text, t) && Gave(st.cards, t);
        StartedStays(st, next, source, send.begun, send.msg.text, t);
      }
    }
  }

  lemma SameContinues(st: State, next: State, source: string)
    requires SameFor(st, next, source)
    ensures Continues(st, next, source)
  {
  }

  lemma SameKept(st: State, next: State, source: string)
    requires SameFor(st, next, source) && Kept(st, source)
    ensures Kept(next, source)
  {
    hide SeenTo, StartedWith, Sound, Card, NothingPut, PutOnce, Fits;
    SameContinues(st, next, source);
    assert forall t: nat :: InProgress(next.cards, source, t) <==> InProgress(st.cards, source, t);
    if source in st.sends {
      var send := st.sends[source];
      if send.at.AwaitingEnsured? {
        StartedStays(st, next, source, send.begun, send.msg.text, send.at.task);
      } else if send.at.Done? && !send.msg.isFinal {
        SeenToStays(st, next, source, send);
      }
    }
  }

  // An unfinished creation is the one on record.
  lemma InProgressOnRecord(c: Cards, source: string)
    requires CardsKept(c, source)
    ensures forall t: nat :: InProgress(c, source, t) ==> source in c.tasks && c.tasks[source] == t
  {
  }

  lemma {:induction false} SoundAppend(log: seq<Event>, e: Event)
    requires Sound(log) && Fits(log, e)
    ensures Sound(log + [e])
    ensures Card(log + [e]) == (if e.NewCard? then e.id else if e.CardDropped? then "" else Card(log))
  {
    var more := log + [e];
    assert more[..|log|] == log;
    hide Fits;
    forall k | 0 <= k < |more| ensures Fits(more[..k], more[k]) {
      assert more[..k] == if k < |log| then log[..k] else log;
    }
  }

  lemma FirstPut(log: seq<Event>, begun: nat, e: Event, text: string)
    requires NothingPut(log, begun) && begun < |log| && Puts(e, text)
    ensures PutOnce(log + [e], begun, text) && PutOnce(log + [e] + [CardDropped], begun, text)
  {
    assert (log + [e])[..|log|] == log && (log + [e] + [CardDropped])[..|log|] == log;
    assert Puts((log + [e])[|log|], text) && Puts((log + [e] + [CardDropped])[|log|], text);
  }

  lemma InboundKept(st: State, source: string)
    requires Kept(st, source) && Enabled(st, Inbound(source))
    ensures Kept(Next(st, Inbound(source)), source)
  {
    hide Sound, Card, SendKept;
    if Recorded(st.cards, source) == "" && source !in st.cards.tasks {
      SoundAppend(Log(st, source), Started(|st.cards.creations|));
    }
  }

  lemma BeginKept(st: State, source: string, msg: Message)
    requires Kept(st, source) && Enabled(st, Begin(source, msg))
    ensures Kept(Next(st, Begin(source, msg)), source)
  {
    hide Sound, Card, CardsKept;
    SoundAppend(Log(st, source), Began(msg));
  }

  // A step of a send that logs e and leaves the cards alone keeps the invariant if it keeps what concerns the send.
  lemma LoggedKept(st: State, source: string, e: Event, send: Send)
    requires Kept(st, source) && source in st.sends && Fits(Log(st, source), e) && !e.NewCard? && !e.CardDropped?
    requires SendKept(Logged(st, source, e), source, send)
    ensures Kept(Logged(st, source, e).(sends := st.sends[source := send]), source)
  {
    hide CardsKept, Sound, Card, NothingPut, PutOnce, NoneRunning, NonePending, Fits, SeenTo, StartedWith;
    SoundAppend(Log(st, source), e);
    SendKeptThere(Logged(st, source, e), Logged(st, source, e).(sends := st.sends[source := send]), source, send);
  }

  // What concerns a send depends on the cards and the log only.
  lemma SendKeptThere(st: State, next: State, source: string, send: Send)
    requires SendKept(st, source, send) && next.cards == st.cards && Log(next, source) == Log(st, source)
    ensures SendKept(next, source, send)
  {
    hide SeenTo, StartedWith, Sound, Card, NothingPut, PutOnce, Fits;
    if send.at.AwaitingEnsured? {
      StartedStays(st, next, source, send.begun, send.msg.text, send.at.task);
    } else if send.at.Done? && !send.msg.isFinal {
      SeenToStays(st, next, source, send);
    }
  }

  // A step that logs nothing.
  lemma MovedKept(st: State, source: string, at: Point)
    requires Kept(st, source) && source in st.sends && SendKept(st, source, st.sends[source].(at := at))
    ensures Kept(At(st, source, at), source)
  {
    hide CardsKept, Sound, Card, NothingPut, PutOnce, NoneRunning, NonePending, Fits, SeenTo, StartedWith;
    SendKeptThere(st, At(st, source, at), source, st.sends[source].(at := at));
  }

  // The first step of an attempt.
  lemma AttemptKept(st: State, source: string)
    requires Kept(st, source) && Enabled(st, Attempt(source))
    ensures Kept(Next(st, Attempt(source)), source)
  {
    hide Sound, Card, NothingPut, PutOnce, SeenTo, StartedWith;
    InProgressOnRecord(st.cards, source);
    var (cards, at) := Attempted(st.cards, source, st.sends[source].msg);
    if |cards.creations| > |st.cards.creations| {
      StartingKept(st, source);
    } else {
      assert cards == st.cards;
      MovedKept(st, source, at);
    }
  }

  // An attempt that starts a creation.
  lemma StartingKept(st: State, source: string)
    requires Kept(st, source) && Enabled(st, Attempt(source)) && !st.sends[source].msg.isFinal
    requires Recorded(st.cards, source) == "" && source !in st.cards.tasks
    ensures Kept(Next(st, Attempt(source)), source)
  {
    hide Sound, Card, PutOnce, SeenTo;
    var log, t := Log(st, source), |st.cards.creations|;
    SoundAppend(log, Started(t));
    var next := Next(st, Attempt(source));
    assert Log(next, source) == log + [Started(t)];
    assert StartedWith(next, source, st.sends[source].begun, st.sends[source].msg.text, t) by {
      assert Log(next, source)[|log|] == Started(t);
    }
    hide StartedWith;
    NothingMore(log, st.sends[source].begun, Started(t));
  }

  lemma NothingMore(log: seq<Event>, begun: nat, e: Event)
    requires NothingPut(log, begun) && !((e.Patch? || e.Reply?) && e.ok)
    ensures NothingPut(log + [e], begun)
  {
  }

  // A call or an awaited creation failed.
  lemma FailKept(st: State, source: string, e: Event)
    requires Kept(st, source) && Suspended(st, source) && !st.sends[source].at.Reacting?
    requires Fits(Log(st, source), e) && (e.Broke? || ((e.Patch? || e.Reply?) && !e.ok))
    ensures Kept(Fail(Logged(st, source, e), source), source)
  {
    hide CardsKept, Sound, Card, NothingPut, PutOnce, NoneRunning, NonePending, Fits, SeenTo, StartedWith;
    var send := st.sends[source];
    NothingMore(Log(st, source), send.begun, e);
    var failed := Fail(Logged(st, source, e), source).sends[source];
    assert Log(Logged(st, source, e), source) == Log(st, source) + [e];
    LoggedKept(st, source, e, failed);
  }

  // A message that is not the final one has been seen to.
  lemma SettleKept(st: State, source: string, e: Event)
    requires Kept(st, source) && source in st.sends && !st.sends[source].msg.isFinal
    requires Fits(Log(st, source), e) && !e.NewCard? && !e.CardDropped?
    requires SeenTo(Logged(st, source, e), source, st.sends[source])
    ensures Kept(Settle(Logged(st, source, e), source), source)
  {
    hide CardsKept, Sound, Card, NothingPut, PutOnce, NoneRunning, NonePending, Fits, StartedWith, SkippedFor,
         PatchedOnce;
    var done := st.sends[source].(at := Done);
    assert SeenTo(Logged(st, source, e), source, done);
    hide SeenTo;
    assert Log(Logged(st, source, e), source) == Log(st, source) + [e];
    LoggedKept(st, source, e, done);
  }

  // The awaited creation gave an id: patch the card.
  lemma WokenPatches(st: State, source: string)
    requires Kept(st, source) && Woken(st, source) && st.sends[source].at.AwaitingTask?
    requires st.cards.creations[st.sends[source].at.task].result.Returned?
    requires st.cards.creations[st.sends[source].at.task].result.id != ""
    ensures Kept(At(st, source, Patching(st.cards.creations[st.sends[source].at.task].result.id)), source)
  {
    hide CardsKept, Sound, Card, NothingPut, PutOnce, SeenTo, StartedWith;
    MovedKept(st, source, Patching(st.cards.creations[st.sends[source].at.task].result.id));
  }

  // It gave none: a final message is sent as a reply.
  lemma WokenReplies(st: State, source: string)
    requires Kept(st, source) && Woken(st, source) && st.sends[source].at.AwaitingTask? && st.sends[source].msg.isFinal
    requires st.cards.creations[st.sends[source].at.task].result == Returned("")
    ensures Kept(At(st, source, Replying), source)
  {
    hide Sound, Card, NothingPut, PutOnce, SeenTo, StartedWith;
    MovedKept(st, source, Replying);
  }

  // And any other is skipped.
  lemma WokenSkips(st: State, source: string)
    requires Kept(st, source) && Woken(st, source) && st.sends[source].at.AwaitingTask? && !st.sends[source].msg.isFinal
    requires st.cards.creations[st.sends[source].at.task].result == Returned("")
    ensures Kept(Settle(Logged(st, source, NoId(st.sends[source].at.task)), source), source)
  {
    hide Sound, Card, PutOnce, PatchedOnce, CardsKept, StartedWith;
    var send := st.sends[source];
    var t, log := send.at.task, Log(st, source);
    var next := Logged(st, source, NoId(t));
    NothingMore(log, send.begun, NoId(t));
    assert Log(next, source) == log + [NoId(t)] && Log(next, source)[|log|] == NoId(t);
    assert SkippedFor(next, source, send.begun, t);
    hide SkippedFor, NothingPut;
    SettleKept(st, source, NoId(t));
  }

  // The creation it started itself has finished.
  lemma WokenEnsured(st: State, source: string)
    requires Kept(st, source) && Woken(st, source) && st.sends[source].at.AwaitingEnsured?
    requires st.cards.creations[st.sends[source].at.task].result.Returned?
    ensures Kept(Settle(st, source), source)
  {
    hide CardsKept, Sound, Card, NothingPut, PutOnce, PatchedOnce, StartedWith, SkippedFor;
    var send := st.sends[source];
    assert StartedWith(st, source, send.begun, send.msg.text, send.at.task) && Gave(st.cards, send.at.task);
    assert SeenTo(st, source, send.(at := Done));
    hide SeenTo;
    MovedKept(st, source, Done);
  }

  lemma WakeKept(st: State, source: string)
    requires Kept(st, source) && Enabled(st, Wake(source))
    ensures Kept(Next(st, Wake(source)), source)
  {
    hide Kept, Settle, Fail, SendKept;
    var send := st.sends[source];
    var result := st.cards.creations[send.at.task].result;
    if result.Raised? {
      FailKept(st, source, Broke(send.at.task));
    } else if send.at.AwaitingEnsured? {
      WokenEnsured(st, source);
    } else if result.id != "" {
      WokenPatches(st, source);
    } else if send.msg.isFinal {
      WokenReplies(st, source);
    } else {
      WokenSkips(st, source);
    }
  }

  lemma DropKept(c: Cards, source: string)
    requires CardsKept(c, source) && NoneRunning(c, source) && NonePending(c, source)
    ensures CardsKept(Dropped(c, source), source) && NoneRunning(Dropped(c, source), source)
  {
    var next := Dropped(c, source);
    assert forall t: nat :: InProgress(next, source, t) <==> InProgress(c, source, t);
  }

  // The call that puts the final text.
  lemma FinalKept(st: State, source: string, e: Event)
    requires Kept(st, source) && Suspended(st, source) && !st.sends[source].at.Reacting? && st.sends[source].msg.isFinal
    requires (e.Reply? || e.Patch?) && Fits(Log(st, source), e)
    requires Puts(e, st.sends[source].msg.text) && NoneRunning(st.cards, source) && NonePending(st.cards, source)
    ensures Kept(Settle(Logged(st, source, e), source), source)
  {
    hide Sound, PutOnce, NothingPut, CardsKept, NoneRunning, NonePending;
    var send := st.sends[source];
    var log := Log(st, source);
    SoundAppend(log, e);
    SoundAppend(log + [e], CardDropped);
    FirstPut(log, send.begun, e, send.msg.text);
    DropKept(st.cards, source);
    hide Puts;
    assert Log(Settle(Logged(st, source, e), source), source) == log + [e] + [CardDropped];
  }

  // The call that puts any other text.
  lemma PatchedKept(st: State, source: string, e: Event)
    requires Kept(st, source) && Suspended(st, source)
    requires !st.sends[source].at.Reacting? && !st.sends[source].msg.isFinal
    requires e.Patch? && Fits(Log(st, source), e) && Puts(e, st.sends[source].msg.text)
    ensures Kept(Settle(Logged(st, source, e), source), source)
  {
    hide Sound, Card, PutOnce, CardsKept, StartedWith, SkippedFor, NothingPut;
    var log, begun := Log(st, source), st.sends[source].begun;
    FirstPatched(log, begun, e, st.sends[source].msg.text);
    assert Log(Logged(st, source, e), source) == log + [e];
    assert SeenTo(Logged(st, source, e), source, st.sends[source]);
    hide SeenTo;
    SettleKept(st, source, e);
  }

  lemma FirstPatched(log: seq<Event>, begun: nat, e: Event, text: string)
    requires NothingPut(log, begun) && begun < |log| && Puts(e, text) && e.Patch?
    ensures PatchedOnce(log + [e], begun, text)
  {
    assert (log + [e])[..|log|] == log && Puts((log + [e])[|log|], text);
  }

  lemma PatchKept(st: State, source: string, ok: bool)
    requires Kept(st, source) && Enabled(st, PatchDone(source, ok))
    ensures Kept(Next(st, PatchDone(source, ok)), source)
  {
    hide CardsKept, Sound, Card, NothingPut, PutOnce, NoneRunning, NonePending, SeenTo, StartedWith, CallbacksRun;
    var send := st.sends[source];
    var e := Patch(send.at.id, send.msg.text, ok);
    AllRun(st.cards, source);
    assert Fits(Log(st, source), e);
    hide Fits;
    if ok && send.msg.isFinal {
      NoneRunningRecorded(st.cards, source);
      FinalKept(st, source, e);
    } else if ok {
      PatchedKept(st, source, e);
    } else if send.msg.isFinal {
      NoneRunningRecorded(st.cards, source);
      ReplyingKept(st, source);
    } else {
      FailKept(st, source, e);
    }
  }

  lemma NoneRunningRecorded(c: Cards, source: string)
    requires CardsKept(c, source)
    ensures Recorded(c, source) != "" ==> NoneRunning(c, source)
  {
  }

  lemma AllRun(c: Cards, source: string)
    requires CallbacksRun(c, source)
    ensures NonePending(c, source)
  {
  }

  // A final message whose patch failed is sent as a reply.
  lemma ReplyingKept(st: State, source: string)
    requires Kept(st, source) && source in st.sends && st.sends[source].at.Patching? && st.sends[source].msg.isFinal
    requires NonePending(st.cards, source) && NoneRunning(st.cards, source)
    ensures var send := st.sends[source];
            Kept(At(Logged(st, source, Patch(send.at.id, send.msg.text, false)), source, Replying), source)
  {
    hide CardsKept, Sound, NothingPut, PutOnce, NoneRunning, NonePending, SeenTo, StartedWith;
    var send := st.sends[source];
    var e, log := Patch(send.at.id, send.msg.text, false), Log(st, source);
    NothingMore(log, send.begun, e);
    SoundAppend(log, e);
    assert Log(Logged(st, source, e), source) == log + [e];
    assert Fits(log + [e], Reply(send.msg.text, true));
    hide Card, Fits;
    LoggedKept(st, source, e, send.(at := Replying));
  }

  lemma ReplyKept(st: State, source: string, ok: bool)
    requires Kept(st, source) && Enabled(st, ReplyDone(source, ok))
    ensures Kept(Next(st, ReplyDone(source, ok)), source)
  {
    hide CardsKept, Sound, Card, NothingPut, PutOnce, NoneRunning, NonePending, SeenTo, StartedWith;
    var e := Reply(st.sends[source].msg.text, ok);
    assert Fits(Log(st, source), e);
    if ok {
      FinalKept(st, source, e);
    } else {
      FailKept(st, source, e);
    }
  }

  lemma ReactedKept(st: State, source: string)
    requires Kept(st, source) && Enabled(st, Reacted(source))
    ensures Kept(Next(st, Reacted(source)), source)
  {
    hide CardsKept, Sound, Card, NothingPut, PutOnce, NoneRunning, NonePending, SeenTo, StartedWith;
    var send, log := st.sends[source], Log(st, source);
    PutOnceMore(log, send.begun, send.msg.text, MarkedDone);
    assert Log(Logged(st, source, MarkedDone), source) == log + [MarkedDone];
    LoggedKept(st, source, MarkedDone, send.(at := Done));
  }

  lemma PutOnceMore(log: seq<Event>, begun: nat, text: string, e: Event)
    requires PutOnce(log, begun, text) && !e.Patch? && !e.Reply?
    ensures PutOnce(log + [e], begun, text)
  {
    var j :| begun < j < |log| && Puts(log[j], text) && NothingPut(log[..j], begun) && NothingPut(log, j);
    assert (log + [e])[..j] == log[..j] && Puts((log + [e])[j], text);
  }

  lemma NewCardPutsNothing(log: seq<Event>, begun: nat, result: Result)
    ensures NothingPut(log, begun) && result.Returned? ==> NothingPut(log + [NewCard(result.id)], begun)
  {
  }

  // The one running creation of the source has finished.
  lemma FinishKept(c: Cards, task: nat, result: Result)
    requires task < |c.creations| && c.creations[task].result.Running? && !result.Running?
    requires CardsKept(c, c.creations[task].source)
    ensures var source := c.creations[task].source;
            && Recorded(c, source) == "" && CardsKept(Finished(c, task, result), source)
            && NoneRunning(Finished(c, task, result), source)
  {
    var source := c.creations[task].source;
    assert InProgress(c, source, task);
    InProgressOnRecord(c, source);
    var next := Finished(c, task, result);
    forall u: nat ensures !InProgress(next, source, u) {
      assert InProgress(next, source, u) ==> InProgress(c, source, u);
    }
  }

  lemma CreationSendKept(st: State, task: nat, result: Result)
    requires Enabled(st, CreationDone(task, result)) && Kept(st, st.cards.creations[task].source)
    requires st.cards.creations[task].source in st.sends
    ensures var source := st.cards.creations[task].source;
            SendKept(CreationNext(st, task, result), source, st.sends[source])
  {
    hide Sound, Card, Fits, NothingPut, PutOnce, CardsKept, SeenTo, StartedWith;
    var source := st.cards.creations[task].source;
    var send, next := st.sends[source], CreationNext(st, task, result);
    assert InProgress(st.cards, source, task);
    FinishKept(st.cards, task, result);
    NewCardPutsNothing(Log(st, source), send.begun, result);
    assert Log(next, source) == Log(st, source) || Log(next, source) == Log(st, source) + [NewCard(result.id)];
    assert Continues(st, next, source);
    if send.at.AwaitingEnsured? {
      StartedStays(st, next, source, send.begun, send.msg.text, send.at.task);
    } else if send.at.Done? && !send.msg.isFinal {
      SeenToStays(st, next, source, send);
    }
  }

  lemma CreationDoneKept(st: State, task: nat, result: Result)
    requires Enabled(st, CreationDone(task, result)) && Kept(st, st.cards.creations[task].source)
    ensures Kept(Next(st, CreationDone(task, result)), st.cards.creations[task].source)
  {
    hide Sound, SendKept, CardsKept;
    var source := st.cards.creations[task].source;
    FinishKept(st.cards, task, result);
    if source in st.sends {
      CreationSendKept(st, task, result);
    }
    if result.Returned? && result.id != "" {
      SoundAppend(Log(st, source), NewCard(result.id));
    }
  }

  lemma CallbackKept(st: State, task: nat)
    requires Enabled(st, Callback(task)) && Kept(st, st.cards.creations[task].source)
    ensures Kept(Next(st, Callback(task)), st.cards.creations[task].source)
  {
    hide Sound, Card, Fits, NothingPut, PutOnce, SeenTo, StartedWith;
    var source := st.cards.creations[task].source;
    var next := Next(st, Callback(task));
    assert Continues(st, next, source);
    if source in st.sends {
      var send := st.sends[source];
      if send.at.AwaitingEnsured? {
        StartedStays(st, next, source, send.begun, send.msg.text, send.at.task);
      } else if send.at.Done? && !send.msg.isFinal {
        SeenToStays(st, next, source, send);
      }
    }
  }

  // ---- Every run -----------------------------------------------------------------------

  lemma NextKept(st: State, a: Action, source: string)
    requires Enabled(st, a) && Kept(st, source)
    ensures Kept(Next(st, a), source)
  {
    hide Kept, SameFor;
    if source == Source(st, a) {
      match a
      case Inbound(_) => InboundKept(st, source);
      case Begin(_, msg) => BeginKept(st, source, msg);
      case Attempt(_) => AttemptKept(st, source);
      case Wake(_) => WakeKept(st, source);
      case PatchDone(_, ok) => PatchKept(st, source, ok);
      case ReplyDone(_, ok) => ReplyKept(st, source, ok);
      case Reacted(_) => ReactedKept(st, source);
      case CreationDone(task, result) => CreationDoneKept(st, task, result);
      case Callback(task) => CallbackKept(st, task);
    } else {
      OthersUntouched(st, a, source);
      SameKept(st, Next(st, a), source);
    }
  }

  lemma StepOf(states: seq<State>, actions: seq<Action>, i: nat)
    requires IsRun(states, actions) && i + 1 < |states|
    ensures i < |actions| && Enabled(states[i], actions[i]) && states[i + 1] == Next(states[i], actions[i])
  {
    hide Enabled, Next;
    var j := i + 1;
    assert i < |actions|;
    var before, a, after := states[i], actions[i], states[j];
    assert Enabled(before, a);
  }

  lemma StartKept(states: seq<State>, actions: seq<Action>, source: string)
    requires IsRun(states, actions)
    ensures Kept(states[0], source) && Counted(states[0], source)
  {
  }

  lemma {:induction false} EveryRunKept(states: seq<State>, actions: seq<Action>, i: nat, source: string)
    requires IsRun(states, actions) && i < |states|
    ensures Kept(states[i], source)
  {
    hide *;
    if i == 0 {
      StartKept(states, actions, source);
    } else {
      EveryRunKept(states, actions, i - 1, source);
      StepOf(states, actions, i - 1);
      NextKept(states[i - 1], actions[i - 1], source);
    }
  }

  // At most one creation for a source message is outstanding, whatever the interleaving.
  lemma OneCreationAtATime(states: seq<State>, actions: seq<Action>, i: nat, source: string, t: nat, u: nat)
    requires IsRun(states, actions) && i < |states|
    requires InProgress(states[i].cards, source, t) && InProgress(states[i].cards, source, u)
    ensures t == u
  {
    EveryRunKept(states, actions, i, source);
    InProgressOnRecord(states[i].cards, source);
  }

  // A creation is on record for its source exactly until its done-callback has run, and no other is.
  lemma OnRecordUntilCallback(states: seq<State>, actions: seq<Action>, i: nat, source: string, t: nat)
    requires IsRun(states, actions) && i < |states|
    ensures var c := states[i].cards;
            source in c.tasks && c.tasks[source] == t <==>
            t < |c.creations| && c.creations[t].source == source && !c.creations[t].finalized
  {
    EveryRunKept(states, actions, i, source);
  }

  predicate InUse(log: seq<Event>, i: nat, j: nat) {
    i < j <= |log| && log[i].NewCard? && forall k :: i < k < j ==> !log[k].NewCard? && !log[k].CardDropped?
  }

  lemma CardStep(log: seq<Event>, j: nat)
    requires 0 < j <= |log|
    ensures var e := log[j - 1];
            Card(log[..j]) == if e.NewCard? then e.id else if e.CardDropped? then "" else Card(log[..j - 1])
  {
    assert log[..j][..j - 1] == log[..j - 1];
  }

  lemma NoCard(log: seq<Event>)
    ensures Card(log[..0]) == ""
  {
  }

  lemma InUseMore(log: seq<Event>, i: nat, j: nat)
    requires j < |log|
    ensures InUse(log, i, j + 1) <==>
            if i == j then log[j].NewCard? else InUse(log, i, j) && !log[j].NewCard? && !log[j].CardDropped?
  {
  }

  lemma SoundAt(log: seq<Event>, j: nat)
    requires Sound(log) && j < |log|
    ensures log[j].NewCard? ==> log[j].id != "" && Card(log[..j]) == ""
    ensures log[j].Patch? ==> log[j].id != "" && Card(log[..j]) == log[j].id
  {
  }

  lemma UsedAre(log: seq<Event>)
    ensures forall i: nat, j: nat :: InUse(log, i, j) ==> i < j <= |log| && log[i].NewCard?
  {
  }

  // The card in use is the last one recorded, if no final message has dropped it.
  lemma {:induction false} CardInUse(log: seq<Event>, j: nat)
    requires Sound(log) && j <= |log|
    ensures Card(log[..j]) != "" ==> exists i: nat :: InUse(log, i, j) && log[i].id == Card(log[..j])
    ensures forall i: nat :: InUse(log, i, j) ==> Card(log[..j]) == log[i].id != ""
    decreases j
  {
    hide Sound, Card, InUse;
    UsedAre(log);
    if j == 0 {
      NoCard(log);
    } else {
      CardInUse(log, j - 1);
      CardStep(log, j);
      SoundAt(log, j - 1);
      var e := log[j - 1];
      if e.NewCard? {
        InUseMore(log, j - 1, j - 1);
      } else if !e.CardDropped? && Card(log[..j - 1]) != "" {
        var i: nat :| InUse(log, i, j - 1) && log[i].id == Card(log[..j - 1]);
        InUseMore(log, i, j - 1);
      }
      forall i: nat | InUse(log, i, j) ensures Card(log[..j]) == log[i].id != "" {
        InUseMore(log, i, j - 1);
      }
    }
  }

  // Until a final message has dropped the card, at most one card is ever recorded and every patch is made to it.
  lemma OneCardUntilFinal(states: seq<State>, actions: seq<Action>, n: nat, source: string, lo: nat, hi: nat)
    requires IsRun(states, actions) && n < |states|
    requires lo <= hi <= |Log(states[n], source)|
    requires forall k :: lo <= k < hi ==> !Log(states[n], source)[k].CardDropped?
    ensures var log := Log(states[n], source);
            forall i, j :: lo <= i < j < hi && log[i].NewCard? ==>
              !log[j].NewCard? && (log[j].Patch? ==> log[j].id == log[i].id)
  {
    EveryRunKept(states, actions, n, source);
    var log := Log(states[n], source);
    forall i, j | lo <= i < j < hi && log[i].NewCard?
      ensures !log[j].NewCard? && (log[j].Patch? ==> log[j].id == log[i].id)
    {
      SameCard(log, i, j);
    }
  }

  lemma {:induction false} SameCard(log: seq<Event>, i: nat, j: nat)
    requires Sound(log) && i < j <= |log| && log[i].NewCard? && forall k :: i <= k < j ==> !log[k].CardDropped?
    ensures InUse(log, i, j) && Card(log[..j]) == log[i].id
    ensures j < |log| ==> !log[j].NewCard? && (log[j].Patch? ==> log[j].id == log[i].id)
    decreases j
  {
    hide Sound, Card;
    if j > i + 1 {
      SameCard(log, i, j - 1);
    }
    CardInUse(log, j);
    if j < |log| {
      SoundAt(log, j);
    }
  }

  // Every patch is made to the card recorded last, after the last final message.
  lemma PatchesTheLastCard(states: seq<State>, actions: seq<Action>, n: nat, source: string, j: nat)
    requires IsRun(states, actions) && n < |states|
    requires j < |Log(states[n], source)| && Log(states[n], source)[j].Patch?
    ensures var log := Log(states[n], source);
            exists i: nat :: InUse(log, i, j) && log[i].id == log[j].id
  {
    EveryRunKept(states, actions, n, source);
    CardInUse(Log(states[n], source), j);
  }

  // A final send that returned put its text by exactly one successful call, a patch or a reply; no card id is recorded
  // for the source any more and no creation that could record one is running. One that raised put nothing.
  lemma FinalDelivered(states: seq<State>, actions: seq<Action>, n: nat, source: string)
    requires IsRun(states, actions) && n < |states| && source in states[n].sends
    requires states[n].sends[source].Over() && states[n].sends[source].msg.isFinal
    ensures var st := states[n];
            var send := st.sends[source];
            var log := Log(st, source);
            && send.begun < |log| && log[send.begun] == Began(send.msg)
            && (send.at.Done? ==>
                  && PutOnce(log, send.begun, send.msg.text)
                  && source !in st.cards.ids
                  && NoneRunning(st.cards, source)
                  && log[|log| - 1] == MarkedDone)
            && (send.at.Failed? ==> NothingPut(log, send.begun))
  {
    EveryRunKept(states, actions, n, source);
  }

  // A send that is not the final one and has returned put its text by exactly one successful patch; or it was skipped,
  // having awaited a creation that gave no id; or it had a card created with its text. One that raised put nothing.
  lemma UpdateDelivered(states: seq<State>, actions: seq<Action>, n: nat, source: string)
    requires IsRun(states, actions) && n < |states| && source in states[n].sends
    requires states[n].sends[source].Over() && !states[n].sends[source].msg.isFinal
    ensures var st := states[n];
            var send := st.sends[source];
            var log := Log(st, source);
            && send.begun < |log| && log[send.begun] == Began(send.msg)
            && (send.at.Done? ==>
                  || PatchedOnce(log, send.begun, send.msg.text)
                  || (NothingPut(log, send.begun) && exists t :: SkippedFor(st, source, send.begun, t))
                  || (NothingPut(log, send.begun) &&
                      exists t :: StartedWith(st, source, send.begun, send.msg.text, t) && Gave(st.cards, t)))
            && (send.at.Failed? ==> NothingPut(log, send.begun))
  {
    hide StartedWith, SkippedFor, Gave, PatchedOnce, CardsKept, Sound;
    EveryRunKept(states, actions, n, source);
  }

  // Cards are started and messages skipped only where there is no card, only the card in use is patched, and replies
  // are made only where there is none or right after it could not be patched with the same text.
  lemma CallsFit(states: seq<State>, actions: seq<Action>, n: nat, source: string, k: nat)
    requires IsRun(states, actions) && n < |states| && k < |Log(states[n], source)|
    ensures var log := Log(states[n], source);
            match log[k]
            case Started(_) => Card(log[..k]) == ""
            case NoId(_) => Card(log[..k]) == ""
            case Patch(id, _, _) => Card(log[..k]) == id != ""
            case Reply(text, _) =>
              Card(log[..k]) == "" || (k > 0 && log[k - 1] == Patch(Card(log[..k]), text, false))
            case _ => true
  {
    EveryRunKept(states, actions, n, source);
    assert Fits(Log(states[n], source)[..k], Log(states[n], source)[k]);
  }

  // A call of this event's send that failed; a final message whose patch failed is still sent as a reply.
  predicate Flop(e: Event, isFinal: bool) {
    e.Broke? || (e.Reply? && !e.ok) || (e.Patch? && !e.ok && !isFinal)
  }

  function Flops(log: seq<Event>, begun: nat, isFinal: bool): nat {
    if |log| <= begun + 1 then 0
    else Flops(log[..|log| - 1], begun, isFinal) + if Flop(log[|log| - 1], isFinal) then 1 else 0
  }

  // The attempts of a send are its failures so far, and the third is the last.
  ghost predicate Counted(st: State, source: string) {
    source in st.sends ==>
      var send := st.sends[source];
      && send.begun < |Log(st, source)|
      && Flops(Log(st, source), send.begun, send.msg.isFinal) == (if send.at.Failed? then 3 else send.attempt)
      && send.attempt < 3
  }

  lemma FlopsMore(log: seq<Event>, e: Event, begun: nat, isFinal: bool)
    requires begun < |log|
    ensures Flops(log + [e], begun, isFinal) == Flops(log, begun, isFinal) + if Flop(e, isFinal) then 1 else 0
  {
    assert (log + [e])[..|log|] == log;
  }

  // A step that logs e, if anything, and sets the attempt and the point.
  lemma CountedMore(st: State, next: State, source: string, e: Event)
    requires Counted(st, source) && source in st.sends && source in next.sends
    requires Log(next, source) == Log(st, source) + [e]
    requires next.sends[source].msg == st.sends[source].msg && next.sends[source].begun == st.sends[source].begun
    requires !st.sends[source].at.Failed?
    requires if Flop(e, st.sends[source].msg.isFinal) then
               if st.sends[source].attempt + 1 < 3 then
                 next.sends[source].attempt == st.sends[source].attempt + 1 && !next.sends[source].at.Failed?
               else next.sends[source].at.Failed? && next.sends[source].attempt == st.sends[source].attempt
             else next.sends[source].attempt == st.sends[source].attempt && !next.sends[source].at.Failed?
    ensures Counted(next, source)
  {
    FlopsMore(Log(st, source), e, st.sends[source].begun, st.sends[source].msg.isFinal);
  }

  lemma CountedNext(st: State, a: Action, source: string)
    requires Enabled(st, a) && Kept(st, source) && Counted(st, source)
    ensures Counted(Next(st, a), source)
  {
    hide SameFor, Kept, Flop, Flops;
    if source != Source(st, a) {
      OthersUntouched(st, a, source);
      CountedThere(st, Next(st, a), source);
    } else {
      match a
      case Inbound(_) => NotSentYet(st, source);
      case Begin(_, msg) => CountedBegin(st, source, msg);
      case Attempt(_) => CountedAttempt(st, source);
      case Wake(_) => CountedWake(st, source);
      case PatchDone(_, ok) => CountedPatch(st, source, ok);
      case ReplyDone(_, ok) => CountedReply(st, source, ok);
      case Reacted(_) => CountedReacted(st, source);
      case CreationDone(task, result) => CountedCreation(st, task, result);
      case Callback(_) => CountedThere(st, Next(st, a), source);
    }
  }

  lemma NotSentYet(st: State, source: string)
    requires Kept(st, source) && source !in st.known
    ensures source !in st.sends
  {
    hide SendKept, CardsKept, Sound;
  }

  lemma CountedThere(st: State, next: State, source: string)
    requires Counted(st, source) && Log(next, source) == Log(st, source)
    requires source in next.sends ==> source in st.sends && st.sends[source] == next.sends[source]
    ensures Counted(next, source)
  {
    hide Flops;
  }

  lemma CountedBegin(st: State, source: string, msg: Message)
    requires Enabled(st, Begin(source, msg))
    ensures Counted(Next(st, Begin(source, msg)), source)
  {
  }

  lemma CountedReacted(st: State, source: string)
    requires Enabled(st, Reacted(source)) && Counted(st, source)
    ensures Counted(Next(st, Reacted(source)), source)
  {
    hide Flops;
    CountedMore(st, Next(st, Reacted(source)), source, MarkedDone);
  }

  lemma CountedAttempt(st: State, source: string)
    requires Enabled(st, Attempt(source)) && Counted(st, source)
    ensures Counted(Next(st, Attempt(source)), source)
  {
    hide Flops;
    var (cards, at) := Attempted(st.cards, source, st.sends[source].msg);
    var next := Next(st, Attempt(source));
    if |cards.creations| > |st.cards.creations| {
      CountedMore(st, next, source, Started(|st.cards.creations|));
    }
  }

  lemma CountedWake(st: State, source: string)
    requires Enabled(st, Wake(source)) && Kept(st, source) && Counted(st, source)
    ensures Counted(Next(st, Wake(source)), source)
  {
    hide Flops, CardsKept, Sound, StartedWith, NothingPut;
    var send, next := st.sends[source], Next(st, Wake(source));
    var result := st.cards.creations[send.at.task].result;
    if result.Raised? {
      CountedMore(st, next, source, Broke(send.at.task));
    } else if send.at.AwaitingTask? && result.id == "" && !send.msg.isFinal {
      CountedMore(st, next, source, NoId(send.at.task));
    }
  }

  lemma CountedPatch(st: State, source: string, ok: bool)
    requires Enabled(st, PatchDone(source, ok)) && Counted(st, source)
    ensures Counted(Next(st, PatchDone(source, ok)), source)
  {
    hide Flops, CallbacksRun;
    var send := st.sends[source];
    var e := Patch(send.at.id, send.msg.text, ok);
    var next := Next(st, PatchDone(source, ok));
    if ok && send.msg.isFinal {
      CountedSettled(st, source, e);
    } else {
      CountedMore(st, next, source, e);
    }
  }

  lemma CountedReply(st: State, source: string, ok: bool)
    requires Enabled(st, ReplyDone(source, ok)) && Counted(st, source)
    ensures Counted(Next(st, ReplyDone(source, ok)), source)
  {
    hide Flops;
    var send := st.sends[source];
    var e := Reply(send.msg.text, ok);
    if ok && send.msg.isFinal {
      CountedSettled(st, source, e);
    } else {
      CountedMore(st, Next(st, ReplyDone(source, ok)), source, e);
    }
  }

  // The final text was put, and the card dropped.
  lemma CountedSettled(st: State, source: string, e: Event)
    requires Counted(st, source) && source in st.sends && st.sends[source].msg.isFinal && !st.sends[source].at.Failed?
    requires !Flop(e, true)
    ensures Counted(Settle(Logged(st, source, e), source), source)
  {
    hide Flops;
    var middle := Logged(st, source, e);
    CountedMore(st, middle, source, e);
    CountedMore(middle, Settle(middle, source), source, CardDropped);
  }

  lemma CountedCreation(st: State, task: nat, result: Result)
    requires Enabled(st, CreationDone(task, result)) && Counted(st, st.cards.creations[task].source)
    ensures Counted(Next(st, CreationDone(task, result)), st.cards.creations[task].source)
  {
    hide Flops;
    var source := st.cards.creations[task].source;
    if source in st.sends && result.Returned? && result.id != "" {
      FlopsMore(Log(st, source), NewCard(result.id), st.sends[source].begun, st.sends[source].msg.isFinal);
    }
  }

  // A send that raised did so at its third failure: a patch or a reply that failed, or a creation that raised; every
  // other has failed at most twice, once for each attempt behind it.
  lemma {:induction false} ThirdFailureRaises(states: seq<State>, actions: seq<Action>, n: nat, source: string)
    requires IsRun(states, actions) && n < |states|
    ensures Counted(states[n], source)
  {
    hide *;
    if n == 0 {
      StartKept(states, actions, source);
    } else {
      ThirdFailureRaises(states, actions, n - 1, source);
      EveryRunKept(states, actions, n - 1, source);
      StepOf(states, actions, n - 1);
      CountedNext(states[n - 1], actions[n - 1], source);
    }
  }

  // No send hangs: there is always something that can happen to it, or to the creation it waits for.
  lemma NoSendHangs(states: seq<State>, actions: seq<Action>, n: nat, source: string)
    requires IsRun(states, actions) && n < |states| && Suspended(states[n], source)
    ensures exists a :: Enabled(states[n], a) && Source(states[n], a) == source && !a.Begin? && !a.Inbound?
  {
    EveryRunKept(states, actions, n, source);
    hide IsRun, CardsKept, Sound, NothingPut, PutOnce, SeenTo, Fits;
    var st := states[n];
    match st.sends[source].at
    case Sleeping => assert Enabled(st, Attempt(source)) && Source(st, Attempt(source)) == source;
    case AwaitingTask(t) => TaskGoesOn(st, source, t);
    case AwaitingEnsured(t) => TaskGoesOn(st, source, t);
    case Patching(_) =>
      if CallbacksRun(st.cards, source) {
        assert Enabled(st, PatchDone(source, true)) && Source(st, PatchDone(source, true)) == source;
      } else {
        var t: nat :| t < |st.cards.creations| && st.cards.creations[t].source == source &&
                      !st.cards.creations[t].result.Running? && !st.cards.creations[t].finalized;
        assert Enabled(st, Callback(t)) && Source(st, Callback(t)) == source;
      }
    case Replying => assert Enabled(st, ReplyDone(source, true)) && Source(st, ReplyDone(source, true)) == source;
    case Reacting => assert Enabled(st, Reacted(source)) && Source(st, Reacted(source)) == source;
  }

  lemma TaskGoesOn(st: State, source: string, t: nat)
    requires source in st.sends && t < |st.cards.creations| && st.cards.creations[t].source == source
    requires st.sends[source].at == AwaitingTask(t) || st.sends[source].at == AwaitingEnsured(t)
    ensures exists a :: Enabled(st, a) && Source(st, a) == source && !a.Begin? && !a.Inbound?
  {
    if st.cards.creations[t].result.Running? {
      assert Enabled(st, CreationDone(t, Raised)) && Source(st, CreationDone(t, Raised)) == source;
    } else {
      assert Enabled(st, Wake(source)) && Source(st, Wake(source)) == source;
    }
  }

  // The first message of a conversation starts a card saying that work is under way.
  lemma InboundStartsCard(st: State, source: string)
    requires Kept(st, source) && Enabled(st, Inbound(source)) && Recorded(st.cards, source) == ""
    ensures var next := Next(st, Inbound(source));
            var t := |st.cards.creations|;
            && InProgress(next.cards, source, t) && next.cards.creations[t].text == "Working on it..."
            && Log(next, source) == Log(st, source) + [Started(t)]
  {
    hide Sound, Card, SendKept;
  }
}
