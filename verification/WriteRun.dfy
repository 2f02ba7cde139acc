/**
  Writing and assembling a report: run_write and _write_section (writing-service/app/harness/runners.py).

  run_write is an asynchronous generator: it starts one task per section of a batch, polls them, and yields what
  they put on a shared queue. It is modelled as a state machine whose actions are the stretches of code between
  two suspension points, of the tasks and of the generator; a run is any sequence of enabled actions. Agents are
  oracles: an action says what an agent returned, or that it raised, or that the section's time ran out.
 */
module WriteRun {
  import opened Common
  import opened Layering

  datatype Draft = Draft(content: string, checkerStatus: string, retryCount: int)

  const TIMEOUT_DRAFT := Draft("[Section timed out]", "timeout", 0)

  datatype Event =
    | SectionStarted(id: string)
    | StepComplete(id: string, step: string, status: string)
    | SectionComplete(id: string, draft: Draft)
    | SectionRetry(id: string, retryCount: int, reason: string)
    | Assembling
    | WriteComplete(assembled: string)
    | WriteError(section: Option<string>)
  {
    // An event a section's own work reports.
    predicate Reports(sectionId: string) {
      (SectionStarted? || StepComplete? || SectionComplete? || SectionRetry?) && id == sectionId
    }

    predicate OfSection() {
      SectionStarted? || StepComplete? || SectionComplete? || SectionRetry?
    }
  }

  datatype Phase = Created | Writing | Editing | Checking | Returned(draft: Draft) | Expired | Failed

  datatype Task = Task(phase: Phase, retries: nat) {
    predicate Running() {
      phase.Created? || phase.Writing? || phase.Editing? || phase.Checking?
    }
  }

  // Where the generator is suspended.
  datatype Main =
    | NextBatch                     // about to take the next batch, or to assemble
    | Draining                      // yielding queued events at the top of the polling loop
    | Waiting                       // in asyncio.wait
    | Handling(done: set<string>)   // going through the finished tasks
    | FinalDrain                    // yielding what the batch left on the queue
    | AtAssembler(args: seq<Draft>) // AssemblingEvent yielded, assembler invoked on args
    | Completed(args: seq<Draft>)
    | Failing                       // an exception is on its way to the outer handler
    | Stopped

  datatype State = State(
    batch: nat,
    main: Main,
    pending: set<string>,
    tasks: map<string, Task>,
    queue: seq<Event>,
    drafts: map<string, Draft>,
    out: seq<Event>)

  datatype Action =
    | Begin(id: string)
    | WriterReturns(id: string)
    | EditorReturns(id: string)
    | CheckerReturns(id: string, content: string, status: string, notes: string)
    | AgentRaises(id: string)
    | Expire(id: string)
    | StartBatch
    | YieldQueued
    | StopDraining
    | WaitReturns(finished: set<string>)
    | Handle(id: string)
    | StopHandling
    | EndBatch
    | AssemblerReturns(text: string)
    | AssemblerRaises
    | YieldFinalError

  datatype Config = Config(sections: seq<Section>, batches: seq<seq<string>>, maxRetries: int)

  // The batches cover the sections, each once. What GetDependencyOrder returns does, with or without its fallback.
  ghost predicate ValidConfig(cfg: Config) {
    Partition(cfg.sections, cfg.batches)
  }

  // ---- The step relation ---------------------------------------------------------------

  function Init(): State {
    State(0, NextBatch, {}, map[], [], map[], [])
  }

  predicate PhaseIs(s: State, id: string, phase: Phase) {
    id in s.tasks && s.tasks[id].phase == phase
  }

  predicate Enabled(cfg: Config, s: State, a: Action) {
    match a
    case Begin(id) => PhaseIs(s, id, Created)
    case WriterReturns(id) => PhaseIs(s, id, Writing)
    case EditorReturns(id) => PhaseIs(s, id, Editing)
    case CheckerReturns(id, _, _, _) => PhaseIs(s, id, Checking)
    case AgentRaises(id) => PhaseIs(s, id, Writing) || PhaseIs(s, id, Editing) || PhaseIs(s, id, Checking)
    case Expire(id) => id in s.tasks && s.tasks[id].Running()
    case StartBatch => s.main.NextBatch?
    case YieldQueued => (s.main.Draining? || s.main.FinalDrain?) && s.queue != []
    case StopDraining => s.main.Draining? && s.queue == []
    case WaitReturns(finished) =>
      && s.main.Waiting? && finished <= s.pending
      && forall id :: id in finished ==> id in s.tasks && !s.tasks[id].Running()
    case Handle(id) => s.main.Handling? && id in s.main.done && id in s.tasks && !s.tasks[id].Running()
    case StopHandling => s.main == Handling({})
    case EndBatch => s.main.FinalDrain? && s.queue == []
    case AssemblerReturns(_) => s.main.AtAssembler?
    case AssemblerRaises => s.main.AtAssembler?
    case YieldFinalError => s.main.Failing?
  }

  // The completed drafts in structure order; a section without one is left out.
  function OrderedDrafts(sections: seq<Section>, drafts: map<string, Draft>): seq<Draft> {
    if sections == [] then []
    else
      var rest := OrderedDrafts(sections[..|sections| - 1], drafts);
      var id := sections[|sections| - 1].sectionId;
      if id in drafts then rest + [drafts[id]] else rest
  }

  function Put(s: State, id: string, task: Task, events: seq<Event>): State {
    s.(tasks := s.tasks[id := task], queue := s.queue + events)
  }

  function CheckerStep(cfg: Config, s: State, id: string, content: string, status: string, notes: string): State
    requires id in s.tasks
  {
    var r := s.tasks[id].retries;
    var checked := StepComplete(id, "checker", status);
    if status == "fail" && r < cfg.maxRetries then
      Put(s, id, Task(Writing, r + 1), [checked, SectionRetry(id, r + 1, notes), SectionStarted(id)])
    else
      var draft := Draft(content, status, r);
      Put(s, id, Task(Returned(draft), r), [checked, SectionComplete(id, draft)])
  }

  function StartStep(cfg: Config, s: State): State {
    if s.batch < |cfg.batches| then
      var batch := set id | id in cfg.batches[s.batch];
      s.(main := Draining, pending := batch, tasks := s.tasks + map id | id in batch :: Task(Created, 0))
    else
      s.(main := AtAssembler(OrderedDrafts(cfg.sections, s.drafts)), out := s.out + [Assembling])
  }

  function HandleStep(s: State, id: string): State
    requires s.main.Handling? && id in s.tasks
  {
    match s.tasks[id].phase
    case Returned(draft) =>
      s.(main := Handling(s.main.done - {id}), drafts := s.drafts[id := draft])
    case Expired =>
      s.(main := Handling(s.main.done - {id}), drafts := s.drafts[id := TIMEOUT_DRAFT],
         out := s.out + [SectionComplete(id, TIMEOUT_DRAFT)])
    case _ =>
      s.(main := Failing, out := s.out + [WriteError(Some(id))])
  }

  function Apply(cfg: Config, s: State, a: Action): State
    requires Enabled(cfg, s, a)
  {
    match a
    case Begin(id) => Put(s, id, s.tasks[id].(phase := Writing), [SectionStarted(id)])
    case WriterReturns(id) => Put(s, id, s.tasks[id].(phase := Editing), [StepComplete(id, "writer", "success")])
    case EditorReturns(id) => Put(s, id, s.tasks[id].(phase := Checking), [StepComplete(id, "editor", "success")])
    case CheckerReturns(id, content, status, notes) => CheckerStep(cfg, s, id, content, status, notes)
    case AgentRaises(id) => Put(s, id, s.tasks[id].(phase := Failed), [])
    case Expire(id) => Put(s, id, s.tasks[id].(phase := Expired), [])
    case StartBatch => StartStep(cfg, s)
    case YieldQueued => s.(queue := s.queue[1..], out := s.out + [s.queue[0]])
    case StopDraining => s.(main := Waiting)
    case WaitReturns(finished) => s.(main := Handling(finished), pending := s.pending - finished)
    case Handle(id) => HandleStep(s, id)
    case StopHandling => s.(main := if s.pending == {} then FinalDrain else Draining)
    case EndBatch => s.(main := NextBatch, batch := s.batch + 1)
    case AssemblerReturns(text) => s.(main := Completed(s.main.args), out := s.out + [WriteComplete(text)])
    case AssemblerRaises => s.(main := Failing)
    case YieldFinalError => s.(main := Stopped, out := s.out + [WriteError(None)])
  }

  // The state after a sequence of actions, if each is enabled in its turn.
  function Run(cfg: Config, acts: seq<Action>): Option<State> {
    if acts == [] then Some(Init())
    else
      match Run(cfg, acts[..|acts| - 1])
      case None => None
      case Some(s) =>
        var a := acts[|acts| - 1];
        if Enabled(cfg, s, a) then Some(Apply(cfg, s, a)) else None
  }

  // ---- What one section reports --------------------------------------------------------

  // One attempt the checker failed, ending in the k-th retry notice.
  predicate FailedAttempt(events: seq<Event>, id: string, k: int) {
    && |events| == 5
    && events[..4] == [SectionStarted(id), StepComplete(id, "writer", "success"), StepComplete(id, "editor", "success"),
                       StepComplete(id, "checker", "fail")]
    && events[4].SectionRetry? && events[4].id == id && events[4].retryCount == k
  }

  predicate FailedAttempts(events: seq<Event>, id: string, r: nat) {
    |events| == 5 * r && forall k :: 0 <= k < r ==> FailedAttempt(events[5 * k..5 * k + 5], id, k + 1)
  }

  // What an attempt reports when the checker fails it and the budget allows another.
  function Attempt(id: string, retryCount: int, notes: string): (events: seq<Event>)
    ensures FailedAttempt(events, id, retryCount)
  {
    [SectionStarted(id), StepComplete(id, "writer", "success"), StepComplete(id, "editor", "success"),
     StepComplete(id, "checker", "fail"), SectionRetry(id, retryCount, notes)]
  }

  // The events of the current attempt, by phase.
  function Current(id: string, phase: Phase): seq<Event> {
    match phase
    case Writing => [SectionStarted(id)]
    case Editing => [SectionStarted(id), StepComplete(id, "writer", "success")]
    case Checking => [SectionStarted(id), StepComplete(id, "writer", "success"), StepComplete(id, "editor", "success")]
    case Returned(draft) => [SectionStarted(id), StepComplete(id, "writer", "success"),
                             StepComplete(id, "editor", "success"),
                             StepComplete(id, "checker", draft.checkerStatus), SectionComplete(id, draft)]
    case _ => []
  }

  predicate Budget(maxRetries: int, task: Task) {
    && (task.retries == 0 || task.retries <= maxRetries)
    && (task.phase.Returned? ==>
          task.phase.draft.retryCount == task.retries
          && (task.phase.draft.checkerStatus == "fail" ==> task.retries >= maxRetries))
  }

  // r failed attempts followed by the current one.
  predicate Script(events: seq<Event>, id: string, task: Task) {
    && |events| >= 5 * task.retries
    && FailedAttempts(events[..5 * task.retries], id, task.retries)
    && events[5 * task.retries..] == Current(id, task.phase)
  }

  // The retry loop of one section on its own; verdict(k) is what the checker says of attempt k.
  datatype Verdict = Verdict(content: string, status: string, notes: string)

  method WriteSection(id: string, maxRetries: int, verdict: nat -> Verdict) returns (events: seq<Event>, draft: Draft)
    ensures draft.retryCount >= 0
    ensures Script(events, id, Task(Returned(draft), draft.retryCount))
    ensures Budget(maxRetries, Task(Returned(draft), draft.retryCount))
    ensures draft.content == verdict(draft.retryCount).content &&
            draft.checkerStatus == verdict(draft.retryCount).status
    ensures forall k: nat :: k < draft.retryCount ==> verdict(k).status == "fail"
  {
    var retryCount: nat := 0;
    events := [];
    while true
      invariant retryCount == 0 || retryCount <= maxRetries
      invariant FailedAttempts(events, id, retryCount)
      invariant forall k: nat :: k < retryCount ==> verdict(k).status == "fail"
      decreases maxRetries - retryCount
    {
      ghost var before := events;
      events := events
        + [SectionStarted(id), StepComplete(id, "writer", "success"), StepComplete(id, "editor", "success")];
      var v := verdict(retryCount);
      draft := Draft(v.content, v.status, retryCount);
      events := events + [StepComplete(id, "checker", draft.checkerStatus)];
      if draft.checkerStatus == "fail" && retryCount < maxRetries {
        retryCount := retryCount + 1;
        events := events + [SectionRetry(id, retryCount, v.notes)];
        assert events == before + Attempt(id, retryCount, v.notes);
        AttemptAppended(before, Attempt(id, retryCount, v.notes), id, retryCount - 1);
      } else {
        events := events + [SectionComplete(id, draft)];
        assert events[..5 * retryCount] == before;
        return;
      }
    }
  }

  lemma AttemptAppended(before: seq<Event>, attempt: seq<Event>, id: string, r: nat)
    requires FailedAttempts(before, id, r) && FailedAttempt(attempt, id, r + 1)
    ensures FailedAttempts(before + attempt, id, r + 1)
  {
  }

  // ---- Projecting a stream onto a section ----------------------------------------------

  function Project(events: seq<Event>, id: string): seq<Event> {
    if events == [] then []
    else
      var rest := Project(events[..|events| - 1], id);
      var last := events[|events| - 1];
      if last.Reports(id) then rest + [last] else rest
  }

  function Completions(events: seq<Event>, id: string): nat {
    if events == [] then 0
    else
      var last := events[|events| - 1];
      Completions(events[..|events| - 1], id) + (if last.SectionComplete? && last.id == id then 1 else 0)
  }

  lemma {:induction false} ProjectConcat(a: seq<Event>, b: seq<Event>, id: string)
    ensures Project(a + b, id) == Project(a, id) + Project(b, id)
    ensures Completions(a + b, id) == Completions(a, id) + Completions(b, id)
  {
    if b == [] {
      assert a + b == a;
    } else {
      var c := b[..|b| - 1];
      assert (a + b)[..|a + b| - 1] == a + c;
      ProjectConcat(a, c, id);
    }
  }

  lemma {:induction false} CompletionsProject(events: seq<Event>, id: string)
    ensures Completions(events, id) == Completions(Project(events, id), id)
  {
    if events != [] {
      CompletionsProject(events[..|events| - 1], id);
      var rest := Project(events[..|events| - 1], id);
      var last := events[|events| - 1];
      assert (rest + [last])[..|rest|] == rest;
    }
  }

  lemma {:induction false} NothingReported(events: seq<Event>, id: string)
    requires forall e :: e in events ==> !e.Reports(id)
    ensures Project(events, id) == [] && Completions(events, id) == 0
  {
    if events != [] {
      NothingReported(events[..|events| - 1], id);
      assert events[|events| - 1] in events;
    }
  }

  // ---- The invariant -------------------------------------------------------------------

  predicate InBatchPhase(main: Main) {
    main.Draining? || main.Waiting? || main.Handling? || main.FinalDrain?
  }

  function DoneSet(main: Main): set<string> {
    if main.Handling? then main.done else {}
  }

  ghost predicate DraftOf(task: Task, draft: Draft) {
    task.phase == Returned(draft) || (task.phase.Expired? && draft == TIMEOUT_DRAFT)
  }

  // Which sections have tasks, which of them have drafts, and where the rest are.
  ghost predicate Bookkeeping(cfg: Config, s: State) {
    var n := |cfg.batches|;
    && s.batch <= n
    && Placed(cfg.batches, s.batch) <= s.drafts.Keys <= s.tasks.Keys
    && (forall id :: id in s.drafts ==> DraftOf(s.tasks[id], s.drafts[id]))
    && (if s.batch < n then s.tasks.Keys <= Placed(cfg.batches, s.batch + 1)
        else s.tasks.Keys == Placed(cfg.batches, n))
    && (InBatchPhase(s.main) ==>
          && s.batch < n
          && s.tasks.Keys == Placed(cfg.batches, s.batch + 1)
          && s.tasks.Keys == s.drafts.Keys + s.pending + DoneSet(s.main)
          && s.drafts.Keys !! s.pending !! DoneSet(s.main))
    && (s.main.FinalDrain? ==> s.pending == {})
    && (s.main.NextBatch? || s.main.AtAssembler? || s.main.Completed? ==>
          s.queue == [] && s.tasks.Keys == s.drafts.Keys == Placed(cfg.batches, s.batch))
    && (s.main.AtAssembler? || s.main.Completed? ==>
          s.batch == n && s.main.args == OrderedDrafts(cfg.sections, s.drafts))
  }

  // What has been reported of a section, yielded or still queued, matches its task.
  ghost predicate Reported(events: seq<Event>, id: string, task: Task, handled: bool) {
    match task.phase
    case Failed => true
    case Expired => Completions(events, id) == if handled then 1 else 0
    case _ => Script(Project(events, id), id, task)
  }

  ghost predicate Reporting(cfg: Config, s: State) {
    && (forall id :: id in s.tasks ==> Budget(cfg.maxRetries, s.tasks[id]))
    && (forall id :: id in s.tasks ==> Reported(s.out + s.queue, id, s.tasks[id], id in s.drafts))
    && (forall e, id :: e in s.out + s.queue && e.Reports(id) ==> id in s.tasks)
  }

  // e concerns a section of batch k.
  ghost predicate Concerns(cfg: Config, e: Event, k: nat) {
    k < |cfg.batches| && exists id :: id in cfg.batches[k] && (e.Reports(id) || e == WriteError(Some(id)))
  }

  ghost predicate Sorted(cfg: Config, out: seq<Event>) {
    forall i, j, k: nat, l: nat :: 0 <= i < j < |out| && Concerns(cfg, out[i], k) && Concerns(cfg, out[j], l) ==> k <= l
  }

  ghost predicate UpTo(cfg: Config, out: seq<Event>, b: nat) {
    forall e, k: nat :: e in out && Concerns(cfg, e, k) ==> k <= b
  }

  ghost predicate Queued(cfg: Config, s: State) {
    forall e :: e in s.queue ==> e.OfSection() && forall k: nat :: Concerns(cfg, e, k) ==> k == s.batch
  }

  ghost predicate Ordering(cfg: Config, s: State) {
    Sorted(cfg, s.out) && UpTo(cfg, s.out, s.batch) && Queued(cfg, s)
  }

  // All but the last k events report sections' work.
  predicate SectionsThen(out: seq<Event>, k: nat) {
    |out| >= k && forall i :: 0 <= i < |out| - k ==> out[i].OfSection()
  }

  // How many events follow the sections' own.
  function TailLength(main: Main): nat {
    match main
    case AtAssembler(_) => 1
    case Failing => 1
    case Completed(_) => 2
    case Stopped => 2
    case _ => 0
  }

  // How the stream ends so far.
  predicate Ending(s: State) {
    var n := |s.out|;
    && SectionsThen(s.out, TailLength(s.main))
    && match s.main
       case AtAssembler(_) => s.out[n - 1] == Assembling
       case Completed(_) => s.out[n - 2] == Assembling && s.out[n - 1].WriteComplete?
       case Failing => s.out[n - 1] == Assembling || s.out[n - 1].WriteError?
       case Stopped => (s.out[n - 2] == Assembling || s.out[n - 2].WriteError?) && s.out[n - 1] == WriteError(None)
       case _ => true
  }

  ghost predicate Inv(cfg: Config, s: State) {
    Bookkeeping(cfg, s) && Reporting(cfg, s) && Ordering(cfg, s) && Ending(s)
  }

  // ---- Task actions --------------------------------------------------------------------

  lemma RunningIsCurrent(cfg: Config, s: State, id: string)
    requires ValidConfig(cfg) && Bookkeeping(cfg, s)
    requires id in s.tasks && s.tasks[id].Running()
    ensures id !in s.drafts && s.batch < |cfg.batches| && id in cfg.batches[s.batch]
    ensures forall k: nat :: k < |cfg.batches| && id in cfg.batches[k] ==> k == s.batch
  {
  }

  lemma TaskStep(cfg: Config, s: State, id: string, task: Task, events: seq<Event>)
    requires ValidConfig(cfg) && Inv(cfg, s)
    requires id in s.tasks && s.tasks[id].Running()
    requires forall e :: e in events ==> e.Reports(id)
    requires Budget(cfg.maxRetries, task)
    requires Reported(s.out + s.queue + events, id, task, false)
    ensures Inv(cfg, Put(s, id, task, events))
  {
    hide Bookkeeping, Ordering, Reporting, Reported, Budget, ValidConfig;
    RunningIsCurrent(cfg, s, id);
    TaskStepBookkeeping(cfg, s, id, task, events);
    TaskStepOrdering(cfg, s, id, task, events);
    TaskStepReporting(cfg, s, id, task, events);
  }

  lemma TaskStepReporting(cfg: Config, s: State, id: string, task: Task, events: seq<Event>)
    requires Reporting(cfg, s) && id in s.tasks && id !in s.drafts
    requires forall e :: e in events ==> e.Reports(id)
    requires Budget(cfg.maxRetries, task)
    requires Reported(s.out + s.queue + events, id, task, false)
    ensures Reporting(cfg, Put(s, id, task, events))
  {
    hide Script, Budget;
    var s' := Put(s, id, task, events);
    assert s'.out + s'.queue == s.out + s.queue + events;
    forall x | x in s'.tasks ensures Reported(s'.out + s'.queue, x, s'.tasks[x], x in s'.drafts) {
      if x != id {
        ProjectConcat(s.out + s.queue, events, x);
        NothingReported(events, x);
        assert Project(s'.out + s'.queue, x) == Project(s.out + s.queue, x);
      }
    }
  }

  lemma TaskStepBookkeeping(cfg: Config, s: State, id: string, task: Task, events: seq<Event>)
    requires Bookkeeping(cfg, s)
    requires id in s.tasks && id !in s.drafts
    ensures Bookkeeping(cfg, Put(s, id, task, events))
  {
  }

  lemma TaskStepOrdering(cfg: Config, s: State, id: string, task: Task, events: seq<Event>)
    requires Ordering(cfg, s)
    requires forall e :: e in events ==> e.Reports(id)
    requires forall k: nat :: k < |cfg.batches| && id in cfg.batches[k] ==> k == s.batch
    ensures Ordering(cfg, Put(s, id, task, events))
  {
  }

  // A running task's script continued by the next events of its current attempt.
  lemma ScriptGrows(before: seq<Event>, id: string, task: Task, events: seq<Event>, phase: Phase)
    requires Script(before, id, task)
    requires Current(id, phase) == Current(id, task.phase) + events
    ensures Script(before + events, id, task.(phase := phase))
  {
    var after := before + events;
    assert after[..5 * task.retries] == before[..5 * task.retries];
    assert after[5 * task.retries..] == before[5 * task.retries..] + events;
  }

  lemma ScriptRetries(before: seq<Event>, id: string, r: nat, notes: string)
    requires Script(before, id, Task(Checking, r))
    ensures Script(before + [StepComplete(id, "checker", "fail"), SectionRetry(id, r + 1, notes), SectionStarted(id)],
                   id, Task(Writing, r + 1))
  {
    var after := before + [StepComplete(id, "checker", "fail"), SectionRetry(id, r + 1, notes), SectionStarted(id)];
    var upTo := after[..5 * r + 5];
    assert |before| == 5 * r + 3;
    assert upTo == before[..5 * r] + Attempt(id, r + 1, notes);
    AttemptAppended(before[..5 * r], Attempt(id, r + 1, notes), id, r);
  }

  lemma {:induction false} NoCompletion(events: seq<Event>, id: string)
    requires forall i :: 0 <= i < |events| ==> !(events[i].SectionComplete? && events[i].id == id)
    ensures Completions(events, id) == 0
  {
    if events != [] {
      NoCompletion(events[..|events| - 1], id);
    }
  }

  lemma ScriptCompletions(events: seq<Event>, id: string, task: Task)
    requires Script(events, id, task) && !task.phase.Expired? && !task.phase.Failed?
    ensures Completions(events, id) == if task.phase.Returned? then 1 else 0
  {
    var done := events[..5 * task.retries];
    var current := Current(id, task.phase);
    forall i | 0 <= i < |done| ensures !done[i].SectionComplete? {
      var k := i / 5;
      assert FailedAttempt(done[5 * k..5 * k + 5], id, k + 1);
      assert done[i] == done[5 * k..5 * k + 5][i - 5 * k];
      assert i - 5 * k < 4 ==> done[i] == done[5 * k..5 * k + 5][..4][i - 5 * k];
    }
    NoCompletion(done, id);
    assert events == done + current;
    if task.phase.Returned? {
      var last := SectionComplete(id, task.phase.draft);
      NoCompletion(current[..4], id);
      assert current == current[..4] + [last];
      NoCompletion([], id);
      assert Completions([last], id) == 1;
      ProjectConcat(current[..4], [last], id);
    } else {
      NoCompletion(current, id);
    }
    ProjectConcat(done, current, id);
  }

  // Events that all report a section survive projection.
  lemma {:induction false} ProjectOwn(events: seq<Event>, id: string)
    requires forall e :: e in events ==> e.Reports(id)
    ensures Project(events, id) == events
  {
    if events != [] {
      assert events == events[..|events| - 1] + [events[|events| - 1]];
      ProjectOwn(events[..|events| - 1], id);
    }
  }

  // A task step given by its effect on the section's script.
  lemma ScriptStep(cfg: Config, s: State, id: string, task: Task, events: seq<Event>)
    requires ValidConfig(cfg) && Inv(cfg, s)
    requires id in s.tasks && s.tasks[id].Running()
    requires forall e :: e in events ==> e.Reports(id)
    requires Budget(cfg.maxRetries, task) && !task.phase.Expired? && !task.phase.Failed?
    requires Script(Project(s.out + s.queue, id) + events, id, task)
    ensures Inv(cfg, Put(s, id, task, events))
  {
    ProjectConcat(s.out + s.queue, events, id);
    ProjectOwn(events, id);
    TaskStep(cfg, s, id, task, events);
  }

  lemma AdvanceKeeps(cfg: Config, s: State, id: string, events: seq<Event>, phase: Phase)
    requires ValidConfig(cfg) && Inv(cfg, s)
    requires id in s.tasks && s.tasks[id].Running()
    requires forall e :: e in events ==> e.Reports(id)
    requires !phase.Expired? && !phase.Failed? && Budget(cfg.maxRetries, s.tasks[id].(phase := phase))
    requires Current(id, phase) == Current(id, s.tasks[id].phase) + events
    ensures Inv(cfg, Put(s, id, s.tasks[id].(phase := phase), events))
  {
    hide Inv, ValidConfig, Script, Put;
    ScriptSoFar(cfg, s, id);
    var before := Project(s.out + s.queue, id);
    ScriptGrows(before, id, s.tasks[id], events, phase);
    ScriptStep(cfg, s, id, s.tasks[id].(phase := phase), events);
  }

  // A running task has its script on the stream and is within its budget.
  lemma ScriptSoFar(cfg: Config, s: State, id: string)
    requires ValidConfig(cfg) && Inv(cfg, s) && id in s.tasks && s.tasks[id].Running()
    ensures Script(Project(s.out + s.queue, id), id, s.tasks[id]) && Budget(cfg.maxRetries, s.tasks[id])
  {
  }

  lemma RetryKeeps(cfg: Config, s: State, id: string, notes: string)
    requires ValidConfig(cfg) && Inv(cfg, s) && PhaseIs(s, id, Checking)
    requires s.tasks[id].retries < cfg.maxRetries
    ensures Inv(cfg, Put(s, id, Task(Writing, s.tasks[id].retries + 1),
                         [StepComplete(id, "checker", "fail"), SectionRetry(id, s.tasks[id].retries + 1, notes),
                          SectionStarted(id)]))
  {
    hide Inv, ValidConfig, Script, Put;
    var r := s.tasks[id].retries;
    ScriptSoFar(cfg, s, id);
    ScriptRetries(Project(s.out + s.queue, id), id, r, notes);
    ScriptStep(cfg, s, id, Task(Writing, r + 1),
               [StepComplete(id, "checker", "fail"), SectionRetry(id, r + 1, notes), SectionStarted(id)]);
  }

  lemma CheckerKeeps(cfg: Config, s: State, id: string, content: string, status: string, notes: string)
    requires ValidConfig(cfg) && Inv(cfg, s) && PhaseIs(s, id, Checking)
    ensures Inv(cfg, CheckerStep(cfg, s, id, content, status, notes))
  {
    hide Inv, ValidConfig, Script, Put;
    ScriptSoFar(cfg, s, id);
    var r := s.tasks[id].retries;
    if status == "fail" && r < cfg.maxRetries {
      RetryKeeps(cfg, s, id, notes);
    } else {
      var draft := Draft(content, status, r);
      AdvanceKeeps(cfg, s, id, [StepComplete(id, "checker", status), SectionComplete(id, draft)], Returned(draft));
    }
  }

  lemma TaskEndsKeep(cfg: Config, s: State, a: Action)
    requires ValidConfig(cfg) && Inv(cfg, s) && Enabled(cfg, s, a)
    requires a.AgentRaises? || a.Expire?
    ensures Inv(cfg, Apply(cfg, s, a))
  {
    hide Inv, ValidConfig, Script, Completions, Project, Put, CheckerStep, StartStep, HandleStep;
    var id := a.id;
    var task := s.tasks[id];
    ScriptSoFar(cfg, s, id);
    assert s.out + s.queue + [] == s.out + s.queue;
    CompletionsProject(s.out + s.queue, id);
    ScriptCompletions(Project(s.out + s.queue, id), id, task);
    TaskStep(cfg, s, id, task.(phase := if a.Expire? then Expired else Failed), []);
  }

  lemma TaskActionsKeep(cfg: Config, s: State, a: Action)
    requires ValidConfig(cfg) && Inv(cfg, s) && Enabled(cfg, s, a)
    requires a.Begin? || a.WriterReturns? || a.EditorReturns? || a.CheckerReturns? || a.AgentRaises? || a.Expire?
    ensures Inv(cfg, Apply(cfg, s, a))
  {
    hide Inv, ValidConfig, Script, Put, CheckerStep, StartStep, HandleStep;
    if !a.AgentRaises? && !a.Expire? {
      ScriptSoFar(cfg, s, a.id);
    }
    match a
    case Begin(id) => AdvanceKeeps(cfg, s, id, [SectionStarted(id)], Writing);
    case WriterReturns(id) => AdvanceKeeps(cfg, s, id, [StepComplete(id, "writer", "success")], Editing);
    case EditorReturns(id) => AdvanceKeeps(cfg, s, id, [StepComplete(id, "editor", "success")], Checking);
    case CheckerReturns(id, content, status, notes) => CheckerKeeps(cfg, s, id, content, status, notes);
    case _ => TaskEndsKeep(cfg, s, a);
  }

  // ---- Generator actions ---------------------------------------------------------------

  lemma StartBatchKeeps(cfg: Config, s: State)
    requires ValidConfig(cfg) && Inv(cfg, s) && s.main.NextBatch? && s.batch < |cfg.batches|
    ensures Inv(cfg, StartStep(cfg, s))
  {
    var s' := StartStep(cfg, s);
    NewTasks(cfg, s);
    StartBatchReports(cfg, s);
    hide Reporting, ValidConfig;
    assert Bookkeeping(cfg, s');
    hide Bookkeeping;
    assert Ordering(cfg, s') && Ending(s');
  }

  lemma NewTasks(cfg: Config, s: State)
    requires ValidConfig(cfg) && Bookkeeping(cfg, s) && s.main.NextBatch? && s.batch < |cfg.batches|
    ensures s.tasks.Keys !! Elements(cfg.batches[s.batch])
    ensures StartStep(cfg, s).tasks.Keys == s.tasks.Keys + Elements(cfg.batches[s.batch])
  {
    PlacedWhere(cfg.batches, s.batch);
  }

  // Starting a batch adds a fresh task for each of its sections.
  lemma StartedTasks(cfg: Config, s: State)
    requires ValidConfig(cfg) && Bookkeeping(cfg, s) && s.main.NextBatch? && s.batch < |cfg.batches|
    ensures var s', batch := StartStep(cfg, s), Elements(cfg.batches[s.batch]);
            && s'.tasks.Keys == s.tasks.Keys + batch && s'.out == s.out && s'.queue == s.queue && s'.drafts == s.drafts
            && (forall id :: id in batch ==> id !in s.tasks && id !in s.drafts && s'.tasks[id] == Task(Created, 0))
            && (forall id :: id in s.tasks ==> s'.tasks[id] == s.tasks[id])
            && s'.main == Draining && s'.pending == batch
  {
    hide ValidConfig, OrderedDrafts;
    NewTasks(cfg, s);
  }

  lemma StartBatchReports(cfg: Config, s: State)
    requires ValidConfig(cfg) && Bookkeeping(cfg, s) && Reporting(cfg, s)
    requires s.main.NextBatch? && s.batch < |cfg.batches|
    ensures Reporting(cfg, StartStep(cfg, s))
  {
    hide ValidConfig, Bookkeeping, Script, Completions, Project, StartStep, Elements;
    StartedTasks(cfg, s);
    var s', batch := StartStep(cfg, s), Elements(cfg.batches[s.batch]);
    forall id | id in s'.tasks ensures Reported(s'.out + s'.queue, id, s'.tasks[id], id in s'.drafts) {
      if id in batch {
        NothingReported(s'.out + s'.queue, id);
        FreshScript(id);
      } else {
        assert Reported(s.out + s.queue, id, s.tasks[id], id in s.drafts);
      }
    }
  }

  lemma FreshScript(id: string)
    ensures Script([], id, Task(Created, 0))
  {
  }

  // Appending one event that is not a section's own report.
  lemma SilentEvent(out: seq<Event>, e: Event, id: string)
    requires !e.Reports(id)
    ensures Project(out + [e], id) == Project(out, id) && Completions(out + [e], id) == Completions(out, id)
  {
  }

  lemma AssembleKeeps(cfg: Config, s: State)
    requires ValidConfig(cfg) && Inv(cfg, s) && s.main.NextBatch? && s.batch == |cfg.batches|
    ensures Inv(cfg, StartStep(cfg, s))
  {
    var s' := StartStep(cfg, s);
    assert Bookkeeping(cfg, s');
    OutGrowsSilently(cfg, s, s', Assembling);
  }

  // The generator yields an event that concerns no section, with the queue empty or after an error.
  lemma OutGrowsSilently(cfg: Config, s: State, s': State, e: Event)
    requires ValidConfig(cfg) && Reporting(cfg, s) && Ordering(cfg, s)
    requires e == Assembling || e.WriteComplete? || e == WriteError(None)
    requires s' == s.(main := s'.main, out := s.out + [e])
    ensures Reporting(cfg, s') && Ordering(cfg, s')
  {
    forall id ensures Project(s'.out + s'.queue, id) == Project(s.out + s.queue, id)
                   && Completions(s'.out + s'.queue, id) == Completions(s.out + s.queue, id)
    {
      SilentEvent(s.out, e, id);
      ProjectConcat(s.out + [e], s.queue, id);
      ProjectConcat(s.out, s.queue, id);
    }
    assert forall k: nat :: !Concerns(cfg, e, k);
  }

  // The same events on the stream and the queue together, the same tasks, and the same timed-out sections handled.
  lemma SameReporting(cfg: Config, s: State, s': State)
    requires Reporting(cfg, s) && s'.out + s'.queue == s.out + s.queue && s'.tasks == s.tasks
    requires forall id :: id in s.tasks && s.tasks[id].phase.Expired? ==> (id in s.drafts <==> id in s'.drafts)
    ensures Reporting(cfg, s')
  {
    hide Script, Budget, Completions, Project;
    forall id | id in s'.tasks ensures Reported(s'.out + s'.queue, id, s'.tasks[id], id in s'.drafts) {
      assert Reported(s.out + s.queue, id, s.tasks[id], id in s.drafts);
    }
  }

  lemma SameOrdering(cfg: Config, s: State, s': State)
    requires Ordering(cfg, s) && s'.out == s.out && s'.queue == s.queue && s'.batch == s.batch
    ensures Ordering(cfg, s')
  {
    hide Sorted, UpTo;
  }

  lemma YieldQueuedBookkeeping(cfg: Config, s: State)
    requires Bookkeeping(cfg, s) && Enabled(cfg, s, YieldQueued)
    ensures Bookkeeping(cfg, Apply(cfg, s, YieldQueued))
  {
    hide Placed, OrderedDrafts;
  }

  lemma YieldQueuedOrdering(cfg: Config, s: State)
    requires Ordering(cfg, s) && s.queue != []
    ensures Ordering(cfg, s.(queue := s.queue[1..], out := s.out + [s.queue[0]]))
    ensures s.queue[0].OfSection()
  {
    hide Concerns;
    assert s.queue[0] in s.queue;
    assert forall e :: e in s.queue[1..] ==> e in s.queue;
    assert forall i :: 0 <= i < |s.out| ==> s.out[i] in s.out;
  }

  lemma YieldQueuedKeeps(cfg: Config, s: State)
    requires ValidConfig(cfg) && Inv(cfg, s) && Enabled(cfg, s, YieldQueued)
    ensures Inv(cfg, Apply(cfg, s, YieldQueued))
  {
    hide Bookkeeping, Reporting, Ordering, ValidConfig, CheckerStep, StartStep, HandleStep, Put;
    var s' := Apply(cfg, s, YieldQueued);
    YieldQueuedBookkeeping(cfg, s);
    YieldQueuedOrdering(cfg, s);
    assert s.queue == [s.queue[0]] + s.queue[1..];
    SameReporting(cfg, s, s');
  }

  lemma HandledIsCurrent(cfg: Config, s: State, id: string)
    requires ValidConfig(cfg) && Bookkeeping(cfg, s) && Enabled(cfg, s, Handle(id))
    ensures id !in s.drafts && id in cfg.batches[s.batch]
    ensures forall k: nat :: k < |cfg.batches| && id in cfg.batches[k] ==> k == s.batch
  {
  }

  // The generator yields an event that concerns a section of the current batch.
  lemma OutGrowsWithin(cfg: Config, s: State, id: string, e: Event)
    requires Sorted(cfg, s.out) && UpTo(cfg, s.out, s.batch)
    requires e == WriteError(Some(id)) || (e.SectionComplete? && e.id == id)
    requires forall k: nat :: k < |cfg.batches| && id in cfg.batches[k] ==> k == s.batch
    ensures Sorted(cfg, s.out + [e]) && UpTo(cfg, s.out + [e], s.batch)
  {
  }

  lemma HandleBookkeeping(cfg: Config, s: State, id: string)
    requires Bookkeeping(cfg, s) && Enabled(cfg, s, Handle(id))
    ensures Bookkeeping(cfg, HandleStep(s, id))
  {
    hide Placed, OrderedDrafts;
  }

  lemma HandleReturnedKeeps(cfg: Config, s: State, id: string)
    requires ValidConfig(cfg) && Inv(cfg, s) && Enabled(cfg, s, Handle(id)) && s.tasks[id].phase.Returned?
    ensures Inv(cfg, HandleStep(s, id))
  {
    hide ValidConfig, Bookkeeping, Reporting, Ordering;
    var s' := HandleStep(s, id);
    HandleBookkeeping(cfg, s, id);
    SameReporting(cfg, s, s');
    SameOrdering(cfg, s, s');
  }

  // What a handled section adds to the stream keeps the batches in order.
  lemma HandleOrdering(cfg: Config, s: State, id: string)
    requires ValidConfig(cfg) && Bookkeeping(cfg, s) && Ordering(cfg, s) && Enabled(cfg, s, Handle(id))
    requires !s.tasks[id].phase.Returned?
    ensures Ordering(cfg, HandleStep(s, id))
  {
    hide ValidConfig, Bookkeeping, Sorted, UpTo, Concerns;
    HandledIsCurrent(cfg, s, id);
    OutGrowsWithin(cfg, s, id,
                   if s.tasks[id].phase.Expired? then SectionComplete(id, TIMEOUT_DRAFT) else WriteError(Some(id)));
  }

  lemma HandleExpiredKeeps(cfg: Config, s: State, id: string)
    requires ValidConfig(cfg) && Inv(cfg, s) && Enabled(cfg, s, Handle(id)) && s.tasks[id].phase.Expired?
    ensures Inv(cfg, HandleStep(s, id))
  {
    hide ValidConfig, Bookkeeping, Ordering, Reporting;
    HandleBookkeeping(cfg, s, id);
    HandleOrdering(cfg, s, id);
    HandleExpiredReports(cfg, s, id);
  }

  lemma HandleExpiredReports(cfg: Config, s: State, id: string)
    requires Bookkeeping(cfg, s) && Reporting(cfg, s) && Enabled(cfg, s, Handle(id)) && s.tasks[id].phase.Expired?
    ensures Reporting(cfg, HandleStep(s, id))
  {
    assert id !in s.drafts;
    hide Bookkeeping, Script, Completions, Project, Budget;
    var s' := HandleStep(s, id);
    forall x | x in s'.tasks ensures Reported(s'.out + s'.queue, x, s'.tasks[x], x in s'.drafts) {
      assert Reported(s.out + s.queue, x, s.tasks[x], x in s.drafts);
      CompletionYielded(s, id, x);
    }
  }

  // Yielding the timed-out section's completion adds one completion for it and changes no other section's reports.
  lemma CompletionYielded(s: State, id: string, x: string)
    ensures var e := SectionComplete(id, TIMEOUT_DRAFT);
            && Completions(s.out + [e] + s.queue, x) == Completions(s.out + s.queue, x) + (if x == id then 1 else 0)
            && (x != id ==> Project(s.out + [e] + s.queue, x) == Project(s.out + s.queue, x))
  {
    var e := SectionComplete(id, TIMEOUT_DRAFT);
    ProjectConcat(s.out, [e], x);
    ProjectConcat(s.out + [e], s.queue, x);
    ProjectConcat(s.out, s.queue, x);
    if x == id {
      assert Completions([e], x) == 1 + Completions([e][..0], x);
    } else {
      NothingReported([e], x);
    }
  }

  lemma HandleFailedKeeps(cfg: Config, s: State, id: string)
    requires ValidConfig(cfg) && Inv(cfg, s) && Enabled(cfg, s, Handle(id)) && s.tasks[id].phase.Failed?
    ensures Inv(cfg, HandleStep(s, id))
  {
    hide ValidConfig, Bookkeeping, Ordering, Reporting;
    HandleBookkeeping(cfg, s, id);
    HandleOrdering(cfg, s, id);
    HandleFailedReports(cfg, s, id);
  }

  lemma HandleFailedReports(cfg: Config, s: State, id: string)
    requires Reporting(cfg, s) && Enabled(cfg, s, Handle(id)) && s.tasks[id].phase.Failed?
    ensures Reporting(cfg, HandleStep(s, id))
  {
    hide Script, Completions, Project, Budget;
    var s', e := HandleStep(s, id), WriteError(Some(id));
    forall x | x in s'.tasks ensures Reported(s'.out + s'.queue, x, s'.tasks[x], x in s'.drafts) {
      SilentEvent(s.out, e, x);
      ProjectConcat(s.out + [e], s.queue, x);
      ProjectConcat(s.out, s.queue, x);
      assert Reported(s.out + s.queue, x, s.tasks[x], x in s.drafts);
    }
  }

  lemma EndBatchOrdering(cfg: Config, s: State)
    requires Ordering(cfg, s) && s.queue == []
    ensures Ordering(cfg, s.(main := NextBatch, batch := s.batch + 1))
  {
    hide Sorted, Concerns;
  }

  lemma PollingKeeps(cfg: Config, s: State, a: Action)
    requires ValidConfig(cfg) && Inv(cfg, s) && Enabled(cfg, s, a)
    requires a.StopDraining? || a.WaitReturns? || a.StopHandling? || a.EndBatch?
    ensures Inv(cfg, Apply(cfg, s, a))
  {
    hide ValidConfig, Bookkeeping, Reporting, Ordering, CheckerStep, StartStep, HandleStep, Put;
    var s' := Apply(cfg, s, a);
    PollingBookkeeping(cfg, s, a);
    SameReporting(cfg, s, s');
    if a.EndBatch? {
      EndBatchOrdering(cfg, s);
    } else {
      SameOrdering(cfg, s, s');
    }
  }

  lemma PollingBookkeeping(cfg: Config, s: State, a: Action)
    requires Bookkeeping(cfg, s) && Enabled(cfg, s, a)
    requires a.StopDraining? || a.WaitReturns? || a.StopHandling? || a.EndBatch?
    ensures Bookkeeping(cfg, Apply(cfg, s, a))
  {
    hide Placed, OrderedDrafts, CheckerStep, StartStep, HandleStep, Put;
    if a.EndBatch? {
      NextPlaced(cfg, s.batch + 1);
    }
  }

  lemma NextPlaced(cfg: Config, b: nat)
    requires b <= |cfg.batches|
    ensures b < |cfg.batches| ==> Placed(cfg.batches, b) <= Placed(cfg.batches, b + 1)
  {
  }

  lemma EndingKeeps(cfg: Config, s: State, a: Action)
    requires ValidConfig(cfg) && Inv(cfg, s) && Enabled(cfg, s, a)
    requires a.AssemblerReturns? || a.AssemblerRaises? || a.YieldFinalError?
    ensures Inv(cfg, Apply(cfg, s, a))
  {
    hide ValidConfig, Bookkeeping, Reporting, Ordering, CheckerStep, StartStep, HandleStep, Put;
    var s' := Apply(cfg, s, a);
    EndingBookkeeping(cfg, s, a);
    if a.AssemblerRaises? {
      SameReporting(cfg, s, s');
      SameOrdering(cfg, s, s');
    } else {
      OutGrowsSilently(cfg, s, s', s'.out[|s.out|]);
    }
  }

  lemma EndingBookkeeping(cfg: Config, s: State, a: Action)
    requires Bookkeeping(cfg, s) && Enabled(cfg, s, a)
    requires a.AssemblerReturns? || a.AssemblerRaises? || a.YieldFinalError?
    ensures Bookkeeping(cfg, Apply(cfg, s, a))
  {
    hide Placed, OrderedDrafts, CheckerStep, StartStep, HandleStep, Put;
  }

  lemma StepKeeps(cfg: Config, s: State, a: Action)
    requires ValidConfig(cfg) && Inv(cfg, s) && Enabled(cfg, s, a)
    ensures Inv(cfg, Apply(cfg, s, a))
  {
    assert s.batch <= |cfg.batches|;
    hide Inv, ValidConfig;
    match a
    case StartBatch => if s.batch < |cfg.batches| { StartBatchKeeps(cfg, s); } else { AssembleKeeps(cfg, s); }
    case YieldQueued => YieldQueuedKeeps(cfg, s);
    case Handle(id) =>
      match s.tasks[id].phase {
        case Returned(_) => HandleReturnedKeeps(cfg, s, id);
        case Expired => HandleExpiredKeeps(cfg, s, id);
        case _ => HandleFailedKeeps(cfg, s, id);
      }
    case StopDraining => PollingKeeps(cfg, s, a);
    case WaitReturns(_) => PollingKeeps(cfg, s, a);
    case StopHandling => PollingKeeps(cfg, s, a);
    case EndBatch => PollingKeeps(cfg, s, a);
    case AssemblerReturns(_) => EndingKeeps(cfg, s, a);
    case AssemblerRaises => EndingKeeps(cfg, s, a);
    case YieldFinalError => EndingKeeps(cfg, s, a);
    case _ => TaskActionsKeep(cfg, s, a);
  }

  lemma {:induction false} Reachable(cfg: Config, acts: seq<Action>)
    requires ValidConfig(cfg) && Run(cfg, acts).Some?
    ensures Inv(cfg, Run(cfg, acts).value)
  {
    if acts != [] {
      Reachable(cfg, acts[..|acts| - 1]);
      StepKeeps(cfg, Run(cfg, acts[..|acts| - 1]).value, acts[|acts| - 1]);
    }
  }

  // ---- What every run guarantees -------------------------------------------------------

  // A section with a task, let alone one whose writer has begun, has a stored draft for each of its dependencies.
  lemma WriterAfterDependencies(cfg: Config, acts: seq<Action>, id: string, dep: string)
    requires ValidConfig(cfg) && Run(cfg, acts).Some?
    requires id in Run(cfg, acts).value.tasks
    requires DependencyOrder(cfg.sections, cfg.batches)
    requires DependsOn(cfg.sections, id, dep) && !Blocked(cfg.sections, id)
    ensures dep in Run(cfg, acts).value.drafts
  {
    var s := Run(cfg, acts).value;
    Reachable(cfg, acts);
    hide Run;
    DraftsBehind(cfg, s, id);
    hide Inv;
    var k :| 0 <= k <= s.batch && k < |cfg.batches| && id in cfg.batches[k];
    DependenciesEarlier(cfg.sections, cfg.batches, k, id, dep);
  }

  // A section with a task stands in the current batch or an earlier one, and everything earlier has drafts.
  lemma DraftsBehind(cfg: Config, s: State, id: string)
    requires Bookkeeping(cfg, s) && id in s.tasks
    ensures exists k :: 0 <= k <= s.batch && k < |cfg.batches| && id in cfg.batches[k]
    ensures forall j, x :: 0 <= j < s.batch && x in cfg.batches[j] ==> x in s.drafts
  {
    PlacedWhere(cfg.batches, s.batch);
    if s.batch < |cfg.batches| {
      PlacedWhere(cfg.batches, s.batch + 1);
    }
  }

  // Every yielded event of a batch comes before every yielded event of a later batch.
  lemma BatchesInOrder(cfg: Config, acts: seq<Action>, i: nat, j: nat, k: nat, l: nat)
    requires ValidConfig(cfg) && Run(cfg, acts).Some?
    requires var out := Run(cfg, acts).value.out;
             i < |out| && j < |out| && Concerns(cfg, out[i], k) && Concerns(cfg, out[j], l) && k < l
    ensures i < j
  {
    Reachable(cfg, acts);
    var out := Run(cfg, acts).value.out;
    if i == j {
      ConcernsOneBatch(cfg, out[i], k, l);
    }
  }

  lemma ConcernsOneBatch(cfg: Config, e: Event, k: nat, l: nat)
    requires ValidConfig(cfg) && Concerns(cfg, e, k) && Concerns(cfg, e, l)
    ensures k == l
  {
  }

  // out[i] is a WriteCompleteEvent in the only place it may stand: last, right after AssemblingEvent, and with
  // nothing but section events before that.
  predicate EndsComplete(s: State, i: nat)
    requires i < |s.out|
  {
    s.main.Completed? && i == |s.out| - 1 && i > 0 && s.out[i - 1] == Assembling
    && forall j :: 0 <= j < i - 1 ==> s.out[j].OfSection()
  }

  lemma EndingShape(s: State)
    requires Ending(s)
    ensures forall i :: 0 <= i < |s.out| && s.out[i].WriteComplete? ==> EndsComplete(s, i)
    ensures forall i, j :: 0 <= i < j < |s.out| && s.out[i].WriteError? ==>
              s.out[j] == WriteError(None) && j == i + 1 && j == |s.out| - 1
  {
  }

  // WriteCompleteEvent is yielded at most once, last, and never with an error before it.
  lemma CompleteIsLast(cfg: Config, acts: seq<Action>)
    requires ValidConfig(cfg) && Run(cfg, acts).Some?
    ensures var s := Run(cfg, acts).value;
            forall i :: 0 <= i < |s.out| && s.out[i].WriteComplete? ==> EndsComplete(s, i)
  {
    Reachable(cfg, acts);
    hide Run, Bookkeeping, Reporting, Ordering, ValidConfig, Ending;
    EndingShape(Run(cfg, acts).value);
  }

  // After an error event comes at most the outer handler's error event.
  lemma NothingAfterError(cfg: Config, acts: seq<Action>)
    requires ValidConfig(cfg) && Run(cfg, acts).Some?
    ensures var s := Run(cfg, acts).value;
            forall i, j :: 0 <= i < j < |s.out| && s.out[i].WriteError? ==>
              s.out[j] == WriteError(None) && j == i + 1 && j == |s.out| - 1
  {
    Reachable(cfg, acts);
    hide Run, Bookkeeping, Reporting, Ordering, ValidConfig, Ending;
    EndingShape(Run(cfg, acts).value);
  }

  lemma {:induction false} OrderedDraftsComplete(sections: seq<Section>, drafts: map<string, Draft>)
    requires forall i :: 0 <= i < |sections| ==> sections[i].sectionId in drafts
    ensures |OrderedDrafts(sections, drafts)| == |sections|
    ensures forall i :: 0 <= i < |sections| ==> OrderedDrafts(sections, drafts)[i] == drafts[sections[i].sectionId]
  {
    if sections != [] {
      OrderedDraftsComplete(sections[..|sections| - 1], drafts);
    }
  }

  lemma AllDrafted(cfg: Config, s: State, i: nat)
    requires ValidConfig(cfg) && Bookkeeping(cfg, s) && (s.main.AtAssembler? || s.main.Completed?)
    requires i < |cfg.sections|
    ensures var id := cfg.sections[i].sectionId;
            && s.queue == [] && |s.main.args| == |cfg.sections|
            && id in s.tasks && id in s.drafts && DraftOf(s.tasks[id], s.main.args[i])
  {
    hide OrderedDrafts;
    assert cfg.sections[i].sectionId in IdSet(cfg.sections);
    OrderedDraftsComplete(cfg.sections, s.drafts);
  }

  // Once assembly has begun, whatever the order of completion: the assembler was given one draft per section, in
  // structure order, each the draft its task returned or the timeout draft, and every section has exactly one
  // SectionCompleteEvent among the events before AssemblingEvent.
  lemma AssembledFromAll(cfg: Config, acts: seq<Action>, i: nat)
    requires ValidConfig(cfg) && Run(cfg, acts).Some?
    requires Run(cfg, acts).value.main.AtAssembler? || Run(cfg, acts).value.main.Completed?
    requires i < |cfg.sections|
    ensures var s := Run(cfg, acts).value;
            var id := cfg.sections[i].sectionId;
            && |s.main.args| == |cfg.sections|
            && id in s.tasks && DraftOf(s.tasks[id], s.main.args[i])
            && Completions(s.out, id) == 1
  {
    hide Run, Bookkeeping, ValidConfig, Ordering, Ending, Script, Project, Completions;
    Reachable(cfg, acts);
    var s := Run(cfg, acts).value;
    var id := cfg.sections[i].sectionId;
    AllDrafted(cfg, s, i);
    assert s.out + s.queue == s.out;
    assert Reported(s.out + s.queue, id, s.tasks[id], true);
    CompletionsProject(s.out, id);
    if s.tasks[id].phase.Returned? {
      ScriptCompletions(Project(s.out, id), id, s.tasks[id]);
    }
  }

  // ---- Progress ------------------------------------------------------------------------

  // Sections being handled have finished, and the generator polls only while sections are pending.
  ghost predicate Polls(s: State) {
    && (s.main.Handling? ==> forall id :: id in s.main.done ==> id in s.tasks && !s.tasks[id].Running())
    && (s.main.Draining? || s.main.Waiting? ==> s.pending != {})
  }

  lemma StepPolls(cfg: Config, s: State, a: Action)
    requires ValidConfig(cfg) && Polls(s) && Enabled(cfg, s, a)
    ensures Polls(Apply(cfg, s, a))
  {
    hide OrderedDrafts, Placed;
    if a.StartBatch? && s.batch < |cfg.batches| {
      assert cfg.batches[s.batch][0] in StartStep(cfg, s).pending;
    }
  }

  lemma {:induction false} AlwaysPolls(cfg: Config, acts: seq<Action>)
    requires ValidConfig(cfg) && Run(cfg, acts).Some?
    ensures Polls(Run(cfg, acts).value)
  {
    hide Enabled, Apply, Polls, ValidConfig;
    if acts == [] {
      NothingPolls();
    } else {
      AlwaysPolls(cfg, acts[..|acts| - 1]);
      StepPolls(cfg, Run(cfg, acts[..|acts| - 1]).value, acts[|acts| - 1]);
    }
  }

  lemma NothingPolls()
    ensures Polls(Init())
  {
  }

  // An action that is neither a failure, nor a timeout, nor a poll that finds nothing.
  predicate Forward(a: Action) {
    !a.AgentRaises? && !a.AssemblerRaises? && !a.Expire? && a != WaitReturns({})
  }

  // What a pending section can do next, or the generator about it.
  function SectionAction(s: State, id: string): Action
    requires id in s.tasks
  {
    match s.tasks[id].phase
    case Created => Begin(id)
    case Writing => WriterReturns(id)
    case Editing => EditorReturns(id)
    case Checking => CheckerReturns(id, "", "", "")
    case _ => WaitReturns({id})
  }

  function NextAction(s: State, id: string): Action
    requires s.main.Waiting? ==> id in s.tasks
  {
    match s.main
    case NextBatch => StartBatch
    case Draining => if s.queue != [] then YieldQueued else StopDraining
    case Waiting => SectionAction(s, id)
    case Handling(done) => if done == {} then StopHandling else Handle(id)
    case FinalDrain => if s.queue != [] then YieldQueued else EndBatch
    case AtAssembler(_) => AssemblerReturns("")
    case _ => YieldFinalError
  }

  // Every reachable state that has not completed or stopped can go forward: no run deadlocks, and none is left with
  // nothing to do but wait for a timeout.
  lemma NeverStuck(cfg: Config, acts: seq<Action>)
    requires ValidConfig(cfg) && Run(cfg, acts).Some?
    requires !Run(cfg, acts).value.main.Completed? && !Run(cfg, acts).value.main.Stopped?
    ensures exists a :: Enabled(cfg, Run(cfg, acts).value, a) && Forward(a)
  {
    hide Inv, ValidConfig, Run, Polls, Enabled;
    var s := Run(cfg, acts).value;
    Reachable(cfg, acts);
    AlwaysPolls(cfg, acts);
    PendingHaveTasks(cfg, s);
    GoesForward(cfg, s);
  }

  lemma GoesForward(cfg: Config, s: State)
    requires Polls(s) && (s.main.Waiting? ==> s.pending <= s.tasks.Keys) && !s.main.Completed? && !s.main.Stopped?
    ensures exists a :: Enabled(cfg, s, a) && Forward(a)
  {
    var id := "";
    if s.main.Waiting? {
      id :| id in s.pending;
    } else if s.main.Handling? && s.main.done != {} {
      id :| id in s.main.done;
    }
    var a := NextAction(s, id);
    assert Enabled(cfg, s, a) && Forward(a);
  }

  lemma PendingHaveTasks(cfg: Config, s: State)
    requires Inv(cfg, s)
    ensures s.main.Waiting? ==> s.pending <= s.tasks.Keys
  {
    hide Reporting, Ordering, Ending;
  }

  predicate Unfailed(s: State) {
    !s.main.Failing? && !s.main.Stopped? && forall id :: id in s.tasks ==> !s.tasks[id].phase.Failed?
  }

  lemma StepUnfailed(cfg: Config, s: State, a: Action)
    requires Unfailed(s) && Enabled(cfg, s, a) && !a.AgentRaises? && !a.AssemblerRaises?
    ensures Unfailed(Apply(cfg, s, a))
  {
    hide OrderedDrafts;
  }

  lemma {:induction false} NothingFails(cfg: Config, acts: seq<Action>)
    requires Run(cfg, acts).Some?
    requires forall i :: 0 <= i < |acts| ==> !acts[i].AgentRaises? && !acts[i].AssemblerRaises?
    ensures Unfailed(Run(cfg, acts).value)
  {
    if acts != [] {
      NothingFails(cfg, acts[..|acts| - 1]);
      hide Enabled, Apply, Unfailed;
      StepUnfailed(cfg, Run(cfg, acts[..|acts| - 1]).value, acts[|acts| - 1]);
    }
  }

  // A run in which neither an agent nor the assembler raises, however many sections time out, and which can go forward
  // no more, has completed.
  lemma EndsCompleted(cfg: Config, acts: seq<Action>)
    requires ValidConfig(cfg) && Run(cfg, acts).Some?
    requires forall i :: 0 <= i < |acts| ==> !acts[i].AgentRaises? && !acts[i].AssemblerRaises?
    requires forall a :: Forward(a) ==> !Enabled(cfg, Run(cfg, acts).value, a)
    ensures Run(cfg, acts).value.main.Completed?
  {
    NothingFails(cfg, acts);
    if !Run(cfg, acts).value.main.Completed? {
      NeverStuck(cfg, acts);
    }
  }

  // ---- What the verdicts decide --------------------------------------------------------

  // What the checker said of a section, in order.
  function Verdicts(acts: seq<Action>, id: string): seq<Verdict> {
    if acts == [] then []
    else
      var before := Verdicts(acts[..|acts| - 1], id);
      match acts[|acts| - 1]
      case CheckerReturns(x, content, status, notes) =>
        if x == id then before + [Verdict(content, status, notes)] else before
      case _ => before
  }

  // The verdicts reported of a section.
  function Statuses(events: seq<Event>, id: string): seq<string> {
    if events == [] then []
    else
      var before := Statuses(events[..|events| - 1], id);
      match events[|events| - 1]
      case StepComplete(x, step, status) => if x == id && step == "checker" then before + [status] else before
      case _ => before
  }

  // The retries announced for a section, with their numbers and reasons.
  function Retries(events: seq<Event>, id: string): seq<(int, string)> {
    if events == [] then []
    else
      var before := Retries(events[..|events| - 1], id);
      match events[|events| - 1]
      case SectionRetry(x, k, reason) => if x == id then before + [(k, reason)] else before
      case _ => before
  }

  lemma {:induction false} ReportsConcat(a: seq<Event>, b: seq<Event>, id: string)
    ensures Statuses(a + b, id) == Statuses(a, id) + Statuses(b, id)
    ensures Retries(a + b, id) == Retries(a, id) + Retries(b, id)
  {
    if b == [] {
      assert a + b == a;
    } else {
      assert (a + b)[..|a + b| - 1] == a + b[..|b| - 1];
      ReportsConcat(a, b[..|b| - 1], id);
    }
  }

  // The verdicts so far were all "fail" and each brought a retry, unless the section has returned: then the last one
  // decided, and is in the draft.
  predicate Judged(maxRetries: int, task: Task, vs: seq<Verdict>) {
    var r := task.retries;
    && |vs| == (if task.phase.Returned? then r + 1 else r)
    && (forall k :: 0 <= k < r ==> vs[k].status == "fail")
    && (task.phase.Returned? ==>
          task.phase.draft == Draft(vs[r].content, vs[r].status, r) && (vs[r].status == "fail" ==> r >= maxRetries))
  }

  // Every verdict is reported, and every retry with the notes of the verdict that caused it.
  predicate Told(events: seq<Event>, id: string, retries: nat, vs: seq<Verdict>) {
    && retries <= |vs|
    && Statuses(events, id) == seq(|vs|, k requires 0 <= k < |vs| => vs[k].status)
    && Retries(events, id) == seq(retries, k requires 0 <= k < retries => (k + 1, vs[k].notes))
  }

  lemma StatusesMore(vs: seq<Verdict>, v: Verdict)
    ensures var more := vs + [v];
            seq(|more|, k requires 0 <= k < |more| => more[k].status) ==
            seq(|vs|, k requires 0 <= k < |vs| => vs[k].status) + [v.status]
  {
  }

  lemma NotesMore(vs: seq<Verdict>, v: Verdict)
    ensures var more := vs + [v];
            seq(|more|, k requires 0 <= k < |more| => (k + 1, more[k].notes)) ==
            seq(|vs|, k requires 0 <= k < |vs| => (k + 1, vs[k].notes)) + [(|vs| + 1, v.notes)]
  {
  }

  lemma NotesOf(vs: seq<Verdict>, v: Verdict, r: nat)
    requires r <= |vs|
    ensures var more := vs + [v];
            seq(r, k requires 0 <= k < r => (k + 1, more[k].notes)) ==
            seq(r, k requires 0 <= k < r => (k + 1, vs[k].notes))
  {
  }

  ghost predicate Heard(cfg: Config, s: State, id: string, vs: seq<Verdict>) {
    if id in s.tasks then Judged(cfg.maxRetries, s.tasks[id], vs) && Told(s.out + s.queue, id, s.tasks[id].retries, vs)
    else vs == [] && Told(s.out + s.queue, id, 0, vs)
  }

  // Events that report neither a verdict nor a retry of the section.
  predicate Silent(events: seq<Event>, id: string) {
    Statuses(events, id) == [] && Retries(events, id) == []
  }

  lemma ToldOn(events: seq<Event>, more: seq<Event>, id: string, retries: nat, vs: seq<Verdict>)
    requires Told(events, id, retries, vs) && Silent(more, id)
    ensures Told(events + more, id, retries, vs)
  {
    ReportsConcat(events, more, id);
  }

  lemma OneEvent(e: Event, id: string)
    ensures Statuses([e], id) == if e.StepComplete? && e.id == id && e.step == "checker" then [e.status] else []
    ensures Retries([e], id) == if e.SectionRetry? && e.id == id then [(e.retryCount, e.reason)] else []
  {
    assert [e][..0] == [];
  }

  lemma {:induction false} OthersSilent(events: seq<Event>, x: string, id: string)
    requires x != id && forall e :: e in events ==> e.Reports(x)
    ensures Silent(events, id)
  {
    if events != [] {
      assert events[|events| - 1] in events;
      OthersSilent(events[..|events| - 1], x, id);
    }
  }

  // A verdict is told when it comes, and a retry with it.
  lemma ToldVerdict(events: seq<Event>, id: string, r: nat, vs: seq<Verdict>, v: Verdict, e: Event)
    requires Told(events, id, r, vs) && r == |vs| && Silent([e], id)
    ensures Told(events + [StepComplete(id, "checker", v.status), e], id, r, vs + [v])
  {
    hide Statuses, Retries;
    var checked := StepComplete(id, "checker", v.status);
    OneEvent(checked, id);
    ReportsConcat([checked], [e], id);
    assert [checked] + [e] == [checked, e];
    ReportsConcat(events, [checked, e], id);
    StatusesMore(vs, v);
    NotesOf(vs, v, r);
  }

  lemma ToldRetry(events: seq<Event>, id: string, r: nat, vs: seq<Verdict>, v: Verdict)
    requires Told(events, id, r, vs) && r == |vs|
    ensures Told(events + [StepComplete(id, "checker", v.status), SectionRetry(id, r + 1, v.notes), SectionStarted(id)],
                 id, r + 1, vs + [v])
  {
    hide Statuses, Retries;
    var events' := [StepComplete(id, "checker", v.status), SectionRetry(id, r + 1, v.notes), SectionStarted(id)];
    RetryEvents(id, r + 1, v);
    ReportsConcat(events, events', id);
    StatusesMore(vs, v);
    NotesMore(vs, v);
  }

  lemma RetryEvents(id: string, k: nat, v: Verdict)
    ensures var events := [StepComplete(id, "checker", v.status), SectionRetry(id, k, v.notes), SectionStarted(id)];
            Statuses(events, id) == [v.status] && Retries(events, id) == [(k, v.notes)]
  {
    hide Statuses, Retries;
    var checked, retry := StepComplete(id, "checker", v.status), SectionRetry(id, k, v.notes);
    var started := SectionStarted(id);
    OneEvent(checked, id);
    OneEvent(retry, id);
    OneEvent(started, id);
    ReportsConcat([checked], [retry], id);
    ReportsConcat([checked] + [retry], [started], id);
    assert [checked] + [retry] + [started] == [checked, retry, started];
  }

  function VerdictOf(a: Action, id: string): seq<Verdict> {
    match a
    case CheckerReturns(x, content, status, notes) => if x == id then [Verdict(content, status, notes)] else []
    case _ => []
  }

  // A task's own step.
  lemma HeardTask(cfg: Config, s: State, x: string, task: Task, events: seq<Event>, id: string, vs: seq<Verdict>)
    requires Heard(cfg, s, id, vs) && x in s.tasks && (x != id ==> forall e :: e in events ==> e.Reports(x))
    requires x == id ==> Silent(events, id) && task.retries == s.tasks[id].retries
    requires x == id ==> !task.phase.Returned? && !s.tasks[id].phase.Returned?
    ensures Heard(cfg, Put(s, x, task, events), id, vs)
  {
    hide Told, Silent;
    if x != id {
      OthersSilent(events, x, id);
    }
    assert s.out + (s.queue + events) == s.out + s.queue + events;
    ToldOn(s.out + s.queue, events, id, if id in s.tasks then s.tasks[id].retries else 0, vs);
  }

  lemma HeardChecker(cfg: Config, s: State, id: string, content: string, status: string, notes: string,
                     vs: seq<Verdict>)
    requires Heard(cfg, s, id, vs) && PhaseIs(s, id, Checking)
    ensures Heard(cfg, CheckerStep(cfg, s, id, content, status, notes), id, vs + [Verdict(content, status, notes)])
  {
    hide Told;
    var r, v := s.tasks[id].retries, Verdict(content, status, notes);
    var draft := Draft(content, status, r);
    OneEvent(SectionComplete(id, draft), id);
    ToldVerdict(s.out + s.queue, id, r, vs, v, SectionComplete(id, draft));
    var events := if status == "fail" && r < cfg.maxRetries
      then [StepComplete(id, "checker", status), SectionRetry(id, r + 1, notes), SectionStarted(id)]
      else [StepComplete(id, "checker", status), SectionComplete(id, draft)];
    if status == "fail" && r < cfg.maxRetries {
      ToldRetry(s.out + s.queue, id, r, vs, v);
    }
    assert s.out + (s.queue + events) == s.out + s.queue + events;
  }

  lemma HeardTaskAction(cfg: Config, s: State, a: Action, id: string, vs: seq<Verdict>)
    requires Heard(cfg, s, id, vs) && Enabled(cfg, s, a)
    requires a.Begin? || a.WriterReturns? || a.EditorReturns? || a.CheckerReturns? || a.AgentRaises? || a.Expire?
    ensures Heard(cfg, Apply(cfg, s, a), id, vs + VerdictOf(a, id))
  {
    hide Heard, Put, StartStep, HandleStep;
    var x := a.id;
    var task := s.tasks[x];
    assert vs + [] == vs;
    NothingSilent(x);
    match a
    case Begin(_) => HeardTask(cfg, s, x, task.(phase := Writing), [SectionStarted(x)], id, vs);
    case WriterReturns(_) =>
      HeardTask(cfg, s, x, task.(phase := Editing), [StepComplete(x, "writer", "success")], id, vs);
    case EditorReturns(_) =>
      HeardTask(cfg, s, x, task.(phase := Checking), [StepComplete(x, "editor", "success")], id, vs);
    case CheckerReturns(_, content, status, notes) =>
      if x == id {
        HeardChecker(cfg, s, id, content, status, notes, vs);
      } else {
        var r, checked := task.retries, StepComplete(x, "checker", status);
        if status == "fail" && r < cfg.maxRetries {
          var events := [checked, SectionRetry(x, r + 1, notes), SectionStarted(x)];
          HeardTask(cfg, s, x, Task(Writing, r + 1), events, id, vs);
        } else {
          var draft := Draft(content, status, r);
          HeardTask(cfg, s, x, Task(Returned(draft), r), [checked, SectionComplete(x, draft)], id, vs);
        }
      }
    case _ => HeardTask(cfg, s, x, task.(phase := if a.Expire? then Expired else Failed), [], id, vs);
  }

  lemma NothingSilent(x: string)
    ensures Silent([], x) && Silent([SectionStarted(x)], x)
    ensures Silent([StepComplete(x, "writer", "success")], x) && Silent([StepComplete(x, "editor", "success")], x)
  {
    OneEvent(SectionStarted(x), x);
    OneEvent(StepComplete(x, "writer", "success"), x);
    OneEvent(StepComplete(x, "editor", "success"), x);
  }

  // The generator reports no verdict of its own.
  lemma HeardGenerator(cfg: Config, s: State, a: Action, id: string, vs: seq<Verdict>)
    requires ValidConfig(cfg) && Bookkeeping(cfg, s) && Heard(cfg, s, id, vs) && Enabled(cfg, s, a)
    requires !a.Begin? && !a.WriterReturns? && !a.EditorReturns? && !a.CheckerReturns? && !a.AgentRaises? && !a.Expire?
    ensures Heard(cfg, Apply(cfg, s, a), id, vs)
  {
    hide ValidConfig, Bookkeeping, Told, Judged, OrderedDrafts, CheckerStep, Put, Elements;
    var s' := Apply(cfg, s, a);
    if a.StartBatch? && s.batch < |cfg.batches| {
      StartedTasks(cfg, s);
      if id !in s.tasks && id in s'.tasks {
        assert s'.tasks[id] == Task(Created, 0);
        NothingJudged(cfg.maxRetries);
      }
    } else if a.YieldQueued? {
      assert s.queue == [s.queue[0]] + s.queue[1..];
      assert s'.out + s'.queue == s.out + s.queue;
    } else if s'.out == s.out {
      assert s'.queue == s.queue;
    } else {
      var e := s'.out[|s.out|];
      assert s'.out == s.out + [e] && s'.queue == s.queue;
      GeneratorSilent(s.out, e, s.queue, id, if id in s.tasks then s.tasks[id].retries else 0, vs);
    }
  }

  lemma NothingJudged(maxRetries: int)
    ensures Judged(maxRetries, Task(Created, 0), [])
  {
  }

  lemma GeneratorSilent(out: seq<Event>, e: Event, queue: seq<Event>, id: string, retries: nat, vs: seq<Verdict>)
    requires Told(out + queue, id, retries, vs) && !e.StepComplete? && !e.SectionRetry?
    ensures Told(out + [e] + queue, id, retries, vs)
  {
    OneEvent(e, id);
    ReportsConcat(out, [e], id);
    ReportsConcat(out + [e], queue, id);
    ReportsConcat(out, queue, id);
  }

  lemma {:induction false} AllHeard(cfg: Config, acts: seq<Action>, id: string)
    requires ValidConfig(cfg) && Run(cfg, acts).Some?
    ensures Heard(cfg, Run(cfg, acts).value, id, Verdicts(acts, id))
  {
    hide ValidConfig, Enabled, Apply, Heard, Bookkeeping, Reporting, Ordering, Ending;
    if acts == [] {
      NothingHeard(cfg, id);
    } else {
      var front, a := acts[..|acts| - 1], acts[|acts| - 1];
      AllHeard(cfg, front, id);
      Reachable(cfg, front);
      var s, vs := Run(cfg, front).value, Verdicts(front, id);
      assert Verdicts(acts, id) == vs + VerdictOf(a, id);
      if a.Begin? || a.WriterReturns? || a.EditorReturns? || a.CheckerReturns? || a.AgentRaises? || a.Expire? {
        HeardTaskAction(cfg, s, a, id, vs);
      } else {
        HeardGenerator(cfg, s, a, id, vs);
      }
    }
  }

  lemma NothingHeard(cfg: Config, id: string)
    ensures Heard(cfg, Init(), id, [])
  {
  }

  // What the checker said decides how a section goes on, in every interleaving. While it has not returned, it was
  // retried once for each verdict, and each was "fail"; a verdict other than "fail", or a "fail" with the retries
  // spent, is its last: it returns with that verdict's content and status. Every verdict is reported as it was given,
  // and every retry with its number and the verdict's notes.
  lemma VerdictsDecide(cfg: Config, acts: seq<Action>, id: string)
    requires ValidConfig(cfg) && Run(cfg, acts).Some? && id in Run(cfg, acts).value.tasks
    ensures var s, vs := Run(cfg, acts).value, Verdicts(acts, id);
            var phase, r := s.tasks[id].phase, s.tasks[id].retries;
            && |vs| == (if phase.Returned? then r + 1 else r)
            && (forall k :: 0 <= k < r ==> vs[k].status == "fail")
            && (phase.Returned? ==>
                  phase.draft == Draft(vs[r].content, vs[r].status, r) &&
                    (vs[r].status == "fail" ==> r >= cfg.maxRetries))
            && Statuses(s.out + s.queue, id) == seq(|vs|, k requires 0 <= k < |vs| => vs[k].status)
            && Retries(s.out + s.queue, id) == seq(r, k requires 0 <= k < r => (k + 1, vs[k].notes))
  {
    hide Run, ValidConfig;
    AllHeard(cfg, acts, id);
  }

  // A section whose task returned has reported r failed attempts and one accepted attempt, ending in its
  // SectionCompleteEvent; r is its draft's retry count, within the budget, and spent if the last check failed. It was
  // checked r + 1 times, failed the first r times, and returned what the last verdict was about.
  lemma ReturnedSectionReports(cfg: Config, acts: seq<Action>, id: string)
    requires ValidConfig(cfg) && Run(cfg, acts).Some?
    requires id in Run(cfg, acts).value.tasks && Run(cfg, acts).value.tasks[id].phase.Returned?
    ensures var s, vs := Run(cfg, acts).value, Verdicts(acts, id);
            var draft := s.tasks[id].phase.draft;
            var r := draft.retryCount;
            && 0 <= r && (r == 0 || r <= cfg.maxRetries) && (draft.checkerStatus == "fail" ==> r >= cfg.maxRetries)
            && Script(Project(s.out + s.queue, id), id, Task(Returned(draft), r))
            && |vs| == r + 1 && (forall k :: 0 <= k < r ==> vs[k].status == "fail")
            && draft.content == vs[r].content && draft.checkerStatus == vs[r].status
  {
    hide Run, ValidConfig, Bookkeeping, Ordering, Ending, Script;
    Reachable(cfg, acts);
    VerdictsDecide(cfg, acts, id);
    var s := Run(cfg, acts).value;
    assert Reported(s.out + s.queue, id, s.tasks[id], id in s.drafts);
  }

  // ---- What else the actions decide ----------------------------------------------------

  // A section has timed out, or failed, exactly if its time ran out, or an agent raised in it.
  ghost predicate Blames(s: State, acts: seq<Action>) {
    && (forall id :: Expire(id) in acts <==> PhaseIs(s, id, Expired))
    && (forall id :: AgentRaises(id) in acts <==> PhaseIs(s, id, Failed))
  }

  // An error names a section in which an agent raised.
  ghost predicate Named(out: seq<Event>, acts: seq<Action>) {
    exists id :: WriteError(Some(id)) in out && AgentRaises(id) in acts
  }

  // The end of the stream: its text is what the assembler returned, and its errors name what raised.
  ghost predicate EndsFor(s: State, acts: seq<Action>) {
    && (forall i :: 0 <= i < |s.out| && s.out[i].WriteComplete? ==> AssemblerReturns(s.out[i].assembled) in acts)
    && (forall i, id :: 0 <= i < |s.out| && s.out[i] == WriteError(Some(id)) ==> AgentRaises(id) in acts)
    && (s.main.Failing? || s.main.Stopped? ==> AssemblerRaises in acts || Named(s.out, acts))
    && (AssemblerRaises in acts ==> s.main.Failing? || s.main.Stopped?)
    && (forall e :: e in s.queue ==> e.OfSection())
  }

  lemma BlamesStep(cfg: Config, s: State, a: Action, acts: seq<Action>)
    requires ValidConfig(cfg) && Bookkeeping(cfg, s) && Blames(s, acts) && Enabled(cfg, s, a)
    ensures Blames(Apply(cfg, s, a), acts + [a])
  {
    hide ValidConfig, Bookkeeping, OrderedDrafts, Elements, HandleStep, Blames, StartStep, CheckerStep, Put;
    if a.Begin? || a.WriterReturns? || a.EditorReturns? || a.CheckerReturns? || a.AgentRaises? || a.Expire? {
      BlamesTask(cfg, s, a, acts);
    } else {
      if a.StartBatch? && s.batch < |cfg.batches| {
        StartedTasks(cfg, s);
      } else if a.StartBatch? {
        AssemblyTasks(cfg, s);
      } else if a.Handle? {
        HandledTasks(s, a.id);
      }
      BlamesOn(s, Apply(cfg, s, a), a, acts);
    }
  }

  lemma AssemblyTasks(cfg: Config, s: State)
    requires s.batch >= |cfg.batches|
    ensures StartStep(cfg, s).tasks == s.tasks
  {
  }

  lemma BlamesTask(cfg: Config, s: State, a: Action, acts: seq<Action>)
    requires Blames(s, acts) && Enabled(cfg, s, a)
    requires a.Begin? || a.WriterReturns? || a.EditorReturns? || a.CheckerReturns? || a.AgentRaises? || a.Expire?
    ensures Blames(Apply(cfg, s, a), acts + [a])
  {
    hide Apply, Blames;
    TaskAfter(cfg, s, a);
    BlamesOne(s, Apply(cfg, s, a), a, acts);
  }

  lemma TaskAfter(cfg: Config, s: State, a: Action)
    requires Enabled(cfg, s, a)
    requires a.Begin? || a.WriterReturns? || a.EditorReturns? || a.CheckerReturns? || a.AgentRaises? || a.Expire?
    ensures var s' := Apply(cfg, s, a);
            && a.id in s.tasks && s.tasks[a.id].Running() && a.id in s'.tasks
            && s'.tasks == s.tasks[a.id := s'.tasks[a.id]]
            && (s'.tasks[a.id].phase.Expired? <==> a.Expire?) && (s'.tasks[a.id].phase.Failed? <==> a.AgentRaises?)
  {
    hide StartStep, HandleStep;
  }

  lemma BlamesOne(s: State, s': State, a: Action, acts: seq<Action>)
    requires Blames(s, acts)
    requires a.Begin? || a.WriterReturns? || a.EditorReturns? || a.CheckerReturns? || a.AgentRaises? || a.Expire?
    requires a.id in s.tasks && s.tasks[a.id].Running() && a.id in s'.tasks
    requires s'.tasks == s.tasks[a.id := s'.tasks[a.id]]
    requires (s'.tasks[a.id].phase.Expired? <==> a.Expire?) && (s'.tasks[a.id].phase.Failed? <==> a.AgentRaises?)
    ensures Blames(s', acts + [a])
  {
    assert forall x :: x in acts + [a] <==> x in acts || x == a;
  }

  // Old tasks stay as they are, new ones are fresh.
  lemma BlamesOn(s: State, s': State, a: Action, acts: seq<Action>)
    requires Blames(s, acts) && !a.Expire? && !a.AgentRaises? && s.tasks.Keys <= s'.tasks.Keys
    requires forall id :: id in s'.tasks ==> s'.tasks[id] == (if id in s.tasks then s.tasks[id] else Task(Created, 0))
    ensures Blames(s', acts + [a])
  {
    assert forall x :: x in acts + [a] <==> x in acts || x == a;
  }

  lemma HandledTasks(s: State, id: string)
    requires s.main.Handling? && id in s.tasks
    ensures HandleStep(s, id).tasks == s.tasks
  {
  }

  lemma EndsStep(cfg: Config, s: State, a: Action, acts: seq<Action>)
    requires ValidConfig(cfg) && EndsFor(s, acts) && Blames(s, acts) && Enabled(cfg, s, a)
    ensures EndsFor(Apply(cfg, s, a), acts + [a])
  {
    hide ValidConfig, OrderedDrafts, Blames, EndsFor;
    var s' := Apply(cfg, s, a);
    if a.Begin? || a.WriterReturns? || a.EditorReturns? || a.CheckerReturns? || a.AgentRaises? || a.Expire? {
      hide StartStep, HandleStep;
      EndsQueued(s, s', a, acts);
    } else if a.YieldQueued? {
      hide StartStep, HandleStep, CheckerStep, Put;
      EndsYielded(s, a, acts);
    } else if s'.out == s.out {
      hide CheckerStep, Put;
      EndsSilently(s, s', a, acts);
    } else {
      hide CheckerStep, Put;
      var e := s'.out[|s.out|];
      if a.Handle? && s'.main.Failing? {
        FailedRaised(s, a.id, acts);
      }
      EndsWith(s, s', e, a, acts);
    }
  }

  lemma FailedRaised(s: State, id: string, acts: seq<Action>)
    requires Blames(s, acts) && PhaseIs(s, id, Failed)
    ensures AgentRaises(id) in acts
  {
  }

  // A task queues its section's events.
  lemma EndsQueued(s: State, s': State, a: Action, acts: seq<Action>)
    requires EndsFor(s, acts) && s'.out == s.out && s'.main == s.main && s.queue <= s'.queue && a != AssemblerRaises
    requires forall e :: e in s'.queue[|s.queue|..] ==> e.OfSection()
    ensures EndsFor(s', acts + [a])
  {
    assert forall x :: x in acts + [a] <==> x in acts || x == a;
    assert s'.queue == s.queue + s'.queue[|s.queue|..];
    StillNamed(s.out, s'.out, acts, a);
  }

  lemma EndsYielded(s: State, a: Action, acts: seq<Action>)
    requires EndsFor(s, acts) && s.queue != [] && a == YieldQueued
    ensures EndsFor(s.(queue := s.queue[1..], out := s.out + [s.queue[0]]), acts + [a])
  {
    assert forall x :: x in acts + [a] <==> x in acts || x == a;
    assert s.queue[0] in s.queue;
    StillNamed(s.out, s.out + [s.queue[0]], acts, a);
  }

  lemma EndsSilently(s: State, s': State, a: Action, acts: seq<Action>)
    requires EndsFor(s, acts) && s'.out == s.out && s'.queue == s.queue
    requires if a.AssemblerRaises? then s'.main.Failing? else !s'.main.Failing? && !s'.main.Stopped?
    requires !s.main.Failing? && !s.main.Stopped?
    ensures EndsFor(s', acts + [a])
  {
    assert forall x :: x in acts + [a] <==> x in acts || x == a;
  }

  // The generator yields an event of its own.
  lemma EndsWith(s: State, s': State, e: Event, a: Action, acts: seq<Action>)
    requires EndsFor(s, acts) && s'.out == s.out + [e] && s'.queue == s.queue && !a.AssemblerRaises?
    requires e.WriteComplete? ==> a == AssemblerReturns(e.assembled)
    requires e.WriteError? && e.section.Some? ==> AgentRaises(e.section.value) in acts && s'.main.Failing?
    requires s'.main.Failing? ==> e.WriteError? && e.section.Some?
    requires s'.main.Stopped? <==> s.main.Failing?
    requires !s.main.Stopped?
    ensures EndsFor(s', acts + [a])
  {
    assert forall x :: x in acts + [a] <==> x in acts || x == a;
    StillNamed(s.out, s'.out, acts, a);
    if s'.main.Failing? {
      assert s'.out[|s.out|] == e && WriteError(e.section) in s'.out;
      assert AgentRaises(e.section.value) in acts + [a];
    }
  }

  lemma StillNamed(out: seq<Event>, more: seq<Event>, acts: seq<Action>, a: Action)
    requires out <= more
    ensures Named(out, acts) ==> Named(more, acts + [a])
  {
    if Named(out, acts) {
      var id :| WriteError(Some(id)) in out && AgentRaises(id) in acts;
      assert more == out + more[|out|..];
      assert WriteError(Some(id)) in more && AgentRaises(id) in acts + [a];
    }
  }

  lemma {:induction false} ActionsDecide(cfg: Config, acts: seq<Action>)
    requires ValidConfig(cfg) && Run(cfg, acts).Some?
    ensures Blames(Run(cfg, acts).value, acts) && EndsFor(Run(cfg, acts).value, acts)
  {
    hide ValidConfig, Enabled, Apply, Blames, EndsFor, Bookkeeping, Reporting, Ordering, Ending;
    if acts == [] {
      NothingDecided();
    } else {
      var front, a := acts[..|acts| - 1], acts[|acts| - 1];
      ActionsDecide(cfg, front);
      Reachable(cfg, front);
      BlamesStep(cfg, Run(cfg, front).value, a, front);
      EndsStep(cfg, Run(cfg, front).value, a, front);
      assert front + [a] == acts;
    }
  }

  lemma NothingDecided()
    ensures Blames(Init(), []) && EndsFor(Init(), [])
  {
  }

  // The run's result by its actions alone: it has completed only if nothing raised, with the text the assembler
  // returned; and what the assembler was given of a section is the timeout notice if its time ran out, and the content
  // and status of its last verdict if not.
  lemma CompletedWith(cfg: Config, acts: seq<Action>, i: nat)
    requires ValidConfig(cfg) && Run(cfg, acts).Some? && Run(cfg, acts).value.main.Completed?
    requires i < |cfg.sections|
    ensures var s, id := Run(cfg, acts).value, cfg.sections[i].sectionId;
            var vs := Verdicts(acts, id);
            && AssemblerRaises !in acts && (forall x :: AgentRaises(x) !in acts)
            && s.out != [] && s.out[|s.out| - 1].WriteComplete?
            && AssemblerReturns(s.out[|s.out| - 1].assembled) in acts
            && |s.main.args| == |cfg.sections|
            && (if Expire(id) in acts then s.main.args[i] == Draft("[Section timed out]", "timeout", 0)
                else vs != [] && s.main.args[i] == Draft(vs[|vs| - 1].content, vs[|vs| - 1].status, |vs| - 1))
  {
    hide Run, ValidConfig, Reporting, Ordering;
    Reachable(cfg, acts);
    ActionsDecide(cfg, acts);
    var s := Run(cfg, acts).value;
    AllDrafted(cfg, s, i);
    VerdictsDecide(cfg, acts, cfg.sections[i].sectionId);
    NoneFailed(cfg, s);
    hide Bookkeeping;
  }

  lemma NoneFailed(cfg: Config, s: State)
    requires Bookkeeping(cfg, s) && s.main.Completed?
    ensures forall id :: !PhaseIs(s, id, Failed)
  {
    hide Placed, OrderedDrafts;
  }

  // ---- How long a run can be -----------------------------------------------------------

  function RetriesLeft(cfg: Config, task: Task): nat {
    if task.retries < cfg.maxRetries then cfg.maxRetries - task.retries else 0
  }

  // What a task can still do: its actions, and the yielding of the events they queue.
  function TaskWork(cfg: Config, task: Task): nat {
    match task.phase
    case Created => 10 + 8 * RetriesLeft(cfg, task)
    case Writing => 8 + 8 * RetriesLeft(cfg, task)
    case Editing => 6 + 8 * RetriesLeft(cfg, task)
    case Checking => 4 + 8 * RetriesLeft(cfg, task)
    case _ => 0
  }

  // The most a section can cost: its task, and its part in starting, waiting for and handling its batch.
  function SectionBound(cfg: Config): nat {
    16 + 8 * RetriesLeft(cfg, Task(Created, 0))
  }

  function SectionWork(cfg: Config, s: State, id: string): nat {
    if id !in s.tasks then SectionBound(cfg)
    else TaskWork(cfg, s.tasks[id]) + (if id in s.pending then 4 else if id in DoneSet(s.main) then 1 else 0)
  }

  function SectionsWork(cfg: Config, s: State, sections: seq<Section>): nat {
    if sections == [] then 0
    else SectionsWork(cfg, s, sections[..|sections| - 1]) + SectionWork(cfg, s, sections[|sections| - 1].sectionId)
  }

  function MainWork(main: Main): nat {
    match main
    case Handling(_) => 5
    case Draining => 4
    case FinalDrain => 4
    case Waiting => 3
    case NextBatch => 3
    case AtAssembler(_) => 2
    case Failing => 1
    case _ => 0
  }

  // A bound on the actions still to come, polls that find nothing aside.
  function Work(cfg: Config, s: State): nat {
    SectionsWork(cfg, s, cfg.sections) + |s.queue| + MainWork(s.main)
  }

  ghost predicate NoMoreWork(cfg: Config, s: State, s': State) {
    forall id :: SectionWork(cfg, s', id) <= SectionWork(cfg, s, id)
  }

  lemma {:induction false} WorkNotMore(cfg: Config, s: State, s': State, sections: seq<Section>)
    requires NoMoreWork(cfg, s, s')
    ensures SectionsWork(cfg, s', sections) <= SectionsWork(cfg, s, sections)
  {
    hide SectionWork;
    if sections != [] {
      WorkNotMore(cfg, s, s', sections[..|sections| - 1]);
    }
  }

  lemma {:induction false} WorkDrops(cfg: Config, s: State, s': State, sections: seq<Section>, i: nat, d: nat)
    requires NoMoreWork(cfg, s, s') && i < |sections|
    requires SectionWork(cfg, s', sections[i].sectionId) + d <= SectionWork(cfg, s, sections[i].sectionId)
    ensures SectionsWork(cfg, s', sections) + d <= SectionsWork(cfg, s, sections)
  {
    hide SectionWork;
    var front := sections[..|sections| - 1];
    if i < |front| {
      WorkDrops(cfg, s, s', front, i, d);
    } else {
      WorkNotMore(cfg, s, s', front);
    }
  }

  lemma TaskOfSection(cfg: Config, s: State, id: string)
    requires ValidConfig(cfg) && Bookkeeping(cfg, s) && id in s.tasks
    ensures exists i :: 0 <= i < |cfg.sections| && cfg.sections[i].sectionId == id
  {
    hide Placed;
    DraftsBehind(cfg, s, id);
    PlacedWhere(cfg.batches, |cfg.batches|);
    assert id in IdSet(cfg.sections);
  }

  // A section's work has dropped and no other's has grown.
  lemma SectionDrops(cfg: Config, s: State, s': State, id: string, d: nat)
    requires ValidConfig(cfg) && Bookkeeping(cfg, s) && id in s.tasks
    requires NoMoreWork(cfg, s, s') && SectionWork(cfg, s', id) + d <= SectionWork(cfg, s, id)
    ensures SectionsWork(cfg, s', cfg.sections) + d <= SectionsWork(cfg, s, cfg.sections)
  {
    hide ValidConfig, Bookkeeping, NoMoreWork, SectionWork, SectionsWork;
    TaskOfSection(cfg, s, id);
    var i :| 0 <= i < |cfg.sections| && cfg.sections[i].sectionId == id;
    WorkDrops(cfg, s, s', cfg.sections, i, d);
  }

  lemma TaskWorks(cfg: Config, s: State, id: string, task: Task, events: seq<Event>)
    requires ValidConfig(cfg) && Bookkeeping(cfg, s) && id in s.tasks
    requires TaskWork(cfg, task) + 1 + |events| <= TaskWork(cfg, s.tasks[id])
    ensures Work(cfg, Put(s, id, task, events)) + 1 <= Work(cfg, s)
  {
    hide ValidConfig, Bookkeeping, TaskWork, SectionsWork;
    SectionDrops(cfg, s, Put(s, id, task, events), id, 1 + |events|);
  }

  lemma TaskActionsWork(cfg: Config, s: State, a: Action)
    requires ValidConfig(cfg) && Bookkeeping(cfg, s) && Enabled(cfg, s, a)
    requires a.Begin? || a.WriterReturns? || a.EditorReturns? || a.CheckerReturns? || a.AgentRaises? || a.Expire?
    ensures Work(cfg, Apply(cfg, s, a)) + 1 <= Work(cfg, s)
  {
    hide ValidConfig, Bookkeeping, Work, Put;
    var id := a.id;
    var task := s.tasks[id];
    match a
    case Begin(_) => TaskWorks(cfg, s, id, task.(phase := Writing), [SectionStarted(id)]);
    case WriterReturns(_) => TaskWorks(cfg, s, id, task.(phase := Editing), [StepComplete(id, "writer", "success")]);
    case EditorReturns(_) => TaskWorks(cfg, s, id, task.(phase := Checking), [StepComplete(id, "editor", "success")]);
    case CheckerReturns(_, content, status, notes) =>
      var r, checked := task.retries, StepComplete(id, "checker", status);
      if status == "fail" && r < cfg.maxRetries {
        TaskWorks(cfg, s, id, Task(Writing, r + 1), [checked, SectionRetry(id, r + 1, notes), SectionStarted(id)]);
      } else {
        var draft := Draft(content, status, r);
        TaskWorks(cfg, s, id, Task(Returned(draft), r), [checked, SectionComplete(id, draft)]);
      }
    case _ => TaskWorks(cfg, s, id, task.(phase := if a.Expire? then Expired else Failed), []);
  }

  lemma StartBatchWork(cfg: Config, s: State)
    requires ValidConfig(cfg) && Bookkeeping(cfg, s) && s.main.NextBatch?
    ensures Work(cfg, StartStep(cfg, s)) + 1 <= Work(cfg, s)
  {
    hide ValidConfig, Bookkeeping, SectionsWork, OrderedDrafts;
    var s' := StartStep(cfg, s);
    if s.batch < |cfg.batches| {
      hide StartStep, Elements, TaskWork;
      StartedTasks(cfg, s);
      var i := StartedOfSection(cfg, s);
      StartedWork(cfg, s);
      WorkDrops(cfg, s, s', cfg.sections, i, 2);
    } else {
      WorkNotMore(cfg, s, s', cfg.sections);
    }
  }

  // Starting takes two from the work of each section of the batch and leaves the others' as it is.
  lemma StartedWork(cfg: Config, s: State)
    requires ValidConfig(cfg) && Bookkeeping(cfg, s) && s.main.NextBatch? && s.batch < |cfg.batches|
    ensures NoMoreWork(cfg, s, StartStep(cfg, s))
    ensures forall id :: id in Elements(cfg.batches[s.batch]) ==>
            SectionWork(cfg, StartStep(cfg, s), id) + 2 == SectionWork(cfg, s, id)
  {
    hide ValidConfig, Bookkeeping, StartStep, Elements;
    StartedTasks(cfg, s);
  }

  lemma StartedOfSection(cfg: Config, s: State) returns (i: nat)
    requires ValidConfig(cfg) && s.batch < |cfg.batches|
    ensures i < |cfg.sections| && cfg.sections[i].sectionId in Elements(cfg.batches[s.batch])
  {
    hide Placed;
    PlacedWhere(cfg.batches, |cfg.batches|);
    var id := cfg.batches[s.batch][0];
    assert id in IdSet(cfg.sections);
    i :| 0 <= i < |cfg.sections| && cfg.sections[i].sectionId == id;
  }

  lemma WaitWork(cfg: Config, s: State, finished: set<string>)
    requires ValidConfig(cfg) && Bookkeeping(cfg, s) && Enabled(cfg, s, WaitReturns(finished))
    ensures Work(cfg, Apply(cfg, s, WaitReturns(finished))) + 1 <= Work(cfg, s) + if finished == {} then 3 else 0
  {
    hide ValidConfig, Bookkeeping, SectionsWork, TaskWork;
    var s' := Apply(cfg, s, WaitReturns(finished));
    assert NoMoreWork(cfg, s, s');
    if finished == {} {
      WorkNotMore(cfg, s, s', cfg.sections);
    } else {
      var id :| id in finished;
      SectionDrops(cfg, s, s', id, 3);
    }
  }

  lemma NotPending(cfg: Config, s: State, id: string)
    requires Bookkeeping(cfg, s) && s.main.Handling? && id in s.main.done
    ensures id !in s.pending
  {
    hide Placed, OrderedDrafts;
  }

  lemma HandleWork(cfg: Config, s: State, id: string)
    requires ValidConfig(cfg) && Bookkeeping(cfg, s) && Enabled(cfg, s, Handle(id))
    ensures Work(cfg, HandleStep(s, id)) + 1 <= Work(cfg, s)
  {
    hide ValidConfig, Bookkeeping, SectionsWork, TaskWork;
    NotPending(cfg, s, id);
    var s' := HandleStep(s, id);
    assert NoMoreWork(cfg, s, s');
    if s'.main.Failing? {
      WorkNotMore(cfg, s, s', cfg.sections);
    } else {
      SectionDrops(cfg, s, s', id, 1);
    }
  }

  // The generator's other actions leave the sections' work as it is.
  lemma GeneratorWork(cfg: Config, s: State, a: Action)
    requires Enabled(cfg, s, a)
    requires a.YieldQueued? || a.StopDraining? || a.StopHandling? || a.EndBatch? || a.AssemblerReturns?
             || a.AssemblerRaises? || a.YieldFinalError?
    ensures Work(cfg, Apply(cfg, s, a)) + 1 <= Work(cfg, s)
  {
    hide SectionsWork, TaskWork, CheckerStep, StartStep, HandleStep, Put;
    WorkNotMore(cfg, s, Apply(cfg, s, a), cfg.sections);
  }

  lemma StepWork(cfg: Config, s: State, a: Action)
    requires ValidConfig(cfg) && Bookkeeping(cfg, s) && Enabled(cfg, s, a)
    ensures Work(cfg, Apply(cfg, s, a)) + 1 <= Work(cfg, s) + if a == WaitReturns({}) then 3 else 0
  {
    hide ValidConfig, Bookkeeping, Work, CheckerStep, StartStep, HandleStep, Put;
    match a
    case StartBatch => StartBatchWork(cfg, s);
    case WaitReturns(finished) => WaitWork(cfg, s, finished);
    case Handle(id) => HandleWork(cfg, s, id);
    case YieldQueued => GeneratorWork(cfg, s, a);
    case StopDraining => GeneratorWork(cfg, s, a);
    case StopHandling => GeneratorWork(cfg, s, a);
    case EndBatch => GeneratorWork(cfg, s, a);
    case AssemblerReturns(_) => GeneratorWork(cfg, s, a);
    case AssemblerRaises => GeneratorWork(cfg, s, a);
    case YieldFinalError => GeneratorWork(cfg, s, a);
    case _ => TaskActionsWork(cfg, s, a);
  }

  lemma {:induction false} WorkAtStart(cfg: Config, sections: seq<Section>)
    ensures SectionsWork(cfg, Init(), sections) == SectionBound(cfg) * |sections|
  {
    if sections != [] {
      WorkAtStart(cfg, sections[..|sections| - 1]);
    }
  }

  // How often the generator waited in vain.
  function EmptyPolls(acts: seq<Action>): nat {
    if acts == [] then 0
    else EmptyPolls(acts[..|acts| - 1]) + if acts[|acts| - 1] == WaitReturns({}) then 1 else 0
  }

  lemma {:induction false} LengthAndWork(cfg: Config, acts: seq<Action>)
    requires ValidConfig(cfg) && Run(cfg, acts).Some?
    ensures |acts| + Work(cfg, Run(cfg, acts).value) <= 3 + SectionBound(cfg) * |cfg.sections| + 3 * EmptyPolls(acts)
  {
    hide ValidConfig, Enabled, Apply, SectionsWork, SectionBound, Bookkeeping, Reporting, Ordering, Ending;
    if acts == [] {
      WorkAtStart(cfg, cfg.sections);
    } else {
      hide Work;
      var front := acts[..|acts| - 1];
      LengthAndWork(cfg, front);
      Reachable(cfg, front);
      StepWork(cfg, Run(cfg, front).value, acts[|acts| - 1]);
    }
  }

  // Only a poll that finds nothing can be repeated for ever, with the two actions that lead back to it: all the others
  // of a run, the tasks' and the generator's, are bounded by the number of sections and the retry budget.
  lemma RunLength(cfg: Config, acts: seq<Action>)
    requires ValidConfig(cfg) && Run(cfg, acts).Some?
    ensures var budget := if cfg.maxRetries > 0 then cfg.maxRetries else 0;
            |acts| <= 3 + (16 + 8 * budget) * |cfg.sections| + 3 * EmptyPolls(acts)
  {
    hide Run, ValidConfig, Work;
    LengthAndWork(cfg, acts);
  }

  // These actions, none of them a failure, a timeout or a poll that finds nothing, bring the run to its end.
  ghost predicate CompletedBy(cfg: Config, acts: seq<Action>, more: seq<Action>) {
    && (forall i :: 0 <= i < |more| ==> Forward(more[i]))
    && Run(cfg, acts + more).Some? && Run(cfg, acts + more).value.main.Completed?
  }

  // From wherever it is, a run in which nothing raised can be completed without any failure or further timeout.
  lemma {:induction false} CanComplete(cfg: Config, acts: seq<Action>)
    requires ValidConfig(cfg) && Run(cfg, acts).Some?
    requires forall i :: 0 <= i < |acts| ==> !acts[i].AgentRaises? && !acts[i].AssemblerRaises?
    ensures exists more :: CompletedBy(cfg, acts, more)
    decreases Work(cfg, Run(cfg, acts).value)
  {
    hide Run, ValidConfig, Work, Enabled, Inv;
    var s := Run(cfg, acts).value;
    if s.main.Completed? {
      assert acts + [] == acts;
      assert CompletedBy(cfg, acts, []);
    } else {
      NothingFails(cfg, acts);
      NeverStuck(cfg, acts);
      var a :| Enabled(cfg, s, a) && Forward(a);
      GoesOn(cfg, acts, a);
      CanComplete(cfg, acts + [a]);
      var more :| CompletedBy(cfg, acts + [a], more);
      assert acts + [a] + more == acts + ([a] + more);
      assert CompletedBy(cfg, acts, [a] + more);
    }
  }

  lemma GoesOn(cfg: Config, acts: seq<Action>, a: Action)
    requires ValidConfig(cfg) && Run(cfg, acts).Some? && Enabled(cfg, Run(cfg, acts).value, a) && Forward(a)
    ensures Run(cfg, acts + [a]) == Some(Apply(cfg, Run(cfg, acts).value, a))
    ensures Work(cfg, Apply(cfg, Run(cfg, acts).value, a)) < Work(cfg, Run(cfg, acts).value)
  {
    hide ValidConfig, Work, Enabled, Apply;
    assert (acts + [a])[..|acts|] == acts;
    Reachable(cfg, acts);
    StepWork(cfg, Run(cfg, acts).value, a);
  }
}
