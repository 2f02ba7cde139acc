/**
  The setup-status endpoint: a per-IP cache in front of an admin count that concurrent requests share
  (setup_status, backend/app/gateway/routers/auth.py).

  A state machine over the event loop: an action is what a request, a counting task or the environment does between
  two suspension points. The code under the in-flight guard never suspends while holding it, so it is one action.
 */
module SetupStatus {
  import opened Common
  import Eviction

  const CACHE_TTL_SECONDS := 60.0
  const MAX_TRACKED_IPS: nat := 10000

  datatype Cached = Cached(at: real, needsSetup: bool)

  // Counted: the admins have been counted, but the task has not finished yet.
  datatype Status = Running | Counted(needsSetup: bool) | Done(needsSetup: bool) | Broken

  datatype Task = Task(ip: string, status: Status) {
    predicate Unfinished() {
      status.Running? || status.Counted?
    }
  }

  datatype Progress =
    | AtGuard
    | Awaiting(task: nat)
    | Finishing(needsSetup: bool)                   // past the finally block, about to update the cache
    | Answered(needsSetup: bool, fromCache: bool)
    | Raised

  datatype Request = Request(ip: string, progress: Progress)

  datatype State = State(
    now: real,
    admins: nat,
    cache: map<string, Cached>,
    inflight: map<string, nat>,
    tasks: seq<Task>,
    requests: map<nat, Request>)

  datatype Action =
    | Tick(now: real)
    | AdminAdded
    | AdminRemoved
    | Arrive(r: nat, ip: string)
    | EnterGuard(r: nat, kept: map<string, Cached>)   // kept: the cache after eviction, when a task is started
    | Count(task: nat)
    | Finish(task: nat)
    | Break(task: nat)                                // the count failed, or a waiting request's cancellation did it
    | Resume(r: nat)
    | ResumeCancelled(r: nat)
    | UpdateCache(r: nat)

  // ---- The step relation ---------------------------------------------------------------

  function Init(now: real, admins: nat): State {
    State(now, admins, map[], map[], [], map[])
  }

  function Lookup(s: State, ip: string): Option<bool> {
    if ip in s.cache && s.now - s.cache[ip].at < CACHE_TTL_SECONDS then Some(s.cache[ip].needsSetup) else None
  }

  function WithoutStale(cache: map<string, Cached>, now: real): map<string, Cached> {
    map ip | ip in cache && !(cache[ip].at < now - CACHE_TTL_SECONDS) :: cache[ip]
  }

  function CachedAt(cached: Cached): real {
    cached.at
  }

  // Stale answers go first, then the older half.
  ghost predicate Evicts(cache: map<string, Cached>, now: real, kept: map<string, Cached>) {
    Eviction.Evicts(cache, WithoutStale(cache, now), MAX_TRACKED_IPS, kept, CachedAt)
  }

  predicate IsAwaiting(s: State, r: nat) {
    r in s.requests && s.requests[r].progress.Awaiting? && s.requests[r].progress.task < |s.tasks|
  }

  ghost predicate Enabled(s: State, a: Action) {
    match a
    case Tick(now) => s.now <= now
    case AdminAdded => true
    case AdminRemoved => s.admins > 0
    case Arrive(r, _) => r !in s.requests
    case EnterGuard(r, kept) => r in s.requests && s.requests[r].progress.AtGuard? && Evicts(s.cache, s.now, kept)
    case Count(t) => t < |s.tasks| && s.tasks[t].status.Running?
    case Finish(t) => t < |s.tasks| && s.tasks[t].status.Counted?
    case Break(t) => t < |s.tasks| && s.tasks[t].Unfinished()
    case Resume(r) => IsAwaiting(s, r) && !s.tasks[s.requests[r].progress.task].Unfinished()
    case ResumeCancelled(r) => IsAwaiting(s, r) && !s.tasks[s.requests[r].progress.task].Unfinished()
    case UpdateCache(r) => r in s.requests && s.requests[r].progress.Finishing?
  }

  function Move(s: State, r: nat, progress: Progress): State
    requires r in s.requests
  {
    s.(requests := s.requests[r := s.requests[r].(progress := progress)])
  }

  function ArriveStep(s: State, r: nat, ip: string): State {
    var s1 := s.(requests := s.requests[r := Request(ip, AtGuard)]);
    match Lookup(s, ip)
    case Some(answer) => Move(s1, r, Answered(answer, true))
    case None => s1
  }

  function GuardStep(s: State, r: nat, kept: map<string, Cached>): State
    requires r in s.requests
  {
    var ip := s.requests[r].ip;
    match Lookup(s, ip)
    case Some(answer) => Move(s, r, Answered(answer, true))
    case None =>
      if ip in s.inflight then Move(s, r, Awaiting(s.inflight[ip]))
      else Move(WithTask(s, ip, kept), r, Awaiting(|s.tasks|))
  }

  // A new counting task for ip, after the cache's eviction.
  function WithTask(s: State, ip: string, kept: map<string, Cached>): State {
    s.(cache := kept, inflight := s.inflight[ip := |s.tasks|], tasks := s.tasks + [Task(ip, Running)])
  }

  // The finally block: forget the in-flight task if it is still the awaited one.
  function Release(s: State, r: nat): State
    requires IsAwaiting(s, r)
  {
    var ip := s.requests[r].ip;
    if ip in s.inflight && s.inflight[ip] == s.requests[r].progress.task then s.(inflight := s.inflight - {ip}) else s
  }

  function SetStatus(s: State, t: nat, status: Status): State
    requires t < |s.tasks|
  {
    s.(tasks := s.tasks[t := s.tasks[t].(status := status)])
  }

  function Apply(s: State, a: Action): State
    requires Enabled(s, a)
  {
    match a
    case Tick(now) => s.(now := now)
    case AdminAdded => s.(admins := s.admins + 1)
    case AdminRemoved => s.(admins := s.admins - 1)
    case Arrive(r, ip) => ArriveStep(s, r, ip)
    case EnterGuard(r, kept) => GuardStep(s, r, kept)
    case Count(t) => SetStatus(s, t, Counted(s.admins == 0))
    case Finish(t) => SetStatus(s, t, Done(s.tasks[t].status.needsSetup))
    case Break(t) => SetStatus(s, t, Broken)
    case Resume(r) =>
      var status := s.tasks[s.requests[r].progress.task].status;
      Move(Release(s, r), r, if status.Done? then Finishing(status.needsSetup) else Raised)
    case ResumeCancelled(r) => Move(Release(s, r), r, Raised)
    case UpdateCache(r) =>
      var ip, needsSetup := s.requests[r].ip, s.requests[r].progress.needsSetup;
      Move(s, r, Answered(needsSetup, false)).(
        cache := if needsSetup then s.cache - {ip} else s.cache[ip := Cached(s.now, needsSetup)])
  }

  ghost function Run(now: real, admins: nat, acts: seq<Action>): Option<State> {
    if acts == [] then Some(Init(now, admins))
    else
      match Run(now, admins, acts[..|acts| - 1])
      case None => None
      case Some(s) =>
        var a := acts[|acts| - 1];
        if Enabled(s, a) then Some(Apply(s, a)) else None
  }

  // ---- Single flight -------------------------------------------------------------------

  // Every unfinished task is the one registered for its ip, and the registry and the waiting requests are consistent.
  ghost predicate SingleFlight(s: State) {
    && (forall t :: 0 <= t < |s.tasks| && s.tasks[t].Unfinished() ==>
        s.tasks[t].ip in s.inflight && s.inflight[s.tasks[t].ip] == t)
    && (forall ip :: ip in s.inflight ==> s.inflight[ip] < |s.tasks| && s.tasks[s.inflight[ip]].ip == ip)
    && (forall r :: r in s.requests && s.requests[r].progress.Awaiting? ==>
          s.requests[r].progress.task < |s.tasks| && s.tasks[s.requests[r].progress.task].ip == s.requests[r].ip)
  }

  // Only False is ever cached, so no request is answered True from the cache.
  ghost predicate CachesOnlyFalse(s: State) {
    && (forall ip :: ip in s.cache ==> !s.cache[ip].needsSetup)
    && (forall r :: r in s.requests && s.requests[r].progress.Answered? && s.requests[r].progress.fromCache ==>
          !s.requests[r].progress.needsSetup)
  }

  // Wherever a False answer is held, an admin exists.
  ghost predicate FalseIsTrue(s: State) {
    s.admins == 0 ==>
      && s.cache == map[]
      && (forall t :: 0 <= t < |s.tasks| && (s.tasks[t].status.Counted? || s.tasks[t].status.Done?) ==>
          s.tasks[t].status.needsSetup)
      && (forall r :: r in s.requests && (s.requests[r].progress.Finishing? || s.requests[r].progress.Answered?) ==>
            s.requests[r].progress.needsSetup)
  }

  lemma TaskMoves(s: State, t: nat, status: Status)
    requires SingleFlight(s) && t < |s.tasks| && s.tasks[t].Unfinished()
    ensures SingleFlight(SetStatus(s, t, status))
  {
  }

  lemma NewTaskKeeps(s: State, ip: string, kept: map<string, Cached>)
    requires SingleFlight(s) && ip !in s.inflight
    ensures SingleFlight(WithTask(s, ip, kept))
  {
  }

  lemma MoveKeeps(s: State, r: nat, progress: Progress)
    requires SingleFlight(s) && r in s.requests
    requires progress.Awaiting? ==> progress.task < |s.tasks| && s.tasks[progress.task].ip == s.requests[r].ip
    ensures SingleFlight(Move(s, r, progress))
  {
  }

  lemma GuardKeeps(s: State, r: nat, kept: map<string, Cached>)
    requires SingleFlight(s) && r in s.requests && s.requests[r].progress.AtGuard?
    ensures SingleFlight(GuardStep(s, r, kept))
  {
    var ip := s.requests[r].ip;
    var answer := Lookup(s, ip);
    hide Lookup, Move;
    if answer.Some? {
      MoveKeeps(s, r, Answered(answer.value, true));
    } else if ip in s.inflight {
      MoveKeeps(s, r, Awaiting(s.inflight[ip]));
    } else {
      NewTaskKeeps(s, ip, kept);
      MoveKeeps(WithTask(s, ip, kept), r, Awaiting(|s.tasks|));
    }
  }

  // A task leaves the registry only when it has finished.
  lemma ReleaseKeeps(s: State, r: nat, progress: Progress)
    requires SingleFlight(s) && IsAwaiting(s, r) && !s.tasks[s.requests[r].progress.task].Unfinished()
    requires !progress.Awaiting?
    ensures SingleFlight(Move(Release(s, r), r, progress))
  {
  }

  lemma SingleFlightKept(s: State, a: Action)
    requires SingleFlight(s) && Enabled(s, a)
    ensures SingleFlight(Apply(s, a))
  {
    match a
    case EnterGuard(r, kept) => GuardKeeps(s, r, kept);
    case Count(t) => TaskMoves(s, t, Counted(s.admins == 0));
    case Finish(t) => TaskMoves(s, t, Done(s.tasks[t].status.needsSetup));
    case Break(t) => TaskMoves(s, t, Broken);
    case Resume(r) =>
      var status := s.tasks[s.requests[r].progress.task].status;
      ReleaseKeeps(s, r, if status.Done? then Finishing(status.needsSetup) else Raised);
    case ResumeCancelled(r) => ReleaseKeeps(s, r, Raised);
    case _ =>
  }

  lemma OnlyFalseKept(s: State, a: Action)
    requires CachesOnlyFalse(s) && Enabled(s, a)
    ensures CachesOnlyFalse(Apply(s, a))
  {
    hide Evicts;
    match a
    case EnterGuard(r, kept) => OnlyFalseGuard(s, r, kept);
    case Resume(_) => OnlyFalseResume(s, a);
    case ResumeCancelled(_) => OnlyFalseResume(s, a);
    case _ =>
  }

  lemma KeptWithin(cache: map<string, Cached>, now: real, kept: map<string, Cached>)
    requires Evicts(cache, now, kept)
    ensures forall ip :: ip in kept ==> ip in cache && kept[ip] == cache[ip]
  {
    Eviction.EvictsWithin(cache, WithoutStale(cache, now), MAX_TRACKED_IPS, kept, CachedAt);
  }

  lemma OnlyFalseGuard(s: State, r: nat, kept: map<string, Cached>)
    requires CachesOnlyFalse(s) && r in s.requests && s.requests[r].progress.AtGuard? && Evicts(s.cache, s.now, kept)
    ensures CachesOnlyFalse(GuardStep(s, r, kept))
  {
    KeptWithin(s.cache, s.now, kept);
    hide Evicts;
  }

  lemma OnlyFalseResume(s: State, a: Action)
    requires CachesOnlyFalse(s) && Enabled(s, a) && (a.Resume? || a.ResumeCancelled?)
    ensures CachesOnlyFalse(Apply(s, a))
  {
    hide Evicts;
  }

  lemma FalseKept(s: State, a: Action)
    requires FalseIsTrue(s) && Enabled(s, a) && !a.AdminRemoved?
    ensures FalseIsTrue(Apply(s, a))
  {
    hide Evicts;
    match a
    case EnterGuard(r, kept) => FalseGuard(s, r, kept);
    case Resume(_) => FalseResume(s, a);
    case ResumeCancelled(_) => FalseResume(s, a);
    case _ =>
  }

  lemma FalseGuard(s: State, r: nat, kept: map<string, Cached>)
    requires FalseIsTrue(s) && r in s.requests && s.requests[r].progress.AtGuard? && Evicts(s.cache, s.now, kept)
    ensures FalseIsTrue(GuardStep(s, r, kept))
  {
    KeptWithin(s.cache, s.now, kept);
    hide Evicts;
  }

  lemma FalseResume(s: State, a: Action)
    requires FalseIsTrue(s) && Enabled(s, a) && (a.Resume? || a.ResumeCancelled?)
    ensures FalseIsTrue(Apply(s, a))
  {
    hide Evicts;
  }

  // Over all interleavings: at most one admin-count task per ip is unfinished at a time.
  lemma {:induction false} OneCountPerIp(now: real, admins: nat, acts: seq<Action>)
    requires Run(now, admins, acts).Some?
    ensures SingleFlight(Run(now, admins, acts).value)
    ensures var s := Run(now, admins, acts).value;
            forall t, u :: 0 <= t < u < |s.tasks| && s.tasks[t].ip == s.tasks[u].ip ==>
              !(s.tasks[t].Unfinished() && s.tasks[u].Unfinished())
  {
    if acts != [] {
      OneCountPerIp(now, admins, acts[..|acts| - 1]);
      SingleFlightKept(Run(now, admins, acts[..|acts| - 1]).value, acts[|acts| - 1]);
    }
  }

  // The cache only ever holds False, and True is never served from it.
  lemma {:induction false} TrueNeverCached(now: real, admins: nat, acts: seq<Action>)
    requires Run(now, admins, acts).Some?
    ensures CachesOnlyFalse(Run(now, admins, acts).value)
  {
    if acts != [] {
      TrueNeverCached(now, admins, acts[..|acts| - 1]);
      OnlyFalseKept(Run(now, admins, acts[..|acts| - 1]).value, acts[|acts| - 1]);
    }
  }

  // If admins are never removed, a request is answered False, from the cache or a shared count, only when an admin
  // exists.
  lemma {:induction false} FalseIsCorrect(now: real, admins: nat, acts: seq<Action>)
    requires Run(now, admins, acts).Some?
    requires AdminRemoved !in acts
    ensures FalseIsTrue(Run(now, admins, acts).value)
  {
    if acts != [] {
      var before := acts[..|acts| - 1];
      assert acts == before + [acts[|acts| - 1]];
      FalseIsCorrect(now, admins, before);
      FalseKept(Run(now, admins, before).value, acts[|acts| - 1]);
    }
  }

  // ---- Where answers come from ---------------------------------------------------------

  // What the counts of a run found: for which address, and whether there was no admin at that moment.
  ghost function Counts(now: real, admins: nat, acts: seq<Action>): set<(string, bool)> {
    if acts == [] then {}
    else
      var front, a := acts[..|acts| - 1], acts[|acts| - 1];
      Counts(now, admins, front) +
        match Run(now, admins, front)
        case Some(s) => if a.Count? && a.task < |s.tasks| then {(s.tasks[a.task].ip, s.admins == 0)} else {}
        case None => {}
  }

  ghost predicate Sourced(s: State, counts: set<(string, bool)>) {
    && (forall ip :: ip in s.cache ==> (ip, s.cache[ip].needsSetup) in counts)
    && (forall t :: 0 <= t < |s.tasks| && (s.tasks[t].status.Counted? || s.tasks[t].status.Done?) ==>
          (s.tasks[t].ip, s.tasks[t].status.needsSetup) in counts)
    && (forall r :: r in s.requests && (s.requests[r].progress.Finishing? || s.requests[r].progress.Answered?) ==>
          (s.requests[r].ip, s.requests[r].progress.needsSetup) in counts)
  }

  lemma SourcedMore(s: State, counts: set<(string, bool)>, more: set<(string, bool)>)
    requires Sourced(s, counts) && counts <= more
    ensures Sourced(s, more)
  {
  }

  lemma SourcedStep(s: State, a: Action, counts: set<(string, bool)>)
    requires Sourced(s, counts) && SingleFlight(s) && Enabled(s, a)
    requires a.Count? ==> (s.tasks[a.task].ip, s.admins == 0) in counts
    ensures Sourced(Apply(s, a), counts)
  {
    hide Evicts;
    if a.Arrive? {
      SourcedArrive(s, a.r, a.ip, counts);
    }
    hide Lookup;
    match a
    case EnterGuard(r, kept) => SourcedGuard(s, r, kept, counts);
    case Resume(_) => SourcedResume(s, a, counts);
    case ResumeCancelled(_) => SourcedResume(s, a, counts);
    case _ =>
  }

  lemma SourcedArrive(s: State, r: nat, ip: string, counts: set<(string, bool)>)
    requires Sourced(s, counts) && r !in s.requests
    ensures Sourced(ArriveStep(s, r, ip), counts)
  {
  }

  lemma SourcedMove(s: State, r: nat, progress: Progress, counts: set<(string, bool)>)
    requires Sourced(s, counts) && r in s.requests
    requires progress.Finishing? || progress.Answered? ==> (s.requests[r].ip, progress.needsSetup) in counts
    ensures Sourced(Move(s, r, progress), counts)
  {
  }

  lemma SourcedStart(s: State, ip: string, kept: map<string, Cached>, counts: set<(string, bool)>)
    requires Sourced(s, counts) && forall ip :: ip in kept ==> ip in s.cache && kept[ip] == s.cache[ip]
    ensures Sourced(WithTask(s, ip, kept), counts)
  {
  }

  lemma SourcedGuard(s: State, r: nat, kept: map<string, Cached>, counts: set<(string, bool)>)
    requires Sourced(s, counts) && r in s.requests && Evicts(s.cache, s.now, kept)
    ensures Sourced(GuardStep(s, r, kept), counts)
  {
    KeptWithin(s.cache, s.now, kept);
    var ip, answer := s.requests[r].ip, Lookup(s, s.requests[r].ip);
    assert answer.Some? ==> (ip, answer.value) in counts;
    hide Evicts, Lookup, Move, Sourced;
    if answer.Some? {
      SourcedMove(s, r, Answered(answer.value, true), counts);
    } else if ip in s.inflight {
      SourcedMove(s, r, Awaiting(s.inflight[ip]), counts);
    } else {
      SourcedStart(s, ip, kept, counts);
      SourcedMove(WithTask(s, ip, kept), r, Awaiting(|s.tasks|), counts);
    }
  }

  lemma SourcedResume(s: State, a: Action, counts: set<(string, bool)>)
    requires Sourced(s, counts) && SingleFlight(s) && Enabled(s, a) && (a.Resume? || a.ResumeCancelled?)
    ensures Sourced(Apply(s, a), counts)
  {
    hide Evicts;
  }

  // Every answer, whether from the cache, a shared count or an own one, is what some count for that address found in
  // this run: True only if there was no admin then, False only if there was one.
  lemma {:induction false} AnswersWereCounted(now: real, admins: nat, acts: seq<Action>)
    requires Run(now, admins, acts).Some?
    ensures Sourced(Run(now, admins, acts).value, Counts(now, admins, acts))
  {
    if acts != [] {
      var front, a := acts[..|acts| - 1], acts[|acts| - 1];
      var s := Run(now, admins, front).value;
      hide Sourced, SingleFlight, Apply;
      AnswersWereCounted(now, admins, front);
      OneCountPerIp(now, admins, front);
      SourcedMore(s, Counts(now, admins, front), Counts(now, admins, acts));
      SourcedStep(s, a, Counts(now, admins, acts));
    }
  }

  // A request raises only if it was cancelled or a count for its address broke.
  ghost predicate RaisesForCause(s: State, acts: seq<Action>) {
    && (forall t :: 0 <= t < |s.tasks| && s.tasks[t].status.Broken? ==> Break(t) in acts)
    && (forall r :: r in s.requests && s.requests[r].progress.Raised? ==>
          ResumeCancelled(r) in acts ||
            exists t :: 0 <= t < |s.tasks| && s.tasks[t].ip == s.requests[r].ip && Break(t) in acts)
  }

  lemma CauseStep(s: State, a: Action, acts: seq<Action>, more: seq<Action>)
    requires RaisesForCause(s, acts) && SingleFlight(s) && Enabled(s, a)
    requires a in more && forall x :: x in acts ==> x in more
    ensures RaisesForCause(Apply(s, a), more)
  {
    SameAddresses(s, a);
    if a.Resume? || a.ResumeCancelled? {
      ResumeCause(s, a, acts, more);
    } else {
      RaisesNoMore(s, a);
      BreaksNoMore(s, a);
      hide Evicts, Lookup, Apply, Enabled, SingleFlight;
    }
  }

  lemma RaisesNoMore(s: State, a: Action)
    requires Enabled(s, a) && !a.Resume? && !a.ResumeCancelled?
    ensures forall r :: r in Apply(s, a).requests && Apply(s, a).requests[r].progress.Raised? ==>
              r in s.requests && s.requests[r] == Apply(s, a).requests[r]
  {
    hide Evicts, Lookup;
  }

  lemma BreaksNoMore(s: State, a: Action)
    requires Enabled(s, a)
    ensures forall t :: 0 <= t < |Apply(s, a).tasks| && Apply(s, a).tasks[t].status.Broken? ==>
              a == Break(t) || (t < |s.tasks| && s.tasks[t].status.Broken?)
  {
    hide Evicts, Lookup;
  }

  lemma SameAddresses(s: State, a: Action)
    requires Enabled(s, a)
    ensures |s.tasks| <= |Apply(s, a).tasks|
    ensures forall t :: 0 <= t < |s.tasks| ==> Apply(s, a).tasks[t].ip == s.tasks[t].ip
  {
    hide Evicts, Lookup;
  }

  lemma ResumeCause(s: State, a: Action, acts: seq<Action>, more: seq<Action>)
    requires RaisesForCause(s, acts) && SingleFlight(s) && Enabled(s, a) && (a.Resume? || a.ResumeCancelled?)
    requires a in more && forall x :: x in acts ==> x in more
    ensures RaisesForCause(Apply(s, a), more)
  {
    hide Evicts, Lookup;
  }

  lemma {:induction false} RaisedForCause(now: real, admins: nat, acts: seq<Action>)
    requires Run(now, admins, acts).Some?
    ensures RaisesForCause(Run(now, admins, acts).value, acts)
  {
    if acts != [] {
      var front, a := acts[..|acts| - 1], acts[|acts| - 1];
      hide RaisesForCause, SingleFlight, Apply;
      RaisedForCause(now, admins, front);
      OneCountPerIp(now, admins, front);
      CauseStep(Run(now, admins, front).value, a, front, acts);
    } else {
      NothingRaised(now, admins);
    }
  }

  lemma NothingRaised(now: real, admins: nat)
    ensures RaisesForCause(Init(now, admins), [])
  {
  }

  // A request is answered from the cache exactly when its address has an answer cached less than 60 seconds ago.
  // Otherwise it goes on to the guard, and from there to the count in flight for its address.
  lemma AnsweredFromCache(s: State, a: Action, r: nat, ip: string)
    requires Enabled(s, a) && SingleFlight(s)
    requires a == Arrive(r, ip) || (a.EnterGuard? && a.r == r && s.requests[r].ip == ip)
    ensures var progress := Apply(s, a).requests[r].progress;
            if ip in s.cache && s.now - s.cache[ip].at < 60.0 then
              progress == Answered(s.cache[ip].needsSetup, true) && Apply(s, a).tasks == s.tasks
            else if a.Arrive? then progress == AtGuard
            else
              && progress.Awaiting? && progress.task < |Apply(s, a).tasks| && Apply(s, a).tasks[progress.task].ip == ip
              && (ip in s.inflight ==> Apply(s, a).tasks == s.tasks && progress.task == s.inflight[ip])
  {
  }

  // Having been told False, an address is told so again for 60 seconds without a count.
  lemma ToldAgain(s: State, r: nat, later: real, again: nat)
    requires Enabled(s, UpdateCache(r)) && s.requests[r].progress == Finishing(false)
    requires s.now <= later < s.now + 60.0 && again !in s.requests
    ensures var told := Apply(s, UpdateCache(r));
            var s' := Apply(Apply(told, Tick(later)), Arrive(again, s.requests[r].ip));
            told.requests[r].progress == Answered(false, false) &&
              s'.requests[again].progress == Answered(false, true) && s'.tasks == s.tasks
  {
  }

  // Having been told True, it is not answered from the cache, whatever the cache held.
  lemma CountsAgain(s: State, r: nat, again: nat)
    requires Enabled(s, UpdateCache(r)) && s.requests[r].progress == Finishing(true) && again !in s.requests
    ensures var told := Apply(s, UpdateCache(r));
            told.requests[r].progress == Answered(true, false) &&
              Apply(told, Arrive(again, s.requests[r].ip)).requests[again].progress == AtGuard
  {
  }

  // 60 seconds later it is not.
  lemma AsksAgain(s: State, r: nat, later: real, again: nat)
    requires Enabled(s, UpdateCache(r)) && s.requests[r].progress == Finishing(false)
    requires s.now + 60.0 <= later && again !in s.requests
    ensures var told := Apply(s, UpdateCache(r));
            Apply(Apply(told, Tick(later)), Arrive(again, s.requests[r].ip)).requests[again].progress == AtGuard
  {
  }

  // The admins there are: those there were, those added, without those removed.
  lemma {:induction false} AdminsAre(now: real, admins: nat, acts: seq<Action>)
    requires Run(now, admins, acts).Some?
    ensures Run(now, admins, acts).value.admins ==
            admins + multiset(acts)[AdminAdded] - multiset(acts)[AdminRemoved]
  {
    if acts != [] {
      var front, a := acts[..|acts| - 1], acts[|acts| - 1];
      hide Apply, Enabled;
      AdminsAre(now, admins, front);
      AdminsStep(Run(now, admins, front).value, a);
      assert acts == front + [a];
    }
  }

  lemma AdminsStep(s: State, a: Action)
    requires Enabled(s, a)
    ensures Apply(s, a).admins ==
            s.admins + (if a == AdminAdded then 1 else 0) - (if a == AdminRemoved then 1 else 0)
  {
    hide Evicts, Lookup;
  }

  // A count stays registered only as long as some request awaits it, so that no later request joins a finished one.
  ghost predicate RegisteredAwaited(s: State) {
    forall ip :: ip in s.inflight ==> AwaitedBy(s, s.inflight[ip])
  }

  ghost predicate AwaitedBy(s: State, t: nat) {
    exists r :: r in s.requests && s.requests[r].progress == Awaiting(t)
  }

  lemma AwaitedStep(s: State, a: Action)
    requires RegisteredAwaited(s) && SingleFlight(s) && Enabled(s, a)
    ensures RegisteredAwaited(Apply(s, a))
  {
    hide Evicts, Lookup, AwaitedBy;
    var next := Apply(s, a);
    forall ip | ip in next.inflight ensures AwaitedBy(next, next.inflight[ip]) {
      if ip in s.inflight && s.inflight[ip] == next.inflight[ip] {
        StillAwaited(s, a, ip);
      } else {
        StartAwaited(s, a, ip);
      }
    }
  }

  lemma StillAwaited(s: State, a: Action, ip: string)
    requires SingleFlight(s) && Enabled(s, a) && ip in s.inflight && AwaitedBy(s, s.inflight[ip])
    requires ip in Apply(s, a).inflight && Apply(s, a).inflight[ip] == s.inflight[ip]
    ensures AwaitedBy(Apply(s, a), s.inflight[ip])
  {
    var q :| q in s.requests && s.requests[q].progress == Awaiting(s.inflight[ip]);
    hide AwaitedBy;
    if (a.Resume? || a.ResumeCancelled?) && a.r == q {
      ResumedReleases(s, a, ip);
    } else {
      GoesOnAwaiting(s, a, q, s.inflight[ip]);
    }
    hide Apply, Enabled;
    Witness(Apply(s, a), q, s.inflight[ip]);
  }

  lemma GoesOnAwaiting(s: State, a: Action, q: nat, t: nat)
    requires Enabled(s, a) && q in s.requests && s.requests[q].progress == Awaiting(t)
    requires (a.Resume? || a.ResumeCancelled?) ==> a.r != q
    ensures q in Apply(s, a).requests && Apply(s, a).requests[q].progress == Awaiting(t)
  {
    hide Evicts, Lookup;
  }

  lemma ResumedReleases(s: State, a: Action, ip: string)
    requires SingleFlight(s) && Enabled(s, a) && (a.Resume? || a.ResumeCancelled?) && ip in s.inflight
    requires s.requests[a.r].progress == Awaiting(s.inflight[ip])
    ensures ip !in Apply(s, a).inflight
  {
    hide Evicts, Lookup;
  }

  lemma Witness(s: State, r: nat, t: nat)
    requires r in s.requests && s.requests[r].progress == Awaiting(t)
    ensures AwaitedBy(s, t)
  {
  }

  lemma StartAwaited(s: State, a: Action, ip: string)
    requires Enabled(s, a) && ip in Apply(s, a).inflight
    requires ip !in s.inflight || s.inflight[ip] != Apply(s, a).inflight[ip]
    ensures AwaitedBy(Apply(s, a), Apply(s, a).inflight[ip])
  {
    hide Evicts, Lookup, AwaitedBy;
    Witness(Apply(s, a), a.r, Apply(s, a).inflight[ip]);
  }

  lemma {:induction false} CountsAreAwaited(now: real, admins: nat, acts: seq<Action>)
    requires Run(now, admins, acts).Some?
    ensures RegisteredAwaited(Run(now, admins, acts).value)
  {
    if acts != [] {
      var front := acts[..|acts| - 1];
      hide RegisteredAwaited, SingleFlight, Apply;
      CountsAreAwaited(now, admins, front);
      OneCountPerIp(now, admins, front);
      AwaitedStep(Run(now, admins, front).value, acts[|acts| - 1]);
    }
  }

  // ---- How large the cache can grow ----------------------------------------------------

  // The addresses whose answer may still be cached: some request of theirs awaits a count or is about to cache it.
  ghost function Busy(s: State): set<string> {
    set r | r in s.requests && (s.requests[r].progress.Awaiting? || s.requests[r].progress.Finishing?) ::
      s.requests[r].ip
  }

  // The most of them at any time of a run.
  ghost function MostBusy(now: real, admins: nat, acts: seq<Action>): nat
    requires Run(now, admins, acts).Some?
  {
    var busy := |Busy(Run(now, admins, acts).value)|;
    if acts == [] then busy
    else
      var before := MostBusy(now, admins, acts[..|acts| - 1]);
      if before < busy then busy else before
  }

  function CacheLimit(busy: nat): nat {
    if busy < 10000 then 9999 + busy else 2 * busy + 1
  }

  // The cached and the busy addresses together keep within the limit.
  ghost predicate Within(s: State, busy: nat) {
    |Busy(s)| <= busy && |s.cache.Keys + Busy(s)| <= CacheLimit(busy)
  }

  lemma Smaller(a: set<string>, b: set<string>)
    requires a <= b
    ensures |a| <= |b|
  {
    assert b == a + (b - a);
  }

  lemma Together(a: set<string>, b: set<string>)
    ensures |a + b| <= |a| + |b|
  {
  }

  // An eviction leaves room for all the busy addresses.
  lemma EvictionMakesRoom(s: State, kept: map<string, Cached>, busy: nat)
    requires |s.cache.Keys| <= CacheLimit(busy) && Evicts(s.cache, s.now, kept)
    ensures |kept.Keys| + busy <= CacheLimit(busy)
  {
    var current := WithoutStale(s.cache, s.now);
    Smaller(current.Keys, s.cache.Keys);
    assert |current| == |current.Keys| && |kept| == |kept.Keys| && |s.cache| == |s.cache.Keys|;
    hide WithoutStale;
  }

  lemma StartWithin(s: State, next: State, kept: map<string, Cached>, busy: nat)
    requires Within(s, busy) && Evicts(s.cache, s.now, kept) && next.cache == kept && |Busy(next)| <= busy
    ensures Within(next, busy)
  {
    hide Busy, Evicts, WithoutStale;
    Smaller(s.cache.Keys, s.cache.Keys + Busy(s));
    EvictionMakesRoom(s, kept, busy);
    Together(kept.Keys, Busy(next));
  }

  lemma StartEvicts(s: State, r: nat, kept: map<string, Cached>)
    requires Enabled(s, EnterGuard(r, kept)) && GuardStep(s, r, kept).tasks != s.tasks
    ensures GuardStep(s, r, kept).cache == kept && Evicts(s.cache, s.now, kept)
  {
    hide Evicts, Lookup;
  }

  // No other step lets in an address that was neither cached nor busy.
  lemma OthersWithin(s: State, a: Action)
    requires SingleFlight(s) && RegisteredAwaited(s) && Enabled(s, a)
    requires a.EnterGuard? ==> Apply(s, a).tasks == s.tasks
    ensures Apply(s, a).cache.Keys + Busy(Apply(s, a)) <= s.cache.Keys + Busy(s)
  {
    hide Evicts, Lookup;
    match a
    case EnterGuard(r, kept) => JoinWithin(s, r, kept);
    case Resume(r) => ResumeWithin(s, a);
    case ResumeCancelled(r) => ResumeWithin(s, a);
    case _ =>
  }

  lemma JoinWithin(s: State, r: nat, kept: map<string, Cached>)
    requires SingleFlight(s) && RegisteredAwaited(s) && r in s.requests && s.requests[r].progress.AtGuard?
    requires GuardStep(s, r, kept).tasks == s.tasks
    ensures GuardStep(s, r, kept).cache.Keys + Busy(GuardStep(s, r, kept)) <= s.cache.Keys + Busy(s)
  {
    hide Lookup;
  }

  lemma ResumeWithin(s: State, a: Action)
    requires Enabled(s, a) && (a.Resume? || a.ResumeCancelled?)
    ensures Apply(s, a).cache.Keys + Busy(Apply(s, a)) <= s.cache.Keys + Busy(s)
  {
    hide Evicts, Lookup;
  }

  // The cache holds at most 9999 answers and one for each address busy at once, if these are fewer than 10000.
  lemma {:induction false} CacheBounded(now: real, admins: nat, acts: seq<Action>, busy: nat)
    requires Run(now, admins, acts).Some? && MostBusy(now, admins, acts) <= busy
    ensures |Run(now, admins, acts).value.cache| <= CacheLimit(busy)
    ensures Within(Run(now, admins, acts).value, busy)
  {
    if acts != [] {
      var front, a := acts[..|acts| - 1], acts[|acts| - 1];
      var s, next := Run(now, admins, front).value, Run(now, admins, acts).value;
      CacheBounded(now, admins, front, busy);
      OneCountPerIp(now, admins, front);
      CountsAreAwaited(now, admins, front);
      if a.EnterGuard? && next.tasks != s.tasks {
        StartEvicts(s, a.r, a.kept);
        StartWithin(s, next, a.kept, busy);
      } else {
        OthersWithin(s, a);
        Smaller(next.cache.Keys + Busy(next), s.cache.Keys + Busy(s));
      }
      Smaller(next.cache.Keys, next.cache.Keys + Busy(next));
      assert |next.cache| == |next.cache.Keys|;
    }
  }

  // ---- Every request can end -----------------------------------------------------------

  // What is still to come for a request: the guard, the count, its end, the request's resumption, the cache.
  function StepsLeft(s: State, r: nat): nat
    requires r in s.requests
  {
    match s.requests[r].progress
    case AtGuard => 5
    case Awaiting(t) =>
      if t >= |s.tasks| || s.tasks[t].status.Running? then 4 else if s.tasks[t].status.Counted? then 3 else 2
    case Finishing(_) => 1
    case _ => 0
  }

  // An action that neither breaks a count nor cancels a request.
  predicate Plain(a: Action) {
    a.EnterGuard? || a.Count? || a.Finish? || a.Resume? || a.UpdateCache?
  }

  lemma NextStep(s: State, r: nat) returns (a: Action)
    requires SingleFlight(s) && r in s.requests && StepsLeft(s, r) > 0
    ensures Plain(a) && Enabled(s, a) && r in Apply(s, a).requests && StepsLeft(Apply(s, a), r) < StepsLeft(s, r)
  {
    match s.requests[r].progress
    case AtGuard => a := GuardNext(s, r);
    case Awaiting(t) =>
      a := if s.tasks[t].status.Running? then Count(t) else if s.tasks[t].status.Counted? then Finish(t) else Resume(r);
    case Finishing(_) => a := UpdateCache(r);
  }

  lemma GuardNext(s: State, r: nat) returns (a: Action)
    requires SingleFlight(s) && r in s.requests && s.requests[r].progress.AtGuard?
    ensures Plain(a) && Enabled(s, a) && r in Apply(s, a).requests && StepsLeft(Apply(s, a), r) < 5
  {
    var kept := Eviction.EvictionPossible(s.cache, WithoutStale(s.cache, s.now), MAX_TRACKED_IPS, CachedAt);
    a := EnterGuard(r, kept);
    assert Evicts(s.cache, s.now, kept);
    hide Evicts, Lookup;
  }

  // By these actions, of which none breaks a count or cancels a request, request r ends.
  ghost predicate EndsBy(now: real, admins: nat, acts: seq<Action>, more: seq<Action>, r: nat) {
    && (forall i :: 0 <= i < |more| ==> Plain(more[i]))
    && Run(now, admins, acts + more).Some?
    && var s := Run(now, admins, acts + more).value;
       r in s.requests && (s.requests[r].progress.Answered? || s.requests[r].progress.Raised?)
  }

  // In every run a request that has arrived can be brought to its end; it raises then only for one of the causes above.
  lemma {:induction false} CanEnd(now: real, admins: nat, acts: seq<Action>, r: nat)
    requires Run(now, admins, acts).Some? && r in Run(now, admins, acts).value.requests
    ensures exists more :: EndsBy(now, admins, acts, more, r)
    decreases StepsLeft(Run(now, admins, acts).value, r)
  {
    hide Enabled, Apply, SingleFlight, Plain;
    var s := Run(now, admins, acts).value;
    if StepsLeft(s, r) == 0 {
      assert acts + [] == acts;
      assert EndsBy(now, admins, acts, [], r);
    } else {
      OneCountPerIp(now, admins, acts);
      var a := NextStep(s, r);
      assert (acts + [a])[..|acts|] == acts;
      CanEnd(now, admins, acts + [a], r);
      var more :| EndsBy(now, admins, acts + [a], more, r);
      assert acts + [a] + more == acts + ([a] + more);
      assert EndsBy(now, admins, acts, [a] + more, r);
    }
  }

  ghost function NotStale(cache: map<string, Cached>, now: real): set<string> {
    set ip | ip in cache && cache[ip].at >= now - 60.0
  }

  // Nothing is dropped from fewer than 10000 cached answers. Otherwise those older than 60 seconds go, and if that is
  // not enough half of the rest, none cached later than one that stays.
  lemma EvictionMeans(cache: map<string, Cached>, now: real, kept: map<string, Cached>)
    requires Evicts(cache, now, kept)
    ensures forall ip :: ip in kept ==> ip in cache && kept[ip] == cache[ip]
    ensures |cache| < 10000 ==> kept == cache
    ensures |cache| >= 10000 ==> kept.Keys <= NotStale(cache, now)
    ensures |cache| >= 10000 && |NotStale(cache, now)| < 10000 ==> kept.Keys == NotStale(cache, now)
    ensures |cache| >= 10000 && |NotStale(cache, now)| >= 10000 ==>
            && |kept| == |NotStale(cache, now)| - |NotStale(cache, now)| / 2
            && forall out, stays :: out in NotStale(cache, now) && out !in kept && stays in kept ==>
               cache[out].at <= cache[stays].at
  {
    var current := WithoutStale(cache, now);
    assert current.Keys == NotStale(cache, now) && |current| == |current.Keys|;
  }
}
