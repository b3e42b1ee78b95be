/**
 The session protocol as a transition system. Every request is a flight: its handler
 future together with the blocking task it may have spawned. Each locked region, each
 map operation, each permit hand-over and each clock call of a running task is one step,
 and any flight, the reaper or the clock may take the next one.

 Entries and trackers are shared by reference: `heap` and `trackers` keep every one ever
 made, and `ids` is the store's map, so a deleted entry lives on for the flights that
 still hold it. An entry and its tracker go by the same reference.
 */
module Protocol {
  import opened Wrappers
  import opened Tracker
  import opened TrackerTheorems
  import opened Engine
  import opened Session
  import opened Api

  type Ref = nat

  /** Names one request. */
  type Fid = nat

  datatype Settings = Settings(maxSessions: nat, maxConcurrency: nat)

  /** What a blocking task is to do. A resume carries the progress it took out of the entry. */
  datatype Job =
    | ResumeJob(id: Id, ref: Ref, progress: Progress, input: ResumeInput)
    | StartJob(ttl: nat, limits: Limits, source: string)
    | OtherJob

  /** The tracker a running task drives, and when its segment began. */
  datatype Begun = Begun(ref: Ref, at: nat)

  datatype JobResult =
    | DidStep(id: Id, ref: Ref, step: SessionStep, reply: Reply)
    | DidNotMatch(id: Id, ref: Ref, progress: Progress, error: ResumeMismatch)
    | DidStart(ttl: nat, ref: Ref, step: SessionStep, origin: Origin)
    | DidNotCompile(exception: Values.MontyException)
    | DidOther
    | DidPanic

  datatype Response =
    | Shown(view: SessionView)
    | Deleted
    | CompileError(exception: Values.MontyException)
    | OtherDone
    | Refused(error: ApiError)

  datatype Phase =
    | ResumeArrived(id: Id, input: ResumeInput)
    | ResumeFound(id: Id, ref: Ref, input: ResumeInput)
    | StatusArrived(id: Id)
    | DeleteArrived(id: Id)
    | DeleteOwned(id: Id)
    | Queued(job: Job)
    | Granted(job: Job)
    | Running(job: Job, begun: Option<Begun>)
    | Returned(result: JobResult)
    | Admitted(ttl: nat, ref: Ref, step: SessionStep, origin: Origin, since: nat)
    | Created(id: Id)
    | Viewing(id: Id, ref: Ref)
    | Responded(response: Response)
    | Gone

  /** A flight whose handler was cancelled is detached: its task runs on, with nobody to take the result. */
  datatype Flight = Flight(attached: bool, caller: string, phase: Phase)

  /**
   The reaper scans with one clock reading, then removes what it found without looking again. A
   scan looks at no id twice, and at every id that is there from its start, `due`, to its end.
   */
  datatype Reaper =
    | Resting
    | Scanning(at: nat, due: set<Id>, seen: set<Id>, expired: set<Id>)
    | Removing(at: nat, expired: set<Id>)

  datatype Sys = Sys(
    now: nat,
    heap: map<Ref, Entry>,
    trackers: map<Ref, Tracked>,
    ids: map<Id, Ref>,
    issued: set<Id>,
    flights: map<Fid, Flight>,
    free: nat,
    reaper: Reaper)

  datatype Action =
    | Tick(now: nat)
    | Arrive(f: Fid, caller: string, request: Phase)
    | LookUp(f: Fid)
    | Acquire(f: Fid)
    | Grant(f: Fid)
    | Spawn(f: Fid)
    | Begin(f: Fid, ref: Ref, created: nat)
    | Finish(f: Fid, env: nat, clocks: Clocks)
    | Panic(f: Fid, hooks: seq<Event>)
    | Cancel(f: Fid)
    | Collect(f: Fid)
    | Insert(f: Fid, id: Id, builtAt: nat)
    | View(f: Fid)
    | CheckOwner(f: Fid)
    | RemoveId(f: Fid)
    | ReapStart
    | ReapVisit(id: Id)
    | ReapSeal
    | ReapRemove(id: Id)
    | ReapEnd
    | Sweep

  function Init(cfg: Settings): Sys {
    Sys(0, map[], map[], map[], {}, map[], cfg.maxConcurrency, Resting)
  }

  // ---------------------------------------------------------------- pieces of steps

  function Move(s: Sys, f: Fid, phase: Phase): Sys
    requires f in s.flights
  {
    s.(flights := s.flights[f := s.flights[f].(phase := phase)])
  }

  function Refuse(s: Sys, f: Fid, error: ApiError): Sys
    requires f in s.flights
  {
    Move(s, f, Responded(Refused(error)))
  }

  /** A task ends: its permit is released, and its result reaches the handler if there still is one. */
  function Deliver(s: Sys, f: Fid, result: JobResult): Sys
    requires f in s.flights
  {
    Move(s, f, if s.flights[f].attached then Returned(result) else Gone).(free := s.free + 1)
  }

  /** Whether `id` names a session that `principal` may see. */
  predicate Visible(s: Sys, id: Id, principal: string) {
    id in s.ids && s.ids[id] in s.heap && s.heap[s.ids[id]].principal == principal
  }

  predicate IsArrival(request: Phase) {
    || request.ResumeArrived? || request.StatusArrived? || request.DeleteArrived?
    || (request.Queued? && (request.job.StartJob? || request.job.OtherJob?))
  }

  /** The hooks of one slice: interpreter hooks only, reading the clock forwards from `from` and not past `until`. */
  predicate HooksRun(hooks: seq<Event>, from: nat, until: nat) {
    && (forall i :: 0 <= i < |hooks| ==> !hooks[i].BeginSegment? && !hooks[i].EndSegment?)
    && Timeline(Cursor(true, from), hooks).Some?
    && Timeline(Cursor(true, from), hooks).value.at <= until
  }

  predicate ClocksRun(clocks: Clocks, begun: nat, now: nat) {
    clocks.begin == begun <= clocks.end <= clocks.restart <= clocks.stats <= now
  }

  function Record(s: Sys, ref: Ref, events: seq<Event>): Sys
    requires ref in s.trackers
  {
    s.(trackers := s.trackers[ref := s.trackers[ref].(events := s.trackers[ref].events + events)])
  }

  // ---------------------------------------------------------------- who holds what

  /** The entry-and-tracker reference that a flight holds exclusively, if any. */
  function Owns(phase: Phase): Option<Ref> {
    match phase
    case Queued(ResumeJob(_, ref, _, _)) => Some(ref)
    case Granted(ResumeJob(_, ref, _, _)) => Some(ref)
    case Running(ResumeJob(_, ref, _, _), _) => Some(ref)
    case Running(StartJob(_, _, _), Some(b)) => Some(b.ref)
    case Returned(DidStep(_, ref, _, _)) => Some(ref)
    case Returned(DidNotMatch(_, ref, _, _)) => Some(ref)
    case Returned(DidStart(_, ref, _, _)) => Some(ref)
    case Admitted(_, ref, _, _, _) => Some(ref)
    case _ => None
  }

  /** Whether what the flight holds was taken out of an entry, rather than made for a new one. */
  predicate HoldsTaken(phase: Phase) {
    match phase
    case Queued(job) => job.ResumeJob?
    case Granted(job) => job.ResumeJob?
    case Running(job, _) => job.ResumeJob?
    case Returned(result) => result.DidStep? || result.DidNotMatch?
    case _ => false
  }

  /** The step gives flight `f` nothing taken out of an entry that it did not hold before. */
  ghost predicate TakesNothing(s: Sys, t: Sys, f: Fid) {
    f in t.flights && HoldsTaken(t.flights[f].phase) ==>
      f in s.flights && HoldsTaken(s.flights[f].phase) && Owns(s.flights[f].phase) == Owns(t.flights[f].phase)
  }

  /** Apart from maps of the store, a step of flight `f` changes that flight alone. */
  ghost predicate OnlyFlight(s: Sys, t: Sys, f: Fid) {
    && f in s.flights && f in t.flights && t.flights == s.flights[f := t.flights[f]]
    && t.flights[f].caller == s.flights[f].caller
    && t.now == s.now && t.reaper == s.reaper
  }

  /** Nothing is added to the store's map, and no id is drawn. */
  ghost predicate AddsNoId(s: Sys, t: Sys) {
    t.issued == s.issued && forall id :: id in t.ids ==> id in s.ids && t.ids[id] == s.ids[id]
  }

  ghost predicate SameIds(s: Sys, t: Sys) {
    t.ids == s.ids && t.issued == s.issued
  }

  /** A step of flight `f` that leaves every entry and tracker as it was. */
  ghost predicate Quiet(s: Sys, t: Sys, f: Fid) {
    OnlyFlight(s, t, f) && TakesNothing(s, t, f) && AddsNoId(s, t) && t.heap == s.heap && t.trackers == s.trackers
  }

  /** A step of flight `f` in which no tracker changes but the one its task has begun on. */
  ghost predicate Drove(s: Sys, t: Sys, f: Fid) {
    && OnlyFlight(s, t, f) && TakesNothing(s, t, f) && SameIds(s, t) && t.heap == s.heap
    && s.trackers.Keys <= t.trackers.Keys
    && f in s.flights && s.flights[f].phase.Running?
    && forall r :: r in s.trackers && t.trackers[r] != s.trackers[r] ==>
         match s.flights[f].phase
         case Running(ResumeJob(_, ref, _, _), None) => r == ref
         case Running(_, Some(b)) => r == b.ref
         case _ => false
  }

  ghost predicate Took(s: Sys, t: Sys, f: Fid) {
    && OnlyFlight(s, t, f) && SameIds(s, t) && t.trackers == s.trackers
    && f in s.flights && s.flights[f].phase.ResumeFound?
    && var r := s.flights[f].phase.ref;
       r in s.heap && t.heap == s.heap[r := Acquired(s.heap[r]).0]
  }

  ghost predicate Collected(s: Sys, t: Sys, f: Fid) {
    && OnlyFlight(s, t, f) && TakesNothing(s, t, f) && SameIds(s, t) && t.trackers == s.trackers
    && f in s.flights && s.flights[f].phase.Returned?
    && var result := s.flights[f].phase.result;
       if result.DidStep? || result.DidNotMatch? then
         result.ref in s.heap && result.ref in t.heap && t.heap == s.heap[result.ref := t.heap[result.ref]]
       else t.heap == s.heap
  }

  ghost predicate Inserted(s: Sys, t: Sys, f: Fid) {
    && OnlyFlight(s, t, f) && TakesNothing(s, t, f) && t.trackers == s.trackers
    && f in s.flights && s.flights[f].phase.Admitted?
    && var r := s.flights[f].phase.ref;
       && r in t.heap && t.heap == s.heap[r := t.heap[r]]
       && s.issued <= t.issued && s.ids.Keys <= t.ids.Keys
       && forall i :: i in t.ids ==> (i in s.ids && t.ids[i] == s.ids[i]) || (i !in s.issued && t.ids[i] == r)
  }

  // ---------------------------------------------------------------- steps of one flight

  function DoLookUp(s: Sys, f: Fid): (t: Option<Sys>)
    requires f in s.flights
    ensures t.Some? ==> Quiet(s, t.value, f)
  {
    match s.flights[f].phase
    case ResumeArrived(id, input) =>
      Some(if Visible(s, id, s.flights[f].caller) then Move(s, f, ResumeFound(id, s.ids[id], input))
           else Refuse(s, f, SessionNotFound))
    case StatusArrived(id) =>
      Some(if Visible(s, id, s.flights[f].caller) then Move(s, f, Viewing(id, s.ids[id]))
          else Refuse(s, f, SessionNotFound))
    case Created(id) =>
      Some(if Visible(s, id, s.flights[f].caller) then Move(s, f, Viewing(id, s.ids[id])) else Refuse(s, f, Internal))
    case _ => None
  }

  function DoAcquire(s: Sys, f: Fid): (t: Option<Sys>)
    requires f in s.flights
    ensures t.Some? ==> Took(s, t.value, f)
  {
    match s.flights[f].phase
    case ResumeFound(id, ref, input) =>
      if ref !in s.heap then None
      else
        var (entry, taken) := Acquired(s.heap[ref]);
        Some(match taken
             case Ok(progress) =>
               Move(s, f, Queued(ResumeJob(id, ref, progress, input))).(heap := s.heap[ref := entry])
             case Err(e) => Refuse(s, f, AcquireFailure(e)))
    case _ => None
  }

  function DoGrant(s: Sys, f: Fid): (t: Option<Sys>)
    requires f in s.flights
    ensures t.Some? ==> Quiet(s, t.value, f)
  {
    if s.flights[f].phase.Queued? && s.free > 0 then
      Some(Move(s, f, Granted(s.flights[f].phase.job)).(free := s.free - 1))
    else None
  }

  function DoSpawn(s: Sys, f: Fid): (t: Option<Sys>)
    requires f in s.flights
    ensures t.Some? ==> Quiet(s, t.value, f)
  {
    if s.flights[f].phase.Granted? then Some(Move(s, f, Running(s.flights[f].phase.job, None))) else None
  }

  /** The task starts: a mismatched resume or a program that does not compile returns at once. */
  function DoBegin(vm: Vm, s: Sys, f: Fid, ref: Ref, created: nat): (t: Option<Sys>)
    requires f in s.flights
    ensures t.Some? ==> Drove(s, t.value, f)
  {
    match s.flights[f].phase
    case Running(ResumeJob(id, r, progress, input), None) =>
      if r !in s.trackers then None
      else
        (match CheckResume(progress, input)
         case Some(error) => Some(Deliver(s, f, DidNotMatch(id, r, progress, error)))
         case None =>
           Some(Record(Move(s, f, Running(s.flights[f].phase.job, Some(Begun(r, s.now)))), r, [BeginSegment(s.now)])))
    case Running(StartJob(_, limits, source), None) =>
      if vm.compile(source).Err? then Some(Deliver(s, f, DidNotCompile(vm.compile(source).error)))
      else if ref in s.trackers || created > s.now then None
      else
        Some(Move(s, f, Running(s.flights[f].phase.job, Some(Begun(ref, s.now))))
             .(trackers := s.trackers[ref := Tracked(limits, created, [BeginSegment(s.now)])]))
    case Running(OtherJob, None) => Some(Deliver(s, f, DidOther))
    case _ => None
  }

  /** The task's work ends: the slice's hooks have run, the segment is closed and the step is read off. */
  ghost function DoFinish(vm: Vm, s: Sys, f: Fid, env: nat, clocks: Clocks): (t: Option<Sys>)
    requires Settles(vm) && f in s.flights
    ensures t.Some? ==> Drove(s, t.value, f)
  {
    match s.flights[f].phase
    case Running(job, Some(Begun(ref, at))) =>
      if ref !in s.trackers || !ClocksRun(clocks, at, s.now) then None
      else if job.ResumeJob? && !Matches(job.progress, job.input) then None
      else if job.StartJob? && vm.compile(job.source).Err? then None
      else if job.OtherJob? then None
      else
        var first :=
          if job.ResumeJob? then ApplyResume(vm, job.progress, job.input, env)
          else vm.start(vm.compile(job.source).value, env);
        var settled := Settled(vm, first, env);
        if !HooksRun(settled.hooks, at, clocks.end) then None
        else
          var u := Record(s, ref, settled.hooks + [EndSegment(clocks.end, clocks.restart)]);
          var step := FinishStep(settled, CountersOf(u.trackers[ref]), clocks.stats);
          Some(Deliver(u, f,
            match job
            case ResumeJob(id, r, _, input) => DidStep(id, r, step, Reply(input, env, clocks))
            case StartJob(ttl, limits, source) =>
              DidStart(ttl, ref, step,
                       Origin(vm.compile(source).value, limits, s.trackers[ref].created, env, clocks))
            case OtherJob => DidOther))
    case _ => None
  }

  /** The task panics part of the way through: no step, and an open segment stays open. */
  function DoPanic(s: Sys, f: Fid, hooks: seq<Event>): (t: Option<Sys>)
    requires f in s.flights
    ensures t.Some? ==> Drove(s, t.value, f)
  {
    match s.flights[f].phase
    case Running(_, None) => Some(Deliver(s, f, DidPanic))
    case Running(_, Some(Begun(ref, at))) =>
      if ref in s.trackers && HooksRun(hooks, at, s.now) then Some(Deliver(Record(s, ref, hooks), f, DidPanic))
          else None
    case _ => None
  }

  /** The request times out at one of its await points; a running task is left to itself. */
  function DoCancel(s: Sys, f: Fid): (t: Option<Sys>)
    requires f in s.flights
    ensures t.Some? ==> Quiet(s, t.value, f)
  {
    if !s.flights[f].attached then None
    else
      match s.flights[f].phase
      case Queued(_) => Some(Move(s, f, Gone))
      case Granted(_) => Some(Move(s, f, Gone).(free := s.free + 1))
      case Running(_, _) => Some(s.(flights := s.flights[f := s.flights[f].(attached := false)]))
      case Returned(_) => Some(Move(s, f, Gone))
      case _ => None
  }

  /** The handler takes its task's result and does what comes next under the entry's lock, or the capacity check. */
  function DoCollect(cfg: Settings, s: Sys, f: Fid): (t: Option<Sys>)
    requires f in s.flights
    ensures t.Some? ==> Collected(s, t.value, f)
  {
    match s.flights[f].phase
    case Returned(DidStep(id, ref, step, _)) =>
      if ref !in s.heap then None
      else Some(Move(s, f, Viewing(id, ref)).(heap := s.heap[ref := Stored(s.heap[ref], step, s.now)]))
    case Returned(DidNotMatch(_, ref, progress, error)) =>
      if ref !in s.heap then None
      else Some(Refuse(s, f, BadRequest(WrongAnswer(error))).(heap := s.heap[ref := Restored(s.heap[ref], progress)]))
    case Returned(DidStart(ttl, ref, step, origin)) =>
      Some(if |s.ids| >= cfg.maxSessions then Refuse(s, f, Unavailable(cfg.maxSessions))
           else Move(s, f, Admitted(ttl, ref, step, origin, s.now)))
    case Returned(DidNotCompile(exception)) => Some(Move(s, f, Responded(CompileError(exception))))
    case Returned(DidOther) => Some(Move(s, f, Responded(OtherDone)))
    case Returned(DidPanic) => Some(Refuse(s, f, Internal))
    case _ => None
  }

  function DoInsert(s: Sys, f: Fid, id: Id, builtAt: nat): (t: Option<Sys>)
    requires f in s.flights
    ensures t.Some? ==> Inserted(s, t.value, f)
    ensures t.Some? ==> forall i :: i in t.value.ids && i !in s.ids ==> i == id
  {
    match s.flights[f].phase
    case Admitted(ttl, ref, step, _, since) =>
      if id in s.issued || !(since <= builtAt <= s.now) then None
      else
        Some(Move(s, f, Created(id))
             .(heap := s.heap[ref := NewEntry(s.flights[f].caller, ttl, builtAt, step)],
               ids := s.ids[id := ref],
               issued := s.issued + {id}))
    case _ => None
  }

  function DoView(s: Sys, f: Fid): (t: Option<Sys>)
    requires f in s.flights
    ensures t.Some? ==> Quiet(s, t.value, f)
  {
    match s.flights[f].phase
    case Viewing(id, ref) =>
      if ref !in s.heap then None
      else
        Some(match Render(id, s.heap[ref], s.now)
             case Ok(view) => Move(s, f, Responded(Shown(view)))
             case Err(e) => Refuse(s, f, e))
    case _ => None
  }

  function DoCheckOwner(s: Sys, f: Fid): (t: Option<Sys>)
    requires f in s.flights
    ensures t.Some? ==> Quiet(s, t.value, f)
  {
    match s.flights[f].phase
    case DeleteArrived(id) =>
      Some(if Visible(s, id, s.flights[f].caller) then Move(s, f, DeleteOwned(id)) else Refuse(s, f, SessionNotFound))
    case _ => None
  }

  function DoRemoveId(s: Sys, f: Fid): (t: Option<Sys>)
    requires f in s.flights
    ensures t.Some? ==> Quiet(s, t.value, f)
  {
    match s.flights[f].phase
    case DeleteOwned(id) =>
      Some(if id in s.ids then Move(s, f, Responded(Deleted)).(ids := s.ids - {id}) else Refuse(s, f, SessionNotFound))
    case _ => None
  }

  // ---------------------------------------------------------------- steps of the reaper

  predicate ExpiredId(s: Sys, id: Id, at: nat) {
    id in s.ids && s.ids[id] in s.heap && Expired(s.heap[s.ids[id]], at)
  }

  function DoReap(s: Sys, a: Action): (t: Option<Sys>)
    ensures t.Some? ==> t.value == s.(ids := t.value.ids, reaper := t.value.reaper)
    ensures t.Some? ==> forall id :: id in t.value.ids ==> id in s.ids && t.value.ids[id] == s.ids[id]
  {
    match (a, s.reaper)
    case (ReapStart, Resting) => Some(s.(reaper := Scanning(s.now, s.ids.Keys, {}, {})))
    case (ReapVisit(id), Scanning(at, due, seen, expired)) =>
      if id !in s.ids || id in seen then None
      else Some(s.(reaper := Scanning(at, due, seen + {id}, if ExpiredId(s, id, at) then expired + {id} else expired)))
    case (ReapSeal, Scanning(at, due, seen, expired)) =>
      if due * s.ids.Keys <= seen then Some(s.(reaper := Removing(at, expired))) else None
    case (ReapRemove(id), Removing(at, expired)) =>
      if id !in expired then None
      else Some(s.(ids := s.ids - {id}, reaper := Removing(at, expired - {id})))
    case (ReapEnd, Removing(_, expired)) => if expired == {} then Some(s.(reaper := Resting)) else None
    case (Sweep, Resting) => Some(s.(ids := map id | id in s.ids && !ExpiredId(s, id, s.now) :: s.ids[id]))
    case (_, _) => None
  }

  // ---------------------------------------------------------------- runs

  predicate IsReap(a: Action) {
    a.ReapStart? || a.ReapVisit? || a.ReapSeal? || a.ReapRemove? || a.ReapEnd? || a.Sweep?
  }

  predicate OfFlight(a: Action) {
    !a.Tick? && !IsReap(a)
  }

  /** The state after one action, or `None` when the action cannot happen. */
  ghost function Next(vm: Vm, cfg: Settings, s: Sys, a: Action): Option<Sys>
    requires Settles(vm)
  {
    if a.Tick? then (if a.now > s.now then Some(s.(now := a.now)) else None)
    else if !OfFlight(a) then DoReap(s, a)
    else if a.Arrive? then
      if a.f in s.flights || !IsArrival(a.request) then None
      else Some(s.(flights := s.flights[a.f := Flight(true, a.caller, a.request)]))
    else if a.f !in s.flights then None
    else
      match a
      case LookUp(f) => DoLookUp(s, f)
      case Acquire(f) => DoAcquire(s, f)
      case Grant(f) => DoGrant(s, f)
      case Spawn(f) => DoSpawn(s, f)
      case Begin(f, ref, created) => DoBegin(vm, s, f, ref, created)
      case Finish(f, env, clocks) => DoFinish(vm, s, f, env, clocks)
      case Panic(f, hooks) => DoPanic(s, f, hooks)
      case Cancel(f) => DoCancel(s, f)
      case Collect(f) => DoCollect(cfg, s, f)
      case Insert(f, id, builtAt) => DoInsert(s, f, id, builtAt)
      case View(f) => DoView(s, f)
      case CheckOwner(f) => DoCheckOwner(s, f)
      case RemoveId(f) => DoRemoveId(s, f)
  }

  /** What kind of step each action is. */
  ghost predicate StepShape(s: Sys, a: Action, t: Sys) {
    if a.Tick? then a.now > s.now && t == s.(now := a.now)
    else if !OfFlight(a) then
      && t == s.(ids := t.ids, reaper := t.reaper)
      && forall id :: id in t.ids ==> id in s.ids && t.ids[id] == s.ids[id]
    else if a.Arrive? then
      a.f !in s.flights && IsArrival(a.request)
          && t == s.(flights := s.flights[a.f := Flight(true, a.caller, a.request)])
    else
      && a.f in s.flights
      && if a.Acquire? then Took(s, t, a.f)
         else if a.Collect? then Collected(s, t, a.f)
         else if a.Insert? then Inserted(s, t, a.f) && forall i :: i in t.ids && i !in s.ids ==> i == a.id
         else if a.Begin? || a.Finish? || a.Panic? then Drove(s, t, a.f)
         else Quiet(s, t, a.f)
  }

  lemma StepsAreShaped(vm: Vm, cfg: Settings, s: Sys, a: Action)
    requires Settles(vm) && Next(vm, cfg, s, a).Some?
    ensures StepShape(s, a, Next(vm, cfg, s, a).value)
  {
    hide Settles, Quiet, Drove, Took, Collected, Inserted,
         DoLookUp, DoAcquire, DoGrant, DoSpawn, DoBegin, DoFinish, DoPanic, DoCancel, DoCollect, DoInsert,
         DoView, DoCheckOwner, DoRemoveId, DoReap;
  }

  /** An action of a request that is there is its own step function. */
  lemma FlightSteps(vm: Vm, cfg: Settings, s: Sys, a: Action)
    requires Settles(vm) && OfFlight(a) && a.f in s.flights
    ensures a.LookUp? ==> Next(vm, cfg, s, a) == DoLookUp(s, a.f)
    ensures a.Acquire? ==> Next(vm, cfg, s, a) == DoAcquire(s, a.f)
    ensures a.Grant? ==> Next(vm, cfg, s, a) == DoGrant(s, a.f)
    ensures a.Spawn? ==> Next(vm, cfg, s, a) == DoSpawn(s, a.f)
    ensures a.Begin? ==> Next(vm, cfg, s, a) == DoBegin(vm, s, a.f, a.ref, a.created)
    ensures a.Finish? ==> Next(vm, cfg, s, a) == DoFinish(vm, s, a.f, a.env, a.clocks)
    ensures a.Panic? ==> Next(vm, cfg, s, a) == DoPanic(s, a.f, a.hooks)
    ensures a.Cancel? ==> Next(vm, cfg, s, a) == DoCancel(s, a.f)
    ensures a.Collect? ==> Next(vm, cfg, s, a) == DoCollect(cfg, s, a.f)
    ensures a.Insert? ==> Next(vm, cfg, s, a) == DoInsert(s, a.f, a.id, a.builtAt)
    ensures a.View? ==> Next(vm, cfg, s, a) == DoView(s, a.f)
    ensures a.CheckOwner? ==> Next(vm, cfg, s, a) == DoCheckOwner(s, a.f)
    ensures a.RemoveId? ==> Next(vm, cfg, s, a) == DoRemoveId(s, a.f)
    ensures a.Arrive? ==> Next(vm, cfg, s, a) == None
  {
    hide Settles, DoLookUp, DoAcquire, DoGrant, DoSpawn, DoBegin, DoFinish, DoPanic, DoCancel, DoCollect, DoInsert,
         DoView, DoCheckOwner, DoRemoveId, DoReap;
  }

  /** The state after a sequence of actions, or `None` when one of them cannot happen. */
  ghost function Run(vm: Vm, cfg: Settings, s: Sys, actions: seq<Action>): Option<Sys>
    requires Settles(vm)
  {
    if actions == [] then Some(s)
    else
      match Run(vm, cfg, s, actions[..|actions| - 1])
      case None => None
      case Some(t) => Next(vm, cfg, t, actions[|actions| - 1])
  }

  lemma EmptyRun(vm: Vm, cfg: Settings, s: Sys)
    requires Settles(vm)
    ensures Run(vm, cfg, s, []) == Some(s)
  {
    hide Next;
  }

  lemma {:induction false} RunSplits(vm: Vm, cfg: Settings, s: Sys, a: seq<Action>, b: seq<Action>)
    requires Settles(vm) && Run(vm, cfg, s, a).Some?
    ensures Run(vm, cfg, s, a + b) == Run(vm, cfg, Run(vm, cfg, s, a).value, b)
    decreases |b|
  {
    hide Next, Settles;
    if b == [] {
      assert a + b == a;
    } else {
      RunSplits(vm, cfg, s, a, b[..|b| - 1]);
      assert (a + b)[..|a + b| - 1] == a + b[..|b| - 1];
    }
  }

  lemma RunOne(vm: Vm, cfg: Settings, s: Sys, actions: seq<Action>, a: Action)
    requires Settles(vm) && Run(vm, cfg, s, actions).Some?
    ensures Run(vm, cfg, s, actions + [a]) == Next(vm, cfg, Run(vm, cfg, s, actions).value, a)
  {
    hide Next, Settles;
    assert (actions + [a])[..|actions|] == actions;
  }

  lemma ReapSteps(vm: Vm, cfg: Settings, s: Sys, a: Action)
    requires Settles(vm)
    requires IsReap(a)
    ensures Next(vm, cfg, s, a) == DoReap(s, a)
  {
    hide DoReap, Settles;
  }

  /** Every prefix of a run is a run, and each action leads from one prefix to the next. */
  lemma {:induction false} PrefixRuns(vm: Vm, cfg: Settings, s: Sys, actions: seq<Action>, i: nat)
    requires Settles(vm) && Run(vm, cfg, s, actions).Some? && i <= |actions|
    ensures Run(vm, cfg, s, actions[..i]).Some?
    ensures i < |actions| ==>
              && Run(vm, cfg, s, actions[..i + 1]).Some?
              && Run(vm, cfg, s, actions[..i + 1]) == Next(vm, cfg, Run(vm, cfg, s, actions[..i]).value, actions[i])
    decreases |actions|
  {
    hide Next, Settles;
    var n := |actions|;
    if i == n {
      assert actions[..i] == actions;
    } else if i == n - 1 {
      assert actions[..i + 1] == actions;
    } else {
      PrefixRuns(vm, cfg, s, actions[..n - 1], i);
      assert actions[..n - 1][..i] == actions[..i] && actions[..n - 1][..i + 1] == actions[..i + 1];
    }
  }

  /** The state before action `i` of a run. */
  ghost function Before(vm: Vm, cfg: Settings, s: Sys, actions: seq<Action>, i: nat): (t: Sys)
    requires Settles(vm) && Run(vm, cfg, s, actions).Some? && i <= |actions|
    ensures Run(vm, cfg, s, actions[..i]) == Some(t)
  {
    PrefixRuns(vm, cfg, s, actions, i);
    Run(vm, cfg, s, actions[..i]).value
  }

  ghost predicate Reachable(vm: Vm, cfg: Settings, s: Sys)
    requires Settles(vm)
  {
    exists actions :: Run(vm, cfg, Init(cfg), actions) == Some(s)
  }
}
