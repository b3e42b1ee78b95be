/**
 The protocol refines an atomic session machine, in which opening a session and answering it
 are single indivisible steps. A creation happens at its insertion and an answer where its step
 is stored; every other action of every flight, the reaper and the clock is a stutter.
 */
module Refinement {
  import opened Wrappers
  import opened Tracker
  import opened TrackerTheorems
  import opened Engine
  import opened EngineTheorems
  import opened Session
  import opened Api
  import opened Protocol
  import opened ProtocolInvariant
  import opened ProtocolTheorems

  // ---------------------------------------------------------------- the atomic machine

  /** Every session ever opened, each as its latest step and its tracker. */
  type Sessions = map<Ref, Engine.Session>

  datatype Occurrence =
    | Opened(ref: Ref, origin: Origin)
    | Answered(ref: Ref, reply: Reply)

  /** Only a new session can be opened, and only a paused one answered, with an answer of the right shape. */
  ghost function Occurs(vm: Vm, all: Sessions, o: Occurrence): Option<Sessions>
    requires Settles(vm)
  {
    match o
    case Opened(r, origin) => if r in all then None else Some(all[r := StartSlice(vm, origin)])
    case Answered(r, reply) =>
      if r in all && Takes(all[r], reply.input) then Some(all[r := ResumeSlice(vm, all[r], reply)]) else None
  }

  ghost function OccurAll(vm: Vm, all: Sessions, trace: seq<Occurrence>): Option<Sessions>
    requires Settles(vm)
  {
    if trace == [] then Some(all)
    else
      match OccurAll(vm, all, trace[..|trace| - 1])
      case None => None
      case Some(before) => Occurs(vm, before, trace[|trace| - 1])
  }

  /** What a protocol step amounts to on the atomic machine: something, or nothing. */
  function Shows(s: Sys, a: Action): Option<Occurrence> {
    if a.Insert? && a.f in s.flights && s.flights[a.f].phase.Admitted? then
      Some(Opened(s.flights[a.f].phase.ref, s.flights[a.f].phase.origin))
    else if a.Collect? && a.f in s.flights && s.flights[a.f].phase.Returned?
        && s.flights[a.f].phase.result.DidStep? then
      Some(Answered(s.flights[a.f].phase.result.ref, s.flights[a.f].phase.result.reply))
    else None
  }

  ghost function Trace(vm: Vm, cfg: Settings, s: Sys, actions: seq<Action>): seq<Occurrence>
    requires Settles(vm) && Run(vm, cfg, s, actions).Some?
  {
    if actions == [] then []
    else
      var earlier := actions[..|actions| - 1];
      var shown := Shows(Run(vm, cfg, s, earlier).value, actions[|actions| - 1]);
      Trace(vm, cfg, s, earlier) + (if shown.Some? then [shown.value] else [])
  }

  // ---------------------------------------------------------------- the simulation relation

  predicate PausedAt(session: Engine.Session, progress: Progress) {
    session.step.StepPaused? && session.step.progress == progress
  }

  /** The tracker is as the session left it. */
  predicate AtRest(s: Sys, all: Sessions, r: Ref) {
    r in all && r in s.trackers && s.trackers[r] == all[r].tracker
  }

  /** An entry shows its session's latest step; its progress, when in, is that step's, with the tracker at rest. */
  predicate EntryFollows(s: Sys, all: Sessions, r: Ref)
    requires r in s.heap
  {
    var e := s.heap[r];
    && r in all
    && e.snapshot == SnapshotOf(all[r].step)
    && (e.terminal <==> !all[r].step.StepPaused?)
    && (e.progress.Some? ==> PausedAt(all[r], e.progress.value))
    && (e.progress.Some? || e.terminal ==> AtRest(s, all, r))
  }

  /** What a flight holds is where its session stands, or one slice further. */
  ghost predicate FlightFollows(vm: Vm, s: Sys, all: Sessions, phase: Phase)
    requires Settles(vm)
  {
    match phase
    case Queued(ResumeJob(_, r, p, _)) => AtRest(s, all, r) && PausedAt(all[r], p)
    case Granted(ResumeJob(_, r, p, _)) => AtRest(s, all, r) && PausedAt(all[r], p)
    case Running(ResumeJob(_, r, p, _), None) => AtRest(s, all, r) && PausedAt(all[r], p)
    case Running(ResumeJob(_, r, p, _), Some(b)) =>
      && r in all && PausedAt(all[r], p) && r in s.trackers
      && s.trackers[r] == all[r].tracker.(events := all[r].tracker.events + [BeginSegment(b.at)])
    case Running(StartJob(_, limits, _), Some(b)) =>
      b.ref in s.trackers && s.trackers[b.ref] == Tracked(limits, s.trackers[b.ref].created, [BeginSegment(b.at)])
    case Returned(DidNotMatch(_, r, p, _)) => AtRest(s, all, r) && PausedAt(all[r], p)
    case Returned(DidStep(_, r, step, reply)) =>
      && r in all && r in s.trackers && Takes(all[r], reply.input)
      && Session(step, s.trackers[r]) == ResumeSlice(vm, all[r], reply)
    case Returned(DidStart(_, r, step, origin)) => Started(vm, s, r, step, origin)
    case Admitted(_, r, step, origin, _) => Started(vm, s, r, step, origin)
    case _ => true
  }

  ghost predicate Started(vm: Vm, s: Sys, r: Ref, step: SessionStep, origin: Origin)
    requires Settles(vm)
  {
    r in s.trackers && Session(step, s.trackers[r]) == StartSlice(vm, origin)
  }

  ghost predicate Follows(vm: Vm, s: Sys, all: Sessions)
    requires Settles(vm)
  {
    && all.Keys == s.heap.Keys
    && (forall r :: r in s.heap ==> EntryFollows(s, all, r))
    && (forall f :: f in s.flights ==> FlightFollows(vm, s, all, s.flights[f].phase))
  }

  // ---------------------------------------------------------------- one flight's own step

  /** The atomic machine after the step. */
  ghost function Moved(vm: Vm, all: Sessions, shown: Option<Occurrence>): Option<Sessions>
    requires Settles(vm)
  {
    if shown.None? then Some(all) else Occurs(vm, all, shown.value)
  }

  ghost predicate OwnFlightFollows(vm: Vm, t: Sys, all: Sessions, f: Fid)
    requires Settles(vm)
  {
    f in t.flights && FlightFollows(vm, t, all, t.flights[f].phase)
  }

  lemma BeginFollows(vm: Vm, s: Sys, all: Sessions, f: Fid, ref: Ref, created: nat)
    requires Settles(vm) && f in s.flights && DoBegin(vm, s, f, ref, created).Some?
    requires FlightFollows(vm, s, all, s.flights[f].phase)
    ensures OwnFlightFollows(vm, DoBegin(vm, s, f, ref, created).value, all, f)
  {
    hide Settles, ResumeSlice, StartSlice, Matches, Takes, Started;
    if s.flights[f].phase.job.ResumeJob? {
      hide PausedAt;
    } else {
      hide AtRest, PausedAt;
    }
  }

  lemma FinishedResumeFollows(vm: Vm, s: Sys, all: Sessions, f: Fid, env: nat, clocks: Clocks)
    requires Settles(vm) && f in s.flights && DoFinish(vm, s, f, env, clocks).Some?
    requires s.flights[f].phase.job.ResumeJob? && s.flights[f].phase.begun.value.ref == s.flights[f].phase.job.ref
    requires FlightFollows(vm, s, all, s.flights[f].phase)
    ensures OwnFlightFollows(vm, DoFinish(vm, s, f, env, clocks).value, all, f)
  {
    hide Settles, Settled, FinishStep, ApplyResume, HooksRun, CountersOf, Matches;
    var (job, b) := (s.flights[f].phase.job, s.flights[f].phase.begun.value);
    var before := all[job.ref].tracker;
    var first := ApplyResume(vm, job.progress, job.input, env);
    var hooks := Settled(vm, first, env).hooks;
    var end := [EndSegment(clocks.end, clocks.restart)];
    assert before.events + [BeginSegment(b.at)] + (hooks + end) == before.events + ([BeginSegment(b.at)] + hooks + end);
    var t := DoFinish(vm, s, f, env, clocks).value;
    var after := RunSlice(vm, first, before, env, clocks);
    assert t.trackers[job.ref] == after.tracker;
    hide SliceEvents;
  }

  lemma FinishedStartFollows(vm: Vm, s: Sys, all: Sessions, f: Fid, env: nat, clocks: Clocks)
    requires Settles(vm) && f in s.flights && DoFinish(vm, s, f, env, clocks).Some?
    requires s.flights[f].phase.job.StartJob?
    requires FlightFollows(vm, s, all, s.flights[f].phase)
    ensures OwnFlightFollows(vm, DoFinish(vm, s, f, env, clocks).value, all, f)
  {
    hide Settles, Settled, FinishStep, HooksRun, CountersOf;
    var (job, b) := (s.flights[f].phase.job, s.flights[f].phase.begun.value);
    var first := vm.start(vm.compile(job.source).value, env);
    var hooks := Settled(vm, first, env).hooks;
    var end := [EndSegment(clocks.end, clocks.restart)];
    assert [BeginSegment(b.at)] + (hooks + end) == [] + ([BeginSegment(b.at)] + hooks + end);
    var t := DoFinish(vm, s, f, env, clocks).value;
    var after := RunSlice(vm, first, Tracked(job.limits, s.trackers[b.ref].created, []), env, clocks);
    assert t.trackers[b.ref] == after.tracker;
    hide SliceEvents;
  }

  lemma FinishFollows(vm: Vm, s: Sys, all: Sessions, f: Fid, env: nat, clocks: Clocks)
    requires Settles(vm) && f in s.flights && DoFinish(vm, s, f, env, clocks).Some?
    requires FlightFollows(vm, s, all, s.flights[f].phase) && FlightOk(vm, s, s.flights[f])
    ensures OwnFlightFollows(vm, DoFinish(vm, s, f, env, clocks).value, all, f)
  {
    assert BegunOk(vm, s, s.flights[f].phase.job, s.flights[f].phase.begun.value);
    assert !s.flights[f].phase.job.OtherJob?;
    hide Settles, Settled, FinishStep, HooksRun, CountersOf, FlightOk, FlightFollows;
    if s.flights[f].phase.job.ResumeJob? {
      FinishedResumeFollows(vm, s, all, f, env, clocks);
    } else {
      FinishedStartFollows(vm, s, all, f, env, clocks);
    }
  }

  lemma AcquireFollows(vm: Vm, s: Sys, all: Sessions, f: Fid)
    requires Settles(vm) && f in s.flights && DoAcquire(s, f).Some?
    requires forall r :: r in s.heap ==> EntryFollows(s, all, r)
    ensures var t := DoAcquire(s, f).value;
            && f in t.flights && FlightFollows(vm, t, all, t.flights[f].phase)
            && forall r :: r in t.heap && r in s.heap && t.heap[r] != s.heap[r] ==> EntryFollows(t, all, r)
  {
    assert EntryFollows(s, all, s.flights[f].phase.ref);
    hide Settles, ResumeSlice, StartSlice;
  }

  /** Waiting, starting, dying and being cancelled promise nothing new. */
  lemma WaitFollows(vm: Vm, s: Sys, all: Sessions, a: Action)
    requires Settles(vm) && OfFlight(a) && a.f in s.flights && FlightFollows(vm, s, all, s.flights[a.f].phase)
    ensures a.Grant? && DoGrant(s, a.f).Some? ==> OwnFlightFollows(vm, DoGrant(s, a.f).value, all, a.f)
    ensures a.Spawn? && DoSpawn(s, a.f).Some? ==> OwnFlightFollows(vm, DoSpawn(s, a.f).value, all, a.f)
    ensures a.Cancel? && DoCancel(s, a.f).Some? ==> OwnFlightFollows(vm, DoCancel(s, a.f).value, all, a.f)
    ensures a.Panic? && DoPanic(s, a.f, a.hooks).Some? ==>
            OwnFlightFollows(vm, DoPanic(s, a.f, a.hooks).value, all, a.f)
  {
    hide Settles, ResumeSlice, StartSlice, HooksRun, Started, PausedAt;
  }

  /** Requests that hold nothing promise nothing. */
  lemma ReadFollows(vm: Vm, s: Sys, all: Sessions, a: Action)
    requires Settles(vm) && OfFlight(a) && a.f in s.flights
    ensures a.LookUp? && DoLookUp(s, a.f).Some? ==> OwnFlightFollows(vm, DoLookUp(s, a.f).value, all, a.f)
    ensures a.View? && DoView(s, a.f).Some? ==> OwnFlightFollows(vm, DoView(s, a.f).value, all, a.f)
    ensures a.CheckOwner? && DoCheckOwner(s, a.f).Some? ==> OwnFlightFollows(vm, DoCheckOwner(s, a.f).value, all, a.f)
    ensures a.RemoveId? && DoRemoveId(s, a.f).Some? ==> OwnFlightFollows(vm, DoRemoveId(s, a.f).value, all, a.f)
  {
    hide Settles, ResumeSlice, StartSlice, Started, AtRest, PausedAt, Render, Visible;
  }

  lemma StoredFollows(s: Sys, all: Sessions, r: Ref, e: Entry, step: SessionStep, now: nat)
    requires r in s.heap && s.heap[r] == Stored(e, step, now)
    requires r in all && r in s.trackers && all[r] == Session(step, s.trackers[r])
    ensures EntryFollows(s, all, r)
  {
  }

  lemma NewFollows(s: Sys, all: Sessions, r: Ref, principal: string, ttl: nat, now: nat, step: SessionStep)
    requires r in s.heap && s.heap[r] == NewEntry(principal, ttl, now, step)
    requires r in all && r in s.trackers && all[r] == Session(step, s.trackers[r])
    ensures EntryFollows(s, all, r)
  {
  }

  /** The handler's write-back: storing the step is where the answer occurs. */
  lemma CollectFollows(vm: Vm, cfg: Settings, s: Sys, all: Sessions, f: Fid)
    requires Settles(vm) && f in s.flights && DoCollect(cfg, s, f).Some?
    requires FlightFollows(vm, s, all, s.flights[f].phase)
    requires forall r :: r in s.heap ==> EntryFollows(s, all, r)
    ensures var t := DoCollect(cfg, s, f).value;
            var moved := Moved(vm, all, Shows(s, Collect(f)));
            && f in t.flights && moved.Some?
            && FlightFollows(vm, t, moved.value, t.flights[f].phase)
            && (forall r :: r in all && !HeldBy(s, f, r) ==> r in moved.value && moved.value[r] == all[r])
            && (forall r :: r in t.heap && HeldBy(s, f, r) ==> EntryFollows(t, moved.value, r))
            && moved.value.Keys == all.Keys
  {
    hide Settles, ResumeSlice, StartSlice, Stored;
    var t := DoCollect(cfg, s, f).value;
    var result := s.flights[f].phase.result;
    match result
    case DidStep(id, ref, step, reply) =>
      StoredFollows(t, all[ref := Session(step, s.trackers[ref])], ref, s.heap[ref], step, s.now);
    case DidNotMatch(_, ref, _, _) => assert EntryFollows(s, all, ref);
    case _ =>
  }

  /** The insertion is where the opening occurs. */
  lemma InsertFollows(vm: Vm, s: Sys, all: Sessions, f: Fid, id: Id, builtAt: nat)
    requires Settles(vm) && f in s.flights && DoInsert(s, f, id, builtAt).Some?
    requires FlightFollows(vm, s, all, s.flights[f].phase) && s.flights[f].phase.ref !in all
    ensures var t := DoInsert(s, f, id, builtAt).value;
            var (moved, r) := (Moved(vm, all, Shows(s, Insert(f, id, builtAt))), s.flights[f].phase.ref);
            && f in t.flights && moved.Some?
            && FlightFollows(vm, t, moved.value, t.flights[f].phase)
            && moved.value == all[r := moved.value[r]]
            && r in t.heap && EntryFollows(t, moved.value, r)
  {
    hide Settles, StartSlice, NewEntry;
    var t := DoInsert(s, f, id, builtAt).value;
    var Admitted(ttl, ref, step, origin, _) := s.flights[f].phase;
    NewFollows(t, all[ref := Session(step, s.trackers[ref])], ref, s.flights[f].caller, ttl, builtAt, step);
  }

  // ---------------------------------------------------------------- one step of the whole system

  /** A flight's promise rests on nothing but the tracker and the session it holds. */
  lemma FlightStaysFollowing(vm: Vm, s: Sys, t: Sys, all: Sessions, moved: Sessions, phase: Phase)
    requires Settles(vm) && FlightFollows(vm, s, all, phase)
    requires Owns(phase).Some? ==>
               var r := Owns(phase).value;
               && (r in s.trackers ==> r in t.trackers && t.trackers[r] == s.trackers[r])
               && (r in all ==> r in moved && moved[r] == all[r])
    ensures FlightFollows(vm, t, moved, phase)
  {
    hide Settles, ResumeSlice, StartSlice;
  }

  lemma EntryStaysFollowing(s: Sys, t: Sys, all: Sessions, moved: Sessions, r: Ref)
    requires r in s.heap && r in t.heap && t.heap[r] == s.heap[r] && EntryFollows(s, all, r)
    requires r in moved && moved[r] == all[r]
    requires s.heap[r].progress.Some? || s.heap[r].terminal ==> r in t.trackers && t.trackers[r] == s.trackers[r]
    ensures EntryFollows(t, moved, r)
  {
  }

  /** What an action's own flight and entry come to. */
  ghost predicate OwnPartFollows(vm: Vm, s: Sys, all: Sessions, a: Action, t: Sys, moved: Sessions)
    requires Settles(vm)
  {
    && (OfFlight(a) ==> a.f in t.flights && FlightFollows(vm, t, moved, t.flights[a.f].phase))
    && (forall r :: r in all && !(OfFlight(a) && a.f in s.flights && Owns(s.flights[a.f].phase) == Some(r)) ==>
          r in moved && moved[r] == all[r])
    && (forall r :: r in all && !Writes(s, a, r) ==> r in moved && moved[r] == all[r])
    && (forall r :: r in t.heap && (r in s.heap ==> Writes(s, a, r)) ==> EntryFollows(t, moved, r))
    && all.Keys <= moved.Keys && moved.Keys == t.heap.Keys
  }

  lemma AcquirePart(vm: Vm, s: Sys, all: Sessions, a: Action)
    requires Settles(vm) && a.Acquire? && a.f in s.flights && DoAcquire(s, a.f).Some? && Follows(vm, s, all)
    ensures OwnPartFollows(vm, s, all, a, DoAcquire(s, a.f).value, all)
  {
    hide Settles, FlightFollows, EntryFollows, DoAcquire;
    AcquireFollows(vm, s, all, a.f);
  }

  lemma CollectPart(vm: Vm, cfg: Settings, s: Sys, all: Sessions, a: Action)
    requires Settles(vm) && a.Collect? && a.f in s.flights && DoCollect(cfg, s, a.f).Some? && Follows(vm, s, all)
    requires FlightOk(vm, s, s.flights[a.f])
    ensures Moved(vm, all, Shows(s, a)).Some?
    ensures OwnPartFollows(vm, s, all, a, DoCollect(cfg, s, a.f).value, Moved(vm, all, Shows(s, a)).value)
  {
    hide Settles, FlightFollows, EntryFollows, DoCollect, Moved, Shows;
    CollectFollows(vm, cfg, s, all, a.f);
  }

  lemma InsertPart(vm: Vm, s: Sys, all: Sessions, a: Action)
    requires Settles(vm) && a.Insert? && a.f in s.flights && DoInsert(s, a.f, a.id, a.builtAt).Some?
             && Follows(vm, s, all)
    requires FlightOk(vm, s, s.flights[a.f])
    ensures Moved(vm, all, Shows(s, a)).Some?
    ensures OwnPartFollows(vm, s, all, a, DoInsert(s, a.f, a.id, a.builtAt).value, Moved(vm, all, Shows(s, a)).value)
  {
    hide Settles, FlightFollows, EntryFollows, DoInsert, Moved, Shows;
    InsertFollows(vm, s, all, a.f, a.id, a.builtAt);
  }

  lemma IsArrivalOrThere(s: Sys, a: Action, t: Sys)
    requires StepShape(s, a, t) && OfFlight(a)
    ensures if a.Arrive? then IsArrival(a.request) && a.f in t.flights && t.flights[a.f].phase == a.request
            else a.f in s.flights
  {
    hide Quiet, Drove, Took, Collected, Inserted, IsArrival;
  }

  lemma ArrivalFollows(vm: Vm, s: Sys, all: Sessions, request: Phase)
    requires Settles(vm) && IsArrival(request)
    ensures FlightFollows(vm, s, all, request)
  {
  }

  lemma OtherFlightPart(vm: Vm, cfg: Settings, s: Sys, all: Sessions, a: Action)
    requires Settles(vm) && Inv(vm, cfg, s) && Next(vm, cfg, s, a).Some? && Follows(vm, s, all)
    requires OfFlight(a) && a.f in s.flights && !a.Acquire? && !a.Collect? && !a.Insert?
    ensures OwnFlightFollows(vm, Next(vm, cfg, s, a).value, all, a.f)
  {
    assert FlightFollows(vm, s, all, s.flights[a.f].phase);
    hide Next, Inv, Settles, Follows, FlightFollows, OwnFlightFollows;
    FlightSteps(vm, cfg, s, a);
    if a.Begin? {
      BeginFollows(vm, s, all, a.f, a.ref, a.created);
    } else if a.Finish? {
      InvKnowsFlight(vm, cfg, s, a.f);
      FinishFollows(vm, s, all, a.f, a.env, a.clocks);
    } else if a.Grant? || a.Spawn? || a.Cancel? || a.Panic? {
      WaitFollows(vm, s, all, a);
    } else {
      ReadFollows(vm, s, all, a);
    }
  }

  lemma StillPart(vm: Vm, s: Sys, all: Sessions, a: Action, t: Sys)
    requires Settles(vm) && Follows(vm, s, all) && t.heap == s.heap
    requires !a.Acquire? && !a.Collect? && !a.Insert?
    requires OfFlight(a) ==> OwnFlightFollows(vm, t, all, a.f)
    ensures OwnPartFollows(vm, s, all, a, t, all)
  {
    hide Settles, FlightFollows, EntryFollows, Owns;
  }

  /** Every other action leaves entries and sessions alone. */
  lemma OtherPart(vm: Vm, cfg: Settings, s: Sys, all: Sessions, a: Action)
    requires Settles(vm) && Inv(vm, cfg, s) && Next(vm, cfg, s, a).Some? && Follows(vm, s, all)
    requires !a.Acquire? && !a.Collect? && !a.Insert?
    ensures OwnPartFollows(vm, s, all, a, Next(vm, cfg, s, a).value, all)
  {
    hide Next, Inv, Settles, Follows, FlightFollows, StepShape, OwnPartFollows;
    var t := Next(vm, cfg, s, a).value;
    StepsAreShaped(vm, cfg, s, a);
    LeavesHeap(s, a, t);
    if OfFlight(a) {
      IsArrivalOrThere(s, a, t);
      if a.Arrive? {
        ArrivalFollows(vm, t, all, a.request);
      } else {
        OtherFlightPart(vm, cfg, s, all, a);
      }
    }
    StillPart(vm, s, all, a, t);
  }

  lemma OwnPart(vm: Vm, cfg: Settings, s: Sys, all: Sessions, a: Action)
    requires Settles(vm) && Inv(vm, cfg, s) && Next(vm, cfg, s, a).Some? && Follows(vm, s, all)
    ensures Moved(vm, all, Shows(s, a)).Some?
    ensures OwnPartFollows(vm, s, all, a, Next(vm, cfg, s, a).value, Moved(vm, all, Shows(s, a)).value)
  {
    hide Next, Inv, Settles, Follows, FlightOk, OwnPartFollows, DoAcquire, DoCollect, DoInsert, Quiet, Drove;
    StepsAreShaped(vm, cfg, s, a);
    if a.Acquire? || a.Collect? || a.Insert? {
      FlightSteps(vm, cfg, s, a);
      InvKnowsFlight(vm, cfg, s, a.f);
      if a.Acquire? {
        AcquirePart(vm, s, all, a);
      } else if a.Collect? {
        CollectPart(vm, cfg, s, all, a);
      } else {
        InsertPart(vm, s, all, a);
      }
    } else {
      OtherPart(vm, cfg, s, all, a);
    }
  }

  lemma OwnedIsTracked(vm: Vm, cfg: Settings, s: Sys, g: Fid)
    requires Inv(vm, cfg, s) && g in s.flights
    ensures Owns(s.flights[g].phase).Some? ==> Owns(s.flights[g].phase).value in s.trackers
  {
    hide Exclusive, HeapOk, IdsOk, PermitsOk;
    assert FlightOk(vm, s, s.flights[g]);
    hide Owns, HoldsTaken, CursorOf, BegunOk;
  }

  lemma OtherFlightFollows(vm: Vm, cfg: Settings, s: Sys, all: Sessions, a: Action, t: Sys, moved: Sessions, g: Fid)
    requires Settles(vm) && Inv(vm, cfg, s) && g in s.flights && !ActsOn(a, g)
    requires FlightFollows(vm, s, all, s.flights[g].phase)
    requires OwnPartFollows(vm, s, all, a, t, moved) && TrackersFramed(s, a, t)
    ensures FlightFollows(vm, t, moved, s.flights[g].phase)
  {
    hide Inv, FlightFollows, EntryFollows, Owns, Writes, Settles;
    var phase := s.flights[g].phase;
    OwnedIsTracked(vm, cfg, s, g);
    if Owns(phase).Some? && OfFlight(a) && a.f in s.flights {
      OwnersAreApart(vm, cfg, s, a.f, g, Owns(phase).value);
    }
    FlightStaysFollowing(vm, s, t, all, moved, phase);
  }

  lemma DrivenIsOut(vm: Vm, s: Sys, flight: Flight, r: Ref)
    requires FlightOk(vm, s, flight) && Owns(flight.phase) == Some(r) && r in s.heap
    ensures s.heap[r].progress.None? && !s.heap[r].terminal
  {
    hide BegunOk, CursorOf, ResultOk, JobOk;
  }

  lemma OtherEntryFollows(vm: Vm, cfg: Settings, s: Sys, all: Sessions, a: Action, t: Sys, moved: Sessions, r: Ref)
    requires Settles(vm) && Inv(vm, cfg, s) && r in s.heap && r in t.heap && !Writes(s, a, r)
    requires EntryFollows(s, all, r)
    requires OwnPartFollows(vm, s, all, a, t, moved) && TrackersFramed(s, a, t) && HeapFramed(s, a, t)
    ensures EntryFollows(t, moved, r)
  {
    assert r in all;
    hide Inv, EntryFollows, FlightFollows, Writes, CursorOf;
    InvKnowsRef(vm, cfg, s, r);
    if Drives(s, a, r) {
      InvKnowsFlight(vm, cfg, s, a.f);
      DrivenIsOut(vm, s, s.flights[a.f], r);
    }
    hide FlightOk, Drives;
    EntryStaysFollowing(s, t, all, moved, r);
  }

  /** Every step of the protocol is a step of the atomic machine or a stutter. */
  lemma StepRefines(vm: Vm, cfg: Settings, s: Sys, all: Sessions, a: Action)
    requires Settles(vm) && Inv(vm, cfg, s) && Next(vm, cfg, s, a).Some? && Follows(vm, s, all)
    ensures Moved(vm, all, Shows(s, a)).Some?
    ensures Follows(vm, Next(vm, cfg, s, a).value, Moved(vm, all, Shows(s, a)).value)
  {
    hide Next, Inv, Settles, FlightFollows, EntryFollows, Shows, Moved, Writes, TrackersFramed, HeapFramed;
    OwnPart(vm, cfg, s, all, a);
    FlightsAreFramed(vm, cfg, s, a);
    HeapIsFramed(vm, cfg, s, a);
    TrackersAreFramed(vm, cfg, s, a);
    var (t, moved) := (Next(vm, cfg, s, a).value, Moved(vm, all, Shows(s, a)).value);
    forall f | f in t.flights ensures FlightFollows(vm, t, moved, t.flights[f].phase) {
      if !ActsOn(a, f) {
        OtherFlightFollows(vm, cfg, s, all, a, t, moved, f);
      }
    }
    forall r | r in t.heap ensures EntryFollows(t, moved, r) {
      if r in s.heap && !Writes(s, a, r) {
        OtherEntryFollows(vm, cfg, s, all, a, t, moved, r);
      }
    }
  }

  /**
   Every interleaving of every request, the reaper and the clock refines the atomic machine: what
   the run shows is a legal history of whole openings and answers, and every entry, request and
   tracker stands where that history says.
   */
  lemma {:induction false} RunsRefine(vm: Vm, cfg: Settings, actions: seq<Action>)
    requires Settles(vm) && Run(vm, cfg, Init(cfg), actions).Some?
    ensures var all := OccurAll(vm, map[], Trace(vm, cfg, Init(cfg), actions));
            all.Some? && Follows(vm, Run(vm, cfg, Init(cfg), actions).value, all.value)
  {
    hide Next, Inv, Settles, Shows, FlightFollows, EntryFollows, Occurs;
    if actions != [] {
      hide Follows;
      var earlier := actions[..|actions| - 1];
      RunsRefine(vm, cfg, earlier);
      InitSatisfiesInv(vm, cfg);
      RunKeepsInv(vm, cfg, Init(cfg), earlier);
      var s := Run(vm, cfg, Init(cfg), earlier).value;
      var trace := Trace(vm, cfg, Init(cfg), earlier);
      StepRefines(vm, cfg, s, OccurAll(vm, map[], trace).value, actions[|actions| - 1]);
      var shown := Shows(s, actions[|actions| - 1]);
      if shown.Some? {
        assert (trace + [shown.value])[..|trace|] == trace;
      } else {
        assert trace + [] == trace;
      }
    }
  }

  // ---------------------------------------------------------------- what a session's history says

  function OriginOf(trace: seq<Occurrence>, r: Ref): Option<Origin> {
    if trace == [] then None
    else
      var last := trace[|trace| - 1];
      if last.Opened? && last.ref == r then Some(last.origin) else OriginOf(trace[..|trace| - 1], r)
  }

  /** The answers that session `r` accepted, in order. */
  function RepliesTo(trace: seq<Occurrence>, r: Ref): seq<Reply> {
    if trace == [] then []
    else
      var last := trace[|trace| - 1];
      RepliesTo(trace[..|trace| - 1], r) + (if last.Answered? && last.ref == r then [last.reply] else [])
  }

  function AnswersIn(replies: seq<Reply>): seq<(Answer, nat)> {
    if replies == [] then []
    else
      var last := replies[|replies| - 1];
      AnswersIn(replies[..|replies| - 1]) + [(AnswerOf(last.input), last.env)]
  }

  lemma ReplyAppends(vm: Vm, origin: Origin, replies: seq<Reply>, reply: Reply)
    requires Settles(vm)
    ensures RunReplies(vm, origin, replies + [reply]) == Respond(vm, RunReplies(vm, origin, replies), reply)
    ensures AnswersIn(replies + [reply]) == AnswersIn(replies) + [(AnswerOf(reply.input), reply.env)]
    ensures AcceptedAnswers(vm, origin, replies + [reply])
            == AcceptedAnswers(vm, origin, replies)
               + (if Takes(RunReplies(vm, origin, replies), reply.input) then [(AnswerOf(reply.input), reply.env)]
                   else [])
  {
    hide Respond, StartSlice, Settles, Takes;
    assert (replies + [reply])[..|replies|] == replies;
  }

  /** In a legal history each session is its own origin and answers run through, every one of them accepted. */
  lemma {:induction false} SessionsAreTheirHistories(vm: Vm, trace: seq<Occurrence>, r: Ref)
    requires Settles(vm) && OccurAll(vm, map[], trace).Some?
    ensures var all := OccurAll(vm, map[], trace).value;
            && (r in all <==> OriginOf(trace, r).Some?)
            && (r !in all ==> RepliesTo(trace, r) == [])
            && (r in all ==>
                  var (origin, replies) := (OriginOf(trace, r).value, RepliesTo(trace, r));
                  && all[r] == RunReplies(vm, origin, replies)
                  && AcceptedAnswers(vm, origin, replies) == AnswersIn(replies))
  {
    hide Settles, StartSlice, ResumeSlice, Takes;
    if trace != [] {
      var earlier := trace[..|trace| - 1];
      SessionsAreTheirHistories(vm, earlier, r);
      var last := trace[|trace| - 1];
      assert RepliesTo(earlier, r) + [] == RepliesTo(earlier, r);
      if last.Opened? && last.ref == r {
        assert RunReplies(vm, last.origin, []) == StartSlice(vm, last.origin);
        assert AcceptedAnswers(vm, last.origin, []) == AnswersIn([]);
      } else if last.Answered? && last.ref == r {
        ReplyAppends(vm, OriginOf(earlier, r).value, RepliesTo(earlier, r), last.reply);
      }
      hide RunReplies, AcceptedAnswers;
    }
  }

  /**
   The end-to-end meaning of a session: at any point of any run, what an entry shows is what its
   program does in one uninterrupted run under the answers stored so far, and a failure is reported
   as over a limit exactly when some hook of some slice failed, by the first limit that did.
   */
  lemma EntriesMeanTheirPrograms(vm: Vm, cfg: Settings, actions: seq<Action>, r: Ref)
    requires Settles(vm) && Run(vm, cfg, Init(cfg), actions).Some?
    requires r in Run(vm, cfg, Init(cfg), actions).value.heap
    ensures var trace := Trace(vm, cfg, Init(cfg), actions);
            var s := Run(vm, cfg, Init(cfg), actions).value;
            && OriginOf(trace, r).Some?
            && var (origin, replies) := (OriginOf(trace, r).value, RepliesTo(trace, r));
               var whole := BigStep(vm, vm.start(origin.program, origin.env), origin.env, AnswersIn(replies));
               && s.heap[r].snapshot == SnapshotOf(RunReplies(vm, origin, replies).step)
               && SessionOutput(vm, origin, replies) == whole.output
               && ShowsOutcome(s.heap[r], whole.outcome)
               && ShowsPrinted(s.heap[r].snapshot, RunReplies(vm, origin, replies).step)
               && (s.heap[r].snapshot.Failed? ==>
                     && r in s.trackers
                     && s.heap[r].snapshot.breach
                        == FirstFailure(origin.limits, NewCounters(origin.created), s.trackers[r].events,
                            |s.trackers[r].events|))
  {
    var trace := Trace(vm, cfg, Init(cfg), actions);
    var s := Run(vm, cfg, Init(cfg), actions).value;
    RunsRefine(vm, cfg, actions);
    hide Next, Settles, BigStep, RunReplies, AcceptedAnswers, SessionOutput, FlightFollows, FirstFailure;
    var all := OccurAll(vm, map[], trace).value;
    SessionsAreTheirHistories(vm, trace, r);
    assert EntryFollows(s, all, r);
    var (origin, replies) := (OriginOf(trace, r).value, RepliesTo(trace, r));
    SlicingPreservesMeaning(vm, origin, replies);
    LimitReportIsFirstFailure(vm, origin, replies);
  }

  /** The snapshot has the step's own output and statistics. */
  predicate ShowsPrinted(snapshot: Snapshot, step: SessionStep) {
    match snapshot
    case Paused(output, stats) => output == step.output && stats == StatsOf(step)
    case Completed(_, output, stats) => output == step.output && stats == StatsOf(step)
    case Failed(_, _, output, stats) => output == step.output && stats == StatsOf(step)
  }

  /** An entry shows this outcome of its program; a pause is there to be answered while its progress is in. */
  predicate ShowsOutcome(e: Entry, outcome: Result<Progress, Values.MontyException>) {
    match e.snapshot
    case Completed(result, _, _) => outcome == Ok(Complete(result))
    case Failed(exception, _, _, _) => outcome == Err(exception)
    case Paused(_, _) => outcome.Ok? && (e.progress.Some? ==> outcome == Ok(e.progress.value))
  }
}
