/** What becomes of a request: what it carries on its way, what each step does to the store, and how it is answered. */
module Requests {
  import opened Wrappers
  import Tracker
  import TrackerTheorems
  import opened Engine
  import opened Session
  import opened Api
  import opened Protocol
  import opened ProtocolInvariant
  import opened ProtocolTheorems
  import opened Lifetime
  import opened Isolation

  // ---------------------------------------------------------------- what a request carries

  /** What a resume of session `id` with this input can have become. */
  predicate BecameResume(id: Id, input: ResumeInput, phase: Phase) {
    match phase
    case ResumeArrived(i, x) => i == id && x == input
    case ResumeFound(i, _, x) => i == id && x == input
    case Queued(ResumeJob(i, _, _, x)) => i == id && x == input
    case Granted(ResumeJob(i, _, _, x)) => i == id && x == input
    case Running(ResumeJob(i, _, _, x), _) => i == id && x == input
    case Returned(DidStep(i, _, _, reply)) => i == id && reply.input == input
    case Returned(DidNotMatch(i, _, progress, error)) => i == id && CheckResume(progress, input) == Some(error)
    case Returned(DidPanic) => true
    case Viewing(i, _) => i == id
    case Responded(Shown(view)) => view.id == id
    case Responded(Refused(_)) => true
    case Gone => true
    case _ => false
  }

  predicate BecameStatus(id: Id, phase: Phase) {
    match phase
    case StatusArrived(i) => i == id
    case Viewing(i, _) => i == id
    case Responded(Shown(view)) => view.id == id
    case Responded(Refused(_)) => true
    case _ => false
  }

  predicate BecameDelete(id: Id, phase: Phase) {
    match phase
    case DeleteArrived(i) => i == id
    case DeleteOwned(i) => i == id
    case Responded(Deleted) => true
    case Responded(Refused(_)) => true
    case _ => false
  }

  /** What a creation can have become: its program is what its source compiles to, under its own limits and lifetime. */
  predicate BecameCreate(vm: Vm, ttl: nat, limits: Tracker.Limits, source: string, phase: Phase) {
    match phase
    case Queued(job) => job == StartJob(ttl, limits, source)
    case Granted(job) => job == StartJob(ttl, limits, source)
    case Running(job, _) => job == StartJob(ttl, limits, source)
    case Returned(DidStart(t, _, _, origin)) =>
      t == ttl && vm.compile(source) == Ok(origin.program) && origin.limits == limits
    case Returned(DidNotCompile(x)) => vm.compile(source) == Err(x)
    case Returned(DidPanic) => true
    case Admitted(t, _, _, origin, _) => t == ttl && vm.compile(source) == Ok(origin.program) && origin.limits == limits
    case Created(_) => true
    case Viewing(_, _) => true
    case Responded(Shown(_)) => true
    case Responded(CompileError(x)) => vm.compile(source) == Err(x)
    case Responded(Refused(_)) => true
    case Gone => true
    case _ => false
  }

  predicate BecameOther(phase: Phase) {
    match phase
    case Queued(job) => job.OtherJob?
    case Granted(job) => job.OtherJob?
    case Running(job, _) => job.OtherJob?
    case Returned(result) => result.DidOther? || result.DidPanic?
    case Responded(response) => response.OtherDone? || response.Refused?
    case Gone => true
    case _ => false
  }

  predicate Became(vm: Vm, asked: Phase, phase: Phase) {
    match asked
    case ResumeArrived(id, input) => BecameResume(id, input, phase)
    case StatusArrived(id) => BecameStatus(id, phase)
    case DeleteArrived(id) => BecameDelete(id, phase)
    case Queued(StartJob(ttl, limits, source)) => BecameCreate(vm, ttl, limits, source, phase)
    case Queued(OtherJob) => BecameOther(phase)
    case _ => false
  }

  predicate StillBecame(vm: Vm, asked: Phase, t: Option<Sys>, f: Fid) {
    t.Some? ==> f in t.value.flights && Became(vm, asked, t.value.flights[f].phase)
  }

  lemma BeginKeepsPurpose(vm: Vm, s: Sys, asked: Phase, f: Fid, ref: Ref, created: nat)
    requires f in s.flights && Became(vm, asked, s.flights[f].phase)
    ensures StillBecame(vm, asked, DoBegin(vm, s, f, ref, created), f)
  {
    hide Matches;
  }

  lemma FinishKeepsPurpose(vm: Vm, s: Sys, asked: Phase, f: Fid, env: nat, clocks: Clocks)
    requires Settles(vm) && f in s.flights && Became(vm, asked, s.flights[f].phase)
    ensures StillBecame(vm, asked, DoFinish(vm, s, f, env, clocks), f)
  {
    hide Settles, Settled, FinishStep, ApplyResume, HooksRun, Matches, CheckResume;
  }

  lemma PanicKeepsPurpose(vm: Vm, s: Sys, asked: Phase, f: Fid, hooks: seq<Tracker.Event>)
    requires f in s.flights && Became(vm, asked, s.flights[f].phase)
    ensures StillBecame(vm, asked, DoPanic(s, f, hooks), f)
  {
    hide HooksRun, CheckResume;
  }

  lemma WaitKeepsPurpose(vm: Vm, s: Sys, asked: Phase, f: Fid)
    requires f in s.flights && Became(vm, asked, s.flights[f].phase)
    ensures StillBecame(vm, asked, DoGrant(s, f), f) && StillBecame(vm, asked, DoSpawn(s, f), f)
    ensures StillBecame(vm, asked, DoCancel(s, f), f)
  {
    hide CheckResume;
  }

  lemma AcquireKeepsPurpose(vm: Vm, s: Sys, asked: Phase, f: Fid)
    requires f in s.flights && Became(vm, asked, s.flights[f].phase)
    ensures StillBecame(vm, asked, DoAcquire(s, f), f)
  {
    hide Acquired, CheckResume;
  }

  lemma CollectKeepsPurpose(vm: Vm, cfg: Settings, s: Sys, asked: Phase, f: Fid)
    requires f in s.flights && Became(vm, asked, s.flights[f].phase)
    ensures StillBecame(vm, asked, DoCollect(cfg, s, f), f)
  {
    hide Stored, Restored, CheckResume;
  }

  lemma LookUpKeepsPurpose(vm: Vm, s: Sys, asked: Phase, f: Fid)
    requires f in s.flights && Became(vm, asked, s.flights[f].phase)
    ensures StillBecame(vm, asked, DoLookUp(s, f), f)
  {
    hide Visible, CheckResume;
  }

  lemma DeleteKeepsPurpose(vm: Vm, s: Sys, asked: Phase, f: Fid)
    requires f in s.flights && Became(vm, asked, s.flights[f].phase)
    ensures StillBecame(vm, asked, DoCheckOwner(s, f), f) && StillBecame(vm, asked, DoRemoveId(s, f), f)
  {
    hide Visible, CheckResume;
  }

  lemma AnswerKeepsPurpose(vm: Vm, s: Sys, asked: Phase, f: Fid, id: Id, builtAt: nat)
    requires f in s.flights && Became(vm, asked, s.flights[f].phase)
    ensures StillBecame(vm, asked, DoInsert(s, f, id, builtAt), f) && StillBecame(vm, asked, DoView(s, f), f)
  {
    hide RenderState, NewEntry, CheckResume;
  }

  lemma StepKeepsPurpose(vm: Vm, cfg: Settings, s: Sys, asked: Phase, a: Action)
    requires Settles(vm) && OfFlight(a) && a.f in s.flights && Became(vm, asked, s.flights[a.f].phase)
    ensures StillBecame(vm, asked, Next(vm, cfg, s, a), a.f)
  {
    hide Next, Settles, Became;
    FlightSteps(vm, cfg, s, a);
    if a.Begin? {
      BeginKeepsPurpose(vm, s, asked, a.f, a.ref, a.created);
    } else if a.Finish? {
      FinishKeepsPurpose(vm, s, asked, a.f, a.env, a.clocks);
    } else if a.Panic? {
      PanicKeepsPurpose(vm, s, asked, a.f, a.hooks);
    } else if a.Acquire? {
      AcquireKeepsPurpose(vm, s, asked, a.f);
    } else if a.Collect? {
      CollectKeepsPurpose(vm, cfg, s, asked, a.f);
    } else if a.Insert? {
      AnswerKeepsPurpose(vm, s, asked, a.f, a.id, a.builtAt);
    } else if a.View? {
      AnswerKeepsPurpose(vm, s, asked, a.f, 0, 0);
    } else if a.LookUp? {
      LookUpKeepsPurpose(vm, s, asked, a.f);
    } else if a.CheckOwner? || a.RemoveId? {
      DeleteKeepsPurpose(vm, s, asked, a.f);
    } else {
      WaitKeepsPurpose(vm, s, asked, a.f);
    }
  }

  /** Who sent request `f`, and what it asked for. */
  function RequestOf(actions: seq<Action>, f: Fid): Option<(string, Phase)> {
    if actions == [] then None
    else
      var last := actions[|actions| - 1];
      if last.Arrive? && last.f == f then Some((last.caller, last.request))
      else RequestOf(actions[..|actions| - 1], f)
  }

  /** The request's purpose, where it stands; and a session whose deletion was confirmed is gone. */
  ghost predicate OnPurpose(vm: Vm, actions: seq<Action>, s: Sys, f: Fid)
    requires f in s.flights
  {
    && RequestOf(actions, f).Some?
    && var (caller, asked) := RequestOf(actions, f).value;
       && s.flights[f].caller == caller && Became(vm, asked, s.flights[f].phase)
       && (asked.DeleteArrived? && s.flights[f].phase == Responded(Deleted) ==>
          asked.id in s.issued && asked.id !in s.ids)
  }

  /** A request at rest with its answer does nothing more. */
  lemma AnsweredIsOver(vm: Vm, cfg: Settings, s: Sys, a: Action)
    requires Settles(vm) && OfFlight(a) && a.f in s.flights && s.flights[a.f].phase.Responded?
    ensures Next(vm, cfg, s, a).None?
  {
    hide Next, Settles;
    FlightSteps(vm, cfg, s, a);
  }

  /** Whether the id is there decides the answer; then it is gone, and nothing else is touched. */
  lemma DeleteTakesEffect(vm: Vm, cfg: Settings, s: Sys, f: Fid)
    requires Settles(vm) && f in s.flights && s.flights[f].phase.DeleteOwned?
    ensures Next(vm, cfg, s, RemoveId(f)).Some?
    ensures var (id, t) := (s.flights[f].phase.id, Next(vm, cfg, s, RemoveId(f)).value);
            && f in t.flights && t.flights[f].phase.Responded?
            && (t.flights[f].phase.response == Deleted <==> id in s.ids)
            && (t.flights[f].phase.response == Refused(SessionNotFound) <==> id !in s.ids)
            && id !in t.ids
            && (forall other :: other != id ==> (other in t.ids <==> other in s.ids))
            && (forall other :: other in t.ids ==> t.ids[other] == s.ids[other])
            && t.heap == s.heap && t.trackers == s.trackers && t.issued == s.issued && t.free == s.free
            && (forall g :: g != f ==> (g in t.flights <==> g in s.flights))
            && (forall g :: g != f && g in s.flights ==> t.flights[g] == s.flights[g])
  {
    hide Next, Settles;
    FlightSteps(vm, cfg, s, RemoveId(f));
  }

  /** Only a removal confirms a deletion. */
  lemma OnlyRemovalConfirms(vm: Vm, cfg: Settings, s: Sys, a: Action, id: Id)
    requires Settles(vm) && OfFlight(a) && a.f in s.flights && BecameDelete(id, s.flights[a.f].phase)
    requires Next(vm, cfg, s, a).Some?
    requires var t := Next(vm, cfg, s, a).value; a.f in t.flights && t.flights[a.f].phase == Responded(Deleted)
    ensures a.RemoveId? && s.flights[a.f].phase == DeleteOwned(id)
  {
    hide Next, Settles, Visible;
    FlightSteps(vm, cfg, s, a);
  }

  lemma PurposeStep(vm: Vm, cfg: Settings, actions: seq<Action>, s: Sys, a: Action, f: Fid)
    requires Settles(vm) && Inv(vm, cfg, s) && CallersOk(s) && Next(vm, cfg, s, a).Some?
    requires f in s.flights ==> OnPurpose(vm, actions, s, f)
    requires f in Next(vm, cfg, s, a).value.flights
    ensures OnPurpose(vm, actions + [a], Next(vm, cfg, s, a).value, f)
  {
    hide Next, Settles, Inv, Became, CallerOk;
    var (t, longer) := (Next(vm, cfg, s, a).value, actions + [a]);
    assert longer[..|actions|] == actions && longer[|actions|] == a;
    FlightsAreFramed(vm, cfg, s, a);
    IdsAreFramed(vm, cfg, s, a);
    StepsAreShaped(vm, cfg, s, a);
    if a.Arrive? && a.f == f {
      ArrivalIsItself(vm, a.request);
    } else {
      var (_, asked) := RequestOf(actions, f).value;
      if ActsOn(a, f) {
        StepKeepsPurpose(vm, cfg, s, asked, a);
        CallerStays(s, a, t);
        if asked.DeleteArrived? && t.flights[f].phase == Responded(Deleted) {
          ConfirmedIsGone(vm, cfg, s, a, asked);
        }
      }
    }
  }

  lemma ConfirmedIsGone(vm: Vm, cfg: Settings, s: Sys, a: Action, asked: Phase)
    requires Settles(vm) && CallersOk(s) && OfFlight(a) && a.f in s.flights && asked.DeleteArrived?
    requires Became(vm, asked, s.flights[a.f].phase) && Next(vm, cfg, s, a).Some?
    requires var t := Next(vm, cfg, s, a).value; a.f in t.flights && t.flights[a.f].phase == Responded(Deleted)
    ensures asked.id in s.issued && asked.id !in Next(vm, cfg, s, a).value.ids
  {
    hide Next, Settles;
    OnlyRemovalConfirms(vm, cfg, s, a, asked.id);
    DeleteTakesEffect(vm, cfg, s, a.f);
    assert CallerOk(s, s.flights[a.f]);
  }

  lemma CallerStays(s: Sys, a: Action, t: Sys)
    requires StepShape(s, a, t) && OfFlight(a) && !a.Arrive?
    ensures a.f in s.flights && a.f in t.flights && t.flights[a.f].caller == s.flights[a.f].caller
  {
    hide TakesNothing, AddsNoId, SameIds;
  }

  lemma ArrivalIsItself(vm: Vm, request: Phase)
    ensures IsArrival(request) ==> Became(vm, request, request) && request != Responded(Deleted)
  {
  }

  /**
   Over all runs: a request is answered for what it asked and nothing else. A resume keeps its
   session's id and its input to the step it stores; a creation keeps its source, limits and
   lifetime; each kind of answer goes to its own kind of request; and once a deletion has been
   confirmed, its id is gone.
   */
  lemma {:induction false} RequestsKeepTheirPurpose(vm: Vm, cfg: Settings, actions: seq<Action>)
    requires Settles(vm) && Run(vm, cfg, Init(cfg), actions).Some?
    ensures var s := Run(vm, cfg, Init(cfg), actions).value;
            forall f :: f in s.flights ==> OnPurpose(vm, actions, s, f)
  {
    hide Next, Settles, Inv, OnPurpose, CallersOk, Run;
    if actions == [] {
      EmptyRun(vm, cfg, Init(cfg));
    } else {
      var (earlier, a) := (actions[..|actions| - 1], actions[|actions| - 1]);
      PrefixRuns(vm, cfg, Init(cfg), actions, |actions| - 1);
      assert actions[..|actions|] == actions == earlier + [a];
      RequestsKeepTheirPurpose(vm, cfg, earlier);
      CallersStayOk(vm, cfg, earlier);
      var s := Run(vm, cfg, Init(cfg), earlier).value;
      var t := Run(vm, cfg, Init(cfg), actions).value;
      forall f | f in t.flights ensures OnPurpose(vm, actions, t, f) {
        PurposeStep(vm, cfg, earlier, s, a, f);
      }
    }
  }

  // ---------------------------------------------------------------- what each step answers

  /** Requests of every kind arrive under any name not in use, from anybody, with their handler attached. */
  lemma RequestsArrive(vm: Vm, cfg: Settings, s: Sys, f: Fid, caller: string, request: Phase)
    requires Settles(vm)
    ensures Next(vm, cfg, s, Arrive(f, caller, request)).Some? <==>
              && f !in s.flights
              && (request.ResumeArrived? || request.StatusArrived? || request.DeleteArrived?
                  || (request.Queued? && !request.job.ResumeJob?))
    ensures Next(vm, cfg, s, Arrive(f, caller, request)).Some? ==>
              Next(vm, cfg, s, Arrive(f, caller, request)).value
              == s.(flights := s.flights[f := Flight(true, caller, request)])
  {
    hide Settles;
  }

  /** A session's owner finds it; nobody finds another's, or one that is not there. */
  lemma OnlyOwnersFind(vm: Vm, cfg: Settings, s: Sys, f: Fid)
    requires Settles(vm) && Inv(vm, cfg, s) && f in s.flights
    ensures var (phase, caller) := (s.flights[f].phase, s.flights[f].caller);
            && (phase.ResumeArrived? ==>
                  && Next(vm, cfg, s, LookUp(f)).Some?
                  && Next(vm, cfg, s, LookUp(f)).value.flights[f].phase
                     == if Owner(s, phase.id, caller) then ResumeFound(phase.id, s.ids[phase.id], phase.input)
                        else Responded(Refused(SessionNotFound)))
            && (phase.StatusArrived? ==>
                  && Next(vm, cfg, s, LookUp(f)).Some?
                  && Next(vm, cfg, s, LookUp(f)).value.flights[f].phase
                     == if Owner(s, phase.id, caller) then Viewing(phase.id, s.ids[phase.id])
                        else Responded(Refused(SessionNotFound)))
            && (phase.Created? ==>
                  && Next(vm, cfg, s, LookUp(f)).Some?
                  && Next(vm, cfg, s, LookUp(f)).value.flights[f].phase
                     == if Owner(s, phase.id, caller) then Viewing(phase.id, s.ids[phase.id])
                        else Responded(Refused(Internal)))
            && (phase.DeleteArrived? ==>
                  && Next(vm, cfg, s, CheckOwner(f)).Some?
                  && Next(vm, cfg, s, CheckOwner(f)).value.flights[f].phase
                     == if Owner(s, phase.id, caller) then DeleteOwned(phase.id)
                        else Responded(Refused(SessionNotFound)))
  {
    hide Next, Settles;
    FlightSteps(vm, cfg, s, LookUp(f));
    FlightSteps(vm, cfg, s, CheckOwner(f));
  }

  /** The id is there and the session is the caller's. */
  predicate Owner(s: Sys, id: Id, caller: string) {
    id in s.ids && BelongsTo(s, s.ids[id], caller)
  }

  /**
   Taking a session's progress: turned down as finished exactly when it is finished, as busy
   exactly when its progress is out, and otherwise it is taken, for this input.
   */
  lemma AcquireAnswers(vm: Vm, cfg: Settings, s: Sys, f: Fid)
    requires Settles(vm) && Inv(vm, cfg, s) && f in s.flights && s.flights[f].phase.ResumeFound?
    ensures var found := s.flights[f].phase;
            && found.ref in s.heap && Next(vm, cfg, s, Acquire(f)).Some?
            && f in Next(vm, cfg, s, Acquire(f)).value.flights
            && Next(vm, cfg, s, Acquire(f)).value.flights[f].phase ==
                 if !s.heap[found.ref].snapshot.Paused? then Responded(Refused(BadRequest(AlreadyFinished)))
                 else
                   match s.heap[found.ref].progress
                   case None => Responded(Refused(SessionBusy))
                   case Some(progress) => Queued(ResumeJob(found.id, found.ref, progress, found.input))
  {
    hide Next, Settles, Inv, CursorOf;
    InvKnowsFlight(vm, cfg, s, f);
    InvKnowsRef(vm, cfg, s, s.flights[f].phase.ref);
    FlightSteps(vm, cfg, s, Acquire(f));
    hide FlightOk;
  }

  /** What a handler answers to its task's result, other than a step: what went wrong, as it went wrong. */
  lemma ResultsAreAnswered(vm: Vm, cfg: Settings, s: Sys, f: Fid)
    requires Settles(vm) && f in s.flights && s.flights[f].phase.Returned? && Next(vm, cfg, s, Collect(f)).Some?
    ensures f in Next(vm, cfg, s, Collect(f)).value.flights
    ensures var phase := Next(vm, cfg, s, Collect(f)).value.flights[f].phase;
            match s.flights[f].phase.result
            case DidStep(id, ref, _, _) => phase == Viewing(id, ref)
            case DidNotMatch(_, _, _, error) => phase == Responded(Refused(BadRequest(WrongAnswer(error))))
            case DidStart(ttl, ref, step, origin) =>
              phase == if |s.ids| >= cfg.maxSessions then Responded(Refused(Unavailable(cfg.maxSessions)))
                       else Admitted(ttl, ref, step, origin, s.now)
            case DidNotCompile(exception) => phase == Responded(CompileError(exception))
            case DidOther => phase == Responded(OtherDone)
            case DidPanic => phase == Responded(Refused(Internal))
  {
    hide Next, Settles, Stored, Restored;
    FlightSteps(vm, cfg, s, Collect(f));
  }

  /** A request can time out wherever it waits. Its task, if it runs, runs on, and keeps its permit. */
  lemma TimeoutsLeaveTasksRunning(vm: Vm, cfg: Settings, s: Sys, f: Fid)
    requires Settles(vm) && f in s.flights && s.flights[f].attached
    ensures Next(vm, cfg, s, Cancel(f)).Some? <==>
              var phase := s.flights[f].phase; phase.Queued? || phase.Granted? || phase.Running? || phase.Returned?
    ensures Next(vm, cfg, s, Cancel(f)).Some? ==>
              var t := Next(vm, cfg, s, Cancel(f)).value;
              && f in t.flights && t.heap == s.heap && t.trackers == s.trackers && t.ids == s.ids
              && if s.flights[f].phase.Running? then
                   t.flights[f] == s.flights[f].(attached := false) && t.free == s.free
                 else
                   t.flights[f].phase == Gone && t.free == s.free + (if s.flights[f].phase.Granted? then 1 else 0)
  {
    hide Next, Settles;
    FlightSteps(vm, cfg, s, Cancel(f));
  }

  /** A program that compiles begins on a tracker of its own, made at any reading so far, with its limits. */
  lemma ProgramsBegin(vm: Vm, cfg: Settings, s: Sys, f: Fid, ref: Ref, created: nat)
    requires Settles(vm) && f in s.flights && s.flights[f].phase.Running? && s.flights[f].phase.begun.None?
    requires s.flights[f].phase.job.StartJob? && vm.compile(s.flights[f].phase.job.source).Ok?
    ensures Next(vm, cfg, s, Begin(f, ref, created)).Some? <==> ref !in s.trackers && created <= s.now
    ensures Next(vm, cfg, s, Begin(f, ref, created)).Some? ==>
              var (t, job) := (Next(vm, cfg, s, Begin(f, ref, created)).value, s.flights[f].phase.job);
              && t == s.(flights := t.flights, trackers := t.trackers)
              && t.flights == s.flights[f := s.flights[f].(phase := Running(job, Some(Begun(ref, s.now))))]
              && t.trackers == s.trackers[ref := Tracked(job.limits, created, [Tracker.BeginSegment(s.now)])]
  {
    hide Next, Settles, Matches;
    FlightSteps(vm, cfg, s, Begin(f, ref, created));
  }

  /** A running task can panic at any time; its handler hears of it if it is still there. */
  lemma TasksCanPanic(vm: Vm, cfg: Settings, s: Sys, f: Fid)
    requires Settles(vm) && Inv(vm, cfg, s) && f in s.flights && s.flights[f].phase.Running?
    ensures Next(vm, cfg, s, Panic(f, [])).Some?
    ensures var t := Next(vm, cfg, s, Panic(f, [])).value;
            && f in t.flights && t.heap == s.heap && t.free == s.free + 1
            && t.flights[f].phase == if s.flights[f].attached then Returned(DidPanic) else Gone
  {
    hide Next, Settles, Inv, CursorOf, Matches;
    InvKnowsFlight(vm, cfg, s, f);
    if IsBegun(s.flights[f].phase) {
      var b := s.flights[f].phase.begun.value;
      InvKnowsRef(vm, cfg, s, b.ref);
      assert TrackerTheorems.Timeline(TrackerTheorems.Cursor(true, b.at), [])
          == Some(TrackerTheorems.Cursor(true, b.at));
    }
    FlightSteps(vm, cfg, s, Panic(f, []));
    hide FlightOk;
  }

  /**
   A session is made under any id not drawn before, at any reading of the clock since the length
   check: owned by its creator, with the lifetime asked for, all of it still ahead.
   */
  lemma SessionsAreMade(vm: Vm, cfg: Settings, s: Sys, f: Fid, id: Id, builtAt: nat)
    requires Settles(vm) && f in s.flights && s.flights[f].phase.Admitted?
    ensures Next(vm, cfg, s, Insert(f, id, builtAt)).Some? <==>
              id !in s.issued && s.flights[f].phase.since <= builtAt <= s.now
    ensures Next(vm, cfg, s, Insert(f, id, builtAt)).Some? ==>
              var (t, made) := (Next(vm, cfg, s, Insert(f, id, builtAt)).value, s.flights[f].phase);
              && id in t.ids && t.ids[id] == made.ref && made.ref in t.heap
              && f in t.flights && t.flights[f].phase == Created(id)
              && var e := t.heap[made.ref];
                 && e.principal == s.flights[f].caller && e.ttl == made.ttl
                 && e.createdAt == builtAt && e.expiresAt == builtAt + made.ttl
  {
    hide Next, Settles;
    FlightSteps(vm, cfg, s, Insert(f, id, builtAt));
  }
}
