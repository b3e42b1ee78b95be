/** Safety of the session protocol over all interleavings. */
module ProtocolTheorems {
  import opened Wrappers
  import opened TrackerTheorems
  import opened Engine
  import opened Session
  import opened Convert
  import opened Api
  import opened Protocol
  import opened ProtocolInvariant

  // ---------------------------------------------------------------- what one step may change

  /** Flight `f` holds what was taken out of entry `r`. */
  predicate HeldBy(s: Sys, f: Fid, r: Ref) {
    f in s.flights && HoldsTaken(s.flights[f].phase) && Owns(s.flights[f].phase) == Some(r)
  }

  predicate ActsOn(a: Action, f: Fid) {
    OfFlight(a) && a.f == f
  }

  /** The step takes entry `r`'s progress out, or the flight that holds it puts something back. */
  predicate Writes(s: Sys, a: Action, r: Ref) {
    || (a.Acquire? && a.f in s.flights && s.flights[a.f].phase.ResumeFound? && s.flights[a.f].phase.ref == r
        && r in s.heap && Acquired(s.heap[r]).1.Ok?)
    || (a.Collect? && HeldBy(s, a.f, r))
  }

  /** The step is a clock call or a hook of the task that holds tracker `r`. */
  predicate Drives(s: Sys, a: Action, r: Ref) {
    && (a.Begin? || a.Finish? || a.Panic?)
    && a.f in s.flights && s.flights[a.f].phase.Running?
    && Owns(s.flights[a.f].phase) == Some(r)
  }

  ghost predicate FlightsFramed(s: Sys, a: Action, t: Sys) {
    && s.now <= t.now
    && s.flights.Keys <= t.flights.Keys
    && (forall g :: g in t.flights && !ActsOn(a, g) ==> g in s.flights && t.flights[g] == s.flights[g])
  }

  ghost predicate HeapFramed(s: Sys, a: Action, t: Sys) {
    forall r :: r in s.heap ==> r in t.heap && (Writes(s, a, r) || t.heap[r] == s.heap[r])
  }

  ghost predicate TrackersFramed(s: Sys, a: Action, t: Sys) {
    forall r :: r in s.trackers ==> r in t.trackers && (Drives(s, a, r) || t.trackers[r] == s.trackers[r])
  }

  lemma FlightsAreFramed(vm: Vm, cfg: Settings, s: Sys, a: Action)
    requires Settles(vm) && Next(vm, cfg, s, a).Some?
    ensures FlightsFramed(s, a, Next(vm, cfg, s, a).value)
  {
    hide Next, Settles, TakesNothing, AddsNoId;
    StepsAreShaped(vm, cfg, s, a);
  }

  lemma AdmittedIsNew(vm: Vm, cfg: Settings, s: Sys, f: Fid)
    requires Inv(vm, cfg, s) && f in s.flights && s.flights[f].phase.Admitted?
    ensures s.flights[f].phase.ref !in s.heap
  {
    assert FlightOk(vm, s, s.flights[f]);
  }

  lemma ReturnedHolds(s: Sys, f: Fid)
    requires f in s.flights && s.flights[f].phase.Returned?
    ensures var result := s.flights[f].phase.result;
            result.DidStep? || result.DidNotMatch? ==> HeldBy(s, f, result.ref)
  {
  }

  lemma LeavesHeap(s: Sys, a: Action, t: Sys)
    requires StepShape(s, a, t) && !a.Acquire? && !a.Collect? && !a.Insert?
    ensures t.heap == s.heap
  {
    hide TakesNothing, AddsNoId, OnlyFlight;
  }

  lemma HeapIsFramed(vm: Vm, cfg: Settings, s: Sys, a: Action)
    requires Settles(vm) && Next(vm, cfg, s, a).Some? && Inv(vm, cfg, s)
    ensures HeapFramed(s, a, Next(vm, cfg, s, a).value)
  {
    hide Next, Inv, Settles, TakesNothing, AddsNoId, OnlyFlight, Owns, HoldsTaken, Quiet, Drove;
    StepsAreShaped(vm, cfg, s, a);
    var t := Next(vm, cfg, s, a).value;
    if a.Insert? {
      AdmittedIsNew(vm, cfg, s, a.f);
    } else if a.Collect? {
      ReturnedHolds(s, a.f);
    } else if !a.Acquire? {
      LeavesHeap(s, a, t);
    }
  }

  /** The tracker a task drives is the one its request holds. */
  lemma DrivenIsOwned(vm: Vm, cfg: Settings, s: Sys, f: Fid)
    requires Inv(vm, cfg, s) && f in s.flights && s.flights[f].phase.Running?
    ensures var phase := s.flights[f].phase;
            match phase
            case Running(ResumeJob(_, ref, _, _), None) => Owns(phase) == Some(ref)
            case Running(_, Some(b)) => Owns(phase) == Some(b.ref)
            case _ => true
  {
    assert FlightOk(vm, s, s.flights[f]);
    hide Inv, CursorOf, Matches;
  }

  lemma TrackersAreFramed(vm: Vm, cfg: Settings, s: Sys, a: Action)
    requires Settles(vm) && Next(vm, cfg, s, a).Some? && Inv(vm, cfg, s)
    ensures TrackersFramed(s, a, Next(vm, cfg, s, a).value)
  {
    hide Next, Inv, Settles, TakesNothing, AddsNoId, OnlyFlight;
    StepsAreShaped(vm, cfg, s, a);
    if a.Begin? || a.Finish? || a.Panic? {
      DrivenIsOwned(vm, cfg, s, a.f);
      hide Owns;
    } else {
      hide Owns, Drove;
    }
  }

  // ---------------------------------------------------------------- progress is linear

  /** A session's progress is in at most one place: its entry, or one single flight. */
  lemma ProgressIsInOnePlace(vm: Vm, cfg: Settings, s: Sys, r: Ref)
    requires Settles(vm) && Reachable(vm, cfg, s) && r in s.heap
    ensures forall f, g :: HeldBy(s, f, r) && HeldBy(s, g, r) ==> f == g
    ensures s.heap[r].progress.Some? || s.heap[r].terminal ==> forall f :: !HeldBy(s, f, r)
  {
    hide Next, Reachable, Settles;
    ReachableSatisfiesInv(vm, cfg, s);
    forall f | HeldBy(s, f, r) ensures s.heap[r].progress.None? && !s.heap[r].terminal {
      assert FlightOk(vm, s, s.flights[f]);
    }
  }

  /** Two blocking tasks on one session are the same task, whether or not anyone still waits for them. */
  lemma ExecutionsNeverOverlap(vm: Vm, cfg: Settings, s: Sys, f: Fid, g: Fid)
    requires Settles(vm) && Reachable(vm, cfg, s) && f in s.flights && g in s.flights
    requires s.flights[f].phase.Running? && s.flights[f].phase.job.ResumeJob?
    requires s.flights[g].phase.Running? && s.flights[g].phase.job.ResumeJob?
    requires s.flights[f].phase.job.ref == s.flights[g].phase.job.ref
    ensures f == g
  {
    hide Next, Reachable, Settles;
    ReachableSatisfiesInv(vm, cfg, s);
    assert Owns(s.flights[f].phase) == Owns(s.flights[g].phase);
  }

  /** A flight comes to hold something of an entry's only by acquiring it. */
  lemma HoldingStartsWithAcquire(vm: Vm, cfg: Settings, s: Sys, a: Action, f: Fid, r: Ref)
    requires Settles(vm) && Next(vm, cfg, s, a).Some?
    requires HeldBy(Next(vm, cfg, s, a).value, f, r) && !HeldBy(s, f, r)
    ensures a == Acquire(f) && f in s.flights && s.flights[f].phase.ResumeFound? && s.flights[f].phase.ref == r
    ensures r in s.heap && Acquired(s.heap[r]).1.Ok?
  {
    hide Next, Settles, HoldsTaken, Owns;
    FlightsAreFramed(vm, cfg, s, a);
    StepsAreShaped(vm, cfg, s, a);
    assert ActsOn(a, f);
    if a.Acquire? {
      FlightSteps(vm, cfg, s, a);
      AcquireHolds(vm, cfg, s, f, r);
    } else if a.Arrive? {
      ArrivalHoldsNothing(a.request);
    }
  }

  lemma ArrivalHoldsNothing(request: Phase)
    ensures IsArrival(request) ==> !HoldsTaken(request)
  {
  }

  lemma AcquireHolds(vm: Vm, cfg: Settings, s: Sys, f: Fid, r: Ref)
    requires Settles(vm) && f in s.flights && DoAcquire(s, f).Some?
    requires HeldBy(DoAcquire(s, f).value, f, r)
    ensures s.flights[f].phase.ResumeFound? && s.flights[f].phase.ref == r
    ensures r in s.heap && Acquired(s.heap[r]).1.Ok?
  {
  }

  // ---------------------------------------------------------------- permits

  /** Free permits and held ones always add up, so running tasks, orphaned ones included, never exceed the limit. */
  lemma PermitsAreConserved(vm: Vm, cfg: Settings, s: Sys)
    requires Settles(vm) && Reachable(vm, cfg, s)
    ensures s.free + |set f | f in s.flights && s.flights[f].phase.Granted?|
            + |set f | f in s.flights && s.flights[f].phase.Running?| == cfg.maxConcurrency
  {
    hide Next, Reachable, Settles, FlightsOk, Exclusive, HeapOk, IdsOk;
    ReachableSatisfiesInv(vm, cfg, s);
    var granted := set f | f in s.flights && s.flights[f].phase.Granted?;
    var running := set f | f in s.flights && s.flights[f].phase.Running?;
    assert PermitHolders(s) == granted + running;
    assert granted !! running;
  }

  // ---------------------------------------------------------------- entries

  /** Every entry, deleted or not, is well formed, and rendering it fails only while its progress is out. */
  lemma EntriesAreWellFormed(vm: Vm, cfg: Settings, s: Sys, id: Id, r: Ref)
    requires Settles(vm) && Reachable(vm, cfg, s) && r in s.heap
    ensures WellFormed(s.heap[r])
    ensures var e := s.heap[r];
            (e.progress.Some? && e.progress.value.FunctionCall? ==> StringKeyed(e.progress.value.call.kwargs)) ==>
              (Render(id, e, s.now).Err? <==> !e.terminal && e.progress.None?)
  {
    hide Next, Reachable, Settles;
    ReachableSatisfiesInv(vm, cfg, s);
    assert EntryOk(s, r);
    if s.heap[r].progress.Some? && s.heap[r].progress.value.FunctionCall?
       && !StringKeyed(s.heap[r].progress.value.call.kwargs) {
    } else {
      RenderFailsIff(id, s.heap[r], s.now);
    }
  }

  // ---------------------------------------------------------------- nothing impossible is reached

  /** A resume that runs is one whose input matches, so resuming never meets a pair it has no case for. */
  lemma RunningResumesMatch(vm: Vm, cfg: Settings, s: Sys, f: Fid)
    requires Settles(vm) && Reachable(vm, cfg, s) && f in s.flights && IsBegun(s.flights[f].phase)
    requires s.flights[f].phase.job.ResumeJob?
    ensures var job := s.flights[f].phase.job;
            Matches(job.progress, job.input) && Actionable(job.progress)
  {
    hide Next, Reachable, Settles, Inv, CursorOf;
    ReachableSatisfiesInv(vm, cfg, s);
    InvKnowsFlight(vm, cfg, s, f);
  }

  lemma UnusedName(used: set<nat>) returns (name: nat)
    ensures name !in used
  {
    name := UpperBound(used);
  }

  lemma {:induction false} UpperBound(used: set<nat>) returns (bound: nat)
    ensures forall n :: n in used ==> n < bound
  {
    bound := 0;
    if used != {} {
      var n :| n in used;
      bound := UpperBound(used - {n});
      assert forall m :: m in used ==> m == n || m in used - {n};
      bound := if bound <= n then n + 1 else bound;
    }
  }

  /**
   Nobody is stuck: a request that has not been answered has a next step of its own, which is no
   cancellation or panic, unless it waits for a permit that is not free or its program is running.
   */
  lemma NobodyIsStuck(vm: Vm, cfg: Settings, s: Sys, f: Fid) returns (a: Action)
    requires Settles(vm) && Reachable(vm, cfg, s) && f in s.flights
    requires !s.flights[f].phase.Responded? && !s.flights[f].phase.Gone?
    requires s.flights[f].phase.Queued? ==> s.free > 0
    requires !IsBegun(s.flights[f].phase)
    ensures ActsOn(a, f) && !a.Cancel? && !a.Panic? && Next(vm, cfg, s, a).Some?
  {
    hide Next, Reachable, Settles, Inv;
    ReachableSatisfiesInv(vm, cfg, s);
    InvKnowsFlight(vm, cfg, s, f);
    hide CursorOf, Stored, Restored, Acquired, Render, ResultOk, NewEntry, Visible, Matches;
    var ref := UnusedName(s.trackers.Keys);
    var id := UnusedName(s.issued);
    a := match s.flights[f].phase
      case ResumeFound(_, _, _) => Acquire(f)
      case DeleteArrived(_) => CheckOwner(f)
      case DeleteOwned(_) => RemoveId(f)
      case Queued(_) => Grant(f)
      case Granted(_) => Spawn(f)
      case Running(_, _) => Begin(f, ref, s.now)
      case Returned(_) => Collect(f)
      case Admitted(_, _, _, _, _) => Insert(f, id, s.now)
      case Viewing(_, _) => View(f)
      case _ => LookUp(f);
    FlightSteps(vm, cfg, s, a);
  }

  /** Whoever waits for a permit waits for somebody: with none free, somebody holds one. */
  lemma PermitsAreHeldBySomebody(vm: Vm, cfg: Settings, s: Sys)
    requires Settles(vm) && Reachable(vm, cfg, s) && s.free == 0 && cfg.maxConcurrency > 0
    ensures exists f :: f in s.flights && HoldsPermit(s.flights[f].phase)
  {
    hide Next, Reachable, Settles, FlightsOk, Exclusive, HeapOk, IdsOk, HoldsPermit;
    ReachableSatisfiesInv(vm, cfg, s);
    assert PermitHolders(s) != {};
    var f :| f in PermitHolders(s);
  }

  /**
   A running program can always be finished with: if its hooks read the clock forwards from the
   segment's begin and up to some instant, the task can return as soon as that instant has come.
   */
  lemma WorkCanAlwaysFinish(vm: Vm, cfg: Settings, s: Sys, f: Fid, env: nat, until: nat)
    requires Settles(vm) && Reachable(vm, cfg, s) && f in s.flights && IsBegun(s.flights[f].phase)
    requires var (job, at) := (s.flights[f].phase.job, s.flights[f].phase.begun.value.at);
             && (job.ResumeJob? && Matches(job.progress, job.input) ==>
                   HooksRun(Settled(vm, ApplyResume(vm, job.progress, job.input, env), env).hooks, at, until))
             && (job.StartJob? && vm.compile(job.source).Ok? ==>
                   HooksRun(Settled(vm, vm.start(vm.compile(job.source).value, env), env).hooks, at, until))
    ensures var now := if until > s.now then until else s.now;
            var clocks := Clocks(s.flights[f].phase.begun.value.at, now, now, now);
            && (until > s.now ==> Next(vm, cfg, s, Tick(now)) == Some(s.(now := now)))
            && DoFinish(vm, s.(now := now), f, env, clocks).Some?
  {
    hide Next, Reachable, Inv, CursorOf, ApplyResume, Settled, FinishStep, Timeline;
    ReachableSatisfiesInv(vm, cfg, s);
    InvKnowsFlight(vm, cfg, s, f);
    var (job, b) := (s.flights[f].phase.job, s.flights[f].phase.begun.value);
    assert BegunOk(vm, s, job, b);
    InvKnowsRef(vm, cfg, s, b.ref);
    if until > s.now {
      TickSteps(vm, cfg, s, until);
    }
    hide FlightOk;
  }

  lemma TickSteps(vm: Vm, cfg: Settings, s: Sys, until: nat)
    requires Settles(vm) && until > s.now
    ensures Next(vm, cfg, s, Tick(until)) == Some(s.(now := until))
  {
  }

  // ---------------------------------------------------------------- segments

  /** Begins and ends strictly alternate on every tracker, so its accumulated time is its completed segments' time. */
  lemma SegmentsAlternate(vm: Vm, cfg: Settings, s: Sys, r: Ref)
    requires Settles(vm) && Reachable(vm, cfg, s) && r in s.trackers
    ensures CursorOf(s.trackers[r]).Some?
    ensures CountersOf(s.trackers[r]).accumulated == TotalLength(Segments(s.trackers[r].events))
    ensures TotalLength(Segments(s.trackers[r].events)) <= s.now - s.trackers[r].created
  {
    hide Next, Reachable, Settles;
    ReachableSatisfiesInv(vm, cfg, s);
    assert TrackerOk(s, r);
    AccumulatedIsSegmentTime(s.trackers[r].limits, s.trackers[r].created, s.trackers[r].events);
    SegmentsAreDisjoint(s.trackers[r].created, s.trackers[r].events);
  }

  // ---------------------------------------------------------------- mismatched resumes

  /** Flight `f` has taken `progress` out of entry `r` and has done nothing with it yet. */
  predicate StillHolds(s: Sys, f: Fid, r: Ref, progress: Progress) {
    f in s.flights &&
    match s.flights[f].phase
    case Queued(ResumeJob(_, ref, p, _)) => ref == r && p == progress
    case Granted(ResumeJob(_, ref, p, _)) => ref == r && p == progress
    case Running(ResumeJob(_, ref, p, _), None) => ref == r && p == progress
    case Returned(DidNotMatch(_, ref, p, _)) => ref == r && p == progress
    case _ => false
  }

  /** Flight `f` is past the point from which a mismatch could still come. */
  predicate PastMismatch(s: Sys, f: Fid) {
    f in s.flights &&
    match s.flights[f].phase
    case Running(_, Some(_)) => true
    case Returned(result) => !result.DidNotMatch?
    case Viewing(_, _) => true
    case Responded(_) => true
    case Gone => true
    case Admitted(_, _, _, _, _) => true
    case Created(_) => true
    case _ => false
  }

  lemma HolderStepsQuietlyOrPast(vm: Vm, cfg: Settings, s: Sys, a: Action, f: Fid, r: Ref, progress: Progress)
    requires Settles(vm) && Next(vm, cfg, s, a).Some? && StillHolds(s, f, r, progress) && a != Collect(f)
    ensures var t := Next(vm, cfg, s, a).value;
            StillHolds(t, f, r, progress) || PastMismatch(t, f)
    ensures StillHolds(Next(vm, cfg, s, a).value, f, r, progress) && ActsOn(a, f) ==>
              Next(vm, cfg, s, a).value.trackers == s.trackers
  {
    hide Next, Settled, FinishStep, Settles, Timeline, ApplyResume, Acquired, Render, Visible;
    if ActsOn(a, f) {
      FlightSteps(vm, cfg, s, a);
    } else {
      FlightsAreFramed(vm, cfg, s, a);
    }
  }

  lemma PastStaysPast(vm: Vm, cfg: Settings, s: Sys, a: Action, f: Fid)
    requires Settles(vm) && Next(vm, cfg, s, a).Some? && PastMismatch(s, f)
    ensures PastMismatch(Next(vm, cfg, s, a).value, f)
  {
    if !ActsOn(a, f) {
      FlightsAreFramed(vm, cfg, s, a);
      hide Next, Settles;
    } else {
      OwnStepStaysPast(vm, cfg, s, a);
    }
  }

  lemma OwnStepStaysPast(vm: Vm, cfg: Settings, s: Sys, a: Action)
    requires Settles(vm) && Next(vm, cfg, s, a).Some? && OfFlight(a) && PastMismatch(s, a.f)
    ensures PastMismatch(Next(vm, cfg, s, a).value, a.f)
  {
    hide Next, Settles;
    FlightSteps(vm, cfg, s, a);
    if s.flights[a.f].phase.Running? {
      RunningStaysPast(vm, cfg, s, a);
    } else {
      hide DoBegin, DoFinish, DoPanic, DoAcquire, DoGrant, DoSpawn;
      OnlyTasksWork(vm, s, a);
      hide DoLookUp, DoCancel, DoCollect, DoInsert, DoView, DoCheckOwner, DoRemoveId, PastMismatch;
      AnsweringStaysPast(cfg, s, a);
      WritingStaysPast(cfg, s, a);
    }
  }

  lemma AnsweringStaysPast(cfg: Settings, s: Sys, a: Action)
    requires OfFlight(a) && PastMismatch(s, a.f) && !s.flights[a.f].phase.Running?
    ensures a.LookUp? && DoLookUp(s, a.f).Some? ==> PastMismatch(DoLookUp(s, a.f).value, a.f)
    ensures a.View? && DoView(s, a.f).Some? ==> PastMismatch(DoView(s, a.f).value, a.f)
    ensures a.CheckOwner? ==> DoCheckOwner(s, a.f).None?
    ensures a.RemoveId? ==> DoRemoveId(s, a.f).None?
  {
    hide Render, Visible;
  }

  lemma WritingStaysPast(cfg: Settings, s: Sys, a: Action)
    requires OfFlight(a) && PastMismatch(s, a.f) && !s.flights[a.f].phase.Running?
    ensures a.Cancel? && DoCancel(s, a.f).Some? ==> PastMismatch(DoCancel(s, a.f).value, a.f)
    ensures a.Collect? && DoCollect(cfg, s, a.f).Some? ==> PastMismatch(DoCollect(cfg, s, a.f).value, a.f)
    ensures a.Insert? && DoInsert(s, a.f, a.id, a.builtAt).Some? ==>
              PastMismatch(DoInsert(s, a.f, a.id, a.builtAt).value, a.f)
  {
    hide Stored, Restored, NewEntry;
  }

  /** Outside its task a request waits for no work, and only a waiting one takes, is granted or is spawned. */
  lemma OnlyTasksWork(vm: Vm, s: Sys, a: Action)
    requires Settles(vm) && OfFlight(a) && PastMismatch(s, a.f) && !s.flights[a.f].phase.Running?
    ensures a.Begin? ==> DoBegin(vm, s, a.f, a.ref, a.created).None?
    ensures a.Finish? ==> DoFinish(vm, s, a.f, a.env, a.clocks).None?
    ensures a.Panic? ==> DoPanic(s, a.f, a.hooks).None?
    ensures a.Acquire? ==> DoAcquire(s, a.f).None?
    ensures a.Grant? ==> DoGrant(s, a.f).None?
    ensures a.Spawn? ==> DoSpawn(s, a.f).None?
  {
    hide Settled, FinishStep, Settles, ApplyResume, HooksRun, Acquired;
  }

  lemma RunningStaysPast(vm: Vm, cfg: Settings, s: Sys, a: Action)
    requires Settles(vm) && Next(vm, cfg, s, a).Some? && OfFlight(a)
    requires PastMismatch(s, a.f) && s.flights[a.f].phase.Running?
    ensures PastMismatch(Next(vm, cfg, s, a).value, a.f)
  {
    hide Next, Settled, FinishStep, Settles, Timeline, ApplyResume, Render, Visible, Acquired;
    FlightSteps(vm, cfg, s, a);
  }

  lemma HoldingFlightHolds(s: Sys, f: Fid, r: Ref, progress: Progress)
    requires StillHolds(s, f, r, progress)
    ensures HeldBy(s, f, r) && !IsBegun(s.flights[f].phase)
  {
  }

  /** While `f` only waits with the progress, nobody writes the entry or drives its tracker. */
  lemma {:induction false} HeldEntryIsFrozen(vm: Vm, cfg: Settings, s: Sys, f: Fid, r: Ref, progress: Progress,
    actions: seq<Action>)
    requires Settles(vm) && Inv(vm, cfg, s) && Run(vm, cfg, s, actions).Some?
    requires r in s.heap && r in s.trackers && StillHolds(s, f, r, progress)
    requires forall i :: 0 <= i < |actions| ==> actions[i] != Collect(f)
    ensures var t := Run(vm, cfg, s, actions).value;
            && Inv(vm, cfg, t)
            && (PastMismatch(t, f)
                || (StillHolds(t, f, r, progress) && r in t.heap && r in t.trackers
                    && t.heap[r] == s.heap[r] && t.trackers[r] == s.trackers[r]))
  {
    hide Inv, Next, StillHolds, PastMismatch;
    if actions != [] {
      var (earlier, a) := (actions[..|actions| - 1], actions[|actions| - 1]);
      HeldEntryIsFrozen(vm, cfg, s, f, r, progress, earlier);
      var u := Run(vm, cfg, s, earlier).value;
      NextKeepsInv(vm, cfg, u, a);
      if PastMismatch(u, f) {
        PastStaysPast(vm, cfg, u, a, f);
      } else {
        FrozenStep(vm, cfg, u, a, f, r, progress);
      }
    }
  }

  lemma OwnersAreApart(vm: Vm, cfg: Settings, s: Sys, f: Fid, g: Fid, r: Ref)
    requires Inv(vm, cfg, s) && f in s.flights && g in s.flights && f != g && Owns(s.flights[g].phase) == Some(r)
    ensures Owns(s.flights[f].phase) != Some(r)
  {
    hide FlightsOk, HeapOk, IdsOk, PermitsOk;
  }

  lemma HeldProgressIsOut(vm: Vm, cfg: Settings, s: Sys, f: Fid, r: Ref)
    requires Inv(vm, cfg, s) && HeldBy(s, f, r) && r in s.heap
    ensures s.heap[r].progress.None? && !s.heap[r].terminal
  {
    assert FlightOk(vm, s, s.flights[f]);
    hide Inv, CursorOf;
  }

  /** Nobody but the holder writes the entry or drives its tracker, and not even the holder until it collects. */
  lemma NobodyElseTouches(vm: Vm, cfg: Settings, s: Sys, a: Action, f: Fid, r: Ref)
    requires Inv(vm, cfg, s) && HeldBy(s, f, r) && r in s.heap && a != Collect(f)
    ensures !Writes(s, a, r)
    ensures !ActsOn(a, f) ==> !Drives(s, a, r)
  {
    hide Inv, Owns, HoldsTaken;
    HeldProgressIsOut(vm, cfg, s, f, r);
    if OfFlight(a) && a.f in s.flights && a.f != f {
      OwnersAreApart(vm, cfg, s, a.f, f, r);
    }
  }

  lemma FrozenStep(vm: Vm, cfg: Settings, s: Sys, a: Action, f: Fid, r: Ref, progress: Progress)
    requires Settles(vm) && Inv(vm, cfg, s) && Next(vm, cfg, s, a).Some?
    requires r in s.heap && r in s.trackers && StillHolds(s, f, r, progress) && a != Collect(f)
    ensures var t := Next(vm, cfg, s, a).value;
            || PastMismatch(t, f)
            || (StillHolds(t, f, r, progress) && r in t.heap && r in t.trackers
                && t.heap[r] == s.heap[r] && t.trackers[r] == s.trackers[r])
  {
    hide Next, Settles, Inv, StillHolds, PastMismatch, Writes, Drives;
    HolderStepsQuietlyOrPast(vm, cfg, s, a, f, r, progress);
    HoldingFlightHolds(s, f, r, progress);
    HeapIsFramed(vm, cfg, s, a);
    TrackersAreFramed(vm, cfg, s, a);
    NobodyElseTouches(vm, cfg, s, a, f, r);
  }

  /**
   A mismatched resume is a no-op under every interleaving: from its acquire, over anything else
   that happens meanwhile, to its restore, the entry and its tracker come out as they went in.
   */
  lemma MismatchIsNoOp(vm: Vm, cfg: Settings, s: Sys, f: Fid, actions: seq<Action>)
    requires Settles(vm) && Reachable(vm, cfg, s)
    requires f in s.flights && s.flights[f].phase.ResumeFound?
    requires forall i :: 0 <= i < |actions| ==> actions[i] != Collect(f)
    requires Next(vm, cfg, s, Acquire(f)).Some?
    requires var taken := Next(vm, cfg, s, Acquire(f)).value;
             && Run(vm, cfg, taken, actions).Some?
             && var met := Run(vm, cfg, taken, actions).value;
                && f in met.flights && met.flights[f].phase.Returned? && met.flights[f].phase.result.DidNotMatch?
                && Next(vm, cfg, met, Collect(f)).Some?
    ensures var r := s.flights[f].phase.ref;
            var met := Run(vm, cfg, Next(vm, cfg, s, Acquire(f)).value, actions).value;
            var t := Next(vm, cfg, met, Collect(f)).value;
            && r in s.heap && r in t.heap && t.heap[r] == s.heap[r]
            && r in s.trackers && r in t.trackers && t.trackers[r] == s.trackers[r]
            && t.flights[f].phase.Responded? && t.flights[f].phase.response.Refused?
  {
    ReachableSatisfiesInv(vm, cfg, s);
    var r := s.flights[f].phase.ref;
    var taken := Next(vm, cfg, s, Acquire(f)).value;
    AcquireTakesOrAnswers(vm, cfg, s, f);
    NextKeepsInv(vm, cfg, s, Acquire(f));
    hide Inv, Next, StillHolds, PastMismatch, Reachable;
    var met := Run(vm, cfg, taken, actions).value;
    if taken.flights[f].phase.Responded? {
      RespondedStays(vm, cfg, taken, f, actions);
      assert false;
    } else {
      var progress := s.heap[r].progress.value;
      HeldEntryIsFrozen(vm, cfg, taken, f, r, progress, actions);
      MismatchIsNotPast(met, f);
      CollectRestores(vm, cfg, met, f, r, progress);
    }
  }

  lemma MismatchIsNotPast(s: Sys, f: Fid)
    requires f in s.flights && s.flights[f].phase.Returned? && s.flights[f].phase.result.DidNotMatch?
    ensures !PastMismatch(s, f)
  {
  }

  /** The acquire either answers at once or takes the progress and nothing else. */
  lemma AcquireTakesOrAnswers(vm: Vm, cfg: Settings, s: Sys, f: Fid)
    requires Settles(vm) && Inv(vm, cfg, s) && f in s.flights && s.flights[f].phase.ResumeFound?
    requires Next(vm, cfg, s, Acquire(f)).Some?
    ensures var r := s.flights[f].phase.ref;
            var t := Next(vm, cfg, s, Acquire(f)).value;
            && r in s.heap && r in s.trackers && f in t.flights
            && (t.flights[f].phase.Responded?
                || (&& s.heap[r].progress.Some? && StillHolds(t, f, r, s.heap[r].progress.value)
                    && t.heap == s.heap[r := s.heap[r].(progress := None)] && t.trackers == s.trackers))
  {
    hide Next, Settles;
    assert FlightOk(vm, s, s.flights[f]);
    assert EntryOk(s, s.flights[f].phase.ref);
    FlightSteps(vm, cfg, s, Acquire(f));
    hide Inv, CursorOf;
  }

  lemma CollectRestores(vm: Vm, cfg: Settings, s: Sys, f: Fid, r: Ref, progress: Progress)
    requires Settles(vm) && StillHolds(s, f, r, progress) && s.flights[f].phase.Returned?
    requires Next(vm, cfg, s, Collect(f)).Some?
    ensures var t := Next(vm, cfg, s, Collect(f)).value;
            && r in s.heap && t.heap == s.heap[r := s.heap[r].(progress := Some(progress))]
            && t.trackers == s.trackers
            && f in t.flights && t.flights[f].phase.Responded? && t.flights[f].phase.response.Refused?
  {
    hide Next, Settles;
    FlightSteps(vm, cfg, s, Collect(f));
  }

  lemma {:induction false} RespondedStays(vm: Vm, cfg: Settings, s: Sys, f: Fid, actions: seq<Action>)
    requires Settles(vm) && Run(vm, cfg, s, actions).Some? && f in s.flights && s.flights[f].phase.Responded?
    ensures var t := Run(vm, cfg, s, actions).value;
            f in t.flights && t.flights[f] == s.flights[f]
  {
    if actions != [] {
      var (earlier, a) := (actions[..|actions| - 1], actions[|actions| - 1]);
      RespondedStays(vm, cfg, s, f, earlier);
      FlightsAreFramed(vm, cfg, Run(vm, cfg, s, earlier).value, a);
      hide Settled, FinishStep, Timeline, ApplyResume, Acquired, Render;
    }
  }
}
