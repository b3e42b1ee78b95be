/** What every reachable state of the protocol satisfies, step by step. */
module ProtocolInvariant {
  import opened Wrappers
  import opened Tracker
  import opened TrackerTheorems
  import opened Engine
  import opened EngineTheorems
  import opened Session
  import opened Api
  import opened Protocol

  // ---------------------------------------------------------------- who holds what

  predicate HoldsPermit(phase: Phase) {
    phase.Granted? || phase.Running?
  }

  function PermitHolders(s: Sys): set<Fid> {
    set f | f in s.flights && HoldsPermit(s.flights[f].phase)
  }

  function CursorOf(t: Tracked): Option<Cursor> {
    Timeline(Cursor(false, t.created), t.events)
  }

  predicate Idle(t: Tracked) {
    CursorOf(t).Some? && !CursorOf(t).value.open
  }

  // ---------------------------------------------------------------- the invariant

  predicate TrackerOk(s: Sys, r: Ref)
    requires r in s.trackers
  {
    CursorOf(s.trackers[r]).Some? && CursorOf(s.trackers[r]).value.at <= s.now
  }

  /** Expiry never runs further ahead of the clock than the session's own lifetime. */
  predicate EntryOk(s: Sys, r: Ref)
    requires r in s.heap
  {
    && WellFormed(s.heap[r])
    && s.heap[r].expiresAt <= s.now + s.heap[r].ttl
    && r in s.trackers
    && (s.heap[r].progress.Some? || s.heap[r].terminal ==> Idle(s.trackers[r]))
  }

  predicate JobOk(job: Job) {
    job.ResumeJob? ==> Actionable(job.progress)
  }

  predicate ResultOk(result: JobResult) {
    match result
    case DidStep(_, _, step, _) => StepIsActionable(step)
    case DidNotMatch(_, _, progress, _) => Actionable(progress)
    case DidStart(_, _, step, _) => StepIsActionable(step)
    case _ => true
  }

  /** A begun task is inside the segment it began, and did not begin on a mismatch or a compile error. */
  predicate BegunOk(vm: Vm, s: Sys, job: Job, b: Begun) {
    && b.ref in s.trackers
    && CursorOf(s.trackers[b.ref]) == Some(Cursor(true, b.at))
    && match job
       case ResumeJob(_, ref, progress, input) => b.ref == ref && Matches(progress, input)
       case StartJob(_, _, source) => vm.compile(source).Ok?
       case OtherJob => false
  }

  predicate IsBegun(phase: Phase) {
    phase.Running? && phase.begun.Some?
  }

  predicate FlightOk(vm: Vm, s: Sys, flight: Flight) {
    var phase := flight.phase;
    && (!flight.attached ==> phase.Running? || phase.Gone?)
    && (match phase
        case ResumeFound(_, ref, _) => ref in s.heap
        case Viewing(_, ref) => ref in s.heap
        case Queued(job) => JobOk(job)
        case Granted(job) => JobOk(job)
        case Running(job, begun) => JobOk(job) && (begun.Some? ==> BegunOk(vm, s, job, begun.value))
        case Returned(result) => ResultOk(result)
        case Admitted(_, _, step, _, since) => StepIsActionable(step) && since <= s.now
        case _ => true)
    && (match Owns(phase)
        case None => true
        case Some(r) =>
          && r in s.trackers
          && (!IsBegun(phase) ==> Idle(s.trackers[r]))
          && (r in s.heap <==> HoldsTaken(phase))
          && (r in s.heap ==> s.heap[r].progress.None? && !s.heap[r].terminal))
  }

  ghost predicate FlightsOk(vm: Vm, s: Sys) {
    forall f :: f in s.flights ==> FlightOk(vm, s, s.flights[f])
  }

  /** No two flights hold the same reference. */
  ghost predicate Exclusive(s: Sys) {
    forall f, g :: f in s.flights && g in s.flights && f != g && Owns(s.flights[f].phase).Some? ==>
      Owns(s.flights[f].phase) != Owns(s.flights[g].phase)
  }

  ghost predicate HeapOk(s: Sys) {
    && (forall r :: r in s.heap ==> EntryOk(s, r))
    && (forall r :: r in s.trackers ==> TrackerOk(s, r))
  }

  /** Every id names an entry of its own. */
  ghost predicate IdsOk(s: Sys) {
    && (forall id :: id in s.ids ==> s.ids[id] in s.heap && id in s.issued)
    && (forall i, j :: i in s.ids && j in s.ids && s.ids[i] == s.ids[j] ==> i == j)
  }

  ghost predicate PermitsOk(cfg: Settings, s: Sys) {
    s.free + |PermitHolders(s)| == cfg.maxConcurrency
  }

  ghost predicate Inv(vm: Vm, cfg: Settings, s: Sys) {
    FlightsOk(vm, s) && Exclusive(s) && HeapOk(s) && IdsOk(s) && PermitsOk(cfg, s)
  }

  // ---------------------------------------------------------------- steps of one flight

  /** Only flight `f`, and at most the entry and tracker `touched`, differ between `s` and `t`. */
  ghost predicate Local(s: Sys, t: Sys, f: Fid, touched: Option<Ref>) {
    && f in t.flights && t.flights == s.flights[f := t.flights[f]]
    && t.now == s.now
    && s.heap.Keys <= t.heap.Keys && s.trackers.Keys <= t.trackers.Keys
    && (forall r :: r in t.heap && Some(r) != touched ==> r in s.heap && t.heap[r] == s.heap[r])
    && (forall r :: r in t.trackers && Some(r) != touched ==> r in s.trackers && t.trackers[r] == s.trackers[r])
  }

  /** Nobody but `f` holds `touched`. */
  ghost predicate OnlyOwner(s: Sys, f: Fid, touched: Option<Ref>) {
    touched.Some? ==> forall g :: g in s.flights && g != f ==> Owns(s.flights[g].phase) != touched
  }

  lemma LocalStepKeepsFlights(vm: Vm, s: Sys, t: Sys, f: Fid, touched: Option<Ref>)
    requires FlightsOk(vm, s) && Exclusive(s)
    requires Local(s, t, f, touched) && OnlyOwner(s, f, touched)
    requires FlightOk(vm, t, t.flights[f])
    requires var owned := Owns(t.flights[f].phase);
             || owned.None? || owned == touched || (f in s.flights && owned == Owns(s.flights[f].phase))
    ensures FlightsOk(vm, t) && Exclusive(t)
  {
    forall g | g in t.flights ensures FlightOk(vm, t, t.flights[g]) {
      if g != f {
        OtherFlightStaysOk(vm, s, t, f, touched, g);
      }
    }
  }

  lemma OtherFlightStaysOk(vm: Vm, s: Sys, t: Sys, f: Fid, touched: Option<Ref>, g: Fid)
    requires Local(s, t, f, touched) && OnlyOwner(s, f, touched)
    requires g in s.flights && g != f && FlightOk(vm, s, s.flights[g])
    ensures FlightOk(vm, t, s.flights[g])
  {
    assert Owns(s.flights[g].phase).Some? ==> Owns(s.flights[g].phase) != touched;
  }

  lemma LocalStepKeepsHeap(s: Sys, t: Sys, f: Fid, touched: Option<Ref>)
    requires HeapOk(s) && Local(s, t, f, touched)
    requires touched.Some? && touched.value in t.heap ==> EntryOk(t, touched.value)
    requires touched.Some? && touched.value in t.trackers ==> TrackerOk(t, touched.value)
    ensures HeapOk(t)
  {
    forall r | r in t.heap ensures EntryOk(t, r) {
      if Some(r) != touched {
        assert EntryOk(s, r);
      }
    }
    forall r | r in t.trackers ensures TrackerOk(t, r) {
      if Some(r) != touched {
        assert TrackerOk(s, r);
      }
    }
  }

  /** The permit ledger balances when one flight takes, keeps or gives back a permit. */
  lemma PermitLedger(cfg: Settings, s: Sys, t: Sys, f: Fid)
    requires PermitsOk(cfg, s)
    requires f in t.flights && t.flights == s.flights[f := t.flights[f]]
    requires var before := f in s.flights && HoldsPermit(s.flights[f].phase);
             var after := HoldsPermit(t.flights[f].phase);
             t.free + (if after then 1 else 0) == s.free + (if before then 1 else 0)
    ensures PermitsOk(cfg, t)
  {
    hide HoldsPermit;
    var before := f in s.flights && HoldsPermit(s.flights[f].phase);
    var after := HoldsPermit(t.flights[f].phase);
    var others := PermitHolders(s) - {f};
    assert PermitHolders(s) == if before then others + {f} else others;
    assert PermitHolders(t) == if after then others + {f} else others;
  }

  /** A step of flight `f` that touches at most one entry and tracker, which nobody else holds. */
  lemma LocalStepKeepsInv(vm: Vm, cfg: Settings, s: Sys, t: Sys, f: Fid, touched: Option<Ref>)
    requires Inv(vm, cfg, s) && Local(s, t, f, touched) && OnlyOwner(s, f, touched)
    requires FlightOk(vm, t, t.flights[f])
    requires var owned := Owns(t.flights[f].phase);
             || owned.None? || owned == touched || (f in s.flights && owned == Owns(s.flights[f].phase))
    requires touched.Some? && touched.value in t.heap ==> EntryOk(t, touched.value)
    requires touched.Some? && touched.value in t.trackers ==> TrackerOk(t, touched.value)
    requires IdsOk(t)
    requires t.free + (if HoldsPermit(t.flights[f].phase) then 1 else 0)
          == s.free + (if f in s.flights && HoldsPermit(s.flights[f].phase) then 1 else 0)
    ensures Inv(vm, cfg, t)
  {
    hide FlightOk, EntryOk, TrackerOk, HoldsPermit, Owns, OnlyOwner;
    LocalStepKeepsFlights(vm, s, t, f, touched);
    LocalStepKeepsHeap(s, t, f, touched);
    PermitLedger(cfg, s, t, f);
  }

  lemma InvKnowsFlight(vm: Vm, cfg: Settings, s: Sys, f: Fid)
    requires Inv(vm, cfg, s) && f in s.flights
    ensures FlightOk(vm, s, s.flights[f])
  {
    hide FlightOk, Exclusive, HeapOk, IdsOk, PermitsOk;
  }

  lemma InvKnowsRef(vm: Vm, cfg: Settings, s: Sys, r: Ref)
    requires Inv(vm, cfg, s)
    ensures r in s.heap ==> EntryOk(s, r)
    ensures r in s.trackers ==> TrackerOk(s, r)
  {
    hide EntryOk, TrackerOk, FlightsOk, Exclusive, IdsOk, PermitsOk;
  }

  lemma SameIdsAreOk(vm: Vm, cfg: Settings, s: Sys, t: Sys)
    requires Inv(vm, cfg, s) && t.ids == s.ids && t.issued == s.issued && s.heap.Keys <= t.heap.Keys
    ensures IdsOk(t)
  {
    hide FlightsOk, Exclusive, HeapOk, PermitsOk;
  }

  /** Whatever a flight holds, no other flight does. */
  lemma HolderIsOnlyOwner(vm: Vm, cfg: Settings, s: Sys, f: Fid)
    requires Inv(vm, cfg, s) && f in s.flights
    ensures OnlyOwner(s, f, Owns(s.flights[f].phase))
  {
    hide FlightsOk, HeapOk, IdsOk, PermitsOk, Owns;
  }

  /** Steps that leave entries and trackers alone, and at most remove ids. */
  lemma QuietStepKeepsInv(vm: Vm, cfg: Settings, s: Sys, t: Sys, f: Fid)
    requires Inv(vm, cfg, s) && f in s.flights && f in t.flights
    requires t == s.(flights := s.flights[f := t.flights[f]], free := t.free, ids := t.ids)
    requires forall id :: id in t.ids ==> id in s.ids && t.ids[id] == s.ids[id]
    requires FlightOk(vm, t, t.flights[f])
    requires Owns(t.flights[f].phase).Some? ==> Owns(t.flights[f].phase) == Owns(s.flights[f].phase)
    requires t.free + (if HoldsPermit(t.flights[f].phase) then 1 else 0)
          == s.free + (if HoldsPermit(s.flights[f].phase) then 1 else 0)
    ensures Inv(vm, cfg, t)
  {
    hide FlightOk, EntryOk, TrackerOk, HoldsPermit, Owns;
    LocalStepKeepsInv(vm, cfg, s, t, f, None);
  }

  // ---------------------------------------------------------------- tracker histories

  lemma BeginExtends(t: Tracked, at: nat)
    requires Idle(t) && CursorOf(t).value.at <= at
    ensures CursorOf(t.(events := t.events + [BeginSegment(at)])) == Some(Cursor(true, at))
  {
    hide Timeline;
    TimelineAppends(Cursor(false, t.created), t.events, BeginSegment(at));
  }

  lemma FirstBegin(limits: Limits, created: nat, at: nat)
    requires created <= at
    ensures CursorOf(Tracked(limits, created, [BeginSegment(at)])) == Some(Cursor(true, at))
  {
    assert CursorOf(Tracked(limits, created, [])) == Some(Cursor(false, created));
    assert [] + [BeginSegment(at)] == [BeginSegment(at)];
    hide Timeline;
    BeginExtends(Tracked(limits, created, []), at);
  }

  lemma HooksExtend(t: Tracked, hooks: seq<Event>, at: nat, until: nat)
    requires CursorOf(t) == Some(Cursor(true, at)) && HooksRun(hooks, at, until)
    ensures var u := t.(events := t.events + hooks);
            CursorOf(u).Some? && CursorOf(u).value.open && CursorOf(u).value.at <= until
  {
    hide Timeline;
    TimelineSplits(Cursor(false, t.created), t.events, hooks);
    HooksStayOpen(hooks, Cursor(true, at));
  }

  lemma {:induction false} HooksStayOpen(hooks: seq<Event>, from: Cursor)
    requires from.open && Timeline(from, hooks).Some?
    requires forall i :: 0 <= i < |hooks| ==> !hooks[i].BeginSegment? && !hooks[i].EndSegment?
    ensures Timeline(from, hooks).value.open
  {
    if hooks != [] {
      HooksStayOpen(hooks[..|hooks| - 1], from);
    }
  }

  lemma SliceExtends(t: Tracked, hooks: seq<Event>, at: nat, clocks: Clocks, now: nat)
    requires CursorOf(t) == Some(Cursor(true, at))
    requires ClocksRun(clocks, at, now) && HooksRun(hooks, at, clocks.end)
    ensures var u := t.(events := t.events + (hooks + [EndSegment(clocks.end, clocks.restart)]));
            Idle(u) && CursorOf(u).value.at <= now
  {
    hide Timeline, HooksRun;
    HooksExtend(t, hooks, at, clocks.end);
    var end := EndSegment(clocks.end, clocks.restart);
    TimelineAppends(Cursor(false, t.created), t.events + hooks, end);
    assert t.events + (hooks + [end]) == t.events + hooks + [end];
  }

  // ---------------------------------------------------------------- preservation, action by action

  lemma ArriveKeepsInv(vm: Vm, cfg: Settings, s: Sys, f: Fid, caller: string, request: Phase)
    requires Inv(vm, cfg, s) && f !in s.flights && IsArrival(request)
    ensures Inv(vm, cfg, s.(flights := s.flights[f := Flight(true, caller, request)]))
  {
    hide FlightsOk, Exclusive, HeapOk, PermitsOk, CursorOf;
    LocalStepKeepsInv(vm, cfg, s, s.(flights := s.flights[f := Flight(true, caller, request)]), f, None);
  }

  /** The flight moves on to another phase, holding what it held or letting go of it. */
  lemma MoveKeepsInv(vm: Vm, cfg: Settings, s: Sys, f: Fid, phase: Phase)
    requires Inv(vm, cfg, s) && f in s.flights
    requires FlightOk(vm, s, s.flights[f].(phase := phase))
    requires Owns(phase).Some? ==> Owns(phase) == Owns(s.flights[f].phase)
    requires HoldsPermit(phase) == HoldsPermit(s.flights[f].phase)
    ensures Inv(vm, cfg, Move(s, f, phase))
  {
    SettleAccounts(vm, cfg, s, f, s.flights[f].(phase := phase), s.free);
  }

  /** As above, with permits changing hands. */
  lemma SettleAccounts(vm: Vm, cfg: Settings, s: Sys, f: Fid, flight: Flight, free: nat)
    requires Inv(vm, cfg, s) && f in s.flights
    requires FlightOk(vm, s, flight)
    requires Owns(flight.phase).Some? ==> Owns(flight.phase) == Owns(s.flights[f].phase)
    requires free + (if HoldsPermit(flight.phase) then 1 else 0)
             == s.free + (if HoldsPermit(s.flights[f].phase) then 1 else 0)
    ensures Inv(vm, cfg, s.(flights := s.flights[f := flight], free := free))
  {
    var t := s.(flights := s.flights[f := flight], free := free);
    assert FlightOk(vm, t, flight);
    hide FlightOk;
    QuietStepKeepsInv(vm, cfg, s, t, f);
  }

  lemma RefuseKeepsInv(vm: Vm, cfg: Settings, s: Sys, f: Fid, phase: Phase)
    requires Inv(vm, cfg, s) && f in s.flights && s.flights[f].attached
    requires phase.Responded? && !HoldsPermit(s.flights[f].phase)
    ensures Inv(vm, cfg, Move(s, f, phase))
  {
    hide Inv;
    MoveKeepsInv(vm, cfg, s, f, phase);
  }

  lemma LookUpKeepsInv(vm: Vm, cfg: Settings, s: Sys, f: Fid)
    requires Inv(vm, cfg, s) && f in s.flights && DoLookUp(s, f).Some?
    ensures Inv(vm, cfg, DoLookUp(s, f).value)
  {
    assert s.flights[f].attached by {
      assert FlightOk(vm, s, s.flights[f]);
    }
    hide Inv, Move;
    match s.flights[f].phase
    case ResumeArrived(id, input) =>
      if Visible(s, id, s.flights[f].caller) {
        MoveKeepsInv(vm, cfg, s, f, ResumeFound(id, s.ids[id], input));
      } else {
        RefuseKeepsInv(vm, cfg, s, f, Responded(Refused(SessionNotFound)));
      }
    case StatusArrived(id) =>
      if Visible(s, id, s.flights[f].caller) {
        MoveKeepsInv(vm, cfg, s, f, Viewing(id, s.ids[id]));
      } else {
        RefuseKeepsInv(vm, cfg, s, f, Responded(Refused(SessionNotFound)));
      }
    case Created(id) =>
      if Visible(s, id, s.flights[f].caller) {
        MoveKeepsInv(vm, cfg, s, f, Viewing(id, s.ids[id]));
      } else {
        RefuseKeepsInv(vm, cfg, s, f, Responded(Refused(Internal)));
      }
    case _ =>
  }

  /** An entry whose progress is in is held by nobody. */
  lemma IdleEntryIsUnowned(vm: Vm, cfg: Settings, s: Sys, r: Ref)
    requires Inv(vm, cfg, s) && r in s.heap && s.heap[r].progress.Some?
    ensures forall g :: g in s.flights ==> Owns(s.flights[g].phase) != Some(r)
  {
    forall g | g in s.flights ensures Owns(s.flights[g].phase) != Some(r) {
      assert FlightOk(vm, s, s.flights[g]);
    }
  }

  lemma TakeKeepsInv(vm: Vm, cfg: Settings, s: Sys, f: Fid)
    requires Inv(vm, cfg, s) && f in s.flights && s.flights[f].phase.ResumeFound? && s.flights[f].attached
    requires s.flights[f].phase.ref in s.heap && Acquired(s.heap[s.flights[f].phase.ref]).1.Ok?
    ensures var (ref, input) := (s.flights[f].phase.ref, s.flights[f].phase.input);
            var job := ResumeJob(s.flights[f].phase.id, ref, Acquired(s.heap[ref]).1.value, input);
            Inv(vm, cfg, Move(s, f, Queued(job)).(heap := s.heap[ref := Acquired(s.heap[ref]).0]))
  {
    hide Inv, CursorOf, IdsOk;
    var (ref, input) := (s.flights[f].phase.ref, s.flights[f].phase.input);
    var job := ResumeJob(s.flights[f].phase.id, ref, Acquired(s.heap[ref]).1.value, input);
    var t := Move(s, f, Queued(job)).(heap := s.heap[ref := Acquired(s.heap[ref]).0]);
    IdleEntryIsUnowned(vm, cfg, s, ref);
    InvKnowsRef(vm, cfg, s, ref);
    SameIdsAreOk(vm, cfg, s, t);
    assert EntryOk(t, ref) && TrackerOk(t, ref) && FlightOk(vm, t, t.flights[f]);
    assert OnlyOwner(s, f, Some(ref));
    hide FlightOk, EntryOk, TrackerOk, OnlyOwner;
    LocalStepKeepsInv(vm, cfg, s, t, f, Some(ref));
  }

  lemma AcquireKeepsInv(vm: Vm, cfg: Settings, s: Sys, f: Fid)
    requires Inv(vm, cfg, s) && f in s.flights && DoAcquire(s, f).Some?
    ensures Inv(vm, cfg, DoAcquire(s, f).value)
  {
    var ref := s.flights[f].phase.ref;
    assert s.flights[f].attached && ref in s.heap by {
      assert FlightOk(vm, s, s.flights[f]);
    }
    hide Inv;
    match Acquired(s.heap[ref]).1
    case Ok(progress) => TakeKeepsInv(vm, cfg, s, f);
    case Err(e) => RefuseKeepsInv(vm, cfg, s, f, Responded(Refused(AcquireFailure(e))));
  }

  /** Waiting, being granted a permit and being spawned are the same as far as holdings go. */
  lemma JobKeepsHoldings(job: Job)
    ensures Owns(Queued(job)) == Owns(Granted(job)) == Owns(Running(job, None))
    ensures HoldsTaken(Queued(job)) == HoldsTaken(Granted(job)) == HoldsTaken(Running(job, None))
  {
  }

  lemma GrantKeepsInv(vm: Vm, cfg: Settings, s: Sys, f: Fid)
    requires Inv(vm, cfg, s) && f in s.flights && DoGrant(s, f).Some?
    ensures Inv(vm, cfg, DoGrant(s, f).value)
  {
    var job := s.flights[f].phase.job;
    assert FlightOk(vm, s, s.flights[f]);
    JobKeepsHoldings(job);
    hide Inv, Owns, HoldsTaken, CursorOf, JobOk;
    SettleAccounts(vm, cfg, s, f, s.flights[f].(phase := Granted(job)), s.free - 1);
  }

  lemma SpawnKeepsInv(vm: Vm, cfg: Settings, s: Sys, f: Fid)
    requires Inv(vm, cfg, s) && f in s.flights && DoSpawn(s, f).Some?
    ensures Inv(vm, cfg, DoSpawn(s, f).value)
  {
    var job := s.flights[f].phase.job;
    assert FlightOk(vm, s, s.flights[f]);
    JobKeepsHoldings(job);
    hide Inv, Owns, HoldsTaken, CursorOf, JobOk;
    MoveKeepsInv(vm, cfg, s, f, Running(job, None));
  }

  lemma GoneIsFine(vm: Vm, s: Sys, flight: Flight)
    ensures FlightOk(vm, s, flight.(phase := Gone)) && Owns(Gone).None?
  {
  }

  lemma EarlyResultIsFine(vm: Vm, s: Sys, flight: Flight, result: JobResult)
    requires FlightOk(vm, s, flight) && flight.phase.Running? && flight.phase.begun.None? && ResultOk(result)
    requires Owns(Returned(result)).Some? ==> result.DidNotMatch? && Owns(Returned(result)) == Owns(flight.phase)
                                              && HoldsTaken(flight.phase)
    ensures flight.attached ==> FlightOk(vm, s, flight.(phase := Returned(result)))
  {
    hide CursorOf, ResultOk, JobOk;
  }

  /** A task that returns before its segment begins: nothing but the flight and its permit changes. */
  lemma EarlyReturnKeepsInv(vm: Vm, cfg: Settings, s: Sys, f: Fid, result: JobResult)
    requires Inv(vm, cfg, s) && f in s.flights && s.flights[f].phase.Running? && s.flights[f].phase.begun.None?
    requires ResultOk(result)
    requires Owns(Returned(result)).Some? ==> result.DidNotMatch? && Owns(Returned(result)) == Owns(s.flights[f].phase)
                                              && HoldsTaken(s.flights[f].phase)
    ensures Inv(vm, cfg, Deliver(s, f, result))
  {
    hide Inv, FlightOk, ResultOk, Owns;
    InvKnowsFlight(vm, cfg, s, f);
    EarlyResultIsFine(vm, s, s.flights[f], result);
    GoneIsFine(vm, s, s.flights[f]);
    var phase := if s.flights[f].attached then Returned(result) else Gone;
    SettleAccounts(vm, cfg, s, f, s.flights[f].(phase := phase), s.free + 1);
  }

  lemma BeginResumeKeepsInv(vm: Vm, cfg: Settings, s: Sys, f: Fid)
    requires Inv(vm, cfg, s) && f in s.flights && s.flights[f].phase.Running? && s.flights[f].phase.begun.None?
    requires var job := s.flights[f].phase.job;
             job.ResumeJob? && job.ref in s.trackers && Matches(job.progress, job.input)
    ensures var job := s.flights[f].phase.job;
            Inv(vm, cfg, Record(Move(s, f, Running(job, Some(Begun(job.ref, s.now)))), job.ref, [BeginSegment(s.now)]))
  {
    hide Inv, IdsOk, Matches, Timeline, WellFormed, OnlyOwner;
    var job := s.flights[f].phase.job;
    var t := Record(Move(s, f, Running(job, Some(Begun(job.ref, s.now)))), job.ref, [BeginSegment(s.now)]);
    InvKnowsFlight(vm, cfg, s, f);
    InvKnowsRef(vm, cfg, s, job.ref);
    HolderIsOnlyOwner(vm, cfg, s, f);
    BeginExtends(s.trackers[job.ref], s.now);
    SameIdsAreOk(vm, cfg, s, t);
    hide CursorOf;
    assert job.ref in t.heap ==> EntryOk(t, job.ref);
    assert TrackerOk(t, job.ref) && FlightOk(vm, t, t.flights[f]);
    hide FlightOk, EntryOk, TrackerOk;
    LocalStepKeepsInv(vm, cfg, s, t, f, Some(job.ref));
  }

  /** A reference without a tracker has no entry and no holder. */
  lemma UntrackedIsUnowned(vm: Vm, cfg: Settings, s: Sys, r: Ref)
    requires Inv(vm, cfg, s) && r !in s.trackers
    ensures r !in s.heap && forall g :: g in s.flights ==> Owns(s.flights[g].phase) != Some(r)
  {
    assert r in s.heap ==> EntryOk(s, r);
    forall g | g in s.flights ensures Owns(s.flights[g].phase) != Some(r) {
      assert FlightOk(vm, s, s.flights[g]);
    }
  }

  lemma BeginStartKeepsInv(vm: Vm, cfg: Settings, s: Sys, f: Fid, ref: Ref, created: nat)
    requires Inv(vm, cfg, s) && f in s.flights && s.flights[f].phase.Running? && s.flights[f].phase.begun.None?
    requires s.flights[f].phase.job.StartJob? && vm.compile(s.flights[f].phase.job.source).Ok?
    requires ref !in s.trackers && created <= s.now
    ensures var job := s.flights[f].phase.job;
            Inv(vm, cfg, Move(s, f, Running(job, Some(Begun(ref, s.now))))
                         .(trackers := s.trackers[ref := Tracked(job.limits, created, [BeginSegment(s.now)])]))
  {
    hide Inv, IdsOk, Matches, WellFormed, Timeline;
    var job := s.flights[f].phase.job;
    var t := Move(s, f, Running(job, Some(Begun(ref, s.now))))
             .(trackers := s.trackers[ref := Tracked(job.limits, created, [BeginSegment(s.now)])]);
    FirstBegin(job.limits, created, s.now);
    UntrackedIsUnowned(vm, cfg, s, ref);
    SameIdsAreOk(vm, cfg, s, t);
    hide CursorOf;
    assert TrackerOk(t, ref) && FlightOk(vm, t, t.flights[f]);
    assert OnlyOwner(s, f, Some(ref));
    hide FlightOk, EntryOk, TrackerOk, OnlyOwner;
    LocalStepKeepsInv(vm, cfg, s, t, f, Some(ref));
  }

  lemma BeginKeepsInv(vm: Vm, cfg: Settings, s: Sys, f: Fid, ref: Ref, created: nat)
    requires Inv(vm, cfg, s) && f in s.flights && DoBegin(vm, s, f, ref, created).Some?
    ensures Inv(vm, cfg, DoBegin(vm, s, f, ref, created).value)
  {
    hide Inv, Record, Move, Deliver, Matches, CursorOf, BegunOk;
    var job := s.flights[f].phase.job;
    InvKnowsFlight(vm, cfg, s, f);
    hide FlightOk;
    match job
    case ResumeJob(id, r, progress, input) =>
      if Matches(progress, input) {
        BeginResumeKeepsInv(vm, cfg, s, f);
      } else {
        EarlyReturnKeepsInv(vm, cfg, s, f, DidNotMatch(id, r, progress, CheckResume(progress, input).value));
      }
    case StartJob(_, _, source) =>
      if vm.compile(source).Ok? {
        BeginStartKeepsInv(vm, cfg, s, f, ref, created);
      } else {
        EarlyReturnKeepsInv(vm, cfg, s, f, DidNotCompile(vm.compile(source).error));
      }
    case OtherJob => EarlyReturnKeepsInv(vm, cfg, s, f, DidOther);
  }

  /** A begun task's work ends, normally or not: its tracker has grown, its permit is back, its result is delivered. */
  lemma WorkEndsKeepsInv(vm: Vm, cfg: Settings, s: Sys, f: Fid, b: Begun, events: seq<Event>, result: JobResult)
    requires Inv(vm, cfg, s) && f in s.flights
    requires s.flights[f].phase.Running? && s.flights[f].phase.begun == Some(b) && b.ref in s.trackers
    requires ResultOk(result)
    requires var grown := s.trackers[b.ref].(events := s.trackers[b.ref].events + events);
             && CursorOf(grown).Some? && CursorOf(grown).value.at <= s.now
             && (Owns(Returned(result)).Some? ==>
                   && Owns(Returned(result)) == Some(b.ref) && Idle(grown)
                   && HoldsTaken(Returned(result)) == HoldsTaken(s.flights[f].phase))
    ensures Inv(vm, cfg, Deliver(Record(s, b.ref, events), f, result))
  {
    hide Inv, IdsOk, CursorOf, ResultOk, WellFormed, OnlyOwner, Matches, JobOk;
    var t := Deliver(Record(s, b.ref, events), f, result);
    InvKnowsFlight(vm, cfg, s, f);
    InvKnowsRef(vm, cfg, s, b.ref);
    HolderIsOnlyOwner(vm, cfg, s, f);
    SameIdsAreOk(vm, cfg, s, t);
    assert Owns(s.flights[f].phase) == Some(b.ref);
    hide BegunOk;
    assert b.ref in t.heap ==> EntryOk(t, b.ref);
    assert TrackerOk(t, b.ref) && FlightOk(vm, t, t.flights[f]);
    hide FlightOk, EntryOk, TrackerOk, Idle;
    LocalStepKeepsInv(vm, cfg, s, t, f, Some(b.ref));
  }

  lemma FinishKeepsInv(vm: Vm, cfg: Settings, s: Sys, f: Fid, env: nat, clocks: Clocks)
    requires Settles(vm)
    requires Inv(vm, cfg, s) && f in s.flights && DoFinish(vm, s, f, env, clocks).Some?
    ensures Inv(vm, cfg, DoFinish(vm, s, f, env, clocks).value)
  {
    hide Inv, Settles, Settled, FinishStep, Deliver, ApplyResume, CountersOf, Timeline, Matches;
    var (job, b) := (s.flights[f].phase.job, s.flights[f].phase.begun.value);
    InvKnowsFlight(vm, cfg, s, f);
    assert BegunOk(vm, s, job, b);
    hide FlightOk, HooksRun, StepIsActionable, BegunOk;
    var first :=
      if job.ResumeJob? then ApplyResume(vm, job.progress, job.input, env)
      else vm.start(vm.compile(job.source).value, env);
    var hooks := Settled(vm, first, env).hooks;
    var events := hooks + [EndSegment(clocks.end, clocks.restart)];
    var t := Record(s, b.ref, events);
    var step := FinishStep(Settled(vm, first, env), CountersOf(t.trackers[b.ref]), clocks.stats);
    SliceExtends(s.trackers[b.ref], hooks, b.at, clocks, s.now);
    SettledStepIsActionable(vm, first, env, CountersOf(t.trackers[b.ref]), clocks.stats);
    hide CursorOf, ClocksRun;
    match job
    case ResumeJob(id, r, _, input) =>
      WorkEndsKeepsInv(vm, cfg, s, f, b, events, DidStep(id, r, step, Reply(input, env, clocks)));
    case StartJob(ttl, limits, source) =>
      WorkEndsKeepsInv(vm, cfg, s, f, b, events,
        DidStart(ttl, b.ref, step,
                 Origin(vm.compile(source).value, limits, s.trackers[b.ref].created, env, clocks)));
    case OtherJob =>
  }

  lemma SettledStepIsActionable(vm: Vm, first: Turn, env: nat, counters: Counters, now: nat)
    requires Settles(vm)
    ensures StepIsActionable(FinishStep(Settled(vm, first, env), counters, now))
  {
    SettledNeverAtOs(vm, first, env);
  }

  lemma PanicKeepsInv(vm: Vm, cfg: Settings, s: Sys, f: Fid, hooks: seq<Event>)
    requires Inv(vm, cfg, s) && f in s.flights && DoPanic(s, f, hooks).Some?
    ensures Inv(vm, cfg, DoPanic(s, f, hooks).value)
  {
    var Running(job, begun) := s.flights[f].phase;
    assert begun.Some? ==> BegunOk(vm, s, job, begun.value) by {
      assert FlightOk(vm, s, s.flights[f]);
    }
    hide Inv, Deliver;
    if begun.Some? {
      HooksExtend(s.trackers[begun.value.ref], hooks, begun.value.at, s.now);
      WorkEndsKeepsInv(vm, cfg, s, f, begun.value, hooks, DidPanic);
    } else {
      EarlyReturnKeepsInv(vm, cfg, s, f, DidPanic);
    }
  }

  lemma DetachedIsFine(vm: Vm, s: Sys, flight: Flight)
    requires FlightOk(vm, s, flight) && flight.phase.Running?
    ensures FlightOk(vm, s, flight.(attached := false))
  {
    hide BegunOk, CursorOf, JobOk, Owns;
  }

  lemma CancelKeepsInv(vm: Vm, cfg: Settings, s: Sys, f: Fid)
    requires Inv(vm, cfg, s) && f in s.flights && DoCancel(s, f).Some?
    ensures Inv(vm, cfg, DoCancel(s, f).value)
  {
    hide Inv, FlightOk, Owns;
    InvKnowsFlight(vm, cfg, s, f);
    if s.flights[f].phase.Running? {
      DetachedIsFine(vm, s, s.flights[f]);
      SettleAccounts(vm, cfg, s, f, s.flights[f].(attached := false), s.free);
    } else {
      GoneIsFine(vm, s, s.flights[f]);
      SettleAccounts(vm, cfg, s, f, s.flights[f].(phase := Gone),
          s.free + (if s.flights[f].phase.Granted? then 1 else 0));
    }
  }

  /** Writing the entry back, by a new step or by restoring the old progress, ends the flight's hold on it. */
  lemma WriteBackKeepsInv(vm: Vm, cfg: Settings, s: Sys, f: Fid, ref: Ref, entry: Entry, phase: Phase)
    requires Inv(vm, cfg, s) && f in s.flights && s.flights[f].phase.Returned?
    requires Owns(s.flights[f].phase) == Some(ref) && HoldsTaken(s.flights[f].phase)
    requires WellFormed(entry) && entry.expiresAt <= s.now + entry.ttl
    requires phase.Responded? || (phase.Viewing? && phase.ref == ref)
    ensures Inv(vm, cfg, Move(s, f, phase).(heap := s.heap[ref := entry]))
  {
    hide Inv, IdsOk, CursorOf, ResultOk, WellFormed, OnlyOwner;
    var t := Move(s, f, phase).(heap := s.heap[ref := entry]);
    InvKnowsFlight(vm, cfg, s, f);
    InvKnowsRef(vm, cfg, s, ref);
    HolderIsOnlyOwner(vm, cfg, s, f);
    SameIdsAreOk(vm, cfg, s, t);
    assert EntryOk(t, ref) && TrackerOk(t, ref) && FlightOk(vm, t, t.flights[f]);
    hide FlightOk, EntryOk, TrackerOk;
    LocalStepKeepsInv(vm, cfg, s, t, f, Some(ref));
  }

  lemma StoredIsFine(e: Entry, step: SessionStep, now: nat)
    requires StepIsActionable(step)
    ensures WellFormed(Stored(e, step, now)) && Stored(e, step, now).expiresAt == now + Stored(e, step, now).ttl
  {
  }

  lemma RestoredIsFine(e: Entry, progress: Progress)
    requires WellFormed(e) && !e.terminal && Actionable(progress)
    ensures WellFormed(Restored(e, progress))
    ensures Restored(e, progress).expiresAt == e.expiresAt && Restored(e, progress).ttl == e.ttl
  {
  }

  lemma CollectKeepsInv(vm: Vm, cfg: Settings, s: Sys, f: Fid)
    requires Inv(vm, cfg, s) && f in s.flights && DoCollect(cfg, s, f).Some?
    ensures Inv(vm, cfg, DoCollect(cfg, s, f).value)
  {
    var result := s.flights[f].phase.result;
    assert FlightOk(vm, s, s.flights[f]);
    assert result.DidStep? || result.DidNotMatch? ==> EntryOk(s, result.ref);
    hide Inv, CursorOf, StepIsActionable, WellFormed, Stored, Restored, Move;
    match result
    case DidStep(id, ref, step, _) =>
      StoredIsFine(s.heap[ref], step, s.now);
      WriteBackKeepsInv(vm, cfg, s, f, ref, Stored(s.heap[ref], step, s.now), Viewing(id, ref));
    case DidNotMatch(_, ref, progress, error) =>
      RestoredIsFine(s.heap[ref], progress);
      WriteBackKeepsInv(vm, cfg, s, f, ref, Restored(s.heap[ref], progress),
          Responded(Refused(BadRequest(WrongAnswer(error)))));
    case DidStart(ttl, ref, step, origin) =>
      if |s.ids| >= cfg.maxSessions {
        RefuseKeepsInv(vm, cfg, s, f, Responded(Refused(Unavailable(cfg.maxSessions))));
      } else {
        MoveKeepsInv(vm, cfg, s, f, Admitted(ttl, ref, step, origin, s.now));
      }
    case DidNotCompile(exception) => RefuseKeepsInv(vm, cfg, s, f, Responded(CompileError(exception)));
    case DidOther => RefuseKeepsInv(vm, cfg, s, f, Responded(OtherDone));
    case DidPanic => RefuseKeepsInv(vm, cfg, s, f, Responded(Refused(Internal)));
  }

  lemma InsertKeepsInv(vm: Vm, cfg: Settings, s: Sys, f: Fid, id: Id, builtAt: nat)
    requires Inv(vm, cfg, s) && f in s.flights && DoInsert(s, f, id, builtAt).Some?
    ensures Inv(vm, cfg, DoInsert(s, f, id, builtAt).value)
  {
    hide Inv, CursorOf, OnlyOwner;
    var t := DoInsert(s, f, id, builtAt).value;
    var ref := s.flights[f].phase.ref;
    InvKnowsFlight(vm, cfg, s, f);
    InvKnowsRef(vm, cfg, s, ref);
    HolderIsOnlyOwner(vm, cfg, s, f);
    assert ref !in s.heap;
    assert IdsOk(t) by {
      SameIdsAreOk(vm, cfg, s, s);
      hide FlightOk, EntryOk, TrackerOk, NewEntry;
    }
    hide IdsOk;
    assert EntryOk(t, ref) && TrackerOk(t, ref) && FlightOk(vm, t, t.flights[f]);
    hide FlightOk, EntryOk, TrackerOk, NewEntry;
    LocalStepKeepsInv(vm, cfg, s, t, f, Some(ref));
  }

  lemma ViewKeepsInv(vm: Vm, cfg: Settings, s: Sys, f: Fid)
    requires Inv(vm, cfg, s) && f in s.flights && DoView(s, f).Some?
    ensures Inv(vm, cfg, DoView(s, f).value)
  {
    assert s.flights[f].attached by {
      assert FlightOk(vm, s, s.flights[f]);
    }
    hide Inv, Move, Render;
    var Viewing(id, ref) := s.flights[f].phase;
    match Render(id, s.heap[ref], s.now)
    case Ok(view) => RefuseKeepsInv(vm, cfg, s, f, Responded(Shown(view)));
    case Err(e) => RefuseKeepsInv(vm, cfg, s, f, Responded(Refused(e)));
  }

  lemma CheckOwnerKeepsInv(vm: Vm, cfg: Settings, s: Sys, f: Fid)
    requires Inv(vm, cfg, s) && f in s.flights && DoCheckOwner(s, f).Some?
    ensures Inv(vm, cfg, DoCheckOwner(s, f).value)
  {
    assert s.flights[f].attached by {
      assert FlightOk(vm, s, s.flights[f]);
    }
    hide Inv, Move;
    var DeleteArrived(id) := s.flights[f].phase;
    if Visible(s, id, s.flights[f].caller) {
      MoveKeepsInv(vm, cfg, s, f, DeleteOwned(id));
    } else {
      RefuseKeepsInv(vm, cfg, s, f, Responded(Refused(SessionNotFound)));
    }
  }

  lemma RemoveIdKeepsInv(vm: Vm, cfg: Settings, s: Sys, f: Fid)
    requires Inv(vm, cfg, s) && f in s.flights && DoRemoveId(s, f).Some?
    ensures Inv(vm, cfg, DoRemoveId(s, f).value)
  {
    assert s.flights[f].attached by {
      assert FlightOk(vm, s, s.flights[f]);
    }
    hide Inv;
    var DeleteOwned(id) := s.flights[f].phase;
    if id in s.ids {
      RefuseKeepsInv(vm, cfg, s, f, Responded(Deleted));
      var t := Move(s, f, Responded(Deleted));
      FewerIdsKeepsInv(vm, cfg, t, t.(ids := t.ids - {id}));
    } else {
      RefuseKeepsInv(vm, cfg, s, f, Responded(Refused(SessionNotFound)));
    }
  }

  lemma TickKeepsInv(vm: Vm, cfg: Settings, s: Sys, now: nat)
    requires Inv(vm, cfg, s) && now > s.now
    ensures Inv(vm, cfg, s.(now := now))
  {
    var t := s.(now := now);
    forall r | r in t.heap ensures EntryOk(t, r) {
      assert EntryOk(s, r);
    }
    forall r | r in t.trackers ensures TrackerOk(t, r) {
      assert TrackerOk(s, r);
    }
    forall f | f in t.flights ensures FlightOk(vm, t, t.flights[f]) {
      assert FlightOk(vm, s, s.flights[f]);
    }
    assert PermitHolders(t) == PermitHolders(s);
  }

  lemma FewerIdsKeepsInv(vm: Vm, cfg: Settings, s: Sys, t: Sys)
    requires Inv(vm, cfg, s) && t == s.(ids := t.ids, reaper := t.reaper)
    requires forall id :: id in t.ids ==> id in s.ids && t.ids[id] == s.ids[id]
    ensures Inv(vm, cfg, t)
  {
    forall r | r in t.heap ensures EntryOk(t, r) {
      assert EntryOk(s, r);
    }
    forall r | r in t.trackers ensures TrackerOk(t, r) {
      assert TrackerOk(s, r);
    }
    forall f | f in t.flights ensures FlightOk(vm, t, t.flights[f]) {
      assert FlightOk(vm, s, s.flights[f]);
    }
    assert PermitHolders(t) == PermitHolders(s);
  }

  lemma ReapKeepsInv(vm: Vm, cfg: Settings, s: Sys, a: Action)
    requires Inv(vm, cfg, s) && DoReap(s, a).Some?
    ensures Inv(vm, cfg, DoReap(s, a).value)
  {
    var t := DoReap(s, a).value;
    assert t == s.(ids := t.ids, reaper := t.reaper);
    assert forall id :: id in t.ids ==> id in s.ids && t.ids[id] == s.ids[id];
    FewerIdsKeepsInv(vm, cfg, s, t);
  }

  // ---------------------------------------------------------------- every step, every run

  lemma NextKeepsInv(vm: Vm, cfg: Settings, s: Sys, a: Action)
    requires Settles(vm) && Inv(vm, cfg, s) && Next(vm, cfg, s, a).Some?
    ensures Inv(vm, cfg, Next(vm, cfg, s, a).value)
  {
    hide Inv, DoLookUp, DoAcquire, DoGrant, DoSpawn, DoBegin, DoFinish, DoPanic, DoCancel, DoCollect, DoInsert,
         DoView, DoCheckOwner, DoRemoveId, DoReap;
    match a
    case Tick(now) => TickKeepsInv(vm, cfg, s, now);
    case Arrive(f, caller, request) => ArriveKeepsInv(vm, cfg, s, f, caller, request);
    case LookUp(f) => LookUpKeepsInv(vm, cfg, s, f);
    case Acquire(f) => AcquireKeepsInv(vm, cfg, s, f);
    case Grant(f) => GrantKeepsInv(vm, cfg, s, f);
    case Spawn(f) => SpawnKeepsInv(vm, cfg, s, f);
    case Begin(f, ref, created) => BeginKeepsInv(vm, cfg, s, f, ref, created);
    case Finish(f, env, clocks) => FinishKeepsInv(vm, cfg, s, f, env, clocks);
    case Panic(f, hooks) => PanicKeepsInv(vm, cfg, s, f, hooks);
    case Cancel(f) => CancelKeepsInv(vm, cfg, s, f);
    case Collect(f) => CollectKeepsInv(vm, cfg, s, f);
    case Insert(f, id, builtAt) => InsertKeepsInv(vm, cfg, s, f, id, builtAt);
    case View(f) => ViewKeepsInv(vm, cfg, s, f);
    case CheckOwner(f) => CheckOwnerKeepsInv(vm, cfg, s, f);
    case RemoveId(f) => RemoveIdKeepsInv(vm, cfg, s, f);
    case _ => ReapKeepsInv(vm, cfg, s, a);
  }

  lemma InitSatisfiesInv(vm: Vm, cfg: Settings)
    ensures Inv(vm, cfg, Init(cfg))
  {
    assert PermitHolders(Init(cfg)) == {};
  }

  lemma {:induction false} RunKeepsInv(vm: Vm, cfg: Settings, s: Sys, actions: seq<Action>)
    requires Settles(vm) && Inv(vm, cfg, s) && Run(vm, cfg, s, actions).Some?
    ensures Inv(vm, cfg, Run(vm, cfg, s, actions).value)
  {
    hide Inv, Next;
    if actions != [] {
      RunKeepsInv(vm, cfg, s, actions[..|actions| - 1]);
      NextKeepsInv(vm, cfg, Run(vm, cfg, s, actions[..|actions| - 1]).value, actions[|actions| - 1]);
    }
  }

  lemma ReachableSatisfiesInv(vm: Vm, cfg: Settings, s: Sys)
    requires Settles(vm) && Reachable(vm, cfg, s)
    ensures Inv(vm, cfg, s)
  {
    hide Inv, Next;
    var actions :| Run(vm, cfg, Init(cfg), actions) == Some(s);
    InitSatisfiesInv(vm, cfg);
    RunKeepsInv(vm, cfg, Init(cfg), actions);
  }
}
