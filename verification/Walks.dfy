/**
 Steps of undisturbed requests, one by one, for building runs that exhibit something: a creation
 and a resume of a program whose turns call no hooks and make no OS calls.
 */
module Walks {
  import opened Wrappers
  import opened Tracker
  import opened Engine
  import opened Protocol

  const FREE: Limits := Limits(None, None, None, None)

  const AT_ONCE: Clocks := Clocks(0, 0, 0, 0)

  const SLICE: seq<Event> := [BeginSegment(0), EndSegment(0, 0)]

  const JOB: Job := StartJob(1, FREE, "")

  predicate PlainTurn(turn: Turn) {
    !AtOs(turn) && turn.hooks == []
  }

  ghost predicate Plain(vm: Vm, program: Program) {
    && vm.compile("") == Ok(program)
    && (forall env :: PlainTurn(vm.start(program, env)))
    && (forall s, answer, env :: PlainTurn(vm.resume(s, answer, env)))
  }

  lemma PlainSettles(vm: Vm, program: Program)
    requires Plain(vm, program)
    ensures Settles(vm)
  {
    forall s: VmState, env: nat ensures !AtOs(vm.resume(s, DENIED, env)) {
      assert PlainTurn(vm.resume(s, DENIED, env));
    }
  }

  lemma PlainTurnSettles(vm: Vm, turn: Turn, env: nat, at: nat, until: nat)
    requires Settles(vm) && PlainTurn(turn) && at <= until
    ensures Settled(vm, turn, env) == turn && HooksRun(turn.hooks, at, until)
  {
    hide Settles;
  }

  /** Flight `f`, of a caller without a name, stands in this phase, everything else as in `s`. */
  function With(s: Sys, f: Fid, phase: Phase): Sys {
    s.(flights := s.flights[f := Flight(true, "", phase)])
  }

  lemma Arrives(vm: Vm, cfg: Settings, s: Sys, f: Fid, request: Phase)
    requires Settles(vm) && f !in s.flights && IsArrival(request)
    ensures Next(vm, cfg, s, Arrive(f, "", request)) == Some(With(s, f, request))
  {
    hide Settles, IsArrival;
  }

  lemma WithTwice(s: Sys, f: Fid, before: Phase, after: Phase)
    ensures With(With(s, f, before), f, after) == With(s, f, after)
  {
    assert With(s, f, before).flights[f := Flight(true, "", after)] == With(s, f, after).flights;
  }

  lemma IsGranted(vm: Vm, cfg: Settings, s: Sys, f: Fid, job: Job)
    requires Settles(vm) && s.free >= 1
    ensures Next(vm, cfg, With(s, f, Queued(job)), Grant(f)) == Some(With(s.(free := s.free - 1), f, Granted(job)))
  {
    hide Next, Settles, DoLookUp, DoAcquire, DoFinish, DoPanic, DoCancel, DoCollect, DoInsert, DoView, DoCheckOwner,
         DoRemoveId, DoBegin, DoSpawn;
    FlightSteps(vm, cfg, With(s, f, Queued(job)), Grant(f));
    WithTwice(s, f, Queued(job), Granted(job));
  }

  lemma IsSpawned(vm: Vm, cfg: Settings, s: Sys, f: Fid, job: Job)
    requires Settles(vm)
    ensures Next(vm, cfg, With(s, f, Granted(job)), Spawn(f)) == Some(With(s, f, Running(job, None)))
  {
    hide Next, Settles, DoLookUp, DoAcquire, DoFinish, DoPanic, DoCancel, DoCollect, DoInsert, DoView, DoCheckOwner,
         DoRemoveId, DoBegin, DoGrant;
    FlightSteps(vm, cfg, With(s, f, Granted(job)), Spawn(f));
    WithTwice(s, f, Granted(job), Running(job, None));
  }

  // ---------------------------------------------------------------- a creation, at instant nought

  function FirstStep(vm: Vm, program: Program): SessionStep {
    FinishStep(vm.start(program, 0), CountersOf(Tracked(FREE, 0, SLICE)), 0)
  }

  function FirstOrigin(program: Program): Origin {
    Origin(program, FREE, 0, 0, AT_ONCE)
  }

  /** Creator `f` has passed the length check. */
  function Waiting(vm: Vm, program: Program, f: Fid): (phase: Phase)
    ensures phase.Admitted? && phase.since == 0
  {
    Admitted(1, f, FirstStep(vm, program), FirstOrigin(program), 0)
  }

  function FirstResult(vm: Vm, program: Program, f: Fid): JobResult {
    DidStart(1, f, FirstStep(vm, program), FirstOrigin(program))
  }

  /** Creator `f`'s task has begun. */
  function Started(s: Sys, f: Fid): Sys
    requires s.free >= 1
  {
    With(s, f, Running(JOB, Some(Begun(f, 0))))
    .(trackers := s.trackers[f := Tracked(FREE, 0, [BeginSegment(0)])], free := s.free - 1)
  }

  /** Creator `f`'s task has finished, and its handler is about to check the store's length. */
  function Checking(vm: Vm, program: Program, s: Sys, f: Fid): Sys {
    With(s, f, Returned(FirstResult(vm, program, f))).(trackers := s.trackers[f := Tracked(FREE, 0, SLICE)])
  }

  /** Creator `f` has passed the length check, everything else as in `s`. */
  function Admission(vm: Vm, program: Program, s: Sys, f: Fid): Sys {
    With(s, f, Waiting(vm, program, f)).(trackers := s.trackers[f := Tracked(FREE, 0, SLICE)])
  }

  lemma StartBegins(vm: Vm, cfg: Settings, program: Program, s: Sys, f: Fid)
    requires Settles(vm) && vm.compile("") == Ok(program) && s.now == 0 && f !in s.trackers && s.free >= 1
    ensures Next(vm, cfg, With(s.(free := s.free - 1), f, Running(JOB, None)), Begin(f, f, 0)) == Some(Started(s, f))
  {
    hide Next, Settles, DoLookUp, DoAcquire, DoFinish, DoPanic, DoCancel, DoCollect, DoInsert, DoView, DoCheckOwner,
         DoRemoveId, DoGrant, DoSpawn;
    var u := With(s.(free := s.free - 1), f, Running(JOB, None));
    FlightSteps(vm, cfg, u, Begin(f, f, 0));
    WithTwice(s, f, Running(JOB, None), Running(JOB, Some(Begun(f, 0))));
  }

  /** What a finishing task leaves behind, when its program's turn is plain. */
  lemma FinishRecords(vm: Vm, s: Sys, f: Fid, job: Job, b: Begun, turn: Turn, env: nat, clocks: Clocks,
    result: JobResult)
    requires Settles(vm) && f in s.flights && s.flights[f].phase == Running(job, Some(b)) && b.ref in s.trackers
    requires ClocksRun(clocks, b.at, s.now) && PlainTurn(turn)
    requires job.ResumeJob? ==>
             Matches(job.progress, job.input) && turn == ApplyResume(vm, job.progress, job.input, env)
    requires job.StartJob? ==> vm.compile(job.source).Ok? && turn == vm.start(vm.compile(job.source).value, env)
    requires var grown := Record(s, b.ref, [EndSegment(clocks.end, clocks.restart)]).trackers[b.ref];
             var step := FinishStep(turn, CountersOf(grown), clocks.stats);
             match job
             case ResumeJob(id, r, _, input) => result == DidStep(id, r, step, Reply(input, env, clocks))
             case StartJob(ttl, limits, source) =>
               result == DidStart(ttl, b.ref, step,
                                  Origin(vm.compile(source).value, limits, s.trackers[b.ref].created, env, clocks))
             case OtherJob => false
    ensures DoFinish(vm, s, f, env, clocks)
            == Some(Deliver(Record(s, b.ref, [EndSegment(clocks.end, clocks.restart)]), f, result))
  {
    hide Settles, Settled, HooksRun, FinishStep, CountersOf, ApplyResume, Matches;
    PlainTurnSettles(vm, turn, env, b.at, clocks.end);
    assert turn.hooks + [EndSegment(clocks.end, clocks.restart)] == [EndSegment(clocks.end, clocks.restart)];
  }

  lemma StartRecords(vm: Vm, program: Program, s: Sys, f: Fid)
    requires s.free >= 1
    ensures var recorded := Record(Started(s, f), f, [EndSegment(0, 0)]);
            && recorded.trackers[f] == Tracked(FREE, 0, SLICE)
            && Deliver(recorded, f, FirstResult(vm, program, f)) == Checking(vm, program, s, f)
  {
    hide FirstResult;
    assert [BeginSegment(0)] + [EndSegment(0, 0)] == SLICE;
    var recorded := Record(Started(s, f), f, [EndSegment(0, 0)]);
    assert recorded.trackers == s.trackers[f := Tracked(FREE, 0, SLICE)];
    WithTwice(s, f, Running(JOB, Some(Begun(f, 0))), Returned(FirstResult(vm, program, f)));
  }

  lemma StartFinishes(vm: Vm, cfg: Settings, program: Program, s: Sys, f: Fid)
    requires Settles(vm) && Plain(vm, program) && s.now == 0 && s.free >= 1
    ensures Next(vm, cfg, Started(s, f), Finish(f, 0, AT_ONCE)) == Some(Checking(vm, program, s, f))
  {
    assert PlainTurn(vm.start(program, 0)) && vm.compile("") == Ok(program);
    hide Next, Settles, FinishStep, CountersOf, Plain, DoFinish, PlainTurn, Record, Deliver, Checking;
    StartRecords(vm, program, s, f);
    FinishRecords(vm, Started(s, f), f, JOB, Begun(f, 0), vm.start(program, 0), 0, AT_ONCE,
        FirstResult(vm, program, f));
    FlightSteps(vm, cfg, Started(s, f), Finish(f, 0, AT_ONCE));
  }

  lemma CheckPasses(vm: Vm, cfg: Settings, program: Program, s: Sys, f: Fid)
    requires Settles(vm) && s.now == 0 && |s.ids| < cfg.maxSessions
    ensures Next(vm, cfg, Checking(vm, program, s, f), Collect(f)) == Some(Admission(vm, program, s, f))
  {
    hide Next, FirstStep, FirstOrigin, Settles;
    FlightSteps(vm, cfg, Checking(vm, program, s, f), Collect(f));
    WithTwice(s, f, Returned(FirstResult(vm, program, f)), Waiting(vm, program, f));
  }
}
