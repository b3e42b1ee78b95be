/** Runs, from the start, in which progress is lost, a refreshed session evicted, a response not the resume's own. */
module Races {
  import opened Wrappers
  import opened Tracker
  import opened Engine
  import opened Session
  import opened Api
  import opened Protocol
  import opened ProtocolTheorems
  import opened Losses
  import opened Responses
  import opened Walks

  function Ask(state: VmState, env: nat): Turn {
    Turn(Ok(NameLookup("x", state)), [Fragment(Stdout, if env == 0 then "a" else "b")], [])
  }

  /** An interpreter whose every program asks for a name over and over, and prints what it depends on. */
  function Asking(program: Program, state: VmState): Vm {
    Vm(source => Ok(program), (p: Program, env: nat) => Ask(state, env),
        (s: VmState, answer: Answer, env: nat) => Ask(state, env), s => 0)
  }

  lemma AskingIsPlain(program: Program, state: VmState)
    ensures Plain(Asking(program, state), program) && Settles(Asking(program, state))
  {
    PlainSettles(Asking(program, state), program);
  }

  ghost predicate Reaches(vm: Vm, cfg: Settings, actions: seq<Action>, s: Sys)
    requires Settles(vm)
  {
    Run(vm, cfg, Init(cfg), actions) == Some(s)
  }

  lemma ReachesOn(vm: Vm, cfg: Settings, actions: seq<Action>, s: Sys, a: Action, t: Sys)
    requires Settles(vm) && Reaches(vm, cfg, actions, s) && Next(vm, cfg, s, a) == Some(t)
    ensures Reaches(vm, cfg, actions + [a], t)
  {
    hide Next, Settles, Run;
    RunOne(vm, cfg, Init(cfg), actions, a);
  }

  // ---------------------------------------------------------------- one session, paused

  /** One session in the store, created by flight 0 at instant nought, with a lifetime of one. */
  function Home(vm: Vm, cfg: Settings, program: Program): Sys {
    Sys(0, map[0 := NewEntry("", 1, 0, FirstStep(vm, program))], map[0 := Tracked(FREE, 0, SLICE)], map[0 := 0], {0},
        map[0 := Flight(true, "", Created(0))], cfg.maxConcurrency, Resting)
  }

  lemma ReachesChecking(vm: Vm, cfg: Settings, program: Program) returns (actions: seq<Action>)
    requires Settles(vm) && Plain(vm, program) && cfg.maxConcurrency >= 1
    ensures Reaches(vm, cfg, actions, Checking(vm, program, Init(cfg), 0))
  {
    assert vm.compile("") == Ok(program);
    hide Next, Settles, Plain, Reaches, Checking, Started, With;
    var s := Init(cfg);
    var taken := s.(free := s.free - 1);
    StartsEmpty(vm, cfg);
    Arrives(vm, cfg, s, 0, Queued(JOB));
    ReachesOn(vm, cfg, [], s, Arrive(0, "", Queued(JOB)), With(s, 0, Queued(JOB)));
    actions := [] + [Arrive(0, "", Queued(JOB))];
    IsGranted(vm, cfg, s, 0, JOB);
    ReachesOn(vm, cfg, actions, With(s, 0, Queued(JOB)), Grant(0), With(taken, 0, Granted(JOB)));
    actions := actions + [Grant(0)];
    IsSpawned(vm, cfg, taken, 0, JOB);
    ReachesOn(vm, cfg, actions, With(taken, 0, Granted(JOB)), Spawn(0), With(taken, 0, Running(JOB, None)));
    actions := actions + [Spawn(0)];
    StartBegins(vm, cfg, program, s, 0);
    ReachesOn(vm, cfg, actions, With(taken, 0, Running(JOB, None)), Begin(0, 0, 0), Started(s, 0));
    actions := actions + [Begin(0, 0, 0)];
    StartFinishes(vm, cfg, program, s, 0);
    ReachesOn(vm, cfg, actions, Started(s, 0), Finish(0, 0, AT_ONCE), Checking(vm, program, s, 0));
    actions := actions + [Finish(0, 0, AT_ONCE)];
  }

  lemma StartsEmpty(vm: Vm, cfg: Settings)
    requires Settles(vm)
    ensures Reaches(vm, cfg, [], Init(cfg))
  {
    hide Next, Settles, Run;
    EmptyRun(vm, cfg, Init(cfg));
  }

  lemma ReachesHome(vm: Vm, cfg: Settings, program: Program) returns (actions: seq<Action>)
    requires Settles(vm) && Plain(vm, program) && cfg.maxSessions >= 1 && cfg.maxConcurrency >= 1
    ensures Reaches(vm, cfg, actions, Home(vm, cfg, program))
  {
    hide Next, Settles, Plain, Reaches, Checking, Admission, Home;
    var s := Init(cfg);
    actions := ReachesChecking(vm, cfg, program);
    CheckPasses(vm, cfg, program, s, 0);
    ReachesOn(vm, cfg, actions, Checking(vm, program, s, 0), Collect(0), Admission(vm, program, s, 0));
    actions := actions + [Collect(0)];
    InsertGoesHome(vm, cfg, program);
    ReachesOn(vm, cfg, actions, Admission(vm, program, s, 0), Insert(0, 0, 0), Home(vm, cfg, program));
    actions := actions + [Insert(0, 0, 0)];
  }

  lemma InsertGoesHome(vm: Vm, cfg: Settings, program: Program)
    requires Settles(vm)
    ensures Next(vm, cfg, Admission(vm, program, Init(cfg), 0), Insert(0, 0, 0)) == Some(Home(vm, cfg, program))
  {
    hide Next, Settles, FirstStep, FirstOrigin, NewEntry;
    var s := Admission(vm, program, Init(cfg), 0);
    FlightSteps(vm, cfg, s, Insert(0, 0, 0));
    assert s.flights[0 := Flight(true, "", Created(0))] == map[0 := Flight(true, "", Created(0))];
    assert map[][0 := NewEntry("", 1, 0, FirstStep(vm, program))]
        == map[0 := NewEntry("", 1, 0, FirstStep(vm, program))];
    assert s.trackers == map[0 := Tracked(FREE, 0, SLICE)] && s.issued + {0} == {0};
  }

  // ---------------------------------------------------------------- a resume

  /** Session 0 is there, paused, and at rest. */
  predicate Idles(s: Sys, state: VmState) {
    && 0 in s.ids && s.ids[0] == 0 && 0 in s.heap && 0 in s.trackers
    && s.heap[0].principal == "" && !s.heap[0].terminal && s.heap[0].progress == Some(NameLookup("x", state))
  }

  function Taken(s: Sys): Sys
    requires 0 in s.heap
  {
    s.(heap := s.heap[0 := s.heap[0].(progress := None)])
  }

  function Answering(state: VmState): Job {
    ResumeJob(0, 0, NameLookup("x", state), NameUndefined)
  }

  /** Flight `f`'s task has begun a segment with session 0's progress. */
  function Resuming(s: Sys, f: Fid, state: VmState): Sys
    requires 0 in s.heap && 0 in s.trackers && s.free >= 1
  {
    With(Taken(s), f, Running(Answering(state), Some(Begun(0, s.now))))
    .(trackers := s.trackers[0 := s.trackers[0].(events := s.trackers[0].events + [BeginSegment(s.now)])],
        free := s.free - 1)
  }

  lemma FindsAndTakes(vm: Vm, cfg: Settings, s: Sys, f: Fid, state: VmState)
    requires Settles(vm) && Idles(s, state)
    ensures var (arrived, found) := (ResumeArrived(0, NameUndefined), ResumeFound(0, 0, NameUndefined));
            && Next(vm, cfg, With(s, f, arrived), LookUp(f)) == Some(With(s, f, found))
            && Next(vm, cfg, With(s, f, found), Acquire(f)) == Some(With(Taken(s), f, Queued(Answering(state))))
  {
    hide Next, Settles, DoGrant, DoSpawn, DoBegin, DoFinish, DoPanic, DoCancel, DoCollect, DoInsert, DoView,
         DoCheckOwner, DoRemoveId;
    var (arrived, found) := (ResumeArrived(0, NameUndefined), ResumeFound(0, 0, NameUndefined));
    FlightSteps(vm, cfg, With(s, f, arrived), LookUp(f));
    FlightSteps(vm, cfg, With(s, f, found), Acquire(f));
    WithTwice(s, f, arrived, found);
    WithTwice(s, f, found, Queued(Answering(state)));
  }

  lemma ResumeTakes(vm: Vm, cfg: Settings, state: VmState, actions: seq<Action>, s: Sys, f: Fid)
    returns (longer: seq<Action>)
    requires Settles(vm) && Reaches(vm, cfg, actions, s) && Idles(s, state) && f !in s.flights
    ensures Reaches(vm, cfg, actions + longer, With(Taken(s), f, Queued(Answering(state))))
    ensures forall a :: a in longer ==> ActsOn(a, f)
  {
    hide Next, Settles, Reaches;
    var (arrived, found) := (ResumeArrived(0, NameUndefined), ResumeFound(0, 0, NameUndefined));
    Arrives(vm, cfg, s, f, arrived);
    FindsAndTakes(vm, cfg, s, f, state);
    longer := [Arrive(f, "", arrived), LookUp(f), Acquire(f)];
    ReachesOn(vm, cfg, actions, s, longer[0], With(s, f, arrived));
    ReachesOn(vm, cfg, actions + [longer[0]], With(s, f, arrived), longer[1], With(s, f, found));
    ReachesOn(vm, cfg, actions + [longer[0]] + [longer[1]], With(s, f, found), longer[2],
              With(Taken(s), f, Queued(Answering(state))));
    assert actions + [longer[0]] + [longer[1]] + [longer[2]] == actions + longer;
  }

  lemma ResumeBeginsNext(vm: Vm, cfg: Settings, s: Sys, f: Fid, state: VmState)
    requires Settles(vm) && Idles(s, state) && s.free >= 1
    ensures Next(vm, cfg, With(Taken(s).(free := s.free - 1), f, Running(Answering(state), None)), Begin(f, 0, 0))
            == Some(Resuming(s, f, state))
  {
    hide Next, Settles, DoLookUp, DoAcquire, DoGrant, DoSpawn, DoFinish, DoPanic, DoCancel, DoCollect, DoInsert, DoView,
         DoCheckOwner, DoRemoveId;
    FlightSteps(vm, cfg, With(Taken(s).(free := s.free - 1), f, Running(Answering(state), None)), Begin(f, 0, 0));
    WithTwice(Taken(s), f, Running(Answering(state), None), Running(Answering(state), Some(Begun(0, s.now))));
  }

  lemma ResumeBegins(vm: Vm, cfg: Settings, state: VmState, actions: seq<Action>, s: Sys, f: Fid)
    returns (longer: seq<Action>)
    requires Settles(vm) && Reaches(vm, cfg, actions, s) && Idles(s, state) && f !in s.flights && s.free >= 1
    ensures Reaches(vm, cfg, actions + longer, Resuming(s, f, state))
    ensures forall a :: a in longer ==> ActsOn(a, f)
  {
    hide Next, Settles, Reaches, Resuming, Answering;
    var job := Answering(state);
    var (queued, held) := (Taken(s), Taken(s).(free := s.free - 1));
    var takes := ResumeTakes(vm, cfg, state, actions, s, f);
    IsGranted(vm, cfg, queued, f, job);
    IsSpawned(vm, cfg, held, f, job);
    ResumeBeginsNext(vm, cfg, s, f, state);
    var before := actions + takes;
    ReachesOn(vm, cfg, before, With(queued, f, Queued(job)), Grant(f), With(held, f, Granted(job)));
    ReachesOn(vm, cfg, before + [Grant(f)], With(held, f, Granted(job)), Spawn(f), With(held, f, Running(job, None)));
    ReachesOn(vm, cfg, before + [Grant(f)] + [Spawn(f)], With(held, f, Running(job, None)), Begin(f, 0, 0),
              Resuming(s, f, state));
    longer := takes + [Grant(f), Spawn(f), Begin(f, 0, 0)];
    assert before + [Grant(f)] + [Spawn(f)] + [Begin(f, 0, 0)] == actions + longer;
  }

  /** The step that a slice of `Asking` ends in. */
  function AskStep(state: VmState, env: nat, tracker: Tracked, now: nat): SessionStep {
    FinishStep(Ask(state, env), CountersOf(tracker), now)
  }

  lemma AskStepAsks(state: VmState, env: nat, tracker: Tracked, now: nat)
    ensures var step := AskStep(state, env, tracker, now);
            && step.StepPaused? && step.progress == NameLookup("x", state)
            && step.output == Output(if env == 0 then "a" else "b", "")
  {
    var fragments := [Fragment(Stdout, if env == 0 then "a" else "b")];
    assert fragments[..0] == [];
    assert TextOn(Stdout, fragments) == "" + (if env == 0 then "a" else "b");
    assert TextOn(Stderr, fragments) == "" + "";
  }

  /** Flight `f`'s task, begun at `at`, has returned with a step, now. */
  function Stepped(s: Sys, f: Fid, state: VmState, at: nat, env: nat): Sys
    requires 0 in s.trackers
  {
    var grown := s.trackers[0].(events := s.trackers[0].events + [EndSegment(s.now, s.now)]);
    var step := AskStep(state, env, grown, s.now);
    With(s, f, Returned(DidStep(0, 0, step, Reply(NameUndefined, env, Clocks(at, s.now, s.now, s.now)))))
    .(trackers := s.trackers[0 := grown], free := s.free + 1)
  }

  lemma ResumeRecords(s: Sys, f: Fid, state: VmState, at: nat, env: nat)
    requires 0 in s.trackers && f in s.flights
             && s.flights[f] == Flight(true, "", Running(Answering(state), Some(Begun(0, at))))
    ensures var recorded := Record(s, 0, [EndSegment(s.now, s.now)]);
            var step := AskStep(state, env, recorded.trackers[0], s.now);
            Deliver(recorded, f, DidStep(0, 0, step, Reply(NameUndefined, env, Clocks(at, s.now, s.now, s.now))))
            == Stepped(s, f, state, at, env)
  {
    hide AskStep;
  }

  lemma AskingTurns(program: Program, state: VmState, env: nat)
    ensures Matches(NameLookup("x", state), NameUndefined) && PlainTurn(Ask(state, env))
    ensures ApplyResume(Asking(program, state), NameLookup("x", state), NameUndefined, env) == Ask(state, env)
  {
  }

  lemma ResumeFinishes(vm: Vm, cfg: Settings, program: Program, state: VmState, s: Sys, f: Fid, at: nat, env: nat)
    requires vm == Asking(program, state) && Settles(vm) && 0 in s.trackers && at <= s.now && f in s.flights
    requires s.flights[f] == Flight(true, "", Running(Answering(state), Some(Begun(0, at))))
    ensures Next(vm, cfg, s, Finish(f, env, Clocks(at, s.now, s.now, s.now))) == Some(Stepped(s, f, state, at, env))
  {
    hide Next, Settles, FinishStep, CountersOf, DoFinish, ApplyResume, Asking, Ask, Matches, PlainTurn, Deliver,
         Stepped;
    AskingTurns(program, state, env);
    var clocks := Clocks(at, s.now, s.now, s.now);
    var grown := Record(s, 0, [EndSegment(s.now, s.now)]).trackers[0];
    var result := DidStep(0, 0, AskStep(state, env, grown, s.now), Reply(NameUndefined, env, clocks));
    FinishRecords(vm, s, f, Answering(state), Begun(0, at), Ask(state, env), env, clocks, result);
    FlightSteps(vm, cfg, s, Finish(f, env, clocks));
    ResumeRecords(s, f, state, at, env);
  }

  /** Storing that step leaves the session at rest again, with its own new lifetime. */
  lemma CollectStores(vm: Vm, cfg: Settings, s: Sys, f: Fid, state: VmState, at: nat, env: nat)
    requires Settles(vm) && 0 in s.trackers && 0 in s.heap && f in s.flights
    ensures var (u, grown) := (Stepped(s, f, state, at, env), Stepped(s, f, state, at, env).trackers[0]);
            Next(vm, cfg, u, Collect(f))
            == Some(With(s, f, Viewing(0, 0)).(
                 heap := s.heap[0 := Stored(s.heap[0], AskStep(state, env, grown, s.now), s.now)],
                 trackers := u.trackers, free := s.free + 1))
  {
    hide Next, Settles, AskStep, DoLookUp, DoAcquire, DoGrant, DoSpawn, DoBegin, DoFinish, DoPanic, DoCancel,
         DoInsert, DoView, DoCheckOwner, DoRemoveId, Stored;
    var u := Stepped(s, f, state, at, env);
    FlightSteps(vm, cfg, u, Collect(f));
    WithTwice(s, f, u.flights[f].phase, Viewing(0, 0));
  }

  // ---------------------------------------------------------------- progress lost

  lemma HomeIdles(cfg: Settings, program: Program, state: VmState)
    ensures Idles(Home(Asking(program, state), cfg, program), state)
  {
    AskStepAsks(state, 0, Tracked(FREE, 0, SLICE), 0);
  }

  lemma CancelDrops(vm: Vm, cfg: Settings, s: Sys, f: Fid, job: Job)
    requires Settles(vm)
    ensures Next(vm, cfg, With(s, f, Queued(job)), Cancel(f)) == Some(With(s, f, Gone))
  {
    hide Next, Settles, DoLookUp, DoAcquire, DoGrant, DoSpawn, DoBegin, DoFinish, DoPanic, DoCollect, DoInsert, DoView,
         DoCheckOwner, DoRemoveId;
    FlightSteps(vm, cfg, With(s, f, Queued(job)), Cancel(f));
    WithTwice(s, f, Queued(job), Gone);
  }

  /** A run in which a session, still in the store, loses its progress: its resume times out waiting for a permit. */
  lemma ProgressCanBeLost(cfg: Settings, program: Program, state: VmState) returns (actions: seq<Action>)
    requires cfg.maxSessions >= 1 && cfg.maxConcurrency >= 1
    ensures Settles(Asking(program, state)) && Run(Asking(program, state), cfg, Init(cfg), actions).Some?
    ensures var t := Run(Asking(program, state), cfg, Init(cfg), actions).value;
            0 in t.ids && Lost(t, t.ids[0])
  {
    var vm := Asking(program, state);
    AskingIsPlain(program, state);
    HomeIdles(cfg, program, state);
    hide Next, Settles, Plain, Asking, Run, FirstStep;
    var home := Home(vm, cfg, program);
    var before := ReachesHome(vm, cfg, program);
    var takes := ResumeTakes(vm, cfg, state, before, home, 1);
    CancelDrops(vm, cfg, Taken(home), 1, Answering(state));
    ReachesOn(vm, cfg, before + takes, With(Taken(home), 1, Queued(Answering(state))), Cancel(1),
        With(Taken(home), 1, Gone));
    actions := before + takes + [Cancel(1)];
  }

  // ---------------------------------------------------------------- a refreshed session evicted

  lemma Ticks(vm: Vm, cfg: Settings, s: Sys)
    requires Settles(vm)
    ensures Next(vm, cfg, s, Tick(s.now + 1)) == Some(s.(now := s.now + 1))
  {
    TickSteps(vm, cfg, s, s.now + 1);
  }

  /** A resume that begins at instant nought returns with its step at instant one, when its session has expired. */
  lemma ResumeOvertime(vm: Vm, cfg: Settings, program: Program, state: VmState) returns (actions: seq<Action>, s: Sys)
    requires vm == Asking(program, state) && Settles(vm) && Plain(vm, program)
    requires cfg.maxSessions >= 1 && cfg.maxConcurrency >= 1
    ensures 0 in s.trackers && 0 in s.heap && 1 in s.flights
    ensures Reaches(vm, cfg, actions, Stepped(s, 1, state, 0, 0))
    ensures s.ids == map[0 := 0] && s.reaper == Resting && s.now == 1 && s.heap[0].expiresAt == 1 && s.heap[0].ttl == 1
  {
    HomeIdles(cfg, program, state);
    var home := Home(vm, cfg, program);
    s := Resuming(home, 1, state).(now := 1);
    hide Next, Settles, Plain, Asking, Reaches, FirstStep, Stepped;
    var before := ReachesHome(vm, cfg, program);
    var begins := ResumeBegins(vm, cfg, state, before, home, 1);
    Ticks(vm, cfg, Resuming(home, 1, state));
    ReachesOn(vm, cfg, before + begins, Resuming(home, 1, state), Tick(1), s);
    ResumeFinishes(vm, cfg, program, state, s, 1, 0, 0);
    ReachesOn(vm, cfg, before + begins + [Tick(1)], s, Finish(1, 0, Clocks(0, 1, 1, 1)), Stepped(s, 1, state, 0, 0));
    actions := before + begins + [Tick(1)] + [Finish(1, 0, Clocks(0, 1, 1, 1))];
  }

  /** A scan of the one expired session. */
  lemma ScansTheOne(vm: Vm, cfg: Settings, actions: seq<Action>, s: Sys) returns (longer: seq<Action>)
    requires Settles(vm) && Reaches(vm, cfg, actions, s)
    requires s.ids == map[0 := 0] && s.reaper == Resting && ExpiredId(s, 0, s.now)
    ensures Reaches(vm, cfg, longer, s.(reaper := Removing(s.now, {0})))
  {
    hide Next, Settles, Reaches;
    var started := s.(reaper := Scanning(s.now, {0}, {}, {}));
    var visited := s.(reaper := Scanning(s.now, {0}, {0}, {0}));
    var sealed := s.(reaper := Removing(s.now, {0}));
    ReapSteps(vm, cfg, s, ReapStart);
    assert s.ids.Keys == {0};
    ReachesOn(vm, cfg, actions, s, ReapStart, started);
    ReapSteps(vm, cfg, started, ReapVisit(0));
    assert {} + {0} == {0};
    ReachesOn(vm, cfg, actions + [ReapStart], started, ReapVisit(0), visited);
    ReapSteps(vm, cfg, visited, ReapSeal);
    ReachesOn(vm, cfg, actions + [ReapStart] + [ReapVisit(0)], visited, ReapSeal, sealed);
    longer := actions + [ReapStart] + [ReapVisit(0)] + [ReapSeal];
  }

  /**
   A run in which the reaper finds a session expired, a resume that was already running refreshes
   it, and the reaper removes it all the same, with its whole lifetime ahead of it.
   */
  lemma RefreshedSessionIsEvicted(cfg: Settings, program: Program, state: VmState) returns (actions: seq<Action>)
    requires cfg.maxSessions >= 1 && cfg.maxConcurrency >= 1
    ensures Settles(Asking(program, state)) && Run(Asking(program, state), cfg, Init(cfg), actions).Some?
    ensures var s := Run(Asking(program, state), cfg, Init(cfg), actions).value;
            && 0 in s.ids && s.ids[0] in s.heap && !Expired(s.heap[s.ids[0]], s.now)
            && Next(Asking(program, state), cfg, s, ReapRemove(0)).Some?
            && 0 !in Next(Asking(program, state), cfg, s, ReapRemove(0)).value.ids
  {
    var vm := Asking(program, state);
    AskingIsPlain(program, state);
    hide Next, Settles, Plain, Asking, Run, AskStep;
    var returned, s := ResumeOvertime(vm, cfg, program, state);
    actions := ScansTheOne(vm, cfg, returned, Stepped(s, 1, state, 0, 0));
    var sealed := s.(reaper := Removing(1, {0}));
    assert Stepped(s, 1, state, 0, 0).(reaper := Removing(1, {0})) == Stepped(sealed, 1, state, 0, 0);
    CollectStores(vm, cfg, sealed, 1, state, 0, 0);
    var stored := Next(vm, cfg, Stepped(sealed, 1, state, 0, 0), Collect(1)).value;
    ReachesOn(vm, cfg, actions, Stepped(sealed, 1, state, 0, 0), Collect(1), stored);
    actions := actions + [Collect(1)];
    ReapSteps(vm, cfg, stored, ReapRemove(0));
  }

  // ---------------------------------------------------------------- a response that is not the resume's own

  /** A resume by flight 1 returns with its step at once. */
  lemma ResumeAtOnce(vm: Vm, cfg: Settings, program: Program, state: VmState, actions: seq<Action>, s: Sys, f: Fid,
    env: nat)
    returns (longer: seq<Action>)
    requires vm == Asking(program, state) && Settles(vm)
    requires Reaches(vm, cfg, actions, s) && Idles(s, state) && f !in s.flights && s.free >= 1
    ensures Reaches(vm, cfg, actions + longer, Stepped(Resuming(s, f, state), f, state, s.now, env))
    ensures forall a :: a in longer ==> ActsOn(a, f)
  {
    hide Next, Settles, Asking, Reaches, Stepped;
    var begins := ResumeBegins(vm, cfg, state, actions, s, f);
    var u := Resuming(s, f, state);
    ResumeFinishes(vm, cfg, program, state, u, f, s.now, env);
    ReachesOn(vm, cfg, actions + begins, u, Finish(f, env, Clocks(s.now, s.now, s.now, s.now)),
        Stepped(u, f, state, s.now, env));
    longer := begins + [Finish(f, env, Clocks(s.now, s.now, s.now, s.now))];
    assert actions + begins + [Finish(f, env, Clocks(s.now, s.now, s.now, s.now))] == actions + longer;
  }

  /** Flight `f`'s step has been stored, and its response is still to be rendered. */
  function StoredBy(s: Sys, f: Fid, state: VmState, env: nat): Sys
    requires 0 in s.heap && 0 in s.trackers && s.free >= 1
  {
    var u := Resuming(s, f, state);
    var stepped := Stepped(u, f, state, s.now, env);
    With(u, f, Viewing(0, 0)).(
      heap := u.heap[0 := Stored(u.heap[0], AskStep(state, env, stepped.trackers[0], s.now), s.now)],
      trackers := stepped.trackers, free := s.free)
  }

  lemma StoresAtOnce(vm: Vm, cfg: Settings, program: Program, state: VmState, actions: seq<Action>, s: Sys, f: Fid,
    env: nat)
    returns (longer: seq<Action>)
    requires vm == Asking(program, state) && Settles(vm)
    requires Reaches(vm, cfg, actions, s) && Idles(s, state) && f !in s.flights && s.free >= 1
    ensures Reaches(vm, cfg, actions + longer, Stepped(Resuming(s, f, state), f, state, s.now, env))
    ensures Reaches(vm, cfg, actions + longer + [Collect(f)], StoredBy(s, f, state, env))
    ensures forall a :: a in longer ==> ActsOn(a, f)
  {
    hide Next, Settles, Asking, Reaches, Stepped, AskStep, Stored;
    longer := ResumeAtOnce(vm, cfg, program, state, actions, s, f, env);
    var u := Resuming(s, f, state);
    CollectStores(vm, cfg, u, f, state, s.now, env);
    ReachesOn(vm, cfg, actions + longer, Stepped(u, f, state, s.now, env), Collect(f), StoredBy(s, f, state, env));
  }

  /** What the stored session is like: at rest again, showing what the slice printed. */
  lemma StoredIdles(s: Sys, f: Fid, state: VmState, env: nat)
    requires Idles(s, state) && s.free >= 1
    ensures var t := StoredBy(s, f, state, env);
            && Idles(t, state) && t.free == s.free && t.now == s.now && t.ids == s.ids
            && t.flights == s.flights[f := Flight(true, "", Viewing(0, 0))]
            && t.heap[0].snapshot.Paused? && t.heap[0].snapshot.output == Output(if env == 0 then "a" else "b", "")
  {
    var tracker := Stepped(Resuming(s, f, state), f, state, s.now, env).trackers[0];
    AskStepAsks(state, env, tracker, s.now);
    hide AskStep;
    WithTwice(Taken(s), f, Running(Answering(state), Some(Begun(0, s.now))), Viewing(0, 0));
  }

  /** What flight 1's own step shows. */
  lemma OwnStepShows(s: Sys, state: VmState)
    requires Idles(s, state) && s.free >= 1
    ensures var u := Stepped(Resuming(s, 1, state), 1, state, s.now, 0);
            && 1 in u.flights && u.flights[1].phase.Returned? && u.flights[1].phase.result.DidStep?
            && var own := Rendered(u.flights[1].phase.result.step);
               own.Ok? && own.value.ShowsPause? && own.value.output == Output("a", "")
  {
    AskStepAsks(state, 0, Stepped(Resuming(s, 1, state), 1, state, s.now, 0).trackers[0], s.now);
    hide AskStep;
  }

  /** The view of session 0 by a flight that waits to render it. */
  lemma ViewShows(vm: Vm, cfg: Settings, s: Sys, state: VmState, f: Fid)
    requires Settles(vm) && f in s.flights && s.flights[f].phase == Viewing(0, 0) && 0 in s.heap
    requires s.heap[0].snapshot.Paused?
             && (s.heap[0].progress.Some? ==> s.heap[0].progress == Some(NameLookup("x", state)))
    ensures Next(vm, cfg, s, View(f)).Some?
    ensures var t := Next(vm, cfg, s, View(f)).value;
            && f in t.flights && t.flights[f].phase.Responded?
            && var response := t.flights[f].phase.response;
               if s.heap[0].progress.None? then response == Refused(Internal)
               else
                 && response.Shown? && response.view.state.ShowsPause?
                 && response.view.state.output == s.heap[0].snapshot.output
  {
    hide Next, Settles, DoLookUp, DoAcquire, DoGrant, DoSpawn, DoBegin, DoFinish, DoPanic, DoCancel, DoCollect,
         DoInsert, DoCheckOwner, DoRemoveId;
    FlightSteps(vm, cfg, s, View(f));
  }

  /** Flight 1's resume has stored its step, which prints one thing, and waits to render its response. */
  lemma FirstStored(cfg: Settings, program: Program, state: VmState) returns (before: seq<Action>, stored: Sys)
    requires cfg.maxSessions >= 1 && cfg.maxConcurrency >= 1
    ensures Settles(Asking(program, state)) && Run(Asking(program, state), cfg, Init(cfg), before).Some?
    ensures var s := Run(Asking(program, state), cfg, Init(cfg), before).value;
            && 1 in s.flights && s.flights[1].phase.Returned? && s.flights[1].phase.result.DidStep?
            && var own := Rendered(s.flights[1].phase.result.step);
               own.Ok? && own.value.ShowsPause? && own.value.output == Output("a", "")
    ensures Reaches(Asking(program, state), cfg, before + [Collect(1)], stored)
    ensures Idles(stored, state) && stored.free >= 1 && 2 !in stored.flights
    ensures 1 in stored.flights && stored.flights[1].phase == Viewing(0, 0) && stored.heap[0].snapshot.Paused?
  {
    var vm := Asking(program, state);
    AskingIsPlain(program, state);
    HomeIdles(cfg, program, state);
    hide Next, Settles, Plain, Asking, Run, FirstStep, StoredBy, Stepped, Resuming, Idles, Rendered;
    var home := Home(vm, cfg, program);
    var start := ReachesHome(vm, cfg, program);
    var resume := StoresAtOnce(vm, cfg, program, state, start, home, 1, 0);
    before := start + resume;
    stored := StoredBy(home, 1, state, 0);
    OwnStepShows(home, state);
    StoredIdles(home, 1, state, 0);
    IdlesPaused(stored, state);
  }

  /**
   A run in which a response does not show the step that its own resume stored: another resume of
   the session stores a different one first.
   */
  lemma ResponseMayShowALaterStep(cfg: Settings, program: Program, state: VmState)
    returns (before: seq<Action>, race: seq<Action>)
    requires cfg.maxSessions >= 1 && cfg.maxConcurrency >= 1
    ensures Settles(Asking(program, state)) && Run(Asking(program, state), cfg, Init(cfg), before).Some?
    ensures var s := Run(Asking(program, state), cfg, Init(cfg), before).value;
            1 in s.flights && s.flights[1].phase.Returned? && s.flights[1].phase.result.DidStep?
    ensures var own := Run(Asking(program, state), cfg, Init(cfg), before).value.flights[1].phase.result.step;
            var raced := Run(Asking(program, state), cfg, Init(cfg), before + [Collect(1)] + race + [View(1)]);
            && raced.Some? && 1 in raced.value.flights && raced.value.flights[1].phase.Responded?
            && raced.value.flights[1].phase.response.Shown?
            && Ok(raced.value.flights[1].phase.response.view.state) != Rendered(own)
    ensures forall a :: a in race ==> ActsOn(a, 2)
  {
    hide Next, Settles, Plain, Asking, Run, StoredBy, Stepped, Resuming, Idles, Rendered;
    var vm := Asking(program, state);
    var stored;
    before, stored := FirstStored(cfg, program, state);
    var again := StoresAtOnce(vm, cfg, program, state, before + [Collect(1)], stored, 2, 1);
    race := again + [Collect(2)];
    assert before + [Collect(1)] + again + [Collect(2)] == before + [Collect(1)] + race;
    IdlesPaused(stored, state);
    StoredIdles(stored, 2, state, 1);
    var raced := StoredBy(stored, 2, state, 1);
    IdlesPaused(raced, state);
    ViewShows(vm, cfg, raced, state, 1);
    ReachesOn(vm, cfg, before + [Collect(1)] + race, raced, View(1), Next(vm, cfg, raced, View(1)).value);
  }

  lemma IdlesPaused(s: Sys, state: VmState)
    requires Idles(s, state)
    ensures 0 in s.heap && 0 in s.trackers && s.heap[0].progress == Some(NameLookup("x", state))
  {
  }

  /** And a run in which it shows nothing: another resume has the progress out. */
  lemma ResponseMayFindProgressTaken(cfg: Settings, program: Program, state: VmState)
    returns (before: seq<Action>, race: seq<Action>)
    requires cfg.maxSessions >= 1 && cfg.maxConcurrency >= 1
    ensures Settles(Asking(program, state)) && Run(Asking(program, state), cfg, Init(cfg), before).Some?
    ensures var s := Run(Asking(program, state), cfg, Init(cfg), before).value;
            1 in s.flights && s.flights[1].phase.Returned? && s.flights[1].phase.result.DidStep?
    ensures var raced := Run(Asking(program, state), cfg, Init(cfg), before + [Collect(1)] + race + [View(1)]);
            raced.Some? && 1 in raced.value.flights && raced.value.flights[1].phase == Responded(Refused(Internal))
    ensures forall a :: a in race ==> ActsOn(a, 2)
  {
    hide Next, Settles, Plain, Asking, Run, Answering, Idles;
    var vm := Asking(program, state);
    var stored;
    before, stored := FirstStored(cfg, program, state);
    IdlesPaused(stored, state);
    race := ResumeTakes(vm, cfg, state, before + [Collect(1)], stored, 2);
    var raced := With(Taken(stored), 2, Queued(Answering(state)));
    ViewShows(vm, cfg, raced, state, 1);
    ReachesOn(vm, cfg, before + [Collect(1)] + race, raced, View(1), Next(vm, cfg, raced, View(1)).value);
  }
}
