/**
 The synchronous bridge to the interpreter. The interpreter itself is a parameter: a
 `Vm` says what compiling, starting and resuming do. One turn of the interpreter runs to
 its next pause, result or exception, and reports the text it printed and the tracker
 hooks it called. `env` stands for everything else a turn may depend on (the clock the
 hooks read, allocator sizes); it is chosen freely for every request.
 */
module Engine {
  import opened Wrappers
  import opened Values
  import opened Tracker

  /** A compiled program with its inputs bound. */
  type Program(==, !new)

  /** A suspended interpreter. */
  type VmState(==, !new)

  datatype Stream = Stdout | Stderr

  datatype Fragment = Fragment(stream: Stream, text: string)

  datatype Output = Output(stdout: string, stderr: string)

  datatype HostCall = HostCall(
    callId: nat, functionName: string, methodCall: bool, args: seq<MontyObject>, kwargs: seq<Pair>)

  datatype Progress =
    | FunctionCall(call: HostCall, vm: VmState)
    | NameLookup(name: string, vm: VmState)
    | ResolveFutures(pendingCallIds: seq<nat>, vm: VmState)
    | OsCall(vm: VmState)
    | Complete(result: MontyObject)

  datatype FutureOutcome = FutureReturn(value: MontyObject) | FutureRaise(exception: MontyException)

  /** A client's answer to a pause. */
  datatype ResumeInput =
    | Return(value: MontyObject)
    | Raise(exception: MontyException)
    | Pending
    | Name(value: MontyObject)
    | NameUndefined
    | Futures(results: seq<(nat, FutureOutcome)>)

  datatype ExtResult = ExtReturn(value: MontyObject) | ExtError(exception: MontyException)

  /** What the interpreter is resumed with. */
  datatype Answer =
    | CallResult(result: ExtResult)
    | CallPending
    | NameValue(value: MontyObject)
    | NameMissing
    | FutureResults(results: seq<(nat, ExtResult)>)

  datatype Turn = Turn(
    outcome: Result<Progress, MontyException>, fragments: seq<Fragment>, hooks: seq<Event>)

  datatype Vm = Vm(
    compile: string -> Result<Program, MontyException>,
    start: (Program, nat) -> Turn,
    resume: (VmState, Answer, nat) -> Turn,
    osRank: VmState -> nat)

  /** The answer every OS call gets. */
  const DENIED: Answer := CallResult(ExtError(
    MontyException("PermissionError", Some("filesystem and OS access are disabled on this server"))))

  /** A program cannot make OS calls forever without doing anything else: `osRank` bounds them. */
  ghost predicate Settles(vm: Vm) {
    forall s: VmState, env: nat ::
      var next := vm.resume(s, DENIED, env).outcome;
      next.Ok? && next.value.OsCall? ==> vm.osRank(next.value.vm) < vm.osRank(s)
  }

  /** Instants read while one slice runs: segment begin, segment end, clock restart, statistics. */
  datatype Clocks = Clocks(begin: nat, end: nat, restart: nat, stats: nat)

  datatype SessionStep =
    | StepComplete(result: MontyObject, output: Output, stats: ExecStats)
    | StepFailed(exception: MontyException, breach: Option<Breach>, output: Output, stats: ExecStats)
    | StepPaused(progress: Progress, output: Output, stats: ExecStats)

  datatype PauseKind = AtCall | AtName | AtFutures | AtOsCall | AtEnd

  datatype AnswerKind =
    | SuppliedReturn | SuppliedException | SuppliedPending | SuppliedValue | SuppliedUndefined | SuppliedFutures

  datatype ResumeMismatch = ResumeMismatch(expected: PauseKind, got: AnswerKind)

  datatype ResumeResult =
    | Stepped(step: SessionStep)
    | Mismatch(progress: Progress, error: ResumeMismatch)

  /** A tracker as its limits, its creation time and everything that has happened to it. */
  datatype Tracked = Tracked(limits: Limits, created: nat, events: seq<Event>)

  function CountersOf(t: Tracked): Counters {
    Replay(t.limits, NewCounters(t.created), t.events)
  }

  function TextOn(stream: Stream, fragments: seq<Fragment>): string {
    if fragments == [] then ""
    else
      var last := fragments[|fragments| - 1];
      TextOn(stream, fragments[..|fragments| - 1]) + (if last.stream == stream then last.text else "")
  }

  function Joined(fragments: seq<Fragment>): Output {
    Output(TextOn(Stdout, fragments), TextOn(Stderr, fragments))
  }

  /** The pauses a client can act on. */
  predicate Actionable(progress: Progress) {
    progress.FunctionCall? || progress.NameLookup? || progress.ResolveFutures?
  }

  /** Whether `input` has the shape that this pause expects. */
  predicate Matches(progress: Progress, input: ResumeInput) {
    match progress
    case FunctionCall(_, _) => input.Return? || input.Raise? || input.Pending?
    case NameLookup(_, _) => input.Name? || input.NameUndefined?
    case ResolveFutures(_, _) => input.Futures?
    case OsCall(_) => false
    case Complete(_) => false
  }

  function KindOfPause(progress: Progress): PauseKind {
    match progress
    case FunctionCall(_, _) => AtCall
    case NameLookup(_, _) => AtName
    case ResolveFutures(_, _) => AtFutures
    case OsCall(_) => AtOsCall
    case Complete(_) => AtEnd
  }

  function KindOfAnswer(input: ResumeInput): AnswerKind {
    match input
    case Return(_) => SuppliedReturn
    case Raise(_) => SuppliedException
    case Pending => SuppliedPending
    case Name(_) => SuppliedValue
    case NameUndefined => SuppliedUndefined
    case Futures(_) => SuppliedFutures
  }

  function CheckResume(progress: Progress, input: ResumeInput): Option<ResumeMismatch> {
    if Matches(progress, input) then None
    else Some(ResumeMismatch(KindOfPause(progress), KindOfAnswer(input)))
  }

  function ToExtResult(outcome: FutureOutcome): ExtResult {
    match outcome
    case FutureReturn(value) => ExtReturn(value)
    case FutureRaise(exception) => ExtError(exception)
  }

  function ToExtResults(results: seq<(nat, FutureOutcome)>): seq<(nat, ExtResult)> {
    seq(|results|, i requires 0 <= i < |results| => (results[i].0, ToExtResult(results[i].1)))
  }

  /** Resumes with a matching input; the pairing check leaves no other pair possible. */
  function ApplyResume(vm: Vm, progress: Progress, input: ResumeInput, env: nat): Turn
    requires Matches(progress, input)
  {
    match (progress, input)
    case (FunctionCall(_, s), Return(value)) => vm.resume(s, CallResult(ExtReturn(value)), env)
    case (FunctionCall(_, s), Raise(exception)) => vm.resume(s, CallResult(ExtError(exception)), env)
    case (FunctionCall(_, s), Pending) => vm.resume(s, CallPending, env)
    case (NameLookup(_, s), Name(value)) => vm.resume(s, NameValue(value), env)
    case (NameLookup(_, s), NameUndefined) => vm.resume(s, NameMissing, env)
    case (ResolveFutures(_, s), Futures(results)) => vm.resume(s, FutureResults(ToExtResults(results)), env)
  }

  predicate AtOs(turn: Turn) {
    turn.outcome.Ok? && turn.outcome.value.OsCall?
  }

  /** Answers OS calls with `DENIED` until the program needs something else; output and hooks pile up. */
  ghost function Settled(vm: Vm, turn: Turn, env: nat): Turn
    requires Settles(vm)
    decreases AtOs(turn), if AtOs(turn) then vm.osRank(turn.outcome.value.vm) else 0
  {
    if !AtOs(turn) then turn
    else
      var next := vm.resume(turn.outcome.value.vm, DENIED, env);
      Settled(vm, Turn(next.outcome, turn.fragments + next.fragments, turn.hooks + next.hooks), env)
  }

  /** The step that a settled turn amounts to. */
  function FinishStep(turn: Turn, counters: Counters, now: nat): SessionStep {
    var output := Joined(turn.fragments);
    var stats := StatsAt(counters, now);
    match turn.outcome
    case Ok(Complete(result)) => StepComplete(result, output, stats)
    case Ok(progress) => StepPaused(progress, output, stats)
    case Err(exception) => StepFailed(exception, BreachFromCode(counters.breachCode), output, stats)
  }

  ghost function SliceEvents(vm: Vm, first: Turn, env: nat, clocks: Clocks): seq<Event>
    requires Settles(vm)
  {
    [BeginSegment(clocks.begin)] + Settled(vm, first, env).hooks + [EndSegment(clocks.end, clocks.restart)]
  }

  // ---------------------------------------------------------------- the driver

  method JoinStreams(fragments: seq<Fragment>) returns (output: Output)
    ensures output == Joined(fragments)
  {
    var stdout, stderr := "", "";
    for i := 0 to |fragments|
      invariant stdout == TextOn(Stdout, fragments[..i])
      invariant stderr == TextOn(Stderr, fragments[..i])
    {
      assert fragments[..i + 1][..i] == fragments[..i];
      match fragments[i].stream {
        case Stdout => stdout := stdout + fragments[i].text;
        case Stderr => stderr := stderr + fragments[i].text;
      }
    }
    assert fragments[..|fragments|] == fragments;
    output := Output(stdout, stderr);
  }

  /** The settle loop: reassigns the progress and grows the fragments until no OS call is left. */
  method Settle(vm: Vm, first: Turn, env: nat, tracker: StatsTracker) returns (settled: Turn)
    requires Settles(vm)
    modifies tracker
    ensures settled == Settled(vm, first, env)
    ensures tracker.View() == Replay(tracker.limits, old(tracker.View()), settled.hooks)
  {
    tracker.Play(first.hooks);
    var outcome, fragments := first.outcome, first.fragments;
    var hooks := first.hooks;
    while outcome.Ok? && outcome.value.OsCall?
      invariant Settled(vm, Turn(outcome, fragments, hooks), env) == Settled(vm, first, env)
      invariant tracker.View() == Replay(tracker.limits, old(tracker.View()), hooks)
      decreases AtOs(Turn(outcome, [], [])), if outcome.Ok? && outcome.value.OsCall? then vm.osRank(outcome.value.vm)
                else 0
    {
      var next := vm.resume(outcome.value.vm, DENIED, env);
      tracker.Play(next.hooks);
      ReplaySplits(tracker.limits, old(tracker.View()), hooks, next.hooks);
      outcome, fragments, hooks := next.outcome, fragments + next.fragments, hooks + next.hooks;
    }
    settled := Turn(outcome, fragments, hooks);
  }

  /** The end of a slice: output joined, statistics and breach read from the tracker. */
  method Finish(settled: Turn, tracker: StatsTracker, now: nat) returns (step: SessionStep)
    ensures step == FinishStep(settled, tracker.View(), now)
  {
    var output := JoinStreams(settled.fragments);
    var stats := tracker.Stats(now);
    match settled.outcome {
      case Ok(Complete(result)) => step := StepComplete(result, output, stats);
      case Ok(progress) => step := StepPaused(progress, output, stats);
      case Err(exception) =>
        var breach := tracker.FirstBreach();
        step := StepFailed(exception, breach, output, stats);
    }
  }

  method StartSession(vm: Vm, program: Program, limits: Limits, created: nat, env: nat, clocks: Clocks)
    returns (tracker: StatsTracker, step: SessionStep)
    requires Settles(vm)
    ensures fresh(tracker) && tracker.limits == limits
    ensures tracker.View() == Replay(limits, NewCounters(created), SliceEvents(vm, vm.start(program, env), env, clocks))
    ensures step == FinishStep(Settled(vm, vm.start(program, env), env), tracker.View(), clocks.stats)
  {
    tracker := new StatsTracker(limits, created);
    tracker.BeginSegment(clocks.begin);
    var settled := Settle(vm, vm.start(program, env), env, tracker);
    tracker.EndSegment(clocks.end, clocks.restart);
    SliceReplays(limits, NewCounters(created), clocks, settled.hooks);
    step := Finish(settled, tracker, clocks.stats);
  }

  /** A mismatched answer leaves the tracker alone and hands the progress back; a matching one runs a slice. */
  method ResumeSession(vm: Vm, progress: Progress, tracker: StatsTracker, input: ResumeInput, env: nat, clocks: Clocks)
    returns (result: ResumeResult)
    requires Settles(vm)
    modifies tracker
    ensures !Matches(progress, input) ==>
              && result == Mismatch(progress, ResumeMismatch(KindOfPause(progress), KindOfAnswer(input)))
              && tracker.View() == old(tracker.View())
    ensures Matches(progress, input) ==>
              var first := ApplyResume(vm, progress, input, env);
              && tracker.View() == Replay(tracker.limits, old(tracker.View()), SliceEvents(vm, first, env, clocks))
              && result == Stepped(FinishStep(Settled(vm, first, env), tracker.View(), clocks.stats))
  {
    var error := CheckResume(progress, input);
    if error.Some? {
      return Mismatch(progress, error.value);
    }
    tracker.BeginSegment(clocks.begin);
    var settled := Settle(vm, ApplyResume(vm, progress, input, env), env, tracker);
    tracker.EndSegment(clocks.end, clocks.restart);
    SliceReplays(tracker.limits, old(tracker.View()), clocks, settled.hooks);
    var step := Finish(settled, tracker, clocks.stats);
    result := Stepped(step);
  }

  lemma SliceReplays(limits: Limits, start: Counters, clocks: Clocks, hooks: seq<Event>)
    ensures Replay(limits, start, [BeginSegment(clocks.begin)] + hooks + [EndSegment(clocks.end, clocks.restart)])
            == Observe(limits, Replay(limits, Observe(limits, start, BeginSegment(clocks.begin)).0, hooks),
                       EndSegment(clocks.end, clocks.restart)).0
  {
    var begin := [BeginSegment(clocks.begin)];
    ReplaySplits(limits, start, begin, hooks);
    assert (begin + hooks + [EndSegment(clocks.end, clocks.restart)])[..|begin + hooks|] == begin + hooks;
    assert begin[..0] == [];
  }

  // ---------------------------------------------------------------- whole slices, on values

  /** A session as the latest step and the tracker's history. */
  datatype Session = Session(step: SessionStep, tracker: Tracked)

  ghost function RunSlice(vm: Vm, first: Turn, tracker: Tracked, env: nat, clocks: Clocks): Session
    requires Settles(vm)
  {
    var after := tracker.(events := tracker.events + SliceEvents(vm, first, env, clocks));
    Session(FinishStep(Settled(vm, first, env), CountersOf(after), clocks.stats), after)
  }

  /** How a session began, and one accepted answer with what surrounded its execution. */
  datatype Origin = Origin(program: Program, limits: Limits, created: nat, env: nat, clocks: Clocks)

  datatype Reply = Reply(input: ResumeInput, env: nat, clocks: Clocks)

  ghost function StartSlice(vm: Vm, origin: Origin): Session
    requires Settles(vm)
  {
    RunSlice(vm, vm.start(origin.program, origin.env), Tracked(origin.limits, origin.created, []), origin.env,
        origin.clocks)
  }

  /** A session takes a reply only while it is paused, and only one of the right shape. */
  predicate Takes(s: Session, input: ResumeInput) {
    s.step.StepPaused? && Matches(s.step.progress, input)
  }

  ghost function ResumeSlice(vm: Vm, s: Session, reply: Reply): Session
    requires Settles(vm) && Takes(s, reply.input)
  {
    RunSlice(vm, ApplyResume(vm, s.step.progress, reply.input, reply.env), s.tracker, reply.env, reply.clocks)
  }
}
