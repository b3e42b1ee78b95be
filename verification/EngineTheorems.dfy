/** Cutting a program into slices, one per request, does not change what the program does. */
module EngineTheorems {
  import opened Wrappers
  import opened Values
  import opened Tracker
  import TrackerTheorems
  import opened Engine

  // ---------------------------------------------------------------- settled progress

  predicate StepIsActionable(step: SessionStep) {
    step.StepPaused? ==> Actionable(step.progress)
  }

  lemma {:induction false} SettledNeverAtOs(vm: Vm, turn: Turn, env: nat)
    requires Settles(vm)
    ensures !AtOs(Settled(vm, turn, env))
    decreases AtOs(turn), if AtOs(turn) then vm.osRank(turn.outcome.value.vm) else 0
  {
    if AtOs(turn) {
      var next := vm.resume(turn.outcome.value.vm, DENIED, env);
      SettledNeverAtOs(vm, Turn(next.outcome, turn.fragments + next.fragments, turn.hooks + next.hooks), env);
    }
  }

  /** Whatever the program does, a slice ends in a result, an exception, or a pause the client can answer. */
  lemma SliceIsActionable(vm: Vm, first: Turn, tracker: Tracked, env: nat, clocks: Clocks)
    requires Settles(vm)
    ensures StepIsActionable(RunSlice(vm, first, tracker, env, clocks).step)
  {
    SettledNeverAtOs(vm, first, env);
  }

  /**
   Which answers go with which pauses: calls take a value, an exception or a postponement; names a
   value or none; futures their results; nothing else is answered. A mismatch names both sides.
   */
  lemma PairingTable(progress: Progress, input: ResumeInput)
    ensures CheckResume(progress, input) == None <==>
              || (progress.FunctionCall? && (input.Return? || input.Raise? || input.Pending?))
              || (progress.NameLookup? && (input.Name? || input.NameUndefined?))
              || (progress.ResolveFutures? && input.Futures?)
    ensures CheckResume(progress, input).Some? ==>
              var error := CheckResume(progress, input).value;
              && (error.expected == AtCall <==> progress.FunctionCall?)
              && (error.expected == AtName <==> progress.NameLookup?)
              && (error.expected == AtFutures <==> progress.ResolveFutures?)
              && (error.expected == AtOsCall <==> progress.OsCall?)
              && (error.expected == AtEnd <==> progress.Complete?)
              && (error.got == SuppliedReturn <==> input.Return?)
              && (error.got == SuppliedException <==> input.Raise?)
              && (error.got == SuppliedPending <==> input.Pending?)
              && (error.got == SuppliedValue <==> input.Name?)
              && (error.got == SuppliedUndefined <==> input.NameUndefined?)
              && (error.got == SuppliedFutures <==> input.Futures?)
  {
  }

  /** For an actionable pause some input matches, and which one fits tells the pauses apart. */
  lemma ActionableIffAnswerable(progress: Progress)
    ensures Actionable(progress) <==> exists input :: Matches(progress, input)
  {
    if progress.FunctionCall? {
      assert Matches(progress, Pending);
    } else if progress.NameLookup? {
      assert Matches(progress, NameUndefined);
    } else if progress.ResolveFutures? {
      assert Matches(progress, Futures([]));
    }
  }

  // ---------------------------------------------------------------- one big step

  function Nothing(): Output {
    Output("", "")
  }

  function Then(a: Output, b: Output): Output {
    Output(a.stdout + b.stdout, a.stderr + b.stderr)
  }

  lemma ThenAssociates(a: Output, b: Output, c: Output)
    ensures Then(a, Then(b, c)) == Then(Then(a, b), c)
  {
  }

  /** The interpreter-level answer that a client input stands for, whatever the pause. */
  function AnswerOf(input: ResumeInput): Answer {
    match input
    case Return(value) => CallResult(ExtReturn(value))
    case Raise(exception) => CallResult(ExtError(exception))
    case Pending => CallPending
    case Name(value) => NameValue(value)
    case NameUndefined => NameMissing
    case Futures(results) => FutureResults(ResultsOf(results))
  }

  /** Every future's own result, under its own id, in the order given. */
  function ResultsOf(results: seq<(nat, FutureOutcome)>): (r: seq<(nat, ExtResult)>)
    ensures |r| == |results|
    ensures forall i :: 0 <= i < |results| ==>
              && r[i].0 == results[i].0
              && (forall v :: r[i].1 == ExtReturn(v) <==> results[i].1 == FutureReturn(v))
              && (forall x :: r[i].1 == ExtError(x) <==> results[i].1 == FutureRaise(x))
  {
    if results == [] then []
    else
      var last := results[|results| - 1];
      ResultsOf(results[..|results| - 1])
      + [(last.0, if last.1.FutureReturn? then ExtReturn(last.1.value) else ExtError(last.1.exception))]
  }

  /** The driver hands every future's own result over under its own id. */
  lemma FuturesKeepTheirIds(results: seq<(nat, FutureOutcome)>)
    ensures var r := ToExtResults(results);
            && |r| == |results|
            && forall i :: 0 <= i < |results| ==>
                 && r[i].0 == results[i].0
                 && (forall v :: r[i].1 == ExtReturn(v) <==> results[i].1 == FutureReturn(v))
                 && (forall x :: r[i].1 == ExtError(x) <==> results[i].1 == FutureRaise(x))
    ensures ToExtResults(results) == ResultsOf(results)
  {
    var (r, q) := (ToExtResults(results), ResultsOf(results));
    forall i | 0 <= i < |results| ensures r[i] == q[i] {
      match results[i].1
      case FutureReturn(v) => assert q[i].1 == ExtReturn(v);
      case FutureRaise(x) => assert q[i].1 == ExtError(x);
    }
  }

  function PermissionError(): MontyException {
    MontyException("PermissionError", Some("filesystem and OS access are disabled on this server"))
  }

  datatype Handled = Handled(outcome: Result<Progress, MontyException>, output: Output, hooks: seq<Event>)

  /** What was printed and called before comes first. */
  function After(printed: Output, hooks: seq<Event>, rest: Handled): Handled {
    Handled(rest.outcome, Then(printed, rest.output), hooks + rest.hooks)
  }

  lemma AfterAssociates(a: Output, aHooks: seq<Event>, b: Output, bHooks: seq<Event>, rest: Handled)
    ensures After(a, aHooks, After(b, bHooks, rest)) == After(Then(a, b), aHooks + bHooks, rest)
  {
    ThenAssociates(a, b, rest.output);
    assert aHooks + (bHooks + rest.hooks) == (aHooks + bHooks) + rest.hooks;
  }

  /**
   The program run in one go, under a handler that meets OS calls with a permission error and
   answers the other pauses from a list until the list is used up.
   */
  ghost function BigStep(vm: Vm, turn: Turn, env: nat, answers: seq<(Answer, nat)>): Handled
    requires Settles(vm)
    decreases |answers|, AtOs(turn), if AtOs(turn) then vm.osRank(turn.outcome.value.vm) else 0
  {
    var printed := Joined(turn.fragments);
    match turn.outcome
    case Err(_) => Handled(turn.outcome, printed, turn.hooks)
    case Ok(Complete(_)) => Handled(turn.outcome, printed, turn.hooks)
    case Ok(OsCall(s)) =>
      After(printed, turn.hooks, BigStep(vm, vm.resume(s, CallResult(ExtError(PermissionError())), env), env, answers))
    case Ok(progress) =>
      if answers == [] then Handled(turn.outcome, printed, turn.hooks)
      else
        var (answer, nextEnv) := answers[0];
        After(printed, turn.hooks, BigStep(vm, vm.resume(progress.vm, answer, nextEnv), nextEnv, answers[1..]))
  }

  /** One more answer carries on from where the run stood. */
  lemma {:induction false} BigStepExtends(vm: Vm, turn: Turn, env: nat, answers: seq<(Answer, nat)>,
    more: (Answer, nat))
    requires Settles(vm)
    ensures var before := BigStep(vm, turn, env, answers);
            before.outcome.Ok? && Actionable(before.outcome.value) ==>
              var rest := BigStep(vm, vm.resume(before.outcome.value.vm, more.0, more.1), more.1, []);
              BigStep(vm, turn, env, answers + [more]) == After(before.output, before.hooks, rest)
    decreases |answers|, AtOs(turn), if AtOs(turn) then vm.osRank(turn.outcome.value.vm) else 0
  {
    hide Then, Joined;
    var printed := Joined(turn.fragments);
    if AtOs(turn) {
      var next := vm.resume(turn.outcome.value.vm, DENIED, env);
      BigStepExtends(vm, next, env, answers, more);
      ContinuationExtends(vm, next, env, answers, more, printed, turn.hooks);
    } else if turn.outcome.Ok? && Actionable(turn.outcome.value) {
      if answers == [] {
        assert answers + [more] == [more];
        assert [more][1..] == [];
      } else {
        var (answer, nextEnv) := answers[0];
        var next := vm.resume(turn.outcome.value.vm, answer, nextEnv);
        assert (answers + [more])[1..] == answers[1..] + [more];
        BigStepExtends(vm, next, nextEnv, answers[1..], more);
        ContinuationExtends(vm, next, nextEnv, answers[1..], more, printed, turn.hooks);
      }
    }
  }

  /** Printing something first does not get in the way of one more answer. */
  lemma ContinuationExtends(vm: Vm, turn: Turn, env: nat, answers: seq<(Answer, nat)>, more: (Answer, nat),
    printed: Output, hooks: seq<Event>)
    requires Settles(vm)
    ensures var before := BigStep(vm, turn, env, answers);
            before.outcome.Ok? && Actionable(before.outcome.value) ==>
              var rest := BigStep(vm, vm.resume(before.outcome.value.vm, more.0, more.1), more.1, []);
              var whole := After(printed, hooks, before);
              After(printed, hooks, After(before.output, before.hooks, rest)) == After(whole.output, whole.hooks, rest)
  {
    hide BigStep, Then;
    var before := BigStep(vm, turn, env, answers);
    if before.outcome.Ok? && Actionable(before.outcome.value) {
      AfterAssociates(printed, hooks, before.output, before.hooks,
          BigStep(vm, vm.resume(before.outcome.value.vm, more.0, more.1), more.1, []));
    }
  }

  lemma TextAppends(stream: Stream, fragments: seq<Fragment>, last: Fragment)
    ensures TextOn(stream, fragments + [last]) == TextOn(stream, fragments) + TextOn(stream, [last])
  {
    assert (fragments + [last])[..|fragments|] == fragments;
    assert [last][..0] == [];
  }

  lemma {:induction false} TextConcatenates(stream: Stream, a: seq<Fragment>, b: seq<Fragment>)
    ensures TextOn(stream, a + b) == TextOn(stream, a) + TextOn(stream, b)
    decreases |b|
  {
    assert TextOn(stream, []) == "";
    hide TextOn;
    if b == [] {
      assert a + b == a;
    } else {
      var (before, last) := (b[..|b| - 1], b[|b| - 1]);
      TextConcatenates(stream, a, before);
      TextAppends(stream, before, last);
      TextAppends(stream, a + before, last);
      assert b == before + [last] && a + b == a + before + [last];
    }
  }

  /** With no answers left, the big step ends where settling does, and prints and calls the same. */
  lemma {:induction false} SettlingIsBigStep(vm: Vm, turn: Turn, env: nat)
    requires Settles(vm)
    ensures BigStep(vm, turn, env, [])
            == Handled(Settled(vm, turn, env).outcome, Joined(Settled(vm, turn, env).fragments),
                       Settled(vm, turn, env).hooks)
    decreases AtOs(turn), if AtOs(turn) then vm.osRank(turn.outcome.value.vm) else 0
  {
    if AtOs(turn) {
      var next := vm.resume(turn.outcome.value.vm, DENIED, env);
      var both := Turn(next.outcome, turn.fragments + next.fragments, turn.hooks + next.hooks);
      SettlingIsBigStep(vm, both, env);
      TurnPrefixPrints(vm, next, turn.fragments, turn.hooks, env);
    }
  }

  /** What was already printed and called comes first and changes nothing else. */
  lemma TurnPrefixPrints(vm: Vm, turn: Turn, earlier: seq<Fragment>, hooks: seq<Event>, env: nat)
    requires Settles(vm)
    ensures var rest := BigStep(vm, turn, env, []);
            BigStep(vm, Turn(turn.outcome, earlier + turn.fragments, hooks + turn.hooks), env, [])
            == After(Joined(earlier), hooks, rest)
  {
    JoinConcatenates(earlier, turn.fragments);
    hide Joined;
    if AtOs(turn) {
      AfterAssociates(Joined(earlier), hooks, Joined(turn.fragments), turn.hooks,
          BigStep(vm, vm.resume(turn.outcome.value.vm, DENIED, env), env, []));
    }
    hide Then;
  }

  lemma JoinConcatenates(a: seq<Fragment>, b: seq<Fragment>)
    ensures Joined(a + b) == Then(Joined(a), Joined(b))
  {
    TextConcatenates(Stdout, a, b);
    TextConcatenates(Stderr, a, b);
  }

  // ---------------------------------------------------------------- what is printed

  function TotalText(fragments: seq<Fragment>): nat {
    if fragments == [] then 0 else TotalText(fragments[..|fragments| - 1]) + |fragments[|fragments| - 1].text|
  }

  /** Everything printed comes out on one of the two streams, and nothing else does. */
  lemma {:induction false} NothingIsLost(fragments: seq<Fragment>)
    ensures |Joined(fragments).stdout| + |Joined(fragments).stderr| == TotalText(fragments)
  {
    if fragments != [] {
      NothingIsLost(fragments[..|fragments| - 1]);
    }
  }

  /** Each fragment's text stands whole on its own stream, right after what that stream had before it. */
  lemma FragmentsComeOutInOrder(fragments: seq<Fragment>, i: nat)
    requires i < |fragments|
    ensures var (before, all) := (Joined(fragments[..i]), Joined(fragments));
            && (fragments[i].stream == Stdout ==>
                  before.stdout + fragments[i].text <= all.stdout && Joined(fragments[..i + 1]).stderr == before.stderr)
            && (fragments[i].stream == Stderr ==>
                  before.stderr + fragments[i].text <= all.stderr && Joined(fragments[..i + 1]).stdout == before.stdout)
  {
    var (head, one, rest) := (fragments[..i], [fragments[i]], fragments[i + 1..]);
    assert fragments[..i + 1] == head + one && fragments == (head + one) + rest;
    assert one[..0] == [];
    JoinConcatenates(head, one);
    JoinConcatenates(head + one, rest);
    assert Joined(one) == if fragments[i].stream == Stdout then Output(fragments[i].text, "")
        else Output("", fragments[i].text) by {
      assert TextOn(Stdout, []) == "" && TextOn(Stderr, []) == "";
    }
    hide Joined;
  }

  // ---------------------------------------------------------------- a session of many slices

  /** What the server does with one reply: terminal sessions and mismatched inputs are left as they are. */
  ghost function Respond(vm: Vm, s: Session, reply: Reply): Session
    requires Settles(vm)
  {
    if Takes(s, reply.input) then ResumeSlice(vm, s, reply) else s
  }

  ghost function RunReplies(vm: Vm, origin: Origin, replies: seq<Reply>): Session
    requires Settles(vm)
  {
    if replies == [] then StartSlice(vm, origin)
    else Respond(vm, RunReplies(vm, origin, replies[..|replies| - 1]), replies[|replies| - 1])
  }

  /** The answers that were accepted along the way. */
  ghost function AcceptedAnswers(vm: Vm, origin: Origin, replies: seq<Reply>): seq<(Answer, nat)>
    requires Settles(vm)
  {
    if replies == [] then []
    else
      var (earlier, last) := (replies[..|replies| - 1], replies[|replies| - 1]);
      AcceptedAnswers(vm, origin, earlier)
      + (if Takes(RunReplies(vm, origin, earlier), last.input) then [(AnswerOf(last.input), last.env)] else [])
  }

  /** The per-step outputs of the session, concatenated. */
  ghost function SessionOutput(vm: Vm, origin: Origin, replies: seq<Reply>): Output
    requires Settles(vm)
  {
    if replies == [] then StartSlice(vm, origin).step.output
    else
      var (earlier, last) := (replies[..|replies| - 1], replies[|replies| - 1]);
      var before := RunReplies(vm, origin, earlier);
      Then(SessionOutput(vm, origin, earlier),
           if Takes(before, last.input) then Respond(vm, before, last).step.output else Nothing())
  }

  function OutcomeOf(step: SessionStep): Result<Progress, MontyException> {
    match step
    case StepComplete(result, _, _) => Ok(Complete(result))
    case StepFailed(exception, _, _, _) => Err(exception)
    case StepPaused(progress, _, _) => Ok(progress)
  }

  /** Resuming with a matching input is resuming the suspended interpreter with that input's answer. */
  lemma MatchingResumeIsAnswer(vm: Vm, progress: Progress, input: ResumeInput, env: nat)
    requires Matches(progress, input)
    ensures ApplyResume(vm, progress, input, env) == vm.resume(progress.vm, AnswerOf(input), env)
  {
    if input.Futures? {
      FuturesKeepTheirIds(input.results);
    }
  }

  lemma FinishKeepsOutcome(turn: Turn, counters: Counters, now: nat)
    ensures OutcomeOf(FinishStep(turn, counters, now)) == turn.outcome
    ensures FinishStep(turn, counters, now).output == Joined(turn.fragments)
  {
  }

  /** The hooks a program called, without the marks of the slices. */
  function WithoutSegments(events: seq<Event>): seq<Event> {
    if events == [] then []
    else
      var last := events[|events| - 1];
      WithoutSegments(events[..|events| - 1]) + (if last.BeginSegment? || last.EndSegment? then [] else [last])
  }

  lemma WithoutSegmentsAppends(events: seq<Event>, last: Event)
    ensures WithoutSegments(events + [last]) == WithoutSegments(events) + WithoutSegments([last])
  {
    assert (events + [last])[..|events|] == events;
    assert [last][..0] == [];
  }

  lemma {:induction false} WithoutSegmentsSplits(a: seq<Event>, b: seq<Event>)
    ensures WithoutSegments(a + b) == WithoutSegments(a) + WithoutSegments(b)
    decreases |b|
  {
    assert WithoutSegments([]) == [];
    hide WithoutSegments;
    if b == [] {
      assert a + b == a;
    } else {
      var (before, last) := (b[..|b| - 1], b[|b| - 1]);
      WithoutSegmentsSplits(a, before);
      WithoutSegmentsAppends(before, last);
      WithoutSegmentsAppends(a + before, last);
      assert b == before + [last] && a + b == a + before + [last];
    }
  }

  /** A slice adds its hooks to the history, between two marks. */
  lemma SliceAddsItsHooks(vm: Vm, first: Turn, tracker: Tracked, env: nat, clocks: Clocks)
    requires Settles(vm)
    ensures WithoutSegments(RunSlice(vm, first, tracker, env, clocks).tracker.events)
            == WithoutSegments(tracker.events) + WithoutSegments(Settled(vm, first, env).hooks)
  {
    var (begin, end) := ([BeginSegment(clocks.begin)], [EndSegment(clocks.end, clocks.restart)]);
    var hooks := Settled(vm, first, env).hooks;
    assert begin[..0] == [] && end[..0] == [] && WithoutSegments(begin) == WithoutSegments(end) == [];
    hide WithoutSegments, Settled, FinishStep;
    WithoutSegmentsSplits(tracker.events, begin + hooks + end);
    WithoutSegmentsSplits(begin + hooks, end);
    WithoutSegmentsSplits(begin, hooks);
  }

  /** A slice stands, and prints, as the big step that starts from the same turn with no answers to give. */
  lemma SliceIsBigStep(vm: Vm, first: Turn, tracker: Tracked, env: nat, clocks: Clocks)
    requires Settles(vm)
    ensures var step := RunSlice(vm, first, tracker, env, clocks).step;
            BigStep(vm, first, env, []) == Handled(OutcomeOf(step), step.output, Settled(vm, first, env).hooks)
  {
    SettlingIsBigStep(vm, first, env);
    hide BigStep, Settled, Joined, FinishStep, OutcomeOf;
    var after := tracker.(events := tracker.events + SliceEvents(vm, first, env, clocks));
    FinishKeepsOutcome(Settled(vm, first, env), CountersOf(after), clocks.stats);
  }

  /**
   Slicing preserves meaning: after any replies, good, mismatched or too late, the session stands
   where one uninterrupted run under the accepted answers stands, its steps' outputs, put
   together, are that run's output, and its tracker has seen that run's hooks, cut into segments.
   */
  lemma {:induction false} SlicingPreservesMeaning(vm: Vm, origin: Origin, replies: seq<Reply>)
    requires Settles(vm)
    ensures var whole := BigStep(vm, vm.start(origin.program, origin.env), origin.env,
            AcceptedAnswers(vm, origin, replies));
            && OutcomeOf(RunReplies(vm, origin, replies).step) == whole.outcome
            && SessionOutput(vm, origin, replies) == whole.output
            && WithoutSegments(RunReplies(vm, origin, replies).tracker.events) == WithoutSegments(whole.hooks)
  {
    assert WithoutSegments([]) == [];
    hide BigStep, RunSlice, ApplyResume, Then, WithoutSegments;
    var first := vm.start(origin.program, origin.env);
    if replies == [] {
      var tracker := Tracked(origin.limits, origin.created, []);
      SliceIsBigStep(vm, first, tracker, origin.env, origin.clocks);
      SliceAddsItsHooks(vm, first, tracker, origin.env, origin.clocks);
    } else {
      var (earlier, last) := (replies[..|replies| - 1], replies[|replies| - 1]);
      SlicingPreservesMeaning(vm, origin, earlier);
      var before := RunReplies(vm, origin, earlier);
      if Takes(before, last.input) {
        MatchingResumeIsAnswer(vm, before.step.progress, last.input, last.env);
        var next := ApplyResume(vm, before.step.progress, last.input, last.env);
        SliceIsBigStep(vm, next, before.tracker, last.env, last.clocks);
        SliceAddsItsHooks(vm, next, before.tracker, last.env, last.clocks);
        var whole := BigStep(vm, first, origin.env, AcceptedAnswers(vm, origin, earlier));
        WithoutSegmentsSplits(whole.hooks, Settled(vm, next, last.env).hooks);
        BigStepExtends(vm, first, origin.env, AcceptedAnswers(vm, origin, earlier), (AnswerOf(last.input), last.env));
      } else {
        NothingIsNeutral(SessionOutput(vm, origin, earlier));
        assert AcceptedAnswers(vm, origin, replies) == AcceptedAnswers(vm, origin, earlier);
      }
    }
  }

  lemma NothingIsNeutral(output: Output)
    ensures Then(output, Nothing()) == output
  {
  }

  // ---------------------------------------------------------------- reports

  /** The failed step's breach is the one its own tracker's history calls for. */
  predicate ReportsItsTracker(s: Session) {
    s.step.StepFailed? ==> s.step.breach == BreachFromCode(CountersOf(s.tracker).breachCode)
  }

  /**
   After any replies, a failed session is reported as over a limit if and only if some hook in
   some slice failed, and the limit named is the first one that did.
   */
  lemma {:induction false} LimitReportIsFirstFailure(vm: Vm, origin: Origin, replies: seq<Reply>)
    requires Settles(vm)
    ensures var s := RunReplies(vm, origin, replies);
            && ReportsItsTracker(s)
            && s.tracker.limits == origin.limits && s.tracker.created == origin.created
            && (s.step.StepFailed? ==>
                  s.step.breach == TrackerTheorems.FirstFailure(origin.limits, NewCounters(origin.created),
                                                                s.tracker.events, |s.tracker.events|))
  {
    hide Observe, BreachFromCode, Settled, SliceEvents;
    if replies != [] {
      LimitReportIsFirstFailure(vm, origin, replies[..|replies| - 1]);
    }
    var events := RunReplies(vm, origin, replies).tracker.events;
    assert events[..|events|] == events;
    TrackerTheorems.BreachIsFirstFailure(origin.limits, origin.created, events, |events|);
  }

  /** After any replies, a step reports the allocations that were granted and the most memory that was ever live. */
  lemma {:induction false} UsageIsReported(vm: Vm, origin: Origin, replies: seq<Reply>) returns (when: nat)
    requires Settles(vm)
    ensures var s := RunReplies(vm, origin, replies);
            var (limits, start, events) := (origin.limits, NewCounters(origin.created), s.tracker.events);
            && StatsOf(s.step).allocations == TrackerTheorems.GrantedAllocations(limits, start, events, |events|)
            && (forall i :: 0 <= i <= |events| ==>
                  Replay(limits, start, events[..i]).live <= StatsOf(s.step).peakMemoryBytes)
            && when <= |events| && Replay(limits, start, events[..when]).live == StatsOf(s.step).peakMemoryBytes
  {
    StatsAreTheTrackers(vm, origin, replies);
    hide Observe, Settled, RunReplies;
    var events := RunReplies(vm, origin, replies).tracker.events;
    assert events[..|events|] == events;
    TrackerTheorems.UsageStaysWithinLimits(origin.limits, origin.created, events, |events|);
    when := TrackerTheorems.PeakIsRunningMaximum(origin.limits, origin.created, events);
  }

  function StatsOf(step: SessionStep): ExecStats {
    match step
    case StepComplete(_, _, stats) => stats
    case StepFailed(_, _, _, stats) => stats
    case StepPaused(_, _, stats) => stats
  }

  lemma {:induction false} StatsAreTheTrackers(vm: Vm, origin: Origin, replies: seq<Reply>)
    requires Settles(vm)
    ensures var s := RunReplies(vm, origin, replies);
            && s.tracker.limits == origin.limits && s.tracker.created == origin.created
            && StatsOf(s.step).allocations == CountersOf(s.tracker).allocations
            && StatsOf(s.step).peakMemoryBytes == CountersOf(s.tracker).peak
  {
    hide Observe, BreachFromCode, Settled, SliceEvents;
    if replies != [] {
      StatsAreTheTrackers(vm, origin, replies[..|replies| - 1]);
    }
  }

  /** A slice's reported duration: all segments completed so far, and the moment since the clock restarted. */
  lemma DurationIsSegmentTime(vm: Vm, first: Turn, tracker: Tracked, env: nat, clocks: Clocks)
    requires Settles(vm)
    requires TrackerTheorems.Timeline(TrackerTheorems.Cursor(false, tracker.created),
                                      RunSlice(vm, first, tracker, env, clocks).tracker.events).Some?
    ensures var s := RunSlice(vm, first, tracker, env, clocks);
            s.step.stats.duration == TrackerTheorems.TotalLength(TrackerTheorems.Segments(s.tracker.events))
                                     + Since(clocks.restart, clocks.stats)
  {
    var s := RunSlice(vm, first, tracker, env, clocks);
    TrackerTheorems.AccumulatedIsSegmentTime(tracker.limits, tracker.created, s.tracker.events);
    assert s.tracker.events[|s.tracker.events| - 1] == EndSegment(clocks.end, clocks.restart);
  }
}
