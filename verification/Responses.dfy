/** What a resume is answered with: its response is rendered under a lock of its own, after its step is stored. */
module Responses {
  import opened Wrappers
  import Tracker
  import TrackerTheorems
  import opened Engine
  import opened EngineTheorems
  import opened Session
  import opened Api
  import opened Protocol
  import opened ProtocolInvariant
  import opened ProtocolTheorems
  import opened Executions
  import opened Refinement

  /** The steps stored into entry `r` over the run, in order. */
  ghost function StepsInto(vm: Vm, cfg: Settings, s: Sys, actions: seq<Action>, r: Ref): seq<SessionStep>
    requires Settles(vm) && Run(vm, cfg, s, actions).Some?
  {
    if actions == [] then []
    else
      var (earlier, a) := (actions[..|actions| - 1], actions[|actions| - 1]);
      var before := Run(vm, cfg, s, earlier).value;
      StepsInto(vm, cfg, s, earlier, r)
      + (if StoresInto(before, a, r) then [before.flights[a.f].phase.result.step] else [])
  }

  /** The last of these steps, or `first` if there are none. */
  function LastOf(steps: seq<SessionStep>, first: SessionStep): SessionStep {
    if steps == [] then first else steps[|steps| - 1]
  }

  /** What a response with this step shows. */
  function Rendered(step: SessionStep): Result<SessionState, ApiError> {
    RenderState(SnapshotOf(step), SplitStep(step).0)
  }

  /** A step stored into `r` is where the atomic machine has `r` next; no other action moves `r`. */
  lemma StoredStepIsNext(vm: Vm, cfg: Settings, s: Sys, all: Sessions, a: Action, r: Ref)
    requires Settles(vm) && Inv(vm, cfg, s) && Follows(vm, s, all) && Next(vm, cfg, s, a).Some? && r in all
    ensures var moved := Moved(vm, all, Shows(s, a));
            && moved.Some? && r in moved.value
            && moved.value[r].step == if StoresInto(s, a, r) then s.flights[a.f].phase.result.step else all[r].step
  {
    hide Next, Settles, Inv, EntryFollows;
    if a.Collect? && a.f in s.flights {
      assert FlightFollows(vm, s, all, s.flights[a.f].phase);
    }
    StepRefines(vm, cfg, s, all, a);
    hide Follows, ResumeSlice, StartSlice;
    if a.Insert? && a.f in s.flights && s.flights[a.f].phase.Admitted? {
      hide FlightFollows;
    }
  }

  /** Over any run, the atomic machine has `r` at the last step stored into it. */
  lemma {:induction false} LastStoredIsCurrent(vm: Vm, cfg: Settings, s: Sys, all: Sessions, actions: seq<Action>,
    r: Ref)
    returns (later: Sessions)
    requires Settles(vm) && Inv(vm, cfg, s) && Follows(vm, s, all) && Run(vm, cfg, s, actions).Some? && r in all
    ensures Inv(vm, cfg, Run(vm, cfg, s, actions).value) && Follows(vm, Run(vm, cfg, s, actions).value, later)
    ensures r in later && later[r].step == LastOf(StepsInto(vm, cfg, s, actions, r), all[r].step)
  {
    hide Next, Settles, Inv, Follows, StoresInto;
    if actions == [] {
      later := all;
    } else {
      var (earlier, a) := (actions[..|actions| - 1], actions[|actions| - 1]);
      var before := LastStoredIsCurrent(vm, cfg, s, all, earlier, r);
      var u := Run(vm, cfg, s, earlier).value;
      StepRefines(vm, cfg, u, before, a);
      StoredStepIsNext(vm, cfg, u, before, a, r);
      NextKeepsInv(vm, cfg, u, a);
      later := Moved(vm, before, Shows(u, a)).value;
    }
  }

  lemma ViewingWaits(vm: Vm, cfg: Settings, s: Sys, a: Action, f: Fid)
    requires Settles(vm) && Next(vm, cfg, s, a).Some? && f in s.flights && s.flights[f].phase.Viewing? && a != View(f)
    ensures f in Next(vm, cfg, s, a).value.flights && Next(vm, cfg, s, a).value.flights[f] == s.flights[f]
  {
    hide Next, Settles, Settled, FinishStep, ApplyResume, Render;
    FlightsAreFramed(vm, cfg, s, a);
    if ActsOn(a, f) {
      StepsAreShaped(vm, cfg, s, a);
      FlightSteps(vm, cfg, s, a);
    }
  }

  lemma {:induction false} ViewingStays(vm: Vm, cfg: Settings, s: Sys, actions: seq<Action>, f: Fid)
    requires Settles(vm) && Run(vm, cfg, s, actions).Some? && f in s.flights && s.flights[f].phase.Viewing?
    requires forall i :: 0 <= i < |actions| ==> actions[i] != View(f)
    ensures var t := Run(vm, cfg, s, actions).value;
            f in t.flights && t.flights[f] == s.flights[f]
  {
    hide Next, Settles;
    if actions != [] {
      var earlier := actions[..|actions| - 1];
      ViewingStays(vm, cfg, s, earlier, f);
      ViewingWaits(vm, cfg, Run(vm, cfg, s, earlier).value, actions[|actions| - 1], f);
    }
  }

  /** Whether the entry can be rendered: finished, or its progress is in. */
  predicate Showable(e: Entry) {
    e.terminal || e.progress.Some?
  }

  /** Any response shows its session's current step, whole, or an error exactly while that step's progress is out. */
  lemma ResponsesShowTheCurrentStep(vm: Vm, cfg: Settings, s: Sys, all: Sessions, f: Fid)
    requires Settles(vm) && Follows(vm, s, all) && f in s.flights && s.flights[f].phase.Viewing?
    requires s.flights[f].phase.ref in all
    ensures var r := s.flights[f].phase.ref;
            && r in s.heap && Next(vm, cfg, s, View(f)).Some?
            && var t := Next(vm, cfg, s, View(f)).value;
               && f in t.flights && t.flights[f].phase.Responded?
               && var response := t.flights[f].phase.response;
                  && (Showable(s.heap[r]) && Rendered(all[r].step).Ok? ==>
                        response.Shown? && Rendered(all[r].step) == Ok(response.view.state))
                  && (!Showable(s.heap[r]) || Rendered(all[r].step).Err? ==> response == Refused(Internal))
  {
    hide Next, Settles, FlightFollows, Convert.StringKeyed, Convert.KeywordObject;
    hide DoLookUp, DoAcquire, DoGrant, DoSpawn, DoBegin, DoFinish, DoPanic, DoCancel, DoCollect, DoInsert, DoCheckOwner,
         DoRemoveId;
    assert EntryFollows(s, all, s.flights[f].phase.ref);
    FlightSteps(vm, cfg, s, View(f));
  }

  /**
   What a resume's response shows, over anything that happens between the storing of its step and
   the rendering: the last step stored into the session since, which is its own if there was none,
   or an internal error exactly while that step's progress is out.
   */
  lemma ResponseShowsTheLastStored(vm: Vm, cfg: Settings, s: Sys, f: Fid, actions: seq<Action>)
    requires Settles(vm) && Reachable(vm, cfg, s)
    requires f in s.flights && s.flights[f].phase.Returned? && s.flights[f].phase.result.DidStep?
    requires Next(vm, cfg, s, Collect(f)).Some?
    requires Run(vm, cfg, Next(vm, cfg, s, Collect(f)).value, actions).Some?
    requires forall i :: 0 <= i < |actions| ==> actions[i] != View(f)
    ensures var stored := Next(vm, cfg, s, Collect(f)).value;
            var u := Run(vm, cfg, stored, actions).value;
            var (r, own) := (s.flights[f].phase.result.ref, s.flights[f].phase.result.step);
            var shown := LastOf(StepsInto(vm, cfg, stored, actions, r), own);
            && r in u.heap && Next(vm, cfg, u, View(f)).Some?
            && ResponseIs(Next(vm, cfg, u, View(f)).value, f,
                          if Showable(u.heap[r]) then Rendered(shown) else Err(Internal))
  {
    hide Next, Settles, Reachable, Run, Inv, StepsInto, Follows;
    var stored := Next(vm, cfg, s, Collect(f)).value;
    var r := s.flights[f].phase.result.ref;
    ReachableSatisfiesInv(vm, cfg, s);
    NextKeepsInv(vm, cfg, s, Collect(f));
    var all := ReachableFollows(vm, cfg, s);
    StepRefines(vm, cfg, s, all, Collect(f));
    HeldIsFollowed(vm, cfg, s, all, f);
    StoredStepIsNext(vm, cfg, s, all, Collect(f), r);
    var moved := Moved(vm, all, Shows(s, Collect(f))).value;
    CollectViews(vm, cfg, s, f);
    ViewingStays(vm, cfg, stored, actions, f);
    var later := LastStoredIsCurrent(vm, cfg, stored, moved, actions, r);
    ResponsesShowTheCurrentStep(vm, cfg, Run(vm, cfg, stored, actions).value, later, f);
    RenderErrorsAreInternal(later[r].step);
  }

  lemma RenderErrorsAreInternal(step: SessionStep)
    ensures Rendered(step).Err? ==> Rendered(step) == Err(Internal)
  {
  }

  /** The request is answered with this state, or refused with this error. */
  predicate ResponseIs(t: Sys, f: Fid, result: Result<SessionState, ApiError>) {
    && f in t.flights && t.flights[f].phase.Responded?
    && match result
       case Ok(state) => t.flights[f].phase.response.Shown? && t.flights[f].phase.response.view.state == state
       case Err(error) => t.flights[f].phase.response == Refused(error)
  }

  lemma ReachableFollows(vm: Vm, cfg: Settings, s: Sys) returns (all: Sessions)
    requires Settles(vm) && Reachable(vm, cfg, s)
    ensures Follows(vm, s, all)
  {
    hide Next, Settles, Follows, Run;
    var actions :| Run(vm, cfg, Init(cfg), actions) == Some(s);
    RunsRefine(vm, cfg, actions);
    all := OccurAll(vm, map[], Trace(vm, cfg, Init(cfg), actions)).value;
  }

  lemma HeldIsFollowed(vm: Vm, cfg: Settings, s: Sys, all: Sessions, f: Fid)
    requires Settles(vm) && Follows(vm, s, all) && f in s.flights
    requires s.flights[f].phase.Returned? && s.flights[f].phase.result.DidStep?
    ensures var result := s.flights[f].phase.result;
            result.ref in all && HeldBy(s, f, result.ref) && StoresInto(s, Collect(f), result.ref)
  {
    hide EntryFollows, Settles, ResumeSlice;
    assert FlightFollows(vm, s, all, s.flights[f].phase);
  }

  lemma CollectViews(vm: Vm, cfg: Settings, s: Sys, f: Fid)
    requires Settles(vm) && f in s.flights && Next(vm, cfg, s, Collect(f)).Some?
    requires s.flights[f].phase.Returned? && s.flights[f].phase.result.DidStep?
    ensures var (t, result) := (Next(vm, cfg, s, Collect(f)).value, s.flights[f].phase.result);
            f in t.flights && t.flights[f].phase == Viewing(result.id, result.ref)
  {
    hide Next, Settles;
    FlightSteps(vm, cfg, s, Collect(f));
  }

  /**
   When a resume's response shows the very step it stored: if and only if the session's progress
   is not out at the rendering and no later step, stored meanwhile, looks any different.
   */
  lemma ResponseShowsOwnStepIff(vm: Vm, cfg: Settings, s: Sys, f: Fid, actions: seq<Action>)
    requires Settles(vm) && Reachable(vm, cfg, s)
    requires f in s.flights && s.flights[f].phase.Returned? && s.flights[f].phase.result.DidStep?
    requires Rendered(s.flights[f].phase.result.step).Ok?
    requires Next(vm, cfg, s, Collect(f)).Some?
    requires Run(vm, cfg, Next(vm, cfg, s, Collect(f)).value, actions).Some?
    requires forall i :: 0 <= i < |actions| ==> actions[i] != View(f)
    ensures var stored := Next(vm, cfg, s, Collect(f)).value;
            var u := Run(vm, cfg, stored, actions).value;
            var (r, own) := (s.flights[f].phase.result.ref, s.flights[f].phase.result.step);
            var steps := StepsInto(vm, cfg, stored, actions, r);
            && r in u.heap && Next(vm, cfg, u, View(f)).Some?
            && (ResponseIs(Next(vm, cfg, u, View(f)).value, f, Rendered(own)) <==>
                  Showable(u.heap[r]) && (steps == [] || Rendered(steps[|steps| - 1]) == Rendered(own)))
  {
    hide Next, Settles, Reachable, Run, StepsInto, Rendered;
    ResponseShowsTheLastStored(vm, cfg, s, f, actions);
  }

  // ---------------------------------------------------------------- what the client is told

  /** A response shows the entry, as it is, or an internal error exactly if there is nothing to show. */
  lemma ResponsesDepictTheEntry(vm: Vm, cfg: Settings, s: Sys, f: Fid)
    requires Settles(vm) && Inv(vm, cfg, s) && f in s.flights && s.flights[f].phase.Viewing?
    ensures var (id, r) := (s.flights[f].phase.id, s.flights[f].phase.ref);
            && r in s.heap && Next(vm, cfg, s, View(f)).Some?
            && var t := Next(vm, cfg, s, View(f)).value;
               && f in t.flights && t.flights[f].phase.Responded?
               && var response := t.flights[f].phase.response;
                  && (forall view :: response == Shown(view) <==> Depicts(view, id, s.heap[r], s.now))
                  && (response.Shown? || response == Refused(Internal))
  {
    hide Next, Settles, Inv, CursorOf, Render, Depicts;
    InvKnowsFlight(vm, cfg, s, f);
    var (id, r) := (s.flights[f].phase.id, s.flights[f].phase.ref);
    InvKnowsRef(vm, cfg, s, r);
    FlightSteps(vm, cfg, s, View(f));
    forall view ensures Render(id, s.heap[r], s.now) == Ok(view) <==> Depicts(view, id, s.heap[r], s.now) {
      ViewIff(id, s.heap[r], s.now, view);
    }
    RenderFailsInternally(id, s.heap[r], s.now);
    hide FlightOk, WellFormed;
  }

  lemma RenderFailsInternally(id: Id, e: Entry, now: nat)
    ensures Render(id, e, now).Err? ==> Render(id, e, now).error == Internal
  {
  }

  /** What the client is told agrees with one uninterrupted run of its program and its first failed hook. */
  ghost predicate TellsTheTruth(state: SessionState, whole: Handled, step: SessionStep,
    firstFailure: Option<Tracker.Breach>) {
    match state
    case ShowsPause(pause, output, stats) =>
      && whole.outcome.Ok? && Describes(pause, whole.outcome.value)
      && output == step.output && stats == StatsOf(step)
    case ShowsResult(result, output, stats) =>
      whole.outcome == Ok(Complete(result)) && output == step.output && stats == StatsOf(step)
    case ShowsException(exception, output, stats) =>
      && whole.outcome == Err(exception) && firstFailure == None
      && output == step.output && stats == StatsOf(step)
    case ShowsLimit(limit, exception, output, stats) =>
      && whole.outcome == Err(exception) && firstFailure == Some(limit)
      && output == step.output && stats == StatsOf(step)
  }

  /**
   End to end, over all runs: whatever a client is shown of a session is what its program does in
   one uninterrupted run under the answers stored so far, with the last step's output and
   statistics; and a failure is told as a limit exactly if some hook in some slice failed, by
   the first that did.
   */
  lemma ClientsAreToldTheTruth(vm: Vm, cfg: Settings, actions: seq<Action>, f: Fid)
    requires Settles(vm) && Run(vm, cfg, Init(cfg), actions).Some?
    requires var s := Run(vm, cfg, Init(cfg), actions).value; f in s.flights && s.flights[f].phase.Viewing?
    ensures var (s, trace) := (Run(vm, cfg, Init(cfg), actions).value, Trace(vm, cfg, Init(cfg), actions));
            var r := s.flights[f].phase.ref;
            && r in s.heap && r in s.trackers && OriginOf(trace, r).Some? && Next(vm, cfg, s, View(f)).Some?
            && var t := Next(vm, cfg, s, View(f)).value;
               && f in t.flights && t.flights[f].phase.Responded?
               && var (origin, replies) := (OriginOf(trace, r).value, RepliesTo(trace, r));
                  var whole := BigStep(vm, vm.start(origin.program, origin.env), origin.env, AnswersIn(replies));
                  var events := s.trackers[r].events;
                  t.flights[f].phase.response.Shown? ==>
                    && t.flights[f].phase.response.view.id == s.flights[f].phase.id
                    && TellsTheTruth(
                         t.flights[f].phase.response.view.state, whole, RunReplies(vm, origin, replies).step,
                         TrackerTheorems.FirstFailure(origin.limits, Tracker.NewCounters(origin.created), events,
                                                      |events|))
  {
    hide Next, Settles, Inv, Run, BigStep, RunReplies, TrackerTheorems.FirstFailure, SessionOutput, SnapshotOf,
         Describes, Trace;
    InitSatisfiesInv(vm, cfg);
    RunKeepsInv(vm, cfg, Init(cfg), actions);
    var s := Run(vm, cfg, Init(cfg), actions).value;
    ResponsesDepictTheEntry(vm, cfg, s, f);
    var r := s.flights[f].phase.ref;
    InvKnowsRef(vm, cfg, s, r);
    EntriesMeanTheirPrograms(vm, cfg, actions, r);
  }
}
