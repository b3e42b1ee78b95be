/** Executions over whole runs: each progress is used once, and a segment closes unless its task panics. */
module Executions {
  import opened Wrappers
  import opened Engine
  import opened Session
  import opened Protocol
  import opened ProtocolInvariant
  import opened ProtocolTheorems
  import opened Losses

  // ---------------------------------------------------------------- progress is used once

  /** The step begins a segment with `r`'s progress. */
  predicate BeginsOn(s: Sys, a: Action, r: Ref) {
    && a.Begin? && HeldBy(s, a.f, r)
    && s.flights[a.f].phase.Running? && s.flights[a.f].phase.job.ResumeJob?
    && Matches(s.flights[a.f].phase.job.progress, s.flights[a.f].phase.job.input)
  }

  predicate StoresInto(s: Sys, a: Action, r: Ref) {
    a.Collect? && HeldBy(s, a.f, r) && s.flights[a.f].phase.Returned? && s.flights[a.f].phase.result.DidStep?
  }

  /** `r`'s progress has been used: whoever still holds anything of it is past beginning. */
  ghost predicate Spent(s: Sys, r: Ref) {
    && r in s.heap && !s.heap[r].terminal && s.heap[r].progress.None?
    && forall f :: HeldBy(s, f, r) ==> PastMismatch(s, f)
  }

  lemma BeginSpends(vm: Vm, cfg: Settings, s: Sys, a: Action, r: Ref)
    requires Settles(vm) && Inv(vm, cfg, s) && Next(vm, cfg, s, a).Some? && BeginsOn(s, a, r)
    ensures Spent(Next(vm, cfg, s, a).value, r)
  {
    hide Next, Settles, Inv, Owns, HoldsTaken, Writes, Matches, PastMismatch, CursorOf;
    var t := Next(vm, cfg, s, a).value;
    InvKnowsFlight(vm, cfg, s, a.f);
    HeldIsInHeap(vm, s, a.f, r);
    hide FlightOk;
    HeldProgressIsOut(vm, cfg, s, a.f, r);
    NotWritten(s, a, r);
    HeapIsFramed(vm, cfg, s, a);
    FlightsAreFramed(vm, cfg, s, a);
    BegunIsPast(vm, cfg, s, a, r);
    forall f | HeldBy(t, f, r) ensures PastMismatch(t, f) {
      if f != a.f && f in s.flights {
        OwnersAreApart(vm, cfg, s, f, a.f, r);
      }
    }
  }

  lemma NotWritten(s: Sys, a: Action, r: Ref)
    requires !a.Acquire? && !a.Collect?
    ensures !Writes(s, a, r)
  {
  }

  lemma BegunIsPast(vm: Vm, cfg: Settings, s: Sys, a: Action, r: Ref)
    requires Settles(vm) && Next(vm, cfg, s, a).Some? && BeginsOn(s, a, r)
    ensures PastMismatch(Next(vm, cfg, s, a).value, a.f)
  {
    hide Next, Settles, Matches;
    FlightSteps(vm, cfg, s, a);
  }

  lemma SpentStep(vm: Vm, cfg: Settings, s: Sys, a: Action, r: Ref)
    requires Settles(vm) && Inv(vm, cfg, s) && Next(vm, cfg, s, a).Some?
    requires Spent(s, r) && !StoresInto(s, a, r)
    ensures Spent(Next(vm, cfg, s, a).value, r)
  {
    hide Next, Settles, Inv, Owns, HoldsTaken, PastMismatch, Writes, HeldBy;
    var t := Next(vm, cfg, s, a).value;
    SpentIsNotWritten(vm, cfg, s, a, r);
    HeapIsFramed(vm, cfg, s, a);
    forall f | HeldBy(t, f, r) ensures PastMismatch(t, f) {
      if !HeldBy(s, f, r) {
        HoldingStartsWithAcquire(vm, cfg, s, a, f, r);
        assert false;
      }
      PastStaysPast(vm, cfg, s, a, f);
    }
  }

  lemma SpentIsNotWritten(vm: Vm, cfg: Settings, s: Sys, a: Action, r: Ref)
    requires Settles(vm) && Inv(vm, cfg, s) && Next(vm, cfg, s, a).Some?
    requires Spent(s, r) && !StoresInto(s, a, r)
    ensures !Writes(s, a, r)
  {
    hide Next, Settles, Inv, Matches;
    if a.Collect? && HeldBy(s, a.f, r) {
      StepsAreShaped(vm, cfg, s, a);
    }
  }

  lemma SpentCannotBegin(vm: Vm, cfg: Settings, s: Sys, a: Action, r: Ref)
    requires Settles(vm) && Next(vm, cfg, s, a).Some? && Spent(s, r)
    ensures !BeginsOn(s, a, r)
  {
    hide Next, Settles, Matches;
    if a.Begin? && HeldBy(s, a.f, r) {
      FlightSteps(vm, cfg, s, a);
    }
  }

  lemma {:induction false} SpentFrom(vm: Vm, cfg: Settings, s: Sys, actions: seq<Action>, r: Ref, i: nat, n: nat)
    requires Settles(vm) && Inv(vm, cfg, s) && Run(vm, cfg, s, actions).Some? && i < n <= |actions|
    requires BeginsOn(Before(vm, cfg, s, actions, i), actions[i], r)
    requires forall k :: i < k < n ==> !StoresInto(Before(vm, cfg, s, actions, k), actions[k], r)
    ensures Spent(Before(vm, cfg, s, actions, n), r)
  {
    hide Next, Settles, Inv, Run, BeginsOn, StoresInto, Spent;
    PrefixRuns(vm, cfg, s, actions, n - 1);
    RunKeepsInv(vm, cfg, s, actions[..n - 1]);
    var u := Before(vm, cfg, s, actions, n - 1);
    if n == i + 1 {
      BeginSpends(vm, cfg, u, actions[n - 1], r);
    } else {
      SpentFrom(vm, cfg, s, actions, r, i, n - 1);
      SpentStep(vm, cfg, u, actions[n - 1], r);
    }
  }

  /** Progress is used at most once: between any two segments begun with it, a step was stored. */
  lemma ProgressIsUsedOnce(vm: Vm, cfg: Settings, s: Sys, actions: seq<Action>, r: Ref, i: nat, j: nat)
    requires Settles(vm) && Inv(vm, cfg, s) && Run(vm, cfg, s, actions).Some? && i < j < |actions|
    requires BeginsOn(Before(vm, cfg, s, actions, i), actions[i], r)
    requires BeginsOn(Before(vm, cfg, s, actions, j), actions[j], r)
    ensures exists k :: i < k < j && StoresInto(Before(vm, cfg, s, actions, k), actions[k], r)
  {
    hide Next, Settles, Inv, Run, BeginsOn, StoresInto, Spent;
    if forall k :: i < k < j ==> !StoresInto(Before(vm, cfg, s, actions, k), actions[k], r) {
      SpentFrom(vm, cfg, s, actions, r, i, j);
      PrefixRuns(vm, cfg, s, actions, j);
      SpentCannotBegin(vm, cfg, Before(vm, cfg, s, actions, j), actions[j], r);
      assert false;
    }
  }

  // ---------------------------------------------------------------- segments left open

  /** An open segment with nobody running in it. */
  ghost predicate Abandoned(s: Sys, r: Ref) {
    && r in s.trackers && !Idle(s.trackers[r])
    && forall f :: f in s.flights ==> Owns(s.flights[f].phase) != Some(r)
  }

  /** The step panics the task that is inside `r`'s segment. */
  predicate Abandons(s: Sys, a: Action, r: Ref) {
    a.Panic? && a.f in s.flights && IsBegun(s.flights[a.f].phase) && Owns(s.flights[a.f].phase) == Some(r)
  }

  /** A flight comes to hold a reference only by acquiring an idle entry, or by making a tracker of its own. */
  lemma OwningStarts(vm: Vm, cfg: Settings, s: Sys, a: Action, f: Fid, r: Ref)
    requires Settles(vm) && Next(vm, cfg, s, a).Some?
    requires var t := Next(vm, cfg, s, a).value; f in t.flights && Owns(t.flights[f].phase) == Some(r)
    requires f in s.flights ==> Owns(s.flights[f].phase) != Some(r)
    ensures || (a == Acquire(f) && r in s.heap && s.heap[r].progress.Some?)
            || (a.Begin? && a.f == f && r !in s.trackers)
  {
    hide Next, Settles;
    FlightsAreFramed(vm, cfg, s, a);
    StepsAreShaped(vm, cfg, s, a);
    assert ActsOn(a, f);
    hide Quiet, Drove, Took, Collected, Inserted;
    if a.f in s.flights {
      FlightSteps(vm, cfg, s, a);
      if a.Begin? || a.Finish? || a.Panic? {
        WorkOwns(vm, s, a, r);
      } else if a.Acquire? || a.Grant? || a.Spawn? || a.Cancel? || a.Collect? {
        WaitOwns(cfg, s, a, r);
      } else {
        ReadOwns(s, a);
      }
    }
  }

  lemma WorkOwns(vm: Vm, s: Sys, a: Action, r: Ref)
    requires Settles(vm) && OfFlight(a) && a.f in s.flights
    ensures a.Begin? && DoBegin(vm, s, a.f, a.ref, a.created).Some? ==>
              OwnsAsBefore(s, DoBegin(vm, s, a.f, a.ref, a.created).value, a.f, r) || r !in s.trackers
    ensures a.Finish? && DoFinish(vm, s, a.f, a.env, a.clocks).Some? ==>
              OwnsAsBefore(s, DoFinish(vm, s, a.f, a.env, a.clocks).value, a.f, r)
    ensures a.Panic? && DoPanic(s, a.f, a.hooks).Some? ==> OwnsAsBefore(s, DoPanic(s, a.f, a.hooks).value, a.f, r)
  {
    hide Settles, Settled, FinishStep, ApplyResume, HooksRun, Matches;
  }

  /** If the flight holds `r` after the step, it held it before. */
  predicate OwnsAsBefore(s: Sys, t: Sys, f: Fid, r: Ref) {
    f in t.flights && Owns(t.flights[f].phase) == Some(r) ==> f in s.flights && Owns(s.flights[f].phase) == Some(r)
  }

  lemma WaitOwns(cfg: Settings, s: Sys, a: Action, r: Ref)
    requires OfFlight(a) && a.f in s.flights
    ensures a.Acquire? && DoAcquire(s, a.f).Some? ==>
              OwnsAsBefore(s, DoAcquire(s, a.f).value, a.f, r) || (r in s.heap && s.heap[r].progress.Some?)
    ensures a.Grant? && DoGrant(s, a.f).Some? ==> OwnsAsBefore(s, DoGrant(s, a.f).value, a.f, r)
    ensures a.Spawn? && DoSpawn(s, a.f).Some? ==> OwnsAsBefore(s, DoSpawn(s, a.f).value, a.f, r)
    ensures a.Cancel? && DoCancel(s, a.f).Some? ==> OwnsAsBefore(s, DoCancel(s, a.f).value, a.f, r)
    ensures a.Collect? && DoCollect(cfg, s, a.f).Some? ==> OwnsAsBefore(s, DoCollect(cfg, s, a.f).value, a.f, r)
  {
    hide Stored, Restored;
  }

  lemma ReadOwns(s: Sys, a: Action)
    requires OfFlight(a) && a.f in s.flights
    ensures a.LookUp? && DoLookUp(s, a.f).Some? ==> Owns(DoLookUp(s, a.f).value.flights[a.f].phase).None?
    ensures a.Insert? && DoInsert(s, a.f, a.id, a.builtAt).Some? ==>
              Owns(DoInsert(s, a.f, a.id, a.builtAt).value.flights[a.f].phase).None?
    ensures a.View? && DoView(s, a.f).Some? ==> Owns(DoView(s, a.f).value.flights[a.f].phase).None?
    ensures a.CheckOwner? && DoCheckOwner(s, a.f).Some? ==> Owns(DoCheckOwner(s, a.f).value.flights[a.f].phase).None?
    ensures a.RemoveId? && DoRemoveId(s, a.f).Some? ==> Owns(DoRemoveId(s, a.f).value.flights[a.f].phase).None?
  {
    hide Api.Render, Visible, NewEntry;
  }

  lemma AbandonedStep(vm: Vm, cfg: Settings, s: Sys, a: Action, r: Ref)
    requires Settles(vm) && Inv(vm, cfg, s) && Next(vm, cfg, s, a).Some? && Abandoned(s, r)
    ensures var t := Next(vm, cfg, s, a).value;
            Abandoned(t, r) && t.trackers[r] == s.trackers[r]
  {
    hide Next, Settles, Inv, Owns, CursorOf;
    var t := Next(vm, cfg, s, a).value;
    TrackersAreFramed(vm, cfg, s, a);
    InvKnowsRef(vm, cfg, s, r);
    forall f | f in t.flights ensures Owns(t.flights[f].phase) != Some(r) {
      if Owns(t.flights[f].phase) == Some(r) {
        OwningStarts(vm, cfg, s, a, f, r);
        assert false;
      }
    }
  }

  /** Nothing ever happens again on a tracker whose segment was abandoned: no end, no begin, no hook. */
  lemma {:induction false} AbandonedStays(vm: Vm, cfg: Settings, s: Sys, actions: seq<Action>, r: Ref)
    requires Settles(vm) && Inv(vm, cfg, s) && Run(vm, cfg, s, actions).Some? && Abandoned(s, r)
    ensures var t := Run(vm, cfg, s, actions).value;
            Abandoned(t, r) && t.trackers[r] == s.trackers[r]
  {
    hide Next, Inv, Settles, Owns, Idle;
    if actions != [] {
      var earlier := actions[..|actions| - 1];
      AbandonedStays(vm, cfg, s, earlier, r);
      RunKeepsInv(vm, cfg, s, earlier);
      AbandonedStep(vm, cfg, Run(vm, cfg, s, earlier).value, actions[|actions| - 1], r);
    }
  }

  lemma PanicLeavesOpen(vm: Vm, cfg: Settings, s: Sys, a: Action, r: Ref)
    requires Settles(vm) && Inv(vm, cfg, s) && Next(vm, cfg, s, a).Some? && Abandons(s, a, r)
    ensures Abandoned(Next(vm, cfg, s, a).value, r)
  {
    hide Next, Settles, Inv, CursorOf, HooksRun, Matches, JobOk, ResultOk;
    var t := Next(vm, cfg, s, a).value;
    InvKnowsFlight(vm, cfg, s, a.f);
    FlightSteps(vm, cfg, s, a);
    FlightsAreFramed(vm, cfg, s, a);
    var b := s.flights[a.f].phase.begun.value;
    HooksExtend(s.trackers[r], a.hooks, b.at, s.now);
    assert !Idle(t.trackers[r]) && Owns(t.flights[a.f].phase) != Some(r);
    hide FlightOk, DoPanic, Owns;
    forall g | g in t.flights ensures Owns(t.flights[g].phase) != Some(r) {
      if g != a.f {
        OwnersAreApart(vm, cfg, s, g, a.f, r);
      }
    }
  }

  lemma OwnerLeavesClosed(vm: Vm, cfg: Settings, s: Sys, a: Action, r: Ref)
    requires Settles(vm) && Inv(vm, cfg, s) && Next(vm, cfg, s, a).Some?
    requires OfFlight(a) && a.f in s.flights && Owns(s.flights[a.f].phase) == Some(r) && !Abandons(s, a, r)
    ensures var t := Next(vm, cfg, s, a).value;
            && r in t.trackers && a.f in t.flights
            && (Idle(t.trackers[r]) || Owns(t.flights[a.f].phase) == Some(r))
  {
    hide Next, Settles, Inv, CursorOf, Matches, JobOk, ResultOk;
    InvKnowsFlight(vm, cfg, s, a.f);
    FlightsAreFramed(vm, cfg, s, a);
    TrackersAreFramed(vm, cfg, s, a);
    if IsBegun(s.flights[a.f].phase) {
      BegunLeavesClosed(vm, cfg, s, a, r);
    } else if a.Begin? || a.Finish? || a.Panic? {
      hide Settled, FinishStep, ApplyResume,
           DoLookUp, DoAcquire, DoGrant, DoSpawn, DoCancel, DoCollect, DoInsert, DoView, DoCheckOwner, DoRemoveId;
      FlightSteps(vm, cfg, s, a);
    }
  }

  lemma BegunLeavesClosed(vm: Vm, cfg: Settings, s: Sys, a: Action, r: Ref)
    requires Settles(vm) && Next(vm, cfg, s, a).Some?
    requires OfFlight(a) && a.f in s.flights && IsBegun(s.flights[a.f].phase) && FlightOk(vm, s, s.flights[a.f])
    requires Owns(s.flights[a.f].phase) == Some(r) && !Abandons(s, a, r)
    ensures var t := Next(vm, cfg, s, a).value;
            && r in t.trackers && a.f in t.flights
            && (Idle(t.trackers[r]) || Owns(t.flights[a.f].phase) == Some(r))
  {
    hide Next, Settles, CursorOf, Matches, JobOk, ResultOk, Settled, ApplyResume, FinishStep, HooksRun;
    FlightSteps(vm, cfg, s, a);
    var b := s.flights[a.f].phase.begun.value;
    if a.Finish? {
      FinishCloses(vm, s, a, r);
    } else {
      OnlyWorkOrCancel(vm, cfg, s, a);
    }
  }

  lemma FinishCloses(vm: Vm, s: Sys, a: Action, r: Ref)
    requires Settles(vm) && a.Finish? && a.f in s.flights && DoFinish(vm, s, a.f, a.env, a.clocks).Some?
    requires FlightOk(vm, s, s.flights[a.f]) && Owns(s.flights[a.f].phase) == Some(r)
    ensures var t := DoFinish(vm, s, a.f, a.env, a.clocks).value;
            r in t.trackers && Idle(t.trackers[r]) && a.f in t.flights
  {
    hide Settles, Settled, FinishStep, ApplyResume, CursorOf, Matches, JobOk, HooksRun;
    var (job, b) := (s.flights[a.f].phase.job, s.flights[a.f].phase.begun.value);
    assert BegunOk(vm, s, job, b);
    var first :=
      if job.ResumeJob? then ApplyResume(vm, job.progress, job.input, a.env)
      else vm.start(vm.compile(job.source).value, a.env);
    SliceExtends(s.trackers[r], Settled(vm, first, a.env).hooks, b.at, a.clocks, s.now);
  }

  /** A begun task can only finish, panic or lose its handler. */
  lemma OnlyWorkOrCancel(vm: Vm, cfg: Settings, s: Sys, a: Action)
    requires Settles(vm) && OfFlight(a) && a.f in s.flights && IsBegun(s.flights[a.f].phase)
    ensures a.Begin? ==> DoBegin(vm, s, a.f, a.ref, a.created).None?
    ensures a.LookUp? ==> DoLookUp(s, a.f).None?
    ensures a.Acquire? ==> DoAcquire(s, a.f).None?
    ensures a.Grant? ==> DoGrant(s, a.f).None?
    ensures a.Spawn? ==> DoSpawn(s, a.f).None?
    ensures a.Collect? ==> DoCollect(cfg, s, a.f).None?
    ensures a.Insert? ==> DoInsert(s, a.f, a.id, a.builtAt).None?
    ensures a.View? ==> DoView(s, a.f).None?
    ensures a.CheckOwner? ==> DoCheckOwner(s, a.f).None?
    ensures a.RemoveId? ==> DoRemoveId(s, a.f).None?
  {
  }

  /** A segment is left open exactly by panicking the task inside it. */
  lemma AbandonedIff(vm: Vm, cfg: Settings, s: Sys, a: Action, r: Ref)
    requires Settles(vm) && Inv(vm, cfg, s) && Next(vm, cfg, s, a).Some?
    ensures Abandoned(Next(vm, cfg, s, a).value, r) <==> Abandoned(s, r) || Abandons(s, a, r)
  {
    hide Next, Settles, Inv, Owns, Idle, Drives, Abandons;
    var t := Next(vm, cfg, s, a).value;
    if Abandons(s, a, r) {
      PanicLeavesOpen(vm, cfg, s, a, r);
    } else if Abandoned(s, r) {
      AbandonedStep(vm, cfg, s, a, r);
    } else if r !in s.trackers {
      NewTrackerIsOwned(vm, cfg, s, a, r);
    } else if g :| g in s.flights && Owns(s.flights[g].phase) == Some(r) {
      FlightsAreFramed(vm, cfg, s, a);
      if ActsOn(a, g) {
        OwnerLeavesClosed(vm, cfg, s, a, r);
      } else {
        assert Owns(t.flights[g].phase) == Some(r);
      }
    } else {
      UnownedIsNotDriven(s, a, r);
      TrackersAreFramed(vm, cfg, s, a);
    }
  }

  lemma UnownedIsNotDriven(s: Sys, a: Action, r: Ref)
    requires forall f :: f in s.flights ==> Owns(s.flights[f].phase) != Some(r)
    ensures !Drives(s, a, r)
  {
  }

  lemma NewTrackerIsOwned(vm: Vm, cfg: Settings, s: Sys, a: Action, r: Ref)
    requires Settles(vm) && Inv(vm, cfg, s) && Next(vm, cfg, s, a).Some? && r !in s.trackers
    ensures var t := Next(vm, cfg, s, a).value;
            r in t.trackers ==> exists f :: f in t.flights && Owns(t.flights[f].phase) == Some(r)
  {
    hide Next, Settles, Inv, Matches, CursorOf, JobOk, ResultOk;
    var t := Next(vm, cfg, s, a).value;
    StepsAreShaped(vm, cfg, s, a);
    if a.Begin? || a.Finish? || a.Panic? {
      FlightSteps(vm, cfg, s, a);
      hide Drove, FinishStep, Settled, ApplyResume, HooksRun;
      if r in t.trackers {
        assert Owns(t.flights[a.f].phase) == Some(r);
      }
    } else {
      hide Owns, TakesNothing, AddsNoId;
    }
  }

  /** Over whole runs: a segment stands open with nobody in it exactly when the task inside it panicked. */
  lemma {:induction false} AbandonedIffPanicked(vm: Vm, cfg: Settings, actions: seq<Action>, r: Ref)
    requires Settles(vm) && Run(vm, cfg, Init(cfg), actions).Some?
    ensures Abandoned(Run(vm, cfg, Init(cfg), actions).value, r) <==>
            exists i :: 0 <= i < |actions| && Abandons(Before(vm, cfg, Init(cfg), actions, i), actions[i], r)
  {
    hide Next, Inv, Settles, Run, Owns, Idle, Abandons;
    var (n, s0) := (|actions|, Init(cfg));
    if n == 0 {
      EmptyRun(vm, cfg, s0);
    } else {
      var earlier := actions[..n - 1];
      assert actions[..n] == actions;
      PrefixRuns(vm, cfg, s0, actions, n - 1);
      AbandonedIffPanicked(vm, cfg, earlier, r);
      InitSatisfiesInv(vm, cfg);
      RunKeepsInv(vm, cfg, s0, earlier);
      AbandonedIff(vm, cfg, Run(vm, cfg, s0, earlier).value, actions[n - 1], r);
      hide Abandoned;
      forall i | 0 <= i < n - 1 ensures Before(vm, cfg, s0, actions, i) == Before(vm, cfg, s0, earlier, i) {
        SamePrefix(vm, cfg, s0, actions, n - 1, i);
      }
      if i :| 0 <= i < n - 1 && Abandons(Before(vm, cfg, s0, earlier, i), earlier[i], r) {
        assert Abandons(Before(vm, cfg, s0, actions, i), actions[i], r);
      }
    }
  }

  /**
   An open segment belongs to the one task running in it, or was abandoned in a panic; then the
   session, if it was ever stored, is lost for good.
   */
  lemma OpenSegmentIsRunningOrAbandoned(vm: Vm, cfg: Settings, s: Sys, r: Ref)
    requires Settles(vm) && Reachable(vm, cfg, s) && r in s.trackers && !Idle(s.trackers[r])
    ensures || (exists f :: f in s.flights && IsBegun(s.flights[f].phase) && Owns(s.flights[f].phase) == Some(r))
            || Abandoned(s, r)
    ensures Abandoned(s, r) && r in s.heap ==> Lost(s, r)
  {
    hide Next, Reachable, Settles, Inv;
    ReachableSatisfiesInv(vm, cfg, s);
    InvKnowsRef(vm, cfg, s, r);
    forall f | f in s.flights && Owns(s.flights[f].phase) == Some(r) ensures IsBegun(s.flights[f].phase) {
      InvKnowsFlight(vm, cfg, s, f);
    }
  }
}
