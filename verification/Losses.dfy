/** When progress is lost and when segments are left open: exactly, step by step and over whole runs. */
module Losses {
  import opened Wrappers
  import opened Engine
  import opened Session
  import opened Protocol
  import opened ProtocolInvariant
  import opened ProtocolTheorems

  // ---------------------------------------------------------------- losing progress

  /** A paused session whose progress is neither in its entry nor held by any request. */
  ghost predicate Lost(s: Sys, r: Ref) {
    && r in s.heap && !s.heap[r].terminal && s.heap[r].progress.None?
    && forall f :: !HeldBy(s, f, r)
  }

  /**
   The steps that lose `r`'s progress: its holder is cancelled before or after its task, but not
   during it; its task panics; or its task returns, stepped or mismatched, to a handler that is gone.
   */
  predicate Loses(s: Sys, a: Action, r: Ref) {
    && OfFlight(a) && HeldBy(s, a.f, r)
    && var flight := s.flights[a.f];
       || (a.Cancel? && !flight.phase.Running?)
       || a.Panic?
       || (a.Finish? && !flight.attached)
       || (a.Begin? && !flight.attached && flight.phase.Running? && flight.phase.job.ResumeJob?
           && !Matches(flight.phase.job.progress, flight.phase.job.input))
  }

  /** A request that holds progress is past looking anything up, and answers nothing yet. */
  lemma HoldersWait(s: Sys, a: Action, r: Ref)
    requires OfFlight(a) && HeldBy(s, a.f, r)
    ensures a.LookUp? ==> DoLookUp(s, a.f).None?
    ensures a.Acquire? ==> DoAcquire(s, a.f).None?
    ensures a.Insert? ==> DoInsert(s, a.f, a.id, a.builtAt).None?
    ensures a.View? ==> DoView(s, a.f).None?
    ensures a.CheckOwner? ==> DoCheckOwner(s, a.f).None?
    ensures a.RemoveId? ==> DoRemoveId(s, a.f).None?
  {
  }

  /** What the holding flight's own steps do with the progress. */
  lemma HolderKeepsOrWritesBack(vm: Vm, cfg: Settings, s: Sys, a: Action, r: Ref)
    requires Settles(vm) && Inv(vm, cfg, s) && Next(vm, cfg, s, a).Some?
    requires OfFlight(a) && HeldBy(s, a.f, r) && !Loses(s, a, r)
    ensures var t := Next(vm, cfg, s, a).value;
            HeldBy(t, a.f, r) || (r in t.heap && (t.heap[r].terminal || t.heap[r].progress.Some?))
  {
    hide Next, Settles, Inv, CursorOf;
    InvKnowsFlight(vm, cfg, s, a.f);
    if a.Begin? || a.Finish? {
      HeldTaskStaysHeld(vm, cfg, s, a, r);
    } else {
      hide DoBegin, DoFinish, DoPanic, DoLookUp, DoAcquire, DoInsert, DoView, DoCheckOwner, DoRemoveId;
      FlightSteps(vm, cfg, s, a);
      HoldersWait(s, a, r);
    }
  }

  lemma HeldTaskStaysHeld(vm: Vm, cfg: Settings, s: Sys, a: Action, r: Ref)
    requires Settles(vm) && Next(vm, cfg, s, a).Some?
    requires (a.Begin? || a.Finish?) && HeldBy(s, a.f, r) && !Loses(s, a, r)
    requires FlightOk(vm, s, s.flights[a.f])
    ensures HeldBy(Next(vm, cfg, s, a).value, a.f, r)
  {
    hide Next, CursorOf, Settled, FinishStep, Settles, ApplyResume, ResultOk, JobOk;
    FlightSteps(vm, cfg, s, a);
  }

  lemma TakerHolds(vm: Vm, cfg: Settings, s: Sys, a: Action, r: Ref)
    requires Settles(vm) && Next(vm, cfg, s, a).Some? && Writes(s, a, r) && !(OfFlight(a) && HeldBy(s, a.f, r))
    ensures OfFlight(a) && HeldBy(Next(vm, cfg, s, a).value, a.f, r)
  {
    hide Next, Settles;
    FlightSteps(vm, cfg, s, a);
  }

  lemma KeepsUnlessLoses(vm: Vm, cfg: Settings, s: Sys, a: Action, r: Ref)
    requires Settles(vm) && Inv(vm, cfg, s) && Next(vm, cfg, s, a).Some?
    requires r in s.heap && !s.heap[r].terminal && !Lost(s, r)
    ensures Lost(Next(vm, cfg, s, a).value, r) ==> Loses(s, a, r)
  {
    hide Next, Inv, Settles, Writes, Owns, HoldsTaken;
    FlightsAreFramed(vm, cfg, s, a);
    HeapIsFramed(vm, cfg, s, a);
    if OfFlight(a) && HeldBy(s, a.f, r) {
      if !Loses(s, a, r) {
        HolderKeepsOrWritesBack(vm, cfg, s, a, r);
      }
    } else if f :| HeldBy(s, f, r) {
      assert !ActsOn(a, f);
      assert HeldBy(Next(vm, cfg, s, a).value, f, r);
    } else if Writes(s, a, r) {
      TakerHolds(vm, cfg, s, a, r);
    }
  }

  lemma LoserLetsGo(vm: Vm, cfg: Settings, s: Sys, a: Action, r: Ref)
    requires Settles(vm) && Next(vm, cfg, s, a).Some? && Loses(s, a, r)
    requires FlightOk(vm, s, s.flights[a.f])
    ensures !HeldBy(Next(vm, cfg, s, a).value, a.f, r)
  {
    hide Next, CursorOf, Settled, FinishStep, Settles, ApplyResume, ResultOk, JobOk, HooksRun;
    FlightSteps(vm, cfg, s, a);
  }

  lemma LosesMeansLost(vm: Vm, cfg: Settings, s: Sys, a: Action, r: Ref)
    requires Settles(vm) && Inv(vm, cfg, s) && Next(vm, cfg, s, a).Some? && Loses(s, a, r)
    ensures r in s.heap && !s.heap[r].terminal && Lost(Next(vm, cfg, s, a).value, r)
  {
    hide Next, Inv, Settles, Owns, HoldsTaken;
    InvKnowsFlight(vm, cfg, s, a.f);
    HeldIsInHeap(vm, s, a.f, r);
    HeldProgressIsOut(vm, cfg, s, a.f, r);
    HeapIsFramed(vm, cfg, s, a);
    FlightsAreFramed(vm, cfg, s, a);
    LoserLetsGo(vm, cfg, s, a, r);
    hide FlightOk;
    var t := Next(vm, cfg, s, a).value;
    forall g ensures !HeldBy(t, g, r) {
      if g != a.f && g in s.flights {
        OwnersAreApart(vm, cfg, s, g, a.f, r);
      }
    }
  }

  lemma HeldIsInHeap(vm: Vm, s: Sys, f: Fid, r: Ref)
    requires HeldBy(s, f, r) && FlightOk(vm, s, s.flights[f])
    ensures r in s.heap
  {
    hide CursorOf, BegunOk, ResultOk, JobOk;
  }

  /** A step makes a live session's progress lost if and only if it is one of the losing steps. */
  lemma LostIffLoses(vm: Vm, cfg: Settings, s: Sys, a: Action, r: Ref)
    requires Settles(vm) && Inv(vm, cfg, s) && Next(vm, cfg, s, a).Some?
    requires r in s.heap && !s.heap[r].terminal && !Lost(s, r)
    ensures Lost(Next(vm, cfg, s, a).value, r) <==> Loses(s, a, r)
  {
    hide Next, Inv, Settles, Lost, Loses;
    KeepsUnlessLoses(vm, cfg, s, a, r);
    if Loses(s, a, r) {
      LosesMeansLost(vm, cfg, s, a, r);
    }
  }

  lemma LostStep(vm: Vm, cfg: Settings, s: Sys, a: Action, r: Ref)
    requires Settles(vm) && Inv(vm, cfg, s) && Next(vm, cfg, s, a).Some? && Lost(s, r)
    ensures var t := Next(vm, cfg, s, a).value;
            Lost(t, r) && t.heap[r] == s.heap[r]
  {
    hide Next, Inv, Settles;
    var t := Next(vm, cfg, s, a).value;
    HeapIsFramed(vm, cfg, s, a);
    forall f ensures !HeldBy(t, f, r) {
      if HeldBy(t, f, r) {
        HoldingStartsWithAcquire(vm, cfg, s, a, f, r);
        assert false;
      }
    }
  }

  /** Lost progress never comes back: whatever happens, the session answers busy from then on. */
  lemma {:induction false} LostStaysLost(vm: Vm, cfg: Settings, s: Sys, actions: seq<Action>, r: Ref)
    requires Settles(vm) && Inv(vm, cfg, s) && Run(vm, cfg, s, actions).Some? && Lost(s, r)
    ensures var t := Run(vm, cfg, s, actions).value;
            Lost(t, r) && t.heap[r] == s.heap[r] && Acquired(t.heap[r]).1 == Err(Busy)
  {
    hide Next, Inv, Settles, HoldsTaken, Owns;
    if actions != [] {
      var earlier := actions[..|actions| - 1];
      LostStaysLost(vm, cfg, s, earlier, r);
      RunKeepsInv(vm, cfg, s, earlier);
      LostStep(vm, cfg, Run(vm, cfg, s, earlier).value, actions[|actions| - 1], r);
    }
  }

  lemma TerminalStep(vm: Vm, cfg: Settings, s: Sys, a: Action, r: Ref)
    requires Settles(vm) && Inv(vm, cfg, s) && Next(vm, cfg, s, a).Some? && r in s.heap && s.heap[r].terminal
    ensures var t := Next(vm, cfg, s, a).value;
            r in t.heap && t.heap[r] == s.heap[r]
  {
    hide Next, Settles, Inv, Owns, HoldsTaken;
    HeapIsFramed(vm, cfg, s, a);
    if OfFlight(a) && HeldBy(s, a.f, r) {
      HeldProgressIsOut(vm, cfg, s, a.f, r);
      assert false;
    }
  }

  /** Finished is for good: whatever happens, a terminal entry is never written again. */
  lemma {:induction false} TerminalIsAbsorbing(vm: Vm, cfg: Settings, s: Sys, actions: seq<Action>, r: Ref)
    requires Settles(vm) && Inv(vm, cfg, s) && Run(vm, cfg, s, actions).Some? && r in s.heap && s.heap[r].terminal
    ensures var t := Run(vm, cfg, s, actions).value;
            r in t.heap && t.heap[r] == s.heap[r]
  {
    hide Next, Inv, Settles;
    if actions != [] {
      var earlier := actions[..|actions| - 1];
      TerminalIsAbsorbing(vm, cfg, s, earlier, r);
      RunKeepsInv(vm, cfg, s, earlier);
      TerminalStep(vm, cfg, Run(vm, cfg, s, earlier).value, actions[|actions| - 1], r);
    }
  }

  /** An entry is made with its progress in, or finished. */
  lemma NewIsNotLost(vm: Vm, cfg: Settings, s: Sys, a: Action, r: Ref)
    requires Settles(vm) && Next(vm, cfg, s, a).Some? && r !in s.heap
    ensures !Lost(Next(vm, cfg, s, a).value, r)
  {
    hide Next, Settles, TakesNothing, AddsNoId, OnlyFlight, Owns, HoldsTaken;
    var t := Next(vm, cfg, s, a).value;
    StepsAreShaped(vm, cfg, s, a);
    if a.Insert? {
      FlightSteps(vm, cfg, s, a);
    } else if !a.Acquire? && !a.Collect? {
      LeavesHeap(s, a, t);
    }
  }

  /** Over whole runs: a session's progress is lost exactly when some step on the way was a losing one. */
  lemma {:induction false} LostIffSomeStepLoses(vm: Vm, cfg: Settings, actions: seq<Action>, r: Ref)
    requires Settles(vm) && Run(vm, cfg, Init(cfg), actions).Some?
    ensures Lost(Run(vm, cfg, Init(cfg), actions).value, r) <==>
            exists i :: 0 <= i < |actions| && Loses(Before(vm, cfg, Init(cfg), actions, i), actions[i], r)
  {
    hide Next, Inv, Settles, Loses, Run, HeldBy;
    var (n, s0) := (|actions|, Init(cfg));
    if n == 0 {
      EmptyRun(vm, cfg, s0);
    } else {
      var earlier := actions[..n - 1];
      assert actions[..n] == actions;
      PrefixRuns(vm, cfg, s0, actions, n - 1);
      LostIffSomeStepLoses(vm, cfg, earlier, r);
      InitSatisfiesInv(vm, cfg);
      RunKeepsInv(vm, cfg, s0, earlier);
      LostAtLast(vm, cfg, Run(vm, cfg, s0, earlier).value, actions[n - 1], r);
      hide Lost;
      forall i | 0 <= i < n - 1 ensures Before(vm, cfg, s0, actions, i) == Before(vm, cfg, s0, earlier, i) {
        SamePrefix(vm, cfg, s0, actions, n - 1, i);
      }
      if i :| 0 <= i < n - 1 && Loses(Before(vm, cfg, s0, earlier, i), earlier[i], r) {
        assert Loses(Before(vm, cfg, s0, actions, i), actions[i], r);
      }
    }
  }

  lemma SamePrefix(vm: Vm, cfg: Settings, s: Sys, actions: seq<Action>, n: nat, i: nat)
    requires Settles(vm) && i <= n <= |actions| && Run(vm, cfg, s, actions).Some? && Run(vm, cfg, s, actions[..n]).Some?
    ensures Before(vm, cfg, s, actions, i) == Before(vm, cfg, s, actions[..n], i)
  {
    hide Next, Settles, Run;
    assert actions[..n][..i] == actions[..i];
  }

  lemma LostAtLast(vm: Vm, cfg: Settings, s: Sys, a: Action, r: Ref)
    requires Settles(vm) && Inv(vm, cfg, s) && Next(vm, cfg, s, a).Some?
    ensures Lost(Next(vm, cfg, s, a).value, r) <==> Lost(s, r) || Loses(s, a, r)
  {
    hide Next, Inv, Settles, Loses, HeldBy;
    if Loses(s, a, r) {
      LosesMeansLost(vm, cfg, s, a, r);
    } else if Lost(s, r) {
      LostStep(vm, cfg, s, a, r);
    } else if r !in s.heap {
      NewIsNotLost(vm, cfg, s, a, r);
    } else if s.heap[r].terminal {
      TerminalStep(vm, cfg, s, a, r);
    } else {
      LostIffLoses(vm, cfg, s, a, r);
    }
  }
}
