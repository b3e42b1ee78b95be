/** A session belongs to the principal that created it; to anybody else it looks absent. */
module Isolation {
  import opened Wrappers
  import opened Engine
  import opened Session
  import opened Api
  import opened Protocol
  import opened ProtocolInvariant
  import opened ProtocolTheorems
  import opened Lifetime

  predicate BelongsTo(s: Sys, r: Ref, caller: string) {
    r in s.heap && s.heap[r].principal == caller
  }

  /** Whatever a request has looked up, holds or is about to delete belongs to the principal it arrived with. */
  predicate CallerOk(s: Sys, flight: Flight) {
    match flight.phase
    case ResumeFound(_, ref, _) => BelongsTo(s, ref, flight.caller)
    case Viewing(_, ref) => BelongsTo(s, ref, flight.caller)
    case DeleteOwned(id) => id in s.issued && (id in s.ids ==> BelongsTo(s, s.ids[id], flight.caller))
    case _ => HoldsTaken(flight.phase) ==>
        Owns(flight.phase).Some? && BelongsTo(s, Owns(flight.phase).value, flight.caller)
  }

  ghost predicate CallersOk(s: Sys) {
    forall f :: f in s.flights ==> CallerOk(s, s.flights[f])
  }

  // ---------------------------------------------------------------- one step

  lemma OtherCallerStaysOk(vm: Vm, cfg: Settings, s: Sys, a: Action, flight: Flight)
    requires Settles(vm) && Inv(vm, cfg, s) && Next(vm, cfg, s, a).Some? && CallerOk(s, flight)
    ensures CallerOk(Next(vm, cfg, s, a).value, flight)
  {
    hide Next, Settles, Inv, HoldsTaken;
    var t := Next(vm, cfg, s, a).value;
    IdsAreFramed(vm, cfg, s, a);
    forall r | r in s.heap ensures r in t.heap && t.heap[r].principal == s.heap[r].principal {
      ExpiryStep(vm, cfg, s, a, r);
    }
  }

  /** Looking up finds only what the caller owns. */
  lemma FindsOnlyOwn(s: Sys, a: Action)
    requires OfFlight(a) && a.f in s.flights
    requires forall id :: id in s.ids ==> id in s.issued
    ensures a.LookUp? && DoLookUp(s, a.f).Some? ==> OwnCallerOk(s, DoLookUp(s, a.f).value, a.f)
    ensures a.CheckOwner? && DoCheckOwner(s, a.f).Some? ==> OwnCallerOk(s, DoCheckOwner(s, a.f).value, a.f)
  {
    hide Owns;
  }

  /** Taking progress and writing back stay with the entry found. */
  lemma StaysWithOwn(cfg: Settings, s: Sys, a: Action)
    requires OfFlight(a) && a.f in s.flights && CallerOk(s, s.flights[a.f])
    ensures a.Acquire? && DoAcquire(s, a.f).Some? ==> OwnCallerOk(s, DoAcquire(s, a.f).value, a.f)
    ensures a.Collect? && DoCollect(cfg, s, a.f).Some? ==> OwnCallerOk(s, DoCollect(cfg, s, a.f).value, a.f)
  {
  }

  predicate OwnCallerOk(s: Sys, t: Sys, f: Fid) {
    f in t.flights && CallerOk(t, t.flights[f])
  }

  /** No other step finds anything. */
  lemma WorkFindsNothing(vm: Vm, s: Sys, a: Action)
    requires Settles(vm) && OfFlight(a) && a.f in s.flights
    ensures a.Begin? && DoBegin(vm, s, a.f, a.ref, a.created).Some? ==>
              FoundNothing(DoBegin(vm, s, a.f, a.ref, a.created).value, a.f)
    ensures a.Finish? && DoFinish(vm, s, a.f, a.env, a.clocks).Some? ==>
              FoundNothing(DoFinish(vm, s, a.f, a.env, a.clocks).value, a.f)
    ensures a.Panic? && DoPanic(s, a.f, a.hooks).Some? ==> FoundNothing(DoPanic(s, a.f, a.hooks).value, a.f)
  {
    hide Settles, Settled, FinishStep, ApplyResume, HooksRun, Matches;
  }

  lemma WaitFindsNothing(s: Sys, a: Action)
    requires OfFlight(a) && a.f in s.flights
    ensures a.Grant? && DoGrant(s, a.f).Some? ==> FoundNothing(DoGrant(s, a.f).value, a.f)
    ensures a.Spawn? && DoSpawn(s, a.f).Some? ==> FoundNothing(DoSpawn(s, a.f).value, a.f)
    ensures a.Cancel? && DoCancel(s, a.f).Some? ==> FoundNothing(DoCancel(s, a.f).value, a.f)
    ensures a.Insert? && DoInsert(s, a.f, a.id, a.builtAt).Some? ==>
              FoundNothing(DoInsert(s, a.f, a.id, a.builtAt).value, a.f)
    ensures a.View? && DoView(s, a.f).Some? ==> FoundNothing(DoView(s, a.f).value, a.f)
    ensures a.RemoveId? && DoRemoveId(s, a.f).Some? ==> FoundNothing(DoRemoveId(s, a.f).value, a.f)
  {
    hide Render, NewEntry;
  }

  predicate FoundNothing(t: Sys, f: Fid) {
    && f in t.flights
    && !t.flights[f].phase.ResumeFound? && !t.flights[f].phase.Viewing? && !t.flights[f].phase.DeleteOwned?
  }

  lemma OwnCallerStaysOk(vm: Vm, cfg: Settings, s: Sys, a: Action)
    requires Settles(vm) && Inv(vm, cfg, s) && Next(vm, cfg, s, a).Some? && CallersOk(s) && OfFlight(a)
    ensures OwnCallerOk(s, Next(vm, cfg, s, a).value, a.f)
  {
    hide Next, Settles, Inv, HoldsTaken, Owns, CallerOk;
    var t := Next(vm, cfg, s, a).value;
    StepsAreShaped(vm, cfg, s, a);
    if a.Arrive? {
      ArrivalIsFine(s, t, a.f);
    } else {
      FlightSteps(vm, cfg, s, a);
      if a.LookUp? || a.CheckOwner? {
        IdsAreIssued(vm, cfg, s);
        FindsOnlyOwn(s, a);
      } else if a.Acquire? || a.Collect? {
        StaysWithOwn(cfg, s, a);
      } else {
        WorkFindsNothing(vm, s, a);
        WaitFindsNothing(s, a);
        if HoldsTaken(t.flights[a.f].phase) {
          ExpiryOfHeld(vm, cfg, s, a);
        }
        NothingFoundIsFine(s, t, a.f);
      }
    }
  }

  lemma IdsAreIssued(vm: Vm, cfg: Settings, s: Sys)
    requires Inv(vm, cfg, s)
    ensures forall id :: id in s.ids ==> id in s.issued
  {
    hide FlightsOk, Exclusive, HeapOk, PermitsOk;
  }

  lemma ArrivalIsFine(s: Sys, t: Sys, f: Fid)
    requires f in t.flights && IsArrival(t.flights[f].phase)
    ensures CallerOk(t, t.flights[f])
  {
  }

  lemma ExpiryOfHeld(vm: Vm, cfg: Settings, s: Sys, a: Action)
    requires Settles(vm) && Inv(vm, cfg, s) && Next(vm, cfg, s, a).Some? && OfFlight(a) && a.f in s.flights
    requires CallerOk(s, s.flights[a.f]) && HoldsTaken(s.flights[a.f].phase)
    ensures var r := Owns(s.flights[a.f].phase);
            r.Some? && BelongsTo(s, r.value, s.flights[a.f].caller)
            && BelongsTo(Next(vm, cfg, s, a).value, r.value, s.flights[a.f].caller)
  {
    hide Next, Settles, Inv;
    assert BelongsTo(s, Owns(s.flights[a.f].phase).value, s.flights[a.f].caller);
    ExpiryStep(vm, cfg, s, a, Owns(s.flights[a.f].phase).value);
  }

  lemma NothingFoundIsFine(s: Sys, t: Sys, f: Fid)
    requires FoundNothing(t, f)
    requires HoldsTaken(t.flights[f].phase) ==>
               Owns(t.flights[f].phase).Some? && BelongsTo(t, Owns(t.flights[f].phase).value, t.flights[f].caller)
    ensures CallerOk(t, t.flights[f])
  {
    hide Owns, HoldsTaken;
  }

  lemma CallersStep(vm: Vm, cfg: Settings, s: Sys, a: Action)
    requires Settles(vm) && Inv(vm, cfg, s) && Next(vm, cfg, s, a).Some? && CallersOk(s)
    ensures CallersOk(Next(vm, cfg, s, a).value)
  {
    hide Next, Settles, Inv, CallerOk;
    var t := Next(vm, cfg, s, a).value;
    FlightsAreFramed(vm, cfg, s, a);
    forall f | f in t.flights ensures CallerOk(t, t.flights[f]) {
      if ActsOn(a, f) {
        OwnCallerStaysOk(vm, cfg, s, a);
      } else {
        OtherCallerStaysOk(vm, cfg, s, a, s.flights[f]);
      }
    }
  }

  lemma {:induction false} CallersStayOk(vm: Vm, cfg: Settings, actions: seq<Action>)
    requires Settles(vm) && Run(vm, cfg, Init(cfg), actions).Some?
    ensures Inv(vm, cfg, Run(vm, cfg, Init(cfg), actions).value) && CallersOk(Run(vm, cfg, Init(cfg), actions).value)
  {
    hide Next, Settles, Inv, CallerOk;
    InitSatisfiesInv(vm, cfg);
    if actions != [] {
      hide CallersOk;
      var earlier := actions[..|actions| - 1];
      CallersStayOk(vm, cfg, earlier);
      var s := Run(vm, cfg, Init(cfg), earlier).value;
      NextKeepsInv(vm, cfg, s, actions[|actions| - 1]);
      CallersStep(vm, cfg, s, actions[|actions| - 1]);
    }
  }

  // ---------------------------------------------------------------- tenants

  /** The entry a step is about: the one it takes from, writes back to, drives, shows, or takes the id of. */
  predicate Touches(s: Sys, a: Action, r: Ref) {
    || Writes(s, a, r)
    || (Drives(s, a, r) && r in s.heap)
    || (a.View? && a.f in s.flights && s.flights[a.f].phase.Viewing? && s.flights[a.f].phase.ref == r)
    || (a.RemoveId? && a.f in s.flights && s.flights[a.f].phase.DeleteOwned?
        && s.flights[a.f].phase.id in s.ids && s.ids[s.flights[a.f].phase.id] == r)
  }

  /** Over all runs: whatever a request reads, drives, writes or deletes belongs to the principal it arrived with. */
  lemma TenantsAreIsolated(vm: Vm, cfg: Settings, actions: seq<Action>, a: Action, r: Ref)
    requires Settles(vm) && Run(vm, cfg, Init(cfg), actions).Some?
    requires Touches(Run(vm, cfg, Init(cfg), actions).value, a, r)
    ensures var s := Run(vm, cfg, Init(cfg), actions).value;
            OfFlight(a) && a.f in s.flights && BelongsTo(s, r, s.flights[a.f].caller)
  {
    hide Next, Settles, Run, Inv;
    var s := Run(vm, cfg, Init(cfg), actions).value;
    CallersStayOk(vm, cfg, actions);
    InvKnowsFlight(vm, cfg, s, a.f);
    assert CallerOk(s, s.flights[a.f]);
    if Drives(s, a, r) && r in s.heap {
      DriverHolds(vm, s, a, r);
    }
    hide FlightOk;
  }

  lemma DriverHolds(vm: Vm, s: Sys, a: Action, r: Ref)
    requires Drives(s, a, r) && r in s.heap && FlightOk(vm, s, s.flights[a.f])
    ensures HoldsTaken(s.flights[a.f].phase)
  {
    hide CursorOf, BegunOk, JobOk;
  }

  /** A new session belongs to the principal whose request made it. */
  lemma NewSessionIsTheCallers(vm: Vm, cfg: Settings, s: Sys, f: Fid, id: Id, builtAt: nat)
    requires Settles(vm) && Next(vm, cfg, s, Insert(f, id, builtAt)).Some?
    ensures var t := Next(vm, cfg, s, Insert(f, id, builtAt)).value;
            f in s.flights && id in t.ids && BelongsTo(t, t.ids[id], s.flights[f].caller)
  {
    hide Next, Settles;
    StepsAreShaped(vm, cfg, s, Insert(f, id, builtAt));
    FlightSteps(vm, cfg, s, Insert(f, id, builtAt));
  }

  /** A request for somebody else's session is answered as if the id were not there. */
  lemma ForeignIdsLookAbsent(vm: Vm, cfg: Settings, s: Sys, a: Action, id: Id)
    requires Settles(vm) && (a.LookUp? || a.CheckOwner?) && a.f in s.flights
    requires id in s.ids ==> s.ids[id] in s.heap && s.heap[s.ids[id]].principal != s.flights[a.f].caller
    requires var phase := s.flights[a.f].phase;
             || (a.LookUp? && phase.ResumeArrived? && phase.id == id)
             || (a.LookUp? && phase.StatusArrived? && phase.id == id)
             || (a.CheckOwner? && phase.DeleteArrived? && phase.id == id)
    ensures var absent := s.(ids := s.ids - {id});
            && Next(vm, cfg, s, a).Some? && Next(vm, cfg, absent, a).Some?
            && Next(vm, cfg, s, a).value.flights == Next(vm, cfg, absent, a).value.flights
            && Next(vm, cfg, s, a) == Some(Refuse(s, a.f, SessionNotFound))
  {
    hide Next, Settles;
    FlightSteps(vm, cfg, s, a);
    FlightSteps(vm, cfg, s.(ids := s.ids - {id}), a);
  }
}
