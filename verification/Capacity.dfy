/** How far the store can run over its limit: the length check and the insertion are separate steps. */
module Capacity {
  import opened Wrappers
  import opened Values
  import opened Engine
  import opened Session
  import opened Protocol
  import opened ProtocolTheorems
  import opened Lifetime
  import opened Walks

  /** The creators that have passed the length check and have not inserted yet. */
  function Admitters(s: Sys): set<Fid> {
    set f | f in s.flights && s.flights[f].phase.Admitted?
  }

  /** At no point of the run are more than `k` creators between the check and the insertion. */
  ghost predicate Narrow(vm: Vm, cfg: Settings, s: Sys, actions: seq<Action>, k: nat)
    requires Settles(vm)
  {
    forall n :: 0 <= n <= |actions| ==>
      Run(vm, cfg, s, actions[..n]).Some? && |Admitters(Run(vm, cfg, s, actions[..n]).value)| <= k
  }

  // ---------------------------------------------------------------- the bound

  /** Only a successful length check admits a creator. */
  ghost predicate AdmitsOnlyBelow(cfg: Settings, s: Sys, t: Sys, f: Fid) {
    f in t.flights && t.flights[f].phase.Admitted? ==>
      || (f in s.flights && s.flights[f].phase.Admitted?)
      || (|s.ids| < cfg.maxSessions && t.ids == s.ids)
  }

  lemma WorkAdmitsNobody(vm: Vm, cfg: Settings, s: Sys, a: Action)
    requires Settles(vm) && OfFlight(a) && a.f in s.flights
    ensures a.Begin? && DoBegin(vm, s, a.f, a.ref, a.created).Some? ==>
              AdmitsOnlyBelow(cfg, s, DoBegin(vm, s, a.f, a.ref, a.created).value, a.f)
    ensures a.Finish? && DoFinish(vm, s, a.f, a.env, a.clocks).Some? ==>
              AdmitsOnlyBelow(cfg, s, DoFinish(vm, s, a.f, a.env, a.clocks).value, a.f)
    ensures a.Panic? && DoPanic(s, a.f, a.hooks).Some? ==>
              AdmitsOnlyBelow(cfg, s, DoPanic(s, a.f, a.hooks).value, a.f)
  {
    hide Settles, Settled, FinishStep, ApplyResume, HooksRun, Matches;
  }

  lemma WaitingAdmitsNobody(cfg: Settings, s: Sys, a: Action)
    requires OfFlight(a) && a.f in s.flights
    ensures a.Acquire? && DoAcquire(s, a.f).Some? ==> AdmitsOnlyBelow(cfg, s, DoAcquire(s, a.f).value, a.f)
    ensures a.Grant? && DoGrant(s, a.f).Some? ==> AdmitsOnlyBelow(cfg, s, DoGrant(s, a.f).value, a.f)
    ensures a.Spawn? && DoSpawn(s, a.f).Some? ==> AdmitsOnlyBelow(cfg, s, DoSpawn(s, a.f).value, a.f)
    ensures a.Cancel? && DoCancel(s, a.f).Some? ==> AdmitsOnlyBelow(cfg, s, DoCancel(s, a.f).value, a.f)
    ensures a.Collect? && DoCollect(cfg, s, a.f).Some? ==> AdmitsOnlyBelow(cfg, s, DoCollect(cfg, s, a.f).value, a.f)
  {
    hide Acquired, Stored, Restored;
  }

  lemma ReadingAdmitsNobody(cfg: Settings, s: Sys, a: Action)
    requires OfFlight(a) && a.f in s.flights
    ensures a.LookUp? && DoLookUp(s, a.f).Some? ==> AdmitsOnlyBelow(cfg, s, DoLookUp(s, a.f).value, a.f)
    ensures a.Insert? && DoInsert(s, a.f, a.id, a.builtAt).Some? ==>
              AdmitsOnlyBelow(cfg, s, DoInsert(s, a.f, a.id, a.builtAt).value, a.f)
    ensures a.View? && DoView(s, a.f).Some? ==> AdmitsOnlyBelow(cfg, s, DoView(s, a.f).value, a.f)
    ensures a.CheckOwner? && DoCheckOwner(s, a.f).Some? ==> AdmitsOnlyBelow(cfg, s, DoCheckOwner(s, a.f).value, a.f)
    ensures a.RemoveId? && DoRemoveId(s, a.f).Some? ==> AdmitsOnlyBelow(cfg, s, DoRemoveId(s, a.f).value, a.f)
  {
    hide Api.Render, Visible;
  }

  lemma OnlyTheCheckAdmits(vm: Vm, cfg: Settings, s: Sys, a: Action)
    requires Settles(vm) && Next(vm, cfg, s, a).Some? && OfFlight(a)
    ensures AdmitsOnlyBelow(cfg, s, Next(vm, cfg, s, a).value, a.f)
  {
    hide Next, Settles;
    StepsAreShaped(vm, cfg, s, a);
    if a.f in s.flights {
      FlightSteps(vm, cfg, s, a);
      WorkAdmitsNobody(vm, cfg, s, a);
      WaitingAdmitsNobody(cfg, s, a);
      ReadingAdmitsNobody(cfg, s, a);
    }
  }

  lemma SubsetSize<T>(a: set<T>, b: set<T>)
    requires a <= b
    ensures |a| <= |b|
  {
    assert b == a + (b - a);
  }

  /** Stored and admitted sessions together only grow where the length check succeeds. */
  lemma StoredAndAdmitted(vm: Vm, cfg: Settings, s: Sys, a: Action)
    requires Settles(vm) && Next(vm, cfg, s, a).Some?
    ensures var t := Next(vm, cfg, s, a).value;
            || |t.ids| + |Admitters(t)| <= |s.ids| + |Admitters(s)|
            || |t.ids| == |s.ids| < cfg.maxSessions
  {
    hide Next, Settles;
    var t := Next(vm, cfg, s, a).value;
    if a.Insert? {
      StepsAreShaped(vm, cfg, s, a);
      FlightSteps(vm, cfg, s, a);
      InsertTradesPlaces(s, a.f, a.id, a.builtAt);
    } else {
      FlightsAreFramed(vm, cfg, s, a);
      IdsAreFramed(vm, cfg, s, a);
      if OfFlight(a) {
        OnlyTheCheckAdmits(vm, cfg, s, a);
      }
      SubsetSize(t.ids.Keys, s.ids.Keys);
      if t.ids == s.ids && |s.ids| < cfg.maxSessions {
      } else {
        SubsetSize(Admitters(t), Admitters(s));
      }
    }
  }

  /** An insertion makes one admitted creator into one stored session. */
  lemma InsertTradesPlaces(s: Sys, f: Fid, id: Id, builtAt: nat)
    requires f in s.flights && DoInsert(s, f, id, builtAt).Some?
    ensures var t := DoInsert(s, f, id, builtAt).value;
            && |t.ids| <= |s.ids| + 1 && |Admitters(t)| == |Admitters(s)| - 1
            && (id !in s.ids ==> |t.ids| == |s.ids| + 1)
  {
    hide NewEntry;
    var t := DoInsert(s, f, id, builtAt).value;
    assert t.flights == s.flights[f := t.flights[f]] && t.flights[f].phase.Created? && s.flights[f].phase.Admitted?;
    assert t.ids.Keys == s.ids.Keys + {id};
    hide DoInsert;
    assert Admitters(t) == Admitters(s) - {f};
    assert f in Admitters(s);
  }

  lemma NarrowPrefix(vm: Vm, cfg: Settings, s: Sys, actions: seq<Action>, k: nat)
    requires Settles(vm) && Narrow(vm, cfg, s, actions, k) && actions != []
    ensures Narrow(vm, cfg, s, actions[..|actions| - 1], k)
  {
    hide Run, Settles;
    var earlier := actions[..|actions| - 1];
    forall n | 0 <= n <= |earlier|
      ensures Run(vm, cfg, s, earlier[..n]).Some? && |Admitters(Run(vm, cfg, s, earlier[..n]).value)| <= k
    {
      assert earlier[..n] == actions[..n];
    }
  }

  /**
   With at most `k` creators between check and insertion, the store overshoots its limit by at
   most `k - 1`. A limit of nought is never exceeded, and neither is any when creators come one at a time.
   */
  lemma {:induction false} OvershootIsBounded(vm: Vm, cfg: Settings, actions: seq<Action>, k: nat)
    requires Settles(vm) && k >= 1 && Narrow(vm, cfg, Init(cfg), actions, k)
    ensures Run(vm, cfg, Init(cfg), actions).Some?
    ensures var t := Run(vm, cfg, Init(cfg), actions).value;
            |t.ids| + |Admitters(t)| <= (if cfg.maxSessions == 0 then 0 else cfg.maxSessions + k - 1)
  {
    hide Next, Settles;
    assert actions[..|actions|] == actions;
    if actions == [] {
      assert Admitters(Init(cfg)) == {};
    } else {
      var earlier := actions[..|actions| - 1];
      NarrowPrefix(vm, cfg, Init(cfg), actions, k);
      OvershootIsBounded(vm, cfg, earlier, k);
      StoredAndAdmitted(vm, cfg, Run(vm, cfg, Init(cfg), earlier).value, actions[|actions| - 1]);
    }
  }

  // ---------------------------------------------------------------- a run that gets there

  /** An interpreter whose every program finishes at once. */
  function Quick(program: Program): Vm {
    var turn := Turn(Ok(Complete(PyNone)), [], []);
    Vm(source => Ok(program), (p, env) => turn, (s, answer, env) => turn, s => 0)
  }

  /**
   `stored` sessions are in the store and `admitted` creators wait to insert theirs; all permits
   are free, no time has passed, and no name from `unused` on has been used.
   */
  ghost predicate Staged(cfg: Settings, s: Sys, unused: nat, stored: nat, admitted: nat) {
    && s.now == 0 && s.free == cfg.maxConcurrency
    && |s.ids| == stored && |Admitters(s)| == admitted
    && (forall f :: f in s.flights ==> f < unused && (s.flights[f].phase.Admitted? ==> s.flights[f].phase.since == 0))
    && (forall r :: r in s.trackers ==> r < unused)
    && (forall id :: id in s.issued ==> id < unused)
    && s.ids.Keys <= s.issued
  }

  /** `actions` lead from the start to `s`, with at most `k` creators in between at any time. */
  ghost predicate Leads(vm: Vm, cfg: Settings, actions: seq<Action>, k: nat, s: Sys)
    requires Settles(vm)
  {
    Narrow(vm, cfg, Init(cfg), actions, k) && Run(vm, cfg, Init(cfg), actions) == Some(s)
  }

  lemma LeadsOn(vm: Vm, cfg: Settings, actions: seq<Action>, k: nat, s: Sys, a: Action, t: Sys)
    requires Settles(vm) && Leads(vm, cfg, actions, k, s) && Next(vm, cfg, s, a) == Some(t)
    requires |Admitters(t)| <= k
    ensures Leads(vm, cfg, actions + [a], k, t)
  {
    hide Next, Settles, Run, Admitters;
    RunOne(vm, cfg, Init(cfg), actions, a);
    forall n | 0 <= n <= |actions + [a]|
      ensures Run(vm, cfg, Init(cfg), (actions + [a])[..n]).Some?
      ensures |Admitters(Run(vm, cfg, Init(cfg), (actions + [a])[..n]).value)| <= k
    {
      if n <= |actions| {
        assert (actions + [a])[..n] == actions[..n];
      } else {
        assert (actions + [a])[..n] == actions + [a];
      }
    }
  }

  lemma QuickIsPlain(program: Program)
    ensures Plain(Quick(program), program)
  {
  }

  /** A step of one creator that is neither its admission nor its insertion. */
  lemma LeadsQuietlyOn(vm: Vm, cfg: Settings, actions: seq<Action>, k: nat, s: Sys, a: Action, t: Sys, f: Fid)
    requires Settles(vm) && Leads(vm, cfg, actions, k, s) && Next(vm, cfg, s, a) == Some(t)
    requires f in t.flights && t.flights == s.flights[f := t.flights[f]]
    requires !t.flights[f].phase.Admitted? && (f in s.flights ==> !s.flights[f].phase.Admitted?)
    ensures Leads(vm, cfg, actions + [a], k, t) && Admitters(t) == Admitters(s)
  {
    hide Next, Settles, Run;
    assert Admitters(t) == Admitters(s);
    assert |Admitters(s)| <= k by {
      assert actions[..|actions|] == actions;
    }
    hide Leads;
    LeadsOn(vm, cfg, actions, k, s, a, t);
  }

  lemma CompilesPlainly(vm: Vm, program: Program)
    requires Plain(vm, program)
    ensures vm.compile("") == Ok(program)
  {
  }

  lemma CreatorBegins(vm: Vm, cfg: Settings, program: Program, actions: seq<Action>, k: nat, s: Sys, f: Fid)
    returns (longer: seq<Action>)
    requires Settles(vm) && Plain(vm, program) && s.now == 0 && f !in s.flights && f !in s.trackers && s.free >= 1
    requires Leads(vm, cfg, actions, k, s)
    ensures var t := Started(s, f);
            Leads(vm, cfg, longer, k, t) && Admitters(t) == Admitters(s)
  {
    hide Next, Settles, Leads, Plain, Admitters;
    var (taken, t1) := (s.(free := s.free - 1), With(s, f, Queued(JOB)));
    var (t2, t3, t4) := (With(taken, f, Granted(JOB)), With(taken, f, Running(JOB, None)), Started(s, f));
    CompilesPlainly(vm, program);
    Arrives(vm, cfg, s, f, Queued(JOB));
    IsGranted(vm, cfg, s, f, JOB);
    IsSpawned(vm, cfg, taken, f, JOB);
    StartBegins(vm, cfg, program, s, f);
    LeadsQuietlyOn(vm, cfg, actions, k, s, Arrive(f, "", Queued(JOB)), t1, f);
    longer := actions + [Arrive(f, "", Queued(JOB))];
    LeadsQuietlyOn(vm, cfg, longer, k, t1, Grant(f), t2, f);
    longer := longer + [Grant(f)];
    LeadsQuietlyOn(vm, cfg, longer, k, t2, Spawn(f), t3, f);
    longer := longer + [Spawn(f)];
    LeadsQuietlyOn(vm, cfg, longer, k, t3, Begin(f, f, 0), t4, f);
    longer := longer + [Begin(f, f, 0)];
  }

  lemma CreatorFinishes(vm: Vm, cfg: Settings, program: Program, actions: seq<Action>, k: nat, s: Sys, f: Fid)
    returns (longer: seq<Action>)
    requires Settles(vm) && Plain(vm, program) && s.now == 0 && f !in s.flights && f !in s.trackers && s.free >= 1
    requires Leads(vm, cfg, actions, k, s)
    ensures Leads(vm, cfg, longer, k, Checking(vm, program, s, f))
            && Admitters(Checking(vm, program, s, f)) == Admitters(s)
  {
    hide Next, Settles, Leads, Plain, Admitters;
    longer := CreatorBegins(vm, cfg, program, actions, k, s, f);
    StartFinishes(vm, cfg, program, s, f);
    var t := Checking(vm, program, s, f);
    assert Started(s, f).flights[f := t.flights[f]] == t.flights;
    assert Started(s, f).trackers[f := t.trackers[f]] == t.trackers;
    LeadsQuietlyOn(vm, cfg, longer, k, Started(s, f), Finish(f, 0, AT_ONCE), t, f);
    longer := longer + [Finish(f, 0, AT_ONCE)];
  }

  lemma OneMoreAdmitter(s: Sys, t: Sys, f: Fid, phase: Phase)
    requires f !in s.flights && phase.Admitted? && t.flights == s.flights[f := Flight(true, "", phase)]
    ensures |Admitters(t)| == |Admitters(s)| + 1
  {
    assert Admitters(t) == Admitters(s) + {f};
  }

  lemma CreatorIsAdmitted(vm: Vm, cfg: Settings, program: Program, actions: seq<Action>, k: nat, s: Sys, f: Fid)
    returns (longer: seq<Action>)
    requires Settles(vm) && Plain(vm, program) && s.now == 0 && f !in s.flights && f !in s.trackers && s.free >= 1
    requires |s.ids| < cfg.maxSessions && |Admitters(s)| < k
    requires Leads(vm, cfg, actions, k, s)
    ensures var t := Admission(vm, program, s, f);
            Leads(vm, cfg, longer, k, t) && |Admitters(t)| == |Admitters(s)| + 1
  {
    hide Next, Settles, Leads, Plain, Waiting, Admitters;
    var (u, t) := (Checking(vm, program, s, f), Admission(vm, program, s, f));
    OneMoreAdmitter(s, t, f, Waiting(vm, program, f));
    longer := CreatorFinishes(vm, cfg, program, actions, k, s, f);
    CheckPasses(vm, cfg, program, s, f);
    assert u.flights[f := t.flights[f]] == t.flights;
    LeadsOn(vm, cfg, longer, k, u, Collect(f), t);
    longer := longer + [Collect(f)];
  }

  /** One more creator comes in and gets as far as the length check. */
  lemma OneMoreAdmitted(vm: Vm, cfg: Settings, program: Program, actions: seq<Action>, k: nat, s: Sys, unused: nat,
    stored: nat, admitted: nat)
    returns (longer: seq<Action>, t: Sys)
    requires Settles(vm) && Plain(vm, program) && cfg.maxConcurrency >= 1 && stored < cfg.maxSessions && admitted < k
    requires Leads(vm, cfg, actions, k, s) && Staged(cfg, s, unused, stored, admitted)
    ensures Leads(vm, cfg, longer, k, t) && Staged(cfg, t, unused + 1, stored, admitted + 1)
  {
    hide Next, Settles, Leads, Plain, Admitters;
    longer := CreatorIsAdmitted(vm, cfg, program, actions, k, s, unused);
    t := Admission(vm, program, s, unused);
  }

  /** A waiting creator inserts its session. */
  lemma OneMoreStored(vm: Vm, cfg: Settings, program: Program, actions: seq<Action>, k: nat, s: Sys, unused: nat,
    stored: nat, admitted: nat)
    returns (longer: seq<Action>, t: Sys)
    requires Settles(vm) && Plain(vm, program) && 0 < admitted <= k
    requires Leads(vm, cfg, actions, k, s) && Staged(cfg, s, unused, stored, admitted)
    ensures Leads(vm, cfg, longer, k, t) && Staged(cfg, t, unused + 1, stored + 1, admitted - 1)
  {
    var f := Inserter(cfg, s, unused, stored, admitted);
    hide Next, Settles, Leads, Plain, Admitters, DoInsert;
    FlightSteps(vm, cfg, s, Insert(f, unused, 0));
    t := DoInsert(s, f, unused, 0).value;
    LeadsOn(vm, cfg, actions, k, s, Insert(f, unused, 0), t);
    longer := actions + [Insert(f, unused, 0)];
  }

  lemma Inserter(cfg: Settings, s: Sys, unused: nat, stored: nat, admitted: nat) returns (f: Fid)
    requires 0 < admitted && Staged(cfg, s, unused, stored, admitted)
    ensures f in s.flights && DoInsert(s, f, unused, 0).Some?
    ensures Staged(cfg, DoInsert(s, f, unused, 0).value, unused + 1, stored + 1, admitted - 1)
  {
    f :| f in Admitters(s);
    InsertTradesPlaces(s, f, unused, 0);
    hide NewEntry, Admitters;
  }

  /** Creators come one at a time until the store is all but full. */
  lemma {:induction false} FillUp(vm: Vm, cfg: Settings, program: Program, k: nat, stored: nat)
    returns (actions: seq<Action>, t: Sys, unused: nat)
    requires Settles(vm) && Plain(vm, program) && cfg.maxConcurrency >= 1 && k >= 1 && stored < cfg.maxSessions
    ensures Leads(vm, cfg, actions, k, t) && Staged(cfg, t, unused, stored, 0)
  {
    hide Next, Settles, Plain;
    if stored == 0 {
      actions, t, unused := [], Init(cfg), 0;
      assert Admitters(t) == {};
    } else {
      hide Leads, Staged;
      actions, t, unused := FillUp(vm, cfg, program, k, stored - 1);
      actions, t := OneMoreAdmitted(vm, cfg, program, actions, k, t, unused, stored - 1, 0);
      actions, t := OneMoreStored(vm, cfg, program, actions, k, t, unused + 1, stored - 1, 1);
      unused := unused + 2;
    }
  }

  /** Then `count` of them pass the length check before any of them inserts. */
  lemma {:induction false} AdmitMany(vm: Vm, cfg: Settings, program: Program, k: nat, stored: nat, count: nat)
    returns (actions: seq<Action>, t: Sys, unused: nat)
    requires Settles(vm) && Plain(vm, program) && cfg.maxConcurrency >= 1 && 1 <= k && stored < cfg.maxSessions
             && count <= k
    ensures Leads(vm, cfg, actions, k, t) && Staged(cfg, t, unused, stored, count)
  {
    hide Next, Settles, Leads, Plain, Staged;
    if count == 0 {
      actions, t, unused := FillUp(vm, cfg, program, k, stored);
    } else {
      actions, t, unused := AdmitMany(vm, cfg, program, k, stored, count - 1);
      actions, t := OneMoreAdmitted(vm, cfg, program, actions, k, t, unused, stored, count - 1);
      unused := unused + 1;
    }
  }

  lemma {:induction false} StoreMany(vm: Vm, cfg: Settings, program: Program, k: nat, stored: nat, count: nat)
    returns (actions: seq<Action>, t: Sys, unused: nat)
    requires Settles(vm) && Plain(vm, program) && cfg.maxConcurrency >= 1 && 1 <= k && stored < cfg.maxSessions
             && count <= k
    ensures Leads(vm, cfg, actions, k, t) && Staged(cfg, t, unused, stored + count, k - count)
  {
    hide Next, Settles, Leads, Plain, Staged;
    if count == 0 {
      actions, t, unused := AdmitMany(vm, cfg, program, k, stored, k);
    } else {
      actions, t, unused := StoreMany(vm, cfg, program, k, stored, count - 1);
      actions, t := OneMoreStored(vm, cfg, program, actions, k, t, unused, stored + count - 1, k - count + 1);
      unused := unused + 1;
    }
  }

  /** The bound is attained: some run with at most `k` creators in between ends with `k - 1` sessions too many. */
  lemma OvershootIsAttained(cfg: Settings, program: Program, k: nat) returns (actions: seq<Action>)
    requires cfg.maxSessions >= 1 && cfg.maxConcurrency >= 1 && k >= 1
    ensures Settles(Quick(program)) && Narrow(Quick(program), cfg, Init(cfg), actions, k)
    ensures Run(Quick(program), cfg, Init(cfg), actions).Some?
    ensures |Run(Quick(program), cfg, Init(cfg), actions).value.ids| == cfg.maxSessions + k - 1
  {
    QuickIsPlain(program);
    hide Next, Settles, Quick, Plain;
    PlainSettles(Quick(program), program);
    var t, unused;
    actions, t, unused := StoreMany(Quick(program), cfg, program, k, cfg.maxSessions - 1, k);
  }
}
