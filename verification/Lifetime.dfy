/** How long sessions stay in the store: expiry, the reaper's passes, and no resurrection. */
module Lifetime {
  import opened Engine
  import opened Session
  import opened Protocol
  import opened ProtocolInvariant
  import opened ProtocolTheorems

  // ---------------------------------------------------------------- what a step does to the store

  ghost predicate IdsFramed(s: Sys, a: Action, t: Sys) {
    && s.issued <= t.issued
    && (forall id :: id in t.ids ==>
          || (id in s.ids && t.ids[id] == s.ids[id])
          || (a.Insert? && id !in s.issued && a.f in s.flights && s.flights[a.f].phase.Admitted?
              && t.ids[id] == s.flights[a.f].phase.ref))
  }

  lemma IdsAreFramed(vm: Vm, cfg: Settings, s: Sys, a: Action)
    requires Settles(vm) && Next(vm, cfg, s, a).Some?
    ensures IdsFramed(s, a, Next(vm, cfg, s, a).value)
  {
    hide Next, Settles, TakesNothing;
    StepsAreShaped(vm, cfg, s, a);
  }

  /** A removed id never names a session again, whatever is later stored into its detached entry. */
  lemma {:induction false} RemovedIdNeverReturns(vm: Vm, cfg: Settings, s: Sys, actions: seq<Action>, id: Id)
    requires Settles(vm) && Run(vm, cfg, s, actions).Some?
    requires id in s.issued && id !in s.ids
    ensures var t := Run(vm, cfg, s, actions).value;
            id in t.issued && id !in t.ids
  {
    hide Next;
    if actions != [] {
      RemovedIdNeverReturns(vm, cfg, s, actions[..|actions| - 1], id);
      IdsAreFramed(vm, cfg, Run(vm, cfg, s, actions[..|actions| - 1]).value, actions[|actions| - 1]);
    }
  }

  lemma ExpiryStep(vm: Vm, cfg: Settings, s: Sys, a: Action, r: Ref)
    requires Settles(vm) && Inv(vm, cfg, s) && Next(vm, cfg, s, a).Some? && r in s.heap
    ensures var t := Next(vm, cfg, s, a).value;
            && r in t.heap && s.heap[r].expiresAt <= t.heap[r].expiresAt
            && t.heap[r].ttl == s.heap[r].ttl && t.heap[r].principal == s.heap[r].principal
  {
    hide Next, Settles, Inv, CursorOf, Writes;
    HeapIsFramed(vm, cfg, s, a);
    if Writes(s, a, r) {
      InvKnowsRef(vm, cfg, s, r);
      WriteMovesExpiryForward(vm, cfg, s, a, r);
    }
  }

  /** Whatever happens, expiry only ever moves forward, and owner and lifetime are fixed. */
  lemma {:induction false} ExpiryNeverDecreases(vm: Vm, cfg: Settings, s: Sys, actions: seq<Action>, r: Ref)
    requires Settles(vm) && Inv(vm, cfg, s) && Run(vm, cfg, s, actions).Some? && r in s.heap
    ensures var t := Run(vm, cfg, s, actions).value;
            && r in t.heap && s.heap[r].expiresAt <= t.heap[r].expiresAt
            && t.heap[r].ttl == s.heap[r].ttl && t.heap[r].principal == s.heap[r].principal
  {
    hide Next, Settles, Inv;
    if actions != [] {
      var earlier := actions[..|actions| - 1];
      ExpiryNeverDecreases(vm, cfg, s, earlier, r);
      RunKeepsInv(vm, cfg, s, earlier);
      ExpiryStep(vm, cfg, Run(vm, cfg, s, earlier).value, actions[|actions| - 1], r);
    }
  }

  lemma WriteMovesExpiryForward(vm: Vm, cfg: Settings, s: Sys, a: Action, r: Ref)
    requires Settles(vm) && Next(vm, cfg, s, a).Some? && r in s.heap && Writes(s, a, r)
    requires s.heap[r].expiresAt <= s.now + s.heap[r].ttl
    ensures var t := Next(vm, cfg, s, a).value;
            && r in t.heap && s.heap[r].expiresAt <= t.heap[r].expiresAt
            && t.heap[r].ttl == s.heap[r].ttl && t.heap[r].principal == s.heap[r].principal
  {
    hide Next, Settles;
    FlightSteps(vm, cfg, s, a);
  }

  // ---------------------------------------------------------------- bounded lifetime

  /**
   An observer of a run: the clock reading of the last completed pass of the reaper, and when
   each entry was inserted or last stored into.
   */
  datatype Watch = Watch(lastPass: nat, touched: map<Ref, nat>)

  function Watched(s: Sys, w: Watch, a: Action): Watch {
    match a
    case Sweep => w.(lastPass := s.now)
    case ReapEnd => if s.reaper.Removing? then w.(lastPass := s.reaper.at) else w
    case Insert(f, _, _) =>
      if f in s.flights && s.flights[f].phase.Admitted? then w.(touched := w.touched[s.flights[f].phase.ref := s.now])
      else w
    case Collect(f) =>
      if f in s.flights && s.flights[f].phase.Returned? && s.flights[f].phase.result.DidStep? then
        w.(touched := w.touched[s.flights[f].phase.result.ref := s.now])
      else w
    case _ => w
  }

  ghost function WatchRun(vm: Vm, cfg: Settings, s: Sys, w: Watch, actions: seq<Action>): Watch
    requires Settles(vm) && Run(vm, cfg, s, actions).Some?
  {
    if actions == [] then w
    else
      var earlier := actions[..|actions| - 1];
      Watched(Run(vm, cfg, s, earlier).value, WatchRun(vm, cfg, s, w, earlier), actions[|actions| - 1])
  }

  /** Expiry is at most one lifetime after the last touch. */
  ghost predicate TouchesOk(s: Sys, w: Watch) {
    forall r :: r in s.heap ==>
      r in w.touched && w.touched[r] <= s.now && s.heap[r].expiresAt <= w.touched[r] + s.heap[r].ttl
  }

  /** `id`'s session was touched less than a lifetime before `at`, or since. */
  predicate Cleared(s: Sys, w: Watch, at: nat, id: Id) {
    id in s.ids && s.ids[id] in s.heap && s.ids[id] in w.touched ==> at <= w.touched[s.ids[id]] + s.heap[s.ids[id]].ttl
  }

  /** The last completed pass has cleared whatever is in the store, and the running one what it is past. */
  ghost predicate PassesOk(s: Sys, w: Watch) {
    && w.lastPass <= s.now
    && (forall id :: id in s.ids ==> Cleared(s, w, w.lastPass, id))
    && match s.reaper
       case Resting => true
       case Scanning(at, due, seen, expired) =>
         at <= s.now && forall id :: id in s.ids && (id in due ==> id in seen && id !in expired) ==>
             Cleared(s, w, at, id)
       case Removing(at, expired) =>
         at <= s.now && forall id :: id in s.ids && id !in expired ==> Cleared(s, w, at, id)
  }

  lemma TouchesStayOk(vm: Vm, cfg: Settings, s: Sys, w: Watch, a: Action)
    requires Settles(vm) && Inv(vm, cfg, s) && Next(vm, cfg, s, a).Some? && TouchesOk(s, w)
    ensures TouchesOk(Next(vm, cfg, s, a).value, Watched(s, w, a))
  {
    var t := Next(vm, cfg, s, a).value;
    HeapIsFramed(vm, cfg, s, a);
    FlightsAreFramed(vm, cfg, s, a);
    forall r | r in t.heap
      ensures r in Watched(s, w, a).touched && Watched(s, w, a).touched[r] <= t.now
      ensures t.heap[r].expiresAt <= Watched(s, w, a).touched[r] + t.heap[r].ttl
    {
      if r in s.heap && Writes(s, a, r) {
        WrittenTouch(vm, cfg, s, w, a, r);
      } else if r !in s.heap {
        NewTouch(vm, cfg, s, w, a, r);
      } else {
        UnwrittenTouch(vm, cfg, s, w, a, r);
      }
    }
  }

  lemma WrittenTouch(vm: Vm, cfg: Settings, s: Sys, w: Watch, a: Action, r: Ref)
    requires Settles(vm) && Next(vm, cfg, s, a).Some? && TouchesOk(s, w)
    requires r in s.heap && Writes(s, a, r)
    ensures var (t, v) := (Next(vm, cfg, s, a).value, Watched(s, w, a));
            r in t.heap && r in v.touched && v.touched[r] <= t.now
                && t.heap[r].expiresAt <= v.touched[r] + t.heap[r].ttl
  {
    hide Next, Settles;
    FlightSteps(vm, cfg, s, a);
  }

  lemma NewTouch(vm: Vm, cfg: Settings, s: Sys, w: Watch, a: Action, r: Ref)
    requires Settles(vm) && Next(vm, cfg, s, a).Some? && r in Next(vm, cfg, s, a).value.heap && r !in s.heap
    ensures var (t, v) := (Next(vm, cfg, s, a).value, Watched(s, w, a));
            r in v.touched && v.touched[r] <= t.now && t.heap[r].expiresAt <= v.touched[r] + t.heap[r].ttl
  {
    hide Next, Settles;
    StepsAreShaped(vm, cfg, s, a);
    assert a.Insert? by {
      hide TakesNothing, AddsNoId;
    }
    FlightSteps(vm, cfg, s, a);
  }

  /** Only an insertion or the storing of a step moves an entry's last touch. */
  lemma OnlyWritesTouch(vm: Vm, s: Sys, w: Watch, a: Action, r: Ref)
    requires r in s.heap && r in w.touched && !Writes(s, a, r)
    requires OfFlight(a) && a.f in s.flights ==> FlightOk(vm, s, s.flights[a.f])
    ensures r in Watched(s, w, a).touched && Watched(s, w, a).touched[r] == w.touched[r]
  {
    hide BegunOk, CursorOf, JobOk, ResultOk;
  }

  lemma TouchesMoveForward(s: Sys, w: Watch, a: Action, r: Ref)
    requires r in w.touched && w.touched[r] <= s.now
    ensures r in Watched(s, w, a).touched && w.touched[r] <= Watched(s, w, a).touched[r]
  {
  }

  lemma UnwrittenTouch(vm: Vm, cfg: Settings, s: Sys, w: Watch, a: Action, r: Ref)
    requires Settles(vm) && Inv(vm, cfg, s) && Next(vm, cfg, s, a).Some? && TouchesOk(s, w)
    requires r in s.heap && !Writes(s, a, r)
    ensures var (t, v) := (Next(vm, cfg, s, a).value, Watched(s, w, a));
            && r in t.heap && r in v.touched && v.touched[r] <= t.now
            && t.heap[r].expiresAt <= v.touched[r] + t.heap[r].ttl
  {
    assert OfFlight(a) && a.f in s.flights ==> FlightOk(vm, s, s.flights[a.f]);
    hide Next, Inv, Settles, FlightOk, Watched, Writes;
    HeapIsFramed(vm, cfg, s, a);
    FlightsAreFramed(vm, cfg, s, a);
    OnlyWritesTouch(vm, s, w, a, r);
  }

  /** Whatever was cleared stays cleared, and a new session is clear of every earlier reading. */
  lemma ClearedStays(vm: Vm, cfg: Settings, s: Sys, w: Watch, a: Action, at: nat, id: Id)
    requires Settles(vm) && Inv(vm, cfg, s) && Next(vm, cfg, s, a).Some? && TouchesOk(s, w)
    requires at <= s.now && id in Next(vm, cfg, s, a).value.ids
    requires id in s.ids ==> Cleared(s, w, at, id)
    ensures Cleared(Next(vm, cfg, s, a).value, Watched(s, w, a), at, id)
  {
    hide Next, Settles, FlightsOk, HeapOk, Exclusive, PermitsOk;
    IdsAreFramed(vm, cfg, s, a);
    var r := Next(vm, cfg, s, a).value.ids[id];
    if id in s.ids && s.ids[id] == r {
      ExpiryStep(vm, cfg, s, a, r);
      TouchesMoveForward(s, w, a, r);
    }
  }

  /** An unexpired session is clear of the reading that found it so. */
  lemma UnexpiredIsCleared(s: Sys, w: Watch, at: nat, id: Id)
    requires TouchesOk(s, w) && !ExpiredId(s, id, at)
    ensures Cleared(s, w, at, id)
  {
  }

  lemma ReapKeepsPasses(s: Sys, w: Watch, a: Action)
    requires DoReap(s, a).Some? && TouchesOk(s, w) && PassesOk(s, w)
    ensures PassesOk(DoReap(s, a).value, Watched(s, w, a))
  {
    hide Cleared, TouchesOk, ExpiredId;
    var (t, v) := (DoReap(s, a).value, Watched(s, w, a));
    forall at: nat, id | id in t.ids && Cleared(s, w, at, id) ensures Cleared(t, v, at, id) {
      ReapKeepsCleared(s, w, a, at, id);
    }
    forall at: nat, id | id in t.ids && !ExpiredId(s, id, at) ensures Cleared(t, v, at, id) {
      UnexpiredIsCleared(s, w, at, id);
      ReapKeepsCleared(s, w, a, at, id);
    }
  }

  lemma ReapKeepsCleared(s: Sys, w: Watch, a: Action, at: nat, id: Id)
    requires DoReap(s, a).Some? && id in DoReap(s, a).value.ids && Cleared(s, w, at, id)
    ensures Cleared(DoReap(s, a).value, Watched(s, w, a), at, id)
  {
  }

  lemma SameReaper(s: Sys, w: Watch, a: Action, t: Sys)
    requires StepShape(s, a, t) && !IsReap(a)
    ensures t.reaper == s.reaper && Watched(s, w, a).lastPass == w.lastPass
  {
    hide TakesNothing, AddsNoId;
  }

  lemma PassesStayOk(vm: Vm, cfg: Settings, s: Sys, w: Watch, a: Action)
    requires Settles(vm) && Inv(vm, cfg, s) && Next(vm, cfg, s, a).Some? && TouchesOk(s, w) && PassesOk(s, w)
    ensures PassesOk(Next(vm, cfg, s, a).value, Watched(s, w, a))
  {
    hide Next, Settles, Inv, TouchesOk, Cleared;
    var (t, v) := (Next(vm, cfg, s, a).value, Watched(s, w, a));
    StepsAreShaped(vm, cfg, s, a);
    if IsReap(a) {
      ReapSteps(vm, cfg, s, a);
      ReapKeepsPasses(s, w, a);
    } else {
      FlightsAreFramed(vm, cfg, s, a);
      SameReaper(s, w, a, t);
      hide StepShape, Watched;
      forall at: nat, id | at <= s.now && id in t.ids && (id in s.ids ==> Cleared(s, w, at, id))
          ensures Cleared(t, v, at, id) {
        ClearedStays(vm, cfg, s, w, a, at, id);
      }
    }
  }

  lemma {:induction false} WatchStaysOk(vm: Vm, cfg: Settings, actions: seq<Action>)
    requires Settles(vm) && Run(vm, cfg, Init(cfg), actions).Some?
    ensures var t := Run(vm, cfg, Init(cfg), actions).value;
            var w := WatchRun(vm, cfg, Init(cfg), Watch(0, map[]), actions);
            Inv(vm, cfg, t) && TouchesOk(t, w) && PassesOk(t, w)
  {
    InitSatisfiesInv(vm, cfg);
    hide Next, Inv;
    if actions != [] {
      hide TouchesOk, PassesOk, Watched;
      var earlier := actions[..|actions| - 1];
      WatchStaysOk(vm, cfg, earlier);
      var s := Run(vm, cfg, Init(cfg), earlier).value;
      var w := WatchRun(vm, cfg, Init(cfg), Watch(0, map[]), earlier);
      NextKeepsInv(vm, cfg, s, actions[|actions| - 1]);
      TouchesStayOk(vm, cfg, s, w, actions[|actions| - 1]);
      PassesStayOk(vm, cfg, s, w, actions[|actions| - 1]);
    }
  }

  /**
   Bounded lifetime, with passes interleaved with everything else: while the last completed pass
   read its clock at most `gap` ago, an id is in the store only until its lifetime and one gap
   after its entry was inserted or last stored into; sessions whose progress was lost are no
   exception. Passes that start at most G apart and take at most D each make a gap of G + D.
   */
  lemma LifetimeIsBounded(vm: Vm, cfg: Settings, actions: seq<Action>, gap: nat, id: Id)
    requires Settles(vm) && Run(vm, cfg, Init(cfg), actions).Some?
    requires var w := WatchRun(vm, cfg, Init(cfg), Watch(0, map[]), actions);
             Run(vm, cfg, Init(cfg), actions).value.now <= w.lastPass + gap
    ensures var t := Run(vm, cfg, Init(cfg), actions).value;
            var w := WatchRun(vm, cfg, Init(cfg), Watch(0, map[]), actions);
            id in t.ids ==>
              && t.ids[id] in t.heap && t.ids[id] in w.touched
              && t.now <= w.touched[t.ids[id]] + t.heap[t.ids[id]].ttl + gap
  {
    WatchStaysOk(vm, cfg, actions);
    hide Next, Settles;
  }
}
