/** Who leaves the store, when, and by whose doing: the reaper's passes between everything else. */
module Reaping {
  import opened Wrappers
  import opened Engine
  import opened Session
  import opened Protocol
  import opened ProtocolInvariant
  import opened ProtocolTheorems
  import Losses
  import opened Executions
  import opened Lifetime
  import opened Isolation

  // ---------------------------------------------------------------- what the reaper has collected

  /** An observer of a run: when an entry was last stored into since the reaper last looked at it, if it was. */
  type Since = map<Ref, nat>

  function Noted(s: Sys, since: Since, a: Action): Since {
    if a.ReapVisit? then (if a.id in s.ids then since - {s.ids[a.id]} else since)
    else if a.Collect? && a.f in s.flights && s.flights[a.f].phase.Returned?
        && s.flights[a.f].phase.result.DidStep? then
      since[s.flights[a.f].phase.result.ref := s.now]
    else since
  }

  ghost function NotedRun(vm: Vm, cfg: Settings, s: Sys, since: Since, actions: seq<Action>): Since
    requires Settles(vm) && Run(vm, cfg, s, actions).Some?
  {
    if actions == [] then since
    else
      var earlier := actions[..|actions| - 1];
      Noted(Run(vm, cfg, s, earlier).value, NotedRun(vm, cfg, s, since, earlier), actions[|actions| - 1])
  }

  function CollectedBy(reaper: Reaper): set<Id> {
    match reaper
    case Resting => {}
    case Scanning(_, _, _, expired) => expired
    case Removing(_, expired) => expired
  }

  /** A collected session still in the store had expired by the scan's reading, or was stored into since its visit. */
  predicate ExpiredOrRefreshed(s: Sys, since: Since, at: nat, id: Id) {
    id in s.ids && s.ids[id] in s.heap ==>
      var r := s.ids[id];
      if r in since then at <= since[r] <= s.now && s.heap[r].expiresAt == since[r] + s.heap[r].ttl
      else s.heap[r].expiresAt <= at
  }

  ghost predicate CollectedOk(s: Sys, since: Since) {
    && CollectedBy(s.reaper) <= s.issued
    && (s.reaper.Scanning? ==> s.reaper.expired <= s.reaper.seen)
    && (!s.reaper.Resting? ==> s.reaper.at <= s.now)
    && forall id :: id in CollectedBy(s.reaper) ==> ExpiredOrRefreshed(s, since, s.reaper.at, id)
  }

  /** Only storing a step moves expiry, and then to one lifetime past the clock. */
  lemma OnlyStoresMoveExpiry(vm: Vm, cfg: Settings, s: Sys, a: Action, r: Ref)
    requires Settles(vm) && Inv(vm, cfg, s) && Next(vm, cfg, s, a).Some? && r in s.heap
    ensures var t := Next(vm, cfg, s, a).value;
            && r in t.heap
            && t.heap[r].expiresAt == (if StoresInto(s, a, r) then s.now + s.heap[r].ttl else s.heap[r].expiresAt)
            && t.heap[r].ttl == s.heap[r].ttl && t.heap[r].createdAt == s.heap[r].createdAt
  {
    hide Next, Settles, Inv, CursorOf, Writes, StoresInto;
    HeapIsFramed(vm, cfg, s, a);
    if StoresInto(s, a, r) {
      StoringIsWriting(s, a, r);
    }
    if Writes(s, a, r) {
      WriteSetsExpiry(vm, cfg, s, a, r);
    }
  }

  lemma StoringIsWriting(s: Sys, a: Action, r: Ref)
    requires StoresInto(s, a, r)
    ensures Writes(s, a, r)
  {
    hide Owns, HoldsTaken;
  }

  lemma WriteSetsExpiry(vm: Vm, cfg: Settings, s: Sys, a: Action, r: Ref)
    requires Settles(vm) && Next(vm, cfg, s, a).Some? && r in s.heap && Writes(s, a, r)
    ensures var t := Next(vm, cfg, s, a).value;
            && r in t.heap
            && t.heap[r].expiresAt == (if StoresInto(s, a, r) then s.now + s.heap[r].ttl else s.heap[r].expiresAt)
            && t.heap[r].ttl == s.heap[r].ttl && t.heap[r].createdAt == s.heap[r].createdAt
  {
    hide Next, Settles;
    FlightSteps(vm, cfg, s, a);
  }

  lemma StoresAreNoted(vm: Vm, cfg: Settings, s: Sys, since: Since, a: Action, r: Ref)
    requires Settles(vm) && Inv(vm, cfg, s) && r in s.heap && !a.ReapVisit?
    ensures var noted := Noted(s, since, a);
            if StoresInto(s, a, r) then r in noted && noted[r] == s.now
            else (r in noted <==> r in since) && (r in since ==> noted[r] == since[r])
  {
    hide Inv, Owns, HoldsTaken;
    if a.Collect? && a.f in s.flights && s.flights[a.f].phase.Returned? {
      ReturnedHolds(s, a.f);
    }
  }

  lemma FlightKeepsCollected(vm: Vm, cfg: Settings, s: Sys, since: Since, a: Action, at: nat, id: Id)
    requires Settles(vm) && Inv(vm, cfg, s) && Next(vm, cfg, s, a).Some? && !a.ReapVisit?
    requires at <= s.now && id in s.issued && ExpiredOrRefreshed(s, since, at, id)
    ensures ExpiredOrRefreshed(Next(vm, cfg, s, a).value, Noted(s, since, a), at, id)
  {
    hide Next, Settles, Inv, Noted, StoresInto;
    var t := Next(vm, cfg, s, a).value;
    FlightsAreFramed(vm, cfg, s, a);
    IdsAreFramed(vm, cfg, s, a);
    if id in t.ids {
      IdsName(vm, cfg, s, id);
      OnlyStoresMoveExpiry(vm, cfg, s, a, t.ids[id]);
      StoresAreNoted(vm, cfg, s, since, a, t.ids[id]);
    }
  }

  lemma IdsName(vm: Vm, cfg: Settings, s: Sys, id: Id)
    requires Inv(vm, cfg, s)
    ensures id in s.ids ==> s.ids[id] in s.heap && id in s.issued
    ensures forall other :: id in s.ids && other in s.ids && s.ids[other] == s.ids[id] ==> other == id
  {
    hide FlightsOk, HeapOk, Exclusive, PermitsOk;
  }

  /** A visit takes an id up only if it has expired, and forgets nothing noted about the others. */
  lemma VisitKeepsCollected(vm: Vm, cfg: Settings, s: Sys, since: Since, visited: Id)
    requires Inv(vm, cfg, s) && CollectedOk(s, since) && DoReap(s, ReapVisit(visited)).Some?
    ensures CollectedOk(DoReap(s, ReapVisit(visited)).value, Noted(s, since, ReapVisit(visited)))
  {
    hide Inv;
    IdsName(vm, cfg, s, visited);
    var (t, noted) := (DoReap(s, ReapVisit(visited)).value, Noted(s, since, ReapVisit(visited)));
    forall id | id in CollectedBy(t.reaper) ensures ExpiredOrRefreshed(t, noted, t.reaper.at, id) {
      if id != visited {
        assert ExpiredOrRefreshed(s, since, s.reaper.at, id);
      }
    }
  }

  lemma ReapKeepsCollected(s: Sys, since: Since, a: Action)
    requires CollectedOk(s, since) && IsReap(a) && !a.ReapVisit? && DoReap(s, a).Some?
    ensures CollectedOk(DoReap(s, a).value, Noted(s, since, a))
  {
    var t := DoReap(s, a).value;
    forall id | id in CollectedBy(t.reaper) ensures ExpiredOrRefreshed(t, since, t.reaper.at, id) {
      assert ExpiredOrRefreshed(s, since, s.reaper.at, id);
    }
  }

  lemma CollectedStep(vm: Vm, cfg: Settings, s: Sys, since: Since, a: Action)
    requires Settles(vm) && Inv(vm, cfg, s) && Next(vm, cfg, s, a).Some? && CollectedOk(s, since)
    ensures CollectedOk(Next(vm, cfg, s, a).value, Noted(s, since, a))
  {
    hide Next, Settles, Inv, ExpiredOrRefreshed, Noted, DoReap;
    var t := Next(vm, cfg, s, a).value;
    if IsReap(a) {
      ReapSteps(vm, cfg, s, a);
      if a.ReapVisit? {
        VisitKeepsCollected(vm, cfg, s, since, a.id);
      } else {
        ReapKeepsCollected(s, since, a);
      }
    } else {
      StepsAreShaped(vm, cfg, s, a);
      SameReaper(s, Watch(0, map[]), a, t);
      hide StepShape;
      FlightsAreFramed(vm, cfg, s, a);
      IdsAreFramed(vm, cfg, s, a);
      forall id | id in CollectedBy(t.reaper) ensures ExpiredOrRefreshed(t, Noted(s, since, a), t.reaper.at, id) {
        FlightKeepsCollected(vm, cfg, s, since, a, t.reaper.at, id);
      }
    }
  }

  lemma {:induction false} CollectedStaysOk(vm: Vm, cfg: Settings, actions: seq<Action>)
    requires Settles(vm) && Run(vm, cfg, Init(cfg), actions).Some?
    ensures var t := Run(vm, cfg, Init(cfg), actions).value;
            Inv(vm, cfg, t) && CollectedOk(t, NotedRun(vm, cfg, Init(cfg), map[], actions))
  {
    hide Next, Settles, Inv, Noted;
    InitSatisfiesInv(vm, cfg);
    if actions != [] {
      hide CollectedOk;
      var earlier := actions[..|actions| - 1];
      CollectedStaysOk(vm, cfg, earlier);
      var s := Run(vm, cfg, Init(cfg), earlier).value;
      NextKeepsInv(vm, cfg, s, actions[|actions| - 1]);
      CollectedStep(vm, cfg, s, NotedRun(vm, cfg, Init(cfg), map[], earlier), actions[|actions| - 1]);
    }
  }

  /**
   What the reaper has collected, at any point of any run: a collected session still in the store
   has expired by the scan's reading, unless it was stored into since its visit; with a lifetime
   of more than nothing, exactly unless.
   */
  lemma CollectedIsExpiredOrRefreshed(vm: Vm, cfg: Settings, actions: seq<Action>, id: Id)
    requires Settles(vm) && Run(vm, cfg, Init(cfg), actions).Some?
    requires var t := Run(vm, cfg, Init(cfg), actions).value;
             id in t.ids && id in CollectedBy(t.reaper)
    ensures var t := Run(vm, cfg, Init(cfg), actions).value;
            var since := NotedRun(vm, cfg, Init(cfg), map[], actions);
            && t.ids[id] in t.heap
            && var r := t.ids[id];
               && (r !in since ==> t.heap[r].expiresAt <= t.reaper.at)
               && (r in since ==> t.reaper.at <= since[r] <= t.now && t.heap[r].expiresAt == since[r] + t.heap[r].ttl)
               && (t.heap[r].ttl > 0 ==> (t.heap[r].expiresAt > t.reaper.at <==> r in since))
  {
    hide Next, Settles, Run, NotedRun, Inv;
    CollectedStaysOk(vm, cfg, actions);
    IdsName(vm, cfg, Run(vm, cfg, Init(cfg), actions).value, id);
  }

  // ---------------------------------------------------------------- evictions

  /**
   The reaper evicts an unexpired session if and only if that session was stored into since the
   reaper visited it, less than its lifetime ago.
   */
  lemma EvictsUnexpiredIff(vm: Vm, cfg: Settings, actions: seq<Action>, id: Id)
    requires Settles(vm) && Run(vm, cfg, Init(cfg), actions).Some?
    requires var t := Run(vm, cfg, Init(cfg), actions).value;
             id in t.ids && Next(vm, cfg, t, ReapRemove(id)).Some?
    ensures var t := Run(vm, cfg, Init(cfg), actions).value;
            var since := NotedRun(vm, cfg, Init(cfg), map[], actions);
            && t.ids[id] in t.heap
            && var r := t.ids[id];
               !Expired(t.heap[r], t.now) <==> r in since && t.now < since[r] + t.heap[r].ttl
  {
    hide Next, Settles, Run, NotedRun, Inv;
    var t := Run(vm, cfg, Init(cfg), actions).value;
    ReapSteps(vm, cfg, t, ReapRemove(id));
    CollectedStaysOk(vm, cfg, actions);
    IdsName(vm, cfg, t, id);
    assert ExpiredOrRefreshed(t, NotedRun(vm, cfg, Init(cfg), map[], actions), t.reaper.at, id);
  }

  lemma ReapRemovesTheNamed(s: Sys, a: Action, id: Id)
    requires IsReap(a) && DoReap(s, a).Some? && id in s.ids && id !in DoReap(s, a).value.ids
    ensures a == ReapRemove(id) || ExpiredId(s, id, s.now)
  {
  }

  lemma FlightRemovesTheNamed(vm: Vm, cfg: Settings, s: Sys, a: Action, id: Id)
    requires Settles(vm) && Next(vm, cfg, s, a).Some? && !IsReap(a)
    requires id in s.ids && id !in Next(vm, cfg, s, a).value.ids
    ensures a.RemoveId? && a.f in s.flights && s.flights[a.f].phase == DeleteOwned(id)
  {
    hide Next, Settles, Quiet, TakesNothing, OnlyFlight;
    StepsAreShaped(vm, cfg, s, a);
    if OfFlight(a) && a.f in s.flights {
      FlightSteps(vm, cfg, s, a);
      QuietKeepsIds(s, a);
    }
  }

  lemma QuietKeepsIds(s: Sys, a: Action)
    requires OfFlight(a) && a.f in s.flights
    ensures a.LookUp? && DoLookUp(s, a.f).Some? ==> DoLookUp(s, a.f).value.ids == s.ids
    ensures a.Grant? && DoGrant(s, a.f).Some? ==> DoGrant(s, a.f).value.ids == s.ids
    ensures a.Spawn? && DoSpawn(s, a.f).Some? ==> DoSpawn(s, a.f).value.ids == s.ids
    ensures a.Cancel? && DoCancel(s, a.f).Some? ==> DoCancel(s, a.f).value.ids == s.ids
    ensures a.View? && DoView(s, a.f).Some? ==> DoView(s, a.f).value.ids == s.ids
    ensures a.CheckOwner? && DoCheckOwner(s, a.f).Some? ==> DoCheckOwner(s, a.f).value.ids == s.ids
    ensures a.RemoveId? && DoRemoveId(s, a.f).Some? ==>
              forall id :: id in s.ids && id !in DoRemoveId(s, a.f).value.ids ==>
                  s.flights[a.f].phase == DeleteOwned(id)
  {
    hide Api.Render, Visible;
  }

  /** When a step was last stored into `r` over the run, if one was. */
  ghost function LastStore(vm: Vm, cfg: Settings, s: Sys, actions: seq<Action>, r: Ref): Option<nat>
    requires Settles(vm) && Run(vm, cfg, s, actions).Some?
  {
    if actions == [] then None
    else
      var (earlier, a) := (actions[..|actions| - 1], actions[|actions| - 1]);
      var before := Run(vm, cfg, s, earlier).value;
      if StoresInto(before, a, r) then Some(before.now) else LastStore(vm, cfg, s, earlier, r)
  }

  /** An entry's lifetime runs from its last stored step, or from its creation if there was none. */
  predicate LivesFrom(e: Entry, lastStore: Option<nat>) {
    e.expiresAt == (if lastStore.Some? then lastStore.value else e.createdAt) + e.ttl
  }

  lemma NewEntryLives(vm: Vm, cfg: Settings, s: Sys, a: Action, r: Ref)
    requires Settles(vm) && Inv(vm, cfg, s) && Next(vm, cfg, s, a).Some? && r !in s.heap
    requires r in Next(vm, cfg, s, a).value.heap
    ensures LivesFrom(Next(vm, cfg, s, a).value.heap[r], None) && !StoresInto(s, a, r)
  {
    hide Next, Settles, Inv, TakesNothing, AddsNoId, OnlyFlight, Owns, HoldsTaken;
    StepsAreShaped(vm, cfg, s, a);
    if a.Insert? {
      FlightSteps(vm, cfg, s, a);
    } else if !a.Acquire? && !a.Collect? {
      LeavesHeap(s, a, Next(vm, cfg, s, a).value);
    }
  }

  /** An entry that does not exist yet has not been stored into. */
  lemma {:induction false} LifetimesAreWhole(vm: Vm, cfg: Settings, actions: seq<Action>, r: Ref)
    requires Settles(vm) && Run(vm, cfg, Init(cfg), actions).Some?
    ensures var t := Run(vm, cfg, Init(cfg), actions).value;
            && Inv(vm, cfg, t)
            && (r in t.heap ==> LivesFrom(t.heap[r], LastStore(vm, cfg, Init(cfg), actions, r)))
            && (r !in t.heap ==> LastStore(vm, cfg, Init(cfg), actions, r) == None)
  {
    hide Next, Settles, Inv, StoresInto, LivesFrom;
    InitSatisfiesInv(vm, cfg);
    if actions != [] {
      var (earlier, a) := (actions[..|actions| - 1], actions[|actions| - 1]);
      LifetimesAreWhole(vm, cfg, earlier, r);
      var s := Run(vm, cfg, Init(cfg), earlier).value;
      var t := Run(vm, cfg, Init(cfg), actions).value;
      NextKeepsInv(vm, cfg, s, a);
      if r in s.heap {
        OnlyStoresMoveExpiry(vm, cfg, s, a, r);
        LivesOn(s.heap[r], t.heap[r], LastStore(vm, cfg, Init(cfg), earlier, r), StoresInto(s, a, r), s.now);
      } else if r in t.heap {
        NewEntryLives(vm, cfg, s, a, r);
      } else {
        AbsentIsNotStored(vm, cfg, s, a, r);
      }
    }
  }

  lemma LivesOn(before: Entry, after: Entry, lastStore: Option<nat>, stored: bool, now: nat)
    requires LivesFrom(before, lastStore) && after.ttl == before.ttl && after.createdAt == before.createdAt
    requires after.expiresAt == (if stored then now + before.ttl else before.expiresAt)
    ensures LivesFrom(after, if stored then Some(now) else lastStore)
  {
  }

  lemma AbsentIsNotStored(vm: Vm, cfg: Settings, s: Sys, a: Action, r: Ref)
    requires Settles(vm) && Inv(vm, cfg, s) && r !in s.heap
    ensures !StoresInto(s, a, r)
  {
    hide Settles, Inv, Owns, HoldsTaken;
    if a.Collect? && HeldBy(s, a.f, r) {
      InvKnowsFlight(vm, cfg, s, a.f);
      Losses.HeldIsInHeap(vm, s, a.f, r);
      assert false;
    }
  }

  /**
   How a session leaves the store, over all runs: its time is up, or its owner deletes it, or the
   reaper removes it although it was stored into since its visit. Nothing else evicts anybody.
   */
  lemma LeavesOnlyWhen(vm: Vm, cfg: Settings, actions: seq<Action>, a: Action, id: Id)
    requires Settles(vm) && Run(vm, cfg, Init(cfg), actions).Some?
    requires var s := Run(vm, cfg, Init(cfg), actions).value;
             Next(vm, cfg, s, a).Some? && id in s.ids && id !in Next(vm, cfg, s, a).value.ids
    ensures var s := Run(vm, cfg, Init(cfg), actions).value;
            var since := NotedRun(vm, cfg, Init(cfg), map[], actions);
            && s.ids[id] in s.heap
            && var r := s.ids[id];
               || (a.RemoveId? && a.f in s.flights && s.flights[a.f].phase == DeleteOwned(id)
                   && s.flights[a.f].caller == s.heap[r].principal)
               || Expired(s.heap[r], s.now)
               || (a == ReapRemove(id) && r in since && s.now < since[r] + s.heap[r].ttl)
  {
    hide Next, Settles, Run, NotedRun, Inv;
    var s := Run(vm, cfg, Init(cfg), actions).value;
    CollectedStaysOk(vm, cfg, actions);
    IdsName(vm, cfg, s, id);
    if !IsReap(a) {
      FlightRemovesTheNamed(vm, cfg, s, a, id);
      TenantsAreIsolated(vm, cfg, actions, a, s.ids[id]);
    } else {
      ReapSteps(vm, cfg, s, a);
      ReapRemovesTheNamed(s, a, id);
      if a == ReapRemove(id) {
        EvictsUnexpiredIff(vm, cfg, actions, id);
      }
    }
  }

  // ---------------------------------------------------------------- the reaper's pass

  /**
   A session lives out its lifetime, over all runs: it stays in the store until a whole lifetime
   has passed since its creation, or since its last stored step, unless its owner deletes it or
   the reaper had found it expired before that step was stored.
   */
  lemma SessionsLiveOutTheirLifetime(vm: Vm, cfg: Settings, actions: seq<Action>, a: Action, id: Id)
    requires Settles(vm) && Run(vm, cfg, Init(cfg), actions).Some?
    requires var s := Run(vm, cfg, Init(cfg), actions).value;
             Next(vm, cfg, s, a).Some? && id in s.ids && id !in Next(vm, cfg, s, a).value.ids
    ensures var s := Run(vm, cfg, Init(cfg), actions).value;
            && s.ids[id] in s.heap
            && var (r, e) := (s.ids[id], s.heap[s.ids[id]]);
               var lastStore := LastStore(vm, cfg, Init(cfg), actions, r);
               || (a.RemoveId? && a.f in s.flights && s.flights[a.f].phase == DeleteOwned(id)
                   && s.flights[a.f].caller == e.principal)
               || s.now >= (if lastStore.Some? then lastStore.value else e.createdAt) + e.ttl
               || (a == ReapRemove(id) && r in NotedRun(vm, cfg, Init(cfg), map[], actions))
  {
    hide Next, Settles, Run, NotedRun, Inv, LastStore;
    LeavesOnlyWhen(vm, cfg, actions, a, id);
    LifetimesAreWhole(vm, cfg, actions, Run(vm, cfg, Init(cfg), actions).value.ids[id]);
  }

  function ExpiredAmong(s: Sys, ids: set<Id>, at: nat): set<Id> {
    set id | id in ids && ExpiredId(s, id, at)
  }

  lemma {:induction false} VisitAll(vm: Vm, cfg: Settings, s: Sys, todo: set<Id>) returns (actions: seq<Action>)
    requires Settles(vm) && s.reaper.Scanning? && todo <= s.ids.Keys - s.reaper.seen
    ensures Run(vm, cfg, s, actions) ==
            Some(s.(reaper := s.reaper.(seen := s.reaper.seen + todo,
                                        expired := s.reaper.expired + ExpiredAmong(s, todo, s.reaper.at))))
  {
    var at := s.reaper.at;
    if todo == {} {
      actions := [];
      assert s.reaper.expired + ExpiredAmong(s, todo, at) == s.reaper.expired && s.reaper.seen + todo == s.reaper.seen;
    } else {
      var id :| id in todo;
      var rest := VisitAll(vm, cfg, s, todo - {id});
      actions := rest + [ReapVisit(id)];
      hide Next, Run, Settles;
      RunOne(vm, cfg, s, rest, ReapVisit(id));
      var u := Run(vm, cfg, s, rest).value;
      ReapSteps(vm, cfg, u, ReapVisit(id));
      var before := s.reaper.expired + ExpiredAmong(s, todo - {id}, at);
      var after := s.reaper.expired + ExpiredAmong(s, todo, at);
      assert s.reaper.seen + (todo - {id}) + {id} == s.reaper.seen + todo;
      assert ExpiredId(u, id, at) == ExpiredId(s, id, at);
      assert after == if ExpiredId(s, id, at) then before + {id} else before;
    }
  }

  lemma {:induction false} RemoveAll(vm: Vm, cfg: Settings, s: Sys, todo: set<Id>) returns (actions: seq<Action>)
    requires Settles(vm) && s.reaper.Removing? && todo <= s.reaper.expired
    ensures Run(vm, cfg, s, actions)
            == Some(s.(ids := s.ids - todo, reaper := Removing(s.reaper.at, s.reaper.expired - todo)))
  {
    if todo == {} {
      actions := [];
      assert s.ids - todo == s.ids && s.reaper.expired - todo == s.reaper.expired;
    } else {
      var id :| id in todo;
      var rest := RemoveAll(vm, cfg, s, todo - {id});
      actions := rest + [ReapRemove(id)];
      hide Next, Run, Settles;
      RunOne(vm, cfg, s, rest, ReapRemove(id));
      ReapSteps(vm, cfg, Run(vm, cfg, s, rest).value, ReapRemove(id));
      assert s.ids - (todo - {id}) - {id} == s.ids - todo;
      assert s.reaper.expired - (todo - {id}) - {id} == s.reaper.expired - todo;
    }
  }

  /** What the pass under way still has to do: due sessions to visit, or collected ones to remove. */
  function PassLeft(s: Sys): set<Id> {
    match s.reaper
    case Resting => {}
    case Scanning(_, due, seen, _) => due * s.ids.Keys - seen
    case Removing(_, expired) => expired
  }

  /** A scan under way visits what it has left and is over. */
  lemma ScanFinishes(vm: Vm, cfg: Settings, s: Sys) returns (visits: seq<Action>)
    requires Settles(vm) && s.reaper.Scanning?
    ensures Run(vm, cfg, s, visits + [ReapSeal])
            == Some(s.(reaper := Removing(s.reaper.at,
                                          s.reaper.expired + ExpiredAmong(s, PassLeft(s), s.reaper.at))))
  {
    hide Next, Run, Settles;
    visits := VisitAll(vm, cfg, s, PassLeft(s));
    var scanned := Run(vm, cfg, s, visits).value;
    RunOne(vm, cfg, s, visits, ReapSeal);
    ReapSteps(vm, cfg, scanned, ReapSeal);
    assert s.reaper.due * s.ids.Keys <= s.reaper.seen + PassLeft(s);
  }

  lemma ScanPass(vm: Vm, cfg: Settings, s: Sys) returns (visits: seq<Action>)
    requires Settles(vm) && s.reaper == Resting
    ensures Run(vm, cfg, s, [ReapStart] + visits + [ReapSeal])
            == Some(s.(reaper := Removing(s.now, ExpiredAmong(s, s.ids.Keys, s.now))))
  {
    hide Next, Run, Settles;
    EmptyRun(vm, cfg, s);
    RunOne(vm, cfg, s, [], ReapStart);
    ReapSteps(vm, cfg, s, ReapStart);
    assert [] + [ReapStart] == [ReapStart];
    var started := s.(reaper := Scanning(s.now, s.ids.Keys, {}, {}));
    visits := ScanFinishes(vm, cfg, started);
    RunSplits(vm, cfg, s, [ReapStart], visits + [ReapSeal]);
    assert [ReapStart] + (visits + [ReapSeal]) == [ReapStart] + visits + [ReapSeal];
    assert PassLeft(started) == s.ids.Keys;
    assert {} + ExpiredAmong(started, s.ids.Keys, s.now) == ExpiredAmong(s, s.ids.Keys, s.now);
  }

  lemma RemovalPass(vm: Vm, cfg: Settings, s: Sys, expired: set<Id>) returns (removals: seq<Action>)
    requires Settles(vm) && s.reaper.Removing? && s.reaper.expired == expired
    ensures Run(vm, cfg, s, removals + [ReapEnd]) == Some(s.(ids := s.ids - expired, reaper := Resting))
  {
    hide Next, Run, Settles;
    removals := RemoveAll(vm, cfg, s, expired);
    assert expired - expired == {};
    RunOne(vm, cfg, s, removals, ReapEnd);
    ReapSteps(vm, cfg, s.(ids := s.ids - expired, reaper := Removing(s.reaper.at, {})), ReapEnd);
  }

  /** A sweep is what the reaper's scan and removals come to when nothing happens in between. */
  lemma SweepIsAnUninterruptedPass(vm: Vm, cfg: Settings, s: Sys) returns (visits: seq<Action>, removals: seq<Action>)
    requires Settles(vm) && s.reaper == Resting
    ensures Run(vm, cfg, s, [ReapStart] + visits + [ReapSeal] + (removals + [ReapEnd])) == Next(vm, cfg, s, Sweep)
    ensures Next(vm, cfg, s, Sweep) == Some(s.(ids := s.ids - ExpiredAmong(s, s.ids.Keys, s.now)))
  {
    hide Next, Run, Settles;
    visits := ScanPass(vm, cfg, s);
    var sealed := s.(reaper := Removing(s.now, ExpiredAmong(s, s.ids.Keys, s.now)));
    removals := RemovalPass(vm, cfg, sealed, ExpiredAmong(s, s.ids.Keys, s.now));
    RunSplits(vm, cfg, s, [ReapStart] + visits + [ReapSeal], removals + [ReapEnd]);
    ReapSteps(vm, cfg, s, Sweep);
    assert s.ids - ExpiredAmong(s, s.ids.Keys, s.now) == map id | id in s.ids && !ExpiredId(s, id, s.now) :: s.ids[id];
  }

  /**
   Wherever a pass stands, the reaper can finish it by itself. It then removes what it had
   collected, and what it had yet to visit that has expired by the scan's reading; nothing else.
   */
  lemma PassesCanFinish(vm: Vm, cfg: Settings, s: Sys) returns (actions: seq<Action>)
    requires Settles(vm)
    ensures Run(vm, cfg, s, actions) ==
              match s.reaper
              case Resting => Some(s)
              case Removing(_, expired) => Some(s.(reaper := Resting, ids := s.ids - expired))
              case Scanning(at, _, _, expired) =>
                Some(s.(reaper := Resting, ids := s.ids - (expired + ExpiredAmong(s, PassLeft(s), at))))
  {
    hide Next, Run, Settles;
    match s.reaper
    case Resting =>
      actions := [];
      EmptyRun(vm, cfg, s);
    case Removing(_, expired) =>
      var removals := RemovalPass(vm, cfg, s, expired);
      actions := removals + [ReapEnd];
    case Scanning(at, _, _, expired) =>
      var visits := ScanFinishes(vm, cfg, s);
      var collected := expired + ExpiredAmong(s, PassLeft(s), at);
      var removals := RemovalPass(vm, cfg, s.(reaper := Removing(at, collected)), collected);
      RunSplits(vm, cfg, s, visits + [ReapSeal], removals + [ReapEnd]);
      actions := visits + [ReapSeal] + (removals + [ReapEnd]);
  }
}
