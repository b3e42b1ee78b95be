/**
 The session store. The functions on `Entry` specify what each locked region does to one
 session; `SessionEntry` and `SessionStore` are the objects that do it in place.
 */
module Session {
  import opened Wrappers
  import opened Values
  import opened Tracker
  import opened Engine

  type Id = nat

  datatype Snapshot =
    | Paused(output: Output, stats: ExecStats)
    | Completed(result: MontyObject, output: Output, stats: ExecStats)
    | Failed(exception: MontyException, breach: Option<Breach>, output: Output, stats: ExecStats)

  /** One session's state: `progress` is present only while the session is paused and idle. */
  datatype Entry = Entry(
    principal: string,
    ttl: nat,
    createdAt: nat,
    expiresAt: nat,
    progress: Option<Progress>,
    terminal: bool,
    snapshot: Snapshot)

  datatype CreateError = AtCapacity(maxSessions: nat)

  datatype AcquireError = NotFound | Busy | Finished

  function SnapshotOf(step: SessionStep): Snapshot {
    match step
    case StepPaused(_, output, stats) => Paused(output, stats)
    case StepComplete(result, output, stats) => Completed(result, output, stats)
    case StepFailed(exception, breach, output, stats) => Failed(exception, breach, output, stats)
  }

  function SplitStep(step: SessionStep): (Option<Progress>, bool, Snapshot) {
    match step
    case StepPaused(progress, output, stats) => (Some(progress), false, Paused(output, stats))
    case StepComplete(result, output, stats) => (None, true, Completed(result, output, stats))
    case StepFailed(exception, breach, output, stats) => (None, true, Failed(exception, breach, output, stats))
  }

  function NewEntry(principal: string, ttl: nat, now: nat, step: SessionStep): Entry {
    var (progress, terminal, snapshot) := SplitStep(step);
    Entry(principal, ttl, now, now + ttl, progress, terminal, snapshot)
  }

  function Acquired(e: Entry): (Entry, Result<Progress, AcquireError>) {
    if e.terminal then (e, Err(Finished))
    else if e.progress.None? then (e, Err(Busy))
    else (e.(progress := None), Ok(e.progress.value))
  }

  function Restored(e: Entry, progress: Progress): Entry {
    e.(progress := Some(progress))
  }

  function Stored(e: Entry, step: SessionStep, now: nat): Entry {
    var (progress, terminal, snapshot) := SplitStep(step);
    e.(progress := progress, terminal := terminal, snapshot := snapshot, expiresAt := now + e.ttl)
  }

  predicate Expired(e: Entry, now: nat) {
    now >= e.expiresAt
  }

  function ExpiredIn(all: map<Id, Entry>, now: nat): set<Id> {
    set id | id in all && Expired(all[id], now)
  }

  /** Terminal exactly when finished, then without progress; any stored progress is a pause a client can answer. */
  predicate WellFormed(e: Entry) {
    && (e.terminal <==> !e.snapshot.Paused?)
    && (e.terminal ==> e.progress.None?)
    && (e.progress.Some? ==> Actionable(e.progress.value))
  }

  class SessionEntry {
    const principal: string
    const ttl: nat
    const createdAt: nat
    const tracker: StatsTracker
    var expiresAt: nat
    var progress: Option<Progress>
    var terminal: bool
    var snapshot: Snapshot

    function View(): Entry
      reads this
    {
      Entry(principal, ttl, createdAt, expiresAt, progress, terminal, snapshot)
    }

    constructor (principal: string, ttl: nat, tracker: StatsTracker, step: SessionStep, now: nat)
      ensures View() == NewEntry(principal, ttl, now, step) && this.tracker == tracker
    {
      this.principal, this.ttl, this.createdAt, this.tracker := principal, ttl, now, tracker;
      expiresAt := now + ttl;
      var (p, t, s) := SplitStep(step);
      progress, terminal, snapshot := p, t, s;
    }

    method AcquireForResume() returns (r: Result<(Progress, StatsTracker), AcquireError>)
      modifies this`progress
      ensures View() == Acquired(old(View())).0
      ensures match Acquired(old(View())).1
              case Ok(p) => r == Ok((p, tracker))
              case Err(e) => r == Err(e)
    {
      if terminal {
        return Err(Finished);
      }
      if progress.None? {
        return Err(Busy);
      }
      var taken := progress.value;
      progress := None;
      return Ok((taken, tracker));
    }

    method Restore(taken: Progress)
      modifies this`progress
      ensures View() == Restored(old(View()), taken)
    {
      progress := Some(taken);
    }

    method StoreStep(step: SessionStep, now: nat)
      modifies this`progress, this`terminal, this`snapshot, this`expiresAt
      ensures View() == Stored(old(View()), step, now)
    {
      var (p, t, s) := SplitStep(step);
      progress := p;
      terminal := t;
      snapshot := s;
      expiresAt := now + ttl;
    }
  }

  class SessionStore {
    const maxSessions: nat
    var sessions: map<Id, SessionEntry>

    constructor (maxSessions: nat)
      ensures this.maxSessions == maxSessions && sessions == map[]
    {
      this.maxSessions := maxSessions;
      sessions := map[];
    }

    /** The sessions as values. */
    ghost function View(): map<Id, Entry>
      reads this, set id | id in sessions :: sessions[id]
    {
      map id | id in sessions :: sessions[id].View()
    }

    /** `id` is a freshly drawn UUID. */
    method Create(principal: string, ttl: nat, tracker: StatsTracker, step: SessionStep, now: nat, id: Id)
      returns (r: Result<Id, CreateError>)
      requires id !in sessions
      modifies this
      ensures |old(sessions)| >= maxSessions ==> r == Err(AtCapacity(maxSessions)) && sessions == old(sessions)
      ensures |old(sessions)| < maxSessions ==>
                && r == Ok(id) && id in sessions && sessions == old(sessions)[id := sessions[id]]
                && fresh(sessions[id]) && sessions[id].tracker == tracker
      ensures View() == if r.Ok? then old(View())[id := NewEntry(principal, ttl, now, step)] else old(View())
    {
      if |sessions| >= maxSessions {
        return Err(AtCapacity(maxSessions));
      }
      var entry := new SessionEntry(principal, ttl, tracker, step, now);
      sessions := sessions[id := entry];
      return Ok(id);
    }

    /** Other principals' sessions look absent. */
    method Get(id: Id, principal: string) returns (r: Option<SessionEntry>)
      ensures r == if id in sessions && sessions[id].principal == principal then Some(sessions[id]) else None
    {
      if id !in sessions {
        return None;
      }
      var owned := sessions[id].principal == principal;
      return if owned then Some(sessions[id]) else None;
    }

    method Remove(id: Id, principal: string) returns (removed: bool)
      modifies this
      ensures removed <==> id in old(sessions) && old(sessions)[id].principal == principal
      ensures sessions == if removed then old(sessions) - {id} else old(sessions)
    {
      var owned := id in sessions && sessions[id].principal == principal;
      if owned {
        sessions := sessions - {id};
      }
      removed := owned;
    }

    /**
     A sweep that nothing interrupts: first every key is visited and the expired ones are
     collected, then the collected ones are removed. Exactly the expired sessions go.
     */
    method ReapExpired(now: nat) returns (count: nat)
      modifies this
      ensures sessions == old(sessions) - ExpiredIn(old(View()), now)
      ensures View() == old(View()) - ExpiredIn(old(View()), now)
      ensures count == |ExpiredIn(old(View()), now)|
    {
      var unvisited := sessions.Keys;
      var expired: set<Id> := {};
      while unvisited != {}
        invariant unvisited <= sessions.Keys
        invariant expired == set id | id in sessions.Keys - unvisited && Expired(sessions[id].View(), now)
        decreases unvisited
      {
        var id :| id in unvisited;
        unvisited := unvisited - {id};
        if now >= sessions[id].expiresAt {
          expired := expired + {id};
        }
      }
      ghost var collected := expired;
      assert collected == ExpiredIn(old(View()), now);
      count := |expired|;
      while expired != {}
        invariant expired <= collected
        invariant sessions == old(sessions) - (collected - expired)
        decreases expired
      {
        var id :| id in expired;
        expired := expired - {id};
        sessions := sessions - {id};
      }
    }
  }
}
