/**
 Resource enforcement for one execution. Instants and durations are whole nanoseconds.
 `Observe` specifies what one hook or clock call does to the counters; the class is the
 tracker itself, whose methods update its fields in place. Machine arithmetic follows a
 release build: `usize` is 64 bits wide, `+` and `fetch_add` wrap, `saturating_*` saturate.
 */
module Tracker {
  import opened Wrappers

  const TIME_CHECK_INTERVAL: nat := 16
  const U32_SIZE: nat := 0x1_0000_0000
  const USIZE_MAX: nat := 0xFFFF_FFFF_FFFF_FFFF

  datatype Limits = Limits(
    maxDuration: Option<nat>,
    maxMemory: Option<nat>,
    maxAllocations: Option<nat>,
    maxRecursionDepth: Option<nat>)

  datatype Breach = Time | Memory | Allocations | Recursion

  datatype ResourceError =
    | AllocationError(limit: nat, count: nat)
    | MemoryError(limit: nat, used: nat)
    | TimeError(limit: nat, elapsed: nat)
    | RecursionError(limit: nat, depth: nat)

  /** Everything a tracker's atomics and clock hold. `breachCode` is zero until a limit trips. */
  datatype Counters = Counters(
    allocations: nat,
    live: nat,
    peak: nat,
    timeChecks: nat,
    breachCode: nat,
    segmentStart: nat,
    accumulated: nat)

  datatype ExecStats = ExecStats(duration: nat, allocations: nat, peakMemoryBytes: nat)

  /** One call on a tracker: a hook called by the interpreter, or a clock call by the engine. */
  datatype Event =
    | Allocate(size: nat)
    | Free(size: nat)
    | Grow(bytes: nat)
    | CheckTime(at: nat)
    | CheckRecursion(depth: nat)
    | CheckLargeResult(bytes: nat)
    | BeginSegment(at: nat)
    | EndSegment(at: nat, restart: nat)

  function NewCounters(now: nat): Counters {
    Counters(0, 0, 0, 0, 0, now, 0)
  }

  function Since(from: nat, to: nat): nat {
    if to > from then to - from else 0
  }

  function ElapsedAt(c: Counters, now: nat): nat {
    c.accumulated + Since(c.segmentStart, now)
  }

  function StatsAt(c: Counters, now: nat): ExecStats {
    ExecStats(ElapsedAt(c, now), c.allocations, c.peak)
  }

  function Wrap(n: nat): nat {
    n % (USIZE_MAX + 1)
  }

  function SaturatingAdd(a: nat, b: nat): nat {
    if a + b > USIZE_MAX then USIZE_MAX else a + b
  }

  function SaturatingSub(a: nat, b: nat): nat {
    if a > b then a - b else 0
  }

  function Code(breach: Breach): nat {
    match breach
    case Time => 1
    case Memory => 2
    case Allocations => 3
    case Recursion => 4
  }

  function BreachFromCode(code: nat): Option<Breach> {
    match code
    case 1 => Some(Time)
    case 2 => Some(Memory)
    case 3 => Some(Allocations)
    case 4 => Some(Recursion)
    case _ => None
  }

  /** The limit a resource error is about. */
  function BreachOf(e: ResourceError): Breach {
    match e
    case AllocationError(_, _) => Allocations
    case MemoryError(_, _) => Memory
    case TimeError(_, _) => Time
    case RecursionError(_, _) => Recursion
  }

  predicate Over(amount: nat, limit: Option<nat>) {
    limit.Some? && amount > limit.value
  }

  /** The compare-exchange from zero: only the first breach is kept. */
  function RecordBreach(c: Counters, breach: Breach): Counters {
    if c.breachCode == 0 then c.(breachCode := Code(breach)) else c
  }

  function StoreMemory(c: Counters, live: nat): Counters {
    c.(live := live, peak := if live > c.peak then live else c.peak)
  }

  /** The counters after one event, and the error the event's caller gets, if any. */
  function Observe(limits: Limits, c: Counters, event: Event): (Counters, Option<ResourceError>) {
    match event
    case Allocate(size) =>
      if limits.maxAllocations.Some? && c.allocations >= limits.maxAllocations.value then
        (RecordBreach(c, Allocations), Some(AllocationError(limits.maxAllocations.value, c.allocations + 1)))
      else
        var memory := Wrap(c.live + size);
        if Over(memory, limits.maxMemory) then
          (RecordBreach(c, Memory), Some(MemoryError(limits.maxMemory.value, memory)))
        else
          (StoreMemory(c.(allocations := c.allocations + 1), memory), None)
    case Free(size) =>
      (c.(live := SaturatingSub(c.live, size)), None)
    case Grow(bytes) =>
      var memory := SaturatingAdd(c.live, bytes);
      if Over(memory, limits.maxMemory) then
        (RecordBreach(c, Memory), Some(MemoryError(limits.maxMemory.value, memory)))
      else
        (StoreMemory(c, memory), None)
    case CheckTime(at) =>
      if limits.maxDuration.None? then (c, None)
      else
        var checks := (c.timeChecks + 1) % U32_SIZE;
        var counted := c.(timeChecks := checks);
        if checks % TIME_CHECK_INTERVAL != 0 then (counted, None)
        else if ElapsedAt(c, at) > limits.maxDuration.value then
          (RecordBreach(counted.(timeChecks := TIME_CHECK_INTERVAL - 1), Time),
           Some(TimeError(limits.maxDuration.value, ElapsedAt(c, at))))
        else (counted, None)
    case CheckRecursion(depth) =>
      if limits.maxRecursionDepth.Some? && depth >= limits.maxRecursionDepth.value then
        (RecordBreach(c, Recursion), Some(RecursionError(limits.maxRecursionDepth.value, depth + 1)))
      else (c, None)
    case CheckLargeResult(bytes) =>
      var projected := SaturatingAdd(c.live, bytes);
      if Over(projected, limits.maxMemory) then
        (RecordBreach(c, Memory), Some(MemoryError(limits.maxMemory.value, projected)))
      else (c, None)
    case BeginSegment(at) =>
      (c.(segmentStart := at), None)
    case EndSegment(at, restart) =>
      (c.(accumulated := ElapsedAt(c, at), segmentStart := restart), None)
  }

  /** The counters after a whole history of events. */
  function Replay(limits: Limits, start: Counters, events: seq<Event>): Counters {
    if events == [] then start
    else Observe(limits, Replay(limits, start, events[..|events| - 1]), events[|events| - 1]).0
  }

  lemma {:induction false} ReplaySplits(limits: Limits, start: Counters, a: seq<Event>, b: seq<Event>)
    ensures Replay(limits, start, a + b) == Replay(limits, Replay(limits, start, a), b)
    decreases |b|
  {
    if b == [] {
      assert a + b == a;
    } else {
      ReplaySplits(limits, start, a, b[..|b| - 1]);
      assert (a + b)[..|a + b| - 1] == a + b[..|b| - 1];
    }
  }

  /** The shared tracker handle: its fields are the atomics and the clock behind the `Arc`. */
  class StatsTracker {
    const limits: Limits
    var allocations: nat
    var liveMemory: nat
    var peakMemory: nat
    var timeCheckCounter: nat
    var breachCode: nat
    var segmentStart: nat
    var accumulated: nat

    function View(): Counters
      reads this
    {
      Counters(allocations, liveMemory, peakMemory, timeCheckCounter, breachCode, segmentStart, accumulated)
    }

    constructor (limits: Limits, now: nat)
      ensures this.limits == limits && View() == NewCounters(now)
    {
      this.limits := limits;
      allocations, liveMemory, peakMemory := 0, 0, 0;
      timeCheckCounter, breachCode := 0, 0;
      segmentStart, accumulated := now, 0;
    }

    method BeginSegment(now: nat)
      modifies this`segmentStart
      ensures View() == Observe(limits, old(View()), Event.BeginSegment(now)).0
    {
      segmentStart := now;
    }

    /** The clock is read twice: once to fold the segment, once to restart it. */
    method EndSegment(now: nat, restart: nat)
      modifies this`segmentStart, this`accumulated
      ensures View() == Observe(limits, old(View()), Event.EndSegment(now, restart)).0
    {
      var elapsed := Since(segmentStart, now);
      accumulated := accumulated + elapsed;
      segmentStart := restart;
    }

    method ElapsedTime(now: nat) returns (elapsed: nat)
      ensures elapsed == ElapsedAt(View(), now)
    {
      elapsed := accumulated + Since(segmentStart, now);
    }

    method Stats(now: nat) returns (stats: ExecStats)
      ensures stats == StatsAt(View(), now)
    {
      var duration := ElapsedTime(now);
      stats := ExecStats(duration, allocations, peakMemory);
    }

    method FirstBreach() returns (breach: Option<Breach>)
      ensures breach == BreachFromCode(View().breachCode)
    {
      match breachCode {
        case 1 => breach := Some(Time);
        case 2 => breach := Some(Memory);
        case 3 => breach := Some(Allocations);
        case 4 => breach := Some(Recursion);
        case _ => breach := None;
      }
    }

    method Record(breach: Breach)
      modifies this`breachCode
      ensures View() == RecordBreach(old(View()), breach)
    {
      var code := Code(breach);
      if breachCode == 0 {
        breachCode := code;
      }
    }

    method Store(memory: nat)
      modifies this`liveMemory, this`peakMemory
      ensures View() == StoreMemory(old(View()), memory)
    {
      liveMemory := memory;
      if memory > peakMemory {
        peakMemory := memory;
      }
    }

    method OnAllocate(size: nat) returns (error: Option<ResourceError>)
      modifies this
      ensures (View(), error) == Observe(limits, old(View()), Event.Allocate(size))
    {
      var count := allocations;
      if limits.maxAllocations.Some? && count >= limits.maxAllocations.value {
        Record(Allocations);
        return Some(AllocationError(limits.maxAllocations.value, count + 1));
      }
      var newMemory := Wrap(liveMemory + size);
      if limits.maxMemory.Some? && newMemory > limits.maxMemory.value {
        Record(Memory);
        return Some(MemoryError(limits.maxMemory.value, newMemory));
      }
      allocations := count + 1;
      Store(newMemory);
      return None;
    }

    method OnFree(size: nat)
      modifies this`liveMemory
      ensures View() == Observe(limits, old(View()), Event.Free(size)).0
    {
      liveMemory := SaturatingSub(liveMemory, size);
    }

    method OnGrow(bytes: nat) returns (error: Option<ResourceError>)
      modifies this
      ensures (View(), error) == Observe(limits, old(View()), Event.Grow(bytes))
    {
      var newMemory := SaturatingAdd(liveMemory, bytes);
      if limits.maxMemory.Some? && newMemory > limits.maxMemory.value {
        Record(Memory);
        return Some(MemoryError(limits.maxMemory.value, newMemory));
      }
      Store(newMemory);
      return None;
    }

    method OnCheckTime(now: nat) returns (error: Option<ResourceError>)
      modifies this
      ensures (View(), error) == Observe(limits, old(View()), Event.CheckTime(now))
    {
      if limits.maxDuration.None? {
        return None;
      }
      timeCheckCounter := (timeCheckCounter + 1) % U32_SIZE;
      if timeCheckCounter % TIME_CHECK_INTERVAL != 0 {
        return None;
      }
      var elapsed := ElapsedTime(now);
      if elapsed > limits.maxDuration.value {
        timeCheckCounter := TIME_CHECK_INTERVAL - 1;
        Record(Time);
        return Some(TimeError(limits.maxDuration.value, elapsed));
      }
      return None;
    }

    method OnCheckRecursion(depth: nat) returns (error: Option<ResourceError>)
      modifies this`breachCode
      ensures (View(), error) == Observe(limits, old(View()), Event.CheckRecursion(depth))
    {
      if limits.maxRecursionDepth.Some? && depth >= limits.maxRecursionDepth.value {
        Record(Recursion);
        return Some(RecursionError(limits.maxRecursionDepth.value, depth + 1));
      }
      return None;
    }

    method OnCheckLargeResult(bytes: nat) returns (error: Option<ResourceError>)
      modifies this`breachCode
      ensures (View(), error) == Observe(limits, old(View()), Event.CheckLargeResult(bytes))
    {
      if limits.maxMemory.Some? {
        var projected := SaturatingAdd(liveMemory, bytes);
        if projected > limits.maxMemory.value {
          Record(Memory);
          return Some(MemoryError(limits.maxMemory.value, projected));
        }
      }
      return None;
    }

    /** Plays a history of calls: what the interpreter does to its clone of the tracker during a turn. */
    method Play(events: seq<Event>)
      modifies this
      ensures View() == Replay(limits, old(View()), events)
    {
      for i := 0 to |events|
        invariant View() == Replay(limits, old(View()), events[..i])
      {
        assert events[..i + 1][..i] == events[..i];
        match events[i] {
          case Allocate(size) => var _ := OnAllocate(size);
          case Free(size) => OnFree(size);
          case Grow(bytes) => var _ := OnGrow(bytes);
          case CheckTime(at) => var _ := OnCheckTime(at);
          case CheckRecursion(depth) => var _ := OnCheckRecursion(depth);
          case CheckLargeResult(bytes) => var _ := OnCheckLargeResult(bytes);
          case BeginSegment(at) => BeginSegment(at);
          case EndSegment(at, restart) => EndSegment(at, restart);
        }
      }
      assert events[..|events|] == events;
    }
  }
}
