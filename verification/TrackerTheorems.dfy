/** What a tracker guarantees over every history of hooks and segments. */
module TrackerTheorems {
  import opened Wrappers
  import opened Tracker

  /** The error that event `i` of the history returned. */
  function Outcome(limits: Limits, start: Counters, events: seq<Event>, i: nat): Option<ResourceError>
    requires i < |events|
  {
    Observe(limits, Replay(limits, start, events[..i]), events[i]).1
  }

  predicate Granted(limits: Limits, start: Counters, events: seq<Event>, i: nat)
    requires i < |events|
  {
    Outcome(limits, start, events, i).None?
  }

  lemma ReplayAppends(limits: Limits, start: Counters, events: seq<Event>, event: Event)
    ensures Replay(limits, start, events + [event]) == Observe(limits, Replay(limits, start, events), event).0
  {
    assert (events + [event])[..|events|] == events;
  }

  // ---------------------------------------------------------------- memory

  /** What an event adds to the memory the program means to hold. */
  function DeltaOf(limits: Limits, c: Counters, event: Event): int {
    match event
    case Allocate(size) => if Observe(limits, c, event).1.None? then size else 0
    case Grow(bytes) => if Observe(limits, c, event).1.None? then bytes else 0
    case Free(size) => 0 - size
    case _ => 0
  }

  function Delta(limits: Limits, start: Counters, events: seq<Event>, i: nat): int
    requires i < |events|
  {
    DeltaOf(limits, Replay(limits, start, events[..i]), events[i])
  }

  /** Net bytes granted from event `lo` up to, not including, event `hi`. */
  function Net(limits: Limits, start: Counters, events: seq<Event>, lo: nat, hi: nat): int
    requires lo <= hi <= |events|
    decreases hi
  {
    if lo == hi then 0 else Net(limits, start, events, lo, hi - 1) + Delta(limits, start, events, hi - 1)
  }

  /** No granted allocation or growth overflows the machine word. */
  ghost predicate FitsTheWord(limits: Limits, start: Counters, events: seq<Event>) {
    forall i :: 0 <= i < |events| ==>
      Replay(limits, start, events[..i]).live + Delta(limits, start, events, i) <= USIZE_MAX
  }

  lemma MemoryStep(limits: Limits, c: Counters, event: Event)
    requires c.live + DeltaOf(limits, c, event) <= USIZE_MAX
    ensures Observe(limits, c, event).0.live ==
            if c.live + DeltaOf(limits, c, event) >= 0 then c.live + DeltaOf(limits, c, event) else 0
  {
  }

  lemma UsageStep(limits: Limits, c: Counters, event: Event)
    requires c.live <= c.peak && !Over(c.peak, limits.maxMemory) && !Over(c.allocations, limits.maxAllocations)
    ensures var d := Observe(limits, c, event).0;
            && d.live <= d.peak && !Over(d.peak, limits.maxMemory) && !Over(d.allocations, limits.maxAllocations)
            && d.peak == (if d.live > c.peak then d.live else c.peak)
            && d.allocations == c.allocations + (if event.Allocate? && Observe(limits, c, event).1.None? then 1 else 0)
  {
  }

  lemma {:induction false} NetOfPrefix(limits: Limits, start: Counters, events: seq<Event>, n: nat, lo: nat, hi: nat)
    requires lo <= hi <= n <= |events|
    ensures Net(limits, start, events[..n], lo, hi) == Net(limits, start, events, lo, hi)
    decreases hi
  {
    if lo < hi {
      NetOfPrefix(limits, start, events, n, lo, hi - 1);
      assert events[..n][..hi - 1] == events[..hi - 1];
    }
  }

  /**
   Live memory in closed form: the largest net sum of any suffix of the history, the empty
   one included.
   */
  lemma {:induction false} LiveIsMaximalSuffix(limits: Limits, now: nat, events: seq<Event>) returns (best: nat)
    requires FitsTheWord(limits, NewCounters(now), events)
    ensures var (start, n) := (NewCounters(now), |events|);
            && (forall from: nat :: from <= n ==>
               Net(limits, start, events, from, n) <= Replay(limits, start, events).live)
            && best <= n && Net(limits, start, events, best, n) == Replay(limits, start, events).live
  {
    hide Observe, DeltaOf;
    var (start, n) := (NewCounters(now), |events|);
    if n == 0 {
      best := 0;
    } else {
      var earlier := events[..n - 1];
      forall i | 0 <= i < n - 1 ensures earlier[..i] == events[..i] {
      }
      best := LiveIsMaximalSuffix(limits, now, earlier);
      var delta := Delta(limits, start, events, n - 1);
      var before := Replay(limits, start, earlier).live;
      var live := Replay(limits, start, events).live;
      assert before + delta <= USIZE_MAX;
      MemoryStep(limits, Replay(limits, start, earlier), events[n - 1]);
      forall from: nat | from <= n ensures Net(limits, start, events, from, n) <= live {
        if from < n {
          NetOfPrefix(limits, start, events, n - 1, from, n - 1);
          assert Net(limits, start, earlier, from, n - 1) <= before;
        }
      }
      NetOfPrefix(limits, start, events, n - 1, best, n - 1);
      if before + delta < 0 {
        best := n;
      }
    }
  }

  /** The peak is the running maximum of live memory: an upper bound that some prefix attains. */
  lemma {:induction false} PeakIsRunningMaximum(limits: Limits, now: nat, events: seq<Event>) returns (when: nat)
    ensures forall i :: 0 <= i <= |events| ==>
              Replay(limits, NewCounters(now), events[..i]).live <= Replay(limits, NewCounters(now), events).peak
    ensures when <= |events|
    ensures Replay(limits, NewCounters(now), events[..when]).live == Replay(limits, NewCounters(now), events).peak
  {
    hide Observe;
    var (start, n) := (NewCounters(now), |events|);
    assert events[..n] == events;
    if n == 0 {
      when := 0;
    } else {
      var earlier := events[..n - 1];
      when := PeakIsRunningMaximum(limits, now, earlier);
      UsageStaysWithinLimits(limits, now, earlier, n - 1);
      assert earlier[..n - 1] == earlier;
      UsageStep(limits, Replay(limits, start, earlier), events[n - 1]);
      forall i | 0 <= i < n ensures earlier[..i] == events[..i] {
      }
      if Replay(limits, start, events).peak != Replay(limits, start, earlier).peak {
        when := n;
      }
    }
  }

  /** How many allocations of the history were granted. */
  function GrantedAllocations(limits: Limits, start: Counters, events: seq<Event>, n: nat): nat
    requires n <= |events|
  {
    if n == 0 then 0
    else
      GrantedAllocations(limits, start, events, n - 1)
      + (if events[n - 1].Allocate? && Granted(limits, start, events, n - 1) then 1 else 0)
  }

  /** Usage never passes its limits, in any state of any history, word overflow included. */
  lemma {:induction false} UsageStaysWithinLimits(limits: Limits, now: nat, events: seq<Event>, n: nat)
    requires n <= |events|
    ensures var c := Replay(limits, NewCounters(now), events[..n]);
            && c.live <= c.peak
            && !Over(c.peak, limits.maxMemory)
            && c.allocations == GrantedAllocations(limits, NewCounters(now), events, n)
            && !Over(c.allocations, limits.maxAllocations)
  {
    hide Observe;
    if n > 0 {
      UsageStaysWithinLimits(limits, now, events, n - 1);
      assert events[..n][..n - 1] == events[..n - 1];
      UsageStep(limits, Replay(limits, NewCounters(now), events[..n - 1]), events[n - 1]);
    }
  }

  /**
   The exact failing family of the unsaturated addition: a granted allocation is accounted for
   in full if and only if live memory plus its size fits the word.
   */
  lemma GrantIsAccountedForIff(limits: Limits, c: Counters, size: nat)
    requires c.live <= 0xFFFF_FFFF_FFFF_FFFF && size <= 0xFFFF_FFFF_FFFF_FFFF
    requires Observe(limits, c, Allocate(size)).1.None?
    ensures Observe(limits, c, Allocate(size)).0.live == c.live + size <==> c.live + size <= 0xFFFF_FFFF_FFFF_FFFF
    ensures limits.maxMemory.Some? && limits.maxMemory.value < 0xFFFF_FFFF_FFFF_FFFF
            && c.live + size <= 0xFFFF_FFFF_FFFF_FFFF ==>
              c.live + size <= limits.maxMemory.value
  {
  }

  /** A history in which an allocation of almost the whole word is granted under a hundred-byte limit. */
  lemma OverflowingAllocationIsGranted()
    ensures var limits := Limits(None, Some(100), None, None);
            var (grown, events) := ([Grow(10)], [Grow(10), Allocate(0xFFFF_FFFF_FFFF_FFFB)]);
            && Granted(limits, NewCounters(0), events, 1)
            && Replay(limits, NewCounters(0), grown).live == 10
            && Replay(limits, NewCounters(0), events).live == 5
  {
    var limits := Limits(None, Some(100), None, None);
    var (grown, events) := ([Grow(10)], [Grow(10), Allocate(0xFFFF_FFFF_FFFF_FFFB)]);
    assert events[..1] == grown && grown[..0] == [];
    assert Replay(limits, NewCounters(0), grown) == NewCounters(0).(live := 10, peak := 10);
  }

  // ---------------------------------------------------------------- breaches

  /** The limit behind the first failed event among the first `n`. */
  function FirstFailure(limits: Limits, start: Counters, events: seq<Event>, n: nat): Option<Breach>
    requires n <= |events|
  {
    if n == 0 then None
    else
      match FirstFailure(limits, start, events, n - 1)
      case Some(b) => Some(b)
      case None =>
        match Outcome(limits, start, events, n - 1)
        case Some(e) => Some(BreachOf(e))
        case None => None
  }

  lemma {:induction false} FirstFailureIsFirst(limits: Limits, start: Counters, events: seq<Event>, n: nat)
    requires n <= |events|
    ensures match FirstFailure(limits, start, events, n)
            case None => forall i :: 0 <= i < n ==> Granted(limits, start, events, i)
            case Some(b) =>
              exists i ::
                && 0 <= i < n && !Granted(limits, start, events, i)
                && BreachOf(Outcome(limits, start, events, i).value) == b
                && forall j :: 0 <= j < i ==> Granted(limits, start, events, j)
  {
    if n > 0 {
      FirstFailureIsFirst(limits, start, events, n - 1);
    }
  }

  lemma BreachStep(limits: Limits, c: Counters, event: Event)
    requires c.breachCode <= 4
    ensures var (d, error) := Observe(limits, c, event);
            && d.breachCode <= 4
            && BreachFromCode(d.breachCode) ==
               if BreachFromCode(c.breachCode).Some? || error.None? then BreachFromCode(c.breachCode)
                   else Some(BreachOf(error.value))
  {
  }

  /** The sticky breach code is the class of the first error any hook ever returned, or none. */
  lemma {:induction false} BreachIsFirstFailure(limits: Limits, now: nat, events: seq<Event>, n: nat)
    requires n <= |events|
    ensures BreachFromCode(Replay(limits, NewCounters(now), events[..n]).breachCode)
            == FirstFailure(limits, NewCounters(now), events, n)
    ensures Replay(limits, NewCounters(now), events[..n]).breachCode <= 4
  {
    if n > 0 {
      hide Observe, BreachFromCode;
      BreachIsFirstFailure(limits, now, events, n - 1);
      assert events[..n][..n - 1] == events[..n - 1];
      BreachStep(limits, Replay(limits, NewCounters(now), events[..n - 1]), events[n - 1]);
    }
  }

  // ---------------------------------------------------------------- time

  /** Where a history stands: inside a segment or between two, and the last clock reading. */
  datatype Cursor = Cursor(open: bool, at: nat)

  /** One event's place on the timeline; `None` when begin and end fail to alternate or time runs backwards. */
  function Advance(cursor: Cursor, event: Event): Option<Cursor> {
    match event
    case BeginSegment(at) => if !cursor.open && cursor.at <= at then Some(Cursor(true, at)) else None
    case EndSegment(at, restart) =>
      if cursor.open && cursor.at <= at <= restart then Some(Cursor(false, restart)) else None
    case CheckTime(at) => if cursor.open && cursor.at <= at then Some(Cursor(true, at)) else None
    case _ => if cursor.open then Some(cursor) else None
  }

  function Timeline(from: Cursor, events: seq<Event>): Option<Cursor> {
    if events == [] then Some(from)
    else
      match Timeline(from, events[..|events| - 1])
      case None => None
      case Some(cursor) => Advance(cursor, events[|events| - 1])
  }

  lemma TimelineAppends(from: Cursor, events: seq<Event>, event: Event)
    ensures Timeline(from, events + [event]) ==
            match Timeline(from, events) case None => None case Some(cursor) => Advance(cursor, event)
  {
    assert (events + [event])[..|events|] == events;
  }

  lemma {:induction false} TimelineSplits(from: Cursor, a: seq<Event>, b: seq<Event>)
    ensures Timeline(from, a + b) ==
            match Timeline(from, a) case None => None case Some(cursor) => Timeline(cursor, b)
    decreases |b|
  {
    if b == [] {
      assert a + b == a;
    } else {
      TimelineSplits(from, a, b[..|b| - 1]);
      assert (a + b)[..|a + b| - 1] == a + b[..|b| - 1];
    }
  }

  /** The completed segments of a history, as pairs of begin and end readings. */
  function Segments(events: seq<Event>): seq<(nat, nat)> {
    if events == [] then []
    else
      var earlier := events[..|events| - 1];
      match events[|events| - 1]
      case EndSegment(at, _) => Segments(earlier) + [(LastBegin(earlier), at)]
      case _ => Segments(earlier)
  }

  function LastBegin(events: seq<Event>): nat {
    if events == [] then 0
    else
      match events[|events| - 1]
      case BeginSegment(at) => at
      case _ => LastBegin(events[..|events| - 1])
  }

  function TotalLength(segments: seq<(nat, nat)>): nat {
    if segments == [] then 0
    else
      var last := segments[|segments| - 1];
      TotalLength(segments[..|segments| - 1]) + Since(last.0, last.1)
  }

  /**
   Accumulated time is exactly the completed segments' lengths; a reading inside a segment adds
   that segment so far, and a reading between segments adds the idle time since the clock restarted.
   */
  lemma {:induction false} AccumulatedIsSegmentTime(limits: Limits, now: nat, events: seq<Event>)
    requires Timeline(Cursor(false, now), events).Some?
    ensures var (c, cursor) := (Replay(limits, NewCounters(now), events), Timeline(Cursor(false, now), events).value);
            && c.accumulated == TotalLength(Segments(events))
            && c.segmentStart <= cursor.at
            && c.segmentStart == (if cursor.open then LastBegin(events) else cursor.at)
            && forall t: nat :: cursor.at <= t ==>
                 ElapsedAt(c, t)
                     == TotalLength(Segments(events)) + (t - (if cursor.open then LastBegin(events) else cursor.at))
  {
    if events != [] {
      var earlier := events[..|events| - 1];
      AccumulatedIsSegmentTime(limits, now, earlier);
      ClockStep(limits, Replay(limits, NewCounters(now), earlier), Timeline(Cursor(false, now), earlier).value,
          events[|events| - 1], LastBegin(earlier));
      if events[|events| - 1].EndSegment? {
        TotalLengthAppends(Segments(earlier), (LastBegin(earlier), events[|events| - 1].at));
      }
      hide Observe, Advance, TotalLength;
    }
  }

  lemma TotalLengthAppends(segments: seq<(nat, nat)>, last: (nat, nat))
    ensures TotalLength(segments + [last]) == TotalLength(segments) + Since(last.0, last.1)
  {
    assert (segments + [last])[..|segments|] == segments;
  }

  /** One event on the clock: an end adds the open segment, and the clock runs from the last begin or the last end. */
  lemma ClockStep(limits: Limits, c: Counters, cursor: Cursor, event: Event, lastBegin: nat)
    requires Advance(cursor, event).Some? && c.segmentStart <= cursor.at
    requires c.segmentStart == (if cursor.open then lastBegin else cursor.at)
    ensures var (d, next) := (Observe(limits, c, event).0, Advance(cursor, event).value);
            && d.accumulated == c.accumulated + (if event.EndSegment? then Since(lastBegin, event.at) else 0)
            && d.segmentStart <= next.at
            && d.segmentStart ==
                 if !next.open then next.at else if event.BeginSegment? then event.at else lastBegin
  {
  }

  /** Time spent executing by instant `t`: the completed segments, and the open one so far. */
  function ExecutionTime(now: nat, events: seq<Event>, t: nat): nat
    requires Timeline(Cursor(false, now), events).Some?
  {
    TotalLength(Segments(events))
    + (if Timeline(Cursor(false, now), events).value.open then Since(LastBegin(events), t) else 0)
  }

  /** `elapsed` is the execution time if and only if it is read inside a segment, or at the very instant one ended. */
  lemma ElapsedIsExactIff(limits: Limits, now: nat, events: seq<Event>, t: nat)
    requires Timeline(Cursor(false, now), events).Some? && Timeline(Cursor(false, now), events).value.at <= t
    ensures var cursor := Timeline(Cursor(false, now), events).value;
            ElapsedAt(Replay(limits, NewCounters(now), events), t) == ExecutionTime(now, events, t)
            <==> cursor.open || t == cursor.at
  {
    hide Replay, Timeline, Segments, TotalLength;
    AccumulatedIsSegmentTime(limits, now, events);
    SegmentsAreDisjoint(now, events);
  }

  /** A tracker idle since instant 5, read at 9, counts nine units for a segment of five. */
  lemma IdleTimeIsCounted(limits: Limits)
    ensures var events := [BeginSegment(0), EndSegment(5, 5)];
            && Timeline(Cursor(false, 0), events) == Some(Cursor(false, 5))
            && ExecutionTime(0, events, 9) == 5
            && ElapsedAt(Replay(limits, NewCounters(0), events), 9) == 9
  {
    var (one, events) := ([BeginSegment(0)], [BeginSegment(0), EndSegment(5, 5)]);
    assert events[..1] == one && one[..0] == [];
    assert Timeline(Cursor(false, 0), one) == Some(Cursor(true, 0));
    assert Replay(limits, NewCounters(0), one) == NewCounters(0);
    assert LastBegin(one) == 0 && Segments(one) == [];
    assert Segments(events) == [(0, 5)];
    assert [(0, 5)][..0] == [];
    assert TotalLength([(0, 5)]) == 5;
    assert Replay(limits, NewCounters(0), events) == NewCounters(0).(accumulated := 5, segmentStart := 5);
  }

  /** Segments in order, apart from each other, and all between two instants. */
  ghost predicate Disjoint(start: nat, segments: seq<(nat, nat)>, until: nat) {
    && start <= until
    && (forall i :: 0 <= i < |segments| ==> start <= segments[i].0 <= segments[i].1 <= until)
    && (forall i, j :: 0 <= i < j < |segments| ==> segments[i].1 <= segments[j].0)
    && TotalLength(segments) <= until - start
  }

  lemma DisjointAppends(start: nat, segments: seq<(nat, nat)>, begin: nat, end: nat, until: nat)
    requires Disjoint(start, segments, begin) && begin <= end <= until
    ensures Disjoint(start, segments + [(begin, end)], until)
  {
    assert (segments + [(begin, end)])[..|segments|] == segments;
  }

  lemma DisjointWidens(start: nat, segments: seq<(nat, nat)>, until: nat, later: nat)
    requires Disjoint(start, segments, until) && until <= later
    ensures Disjoint(start, segments, later)
  {
  }

  /** Segments neither overlap nor run backwards, so no time between two of them is ever charged. */
  lemma {:induction false} SegmentsAreDisjoint(now: nat, events: seq<Event>)
    requires Timeline(Cursor(false, now), events).Some?
    ensures var cursor := Timeline(Cursor(false, now), events).value;
            && Disjoint(now, Segments(events), if cursor.open then LastBegin(events) else cursor.at)
            && (cursor.open ==> LastBegin(events) <= cursor.at)
  {
    if events != [] {
      hide Disjoint, TotalLength;
      var (earlier, last) := (events[..|events| - 1], events[|events| - 1]);
      SegmentsAreDisjoint(now, earlier);
      if last.EndSegment? {
        DisjointAppends(now, Segments(earlier), LastBegin(earlier), last.at, last.restart);
      } else if last.BeginSegment? {
        DisjointWidens(now, Segments(earlier), Timeline(Cursor(false, now), earlier).value.at, last.at);
      }
    }
  }

  /** How many of the history's time checks pass. */
  function PassedTimeChecks(limits: Limits, start: Counters, events: seq<Event>): nat {
    if events == [] then 0
    else
      var earlier := events[..|events| - 1];
      PassedTimeChecks(limits, start, earlier)
      + (if events[|events| - 1].CheckTime? && Granted(limits, start, events, |events| - 1) then 1 else 0)
  }

  /** Execution time is past the limit: counting the open segment up to the cursor, if one is open. */
  predicate PastDeadline(limits: Limits, c: Counters, cursor: Cursor) {
    && limits.maxDuration.Some?
    && c.segmentStart <= cursor.at
    && (if cursor.open then ElapsedAt(c, cursor.at) else c.accumulated) > limits.maxDuration.value
  }

  lemma CounterResidue(n: nat)
    ensures ((n + 1) % U32_SIZE) % TIME_CHECK_INTERVAL == (n + 1) % TIME_CHECK_INTERVAL
  {
    var k := (n + 1) / U32_SIZE;
    assert n + 1 == k * U32_SIZE + (n + 1) % U32_SIZE;
  }

  lemma DeadlineStep(limits: Limits, c: Counters, cursor: Cursor, event: Event)
    requires PastDeadline(limits, c, cursor) && Advance(cursor, event).Some?
    ensures var (d, error) := Observe(limits, c, event);
            && PastDeadline(limits, d, Advance(cursor, event).value)
            && d.timeChecks % TIME_CHECK_INTERVAL
               == c.timeChecks % TIME_CHECK_INTERVAL + (if event.CheckTime? && error.None? then 1 else 0)
  {
    if event.CheckTime? {
      CounterResidue(c.timeChecks);
    }
  }

  /** Once past the deadline, always past it, and each further time check uses up one of the samples left. */
  lemma {:induction false} DeadlineHolds(limits: Limits, start: Counters, from: Cursor, events: seq<Event>)
    requires PastDeadline(limits, start, from)
    requires Timeline(from, events).Some?
    ensures PastDeadline(limits, Replay(limits, start, events), Timeline(from, events).value)
    ensures PassedTimeChecks(limits, start, events) + start.timeChecks % TIME_CHECK_INTERVAL
            == Replay(limits, start, events).timeChecks % TIME_CHECK_INTERVAL
  {
    hide Observe, PastDeadline, Advance;
    if events != [] {
      var (earlier, last) := (events[..|events| - 1], events[|events| - 1]);
      DeadlineHolds(limits, start, from, earlier);
      DeadlineStep(limits, Replay(limits, start, earlier), Timeline(from, earlier).value, last);
    }
  }

  /**
   Latency: from any counter value, once execution time is past the limit at most fifteen
   further time checks pass, counted over all the segments still to come.
   */
  lemma TimeLimitLatency(limits: Limits, start: Counters, from: Cursor, events: seq<Event>)
    requires PastDeadline(limits, start, from)
    requires Timeline(from, events).Some?
    ensures PassedTimeChecks(limits, start, events) <= TIME_CHECK_INTERVAL - 1 - start.timeChecks % TIME_CHECK_INTERVAL
  {
    hide Observe, Advance, PastDeadline;
    DeadlineHolds(limits, start, from, events);
  }

  /** A failing time check leaves the tracker past its deadline with no sample to spare. */
  lemma TimeErrorArms(limits: Limits, c: Counters, cursor: Cursor, at: nat)
    requires Advance(cursor, CheckTime(at)).Some? && c.segmentStart <= cursor.at
    requires Observe(limits, c, CheckTime(at)).1.Some?
    ensures var d := Observe(limits, c, CheckTime(at)).0;
            && PastDeadline(limits, d, Advance(cursor, CheckTime(at)).value)
            && d.timeChecks == TIME_CHECK_INTERVAL - 1
  {
  }

  /** With no sample to spare, every time check fails. */
  lemma NoFurtherCheckPasses(limits: Limits, c: Counters, cursor: Cursor, events: seq<Event>, i: nat)
    requires PastDeadline(limits, c, cursor) && c.timeChecks == TIME_CHECK_INTERVAL - 1
    requires Timeline(cursor, events).Some?
    requires i < |events| && events[i].CheckTime?
    ensures !Granted(limits, c, events, i)
  {
    hide Observe, Advance, PastDeadline;
    var head := events[..i + 1];
    assert events == head + events[i + 1..];
    TimelineSplits(cursor, head, events[i + 1..]);
    TimeLimitLatency(limits, c, cursor, head);
    assert head[..i] == events[..i];
  }

  /** Permanence: after one time error every later time check fails too, in this segment and in all later ones. */
  lemma TimeErrorIsPermanent(limits: Limits, now: nat, before: seq<Event>, at: nat, after: seq<Event>, i: nat)
    requires Timeline(Cursor(false, now), before + [CheckTime(at)] + after).Some?
    requires Observe(limits, Replay(limits, NewCounters(now), before), CheckTime(at)).1.Some?
    requires i < |after| && after[i].CheckTime?
    ensures !Granted(limits, Replay(limits, NewCounters(now), before + [CheckTime(at)]), after, i)
  {
    hide Observe, Advance, PastDeadline, Timeline, Replay;
    TimelineSplits(Cursor(false, now), before + [CheckTime(at)], after);
    TimelineAppends(Cursor(false, now), before, CheckTime(at));
    ReplayAppends(limits, NewCounters(now), before, CheckTime(at));
    AccumulatedIsSegmentTime(limits, now, before);
    var (c, cursor) := (Replay(limits, NewCounters(now), before), Timeline(Cursor(false, now), before).value);
    TimeErrorArms(limits, c, cursor, at);
    NoFurtherCheckPasses(limits, Observe(limits, c, CheckTime(at)).0, Advance(cursor, CheckTime(at)).value, after, i);
  }

  // ---------------------------------------------------------------- when hooks fail

  /** Whether an allocation is one too many, and whether it takes memory over the limit, as the sum wraps. */
  predicate TooMany(limits: Limits, granted: nat) {
    limits.maxAllocations.Some? && granted >= limits.maxAllocations.value
  }

  predicate TooMuch(limits: Limits, live: nat, size: nat) {
    limits.maxMemory.Some? && (live + size) % 0x1_0000_0000_0000_0000 > limits.maxMemory.value
  }

  /** An allocation fails for the count limit first, then for memory, and names the limit and what it asked for. */
  lemma AllocationFailsIff(limits: Limits, now: nat, events: seq<Event>, i: nat)
    requires i < |events| && events[i].Allocate?
    ensures var granted := GrantedAllocations(limits, NewCounters(now), events, i);
            var live := Replay(limits, NewCounters(now), events[..i]).live;
            var error := Outcome(limits, NewCounters(now), events, i);
            && (error.Some? <==> TooMany(limits, granted) || TooMuch(limits, live, events[i].size))
            && (TooMany(limits, granted) ==>
                  error == Some(AllocationError(limits.maxAllocations.value, granted + 1)))
            && (!TooMany(limits, granted) && TooMuch(limits, live, events[i].size) ==>
                  error == Some(MemoryError(limits.maxMemory.value, (live + events[i].size) % 0x1_0000_0000_0000_0000)))
  {
    hide Observe, Replay, GrantedAllocations, TooMany, TooMuch;
    UsageStaysWithinLimits(limits, now, events, i);
    AllocationOutcome(limits, Replay(limits, NewCounters(now), events[..i]), events[i].size);
    assert events[i] == Allocate(events[i].size);
  }

  lemma AllocationOutcome(limits: Limits, c: Counters, size: nat)
    ensures var error := Observe(limits, c, Allocate(size)).1;
            && (error.Some? <==> TooMany(limits, c.allocations) || TooMuch(limits, c.live, size))
            && (TooMany(limits, c.allocations) ==>
                  error == Some(AllocationError(limits.maxAllocations.value, c.allocations + 1)))
            && (!TooMany(limits, c.allocations) && TooMuch(limits, c.live, size) ==>
                  error == Some(MemoryError(limits.maxMemory.value, (c.live + size) % 0x1_0000_0000_0000_0000)))
  {
  }

  /** Growing, and a large result, fail if and only if live memory and the bytes, saturated, are over the limit. */
  lemma GrowthFailsIff(limits: Limits, now: nat, events: seq<Event>, i: nat)
    requires i < |events| && (events[i].Grow? || events[i].CheckLargeResult?)
    ensures var sum := Replay(limits, NewCounters(now), events[..i]).live + events[i].bytes;
            var memory := if sum > 0xFFFF_FFFF_FFFF_FFFF then 0xFFFF_FFFF_FFFF_FFFF else sum;
            && (Outcome(limits, NewCounters(now), events, i).Some? <==>
                  limits.maxMemory.Some? && memory > limits.maxMemory.value)
            && (Outcome(limits, NewCounters(now), events, i).Some? ==>
                  Outcome(limits, NewCounters(now), events, i).value == MemoryError(limits.maxMemory.value, memory))
  {
  }

  /** A call goes too deep if and only if a limit is set and the depth has reached it. */
  lemma RecursionFailsIff(limits: Limits, now: nat, events: seq<Event>, i: nat)
    requires i < |events| && events[i].CheckRecursion?
    ensures Outcome(limits, NewCounters(now), events, i).Some? <==>
              limits.maxRecursionDepth.Some? && events[i].depth >= limits.maxRecursionDepth.value
    ensures Outcome(limits, NewCounters(now), events, i).Some? ==>
              Outcome(limits, NewCounters(now), events, i).value
              == RecursionError(limits.maxRecursionDepth.value, events[i].depth + 1)
  {
  }

  /** Freeing and the clock calls never fail. */
  lemma OtherEventsNeverFail(limits: Limits, now: nat, events: seq<Event>, i: nat)
    requires i < |events| && (events[i].Free? || events[i].BeginSegment? || events[i].EndSegment?)
    ensures Outcome(limits, NewCounters(now), events, i) == None
  {
  }

  /** Time checks since the start, or since the last one that failed, which leaves all but one of a sample made. */
  function ChecksSoFar(limits: Limits, start: Counters, events: seq<Event>): nat {
    if events == [] then 0
    else
      var earlier := ChecksSoFar(limits, start, events[..|events| - 1]);
      if !events[|events| - 1].CheckTime? then earlier
      else if Granted(limits, start, events, |events| - 1) then earlier + 1
      else TIME_CHECK_INTERVAL - 1
  }

  lemma {:induction false} ChecksAreCounted(limits: Limits, now: nat, events: seq<Event>)
    requires limits.maxDuration.Some?
    ensures Replay(limits, NewCounters(now), events).timeChecks % TIME_CHECK_INTERVAL
            == ChecksSoFar(limits, NewCounters(now), events) % TIME_CHECK_INTERVAL
  {
    hide Observe;
    if events != [] {
      var earlier := events[..|events| - 1];
      ChecksAreCounted(limits, now, earlier);
      ChecksStep(limits, Replay(limits, NewCounters(now), earlier), events[|events| - 1]);
      SameResidueNext(Replay(limits, NewCounters(now), earlier).timeChecks,
          ChecksSoFar(limits, NewCounters(now), earlier));
    }
  }

  lemma SameResidueNext(a: nat, b: nat)
    requires a % TIME_CHECK_INTERVAL == b % TIME_CHECK_INTERVAL
    ensures (a + 1) % TIME_CHECK_INTERVAL == (b + 1) % TIME_CHECK_INTERVAL
  {
  }

  lemma ChecksStep(limits: Limits, c: Counters, event: Event)
    requires limits.maxDuration.Some?
    ensures var (d, error) := Observe(limits, c, event);
            d.timeChecks % TIME_CHECK_INTERVAL ==
              if !event.CheckTime? then c.timeChecks % TIME_CHECK_INTERVAL
              else if error.None? then (c.timeChecks + 1) % TIME_CHECK_INTERVAL
              else TIME_CHECK_INTERVAL - 1
  {
    CounterResidue(c.timeChecks);
  }

  /**
   A time check fails if and only if a limit is set, it is every sixteenth call, counted anew from
   fifteen after a failure, and the time spent executing, this segment included, is over the limit.
   */
  lemma TimeCheckFailsIff(limits: Limits, now: nat, events: seq<Event>, i: nat)
    requires i < |events| && events[i].CheckTime? && Timeline(Cursor(false, now), events[..i + 1]).Some?
    ensures Timeline(Cursor(false, now), events[..i]).Some?
    ensures var time := ExecutionTime(now, events[..i], events[i].at);
            && (Outcome(limits, NewCounters(now), events, i).Some? <==>
                  && limits.maxDuration.Some? && time > limits.maxDuration.value
                  && (ChecksSoFar(limits, NewCounters(now), events[..i]) + 1) % 16 == 0)
            && (Outcome(limits, NewCounters(now), events, i).Some? ==>
                  Outcome(limits, NewCounters(now), events, i).value == TimeError(limits.maxDuration.value, time))
  {
    var (before, c) := (events[..i], Replay(limits, NewCounters(now), events[..i]));
    assert events[..i + 1][..i] == before;
    AccumulatedIsSegmentTime(limits, now, before);
    SegmentsAreDisjoint(now, before);
    TimeCheckOutcome(limits, c, events[i].at);
    if limits.maxDuration.Some? {
      ChecksAreCounted(limits, now, before);
      SameResidueNext(c.timeChecks, ChecksSoFar(limits, NewCounters(now), before));
    }
    assert events[i] == CheckTime(events[i].at);
    hide Observe, Replay, Timeline, Segments, TotalLength, LastBegin, ChecksSoFar, Disjoint;
  }

  lemma TimeCheckOutcome(limits: Limits, c: Counters, at: nat)
    ensures var error := Observe(limits, c, CheckTime(at)).1;
            && (error.Some? <==>
                  && limits.maxDuration.Some? && ElapsedAt(c, at) > limits.maxDuration.value
                  && (c.timeChecks + 1) % TIME_CHECK_INTERVAL == 0)
            && (error.Some? ==> error.value == TimeError(limits.maxDuration.value, ElapsedAt(c, at)))
  {
    CounterResidue(c.timeChecks);
  }
}
