# A verified model of monty-server

monty-server runs Python programs in the monty interpreter on behalf of HTTP clients. A
program may pause for its client (a host function, an unknown name, pending futures) and is
then kept as a session that the client resumes. The interpreter is not part of this model;
what is modelled is the concurrent system around it, and what is proved is mostly about whole
runs of it.

| part | files |
|---|---|
| Session protocol: a transition system over requests, blocking tasks, permits, shared entries, the id map, the reaper and the clock, with every locked region, map operation and clock call of a task a step of its own; its invariant; safety over all interleavings | `Protocol`, `ProtocolInvariant`, `ProtocolTheorems` |
| Over whole runs: refinement of an atomic session machine, what each request becomes, what responses show, when progress is lost and segments stay open, tenants, lifetime, the reaper's passes, capacity | `Refinement`, `Requests`, `Responses`, `Losses`, `Executions`, `Isolation`, `Lifetime`, `Reaping`, `Capacity` |
| Runs from the start that exhibit something | `Walks`, `Races` |
| Session store and entries, updated in place, and request validation and rendering | `Session`, `Api` |
| Engine driver over an abstract interpreter, and the theorem that slicing preserves meaning | `Engine`, `EngineTheorems` |
| Resource tracker: counters, peak, sticky breach, sampled clock, segments | `Tracker`, `TrackerTheorems` |
| Token bucket rate limiter | `RateLimit`, `RateLimitTheorems` |
| JSON value decoder, its grammar and its inverse | `Values`, `Convert`, `ConvertTheorems` |
| Rate rules and the token list | `Config` |

How to read it: the classes (`SessionEntry`, `SessionStore`, `StatsTracker`, `RateLimiter`) and
the methods with loops do what the Rust code does, in place, and are proved against functions on
values (`Acquired`, `Stored`, `Observe`, `CheckOne`, `Decode`, `Settled`, ...). The lemmas then
prove properties of those functions and of the transition system, whose steps are built from
the same functions.

Modelling choices that bear on what the theorems say:

- One flight is one request: its handler future together with the blocking task it spawned.
  Cancelling a flight whose task is running only detaches the handler; the task runs on and its
  permit comes back when it ends (src/api/mod.rs:49-53). An entry and its tracker go by the same
  reference and outlive their id.
- The interpreter is a `Vm` of three functions: compile, start and resume. A turn runs to the next
  pause, result or exception and reports the text printed and the tracker hooks called. `env` is
  chosen freely for every slice and stands for everything a turn may depend on besides its state:
  clock readings, allocation sizes, what the hooks answer. A program that makes OS calls for ever
  would keep `settle` from returning, so `Settles` assumes a measure on consecutive OS calls.
- Instants and durations are whole nanoseconds; the limiter's are reals, so rounding of `f64` is
  not modelled. `usize` is 64 bits wide; `+` and `fetch_add` wrap as in a release build.
- Fresh session ids are assumed: an insertion draws an id never drawn before.
- `DashMap::len` is atomic. The reaper's scan visits ids one at a time in any order, no id twice, and every id that is
  there from its start to its end; it may or may not visit ids inserted meanwhile. A `Sweep` action is a whole pass at
  one instant.
- A flight records the principal it arrived with, as the request's extension does (src/auth.rs:47-58).
- Clock readings are nondecreasing. A prune of the rate limiter may act on a reading that lags.
- Base64, the list of exception names and the compiler are parameters.

The protocol's step functions (`DoAcquire`, `DoCollect`, ...) are its definition; what they do is stated by the
theorems about them: which step may touch what (`StepsAreShaped`), what every reachable state satisfies, what each
request is answered (`Requests`) and shown (`ResponsesDepictTheEntry`), and, for what is taken, run and stored, the
refinement of the atomic machine.

Where the code does less than its comments say, the model follows the code. Each case names the exact condition
under which the comment holds and, where the server can get there, a run or history from the start in which it fails:

- Progress is to be put back before a resume responds (src/api/sessions.rs:336, src/session.rs:227-229). It is lost
  exactly by cancelling its holder before or after its task, by a panic, or by the end of a task nobody waits for
  (`LostIffLoses`, `LostIffSomeStepLoses`); then the session answers busy for good (`LostStaysLost`,
  `ProgressCanBeLost`).
- The reaper is to evict sessions past their expiry (src/session.rs:175). Its removals do not look again: it evicts an
  unexpired session exactly when that was stored into between visit and removal, less than a lifetime ago
  (`EvictsUnexpiredIff`, `LeavesOnlyWhen`, `RefreshedSessionIsEvicted`).
- A paused entry is expected always to have its progress, and a resume to answer with its step
  (src/api/sessions.rs:338-346, 408-410). The response is rendered under a second lock: it shows the last step stored
  by then, or the internal error while the progress is out (`ResponseShowsOwnStepIff`, `ResponseMayShowALaterStep`,
  `ResponseMayFindProgressTaken`).
- `elapsed` is not to charge idle time (src/tracker.rs:115-118). It does, except inside a segment and at the instant one
  ended (`ElapsedIsExactIff`, `IdleTimeIsCounted`).
- `max_sessions` is to bound the sessions (src/config.rs:95-96). Concurrent creations overshoot it by at most one less
  than the number of creators between check and insertion, and some do (`OvershootIsBounded`, `OvershootIsAttained`).
- The memory limit is to hold (src/tracker.rs:193-204). It is checked after an addition that wraps
  (`GrantIsAccountedForIff`, `OverflowingAllocationIsGranted`).
- Dropping an idle bucket is to be equivalent to keeping it (src/rate_limit.rs:71-72). It is, exactly for bursts of at
  most ten times the rate (`IdleBucketIsFullIff`), which every configured rule has.
- A rejected check is to cost nothing. It does not show, exactly as long as a key is checked at one rate
  (`RejectionIsInvisibleIff`); two tokens that share a name share a key (src/auth.rs:47-53), and then it can
  (`RejectedCheckShowsAcrossRates`).
- Plain JSON objects with one key starting with `$` are never dicts (`DollarKeyNeedsDictTag`), so `$dict` is not only
  for keys that are not strings.

## Model

| member | source | states |
|---|---|---|
| Config.NewRateRule | src/config.rs:170-178 | Every rule the loader builds has its burst equal to its rate, which is the requested rate, or one for a requested rate of nought; so the burst is within ten times the rate, which is what makes pruning harmless |
| Config.LoadAuth | src/config.rs:184-215 | The loop over the comma-separated pieces yields the declared token map, `Disabled` for a blank or empty list, or the error of the first bad entry |
| Config.ErrorsStay | src/config.rs:190-208 | The first entry that does not parse decides the result; nothing after it is looked at |
| Config.LoadUndoesWrite | src/config.rs:180-215 | Any list of entries of the three forms (token, name and token, name and token and rate), written out, loads as exactly what each grants: a bare token is its own name, a missing rate is the default one, and the last word on each token wins |
| Config.EntryFailsIff | src/config.rs:192-206 | An entry is refused exactly for having more than two colons, or for a third part that is no 32-bit number |
| Config.NumbersAreRead | src/config.rs:195-199 | A written number is read back if and only if it fits 32 bits; a plus sign and leading zeros change nothing; nothing, or anything but digits, is no number |
| Config.PaddingIsTrimmed | src/config.rs:190-191 | White space on either side of an entry, any amount of it, changes nothing |
| Config.BlankListsDisable | src/config.rs:184-215 | No list, or a list of blank pieces only, turns tokens off |
| RateLimit.RateLimiter.Check | src/rate_limit.rs:44-69 | One check rewrites its own key's bucket only, to what the one-bucket specification gives, and answers accordingly; a zero rate waits forever |
| RateLimit.RateLimiter.PruneIdle | src/rate_limit.rs:73-81 | A bucket is left, as it was, if and only if it was there and has been used within ten minutes or its lock is taken |
| RateLimitTheorems.RefillComposes | src/rate_limit.rs:56-59 | Lazily refilling for one stretch and then for another is refilling for both at once |
| RateLimitTheorems.LevelIsLeastHeadroom | src/rate_limit.rs:56-69 | What a request finds in the bucket is the least room left in any window that ends at it, and some window is that tight |
| RateLimitTheorems.AdmitsIffEveryWindowFits | src/rate_limit.rs:44-69 | Request i is admitted if and only if for every earlier j the admissions from j on and this one fit in burst plus rate times the elapsed time |
| RateLimitTheorems.WindowBound | src/rate_limit.rs:44-69 | No window of any run lets through more than burst plus rate times its length |
| RateLimitTheorems.VerdictsRespect | src/rate_limit.rs:44-69 | The limiter's own decisions keep every window within its bound |
| RateLimitTheorems.GreedyIsMaximal | src/rate_limit.rs:44-69 | No other way of admitting that keeps every window within its bound is ahead of the limiter after any number of requests |
| RateLimitTheorems.AdmittedFrom | src/rate_limit.rs:61-68 | After a rejection a check is admitted exactly from the moment the deficit has flowed in |
| RateLimitTheorems.RetryIsExact | src/rate_limit.rs:64-68 | A rejection's wait is between 1 and 60 seconds; a check after it is admitted and one a second sooner is not |
| RateLimitTheorems.IdleBucketIsFullIff | src/rate_limit.rs:16-18 | Ten idle minutes refill every bucket if and only if the burst is at most ten times the per-minute rate |
| RateLimitTheorems.PruningIsUnobservable | src/rate_limit.rs:71-81 | Any run with prunes anywhere, stale and partial ones included, and any mix of rules per key answers as the same run without prunes |
| RateLimitTheorems.KeysAreIndependent | src/rate_limit.rs:48-54 | A key's bucket and decisions are those of its own checks alone |
| RateLimitTheorems.LimiterIsGreedy | src/rate_limit.rs:44-81 | End to end: in any run of many keys with prunes, a key's i-th decision is the greedy-maximal one for that key |
| RateLimitTheorems.RejectedChecksAreTransparent | src/rate_limit.rs:56-68 | In any run, prunes included, in which each key is checked at one rate (bursts of at least one may differ), deleting or inserting a rejected check changes no other answer |
| RateLimitTheorems.RejectionIsInvisibleIff | src/rate_limit.rs:56-68 | For any two rules: a check rejected under one is invisible to every later check under the other, for all buckets and times, if and only if their per-minute rates are equal |
| RateLimitTheorems.RejectedCheckShowsAcrossRates | src/rate_limit.rs:56-68 | A run from no buckets, under two rules that the configuration can build, in which a rejected check costs a later one its token |
| Tracker.StatsTracker.OnAllocate | src/tracker.rs:181-209 | The hook moves the counters and answers as the event specification says: count limit first, then memory |
| Tracker.StatsTracker.OnFree | src/tracker.rs:211-216 | Freeing subtracts and stops at zero |
| Tracker.StatsTracker.OnGrow | src/tracker.rs:218-232 | Growing saturates, then is refused or stored |
| Tracker.StatsTracker.OnCheckTime | src/tracker.rs:234-258 | One call in sixteen of the wrapping counter reads the clock; a failure re-arms the counter |
| Tracker.StatsTracker.OnCheckRecursion | src/tracker.rs:260-271 | The hook answers, and records the breach, as the event specification says; `RecursionFailsIff` says when that is an error |
| Tracker.StatsTracker.OnCheckLargeResult | src/tracker.rs:273-289 | A projected result over the limit is refused and recorded, and stored nowhere |
| Tracker.StatsTracker.BeginSegment | src/tracker.rs:107-110 | Sets the segment's start and nothing else |
| Tracker.StatsTracker.EndSegment | src/tracker.rs:119-124 | Folds the segment into the accumulated time and restarts the clock from a second reading |
| Tracker.StatsTracker.Stats | src/tracker.rs:135-141 | Reads the counters, counting time since the last clock restart even when idle |
| Tracker.StatsTracker.FirstBreach | src/tracker.rs:145-153 | Reads the recorded breach back |
| TrackerTheorems.LiveIsMaximalSuffix | src/tracker.rs:181-232 | Live memory is the largest net sum of any suffix of the history, as long as no granted size overflows the word |
| TrackerTheorems.PeakIsRunningMaximum | src/tracker.rs:298-301 | The peak bounds live memory at every moment and some moment attains it |
| TrackerTheorems.UsageStaysWithinLimits | src/tracker.rs:181-232 | In every state live is at most peak, peak at most the memory limit, and the allocation count is the number of granted allocations and within its limit |
| TrackerTheorems.GrantIsAccountedForIff | src/tracker.rs:193-207 | The exact condition on the unsaturated addition: a granted allocation is counted in full if and only if live plus its size fits 64 bits |
| TrackerTheorems.OverflowingAllocationIsGranted | src/tracker.rs:193-207 | A history from a new tracker in which that condition fails: a huge allocation is granted under a small limit and live memory falls |
| TrackerTheorems.FirstFailureIsFirst | src/tracker.rs:162-174 | `FirstFailure` is the class of the first event that returned an error, and none exactly when no event did |
| TrackerTheorems.BreachIsFirstFailure | src/tracker.rs:145-174 | After any history the breach is the class of the first error ever returned, or none |
| TrackerTheorems.AllocationFailsIff | src/tracker.rs:181-209 | At any point of any history an allocation fails if and only if as many were granted as the limit allows, or live memory plus its size, wrapped to 64 bits, is over the memory limit; the count decides first, and the error has the limit and what was asked for |
| TrackerTheorems.GrowthFailsIff | src/tracker.rs:218-232 | At any point of any history growing fails if and only if live memory and the bytes, saturated, are over the limit, with that sum as its error; a large result (lines 273-289) likewise |
| TrackerTheorems.RecursionFailsIff | src/tracker.rs:260-271 | A call fails if and only if a depth limit is set and the depth has reached it, with one more than the depth as its error |
| TrackerTheorems.TimeCheckFailsIff | src/tracker.rs:234-258 | At any point of any history a time check fails if and only if it is every sixteenth, counted anew from fifteen after a failure, and the completed segments and this one so far are over the limit, with that time as its error |
| TrackerTheorems.OtherEventsNeverFail | src/tracker.rs:211-216 | Freeing and the segment clock never fail |
| TrackerTheorems.AccumulatedIsSegmentTime | src/tracker.rs:107-131 | While begins and ends alternate, accumulated time is the sum of the completed segments; a reading inside a segment adds that segment so far, and one between segments adds the idle time since the clock restarted |
| TrackerTheorems.ElapsedIsExactIff | src/tracker.rs:112-131 | `elapsed` is the execution time if and only if it is read inside a segment or at the instant one ended |
| TrackerTheorems.IdleTimeIsCounted | src/tracker.rs:112-131 | A history of one segment of five after which an idle reading at nine says nine |
| TrackerTheorems.SegmentsAreDisjoint | src/tracker.rs:104-124 | Segments neither overlap nor run backwards, so no time between two of them is charged |
| TrackerTheorems.TimeLimitLatency | src/tracker.rs:234-258 | From any counter value, wraparound included, at most fifteen more time checks pass once the limit is exceeded, over all segments to come |
| TrackerTheorems.TimeErrorIsPermanent | src/tracker.rs:244-256 | After one time error every later time check fails, in this segment and all later ones |
| Convert.ObjectToMonty | src/convert.rs:133-143 | The loop decodes a tagged object by its tag and any other object to its pairs in order, failing at the first bad value |
| Convert.BytesToMonty | src/convert.rs:179-200 | The loop accepts base64 text or an array of integers from 0 to 255, and nothing else |
| Convert.DictTagToMonty | src/convert.rs:236-256 | The loop decodes an array of two-element arrays to pairs, failing at the first bad entry |
| Convert.PairsToJson | src/convert.rs:95-104 | Keyword arguments become an object exactly when every key is a string (values left unencoded) |
| Convert.KeywordObjectKeepsLast | src/convert.rs:95-104 | That object has an entry for every name used and holds each name's last value |
| ConvertTheorems.DecodesIffDenotes | src/convert.rs:55-64 | The decoder yields a value if and only if the JSON stands for it under an independent relation |
| ConvertTheorems.DecodesIffAccepted | src/convert.rs:55-256 | The decoder accepts exactly an inductively defined grammar |
| ConvertTheorems.DecodeFailsIff | src/convert.rs:55-256 | JSON outside the grammar is refused exactly for the first thing that is wrong with it, from left to right, by an inductive definition of what is wrong with what |
| ConvertTheorems.DecodeUndoesEncode | src/convert.rs:4-25 | Decoding undoes the canonical encoder of the documented value table on every expressible value |
| ConvertTheorems.RangeIsExpressible | src/convert.rs:55-256 | A value is expressible if and only if some JSON decodes to it |
| ConvertTheorems.EncodingIsDocument | src/convert.rs:133-143 | The canonical encoding lists every object's keys in map order, so it exists as a parsed document |
| ConvertTheorems.DollarKeyNeedsDictTag | src/convert.rs:145-152 | Whatever decodes to a dict whose one key is a string starting with `$` is a one-entry `$dict`; no plain object does |
| Engine.JoinStreams | src/engine.rs:364-373 | Each stream's text, in order |
| Engine.Settle | src/engine.rs:283-300 | The loop answers OS calls with the permission error until none is left; text and tracker calls pile up in order |
| Engine.Finish | src/engine.rs:303-328 | The step of a settled turn: result, exception with the tracker's breach, or pause |
| Engine.StartSession | src/engine.rs:173-192 | A fresh tracker goes through one whole segment around the settled first turn |
| Engine.ResumeSession | src/engine.rs:214-230 | A mismatch leaves the tracker alone and hands the progress back with both kinds named; a match runs one whole segment |
| EngineTheorems.SettledNeverAtOs | src/engine.rs:281-300 | Nothing settles on an OS call |
| EngineTheorems.SliceIsActionable | src/engine.rs:281-328 | A slice ends in a result, an exception or a pause that a client can answer |
| EngineTheorems.ActionableIffAnswerable | src/engine.rs:234-253 | The actionable pauses are exactly those that some input matches |
| EngineTheorems.PairingTable | src/engine.rs:234-352 | Calls take a value, an exception or a postponement, names a value or none, futures their results, and nothing else is answered; a mismatch names both sides for what they are |
| EngineTheorems.FuturesKeepTheirIds | src/engine.rs:273-275 | Every future is handed its own result under its own id, in the order given: a value exactly for a return, an exception exactly for a raise; and no result is added or dropped |
| EngineTheorems.MatchingResumeIsAnswer | src/engine.rs:257-279 | A matching resume hands the interpreter the one answer its input stands for, whatever the pause, where the answer for futures is defined apart from the driver |
| EngineTheorems.SliceIsBigStep | src/engine.rs:283-328 | A slice stops and prints where an uninterrupted run with no answers to give does |
| EngineTheorems.FragmentsComeOutInOrder | src/engine.rs:364-373 | Each fragment stands whole on its own stream, right after all that stream had before it, and leaves the other stream alone |
| EngineTheorems.NothingIsLost | src/engine.rs:364-373 | The two streams together have as much text as was printed |
| EngineTheorems.SlicingPreservesMeaning | src/engine.rs:173-328 | For any program and any replies, good, mismatched or late, the session's outcome, its concatenated output and the hooks its tracker saw are those of one uninterrupted run under the accepted answers |
| EngineTheorems.LimitReportIsFirstFailure | src/engine.rs:321-326 | After any replies, a failed step names the first limit that tripped in any slice, and none if and only if none ever did |
| EngineTheorems.DurationIsSegmentTime | src/engine.rs:303-309 | A step's duration is its tracker's completed segments plus the moment since the clock restarted |
| EngineTheorems.UsageIsReported | src/tracker.rs:135-141 | After any replies, a step reports the number of allocations granted, and a peak that live memory reached at some moment and never passed |
| Session.SessionEntry.constructor | src/session.rs:135-146 | A new entry shows the first step and expires one lifetime from now |
| Session.SessionEntry.AcquireForResume | src/session.rs:234-242 | Finished, busy, or the progress and tracker, with the progress taken out and nothing else changed |
| Session.SessionEntry.Restore | src/session.rs:246-248 | Puts the progress back and changes nothing else |
| Session.SessionEntry.StoreStep | src/session.rs:251-257 | Shows the new step and moves expiry one lifetime past now |
| Session.SessionStore.Create | src/session.rs:124-151 | At capacity nothing changes; otherwise exactly the new session is added |
| Session.SessionStore.Get | src/session.rs:156-163 | Another principal's session looks absent |
| Session.SessionStore.Remove | src/session.rs:166-173 | Removes the session if and only if it is there and owned |
| Session.SessionStore.ReapExpired | src/session.rs:176-195 | An uninterrupted pass removes exactly the expired sessions and counts them |
| Api.OneFieldOrRejected | src/api/sessions.rs:119-162 | A resume body is turned down for its shape exactly unless one of six fields is set, and the internal-error fallthrough is never reached; what it becomes otherwise is `InputIff` |
| Api.InputIff | src/api/sessions.rs:119-162 | For every body and input: the body becomes the input if and only if it sets exactly one field and that field asks for that input, its JSON decoding to the value, its name known, each future with its own id and outcome, in order |
| Api.InputFailsIff | src/api/sessions.rs:119-162 | A body with one field set is turned down exactly for a value that does not decode, an exception nobody knows, or a bad future |
| Api.FirstBadFutureIsReported | src/api/sessions.rs:81-114 | A list of futures is turned down exactly for its first bad entry: not one of the two fields, a value that does not decode, or an exception nobody knows |
| Api.OutcomesConvertTogether | src/api/sessions.rs:100-114 | A list of future outcomes converts if and only if each does, in order |
| Api.RenderFailsIff | src/api/sessions.rs:388-477 | Rendering a well-formed entry fails, with the internal error, exactly when it is paused with its progress out, value encoding aside; what it shows otherwise is `ViewIff` |
| Api.ViewIff | src/api/sessions.rs:387-477 | For every well-formed entry and every view: the entry is rendered as the view if and only if the view shows it: a limit exactly for a failure with a breach, by its name, an exception for one without, a result when completed, else a pause with every field of the progress, the last of equal keywords; the snapshot's output and statistics; and the whole seconds left, or none |
| Protocol.StepsAreShaped | src/api/sessions.rs:313-349 | Every action falls into one of a few frames: what it may read out, drive, write back, add or remove |
| Protocol.FlightSteps | src/api/sessions.rs:313-349 | Each action of a request that is there is its own step function and nothing else |
| ProtocolInvariant.NextKeepsInv | src/api/sessions.rs:313-349 | Every action of every request, the reaper and the clock keeps the invariant: holders exclusive, entries well formed, trackers on their timeline, permits balanced |
| ProtocolInvariant.ReachableSatisfiesInv | src/api/sessions.rs:255-378 | Every reachable state of every interleaving satisfies the invariant |
| ProtocolTheorems.HeapIsFramed | src/session.rs:227-257 | An entry changes only when its progress is taken or its holder writes back |
| ProtocolTheorems.TrackersAreFramed | src/engine.rs:173-230 | A tracker changes only by the task that holds it |
| ProtocolTheorems.ProgressIsInOnePlace | src/session.rs:234-257 | At most one request holds a session's progress, and none while it is in its entry or the session is finished |
| ProtocolTheorems.ExecutionsNeverOverlap | src/api/sessions.rs:327-334 | Two running resumes of one session are the same one, cancelled handlers and deleted sessions included |
| ProtocolTheorems.HoldingStartsWithAcquire | src/session.rs:234-242 | Progress comes to a request only by its own acquire of an entry whose progress is in |
| Losses.LostIffLoses | src/api/mod.rs:42-61 | A step loses a live session's progress if and only if it cancels the holder before or after its task, panics the task, or ends the task, stepped or mismatched, after its handler is gone |
| Losses.LostIffSomeStepLoses | src/api/sessions.rs:327-343 | Over any run from the start, a session is lost exactly when some step of the run was such a step |
| Losses.LostStaysLost | src/session.rs:240-240 | Over any run, a session whose progress is lost stays as it is and answers busy |
| Losses.TerminalIsAbsorbing | src/session.rs:237-239 | Over any run, a finished entry is never written again |
| Races.ProgressCanBeLost | src/api/mod.rs:42-47 | A run from the start that loses the progress of a session still in the store: its resume times out waiting for a permit |
| Executions.ProgressIsUsedOnce | src/session.rs:234-257 | Over any run, between any two segments begun with a session's progress a step was stored |
| ProtocolTheorems.PermitsAreConserved | src/api/mod.rs:42-53 | Free permits, granted ones and running tasks, orphaned ones included, always add up to the limit |
| ProtocolTheorems.EntriesAreWellFormed | src/session.rs:264-304 | In every reachable state each entry is finished exactly when its snapshot is, then without progress, else with an answerable one; rendering fails exactly while progress is out |
| ProtocolTheorems.RunningResumesMatch | src/engine.rs:255-279 | A resume that runs has a matching input, so the unreachable arm is not reached |
| ProtocolTheorems.NobodyIsStuck | src/api/sessions.rs:327-348 | In every reachable state a request that has not been answered has a next step of its own that is no cancellation or panic, unless it waits for a permit that is not free or its program is running |
| ProtocolTheorems.WorkCanAlwaysFinish | src/engine.rs:214-230 | A running program whose hooks read the clock forwards up to some instant can be finished with as soon as that instant has come |
| ProtocolTheorems.PermitsAreHeldBySomebody | src/api/mod.rs:42-53 | With no permit free, somebody holds one: waiting for a permit is waiting for a request that can go on |
| ProtocolTheorems.SegmentsAlternate | src/tracker.rs:104-124 | In every reachable state every tracker's begins and ends alternate, its accumulated time is its completed segments' time and no more than its age |
| Executions.OpenSegmentIsRunningOrAbandoned | src/tracker.rs:107-124 | An open segment belongs to one running task or was abandoned, and an abandoned session, if stored, is lost |
| Executions.AbandonedIffPanicked | src/api/mod.rs:49-61 | Over any run from the start, a segment stands open with nobody in it exactly when a task inside it panicked |
| Executions.AbandonedStays | src/tracker.rs:107-124 | Over any run nothing ever happens again on such a tracker: no end, no begin, no hook |
| ProtocolTheorems.MismatchIsNoOp | src/api/sessions.rs:339-342 | From its acquire to its restore, over anything else that happens meanwhile, a mismatched resume leaves the entry and its tracker exactly as they were |
| Requests.RequestsKeepTheirPurpose | src/api/sessions.rs:255-378 | Over any run, a request keeps its sender and is answered for what it asked: a resume keeps its id and input to the step it stores, a creation its source, limits and lifetime, each kind of answer goes to its own kind of request, and once a deletion is confirmed its id is gone |
| Requests.DeleteTakesEffect | src/session.rs:166-173 | A removal answers `Deleted` if and only if the id is there at that moment and not-found if and only if it is not; the id is gone afterwards, and every other id, entry, tracker and request is as it was |
| Requests.OnlyOwnersFind | src/session.rs:156-163 | A request finds its session if and only if the id is there and the session is the caller's; everybody else is told it is not there |
| Requests.AcquireAnswers | src/api/sessions.rs:327-329 | In every reachable state a resume is told finished exactly if the session is, busy exactly if the progress is out, and otherwise queues with the progress and its own input |
| Requests.ResultsAreAnswered | src/api/sessions.rs:284-343 | A mismatch, a program that does not compile, a full server and a panic each get their own answer; a step goes on to be shown, and a creation to be stored, exactly below capacity |
| Requests.TimeoutsLeaveTasksRunning | src/api/mod.rs:42-61 | A request can time out exactly where it waits; then no entry, tracker or id changes, a running task runs on with its permit, and a permit not yet used is free again |
| Requests.ProgramsBegin | src/engine.rs:173-192 | A program that compiles begins on exactly the trackers not in use, created at any reading so far, under its own limits, with one segment begun now and nothing else changed |
| Requests.TasksCanPanic | src/api/mod.rs:55-61 | A running task can panic at any time; its permit is free again and its handler, if there is one, is told |
| Requests.SessionsAreMade | src/session.rs:131-150 | An admitted creation can be inserted under exactly the ids never drawn, at any reading since its capacity check; the session is its creator's and has its whole lifetime ahead |
| Requests.RequestsArrive | src/api/sessions.rs:255-378 | Requests of every kind can arrive at any time, from anybody, and arriving changes nothing else |
| Lifetime.RemovedIdNeverReturns | src/session.rs:176-195 | A removed id never names a session again, whatever is later stored into the detached entry |
| Lifetime.ExpiryNeverDecreases | src/session.rs:256-256 | Over any run expiry only moves forward, and owner and lifetime are fixed |
| Lifetime.LifetimeIsBounded | src/main.rs:73-88 | While the last completed pass of the reaper, interleaved with anything, read its clock at most a gap ago, an id is in the store only until its lifetime plus the gap after its insertion or last stored step, lost sessions included |
| Reaping.SweepIsAnUninterruptedPass | src/session.rs:176-195 | An atomic sweep, which removes exactly the expired sessions, is what scan and removals come to when nothing happens in between |
| Reaping.CollectedIsExpiredOrRefreshed | src/session.rs:178-189 | Over any run, a session the scan has collected and that is still in the store has expired by the scan's reading unless it was stored into since its visit; for a positive lifetime, exactly unless |
| Reaping.EvictsUnexpiredIff | src/session.rs:191-193 | Over any run, the reaper evicts an unexpired session if and only if it was stored into since its visit, less than a lifetime ago |
| Reaping.LeavesOnlyWhen | src/session.rs:166-195 | Over any run, a session leaves the store only when its time is up, when its owner deletes it, or by such an eviction |
| Reaping.LifetimesAreWhole | src/session.rs:135-146 | Over any run, an entry expires exactly one lifetime after the last step stored into it, or after its creation if there was none |
| Reaping.SessionsLiveOutTheirLifetime | src/session.rs:166-195 | Over any run, a session leaves the store only a whole lifetime after its creation or last stored step, by its owner, or because the reaper had collected it before that step was stored |
| Reaping.PassesCanFinish | src/session.rs:176-195 | Wherever a pass stands, the reaper can finish it by itself, and then removes exactly what it had collected and what it had yet to visit that had expired by its reading |
| Races.RefreshedSessionIsEvicted | src/session.rs:178-193 | A run from the start that ends in such an eviction: the removals do not look again |
| Isolation.TenantsAreIsolated | src/session.rs:153-173 | Over any run, every entry a request takes from, writes to, drives, shows or deletes belongs to the principal it arrived with |
| Isolation.NewSessionIsTheCallers | src/session.rs:124-151 | A new session belongs to the principal whose request made it |
| Isolation.ForeignIdsLookAbsent | src/session.rs:153-173 | A request for somebody else's session is answered, and changes the state, as if the id were not there |
| Capacity.StoredAndAdmitted | src/session.rs:131-150 | Stored sessions plus creators past the check grow only where the check succeeds |
| Capacity.OvershootIsBounded | src/session.rs:131-150 | With at most k creators between check and insertion at any time, the store holds at most the limit plus k - 1, none if the limit is nought, and at most the limit if creators are serial |
| Capacity.OvershootIsAttained | src/session.rs:131-150 | For every limit and every k some run reaches that bound |
| Refinement.StepRefines | src/api/sessions.rs:313-349 | Every protocol step is one step of the atomic session machine or leaves it where it is |
| Refinement.RunsRefine | src/api/sessions.rs:255-378 | Every run shows a legal history of whole openings and answers, and every entry, request and tracker stands where that history says |
| Refinement.SessionsAreTheirHistories | src/engine.rs:173-230 | In a legal history each session is its start with its accepted answers folded over it in order |
| Refinement.EntriesMeanTheirPrograms | src/session.rs:250-257 | At any point of any run an entry shows what its program does in one uninterrupted run under the answers stored so far; a failure is a limit report exactly for the first limit that tripped in any segment |
| Responses.ResponsesShowTheCurrentStep | src/api/sessions.rs:387-454 | A response to a create, a resume or a status request shows its session's current step whole, or is the internal error exactly while that step's progress is out or its pause cannot be shown |
| Responses.ResponseShowsTheLastStored | src/api/sessions.rs:336-348 | From storing its step to rendering, over anything in between: a resume's response shows the last step stored into the session since, its own if there was none, or the internal error exactly while the progress is out |
| Responses.ResponseShowsOwnStepIff | src/api/sessions.rs:336-348 | It shows its own step if and only if the progress is not out at the rendering and no later step stored meanwhile looks any different |
| Responses.ResponsesDepictTheEntry | src/api/sessions.rs:387-477 | In every reachable state, a request about to be answered is shown a view if and only if that view shows the entry as it is, and else the internal error |
| Responses.ClientsAreToldTheTruth | src/api/sessions.rs:387-477 | End to end, over any run: what a client is shown is what its program does in one uninterrupted run under the answers stored so far, with the last step's output and statistics; a failure is told as a limit if and only if some hook in some slice failed, and names the first that did |
| Races.ResponseMayShowALaterStep | src/api/sessions.rs:338-346 | A run from the start in which a response shows a different, later step |
| Races.ResponseMayFindProgressTaken | src/api/sessions.rs:408-410 | A run from the start in which a response is the internal error because another resume took the progress |

## Left out

- LiveIsMaximalSuffix: assumes that no granted size overflows the 64-bit word; `GrantIsAccountedForIff` is the exact condition, and the other usage bounds are proved without it.
- SlicingPreservesMeaning: concerns programs whose runs of consecutive OS calls are bounded, the assumption `Settles`; otherwise the source's loop does not return.
- LifetimeIsBounded: the gap is measured from the clock reading of the last completed pass; how often passes start and how long they take is scheduling.
- RejectedChecksAreTransparent: one rate per key and bursts of at least one, since the general statement is false; `RejectionIsInvisibleIff` is the exact condition.
- PairsToJson: values are left unencoded, so a failing value encoder is not modelled.
- WorkCanAlwaysFinish: takes for granted that the interpreter's hooks are hooks, called inside the segment with a clock that runs forwards.
- LoadUndoesWrite: names and tokens without `,` or `:`, and no white space at either end of an entry, which trimming eats (`PaddingIsTrimmed`).
- ResponsesShowTheCurrentStep: values are shown unencoded, so failures of monty's JSON serializer are not modelled.
- The monty interpreter, its JSON serializer, and snapshot dump and load.
- `run_to_completion` (src/engine.rs:137-168): one slice without pauses to answer; in the protocol its task is an `OtherJob` that only holds a permit.
- Limit and lifetime clamping (src/limits.rs, src/api/sessions.rs:491-500): the results are inputs.
- JSON `null` as an answer: the request fields treat it as absent, so no claim is made that every JSON value can be sent as `return`.
- Duration and instant overflow, mutex poisoning, DashMap sharding, tokio scheduling, semaphore closing and shutdown.
- Parsing of number literals: the decoder starts from a number that is an integer or a float; the text of error messages is kept as datatypes.
- `gc_interval` and the `count as usize` conversions in error values.
- Routing, authentication, CORS, client addresses, status codes, tracing, metadata endpoints, the client and the Dockerfile: they would only add easy members.
