/** Request validation and response rendering of the session endpoints. */
module Api {
  import opened Wrappers
  import opened Values
  import opened Convert
  import opened Tracker
  import opened Engine
  import opened Session

  datatype ApiError =
    | BadRequest(reason: BadRequestReason)
    | SessionNotFound
    | SessionBusy
    | Unavailable(maxSessions: nat)
    | Internal

  datatype BadRequestReason =
    | NotExactlyOneField
    | FutureNeedsExactlyOne(callId: nat)
    | InvalidValue(error: ConvertError)
    | UnknownException(excType: string)
    | AlreadyFinished
    | WrongAnswer(mismatch: ResumeMismatch)

  datatype ExceptionInput = ExceptionInput(excType: string, message: Option<string>)

  datatype FutureInput = FutureInput(callId: nat, returnValue: Option<Json>, exception: Option<ExceptionInput>)

  datatype ResumeRequest = ResumeRequest(
    returnValue: Option<Json>,
    exception: Option<ExceptionInput>,
    pending: Option<bool>,
    value: Option<Json>,
    undefined: Option<bool>,
    futures: Option<seq<FutureInput>>)

  /** What the conversions depend on outside this model: base64, and the known exception names. */
  datatype Codec = Codec(b64: Base64, knownException: string -> bool)

  function IntoException(codec: Codec, e: ExceptionInput): Result<MontyException, ApiError> {
    if codec.knownException(e.excType) then Ok(MontyException(e.excType, e.message))
    else Err(BadRequest(UnknownException(e.excType)))
  }

  function IntoValue(codec: Codec, j: Json): Result<MontyObject, ApiError> {
    match Decode(codec.b64, j)
    case Ok(v) => Ok(v)
    case Err(e) => Err(BadRequest(InvalidValue(e)))
  }

  function IntoOutcome(codec: Codec, f: FutureInput): Result<(nat, FutureOutcome), ApiError> {
    match (f.returnValue, f.exception)
    case (Some(j), None) =>
      (match IntoValue(codec, j)
       case Ok(v) => Ok((f.callId, FutureReturn(v)))
       case Err(e) => Err(e))
    case (None, Some(x)) =>
      (match IntoException(codec, x)
       case Ok(exc) => Ok((f.callId, FutureRaise(exc)))
       case Err(e) => Err(e))
    case (_, _) => Err(BadRequest(FutureNeedsExactlyOne(f.callId)))
  }

  function IntoOutcomes(codec: Codec, fs: seq<FutureInput>): Result<seq<(nat, FutureOutcome)>, ApiError> {
    if fs == [] then Ok([])
    else
      match IntoOutcomes(codec, fs[..|fs| - 1])
      case Err(e) => Err(e)
      case Ok(outcomes) =>
        match IntoOutcome(codec, fs[|fs| - 1])
        case Err(e) => Err(e)
        case Ok(outcome) => Ok(outcomes + [outcome])
  }

  /** Which of the six actions the body sets; `false` flags count as unset. */
  function FieldsSet(r: ResumeRequest): seq<bool> {
    [r.returnValue.Some?, r.exception.Some?, r.pending == Some(true),
     r.value.Some?, r.undefined == Some(true), r.futures.Some?]
  }

  function Bit(flag: bool): nat {
    if flag then 1 else 0
  }

  function CountSet(flags: seq<bool>): nat {
    if flags == [] then 0 else CountSet(flags[..|flags| - 1]) + Bit(flags[|flags| - 1])
  }

  function IntoInput(codec: Codec, r: ResumeRequest): Result<ResumeInput, ApiError> {
    if CountSet(FieldsSet(r)) != 1 then Err(BadRequest(NotExactlyOneField))
    else if r.returnValue.Some? then
      match IntoValue(codec, r.returnValue.value)
      case Ok(v) => Ok(Return(v))
      case Err(e) => Err(e)
    else if r.exception.Some? then
      match IntoException(codec, r.exception.value)
      case Ok(x) => Ok(Raise(x))
      case Err(e) => Err(e)
    else if r.pending == Some(true) then Ok(Pending)
    else if r.value.Some? then
      match IntoValue(codec, r.value.value)
      case Ok(v) => Ok(Name(v))
      case Err(e) => Err(e)
    else if r.undefined == Some(true) then Ok(NameUndefined)
    else if r.futures.Some? then
      match IntoOutcomes(codec, r.futures.value)
      case Ok(outcomes) => Ok(Futures(outcomes))
      case Err(e) => Err(e)
    else Err(Internal)
  }

  lemma CountOfSix(a: bool, b: bool, c: bool, d: bool, e: bool, f: bool)
    ensures CountSet([a, b, c, d, e, f]) == Bit(a) + Bit(b) + Bit(c) + Bit(d) + Bit(e) + Bit(f)
  {
    assert CountSet([]) == 0;
    hide CountSet, Bit;
    var flags := [a, b, c, d, e, f];
    assert flags[..0] == [] && flags[..6] == flags;
    CountGrows(flags, 0);
    CountGrows(flags, 1);
    CountGrows(flags, 2);
    CountGrows(flags, 3);
    CountGrows(flags, 4);
    CountGrows(flags, 5);
  }

  lemma CountGrows(flags: seq<bool>, n: nat)
    requires n < |flags|
    ensures CountSet(flags[..n + 1]) == CountSet(flags[..n]) + Bit(flags[n])
  {
    assert flags[..n + 1][..n] == flags[..n];
  }

  /** A body is turned down for its shape exactly unless one field is set, and the fallthrough is never reached. */
  lemma OneFieldOrRejected(codec: Codec, r: ResumeRequest)
    ensures IntoInput(codec, r) != Err(Internal)
    ensures IntoInput(codec, r) == Err(BadRequest(NotExactlyOneField)) <==>
            !exists i :: 0 <= i < 6 && FieldsSet(r)[i] && forall k :: 0 <= k < 6 && k != i ==> !FieldsSet(r)[k]
  {
    var s := FieldsSet(r);
    CountOfSix(s[0], s[1], s[2], s[3], s[4], s[5]);
    assert s == [s[0], s[1], s[2], s[3], s[4], s[5]];
    if r.futures.Some? {
      OutcomeErrors(codec, r.futures.value);
    }
    if CountSet(s) == 1 {
      var i := if s[0] then 0 else if s[1] then 1 else if s[2] then 2 else if s[3] then 3 else if s[4] then 4 else 5;
      assert s[i] && forall k :: 0 <= k < 6 && k != i ==> !s[k];
    }
  }

  lemma {:induction false} OutcomeErrors(codec: Codec, fs: seq<FutureInput>)
    ensures IntoOutcomes(codec, fs).Err? ==> IntoOutcomes(codec, fs).error.BadRequest?
    ensures IntoOutcomes(codec, fs) != Err(BadRequest(NotExactlyOneField))
  {
    if fs != [] {
      OutcomeErrors(codec, fs[..|fs| - 1]);
    }
  }

  /** A list of futures converts exactly when each one does, and keeps its order. */
  lemma {:induction false} OutcomesConvertTogether(codec: Codec, fs: seq<FutureInput>)
    ensures IntoOutcomes(codec, fs).Ok? <==> forall i :: 0 <= i < |fs| ==> IntoOutcome(codec, fs[i]).Ok?
    ensures IntoOutcomes(codec, fs).Ok? ==>
              && |IntoOutcomes(codec, fs).value| == |fs|
              && forall i :: 0 <= i < |fs| ==> IntoOutcome(codec, fs[i]) == Ok(IntoOutcomes(codec, fs).value[i])
  {
    if fs != [] {
      OutcomesConvertTogether(codec, fs[..|fs| - 1]);
    }
  }

  // ---------------------------------------------------------------- what a body asks for

  /** An exception as a client names it, when the interpreter knows the name. */
  predicate Names(codec: Codec, e: ExceptionInput, exception: MontyException) {
    codec.knownException(e.excType) && exception == MontyException(e.excType, e.message)
  }

  /** One future's outcome: the value its `return` decodes to, or the exception it names, and never both. */
  predicate IsOutcomeOf(codec: Codec, f: FutureInput, outcome: (nat, FutureOutcome)) {
    && outcome.0 == f.callId
    && match outcome.1
       case FutureReturn(v) => f.exception.None? && f.returnValue.Some?
           && Decode(codec.b64, f.returnValue.value) == Ok(v)
       case FutureRaise(x) => f.returnValue.None? && f.exception.Some? && Names(codec, f.exception.value, x)
  }

  /** What the one field that is set asks for. */
  ghost predicate AsksFor(codec: Codec, r: ResumeRequest, input: ResumeInput) {
    match input
    case Return(v) => r.returnValue.Some? && Decode(codec.b64, r.returnValue.value) == Ok(v)
    case Raise(x) => r.exception.Some? && Names(codec, r.exception.value, x)
    case Pending => r.pending == Some(true)
    case Name(v) => r.value.Some? && Decode(codec.b64, r.value.value) == Ok(v)
    case NameUndefined => r.undefined == Some(true)
    case Futures(outcomes) =>
      && r.futures.Some? && |outcomes| == |r.futures.value|
      && forall i :: 0 <= i < |outcomes| ==> IsOutcomeOf(codec, r.futures.value[i], outcomes[i])
  }

  /** Exactly one of the six fields is set; a `false` flag is not set. */
  predicate SetsOne(r: ResumeRequest) {
    var (a, b, c) := (r.returnValue.Some?, r.exception.Some?, r.pending == Some(true));
    var (d, e, f) := (r.value.Some?, r.undefined == Some(true), r.futures.Some?);
    || (a && !b && !c && !d && !e && !f) || (!a && b && !c && !d && !e && !f) || (!a && !b && c && !d && !e && !f)
    || (!a && !b && !c && d && !e && !f) || (!a && !b && !c && !d && e && !f) || (!a && !b && !c && !d && !e && f)
  }

  lemma SetsOneIsCount(r: ResumeRequest)
    ensures SetsOne(r) <==> CountSet(FieldsSet(r)) == 1
  {
    var s := FieldsSet(r);
    CountOfSix(s[0], s[1], s[2], s[3], s[4], s[5]);
    assert s == [s[0], s[1], s[2], s[3], s[4], s[5]];
    hide CountSet;
  }

  lemma OutcomeIff(codec: Codec, f: FutureInput, outcome: (nat, FutureOutcome))
    ensures IntoOutcome(codec, f) == Ok(outcome) <==> IsOutcomeOf(codec, f, outcome)
  {
  }

  lemma {:induction false} OutcomesIff(codec: Codec, fs: seq<FutureInput>, outcomes: seq<(nat, FutureOutcome)>)
    ensures IntoOutcomes(codec, fs) == Ok(outcomes) <==>
              |outcomes| == |fs| && forall i :: 0 <= i < |fs| ==> IsOutcomeOf(codec, fs[i], outcomes[i])
  {
    hide IntoOutcome, IsOutcomeOf;
    if fs != [] {
      var n := |fs| - 1;
      if |outcomes| == n + 1 {
        OutcomesIff(codec, fs[..n], outcomes[..n]);
        OutcomeIff(codec, fs[n], outcomes[n]);
        assert outcomes == outcomes[..n] + [outcomes[n]];
      }
      if IntoOutcomes(codec, fs) == Ok(outcomes) {
        var head := IntoOutcomes(codec, fs[..n]).value;
        OutcomesIff(codec, fs[..n], head);
        assert outcomes[..n] == head;
      }
    }
  }

  /** A body becomes an input if and only if it sets exactly one field and that field asks for that input. */
  lemma InputIff(codec: Codec, r: ResumeRequest, input: ResumeInput)
    ensures IntoInput(codec, r) == Ok(input) <==> SetsOne(r) && AsksFor(codec, r, input)
  {
    hide CountSet, FieldsSet, Decode, IntoOutcomes;
    SetsOneIsCount(r);
    if r.futures.Some? && input.Futures? {
      OutcomesIff(codec, r.futures.value, input.results);
    }
  }

  lemma {:induction false} FirstFailureDecides(codec: Codec, fs: seq<FutureInput>, error: ApiError)
    ensures IntoOutcomes(codec, fs) == Err(error) <==>
              exists i ::
                && 0 <= i < |fs| && IntoOutcome(codec, fs[i]) == Err(error)
                && forall j :: 0 <= j < i ==> IntoOutcome(codec, fs[j]).Ok?
  {
    hide IntoOutcome;
    if fs != [] {
      var n := |fs| - 1;
      FirstFailureDecides(codec, fs[..n], error);
      OutcomesConvertTogether(codec, fs[..n]);
      if i :| 0 <= i < n && IntoOutcome(codec, fs[..n][i]) == Err(error)
              && forall j :: 0 <= j < i ==> IntoOutcome(codec, fs[..n][j]).Ok? {
        assert IntoOutcome(codec, fs[i]) == Err(error);
        forall j | 0 <= j < i ensures IntoOutcome(codec, fs[j]).Ok? {
          assert fs[..n][j] == fs[j];
        }
      }
      if i :| 0 <= i < n && IntoOutcome(codec, fs[i]) == Err(error)
              && forall j :: 0 <= j < i ==> IntoOutcome(codec, fs[j]).Ok? {
        assert fs[..n][i] == fs[i];
        assert forall j :: 0 <= j < i ==> fs[..n][j] == fs[j];
      }
    }
  }

  /** A future is fine if it has an outcome. */
  ghost predicate IsFine(codec: Codec, f: FutureInput) {
    exists outcome :: IsOutcomeOf(codec, f, outcome)
  }

  /** The first future that is not fine is the one reported, for what is wrong with it. */
  lemma FirstBadFutureIsReported(codec: Codec, fs: seq<FutureInput>, error: ApiError)
    ensures IntoOutcomes(codec, fs) == Err(error) <==>
              exists i ::
                && 0 <= i < |fs| && IsWrongWith(codec, fs[i], error)
                && forall j :: 0 <= j < i ==> IsFine(codec, fs[j])
  {
    hide IntoOutcome, IntoOutcomes, IsFine, IsWrongWith;
    FirstFailureDecides(codec, fs, error);
    forall f
      ensures IntoOutcome(codec, f).Ok? <==> IsFine(codec, f)
      ensures IntoOutcome(codec, f) == Err(error) <==> IsWrongWith(codec, f, error)
    {
      OutcomeFailsIff(codec, f, error);
    }
    if i :| 0 <= i < |fs| && IsWrongWith(codec, fs[i], error) && forall j :: 0 <= j < i ==> IsFine(codec, fs[j]) {
      assert IntoOutcome(codec, fs[i]) == Err(error);
    }
    if i :| 0 <= i < |fs| && IntoOutcome(codec, fs[i]) == Err(error)
            && forall j :: 0 <= j < i ==> IntoOutcome(codec, fs[j]).Ok? {
      assert IsWrongWith(codec, fs[i], error);
    }
  }

  /** What is wrong with a future: not one of the two fields, a value that does not decode, or an unknown name. */
  predicate IsWrongWith(codec: Codec, f: FutureInput, error: ApiError) {
    if f.returnValue.Some? == f.exception.Some? then error == BadRequest(FutureNeedsExactlyOne(f.callId))
    else if f.returnValue.Some? then
      match Decode(codec.b64, f.returnValue.value)
      case Ok(_) => false
      case Err(e) => error == BadRequest(InvalidValue(e))
    else
      !codec.knownException(f.exception.value.excType)
      && error == BadRequest(UnknownException(f.exception.value.excType))
  }

  lemma OutcomeFailsIff(codec: Codec, f: FutureInput, error: ApiError)
    ensures IntoOutcome(codec, f).Ok? <==> IsFine(codec, f)
    ensures IntoOutcome(codec, f) == Err(error) <==> IsWrongWith(codec, f, error)
  {
    if IntoOutcome(codec, f).Ok? {
      OutcomeIff(codec, f, IntoOutcome(codec, f).value);
    }
    if outcome :| IsOutcomeOf(codec, f, outcome) {
      OutcomeIff(codec, f, outcome);
    }
  }

  /** What a body with one field set is turned down for: a value that does not decode, an unknown name, a bad future. */
  lemma InputFailsIff(codec: Codec, r: ResumeRequest, error: ApiError)
    requires SetsOne(r)
    ensures IntoInput(codec, r) == Err(error) <==>
              || (r.returnValue.Some? && IsUndecodable(codec, r.returnValue.value, error))
              || (r.value.Some? && IsUndecodable(codec, r.value.value, error))
              || (r.exception.Some? && !codec.knownException(r.exception.value.excType)
                  && error == BadRequest(UnknownException(r.exception.value.excType)))
              || (r.futures.Some? && IntoOutcomes(codec, r.futures.value) == Err(error))
  {
    hide CountSet, FieldsSet, Decode, IntoOutcomes;
    SetsOneIsCount(r);
  }

  predicate IsUndecodable(codec: Codec, j: Json, error: ApiError) {
    Decode(codec.b64, j).Err? && error == BadRequest(InvalidValue(Decode(codec.b64, j).error))
  }

  // ---------------------------------------------------------------- rendering

  datatype Pause =
    | CallPause(callId: nat, functionName: string, methodCall: bool, args: seq<MontyObject>,
                kwargs: map<string, MontyObject>)
    | NamePause(name: string)
    | FuturesPause(pendingCallIds: seq<nat>)

  /** The body of a session response; values are shown unencoded. */
  datatype SessionState =
    | ShowsPause(pause: Pause, output: Output, stats: ExecStats)
    | ShowsResult(result: MontyObject, output: Output, stats: ExecStats)
    | ShowsException(exception: MontyException, output: Output, stats: ExecStats)
    | ShowsLimit(limit: Breach, exception: MontyException, output: Output, stats: ExecStats)

  datatype SessionView = SessionView(id: Id, expiresInSeconds: nat, state: SessionState)

  function DescribePause(progress: Progress): Result<Pause, ApiError> {
    match progress
    case FunctionCall(call, _) =>
      if StringKeyed(call.kwargs) then
        Ok(CallPause(call.callId, call.functionName, call.methodCall, call.args, KeywordObject(call.kwargs)))
      else Err(Internal)
    case NameLookup(name, _) => Ok(NamePause(name))
    case ResolveFutures(ids, _) => Ok(FuturesPause(ids))
    case OsCall(_) => Err(Internal)
    case Complete(_) => Err(Internal)
  }

  function RenderState(snapshot: Snapshot, progress: Option<Progress>): Result<SessionState, ApiError> {
    match snapshot
    case Paused(output, stats) =>
      if progress.None? then Err(Internal)
      else
        (match DescribePause(progress.value)
         case Ok(pause) => Ok(ShowsPause(pause, output, stats))
         case Err(e) => Err(e))
    case Completed(result, output, stats) => Ok(ShowsResult(result, output, stats))
    case Failed(exception, Some(breach), output, stats) => Ok(ShowsLimit(breach, exception, output, stats))
    case Failed(exception, None, output, stats) => Ok(ShowsException(exception, output, stats))
  }

  function Render(id: Id, e: Entry, now: nat): Result<SessionView, ApiError> {
    match RenderState(e.snapshot, e.progress)
    case Ok(state) => Ok(SessionView(id, Since(now, e.expiresAt) / 1_000_000_000, state))
    case Err(error) => Err(error)
  }

  /** The pause is the progress's own: its kind, and every field of it. */
  ghost predicate Describes(pause: Pause, progress: Progress) {
    match pause
    case CallPause(callId, functionName, methodCall, args, kwargs) =>
      && progress.FunctionCall?
      && callId == progress.call.callId && functionName == progress.call.functionName
      && methodCall == progress.call.methodCall && args == progress.call.args
      && HoldsKeywords(kwargs, progress.call.kwargs)
    case NamePause(name) => progress.NameLookup? && name == progress.name
    case FuturesPause(ids) => progress.ResolveFutures? && ids == progress.pendingCallIds
  }

  /** The keyword arguments by name; of several with one name, the last. */
  ghost predicate HoldsKeywords(kwargs: map<string, MontyObject>, pairs: seq<Pair>) {
    && (forall i :: 0 <= i < |pairs| ==> pairs[i].key.Str? && pairs[i].key.s in kwargs)
    && forall name :: name in kwargs ==>
         exists i ::
           && 0 <= i < |pairs| && pairs[i] == Pair(Str(name), kwargs[name])
           && forall j :: i < j < |pairs| ==> pairs[j].key != Str(name)
  }

  /** The view shows this entry: what its snapshot says, its own progress's pause, and the whole seconds it has left. */
  ghost predicate Depicts(view: SessionView, id: Id, e: Entry, now: nat) {
    && view.id == id
    && (e.expiresAt <= now ==> view.expiresInSeconds == 0)
    && (e.expiresAt > now ==>
          view.expiresInSeconds * 1_000_000_000 <= e.expiresAt - now < (view.expiresInSeconds + 1) * 1_000_000_000)
    && match view.state
       case ShowsPause(pause, output, stats) =>
         e.snapshot == Paused(output, stats) && e.progress.Some? && Describes(pause, e.progress.value)
       case ShowsResult(result, output, stats) => e.snapshot == Completed(result, output, stats)
       case ShowsException(exception, output, stats) => e.snapshot == Failed(exception, None, output, stats)
       case ShowsLimit(limit, exception, output, stats) => e.snapshot == Failed(exception, Some(limit), output, stats)
  }

  lemma KeywordsIff(pairs: seq<Pair>, kwargs: map<string, MontyObject>)
    ensures StringKeyed(pairs) && kwargs == KeywordObject(pairs) <==> HoldsKeywords(kwargs, pairs)
  {
    if StringKeyed(pairs) {
      var byName := KeywordObject(pairs);
      forall name
        ensures name in byName <==> exists i :: 0 <= i < |pairs| && pairs[i].key == Str(name)
        ensures name in byName ==>
                  exists i ::
                    && 0 <= i < |pairs| && pairs[i] == Pair(Str(name), byName[name])
                    && forall j :: i < j < |pairs| ==> pairs[j].key != Str(name)
      {
        KeywordObjectKeepsLast(pairs, name);
      }
      hide KeywordObject;
      if HoldsKeywords(kwargs, pairs) {
        LastsAgree(pairs, kwargs, byName);
      }
      assert forall i :: 0 <= i < |pairs| ==> pairs[i].key == Str(pairs[i].key.s);
    }
  }

  /** Two maps of last values have the same names and the same values. */
  lemma LastsAgree(pairs: seq<Pair>, a: map<string, MontyObject>, b: map<string, MontyObject>)
    requires HoldsKeywords(a, pairs)
    requires forall name :: name in b <==> exists i :: 0 <= i < |pairs| && pairs[i].key == Str(name)
    requires forall name :: name in b ==>
               exists i ::
                 && 0 <= i < |pairs| && pairs[i] == Pair(Str(name), b[name])
                 && forall j :: i < j < |pairs| ==> pairs[j].key != Str(name)
    ensures a == b
  {
    forall name | name in a ensures name in b && a[name] == b[name] {
      var i :| 0 <= i < |pairs| && pairs[i] == Pair(Str(name), a[name])
               && forall j :: i < j < |pairs| ==> pairs[j].key != Str(name);
      var k :| 0 <= k < |pairs| && pairs[k] == Pair(Str(name), b[name])
               && forall j :: k < j < |pairs| ==> pairs[j].key != Str(name);
      assert i == k;
    }
    forall name | name in b ensures name in a {
      var i :| 0 <= i < |pairs| && pairs[i] == Pair(Str(name), b[name]);
      assert pairs[i].key.s in a;
    }
  }

  /** A well-formed entry is rendered as this view if and only if the view shows the entry. */
  lemma ViewIff(id: Id, e: Entry, now: nat, view: SessionView)
    requires WellFormed(e)
    ensures Render(id, e, now) == Ok(view) <==> Depicts(view, id, e, now)
  {
    if e.progress.Some? && e.progress.value.FunctionCall? && view.state.ShowsPause? && view.state.pause.CallPause? {
      KeywordsIff(e.progress.value.call.kwargs, view.state.pause.kwargs);
    }
    hide KeywordObject, StringKeyed, HoldsKeywords;
  }

  /** Rendering a well-formed entry fails exactly when it is paused with its progress out, value encoding aside. */
  lemma RenderFailsIff(id: Id, e: Entry, now: nat)
    requires WellFormed(e)
    requires e.progress.Some? && e.progress.value.FunctionCall? ==> StringKeyed(e.progress.value.call.kwargs)
    ensures Render(id, e, now).Err? <==> e.snapshot.Paused? && e.progress.None?
    ensures Render(id, e, now).Err? ==> Render(id, e, now).error == Internal
  {
  }

  function AcquireFailure(error: AcquireError): ApiError {
    match error
    case NotFound => SessionNotFound
    case Busy => SessionBusy
    case Finished => BadRequest(AlreadyFinished)
  }
}
