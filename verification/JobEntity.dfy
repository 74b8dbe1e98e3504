/** The job entity as a value: its fields, and what each call makes of them
    (internal/domain/job). The class that updates the fields in place is in `JobClass.dfy`. */
module JobEntity {
  import opened GoText
  import opened Errors
  import opened Ids

  const DEFAULT_MAX_RETRIES := 3

  /** An instant, in the unit of the clock. Go's zero time is 0, so that `IsZero` is `== 0`. */
  type Time = int

  const ZERO_TIME: Time := 0

  datatype Type = SendEmail | ReportGeneration | DataCleanup

  datatype Status = Pending | Processing | Success | Failed

  datatype FailureOutcome = RetryScheduled | TerminalFailure

  /** A payload and what the JSON decoder reads in it. */
  datatype Payload = Payload(text: string, reading: Reading)

  datatype Reading = Unreadable | Null | Object(members: nat) | OtherJson

  datatype JobState = JobState(
    id: string,
    jobType: Type,
    status: Status,
    payload: Payload,
    retryCount: int,
    maxRetries: int,
    lastError: Option<string>,
    createdAt: Time,
    updatedAt: Time,
    startedAt: Option<Time>,
    completedAt: Option<Time>
  )

  // ---------------------------------------------------------------- names

  function TypeName(t: Type): string {
    match t
    case SendEmail => "send_email"
    case ReportGeneration => "report_generation"
    case DataCleanup => "data_cleanup"
  }

  function StatusName(s: Status): string {
    match s
    case Pending => "pending"
    case Processing => "processing"
    case Success => "success"
    case Failed => "failed"
  }

  /** `Type.IsValid`: the type that carries this very name. */
  function TypeOfName(name: string): Option<Type> {
    if name == TypeName(SendEmail) then Some(SendEmail)
    else if name == TypeName(ReportGeneration) then Some(ReportGeneration)
    else if name == TypeName(DataCleanup) then Some(DataCleanup)
    else None
  }

  function TypeOfRunes(runes: seq<int>): Option<Type> {
    if runes == Codes(TypeName(SendEmail)) then Some(SendEmail)
    else if runes == Codes(TypeName(ReportGeneration)) then Some(ReportGeneration)
    else if runes == Codes(TypeName(DataCleanup)) then Some(DataCleanup)
    else None
  }

  function StatusOfRunes(runes: seq<int>): Option<Status> {
    if runes == Codes(StatusName(Pending)) then Some(Pending)
    else if runes == Codes(StatusName(Processing)) then Some(Processing)
    else if runes == Codes(StatusName(Success)) then Some(Success)
    else if runes == Codes(StatusName(Failed)) then Some(Failed)
    else None
  }

  function ParseType(value: string): Result<Type> {
    match TypeOfRunes(LowerRunes(TrimSpace(value), 0))
    case Some(t) => Ok(t)
    case None => Err(Wrap("invalid job type", Sentinel(InvalidType)))
  }

  function ParseStatus(value: string): Result<Status> {
    match StatusOfRunes(LowerRunes(TrimSpace(value), 0))
    case Some(s) => Ok(s)
    case None => Err(Wrap("invalid job status", Sentinel(InvalidStatus)))
  }

  lemma NamesAreDistinct(t: Type, s: Status)
    ensures LowerName(TypeName(t)) && TypeOfRunes(Codes(TypeName(t))) == Some(t)
    ensures TypeOfName(TypeName(t)) == Some(t)
    ensures LowerName(StatusName(s)) && StatusOfRunes(Codes(StatusName(s))) == Some(s)
  {
    hide Codes, LowerName, TypeName, StatusName, TypeOfName, TypeOfRunes, StatusOfRunes;
    TypeNamesAreDistinct(t);
    StatusNamesAreDistinct(s);
  }

  lemma TypeNamesAreDistinct(t: Type)
    ensures LowerName(TypeName(t)) && TypeOfRunes(Codes(TypeName(t))) == Some(t)
    ensures TypeOfName(TypeName(t)) == Some(t)
  {
    assert |Codes(TypeName(SendEmail))| == 10;
    assert |Codes(TypeName(ReportGeneration))| == 17;
    assert |Codes(TypeName(DataCleanup))| == 12;
  }

  lemma StatusNamesAreDistinct(s: Status)
    ensures LowerName(StatusName(s)) && StatusOfRunes(Codes(StatusName(s))) == Some(s)
  {
    assert |Codes(StatusName(Processing))| == 10 && |Codes(StatusName(Failed))| == 6;
    assert Codes(StatusName(Pending))[0] == 'p' as int && Codes(StatusName(Success))[0] == 's' as int;
  }

  /** Each name is the one in the table and parses back to what it names. */
  lemma ParseOfName(t: Type, typeName: string, s: Status, statusName: string)
    requires typeName == TypeName(t) && statusName == StatusName(s)
    ensures ParseType(typeName) == Ok(t) && TypeOfName(typeName) == Some(t)
    ensures ParseStatus(statusName) == Ok(s)
    ensures typeName == match t
                        case SendEmail => "send_email"
                        case ReportGeneration => "report_generation"
                        case DataCleanup => "data_cleanup"
    ensures statusName == match s
                          case Pending => "pending"
                          case Processing => "processing"
                          case Success => "success"
                          case Failed => "failed"
  {
    NamesAreDistinct(t, s);
    NormalizedName(typeName);
    NormalizedName(statusName);
  }

  // ---------------------------------------------------------------- creation and restoring

  predicate IsTerminal(s: Status) {
    s == Success || s == Failed
  }

  function ValidatePayload(payload: Payload): Option<Error> {
    if TrimSpace(payload.text) == "" then Some(Wrap("payload is required", Sentinel(InvalidPayload)))
    else match payload.reading
      case Unreadable => Some(Wrap("unreadable payload", Sentinel(InvalidPayload)))
      case OtherJson => Some(Wrap("payload of another kind", Sentinel(InvalidPayload)))
      case Null => Some(Wrap("payload must be a JSON object", Sentinel(InvalidPayload)))
      case Object(members) =>
        if members == 0 then Some(Wrap("payload must not be empty", Sentinel(InvalidPayload))) else None
  }

  function New(id: string, typeName: string, payload: Payload, createdAt: Time): Result<JobState> {
    if !IsValid(id) then Err(Wrap("new job", Sentinel(InvalidID)))
    else if TypeOfName(typeName).None? then Err(Wrap("new job", Sentinel(InvalidType)))
    else if ValidatePayload(payload).Some? then Err(ValidatePayload(payload).value)
    else if createdAt == ZERO_TIME then Err(Sentinel(InvalidCreatedAt))
    else Ok(JobState(id, TypeOfName(typeName).value, Pending, payload, 0, DEFAULT_MAX_RETRIES,
                     None, createdAt, createdAt, None, None))
  }

  /** `Restore`: the checks made on values that come from the table. */
  function Restore(params: JobState): Result<JobState> {
    if !IsValid(params.id) then Err(Wrap("restore", Sentinel(InvalidID)))
    else if ValidatePayload(params.payload).Some? then Err(ValidatePayload(params.payload).value)
    else if params.retryCount < 0 || params.maxRetries <= 0 || params.retryCount > params.maxRetries then
      Err(Wrap("restore", Sentinel(InvalidRetry)))
    else if params.createdAt == ZERO_TIME then Err(Sentinel(InvalidCreatedAt))
    else if params.updatedAt == ZERO_TIME || params.updatedAt < params.createdAt then
      Err(Sentinel(InvalidUpdatedAt))
    else if params.startedAt == Some(ZERO_TIME) then Err(Wrap("started_at", Sentinel(InvalidEventTime)))
    else if params.completedAt == Some(ZERO_TIME) then Err(Wrap("completed_at", Sentinel(InvalidEventTime)))
    else Ok(params)
  }

  // ---------------------------------------------------------------- transitions

  predicate TimeAccepted(j: JobState, at: Time) {
    at != ZERO_TIME && j.updatedAt <= at
  }

  function TimeRefused(): Error {
    Wrap("transition time must not be before the last update", Sentinel(InvalidEventTime))
  }

  function TransitionRefused(): Error {
    Wrap("cannot move job", Sentinel(InvalidTransition))
  }

  function MarkProcessing(j: JobState, at: Time): Result<JobState> {
    if j.status != Pending then Err(TransitionRefused())
    else if !TimeAccepted(j, at) then Err(TimeRefused())
    else Ok(j.(status := Processing, startedAt := Some(at), completedAt := None, updatedAt := at))
  }

  function MarkSuccess(j: JobState, at: Time): Result<JobState> {
    if j.status != Processing then Err(TransitionRefused())
    else if !TimeAccepted(j, at) then Err(TimeRefused())
    else Ok(j.(status := Success, completedAt := Some(at), lastError := None, updatedAt := at))
  }

  function MarkFailed(j: JobState, at: Time, reason: string): Result<JobState> {
    if j.status != Processing then Err(TransitionRefused())
    else if TrimSpace(reason) == "" then Err(Sentinel(InvalidFailureReason))
    else if !TimeAccepted(j, at) then Err(TimeRefused())
    else Ok(j.(status := Failed, lastError := Some(TrimSpace(reason)), completedAt := Some(at), updatedAt := at))
  }

  predicate CanRetry(j: JobState) {
    j.retryCount < j.maxRetries
  }

  function RecordFailure(j: JobState, at: Time, reason: string): Result<(JobState, FailureOutcome)> {
    if j.status != Processing then Err(TransitionRefused())
    else if TrimSpace(reason) == "" then Err(Sentinel(InvalidFailureReason))
    else if !TimeAccepted(j, at) then Err(TimeRefused())
    else
      var noted := j.(lastError := Some(TrimSpace(reason)), updatedAt := at);
      if CanRetry(j) then
        Ok((noted.(retryCount := j.retryCount + 1, status := Pending, completedAt := None), RetryScheduled))
      else
        Ok((noted.(status := Failed, completedAt := Some(at)), TerminalFailure))
  }

  // ---------------------------------------------------------------- the reachable entities

  /** A stored failure reason: some text, trimmed, that was not blank. */
  ghost predicate IsReason(e: string) {
    e != "" && exists raw :: TrimSpace(raw) == e
  }

  /** What holds of a job after every sequence of calls, and of no other job. */
  ghost predicate Coherent(j: JobState) {
    && IsValid(j.id) && ValidatePayload(j.payload).None?
    && j.maxRetries == DEFAULT_MAX_RETRIES && 0 <= j.retryCount <= j.maxRetries
    && (j.completedAt.Some? <==> IsTerminal(j.status))
    && (j.startedAt.None? <==> j.status == Pending && j.retryCount == 0)
    && (j.lastError.Some? <==> j.status == Failed || (j.retryCount > 0 && j.status != Success))
    && (j.lastError.Some? ==> IsReason(j.lastError.value))
    && (j.status == Failed ==> j.retryCount == j.maxRetries)
    && j.createdAt != ZERO_TIME && j.updatedAt != ZERO_TIME
    && (j.startedAt.None? ==> j.updatedAt == j.createdAt)
    && (j.startedAt.Some? ==> j.startedAt.value != ZERO_TIME && j.createdAt <= j.startedAt.value <= j.updatedAt)
    && (j.status == Processing ==> j.startedAt == Some(j.updatedAt))
    && (j.completedAt.Some? ==> j.completedAt == Some(j.updatedAt))
  }

  lemma NewIsCoherent(id: string, typeName: string, payload: Payload, createdAt: Time)
    requires New(id, typeName, payload, createdAt).Ok?
    ensures Coherent(New(id, typeName, payload, createdAt).value)
  {
  }

  lemma MarkProcessingKeepsCoherent(j: JobState, at: Time)
    requires Coherent(j) && MarkProcessing(j, at).Ok?
    ensures Coherent(MarkProcessing(j, at).value)
  {
  }

  lemma MarkSuccessKeepsCoherent(j: JobState, at: Time)
    requires Coherent(j) && MarkSuccess(j, at).Ok?
    ensures Coherent(MarkSuccess(j, at).value)
  {
  }

  lemma RecordFailureKeepsCoherent(j: JobState, at: Time, reason: string)
    requires Coherent(j) && RecordFailure(j, at, reason).Ok?
    ensures Coherent(RecordFailure(j, at, reason).value.0)
  {
  }

  /** `MarkFailed`, which no use case calls, leaves the reachable jobs exactly when it is used
      before the retries are spent. */
  lemma MarkFailedCoherentIff(j: JobState, at: Time, reason: string)
    requires Coherent(j) && MarkFailed(j, at, reason).Ok?
    ensures Coherent(MarkFailed(j, at, reason).value) <==> j.retryCount == j.maxRetries
  {
    assert IsReason(TrimSpace(reason));
  }

  /** Restoring accepts every reachable job and gives it back. */
  lemma RestoreKeepsCoherent(j: JobState)
    requires Coherent(j)
    ensures Restore(j) == Ok(j)
  {
  }

  /** It accepts unreachable ones too: a success that was never started or completed. */
  lemma RestoreAcceptsMore(j: JobState)
    requires Coherent(j) && j.startedAt.None?
    ensures Restore(j.(status := Success)).Ok? && !Coherent(j.(status := Success))
  {
  }

  datatype Call =
    | CallProcessing(at: Time)
    | CallSuccess(at: Time)
    | CallFailure(at: Time, reason: string)

  /** One call; a refused call leaves the job as it was. */
  function Apply(j: JobState, call: Call): JobState {
    match call
    case CallProcessing(at) => (match MarkProcessing(j, at) case Ok(next) => next case Err(_) => j)
    case CallSuccess(at) => (match MarkSuccess(j, at) case Ok(next) => next case Err(_) => j)
    case CallFailure(at, reason) =>
      (match RecordFailure(j, at, reason) case Ok(next) => next.0 case Err(_) => j)
  }

  function ApplyAll(j: JobState, calls: seq<Call>): JobState
    decreases |calls|
  {
    if calls == [] then j else ApplyAll(Apply(j, calls[0]), calls[1..])
  }

  ghost predicate Reachable(j: JobState) {
    exists origin: JobState, calls: seq<Call> ::
      New(origin.id, TypeName(origin.jobType), origin.payload, origin.createdAt) == Ok(origin)
      && ApplyAll(origin, calls) == j
  }

  lemma {:induction false} ApplyAllKeepsCoherent(j: JobState, calls: seq<Call>)
    requires Coherent(j)
    ensures Coherent(ApplyAll(j, calls))
    decreases |calls|
  {
    if calls != [] {
      match calls[0] {
        case CallProcessing(at) => if MarkProcessing(j, at).Ok? { MarkProcessingKeepsCoherent(j, at); }
        case CallSuccess(at) => if MarkSuccess(j, at).Ok? { MarkSuccessKeepsCoherent(j, at); }
        case CallFailure(at, reason) =>
          if RecordFailure(j, at, reason).Ok? { RecordFailureKeepsCoherent(j, at, reason); }
      }
      ApplyAllKeepsCoherent(Apply(j, calls[0]), calls[1..]);
    }
  }

  lemma {:induction false} ApplyAllAppend(j: JobState, a: seq<Call>, b: seq<Call>)
    ensures ApplyAll(j, a + b) == ApplyAll(ApplyAll(j, a), b)
    decreases |a|
  {
    if a == [] {
      assert a + b == b;
    } else {
      assert (a + b)[1..] == a[1..] + b;
      ApplyAllAppend(Apply(j, a[0]), a[1..], b);
    }
  }

  lemma ApplyTwo(j: JobState, a: Call, b: Call)
    ensures ApplyAll(j, [a]) == Apply(j, a)
    ensures ApplyAll(j, [a, b]) == Apply(Apply(j, a), b)
  {
    assert [a, b][1..] == [b] && [b][1..] == [] && [a][1..] == [];
    assert ApplyAll(Apply(j, a), [b]) == ApplyAll(Apply(Apply(j, a), b), []);
  }

  /** `n` attempts that fail at the instant of creation. */
  function FailedAttempts(n: nat, at: Time, reason: string): seq<Call> {
    if n == 0 then [] else FailedAttempts(n - 1, at, reason) + [CallProcessing(at), CallFailure(at, reason)]
  }

  lemma NewIsFresh(id: string, typeName: string, payload: Payload, now: Time)
    requires New(id, typeName, payload, now).Ok?
    ensures var j := New(id, typeName, payload, now).value;
            && j.status == Pending && j.retryCount == 0 && j.maxRetries == DEFAULT_MAX_RETRIES
            && j.createdAt == j.updatedAt == now != ZERO_TIME
            && j.lastError == None && j.startedAt == None && j.completedAt == None
  {
    hide IsValid, ValidatePayload, TypeOfName;
  }

  /** One attempt that fails at the instant of the job's last update, with a retry left. */
  lemma OneFailedAttempt(j: JobState, reason: string)
    requires j.status == Pending && j.completedAt == None && CanRetry(j)
    requires j.updatedAt != ZERO_TIME && TrimSpace(reason) != ""
    ensures Apply(Apply(j, CallProcessing(j.updatedAt)), CallFailure(j.updatedAt, reason)) ==
            j.(retryCount := j.retryCount + 1, lastError := Some(TrimSpace(reason)), startedAt := Some(j.updatedAt))
  {
    hide TrimSpace;
  }

  /** A new job after `n` attempts that failed at the instant of its creation. */
  function Retried(origin: JobState, n: nat, reason: string): JobState {
    if n == 0 then origin
    else origin.(retryCount := n, lastError := Some(TrimSpace(reason)), startedAt := Some(origin.createdAt))
  }

  lemma RetriedOnce(origin: JobState, n: nat, reason: string)
    requires New(origin.id, TypeName(origin.jobType), origin.payload, origin.createdAt) == Ok(origin)
    requires 0 < n <= DEFAULT_MAX_RETRIES && TrimSpace(reason) != ""
    ensures var at := origin.createdAt;
            Apply(Apply(Retried(origin, n - 1, reason), CallProcessing(at)), CallFailure(at, reason))
            == Retried(origin, n, reason)
  {
    NewIsFresh(origin.id, TypeName(origin.jobType), origin.payload, origin.createdAt);
    hide TrimSpace, New, TypeName, Apply;
    OneFailedAttempt(Retried(origin, n - 1, reason), reason);
  }

  lemma {:induction false} AfterFailedAttempts(origin: JobState, n: nat, reason: string)
    requires New(origin.id, TypeName(origin.jobType), origin.payload, origin.createdAt) == Ok(origin)
    requires n <= DEFAULT_MAX_RETRIES && TrimSpace(reason) != ""
    ensures ApplyAll(origin, FailedAttempts(n, origin.createdAt, reason)) == Retried(origin, n, reason)
  {
    hide TrimSpace, New, TypeName, Apply, ApplyAll, FailedAttempts;
    var at := origin.createdAt;
    FailedAttemptsGrow(origin, n, at, reason);
    if n > 0 {
      AfterFailedAttempts(origin, n - 1, reason);
      var last := [CallProcessing(at), CallFailure(at, reason)];
      ApplyAllAppend(origin, FailedAttempts(n - 1, at, reason), last);
      RetriedOnce(origin, n, reason);
      hide Retried;
      ApplyTwo(Retried(origin, n - 1, reason), CallProcessing(at), CallFailure(at, reason));
    }
  }

  lemma FailedAttemptsGrow(j: JobState, n: nat, at: Time, reason: string)
    ensures n == 0 ==> ApplyAll(j, FailedAttempts(n, at, reason)) == j
    ensures n > 0 ==> FailedAttempts(n, at, reason) ==
                      FailedAttempts(n - 1, at, reason) + [CallProcessing(at), CallFailure(at, reason)]
  {
  }

  /** The new job that a coherent job began as. */
  function OriginOf(j: JobState): JobState {
    JobState(j.id, j.jobType, Pending, j.payload, 0, DEFAULT_MAX_RETRIES, None, j.createdAt, j.createdAt, None, None)
  }

  lemma OriginIsNew(j: JobState)
    requires Coherent(j)
    ensures New(j.id, TypeName(j.jobType), j.payload, j.createdAt) == Ok(OriginOf(j))
  {
    hide TypeName, TypeOfName, ValidatePayload, IsValid, IsReason;
    NamesAreDistinct(j.jobType, j.status);
  }

  /** How many attempts have failed before the one that the job's last calls belong to. */
  function FailedBefore(j: JobState): int {
    if j.status == Pending then j.retryCount - 1 else j.retryCount
  }

  function LastAnswer(j: JobState, reason: string): seq<Call> {
    match j.status
    case Processing => []
    case Success => [CallSuccess(j.updatedAt)]
    case _ => [CallFailure(j.updatedAt, reason)]
  }

  /** The last start, and the answer to it. */
  lemma LastAttempt(j: JobState, reason: string)
    requires Coherent(j) && j.startedAt.Some? && TrimSpace(reason) != ""
    requires j.lastError.Some? ==> TrimSpace(reason) == j.lastError.value
    ensures 0 <= FailedBefore(j) <= DEFAULT_MAX_RETRIES
    ensures var started := Apply(Retried(OriginOf(j), FailedBefore(j), reason), CallProcessing(j.startedAt.value));
            var answer := LastAnswer(j, reason);
            j == if answer == [] then started else Apply(started, answer[0])
  {
    hide TrimSpace, IsValid, ValidatePayload, IsReason;
    LastStart(j, reason);
  }

  lemma LastStart(j: JobState, reason: string)
    requires Coherent(j) && j.startedAt.Some?
    ensures 0 <= FailedBefore(j) <= DEFAULT_MAX_RETRIES
    ensures var retried := Retried(OriginOf(j), FailedBefore(j), reason);
            Apply(retried, CallProcessing(j.startedAt.value)) ==
            retried.(status := Processing, startedAt := j.startedAt, completedAt := None, updatedAt := j.startedAt.value)
  {
    hide TrimSpace, IsValid, ValidatePayload, IsReason;
  }

  lemma StartedIsReached(j: JobState)
    requires Coherent(j) && j.startedAt.Some?
    ensures Reachable(j)
  {
    OriginIsNew(j);
    var reason := ReasonOf(j);
    LastAttempt(j, reason);
    hide Coherent, New, TypeName, TrimSpace, Reachable, Apply, Retried;
    ReachVia(OriginOf(j), j, FailedBefore(j), reason, CallProcessing(j.startedAt.value), LastAnswer(j, reason));
  }

  /** Every coherent job is the result of some sequence of calls. */
  lemma CallsToReach(j: JobState)
    requires Coherent(j)
    ensures Reachable(j)
  {
    if j.startedAt.None? {
      NewIsReached(j);
    } else {
      StartedIsReached(j);
    }
  }

  lemma NewIsReached(j: JobState)
    requires Coherent(j) && j.startedAt.None?
    ensures Reachable(j)
  {
    OriginIsNew(j);
    hide New, TypeName, ValidatePayload, IsValid, IsReason;
    assert OriginOf(j) == j && ApplyAll(j, []) == j;
  }

  /** A raw failure text behind the stored one. */
  lemma ReasonOf(j: JobState) returns (raw: string)
    requires Coherent(j)
    ensures TrimSpace(raw) != ""
    ensures j.lastError.Some? ==> TrimSpace(raw) == j.lastError.value
  {
    if j.lastError.Some? {
      raw :| TrimSpace(raw) == j.lastError.value;
    } else {
      raw := "-";
      TrimSpaceKeeps(raw);
    }
  }

  /** Failed attempts first, then one more start and at most one answer to it. */
  lemma ReachVia(origin: JobState, j: JobState, n: nat, reason: string, begin: Call, answer: seq<Call>)
    requires New(origin.id, TypeName(origin.jobType), origin.payload, origin.createdAt) == Ok(origin)
    requires n <= DEFAULT_MAX_RETRIES && TrimSpace(reason) != "" && |answer| <= 1
    requires var started := Apply(Retried(origin, n, reason), begin);
             j == if answer == [] then started else Apply(started, answer[0])
    ensures Reachable(j)
  {
    var head := FailedAttempts(n, origin.createdAt, reason);
    var tail := [begin] + answer;
    AfterFailedAttempts(origin, n, reason);
    ApplyAllAppend(origin, head, tail);
    var before := ApplyAll(origin, head);
    if answer == [] {
      assert tail == [begin];
      ApplyTwo(before, begin, begin);
    } else {
      assert tail == [begin, answer[0]];
      ApplyTwo(before, begin, answer[0]);
    }
    assert ApplyAll(origin, head + tail) == j;
  }

  /** The invariant is exact: a job can come out of some sequence of calls iff it is coherent. */
  lemma ReachableIffCoherent(j: JobState)
    ensures Reachable(j) <==> Coherent(j)
  {
    if Coherent(j) {
      CallsToReach(j);
    }
    if Reachable(j) {
      var origin: JobState, calls: seq<Call> :|
        New(origin.id, TypeName(origin.jobType), origin.payload, origin.createdAt) == Ok(origin)
        && ApplyAll(origin, calls) == j;
      NewIsCoherent(origin.id, TypeName(origin.jobType), origin.payload, origin.createdAt);
      ApplyAllKeepsCoherent(origin, calls);
    }
  }
}
