/** What the result of `ProcessJob.Execute` says about what the call did. */
module Results {
  import opened GoText
  import opened Errors
  import opened Ids
  import opened JobEntity
  import opened Mapper
  import opened Executor
  import opened Protocol
  import opened UseCases

  // ---------------------------------------------------------------- effects

  predicate IsStatus(w: World, id: string, status: Status) {
    id in w.table && w.table[id].status == StatusName(status)
  }

  /** `Execute` made the row a success and was told so. */
  predicate MadeSuccess(after: World, id: string, a: Answers) {
    IsStatus(after, id, Success) && a.saveOutcome == Done
  }

  /** It put the job back as pending with one more retry, and published it. */
  predicate Rescheduled(w: World, after: World, id: string, a: Answers) {
    && id in w.table && IsStatus(after, id, Pending)
    && after.table[id].retryCount == w.table[id].retryCount + 1
    && after.list == [id] + w.list
    && a.saveOutcome == Done && a.publish == Done
  }

  /** It made the row failed and was told so. */
  predicate Exhausted(after: World, id: string, a: Answers) {
    IsStatus(after, id, Failed) && a.saveOutcome == Done
  }

  /** The effect that each of the two sentinel errors announces. */
  predicate Announced(kind: Kind, w: World, after: World, id: string, a: Answers) {
    (kind == JobRetryScheduled && Rescheduled(w, after, id, a)) || (kind == JobRetriesExhausted && Exhausted(after, id, a))
  }

  // ---------------------------------------------------------------- inputs

  predicate IsResultKind(kind: Kind) {
    kind == JobRetryScheduled || kind == JobRetriesExhausted
  }

  /** The table holds a pending job under this ID. */
  predicate PendingJob(w: World, id: string) {
    && IsValid(id) && id in w.table && w.table[id].id == id
    && ToDomain(w.table[id]).Ok? && ToDomain(w.table[id]).value.status == Pending
  }

  function JobAt(w: World, id: string): JobState
    requires PendingJob(w, id)
  {
    ToDomain(w.table[id]).value
  }

  /** The handler gets to run. */
  predicate Begins(row: JobState, a: Answers) {
    a.load == Done && TimeAccepted(row, a.begin) && a.save == Done
  }

  /** The handler's answer can be recorded. */
  predicate Concludes(a: Answers) {
    a.conclude != ZERO_TIME && a.begin <= a.conclude
  }

  /** The inputs for which the announced effect takes place. */
  predicate Announces(kind: Kind, row: JobState, a: Answers) {
    && Begins(row, a) && a.handler.Some? && Concludes(a) && a.saveOutcome == Done
    && if CanRetry(row) then kind == JobRetryScheduled && a.publish == Done else kind == JobRetriesExhausted
  }

  /** The error of the call that fails after a handler's error, if any, matches the kind. */
  predicate CallFailureSays(kind: Kind, row: JobState, a: Answers) {
    && Concludes(a) && (a.saveOutcome != Done || (CanRetry(row) && a.publish != Done))
    && Is(a.failure, kind)
  }

  /** An error from outside, found inside what `Execute` returns, matches the kind. */
  predicate OutsideSays(kind: Kind, row: JobState, a: Answers) {
    if !Begins(row, a) then (a.load != Done || TimeAccepted(row, a.begin)) && Is(a.failure, kind)
    else match a.handler
      case None => Concludes(a) && a.saveOutcome != Done && Is(a.failure, kind)
      case Some(cause) => Is(cause, kind) || CallFailureSays(kind, row, a)
  }

  // ---------------------------------------------------------------- error kinds

  lemma WrappedTwice(outer: string, inner: string, e: Error, kind: Kind)
    ensures Is(Wrap(outer, Wrap(inner, e)), kind) == Is(e, kind)
  {
    assert Is(Wrap(inner, e), kind) == Is(e, kind);
  }

  lemma SentinelKinds(own: Kind, kind: Kind)
    ensures Is(Sentinel(own), kind) == Is(Wrap("", Sentinel(own)), kind) == (kind == own)
  {
  }

  lemma HandleErrorIs(started: JobState, cause: Error, kind: Kind)
    ensures Is(HandleError(started, cause), kind) == Is(cause, kind)
  {
  }

  /** A refused transition never carries the result sentinels. */
  lemma RefusedTransitionKinds(outer: string, kind: Kind)
    requires IsResultKind(kind)
    ensures !Is(Wrap(outer, TransitionRefused()), kind) && !Is(Wrap(outer, TimeRefused()), kind)
  {
    assert !Is(TransitionRefused(), kind) && !Is(TimeRefused(), kind);
  }

  // ---------------------------------------------------------------- the failure branch

  /** What `RecordFailure` makes of the started job when the failure has a text. */
  lemma Recording(row: JobState, started: JobState, cause: Error, a: Answers)
    requires row.status == Pending && MarkProcessing(row, a.begin) == Ok(started)
    ensures var cause' := HandleError(started, cause);
            && (RecordFailure(started, a.conclude, Text(cause')).Ok? <==> Concludes(a))
            && (!Concludes(a) ==> RecordFailure(started, a.conclude, Text(cause')) == Err(TimeRefused()))
            && (Concludes(a) ==>
                  var (next, outcome) := RecordFailure(started, a.conclude, Text(cause')).value;
                  && outcome == (if CanRetry(row) then RetryScheduled else TerminalFailure)
                  && next.status == (if CanRetry(row) then Pending else Failed)
                  && next.retryCount == row.retryCount + (if CanRetry(row) then 1 else 0)
                  && next.id == row.id)
  {
    HandleErrorNotBlank(started, cause);
    hide TrimSpace, Text, HandleError;
  }

  /** What the error of the failure branch matches. */
  lemma FailureKinds(w: World, row: JobState, started: JobState, cause: Error, a: Answers, kind: Kind)
    requires row.status == Pending && MarkProcessing(row, a.begin) == Ok(started)
    requires started.id in w.table && IsValid(started.id) && row.id == started.id && IsResultKind(kind)
    ensures var err := Fail(w, started, HandleError(started, cause), a).1;
            && err.Some?
            && (Is(err.value, kind) <==>
                  || Is(cause, kind)
                  || CallFailureSays(kind, row, a)
                  || (Concludes(a) && a.saveOutcome == Done &&
                      if CanRetry(row) then kind == JobRetryScheduled && a.publish == Done else kind == JobRetriesExhausted))
  {
    hide TrimSpace, Text, IsValid, Write, Tell, Push, Is, RecordFailure, HandleError, MarkProcessing, TimeRefused;
    Recording(row, started, cause, a);
    HandleErrorIs(started, cause, kind);
    var handled := HandleError(started, cause);
    var executed := Wrap("execute job: ", handled);
    IsThroughWrap("execute job: ", handled, kind);
    if !Concludes(a) {
      RefusedTransitionKinds("record failure: ", kind);
      IsThroughJoin(executed, Wrap("record failure: ", TimeRefused()), kind);
    } else {
      CallKinds(executed, a.failure, kind);
    }
  }

  /** The joined errors of the failure branch. */
  lemma CallKinds(executed: Error, failure: Error, kind: Kind)
    requires IsResultKind(kind)
    ensures Is(Error.Join(executed, Wrap("persist failure state: ", Wrap("update job: ", failure))), kind)
            == (Is(executed, kind) || Is(failure, kind))
    ensures Is(Error.Join(executed, Wrap("enqueue retry: ", Error.Join(Sentinel(JobQueueUnavailable), failure))), kind)
            == (Is(executed, kind) || Is(failure, kind))
    ensures Is(Error.Join(Wrap("", Sentinel(JobRetryScheduled)), executed), kind)
            == (Is(executed, kind) || kind == JobRetryScheduled)
    ensures Is(Error.Join(Wrap("", Sentinel(JobRetriesExhausted)), executed), kind)
            == (Is(executed, kind) || kind == JobRetriesExhausted)
  {
    hide Is;
    WrappedTwice("persist failure state: ", "update job: ", failure, kind);
    IsThroughJoin(executed, Wrap("persist failure state: ", Wrap("update job: ", failure)), kind);
    var unavailable := Error.Join(Sentinel(JobQueueUnavailable), failure);
    SentinelKinds(JobQueueUnavailable, kind);
    IsThroughJoin(Sentinel(JobQueueUnavailable), failure, kind);
    IsThroughWrap("enqueue retry: ", unavailable, kind);
    IsThroughJoin(executed, Wrap("enqueue retry: ", unavailable), kind);
    SentinelKinds(JobRetryScheduled, kind);
    IsThroughJoin(Wrap("", Sentinel(JobRetryScheduled)), executed, kind);
    SentinelKinds(JobRetriesExhausted, kind);
    IsThroughJoin(Wrap("", Sentinel(JobRetriesExhausted)), executed, kind);
  }

  /** What the failure branch does to the row and the list. */
  lemma FailureEffect(w: World, row: JobState, started: JobState, cause: Error, a: Answers)
    requires row.status == Pending && MarkProcessing(row, a.begin) == Ok(started) && row.id == started.id
    requires IsStatus(w, started.id, Processing) && IsValid(started.id)
    ensures var after := Fail(w, started, HandleError(started, cause), a).0;
            if !Concludes(a) then after == w
            else
              && started.id in after.table
              && (a.saveOutcome == Refused ==> after.table[started.id] == w.table[started.id])
              && (a.saveOutcome != Refused ==>
                    && IsStatus(after, started.id, if CanRetry(row) then Pending else Failed)
                    && after.table[started.id].retryCount == row.retryCount + if CanRetry(row) then 1 else 0)
              && after.list == (if CanRetry(row) && a.saveOutcome == Done && a.publish != Refused
                                then [started.id] + w.list else w.list)
  {
    hide TrimSpace, Text, IsValid, EventsOf, RecordFailure, HandleError, MarkProcessing, StatusName, TypeName;
    Recording(row, started, cause, a);
  }

  /** The failure branch, whose world before is `w`. */
  lemma FailureAgrees(w: World, row: JobState, started: JobState, cause: Error, a: Answers, kind: Kind)
    requires row.status == Pending && MarkProcessing(row, a.begin) == Ok(started) && row.id == started.id
    requires IsStatus(w, started.id, Processing) && w.table[started.id].retryCount == row.retryCount
    requires IsValid(started.id) && IsResultKind(kind)
    ensures var (after, err) := Fail(w, started, HandleError(started, cause), a);
            && err.Some? && !MadeSuccess(after, started.id, a)
            && (Is(err.value, kind) <==>
                  Announced(kind, w, after, started.id, a) || Is(cause, kind) || CallFailureSays(kind, row, a))
            && (Announced(kind, w, after, started.id, a) <==>
                  && Concludes(a) && a.saveOutcome == Done
                  && if CanRetry(row) then kind == JobRetryScheduled && a.publish == Done else kind == JobRetriesExhausted)
  {
    hide Fail, Is, IsValid, CallFailureSays, HandleError, StatusName, MarkProcessing;
    FailureKinds(w, row, started, cause, a, kind);
    FailureEffect(w, row, started, cause, a);
    StatusesDiffer();
    assert |[started.id] + w.list| == |w.list| + 1;
  }

  lemma StatusesDiffer()
    ensures forall a, b: Status :: StatusName(a) == StatusName(b) <==> a == b
  {
    forall a: Status, b: Status
      ensures StatusName(a) == StatusName(b) <==> a == b
    {
      StatusNames(a, b);
    }
  }

  // ---------------------------------------------------------------- the success branch

  lemma SuccessAgrees(w: World, row: JobState, started: JobState, a: Answers, kind: Kind)
    requires row.status == Pending && MarkProcessing(row, a.begin) == Ok(started) && row.id == started.id
    requires IsStatus(w, started.id, Processing) && IsResultKind(kind)
    ensures var (after, err) := Succeed(w, started, a);
            && (err.None? <==> MadeSuccess(after, started.id, a))
            && !IsStatus(after, started.id, Pending) && !IsStatus(after, started.id, Failed)
            && (Matches(err, kind) <==> Concludes(a) && a.saveOutcome != Done && Is(a.failure, kind))
  {
    hide Is, EventsOf, TimeRefused, StatusName, TypeName;
    StatusesDiffer();
    RefusedTransitionKinds("mark job as successful: ", kind);
    WrappedTwice("persist successful status: ", "update job: ", a.failure, kind);
  }

  // ---------------------------------------------------------------- the whole call

  /** The row as it was before: pending, whatever the spelling. */
  lemma RowIsPending(w: World, id: string, status: Status)
    requires PendingJob(w, id) && IsStatus(w, id, status)
    ensures status == Pending
  {
    hide TypeName, StatusName, ParseType, ParseStatus, IsValid, ParseID, ValidatePayload;
    ParseOfName(SendEmail, TypeName(SendEmail), status, StatusName(status));
    LoadedFields(w.table[id]);
  }

  lemma LoadedFields(r: JobRecord)
    requires ToDomain(r).Ok?
    ensures ParseStatus(r.status) == Ok(ToDomain(r).value.status) && ToDomain(r).value.retryCount == r.retryCount
  {
    hide ParseID, ParseType, ParseStatus, ValidatePayload, IsValid;
  }

  /** Calls that end before the handler: neither sentinel of their own, no effect announced. */
  lemma EarlyExitAgrees(w: World, id: string, a: Answers, kind: Kind)
    requires PendingJob(w, id) && IsResultKind(kind) && !Begins(JobAt(w, id), a)
    ensures var (after, err) := Process(w, id, a);
            && err.Some? && !MadeSuccess(after, id, a) && !Announced(kind, w, after, id, a)
            && (Is(err.value, kind) <==> OutsideSays(kind, JobAt(w, id), a))
  {
    hide IsValid, Is, Fail, Succeed, HandleError, ToDomain, StatusName, TimeRefused, EventsOf;
    LoadedID(w.table[id]);
    StatusesDiffer();
    if IsStatus(w, id, Success) { RowIsPending(w, id, Success); }
    if IsStatus(w, id, Failed) { RowIsPending(w, id, Failed); }
    WrappedTwice("load job: ", "get job: ", a.failure, kind);
    WrappedTwice("persist processing status: ", "update job: ", a.failure, kind);
    RefusedTransitionKinds("mark job as processing: ", kind);
  }

  /** The world in which the handler runs. */
  function Begun(w: World, started: JobState, a: Answers): World {
    Tell(Write(w, started, a.save, a.stamp), started, Some(Pending))
  }

  lemma ExecutedIs(w: World, id: string, a: Answers)
    requires PendingJob(w, id) && Begins(JobAt(w, id), a)
    ensures var row := JobAt(w, id);
            && row.id == id && row.retryCount == w.table[id].retryCount && MarkProcessing(row, a.begin).Ok?
            && var started := MarkProcessing(row, a.begin).value;
               var told := Begun(w, started, a);
               && started.id == id && IsStatus(told, id, Processing)
               && told.table[id].retryCount == row.retryCount && told.list == w.list
               && Process(w, id, a) == match a.handler
                                       case Some(cause) => Fail(told, started, HandleError(started, cause), a)
                                       case None => Succeed(told, started, a)
  {
    hide IsValid, Fail, Succeed, HandleError, EventsOf, ToDomain, StatusName, TypeName;
    LoadedID(w.table[id]);
    LoadedFields(w.table[id]);
  }

  lemma ExecutedAgrees(w: World, id: string, a: Answers, kind: Kind)
    requires PendingJob(w, id) && IsResultKind(kind) && Begins(JobAt(w, id), a)
    ensures var (after, err) := Process(w, id, a);
            && (err.None? <==> MadeSuccess(after, id, a))
            && (Matches(err, kind) <==> Announced(kind, w, after, id, a) || OutsideSays(kind, JobAt(w, id), a))
            && (Announced(kind, w, after, id, a) <==> Announces(kind, JobAt(w, id), a))
  {
    hide Process, Begun, IsValid, Is, Fail, Succeed, HandleError, CallFailureSays, MarkProcessing, ToDomain, StatusName;
    ExecutedIs(w, id, a);
    var row := JobAt(w, id);
    var started := MarkProcessing(row, a.begin).value;
    var told := Begun(w, started, a);
    match a.handler
    case Some(cause) => FailureAgrees(told, row, started, cause, a, kind);
    case None => SuccessAgrees(told, row, started, a, kind);
  }

  /** What the result of `Execute` on a pending job says about its effect. Nil means that the success
      was written and acknowledged, and that means nil. Its error matches a sentinel exactly when the
      announced effect took place or an error from outside, which it wraps, matches that sentinel
      itself; and the inputs decide which effect takes place. */
  lemma ResultAgreesWithEffect(w: World, id: string, a: Answers, kind: Kind)
    requires PendingJob(w, id) && IsResultKind(kind)
    ensures var (after, err) := Process(w, id, a);
            && (err.None? <==> MadeSuccess(after, id, a))
            && (Matches(err, kind) <==> Announced(kind, w, after, id, a) || OutsideSays(kind, JobAt(w, id), a))
            && (Announced(kind, w, after, id, a) <==> Announces(kind, JobAt(w, id), a))
  {
    hide Process, OutsideSays, Announced, IsValid, ToDomain;
    if !Begins(JobAt(w, id), a) {
      EarlyExitAgrees(w, id, a, kind);
    } else {
      ExecutedAgrees(w, id, a, kind);
    }
  }

  // ---------------------------------------------------------------- when the classification is right

  /** A sentinel in the result means its effect exactly for the inputs for which no error from outside
      carries that sentinel, unless the effect takes place anyway. */
  lemma SentinelRightIff(w: World, id: string, a: Answers, kind: Kind)
    requires PendingJob(w, id) && IsResultKind(kind)
    ensures var (after, err) := Process(w, id, a);
            (Matches(err, kind) <==> Announced(kind, w, after, id, a))
            <==> (OutsideSays(kind, JobAt(w, id), a) ==> Announces(kind, JobAt(w, id), a))
  {
    hide Process, OutsideSays, Announced, Announces, PendingJob;
    ResultAgreesWithEffect(w, id, a, kind);
  }

  /** No result matches both sentinels unless an error from outside carries one of them. */
  lemma NeverBoth(w: World, id: string, a: Answers)
    requires PendingJob(w, id)
    requires !OutsideSays(JobRetryScheduled, JobAt(w, id), a) && !OutsideSays(JobRetriesExhausted, JobAt(w, id), a)
    ensures var err := Process(w, id, a).1;
            !(Matches(err, JobRetryScheduled) && Matches(err, JobRetriesExhausted))
  {
    hide Process, OutsideSays, PendingJob, Announced;
    ResultAgreesWithEffect(w, id, a, JobRetryScheduled);
    ResultAgreesWithEffect(w, id, a, JobRetriesExhausted);
  }

  /** A handler whose error wraps `ErrJobRetryScheduled` makes the last failure of a job look like a
      scheduled retry too; and one that wraps `ErrJobRetriesExhausted` makes a scheduled retry look
      like the last failure. */
  lemma MisleadingHandler(w: World, id: string, now: Time)
    requires PendingJob(w, id) && TimeAccepted(JobAt(w, id), now)
    ensures var kind := if CanRetry(JobAt(w, id)) then JobRetriesExhausted else JobRetryScheduled;
            var handler := Foreign("misleading", {kind});
            var a := Answers(Done, now, Done, ZERO_TIME, Some(handler), now, Done, ZERO_TIME, Done, handler);
            var (after, err) := Process(w, id, a);
            && (if CanRetry(JobAt(w, id)) then Rescheduled(w, after, id, a) else Exhausted(after, id, a))
            && Matches(err, JobRetryScheduled) && Matches(err, JobRetriesExhausted)
  {
    hide Process, PendingJob;
    var kind := if CanRetry(JobAt(w, id)) then JobRetriesExhausted else JobRetryScheduled;
    var handler := Foreign("misleading", {kind});
    var a := Answers(Done, now, Done, ZERO_TIME, Some(handler), now, Done, ZERO_TIME, Done, handler);
    ResultAgreesWithEffect(w, id, a, JobRetryScheduled);
    ResultAgreesWithEffect(w, id, a, JobRetriesExhausted);
  }
}
