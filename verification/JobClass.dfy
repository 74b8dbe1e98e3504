/** The job entity as the object whose fields the calls update in place (internal/domain/job). */
module JobClass {
  import opened GoText
  import opened Errors
  import opened Ids
  import opened JobEntity

  class Job {
    const id: string
    const jobType: Type
    const payload: Payload
    const maxRetries: int
    const createdAt: Time
    var status: Status
    var retryCount: int
    var lastError: Option<string>
    var updatedAt: Time
    var startedAt: Option<Time>
    var completedAt: Option<Time>

    /** The value the object has now. */
    function Value(): JobState
      reads this
    {
      JobState(id, jobType, status, payload, retryCount, maxRetries, lastError,
               createdAt, updatedAt, startedAt, completedAt)
    }

    constructor Of(j: JobState)
      ensures Value() == j
    {
      id, jobType, payload, maxRetries, createdAt := j.id, j.jobType, j.payload, j.maxRetries, j.createdAt;
      status, retryCount, lastError := j.status, j.retryCount, j.lastError;
      updatedAt, startedAt, completedAt := j.updatedAt, j.startedAt, j.completedAt;
    }

    /** A job comes with its error, or an error with no job. */
    static ghost predicate Returned(spec: Result<JobState>, job: Job?, err: Option<Error>)
      reads job
    {
      match spec
      case Ok(j) => job != null && job.Value() == j && err == None
      case Err(e) => job == null && err == Some(e)
    }

    static method Make(id: string, typeName: string, payload: Payload, createdAt: Time)
      returns (job: Job?, err: Option<Error>)
      ensures Returned(New(id, typeName, payload, createdAt), job, err)
      ensures job != null ==> fresh(job) && Coherent(job.Value())
    {
      job := null;
      if !IsValid(id) {
        return null, Some(Wrap("new job", Sentinel(InvalidID)));
      }
      if TypeOfName(typeName).None? {
        return null, Some(Wrap("new job", Sentinel(InvalidType)));
      }
      err := ValidatePayload(payload);
      if err.Some? {
        return;
      }
      if createdAt == ZERO_TIME {
        return null, Some(Sentinel(InvalidCreatedAt));
      }
      NewIsCoherent(id, typeName, payload, createdAt);
      job := new Job.Of(JobState(id, TypeOfName(typeName).value, Pending, payload, 0, DEFAULT_MAX_RETRIES,
                                 None, createdAt, createdAt, None, None));
    }

    /** `transitionTime`: the instant of a transition, unless it is zero or in the past of the job. */
    function TransitionTime(at: Time): Result<Time>
      reads this
    {
      if at == ZERO_TIME || at < updatedAt then Err(TimeRefused()) else Ok(at)
    }

    /** The new value, or an error and the value before. */
    predicate Became(spec: Result<JobState>, before: JobState, err: Option<Error>)
      reads this
    {
      match spec
      case Ok(j) => Value() == j && err == None
      case Err(e) => Value() == before && err == Some(e)
    }

    method MarkProcessing(at: Time) returns (err: Option<Error>)
      modifies this
      ensures Became(JobEntity.MarkProcessing(old(Value()), at), old(Value()), err)
      ensures old(Coherent(Value())) ==> Coherent(Value())
    {
      if JobEntity.MarkProcessing(Value(), at).Ok? && Coherent(Value()) {
        MarkProcessingKeepsCoherent(Value(), at);
      }
      if status != Pending {
        return Some(TransitionRefused());
      }
      var transitionTime := TransitionTime(at);
      if transitionTime.Err? {
        return Some(transitionTime.error);
      }
      status := Processing;
      startedAt := Some(transitionTime.value);
      completedAt := None;
      updatedAt := transitionTime.value;
      err := None;
    }

    method MarkSuccess(at: Time) returns (err: Option<Error>)
      modifies this
      ensures Became(JobEntity.MarkSuccess(old(Value()), at), old(Value()), err)
      ensures old(Coherent(Value())) ==> Coherent(Value())
    {
      if JobEntity.MarkSuccess(Value(), at).Ok? && Coherent(Value()) {
        MarkSuccessKeepsCoherent(Value(), at);
      }
      if status != Processing {
        return Some(TransitionRefused());
      }
      var transitionTime := TransitionTime(at);
      if transitionTime.Err? {
        return Some(transitionTime.error);
      }
      status := Success;
      completedAt := Some(transitionTime.value);
      lastError := None;
      updatedAt := transitionTime.value;
      err := None;
    }

    method MarkFailed(at: Time, reason: string) returns (err: Option<Error>)
      modifies this
      ensures Became(JobEntity.MarkFailed(old(Value()), at, reason), old(Value()), err)
    {
      if status != Processing {
        return Some(TransitionRefused());
      }
      var normalizedReason := TrimSpace(reason);
      if normalizedReason == "" {
        return Some(Sentinel(InvalidFailureReason));
      }
      var transitionTime := TransitionTime(at);
      if transitionTime.Err? {
        return Some(transitionTime.error);
      }
      status := Failed;
      lastError := Some(normalizedReason);
      completedAt := Some(transitionTime.value);
      updatedAt := transitionTime.value;
      err := None;
    }

    method RecordFailure(at: Time, reason: string) returns (r: Result<FailureOutcome>)
      modifies this
      ensures match JobEntity.RecordFailure(old(Value()), at, reason)
              case Ok((j, outcome)) => Value() == j && r == Ok(outcome)
              case Err(e) => Value() == old(Value()) && r == Err(e)
      ensures old(Coherent(Value())) ==> Coherent(Value())
    {
      if JobEntity.RecordFailure(Value(), at, reason).Ok? && Coherent(Value()) {
        RecordFailureKeepsCoherent(Value(), at, reason);
      }
      if status != Processing {
        return Err(TransitionRefused());
      }
      var normalizedReason := TrimSpace(reason);
      if normalizedReason == "" {
        return Err(Sentinel(InvalidFailureReason));
      }
      var transitionTime := TransitionTime(at);
      if transitionTime.Err? {
        return Err(transitionTime.error);
      }
      lastError := Some(normalizedReason);
      updatedAt := transitionTime.value;
      if retryCount < maxRetries {
        retryCount := retryCount + 1;
        status := Pending;
        completedAt := None;
        return Ok(RetryScheduled);
      }
      status := Failed;
      completedAt := Some(transitionTime.value);
      r := Ok(TerminalFailure);
    }
  }
}
