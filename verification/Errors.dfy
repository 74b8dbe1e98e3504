/** Option and Result, and Go's error values as the trees that `fmt.Errorf("%w")` and
    `errors.Join` build. */
module Errors {

  datatype Option<+T> = None | Some(value: T)

  datatype Result<+T> = Ok(value: T) | Err(error: Error)

  /** The package-level error variables that `errors.Is` is asked about. */
  datatype Kind =
    | InvalidID | InvalidType | InvalidStatus | InvalidPayload | InvalidCreatedAt
    | InvalidUpdatedAt | InvalidRetry | InvalidEventTime | InvalidTransition | InvalidFailureReason
    | JobNotFound | JobAlreadyExists | JobQueueUnavailable | HandlerNotRegistered
    | JobRetryScheduled | JobRetriesExhausted | ContextCanceled | DeadlineExceeded

  /** `Foreign` is an error made by code outside the model: a driver, a handler, the network. It
      may itself wrap anything, so it says which variables it matches. */
  datatype Error =
    | Sentinel(kind: Kind)
    | Foreign(text: string, matches: set<Kind>)
    | Wrap(prefix: string, cause: Error)
    | Join(first: Error, second: Error)

  /** `errors.Is(e, kind)`. */
  predicate Is(e: Error, kind: Kind) {
    match e
    case Sentinel(k) => k == kind
    case Foreign(_, matches) => kind in matches
    case Wrap(_, cause) => Is(cause, kind)
    case Join(first, second) => Is(first, kind) || Is(second, kind)
  }

  lemma IsThroughWrap(prefix: string, cause: Error, kind: Kind)
    ensures Is(Wrap(prefix, cause), kind) == Is(cause, kind)
  {
  }

  lemma IsThroughJoin(first: Error, second: Error, kind: Kind)
    ensures Is(Join(first, second), kind) == (Is(first, kind) || Is(second, kind))
  {
  }

  predicate Matches(e: Option<Error>, kind: Kind) {
    e.Some? && Is(e.value, kind)
  }

  function KindText(kind: Kind): string {
    match kind
    case InvalidID => "invalid job ID"
    case InvalidType => "invalid job type"
    case InvalidStatus => "invalid job status"
    case InvalidPayload => "invalid job payload"
    case InvalidCreatedAt => "invalid job creation time"
    case InvalidUpdatedAt => "invalid job update time"
    case InvalidRetry => "invalid job retry values"
    case InvalidEventTime => "invalid job lifecycle time"
    case InvalidTransition => "invalid job status transition"
    case InvalidFailureReason => "invalid job failure reason"
    case JobNotFound => "job not found"
    case JobAlreadyExists => "job already exists"
    case JobQueueUnavailable => "job queue unavailable"
    case HandlerNotRegistered => "job handler not registered"
    case JobRetryScheduled => "job retry scheduled"
    case JobRetriesExhausted => "job retries exhausted"
    case ContextCanceled => "context canceled"
    case DeadlineExceeded => "context deadline exceeded"
  }

  /** `e.Error()`. */
  function Text(e: Error): string {
    match e
    case Sentinel(kind) => KindText(kind)
    case Foreign(text, _) => text
    case Wrap(prefix, cause) => prefix + Text(cause)
    case Join(first, second) => Text(first) + "\n" + Text(second)
  }
}
