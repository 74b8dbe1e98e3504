/** The table record and its mapping to the entity (internal/adapters/mysql/job_mapper.go). */
module Mapper {
  import opened Errors
  import opened Ids
  import opened JobEntity
  import opened Protocol
  import opened ProtocolInvariant
  import opened ProtocolSteps
  import opened ProtocolTheorems

  datatype JobRecord = JobRecord(
    id: string,
    typeName: string,
    status: string,
    payload: Payload,
    retryCount: int,
    maxRetries: int,
    lastError: Option<string>,
    createdAt: Time,
    updatedAt: Time,
    startedAt: Option<Time>,
    completedAt: Option<Time>
  )

  function FromDomain(j: JobState): JobRecord {
    JobRecord(j.id, TypeName(j.jobType), StatusName(j.status), j.payload, j.retryCount, j.maxRetries,
              j.lastError, j.createdAt, j.updatedAt, j.startedAt, j.completedAt)
  }

  function ToDomain(r: JobRecord): Result<JobState> {
    match ParseID(r.id)
    case Err(e) => Err(Wrap("map persisted job ID: ", e))
    case Ok(id) =>
      match ParseType(r.typeName)
      case Err(e) => Err(Wrap("map persisted job type: ", e))
      case Ok(jobType) =>
        match ParseStatus(r.status)
        case Err(e) => Err(Wrap("map persisted job status: ", e))
        case Ok(status) =>
          match Restore(JobState(id, jobType, status, r.payload, r.retryCount, r.maxRetries,
                                 r.lastError, r.createdAt, r.updatedAt, r.startedAt, r.completedAt))
          case Err(e) => Err(Wrap("restore persisted job: ", e))
          case Ok(j) => Ok(j)
  }

  /** The CHECK constraints of the table, and the range of its retry columns. */
  predicate MeetsChecks(r: JobRecord) {
    && r.typeName in {"send_email", "report_generation", "data_cleanup"}
    && r.status in {"pending", "processing", "success", "failed"}
    && r.payload.reading.Object? && r.payload.reading.members > 0
    && 0 < r.maxRetries <= 255
    && 0 <= r.retryCount <= r.maxRetries
  }

  lemma RestoreKeepsFields(j: JobState)
    ensures Restore(j).Ok? ==> Restore(j).value == j
  {
    hide IsValid, ValidatePayload;
  }

  /** Storing and loading a job with a valid ID is the same as restoring it: nothing else is lost
      or refused on the way. */
  lemma RoundTrip(j: JobState)
    requires IsValid(j.id)
    ensures ToDomain(FromDomain(j)).Ok? <==> Restore(j).Ok?
    ensures ToDomain(FromDomain(j)).Ok? ==> ToDomain(FromDomain(j)) == Ok(j)
  {
    hide ParseID, ParseType, ParseStatus, TypeOfName, IsValid, ValidatePayload, TypeName, StatusName;
    ParseIDKeepsValid(j.id);
    ParseOfName(j.jobType, TypeName(j.jobType), j.status, StatusName(j.status));
    RestoreKeepsFields(j);
  }

  /** Whatever text a loadable record holds, loading normalizes it once and for all. */
  lemma LoadingNormalizes(r: JobRecord)
    requires ToDomain(r).Ok?
    ensures ToDomain(FromDomain(ToDomain(r).value)) == ToDomain(r)
  {
    hide ParseType, ParseStatus, ValidatePayload;
    RoundTrip(ToDomain(r).value);
  }

  lemma CoherentRoundTrip(j: JobState)
    requires Coherent(j)
    ensures ToDomain(FromDomain(j)) == Ok(j) && MeetsChecks(FromDomain(j))
  {
    hide ToDomain;
    RestoreKeepsCoherent(j);
    RoundTrip(j);
  }

  /** A stored row is loaded as it is, with whatever `updated_at` the table has put there. */
  lemma StoredRoundTrip(row: JobState)
    requires Stored(row)
    ensures ToDomain(FromDomain(row)) == Ok(row) && MeetsChecks(FromDomain(row))
  {
    hide ToDomain, IsValid, ValidatePayload, IsReason;
    StoredRestores(row);
    RoundTrip(row);
    CoherentRoundTrip(row.(updatedAt := LastEvent(row)));
  }

  lemma StoredRestores(row: JobState)
    requires Stored(row)
    ensures Restore(row) == Ok(row) && IsValid(row.id)
  {
    hide IsValid, ValidatePayload, IsReason;
  }

  /** Every row of every run meets the table's constraints, loads back as it was, and loads as a
      job that its calls can produce, up to a later `updated_at`, although `Restore` checks less. */
  lemma EveryRowLoads(actions: seq<Action>, id: string)
    requires id in Run(EMPTY, actions).jobs
    ensures var row := Run(EMPTY, actions).jobs[id].row;
            && row.id == id && ToDomain(FromDomain(row)) == Ok(row) && MeetsChecks(FromDomain(row))
            && Reachable(row.(updatedAt := LastEvent(row))) && LastEvent(row) <= row.updatedAt
            && (row.status == Pending ==> Reachable(row))
  {
    hide Inv, Coherent, ToDomain, AttemptsFit, MeetsChecks;
    EmptyInv();
    RunKeepsInv(EMPTY, actions);
    var s := Run(EMPTY, actions);
    EntryFacts(s, id);
    var row := s.jobs[id].row;
    StoredRoundTrip(row);
    ReachableIffCoherent(row.(updatedAt := LastEvent(row)));
    if row.status == Pending {
      PendingIsCoherent(row);
      ReachableIffCoherent(row);
    }
  }

  /** The columns that an UPDATE writes; the others keep the value of the row. */
  function OverwriteRecord(row: JobRecord, record: JobRecord, stamp: Time): JobRecord {
    row.(status := record.status, retryCount := record.retryCount, maxRetries := record.maxRetries,
         lastError := record.lastError, updatedAt := StampedAt(record.updatedAt, stamp),
         startedAt := record.startedAt, completedAt := record.completedAt)
  }

  lemma OverwriteMaps(row: JobState, entity: JobState, stamp: Time)
    ensures OverwriteRecord(FromDomain(row), FromDomain(entity), stamp) == FromDomain(Overwrite(row, entity, stamp))
  {
    hide TypeName, StatusName;
  }

  /** Names are told apart as the statuses are. */
  lemma StatusNames(a: Status, b: Status)
    ensures StatusName(a) == StatusName(b) <==> a == b
  {
  }

  /** A record that loads is loaded under its own ID, if that is valid. */
  lemma LoadedID(r: JobRecord)
    requires IsValid(r.id) && ToDomain(r).Ok?
    ensures ToDomain(r).value.id == r.id
  {
    hide IsValid, ParseID, ParseType, ParseStatus, ValidatePayload;
    ParseIDKeepsValid(r.id);
  }
}
