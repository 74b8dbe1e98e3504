/** What the calls of the service leave behind, column by column and in the texts that the table holds,
    from their inputs alone. */
module Outcomes {
  import opened GoText
  import opened Errors
  import opened Ids
  import opened JobEntity
  import opened Lifecycle
  import opened Names
  import opened Mapper
  import opened Executor
  import opened Protocol
  import opened Stores
  import opened UseCases
  import opened Results

  // ---------------------------------------------------------------- ProcessJob

  /** The clock reading is not zero and not before the instant. */
  predicate NotBefore(at: Time, instant: Time) {
    at != 0 && instant <= at
  }

  /** What the database layer leaves in `updated_at`: its own instant if that is later. */
  function Noted(written: Time, stamp: Time): Time {
    if stamp != 0 && stamp > written then stamp else written
  }

  /** The first update takes effect. */
  predicate Starts(row: JobRecord, a: Answers) {
    a.load == Done && NotBefore(a.begin, row.updatedAt) && a.save != Refused
  }

  /** So does the second. */
  predicate Ends(row: JobRecord, a: Answers) {
    Starts(row, a) && a.save == Done && NotBefore(a.conclude, a.begin) && a.saveOutcome != Refused
  }

  function StartedRow(row: JobRecord, a: Answers): JobRecord {
    row.(status := "processing", startedAt := Some(a.begin), completedAt := None, updatedAt := Noted(a.begin, a.stamp))
  }

  /** The text that is kept of a handler's error. */
  function Reason(row: JobRecord, id: string, typeName: string, cause: Error): string {
    TrimSpace("handle " + typeName + " job " + id + ": " + Text(cause))
  }

  function EndedRow(row: JobRecord, id: string, typeName: string, a: Answers): JobRecord {
    var ended := StartedRow(row, a).(updatedAt := Noted(a.conclude, a.outcomeStamp));
    match a.handler
    case None => ended.(status := "success", lastError := None, completedAt := Some(a.conclude))
    case Some(cause) =>
      var failed := ended.(lastError := Some(Reason(row, id, typeName, cause)));
      if row.retryCount < row.maxRetries then failed.(status := "pending", retryCount := row.retryCount + 1)
      else failed.(status := "failed", completedAt := Some(a.conclude))
  }

  function RowAfter(row: JobRecord, id: string, typeName: string, a: Answers): JobRecord {
    if Ends(row, a) then EndedRow(row, id, typeName, a) else if Starts(row, a) then StartedRow(row, a) else row
  }

  /** Only a failure with retries left, once it is written and acknowledged, lists the ID again. */
  function ListAfter(list: seq<string>, row: JobRecord, id: string, a: Answers): seq<string> {
    if Ends(row, a) && a.saveOutcome == Done && a.handler.Some? && row.retryCount < row.maxRetries
       && a.publish != Refused then [id] + list
    else list
  }

  /** One observer call for each acknowledged update. */
  function StartObserved(row: JobRecord, a: Answers): seq<Event> {
    if Starts(row, a) && a.save == Done then [Event(Some(Pending), Processing)] else []
  }

  function EndObserved(row: JobRecord, a: Answers): seq<Event> {
    if !Ends(row, a) || a.saveOutcome != Done then []
    else if a.handler.None? then [Event(Some(Processing), Success)]
    else if row.retryCount < row.maxRetries then [Event(Some(Processing), Pending)]
    else [Event(Some(Processing), Failed)]
  }

  /** A record that loads, next to the job it loads as. */
  lemma LoadedAs(w: World, id: string)
    requires PendingJob(w, id)
    ensures var row, j := w.table[id], JobAt(w, id);
            && j.id == id && j.retryCount == row.retryCount && j.maxRetries == row.maxRetries
            && j.lastError == row.lastError && j.updatedAt == row.updatedAt
  {
    hide ParseID, ParseType, ParseStatus, ValidatePayload, IsValid;
    LoadedID(w.table[id]);
  }

  function StartedJob(j: JobState, a: Answers): JobState {
    j.(status := Processing, startedAt := Some(a.begin), completedAt := None, updatedAt := a.begin)
  }

  lemma StartEffect(w: World, id: string, a: Answers)
    requires PendingJob(w, id) && Starts(w.table[id], a)
    ensures var j := JobAt(w, id);
            && Process(w, id, a) == AfterMark(w, j, StartedJob(j, a), a)
            && Write(w, StartedJob(j, a), a.save, a.stamp) == w.(table := w.table[id := StartedRow(w.table[id], a)])
  {
    LoadedAs(w, id);
    StatusIff("processing", Processing);
    hide IsValid, ToDomain, AfterMark, StatusName, TypeName;
  }

  lemma NoStartEffect(w: World, id: string, a: Answers)
    requires PendingJob(w, id) && !Starts(w.table[id], a)
    ensures Process(w, id, a).0 == w
  {
    LoadedAs(w, id);
    hide IsValid, ToDomain, RunHandler, FromDomain;
  }

  lemma EventsKept(w: World, v: World)
    requires w.events == v.events
    ensures forall id :: EventsOf(w, id) == EventsOf(v, id)
  {
  }

  /** The job as the handler sees it, and the row as it is then. */
  predicate Running(w: World, row: JobRecord, started: JobState, a: Answers) {
    && started.id in w.table && w.table[started.id] == StartedRow(row, a) && Starts(row, a) && a.save == Done
    && started.status == Processing && started.updatedAt == a.begin && started.startedAt == Some(a.begin)
    && started.retryCount == row.retryCount && started.maxRetries == row.maxRetries && started.completedAt == None
  }

  /** One row and, if the observer is called, its events; the list apart. */
  function Ended(w: World, id: string, row: JobRecord, told: bool, status: Status): World {
    var written := w.(table := w.table[id := row]);
    if told then written.(events := w.events[id := EventsOf(w, id) + [Event(Some(Processing), status)]]) else written
  }

  lemma SuccessBranch(w: World, row: JobRecord, started: JobState, typeName: string, a: Answers)
    requires Running(w, row, started, a) && a.handler == None
    ensures Succeed(w, started, a).0 ==
            if Ends(row, a) then
              Ended(w, started.id, EndedRow(row, started.id, typeName, a), a.saveOutcome == Done, Success)
            else w
  {
    StatusIff("success", Success);
    if Ends(row, a) {
      EventsKept(w, w.(table := w.table[started.id := EndedRow(row, started.id, typeName, a)]));
    }
    hide EventsOf, StatusName, TypeName;
  }

  function FailedJob(started: JobState, at: Time, reason: string): JobState {
    var noted := started.(lastError := Some(reason), updatedAt := at);
    if started.retryCount < started.maxRetries then noted.(status := Pending, retryCount := started.retryCount + 1)
    else noted.(status := Failed, completedAt := Some(at))
  }

  lemma FailureRecorded(w: World, row: JobRecord, started: JobState, typeName: string, cause: Error, a: Answers)
    requires Running(w, row, started, a) && NamesType(typeName, started.jobType)
    ensures var text, reason := Text(HandleError(started, cause)), Reason(row, started.id, typeName, cause);
            if NotBefore(a.conclude, a.begin) then
              RecordFailure(started, a.conclude, text) ==
              Ok((FailedJob(started, a.conclude, reason),
                  if row.retryCount < row.maxRetries then RetryScheduled else TerminalFailure))
            else RecordFailure(started, a.conclude, text).Err?
  {
    HandleErrorNotBlank(started, cause);
    ReasonIs(row, started, typeName, cause);
    hide TrimSpace, Text, HandleError, Reason;
  }

  lemma FailureWritten(w: World, row: JobRecord, started: JobState, typeName: string, cause: Error, a: Answers)
    requires Running(w, row, started, a) && Ends(row, a) && a.handler == Some(cause)
    ensures var next := FailedJob(started, a.conclude, Reason(row, started.id, typeName, cause));
            Write(w, next, a.saveOutcome, a.outcomeStamp) ==
            w.(table := w.table[started.id := EndedRow(row, started.id, typeName, a)])
  {
    StatusIff("pending", Pending);
    StatusIff("failed", Failed);
    hide StatusName, TypeName, Reason;
  }

  lemma FailureBranch(w: World, row: JobRecord, started: JobState, typeName: string, cause: Error, a: Answers)
    requires Running(w, row, started, a)
    requires a.handler == Some(cause) && NamesType(typeName, started.jobType) && IsValid(started.id)
    ensures Fail(w, started, HandleError(started, cause), a).0 ==
            if Ends(row, a) then
              Ended(w, started.id, EndedRow(row, started.id, typeName, a), a.saveOutcome == Done,
                    if row.retryCount < row.maxRetries then Pending else Failed)
              .(list := ListAfter(w.list, row, started.id, a))
            else w
  {
    hide EventsOf, Text, HandleError, Reason, IsValid, Write, EndedRow, StartedRow, RecordFailure, NamesType;
    FailureRecorded(w, row, started, typeName, cause, a);
    if Ends(row, a) {
      FailureWritten(w, row, started, typeName, cause, a);
      EventsKept(w, w.(table := w.table[started.id := EndedRow(row, started.id, typeName, a)]));
    } else {
      RefusedIsUnwritten(w, started, FailedJob(started, a.conclude, Reason(row, started.id, typeName, cause)), a);
    }
  }

  lemma RefusedIsUnwritten(w: World, started: JobState, next: JobState, a: Answers)
    requires next.id == started.id
    ensures a.saveOutcome == Refused ==> Write(w, next, a.saveOutcome, a.outcomeStamp) == w
  {
  }

  lemma ReasonIs(row: JobRecord, started: JobState, typeName: string, cause: Error)
    requires NamesType(typeName, started.jobType)
    ensures TrimSpace(Text(HandleError(started, cause))) == Reason(row, started.id, typeName, cause)
  {
    TypeIff(typeName, started.jobType);
    hide TrimSpace, TypeName;
    assert Text(HandleError(started, cause)) == "handle " + typeName + " job " + started.id + ": " + Text(cause);
  }

  lemma MarkedEffect(w: World, j: JobState, started: JobState, a: Answers)
    requires started.id in w.table && a.save != Refused
    ensures var saved := Write(w, started, a.save, a.stamp);
            AfterMark(w, j, started, a).0 ==
            if a.save != Done then saved else
              var told := Tell(saved, started, Some(j.status));
              match a.handler
              case Some(cause) => Fail(told, started, HandleError(started, cause), a).0
              case None => Succeed(told, started, a).0
  {
    hide Write, Tell, Fail, Succeed, HandleError;
  }

  /** The world once the handler has returned and its outcome is dealt with. */
  lemma HandledEffect(w: World, row: JobRecord, started: JobState, typeName: string, a: Answers)
    requires Running(w, row, started, a) && NamesType(typeName, started.jobType) && IsValid(started.id)
    ensures var after := match a.handler
                         case Some(cause) => Fail(w, started, HandleError(started, cause), a).0
                         case None => Succeed(w, started, a).0;
            && after.table == w.table[started.id := RowAfter(row, started.id, typeName, a)]
            && after.list == ListAfter(w.list, row, started.id, a)
            && (forall other :: EventsOf(after, other) ==
                                EventsOf(w, other) + if other == started.id then EndObserved(row, a) else [])
  {
    match a.handler
    case Some(cause) => FailureBranch(w, row, started, typeName, cause, a);
    case None => SuccessBranch(w, row, started, typeName, a);
    hide Succeed, Fail, HandleError, StartedRow, EndedRow, NamesType, IsValid;
    assert w.table == w.table[started.id := StartedRow(row, a)];
  }

  lemma ToldEvents(w: World, v: World, started: JobState)
    requires v.events == w.events
    ensures var told := Tell(v, started, Some(Pending));
            forall id :: EventsOf(told, id) ==
                         EventsOf(w, id) + if id == started.id then [Event(Some(Pending), started.status)] else []
  {
  }

  lemma ToldIsRunning(w: World, id: string, a: Answers)
    requires PendingJob(w, id) && Starts(w.table[id], a) && a.save == Done
    ensures var started := StartedJob(JobAt(w, id), a);
            var told := Tell(w.(table := w.table[id := StartedRow(w.table[id], a)]), started, Some(Pending));
            && Running(told, w.table[id], started, a) && IsValid(id) && started.id == id
            && started.jobType == JobAt(w, id).jobType
            && told.table == w.table[id := StartedRow(w.table[id], a)] && told.list == w.list
  {
    LoadedAs(w, id);
    hide EventsOf, ToDomain, IsValid;
  }

  /** What the call leaves when its first update takes effect but is not acknowledged. */
  lemma UnacknowledgedStart(w: World, id: string, a: Answers)
    requires PendingJob(w, id) && Starts(w.table[id], a) && a.save != Done
    ensures Process(w, id, a).0 == w.(table := w.table[id := StartedRow(w.table[id], a)])
  {
    StartEffect(w, id, a);
    LoadedAs(w, id);
    PendingIs(w, id);
    hide PendingJob, JobAt, Process, AfterMark, Write, StartedRow;
    MarkedEffect(w, JobAt(w, id), StartedJob(JobAt(w, id), a), a);
  }

  lemma AcknowledgedStart(w: World, id: string, typeName: string, a: Answers)
    requires PendingJob(w, id) && NamesType(typeName, JobAt(w, id).jobType) && Starts(w.table[id], a) && a.save == Done
    ensures var row, after := w.table[id], Process(w, id, a).0;
            && after.table == w.table[id := RowAfter(row, id, typeName, a)]
            && after.list == ListAfter(w.list, row, id, a)
            && (forall other :: EventsOf(after, other) ==
                                EventsOf(w, other) +
                                  if other == id then StartObserved(row, a) + EndObserved(row, a) else [])
  {
    StartEffect(w, id, a);
    ToldIsRunning(w, id, a);
    PendingIs(w, id);
    var row, j := w.table[id], JobAt(w, id);
    var started := StartedJob(j, a);
    hide PendingJob, JobAt, Process, AfterMark, Write, Tell, EventsOf, StartedRow, Fail, Succeed, HandleError, NamesType,
         Running, RowAfter, ListAfter, EndObserved, StartObserved, StartedJob;
    MarkedEffect(w, j, started, a);
    var saved := w.(table := w.table[id := StartedRow(row, a)]);
    var told := Tell(saved, started, Some(Pending));
    ToldEvents(w, saved, started);
    HandledEffect(told, row, started, typeName, a);
    BothHalves(w, told, Process(w, id, a).0, id, row, RowAfter(row, id, typeName, a), a);
  }

  lemma PendingIs(w: World, id: string)
    requires PendingJob(w, id)
    ensures id in w.table && IsValid(id) && JobAt(w, id).status == Pending
    ensures forall a :: StartedJob(JobAt(w, id), a).status == Processing
                        && StartedJob(JobAt(w, id), a).id == JobAt(w, id).id
  {
  }

  lemma NotTold(row: JobRecord, id: string, typeName: string, list: seq<string>, a: Answers)
    requires a.save != Done && Starts(row, a)
    ensures RowAfter(row, id, typeName, a) == StartedRow(row, a) && ListAfter(list, row, id, a) == list
    ensures StartObserved(row, a) == EndObserved(row, a) == []
  {
  }

  /** The effect of the first half of the call, and then of the second. */
  lemma BothHalves(w: World, told: World, after: World, id: string, row: JobRecord, last: JobRecord, a: Answers)
    requires Starts(row, a) && a.save == Done
    requires told.table == w.table[id := StartedRow(row, a)] && after.table == told.table[id := last]
    requires forall other :: EventsOf(told, other) ==
                             EventsOf(w, other) + if other == id then [Event(Some(Pending), Processing)] else []
    requires forall other :: EventsOf(after, other) ==
                             EventsOf(told, other) + if other == id then EndObserved(row, a) else []
    ensures after.table == w.table[id := last]
    ensures forall other :: EventsOf(after, other) ==
                            EventsOf(w, other) + if other == id then StartObserved(row, a) + EndObserved(row, a) else []
  {
    hide EventsOf, EndObserved, StartedRow;
  }

  /** What one call of `ProcessJob.Execute` on a pending job does, whatever it is answered: to the row,
      to the list, and to the observer. */
  lemma CallEffect(w: World, id: string, typeName: string, a: Answers)
    requires PendingJob(w, id) && NamesType(typeName, JobAt(w, id).jobType)
    ensures var row, after := w.table[id], Process(w, id, a).0;
            && after.table == w.table[id := RowAfter(row, id, typeName, a)]
            && after.list == ListAfter(w.list, row, id, a)
            && (forall other :: EventsOf(after, other) ==
                                EventsOf(w, other) +
                                  if other == id then StartObserved(row, a) + EndObserved(row, a) else [])
  {
    hide PendingJob, JobAt, Process, EventsOf, NamesType, StartedRow, EndedRow;
    PendingIs(w, id);
    var row := w.table[id];
    if Starts(row, a) && a.save == Done {
      AcknowledgedStart(w, id, typeName, a);
    } else if Starts(row, a) {
      UnacknowledgedStart(w, id, a);
      NotTold(row, id, typeName, w.list, a);
      EventsKept(w, Process(w, id, a).0);
    } else {
      NoStartEffect(w, id, a);
    }
  }

  // ---------------------------------------------------------------- calls with nothing to process

  /** What a lookup says is missing or wrong. A row that is there loads, or the mapper's error is passed on. */
  lemma LookupIff(table: map<string, JobRecord>, id: string, reply: Reply, failure: Error)
    ensures var r := JobRepository.Lookup(table, id, reply, failure);
            if !InGrammar(id) then r.Err? && Only(r.error, InvalidID)
            else if reply != Done then r.Err? && forall k :: Is(r.error, k) <==> Is(failure, k)
            else if id !in table then r.Err? && Only(r.error, JobNotFound)
            else r.Ok? <==> ToDomain(table[id]).Ok?
  {
    IsValidIsGrammar(id);
    WrapsOnly(Wrap("", Sentinel(InvalidID)), InvalidID);
    WrapsOnly(Wrap("", Sentinel(JobNotFound)), JobNotFound);
    hide IsValid, InGrammar, ToDomain, Only;
  }

  /** What the errors of the writing calls and of a pop match: a refused or lost call passes its own
      error on, and the list's also says that the queue is unavailable, unless the context is over. */
  lemma StoreErrors(id: string, reply: Reply, stored: bool, failure: Error, k: Kind)
    ensures Matches(JobRepository.InsertError(reply, failure, stored), k) <==>
            if reply != Refused && stored then k == JobAlreadyExists else reply != Done && Is(failure, k)
    ensures Matches(JobRepository.UpdateError(reply, failure, stored), k) <==>
            if reply != Refused && !stored then k == JobNotFound else reply != Done && Is(failure, k)
    ensures Matches(JobQueue.PushError(id, reply, failure), k) <==>
            if !InGrammar(id) then k == InvalidID
            else reply != Done && (k == JobQueueUnavailable || Is(failure, k))
    ensures if Is(failure, ContextCanceled) || Is(failure, DeadlineExceeded) then JobQueue.PopError(failure) == failure
            else Is(JobQueue.PopError(failure), k) <==> k == JobQueueUnavailable || Is(failure, k)
  {
    IsValidIsGrammar(id);
    SentinelKinds(JobAlreadyExists, k);
    SentinelKinds(JobNotFound, k);
    SentinelKinds(InvalidID, k);
    IsThroughWrap("create job: ", failure, k);
    IsThroughWrap("update job: ", failure, k);
    IsThroughJoin(Sentinel(JobQueueUnavailable), failure, k);
    SentinelKinds(JobQueueUnavailable, k);
    hide Is, IsValid, InGrammar;
  }

  /** An ID outside the grammar, one without a row, and one whose row is not pending: the call changes
      nothing and says why. So a second delivery of a job that was started or has ended is harmless. */
  lemma NotPendingIsRefused(w: World, id: string, a: Answers)
    requires a.load == Done
    ensures var (after, err) := Process(w, id, a);
            && (!InGrammar(id) ==> after == w && err.Some? && Only(err.value, InvalidID))
            && (InGrammar(id) && id !in w.table ==> after == w && err.Some? && Only(err.value, JobNotFound))
            && (InGrammar(id) && id in w.table && ToDomain(w.table[id]).Ok?
                && ToDomain(w.table[id]).value.status != Pending
                ==> after == w && err.Some? && Only(err.value, InvalidTransition))
  {
    IsValidIsGrammar(id);
    WrappedOnly(Wrap("validate job ID: ", Sentinel(InvalidID)), InvalidID);
    WrappedOnly(Wrap("load job: ", Wrap("", Sentinel(JobNotFound))), JobNotFound);
    WrappedOnly(Wrap("mark job as processing: ", TransitionRefused()), InvalidTransition);
    hide IsValid, InGrammar, ToDomain, Only, AfterMark;
  }

  lemma WrappedOnly(e: Error, kind: Kind)
    requires e.Wrap? && (e.cause == Sentinel(kind) || (e.cause.Wrap? && e.cause.cause == Sentinel(kind)))
    ensures Only(e, kind)
  {
    if e.cause.Wrap? {
      WrapsOnly(e.cause, kind);
      forall k
        ensures Is(e, k) <==> k == kind
      {
        assert Is(e, k) <==> Is(e.cause, k);
      }
    } else {
      WrapsOnly(e, kind);
    }
  }

  // ---------------------------------------------------------------- CreateJob

  /** The text is a spelling of the type's name, with white space around it or not. */
  predicate Reads(text: string, t: Type) {
    match t
    case SendEmail => Spells(TrimSpace(text), "send_email")
    case ReportGeneration => Spells(TrimSpace(text), "report_generation")
    case DataCleanup => Spells(TrimSpace(text), "data_cleanup")
  }

  lemma ReadsIff(text: string, t: Type)
    ensures ParseType(text) == Ok(t) <==> Reads(text, t)
    ensures ParseType(text).Err? ==> Only(ParseType(text).error, InvalidType)
  {
    ParseTypeIff(text);
    if ParseType(text).Err? {
      WrapsOnly(ParseType(text).error, InvalidType);
    }
    hide ParseType, TrimSpace, Spells;
  }

  /** A request that nothing is wrong with. */
  predicate Proper(r: Request, id: string, t: Type) {
    Reads(r.typeName, t) && r.newID == Ok(id) && InGrammar(id) && FilledObject(r.payload) && r.now != 0
  }

  predicate Inserts(w: World, r: Request, id: string) {
    r.insert != Refused && id !in w.table
  }

  function NewRow(r: Request, id: string, typeName: string): JobRecord {
    JobRecord(id, typeName, "pending", r.payload, 0, 3, None, r.now, r.now, None, None)
  }

  function NewJob(r: Request, id: string, t: Type): JobState {
    JobState(id, t, Pending, r.payload, 0, 3, None, r.now, r.now, None, None)
  }

  lemma ProperIsNew(w: World, r: Request, id: string, t: Type)
    requires Proper(r, id, t)
    ensures Create(w, r) == Store(w, NewJob(r, id, t), r) && IsValid(id)
  {
    ReadsIff(r.typeName, t);
    TypeIff(TypeName(t), t);
    NewIff(id, TypeName(t), r.payload, r.now, t);
    IsValidIsGrammar(id);
    hide IsValid, InGrammar, ParseType, New, Reads, FilledObject, Store, TypeName;
  }

  lemma StoreResult(w: World, r: Request, id: string, t: Type)
    requires IsValid(id)
    ensures var (after, result) := Store(w, NewJob(r, id, t), r);
            && after.list == (if Inserts(w, r, id) && r.insert == Done && r.publish != Refused then [id] + w.list
                              else w.list)
            && (result.Ok? <==> Inserts(w, r, id) && r.insert == Done && r.publish == Done)
            && (result.Ok? ==> result == Ok(NewJob(r, id, t)))
  {
    hide IsValid, FromDomain, EventsOf;
  }

  lemma StoreTable(w: World, r: Request, id: string, t: Type, typeName: string)
    requires IsValid(id) && NamesType(typeName, t)
    ensures Store(w, NewJob(r, id, t), r).0.table ==
            if Inserts(w, r, id) then w.table[id := NewRow(r, id, typeName)] else w.table
  {
    StatusIff("pending", Pending);
    TypeIff(typeName, t);
    hide IsValid, EventsOf, StatusName, TypeName, NamesType;
  }

  lemma StoreEvents(w: World, r: Request, id: string, t: Type, other: string)
    requires IsValid(id)
    ensures EventsOf(Store(w, NewJob(r, id, t), r).0, other) == EventsOf(w, other) +
              if other == id && Inserts(w, r, id) && r.insert == Done then [Event(None, Pending)] else []
  {
    hide IsValid, FromDomain;
  }

  /** What a proper request does, whatever the table and the list answer. */
  lemma CreateEffect(w: World, r: Request, id: string, t: Type, typeName: string)
    requires Proper(r, id, t) && NamesType(typeName, t)
    ensures var (after, result) := Create(w, r);
            && after.table == (if Inserts(w, r, id) then w.table[id := NewRow(r, id, typeName)] else w.table)
            && after.list == (if Inserts(w, r, id) && r.insert == Done && r.publish != Refused then [id] + w.list
                              else w.list)
            && (forall other :: EventsOf(after, other) == EventsOf(w, other) +
                  if other == id && Inserts(w, r, id) && r.insert == Done then [Event(None, Pending)] else [])
            && (result.Ok? <==> Inserts(w, r, id) && r.insert == Done && r.publish == Done)
            && (result.Ok? ==> result == Ok(NewJob(r, id, t)))
  {
    hide Proper, IsValid, Store, Create, NamesType, NewRow, NewJob, Inserts, EventsOf;
    ProperIsNew(w, r, id, t);
    StoreResult(w, r, id, t);
    StoreTable(w, r, id, t, typeName);
    forall other
      ensures EventsOf(Store(w, NewJob(r, id, t), r).0, other) == EventsOf(w, other) +
                if other == id && Inserts(w, r, id) && r.insert == Done then [Event(None, Pending)] else []
    {
      StoreEvents(w, r, id, t, other);
    }
  }

  /** And what its error says: the failing call's own error, a key that exists, or an unavailable queue. */
  lemma CreateError(w: World, r: Request, id: string, t: Type, k: Kind)
    requires Proper(r, id, t) && Create(w, r).1.Err?
    ensures Is(Create(w, r).1.error, k) <==>
            if r.insert != Refused && id in w.table then k == JobAlreadyExists
            else if r.insert != Done then Is(r.failure, k)
            else k == JobQueueUnavailable || Is(r.failure, k)
  {
    ProperIsNew(w, r, id, t);
    WrappedTwice("persist job: ", "create job: ", r.failure, k);
    WrappedOnly(Wrap("persist job: ", Wrap("", Sentinel(JobAlreadyExists))), JobAlreadyExists);
    var unavailable := Error.Join(Sentinel(JobQueueUnavailable), r.failure);
    IsThroughJoin(Sentinel(JobQueueUnavailable), r.failure, k);
    IsThroughWrap("publish job to queue: ", unavailable, k);
    SentinelKinds(JobQueueUnavailable, k);
    hide Proper, IsValid, Is, InsertRow, Push, Tell, Create;
  }

  /** The first thing that is wrong with a request; an error of the ID generator is passed on. */
  lemma ImproperIsRefused(w: World, r: Request)
    requires forall id, t :: !Proper(r, id, t)
    ensures var (after, result) := Create(w, r);
            && after == w && result.Err?
            && if forall t :: !Reads(r.typeName, t) then Only(result.error, InvalidType)
               else if r.newID.Err? then forall k :: Is(result.error, k) <==> Is(r.newID.error, k)
               else if !InGrammar(r.newID.value) then Only(result.error, InvalidID)
               else if !FilledObject(r.payload) then Only(result.error, InvalidPayload)
               else Only(result.error, InvalidCreatedAt)
  {
    forall t
      ensures ParseType(r.typeName) == Ok(t) <==> Reads(r.typeName, t)
    {
      ReadsIff(r.typeName, t);
    }
    hide ParseType, New, TypeName, Store, Reads, InGrammar, FilledObject;
    match ParseType(r.typeName)
    case Err(e) =>
      ReadsIff(r.typeName, SendEmail);
      OnlyThroughWrap("validate job type: ", e, InvalidType);
    case Ok(t) =>
      assert Reads(r.typeName, t);
      if r.newID.Ok? {
        ImproperNew(r, r.newID.value, t);
      }
  }

  lemma OnlyThroughWrap(prefix: string, e: Error, kind: Kind)
    requires Only(e, kind)
    ensures Only(Wrap(prefix, e), kind)
  {
    forall k
      ensures Is(Wrap(prefix, e), k) <==> k == kind
    {
      assert Is(Wrap(prefix, e), k) <==> Is(e, k);
    }
  }

  lemma ImproperNew(r: Request, id: string, t: Type)
    requires Reads(r.typeName, t) && r.newID == Ok(id) && !Proper(r, id, t)
    ensures var made := New(id, TypeName(t), r.payload, r.now);
            && made.Err?
            && Only(Wrap("create job: ", made.error),
                    if !InGrammar(id) then InvalidID else if !FilledObject(r.payload) then InvalidPayload
                    else InvalidCreatedAt)
  {
    NewRefusedIff(id, TypeName(t), r.payload, r.now);
    TypeIff(TypeName(t), t);
    hide New, TypeName, NamesType, InGrammar, FilledObject, Only, Reads;
    var made := New(id, TypeName(t), r.payload, r.now);
    OnlyThroughWrap("create job: ", made.error, WrongInNew(id, TypeName(t), r.payload, r.now).value);
  }

  /** The name of a type in any mixture of capitals and small letters, ASCII white space on either side,
      an unused ID of the grammar, a filled object, a time, and two calls that succeed: the request
      returns a job of that type. */
  lemma WrittenRequestSucceeds(w: World, r: Request, id: string, t: Type, left: string, core: string, right: string,
                               name: string)
    requires r.typeName == left + core + right && AsciiBlank(left) && AsciiBlank(right)
    requires NamesType(name, t) && CaseAlike(core, name)
    requires r.newID == Ok(id) && InGrammar(id) && id !in w.table && FilledObject(r.payload) && r.now != 0
    requires r.insert == Done && r.publish == Done
    ensures Create(w, r).1 == Ok(NewJob(r, id, t))
  {
    ParsedAsWritten(left, core, right);
    ReadsIff(r.typeName, t);
    hide InGrammar, FilledObject, ParseType, Reads, Create, AsciiBlank, CaseAlike;
    CreateEffect(w, r, id, t, name);
  }
}
