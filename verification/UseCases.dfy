/** The use cases as the code runs them (internal/application/usecase), and what they have to do
    with the steps of the protocol.

The answers of the outside are arguments. Each method is proved against a function on what the
stores hold, and that function against a fixed script of protocol steps. */
module UseCases {
  import opened GoText
  import opened Errors
  import opened Ids
  import opened JobEntity
  import opened JobClass
  import opened Mapper
  import opened Executor
  import opened Protocol
  import opened Stores

  // ---------------------------------------------------------------- scripts

  /** What the outside answers during one call of `ProcessJob.Execute`. The stamps are the instants
      that the two updates put into `updated_at`. `failure` is the error value of whichever call
      fails: the first failing call is the last one made. */
  datatype Answers = Answers(
    load: Reply,
    begin: Time,
    save: Reply,
    stamp: Time,
    handler: Option<Error>,
    conclude: Time,
    saveOutcome: Reply,
    outcomeStamp: Time,
    publish: Reply,
    failure: Error
  )

  function ProcessScript(p: nat, a: Answers): seq<Action> {
    [Load(p, a.load), Begin(p, a.begin), Save(p, a.save, a.stamp), Report(p), Start(p), Finish(p, a.handler),
     Conclude(p, a.conclude), Save(p, a.saveOutcome, a.outcomeStamp), Report(p), Publish(p, a.publish)]
  }

  function CreateScript(p: nat, id: string, typeName: string, payload: Payload, now: Time,
                        insert: Reply, publish: Reply): seq<Action> {
    [Submit(id, typeName, payload, now), Insert(p, insert), Report(p), Publish(p, publish)]
  }

  lemma RunFrom(s: State, script: seq<Action>, k: nat)
    requires k < |script|
    ensures Run(s, script[k..]) == Run(Step(s, script[k]), script[k + 1..])
  {
    assert script[k..][1..] == script[k + 1..];
  }

  /** Not one of the actions of a script at this place. */
  predicate Passive(s: State, p: nat) {
    p < |s.procs| ==> s.procs[p].pc.Gone? || (s.procs[p].pc.Idle? && s.procs[p].role != Dispatching)
  }

  predicate OfProcess(a: Action, p: nat) {
    match a
    case Insert(q, _) => q == p
    case Report(q) => q == p
    case Publish(q, _) => q == p
    case Load(q, _) => q == p
    case Begin(q, _) => q == p
    case Save(q, _, _) => q == p
    case Start(q) => q == p
    case Finish(q, _) => q == p
    case Conclude(q, _) => q == p
    case _ => false
  }

  /** Once its process is at rest, the rest of a script changes nothing. */
  lemma {:induction false} RestIsStill(s: State, p: nat, rest: seq<Action>)
    requires Passive(s, p) && forall i :: 0 <= i < |rest| ==> OfProcess(rest[i], p)
    ensures Run(s, rest) == s
    decreases |rest|
  {
    if rest != [] {
      assert OfProcess(rest[0], p);
      assert Step(s, rest[0]) == s;
      RestIsStill(s, p, rest[1..]);
    }
  }

  // ---------------------------------------------------------------- what the stores hold

  datatype World = World(table: map<string, JobRecord>, list: seq<string>, events: map<string, seq<Event>>)

  function EventsOf(w: World, id: string): seq<Event> {
    if id in w.events then w.events[id] else []
  }

  /** The stores hold this world. */
  ghost predicate Show(repository: JobRepository, queue: JobQueue, observer: Observer, w: World)
    reads repository, queue, observer
  {
    && repository.Valid() && repository.rows == w.table
    && queue.list == w.list
    && forall id :: observer.Of(id) == EventsOf(w, id)
  }

  function Write(w: World, entity: JobState, reply: Reply, stamp: Time): World {
    w.(table := JobRepository.Updated(w.table, FromDomain(entity), reply, stamp))
  }

  /** A new row, about which the observer has heard nothing yet. */
  function InsertRow(w: World, entity: JobState, reply: Reply): World {
    if reply == Refused || entity.id in w.table then w
    else w.(table := w.table[entity.id := FromDomain(entity)], events := w.events[entity.id := EventsOf(w, entity.id)])
  }

  function Tell(w: World, entity: JobState, previous: Option<Status>): World {
    w.(events := w.events[entity.id := EventsOf(w, entity.id) + [Event(previous, entity.status)]])
  }

  function Push(w: World, id: string, reply: Reply): World {
    if IsValid(id) && reply != Refused then w.(list := [id] + w.list) else w
  }

  /** The part of a protocol state that the stores hold. */
  function View(s: State): World {
    World(map id <- s.jobs :: FromDomain(s.jobs[id].row), s.list, map id <- s.jobs :: s.jobs[id].events)
  }

  // ---------------------------------------------------------------- ProcessJob as a function

  /** `ProcessJob.Execute`: the world it leaves and the error it returns. */
  function Process(w: World, id: string, a: Answers): (World, Option<Error>) {
    if !IsValid(id) then (w, Some(Wrap("validate job ID: ", Sentinel(InvalidID))))
    else match JobRepository.Lookup(w.table, id, a.load, a.failure)
      case Err(e) => (w, Some(Wrap("load job: ", e)))
      case Ok(loaded) => AfterLoad(w, loaded, a)
  }

  /** The rest of `Execute`, with the loaded job. */
  function AfterLoad(w: World, loaded: JobState, a: Answers): (World, Option<Error>) {
    match MarkProcessing(loaded, a.begin)
    case Err(e) => (w, Some(Wrap("mark job as processing: ", e)))
    case Ok(started) => AfterMark(w, loaded, started, a)
  }

  function AfterMark(w: World, loaded: JobState, started: JobState, a: Answers): (World, Option<Error>) {
    var saved := Write(w, started, a.save, a.stamp);
    match JobRepository.UpdateError(a.save, a.failure, started.id in w.table)
    case Some(e) => (saved, Some(Wrap("persist processing status: ", e)))
    case None => RunHandler(Tell(saved, started, Some(loaded.status)), started, a)
  }

  /** From the executor's call on. */
  function RunHandler(w: World, started: JobState, a: Answers): (World, Option<Error>) {
    match a.handler
    case Some(cause) => Fail(w, started, HandleError(started, cause), a)
    case None => Succeed(w, started, a)
  }

  function Succeed(w: World, started: JobState, a: Answers): (World, Option<Error>) {
    match MarkSuccess(started, a.conclude)
    case Err(e) => (w, Some(Wrap("mark job as successful: ", e)))
    case Ok(done) => AfterSuccess(w, started, done, a)
  }

  function AfterSuccess(w: World, started: JobState, done: JobState, a: Answers): (World, Option<Error>) {
    var saved := Write(w, done, a.saveOutcome, a.outcomeStamp);
    match JobRepository.UpdateError(a.saveOutcome, a.failure, done.id in w.table)
    case Some(e) => (saved, Some(Wrap("persist successful status: ", e)))
    case None => (Tell(saved, done, Some(started.status)), None)
  }

  /** `handleExecutionFailure`. */
  function Fail(w: World, started: JobState, cause: Error, a: Answers): (World, Option<Error>) {
    match RecordFailure(started, a.conclude, Text(cause))
    case Err(e) => (w, Some(Error.Join(Wrap("execute job: ", cause), Wrap("record failure: ", e))))
    case Ok((next, outcome)) => AfterFailure(w, started, next, outcome, cause, a)
  }

  function AfterFailure(w: World, started: JobState, next: JobState, outcome: FailureOutcome, cause: Error, a: Answers)
    : (World, Option<Error>)
  {
    var saved := Write(w, next, a.saveOutcome, a.outcomeStamp);
    match JobRepository.UpdateError(a.saveOutcome, a.failure, next.id in w.table)
    case Some(e) => (saved, Some(Error.Join(Wrap("execute job: ", cause), Wrap("persist failure state: ", e))))
    case None => AfterReport(Tell(saved, next, Some(started.status)), next, outcome, cause, a)
  }

  function AfterReport(w: World, next: JobState, outcome: FailureOutcome, cause: Error, a: Answers)
    : (World, Option<Error>)
  {
    var executed := Wrap("execute job: ", cause);
    match outcome
    case TerminalFailure => (w, Some(Error.Join(Wrap("", Sentinel(JobRetriesExhausted)), executed)))
    case RetryScheduled =>
      var pushed := Push(w, next.id, a.publish);
      match JobQueue.PushError(next.id, a.publish, a.failure)
      case Some(e) => (pushed, Some(Error.Join(executed, Wrap("enqueue retry: ", e))))
      case None => (pushed, Some(Error.Join(Wrap("", Sentinel(JobRetryScheduled)), executed)))
  }

  // ---------------------------------------------------------------- CreateJob as a function

  /** The arguments of `CreateJob.Execute`, and what the ID generator, the clock, the table and the
      list answer. */
  datatype Request = Request(
    typeName: string,
    payload: Payload,
    newID: Result<string>,
    now: Time,
    insert: Reply,
    publish: Reply,
    failure: Error
  )

  /** `CreateJob.Execute`: the world it leaves, and the job or the error it returns. */
  function Create(w: World, r: Request): (World, Result<JobState>) {
    match ParseType(r.typeName)
    case Err(e) => (w, Err(Wrap("validate job type: ", e)))
    case Ok(jobType) =>
      match r.newID
      case Err(e) => (w, Err(Wrap("generate job ID: ", e)))
      case Ok(id) =>
        match New(id, TypeName(jobType), r.payload, r.now)
        case Err(e) => (w, Err(Wrap("create job: ", e)))
        case Ok(entity) => Store(w, entity, r)
  }

  function Store(w: World, entity: JobState, r: Request): (World, Result<JobState>) {
    var inserted := InsertRow(w, entity, r.insert);
    match JobRepository.InsertError(r.insert, r.failure, entity.id in w.table)
    case Some(e) => (inserted, Err(Wrap("persist job: ", e)))
    case None =>
      var pushed := Push(Tell(inserted, entity, None), entity.id, r.publish);
      match JobQueue.PushError(entity.id, r.publish, r.failure)
      case Some(e) => (pushed, Err(Wrap("publish job to queue: ", e)))
      case None => (pushed, Ok(entity))
  }

  // ---------------------------------------------------------------- the calls, seen by the world

  /** `GetByID`, `Create`, `Update`, `StatusPersisted` and `Enqueue`, each with the world it leaves. */
  class Ports {
    const repository: JobRepository
    const queue: JobQueue
    const observer: Observer

    constructor (repository: JobRepository, queue: JobQueue, observer: Observer)
      ensures this.repository == repository && this.queue == queue && this.observer == observer
    {
      this.repository, this.queue, this.observer := repository, queue, observer;
    }

    ghost predicate Hold(w: World)
      reads repository, queue, observer
    {
      Show(repository, queue, observer, w)
    }

    method Get(id: string, a: Answers, ghost w: World) returns (job: Job?, err: Option<Error>)
      requires Hold(w)
      ensures Job.Returned(JobRepository.Lookup(w.table, id, a.load, a.failure), job, err)
      ensures job != null ==> fresh(job) && id in w.table && job.id == id
    {
      job, err := repository.GetByID(id, a.load, a.failure);
    }

    method Create(entity: Job, reply: Reply, failure: Error, ghost w: World) returns (err: Option<Error>)
      requires Hold(w)
      modifies repository
      ensures Hold(InsertRow(w, entity.Value(), reply))
      ensures err == JobRepository.InsertError(reply, failure, entity.id in w.table)
    {
      err := repository.Create(entity, reply, failure);
    }

    method Update(entity: Job, reply: Reply, stamp: Time, failure: Error, ghost w: World) returns (err: Option<Error>)
      requires Hold(w)
      modifies repository
      ensures Hold(Write(w, entity.Value(), reply, stamp))
      ensures err == JobRepository.UpdateError(reply, failure, entity.id in w.table)
    {
      err := repository.Update(entity, reply, stamp, failure);
    }

    method StatusPersisted(entity: Job, previous: Option<Status>, ghost w: World)
      requires Hold(w)
      modifies observer
      ensures Hold(Tell(w, entity.Value(), previous))
    {
      observer.StatusPersisted(entity, previous);
    }

    method Enqueue(id: string, reply: Reply, failure: Error, ghost w: World) returns (err: Option<Error>)
      requires Hold(w)
      modifies queue
      ensures Hold(Push(w, id, reply))
      ensures err == JobQueue.PushError(id, reply, failure)
    {
      err := queue.Enqueue(id, reply, failure);
    }
  }

  // ---------------------------------------------------------------- ProcessJob as it runs

  class ProcessJob {
    const ports: Ports
    const executor: Executor.Dispatcher

    constructor (ports: Ports, executor: Executor.Dispatcher)
      ensures this.ports == ports && this.executor == executor
    {
      this.ports, this.executor := ports, executor;
    }

    method Execute(jobID: string, a: Answers, ghost w: World) returns (err: Option<Error>)
      requires ports.Hold(w)
      requires forall t: Type :: TypeName(t) in executor.handlers
      modifies ports.repository, ports.queue, ports.observer
      ensures ports.Hold(Process(w, jobID, a).0) && err == Process(w, jobID, a).1
    {
      hide IsValid, Coherent, HandleError, Text, ports.Hold, Succeed, Fail, Write, Tell;
      if !IsValid(jobID) {
        return Some(Wrap("validate job ID: ", Sentinel(InvalidID)));
      }

      var entity, loadError := ports.Get(jobID, a, w);
      if loadError.Some? {
        return Some(Wrap("load job: ", loadError.value));
      }

      var previousStatus := entity.status;
      var markError := entity.MarkProcessing(a.begin);
      if markError.Some? {
        return Some(Wrap("mark job as processing: ", markError.value));
      }
      ghost var started := entity.Value();

      var updateError := ports.Update(entity, a.save, a.stamp, a.failure, w);
      if updateError.Some? {
        return Some(Wrap("persist processing status: ", updateError.value));
      }
      ghost var saved := Write(w, started, a.save, a.stamp);
      ports.StatusPersisted(entity, Some(previousStatus), saved);
      ghost var told := Tell(saved, started, Some(previousStatus));

      var executionError := executor.Execute(entity.Value(), a.handler);
      if executionError.Some? {
        err := HandleExecutionFailure(entity, executionError.value, a, told);
      } else {
        err := HandleSuccess(entity, a, told);
      }
    }

    /** The rest of `Execute` after a handler that returned nil. */
    method HandleSuccess(entity: Job, a: Answers, ghost w: World) returns (err: Option<Error>)
      requires ports.Hold(w)
      modifies ports.repository, ports.queue, ports.observer, entity
      ensures var (after, result) := Succeed(w, old(entity.Value()), a);
              ports.Hold(after) && err == result
    {
      hide IsValid, Coherent, ports.Hold, EventsOf;
      var previousStatus := entity.status;
      var markError := entity.MarkSuccess(a.conclude);
      if markError.Some? {
        return Some(Wrap("mark job as successful: ", markError.value));
      }
      var updateError := ports.Update(entity, a.saveOutcome, a.outcomeStamp, a.failure, w);
      if updateError.Some? {
        return Some(Wrap("persist successful status: ", updateError.value));
      }
      ports.StatusPersisted(entity, Some(previousStatus), Write(w, entity.Value(), a.saveOutcome, a.outcomeStamp));
      err := None;
    }

    method HandleExecutionFailure(entity: Job, executionError: Error, a: Answers, ghost w: World)
      returns (err: Option<Error>)
      requires ports.Hold(w)
      modifies ports.repository, ports.queue, ports.observer, entity
      ensures var (after, result) := Fail(w, old(entity.Value()), executionError, a);
              ports.Hold(after) && err == result
    {
      hide IsValid, Coherent, ports.Hold, EventsOf, Text, TrimSpace;
      var previousStatus := entity.status;
      var executed := Wrap("execute job: ", executionError);
      var outcome := entity.RecordFailure(a.conclude, Text(executionError));
      if outcome.Err? {
        return Some(Error.Join(executed, Wrap("record failure: ", outcome.error)));
      }
      ghost var next := entity.Value();

      // The row must be pending by the time that anyone can pop the ID.
      var updateError := ports.Update(entity, a.saveOutcome, a.outcomeStamp, a.failure, w);
      if updateError.Some? {
        return Some(Error.Join(executed, Wrap("persist failure state: ", updateError.value)));
      }
      ghost var saved := Write(w, next, a.saveOutcome, a.outcomeStamp);
      ports.StatusPersisted(entity, Some(previousStatus), saved);

      match outcome.value
      case RetryScheduled =>
        var pushError := ports.Enqueue(entity.id, a.publish, a.failure, Tell(saved, next, Some(previousStatus)));
        if pushError.Some? {
          return Some(Error.Join(executed, Wrap("enqueue retry: ", pushError.value)));
        }
        return Some(Error.Join(Wrap("", Sentinel(JobRetryScheduled)), executed));
      case TerminalFailure =>
        return Some(Error.Join(Wrap("", Sentinel(JobRetriesExhausted)), executed));
    }
  }

  // ---------------------------------------------------------------- CreateJob as it runs

  class CreateJob {
    const ports: Ports

    constructor (ports: Ports)
      ensures this.ports == ports
    {
      this.ports := ports;
    }

    method Execute(r: Request, ghost w: World) returns (job: Job?, err: Option<Error>)
      requires ports.Hold(w)
      modifies ports.repository, ports.queue, ports.observer
      ensures var (after, result) := Create(w, r);
              ports.Hold(after) && Job.Returned(result, job, err)
    {
      hide IsValid, Coherent, ports.Hold, EventsOf, ParseType, ValidatePayload, TypeOfName, Push;
      var jobType := ParseType(r.typeName);
      if jobType.Err? {
        return null, Some(Wrap("validate job type: ", jobType.error));
      }
      if r.newID.Err? {
        return null, Some(Wrap("generate job ID: ", r.newID.error));
      }
      var entity, newError := Job.Make(r.newID.value, TypeName(jobType.value), r.payload, r.now);
      if newError.Some? {
        return null, Some(Wrap("create job: ", newError.value));
      }
      ghost var made := entity.Value();

      var insertError := ports.Create(entity, r.insert, r.failure, w);
      if insertError.Some? {
        return null, Some(Wrap("persist job: ", insertError.value));
      }
      ghost var inserted := InsertRow(w, made, r.insert);
      ports.StatusPersisted(entity, None, inserted);

      var pushError := ports.Enqueue(entity.id, r.publish, r.failure, Tell(inserted, made, None));
      if pushError.Some? {
        return null, Some(Wrap("publish job to queue: ", pushError.value));
      }
      return entity, None;
    }
  }

  // ---------------------------------------------------------------- GetJob

  /** `GetJob.Execute`: the job that the table holds under the ID in this text, or the error. */
  function Get(table: map<string, JobRecord>, id: string, reply: Reply, failure: Error): Result<JobState> {
    match ParseID(id)
    case Err(e) => Err(Wrap("validate job ID: ", e))
    case Ok(jobID) =>
      match JobRepository.Lookup(table, jobID, reply, failure)
      case Err(e) => Err(Wrap("get job: ", e))
      case Ok(j) => Ok(j)
  }

  class GetJob {
    const repository: JobRepository

    constructor (repository: JobRepository)
      ensures this.repository == repository
    {
      this.repository := repository;
    }

    method Execute(id: string, reply: Reply, failure: Error) returns (job: Job?, err: Option<Error>)
      requires repository.Valid()
      ensures Job.Returned(Get(repository.rows, id, reply, failure), job, err)
    {
      var jobID := ParseID(id);
      if jobID.Err? {
        return null, Some(Wrap("validate job ID: ", jobID.error));
      }
      job, err := repository.GetByID(jobID.value, reply, failure);
      if err.Some? {
        return null, Some(Wrap("get job: ", err.value));
      }
    }
  }
}
