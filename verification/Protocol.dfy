/** The job protocol as a step system: API calls, queue dispatchers and workers around one table
    and one list.

Every process stops between any two calls to the outside, so each action below is one such call
(or one reading of the clock) and any interleaving is a sequence of actions. What the outside
answers is part of the action. Any number of API calls, dispatchers and workers may run, and
new ones may join at any time.

Assumed of the outside: a call takes effect at once or not at all; a push adds its ID at most once;
a pop gives an element to at most one caller; handlers only read the job they are given. An update
writes `updated_at` as the record has it, or puts a later instant of its own there, whatever the
column held before. */
module Protocol {
  import opened Errors
  import opened Ids
  import opened JobEntity
  import opened Executor

  /** The answer to a call. `Refused`: an error and no effect. `Unacknowledged`: the call took
      effect, but the caller sees an error. */
  datatype Reply = Done | Refused | Unacknowledged

  /** One call of the executor for a job. */
  datatype Attempt = Unfinished | Succeeded | Failure(reason: string)

  /** One call of the lifecycle observer. */
  datatype Event = Event(previous: Option<Status>, current: Status)

  /** Why a job was left behind. */
  datatype Fault = CallFailed | ReplyLost | TransitionFault | Dropped | Stopped

  /** A table row, with the history of its job. No process reads the history. */
  datatype Entry = Entry(
    row: JobState,
    attempts: seq<Attempt>,
    persisted: seq<Status>,
    events: seq<Event>,
    faults: seq<Fault>,
    settled: bool
  )

  /** What follows the observer call. */
  datatype Next = ThenExecute | ThenPublish | ThenReturn

  /** Where a process is. The entity is its private copy. `known` is the row as the process last
      read or wrote it: of it, the code keeps the status only. */
  datatype Pc =
    | Idle
    | Gone
    | Creating(entity: JobState)
    | Reporting(known: Option<JobState>, entity: JobState, next: Next)
    | Publishing(entity: JobState)
    | Holding(id: string)
    | Loading(id: string)
    | Loaded(entity: JobState)
    | Saving(before: JobState, entity: JobState, next: Next)
    | Starting(entity: JobState)
    | Running(entity: JobState)
    | Concluding(entity: JobState, failure: Option<string>)

  datatype Role = Api | Dispatching | Working

  /** `taken` and `given` are the IDs a dispatcher received from the list and handed to workers. */
  datatype Proc = Proc(role: Role, pc: Pc, taken: seq<string>, given: seq<string>)

  /** The list is pushed at the front and popped at the back. `pushed` and `popped` are histories. */
  datatype State = State(
    jobs: map<string, Entry>,
    list: seq<string>,
    procs: seq<Proc>,
    pushed: seq<string>,
    popped: seq<string>
  )

  const EMPTY: State := State(map[], [], [], [], [])

  datatype Action =
    | Submit(id: string, typeName: string, payload: Payload, now: Time)
    | Enlist(role: Role)
    | Insert(p: nat, reply: Reply)
    | Report(p: nat)
    | Publish(p: nat, reply: Reply)
    | Pop(p: nat, reply: Reply)
    | HandOver(p: nat, worker: nat)
    | Cancel(p: nat)
    | Load(p: nat, reply: Reply)
    | Begin(p: nat, now: Time)
    | Save(p: nat, reply: Reply, stamp: Time)
    | Start(p: nat)
    | Finish(p: nat, answer: Option<Error>)
    | Conclude(p: nat, now: Time)
    | Crash(p: nat)

  // ---------------------------------------------------------------- building blocks

  function SetPc(s: State, p: nat, pc: Pc): State
    requires p < |s.procs|
  {
    s.(procs := s.procs[p := s.procs[p].(pc := pc)])
  }

  /** A worker returns to its receive loop; the others are finished. */
  function RestOf(role: Role): Pc {
    if role == Working then Idle else Gone
  }

  function Move(s: State, p: nat, pc: Pc, id: string, entry: Entry): State
    requires p < |s.procs|
  {
    SetPc(s, p, pc).(jobs := s.jobs[id := entry])
  }

  /** The process goes to `pc` without having passed the job on. */
  function Lose(s: State, p: nat, pc: Pc, id: string, fault: Fault): State
    requires p < |s.procs|
  {
    if id in s.jobs then
      Move(s, p, pc, id, s.jobs[id].(faults := s.jobs[id].faults + [fault]))
    else
      SetPc(s, p, pc)
  }

  /** What an UPDATE leaves in `updated_at`: the time of the record, or the later instant `stamp` that
      the database layer puts there instead. What the column held before plays no part. */
  function StampedAt(written: Time, stamp: Time): Time {
    if stamp != ZERO_TIME && written < stamp then stamp else written
  }

  /** The columns that an UPDATE writes; the others keep the value of the row. */
  function Overwrite(row: JobState, entity: JobState, stamp: Time): JobState {
    row.(status := entity.status, retryCount := entity.retryCount, maxRetries := entity.maxRetries,
         lastError := entity.lastError, updatedAt := StampedAt(entity.updatedAt, stamp),
         startedAt := entity.startedAt, completedAt := entity.completedAt)
  }

  /** The job a process is responsible for: from the insert or the pop until it passes the ID on or
      returns. */
  function Holds(pc: Pc): Option<string> {
    match pc
    case Idle => None
    case Gone => None
    case Creating(_) => None
    case Reporting(_, entity, _) => Some(entity.id)
    case Publishing(entity) => Some(entity.id)
    case Holding(id) => Some(id)
    case Loading(id) => Some(id)
    case Loaded(entity) => Some(entity.id)
    case Saving(_, entity, _) => Some(entity.id)
    case Starting(entity) => Some(entity.id)
    case Running(entity) => Some(entity.id)
    case Concluding(entity, _) => Some(entity.id)
  }

  predicate IsFinalReport(pc: Pc) {
    pc.Reporting? && pc.next == ThenReturn
  }

  // ---------------------------------------------------------------- the steps

  /** `CreateJob.Execute` up to the insert. A job that `New` refuses changes nothing. */
  function StepSubmit(s: State, id: string, typeName: string, payload: Payload, now: Time): State {
    match New(id, typeName, payload, now)
    case Ok(entity) => s.(procs := s.procs + [Proc(Api, Creating(entity), [], [])])
    case Err(_) => s
  }

  function StepEnlist(s: State, role: Role): State {
    if role == Api then s else s.(procs := s.procs + [Proc(role, Idle, [], [])])
  }

  /** `repository.Create`: a duplicate key is refused. */
  function StepInsert(s: State, p: nat, reply: Reply): State {
    if p >= |s.procs| || !s.procs[p].pc.Creating? then s else
      var entity := s.procs[p].pc.entity;
      if reply == Refused || entity.id in s.jobs then
        SetPc(s, p, Gone)
      else
        var entry := Entry(entity, [], [entity.status], [], [], false);
        if reply == Done then
          Move(s, p, Reporting(None, entity, ThenPublish), entity.id, entry)
        else
          Move(s, p, Gone, entity.id, entry.(faults := [ReplyLost]))
  }

  /** `StatusPersisted`, and the branch after it. */
  function StepReport(s: State, p: nat): State {
    if p >= |s.procs| || !s.procs[p].pc.Reporting? || s.procs[p].pc.entity.id !in s.jobs then s else
      var Proc(role, Reporting(known, entity, next), _, _) := s.procs[p];
      var id := entity.id;
      var previous := if known.None? then None else Some(known.value.status);
      var entry := s.jobs[id].(events := s.jobs[id].events + [Event(previous, entity.status)]);
      match next
      case ThenExecute => Move(s, p, Starting(entity), id, entry)
      case ThenPublish => Move(s, p, Publishing(entity), id, entry)
      case ThenReturn => Move(s, p, RestOf(role), id, entry.(settled := true))
  }

  /** `Enqueue`, by the API or by a worker that schedules a retry. */
  function StepPublish(s: State, p: nat, reply: Reply): State {
    if p >= |s.procs| || !s.procs[p].pc.Publishing? then s else
      var id := s.procs[p].pc.entity.id;
      var rest := RestOf(s.procs[p].role);
      if !IsValid(id) || reply == Refused then
        Lose(s, p, rest, id, CallFailed)
      else
        SetPc(s, p, rest).(list := [id] + s.list, pushed := s.pushed + [id])
  }

  /** `Dequeue`. On an empty list the call blocks, or fails without effect. */
  function StepPop(s: State, p: nat, reply: Reply): State {
    if p >= |s.procs| || s.procs[p].role != Dispatching || !s.procs[p].pc.Idle? then s
    else if s.list == [] || reply == Refused then s
    else
      var n := |s.list| - 1;
      var raw := s.list[n];
      var popped := s.(list := s.list[..n], popped := s.popped + [raw]);
      if reply == Unacknowledged then
        Lose(popped, p, Idle, raw, ReplyLost)
      else match ParseID(raw)
        case Err(_) => Lose(popped, p, Idle, raw, CallFailed)
        case Ok(id) =>
          popped.(procs := s.procs[p := s.procs[p].(pc := Holding(id), taken := s.procs[p].taken + [id])])
  }

  /** The send on the jobs channel meets a worker's receive. */
  function StepHandOver(s: State, p: nat, worker: nat): State {
    if p >= |s.procs| || worker >= |s.procs| || !s.procs[p].pc.Holding?
       || s.procs[worker].role != Working || !s.procs[worker].pc.Idle? then s
    else
      var id := s.procs[p].pc.id;
      SetPc(s.(procs := s.procs[p := s.procs[p].(pc := Idle, given := s.procs[p].given + [id])]),
            worker, Loading(id))
  }

  /** A dispatcher sees the cancelled context. */
  function StepCancel(s: State, p: nat): State {
    if p >= |s.procs| || s.procs[p].role != Dispatching then s
    else if s.procs[p].pc.Holding? then Lose(s, p, Gone, s.procs[p].pc.id, Dropped)
    else SetPc(s, p, Gone)
  }

  /** The ID check of `ProcessJob.Execute`, and `GetByID`. */
  function StepLoad(s: State, p: nat, reply: Reply): State {
    if p >= |s.procs| || !s.procs[p].pc.Loading? then s else
      var id := s.procs[p].pc.id;
      if !IsValid(id) || reply != Done || id !in s.jobs then
        Lose(s, p, RestOf(s.procs[p].role), id, CallFailed)
      else
        SetPc(s, p, Loaded(s.jobs[id].row))
  }

  function StepBegin(s: State, p: nat, now: Time): State {
    if p >= |s.procs| || !s.procs[p].pc.Loaded? then s else
      var entity := s.procs[p].pc.entity;
      match MarkProcessing(entity, now)
      case Ok(next) => SetPc(s, p, Saving(entity, next, ThenExecute))
      case Err(_) => Lose(s, p, RestOf(s.procs[p].role), entity.id, TransitionFault)
  }

  /** `repository.Update`. The statement names the ID only, and not what the row should hold. */
  function StepSave(s: State, p: nat, reply: Reply, stamp: Time): State {
    if p >= |s.procs| || !s.procs[p].pc.Saving? then s else
      var Proc(role, Saving(before, entity, next), _, _) := s.procs[p];
      var id := entity.id;
      if reply == Refused || id !in s.jobs then
        Lose(s, p, RestOf(role), id, CallFailed)
      else
        var entry := s.jobs[id].(row := Overwrite(s.jobs[id].row, entity, stamp),
                                 persisted := s.jobs[id].persisted + [entity.status]);
        if reply == Done then
          Move(s, p, Reporting(Some(before), entity, next), id, entry)
        else if next == ThenReturn then
          Move(s, p, RestOf(role), id, entry.(settled := true))
        else
          Move(s, p, RestOf(role), id, entry.(faults := entry.faults + [ReplyLost]))
  }

  function StepStart(s: State, p: nat): State {
    if p >= |s.procs| || !s.procs[p].pc.Starting? || s.procs[p].pc.entity.id !in s.jobs then s else
      var entity := s.procs[p].pc.entity;
      var entry := s.jobs[entity.id];
      Move(s, p, Running(entity), entity.id, entry.(attempts := entry.attempts + [Unfinished]))
  }

  /** The text that `RecordFailure` is given. */
  function FailureText(entity: JobState, cause: Error): string {
    Text(HandleError(entity, cause))
  }

  /** The handler returns. */
  function StepFinish(s: State, p: nat, answer: Option<Error>): State {
    if p >= |s.procs| || !s.procs[p].pc.Running? || s.procs[p].pc.entity.id !in s.jobs
       || s.jobs[s.procs[p].pc.entity.id].attempts == [] then s
    else
      var entity := s.procs[p].pc.entity;
      var entry := s.jobs[entity.id];
      var failure := if answer.None? then None else Some(FailureText(entity, answer.value));
      var attempt := if failure.None? then Succeeded else Failure(failure.value);
      Move(s, p, Concluding(entity, failure), entity.id,
           entry.(attempts := entry.attempts[|entry.attempts| - 1 := attempt]))
  }

  /** `MarkSuccess` or `RecordFailure`. */
  function StepConclude(s: State, p: nat, now: Time): State {
    if p >= |s.procs| || !s.procs[p].pc.Concluding? then s else
      var Proc(role, Concluding(entity, failure), _, _) := s.procs[p];
      match failure
      case None => (
        match MarkSuccess(entity, now)
        case Ok(next) => SetPc(s, p, Saving(entity, next, ThenReturn))
        case Err(_) => Lose(s, p, RestOf(role), entity.id, TransitionFault))
      case Some(reason) => (
        match RecordFailure(entity, now, reason)
        case Ok((next, outcome)) =>
          SetPc(s, p, Saving(entity, next, if outcome == RetryScheduled then ThenPublish else ThenReturn))
        case Err(_) => Lose(s, p, RestOf(role), entity.id, TransitionFault))
  }

  /** The process stops for good, wherever it is. */
  function StepCrash(s: State, p: nat): State {
    if p >= |s.procs| then s
    else match Holds(s.procs[p].pc)
      case None => SetPc(s, p, Gone)
      case Some(id) =>
        if IsFinalReport(s.procs[p].pc) && id in s.jobs then
          Move(s, p, Gone, id, s.jobs[id].(settled := true))
        else
          Lose(s, p, Gone, id, Stopped)
  }

  /** One action. An action that the state does not allow changes nothing. */
  function Step(s: State, a: Action): State {
    match a
    case Submit(id, typeName, payload, now) => StepSubmit(s, id, typeName, payload, now)
    case Enlist(role) => StepEnlist(s, role)
    case Insert(p, reply) => StepInsert(s, p, reply)
    case Report(p) => StepReport(s, p)
    case Publish(p, reply) => StepPublish(s, p, reply)
    case Pop(p, reply) => StepPop(s, p, reply)
    case HandOver(p, worker) => StepHandOver(s, p, worker)
    case Cancel(p) => StepCancel(s, p)
    case Load(p, reply) => StepLoad(s, p, reply)
    case Begin(p, now) => StepBegin(s, p, now)
    case Save(p, reply, stamp) => StepSave(s, p, reply, stamp)
    case Start(p) => StepStart(s, p)
    case Finish(p, answer) => StepFinish(s, p, answer)
    case Conclude(p, now) => StepConclude(s, p, now)
    case Crash(p) => StepCrash(s, p)
  }

  /** A run: any actions, in any order. */
  function Run(s: State, actions: seq<Action>): State
    decreases |actions|
  {
    if actions == [] then s else Run(Step(s, actions[0]), actions[1..])
  }
}
