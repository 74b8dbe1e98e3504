/** The use cases perform protocol steps, and what they return agrees with what they did. */
module UseCaseTheorems {
  import opened GoText
  import opened Errors
  import opened Ids
  import opened JobEntity
  import opened Mapper
  import opened Executor
  import opened Protocol
  import opened ProtocolInvariant
  import opened ProtocolSteps
  import opened Frames
  import opened UseCases

  // ---------------------------------------------------------------- one worker, step by step

  predicate WorkerAt(s: State, p: nat, pc: Pc) {
    p < |s.procs| && s.procs[p].role == Working && s.procs[p].pc == pc
  }

  /** No store sees a difference. */
  predicate Quietly(s: State, t: State) {
    && t.jobs.Keys == s.jobs.Keys && t.list == s.list
    && forall id <- s.jobs :: t.jobs[id].row == s.jobs[id].row && t.jobs[id].events == s.jobs[id].events
  }

  lemma QuietView(s: State, t: State)
    requires Quietly(s, t)
    ensures View(t) == View(s)
  {
  }

  /** A move of a process shows in the stores as the new row and the new events of its job. */
  lemma MoveView(s: State, p: nat, pc: Pc, id: string, entry: Entry)
    requires p < |s.procs|
    ensures View(Move(s, p, pc, id, entry)) ==
            World(View(s).table[id := FromDomain(entry.row)], s.list, View(s).events[id := entry.events])
  {
    var t := Move(s, p, pc, id, entry);
    assert View(t).table == View(s).table[id := FromDomain(entry.row)];
    assert View(t).events == View(s).events[id := entry.events];
  }

  lemma MoveViewSame(s: State, p: nat, pc: Pc, id: string, entry: Entry)
    requires p < |s.procs| && id in s.jobs
    requires entry.row == s.jobs[id].row && entry.events == s.jobs[id].events
    ensures View(Move(s, p, pc, id, entry)) == View(s)
  {
    QuietView(s, Move(s, p, pc, id, entry));
  }

  lemma LoseView(s: State, p: nat, pc: Pc, id: string, fault: Fault)
    requires p < |s.procs|
    ensures View(Lose(s, p, pc, id, fault)) == View(s)
  {
    hide View, Move;
    if id in s.jobs {
      MoveViewSame(s, p, pc, id, s.jobs[id].(faults := s.jobs[id].faults + [fault]));
    } else {
      QuietView(s, SetPc(s, p, pc));
    }
  }

  /** The stored row and events of a job, as the world has them. */
  lemma ViewAt(s: State, id: string)
    ensures id in View(s).table <==> id in s.jobs
    ensures id in s.jobs ==> View(s).table[id] == FromDomain(s.jobs[id].row) && EventsOf(View(s), id) == s.jobs[id].events
  {
  }

  lemma EntryLoads(id: string, e: Entry)
    requires EntryOk(id, e)
    ensures ToDomain(FromDomain(e.row)) == Ok(e.row)
  {
    hide Stored, AttemptsFit, Chain, Path, ToDomain;
    StoredRoundTrip(e.row);
  }

  // ---------------------------------------------------------------- the rest of a call

  /** What `Execute` still does to the stores, and what it returns, from where its worker is. */
  function Rest(w: World, pc: Pc, a: Answers): (World, Option<Error>) {
    match pc
    case Loading(id) => Process(w, id, a)
    case Loaded(entity) => AfterLoad(w, entity, a)
    case Saving(before, entity, ThenExecute) => AfterMark(w, before, entity, a)
    case Saving(before, entity, next) => RestOfUpdate(w, before, entity, next, a)
    case Reporting(Some(known), entity, next) => RestOfReport(Tell(w, entity, Some(known.status)), entity, next, a)
    case Publishing(entity) => RestOfReport(w, entity, ThenPublish, a)
    case Starting(entity) => RunHandler(w, entity, a)
    case Running(entity) => RunHandler(w, entity, a)
    case Concluding(entity, _) => RunHandler(w, entity, a)
    case _ => (w, None)
  }

  function OutcomeOf(next: Next): FailureOutcome {
    if next == ThenPublish then RetryScheduled else TerminalFailure
  }

  function RestOfUpdate(w: World, before: JobState, entity: JobState, next: Next, a: Answers): (World, Option<Error>) {
    match a.handler
    case None => AfterSuccess(w, before, entity, a)
    case Some(cause) => AfterFailure(w, before, entity, OutcomeOf(next), HandleError(entity, cause), a)
  }

  function RestOfReport(w: World, entity: JobState, next: Next, a: Answers): (World, Option<Error>) {
    if next == ThenExecute then RunHandler(w, entity, a)
    else match a.handler
      case None => (w, None)
      case Some(cause) => AfterReport(w, entity, OutcomeOf(next), HandleError(entity, cause), a)
  }

  function HandlerText(entity: JobState, a: Answers): Option<string> {
    match a.handler
    case None => None
    case Some(cause) => Some(FailureText(entity, cause))
  }

  /** A worker with these answers can be here. */
  predicate OnCourse(pc: Pc, a: Answers) {
    match pc
    case Concluding(entity, failure) => failure == HandlerText(entity, a)
    case Saving(_, _, ThenPublish) => a.handler.Some?
    case Reporting(known, _, next) => known.Some? && (next == ThenPublish ==> a.handler.Some?)
    case Publishing(_) => a.handler.Some?
    case _ => true
  }

  /** The position of the next call in the script of the worker. */
  function Place(pc: Pc): nat {
    match pc
    case Loading(_) => 0
    case Loaded(_) => 1
    case Saving(_, _, next) => if next == ThenExecute then 2 else 7
    case Reporting(_, _, next) => if next == ThenExecute then 3 else 8
    case Starting(_) => 4
    case Running(_) => 5
    case Concluding(_, _) => 6
    case Publishing(_) => 9
    case _ => 10
  }

  /** The job is stored under this ID, and loads. */
  predicate Known(s: State, id: string) {
    && id in s.jobs && IsValid(id) && s.jobs[id].row.id == id
    && ToDomain(FromDomain(s.jobs[id].row)) == Ok(s.jobs[id].row)
  }

  lemma HeldIsKnown(s: State, p: nat, id: string)
    requires Inv(s) && p < |s.procs| && HeldBy(s.procs[p], id)
    ensures Known(s, id) && (s.procs[p].pc.Running? ==> s.jobs[id].attempts != [])
  {
    hide Inv, EntryOk, IsValid, RoleOk, HandsOk, ToDomain, Coherent, Mirrors, CaughtUp, DueWrite, DueReport;
    ProcFacts(s, p);
    EntryIDIsValid(id, s.jobs[id]);
    EntryLoads(id, s.jobs[id]);
  }

  /** From `s` to `t` the worker has made its next call: what was left of `Execute` is what is left now,
      or, if the worker has returned, nothing. */
  predicate GoesOn(s: State, t: State, p: nat, a: Answers)
    requires p < |s.procs|
  {
    && p < |t.procs| && t.procs[p].role == s.procs[p].role
    && if t.procs[p].pc == Idle then Rest(View(s), s.procs[p].pc, a).0 == View(t)
       else
         && Holds(t.procs[p].pc) == Holds(s.procs[p].pc) && OnCourse(t.procs[p].pc, a)
         && Place(t.procs[p].pc) == Place(s.procs[p].pc) + 1 < 10
         && Rest(View(t), t.procs[p].pc, a) == Rest(View(s), s.procs[p].pc, a)
  }

  lemma LosePc(s: State, p: nat, pc: Pc, id: string, fault: Fault)
    requires p < |s.procs|
    ensures Lose(s, p, pc, id, fault).procs == s.procs[p := s.procs[p].(pc := pc)]
  {
  }

  lemma SetPcView(s: State, p: nat, pc: Pc)
    requires p < |s.procs|
    ensures View(SetPc(s, p, pc)) == View(s)
  {
    QuietView(s, SetPc(s, p, pc));
  }

  /** The worker changes place only. */
  lemma PlaceGoesOn(s: State, p: nat, pc: Pc, a: Answers)
    requires p < |s.procs| && pc != Idle && Holds(pc) == Holds(s.procs[p].pc) && OnCourse(pc, a)
    requires Place(pc) == Place(s.procs[p].pc) + 1 < 10
    requires Rest(View(s), pc, a) == Rest(View(s), s.procs[p].pc, a)
    ensures GoesOn(s, SetPc(s, p, pc), p, a)
  {
    hide Rest, View, OnCourse, Place, Holds;
    SetPcView(s, p, pc);
  }

  /** The worker changes place, and the history of its job. */
  lemma HistoryGoesOn(s: State, p: nat, pc: Pc, id: string, entry: Entry, a: Answers)
    requires p < |s.procs| && pc != Idle && Holds(pc) == Holds(s.procs[p].pc) && OnCourse(pc, a)
    requires Place(pc) == Place(s.procs[p].pc) + 1 < 10
    requires id in s.jobs && entry.row == s.jobs[id].row && entry.events == s.jobs[id].events
    requires Rest(View(s), pc, a) == Rest(View(s), s.procs[p].pc, a)
    ensures GoesOn(s, Move(s, p, pc, id, entry), p, a)
  {
    hide Rest, View, OnCourse, Place, Holds, Move;
    MoveViewSame(s, p, pc, id, entry);
    MovedProc(s, p, pc, id, entry);
  }

  /** The worker returns, having changed nothing. */
  lemma LosingGoesOn(s: State, p: nat, id: string, fault: Fault, a: Answers)
    requires p < |s.procs| && Rest(View(s), s.procs[p].pc, a).0 == View(s)
    ensures GoesOn(s, Lose(s, p, Idle, id, fault), p, a)
  {
    hide Rest, View, OnCourse, Place, Holds, Lose;
    LoseView(s, p, Idle, id, fault);
    LosePc(s, p, Idle, id, fault);
  }

  lemma MovedProc(s: State, p: nat, pc: Pc, id: string, entry: Entry)
    requires p < |s.procs|
    ensures Move(s, p, pc, id, entry).procs == s.procs[p := s.procs[p].(pc := pc)]
  {
  }

  /** Loading, marking and running the handler leave the rest of the call as it was. */
  lemma RestStays(w: World, before: JobState, entity: JobState, failure: Option<string>, a: Answers)
    ensures Rest(w, Loaded(entity), a) == AfterLoad(w, entity, a)
    ensures Rest(w, Saving(before, entity, ThenExecute), a) == AfterMark(w, before, entity, a)
    ensures Rest(w, Starting(entity), a) == Rest(w, Running(entity), a) == Rest(w, Concluding(entity, failure), a)
            == RunHandler(w, entity, a)
  {
    hide AfterLoad, AfterMark, RunHandler;
  }

  /** And so does the recording of the outcome. */
  lemma RestOfOutcome(w: World, before: JobState, entity: JobState, next: Next, a: Answers)
    requires next != ThenExecute
    ensures Rest(w, Saving(before, entity, next), a) == RestOfUpdate(w, before, entity, next, a)
  {
    hide RestOfUpdate;
  }

  /** Where each place is in the script, and whose job it is. */
  lemma Stages(before: JobState, entity: JobState, a: Answers)
    ensures Place(Loaded(entity)) == 1 && Holds(Loaded(entity)) == Some(entity.id) && OnCourse(Loaded(entity), a)
    ensures Place(Starting(entity)) == 4 && Holds(Starting(entity)) == Some(entity.id)
    ensures Place(Running(entity)) == 5 && Holds(Running(entity)) == Some(entity.id) && OnCourse(Running(entity), a)
    ensures var concluding := Concluding(entity, HandlerText(entity, a));
            Place(concluding) == 6 && Holds(concluding) == Some(entity.id) && OnCourse(concluding, a)
    ensures forall next :: Holds(Saving(before, entity, next)) == Some(entity.id)
    ensures forall next :: Place(Saving(before, entity, next)) == if next == ThenExecute then 2 else 7
    ensures forall next :: (next == ThenPublish ==> a.handler.Some?) ==> OnCourse(Saving(before, entity, next), a)
  {
    hide HandlerText;
  }

  lemma LoadGoesOn(s: State, p: nat, id: string, a: Answers)
    requires WorkerAt(s, p, Loading(id)) && Known(s, id)
    ensures GoesOn(s, StepLoad(s, p, a.load), p, a)
  {
    hide IsValid, View, Lose, SetPc, ToDomain, AfterLoad, EventsOf, GoesOn;
    ViewAt(s, id);
    if a.load == Done {
      PlaceGoesOn(s, p, Loaded(s.jobs[id].row), a);
    } else {
      LosingGoesOn(s, p, id, CallFailed, a);
    }
  }

  lemma BeginGoesOn(s: State, p: nat, entity: JobState, a: Answers)
    requires WorkerAt(s, p, Loaded(entity))
    ensures GoesOn(s, StepBegin(s, p, a.begin), p, a)
  {
    hide Rest, View, Lose, SetPc, MarkProcessing, AfterMark, GoesOn;
    RestStays(View(s), entity, entity, None, a);
    if MarkProcessing(entity, a.begin).Ok? {
      BegunGoesOn(s, p, entity, a);
    } else {
      LosingGoesOn(s, p, entity.id, TransitionFault, a);
    }
  }

  lemma BegunGoesOn(s: State, p: nat, entity: JobState, a: Answers)
    requires WorkerAt(s, p, Loaded(entity)) && MarkProcessing(entity, a.begin).Ok?
    ensures GoesOn(s, SetPc(s, p, Saving(entity, MarkProcessing(entity, a.begin).value, ThenExecute)), p, a)
  {
    hide Rest, View, SetPc, MarkProcessing, AfterMark, GoesOn, Holds, Place, OnCourse;
    Stages(entity, entity, a);
    var next := MarkProcessing(entity, a.begin).value;
    KeepsID(entity, a.begin, "");
    RestStays(View(s), entity, entity, None, a);
    RestStays(View(s), entity, next, None, a);
    Stages(entity, next, a);
    PlaceGoesOn(s, p, Saving(entity, next, ThenExecute), a);
  }

  /** What an update shows in the stores. */
  lemma SaveShows(s: State, p: nat, before: JobState, entity: JobState, next: Next, reply: Reply, stamp: Time)
    requires WorkerAt(s, p, Saving(before, entity, next)) && entity.id in s.jobs
    ensures var t := StepSave(s, p, reply, stamp);
            && View(t) == Write(View(s), entity, reply, stamp)
            && WorkerAt(t, p, if reply == Done then Reporting(Some(before), entity, next) else Idle)
  {
    hide View, EventsOf, Lose, Overwrite, OverwriteRecord, TypeName, StatusName;
    var id := entity.id;
    var entry := Saved(s.jobs[id], entity, stamp);
    OverwriteMaps(s.jobs[id].row, entity, stamp);
    ViewAt(s, id);
    LoseView(s, p, Idle, id, CallFailed);
    LosePc(s, p, Idle, id, CallFailed);
    MoveView(s, p, Reporting(Some(before), entity, next), id, entry);
    MoveView(s, p, Idle, id, entry.(settled := true));
    MoveView(s, p, Idle, id, entry.(faults := entry.faults + [ReplyLost]));
    SameEvents(s, id);
  }

  lemma SameEvents(s: State, id: string)
    requires id in s.jobs
    ensures View(s).events[id := s.jobs[id].events] == View(s).events && View(s).list == s.list
  {
  }

  lemma SaveGoesOn(s: State, p: nat, before: JobState, entity: JobState, next: Next, a: Answers)
    requires WorkerAt(s, p, Saving(before, entity, next)) && entity.id in s.jobs
    requires OnCourse(Saving(before, entity, next), a)
    ensures next == ThenExecute ==> GoesOn(s, StepSave(s, p, a.save, a.stamp), p, a)
    ensures next != ThenExecute ==> GoesOn(s, StepSave(s, p, a.saveOutcome, a.outcomeStamp), p, a)
  {
    hide View, StepSave, Write, Tell, RunHandler, AfterReport, HandleError, EventsOf, Process, AfterLoad;
    ViewAt(s, entity.id);
    SaveShows(s, p, before, entity, next, a.save, a.stamp);
    SaveShows(s, p, before, entity, next, a.saveOutcome, a.outcomeStamp);
  }

  lemma SameTable(s: State, id: string)
    requires id in s.jobs
    ensures View(s).table[id := FromDomain(s.jobs[id].row)] == View(s).table && View(s).list == s.list
  {
  }

  /** What an observer call shows in the stores. */
  lemma TellShows(s: State, p: nat, pc: Pc, entity: JobState, previous: Option<Status>, entry: Entry)
    requires p < |s.procs| && entity.id in s.jobs && entry.row == s.jobs[entity.id].row
    requires entry.events == s.jobs[entity.id].events + [Event(previous, entity.status)]
    ensures View(Move(s, p, pc, entity.id, entry)) == Tell(View(s), entity, previous)
  {
    hide View, EventsOf, Move;
    ViewAt(s, entity.id);
    SameTable(s, entity.id);
    MoveView(s, p, pc, entity.id, entry);
  }

  lemma ReportGoesOn(s: State, p: nat, known: JobState, entity: JobState, next: Next, a: Answers)
    requires WorkerAt(s, p, Reporting(Some(known), entity, next)) && entity.id in s.jobs
    requires OnCourse(s.procs[p].pc, a)
    ensures GoesOn(s, StepReport(s, p), p, a)
  {
    hide View, Tell, RunHandler, AfterReport, HandleError, Process, AfterLoad, AfterMark, RestOfUpdate, Move;
    var entry := Reported(s, p);
    TellShows(s, p, Starting(entity), entity, Some(known.status), entry);
    TellShows(s, p, Publishing(entity), entity, Some(known.status), entry);
    TellShows(s, p, Idle, entity, Some(known.status), entry.(settled := true));
    NothingAfterTheEnd(View(s), entity, known, a);
    MovedProc(s, p, Starting(entity), entity.id, entry);
    MovedProc(s, p, Publishing(entity), entity.id, entry);
    MovedProc(s, p, Idle, entity.id, entry.(settled := true));
  }

  lemma NothingAfterTheEnd(w: World, entity: JobState, known: JobState, a: Answers)
    ensures Rest(w, Reporting(Some(known), entity, ThenReturn), a).0 == Tell(w, entity, Some(known.status))
  {
    hide Tell, HandleError;
  }

  lemma StartGoesOn(s: State, p: nat, entity: JobState, a: Answers)
    requires WorkerAt(s, p, Starting(entity)) && entity.id in s.jobs
    ensures GoesOn(s, StepStart(s, p), p, a)
  {
    hide Rest, View, RunHandler, Move, GoesOn, Holds, Place, OnCourse;
    Stages(entity, entity, a);
    RestStays(View(s), entity, entity, None, a);
    var e := s.jobs[entity.id];
    HistoryGoesOn(s, p, Running(entity), entity.id, e.(attempts := e.attempts + [Unfinished]), a);
  }

  lemma FinishGoesOn(s: State, p: nat, entity: JobState, a: Answers)
    requires WorkerAt(s, p, Running(entity)) && entity.id in s.jobs && s.jobs[entity.id].attempts != []
    ensures GoesOn(s, StepFinish(s, p, a.handler), p, a)
  {
    hide Rest, View, RunHandler, Move, FailureText, GoesOn, Holds, Place, OnCourse;
    Stages(entity, entity, a);
    var e := s.jobs[entity.id];
    var failure := HandlerText(entity, a);
    var attempt := if failure.None? then Succeeded else Failure(failure.value);
    RestStays(View(s), entity, entity, failure, a);
    HistoryGoesOn(s, p, Concluding(entity, failure), entity.id,
                  e.(attempts := e.attempts[|e.attempts| - 1 := attempt]), a);
  }

  lemma SuccessGoesOn(s: State, p: nat, entity: JobState, a: Answers)
    requires WorkerAt(s, p, Concluding(entity, None)) && a.handler == None
    ensures GoesOn(s, StepConclude(s, p, a.conclude), p, a)
  {
    hide Rest, View, Lose, SetPc, MarkSuccess, AfterSuccess, AfterFailure, GoesOn, Holds, Place, OnCourse;
    Stages(entity, entity, a);
    KeepsID(entity, a.conclude, "");
    RestStays(View(s), entity, entity, None, a);
    match MarkSuccess(entity, a.conclude)
    case Ok(next) =>
      RestOfOutcome(View(s), entity, next, ThenReturn, a);
      Stages(entity, next, a);
      PlaceGoesOn(s, p, Saving(entity, next, ThenReturn), a);
    case Err(_) => LosingGoesOn(s, p, entity.id, TransitionFault, a);
  }

  lemma FailureGoesOn(s: State, p: nat, entity: JobState, cause: Error, a: Answers)
    requires WorkerAt(s, p, Concluding(entity, Some(FailureText(entity, cause)))) && a.handler == Some(cause)
    ensures GoesOn(s, StepConclude(s, p, a.conclude), p, a)
  {
    hide Rest, View, Lose, SetPc, RecordFailure, AfterFailure, Text, HandleError, GoesOn, Holds, Place, OnCourse;
    Stages(entity, entity, a);
    var reason := FailureText(entity, cause);
    KeepsID(entity, a.conclude, reason);
    RestStays(View(s), entity, entity, Some(reason), a);
    match RecordFailure(entity, a.conclude, reason)
    case Ok((next, outcome)) =>
      var following := if outcome == RetryScheduled then ThenPublish else ThenReturn;
      SameHandling(entity, a.conclude, reason, cause);
      RestOfOutcome(View(s), entity, next, following, a);
      Stages(entity, next, a);
      PlaceGoesOn(s, p, Saving(entity, next, following), a);
    case Err(_) => LosingGoesOn(s, p, entity.id, TransitionFault, a);
  }

  lemma ConcludeGoesOn(s: State, p: nat, entity: JobState, a: Answers)
    requires WorkerAt(s, p, Concluding(entity, HandlerText(entity, a)))
    ensures GoesOn(s, StepConclude(s, p, a.conclude), p, a)
  {
    hide GoesOn, StepConclude;
    match a.handler
    case None => SuccessGoesOn(s, p, entity, a);
    case Some(cause) => FailureGoesOn(s, p, entity, cause, a);
  }

  lemma SameHandling(entity: JobState, at: Time, reason: string, cause: Error)
    requires RecordFailure(entity, at, reason).Ok?
    ensures HandleError(RecordFailure(entity, at, reason).value.0, cause) == HandleError(entity, cause)
  {
    hide TrimSpace;
  }

  /** What a push shows in the stores. */
  lemma PublishShows(s: State, p: nat, entity: JobState, reply: Reply)
    requires p < |s.procs| && s.procs[p].pc == Publishing(entity) && IsValid(entity.id)
    ensures var t := StepPublish(s, p, reply);
            && View(t) == Push(View(s), entity.id, reply)
            && p < |t.procs| && t.procs[p] == s.procs[p].(pc := RestOf(s.procs[p].role))
  {
    hide IsValid, Lose, View;
    LoseView(s, p, RestOf(s.procs[p].role), entity.id, CallFailed);
    LosePc(s, p, RestOf(s.procs[p].role), entity.id, CallFailed);
    PushedView(s, SetPc(s, p, RestOf(s.procs[p].role)), entity.id);
  }

  lemma PushedView(s: State, t: State, id: string)
    requires t.jobs == s.jobs
    ensures View(t.(list := [id] + s.list, pushed := s.pushed + [id])) == View(s).(list := [id] + View(s).list)
  {
  }

  lemma PublishGoesOn(s: State, p: nat, entity: JobState, a: Answers)
    requires WorkerAt(s, p, Publishing(entity)) && IsValid(entity.id) && a.handler.Some?
    ensures GoesOn(s, StepPublish(s, p, a.publish), p, a)
  {
    hide View, IsValid, StepPublish, HandleError, Push, Process, AfterLoad, AfterMark, RestOfUpdate;
    PublishShows(s, p, entity, a.publish);
  }

  /** Each call of the worker takes it one step further in `Execute`. */
  lemma CallGoesOn(s: State, p: nat, a: Answers)
    requires Inv(s) && p < |s.procs| && s.procs[p].role == Working
    requires Place(s.procs[p].pc) < 10 && OnCourse(s.procs[p].pc, a)
    ensures GoesOn(s, Step(s, ProcessScript(p, a)[Place(s.procs[p].pc)]), p, a)
  {
    hide Inv, GoesOn, Known, StepReport, StepPublish, StepLoad, StepBegin, StepSave, StepStart, StepFinish,
         StepConclude;
    var pc := s.procs[p].pc;
    HeldIsKnown(s, p, Holds(pc).value);
    KnownFacts(s, Holds(pc).value);
    match pc
    case Loading(id) => LoadGoesOn(s, p, id, a);
    case Loaded(entity) => BeginGoesOn(s, p, entity, a);
    case Saving(before, entity, next) => SaveGoesOn(s, p, before, entity, next, a);
    case Reporting(known, entity, next) => ReportGoesOn(s, p, known.value, entity, next, a);
    case Starting(entity) => StartGoesOn(s, p, entity, a);
    case Running(entity) => FinishGoesOn(s, p, entity, a);
    case Concluding(entity, _) => ConcludeGoesOn(s, p, entity, a);
    case Publishing(entity) => PublishGoesOn(s, p, entity, a);
  }

  lemma KnownFacts(s: State, id: string)
    requires Known(s, id)
    ensures id in s.jobs && IsValid(id)
  {
    hide IsValid, ToDomain;
  }

  // ---------------------------------------------------------------- Execute is its script

  lemma ScriptRests(s: State, p: nat, a: Answers, k: nat)
    requires Passive(s, p) && k <= |ProcessScript(p, a)|
    ensures Run(s, ProcessScript(p, a)[k..]) == s
  {
    hide Passive, Run;
    var script := ProcessScript(p, a);
    assert forall i :: 0 <= i < |script| ==> OfProcess(script[i], p);
    RestIsStill(s, p, script[k..]);
  }

  /** The rest of the script, from wherever the worker is, does the rest of `Execute`. */
  lemma {:induction false} ScriptIsRest(s: State, p: nat, a: Answers)
    requires Inv(s) && p < |s.procs| && s.procs[p].role == Working
    requires Place(s.procs[p].pc) < 10 && OnCourse(s.procs[p].pc, a)
    ensures View(Run(s, ProcessScript(p, a)[Place(s.procs[p].pc)..])) == Rest(View(s), s.procs[p].pc, a).0
    decreases 10 - Place(s.procs[p].pc)
  {
    hide Inv, Step, Run, View, Rest, OnCourse;
    var script := ProcessScript(p, a);
    var k := Place(s.procs[p].pc);
    RunFrom(s, script, k);
    var t := Step(s, script[k]);
    StepKeepsInv(s, script[k]);
    CallGoesOn(s, p, a);
    if t.procs[p].pc == Idle {
      ScriptRests(t, p, a, k + 1);
    } else {
      ScriptIsRest(t, p, a);
    }
  }

  lemma WholeCall(w: World, id: string, a: Answers)
    ensures Rest(w, Loading(id), a) == Process(w, id, a)
  {
    hide Process;
  }

  /** In every reachable state, and without interference, the ten steps of a worker that has just
      received an ID do to the stores exactly what `Execute` does, whatever the answers. */
  lemma ExecuteIsItsScript(before: seq<Action>, p: nat, id: string, a: Answers)
    requires WorkerAt(Run(EMPTY, before), p, Loading(id))
    ensures var s := Run(EMPTY, before);
            View(Run(s, ProcessScript(p, a))) == Process(View(s), id, a).0
  {
    hide Inv, Run, View, Process;
    var s := Run(EMPTY, before);
    var script := ProcessScript(p, a);
    EmptyInv();
    RunKeepsInv(EMPTY, before);
    assert script[Place(s.procs[p].pc)..] == script;
    ScriptIsRest(s, p, a);
    WholeCall(View(s), id, a);
  }

  // ---------------------------------------------------------------- CreateJob

  predicate ApiAt(s: State, p: nat, pc: Pc) {
    p < |s.procs| && s.procs[p].role == Api && s.procs[p].pc == pc
  }

  lemma InsertShows(s: State, p: nat, entity: JobState, reply: Reply)
    requires ApiAt(s, p, Creating(entity))
    ensures var t := StepInsert(s, p, reply);
            && View(t) == InsertRow(View(s), entity, reply)
            && ApiAt(t, p, if reply == Done && entity.id !in s.jobs then Reporting(None, entity, ThenPublish) else Gone)
            && (reply == Done ==> entity.id in t.jobs)
  {
    hide View, EventsOf;
    var entry := Entry(entity, [], [entity.status], [], [], false);
    ViewAt(s, entity.id);
    NoEventsYet(s, entity.id);
    MoveView(s, p, Reporting(None, entity, ThenPublish), entity.id, entry);
    MoveView(s, p, Gone, entity.id, entry.(faults := [ReplyLost]));
    QuietView(s, SetPc(s, p, Gone));
  }

  lemma NoEventsYet(s: State, id: string)
    ensures View(s).list == s.list
    ensures id !in s.jobs ==> EventsOf(View(s), id) == []
  {
  }

  /** The steps of an API call: none, when it has no type or no ID. */
  function CreateSteps(p: nat, r: Request): seq<Action> {
    if ParseType(r.typeName).Err? || r.newID.Err? then []
    else CreateScript(p, r.newID.value, TypeName(ParseType(r.typeName).value), r.payload, r.now, r.insert, r.publish)
  }

  /** In every reachable state, and without interference, the steps of a new API call do to the stores
      exactly what `Execute` does, whatever the request and the answers. */
  lemma CreateIsItsScript(before: seq<Action>, r: Request)
    ensures var s := Run(EMPTY, before);
            View(Run(s, CreateSteps(|s.procs|, r))) == Create(View(s), r).0
  {
    hide Run, View, Create, ParseType, CreateScript, TypeName;
    var s := Run(EMPTY, before);
    if ParseType(r.typeName).Ok? && r.newID.Ok? {
      SubmittedIsCreate(s, r);
    } else {
      NoSteps(s, r);
    }
  }

  lemma NoSteps(s: State, r: Request)
    requires ParseType(r.typeName).Err? || r.newID.Err?
    ensures Run(s, []) == s && Create(View(s), r).0 == View(s)
  {
    hide View, ParseType;
  }

  lemma SubmittedIsCreate(s: State, r: Request)
    requires ParseType(r.typeName).Ok? && r.newID.Ok?
    ensures View(Run(s, CreateScript(|s.procs|, r.newID.value, TypeName(ParseType(r.typeName).value),
                                     r.payload, r.now, r.insert, r.publish)))
            == Create(View(s), r).0
  {
    hide View, Step, New, ParseType, TypeName, InsertRow, Tell, Push;
    var p := |s.procs|;
    var typeName := TypeName(ParseType(r.typeName).value);
    var script := CreateScript(p, r.newID.value, typeName, r.payload, r.now, r.insert, r.publish);
    assert script[0..] == script;
    RunFrom(s, script, 0);
    SubmitEffect(s, r.newID.value, typeName, r.payload, r.now);
    var submitted := Step(s, script[0]);
    match New(r.newID.value, typeName, r.payload, r.now)
    case Err(_) => RestIsStill(submitted, p, script[1..]);
    case Ok(entity) => StoreIsItsScript(submitted, p, entity, r, script);
  }

  lemma SubmitEffect(s: State, id: string, typeName: string, payload: Payload, now: Time)
    ensures var t := Step(s, Submit(id, typeName, payload, now));
            && View(t) == View(s)
            && match New(id, typeName, payload, now)
               case Ok(entity) => ApiAt(t, |s.procs|, Creating(entity)) && IsValid(entity.id)
               case Err(_) => t == s
  {
    hide ValidatePayload, TypeOfName, IsValid;
  }

  lemma CreateRests(s: State, p: nat, r: Request, script: seq<Action>, k: nat)
    requires Passive(s, p) && |script| == 4 && 1 <= k <= 4
    requires script[1..] == [Insert(p, r.insert), Report(p), Publish(p, r.publish)]
    ensures Run(s, script[k..]) == s
  {
    hide Passive, Run;
    assert forall i :: 1 <= i < 4 ==> script[i] == script[1..][i - 1] && OfProcess(script[i], p);
    RestIsStill(s, p, script[k..]);
  }

  lemma StoreIsItsScript(s: State, p: nat, entity: JobState, r: Request, script: seq<Action>)
    requires ApiAt(s, p, Creating(entity)) && IsValid(entity.id) && |script| == 4
    requires script[1..] == [Insert(p, r.insert), Report(p), Publish(p, r.publish)]
    ensures View(Run(s, script[1..])) == Store(View(s), entity, r).0
  {
    hide Step, Run, View, EventsOf, InsertRow, Tell, Push, IsValid, StepInsert, StepReport, StepPublish;
    ViewAt(s, entity.id);
    assert script[1] == script[1..][0] && script[2] == script[1..][1] && script[3] == script[1..][2];
    RunFrom(s, script, 1);
    ApiCalls(s, p, r);
    InsertShows(s, p, entity, r.insert);
    var inserted := Step(s, script[1]);
    if r.insert != Done || entity.id in s.jobs {
      CreateRests(inserted, p, r, script, 2);
    } else {
      RunFrom(inserted, script, 2);
      ApiCalls(inserted, p, r);
      AnnounceShows(inserted, p, entity);
      var told := Step(inserted, script[2]);
      RunFrom(told, script, 3);
      ApiCalls(told, p, r);
      PublishShows(told, p, entity, r.publish);
      CreateRests(Step(told, script[3]), p, r, script, 4);
    }
  }

  lemma ApiCalls(s: State, p: nat, r: Request)
    ensures Step(s, Insert(p, r.insert)) == StepInsert(s, p, r.insert) && Step(s, Report(p)) == StepReport(s, p)
    ensures Step(s, Publish(p, r.publish)) == StepPublish(s, p, r.publish)
  {
    hide StepInsert, StepReport, StepPublish;
  }

  lemma AnnounceShows(s: State, p: nat, entity: JobState)
    requires ApiAt(s, p, Reporting(None, entity, ThenPublish)) && entity.id in s.jobs
    ensures var t := StepReport(s, p); View(t) == Tell(View(s), entity, None) && ApiAt(t, p, Publishing(entity))
  {
    hide View, Tell;
    TellShows(s, p, Publishing(entity), entity, None, Reported(s, p));
  }

  /** `CreateJob.Execute` returns a job exactly when it inserted that pending job under an unused ID
      and pushed the ID, and was told so; it never overwrites a row, and never pushes the ID of a
      row it did not insert. */
  lemma CreateResult(w: World, r: Request)
    ensures var (after, result) := Create(w, r);
            && (result.Ok? ==>
                  && result.value.id !in w.table && result.value.status == Pending && Coherent(result.value)
                  && after.table == w.table[result.value.id := FromDomain(result.value)]
                  && after.list == [result.value.id] + w.list && r.insert == Done && r.publish == Done)
            && (forall id <- w.table :: id in after.table && after.table[id] == w.table[id])
            && (after.list != w.list ==>
                  && r.newID.Ok? && r.newID.value !in w.table && r.newID.value in after.table
                  && after.table[r.newID.value].status == StatusName(Pending) && after.list == [r.newID.value] + w.list)
            && (result.Err? ==> after.table == w.table || r.insert != Done || r.publish != Done)
  {
    hide IsValid, ParseType, ValidatePayload, TypeName, TypeOfName, TrimSpace;
    if ParseType(r.typeName).Ok? && r.newID.Ok? {
      var typeName := TypeName(ParseType(r.typeName).value);
      if New(r.newID.value, typeName, r.payload, r.now).Ok? {
        NewIsCoherent(r.newID.value, typeName, r.payload, r.now);
      }
    }
  }
}
