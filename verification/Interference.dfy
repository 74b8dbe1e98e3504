/** A worker among others: whatever other processes do between its steps, the call of `ProcessJob.Execute`
    does to its own job what it would do alone, and its result says so. */
module Interference {
  import opened Errors
  import opened Ids
  import opened JobEntity
  import opened Mapper
  import opened Executor
  import opened Protocol
  import opened ProtocolInvariant
  import opened ProtocolSteps
  import opened Frames
  import opened UseCases
  import opened UseCaseTheorems
  import opened Results

  // ---------------------------------------------------------------- worlds that are alike for one job

  /** The stores hold the same about this job: its record, its events, and whether it is listed. */
  predicate Alike(w: World, v: World, id: string) {
    && id in w.table && id in v.table && w.table[id] == v.table[id] && w.table[id].id == id
    && EventsOf(w, id) == EventsOf(v, id)
    && (id in w.list <==> id in v.list)
  }

  lemma CallsAlike(w: World, v: World, entity: JobState, reply: Reply, stamp: Time, previous: Option<Status>)
    requires Alike(w, v, entity.id)
    ensures Alike(Write(w, entity, reply, stamp), Write(v, entity, reply, stamp), entity.id)
    ensures Alike(Tell(w, entity, previous), Tell(v, entity, previous), entity.id)
    ensures Alike(Push(w, entity.id, reply), Push(v, entity.id, reply), entity.id)
  {
    hide IsValid, TypeName, StatusName;
  }

  /** The same error, and worlds that are still alike. */
  predicate SameEnd(x: (World, Option<Error>), y: (World, Option<Error>), id: string) {
    Alike(x.0, y.0, id) && x.1 == y.1
  }

  lemma ReportAlike(w: World, v: World, next: JobState, outcome: FailureOutcome, cause: Error, a: Answers)
    requires Alike(w, v, next.id)
    ensures SameEnd(AfterReport(w, next, outcome, cause, a), AfterReport(v, next, outcome, cause, a), next.id)
  {
    hide Alike, Push;
    CallsAlike(w, v, next, a.publish, ZERO_TIME, None);
  }

  lemma OutcomeAlike(w: World, v: World, started: JobState, next: JobState, outcome: FailureOutcome, cause: Error,
                     a: Answers)
    requires Alike(w, v, next.id)
    ensures SameEnd(AfterFailure(w, started, next, outcome, cause, a),
                    AfterFailure(v, started, next, outcome, cause, a), next.id)
    ensures SameEnd(AfterSuccess(w, started, next, a), AfterSuccess(v, started, next, a), next.id)
  {
    hide Push, Write, Tell, AfterReport, EventsOf;
    var w', v' := Write(w, next, a.saveOutcome, a.outcomeStamp), Write(v, next, a.saveOutcome, a.outcomeStamp);
    CallsAlike(w, v, next, a.saveOutcome, a.outcomeStamp, None);
    CallsAlike(w', v', next, Done, ZERO_TIME, Some(started.status));
    ReportAlike(Tell(w', next, Some(started.status)), Tell(v', next, Some(started.status)), next, outcome, cause, a);
  }

  lemma HandlerAlike(w: World, v: World, started: JobState, a: Answers)
    requires Alike(w, v, started.id)
    ensures SameEnd(RunHandler(w, started, a), RunHandler(v, started, a), started.id)
  {
    hide Alike, MarkSuccess, RecordFailure, AfterSuccess, AfterFailure, HandleError, Text;
    match a.handler
    case None =>
      KeepsID(started, a.conclude, "");
      if MarkSuccess(started, a.conclude).Ok? {
        OutcomeAlike(w, v, started, MarkSuccess(started, a.conclude).value, TerminalFailure, a.failure, a);
      }
    case Some(cause) =>
      var handled := HandleError(started, cause);
      KeepsID(started, a.conclude, Text(handled));
      if RecordFailure(started, a.conclude, Text(handled)).Ok? {
        var (next, outcome) := RecordFailure(started, a.conclude, Text(handled)).value;
        OutcomeAlike(w, v, started, next, outcome, handled, a);
      }
  }

  lemma MarkAlike(w: World, v: World, loaded: JobState, started: JobState, a: Answers)
    requires Alike(w, v, started.id)
    ensures SameEnd(AfterMark(w, loaded, started, a), AfterMark(v, loaded, started, a), started.id)
  {
    hide Write, Tell, RunHandler, EventsOf;
    var w', v' := Write(w, started, a.save, a.stamp), Write(v, started, a.save, a.stamp);
    CallsAlike(w, v, started, a.save, a.stamp, None);
    CallsAlike(w', v', started, Done, ZERO_TIME, Some(loaded.status));
    HandlerAlike(Tell(w', started, Some(loaded.status)), Tell(v', started, Some(loaded.status)), started, a);
  }

  lemma ProcessAlike(w: World, v: World, id: string, a: Answers)
    requires Alike(w, v, id)
    ensures SameEnd(Process(w, id, a), Process(v, id, a), id)
  {
    hide Alike, IsValid, ToDomain, AfterLoad;
    SameRecord(w, v, id);
    if IsValid(id) && ToDomain(w.table[id]).Ok? {
      LoadedID(w.table[id]);
      LoadAlike(w, v, ToDomain(w.table[id]).value, a);
    }
  }

  lemma SameRecord(w: World, v: World, id: string)
    requires Alike(w, v, id)
    ensures id in w.table && id in v.table && w.table[id] == v.table[id] && w.table[id].id == id
  {
    hide EventsOf;
  }

  lemma LoadAlike(w: World, v: World, loaded: JobState, a: Answers)
    requires Alike(w, v, loaded.id)
    ensures SameEnd(AfterLoad(w, loaded, a), AfterLoad(v, loaded, a), loaded.id)
  {
    hide Alike, MarkProcessing, AfterMark;
    KeepsID(loaded, a.begin, "");
    if MarkProcessing(loaded, a.begin).Ok? {
      MarkAlike(w, v, loaded, MarkProcessing(loaded, a.begin).value, a);
    }
  }

  /** What is left of `Execute` ends alike in worlds that are alike for its job, and with the same error. */
  lemma RestAlike(w: World, v: World, pc: Pc, a: Answers, id: string)
    requires Alike(w, v, id) && Holds(pc) == Some(id)
    ensures SameEnd(Rest(w, pc, a), Rest(v, pc, a), id)
  {
    hide Alike, Process, AfterLoad, AfterMark, AfterFailure, AfterSuccess, AfterReport, RunHandler, HandleError, Tell;
    match pc
    case Loading(_) => ProcessAlike(w, v, id, a);
    case Loaded(entity) => LoadAlike(w, v, entity, a);
    case Saving(before, entity, next) =>
      MarkAlike(w, v, before, entity, a);
      if a.handler.Some? {
        OutcomeAlike(w, v, before, entity, OutcomeOf(next), HandleError(entity, a.handler.value), a);
      } else {
        OutcomeAlike(w, v, before, entity, OutcomeOf(next), a.failure, a);
      }
    case Reporting(known, entity, next) =>
      if known.Some? {
        CallsAlike(w, v, entity, Done, ZERO_TIME, Some(known.value.status));
        ReportedAlike(Tell(w, entity, Some(known.value.status)),
                      Tell(v, entity, Some(known.value.status)), entity, next, a);
      }
    case Publishing(entity) => ReportedAlike(w, v, entity, ThenPublish, a);
    case Starting(entity) => HandlerAlike(w, v, entity, a);
    case Running(entity) => HandlerAlike(w, v, entity, a);
    case Concluding(entity, _) => HandlerAlike(w, v, entity, a);
    case _ =>
  }

  lemma ReportedAlike(w: World, v: World, entity: JobState, next: Next, a: Answers)
    requires Alike(w, v, entity.id)
    ensures SameEnd(RestOfReport(w, entity, next, a), RestOfReport(v, entity, next, a), entity.id)
  {
    hide Alike, AfterReport, RunHandler, HandleError;
    HandlerAlike(w, v, entity, a);
    if a.handler.Some? {
      ReportAlike(w, v, entity, OutcomeOf(next), HandleError(entity, a.handler.value), a);
    }
  }

  // ---------------------------------------------------------------- a worker among others

  /** The steps of a script, each after some actions of others, until the process is done with the
      job. */
  function Weave(s: State, p: nat, id: string, others: seq<seq<Action>>, script: seq<Action>): State
    requires |others| == |script|
    decreases |script|
  {
    if script == [] || p >= |s.procs| || !HeldBy(s.procs[p], id) then s
    else Weave(Step(Run(s, others[0]), script[0]), p, id, others[1..], script[1..])
  }

  /** The error that the woven call returns: what is left of `Execute` at its last call, in the stores as
      they are then. */
  function Returned(s: State, p: nat, id: string, others: seq<seq<Action>>, script: seq<Action>, a: Answers)
    : Option<Error>
    requires |others| == |script|
    decreases |script|
  {
    if script == [] || p >= |s.procs| || !HeldBy(s.procs[p], id) then None else
      var w := Run(s, others[0]);
      var t := Step(w, script[0]);
      if p < |t.procs| && HeldBy(t.procs[p], id) then Returned(t, p, id, others[1..], script[1..], a)
      else if p < |w.procs| then Rest(View(w), w.procs[p].pc, a).1 else None
  }

  lemma OthersLeaveAlike(s: State, w: State, p: nat, id: string)
    requires Inv(s) && Inv(w) && p < |s.procs| && HeldBy(s.procs[p], id) && KeepsMine(s, w, p, id)
    ensures Alike(View(s), View(w), id)
  {
    hide Inv, View, EventsOf;
    HolderIsTheOnlyPlace(s, p, id);
    HolderIsTheOnlyPlace(w, p, id);
    HeldIsKnown(s, p, id);
    ViewAt(s, id);
    ViewAt(w, id);
    ViewList(s);
    ViewList(w);
  }

  lemma ViewList(s: State)
    ensures View(s).list == s.list
  {
  }

  lemma AlikeAgain(u: World, v: World, w: World, id: string)
    requires Alike(u, v, id) && Alike(v, w, id)
    ensures Alike(u, w, id)
  {
    hide EventsOf;
  }

  /** Whatever others do before each of its calls, a worker ends, for its job and in its result, as what
      is left of `Execute` would alone. */
  lemma {:induction false} WeaveIsRest(s: State, p: nat, id: string, others: seq<seq<Action>>, a: Answers)
    requires Inv(s) && p < |s.procs| && s.procs[p].role == Working && HeldBy(s.procs[p], id)
    requires Place(s.procs[p].pc) < 10 && OnCourse(s.procs[p].pc, a) && |others| == 10 - Place(s.procs[p].pc)
    requires forall k :: 0 <= k < |others| ==> AllOfOthers(others[k], p)
    ensures var script := ProcessScript(p, a)[Place(s.procs[p].pc)..];
            SameEnd((View(Weave(s, p, id, others, script)), Returned(s, p, id, others, script, a)),
                    Rest(View(s), s.procs[p].pc, a), id)
    decreases |others|
  {
    hide Inv, Step, Run, View, Rest, OnCourse, Alike, AllOfOthers;
    var k := Place(s.procs[p].pc);
    var script := ProcessScript(p, a)[k..];
    assert script[0] == ProcessScript(p, a)[k] && script[1..] == ProcessScript(p, a)[k + 1..];
    RunOfOthersKeepsMine(s, others[0], p, id);
    var w := Run(s, others[0]);
    OthersLeaveAlike(s, w, p, id);
    AlikeBothWays(View(s), View(w), id);
    RestAlike(View(w), View(s), s.procs[p].pc, a, id);
    CallGoesOn(w, p, a);
    StepKeepsInv(w, script[0]);
    var t := Step(w, script[0]);
    if t.procs[p].pc != Idle {
      WeaveIsRest(t, p, id, others[1..], a);
      AlikeAgain(View(Weave(t, p, id, others[1..], script[1..])), Rest(View(t), t.procs[p].pc, a).0,
                 Rest(View(s), s.procs[p].pc, a).0, id);
    }
  }

  lemma AlikeBothWays(w: World, v: World, id: string)
    requires Alike(w, v, id)
    ensures Alike(v, w, id)
  {
  }

  // ---------------------------------------------------------------- the use case among others

  /** What a call of `Execute` has done to its own job. */
  predicate SameFor(id: string, t: State, alone: World) {
    && id in t.jobs && id in alone.table
    && FromDomain(t.jobs[id].row) == alone.table[id]
    && t.jobs[id].events == EventsOf(alone, id)
    && (id in t.list <==> id in alone.list)
  }

  lemma AlikeShows(t: State, alone: World, id: string)
    requires Alike(View(t), alone, id)
    ensures SameFor(id, t, alone)
  {
    hide View, EventsOf;
    ViewAt(t, id);
    ViewList(t);
  }

  /** From every reachable state, and whatever others do before each of its steps, a worker that has
      received an ID leaves the row and the events of that job, and lists the ID or not, as `Execute`
      would alone; and it returns the error that `Execute` would. */
  lemma ExecuteUnderInterference(before: seq<Action>, p: nat, id: string, a: Answers, others: seq<seq<Action>>)
    requires WorkerAt(Run(EMPTY, before), p, Loading(id)) && |others| == |ProcessScript(p, a)|
    requires forall k :: 0 <= k < |others| ==> AllOfOthers(others[k], p)
    ensures var s := Run(EMPTY, before);
            && SameFor(id, Weave(s, p, id, others, ProcessScript(p, a)), Process(View(s), id, a).0)
            && Returned(s, p, id, others, ProcessScript(p, a), a) == Process(View(s), id, a).1
  {
    hide Inv, Run, View, Process, Rest, EventsOf, Weave, Returned, AllOfOthers, SameFor, Alike;
    var s := Run(EMPTY, before);
    var script := ProcessScript(p, a);
    EmptyInv();
    RunKeepsInv(EMPTY, before);
    assert script[Place(s.procs[p].pc)..] == script;
    WeaveIsRest(s, p, id, others, a);
    WholeCall(View(s), id, a);
    AlikeShows(Weave(s, p, id, others, script), Process(View(s), id, a).0, id);
  }

  /** The effect that a sentinel announces, in the state that the call leaves to others. */
  predicate AnnouncedIn(kind: Kind, s: State, t: State, id: string, a: Answers) {
    && id in s.jobs && id in t.jobs && a.saveOutcome == Done
    && ((kind == JobRetryScheduled && t.jobs[id].row.status == Pending && a.publish == Done && id in t.list
         && t.jobs[id].row.retryCount == s.jobs[id].row.retryCount + 1)
        || (kind == JobRetriesExhausted && t.jobs[id].row.status == Failed))
  }

  /** The list after a call: as before, or with the ID in front. */
  lemma ProcessList(w: World, id: string, a: Answers)
    requires PendingJob(w, id)
    ensures var after := Process(w, id, a).0; after.list == w.list || after.list == [id] + w.list
  {
    hide IsValid, RecordFailure, MarkSuccess, HandleError, Text, ToDomain, TypeName, StatusName, EventsOf;
    LoadedID(w.table[id]);
    if Begins(JobAt(w, id), a) {
      ExecutedIs(w, id, a);
      if a.handler.Some? {
        hide Process, MarkProcessing;
        var row := JobAt(w, id);
        var started := MarkProcessing(row, a.begin).value;
        FailureEffect(Begun(w, started, a), row, started, a.handler.value, a);
      }
    }
  }

  /** So the result of `Execute` says under interference what it says alone: nil exactly when the row
      is a success that was acknowledged, a sentinel exactly when its effect took place or an error
      from outside matches it. */
  lemma ResultUnderInterference(before: seq<Action>, p: nat, id: string, a: Answers, others: seq<seq<Action>>, kind: Kind)
    requires WorkerAt(Run(EMPTY, before), p, Loading(id)) && |others| == |ProcessScript(p, a)|
    requires forall k :: 0 <= k < |others| ==> AllOfOthers(others[k], p)
    requires IsResultKind(kind)
    ensures var s := Run(EMPTY, before);
            var t := Weave(s, p, id, others, ProcessScript(p, a));
            var err := Returned(s, p, id, others, ProcessScript(p, a), a);
            && id in s.jobs && id in t.jobs
            && (err.None? <==> t.jobs[id].row.status == Success && a.saveOutcome == Done)
            && (Matches(err, kind) <==> AnnouncedIn(kind, s, t, id, a) || OutsideSays(kind, s.jobs[id].row, a))
  {
    hide Inv, Run, View, Process, EventsOf, Weave, Returned, AllOfOthers, ToDomain, ProcessScript, OutsideSays, Announces,
         SameFor, Announced, AnnouncedIn, MadeSuccess, PendingJob;
    var s := Run(EMPTY, before);
    EmptyInv();
    RunKeepsInv(EMPTY, before);
    ExecuteUnderInterference(before, p, id, a, others);
    LoadingIsPending(s, p, id);
    ResultAgreesWithEffect(View(s), id, a, kind);
    ProcessList(View(s), id, a);
    HolderIsTheOnlyPlace(s, p, id);
    SameAnnouncement(kind, s, Weave(s, p, id, others, ProcessScript(p, a)), Process(View(s), id, a).0, id, a);
  }

  /** What is announced of the world after the call is announced of the state after it. */
  lemma SameAnnouncement(kind: Kind, s: State, t: State, after: World, id: string, a: Answers)
    requires SameFor(id, t, after) && id in s.jobs && id !in s.list
    requires after.list == View(s).list || after.list == [id] + View(s).list
    ensures id in t.jobs
    ensures MadeSuccess(after, id, a) <==> t.jobs[id].row.status == Success && a.saveOutcome == Done
    ensures Announced(kind, View(s), after, id, a) <==> AnnouncedIn(kind, s, t, id, a)
  {
    hide View, EventsOf, StatusName, TypeName;
    ViewList(s);
    ViewAt(s, id);
    StatusesDiffer();
  }

  lemma LoadingIsPending(s: State, p: nat, id: string)
    requires Inv(s) && WorkerAt(s, p, Loading(id))
    ensures PendingJob(View(s), id) && id in s.jobs && JobAt(View(s), id) == s.jobs[id].row
  {
    hide Inv, EntryOk, IsValid, ToDomain, View;
    ProcFacts(s, p);
    assert HeldBy(s.procs[p], id);
    EntryIDIsValid(id, s.jobs[id]);
    EntryLoads(id, s.jobs[id]);
    ViewAt(s, id);
  }
}
