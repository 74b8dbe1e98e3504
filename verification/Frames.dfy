/** What one process can touch in one step of the job protocol: itself and the job it is responsible
    for, and nothing else. */
module Frames {
  import opened Errors
  import opened Ids
  import opened JobEntity
  import opened Protocol
  import opened ProtocolInvariant
  import opened ProtocolSteps

  /** From `s` to `t` only process `p` moved, with its own job or letting go of it; no other job's
      entry changed, and neither did the list. */
  predicate OwnStep(s: State, t: State, p: nat) {
    t == s ||
    (&& p < |s.procs| && |t.procs| == |s.procs|
     && (forall q :: 0 <= q < |s.procs| && q != p ==> t.procs[q] == s.procs[q])
     && t.procs[p].(pc := s.procs[p].pc) == s.procs[p]
     && (Holds(t.procs[p].pc) == None || Holds(t.procs[p].pc) == Holds(s.procs[p].pc))
     && t.list == s.list && t.pushed == s.pushed && t.popped == s.popped
     && t.jobs.Keys == s.jobs.Keys
     && (forall id <- s.jobs :: Holds(s.procs[p].pc) != Some(id) ==> t.jobs[id] == s.jobs[id]))
  }

  lemma StillOwn(s: State, p: nat)
    ensures OwnStep(s, s, p)
  {
  }

  lemma MoveOwn(s: State, p: nat, pc: Pc, id: string, entry: Entry)
    requires p < |s.procs| && HeldBy(s.procs[p], id) && id in s.jobs
    requires Holds(pc) == None || Holds(pc) == Some(id)
    ensures OwnStep(s, Move(s, p, pc, id, entry), p)
  {
    assert s.jobs[id := entry].Keys == s.jobs.Keys;
  }

  lemma SetPcOwn(s: State, p: nat, pc: Pc)
    requires p < |s.procs| && (Holds(pc) == None || Holds(pc) == Holds(s.procs[p].pc))
    ensures OwnStep(s, SetPc(s, p, pc), p)
  {
  }

  lemma LoseOwn(s: State, p: nat, pc: Pc, id: string, fault: Fault)
    requires p < |s.procs| && HeldBy(s.procs[p], id) && Holds(pc) == None
    ensures OwnStep(s, Lose(s, p, pc, id, fault), p)
  {
    hide OwnStep, Holds;
    if id in s.jobs {
      MoveOwn(s, p, pc, id, s.jobs[id].(faults := s.jobs[id].faults + [fault]));
    } else {
      SetPcOwn(s, p, pc);
    }
  }

  /** An action of a single process that keeps away from the list and makes no new row. */
  predicate IsOwn(a: Action) {
    a.Report? || a.Load? || a.Begin? || a.Save? || a.Start? || a.Finish? || a.Conclude? || a.Cancel? || a.Crash?
  }

  lemma KeepsID(j: JobState, at: Time, reason: string)
    ensures MarkProcessing(j, at).Ok? ==> MarkProcessing(j, at).value.id == j.id
    ensures MarkSuccess(j, at).Ok? ==> MarkSuccess(j, at).value.id == j.id
    ensures RecordFailure(j, at, reason).Ok? ==> RecordFailure(j, at, reason).value.0.id == j.id
  {
  }

  /** The process of an own action lets go of its job, or goes on with it. */
  lemma LettingGoIsOwn(s: State, p: nat)
    requires p < |s.procs|
    ensures forall pc, id, fault :: HeldBy(s.procs[p], id) && Holds(pc) == None
              ==> OwnStep(s, Lose(s, p, pc, id, fault), p)
    ensures forall pc :: Holds(pc) == None || Holds(pc) == Holds(s.procs[p].pc) ==> OwnStep(s, SetPc(s, p, pc), p)
  {
    hide OwnStep, Lose, SetPc, HeldBy, Holds;
    forall pc, id, fault | HeldBy(s.procs[p], id) && Holds(pc) == None
      ensures OwnStep(s, Lose(s, p, pc, id, fault), p)
    {
      LoseOwn(s, p, pc, id, fault);
    }
    forall pc | Holds(pc) == None || Holds(pc) == Holds(s.procs[p].pc)
      ensures OwnStep(s, SetPc(s, p, pc), p)
    {
      SetPcOwn(s, p, pc);
    }
  }

  lemma ReportOwn(s: State, p: nat)
    ensures OwnStep(s, StepReport(s, p), p)
  {
    hide OwnStep, Move;
    StillOwn(s, p);
    if p < |s.procs| && s.procs[p].pc.Reporting? && s.procs[p].pc.entity.id in s.jobs {
      var Proc(role, Reporting(known, entity, next), _, _) := s.procs[p];
      var entry := Reported(s, p);
      match next
      case ThenExecute => MoveOwn(s, p, Starting(entity), entity.id, entry);
      case ThenPublish => MoveOwn(s, p, Publishing(entity), entity.id, entry);
      case ThenReturn => MoveOwn(s, p, RestOf(role), entity.id, entry.(settled := true));
    }
  }

  lemma SaveOwn(s: State, p: nat, reply: Reply, stamp: Time)
    ensures OwnStep(s, StepSave(s, p, reply, stamp), p)
  {
    hide OwnStep, Lose, Move, Overwrite;
    StillOwn(s, p);
    if p < |s.procs| && s.procs[p].pc.Saving? {
      var Proc(role, Saving(before, entity, next), _, _) := s.procs[p];
      LoseOwn(s, p, RestOf(role), entity.id, CallFailed);
      if entity.id in s.jobs {
        var entry := Saved(s.jobs[entity.id], entity, stamp);
        MoveOwn(s, p, Reporting(Some(before), entity, next), entity.id, entry);
        MoveOwn(s, p, RestOf(role), entity.id, entry.(settled := true));
        MoveOwn(s, p, RestOf(role), entity.id, entry.(faults := entry.faults + [ReplyLost]));
      }
    }
  }

  lemma StartOwn(s: State, p: nat)
    ensures OwnStep(s, StepStart(s, p), p)
  {
    hide OwnStep, Move;
    StillOwn(s, p);
    if p < |s.procs| && s.procs[p].pc.Starting? && s.procs[p].pc.entity.id in s.jobs {
      var entity := s.procs[p].pc.entity;
      var e := s.jobs[entity.id];
      MoveOwn(s, p, Running(entity), entity.id, e.(attempts := e.attempts + [Unfinished]));
    }
  }

  lemma FinishOwn(s: State, p: nat, answer: Option<Error>)
    ensures OwnStep(s, StepFinish(s, p, answer), p)
  {
    hide OwnStep, Move, FailureText;
    StillOwn(s, p);
    if p < |s.procs| && s.procs[p].pc.Running? && s.procs[p].pc.entity.id in s.jobs
       && s.jobs[s.procs[p].pc.entity.id].attempts != [] {
      var entity := s.procs[p].pc.entity;
      var e := s.jobs[entity.id];
      var failure := if answer.None? then None else Some(FailureText(entity, answer.value));
      var attempt := if failure.None? then Succeeded else Failure(failure.value);
      MoveOwn(s, p, Concluding(entity, failure), entity.id, e.(attempts := e.attempts[|e.attempts| - 1 := attempt]));
    }
  }

  lemma CrashOwn(s: State, p: nat)
    ensures OwnStep(s, StepCrash(s, p), p)
  {
    hide OwnStep, Lose, SetPc, Move, Holds;
    StillOwn(s, p);
    if p < |s.procs| {
      assert Holds(Gone) == None by { GoneHoldsNothing(); }
      match Holds(s.procs[p].pc)
      case None => SetPcOwn(s, p, Gone);
      case Some(id) =>
        LoseOwn(s, p, Gone, id, Stopped);
        if id in s.jobs {
          MoveOwn(s, p, Gone, id, s.jobs[id].(settled := true));
        }
    }
  }

  lemma GoneHoldsNothing()
    ensures Holds(Gone) == None
  {
  }

  /** An own action that leaves the row alone. */
  lemma PlaceActionsOwn(s: State, a: Action)
    requires Inv(s) && (a.Load? || a.Begin? || a.Conclude? || a.Cancel?)
    ensures OwnStep(s, Step(s, a), a.p)
  {
    hide Inv, OwnStep, Lose, SetPc, IsValid, EntryOk, PcOk, RoleOk, HandsOk, MarkProcessing, MarkSuccess, RecordFailure;
    StillOwn(s, a.p);
    if a.p < |s.procs| {
      LettingGoIsOwn(s, a.p);
      match s.procs[a.p].pc
      case Loading(id) =>
        ProcFacts(s, a.p);
        assert HeldBy(s.procs[a.p], id);
        EntryIDIsValid(id, s.jobs[id]);
      case Loaded(entity) => if a.Begin? { KeepsID(entity, a.now, ""); }
      case Concluding(entity, failure) =>
        if a.Conclude? { KeepsID(entity, a.now, if failure.None? then "" else failure.value); }
      case _ =>
    }
  }

  lemma OwnActions(s: State, a: Action)
    requires Inv(s) && IsOwn(a)
    ensures OwnStep(s, Step(s, a), a.p)
  {
    hide Inv, OwnStep, StepReport, StepLoad, StepBegin, StepSave, StepStart, StepFinish, StepConclude, StepCancel,
         StepCrash;
    match a
    case Report(p) => ReportOwn(s, p);
    case Save(p, reply, stamp) => SaveOwn(s, p, reply, stamp);
    case Start(p) => StartOwn(s, p);
    case Finish(p, answer) => FinishOwn(s, p, answer);
    case Crash(p) => CrashOwn(s, p);
    case _ => PlaceActionsOwn(s, a);
  }

  // ---------------------------------------------------------------- what others can do

  /** Anything but a step of process `p`: a step of another process, or a new process. */
  predicate OfOthers(a: Action, p: nat) {
    match a
    case Submit(_, _, _, _) => true
    case Enlist(_) => true
    case Insert(q, _) => q != p
    case Report(q) => q != p
    case Publish(q, _) => q != p
    case Pop(q, _) => q != p
    case HandOver(q, _) => q != p
    case Cancel(q) => q != p
    case Load(q, _) => q != p
    case Begin(q, _) => q != p
    case Save(q, _, _) => q != p
    case Start(q) => q != p
    case Finish(q, _) => q != p
    case Conclude(q, _) => q != p
    case Crash(q) => q != p
  }

  /** The process is where it was, and so is the whole entry of the job. */
  predicate KeepsMine(s: State, t: State, p: nat, id: string) {
    && p < |s.procs| && p < |t.procs| && t.procs[p] == s.procs[p]
    && id in s.jobs && id in t.jobs && t.jobs[id] == s.jobs[id]
  }

  /** Nobody else holds the job, and it is not listed. */
  predicate OnlyMine(s: State, p: nat, id: string) {
    && p < |s.procs| && HeldBy(s.procs[p], id) && id in s.jobs && id !in s.list
    && forall q :: 0 <= q < |s.procs| && q != p ==> !HeldBy(s.procs[q], id)
  }

  lemma OthersOwn(s: State, t: State, q: nat, p: nat, id: string)
    requires OnlyMine(s, p, id) && q != p && OwnStep(s, t, q)
    ensures KeepsMine(s, t, p, id)
  {
  }

  lemma OthersPublishOrPop(s: State, a: Action, p: nat, id: string)
    requires OnlyMine(s, p, id) && OfOthers(a, p) && (a.Publish? || a.Pop?)
    ensures KeepsMine(s, Step(s, a), p, id)
  {
    hide IsValid, ParseID;
    if a.Publish? && a.p < |s.procs| {
      assert !HeldBy(s.procs[a.p], id);
    } else if s.list != [] {
      assert s.list[|s.list| - 1] in s.list;
    }
  }

  lemma OthersJoin(s: State, a: Action, p: nat, id: string)
    requires OnlyMine(s, p, id) && OfOthers(a, p) && (a.Submit? || a.Enlist? || a.Insert? || a.HandOver?)
    ensures KeepsMine(s, Step(s, a), p, id)
  {
    hide New;
  }

  /** While a process holds a job, nothing that others do touches the process or the job's entry: not
      a column of its row, not its history. */
  lemma OthersKeepMine(s: State, a: Action, p: nat, id: string)
    requires Inv(s) && p < |s.procs| && HeldBy(s.procs[p], id) && OfOthers(a, p)
    ensures KeepsMine(s, Step(s, a), p, id)
  {
    hide Inv, KeepsMine, OwnStep, Step;
    HolderIsTheOnlyPlace(s, p, id);
    if IsOwn(a) {
      OwnActions(s, a);
      OthersOwn(s, Step(s, a), a.p, p, id);
    } else if a.Publish? || a.Pop? {
      OthersPublishOrPop(s, a, p, id);
    } else {
      OthersJoin(s, a, p, id);
    }
  }

  predicate AllOfOthers(actions: seq<Action>, p: nat) {
    forall k :: 0 <= k < |actions| ==> OfOthers(actions[k], p)
  }

  lemma {:induction false} RunOfOthersKeepsMine(s: State, actions: seq<Action>, p: nat, id: string)
    requires Inv(s) && p < |s.procs| && HeldBy(s.procs[p], id) && AllOfOthers(actions, p)
    ensures Inv(Run(s, actions)) && KeepsMine(s, Run(s, actions), p, id)
    decreases |actions|
  {
    hide Inv, Step, OfOthers;
    if actions == [] {
      HolderIsTheOnlyPlace(s, p, id);
    } else {
      OthersKeepMine(s, actions[0], p, id);
      StepKeepsInv(s, actions[0]);
      RunOfOthersKeepsMine(Step(s, actions[0]), actions[1..], p, id);
    }
  }
}
