/** Exactly when, and why, a job is left behind. */
module Faults {
  import opened Errors
  import opened Ids
  import opened JobEntity
  import opened Protocol
  import opened ProtocolInvariant
  import opened ProtocolSteps
  import opened ProtocolTheorems

  function FaultsOf(s: State, id: string): seq<Fault> {
    if id in s.jobs then s.jobs[id].faults else []
  }

  predicate ClockRefuses(entity: JobState, now: Time) {
    now == 0 || now < entity.updatedAt
  }

  /** The job that an action leaves behind, and the reason: a call that failed or whose answer was lost,
      a clock that is behind, an ID dropped by a dispatcher that stops, a process that stops with a job in
      its hands. An update that ends a job leaves nothing behind even if its answer is lost, and neither
      does a stop after it. */
  function FaultBy(s: State, a: Action): Option<(string, Fault)> {
    match a
    case Insert(p, reply) =>
      if p < |s.procs| && s.procs[p].pc.Creating? && reply == Unacknowledged && s.procs[p].pc.entity.id !in s.jobs
      then Some((s.procs[p].pc.entity.id, ReplyLost)) else None
    case Publish(p, reply) =>
      if p < |s.procs| && s.procs[p].pc.Publishing? && reply == Refused
      then Some((s.procs[p].pc.entity.id, CallFailed)) else None
    case Pop(p, reply) =>
      if p < |s.procs| && s.procs[p].role == Dispatching && s.procs[p].pc.Idle? && s.list != [] && reply == Unacknowledged
      then Some((s.list[|s.list| - 1], ReplyLost)) else None
    case Cancel(p) =>
      if p < |s.procs| && s.procs[p].pc.Holding? then Some((s.procs[p].pc.id, Dropped)) else None
    case Load(p, reply) =>
      if p < |s.procs| && s.procs[p].pc.Loading? && reply != Done then Some((s.procs[p].pc.id, CallFailed)) else None
    case Begin(p, now) =>
      if p < |s.procs| && s.procs[p].pc.Loaded? && ClockRefuses(s.procs[p].pc.entity, now)
      then Some((s.procs[p].pc.entity.id, TransitionFault)) else None
    case Save(p, reply, _) =>
      if p >= |s.procs| || !s.procs[p].pc.Saving? then None
      else if reply == Refused then Some((s.procs[p].pc.entity.id, CallFailed))
      else if reply == Unacknowledged && s.procs[p].pc.next != ThenReturn then Some((s.procs[p].pc.entity.id, ReplyLost))
      else None
    case Conclude(p, now) =>
      if p < |s.procs| && s.procs[p].pc.Concluding? && ClockRefuses(s.procs[p].pc.entity, now)
      then Some((s.procs[p].pc.entity.id, TransitionFault)) else None
    case Crash(p) =>
      if p < |s.procs| && Holds(s.procs[p].pc).Some? && !IsFinalReport(s.procs[p].pc)
      then Some((Holds(s.procs[p].pc).value, Stopped)) else None
    case _ => None
  }

  function FaultAt(fault: Option<(string, Fault)>, id: string): seq<Fault> {
    if fault.Some? && fault.value.0 == id then [fault.value.1] else []
  }

  /** The faults on record grow by this one. */
  predicate Records(s: State, t: State, fault: Option<(string, Fault)>) {
    && (forall id <- s.jobs :: id in t.jobs && t.jobs[id].faults == s.jobs[id].faults + FaultAt(fault, id))
    && (forall id <- t.jobs :: id !in s.jobs ==> t.jobs[id].faults == FaultAt(fault, id))
    && (fault.Some? ==> fault.value.0 in t.jobs)
  }

  lemma LoseRecords(s: State, t: State, p: nat, pc: Pc, id: string, fault: Fault)
    requires t.jobs == s.jobs && p < |t.procs| && id in s.jobs
    ensures Records(s, Lose(t, p, pc, id, fault), Some((id, fault)))
  {
  }

  lemma QuietRecords(s: State, t: State)
    requires t.jobs == s.jobs
    ensures Records(s, t, None)
  {
  }

  lemma MoveRecords(s: State, p: nat, pc: Pc, id: string, entry: Entry)
    requires p < |s.procs| && id in s.jobs
    ensures entry.faults == s.jobs[id].faults ==> Records(s, Move(s, p, pc, id, entry), None)
  {
  }

  lemma InsertRecords(s: State, p: nat, reply: Reply)
    ensures Records(s, StepInsert(s, p, reply), FaultBy(s, Insert(p, reply)))
  {
  }

  /** Losing the job in hand, wherever the process goes, and rewriting its entry. */
  lemma InHand(s: State, p: nat, pc: Pc, fault: Fault)
    requires Inv(s) && p < |s.procs| && Holds(s.procs[p].pc).Some?
    ensures var id := Holds(s.procs[p].pc).value;
            && id in s.jobs && IsValid(id)
            && Records(s, Lose(s, p, pc, id, fault), Some((id, fault)))
  {
    hide Inv, Records, Lose, PcOk, EntryOk, HandsOk, RoleOk, IsValid;
    ProcFacts(s, p);
    var id := Holds(s.procs[p].pc).value;
    assert HeldBy(s.procs[p], id);
    EntryIDIsValid(id, s.jobs[id]);
    LoseRecords(s, s, p, pc, id, fault);
  }

  lemma CallRecords(s: State, a: Action)
    requires Inv(s) && (a.Publish? || a.Load?)
    ensures Records(s, Step(s, a), FaultBy(s, a))
  {
    hide Inv, Records, Lose, IsValid;
    if Step(s, a).jobs == s.jobs {
      QuietRecords(s, Step(s, a));
    }
    if a.p < |s.procs| && Holds(s.procs[a.p].pc).Some? {
      InHand(s, a.p, RestOf(s.procs[a.p].role), CallFailed);
    }
  }

  lemma ClockRecords(s: State, a: Action)
    requires Inv(s) && (a.Begin? || a.Conclude?)
    ensures Records(s, Step(s, a), FaultBy(s, a))
  {
    hide Inv, Records, Lose, IsValid, MarkProcessing, MarkSuccess, RecordFailure;
    if Step(s, a).jobs == s.jobs {
      QuietRecords(s, Step(s, a));
    }
    if a.p < |s.procs| && Holds(s.procs[a.p].pc).Some? {
      ProcNoSurprise(s, a.p);
      InHand(s, a.p, RestOf(s.procs[a.p].role), TransitionFault);
    }
  }

  lemma PopRecords(s: State, p: nat, reply: Reply)
    requires Inv(s)
    ensures Records(s, StepPop(s, p, reply), FaultBy(s, Pop(p, reply)))
  {
    hide Inv, Records, Lose, ParseID, EntryOk, IsValid;
    var t := StepPop(s, p, reply);
    if t.jobs == s.jobs {
      QuietRecords(s, t);
    }
    if p < |s.procs| && s.list != [] {
      var n := |s.list| - 1;
      ListedIDParses(s, n);
      LoseRecords(s, s.(list := s.list[..n], popped := s.popped + [s.list[n]]), p, Idle, s.list[n], ReplyLost);
    }
  }

  lemma CancelRecords(s: State, p: nat)
    requires Inv(s)
    ensures Records(s, StepCancel(s, p), FaultBy(s, Cancel(p)))
  {
    hide Inv, Records, Lose, PcOk, EntryOk, HandsOk;
    var t := StepCancel(s, p);
    if t.jobs == s.jobs {
      QuietRecords(s, t);
    }
    if p < |s.procs| && s.procs[p].pc.Holding? {
      InHand(s, p, Gone, Dropped);
      ProcFacts(s, p);
    }
  }

  lemma CrashRecords(s: State, p: nat)
    requires Inv(s)
    ensures Records(s, StepCrash(s, p), FaultBy(s, Crash(p)))
  {
    hide Inv, Records, Lose, Move;
    var t := StepCrash(s, p);
    if t.jobs == s.jobs {
      QuietRecords(s, t);
    }
    if p < |s.procs| && Holds(s.procs[p].pc).Some? {
      InHand(s, p, Gone, Stopped);
      var id := Holds(s.procs[p].pc).value;
      MoveRecords(s, p, Gone, id, s.jobs[id].(settled := true));
    }
  }

  lemma SaveRecords(s: State, p: nat, reply: Reply, stamp: Time)
    requires Inv(s)
    ensures Records(s, StepSave(s, p, reply, stamp), FaultBy(s, Save(p, reply, stamp)))
  {
    hide Inv, Records, Lose, Move, Overwrite;
    var t := StepSave(s, p, reply, stamp);
    if t.jobs == s.jobs {
      QuietRecords(s, t);
    }
    if p < |s.procs| && s.procs[p].pc.Saving? {
      var Saving(before, entity, next) := s.procs[p].pc;
      var rest := RestOf(s.procs[p].role);
      InHand(s, p, rest, CallFailed);
      var entry := s.jobs[entity.id].(row := Overwrite(s.jobs[entity.id].row, entity, stamp),
                                      persisted := s.jobs[entity.id].persisted + [entity.status]);
      MoveRecords(s, p, Reporting(Some(before), entity, next), entity.id, entry);
      MoveRecords(s, p, rest, entity.id, entry.(settled := true));
      LostAnswer(s, p, rest, entity.id, entry);
    }
  }

  lemma LostAnswer(s: State, p: nat, pc: Pc, id: string, entry: Entry)
    requires p < |s.procs| && id in s.jobs && entry.faults == s.jobs[id].faults
    ensures Records(s, Move(s, p, pc, id, entry.(faults := entry.faults + [ReplyLost])), Some((id, ReplyLost)))
  {
  }

  lemma TellRecords(s: State, a: Action)
    requires Inv(s) && (a.Report? || a.Start? || a.Finish?)
    ensures Records(s, Step(s, a), None)
  {
    hide Inv, Records, FailureText;
    var t := Step(s, a);
    if t.jobs == s.jobs {
      QuietRecords(s, t);
    } else {
      InHand(s, a.p, Gone, Stopped);
      MoveRecords(s, a.p, t.procs[a.p].pc, s.procs[a.p].pc.entity.id, t.jobs[s.procs[a.p].pc.entity.id]);
    }
  }

  /** One action leaves behind the job that `FaultBy` names, for the reason that it names, and no other. */
  lemma StepRecords(s: State, a: Action)
    requires Inv(s)
    ensures Records(s, Step(s, a), FaultBy(s, a))
  {
    hide Inv, Records, StepInsert, StepReport, StepPublish, StepPop, StepLoad, StepBegin, StepSave,
         StepStart, StepFinish, StepConclude, StepCancel, StepCrash, Move, Lose, New;
    if a.Insert? {
      InsertRecords(s, a.p, a.reply);
    } else if a.Pop? {
      PopRecords(s, a.p, a.reply);
    } else if a.Save? {
      SaveRecords(s, a.p, a.reply, a.stamp);
    } else if a.Report? || a.Start? || a.Finish? {
      TellRecords(s, a);
    } else if a.Cancel? {
      CancelRecords(s, a.p);
    } else if a.Crash? {
      CrashRecords(s, a.p);
    } else if a.Publish? || a.Load? {
      CallRecords(s, a);
    } else if a.Begin? || a.Conclude? {
      ClockRecords(s, a);
    } else {
      QuietRecords(s, Step(s, a));
    }
  }

  /** What the actions of a run leave behind of one job. */
  function Recorded(s: State, actions: seq<Action>, id: string): seq<Fault>
    decreases |actions|
  {
    if actions == [] then [] else
      FaultAt(FaultBy(s, actions[0]), id) + Recorded(Step(s, actions[0]), actions[1..], id)
  }

  lemma {:induction false} RunRecords(s: State, actions: seq<Action>, id: string)
    requires Inv(s)
    ensures FaultsOf(Run(s, actions), id) == FaultsOf(s, id) + Recorded(s, actions, id)
    decreases |actions|
  {
    hide Inv, Step, FaultBy;
    if actions != [] {
      StepRecords(s, actions[0]);
      StepKeepsInv(s, actions[0]);
      RunRecords(Step(s, actions[0]), actions[1..], id);
    }
  }

  /** In every run: a job is left behind if and only if some action of the run was such a fault for it,
      there was never more than one, and the reason on record is that action's. */
  lemma LeftBehindIff(actions: seq<Action>, id: string)
    ensures var s, recorded := Run(EMPTY, actions), Recorded(EMPTY, actions, id);
            && |recorded| <= 1
            && (Stranded(s, id) <==> |recorded| == 1)
            && (id in s.jobs ==> s.jobs[id].faults == recorded)
  {
    EmptyInv();
    RunRecords(EMPTY, actions, id);
    TokenConservation(actions, id);
    hide Inv, Run, Recorded, HasToken;
  }
}
