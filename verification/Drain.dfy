/** The queue drains: processing that meets no fault uses up a measure, and where nothing is left to
    do every job has ended. */
module Drain {
  import opened GoText
  import opened Errors
  import opened Ids
  import opened JobEntity
  import opened Protocol
  import opened ProtocolInvariant
  import opened ProtocolSteps
  import opened ProtocolTheorems

  // ---------------------------------------------------------------- useful actions

  /** The action carries some job forward: it is possible, no call fails, and the clock is not
      behind the job. The handler may answer as it likes. */
  predicate Useful(s: State, a: Action) {
    match a
    case Insert(p, reply) => reply == Done && p < |s.procs| && s.procs[p].pc.Creating?
    case Report(p) => p < |s.procs| && s.procs[p].pc.Reporting?
    case Publish(p, reply) => reply == Done && p < |s.procs| && s.procs[p].pc.Publishing?
    case Pop(p, reply) =>
      reply == Done && p < |s.procs| && s.procs[p].role == Dispatching && s.procs[p].pc.Idle? && s.list != []
    case HandOver(p, worker) =>
      p < |s.procs| && worker < |s.procs| && s.procs[p].pc.Holding?
      && s.procs[worker].role == Working && s.procs[worker].pc.Idle?
    case Load(p, reply) => reply == Done && p < |s.procs| && s.procs[p].pc.Loading?
    case Begin(p, now) =>
      p < |s.procs| && s.procs[p].pc.Loaded? && TimeAccepted(s.procs[p].pc.entity, now)
    case Save(p, reply, _) => reply == Done && p < |s.procs| && s.procs[p].pc.Saving?
    case Start(p) => p < |s.procs| && s.procs[p].pc.Starting?
    case Finish(p, _) => p < |s.procs| && s.procs[p].pc.Running?
    case Conclude(p, now) =>
      p < |s.procs| && s.procs[p].pc.Concluding? && TimeAccepted(s.procs[p].pc.entity, now)
    case _ => false
  }

  /** Every action of the run is useful where it happens. */
  predicate UsefulRun(s: State, actions: seq<Action>) {
    forall k :: 0 <= k < |actions| ==> Useful(Run(s, actions[..k]), actions[k])
  }

  /** The state before action `k + 1` of a run, with its first action taken off. */
  lemma RunTail(s: State, actions: seq<Action>, k: nat)
    requires k < |actions|
    ensures Run(s, actions[..k + 1]) == Run(Step(s, actions[0]), actions[1..][..k])
  {
    hide Step;
    assert actions[..k + 1][1..] == actions[1..][..k];
  }

  lemma UsefulRunSplits(s: State, actions: seq<Action>)
    requires actions != []
    ensures UsefulRun(s, actions) <==> Useful(s, actions[0]) && UsefulRun(Step(s, actions[0]), actions[1..])
  {
    hide Step, Useful, Run;
    assert actions[..0] == [];
    NoActionsAreUseful(s);
    if UsefulRun(Step(s, actions[0]), actions[1..]) && Useful(s, actions[0]) {
      forall k | 0 <= k < |actions|
        ensures Useful(Run(s, actions[..k]), actions[k])
      {
        if k > 0 {
          assert Useful(Run(Step(s, actions[0]), actions[1..][..k - 1]), actions[1..][k - 1]);
          RunTail(s, actions, k - 1);
        }
      }
    }
    if UsefulRun(s, actions) {
      forall k | 0 <= k < |actions| - 1
        ensures Useful(Run(Step(s, actions[0]), actions[1..][..k]), actions[1..][k])
      {
        assert Useful(Run(s, actions[..k + 1]), actions[k + 1]);
        RunTail(s, actions, k);
      }
      assert Useful(Run(s, actions[..0]), actions[0]);
    }
  }

  lemma NoActionsAreUseful(s: State)
    ensures UsefulRun(s, []) && Run(s, []) == s
  {
  }

  ghost predicate Drained(s: State) {
    forall a :: !Useful(s, a)
  }

  // ---------------------------------------------------------------- the measure

  /** What the attempts still allowed can cost, in steps. */
  function Budget(j: JobState): nat {
    if j.retryCount < DEFAULT_MAX_RETRIES then 20 * (DEFAULT_MAX_RETRIES - j.retryCount) else 0
  }

  function RowBudget(jobs: map<string, Entry>, id: string): nat {
    if id in jobs then Budget(jobs[id].row) else 0
  }

  /** What the job a process is responsible for can still cost. */
  function PcWork(jobs: map<string, Entry>, pc: Pc): nat {
    match pc
    case Idle => 0
    case Gone => 0
    case Creating(entity) => Budget(entity) + 17
    case Saving(_, entity, ThenPublish) => Budget(entity) + 16
    case Reporting(_, entity, ThenPublish) => Budget(entity) + 15
    case Publishing(entity) => Budget(entity) + 14
    case Holding(id) => RowBudget(jobs, id) + 11
    case Loading(id) => RowBudget(jobs, id) + 10
    case Loaded(entity) => Budget(entity) + 9
    case Saving(_, entity, ThenExecute) => Budget(entity) + 8
    case Reporting(_, entity, ThenExecute) => Budget(entity) + 7
    case Starting(entity) => Budget(entity) + 6
    case Running(entity) => Budget(entity) + 5
    case Concluding(entity, _) => Budget(entity) + 4
    case Saving(_, _, ThenReturn) => 3
    case Reporting(_, _, ThenReturn) => 2
  }

  function ProcsWork(jobs: map<string, Entry>, procs: seq<Proc>): nat {
    if procs == [] then 0 else
      var n := |procs| - 1;
      ProcsWork(jobs, procs[..n]) + PcWork(jobs, procs[n].pc)
  }

  function ListWork(jobs: map<string, Entry>, list: seq<string>): nat {
    if list == [] then 0 else RowBudget(jobs, list[0]) + 12 + ListWork(jobs, list[1..])
  }

  /** Summed over all jobs: the remaining retries and the stage of each. */
  function Work(s: State): nat {
    ListWork(s.jobs, s.list) + ProcsWork(s.jobs, s.procs)
  }

  // ---------------------------------------------------------------- sums

  lemma {:induction false} ProcsWorkUpdate(jobs: map<string, Entry>, later: map<string, Entry>,
                                           procs: seq<Proc>, p: nat, proc: Proc)
    requires p < |procs|
    requires forall q :: 0 <= q < |procs| && q != p ==> PcWork(later, procs[q].pc) == PcWork(jobs, procs[q].pc)
    ensures ProcsWork(later, procs[p := proc]) + PcWork(jobs, procs[p].pc)
            == ProcsWork(jobs, procs) + PcWork(later, proc.pc)
    decreases |procs|
  {
    hide PcWork;
    var n := |procs| - 1;
    if p == n {
      assert procs[p := proc][..n] == procs[..n];
      ProcsWorkSame(jobs, later, procs[..n]);
    } else {
      assert procs[p := proc][..n] == procs[..n][p := proc];
      ProcsWorkUpdate(jobs, later, procs[..n], p, proc);
    }
  }

  lemma {:induction false} ProcsWorkSame(jobs: map<string, Entry>, later: map<string, Entry>, procs: seq<Proc>)
    requires forall q :: 0 <= q < |procs| ==> PcWork(later, procs[q].pc) == PcWork(jobs, procs[q].pc)
    ensures ProcsWork(later, procs) == ProcsWork(jobs, procs)
    decreases |procs|
  {
    hide PcWork;
    if procs != [] {
      ProcsWorkSame(jobs, later, procs[..|procs| - 1]);
    }
  }

  lemma {:induction false} ListWorkSame(jobs: map<string, Entry>, later: map<string, Entry>, list: seq<string>)
    requires forall i :: 0 <= i < |list| ==> RowBudget(later, list[i]) == RowBudget(jobs, list[i])
    ensures ListWork(later, list) == ListWork(jobs, list)
    decreases |list|
  {
    if list != [] {
      ListWorkSame(jobs, later, list[1..]);
    }
  }

  lemma {:induction false} ListWorkPop(jobs: map<string, Entry>, list: seq<string>)
    requires list != []
    ensures var n := |list| - 1;
            ListWork(jobs, list) == ListWork(jobs, list[..n]) + RowBudget(jobs, list[n]) + 12
    decreases |list|
  {
    var n := |list| - 1;
    if n > 0 {
      ListWorkPop(jobs, list[1..]);
      assert list[1..][..n - 1] == list[..n][1..];
    }
  }

  /** A process that works on its own job leaves the others' shares alone. */
  lemma WorkAfterMove(s: State, p: nat, pc: Pc, id: string, entry: Entry)
    requires Inv(s) && p < |s.procs|
    requires HeldBy(s.procs[p], id) || id !in s.jobs
    ensures Work(Move(s, p, pc, id, entry)) + PcWork(s.jobs, s.procs[p].pc)
            == Work(s) + PcWork(s.jobs[id := entry], pc)
  {
    var t := Move(s, p, pc, id, entry);
    forall q | 0 <= q < |s.procs| && q != p
      ensures PcWork(t.jobs, s.procs[q].pc) == PcWork(s.jobs, s.procs[q].pc)
    {
      OthersDoNotHold(s, p, q, id);
      PcWorkFrame(s.jobs, id, entry, s.procs[q].pc);
    }
    forall i | 0 <= i < |s.list|
      ensures RowBudget(t.jobs, s.list[i]) == RowBudget(s.jobs, s.list[i])
    {
      ListedIsTheOnlyPlace(s, i);
    }
    hide Inv, PcWork, RowBudget;
    ProcsWorkUpdate(s.jobs, t.jobs, s.procs, p, s.procs[p].(pc := pc));
    ListWorkSame(s.jobs, t.jobs, s.list);
  }

  lemma OthersDoNotHold(s: State, p: nat, q: nat, id: string)
    requires Inv(s) && p < |s.procs| && q < |s.procs| && p != q
    requires HeldBy(s.procs[p], id) || id !in s.jobs
    ensures !HeldBy(s.procs[q], id)
  {
    hide Inv;
    if HeldBy(s.procs[q], id) {
      HolderIsTheOnlyPlace(s, q, id);
    }
  }

  lemma PcWorkFrame(jobs: map<string, Entry>, id: string, entry: Entry, pc: Pc)
    requires Holds(pc) != Some(id)
    ensures PcWork(jobs[id := entry], pc) == PcWork(jobs, pc)
  {
  }

  /** A process moves without touching the table. */
  lemma WorkAfterSetPc(s: State, p: nat, proc: Proc)
    requires p < |s.procs|
    ensures Work(s.(procs := s.procs[p := proc])) + PcWork(s.jobs, s.procs[p].pc) == Work(s) + PcWork(s.jobs, proc.pc)
  {
    ProcsWorkUpdate(s.jobs, s.jobs, s.procs, p, proc);
  }

  // ---------------------------------------------------------------- every useful action costs

  lemma PublishWorks(s: State, p: nat)
    requires Inv(s) && Useful(s, Publish(p, Done))
    ensures Work(StepPublish(s, p, Done)) < Work(s)
  {
    hide Inv, EntryOk, Coherent, Stored, IsValid;
    ProcFacts(s, p);
    var entity := s.procs[p].pc.entity;
    assert HeldBy(s.procs[p], entity.id);
    EntryIDIsValid(entity.id, s.jobs[entity.id]);
    var rest := s.procs[p].(pc := RestOf(s.procs[p].role));
    var moved := s.(procs := s.procs[p := rest]);
    WorkAfterSetPc(s, p, rest);
    assert ([entity.id] + s.list)[1..] == s.list;
    assert ListWork(s.jobs, [entity.id] + s.list) == RowBudget(s.jobs, entity.id) + 12 + ListWork(s.jobs, s.list);
    assert Work(moved) + PcWork(s.jobs, s.procs[p].pc) == Work(s);
  }

  lemma PopWorks(s: State, p: nat)
    requires Inv(s) && Useful(s, Pop(p, Done))
    ensures Work(StepPop(s, p, Done)) < Work(s)
  {
    hide Inv, ParseID, IsValid, ListWork, ProcsWork, EntryOk, Waiting;
    var n := |s.list| - 1;
    var id := s.list[n];
    ListedIDParses(s, n);
    var taken := s.procs[p].(pc := Holding(id), taken := s.procs[p].taken + [id]);
    assert PcWork(s.jobs, s.procs[p].pc) == 0 && PcWork(s.jobs, taken.pc) == RowBudget(s.jobs, id) + 11;
    hide PcWork, RowBudget;
    WorkAfterSetPc(s, p, taken);
    ListWorkPop(s.jobs, s.list);
    assert StepPop(s, p, Done).list == s.list[..n] && StepPop(s, p, Done).procs == s.procs[p := taken];
  }

  lemma HandOverWorks(s: State, p: nat, worker: nat)
    requires Inv(s) && Useful(s, HandOver(p, worker))
    ensures Work(StepHandOver(s, p, worker)) < Work(s)
  {
    hide Inv, EntryOk, Waiting, HandsOk, ListWork, ProcsWork, RowBudget;
    ProcFacts(s, p);
    var id := s.procs[p].pc.id;
    var freed := s.procs[p].(pc := Idle, given := s.procs[p].given + [id]);
    var between := s.(procs := s.procs[p := freed]);
    WorkAfterSetPc(s, p, freed);
    WorkAfterSetPc(between, worker, s.procs[worker].(pc := Loading(id)));
  }

  lemma InsertWorks(s: State, p: nat)
    requires Inv(s) && Useful(s, Insert(p, Done))
    ensures Work(StepInsert(s, p, Done)) < Work(s)
  {
    hide Inv, Work;
    var entity := s.procs[p].pc.entity;
    if entity.id in s.jobs {
      WorkAfterSetPc(s, p, s.procs[p].(pc := Gone));
    } else {
      WorkAfterMove(s, p, Reporting(None, entity, ThenPublish), entity.id,
                    Entry(entity, [], [entity.status], [], [], false));
    }
  }

  lemma ReportWorks(s: State, p: nat)
    requires Inv(s) && Useful(s, Report(p))
    ensures Work(StepReport(s, p)) < Work(s)
  {
    hide Inv, Work, DueReport, EntryOk;
    ProcFacts(s, p);
    var Proc(role, Reporting(known, entity, next), _, _) := s.procs[p];
    assert HeldBy(s.procs[p], entity.id);
    hide PcOk;
    var entry := Reported(s, p);
    match next
    case ThenExecute => WorkAfterMove(s, p, Starting(entity), entity.id, entry);
    case ThenPublish => WorkAfterMove(s, p, Publishing(entity), entity.id, entry);
    case ThenReturn => WorkAfterMove(s, p, RestOf(role), entity.id, entry.(settled := true));
  }

  lemma LoadWorks(s: State, p: nat)
    requires Inv(s) && Useful(s, Load(p, Done))
    ensures Work(StepLoad(s, p, Done)) < Work(s)
  {
    hide Inv, Work, EntryOk, IsValid;
    ProcFacts(s, p);
    var id := s.procs[p].pc.id;
    assert HeldBy(s.procs[p], id);
    EntryIDIsValid(id, s.jobs[id]);
    WorkAfterSetPc(s, p, s.procs[p].(pc := Loaded(s.jobs[id].row)));
  }

  lemma BeginWorks(s: State, p: nat, now: Time)
    requires Inv(s) && Useful(s, Begin(p, now))
    ensures Work(StepBegin(s, p, now)) < Work(s)
  {
    hide Inv, Work, EntryOk;
    ProcNoSurprise(s, p);
    var entity := s.procs[p].pc.entity;
    WorkAfterSetPc(s, p, s.procs[p].(pc := Saving(entity, MarkProcessing(entity, now).value, ThenExecute)));
  }

  lemma SaveWorks(s: State, p: nat, stamp: Time)
    requires Inv(s) && Useful(s, Save(p, Done, stamp))
    ensures Work(StepSave(s, p, Done, stamp)) < Work(s)
  {
    hide Inv, Work, EntryOk, DueWrite;
    ProcFacts(s, p);
    var Saving(before, entity, next) := s.procs[p].pc;
    assert HeldBy(s.procs[p], entity.id);
    WorkAfterMove(s, p, Reporting(Some(before), entity, next), entity.id, Saved(s.jobs[entity.id], entity, stamp));
  }

  lemma StartWorks(s: State, p: nat)
    requires Inv(s) && Useful(s, Start(p))
    ensures Work(StepStart(s, p)) < Work(s)
  {
    hide Inv, Work, EntryOk, Coherent, Mirrors, CaughtUp, Budget;
    ProcFacts(s, p);
    var entity := s.procs[p].pc.entity;
    var e := s.jobs[entity.id];
    WorkAfterMove(s, p, Running(entity), entity.id, e.(attempts := e.attempts + [Unfinished]));
  }

  lemma FinishWorks(s: State, p: nat, answer: Option<Error>)
    requires Inv(s) && Useful(s, Finish(p, answer))
    ensures Work(StepFinish(s, p, answer)) < Work(s)
  {
    hide Inv, Work, EntryOk, FailureText, Coherent, Mirrors, CaughtUp, Budget;
    ProcFacts(s, p);
    var entity := s.procs[p].pc.entity;
    var e := s.jobs[entity.id];
    var failure := if answer.None? then None else Some(FailureText(entity, answer.value));
    var attempt := if failure.None? then Succeeded else Failure(failure.value);
    WorkAfterMove(s, p, Concluding(entity, failure), entity.id,
                  e.(attempts := e.attempts[|e.attempts| - 1 := attempt]));
  }

  lemma ConcludeWorks(s: State, p: nat, now: Time)
    requires Inv(s) && Useful(s, Conclude(p, now))
    ensures Work(StepConclude(s, p, now)) < Work(s)
  {
    hide Inv, Work, EntryOk, StepConclude, PcOk;
    var Concluding(entity, failure) := s.procs[p].pc;
    match failure
    case None => SuccessWorks(s, p, entity, now);
    case Some(reason) => FailureWorks(s, p, entity, now, reason);
  }

  lemma SuccessWorks(s: State, p: nat, entity: JobState, now: Time)
    requires Inv(s) && Useful(s, Conclude(p, now)) && s.procs[p].pc == Concluding(entity, None)
    ensures Work(StepConclude(s, p, now)) < Work(s)
  {
    hide Inv, Work, MarkSuccess, Budget, StepConclude, PcWork, TimeAccepted;
    SuccessIsAccepted(s, p, entity, now);
    var saving := Saving(entity, MarkSuccess(entity, now).value, ThenReturn);
    SuccessWork(s.jobs, entity, saving);
    WorkAfterSetPc(s, p, s.procs[p].(pc := saving));
  }

  lemma SuccessWork(jobs: map<string, Entry>, entity: JobState, saving: Pc)
    requires saving.Saving? && saving.next == ThenReturn
    ensures PcWork(jobs, saving) < PcWork(jobs, Concluding(entity, None))
  {
    hide Budget;
  }

  lemma SuccessIsAccepted(s: State, p: nat, entity: JobState, now: Time)
    requires Inv(s) && p < |s.procs| && s.procs[p].pc == Concluding(entity, None) && TimeAccepted(entity, now)
    ensures MarkSuccess(entity, now).Ok?
    ensures StepConclude(s, p, now) ==
            s.(procs := s.procs[p := s.procs[p].(pc := Saving(entity, MarkSuccess(entity, now).value, ThenReturn))])
  {
    hide Inv, MarkSuccess, TimeAccepted;
    ProcNoSurprise(s, p);
  }

  lemma FailureWorks(s: State, p: nat, entity: JobState, now: Time, reason: string)
    requires Inv(s) && Useful(s, Conclude(p, now)) && s.procs[p].pc == Concluding(entity, Some(reason))
    ensures Work(StepConclude(s, p, now)) < Work(s)
  {
    hide Inv, Work, RecordFailure, Budget, EntryOk, StepConclude, PcWork;
    FailureIsAccepted(s, p, entity, now, reason);
    ConcludingIsCoherent(s, p, entity);
    RetryUsesBudget(entity, now, reason);
    var (next, outcome) := RecordFailure(entity, now, reason).value;
    var saving := Saving(entity, next, if outcome == RetryScheduled then ThenPublish else ThenReturn);
    FailureWork(s.jobs, entity, next, reason, saving);
    WorkAfterSetPc(s, p, s.procs[p].(pc := saving));
  }

  lemma FailureWork(jobs: map<string, Entry>, entity: JobState, next: JobState, reason: string, saving: Pc)
    requires saving == Saving(entity, next, ThenReturn)
             || (saving == Saving(entity, next, ThenPublish) && Budget(next) + 20 == Budget(entity))
    ensures PcWork(jobs, saving) < PcWork(jobs, Concluding(entity, Some(reason)))
  {
    hide Budget;
  }

  lemma FailureIsAccepted(s: State, p: nat, entity: JobState, now: Time, reason: string)
    requires Inv(s) && p < |s.procs| && s.procs[p].pc == Concluding(entity, Some(reason)) && TimeAccepted(entity, now)
    ensures RecordFailure(entity, now, reason).Ok?
    ensures var (next, outcome) := RecordFailure(entity, now, reason).value;
            var saving := Saving(entity, next, if outcome == RetryScheduled then ThenPublish else ThenReturn);
            StepConclude(s, p, now) == s.(procs := s.procs[p := s.procs[p].(pc := saving)])
  {
    hide Inv, RecordFailure, TimeAccepted;
    ProcNoSurprise(s, p);
  }

  lemma ConcludingIsCoherent(s: State, p: nat, entity: JobState)
    requires Inv(s) && p < |s.procs| && s.procs[p].pc.Concluding? && s.procs[p].pc.entity == entity
    ensures Coherent(entity)
  {
    hide Inv, EntryOk, Coherent, Latest, CaughtUp, TrimSpace, RoleOk, HandsOk;
    ProcFacts(s, p);
  }

  lemma RetryUsesBudget(entity: JobState, now: Time, reason: string)
    requires Coherent(entity) && RecordFailure(entity, now, reason).Ok?
    ensures var (next, outcome) := RecordFailure(entity, now, reason).value;
            outcome == RetryScheduled ==> Budget(next) + 20 == Budget(entity)
  {
    hide TrimSpace, IsValid, ValidatePayload, IsReason;
  }

  lemma UsefulWorks(s: State, a: Action)
    requires Inv(s) && Useful(s, a)
    ensures Work(Step(s, a)) < Work(s)
  {
    hide Inv, Work, StepInsert, StepReport, StepPublish, StepPop, StepHandOver, StepLoad, StepBegin, StepSave,
         StepStart, StepFinish, StepConclude;
    match a
    case Insert(p, _) => InsertWorks(s, p);
    case Report(p) => ReportWorks(s, p);
    case Publish(p, _) => PublishWorks(s, p);
    case Pop(p, _) => PopWorks(s, p);
    case HandOver(p, worker) => HandOverWorks(s, p, worker);
    case Load(p, _) => LoadWorks(s, p);
    case Begin(p, now) => BeginWorks(s, p, now);
    case Save(p, _, stamp) => SaveWorks(s, p, stamp);
    case Start(p) => StartWorks(s, p);
    case Finish(p, answer) => FinishWorks(s, p, answer);
    case Conclude(p, now) => ConcludeWorks(s, p, now);
  }

  /** Processing without faults stops within as many steps as the measure says. */
  lemma {:induction false} UsefulRunIsBounded(s: State, actions: seq<Action>)
    requires Inv(s) && UsefulRun(s, actions)
    ensures |actions| + Work(Run(s, actions)) <= Work(s)
    decreases |actions|
  {
    hide Inv, Work, Step, Useful, UsefulRun;
    if actions != [] {
      UsefulRunSplits(s, actions);
      UsefulWorks(s, actions[0]);
      StepKeepsInv(s, actions[0]);
      UsefulRunIsBounded(Step(s, actions[0]), actions[1..]);
    }
  }

  // ---------------------------------------------------------------- nothing goes astray

  /** A useful action records no loss. */
  predicate SameFaults(s: State, t: State) {
    && (forall id <- s.jobs :: id in t.jobs)
    && (forall id <- t.jobs :: t.jobs[id].faults == if id in s.jobs then s.jobs[id].faults else [])
  }

  lemma TableActionsSameFaults(s: State, a: Action)
    requires Useful(s, a) && (a.Insert? || a.Report? || a.Start? || a.Finish?)
    ensures SameFaults(s, Step(s, a))
  {
    hide SameFaults, Move, FailureText;
    StillSameFaults(s, s.procs[a.p := s.procs[a.p].(pc := Gone)]);
    forall pc: Pc, id: string, entry: Entry | entry.faults == if id in s.jobs then s.jobs[id].faults else []
      ensures SameFaults(s, Move(s, a.p, pc, id, entry))
    {
      MoveSameFaults(s, a.p, pc, id, entry);
    }
  }

  lemma StillSameFaults(s: State, procs: seq<Proc>)
    ensures SameFaults(s, s) && SameFaults(s, s.(procs := procs))
  {
  }

  lemma MoveSameFaults(s: State, p: nat, pc: Pc, id: string, entry: Entry)
    requires p < |s.procs| && entry.faults == if id in s.jobs then s.jobs[id].faults else []
    ensures SameFaults(s, Move(s, p, pc, id, entry))
  {
  }

  lemma SaveSameFaults(s: State, p: nat, stamp: Time)
    requires Inv(s) && Useful(s, Save(p, Done, stamp))
    ensures SameFaults(s, StepSave(s, p, Done, stamp))
  {
    hide Inv, EntryOk, DueWrite, Overwrite, CaughtUp, RoleOk, HandsOk;
    ProcFacts(s, p);
  }

  lemma QueueActionsSameFaults(s: State, a: Action)
    requires Inv(s) && Useful(s, a) && (a.Publish? || a.Pop? || a.HandOver?)
    ensures SameFaults(s, Step(s, a))
  {
    hide Inv, EntryOk, IsValid, ParseID;
    if a.Pop? {
      ListedIDParses(s, |s.list| - 1);
    } else if a.Publish? {
      ProcFacts(s, a.p);
      assert HeldBy(s.procs[a.p], s.procs[a.p].pc.entity.id);
      EntryIDIsValid(s.procs[a.p].pc.entity.id, s.jobs[s.procs[a.p].pc.entity.id]);
    }
  }

  lemma ClockActionsSameFaults(s: State, a: Action)
    requires Inv(s) && Useful(s, a) && (a.Load? || a.Begin? || a.Conclude?)
    ensures SameFaults(s, Step(s, a))
  {
    hide Inv, EntryOk, IsValid, MarkProcessing, MarkSuccess, RecordFailure, Lose;
    ProcNoSurprise(s, a.p);
  }

  lemma UsefulSameFaults(s: State, a: Action)
    requires Inv(s) && Useful(s, a)
    ensures SameFaults(s, Step(s, a))
  {
    hide Inv, SameFaults, StepInsert, StepReport, StepPublish, StepPop, StepHandOver, StepLoad, StepBegin, StepSave,
         StepStart, StepFinish, StepConclude;
    if a.Insert? || a.Report? || a.Start? || a.Finish? {
      TableActionsSameFaults(s, a);
    } else if a.Save? {
      SaveSameFaults(s, a.p, a.stamp);
    } else if a.Publish? || a.Pop? || a.HandOver? {
      QueueActionsSameFaults(s, a);
    } else {
      ClockActionsSameFaults(s, a);
    }
  }

  /** Nothing goes wrong in this action: no call fails, no clock is behind the job, no process stops
      with a job in its hands. It need not be possible, nor carry a job forward. */
  predicate FaultFree(s: State, a: Action) {
    match a
    case Insert(_, reply) => reply == Done
    case Publish(_, reply) => reply == Done
    case Pop(_, reply) => reply == Done
    case Load(_, reply) => reply == Done
    case Save(_, reply, _) => reply == Done
    case Begin(p, now) => p < |s.procs| && s.procs[p].pc.Loaded? ==> TimeAccepted(s.procs[p].pc.entity, now)
    case Conclude(p, now) => p < |s.procs| && s.procs[p].pc.Concluding? ==> TimeAccepted(s.procs[p].pc.entity, now)
    case Cancel(p) => p < |s.procs| ==> !s.procs[p].pc.Holding?
    case Crash(p) => p < |s.procs| ==> Holds(s.procs[p].pc) == None
    case _ => true
  }

  predicate FaultFreeRun(s: State, actions: seq<Action>)
    decreases |actions|
  {
    actions != [] ==> FaultFree(s, actions[0]) && FaultFreeRun(Step(s, actions[0]), actions[1..])
  }

  predicate NothingLost(s: State) {
    forall id <- s.jobs :: s.jobs[id].faults == []
  }

  /** An action that is neither useful nor faulty does nothing to the table. */
  lemma IdleActionKeepsJobs(s: State, a: Action)
    requires Inv(s) && FaultFree(s, a) && !Useful(s, a)
    ensures Step(s, a).jobs == s.jobs
  {
    hide Inv, New, EntryOk, ParseID, IsValid, MarkProcessing, MarkSuccess, RecordFailure, FailureText, Overwrite;
  }

  lemma {:induction false} FaultFreeFrom(s: State, actions: seq<Action>)
    requires Inv(s) && NothingLost(s) && FaultFreeRun(s, actions)
    ensures NothingLost(Run(s, actions))
    decreases |actions|
  {
    hide Inv, Step, Useful, FaultFree;
    if actions != [] {
      StepKeepsInv(s, actions[0]);
      if Useful(s, actions[0]) {
        UsefulSameFaults(s, actions[0]);
      } else {
        IdleActionKeepsJobs(s, actions[0]);
      }
      FaultFreeFrom(Step(s, actions[0]), actions[1..]);
    }
  }

  /** Without faults no job is ever lost: each can still lead to work, or has ended. */
  lemma FaultFreeLosesNothing(actions: seq<Action>, id: string)
    requires FaultFreeRun(EMPTY, actions) && id in Run(EMPTY, actions).jobs
    ensures var s := Run(EMPTY, actions);
            s.jobs[id].faults == [] && (HasToken(s, id) <==> !IsTerminal(s.jobs[id].row.status))
  {
    hide Inv, Run, FaultFreeRun, HasToken;
    EmptyInv();
    RunKeepsInv(EMPTY, actions);
    FaultFreeFrom(EMPTY, actions);
    InvConserves(Run(EMPTY, actions), id);
  }

  /** A dispatcher or a worker that is still there. */
  predicate Live(s: State, p: nat, role: Role) {
    p < |s.procs| && s.procs[p].role == role && s.procs[p].pc != Gone
  }

  lemma TableActionsKeepLive(s: State, a: Action, p: nat, role: Role)
    requires Inv(s) && Useful(s, a) && Live(s, p, role) && role != Api
    requires a.Insert? || a.Report? || a.Save? || a.Start? || a.Finish?
    ensures Live(Step(s, a), p, role)
  {
    hide Inv, Overwrite, FailureText;
    ProcRole(s, a.p);
  }

  lemma QueueActionsKeepLive(s: State, a: Action, p: nat, role: Role)
    requires Inv(s) && Useful(s, a) && Live(s, p, role) && role != Api
    requires a.Publish? || a.Pop? || a.HandOver?
    ensures Live(Step(s, a), p, role)
  {
    hide Inv, EntryOk, IsValid, ParseID, Waiting;
    ProcRole(s, a.p);
    if a.Pop? {
      ListedIDParses(s, |s.list| - 1);
    }
  }

  lemma ClockActionsKeepLive(s: State, a: Action, p: nat, role: Role)
    requires Inv(s) && Useful(s, a) && Live(s, p, role) && role != Api
    requires a.Load? || a.Begin? || a.Conclude?
    ensures Live(Step(s, a), p, role)
  {
    hide Inv, EntryOk, IsValid, MarkProcessing, MarkSuccess, RecordFailure, NoSurprise;
    ProcRole(s, a.p);
  }

  /** API calls neither load nor transform jobs. */
  lemma ProcRole(s: State, p: nat)
    requires Inv(s) && p < |s.procs|
    ensures RoleOk(s.procs[p])
  {
    hide Inv, PcOk, RoleOk, HandsOk, EntryOk;
    ProcFacts(s, p);
  }

  lemma UsefulKeepsLive(s: State, a: Action, p: nat, role: Role)
    requires Inv(s) && Useful(s, a) && Live(s, p, role) && role != Api
    ensures Live(Step(s, a), p, role)
  {
    hide Inv, Step, Live;
    if a.Insert? || a.Report? || a.Save? || a.Start? || a.Finish? {
      TableActionsKeepLive(s, a, p, role);
    } else if a.Publish? || a.Pop? || a.HandOver? {
      QueueActionsKeepLive(s, a, p, role);
    } else {
      ClockActionsKeepLive(s, a, p, role);
    }
  }

  lemma {:induction false} UsefulRunKeeps(s: State, actions: seq<Action>, d: nat, w: nat)
    requires Inv(s) && UsefulRun(s, actions) && Live(s, d, Dispatching) && Live(s, w, Working)
    ensures var t := Run(s, actions);
            Inv(t) && SameFaults(s, t) && Live(t, d, Dispatching) && Live(t, w, Working)
    decreases |actions|
  {
    hide Inv, Step, Useful, UsefulRun, Live;
    if actions != [] {
      UsefulRunSplits(s, actions);
      StepKeepsInv(s, actions[0]);
      UsefulSameFaults(s, actions[0]);
      UsefulKeepsLive(s, actions[0], d, Dispatching);
      UsefulKeepsLive(s, actions[0], w, Working);
      UsefulRunKeeps(Step(s, actions[0]), actions[1..], d, w);
    }
  }

  // ---------------------------------------------------------------- there is always something to do

  predicate AtRest(pc: Pc) {
    pc.Idle? || pc.Gone?
  }

  lemma EntityTime(entity: JobState)
    requires Coherent(entity)
    ensures TimeAccepted(entity, entity.updatedAt)
  {
    hide IsValid, ValidatePayload, IsReason;
  }

  /** A process in the middle of a job can go on. */
  lemma BusyCanGoOn(s: State, p: nat) returns (a: Action)
    requires Inv(s) && p < |s.procs| && !AtRest(s.procs[p].pc) && !s.procs[p].pc.Holding?
    ensures Useful(s, a)
  {
    hide Inv, EntryOk, DueWrite, DueReport, Coherent, TimeAccepted, Mirrors, Latest, CaughtUp, TrimSpace;
    ProcFacts(s, p);
    match s.procs[p].pc
    case Creating(_) => a := Insert(p, Done);
    case Reporting(_, _, _) => a := Report(p);
    case Publishing(_) => a := Publish(p, Done);
    case Loading(_) => a := Load(p, Done);
    case Saving(_, _, _) => a := Save(p, Done, ZERO_TIME);
    case Starting(_) => a := Start(p);
    case Running(_) => a := Finish(p, None);
    case Loaded(entity) =>
      EntityTime(entity);
      a := Begin(p, entity.updatedAt);
    case Concluding(entity, _) =>
      EntityTime(entity);
      a := Conclude(p, entity.updatedAt);
  }

  /** While an ID is listed or a process is busy, some useful action is possible, provided there is
      a dispatcher and a worker. */
  lemma SomethingToDo(s: State, d: nat, w: nat) returns (a: Action)
    requires Inv(s) && Live(s, d, Dispatching) && Live(s, w, Working)
    requires s.list != [] || exists p :: 0 <= p < |s.procs| && !AtRest(s.procs[p].pc)
    ensures Useful(s, a)
  {
    hide Inv, EntryOk, PcOk, HandsOk;
    ProcFacts(s, d);
    ProcFacts(s, w);
    assert (s.procs[d].pc.Idle? || s.procs[d].pc.Holding?) && !s.procs[w].pc.Holding?;
    hide RoleOk;
    if p :| 0 <= p < |s.procs| && !AtRest(s.procs[p].pc) && !s.procs[p].pc.Holding? {
      a := BusyCanGoOn(s, p);
    } else if p :| 0 <= p < |s.procs| && s.procs[p].pc.Holding? {
      a := HandOver(p, w);
    } else {
      a := Pop(d, Done);
    }
  }

  /** Where nothing useful is left to do, every job has ended or its loss is on record. */
  lemma DrainedMeansDone(s: State, d: nat, w: nat)
    requires Inv(s) && Drained(s) && Live(s, d, Dispatching) && Live(s, w, Working)
    ensures s.list == [] && forall p :: 0 <= p < |s.procs| ==> AtRest(s.procs[p].pc)
    ensures forall id <- s.jobs :: IsTerminal(s.jobs[id].row.status) || Stranded(s, id)
  {
    hide Inv, Useful;
    if s.list != [] || exists p :: 0 <= p < |s.procs| && !AtRest(s.procs[p].pc) {
      var a := SomethingToDo(s, d, w);
      assert false;
    }
    forall id <- s.jobs
      ensures IsTerminal(s.jobs[id].row.status) || Stranded(s, id)
    {
      InvConserves(s, id);
    }
  }

  /** The drain theorem. After any run, let processing go on without faults for as long as it can,
      with a dispatcher and a worker there. It stops within the measure of where it began; then the
      list is empty and every job that was not lost before is a success or a failure. */
  lemma QueueDrains(before: seq<Action>, work: seq<Action>, d: nat, w: nat)
    requires var s := Run(EMPTY, before);
             && Live(s, d, Dispatching) && Live(s, w, Working)
             && UsefulRun(s, work) && Drained(Run(s, work))
    ensures var s := Run(EMPTY, before);
            var t := Run(s, work);
            && |work| <= Work(s)
            && t.list == [] && (forall id <- s.jobs :: id in t.jobs)
            && (forall id <- t.jobs :: IsTerminal(t.jobs[id].row.status) || Stranded(s, id))
  {
    hide Inv, UsefulRun, Drained, Work, Live, Run;
    var s := Run(EMPTY, before);
    EmptyInv();
    RunKeepsInv(EMPTY, before);
    UsefulRunIsBounded(s, work);
    UsefulRunKeeps(s, work, d, w);
    DrainedMeansDone(Run(s, work), d, w);
  }

  /** And it can: from every reachable state with a dispatcher and a worker, fault-free processing
      reaches such an end. */
  lemma {:induction false} DrainExists(s: State, d: nat, w: nat) returns (work: seq<Action>)
    requires Inv(s) && Live(s, d, Dispatching) && Live(s, w, Working)
    ensures UsefulRun(s, work) && Drained(Run(s, work))
    decreases Work(s)
  {
    hide Inv, Work, Live, Step, Useful, UsefulRun;
    if Drained(s) {
      work := [];
      NoActionsAreUseful(s);
    } else {
      var a :| Useful(s, a);
      UsefulWorks(s, a);
      StepKeepsInv(s, a);
      UsefulKeepsLive(s, a, d, Dispatching);
      UsefulKeepsLive(s, a, w, Working);
      var rest := DrainExists(Step(s, a), d, w);
      work := [a] + rest;
      assert work[1..] == rest;
      UsefulRunSplits(s, work);
    }
  }
}
