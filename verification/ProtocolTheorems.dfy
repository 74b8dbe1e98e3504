/** What the invariant of the job protocol means for its users, over every run: any number of
    processes, any interleaving, any faults, any clock. */
module ProtocolTheorems {
  import opened GoText
  import opened Errors
  import opened Ids
  import opened JobEntity
  import opened Protocol
  import opened ProtocolInvariant
  import opened ProtocolSteps

  // ---------------------------------------------------------------- the single token

  /** The ID can still lead to work: it is listed, or some process is responsible for it and has
      not yet written the final status. */
  ghost predicate HasToken(s: State, id: string) {
    || id in s.list
    || exists p :: 0 <= p < |s.procs| && HeldBy(s.procs[p], id) && !IsFinalReport(s.procs[p].pc)
  }

  ghost predicate Stranded(s: State, id: string) {
    id in s.jobs && s.jobs[id].faults != []
  }

  lemma HoldersFound(procs: seq<Proc>, id: string) returns (p: nat)
    requires Holders(procs, id) > 0
    ensures p < |procs| && HeldBy(procs[p], id)
  {
    var n := |procs| - 1;
    if HeldBy(procs[n], id) {
      p := n;
    } else {
      p := HoldersFound(procs[..n], id);
    }
  }

  /** At most one token per ID, counting the list with multiplicity; so no two processes ever work
      on the same job. */
  lemma SingleToken(actions: seq<Action>, id: string)
    ensures var s := Run(EMPTY, actions);
            && multiset(s.list)[id] + Holders(s.procs, id) <= 1
            && (forall p, q :: 0 <= p < q < |s.procs| ==> !(HeldBy(s.procs[p], id) && HeldBy(s.procs[q], id)))
            && (id in s.list ==> forall p :: 0 <= p < |s.procs| ==> !HeldBy(s.procs[p], id))
            && (HasToken(s, id) ==> id in s.jobs)
  {
    var s := Run(EMPTY, actions);
    EmptyInv();
    RunKeepsInv(EMPTY, actions);
    assert Balanced(s, id);
    hide Inv;
    if id in s.list {
      assert id in multiset(s.list);
    }
    forall p | 0 <= p < |s.procs| && HeldBy(s.procs[p], id)
      ensures id !in s.list && id in s.jobs
      ensures forall q :: 0 <= q < |s.procs| && q != p ==> !HeldBy(s.procs[q], id)
    {
      HolderIsTheOnlyPlace(s, p, id);
    }
  }

  /** Every persisted job is in exactly one of three situations: an ID that can still lead to work,
      a terminal row, or a recorded loss; and a lost job has exactly one fault on record. */
  lemma TokenConservation(actions: seq<Action>, id: string)
    ensures var s := Run(EMPTY, actions);
            id in s.jobs ==>
              && (HasToken(s, id) || IsTerminal(s.jobs[id].row.status) || Stranded(s, id))
              && !(HasToken(s, id) && IsTerminal(s.jobs[id].row.status))
              && !(HasToken(s, id) && Stranded(s, id))
              && !(IsTerminal(s.jobs[id].row.status) && Stranded(s, id))
              && |s.jobs[id].faults| <= 1
  {
    var s := Run(EMPTY, actions);
    EmptyInv();
    RunKeepsInv(EMPTY, actions);
    if id in s.jobs {
      InvConserves(s, id);
    }
  }

  lemma InvConserves(s: State, id: string)
    requires Inv(s) && id in s.jobs
    ensures HasToken(s, id) || IsTerminal(s.jobs[id].row.status) || Stranded(s, id)
    ensures !(HasToken(s, id) && IsTerminal(s.jobs[id].row.status))
    ensures !(HasToken(s, id) && Stranded(s, id))
    ensures !(IsTerminal(s.jobs[id].row.status) && Stranded(s, id))
    ensures |s.jobs[id].faults| <= 1
  {
    hide Inv, Places, EntryOk, HasToken;
    BalancedFacts(s, id);
    EntryFacts(s, id);
    if HasToken(s, id) {
      TokenIsOpen(s, id);
    } else {
      NoTokenIsClosed(s, id);
    }
  }

  lemma BalancedFacts(s: State, id: string)
    requires Inv(s) && id in s.jobs
    ensures multiset(s.list)[id] + Holders(s.procs, id) + |s.jobs[id].faults| + (if s.jobs[id].settled then 1 else 0) == 1
  {
    hide EntriesOk, ProcsOk, ListOk;
    assert Balanced(s, id);
  }

  lemma TokenIsOpen(s: State, id: string)
    requires Inv(s) && id in s.jobs && HasToken(s, id)
    ensures !IsTerminal(s.jobs[id].row.status) && s.jobs[id].faults == []
  {
    hide Inv;
    if id in s.list {
      var i :| 0 <= i < |s.list| && s.list[i] == id;
      ListedIsTheOnlyPlace(s, i);
      ListedIDParses(s, i);
    } else {
      var p :| 0 <= p < |s.procs| && HeldBy(s.procs[p], id) && !IsFinalReport(s.procs[p].pc);
      HolderIsTheOnlyPlace(s, p, id);
      HeldIsOpen(s, p, id);
    }
  }

  lemma NoTokenIsClosed(s: State, id: string)
    requires Inv(s) && id in s.jobs && !HasToken(s, id)
    ensures IsTerminal(s.jobs[id].row.status) || s.jobs[id].faults != []
  {
    hide Inv, EntryOk;
    BalancedFacts(s, id);
    EntryFacts(s, id);
    if Holders(s.procs, id) > 0 {
      var p := HoldersFound(s.procs, id);
      HeldIsOpen(s, p, id);
    }
  }

  lemma EntryFacts(s: State, id: string)
    requires Inv(s) && id in s.jobs
    ensures EntryOk(id, s.jobs[id])
    ensures s.jobs[id].settled ==> IsTerminal(s.jobs[id].row.status)
    ensures s.jobs[id].faults != [] ==> !IsTerminal(s.jobs[id].row.status)
  {
    hide PcOk, RoleOk, HandsOk, Coherent, Stored, AttemptsFit;
  }

  // ---------------------------------------------------------------- jobs only move forward

  /** A history only grows, and the attempts at a job end with it. */
  predicate HistoryGrows(e: Entry, f: Entry) {
    && e.persisted <= f.persisted && e.events <= f.events && e.faults <= f.faults
    && (e.settled ==> f.settled)
    && |e.attempts| <= |f.attempts|
    && (IsTerminal(e.row.status) ==> f.attempts == e.attempts)
    && (forall k :: 0 <= k < |e.attempts| && e.attempts[k] != Unfinished ==> f.attempts[k] == e.attempts[k])
  }

  /** How a job may change: never its origin, never to fewer retries, never after its end; and its
      history only grows. */
  predicate Evolves(e: Entry, f: Entry) {
    && SameOrigin(e.row, f.row)
    && e.row.retryCount <= f.row.retryCount
    && (IsTerminal(e.row.status) ==> f.row == e.row)
    && HistoryGrows(e, f)
  }

  predicate JobsEvolve(jobs: map<string, Entry>, later: map<string, Entry>) {
    forall id <- jobs :: id in later && Evolves(jobs[id], later[id])
  }

  /** The same without a change to any row. */
  predicate JobsGrow(jobs: map<string, Entry>, later: map<string, Entry>) {
    forall id <- jobs :: id in later && later[id].row == jobs[id].row && HistoryGrows(jobs[id], later[id])
  }

  lemma GrowingEvolves(jobs: map<string, Entry>, later: map<string, Entry>)
    requires JobsGrow(jobs, later)
    ensures JobsEvolve(jobs, later)
  {
  }

  lemma MoveGrows(s: State, p: nat, pc: Pc, id: string, entry: Entry)
    requires p < |s.procs|
    requires id in s.jobs ==> entry.row == s.jobs[id].row && HistoryGrows(s.jobs[id], entry)
    ensures JobsGrow(s.jobs, Move(s, p, pc, id, entry).jobs)
  {
  }

  /** Losing a job, or noting that it has ended, adds to its history. */
  lemma LoseGrows(s: State, p: nat, pc: Pc, id: string, fault: Fault)
    requires p < |s.procs|
    ensures JobsGrow(s.jobs, Lose(s, p, pc, id, fault).jobs)
    ensures id in s.jobs ==> JobsGrow(s.jobs, Move(s, p, pc, id, s.jobs[id].(settled := true)).jobs)
  {
    hide JobsGrow, Move;
    if id in s.jobs {
      MoveGrows(s, p, pc, id, s.jobs[id].(faults := s.jobs[id].faults + [fault]));
      MoveGrows(s, p, pc, id, s.jobs[id].(settled := true));
    } else {
      StillGrows(s.jobs);
    }
  }

  /** An action that touches the table at most to record that a job was left behind or has ended. */
  lemma LosingActionsGrow(s: State, a: Action)
    requires a.Publish? || a.Pop? || a.Cancel? || a.Load? || a.Begin? || a.Conclude? || a.Crash?
    ensures JobsGrow(s.jobs, Step(s, a).jobs)
  {
    hide JobsGrow, Lose, Move, IsValid, ParseID, MarkProcessing, MarkSuccess, RecordFailure;
    StillGrows(s.jobs);
    forall t: State, pc: Pc, id: string, fault: Fault | t.jobs == s.jobs && a.p < |t.procs|
      ensures JobsGrow(s.jobs, Lose(t, a.p, pc, id, fault).jobs)
    {
      LoseGrows(t, a.p, pc, id, fault);
    }
    if a.Crash? && a.p < |s.procs| && Holds(s.procs[a.p].pc).Some? {
      LoseGrows(s, a.p, Gone, Holds(s.procs[a.p].pc).value, Stopped);
    }
  }

  lemma StillGrows(jobs: map<string, Entry>)
    ensures JobsGrow(jobs, jobs)
  {
  }

  /** An action that adds a row or an event. */
  lemma TellingActionsGrow(s: State, a: Action)
    requires a.Insert? || a.Report?
    ensures JobsGrow(s.jobs, Step(s, a).jobs)
  {
    hide JobsGrow, Move;
    StillGrows(s.jobs);
    forall pc: Pc, id: string, entry: Entry | a.p < |s.procs| &&
        (id in s.jobs ==> entry.row == s.jobs[id].row && HistoryGrows(s.jobs[id], entry))
      ensures JobsGrow(s.jobs, Move(s, a.p, pc, id, entry).jobs)
    {
      MoveGrows(s, a.p, pc, id, entry);
    }
  }

  lemma StartGrows(s: State, p: nat)
    requires Inv(s)
    ensures JobsGrow(s.jobs, StepStart(s, p).jobs)
  {
    hide Inv, Coherent, Stored, EntryOk, CaughtUp, JobsGrow, Move;
    StillGrows(s.jobs);
    if p < |s.procs| && s.procs[p].pc.Starting? {
      ProcFacts(s, p);
      var entity := s.procs[p].pc.entity;
      var e := s.jobs[entity.id];
      MoveGrows(s, p, Running(entity), entity.id, e.(attempts := e.attempts + [Unfinished]));
    }
  }

  lemma FinishGrows(s: State, p: nat, answer: Option<Error>)
    requires Inv(s)
    ensures JobsGrow(s.jobs, StepFinish(s, p, answer).jobs)
  {
    hide Inv, Coherent, Stored, EntryOk, CaughtUp, JobsGrow, Move, FailureText;
    StillGrows(s.jobs);
    if p < |s.procs| && s.procs[p].pc.Running? {
      ProcFacts(s, p);
      var entity := s.procs[p].pc.entity;
      var e := s.jobs[entity.id];
      var failure := if answer.None? then None else Some(FailureText(entity, answer.value));
      var attempt := if failure.None? then Succeeded else Failure(failure.value);
      MoveGrows(s, p, Concluding(entity, failure), entity.id, e.(attempts := e.attempts[|e.attempts| - 1 := attempt]));
    }
  }

  lemma StepGrows(s: State, a: Action)
    requires Inv(s) && !a.Save?
    ensures JobsGrow(s.jobs, Step(s, a).jobs)
  {
    hide Inv, JobsGrow, StepInsert, StepReport, StepPublish, StepPop, StepCancel, StepLoad, StepBegin, StepStart,
         StepFinish, StepConclude, StepCrash, New;
    StillGrows(s.jobs);
    if a.Submit? || a.Enlist? || a.HandOver? {
    } else if a.Insert? || a.Report? {
      TellingActionsGrow(s, a);
    } else if a.Start? {
      StartGrows(s, a.p);
    } else if a.Finish? {
      FinishGrows(s, a.p, a.answer);
    } else {
      LosingActionsGrow(s, a);
    }
  }

  lemma SaveEvolves(s: State, p: nat, reply: Reply, stamp: Time)
    requires Inv(s)
    ensures JobsEvolve(s.jobs, StepSave(s, p, reply, stamp).jobs)
  {
    hide Inv, Coherent, Stored, AttemptsFit, EntryOk, CaughtUp, DueWrite;
    if p < |s.procs| && s.procs[p].pc.Saving? {
      ProcFacts(s, p);
      var Saving(before, entity, next) := s.procs[p].pc;
      DueWriteFacts(s.jobs[entity.id], before, entity, next);
      OverwriteMirrors(s.jobs[entity.id].row, before, entity, stamp);
    }
  }

  lemma StepEvolves(s: State, a: Action)
    requires Inv(s)
    ensures JobsEvolve(s.jobs, Step(s, a).jobs)
    ensures !a.Save? ==> JobsGrow(s.jobs, Step(s, a).jobs)
  {
    if a.Save? {
      SaveEvolves(s, a.p, a.reply, a.stamp);
    } else {
      hide Inv, Step, JobsEvolve;
      StepGrows(s, a);
      GrowingEvolves(s.jobs, Step(s, a).jobs);
    }
  }

  lemma {:induction false} RunEvolves(s: State, actions: seq<Action>)
    requires Inv(s)
    ensures JobsEvolve(s.jobs, Run(s, actions).jobs)
    decreases |actions|
  {
    hide Inv, Step;
    if actions != [] {
      StepEvolves(s, actions[0]);
      StepKeepsInv(s, actions[0]);
      RunEvolves(Step(s, actions[0]), actions[1..]);
      EvolvesTransitively(s.jobs, Step(s, actions[0]).jobs, Run(s, actions).jobs);
    }
  }

  lemma EvolvesTransitively(a: map<string, Entry>, b: map<string, Entry>, c: map<string, Entry>)
    requires JobsEvolve(a, b) && JobsEvolve(b, c)
    ensures JobsEvolve(a, c)
  {
    forall id <- a
      ensures id in c && Evolves(a[id], c[id])
    {
      assert Evolves(a[id], b[id]) && Evolves(b[id], c[id]);
    }
  }

  lemma {:induction false} RunAppend(s: State, first: seq<Action>, second: seq<Action>)
    ensures Run(s, first + second) == Run(Run(s, first), second)
    decreases |first|
  {
    hide Step;
    if first == [] {
      assert first + second == second;
    } else {
      assert (first + second)[1..] == first[1..] + second;
      RunAppend(Step(s, first[0]), first[1..], second);
    }
  }

  /** No update is lost, whatever the clocks say: from any moment of any run to any later one, no
      terminal row changes, no origin changes, no retry is taken back, no history shrinks. */
  lemma NothingIsLost(earlier: seq<Action>, later: seq<Action>)
    ensures JobsEvolve(Run(EMPTY, earlier).jobs, Run(EMPTY, earlier + later).jobs)
  {
    EmptyInv();
    RunKeepsInv(EMPTY, earlier);
    RunAppend(EMPTY, earlier, later);
    RunEvolves(Run(EMPTY, earlier), later);
  }

  // ---------------------------------------------------------------- persist before publish

  /** The ID is valid and names a pending row. */
  predicate NamesPending(s: State, id: string) {
    IsValid(id) && id in s.jobs && s.jobs[id].row.status == Pending
  }

  /** A process that has not yet written its job finds the row pending; and no process can meet a
      refusal that would mean a broken protocol: a job that it looks up or writes exists, and only
      the clock can refuse a transition. */
  ghost predicate NoSurprise(s: State, pc: Pc) {
    match pc
    case Holding(id) => NamesPending(s, id)
    case Loading(id) => NamesPending(s, id)
    case Loaded(entity) =>
      NamesPending(s, entity.id) && forall now :: MarkProcessing(entity, now).Ok? <==> TimeAccepted(entity, now)
    case Saving(_, entity, ThenExecute) => NamesPending(s, entity.id)
    case Saving(_, entity, _) => entity.id in s.jobs && s.jobs[entity.id].row.status == Processing
    case Concluding(entity, None) => forall now :: MarkSuccess(entity, now).Ok? <==> TimeAccepted(entity, now)
    case Concluding(entity, Some(reason)) =>
      forall now :: RecordFailure(entity, now, reason).Ok? <==> TimeAccepted(entity, now)
    case _ => true
  }

  lemma ProcNoSurprise(s: State, p: nat)
    requires Inv(s) && p < |s.procs|
    ensures NoSurprise(s, s.procs[p].pc)
  {
    hide Inv, Coherent, Stored, AttemptsFit, EntryOk, TrimSpace, DueReport, IsValid;
    ProcFacts(s, p);
    var held := Holds(s.procs[p].pc);
    if held.Some? {
      assert HeldBy(s.procs[p], held.value);
      EntryIDIsValid(held.value, s.jobs[held.value]);
    }
  }

  /** Because a row is written before its ID is published, every ID in the list, in a dispatcher's
      hand or in a worker before its first write parses and names a pending row, and no process meets
      a refusal that the clock did not cause. */
  lemma PersistBeforePublish(actions: seq<Action>)
    ensures var s := Run(EMPTY, actions);
            && (forall i :: 0 <= i < |s.list| ==>
                  && ParseID(s.list[i]) == Ok(s.list[i])
                  && s.list[i] in s.jobs && s.jobs[s.list[i]].row.status == Pending)
            && (forall p :: 0 <= p < |s.procs| ==> NoSurprise(s, s.procs[p].pc))
  {
    var s := Run(EMPTY, actions);
    EmptyInv();
    RunKeepsInv(EMPTY, actions);
    hide Inv, EntryOk, NoSurprise, ParseID;
    forall i | 0 <= i < |s.list|
      ensures ParseID(s.list[i]) == Ok(s.list[i]) && s.list[i] in s.jobs && s.jobs[s.list[i]].row.status == Pending
    {
      ListedIDParses(s, i);
    }
    forall p | 0 <= p < |s.procs|
      ensures NoSurprise(s, s.procs[p].pc)
    {
      ProcNoSurprise(s, p);
    }
  }

  // ---------------------------------------------------------------- histories

  /** The executor calls for a job: one for each failure on record, one more when an attempt is
      under way or has ended the job, and never more than one and three retries. */
  predicate Accounted(e: Entry) {
    && e.row.maxRetries == 3 && |e.attempts| <= 4
    && (e.row.status == Pending ==> |e.attempts| == e.row.retryCount)
    && (e.row.status == Processing ==> e.row.retryCount <= |e.attempts| <= e.row.retryCount + 1)
    && (IsTerminal(e.row.status) ==> |e.attempts| == e.row.retryCount + 1)
    && (e.row.status == Failed ==>
          e.row.retryCount == 3 && |e.attempts| == 4 && forall k :: 0 <= k < |e.attempts| ==> e.attempts[k].Failure?)
    && (e.row.status == Success ==>
          && |e.attempts| > 0 && e.attempts[|e.attempts| - 1] == Succeeded
          && forall k :: 0 <= k < |e.attempts| - 1 ==> e.attempts[k].Failure?)
    && (e.row.lastError.Some? ==>
          && 0 <= LastFailure(e.row) < |e.attempts| && e.attempts[LastFailure(e.row)].Failure?
          && e.row.lastError.value == TrimSpace(e.attempts[LastFailure(e.row)].reason))
  }

  lemma FitIsAccounted(e: Entry)
    requires AttemptsFit(e.row, e.attempts) && e.row.retryCount <= e.row.maxRetries == DEFAULT_MAX_RETRIES
    requires e.row.status == Failed ==> e.row.retryCount == DEFAULT_MAX_RETRIES
    ensures Accounted(e)
  {
    hide TrimSpace;
  }

  lemma EntryRetries(id: string, e: Entry)
    requires EntryOk(id, e)
    ensures AttemptsFit(e.row, e.attempts) && e.row.retryCount <= e.row.maxRetries == DEFAULT_MAX_RETRIES
    ensures e.row.status == Failed ==> e.row.retryCount == DEFAULT_MAX_RETRIES
  {
    hide AttemptsFit, Chain, Path;
  }

  /** Executor calls match the row in every reachable state. */
  lemma ExecutionAccounting(actions: seq<Action>, id: string)
    requires id in Run(EMPTY, actions).jobs
    ensures Accounted(Run(EMPTY, actions).jobs[id])
  {
    hide Inv, EntryOk, AttemptsFit, Accounted;
    EmptyInv();
    RunKeepsInv(EMPTY, actions);
    EntryFacts(Run(EMPTY, actions), id);
    EntryRetries(id, Run(EMPTY, actions).jobs[id]);
    FitIsAccounted(Run(EMPTY, actions).jobs[id]);
  }

  predicate Allowed(previous: Status, current: Status) {
    match current
    case Pending => previous == Processing
    case Processing => previous == Pending
    case Success => previous == Processing
    case Failed => previous == Processing
  }

  lemma {:induction false} PathAllowed(retries: nat, status: Status, k: nat)
    requires 0 < k < |Path(retries, status)|
    ensures Path(retries, status)[0] == Pending && Allowed(Path(retries, status)[k - 1], Path(retries, status)[k])
    decreases retries, if status == Pending then 0 else if status == Processing then 1 else 2
  {
    var path := Path(retries, status);
    var n := |path| - 1;
    var r, before := if status == Pending then retries - 1 else retries, if status == Processing then Pending else Processing;
    if status != Pending || retries > 0 {
      assert path == Path(r, before) + [status];
      PathEnds(r, before);
      if k < n {
        PathAllowed(r, before, k);
      } else {
        PathStarts(r, before);
      }
    }
  }

  lemma {:induction false} PathStarts(retries: nat, status: Status)
    ensures Path(retries, status) != [] && Path(retries, status)[0] == Pending
    decreases retries, if status == Pending then 0 else if status == Processing then 1 else 2
  {
    if status == Processing {
      PathStarts(retries, Pending);
    } else if status != Pending {
      PathStarts(retries, Processing);
    } else if retries > 0 {
      PathStarts(retries - 1, Processing);
    }
  }

  lemma {:induction false} ChainAt(statuses: seq<Status>, k: nat)
    requires k < |statuses|
    ensures |Chain(statuses)| == |statuses|
    ensures Chain(statuses)[k] == Event(if k == 0 then None else Some(statuses[k - 1]), statuses[k])
    decreases |statuses|
  {
    var n := |statuses| - 1;
    if n > 0 {
      ChainAt(statuses[..n], if k < n then k else 0);
    }
  }

  predicate AllowedAt(statuses: seq<Status>, k: nat) {
    0 < k < |statuses| ==> Allowed(statuses[k - 1], statuses[k])
  }

  /** The observer's call number `k` names the status number `k` and the one before. */
  predicate ReportedAt(e: Entry, k: nat) {
    k < |e.events| && k < |e.persisted| ==>
      e.events[k] == Event(if k == 0 then None else Some(e.persisted[k - 1]), e.persisted[k])
  }

  /** The observer has seen, in order, the statuses that the row went through, each call naming the
      one before, except possibly the last; and those statuses follow the allowed transitions. */
  ghost predicate Traced(e: Entry) {
    && |e.persisted| - 1 <= |e.events| <= |e.persisted|
    && e.persisted != [] && e.persisted[0] == Pending && e.persisted[|e.persisted| - 1] == e.row.status
    && (forall k: nat :: AllowedAt(e.persisted, k))
    && (forall k: nat :: ReportedAt(e, k))
  }

  lemma PathIsTraced(e: Entry)
    requires e.row.retryCount >= 0 && e.persisted == Path(e.row.retryCount, e.row.status)
    requires CaughtUp(e) || OneBehind(e)
    ensures Traced(e)
  {
    hide Chain, Path, Allowed, CaughtUp, OneBehind;
    PathEnds(e.row.retryCount, e.row.status);
    PathStarts(e.row.retryCount, e.row.status);
    forall k: nat
      ensures AllowedAt(e.persisted, k)
    {
      if 0 < k < |e.persisted| {
        PathAllowed(e.row.retryCount, e.row.status, k);
      }
    }
    var reported := ReportedStatuses(e);
    forall k: nat
      ensures ReportedAt(e, k)
    {
      if k < |e.events| {
        ChainAt(reported, k);
      }
    }
  }

  lemma ReportedStatuses(e: Entry) returns (reported: seq<Status>)
    requires e.persisted != [] && (CaughtUp(e) || OneBehind(e))
    ensures reported == e.persisted || reported == e.persisted[..|e.persisted| - 1]
    ensures e.events == Chain(reported) && |e.events| == |reported|
  {
    hide Chain;
    reported := if CaughtUp(e) then e.persisted else e.persisted[..|e.persisted| - 1];
    ChainLength(reported);
  }

  lemma ObserverTrace(actions: seq<Action>, id: string)
    requires id in Run(EMPTY, actions).jobs
    ensures Traced(Run(EMPTY, actions).jobs[id])
  {
    hide Inv, Coherent, Stored, AttemptsFit, Chain, Path, Traced;
    EmptyInv();
    RunKeepsInv(EMPTY, actions);
    var s := Run(EMPTY, actions);
    EntryFacts(s, id);
    AttemptsNonNegative(id, s.jobs[id]);
    PathIsTraced(s.jobs[id]);
  }

  lemma ChainLength(statuses: seq<Status>)
    ensures |Chain(statuses)| == |statuses|
  {
    if statuses != [] {
      ChainAt(statuses, 0);
    }
  }
}
