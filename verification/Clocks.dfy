/** What the clocks can do to the column `updated_at`, over every run: the readings of the service are
    harmless, and the instants of the database layer are exactly as harmful as it lets them be. */
module Clocks {
  import opened Errors
  import opened Ids
  import opened JobEntity
  import opened Protocol
  import opened ProtocolInvariant
  import opened ProtocolSteps
  import opened ProtocolTheorems
  import opened Frames
  import opened BlindWrite
  import opened Mapper
  import opened UseCases
  import opened UseCaseTheorems

  /** No row's `updated_at` is earlier than it was. */
  predicate RowsAdvance(jobs: map<string, Entry>, later: map<string, Entry>) {
    forall id <- jobs :: id in later && jobs[id].row.updatedAt <= later[id].row.updatedAt
  }

  /** An update that takes effect, and writes an earlier instant than the row has. */
  predicate TakesBack(s: State, a: Action) {
    && a.Save? && a.reply != Refused && a.p < |s.procs| && s.procs[a.p].pc.Saving?
    && var entity := s.procs[a.p].pc.entity;
       entity.id in s.jobs && StampedAt(entity.updatedAt, a.stamp) < s.jobs[entity.id].row.updatedAt
  }

  lemma SaveAdvancesIff(s: State, p: nat, reply: Reply, stamp: Time)
    ensures RowsAdvance(s.jobs, StepSave(s, p, reply, stamp).jobs) <==> !TakesBack(s, Save(p, reply, stamp))
  {
    hide StampedAt;
    if p < |s.procs| && s.procs[p].pc.Saving? && s.procs[p].pc.entity.id in s.jobs && reply != Refused {
      var entity := s.procs[p].pc.entity;
      var t := StepSave(s, p, reply, stamp);
      assert t.jobs[entity.id].row.updatedAt == StampedAt(entity.updatedAt, stamp);
      assert forall id <- s.jobs :: id in t.jobs && (id != entity.id ==> t.jobs[id] == s.jobs[id]);
    }
  }

  lemma GrowingAdvances(jobs: map<string, Entry>, later: map<string, Entry>)
    requires JobsGrow(jobs, later)
    ensures RowsAdvance(jobs, later)
  {
    hide HistoryGrows;
  }

  /** One action takes a row back exactly when it is an update that writes an earlier instant; and that
      instant is earlier than the row's only because an instant of the database layer had put the
      column ahead of the copy that the process goes by. */
  lemma StepTakesBackIff(s: State, a: Action)
    requires Inv(s)
    ensures RowsAdvance(s.jobs, Step(s, a).jobs) <==> !TakesBack(s, a)
    ensures TakesBack(s, a) ==>
              var Saving(before, entity, _) := s.procs[a.p].pc;
              before.id == entity.id && entity.id in s.jobs && before.updatedAt < s.jobs[before.id].row.updatedAt
  {
    hide Inv, Step, RowsAdvance, TakesBack, JobsGrow;
    if a.Save? {
      SaveIsStep(s, a);
      SaveAdvancesIff(s, a.p, a.reply, a.stamp);
      if TakesBack(s, a) {
        TakenBackWasAhead(s, a);
      }
    } else {
      StepGrows(s, a);
      GrowingAdvances(s.jobs, Step(s, a).jobs);
      OnlySavesTakeBack(s, a);
    }
  }

  lemma OnlySavesTakeBack(s: State, a: Action)
    ensures TakesBack(s, a) ==> a.Save?
  {
  }

  lemma SaveIsStep(s: State, a: Action)
    requires a.Save?
    ensures Step(s, a) == StepSave(s, a.p, a.reply, a.stamp)
  {
    hide StepSubmit, StepEnlist, StepHandOver, StepInsert, StepReport, StepPublish, StepPop,
         StepCancel, StepLoad, StepBegin, StepSave, StepStart, StepFinish, StepConclude, StepCrash;
  }

  lemma TakenBackWasAhead(s: State, a: Action)
    requires Inv(s) && TakesBack(s, a)
    ensures var Saving(before, entity, _) := s.procs[a.p].pc;
            before.id == entity.id && entity.id in s.jobs && before.updatedAt < s.jobs[before.id].row.updatedAt
  {
    hide Inv, EntryOk, DueWrite, CaughtUp, RoleOk, HandsOk;
    ProcFacts(s, a.p);
    var Saving(before, entity, next) := s.procs[a.p].pc;
    DueWriteFacts(s.jobs[entity.id], before, entity, next);
  }

  // ---------------------------------------------------------------- runs without stamps

  /** The database layer writes `updated_at` as the record has it. */
  predicate Unstamped(a: Action) {
    a.Save? ==> a.stamp == ZERO_TIME
  }

  /** What the process goes by is the row itself, in every column. */
  predicate ExactAt(s: State, p: nat)
    requires p < |s.procs|
  {
    var copy := Copy(s.procs[p].pc);
    copy.Some? ==> copy.value.id in s.jobs && s.jobs[copy.value.id].row == copy.value
  }

  ghost predicate Exact(s: State) {
    forall p {:trigger ExactAt(s, p)} :: 0 <= p < |s.procs| ==> ExactAt(s, p)
  }

  /** Where processes are exact, no update without a stamp takes a row back: this is where the refusal
      of a clock reading before the last update counts. */
  lemma ExactAdvances(s: State, a: Action)
    requires Inv(s) && Exact(s) && Unstamped(a)
    ensures RowsAdvance(s.jobs, Step(s, a).jobs)
  {
    hide Inv, Step, RowsAdvance;
    if a.Save? && a.p < |s.procs| {
      assert ExactAt(s, a.p);
    }
    StepTakesBackIff(s, a);
  }

  lemma LoadIsExact(s: State, p: nat, reply: Reply)
    requires Inv(s) && p < |s.procs| && ExactAt(s, p)
    ensures var t := StepLoad(s, p, reply); p < |t.procs| && ExactAt(t, p)
  {
    hide Inv, IsValid, EntryOk, PcOk, RoleOk, HandsOk;
    if s.procs[p].pc.Loading? {
      ProcFacts(s, p);
      assert HeldBy(s.procs[p], s.procs[p].pc.id);
      EntryIDIsValid(s.procs[p].pc.id, s.jobs[s.procs[p].pc.id]);
    }
  }

  lemma SaveIsExact(s: State, p: nat, reply: Reply)
    requires Inv(s) && p < |s.procs| && ExactAt(s, p)
    ensures var t := StepSave(s, p, reply, ZERO_TIME); p < |t.procs| && ExactAt(t, p)
  {
    hide Inv, EntryOk, DueWrite, RoleOk, HandsOk, Overwrite;
    if s.procs[p].pc.Saving? {
      ProcFacts(s, p);
      var Saving(before, entity, next) := s.procs[p].pc;
      DueWriteFacts(s.jobs[entity.id], before, entity, next);
      OverwriteMirrors(s.jobs[entity.id].row, before, entity, ZERO_TIME);
    }
  }

  lemma ActorIsExact(s: State, a: Action, p: nat)
    requires Inv(s) && p < |s.procs| && ExactAt(s, p) && !OfOthers(a, p) && Unstamped(a)
    ensures p < |Step(s, a).procs| && ExactAt(Step(s, a), p)
  {
    hide Inv, StepLoad, StepSave, HistoryGrows, Copy, OfOthers;
    if a.Load? {
      ActorIs(a, p);
      LoadIsExact(s, p, a.reply);
    } else if a.Save? {
      ActorIs(a, p);
      SaveIsExact(s, p, a.reply);
    } else {
      hide Step;
      OtherStepsKeepCopy(s, a, p);
      StepGrows(s, a);
    }
  }

  lemma CopyIsRelied(pc: Pc)
    ensures Copy(pc).Some? <==> Relies(pc).Some?
  {
  }

  lemma OthersLeaveExact(s: State, a: Action, p: nat)
    requires Inv(s) && OfOthers(a, p) && p < |Step(s, a).procs|
    requires p < |s.procs| ==> PcOk(s.jobs, s.procs[p].pc) && ExactAt(s, p)
    ensures ExactAt(Step(s, a), p)
  {
    hide Inv, Step, Relies, Copy, OfOthers, PcOk;
    CopyIsRelied(Step(s, a).procs[p].pc);
    if p < |s.procs| && Relies(s.procs[p].pc).Some? {
      CopyIsHeld(s.jobs, s.procs[p].pc);
      OthersKeepMine(s, a, p, Relies(s.procs[p].pc).value);
    } else {
      OthersGiveNoSight(s, a, p);
    }
  }

  lemma CopyIsHeld(jobs: map<string, Entry>, pc: Pc)
    requires PcOk(jobs, pc) && Relies(pc).Some?
    ensures Holds(pc) == Relies(pc) && Copy(pc).Some? && Copy(pc).value.id == Relies(pc).value
  {
    hide Coherent, CaughtUp, OneBehind, AttemptsFit;
  }

  lemma StepIsExact(s: State, a: Action)
    requires Inv(s) && Exact(s) && Unstamped(a)
    ensures Exact(Step(s, a))
  {
    hide Inv, Step, ExactAt, OfOthers;
    var t := Step(s, a);
    forall p | 0 <= p < |t.procs|
      ensures ExactAt(t, p)
    {
      if p < |s.procs| {
        assert ExactAt(s, p);
        ProcFacts(s, p);
      }
      if OfOthers(a, p) {
        OthersLeaveExact(s, a, p);
      } else if p < |s.procs| {
        ActorIsExact(s, a, p);
      } else {
        NobodyActs(s, a, p);
      }
    }
  }

  lemma {:induction false} UnstampedRun(s: State, actions: seq<Action>)
    requires Inv(s) && Exact(s) && forall k :: 0 <= k < |actions| ==> Unstamped(actions[k])
    ensures Exact(Run(s, actions)) && RowsAdvance(s.jobs, Run(s, actions).jobs)
    decreases |actions|
  {
    hide Inv, Exact, Step, Unstamped;
    if actions != [] {
      StepIsExact(s, actions[0]);
      ExactAdvances(s, actions[0]);
      StepKeepsInv(s, actions[0]);
      UnstampedRun(Step(s, actions[0]), actions[1..]);
    }
  }

  /** Any clock is safe. Whatever the clocks of the service show, forwards or backwards, from any moment
      of a run to any later one no row's `updated_at` decreases; and at every moment each process goes
      by a copy that is the row itself. */
  lemma ClockIsSafe(earlier: seq<Action>, later: seq<Action>)
    requires forall k :: 0 <= k < |earlier| ==> Unstamped(earlier[k])
    requires forall k :: 0 <= k < |later| ==> Unstamped(later[k])
    ensures RowsAdvance(Run(EMPTY, earlier).jobs, Run(EMPTY, earlier + later).jobs)
    ensures Exact(Run(EMPTY, earlier + later))
  {
    hide Inv, Run, Exact, RowsAdvance, Unstamped;
    EmptyInv();
    NobodyIsExact();
    UnstampedRun(EMPTY, earlier);
    RunKeepsInv(EMPTY, earlier);
    RunAppend(EMPTY, earlier, later);
    UnstampedRun(Run(EMPTY, earlier), later);
  }

  lemma NobodyIsExact()
    ensures Exact(EMPTY)
  {
  }

  // ---------------------------------------------------------------- runs with stamps

  /** No update of the run takes its row back. */
  predicate NeverTakesBack(s: State, actions: seq<Action>)
    decreases |actions|
  {
    actions == [] || (!TakesBack(s, actions[0]) && NeverTakesBack(Step(s, actions[0]), actions[1..]))
  }

  /** The same for the database layer's instants, as long as none of its updates takes a row back. */
  lemma {:induction false} StampedRunAdvances(s: State, actions: seq<Action>)
    requires Inv(s) && NeverTakesBack(s, actions)
    ensures RowsAdvance(s.jobs, Run(s, actions).jobs)
    decreases |actions|
  {
    hide Inv, Step, TakesBack;
    if actions != [] {
      StepTakesBackIff(s, actions[0]);
      StepKeepsInv(s, actions[0]);
      StampedRunAdvances(Step(s, actions[0]), actions[1..]);
    }
  }

  /** A call that succeeds: the first update is stamped, two instants after `now`; the success is
      recorded one instant after `now`, and its update is not stamped. */
  function AheadAndBack(now: Time, failure: Error): Answers {
    Answers(Done, now, Done, now + 2, None, now + 1, Done, ZERO_TIME, Done, failure)
  }

  /** The row after the first update of such a call. */
  lemma FirstUpdate(s: State, p: nat, id: string, now: Time, failure: Error)
    requires Inv(s) && WorkerAt(s, p, Loading(id)) && now > 0
    requires id in s.jobs && s.jobs[id].row.updatedAt <= now
    ensures var t := Run(s, ProcessScript(p, AheadAndBack(now, failure))[..3]);
            id in t.jobs && t.jobs[id].row.updatedAt == now + 2
  {
    hide Inv, Step, ToDomain, IsValid;
    var script := ProcessScript(p, AheadAndBack(now, failure));
    ThreeSteps(s, script);
    LoadingPends(s, p, id);
    LoadStep(s, p, id);
    var row := s.jobs[id].row;
    BeginStep(Step(s, Load(p, Done)), p, row, now);
    StampedSave(Step(Step(s, Load(p, Done)), Begin(p, now)), p, row, Started(row, now), now);
  }

  lemma LoadingPends(s: State, p: nat, id: string)
    requires Inv(s) && WorkerAt(s, p, Loading(id))
    ensures Known(s, id) && s.jobs[id].row.status == Pending
  {
    hide Inv, ToDomain, IsValid, Known;
    HeldIsKnown(s, p, id);
    ProcNoSurprise(s, p);
  }

  lemma LoadStep(s: State, p: nat, id: string)
    requires WorkerAt(s, p, Loading(id)) && Known(s, id)
    ensures Step(s, Load(p, Done)) == SetPc(s, p, Loaded(s.jobs[id].row))
  {
    hide ToDomain, IsValid, SetPc, Lose;
  }

  lemma BeginStep(s: State, p: nat, row: JobState, now: Time)
    requires WorkerAt(s, p, Loaded(row)) && row.status == Pending && row.updatedAt <= now && now > 0
    ensures Step(s, Begin(p, now)) == SetPc(s, p, Saving(row, Started(row, now), ThenExecute))
  {
    hide SetPc, Lose;
  }

  function Started(row: JobState, now: Time): JobState {
    row.(status := Processing, startedAt := Some(now), completedAt := None, updatedAt := now)
  }

  lemma StampedSave(s: State, p: nat, row: JobState, started: JobState, now: Time)
    requires p < |s.procs| && s.procs[p].pc == Saving(row, started, ThenExecute) && started.id in s.jobs
    requires started.updatedAt == now > 0
    ensures var t := Step(s, Save(p, Done, now + 2));
            started.id in t.jobs && t.jobs[started.id].row.updatedAt == now + 2
  {
  }

  lemma ThreeSteps(s: State, script: seq<Action>)
    requires |script| >= 3
    ensures Run(s, script[..3]) == Step(Step(Step(s, script[0]), script[1]), script[2])
  {
    hide Step;
    assert script[..3] == [script[0]] + ([script[1]] + [script[2]]);
    RunAppend(s, [script[0]], [script[1]] + [script[2]]);
    RunAppend(Step(s, script[0]), [script[1]], [script[2]]);
  }

  lemma EndsBehind(w: World, id: string, row: JobState, now: Time, failure: Error)
    requires id in w.table && ToDomain(w.table[id]) == Ok(row) && row.id == id && IsValid(id)
    requires row.status == Pending && row.updatedAt <= now && now > 0
    ensures var after := Process(w, id, AheadAndBack(now, failure)).0;
            id in after.table && after.table[id].updatedAt == now + 1
  {
    hide IsValid, ToDomain, TypeName, StatusName, EventsOf, Fail;
  }

  /** The row that such a call leaves. */
  lemma LastUpdate(s: State, p: nat, id: string, now: Time, failure: Error)
    requires Inv(s) && WorkerAt(s, p, Loading(id)) && now > 0
    requires id in s.jobs && s.jobs[id].row.updatedAt <= now
    ensures var t := Run(s, ProcessScript(p, AheadAndBack(now, failure)));
            id in t.jobs && t.jobs[id].row.updatedAt == now + 1
  {
    hide Inv, View, Run, ToDomain, Step, IsValid, TypeName, StatusName, EventsOf, Process, Rest;
    var a := AheadAndBack(now, failure);
    LoadingPends(s, p, id);
    ScriptIsRest(s, p, a);
    WholeCall(View(s), id, a);
    assert ProcessScript(p, a)[0..] == ProcessScript(p, a);
    ViewAt(s, id);
    EndsBehind(View(s), id, s.jobs[id].row, now, failure);
    ViewAt(Run(s, ProcessScript(p, a)), id);
  }

  /** And an instant of the database layer can be taken back: from every reachable state, by every worker
      that has received an ID, if only the clock of the service is behind that instant. */
  lemma StampTakenBack(before: seq<Action>, p: nat, id: string, now: Time, failure: Error)
    requires WorkerAt(Run(EMPTY, before), p, Loading(id)) && now > 0
    requires id in Run(EMPTY, before).jobs && Run(EMPTY, before).jobs[id].row.updatedAt <= now
    ensures var s := Run(EMPTY, before);
            var script := ProcessScript(p, AheadAndBack(now, failure));
            var written := Run(s, script[..3]);
            !RowsAdvance(written.jobs, Run(written, script[3..]).jobs)
  {
    hide Inv, Run;
    var s := Run(EMPTY, before);
    var script := ProcessScript(p, AheadAndBack(now, failure));
    EmptyInv();
    RunKeepsInv(EMPTY, before);
    FirstUpdate(s, p, id, now, failure);
    LastUpdate(s, p, id, now, failure);
    assert script == script[..3] + script[3..];
    RunAppend(s, script[..3], script[3..]);
  }
}
