/** The UPDATE that names only the ID is as good as one that compares the row first. */
module BlindWrite {
  import opened Errors
  import opened Ids
  import opened JobEntity
  import opened Protocol
  import opened ProtocolInvariant
  import opened ProtocolSteps
  import opened ProtocolTheorems
  import opened Frames

  // ---------------------------------------------------------------- the guarded system

  /** For each process, the row as it last read or wrote it, with every column. */
  type Sight = map<nat, JobState>

  /** What the processes have seen after an action that led from `s` to `t`. */
  function See(seen: Sight, s: State, a: Action, t: State): Sight {
    match a
    case Load(p, _) =>
      if p < |s.procs| && p < |t.procs| && s.procs[p].pc.Loading? && t.procs[p].pc.Loaded?
      then seen[p := t.procs[p].pc.entity] else seen
    case Save(p, _, _) =>
      if p < |s.procs| && p < |t.procs| && s.procs[p].pc.Saving? && t.procs[p].pc.Reporting?
         && t.procs[p].pc.entity.id in t.jobs
      then seen[p := t.jobs[t.procs[p].pc.entity.id].row] else seen
    case _ => seen
  }

  /** The update of a process finds the row changed since the process last saw it. */
  predicate Conflicts(seen: Sight, s: State, a: Action) {
    a.Save? && a.p < |s.procs| && s.procs[a.p].pc.Saving? && s.procs[a.p].pc.entity.id in s.jobs
    && (a.p !in seen || seen[a.p] != s.jobs[s.procs[a.p].pc.entity.id].row)
  }

  /** A step whose UPDATE also demands that the whole row is as the process last saw it, and fails when
      it is not. */
  function GuardedStep(seen: Sight, s: State, a: Action): State {
    if Conflicts(seen, s, a) then
      Lose(s, a.p, RestOf(s.procs[a.p].role), s.procs[a.p].pc.entity.id, CallFailed)
    else
      Step(s, a)
  }

  function GuardedRun(seen: Sight, s: State, actions: seq<Action>): State
    decreases |actions|
  {
    if actions == [] then s else
      var t := GuardedStep(seen, s, actions[0]);
      GuardedRun(See(seen, s, actions[0], t), t, actions[1..])
  }

  // ---------------------------------------------------------------- what a worker has seen stays

  /** The job whose row the process has read and may still write. */
  function Relies(pc: Pc): Option<string> {
    match pc
    case Loaded(entity) => Some(entity.id)
    case Saving(_, entity, _) => Some(entity.id)
    case Reporting(_, entity, ThenExecute) => Some(entity.id)
    case Starting(entity) => Some(entity.id)
    case Running(entity) => Some(entity.id)
    case Concluding(entity, _) => Some(entity.id)
    case _ => None
  }

  /** The row as such a process goes by it: as loaded, or as it wrote it. */
  function Copy(pc: Pc): Option<JobState> {
    match pc
    case Loaded(entity) => Some(entity)
    case Saving(before, _, _) => Some(before)
    case Reporting(_, entity, ThenExecute) => Some(entity)
    case Starting(entity) => Some(entity)
    case Running(entity) => Some(entity)
    case Concluding(entity, _) => Some(entity)
    case _ => None
  }

  /** The row is, column by column, what the process last saw. */
  predicate SeenAt(seen: Sight, s: State, p: nat)
    requires p < |s.procs|
  {
    var held := Relies(s.procs[p].pc);
    held.Some? ==> p in seen && held.value in s.jobs && seen[p] == s.jobs[held.value].row
  }

  ghost predicate AllSeen(seen: Sight, s: State) {
    forall p :: 0 <= p < |s.procs| ==> SeenAt(seen, s, p)
  }

  lemma ReliesIsHeld(pc: Pc)
    ensures Relies(pc).Some? ==> Holds(pc) == Relies(pc)
  {
  }

  // ---------------------------------------------------------------- the process that acts

  lemma LoadSeen(seen: Sight, s: State, p: nat, reply: Reply)
    requires Inv(s) && p < |s.procs| && SeenAt(seen, s, p)
    ensures var t := StepLoad(s, p, reply);
            p < |t.procs| && SeenAt(See(seen, s, Load(p, reply), t), t, p)
  {
    hide Inv, IsValid, EntryOk, PcOk, RoleOk, HandsOk;
    if s.procs[p].pc.Loading? {
      ProcFacts(s, p);
      assert HeldBy(s.procs[p], s.procs[p].pc.id);
      EntryIDIsValid(s.procs[p].pc.id, s.jobs[s.procs[p].pc.id]);
    }
  }

  lemma SaveSeen(seen: Sight, s: State, p: nat, reply: Reply, stamp: Time)
    requires p < |s.procs| && SeenAt(seen, s, p)
    ensures var t := StepSave(s, p, reply, stamp);
            p < |t.procs| && SeenAt(See(seen, s, Save(p, reply, stamp), t), t, p)
  {
    hide Overwrite;
  }

  /** A step of the process itself, other than reading or writing the row: it goes by the same copy of
      the same job's row, or by none. */
  lemma OtherStepsKeepCopy(s: State, a: Action, p: nat)
    requires p < |s.procs| && !OfOthers(a, p) && !a.Load? && !a.Save?
    ensures p < |Step(s, a).procs|
    ensures var copy := Copy(Step(s, a).procs[p].pc); copy == None || copy == Copy(s.procs[p].pc)
    ensures var held := Relies(Step(s, a).procs[p].pc); held == None || held == Relies(s.procs[p].pc)
  {
    hide IsValid, ParseID, MarkProcessing, MarkSuccess, RecordFailure, FailureText;
    if s.procs[p].pc.Loaded? && a.Begin? {
      KeepsID(s.procs[p].pc.entity, a.now, "");
    } else if s.procs[p].pc.Concluding? && a.Conclude? {
      var Concluding(entity, failure) := s.procs[p].pc;
      KeepsID(entity, a.now, if failure.None? then "" else failure.value);
    }
  }

  lemma ActorIs(a: Action, p: nat)
    requires !OfOthers(a, p) && (a.Load? || a.Save?)
    ensures a.p == p
  {
  }

  /** After its own step a process still has in sight what it may write. */
  lemma ActorSeen(seen: Sight, s: State, a: Action, p: nat)
    requires Inv(s) && p < |s.procs| && SeenAt(seen, s, p) && !OfOthers(a, p)
    ensures p < |Step(s, a).procs| && SeenAt(See(seen, s, a, Step(s, a)), Step(s, a), p)
  {
    hide Inv, StepLoad, StepSave, HistoryGrows, Relies, Copy, OfOthers;
    if a.Load? {
      ActorIs(a, p);
      LoadSeen(seen, s, p, a.reply);
    } else if a.Save? {
      ActorIs(a, p);
      SaveSeen(seen, s, p, a.reply, a.stamp);
    } else {
      hide Step;
      OtherStepsKeepCopy(s, a, p);
      StepGrows(s, a);
    }
  }

  // ---------------------------------------------------------------- the others

  /** An action of others gives the process nothing to rely on. */
  lemma OthersGiveNoSight(s: State, a: Action, p: nat)
    requires Inv(s) && OfOthers(a, p) && p < |Step(s, a).procs|
    requires p < |s.procs| ==> Relies(s.procs[p].pc) == None
    ensures Relies(Step(s, a).procs[p].pc) == None
  {
    hide Inv, OwnStep, IsValid, ParseID, New, StepReport, StepCancel, StepLoad, StepBegin, StepSave,
         StepStart, StepFinish, StepConclude, StepCrash;
    if IsOwn(a) {
      OwnActions(s, a);
      hide Step;
      OthersUnmoved(s, Step(s, a), a.p, p);
    }
  }

  lemma OthersUnmoved(s: State, t: State, q: nat, p: nat)
    requires OwnStep(s, t, q) && q != p && p < |t.procs|
    ensures p < |s.procs| && t.procs[p] == s.procs[p]
  {
  }

  lemma OthersSeen(seen: Sight, s: State, a: Action, p: nat)
    requires Inv(s) && AllSeen(seen, s) && OfOthers(a, p) && p < |Step(s, a).procs|
    ensures SeenAt(See(seen, s, a, Step(s, a)), Step(s, a), p)
  {
    hide Inv, Step, Relies;
    if p < |s.procs| && Relies(s.procs[p].pc).Some? {
      assert SeenAt(seen, s, p);
      ReliesIsHeld(s.procs[p].pc);
      OthersKeepMine(s, a, p, Relies(s.procs[p].pc).value);
    } else {
      OthersGiveNoSight(s, a, p);
    }
  }

  lemma StepSeen(seen: Sight, s: State, a: Action)
    requires Inv(s) && AllSeen(seen, s)
    ensures GuardedStep(seen, s, a) == Step(s, a)
    ensures AllSeen(See(seen, s, a, Step(s, a)), Step(s, a))
  {
    NoConflict(seen, s, a);
    hide Inv, Step, See, SeenAt, OfOthers, Conflicts;
    var t := Step(s, a);
    forall p | 0 <= p < |t.procs|
      ensures SeenAt(See(seen, s, a, t), t, p)
    {
      if OfOthers(a, p) {
        OthersSeen(seen, s, a, p);
      } else if p < |s.procs| {
        ActorSeen(seen, s, a, p);
      } else {
        NobodyActs(s, a, p);
      }
    }
  }

  lemma NoConflict(seen: Sight, s: State, a: Action)
    requires AllSeen(seen, s)
    ensures !Conflicts(seen, s, a)
  {
    if a.Save? && a.p < |s.procs| {
      assert SeenAt(seen, s, a.p);
    }
  }

  lemma NobodyActs(s: State, a: Action, p: nat)
    requires !OfOthers(a, p) && p >= |s.procs|
    ensures Step(s, a) == s
  {
  }

  lemma {:induction false} GuardedRunFrom(seen: Sight, s: State, actions: seq<Action>)
    requires Inv(s) && AllSeen(seen, s)
    ensures GuardedRun(seen, s, actions) == Run(s, actions)
    decreases |actions|
  {
    hide Inv, Step, AllSeen, GuardedStep, See;
    if actions != [] {
      StepSeen(seen, s, actions[0]);
      StepKeepsInv(s, actions[0]);
      GuardedRunFrom(See(seen, s, actions[0], Step(s, actions[0])), Step(s, actions[0]), actions[1..]);
    }
  }

  /** In every run the UPDATE that names only the ID does what one would do that compares the whole row,
      `updated_at` included, with the row as the process last read or wrote it. */
  lemma BlindWriteIsGuarded(actions: seq<Action>)
    ensures GuardedRun(map[], EMPTY, actions) == Run(EMPTY, actions)
  {
    EmptyInv();
    GuardedRunFrom(map[], EMPTY, actions);
  }
}
