/** Every action of the job protocol keeps the invariant. */
module ProtocolSteps {
  import opened GoText
  import opened Errors
  import opened Ids
  import opened JobEntity
  import opened Executor
  import opened Protocol
  import opened ProtocolInvariant

  /** What the invariant says of one process. */
  lemma ProcFacts(s: State, p: nat)
    requires Inv(s) && p < |s.procs|
    ensures PcOk(s.jobs, s.procs[p].pc) && RoleOk(s.procs[p]) && HandsOk(s.procs[p])
    ensures forall id :: HeldBy(s.procs[p], id) ==>
              id in s.jobs && EntryOk(id, s.jobs[id]) && s.jobs[id].faults == [] && !s.jobs[id].settled
  {
    hide PcOk, EntryOk, RoleOk, HandsOk;
    forall id | HeldBy(s.procs[p], id)
      ensures id in s.jobs && EntryOk(id, s.jobs[id]) && s.jobs[id].faults == [] && !s.jobs[id].settled
    {
      HolderIsTheOnlyPlace(s, p, id);
    }
  }

  // ---------------------------------------------------------------- processes join

  /** A new process that is responsible for no job changes nobody's account. */
  lemma JoinKeepsInv(s: State, proc: Proc)
    requires Inv(s) && Holds(proc.pc) == None && PcOk(s.jobs, proc.pc) && RoleOk(proc) && HandsOk(proc)
    ensures Inv(s.(procs := s.procs + [proc]))
  {
    hide EntryOk, Coherent, Stored;
    var t := s.(procs := s.procs + [proc]);
    forall id
      ensures Balanced(t, id)
    {
      assert Balanced(s, id);
      HoldersAppend(s.procs, proc, id);
    }
    forall q | 0 <= q < |t.procs|
      ensures PcOk(t.jobs, t.procs[q].pc) && RoleOk(t.procs[q]) && HandsOk(t.procs[q])
    {
      assert t.procs[q] == if q < |s.procs| then s.procs[q] else proc;
    }
  }

  /** A process that is responsible for no job stops or rests. */
  lemma RestKeepsInv(s: State, p: nat, proc: Proc)
    requires Inv(s) && p < |s.procs| && Holds(s.procs[p].pc) == None
    requires Holds(proc.pc) == None && PcOk(s.jobs, proc.pc) && RoleOk(proc) && HandsOk(proc)
    ensures Inv(s.(procs := s.procs[p := proc]))
  {
    hide EntryOk, Coherent, Stored;
    var t := s.(procs := s.procs[p := proc]);
    forall id
      ensures Balanced(t, id)
    {
      assert Balanced(s, id);
      HoldersUpdate(s.procs, p, proc, id);
    }
    forall q | 0 <= q < |t.procs|
      ensures PcOk(t.jobs, t.procs[q].pc) && RoleOk(t.procs[q]) && HandsOk(t.procs[q])
    {
      assert t.procs[q] == if q == p then proc else s.procs[q];
    }
  }

  lemma SubmitKeepsInv(s: State, id: string, typeName: string, payload: Payload, now: Time)
    requires Inv(s)
    ensures Inv(StepSubmit(s, id, typeName, payload, now))
  {
    hide Inv, EntryOk;
    match New(id, typeName, payload, now)
    case Err(_) =>
    case Ok(entity) =>
      NewIsCoherent(id, typeName, payload, now);
      JoinKeepsInv(s, Proc(Api, Creating(entity), [], []));
  }

  // ---------------------------------------------------------------- the table

  /** A pending row holds its job exactly. */
  lemma PendingIsCoherent(row: JobState)
    requires Stored(row) && row.status == Pending
    ensures Coherent(row)
  {
    hide IsValid, ValidatePayload, IsReason;
    assert row.(updatedAt := LastEvent(row)) == row;
  }

  /** A row that was written once it had been started. */
  lemma WrittenIsStored(row: JobState, entity: JobState)
    requires Mirrors(row, entity) && Coherent(entity) && entity.startedAt.Some? && row.updatedAt != ZERO_TIME
    ensures Stored(row)
  {
    hide IsValid, ValidatePayload, IsReason;
    if entity.status != Pending {
      assert row.(updatedAt := LastEvent(row)) == entity;
    } else {
      assert row.(updatedAt := LastEvent(row)) == row;
    }
  }

  lemma FreshIsStored(entity: JobState)
    requires Fresh(entity)
    ensures Stored(entity)
  {
    hide IsValid, ValidatePayload, IsReason;
    assert entity.(updatedAt := LastEvent(entity)) == entity;
  }

  /** What a write leaves in the row. */
  lemma OverwriteMirrors(row: JobState, before: JobState, entity: JobState, stamp: Time)
    requires Mirrors(row, before) && SameOrigin(before, entity)
    ensures Mirrors(Overwrite(row, entity, stamp), entity)
    ensures entity.updatedAt != ZERO_TIME ==> Overwrite(row, entity, stamp).updatedAt != ZERO_TIME
    ensures stamp == ZERO_TIME ==> Overwrite(row, entity, stamp) == entity
  {
  }

  lemma FirstEntryOk(entity: JobState)
    requires Fresh(entity)
    ensures EntryOk(entity.id, Entry(entity, [], [entity.status], [], [], false))
    ensures DueReport(Entry(entity, [], [entity.status], [], [], false), None, entity, ThenPublish)
  {
    var e := Entry(entity, [], [entity.status], [], [], false);
    assert e.persisted[..0] == [];
    assert OneBehind(e);
    assert Path(0, Pending) == [Pending];
    FreshIsStored(entity);
  }

  /** A row that did not exist appears in the hand of the call that inserts it. */
  lemma InsertedKeepsInv(s: State, p: nat, pc: Pc, id: string, entry: Entry)
    requires Inv(s) && p < |s.procs| && Holds(s.procs[p].pc) == None && id !in s.jobs
    requires Holds(pc) == None || Holds(pc) == Some(id)
    requires (if Holds(pc) == Some(id) then 1 else 0) + |entry.faults| == 1 && !entry.settled
    requires EntryOk(id, entry) && PcOk(s.jobs[id := entry], pc)
    requires RoleOk(s.procs[p].(pc := pc)) && HandsOk(s.procs[p].(pc := pc))
    ensures Inv(Move(s, p, pc, id, entry))
  {
    hide EntryOk, PcOk, RoleOk, HandsOk, EntriesOk;
    var t := Move(s, p, pc, id, entry);
    forall other
      ensures Balanced(t, other)
    {
      assert Balanced(s, other);
      HoldersUpdate(s.procs, p, s.procs[p].(pc := pc), other);
    }
    forall q | 0 <= q < |t.procs|
      ensures PcOk(t.jobs, t.procs[q].pc) && RoleOk(t.procs[q]) && HandsOk(t.procs[q])
    {
      if q != p {
        assert PcOk(s.jobs, s.procs[q].pc);
        if Holds(s.procs[q].pc) == Some(id) {
          HolderIsTheOnlyPlace(s, q, id);
        }
        PcOkFrame(s.jobs, id, entry, s.procs[q].pc);
      }
    }
    OtherEntriesOk(s.jobs, id, entry);
    assert forall i :: 0 <= i < |s.list| ==> Waiting(s.jobs, s.list[i]);
    OthersWait(s.jobs, s.list, id, entry);
  }

  lemma InsertKeepsInv(s: State, p: nat, reply: Reply)
    requires Inv(s)
    ensures Inv(StepInsert(s, p, reply))
  {
    hide Inv, EntryOk, Coherent, Stored, DueReport, Path, Chain, AttemptsFit;
    if p < |s.procs| && s.procs[p].pc.Creating? {
      ProcFacts(s, p);
      var entity := s.procs[p].pc.entity;
      if reply == Refused || entity.id in s.jobs {
        RestKeepsInv(s, p, s.procs[p].(pc := Gone));
      } else {
        NewRowKeepsInv(s, p, entity, reply);
      }
    }
  }

  lemma NewRowKeepsInv(s: State, p: nat, entity: JobState, reply: Reply)
    requires Inv(s) && p < |s.procs| && s.procs[p].pc == Creating(entity) && entity.id !in s.jobs
    requires Fresh(entity) && RoleOk(s.procs[p]) && HandsOk(s.procs[p]) && reply != Refused
    ensures Inv(StepInsert(s, p, reply))
  {
    hide Inv, EntryOk, Coherent, Stored, DueReport, Path, Chain, AttemptsFit;
    var entry := Entry(entity, [], [entity.status], [], [], false);
    FirstEntryOk(entity);
    if reply == Done {
      InsertedKeepsInv(s, p, Reporting(None, entity, ThenPublish), entity.id, entry);
    } else {
      LostEntryOk(entity.id, entry, ReplyLost);
      assert [] + [ReplyLost] == [ReplyLost];
      InsertedKeepsInv(s, p, Gone, entity.id, entry.(faults := [ReplyLost]));
    }
  }

  lemma LostEntryOk(id: string, entry: Entry, fault: Fault)
    requires EntryOk(id, entry) && !IsTerminal(entry.row.status)
    ensures EntryOk(id, entry.(faults := entry.faults + [fault]))
  {
    hide Coherent, Stored, AttemptsFit, Chain, Path;
  }

  // ---------------------------------------------------------------- the observer

  lemma ReportedCaughtUp(e: Entry, known: Option<JobState>, entity: JobState, next: Next)
    requires DueReport(e, known, entity, next) && e.persisted[|e.persisted| - 1] == entity.status
    ensures Chain(e.persisted) ==
            e.events + [Event(if known.None? then None else Some(known.value.status), entity.status)]
  {
    hide Chain;
    var n := |e.persisted| - 1;
    ChainGrows(e.persisted[..n], e.persisted[n]);
    assert e.persisted == e.persisted[..n] + [e.persisted[n]];
  }

  lemma ReportedEntryOk(e: Entry, known: Option<JobState>, entity: JobState, next: Next)
    requires EntryOk(entity.id, e) && DueReport(e, known, entity, next)
    ensures var event := Event(if known.None? then None else Some(known.value.status), entity.status);
            var done := e.(events := e.events + [event]);
            EntryOk(entity.id, done) && CaughtUp(done)
  {
    hide Coherent, Stored, AttemptsFit, Path, Chain;
    AttemptsNonNegative(entity.id, e);
    PathEnds(e.row.retryCount, e.row.status);
    ReportedCaughtUp(e, known, entity, next);
  }

  /** The entry after the observer call that this process makes. */
  function Reported(s: State, p: nat): Entry
    requires p < |s.procs| && s.procs[p].pc.Reporting? && s.procs[p].pc.entity.id in s.jobs
  {
    var Reporting(known, entity, _) := s.procs[p].pc;
    var e := s.jobs[entity.id];
    e.(events := e.events + [Event(if known.None? then None else Some(known.value.status), entity.status)])
  }

  lemma ReportKeepsInv(s: State, p: nat)
    requires Inv(s)
    ensures Inv(StepReport(s, p))
  {
    hide Inv, EntryOk, Coherent, Stored, AttemptsFit, Path, Chain, CaughtUp, OneBehind, RoleOk, HandsOk;
    if p < |s.procs| && s.procs[p].pc.Reporting? && s.procs[p].pc.entity.id in s.jobs {
      ProcFacts(s, p);
      var Proc(role, Reporting(known, entity, next), _, _) := s.procs[p];
      var id := entity.id;
      var entry := Reported(s, p);
      assert HeldBy(s.procs[p], id);
      ReportedEntryOk(s.jobs[id], known, entity, next);
      match next
      case ThenExecute => ReportedMove(s, p, Starting(entity), entry);
      case ThenPublish => ReportedMove(s, p, Publishing(entity), entry);
      case ThenReturn =>
        SettledEntryOk(id, entry);
        ReportedMove(s, p, RestOf(role), entry.(settled := true));
    }
  }

  lemma ReportedMove(s: State, p: nat, pc: Pc, entry: Entry)
    requires Inv(s) && p < |s.procs| && s.procs[p].pc.Reporting? && s.procs[p].pc.entity.id in s.jobs
    requires PcOk(s.jobs, s.procs[p].pc) && RoleOk(s.procs[p]) && HandsOk(s.procs[p])
    requires var Reporting(_, entity, next) := s.procs[p].pc;
             && EntryOk(entity.id, entry) && CaughtUp(entry) && entry.faults == []
             && entry.(events := [], settled := false) == s.jobs[entity.id].(events := [], settled := false)
             && match next
                case ThenExecute => pc == Starting(entity) && !entry.settled
                case ThenPublish => pc == Publishing(entity) && !entry.settled
                case ThenReturn => pc == RestOf(s.procs[p].role) && entry.settled
    ensures Inv(Move(s, p, pc, s.procs[p].pc.entity.id, entry))
  {
    hide Inv, EntryOk, Coherent, Stored, AttemptsFit, Path, Chain, CaughtUp, OneBehind;
    assert HeldBy(s.procs[p], s.procs[p].pc.entity.id);
    MoveKeepsInv(s, p, pc, s.procs[p].pc.entity.id, entry);
  }

  lemma SettledEntryOk(id: string, entry: Entry)
    requires EntryOk(id, entry) && IsTerminal(entry.row.status)
    ensures EntryOk(id, entry.(settled := true))
    ensures CaughtUp(entry) ==> CaughtUp(entry.(settled := true))
  {
    hide Coherent, Stored, AttemptsFit, Chain, Path;
  }

  // ---------------------------------------------------------------- the list

  lemma ReversePush(id: string, list: seq<string>)
    ensures Reverse([id] + list) == Reverse(list) + [id]
  {
    assert ([id] + list)[1..] == list;
  }

  lemma {:induction false} ReversePop(list: seq<string>)
    requires list != []
    ensures Reverse(list) == [list[|list| - 1]] + Reverse(list[..|list| - 1])
  {
    var n := |list| - 1;
    if n > 0 {
      ReversePop(list[1..]);
      assert list[1..][..n - 1] == list[..n][1..];
      assert Reverse(list) == Reverse(list[1..]) + [list[0]];
      assert Reverse(list[..n]) == Reverse(list[..n][1..]) + [list[0]];
    }
  }

  /** A process passes its job on to the list. */
  lemma PushKeepsInv(s: State, p: nat, pc: Pc, id: string)
    requires Inv(s) && p < |s.procs| && HeldBy(s.procs[p], id) && Waiting(s.jobs, id)
    requires pc == Gone || (pc == Idle && s.procs[p].role == Working)
    requires HandsOk(s.procs[p].(pc := pc))
    ensures Inv(SetPc(s, p, pc).(list := [id] + s.list, pushed := s.pushed + [id]))
  {
    hide EntryOk, PcOk, RoleOk, HandsOk, Balanced, Waiting, Reverse;
    var t := SetPc(s, p, pc).(list := [id] + s.list, pushed := s.pushed + [id]);
    forall other
      ensures Balanced(t, other)
    {
      PushBalance(s, p, pc, id, other);
    }
    forall q | 0 <= q < |t.procs|
      ensures PcOk(t.jobs, t.procs[q].pc) && RoleOk(t.procs[q]) && HandsOk(t.procs[q])
    {
      if q == p {
        RestIsFine(s, p, pc);
      } else {
        assert t.procs[q] == s.procs[q];
      }
    }
    ReversePush(id, s.list);
  }

  lemma PushBalance(s: State, p: nat, pc: Pc, id: string, other: string)
    requires Inv(s) && p < |s.procs| && HeldBy(s.procs[p], id) && Holds(pc) == None
    ensures Balanced(SetPc(s, p, pc).(list := [id] + s.list, pushed := s.pushed + [id]), other)
  {
    hide EntryOk, PcOk, RoleOk, HandsOk, Waiting, Reverse;
    HolderIsTheOnlyPlace(s, p, id);
    assert Balanced(s, other);
    HoldersUpdate(s.procs, p, s.procs[p].(pc := pc), other);
    assert multiset([id] + s.list) == multiset{id} + multiset(s.list);
  }

  lemma RestIsFine(s: State, p: nat, pc: Pc)
    requires p < |s.procs| && (pc == Gone || (pc == Idle && s.procs[p].role == Working))
    ensures PcOk(s.jobs, pc) && RoleOk(s.procs[p].(pc := pc))
  {
  }

  lemma PublishKeepsInv(s: State, p: nat, reply: Reply)
    requires Inv(s)
    ensures Inv(StepPublish(s, p, reply))
  {
    if p < |s.procs| && s.procs[p].pc.Publishing? {
      var id := s.procs[p].pc.entity.id;
      var rest := RestOf(s.procs[p].role);
      assert PcOk(s.jobs, s.procs[p].pc) && RoleOk(s.procs[p]) && HandsOk(s.procs[p]);
      hide Inv, EntryOk, Coherent, Stored;
      if !IsValid(id) || reply == Refused {
        LoseKeepsInv(s, p, rest, id, CallFailed);
      } else {
        PushKeepsInv(s, p, rest, id);
      }
    }
  }

  lemma PopCounts(list: seq<string>, id: string)
    requires list != []
    ensures var n := |list| - 1;
            multiset(list[..n])[id] + (if list[n] == id then 1 else 0) == multiset(list)[id]
  {
    var n := |list| - 1;
    assert list == list[..n] + [list[n]];
  }

  /** The state after the last ID of the list went to process `p`, or was lost there. */
  function Popped(s: State, p: nat, proc: Proc, entry: Entry): State
    requires p < |s.procs| && s.list != []
  {
    var n := |s.list| - 1;
    s.(list := s.list[..n], popped := s.popped + [s.list[n]],
       procs := s.procs[p := proc], jobs := s.jobs[s.list[n] := entry])
  }

  lemma PoppedBalance(s: State, p: nat, proc: Proc, entry: Entry, other: string)
    requires Inv(s) && p < |s.procs| && Holds(s.procs[p].pc) == None && s.list != []
    requires var id := s.list[|s.list| - 1];
             && (Holds(proc.pc) == None || proc.pc == Holding(id))
             && (if proc.pc == Holding(id) then 1 else 0) + |entry.faults| == 1 && !entry.settled
    ensures Balanced(Popped(s, p, proc, entry), other)
  {
    hide EntryOk, PcOk, RoleOk, HandsOk, Waiting, Reverse;
    ListedIsTheOnlyPlace(s, |s.list| - 1);
    assert Balanced(s, other);
    HoldersUpdate(s.procs, p, proc, other);
    PopCounts(s.list, other);
  }

  lemma PoppedRest(s: State, p: nat, proc: Proc, entry: Entry)
    requires Inv(s) && p < |s.procs| && Holds(s.procs[p].pc) == None && s.list != []
    ensures var t := Popped(s, p, proc, entry);
            && ListOk(t.jobs, t.list)
            && forall q :: 0 <= q < |t.procs| && q != p ==>
                 PcOk(t.jobs, t.procs[q].pc) && RoleOk(t.procs[q]) && HandsOk(t.procs[q])
  {
    hide EntryOk, Coherent, Stored, AttemptsFit, Chain, Path, DueWrite, DueReport;
    var n := |s.list| - 1;
    var id := s.list[n];
    var t := Popped(s, p, proc, entry);
    ListedIsTheOnlyPlace(s, n);
    forall q | 0 <= q < |t.procs| && q != p
      ensures PcOk(t.jobs, t.procs[q].pc) && RoleOk(t.procs[q]) && HandsOk(t.procs[q])
    {
      assert !HeldBy(s.procs[q], id) && t.procs[q] == s.procs[q];
      PcOkFrame(s.jobs, id, entry, s.procs[q].pc);
    }
    PopCounts(s.list, id);
    forall i | 0 <= i < |t.list|
      ensures Waiting(t.jobs, t.list[i])
    {
      assert Waiting(s.jobs, s.list[i]);
      assert t.list[i] in multiset(t.list);
    }
  }

  /** The last ID of the list moves to a process, or is lost and recorded. */
  lemma PoppedKeepsInv(s: State, p: nat, proc: Proc, entry: Entry)
    requires Inv(s) && p < |s.procs| && Holds(s.procs[p].pc) == None && s.list != []
    requires var id := s.list[|s.list| - 1];
             && (Holds(proc.pc) == None || proc.pc == Holding(id))
             && (if proc.pc == Holding(id) then 1 else 0) + |entry.faults| == 1 && !entry.settled
             && EntryOk(id, entry) && PcOk(s.jobs[id := entry], proc.pc) && RoleOk(proc) && HandsOk(proc)
    ensures Inv(Popped(s, p, proc, entry))
  {
    hide EntryOk, PcOk, RoleOk, HandsOk, ListOk, Balanced, Waiting;
    var t := Popped(s, p, proc, entry);
    forall other
      ensures Balanced(t, other)
    {
      PoppedBalance(s, p, proc, entry, other);
    }
    PoppedRest(s, p, proc, entry);
    ReversePop(s.list);
  }

  lemma PopKeepsInv(s: State, p: nat, reply: Reply)
    requires Inv(s)
    ensures Inv(StepPop(s, p, reply))
  {
    hide Inv, Coherent, Stored, AttemptsFit, Path, Chain, EntryOk, PcOk;
    if p < |s.procs| && s.procs[p].role == Dispatching && s.procs[p].pc.Idle? && s.list != [] && reply != Refused {
      var raw := s.list[|s.list| - 1];
      ListedIDParses(s, |s.list| - 1);
      ListedIsTheOnlyPlace(s, |s.list| - 1);
      ProcFacts(s, p);
      if reply == Unacknowledged {
        PopLostKeepsInv(s, p);
        assert [] + [ReplyLost] == [ReplyLost];
      } else {
        PopTakenKeepsInv(s, p);
        assert s.jobs[raw := s.jobs[raw]] == s.jobs;
      }
    }
  }

  lemma PopLostKeepsInv(s: State, p: nat)
    requires Inv(s) && p < |s.procs| && s.procs[p].pc.Idle? && s.list != [] && RoleOk(s.procs[p]) && HandsOk(s.procs[p])
    ensures var raw := s.list[|s.list| - 1];
            raw in s.jobs && Inv(Popped(s, p, s.procs[p], s.jobs[raw].(faults := [ReplyLost])))
  {
    hide Inv, Coherent, Stored, AttemptsFit, Path, Chain, EntryOk;
    var raw := s.list[|s.list| - 1];
    ListedIDParses(s, |s.list| - 1);
    ListedIsTheOnlyPlace(s, |s.list| - 1);
    LostEntryOk(raw, s.jobs[raw], ReplyLost);
    assert [] + [ReplyLost] == [ReplyLost];
    PoppedKeepsInv(s, p, s.procs[p], s.jobs[raw].(faults := [ReplyLost]));
  }

  lemma PopTakenKeepsInv(s: State, p: nat)
    requires Inv(s) && p < |s.procs| && s.procs[p].role == Dispatching && s.procs[p].pc.Idle? && s.list != []
    requires HandsOk(s.procs[p])
    ensures var raw := s.list[|s.list| - 1];
            && raw in s.jobs
            && Inv(Popped(s, p, s.procs[p].(pc := Holding(raw), taken := s.procs[p].taken + [raw]), s.jobs[raw]))
  {
    hide Inv, Coherent, Stored, AttemptsFit, Path, Chain, EntryOk;
    var raw := s.list[|s.list| - 1];
    ListedIDParses(s, |s.list| - 1);
    ListedIsTheOnlyPlace(s, |s.list| - 1);
    assert s.jobs[raw := s.jobs[raw]] == s.jobs;
    PoppedKeepsInv(s, p, s.procs[p].(pc := Holding(raw), taken := s.procs[p].taken + [raw]), s.jobs[raw]);
  }

  /** A listed ID is valid and names a pending row, so the parse in `Dequeue` never fails. */
  lemma ListedIDParses(s: State, i: nat)
    requires Inv(s) && i < |s.list|
    ensures IsValid(s.list[i]) && ParseID(s.list[i]) == Ok(s.list[i])
    ensures Waiting(s.jobs, s.list[i]) && EntryOk(s.list[i], s.jobs[s.list[i]])
  {
    hide PcOk, RoleOk, HandsOk;
    assert Waiting(s.jobs, s.list[i]) && EntryOk(s.list[i], s.jobs[s.list[i]]);
    ParseIDKeepsValid(s.list[i]);
  }

  // ---------------------------------------------------------------- from dispatcher to worker

  lemma HandOverKeepsInv(s: State, p: nat, worker: nat)
    requires Inv(s)
    ensures Inv(StepHandOver(s, p, worker))
  {
    hide EntryOk, Coherent, Stored, AttemptsFit, Chain, Path, DueWrite, DueReport, Reverse;
    if p < |s.procs| && worker < |s.procs| && s.procs[p].pc.Holding?
       && s.procs[worker].role == Working && s.procs[worker].pc.Idle? {
      var id := s.procs[p].pc.id;
      var t := StepHandOver(s, p, worker);
      assert RoleOk(s.procs[p]) && HandsOk(s.procs[p]) && HandsOk(s.procs[worker]);
      var freed := s.procs[p].(pc := Idle, given := s.procs[p].given + [id]);
      var loading := s.procs[worker].(pc := Loading(id));
      assert t.procs == s.procs[p := freed][worker := loading];
      forall other
        ensures Balanced(t, other)
      {
        assert Balanced(s, other);
        HoldersUpdate(s.procs, p, freed, other);
        HoldersUpdate(s.procs[p := freed], worker, loading, other);
      }
    }
  }

  lemma CancelKeepsInv(s: State, p: nat)
    requires Inv(s)
    ensures Inv(StepCancel(s, p))
  {
    hide Inv, EntryOk, Coherent, Stored;
    if p < |s.procs| && s.procs[p].role == Dispatching {
      ProcFacts(s, p);
      if s.procs[p].pc.Holding? {
        LoseKeepsInv(s, p, Gone, s.procs[p].pc.id, Dropped);
      } else {
        RestKeepsInv(s, p, s.procs[p].(pc := Gone));
      }
    }
  }

  // ---------------------------------------------------------------- the worker

  lemma EntryIDIsValid(id: string, e: Entry)
    requires EntryOk(id, e)
    ensures IsValid(id) && e.row.id == id
  {
    hide IsValid, ValidatePayload, IsReason, AttemptsFit, Chain, Path;
  }

  lemma LoadedIsCoherent(id: string, e: Entry)
    requires EntryOk(id, e) && e.row.status == Pending
    ensures Coherent(e.row)
  {
    hide Coherent, Stored, AttemptsFit, Chain, Path;
    PendingIsCoherent(e.row);
  }

  lemma LoadKeepsInv(s: State, p: nat, reply: Reply)
    requires Inv(s)
    ensures Inv(StepLoad(s, p, reply))
  {
    hide Inv, EntryOk, Coherent, Stored;
    if p < |s.procs| && s.procs[p].pc.Loading? {
      ProcFacts(s, p);
      var id := s.procs[p].pc.id;
      assert HeldBy(s.procs[p], id);
      EntryIDIsValid(id, s.jobs[id]);
      if reply != Done {
        LoseKeepsInv(s, p, RestOf(s.procs[p].role), id, CallFailed);
      } else {
        LoadedIsCoherent(id, s.jobs[id]);
        SetPcKeepsInv(s, p, Loaded(s.jobs[id].row), id);
      }
    }
  }

  lemma BeginDue(id: string, e: Entry, entity: JobState, now: Time)
    requires EntryOk(id, e) && Mirrors(e.row, entity) && Coherent(entity)
    requires entity.status == Pending && MarkProcessing(entity, now).Ok?
    ensures DueWrite(e, entity, MarkProcessing(entity, now).value, ThenExecute)
  {
    hide Coherent, Stored, Chain, Path, TrimSpace, CaughtUp, OneBehind;
    MarkProcessingKeepsCoherent(entity, now);
  }

  lemma BeginKeepsInv(s: State, p: nat, now: Time)
    requires Inv(s)
    ensures Inv(StepBegin(s, p, now))
  {
    hide Inv, EntryOk, Coherent, Stored, DueWrite, AttemptsFit;
    if p < |s.procs| && s.procs[p].pc.Loaded? {
      ProcFacts(s, p);
      var entity := s.procs[p].pc.entity;
      assert HeldBy(s.procs[p], entity.id);
      match MarkProcessing(entity, now)
      case Ok(next) =>
        BeginDue(entity.id, s.jobs[entity.id], entity, now);
        SetPcKeepsInv(s, p, Saving(entity, next, ThenExecute), entity.id);
      case Err(_) => LoseKeepsInv(s, p, RestOf(s.procs[p].role), entity.id, TransitionFault);
    }
  }

  /** The entry after the write that was due. */
  function Saved(e: Entry, entity: JobState, stamp: Time): Entry {
    e.(row := Overwrite(e.row, entity, stamp), persisted := e.persisted + [entity.status])
  }

  lemma PathOfWrite(before: JobState, entity: JobState, next: Next)
    requires 0 <= before.retryCount && 0 <= entity.retryCount
    requires match next
             case ThenExecute =>
               before.status == Pending && entity.status == Processing && entity.retryCount == before.retryCount
             case ThenPublish =>
               before.status == Processing && entity.status == Pending && entity.retryCount == before.retryCount + 1
             case ThenReturn =>
               before.status == Processing && IsTerminal(entity.status) && entity.retryCount == before.retryCount
    ensures Path(entity.retryCount, entity.status) == Path(before.retryCount, before.status) + [entity.status]
  {
  }

  lemma DueWriteFacts(e: Entry, before: JobState, entity: JobState, next: Next)
    requires DueWrite(e, before, entity, next)
    ensures Mirrors(e.row, before) && SameOrigin(before, entity) && Coherent(entity)
    ensures AttemptsFit(entity, e.attempts) && 0 <= entity.retryCount
    ensures before.updatedAt <= entity.updatedAt && before.retryCount <= entity.retryCount
    ensures !IsTerminal(e.row.status) && (next == ThenReturn <==> IsTerminal(entity.status))
    ensures next == ThenExecute ==> entity.status == Processing && |e.attempts| == entity.retryCount
    ensures next == ThenPublish ==> entity.status == Pending
  {
    hide IsValid, ValidatePayload, IsReason;
  }

  lemma WrittenIsStarted(e: Entry, before: JobState, entity: JobState, next: Next)
    requires DueWrite(e, before, entity, next) && e.row.retryCount >= 0
    ensures entity.startedAt.Some? && entity.updatedAt != ZERO_TIME
  {
    hide IsValid, ValidatePayload, IsReason, AttemptsFit;
  }

  lemma SavedEntryOk(id: string, e: Entry, before: JobState, entity: JobState, next: Next, stamp: Time)
    requires EntryOk(id, e) && CaughtUp(e) && DueWrite(e, before, entity, next)
    requires e.faults == [] && !e.settled && id == entity.id
    ensures EntryOk(id, Saved(e, entity, stamp)) && DueReport(Saved(e, entity, stamp), Some(before), entity, next)
  {
    hide Coherent, Stored, AttemptsFit, Chain, Path, Overwrite;
    var saved := Saved(e, entity, stamp);
    AttemptsNonNegative(id, e);
    DueWriteFacts(e, before, entity, next);
    OverwriteMirrors(e.row, before, entity, stamp);
    WrittenIsStarted(e, before, entity, next);
    WrittenIsStored(saved.row, entity);
    MirrorFits(saved.row, entity, e.attempts);
    PathOfWrite(before, entity, next);
    PathEnds(before.retryCount, before.status);
    assert saved.persisted[..|e.persisted|] == e.persisted;
  }

  lemma MirrorFits(row: JobState, entity: JobState, attempts: seq<Attempt>)
    requires Mirrors(row, entity)
    ensures AttemptsFit(row, attempts) <==> AttemptsFit(entity, attempts)
  {
    hide TrimSpace;
  }

  lemma SaveKeepsInv(s: State, p: nat, reply: Reply, stamp: Time)
    requires Inv(s)
    ensures Inv(StepSave(s, p, reply, stamp))
  {
    hide Inv, EntryOk, Coherent, Stored, DueReport, AttemptsFit, Chain, Path, CaughtUp, OneBehind, DueWrite;
    if p < |s.procs| && s.procs[p].pc.Saving? {
      ProcFacts(s, p);
      var Proc(role, Saving(before, entity, next), _, _) := s.procs[p];
      var id := entity.id;
      assert HeldBy(s.procs[p], id);
      DueWriteFacts(s.jobs[id], before, entity, next);
      if reply == Refused {
        LoseKeepsInv(s, p, RestOf(role), id, CallFailed);
      } else {
        SaveTakesEffect(s, p, reply, stamp);
      }
    }
  }

  lemma SaveTakesEffect(s: State, p: nat, reply: Reply, stamp: Time)
    requires Inv(s) && p < |s.procs| && s.procs[p].pc.Saving? && reply != Refused
    requires PcOk(s.jobs, s.procs[p].pc) && RoleOk(s.procs[p]) && HandsOk(s.procs[p])
    ensures Inv(StepSave(s, p, reply, stamp))
  {
    hide Inv, EntryOk, Coherent, Stored, DueReport, AttemptsFit, Chain, Path, CaughtUp, OneBehind, DueWrite;
    var Proc(role, Saving(before, entity, next), _, _) := s.procs[p];
    var id := entity.id;
    var entry := Saved(s.jobs[id], entity, stamp);
    ProcFacts(s, p);
    assert HeldBy(s.procs[p], id);
    SavedEntryOk(id, s.jobs[id], before, entity, next, stamp);
    DueWriteFacts(s.jobs[id], before, entity, next);
    if reply == Done {
      MoveKeepsInv(s, p, Reporting(Some(before), entity, next), id, entry);
    } else if next == ThenReturn {
      SettledEntryOk(id, entry);
      MoveKeepsInv(s, p, RestOf(role), id, entry.(settled := true));
    } else {
      LostEntryOk(id, entry, ReplyLost);
      MoveKeepsInv(s, p, RestOf(role), id, entry.(faults := entry.faults + [ReplyLost]));
    }
  }

  /** A change to the attempts alone. */
  lemma AttemptedEntryOk(id: string, e: Entry, attempts: seq<Attempt>)
    requires EntryOk(id, e) && e.row.status == Processing && |attempts| == e.row.retryCount + 1
    requires |e.attempts| >= e.row.retryCount && attempts[..e.row.retryCount] == e.attempts[..e.row.retryCount]
    ensures EntryOk(id, e.(attempts := attempts))
  {
    hide Coherent, Stored, Chain, Path;
    assert forall k :: 0 <= k < e.row.retryCount ==>
             attempts[k] == attempts[..e.row.retryCount][k] == e.attempts[..e.row.retryCount][k] == e.attempts[k];
  }

  lemma StartKeepsInv(s: State, p: nat)
    requires Inv(s)
    ensures Inv(StepStart(s, p))
  {
    hide Inv, EntryOk, Coherent, Stored, AttemptsFit, Chain, Path;
    if p < |s.procs| && s.procs[p].pc.Starting? && s.procs[p].pc.entity.id in s.jobs {
      ProcFacts(s, p);
      var entity := s.procs[p].pc.entity;
      var e := s.jobs[entity.id];
      assert HeldBy(s.procs[p], entity.id);
      AttemptsNonNegative(entity.id, e);
      AttemptedEntryOk(entity.id, e, e.attempts + [Unfinished]);
      MoveKeepsInv(s, p, Running(entity), entity.id, e.(attempts := e.attempts + [Unfinished]));
    }
  }

  lemma AttemptsNonNegative(id: string, e: Entry)
    requires EntryOk(id, e)
    ensures e.row.retryCount >= 0 && |e.attempts| >= e.row.retryCount
  {
    hide Coherent, Stored, Chain, Path;
  }

  lemma FinishKeepsInv(s: State, p: nat, answer: Option<Error>)
    requires Inv(s)
    ensures Inv(StepFinish(s, p, answer))
  {
    hide Inv, EntryOk, Coherent, Stored, AttemptsFit, Chain, Path, FailureText, TrimSpace;
    if p < |s.procs| && s.procs[p].pc.Running? && s.procs[p].pc.entity.id in s.jobs
       && s.jobs[s.procs[p].pc.entity.id].attempts != [] {
      ProcFacts(s, p);
      var entity := s.procs[p].pc.entity;
      var failure := if answer.None? then None else Some(FailureText(entity, answer.value));
      assert HeldBy(s.procs[p], entity.id);
      if answer.Some? {
        FailureTextNotBlank(entity, answer.value);
      }
      FinishedKeepsInv(s, p, entity, failure);
    }
  }

  lemma FailureTextNotBlank(entity: JobState, cause: Error)
    ensures TrimSpace(FailureText(entity, cause)) != ""
  {
    HandleErrorNotBlank(entity, cause);
  }

  lemma FinishedKeepsInv(s: State, p: nat, entity: JobState, failure: Option<string>)
    requires Inv(s) && p < |s.procs| && s.procs[p].pc == Running(entity) && entity.id in s.jobs
    requires PcOk(s.jobs, s.procs[p].pc) && RoleOk(s.procs[p]) && HandsOk(s.procs[p])
    requires failure.Some? ==> TrimSpace(failure.value) != ""
    ensures var e := s.jobs[entity.id];
            var attempt := if failure.None? then Succeeded else Failure(failure.value);
            e.attempts != []
            && Inv(Move(s, p, Concluding(entity, failure), entity.id,
                        e.(attempts := e.attempts[|e.attempts| - 1 := attempt])))
  {
    hide Inv, EntryOk, Coherent, Stored, AttemptsFit, Chain, Path, TrimSpace;
    var e := s.jobs[entity.id];
    var attempt := if failure.None? then Succeeded else Failure(failure.value);
    var attempts := e.attempts[|e.attempts| - 1 := attempt];
    ProcFacts(s, p);
    assert HeldBy(s.procs[p], entity.id);
    AttemptsNonNegative(entity.id, e);
    assert attempts[..e.row.retryCount] == e.attempts[..e.row.retryCount];
    AttemptedEntryOk(entity.id, e, attempts);
    MoveKeepsInv(s, p, Concluding(entity, failure), entity.id, e.(attempts := attempts));
  }

  lemma SuccessDue(id: string, e: Entry, entity: JobState, now: Time)
    requires EntryOk(id, e) && Mirrors(e.row, entity) && Coherent(entity)
    requires Latest(e, Succeeded) && MarkSuccess(entity, now).Ok?
    ensures DueWrite(e, entity, MarkSuccess(entity, now).value, ThenReturn)
  {
    hide Coherent, Stored, Chain, Path, TrimSpace, CaughtUp, OneBehind;
    MarkSuccessKeepsCoherent(entity, now);
  }

  lemma FailureFits(entity: JobState, attempts: seq<Attempt>, now: Time, reason: string)
    requires AttemptsFit(entity, attempts) && |attempts| == entity.retryCount + 1
    requires attempts[entity.retryCount] == Failure(reason) && RecordFailure(entity, now, reason).Ok?
    ensures AttemptsFit(RecordFailure(entity, now, reason).value.0, attempts)
  {
    hide TrimSpace;
    var next := RecordFailure(entity, now, reason).value.0;
    assert LastFailure(next) == entity.retryCount;
  }

  lemma FailureDue(id: string, e: Entry, entity: JobState, now: Time, reason: string)
    requires EntryOk(id, e) && Mirrors(e.row, entity) && Coherent(entity)
    requires Latest(e, Failure(reason)) && RecordFailure(entity, now, reason).Ok?
    ensures var (next, outcome) := RecordFailure(entity, now, reason).value;
            DueWrite(e, entity, next, if outcome == RetryScheduled then ThenPublish else ThenReturn)
  {
    hide Coherent, Stored, AttemptsFit, Chain, Path, TrimSpace, CaughtUp, OneBehind;
    RecordFailureKeepsCoherent(entity, now, reason);
    MirrorFits(e.row, entity, e.attempts);
    FailureFits(entity, e.attempts, now, reason);
  }

  lemma ConcludeKeepsInv(s: State, p: nat, now: Time)
    requires Inv(s)
    ensures Inv(StepConclude(s, p, now))
  {
    hide Inv, EntryOk, Coherent, Stored, DueWrite, AttemptsFit, MarkSuccess, RecordFailure, TrimSpace, Chain, Path;
    if p < |s.procs| && s.procs[p].pc.Concluding? {
      ProcFacts(s, p);
      var Proc(role, Concluding(entity, failure), _, _) := s.procs[p];
      assert HeldBy(s.procs[p], entity.id);
      match failure
      case None =>
        match MarkSuccess(entity, now) {
        case Ok(next) =>
          SuccessDue(entity.id, s.jobs[entity.id], entity, now);
          ConcludedKeepsInv(s, p, next, ThenReturn);
        case Err(_) => LoseKeepsInv(s, p, RestOf(role), entity.id, TransitionFault);
        }
      case Some(reason) =>
        match RecordFailure(entity, now, reason) {
        case Ok((next, outcome)) =>
          FailureDue(entity.id, s.jobs[entity.id], entity, now, reason);
          ConcludedKeepsInv(s, p, next, if outcome == RetryScheduled then ThenPublish else ThenReturn);
        case Err(_) => LoseKeepsInv(s, p, RestOf(role), entity.id, TransitionFault);
        }
    }
  }

  lemma ConcludedKeepsInv(s: State, p: nat, entity: JobState, next: Next)
    requires Inv(s) && p < |s.procs| && s.procs[p].pc.Concluding?
    requires PcOk(s.jobs, s.procs[p].pc) && RoleOk(s.procs[p]) && HandsOk(s.procs[p])
    requires DueWrite(s.jobs[s.procs[p].pc.entity.id], s.procs[p].pc.entity, entity, next)
    ensures Inv(SetPc(s, p, Saving(s.procs[p].pc.entity, entity, next)))
  {
    hide Inv, EntryOk, Coherent, Stored, AttemptsFit;
    SetPcKeepsInv(s, p, Saving(s.procs[p].pc.entity, entity, next), entity.id);
  }

  // ---------------------------------------------------------------- stopping

  /** Only the worker that is about to make the final report holds a finished job. */
  lemma HeldIsOpen(s: State, p: nat, id: string)
    requires Inv(s) && p < |s.procs| && HeldBy(s.procs[p], id)
    ensures id in s.jobs && (IsTerminal(s.jobs[id].row.status) <==> IsFinalReport(s.procs[p].pc))
  {
    hide Inv, EntryOk, Coherent, Stored, AttemptsFit, CaughtUp, OneBehind;
    ProcFacts(s, p);
  }

  lemma CrashKeepsInv(s: State, p: nat)
    requires Inv(s)
    ensures Inv(StepCrash(s, p))
  {
    hide Inv, EntryOk, Coherent, Stored, AttemptsFit, DueWrite, DueReport, CaughtUp;
    if p < |s.procs| {
      ProcFacts(s, p);
      match Holds(s.procs[p].pc)
      case None => RestKeepsInv(s, p, s.procs[p].(pc := Gone));
      case Some(id) =>
        HeldIsOpen(s, p, id);
        if IsFinalReport(s.procs[p].pc) {
          SettledEntryOk(id, s.jobs[id]);
          MoveKeepsInv(s, p, Gone, id, s.jobs[id].(settled := true));
        } else {
          LoseKeepsInv(s, p, Gone, id, Stopped);
        }
    }
  }

  // ---------------------------------------------------------------- every action, every run

  lemma EnlistKeepsInv(s: State, role: Role)
    requires Inv(s)
    ensures Inv(StepEnlist(s, role))
  {
    hide Inv;
    if role != Api {
      JoinKeepsInv(s, Proc(role, Idle, [], []));
    }
  }

  lemma StepKeepsInv(s: State, a: Action)
    requires Inv(s)
    ensures Inv(Step(s, a))
  {
    hide Inv, StepSubmit, StepEnlist, StepHandOver, StepInsert, StepReport, StepPublish, StepPop, StepCancel,
         StepLoad, StepBegin, StepSave, StepStart, StepFinish, StepConclude, StepCrash;
    match a
    case Submit(id, typeName, payload, now) => SubmitKeepsInv(s, id, typeName, payload, now);
    case Enlist(role) => EnlistKeepsInv(s, role);
    case Insert(p, reply) => InsertKeepsInv(s, p, reply);
    case Report(p) => ReportKeepsInv(s, p);
    case Publish(p, reply) => PublishKeepsInv(s, p, reply);
    case Pop(p, reply) => PopKeepsInv(s, p, reply);
    case HandOver(p, worker) => HandOverKeepsInv(s, p, worker);
    case Cancel(p) => CancelKeepsInv(s, p);
    case Load(p, reply) => LoadKeepsInv(s, p, reply);
    case Begin(p, now) => BeginKeepsInv(s, p, now);
    case Save(p, reply, stamp) => SaveKeepsInv(s, p, reply, stamp);
    case Start(p) => StartKeepsInv(s, p);
    case Finish(p, answer) => FinishKeepsInv(s, p, answer);
    case Conclude(p, now) => ConcludeKeepsInv(s, p, now);
    case Crash(p) => CrashKeepsInv(s, p);
  }

  lemma EmptyInv()
    ensures Inv(EMPTY)
  {
  }

  lemma {:induction false} RunKeepsInv(s: State, actions: seq<Action>)
    requires Inv(s)
    ensures Inv(Run(s, actions))
    decreases |actions|
  {
    hide Inv, Step;
    if actions != [] {
      StepKeepsInv(s, actions[0]);
      RunKeepsInv(Step(s, actions[0]), actions[1..]);
    }
  }
}
