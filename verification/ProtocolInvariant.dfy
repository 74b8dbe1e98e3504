/** The invariant of the job protocol, and its preservation by every action. */
module ProtocolInvariant {
  import opened GoText
  import opened Errors
  import opened JobEntity
  import opened Protocol

  // ---------------------------------------------------------------- where a job's ID is

  predicate HeldBy(proc: Proc, id: string) {
    Holds(proc.pc) == Some(id)
  }

  /** How many processes are responsible for the job. */
  function Holders(procs: seq<Proc>, id: string): nat {
    if procs == [] then 0 else
      var n := |procs| - 1;
      Holders(procs[..n], id) + if HeldBy(procs[n], id) then 1 else 0
  }

  /** All the places that account for a job: the list, the processes, the recorded losses, the end
      of its processing. */
  function Places(s: State, id: string): nat {
    multiset(s.list)[id] + Holders(s.procs, id)
    + if id in s.jobs then |s.jobs[id].faults| + (if s.jobs[id].settled then 1 else 0) else 0
  }

  ghost predicate Balanced(s: State, id: string) {
    Places(s, id) == if id in s.jobs then 1 else 0
  }

  // ---------------------------------------------------------------- histories

  /** The statuses a job has gone through when it has this retry count and status. */
  function Path(retries: nat, status: Status): seq<Status>
    decreases retries, if status == Pending then 0 else if status == Processing then 1 else 2
  {
    match status
    case Pending => (if retries == 0 then [] else Path(retries - 1, Processing)) + [Pending]
    case Processing => Path(retries, Pending) + [Processing]
    case Success => Path(retries, Processing) + [Success]
    case Failed => Path(retries, Processing) + [Failed]
  }

  /** The observer calls that report these statuses, each chained to the one before. */
  function Chain(statuses: seq<Status>): seq<Event> {
    if statuses == [] then [] else
      var n := |statuses| - 1;
      Chain(statuses[..n]) + [Event(if n == 0 then None else Some(statuses[n - 1]), statuses[n])]
  }

  predicate CaughtUp(e: Entry) {
    e.events == Chain(e.persisted)
  }

  /** Only the last change is still unreported. */
  predicate OneBehind(e: Entry) {
    e.persisted != [] && e.events == Chain(e.persisted[..|e.persisted| - 1])
  }

  /** The attempt whose failure the row's error text comes from. */
  function LastFailure(j: JobState): int {
    if j.status == Failed then j.retryCount else j.retryCount - 1
  }

  /** The executor calls agree with the row. */
  predicate AttemptsFit(j: JobState, attempts: seq<Attempt>) {
    && 0 <= j.retryCount
    && (match j.status
        case Pending => |attempts| == j.retryCount
        case Processing => j.retryCount <= |attempts| <= j.retryCount + 1
        case Success => |attempts| == j.retryCount + 1 && attempts[j.retryCount] == Succeeded
        case Failed => |attempts| == j.retryCount + 1 && attempts[j.retryCount].Failure?)
    && (forall k :: 0 <= k < j.retryCount ==> attempts[k].Failure?)
    && (j.lastError.Some? ==>
          && 0 <= LastFailure(j) < |attempts|
          && attempts[LastFailure(j)].Failure?
          && j.lastError.value == TrimSpace(attempts[LastFailure(j)].reason))
  }

  /** The instant of the job's last transition, as the row shows it. */
  function LastEvent(row: JobState): Time {
    if row.completedAt.Some? then row.completedAt.value
    else if row.status == Processing && row.startedAt.Some? then row.startedAt.value
    else row.updatedAt
  }

  /** A coherent job, whose `updated_at` the table may have put later. */
  ghost predicate Stored(row: JobState) {
    Coherent(row.(updatedAt := LastEvent(row))) && LastEvent(row) <= row.updatedAt != ZERO_TIME
  }

  /** The copy agrees with the row, except that `updated_at` may be later in the row. */
  predicate Mirrors(row: JobState, copy: JobState) {
    row.(updatedAt := copy.updatedAt) == copy && copy.updatedAt <= row.updatedAt
  }

  /** What holds of a row and its history at all times. */
  ghost predicate EntryOk(id: string, e: Entry) {
    && Stored(e.row) && e.row.id == id
    && AttemptsFit(e.row, e.attempts)
    && e.persisted == Path(e.row.retryCount, e.row.status)
    && (CaughtUp(e) || OneBehind(e))
    && (e.settled ==> IsTerminal(e.row.status))
    && (e.faults != [] ==> !IsTerminal(e.row.status))
  }

  // ---------------------------------------------------------------- processes

  /** A job that waits to be loaded: its row exists, is pending and fully reported. */
  predicate Waiting(jobs: map<string, Entry>, id: string) {
    id in jobs && jobs[id].row.status == Pending && CaughtUp(jobs[id])
  }

  /** The process's copy is the stored row. */
  ghost predicate InStep(jobs: map<string, Entry>, entity: JobState, status: Status) {
    && entity.id in jobs
    && Mirrors(jobs[entity.id].row, entity) && Coherent(entity)
    && entity.status == status
    && CaughtUp(jobs[entity.id])
  }

  /** The attempt for the current retry count has been made, and this is how it stands. */
  predicate Latest(e: Entry, attempt: Attempt) {
    && e.attempts != [] && |e.attempts| == e.row.retryCount + 1
    && e.attempts[|e.attempts| - 1] == attempt
  }

  ghost predicate Fresh(j: JobState) {
    Coherent(j) && j.status == Pending && j.retryCount == 0
  }

  predicate SameOrigin(a: JobState, b: JobState) {
    && a.id == b.id && a.jobType == b.jobType && a.payload == b.payload
    && a.createdAt == b.createdAt && a.maxRetries == b.maxRetries
  }

  /** The write that is due: how the entity differs from the stored row. */
  ghost predicate DueWrite(e: Entry, before: JobState, entity: JobState, next: Next) {
    && Mirrors(e.row, before)
    && Coherent(entity) && SameOrigin(before, entity) && before.updatedAt <= entity.updatedAt
    && AttemptsFit(entity, e.attempts)
    && (match next
        case ThenExecute =>
          && before.status == Pending && entity.status == Processing && entity.retryCount == before.retryCount
          && |e.attempts| == entity.retryCount
        case ThenPublish =>
          before.status == Processing && entity.status == Pending && entity.retryCount == before.retryCount + 1
        case ThenReturn =>
          before.status == Processing && IsTerminal(entity.status) && entity.retryCount == before.retryCount)
  }

  ghost predicate DueReport(e: Entry, known: Option<JobState>, entity: JobState, next: Next) {
    && Mirrors(e.row, entity) && Coherent(entity) && OneBehind(e)
    && |e.persisted| == (if known.None? then 1 else |e.persisted|)
    && (known.Some? ==> |e.persisted| >= 2 && known.value.status == e.persisted[|e.persisted| - 2])
    && (match next
        case ThenExecute => entity.status == Processing && |e.attempts| == entity.retryCount
        case ThenPublish => entity.status == Pending
        case ThenReturn => IsTerminal(entity.status))
  }

  /** What each process relies on, given where it is. */
  ghost predicate PcOk(jobs: map<string, Entry>, pc: Pc) {
    match pc
    case Idle => true
    case Gone => true
    case Creating(entity) => Fresh(entity)
    case Reporting(known, entity, next) =>
      entity.id in jobs && DueReport(jobs[entity.id], known, entity, next)
    case Publishing(entity) => InStep(jobs, entity, Pending)
    case Holding(id) => Waiting(jobs, id)
    case Loading(id) => Waiting(jobs, id)
    case Loaded(entity) => InStep(jobs, entity, Pending)
    case Saving(before, entity, next) =>
      entity.id in jobs && CaughtUp(jobs[entity.id]) && DueWrite(jobs[entity.id], before, entity, next)
    case Starting(entity) =>
      InStep(jobs, entity, Processing) && |jobs[entity.id].attempts| == entity.retryCount
    case Running(entity) =>
      InStep(jobs, entity, Processing) && Latest(jobs[entity.id], Unfinished)
    case Concluding(entity, failure) =>
      InStep(jobs, entity, Processing)
      && Latest(jobs[entity.id], if failure.None? then Succeeded else Failure(failure.value))
      && (failure.Some? ==> TrimSpace(failure.value) != "")
  }

  /** Which places a process of each role can be in. */
  predicate RoleOk(proc: Proc) {
    match proc.role
    case Api => !proc.pc.Idle? && !proc.pc.Holding? && !proc.pc.Loading? && !proc.pc.Loaded?
                && !proc.pc.Saving? && !proc.pc.Starting? && !proc.pc.Running? && !proc.pc.Concluding?
                && (proc.pc.Reporting? ==> proc.pc.next == ThenPublish)
    case Dispatching => proc.pc.Idle? || proc.pc.Gone? || proc.pc.Holding?
    case Working => !proc.pc.Creating? && !proc.pc.Holding?
  }

  /** A dispatcher has handed over all it took, in order, except possibly the last one. */
  predicate HandsOk(proc: Proc) {
    if proc.role != Dispatching then proc.taken == proc.given == [] else
      match proc.pc
      case Idle => proc.taken == proc.given
      case Holding(id) => proc.taken == proc.given + [id]
      case _ => proc.taken == proc.given || (proc.taken != [] && proc.taken[..|proc.taken| - 1] == proc.given)
  }

  function Reverse(s: seq<string>): seq<string> {
    if s == [] then [] else Reverse(s[1..]) + [s[0]]
  }

  // ---------------------------------------------------------------- the invariant

  ghost predicate EntriesOk(jobs: map<string, Entry>) {
    forall id {:trigger EntryOk(id, jobs[id])} | id in jobs :: EntryOk(id, jobs[id])
  }

  ghost predicate ProcsOk(jobs: map<string, Entry>, procs: seq<Proc>) {
    forall p {:trigger PcOk(jobs, procs[p].pc)} {:trigger RoleOk(procs[p])} {:trigger HandsOk(procs[p])} ::
      0 <= p < |procs| ==> PcOk(jobs, procs[p].pc) && RoleOk(procs[p]) && HandsOk(procs[p])
  }

  predicate ListOk(jobs: map<string, Entry>, list: seq<string>) {
    forall i {:trigger Waiting(jobs, list[i])} :: 0 <= i < |list| ==> Waiting(jobs, list[i])
  }

  ghost predicate Inv(s: State) {
    && (forall id :: Balanced(s, id))
    && EntriesOk(s.jobs)
    && ProcsOk(s.jobs, s.procs)
    && ListOk(s.jobs, s.list)
    && s.pushed == s.popped + Reverse(s.list)
  }

  // ---------------------------------------------------------------- counting holders

  lemma {:induction false} HoldersUpdate(procs: seq<Proc>, p: nat, proc: Proc, id: string)
    requires p < |procs|
    ensures Holders(procs[p := proc], id) + (if HeldBy(procs[p], id) then 1 else 0)
            == Holders(procs, id) + (if HeldBy(proc, id) then 1 else 0)
    decreases |procs|
  {
    var n := |procs| - 1;
    if p == n {
      assert procs[p := proc][..n] == procs[..n];
    } else {
      assert procs[p := proc][..n] == procs[..n][p := proc];
      HoldersUpdate(procs[..n], p, proc, id);
    }
  }

  lemma HoldersAppend(procs: seq<Proc>, proc: Proc, id: string)
    ensures Holders(procs + [proc], id) == Holders(procs, id) + (if HeldBy(proc, id) then 1 else 0)
  {
    assert (procs + [proc])[..|procs|] == procs;
  }

  lemma {:induction false} HolderCounts(procs: seq<Proc>, p: nat, id: string)
    requires p < |procs| && HeldBy(procs[p], id)
    ensures Holders(procs, id) >= 1
    decreases |procs|
  {
    if p < |procs| - 1 {
      HolderCounts(procs[..|procs| - 1], p, id);
    }
  }

  lemma {:induction false} TwoHoldersCount(procs: seq<Proc>, p: nat, q: nat, id: string)
    requires p < q < |procs| && HeldBy(procs[p], id) && HeldBy(procs[q], id)
    ensures Holders(procs, id) >= 2
    decreases |procs|
  {
    var n := |procs| - 1;
    if q < n {
      TwoHoldersCount(procs[..n], p, q, id);
    } else {
      HolderCounts(procs[..n], p, id);
    }
  }

  /** A held job is accounted for by its one holder. */
  lemma HolderIsTheOnlyPlace(s: State, p: nat, id: string)
    requires Inv(s) && p < |s.procs| && HeldBy(s.procs[p], id)
    ensures id in s.jobs && Holders(s.procs, id) == 1 && id !in s.list
    ensures s.jobs[id].faults == [] && !s.jobs[id].settled && EntryOk(id, s.jobs[id])
    ensures forall q :: 0 <= q < |s.procs| && q != p ==> !HeldBy(s.procs[q], id)
  {
    hide PcOk, EntryOk, RoleOk, HandsOk, Waiting;
    assert Balanced(s, id);
    HolderCounts(s.procs, p, id);
    forall q | 0 <= q < |s.procs| && q != p && HeldBy(s.procs[q], id)
      ensures false
    {
      TwoHoldersCount(s.procs, if p < q then p else q, if p < q then q else p, id);
    }
  }

  /** A listed job is accounted for by its one entry in the list. */
  lemma ListedIsTheOnlyPlace(s: State, i: nat)
    requires Inv(s) && i < |s.list|
    ensures var id := s.list[i];
            && id in s.jobs && multiset(s.list)[id] == 1 && Holders(s.procs, id) == 0
            && s.jobs[id].faults == [] && !s.jobs[id].settled
    ensures forall q :: 0 <= q < |s.procs| ==> !HeldBy(s.procs[q], s.list[i])
  {
    hide PcOk, EntryOk, RoleOk, HandsOk;
    var id := s.list[i];
    assert Balanced(s, id);
    assert id in multiset(s.list);
    forall q | 0 <= q < |s.procs| && HeldBy(s.procs[q], id)
      ensures false
    {
      HolderCounts(s.procs, q, id);
    }
  }

  // ---------------------------------------------------------------- histories grow in step

  lemma PathEnds(retries: nat, status: Status)
    ensures var path := Path(retries, status); path != [] && path[|path| - 1] == status
  {
  }

  lemma ChainGrows(statuses: seq<Status>, status: Status)
    ensures Chain(statuses + [status]) ==
            Chain(statuses) + [Event(if statuses == [] then None else Some(statuses[|statuses| - 1]), status)]
  {
    assert (statuses + [status])[..|statuses|] == statuses;
  }

  // ---------------------------------------------------------------- one job, one process

  /** What a process relies on survives a change to a job that is not its own. */
  lemma PcOkFrame(jobs: map<string, Entry>, id: string, entry: Entry, pc: Pc)
    requires PcOk(jobs, pc) && Holds(pc) != Some(id)
    ensures PcOk(jobs[id := entry], pc)
  {
  }

  /** A process changes place; the balance of each job changes by what it let go and took. */
  lemma PlacesAfterMove(s: State, p: nat, pc: Pc, id: string, entry: Entry, other: string)
    requires p < |s.procs| && id in s.jobs
    ensures var t := Move(s, p, pc, id, entry);
            && (other != id && Holds(pc) != Some(other) && !HeldBy(s.procs[p], other) ==>
                  Places(t, other) == Places(s, other))
            && (other == id ==>
                  Places(t, id) == multiset(s.list)[id]
                    + Holders(s.procs, id) - (if HeldBy(s.procs[p], id) then 1 else 0)
                    + (if Holds(pc) == Some(id) then 1 else 0)
                    + |entry.faults| + (if entry.settled then 1 else 0))
  {
    HoldersUpdate(s.procs, p, s.procs[p].(pc := pc), other);
  }

  /** The common shape of most steps: the process that holds a job changes place and rewrites the
      entry of that job, and of no other. */
  lemma MoveKeepsInv(s: State, p: nat, pc: Pc, id: string, entry: Entry)
    requires Inv(s) && p < |s.procs| && HeldBy(s.procs[p], id)
    requires Holds(pc) == None || Holds(pc) == Some(id)
    requires (if Holds(pc) == Some(id) then 1 else 0) + |entry.faults| + (if entry.settled then 1 else 0) == 1
    requires EntryOk(id, entry)
    requires PcOk(s.jobs[id := entry], pc)
    requires RoleOk(s.procs[p].(pc := pc)) && HandsOk(s.procs[p].(pc := pc))
    ensures Inv(Move(s, p, pc, id, entry))
  {
    hide EntryOk, PcOk, RoleOk, HandsOk, Waiting, EntriesOk, ListOk;
    var t := Move(s, p, pc, id, entry);
    HolderIsTheOnlyPlace(s, p, id);
    forall other
      ensures Balanced(t, other)
    {
      assert Balanced(s, other);
      PlacesAfterMove(s, p, pc, id, entry, other);
    }
    forall q | 0 <= q < |t.procs|
      ensures PcOk(t.jobs, t.procs[q].pc) && RoleOk(t.procs[q]) && HandsOk(t.procs[q])
    {
      if q != p {
        assert PcOk(s.jobs, s.procs[q].pc);
        PcOkFrame(s.jobs, id, entry, s.procs[q].pc);
      }
    }
    OtherEntriesOk(s.jobs, id, entry);
    OthersWait(s.jobs, s.list, id, entry);
  }

  lemma OtherEntriesOk(jobs: map<string, Entry>, id: string, entry: Entry)
    requires EntriesOk(jobs) && EntryOk(id, entry)
    ensures EntriesOk(jobs[id := entry])
  {
    hide EntryOk;
    var later := jobs[id := entry];
    forall other <- later
      ensures EntryOk(other, later[other])
    {
      assert other != id ==> EntryOk(other, jobs[other]);
    }
  }

  lemma OthersWait(jobs: map<string, Entry>, list: seq<string>, id: string, entry: Entry)
    requires ListOk(jobs, list) && id !in list
    ensures ListOk(jobs[id := entry], list)
  {
    hide Waiting;
    forall i | 0 <= i < |list|
      ensures Waiting(jobs[id := entry], list[i])
    {
      assert Waiting(jobs, list[i]) && list[i] != id;
      WaitingFrame(jobs, id, entry, list[i]);
    }
  }

  lemma WaitingFrame(jobs: map<string, Entry>, id: string, entry: Entry, other: string)
    requires Waiting(jobs, other) && other != id
    ensures Waiting(jobs[id := entry], other)
  {
    hide Chain;
  }

  /** The same without a change to the entry. */
  lemma SetPcKeepsInv(s: State, p: nat, pc: Pc, id: string)
    requires Inv(s) && p < |s.procs| && HeldBy(s.procs[p], id)
    requires Holds(pc) == Some(id) && PcOk(s.jobs, pc)
    requires RoleOk(s.procs[p].(pc := pc)) && HandsOk(s.procs[p].(pc := pc))
    ensures Inv(SetPc(s, p, pc))
  {
    hide Inv, PcOk, EntryOk, RoleOk, HandsOk;
    HolderIsTheOnlyPlace(s, p, id);
    assert s.jobs[id := s.jobs[id]] == s.jobs;
    MoveKeepsInv(s, p, pc, id, s.jobs[id]);
    assert Move(s, p, pc, id, s.jobs[id]) == SetPc(s, p, pc);
  }

  /** A process lets go of an unfinished job and its loss is recorded. */
  lemma LoseKeepsInv(s: State, p: nat, pc: Pc, id: string, fault: Fault)
    requires Inv(s) && p < |s.procs| && HeldBy(s.procs[p], id)
    requires pc == Gone || (pc == Idle && s.procs[p].role == Working)
    requires HandsOk(s.procs[p].(pc := pc))
    requires id in s.jobs && !IsTerminal(s.jobs[id].row.status)
    ensures Inv(Lose(s, p, pc, id, fault))
  {
    hide Inv, Coherent, Stored, AttemptsFit, Path, Chain;
    HolderIsTheOnlyPlace(s, p, id);
    MoveKeepsInv(s, p, pc, id, s.jobs[id].(faults := s.jobs[id].faults + [fault]));
  }
}
