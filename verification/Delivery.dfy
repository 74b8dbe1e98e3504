/** How IDs travel from the list to the workers: in order, and never too many at a time. */
module Delivery {
  import opened Errors
  import opened Ids
  import opened JobEntity
  import opened Protocol
  import opened ProtocolInvariant
  import opened ProtocolSteps
  import opened ProtocolTheorems
  import opened Frames

  // ---------------------------------------------------------------- the list is a queue

  lemma HandsFacts(s: State, p: nat)
    requires Inv(s) && p < |s.procs| && s.procs[p].role == Dispatching
    ensures s.procs[p].given <= s.procs[p].taken && |s.procs[p].taken| <= |s.procs[p].given| + 1
  {
    hide Inv, PcOk, EntryOk;
    ProcFacts(s, p);
  }

  lemma QueueFacts(s: State)
    requires Inv(s)
    ensures s.pushed == s.popped + Reverse(s.list)
  {
    hide Balanced, EntriesOk, ProcsOk, ListOk, Reverse;
  }

  /** The list is a queue, and each dispatcher hands IDs over in the order it took them, keeping
      back at most the last. */
  lemma FirstInFirstOut(actions: seq<Action>)
    ensures var s := Run(EMPTY, actions);
            && s.pushed == s.popped + Reverse(s.list)
            && forall p :: 0 <= p < |s.procs| && s.procs[p].role == Dispatching ==>
                 && s.procs[p].given <= s.procs[p].taken
                 && |s.procs[p].taken| <= |s.procs[p].given| + 1
  {
    hide Inv, Reverse, Run;
    EmptyInv();
    RunKeepsInv(EMPTY, actions);
    var s := Run(EMPTY, actions);
    QueueFacts(s);
    forall p | 0 <= p < |s.procs| && s.procs[p].role == Dispatching
      ensures s.procs[p].given <= s.procs[p].taken && |s.procs[p].taken| <= |s.procs[p].given| + 1
    {
      HandsFacts(s, p);
    }
  }

  // ---------------------------------------------------------------- what dispatchers receive

  /** `a` is `b` with some elements left out. */
  predicate Subsequence(a: seq<string>, b: seq<string>)
    decreases |b|
  {
    a == [] ||
    (b != [] &&
     var a', b' := a[..|a| - 1], b[..|b| - 1];
     Subsequence(a, b') || (a[|a| - 1] == b[|b| - 1] && Subsequence(a', b')))
  }

  lemma SubsequenceGrows(a: seq<string>, b: seq<string>, x: string)
    requires Subsequence(a, b)
    ensures Subsequence(a, b + [x]) && Subsequence(a + [x], b + [x])
  {
    assert (b + [x])[..|b|] == b && (a + [x])[..|a|] == a;
  }

  lemma {:induction false} SubsequenceShrinks(a: seq<string>, b: seq<string>)
    requires Subsequence(a, b) && a != []
    ensures Subsequence(a[..|a| - 1], b)
    decreases |b|
  {
    var b' := b[..|b| - 1];
    if Subsequence(a, b') {
      SubsequenceShrinks(a, b');
    }
    assert b' + [b[|b| - 1]] == b;
    SubsequenceGrows(a[..|a| - 1], b', b[|b| - 1]);
  }

  /** The same processes have received the same IDs, and those that joined none. */
  predicate SameReceipts(s: State, t: State) {
    && t.popped == s.popped && |s.procs| <= |t.procs|
    && (forall p :: 0 <= p < |s.procs| ==> t.procs[p].role == s.procs[p].role && t.procs[p].taken == s.procs[p].taken)
    && (forall p :: |s.procs| <= p < |t.procs| ==> t.procs[p].taken == [])
  }

  lemma OwnReceipts(s: State, t: State, p: nat)
    requires OwnStep(s, t, p)
    ensures SameReceipts(s, t) && |t.procs| == |s.procs|
  {
  }

  lemma JoinReceipts(s: State, a: Action)
    requires a.Submit? || a.Enlist?
    ensures SameReceipts(s, Step(s, a))
    ensures a != Enlist(Dispatching) ==>
              forall p :: |s.procs| <= p < |Step(s, a).procs| ==> Step(s, a).procs[p].role != Dispatching
  {
    hide New;
  }

  lemma QueueReceipts(s: State, a: Action)
    requires a.Insert? || a.Publish? || a.HandOver?
    ensures SameReceipts(s, Step(s, a)) && |Step(s, a).procs| == |s.procs|
  {
    hide SameReceipts, StepInsert, StepPublish, StepHandOver;
    if a.Insert? {
      InsertReceipts(s, a.p, a.reply);
    } else if a.Publish? {
      PublishReceipts(s, a.p, a.reply);
    } else {
      HandOverReceipts(s, a.p, a.worker);
    }
  }

  lemma InsertReceipts(s: State, p: nat, reply: Reply)
    ensures var t := StepInsert(s, p, reply); SameReceipts(s, t) && |t.procs| == |s.procs|
  {
  }

  lemma PublishReceipts(s: State, p: nat, reply: Reply)
    ensures var t := StepPublish(s, p, reply); SameReceipts(s, t) && |t.procs| == |s.procs|
  {
    hide IsValid;
  }

  lemma HandOverReceipts(s: State, p: nat, worker: nat)
    ensures var t := StepHandOver(s, p, worker); SameReceipts(s, t) && |t.procs| == |s.procs|
  {
  }

  /** Only a pop changes what anyone has received. */
  lemma StepReceipts(s: State, a: Action)
    requires Inv(s) && !a.Pop?
    ensures SameReceipts(s, Step(s, a))
    ensures a != Enlist(Dispatching) ==>
              forall p :: |s.procs| <= p < |Step(s, a).procs| ==> Step(s, a).procs[p].role != Dispatching
  {
    hide Inv, SameReceipts, OwnStep, Step;
    if IsOwn(a) {
      OwnActions(s, a);
      OwnReceipts(s, Step(s, a), a.p);
    } else if a.Submit? || a.Enlist? {
      JoinReceipts(s, a);
    } else {
      QueueReceipts(s, a);
    }
  }

  /** A pop gives one ID to one dispatcher, or to none. */
  predicate OneReceipt(s: State, t: State, p: nat, x: string, received: bool) {
    && t.popped == s.popped + [x] && |t.procs| == |s.procs| && p < |s.procs|
    && (forall q :: 0 <= q < |s.procs| ==> t.procs[q].role == s.procs[q].role)
    && (forall q :: 0 <= q < |s.procs| && q != p ==> t.procs[q].taken == s.procs[q].taken)
    && t.procs[p].taken == s.procs[p].taken + (if received then [x] else [])
    && s.procs[p].role == Dispatching
  }

  lemma PopReceipts(s: State, p: nat, reply: Reply)
    requires Inv(s)
    ensures var t := StepPop(s, p, reply);
            t == s || (s.list != [] && OneReceipt(s, t, p, s.list[|s.list| - 1], reply != Unacknowledged))
  {
    hide Inv, ParseID, EntryOk, Waiting;
    if s.list != [] {
      ListedIDParses(s, |s.list| - 1);
    }
  }

  /** What each process received was popped, in this order. */
  ghost predicate InOrder(s: State) {
    forall p :: 0 <= p < |s.procs| ==> Subsequence(s.procs[p].taken, s.popped)
  }

  lemma PopInOrder(s: State, p: nat, reply: Reply)
    requires Inv(s) && InOrder(s)
    ensures InOrder(StepPop(s, p, reply))
  {
    hide Inv, Subsequence;
    var t := StepPop(s, p, reply);
    PopReceipts(s, p, reply);
    hide StepPop;
    if t != s {
      forall q | 0 <= q < |t.procs|
        ensures Subsequence(t.procs[q].taken, t.popped)
      {
        SubsequenceGrows(s.procs[q].taken, s.popped, s.list[|s.list| - 1]);
      }
    }
  }

  lemma StepInOrder(s: State, a: Action)
    requires Inv(s) && InOrder(s)
    ensures InOrder(Step(s, a))
  {
    hide Inv, Subsequence, InOrder, StepPop;
    if a.Pop? {
      PopInOrder(s, a.p, a.reply);
    } else {
      OtherStepsInOrder(s, a);
    }
  }

  lemma OtherStepsInOrder(s: State, a: Action)
    requires Inv(s) && InOrder(s) && !a.Pop?
    ensures InOrder(Step(s, a))
  {
    hide Inv, Subsequence, Step;
    var t := Step(s, a);
    StepReceipts(s, a);
    forall p | 0 <= p < |t.procs|
      ensures Subsequence(t.procs[p].taken, t.popped)
    {
      NothingIsSubsequence(t.popped);
    }
  }

  lemma NothingIsSubsequence(b: seq<string>)
    ensures Subsequence([], b)
  {
  }

  lemma {:induction false} RunInOrder(s: State, actions: seq<Action>)
    requires Inv(s) && InOrder(s)
    ensures InOrder(Run(s, actions))
    decreases |actions|
  {
    hide Inv, Step, InOrder;
    if actions != [] {
      StepInOrder(s, actions[0]);
      StepKeepsInv(s, actions[0]);
      RunInOrder(Step(s, actions[0]), actions[1..]);
    }
  }

  /** In every run, with any number of dispatchers and any losses, each dispatcher hands its IDs to
      workers in the order in which they were pushed. */
  lemma HandedInOrder(actions: seq<Action>, p: nat)
    requires p < |Run(EMPTY, actions).procs| && Run(EMPTY, actions).procs[p].role == Dispatching
    ensures var s := Run(EMPTY, actions);
            Subsequence(s.procs[p].given, s.popped) && s.popped <= s.pushed
  {
    hide Inv, Run, Reverse, Subsequence;
    var s := Run(EMPTY, actions);
    EmptyInv();
    RunKeepsInv(EMPTY, actions);
    RunInOrder(EMPTY, actions);
    QueueFacts(s);
    HandsFacts(s, p);
    assert Subsequence(s.procs[p].taken, s.popped);
    if s.procs[p].given != s.procs[p].taken {
      SubsequenceShrinks(s.procs[p].taken, s.popped);
      assert s.procs[p].taken[..|s.procs[p].taken| - 1] == s.procs[p].given;
    }
  }

  // ---------------------------------------------------------------- one dispatcher

  /** Process `d` is the only dispatcher, and has received everything that was popped. */
  predicate SoleDispatcher(s: State, d: nat) {
    && d < |s.procs| && s.procs[d].role == Dispatching && s.procs[d].taken == s.popped
    && forall p :: 0 <= p < |s.procs| && p != d ==> s.procs[p].role != Dispatching
  }

  /** Not a second dispatcher, and not a pop whose answer gets lost. */
  predicate KeepsSole(a: Action) {
    a != Enlist(Dispatching) && !(a.Pop? && a.reply == Unacknowledged)
  }

  lemma SoleStep(s: State, a: Action, d: nat)
    requires Inv(s) && SoleDispatcher(s, d) && KeepsSole(a)
    ensures SoleDispatcher(Step(s, a), d)
  {
    hide Inv;
    if a.Pop? {
      PopReceipts(s, a.p, a.reply);
      hide StepPop;
    } else {
      StepReceipts(s, a);
      hide Step;
    }
  }

  lemma {:induction false} SoleRun(s: State, actions: seq<Action>, d: nat)
    requires Inv(s) && SoleDispatcher(s, d) && forall i :: 0 <= i < |actions| ==> KeepsSole(actions[i])
    ensures SoleDispatcher(Run(s, actions), d)
    decreases |actions|
  {
    hide Inv, Step, SoleDispatcher, KeepsSole;
    if actions != [] {
      SoleStep(s, actions[0], d);
      StepKeepsInv(s, actions[0]);
      SoleRun(Step(s, actions[0]), actions[1..], d);
    }
  }

  /** With one dispatcher, and as long as no pop's answer is lost, nothing is left out: the workers
      receive a prefix of what was pushed, at most one ID short of what was popped. */
  lemma DeliveredInOrder(actions: seq<Action>)
    requires forall i :: 0 <= i < |actions| ==> KeepsSole(actions[i])
    ensures var s := Run(EMPTY, [Enlist(Dispatching)] + actions);
            && s.procs != [] && s.procs[0].given <= s.popped <= s.pushed
            && |s.popped| <= |s.procs[0].given| + 1
  {
    hide Inv, Reverse, KeepsSole;
    var first := [Enlist(Dispatching)];
    var started := Step(EMPTY, first[0]);
    EmptyInv();
    StepKeepsInv(EMPTY, first[0]);
    assert (first + actions)[1..] == actions;
    SoleRun(started, actions, 0);
    RunKeepsInv(started, actions);
    hide Run;
    QueueFacts(Run(started, actions));
    HandsFacts(Run(started, actions), 0);
  }

  // ---------------------------------------------------------------- who has been handed what

  /** An API call is responsible only for an ID that was never pushed, anyone else only for one that
      was popped. */
  predicate HolderKnown(s: State, p: nat)
    requires p < |s.procs|
  {
    match Holds(s.procs[p].pc)
    case None => true
    case Some(id) => if s.procs[p].role == Api then id !in s.pushed else id in s.popped
  }

  ghost predicate Published(s: State) {
    && (forall id :: id in s.pushed ==> id in s.jobs)
    && (forall p :: 0 <= p < |s.procs| ==> HolderKnown(s, p))
  }

  /** Nothing is pushed or popped, and nobody becomes responsible for another job. */
  predicate SameHolders(s: State, t: State) {
    && t.pushed == s.pushed && t.popped == s.popped && |s.procs| <= |t.procs|
    && (forall id <- s.jobs :: id in t.jobs)
    && (forall p :: 0 <= p < |s.procs| ==>
          && t.procs[p].role == s.procs[p].role
          && (Holds(t.procs[p].pc) == None || Holds(t.procs[p].pc) == Holds(s.procs[p].pc)))
    && (forall p :: |s.procs| <= p < |t.procs| ==> Holds(t.procs[p].pc) == None)
  }

  lemma SameHoldersPublished(s: State, t: State)
    requires Published(s) && SameHolders(s, t)
    ensures Published(t)
  {
    forall p | 0 <= p < |t.procs|
      ensures HolderKnown(t, p)
    {
      if p < |s.procs| {
        assert HolderKnown(s, p);
      }
    }
  }

  lemma OwnHolders(s: State, t: State, p: nat)
    requires OwnStep(s, t, p)
    ensures SameHolders(s, t)
  {
  }

  lemma JoinHolders(s: State, a: Action)
    requires a.Submit? || a.Enlist?
    ensures SameHolders(s, Step(s, a))
  {
    hide New;
  }

  lemma InsertPublished(s: State, p: nat, reply: Reply)
    requires Inv(s) && Published(s)
    ensures Published(StepInsert(s, p, reply))
  {
    hide Inv, EntryOk, PcOk, HandsOk;
    var t := StepInsert(s, p, reply);
    if p < |s.procs| {
      ProcFacts(s, p);
      forall q | 0 <= q < |t.procs|
        ensures HolderKnown(t, q)
      {
        assert HolderKnown(s, q);
      }
    }
  }

  lemma PublishPublished(s: State, p: nat, reply: Reply)
    requires Inv(s) && Published(s)
    ensures Published(StepPublish(s, p, reply))
  {
    hide Inv, EntryOk, PcOk, RoleOk, HandsOk, IsValid;
    var t := StepPublish(s, p, reply);
    if p < |s.procs| && s.procs[p].pc.Publishing? {
      HolderIsTheOnlyPlace(s, p, s.procs[p].pc.entity.id);
      forall q | 0 <= q < |t.procs|
        ensures HolderKnown(t, q)
      {
        assert HolderKnown(s, q);
      }
    }
  }

  lemma PopPublished(s: State, p: nat, reply: Reply)
    requires Inv(s) && Published(s)
    ensures Published(StepPop(s, p, reply))
  {
    hide Inv, EntryOk, PcOk, RoleOk, HandsOk, ParseID, Waiting;
    var t := StepPop(s, p, reply);
    if s.list != [] {
      ListedIDParses(s, |s.list| - 1);
      forall q | 0 <= q < |t.procs|
        ensures HolderKnown(t, q)
      {
        assert HolderKnown(s, q);
      }
    }
  }

  lemma HandOverPublished(s: State, p: nat, worker: nat)
    requires Inv(s) && Published(s)
    ensures Published(StepHandOver(s, p, worker))
  {
    hide Inv, EntryOk, PcOk, HandsOk;
    var t := StepHandOver(s, p, worker);
    if p < |s.procs| {
      ProcFacts(s, p);
      assert HolderKnown(s, p);
      forall q | 0 <= q < |t.procs|
        ensures HolderKnown(t, q)
      {
        assert HolderKnown(s, q);
      }
    }
  }

  lemma StepPublished(s: State, a: Action)
    requires Inv(s) && Published(s)
    ensures Published(Step(s, a))
  {
    hide Inv, Published, SameHolders, OwnStep, StepSubmit, StepEnlist, StepHandOver, StepInsert, StepReport, StepPublish,
         StepPop, StepCancel, StepLoad, StepBegin, StepSave, StepStart, StepFinish, StepConclude, StepCrash;
    if a.Insert? {
      InsertPublished(s, a.p, a.reply);
    } else if a.Publish? {
      PublishPublished(s, a.p, a.reply);
    } else if a.Pop? {
      PopPublished(s, a.p, a.reply);
    } else if a.HandOver? {
      HandOverPublished(s, a.p, a.worker);
    } else {
      if IsOwn(a) {
        OwnActions(s, a);
        OwnHolders(s, Step(s, a), a.p);
      } else {
        JoinHolders(s, a);
      }
      SameHoldersPublished(s, Step(s, a));
    }
  }

  lemma {:induction false} RunPublished(s: State, actions: seq<Action>)
    requires Inv(s) && Published(s)
    ensures Published(Run(s, actions))
    decreases |actions|
  {
    hide Inv, Step, Published;
    if actions != [] {
      StepPublished(s, actions[0]);
      StepKeepsInv(s, actions[0]);
      RunPublished(Step(s, actions[0]), actions[1..]);
    }
  }

  // ---------------------------------------------------------------- back-pressure

  /** The jobs popped but not finished: not back in the list, not ended, not lost. */
  function InFlight(s: State): set<string> {
    set id | id in s.popped && id !in s.list && id in s.jobs && s.jobs[id].faults == [] && !s.jobs[id].settled
  }

  /** The jobs being processed: the row says so, and the job was not lost. */
  function InProgress(s: State): set<string> {
    set id | id in s.jobs && s.jobs[id].row.status == Processing && s.jobs[id].faults == []
  }

  function CountOf(procs: seq<Proc>, roles: set<Role>): nat {
    if procs == [] then 0 else
      CountOf(procs[..|procs| - 1], roles) + if procs[|procs| - 1].role in roles then 1 else 0
  }

  /** The jobs that processes of these roles are responsible for. */
  function HeldByRoles(procs: seq<Proc>, roles: set<Role>): set<string> {
    if procs == [] then {} else
      var last := procs[|procs| - 1];
      HeldByRoles(procs[..|procs| - 1], roles)
      + if last.role in roles && Holds(last.pc).Some? then {Holds(last.pc).value} else {}
  }

  lemma {:induction false} HeldByRolesBounded(procs: seq<Proc>, roles: set<Role>)
    ensures |HeldByRoles(procs, roles)| <= CountOf(procs, roles)
    decreases |procs|
  {
    if procs != [] {
      HeldByRolesBounded(procs[..|procs| - 1], roles);
    }
  }

  lemma {:induction false} HeldByRolesHas(procs: seq<Proc>, roles: set<Role>, p: nat, id: string)
    requires p < |procs| && procs[p].role in roles && HeldBy(procs[p], id)
    ensures id in HeldByRoles(procs, roles)
    decreases |procs|
  {
    if p < |procs| - 1 {
      HeldByRolesHas(procs[..|procs| - 1], roles, p, id);
    }
  }

  lemma {:induction false} CountOfSplits(procs: seq<Proc>)
    ensures CountOf(procs, {Dispatching, Working}) == CountOf(procs, {Dispatching}) + CountOf(procs, {Working})
    decreases |procs|
  {
    if procs != [] {
      CountOfSplits(procs[..|procs| - 1]);
    }
  }

  lemma {:induction false} SubsetSize(a: set<string>, b: set<string>)
    requires a <= b
    ensures |a| <= |b|
    decreases |a|
  {
    if a != {} {
      var x :| x in a;
      SubsetSize(a - {x}, b - {x});
    }
  }

  /** A popped and unfinished job is in the hands of a dispatcher or a worker. */
  lemma InFlightIsHeld(s: State, id: string) returns (p: nat)
    requires Inv(s) && Published(s) && id in InFlight(s)
    ensures p < |s.procs| && s.procs[p].role != Api && HeldBy(s.procs[p], id)
  {
    hide Inv, Reverse;
    BalancedFacts(s, id);
    assert multiset(s.list)[id] == 0;
    p := HoldersFound(s.procs, id);
    QueueFacts(s);
    assert HolderKnown(s, p);
  }

  /** And what they have in hand is popped and unfinished. */
  lemma HeldIsInFlight(s: State, p: nat, id: string)
    requires Inv(s) && Published(s) && p < |s.procs| && s.procs[p].role != Api && HeldBy(s.procs[p], id)
    ensures id in InFlight(s)
  {
    hide Inv;
    HolderIsTheOnlyPlace(s, p, id);
    assert HolderKnown(s, p);
  }

  /** A job in progress is in the hands of a worker. */
  lemma InProgressIsHeld(s: State, id: string) returns (p: nat)
    requires Inv(s) && id in InProgress(s)
    ensures p < |s.procs| && s.procs[p].role == Working && HeldBy(s.procs[p], id)
  {
    hide Inv, EntryOk, AttemptsFit, DueWrite, Latest, CaughtUp, OneBehind, Coherent;
    BalancedFacts(s, id);
    EntryFacts(s, id);
    if id in s.list {
      var i :| 0 <= i < |s.list| && s.list[i] == id;
      ListedIDParses(s, i);
      assert false;
    }
    p := HoldersFound(s.procs, id);
    ProcFacts(s, p);
  }

  /** In every reachable state the popped and unfinished jobs are those in the hands of dispatchers
      and workers, one each at most. So one pool, of one dispatcher and five workers,
      never has more than six. */
  lemma BackPressure(actions: seq<Action>)
    ensures var s := Run(EMPTY, actions);
            && (forall id :: id in InFlight(s) <==>
                  exists p :: 0 <= p < |s.procs| && s.procs[p].role != Api && HeldBy(s.procs[p], id))
            && |InFlight(s)| <= CountOf(s.procs, {Dispatching}) + CountOf(s.procs, {Working})
            && (CountOf(s.procs, {Dispatching}) <= 1 && CountOf(s.procs, {Working}) <= 5 ==> |InFlight(s)| <= 6)
  {
    hide Inv, Run, HeldByRoles, InFlight, CountOf, Published;
    var s := Run(EMPTY, actions);
    EmptyInv();
    RunKeepsInv(EMPTY, actions);
    EmptyPublished();
    RunPublished(EMPTY, actions);
    var servers := {Dispatching, Working};
    forall id | id in InFlight(s)
      ensures id in HeldByRoles(s.procs, servers)
      ensures exists p :: 0 <= p < |s.procs| && s.procs[p].role != Api && HeldBy(s.procs[p], id)
    {
      var p := InFlightIsHeld(s, id);
      HeldByRolesHas(s.procs, servers, p, id);
    }
    forall id, p | 0 <= p < |s.procs| && s.procs[p].role != Api && HeldBy(s.procs[p], id)
      ensures id in InFlight(s)
    {
      HeldIsInFlight(s, p, id);
    }
    HeldByRolesBounded(s.procs, servers);
    SubsetSize(InFlight(s), HeldByRoles(s.procs, servers));
    CountOfSplits(s.procs);
  }

  lemma EmptyPublished()
    ensures Published(EMPTY)
  {
  }

  /** In particular no more jobs are in progress than there are workers. */
  lemma ProcessingBounded(actions: seq<Action>)
    ensures var s := Run(EMPTY, actions); |InProgress(s)| <= CountOf(s.procs, {Working})
  {
    hide Inv, Run, HeldByRoles, InProgress, CountOf;
    var s := Run(EMPTY, actions);
    EmptyInv();
    RunKeepsInv(EMPTY, actions);
    forall id | id in InProgress(s)
      ensures id in HeldByRoles(s.procs, {Working})
    {
      var p := InProgressIsHeld(s, id);
      HeldByRolesHas(s.procs, {Working}, p, id);
    }
    HeldByRolesBounded(s.procs, {Working});
    SubsetSize(InProgress(s), HeldByRoles(s.procs, {Working}));
  }

  // ---------------------------------------------------------------- delivery is possible

  /** From every reachable state with a listed ID, a dispatcher and a worker that join now can bring the
      ID that was listed first to the worker, and leave everything else as it was. */
  lemma OldestReachesWorker(before: seq<Action>)
    requires Run(EMPTY, before).list != []
    ensures var s := Run(EMPTY, before);
            var n, last := |s.procs|, |s.list| - 1;
            var t := Run(s, [Enlist(Dispatching), Enlist(Working), Pop(n, Done), HandOver(n, n + 1)]);
            && |t.procs| == n + 2 && t.procs[..n] == s.procs
            && t.procs[n].pc == Idle && t.procs[n].given == [s.list[last]]
            && t.procs[n + 1].role == Working && t.procs[n + 1].pc == Loading(s.list[last])
            && t.list == s.list[..last] && t.jobs == s.jobs
  {
    hide Run, Inv, IsValid, ParseID, EntryOk, Waiting, Step;
    var s := Run(EMPTY, before);
    EmptyInv();
    RunKeepsInv(EMPTY, before);
    var n, last := |s.procs|, |s.list| - 1;
    ListedIDParses(s, last);
    FourActions(s, Enlist(Dispatching), Enlist(Working), Pop(n, Done), HandOver(n, n + 1));
    TwoJoin(s);
    var joined := Step(Step(s, Enlist(Dispatching)), Enlist(Working));
    PoppedAndHanded(joined, n);
  }

  lemma TwoJoin(s: State)
    ensures Step(Step(s, Enlist(Dispatching)), Enlist(Working)) ==
            s.(procs := s.procs + [Proc(Dispatching, Idle, [], []), Proc(Working, Idle, [], [])])
  {
  }

  lemma PoppedAndHanded(s: State, n: nat)
    requires |s.procs| == n + 2 && s.procs[n..] == [Proc(Dispatching, Idle, [], []), Proc(Working, Idle, [], [])]
    requires s.list != [] && ParseID(s.list[|s.list| - 1]) == Ok(s.list[|s.list| - 1])
    ensures var last := |s.list| - 1;
            var t := Step(Step(s, Pop(n, Done)), HandOver(n, n + 1));
            && t.procs == s.procs[..n] + [Proc(Dispatching, Idle, [s.list[last]], [s.list[last]]),
                                          Proc(Working, Loading(s.list[last]), [], [])]
            && t.list == s.list[..last] && t.jobs == s.jobs
  {
    hide ParseID;
    assert s.procs[n] == s.procs[n..][0] && s.procs[n + 1] == s.procs[n..][1];
    var id := s.list[|s.list| - 1];
    var popped := Step(s, Pop(n, Done));
    assert s.procs[n].taken + [id] == [id] && s.procs[n].given + [id] == [id];
    assert popped.procs == s.procs[n := Proc(Dispatching, Holding(id), [id], [])];
    var t := Step(popped, HandOver(n, n + 1));
    assert t.procs == popped.procs[n := Proc(Dispatching, Idle, [id], [id])][n + 1 := Proc(Working, Loading(id), [], [])];
  }

  lemma FourActions(s: State, a: Action, b: Action, c: Action, d: Action)
    ensures Run(s, [a, b, c, d]) == Step(Step(Step(Step(s, a), b), c), d)
  {
    hide Step;
    assert [a, b, c, d][1..] == [b, c, d] && [b, c, d][1..] == [c, d] && [c, d][1..] == [d] && [d][1..] == [];
    assert Run(s, [a, b, c, d]) == Run(Step(s, a), [b, c, d]);
    assert Run(Step(Step(s, a), b), [c, d]) == Run(Step(Step(Step(s, a), b), c), [d]);
  }
}
