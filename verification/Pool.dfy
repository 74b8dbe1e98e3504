/** Starting and stopping the worker pool (internal/adapters/worker/pool.go, dispatcher.go,
    processor_worker.go): the goroutine of `Pool.Run`, which is also the dispatcher's, the worker
    goroutines, the jobs channel, the error channel and the wait group, as a step system.

Assumed of the outside: `Dequeue` and `Execute` return, and a `Dequeue` called with a context that
is already cancelled returns an error. */
module Pool {
  import opened Errors

  /** The unbuffered jobs channel. `Run` makes one; the workers and the dispatcher check for nil. */
  datatype Channel = NilChannel | Open | Closed

  /** Where the goroutine of `Pool.Run` is. `late`: the call of `Dequeue` began after the
      cancellation. */
  datatype Main =
    | Spawning(next: nat)
    | Dequeuing(late: bool)
    | Delaying
    | Sending(id: string)
    | Closing
    | Waiting
    | ClosingErrors
    | Collecting
    | Returned

  datatype Worker =
    | NotStarted
    | Selecting
    | Executing(id: string)
    | SendingError(error: Error)
    | Leaving
    | Exited

  /** `reported` are all the errors that workers sent, `closes` how often the jobs channel was
      closed; `collected` is what `Run` has gathered for its result. */
  datatype State = State(
    main: Main,
    workers: seq<Worker>,
    cancelled: bool,
    jobs: Channel,
    buffer: seq<Error>,
    errorsOpen: bool,
    group: int,
    dispatcherFailed: bool,
    collected: seq<Error>,
    reported: seq<Error>,
    closes: nat
  )

  datatype Action =
    | Cancel
    | Spawn
    | DequeueReturns(r: Result<string>)
    | TimerFires
    | DelayCancelled
    | Send(worker: nat)
    | SendCancelled
    | Close
    | WaitEnds
    | CloseErrors
    | Collect
    | SelectCancelled(worker: nat)
    | SelectClosed(worker: nat)
    | ExecuteReturns(worker: nat, err: Option<Error>)
    | ReportError(worker: nat)
    | Leave(worker: nat)

  function Init(count: nat, jobs: Channel): State {
    State(Spawning(0), seq(count, _ => NotStarted), false, jobs, [], true, 0, false, [], [], 0)
  }

  predicate WorkerIs(s: State, w: nat, place: Worker) {
    w < |s.workers| && s.workers[w] == place
  }

  predicate IsContextError(e: Error) {
    Is(e, ContextCanceled) || Is(e, DeadlineExceeded)
  }

  predicate Enabled(s: State, a: Action) {
    match a
    case Cancel => !s.cancelled
    case Spawn => s.main.Spawning?
    case DequeueReturns(r) => s.main.Dequeuing? && (s.main.late ==> r.Err?)
    case TimerFires => s.main.Delaying?
    case DelayCancelled => s.main.Delaying? && s.cancelled
    case Send(w) => s.main.Sending? && s.jobs == Open && WorkerIs(s, w, Selecting)
    case SendCancelled => s.main.Sending? && s.cancelled
    case Close => s.main.Closing?
    case WaitEnds => s.main.Waiting? && s.group == 0
    case CloseErrors => s.main.ClosingErrors?
    case Collect => s.main.Collecting?
    case SelectCancelled(w) => WorkerIs(s, w, Selecting) && s.cancelled
    case SelectClosed(w) => WorkerIs(s, w, Selecting) && s.jobs == Closed
    case ExecuteReturns(w, _) => w < |s.workers| && s.workers[w].Executing?
    case ReportError(w) => w < |s.workers| && s.workers[w].SendingError? && |s.buffer| < |s.workers|
    case Leave(w) => WorkerIs(s, w, Leaving)
  }

  function Put(s: State, w: nat, place: Worker): State
    requires w < |s.workers|
  {
    s.(workers := s.workers[w := place])
  }

  /** One action of the goroutines or of the outside. What is not enabled changes nothing. */
  function Step(s: State, a: Action): State {
    if !Enabled(s, a) then s
    else match a
      case Cancel => s.(cancelled := true)
      case Spawn =>
        var k := s.main.next;
        if k < |s.workers| then
          Put(s, k, if s.jobs == NilChannel then SendingError(Foreign("jobs channel must not be nil", {})) else Selecting)
          .(main := Spawning(k + 1), group := s.group + 1)
        else if s.jobs == NilChannel then s.(main := Waiting, dispatcherFailed := true)
        else s.(main := Dequeuing(s.cancelled))
      case DequeueReturns(r) =>
        (match r
         case Ok(id) => s.(main := Sending(id))
         case Err(e) => s.(main := if s.cancelled || IsContextError(e) then Closing else Delaying))
      case TimerFires => s.(main := Dequeuing(s.cancelled))
      case DelayCancelled => s.(main := Closing)
      case Send(w) => Put(s, w, Executing(s.main.id)).(main := Dequeuing(s.cancelled))
      case SendCancelled => s.(main := Closing)
      case Close => s.(main := Waiting, jobs := Closed, closes := s.closes + 1)
      case WaitEnds => s.(main := ClosingErrors)
      case CloseErrors => s.(main := Collecting, errorsOpen := false)
      case Collect =>
        if s.buffer == [] then s.(main := Returned)
        else s.(collected := s.collected + [s.buffer[0]], buffer := s.buffer[1..])
      case SelectCancelled(w) => Put(s, w, Leaving)
      case SelectClosed(w) => Put(s, w, Leaving)
      case ExecuteReturns(w, err) => Put(s, w, if err.Some? && s.cancelled then Leaving else Selecting)
      case ReportError(w) =>
        Put(s, w, Leaving).(buffer := s.buffer + [s.workers[w].error], reported := s.reported + [s.workers[w].error])
      case Leave(w) => Put(s, w, Exited).(group := s.group - 1)
  }

  function Run(s: State, actions: seq<Action>): State
    decreases |actions|
  {
    if actions == [] then s else Run(Step(s, actions[0]), actions[1..])
  }

  // ---------------------------------------------------------------- the invariant

  predicate Started(w: Worker) {
    !w.NotStarted? && !w.Exited?
  }

  /** The worker has not yet passed the point where it may send an error. */
  predicate MaySend(w: Worker) {
    w.NotStarted? || w.Selecting? || w.Executing? || w.SendingError?
  }

  function Weight(w: Worker): nat {
    match w
    case NotStarted => 6
    case Executing(_) => 5
    case Selecting => 4
    case SendingError(_) => 3
    case Leaving => 1
    case Exited => 0
  }

  function CountStarted(workers: seq<Worker>): nat {
    if workers == [] then 0 else
      CountStarted(workers[..|workers| - 1]) + if Started(workers[|workers| - 1]) then 1 else 0
  }

  function CountMaySend(workers: seq<Worker>): nat {
    if workers == [] then 0 else
      CountMaySend(workers[..|workers| - 1]) + if MaySend(workers[|workers| - 1]) then 1 else 0
  }

  function TotalWeight(workers: seq<Worker>): nat {
    if workers == [] then 0 else
      TotalWeight(workers[..|workers| - 1]) + Weight(workers[|workers| - 1])
  }

  predicate AllExited(s: State) {
    forall w :: 0 <= w < |s.workers| ==> s.workers[w].Exited?
  }

  /** Past the dispatcher loop and its deferred close. */
  predicate DispatcherDone(main: Main) {
    main.Waiting? || main.ClosingErrors? || main.Collecting? || main.Returned?
  }

  /** The wait group counts the goroutines that run. The error channel has room for everyone. */
  predicate CountsOk(s: State) {
    && s.group == CountStarted(s.workers)
    && |s.buffer| + |s.collected| + CountMaySend(s.workers) <= |s.workers|
    && s.reported == s.collected + s.buffer
    && (s.jobs != NilChannel ==> s.reported == [])
    && (s.jobs == NilChannel ==> |s.reported| + CountMaySend(s.workers) == |s.workers|)
  }

  /** The jobs channel is closed once, after the loop, and the error channel after all workers. */
  predicate ChannelsOk(s: State) {
    && (s.jobs == Closed <==> s.jobs != NilChannel && DispatcherDone(s.main))
    && s.closes == (if s.jobs == Closed then 1 else 0)
    && (s.jobs == NilChannel ==> s.main.Spawning? || DispatcherDone(s.main))
    && (s.dispatcherFailed <==> s.jobs == NilChannel && DispatcherDone(s.main))
    && (s.main.Dequeuing? && s.main.late ==> s.cancelled)
    && (s.errorsOpen <==> !(s.main.Collecting? || s.main.Returned?))
    && (s.main.Returned? ==> s.buffer == [])
  }

  /** Workers are started in order, all of them before the dispatcher loop, and leave only when they
      may. */
  predicate WorkerOk(s: State, w: nat)
    requires w < |s.workers|
  {
    && (s.workers[w].NotStarted? <==> s.main.Spawning? && s.main.next <= w)
    && (s.workers[w].Leaving? || s.workers[w].Exited? ==> s.cancelled || s.jobs != Open)
    && (s.workers[w].SendingError? ==> s.jobs == NilChannel)
    && (s.workers[w].Selecting? || s.workers[w].Executing? ==> s.jobs != NilChannel)
    && (s.main.ClosingErrors? || s.main.Collecting? || s.main.Returned? ==> s.workers[w].Exited?)
  }

  predicate Inv(s: State) {
    && CountsOk(s) && ChannelsOk(s)
    && (s.main.Spawning? ==> s.main.next <= |s.workers|)
    && forall w :: 0 <= w < |s.workers| ==> WorkerOk(s, w)
  }

  lemma {:induction false} CountsUpdate(workers: seq<Worker>, w: nat, place: Worker)
    requires w < |workers|
    ensures CountStarted(workers[w := place]) + (if Started(workers[w]) then 1 else 0)
            == CountStarted(workers) + (if Started(place) then 1 else 0)
    ensures CountMaySend(workers[w := place]) + (if MaySend(workers[w]) then 1 else 0)
            == CountMaySend(workers) + (if MaySend(place) then 1 else 0)
    ensures TotalWeight(workers[w := place]) + Weight(workers[w]) == TotalWeight(workers) + Weight(place)
    decreases |workers|
  {
    var n := |workers| - 1;
    if w == n {
      assert workers[w := place][..n] == workers[..n];
    } else {
      assert workers[w := place][..n] == workers[..n][w := place];
      CountsUpdate(workers[..n], w, place);
    }
  }

  lemma {:induction false} NoneStarted(workers: seq<Worker>)
    requires CountStarted(workers) == 0
    ensures forall w :: 0 <= w < |workers| ==> !Started(workers[w])
    decreases |workers|
  {
    if workers != [] {
      NoneStarted(workers[..|workers| - 1]);
      assert forall w :: 0 <= w < |workers| - 1 ==> workers[w] == workers[..|workers| - 1][w];
    }
  }

  lemma {:induction false} CountsOfNew(count: nat)
    ensures var workers := seq(count, _ => NotStarted);
            CountStarted(workers) == 0 && CountMaySend(workers) == count
    decreases count
  {
    if count > 0 {
      var workers := seq(count, _ => NotStarted);
      assert workers[..count - 1] == seq(count - 1, _ => NotStarted);
      CountsOfNew(count - 1);
    }
  }

  lemma InitInv(count: nat, jobs: Channel)
    requires jobs != Closed
    ensures Inv(Init(count, jobs))
  {
    CountsOfNew(count);
  }

  /** The actions of worker `w`, and the send to it. */
  predicate OfWorker(a: Action, w: nat) {
    match a
    case SelectCancelled(v) => v == w
    case SelectClosed(v) => v == w
    case Leave(v) => v == w
    case ReportError(v) => v == w
    case ExecuteReturns(v, _) => v == w
    case Send(v) => v == w
    case _ => false
  }

  lemma WorkerStepCounts(s: State, a: Action, w: nat)
    requires Inv(s) && w < |s.workers| && OfWorker(a, w) && Enabled(s, a)
    ensures CountsOk(Step(s, a))
  {
    assert WorkerOk(s, w);
    CountsUpdate(s.workers, w, Step(s, a).workers[w]);
    hide CountStarted, CountMaySend;
  }

  lemma WorkerStepKeepsInv(s: State, a: Action, w: nat)
    requires Inv(s) && w < |s.workers| && OfWorker(a, w) && Enabled(s, a)
    ensures Inv(Step(s, a))
  {
    hide CountsOk;
    WorkerStepCounts(s, a, w);
    assert WorkerOk(s, w);
    var t := Step(s, a);
    forall v | 0 <= v < |t.workers|
      ensures WorkerOk(t, v)
    {
      assert WorkerOk(s, v);
    }
  }

  lemma SpawnCounts(s: State)
    requires Inv(s) && Enabled(s, Spawn)
    ensures CountsOk(Step(s, Spawn))
  {
    if s.main.next < |s.workers| {
      assert WorkerOk(s, s.main.next);
      CountsUpdate(s.workers, s.main.next, Step(s, Spawn).workers[s.main.next]);
    }
    hide CountStarted, CountMaySend;
  }

  lemma SpawnKeepsInv(s: State)
    requires Inv(s) && Enabled(s, Spawn)
    ensures Inv(Step(s, Spawn))
  {
    hide CountsOk;
    SpawnCounts(s);
    var t := Step(s, Spawn);
    forall v | 0 <= v < |t.workers|
      ensures WorkerOk(t, v)
    {
      assert WorkerOk(s, v);
    }
  }

  lemma WaitEndsKeepsInv(s: State)
    requires Inv(s) && Enabled(s, WaitEnds)
    ensures Inv(Step(s, WaitEnds))
  {
    NoneStarted(s.workers);
    hide CountStarted, CountMaySend;
    var t := Step(s, WaitEnds);
    forall v | 0 <= v < |t.workers|
      ensures WorkerOk(t, v)
    {
      assert WorkerOk(s, v);
    }
  }

  /** The actions of the main goroutine that leave the workers alone, and the cancellation. */
  predicate OfMain(a: Action) {
    a == Cancel || a.DequeueReturns? || a == TimerFires || a == DelayCancelled || a == SendCancelled
    || a == Close || a == CloseErrors || a == Collect
  }

  lemma CollectCounts(s: State)
    requires Inv(s) && Enabled(s, Collect)
    ensures CountsOk(Step(s, Collect))
  {
    hide CountStarted, CountMaySend, WorkerOk, ChannelsOk;
  }

  lemma MainStepCounts(s: State, a: Action)
    requires Inv(s) && Enabled(s, a) && OfMain(a)
    ensures CountsOk(Step(s, a))
  {
    hide CountStarted, CountMaySend, Is, WorkerOk, ChannelsOk;
    if a == Collect {
      CollectCounts(s);
    } else {
      if a == Close {
        ClosingIsOpen(s);
      }
      var t := Step(s, a);
      assert t.workers == s.workers && t.group == s.group && t.buffer == s.buffer && t.collected == s.collected
             && t.reported == s.reported && (t.jobs == NilChannel <==> s.jobs == NilChannel);
    }
  }

  lemma ClosingIsOpen(s: State)
    requires Inv(s) && s.main.Closing?
    ensures s.jobs == Open
  {
    hide CountsOk, WorkerOk;
  }

  lemma MainStepChannels(s: State, a: Action)
    requires Inv(s) && Enabled(s, a) && OfMain(a)
    ensures ChannelsOk(Step(s, a))
  {
    hide CountsOk, Is, WorkerOk;
  }

  lemma MainStepKeepsInv(s: State, a: Action)
    requires Inv(s) && Enabled(s, a) && OfMain(a)
    ensures Inv(Step(s, a))
  {
    hide CountsOk, ChannelsOk, Is;
    MainStepCounts(s, a);
    MainStepChannels(s, a);
    var t := Step(s, a);
    forall v | 0 <= v < |s.workers|
      ensures |t.workers| == |s.workers| && WorkerOk(t, v)
    {
      MainStepWorker(s, a, v);
    }
  }

  lemma MainStepWorker(s: State, a: Action, w: nat)
    requires Inv(s) && Enabled(s, a) && OfMain(a) && w < |s.workers|
    ensures Step(s, a).workers == s.workers && WorkerOk(Step(s, a), w)
  {
    hide CountsOk, Is;
    assert WorkerOk(s, w);
  }

  lemma StepKeepsInv(s: State, a: Action)
    requires Inv(s)
    ensures Inv(Step(s, a))
  {
    if !Enabled(s, a) {
      Disabled(s, a);
    } else {
      hide Inv, Step;
      match a
      case Spawn => SpawnKeepsInv(s);
      case WaitEnds => WaitEndsKeepsInv(s);
      case SelectCancelled(w) => WorkerStepKeepsInv(s, a, w);
      case SelectClosed(w) => WorkerStepKeepsInv(s, a, w);
      case Leave(w) => WorkerStepKeepsInv(s, a, w);
      case ReportError(w) => WorkerStepKeepsInv(s, a, w);
      case ExecuteReturns(w, _) => WorkerStepKeepsInv(s, a, w);
      case Send(w) => WorkerStepKeepsInv(s, a, w);
      case _ => MainStepKeepsInv(s, a);
    }
  }

  lemma Disabled(s: State, a: Action)
    requires !Enabled(s, a)
    ensures Step(s, a) == s
  {
  }

  lemma {:induction false} RunKeepsInv(s: State, actions: seq<Action>)
    requires Inv(s)
    ensures Inv(Run(s, actions))
    decreases |actions|
  {
    hide Inv, Step;
    if actions != [] {
      StepKeepsInv(s, actions[0]);
      RunKeepsInv(Step(s, actions[0]), actions[1..]);
    }
  }

  // ---------------------------------------------------------------- safety

  /** What can never go wrong with the channels and the wait group. */
  predicate Sound(s: State) {
    // The jobs channel is closed at most once, and nobody sends on it afterwards.
    && s.closes <= 1
    && (s.main.Closing? ==> s.jobs == Open)
    && (s.main.Sending? ==> s.jobs == Open)
    // A worker with an error finds the error channel open and with room.
    && (forall w :: 0 <= w < |s.workers| && s.workers[w].SendingError? ==>
          s.errorsOpen && |s.buffer| < |s.workers|)
    // The wait group never goes below zero, and is zero only when all have left.
    && s.group >= 0
    && (s.main.Waiting? && s.group == 0 ==> AllExited(s))
    // Until the cancellation, a blocked send has every worker at its other side or executing.
    && (s.main.Sending? && !s.cancelled ==>
          forall w :: 0 <= w < |s.workers| ==> s.workers[w].Selecting? || s.workers[w].Executing?)
  }

  lemma InvIsSound(s: State)
    requires Inv(s)
    ensures Sound(s)
  {
    forall w | 0 <= w < |s.workers|
      ensures s.workers[w].SendingError? ==> s.errorsOpen && |s.buffer| < |s.workers|
      ensures s.main.Sending? && !s.cancelled ==> s.workers[w].Selecting? || s.workers[w].Executing?
      ensures s.main.Waiting? && s.group == 0 ==> s.workers[w].Exited?
    {
      WorkerIsSound(s, w);
    }
  }

  lemma WorkerIsSound(s: State, w: nat)
    requires Inv(s) && w < |s.workers|
    ensures s.workers[w].SendingError? ==> s.errorsOpen && |s.buffer| < |s.workers|
    ensures s.main.Sending? && !s.cancelled ==> s.workers[w].Selecting? || s.workers[w].Executing?
    ensures s.main.Waiting? && s.group == 0 ==> s.workers[w].Exited?
  {
    assert WorkerOk(s, w);
    if s.workers[w].SendingError? {
      MaySendCounts(s.workers, w);
    }
    if s.main.Waiting? && s.group == 0 {
      NoneStarted(s.workers);
    }
    hide CountStarted, CountMaySend;
  }

  lemma {:induction false} MaySendCounts(workers: seq<Worker>, w: nat)
    requires w < |workers| && MaySend(workers[w])
    ensures CountMaySend(workers) >= 1
    decreases |workers|
  {
    if w < |workers| - 1 {
      MaySendCounts(workers[..|workers| - 1], w);
    }
  }

  lemma PoolIsSound(count: nat, actions: seq<Action>)
    ensures Sound(Run(Init(count, Open), actions))
  {
    InitInv(count, Open);
    RunKeepsInv(Init(count, Open), actions);
    InvIsSound(Run(Init(count, Open), actions));
  }

  // ---------------------------------------------------------------- shutdown

  /** The end has begun: the context is cancelled or the dispatcher loop is over. */
  predicate Stopping(s: State) {
    s.cancelled || s.main.Closing? || DispatcherDone(s.main)
  }

  function MainRank(s: State): nat
    requires s.main.Spawning? ==> s.main.next <= |s.workers|
  {
    match s.main
    case Spawning(k) => 11 + |s.workers| - k
    case Dequeuing(late) => if late then 6 else 10
    case Sending(_) => 9
    case Delaying => 7
    case Closing => 5
    case Waiting => 4
    case ClosingErrors => 3
    case Collecting => 2
    case Returned => 0
  }

  function Rank(s: State): nat
    requires s.main.Spawning? ==> s.main.next <= |s.workers|
  {
    MainRank(s) + TotalWeight(s.workers) + |s.buffer| + if s.cancelled then 0 else 1
  }

  lemma WorkerDescends(s: State, a: Action, w: nat)
    requires Inv(s) && Stopping(s) && Enabled(s, a) && w < |s.workers|
    requires OfWorker(a, w) || (a == Spawn && s.main.next == w)
    ensures Stopping(Step(s, a)) && Rank(Step(s, a)) < Rank(s)
  {
    assert WorkerOk(s, w);
    CountsUpdate(s.workers, w, Step(s, a).workers[w]);
    hide CountsOk, WorkerOk, CountStarted, CountMaySend, TotalWeight;
  }

  lemma MainDescends(s: State, a: Action)
    requires Inv(s) && Stopping(s) && Enabled(s, a)
    requires a == Cancel || a.DequeueReturns? || a == TimerFires || a == DelayCancelled || a == SendCancelled
             || a == Close || a == CloseErrors || a == Collect || a == WaitEnds
             || (a == Spawn && s.main.next >= |s.workers|)
    ensures Stopping(Step(s, a)) && Rank(Step(s, a)) < Rank(s)
  {
    hide CountStarted, CountMaySend, TotalWeight, Is;
  }

  /** Once the end has begun it stays so, and every further action brings it closer. */
  lemma StoppingDescends(s: State, a: Action)
    requires Inv(s) && Stopping(s) && Enabled(s, a)
    ensures Inv(Step(s, a)) && Stopping(Step(s, a)) && Rank(Step(s, a)) < Rank(s)
  {
    StepKeepsInv(s, a);
    hide Inv, Step, Rank;
    match a
    case Spawn => if s.main.next < |s.workers| { WorkerDescends(s, a, s.main.next); } else { MainDescends(s, a); }
    case SelectCancelled(w) => WorkerDescends(s, a, w);
    case SelectClosed(w) => WorkerDescends(s, a, w);
    case Leave(w) => WorkerDescends(s, a, w);
    case ReportError(w) => WorkerDescends(s, a, w);
    case ExecuteReturns(w, _) => WorkerDescends(s, a, w);
    case Send(w) => WorkerDescends(s, a, w);
    case _ => MainDescends(s, a);
  }

  /** No deadlock: until `Run` has returned, some goroutine can go on, or a call that returns is in
      progress. */
  lemma StoppingGoesOn(s: State) returns (a: Action)
    requires Inv(s) && Stopping(s) && !s.main.Returned?
    ensures a != Cancel && Enabled(s, a)
  {
    match s.main
    case Spawning(_) => a := Spawn;
    case Dequeuing(_) => a := DequeueReturns(Err(Sentinel(ContextCanceled)));
    case Delaying => a := TimerFires;
    case Sending(_) => a := SendCancelled;
    case Closing => a := Close;
    case ClosingErrors => a := CloseErrors;
    case Collecting => a := Collect;
    case Waiting =>
      if s.group == 0 {
        a := WaitEnds;
      } else {
        var w := StartedFound(s.workers);
        InvIsSound(s);
        assert WorkerOk(s, w);
        match s.workers[w]
        case Selecting => a := if s.jobs == Closed then SelectClosed(w) else SelectCancelled(w);
        case Executing(_) => a := ExecuteReturns(w, None);
        case SendingError(_) => a := ReportError(w);
        case Leaving => a := Leave(w);
      }
  }

  lemma StartedFound(workers: seq<Worker>) returns (w: nat)
    requires CountStarted(workers) > 0
    ensures w < |workers| && Started(workers[w])
  {
    var n := |workers| - 1;
    if Started(workers[n]) {
      w := n;
    } else {
      w := StartedFound(workers[..n]);
    }
  }

  /** Every action of the run is enabled where it happens. */
  predicate ProperRun(s: State, actions: seq<Action>)
    decreases |actions|
  {
    actions != [] ==> Enabled(s, actions[0]) && ProperRun(Step(s, actions[0]), actions[1..])
  }

  lemma {:induction false} ShutdownIsBounded(s: State, actions: seq<Action>)
    requires Inv(s) && Stopping(s) && ProperRun(s, actions)
    ensures var t := Run(s, actions); Inv(t) && Stopping(t) && |actions| + Rank(t) <= Rank(s)
    decreases |actions|
  {
    hide Inv, Step, Enabled;
    if actions != [] {
      StoppingDescends(s, actions[0]);
      ShutdownIsBounded(Step(s, actions[0]), actions[1..]);
    }
  }

  /** Shutdown, for any number of workers and from any moment of any run at which the context is
      cancelled or the dispatcher has stopped: however the goroutines interleave, they take at most
      `Rank` steps, and where none can go on `Run` has returned, with every worker gone, the jobs
      channel closed exactly once and no error to report. */
  lemma PoolShutsDown(count: nat, before: seq<Action>, after: seq<Action>)
    requires var s := Run(Init(count, Open), before);
             Stopping(s) && ProperRun(s, after)
    ensures var s := Run(Init(count, Open), before);
            var t := Run(s, after);
            && Inv(s) && |after| <= Rank(s)
            && ((forall a :: a != Cancel ==> !Enabled(t, a)) ==>
                  && t.main == Returned && AllExited(t) && t.group == 0 && t.closes == 1
                  && t.collected == [] && !t.dispatcherFailed)
  {
    hide Step, Enabled;
    var s := Run(Init(count, Open), before);
    InitInv(count, Open);
    RunKeepsInv(Init(count, Open), before);
    ShutdownIsBounded(s, after);
    var t := Run(s, after);
    ChannelStays(Init(count, Open), before);
    ChannelStays(s, after);
    if forall a :: a != Cancel ==> !Enabled(t, a) {
      if !t.main.Returned? {
        var a := StoppingGoesOn(t);
        assert false;
      }
      WorkersHaveLeft(t);
      ExitedCounts(t.workers);
    }
  }

  lemma WorkersHaveLeft(s: State)
    requires Inv(s) && s.main.Returned?
    ensures AllExited(s)
  {
    hide CountsOk, ChannelsOk;
    forall w | 0 <= w < |s.workers|
      ensures s.workers[w].Exited?
    {
      assert WorkerOk(s, w);
    }
  }

  lemma {:induction false} ChannelStays(s: State, actions: seq<Action>)
    ensures (Run(s, actions).jobs == NilChannel) ==> s.jobs == NilChannel
    decreases |actions|
  {
    if actions != [] {
      ChannelStays(Step(s, actions[0]), actions[1..]);
    }
  }

  lemma {:induction false} ExitedCounts(workers: seq<Worker>)
    requires forall w :: 0 <= w < |workers| ==> workers[w].Exited?
    ensures CountStarted(workers) == 0
    decreases |workers|
  {
    if workers != [] {
      ExitedCounts(workers[..|workers| - 1]);
    }
  }

  /** `Run` returns an error for the dispatcher and one for each worker exactly when it has no
      channel to give them. */
  lemma NilChannelIsReported(count: nat, jobs: Channel, actions: seq<Action>)
    requires jobs != Closed && Run(Init(count, jobs), actions).main == Returned
    ensures var t := Run(Init(count, jobs), actions);
            && t.collected == t.reported
            && (t.dispatcherFailed <==> jobs == NilChannel)
            && |t.collected| == if jobs == NilChannel then count else 0
  {
    var t := Run(Init(count, jobs), actions);
    InitInv(count, jobs);
    RunKeepsInv(Init(count, jobs), actions);
    NilStays(Init(count, jobs), actions);
    ChannelStays(Init(count, jobs), actions);
    WorkersHaveLeft(t);
    ExitedSendNothing(t.workers);
  }

  lemma {:induction false} NilStays(s: State, actions: seq<Action>)
    requires Inv(s)
    ensures s.jobs == NilChannel ==> Run(s, actions).jobs == NilChannel
    ensures |Run(s, actions).workers| == |s.workers|
    decreases |actions|
  {
    if actions != [] {
      StepKeepsInv(s, actions[0]);
      NilStep(s, actions[0]);
      hide Inv, Step;
      NilStays(Step(s, actions[0]), actions[1..]);
    }
  }

  lemma NilStep(s: State, a: Action)
    requires Inv(s)
    ensures s.jobs == NilChannel ==> Step(s, a).jobs == NilChannel
    ensures |Step(s, a).workers| == |s.workers|
  {
    hide CountStarted, CountMaySend, Is;
  }

  lemma {:induction false} ExitedSendNothing(workers: seq<Worker>)
    requires forall w :: 0 <= w < |workers| ==> workers[w].Exited?
    ensures CountMaySend(workers) == 0
    decreases |workers|
  {
    if workers != [] {
      ExitedSendNothing(workers[..|workers| - 1]);
    }
  }
}
