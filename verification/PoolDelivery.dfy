/** What the pool does with the IDs that it is given (internal/adapters/worker/dispatcher.go, pool.go,
    processor_worker.go): none is lost, doubled or overtaken on its way from `Dequeue` to a worker. */
module PoolDelivery {
  import opened Errors
  import opened Pool

  // ---------------------------------------------------------------- what happens in a run

  /** The ID that `Dequeue` returns. */
  function DequeuedBy(s: State, a: Action): seq<string> {
    if a.DequeueReturns? && a.r.Ok? && Enabled(s, a) then [a.r.value] else []
  }

  function HandOf(w: Worker): seq<string> {
    if w.Executing? then [w.id] else []
  }

  /** The ID that a worker begins to execute. */
  function BegunBy(s: State, a: Action): seq<string> {
    if a.Send? && Enabled(s, a) && a.worker < |Step(s, a).workers| then HandOf(Step(s, a).workers[a.worker]) else []
  }

  function BegunByWorker(s: State, a: Action, w: nat): seq<string> {
    if a == Send(w) then BegunBy(s, a) else []
  }

  /** The ID whose execution a worker has ended. */
  function EndedByWorker(s: State, a: Action, w: nat): seq<string> {
    if a.ExecuteReturns? && a.worker == w && Enabled(s, a) then HandOf(s.workers[w]) else []
  }

  function Dequeued(s: State, actions: seq<Action>): seq<string>
    decreases |actions|
  {
    if actions == [] then [] else DequeuedBy(s, actions[0]) + Dequeued(Step(s, actions[0]), actions[1..])
  }

  function Begun(s: State, actions: seq<Action>): seq<string>
    decreases |actions|
  {
    if actions == [] then [] else BegunBy(s, actions[0]) + Begun(Step(s, actions[0]), actions[1..])
  }

  function BegunAt(s: State, actions: seq<Action>, w: nat): seq<string>
    decreases |actions|
  {
    if actions == [] then [] else BegunByWorker(s, actions[0], w) + BegunAt(Step(s, actions[0]), actions[1..], w)
  }

  function EndedAt(s: State, actions: seq<Action>, w: nat): seq<string>
    decreases |actions|
  {
    if actions == [] then [] else EndedByWorker(s, actions[0], w) + EndedAt(Step(s, actions[0]), actions[1..], w)
  }

  /** `Dequeue` has returned the end of the context. */
  predicate SawContextEnd(s: State, actions: seq<Action>)
    decreases |actions|
  {
    actions != [] && (ContextEnds(s, actions[0]) || SawContextEnd(Step(s, actions[0]), actions[1..]))
  }

  predicate ContextEnds(s: State, a: Action) {
    && a.DequeueReturns? && a.r.Err? && Enabled(s, a)
    && (Is(a.r.error, ContextCanceled) || Is(a.r.error, DeadlineExceeded))
  }

  // ---------------------------------------------------------------- nothing is lost on the way

  /** The ID that the dispatcher has in hand. */
  function InHand(main: Main): seq<string> {
    if main.Sending? then [main.id] else []
  }

  predicate PastLoop(main: Main) {
    main.Closing? || DispatcherDone(main)
  }

  /** All that was dequeued was begun, in order, but for the one in hand or, after a cancellation, the
      one dropped. */
  predicate Delivered(dequeued: seq<string>, begun: seq<string>, t: State) {
    || dequeued == begun + InHand(t.main)
    || (t.cancelled && PastLoop(t.main) && |dequeued| == |begun| + 1 && dequeued[..|begun|] == begun)
  }

  lemma StepDelivers(s: State, a: Action)
    ensures Delivered(InHand(s.main) + DequeuedBy(s, a), BegunBy(s, a), Step(s, a))
    ensures s.cancelled ==> Step(s, a).cancelled
    ensures PastLoop(s.main) ==> PastLoop(Step(s, a).main) && DequeuedBy(s, a) == BegunBy(s, a) == []
  {
    hide Is;
  }

  lemma {:induction false} PastLoopIsOver(s: State, actions: seq<Action>)
    requires PastLoop(s.main)
    ensures PastLoop(Run(s, actions).main) && Dequeued(s, actions) == Begun(s, actions) == []
    ensures s.cancelled ==> Run(s, actions).cancelled
    decreases |actions|
  {
    hide Step, PastLoop, DequeuedBy, BegunBy;
    if actions != [] {
      StepDelivers(s, actions[0]);
      PastLoopIsOver(Step(s, actions[0]), actions[1..]);
    }
  }

  lemma {:induction false} RunDelivers(s: State, actions: seq<Action>)
    ensures Delivered(InHand(s.main) + Dequeued(s, actions), Begun(s, actions), Run(s, actions))
    decreases |actions|
  {
    hide Step, DequeuedBy, BegunBy, InHand, PastLoop, Delivered;
    if actions == [] {
      assert InHand(s.main) + Dequeued(s, actions) == InHand(s.main);
      InHandIsDelivered(s);
    } else {
      var a, t := actions[0], Step(s, actions[0]);
      StepDelivers(s, a);
      RunDelivers(t, actions[1..]);
      if InHand(s.main) + DequeuedBy(s, a) == BegunBy(s, a) + InHand(t.main) {
        Forwards(InHand(s.main), DequeuedBy(s, a), BegunBy(s, a), InHand(t.main), Dequeued(t, actions[1..]),
                 Begun(t, actions[1..]), Run(s, actions));
      } else {
        WasDropped(InHand(s.main) + DequeuedBy(s, a), BegunBy(s, a), t);
        PastLoopIsOver(t, actions[1..]);
        StaysDropped(InHand(s.main) + DequeuedBy(s, a), BegunBy(s, a), t, Run(s, actions));
        assert Dequeued(s, actions) == DequeuedBy(s, a) && Begun(s, actions) == BegunBy(s, a);
      }
    }
  }

  lemma InHandIsDelivered(s: State)
    ensures Delivered(InHand(s.main), [], s)
  {
    assert [] + InHand(s.main) == InHand(s.main);
  }

  lemma WasDropped(dequeued: seq<string>, begun: seq<string>, t: State)
    requires Delivered(dequeued, begun, t) && dequeued != begun + InHand(t.main)
    ensures t.cancelled && PastLoop(t.main)
  {
  }

  lemma StaysDropped(dequeued: seq<string>, begun: seq<string>, t: State, u: State)
    requires Delivered(dequeued, begun, t) && dequeued != begun + InHand(t.main) && u.cancelled && PastLoop(u.main)
    ensures Delivered(dequeued, begun, u)
  {
  }

  /** What one step left in hand is what the rest of the run begins with. */
  lemma Forwards(held: seq<string>, dequeued: seq<string>, begun: seq<string>, hand: seq<string>, later: seq<string>,
                 begunLater: seq<string>, t: State)
    requires held + dequeued == begun + hand && Delivered(hand + later, begunLater, t)
    ensures Delivered(held + (dequeued + later), begun + begunLater, t)
  {
    assert held + (dequeued + later) == (held + dequeued) + later == begun + (hand + later);
    assert |hand + later| > |begunLater| ==>
        (begun + (hand + later))[..|begun + begunLater|] == begun + (hand + later)[..|begunLater|];
    assert begun + (begunLater + InHand(t.main)) == (begun + begunLater) + InHand(t.main);
  }

  /** For any number of workers and any interleaving: the IDs that workers began to execute, followed by
      the one that the dispatcher has in hand, are the IDs that `Dequeue` returned, in order; only after
      a cancellation may the last one be missing, and then the dispatcher has stopped. */
  lemma PoolForwards(count: nat, jobs: Channel, actions: seq<Action>)
    ensures var s, t := Init(count, jobs), Run(Init(count, jobs), actions);
            var dequeued, begun := Dequeued(s, actions), Begun(s, actions);
            || dequeued == begun + (if t.main.Sending? then [t.main.id] else [])
            || (&& Cancel in actions && PastLoop(t.main)
                && |dequeued| == |begun| + 1 && dequeued[..|begun|] == begun)
  {
    var s := Init(count, jobs);
    RunDelivers(s, actions);
    OnlyCancelCancels(s, actions);
    assert InHand(s.main) + Dequeued(s, actions) == Dequeued(s, actions);
  }

  lemma {:induction false} OnlyCancelCancels(s: State, actions: seq<Action>)
    ensures Run(s, actions).cancelled <==> s.cancelled || Cancel in actions
    decreases |actions|
  {
    if actions != [] {
      CancelStep(s, actions[0]);
      hide Step;
      OnlyCancelCancels(Step(s, actions[0]), actions[1..]);
      assert Cancel in actions <==> actions[0] == Cancel || Cancel in actions[1..];
    }
  }

  lemma CancelStep(s: State, a: Action)
    ensures Step(s, a).cancelled <==> s.cancelled || a == Cancel
  {
    hide Is;
  }

  // ---------------------------------------------------------------- one job at a time

  lemma WorkerStep(s: State, a: Action, w: nat)
    requires Inv(s) && w < |s.workers|
    ensures w < |Step(s, a).workers|
    ensures HandOf(s.workers[w]) + BegunByWorker(s, a, w) == EndedByWorker(s, a, w) + HandOf(Step(s, a).workers[w])
  {
    hide Step, Inv;
    NilStep(s, a);
    if OfWorker(a, w) {
      OwnHand(s, a, w);
    } else {
      OthersHand(s, a, w);
    }
  }

  lemma OwnHand(s: State, a: Action, w: nat)
    requires w < |s.workers| == |Step(s, a).workers| && OfWorker(a, w)
    ensures HandOf(s.workers[w]) + BegunByWorker(s, a, w) == EndedByWorker(s, a, w) + HandOf(Step(s, a).workers[w])
  {
  }

  /** An action of the main goroutine or of another worker leaves this worker's hand alone. */
  lemma OthersHand(s: State, a: Action, w: nat)
    requires Inv(s) && w < |s.workers| == |Step(s, a).workers| && !OfWorker(a, w)
    ensures BegunByWorker(s, a, w) == EndedByWorker(s, a, w) == []
    ensures HandOf(s.workers[w]) == HandOf(Step(s, a).workers[w])
  {
    hide Inv, Step, Enabled, BegunBy;
    if !Enabled(s, a) {
      Disabled(s, a);
    } else if OfMain(a) {
      MainStepWorker(s, a, w);
    } else if a == Spawn {
      SpawnedHand(s, w);
    } else {
      OtherWorkerHand(s, a, w);
    }
  }

  lemma SpawnedHand(s: State, w: nat)
    requires Inv(s) && w < |s.workers| && Enabled(s, Spawn)
    ensures |Step(s, Spawn).workers| == |s.workers|
    ensures HandOf(s.workers[w]) == HandOf(Step(s, Spawn).workers[w])
  {
    assert WorkerOk(s, w);
    hide Inv, CountsOk;
  }

  lemma OtherWorkerHand(s: State, a: Action, w: nat)
    requires w < |s.workers| && Enabled(s, a) && !OfMain(a) && a != Spawn && !OfWorker(a, w)
    ensures |Step(s, a).workers| == |s.workers| && Step(s, a).workers[w] == s.workers[w]
  {
  }

  lemma {:induction false} WorkerRun(s: State, actions: seq<Action>, w: nat)
    requires Inv(s) && w < |s.workers|
    ensures w < |Run(s, actions).workers|
    ensures HandOf(s.workers[w]) + BegunAt(s, actions, w) == EndedAt(s, actions, w) + HandOf(Run(s, actions).workers[w])
    decreases |actions|
  {
    hide Inv, Step, BegunByWorker, EndedByWorker, HandOf;
    if actions != [] {
      var a, t := actions[0], Step(s, actions[0]);
      WorkerStep(s, a, w);
      StepKeepsInv(s, a);
      WorkerRun(t, actions[1..], w);
      assert HandOf(s.workers[w]) + BegunAt(s, actions, w)
          == (HandOf(s.workers[w]) + BegunByWorker(s, a, w)) + BegunAt(t, actions[1..], w);
      assert EndedByWorker(s, a, w) + (HandOf(t.workers[w]) + BegunAt(t, actions[1..], w))
          == EndedAt(s, actions, w) + HandOf(Run(s, actions).workers[w]);
    }
  }

  /** Each worker executes its IDs one after the other: it has ended all it began but the one it is at. */
  lemma OneAtATime(count: nat, jobs: Channel, actions: seq<Action>, w: nat)
    requires jobs != Closed && w < count
    ensures var s, t := Init(count, jobs), Run(Init(count, jobs), actions);
            && w < |t.workers|
            && BegunAt(s, actions, w) ==
               EndedAt(s, actions, w) + if t.workers[w].Executing? then [t.workers[w].id] else []
  {
    var s := Init(count, jobs);
    InitInv(count, jobs);
    WorkerRun(s, actions, w);
    assert HandOf(s.workers[w]) + BegunAt(s, actions, w) == BegunAt(s, actions, w);
  }

  /** After a job a worker goes back for another one, however the job ended; only a failure with the
      context over sends it home. */
  lemma BackForMore(count: nat, jobs: Channel, actions: seq<Action>, w: nat, err: Option<Error>)
    requires var t := Run(Init(count, jobs), actions); w < |t.workers| && t.workers[w].Executing?
    ensures var t := Run(Init(count, jobs), actions);
            var u := Step(t, ExecuteReturns(w, err));
            && |u.workers| == |t.workers|
            && (forall v :: 0 <= v < |t.workers| && v != w ==> u.workers[v] == t.workers[v])
            && u.workers[w] == (if err.Some? && Cancel in actions then Leaving else Selecting)
            && u.main == t.main && u.jobs == t.jobs
  {
    OnlyCancelCancels(Init(count, jobs), actions);
  }

  /** A worker that waits for an ID can leave exactly when the context is over or the channel closed, and
      does so without regard to anybody else. */
  lemma LeavesWhenDone(count: nat, jobs: Channel, actions: seq<Action>, w: nat)
    requires var t := Run(Init(count, jobs), actions); w < |t.workers| && t.workers[w] == Selecting
    ensures var t := Run(Init(count, jobs), actions);
            && (ProperRun(t, [SelectCancelled(w), Leave(w)]) <==> Cancel in actions)
            && (ProperRun(t, [SelectClosed(w), Leave(w)]) <==> t.jobs == Closed)
            && var gone := t.(workers := t.workers[w := Exited], group := t.group - 1);
               && (Cancel in actions ==> Run(t, [SelectCancelled(w), Leave(w)]) == gone)
               && (t.jobs == Closed ==> Run(t, [SelectClosed(w), Leave(w)]) == gone)
  {
    hide Run, ProperRun;
    OnlyCancelCancels(Init(count, jobs), actions);
    var t := Run(Init(count, jobs), actions);
    TwoActions(t, SelectCancelled(w), Leave(w));
    TwoActions(t, SelectClosed(w), Leave(w));
  }

  lemma TwoActions(s: State, a: Action, b: Action)
    ensures Run(s, [a, b]) == Step(Step(s, a), b)
    ensures ProperRun(s, [a, b]) <==> Enabled(s, a) && Enabled(Step(s, a), b)
  {
    hide Step, Enabled;
    assert [a, b][1..] == [b] && [b][1..] == [];
    assert Run(Step(s, a), [b]) == Run(Step(Step(s, a), b), []);
    assert ProperRun(Step(s, a), [b]) <==> Enabled(Step(s, a), b) && ProperRun(Step(Step(s, a), b), []);
  }

  // ---------------------------------------------------------------- when the loop ends

  lemma LoopStep(s: State, a: Action)
    requires s.jobs != NilChannel
    ensures Step(s, a).jobs != NilChannel
    ensures ContextEnds(s, a) ==> PastLoop(Step(s, a).main)
    ensures PastLoop(Step(s, a).main) ==> PastLoop(s.main) || s.cancelled || ContextEnds(s, a)
  {
    hide Is;
  }

  lemma {:induction false} LoopEnds(s: State, actions: seq<Action>)
    requires s.jobs != NilChannel
    ensures SawContextEnd(s, actions) ==> PastLoop(Run(s, actions).main)
    ensures PastLoop(Run(s, actions).main) ==>
              PastLoop(s.main) || s.cancelled || Cancel in actions || SawContextEnd(s, actions)
    decreases |actions|
  {
    hide Step, PastLoop, ContextEnds;
    if actions != [] {
      var t := Step(s, actions[0]);
      LoopStep(s, actions[0]);
      CancelStep(s, actions[0]);
      LoopEnds(t, actions[1..]);
      if PastLoop(t.main) {
        PastLoopIsOver(t, actions[1..]);
      }
    }
  }

  /** With a channel, an error of `Dequeue` that is not the end of the context never ends the loop: it
      is over only after a cancellation or such an end, and after such an end always. */
  lemma LoopEndsOnlyThen(count: nat, actions: seq<Action>)
    ensures var s, t := Init(count, Open), Run(Init(count, Open), actions);
            && (SawContextEnd(s, actions) ==> PastLoop(t.main))
            && (PastLoop(t.main) ==> Cancel in actions || SawContextEnd(s, actions))
  {
    LoopEnds(Init(count, Open), actions);
  }

  /** In a delay and in a blocked send the dispatcher can turn to its close exactly when the context is
      over, and then needs neither the timer nor a worker for it. */
  lemma StopsAtOnce(count: nat, jobs: Channel, actions: seq<Action>)
    ensures var t := Run(Init(count, jobs), actions);
            && (t.main.Delaying? ==>
                  && (Enabled(t, DelayCancelled) <==> Cancel in actions)
                  && (Cancel in actions ==> Step(t, DelayCancelled) == t.(main := Closing)))
            && (t.main.Sending? ==>
                  && (Enabled(t, SendCancelled) <==> Cancel in actions)
                  && (Cancel in actions ==> Step(t, SendCancelled) == t.(main := Closing)))
  {
    OnlyCancelCancels(Init(count, jobs), actions);
  }

  // ---------------------------------------------------------------- everything can be delivered

  /** The dispatcher asks for the next ID, and nothing is cancelled. */
  predicate Ready(s: State) {
    Inv(s) && s.main == Dequeuing(false) && !s.cancelled && s.workers != []
  }

  /** Until the cancellation no send blocks for ever: the worker that is to receive may have to end what
      it executes, and then takes the ID. */
  lemma SendGoesThrough(s: State) returns (actions: seq<Action>)
    requires Inv(s) && s.main.Sending? && !s.cancelled && s.workers != []
    ensures ProperRun(s, actions) && Cancel !in actions
    ensures Ready(Run(s, actions)) && Run(s, actions).workers[0] == Executing(s.main.id)
    ensures Begun(s, actions) == [s.main.id]
    ensures forall i :: 0 <= i < |actions| ==> actions[i].ExecuteReturns? || actions[i].Send?
  {
    InvIsSound(s);
    assert s.jobs == Open;
    if s.workers[0].Executing? {
      var free := Step(s, ExecuteReturns(0, None));
      StepKeepsInv(s, ExecuteReturns(0, None));
      SendEffect(free);
      assert [ExecuteReturns(0, None), Send(0)][1..] == [Send(0)] && [Send(0)][1..] == [];
      actions := [ExecuteReturns(0, None), Send(0)];
    } else {
      SendEffect(s);
      assert [Send(0)][1..] == [];
      actions := [Send(0)];
    }
  }

  lemma SendEffect(s: State)
    requires Inv(s) && s.main.Sending? && !s.cancelled && s.jobs == Open && s.workers != [] && s.workers[0] == Selecting
    ensures var t := Step(s, Send(0));
            Enabled(s, Send(0)) && Ready(t) && t.workers[0] == Executing(s.main.id) && BegunBy(s, Send(0)) == [s.main.id]
  {
    StepKeepsInv(s, Send(0));
    hide Inv;
  }

  function AnsweredBy(s: State, a: Action): seq<Result<string>> {
    if a.DequeueReturns? && Enabled(s, a) then [a.r] else []
  }

  /** All that `Dequeue` returned, errors included. */
  function Answered(s: State, actions: seq<Action>): seq<Result<string>>
    decreases |actions|
  {
    if actions == [] then [] else AnsweredBy(s, actions[0]) + Answered(Step(s, actions[0]), actions[1..])
  }

  function IDsOf(answers: seq<Result<string>>): seq<string> {
    if answers == [] then [] else (if answers[0].Ok? then [answers[0].value] else []) + IDsOf(answers[1..])
  }

  predicate EndsContext(r: Result<string>) {
    r.Err? && (Is(r.error, ContextCanceled) || Is(r.error, DeadlineExceeded))
  }

  lemma {:induction false} RunOn(s: State, first: seq<Action>, second: seq<Action>)
    ensures Run(s, first + second) == Run(Run(s, first), second)
    ensures ProperRun(s, first) && ProperRun(Run(s, first), second) ==> ProperRun(s, first + second)
    ensures Begun(s, first + second) == Begun(s, first) + Begun(Run(s, first), second)
    ensures Answered(s, first + second) == Answered(s, first) + Answered(Run(s, first), second)
    decreases |first|
  {
    hide Step, Enabled, BegunBy, AnsweredBy;
    if first == [] {
      assert first + second == second;
    } else {
      assert (first + second)[1..] == first[1..] + second;
      RunOn(Step(s, first[0]), first[1..], second);
    }
  }

  lemma AfterAnswer(s: State, r: Result<string>)
    requires Ready(s) && !EndsContext(r)
    ensures var t := Step(s, DequeueReturns(r));
            && Enabled(s, DequeueReturns(r)) && Inv(t) && !t.cancelled && t.workers == s.workers
            && t.main == if r.Ok? then Sending(r.value) else Delaying
  {
    StepKeepsInv(s, DequeueReturns(r));
    hide Inv, Is;
  }

  lemma AfterDelay(s: State)
    requires Inv(s) && s.main == Delaying && !s.cancelled && s.workers != []
    ensures Enabled(s, TimerFires) && Ready(Step(s, TimerFires))
  {
    StepKeepsInv(s, TimerFires);
    hide Inv;
  }

  lemma OneAnswer(s: State, r: Result<string>) returns (actions: seq<Action>)
    requires Ready(s) && !EndsContext(r)
    ensures ProperRun(s, actions) && Cancel !in actions && Ready(Run(s, actions))
    ensures Answered(s, actions) == [r] && Begun(s, actions) == if r.Ok? then [r.value] else []
  {
    AfterAnswer(s, r);
    var t := Step(s, DequeueReturns(r));
    hide Inv, EndsContext, Step, Enabled;
    var first := [DequeueReturns(r)];
    assert first[1..] == [] && Run(s, first) == t;
    var second: seq<Action>;
    if r.Ok? {
      second := SendGoesThrough(t);
      NotAnswered(t, second);
    } else {
      AfterDelay(t);
      second := [TimerFires];
      assert second[1..] == [];
    }
    RunOn(s, first, second);
    actions := first + second;
  }

  /** A run that begins while the dispatcher sends, and in which it sends once, asks for nothing. */
  lemma {:induction false} NotAnswered(s: State, actions: seq<Action>)
    requires forall i :: 0 <= i < |actions| ==> actions[i].ExecuteReturns? || actions[i].Send?
    ensures Answered(s, actions) == []
    decreases |actions|
  {
    if actions != [] {
      NotAnswered(Step(s, actions[0]), actions[1..]);
    }
  }

  lemma {:induction false} AnswersFrom(s: State, answers: seq<Result<string>>) returns (actions: seq<Action>)
    requires Ready(s) && forall i :: 0 <= i < |answers| ==> !EndsContext(answers[i])
    ensures ProperRun(s, actions) && Cancel !in actions && Ready(Run(s, actions))
    ensures Answered(s, actions) == answers && Begun(s, actions) == IDsOf(answers)
    decreases |answers|
  {
    actions := [];
    hide Step, Enabled, EndsContext, Ready;
    if answers != [] {
      var first := OneAnswer(s, answers[0]);
      var rest := AnswersFrom(Run(s, first), answers[1..]);
      RunOn(s, first, rest);
      actions := first + rest;
    }
  }

  lemma {:induction false} StartsUp(s: State) returns (actions: seq<Action>)
    requires Inv(s) && s.main.Spawning? && !s.cancelled && s.jobs == Open && s.workers != []
    ensures ProperRun(s, actions) && Cancel !in actions && Ready(Run(s, actions))
    ensures Answered(s, actions) == [] && Begun(s, actions) == []
    decreases |s.workers| - s.main.next
  {
    var t := Step(s, Spawn);
    StepKeepsInv(s, Spawn);
    var rest: seq<Action> := [];
    if s.main.next < |s.workers| {
      rest := StartsUp(t);
    }
    hide Inv;
    actions := [Spawn] + rest;
    assert actions[1..] == rest;
  }

  /** And everything can be delivered: for any answers of `Dequeue`, errors among them as long as none is
      the end of the context, the pool can go on without a cancellation until the workers have begun
      every ID that it returned; and the dispatcher then asks for more. */
  lemma PoolDelivers(count: nat, answers: seq<Result<string>>) returns (actions: seq<Action>)
    requires count > 0 && forall i :: 0 <= i < |answers| ==> !EndsContext(answers[i])
    ensures var s, t := Init(count, Open), Run(Init(count, Open), actions);
            && ProperRun(s, actions) && Cancel !in actions
            && Answered(s, actions) == answers && Begun(s, actions) == IDsOf(answers)
            && t.main == Dequeuing(false)
  {
    var s := Init(count, Open);
    InitInv(count, Open);
    var first := StartsUp(s);
    var rest := AnswersFrom(Run(s, first), answers);
    RunOn(s, first, rest);
    actions := first + rest;
  }
}
