/** The two loops of the worker service as they run (internal/adapters/worker/dispatcher.go,
    processor_worker.go). What a loop meets, turn by turn, is a finite script; after the last turn
    it is still waiting. */
module WorkerLoops {
  import opened Errors
  import opened Pool
  import opened UseCases
  import opened Results

  // ---------------------------------------------------------------- Dispatcher.Run

  /** One turn: what `Dequeue` returned, whether the context was over by then, and whether the
      select that follows took its first branch (the send, or the timer) or saw the cancellation. */
  datatype Turn = Turn(r: Result<string>, cancelled: bool, first: bool)

  /** The IDs that `Dequeue` returned. */
  function Received(turns: seq<Turn>): seq<string> {
    if turns == [] then [] else (if turns[0].r.Ok? then [turns[0].r.value] else []) + Received(turns[1..])
  }

  lemma {:induction false} ReceivedGrows(turns: seq<Turn>, t: Turn)
    ensures Received(turns + [t]) == Received(turns) + if t.r.Ok? then [t.r.value] else []
    decreases |turns|
  {
    if turns == [] {
      assert turns + [t] == [t] && [t][1..] == [];
    } else {
      assert (turns + [t])[1..] == turns[1..] + [t] && (turns + [t])[0] == turns[0];
      var rest := turns[1..];
      ReceivedGrows(rest, t);
      hide Received;
      ReceivedFirst(turns);
      ReceivedFirst(turns + [t]);
    }
  }

  lemma ReceivedFirst(turns: seq<Turn>)
    requires turns != []
    ensures Received(turns) == (if turns[0].r.Ok? then [turns[0].r.value] else []) + Received(turns[1..])
  {
  }

  /** Pops and hands over until the context is over. The channel is closed at the first turn in which
      the select sees the cancellation, or in which `Dequeue` fails and the context is over or its error
      says so; then the IDs received before that turn have been sent, in order, and the one received in
      it is dropped. Other errors of `Dequeue`, however many, end nothing and lose nothing. */
  method RunDispatcher(turns: seq<Turn>) returns (sent: seq<string>, closes: nat, dropped: Option<string>)
    ensures closes <= 1
    ensures closes == 0 <==>
            forall k :: 0 <= k < |turns| ==>
              && turns[k].first
              && (turns[k].r.Err? ==>
                    && !turns[k].cancelled
                    && !Is(turns[k].r.error, ContextCanceled) && !Is(turns[k].r.error, DeadlineExceeded))
    ensures closes == 0 ==> sent == Received(turns) && dropped == None
    ensures closes == 1 ==>
              exists n :: 0 <= n < |turns|
                && sent == Received(turns[..n])
                && dropped == (if turns[n].r.Ok? then Some(turns[n].r.value) else None)
                && (turns[n].first ==>
                      && turns[n].r.Err?
                      && (|| turns[n].cancelled || Is(turns[n].r.error, ContextCanceled)
                          || Is(turns[n].r.error, DeadlineExceeded)))
                && forall k :: 0 <= k < n ==>
                     && turns[k].first
                     && (turns[k].r.Err? ==>
                           && !turns[k].cancelled
                           && !Is(turns[k].r.error, ContextCanceled) && !Is(turns[k].r.error, DeadlineExceeded))
  {
    sent, closes, dropped := [], 0, None;
    for i := 0 to |turns|
      invariant forall k :: 0 <= k < i ==>
                  && turns[k].first
                  && (turns[k].r.Err? ==>
                        && !turns[k].cancelled
                        && !Is(turns[k].r.error, ContextCanceled) && !Is(turns[k].r.error, DeadlineExceeded))
      invariant sent == Received(turns[..i]) && closes == 0 && dropped == None
    {
      var t := turns[i];
      ReceivedGrows(turns[..i], t);
      assert turns[..i + 1] == turns[..i] + [t];
      if t.r.Err? {
        if t.cancelled || IsContextError(t.r.error) {
          closes := 1;
          return;
        }
        if !t.first {
          closes := 1;
          return;
        }
      } else if t.first {
        sent := sent + [t.r.value];
      } else {
        dropped := Some(t.r.value);
        closes := 1;
        return;
      }
    }
    assert turns[..|turns|] == turns;
  }

  // ---------------------------------------------------------------- ProcessorWorker.Run

  /** What the select of a worker meets, and for an ID what `Execute` then returned and whether the
      context was over after it. */
  datatype Meeting =
    | ContextDone
    | ChannelClosed
    | Job(id: string, result: Option<Error>, cancelledAfter: bool)

  /** How a worker reports one job. */
  datatype Verdict = Completed | RetryPlanned | GaveUp | Broken

  function Classify(result: Option<Error>): Verdict {
    if result.None? then Completed
    else if Is(result.value, JobRetryScheduled) then RetryPlanned
    else if Is(result.value, JobRetriesExhausted) then GaveUp
    else Broken
  }

  /** Processes IDs one after the other, one verdict for each, in order. The context being over, or the
      channel closed, ends it before the next ID; a failed ID ends it only if the context is over by
      then, and an ID that was completed never does. */
  method RunWorker(meetings: seq<Meeting>) returns (log: seq<(string, Verdict)>, stopped: bool)
    ensures stopped <==>
            exists k :: 0 <= k < |meetings| &&
              (!meetings[k].Job? || (meetings[k].result.Some? && meetings[k].cancelledAfter))
    ensures |log| <= |meetings|
    ensures forall k :: 0 <= k < |log| ==>
              meetings[k].Job? && log[k] == (meetings[k].id, Classify(meetings[k].result))
    ensures forall k :: 0 <= k < |log| - 1 ==> !(meetings[k].result.Some? && meetings[k].cancelledAfter)
    ensures |log| < |meetings| ==>
              || !meetings[|log|].Job?
              || (|log| > 0 && meetings[|log| - 1].result.Some? && meetings[|log| - 1].cancelledAfter)
  {
    log, stopped := [], false;
    for i := 0 to |meetings|
      invariant |log| == i && !stopped
      invariant forall k :: 0 <= k < i ==>
                  && meetings[k].Job? && log[k] == (meetings[k].id, Classify(meetings[k].result))
                  && !(meetings[k].result.Some? && meetings[k].cancelledAfter)
    {
      match meetings[i]
      case ContextDone =>
        stopped := true;
        return;
      case ChannelClosed =>
        stopped := true;
        return;
      case Job(id, result, cancelledAfter) =>
        if result.Some? {
          if Is(result.value, JobRetryScheduled) {
            log := log + [(id, RetryPlanned)];
          } else if Is(result.value, JobRetriesExhausted) {
            log := log + [(id, GaveUp)];
          } else {
            log := log + [(id, Broken)];
          }
          if cancelledAfter {
            stopped := true;
            return;
          }
        } else {
          log := log + [(id, Completed)];
        }
    }
  }

  /** The verdict says what happened to the job. */
  predicate SaysWhatHappened(verdict: Verdict, w: World, after: World, id: string, a: Answers) {
    && (verdict == Completed <==> MadeSuccess(after, id, a))
    && (verdict == RetryPlanned <==> Rescheduled(w, after, id, a))
    && (verdict == GaveUp <==> Exhausted(after, id, a))
  }

  /** The verdict on a pending job is right exactly when an error from outside that carries one of the
      use case's own sentinels comes with a retry that was scheduled anyway, or, for the second
      sentinel, with a job that gave up anyway. */
  lemma VerdictRightIff(w: World, id: string, a: Answers)
    requires PendingJob(w, id)
    ensures var (after, err) := Process(w, id, a);
            var row := JobAt(w, id);
            SaysWhatHappened(Classify(err), w, after, id, a) <==>
              && (OutsideSays(JobRetryScheduled, row, a) ==> Announces(JobRetryScheduled, row, a))
              && (OutsideSays(JobRetriesExhausted, row, a) ==>
                    Announces(JobRetriesExhausted, row, a) || Announces(JobRetryScheduled, row, a))
  {
    hide Process, OutsideSays, PendingJob, Rescheduled, Exhausted, MadeSuccess, Begins, Concludes;
    ResultAgreesWithEffect(w, id, a, JobRetryScheduled);
    ResultAgreesWithEffect(w, id, a, JobRetriesExhausted);
    var (after, err) := Process(w, id, a);
    ClassifyByMatches(err);
    hide Classify;
    var row := JobAt(w, id);
    var retry, gaveUp := Announces(JobRetryScheduled, row, a), Announces(JobRetriesExhausted, row, a);
    assert Announced(JobRetryScheduled, w, after, id, a) == Rescheduled(w, after, id, a) == retry;
    assert Announced(JobRetriesExhausted, w, after, id, a) == Exhausted(after, id, a) == gaveUp;
    assert !(retry && gaveUp);
  }

  lemma ClassifyByMatches(err: Option<Error>)
    ensures Classify(err) == Completed <==> err.None?
    ensures Classify(err) == RetryPlanned <==> Matches(err, JobRetryScheduled)
    ensures Classify(err) == GaveUp <==> !Matches(err, JobRetryScheduled) && Matches(err, JobRetriesExhausted)
  {
  }
}
