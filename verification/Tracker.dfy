/** The polling hook (web/src/hooks/useJobTracker.js): overlapping loops guarded by a generation
    counter. The code between two awaits runs without interruption, so it is one step here. */
module Tracker {
  import opened Errors

  /** A job as the API shows it. */
  datatype Shown = Shown(id: string, status: string)

  predicate IsTerminal(job: Shown) {
    job.status == "success" || job.status == "failed"
  }

  /** `Fetching`: awaiting the API. `Sleeping`: awaiting the delay. */
  datatype Phase = Fetching | Sleeping | Ended

  /** One call of `trackJob`. Its generation, job ID and initial job are the variables of the call;
      `accepted` and `failure` record what it has written to the state. */
  datatype Loop = Loop(
    generation: nat,
    jobID: string,
    initial: Option<Shown>,
    phase: Phase,
    accepted: seq<Shown>,
    failure: Option<string>
  )

  datatype State = State(
    generation: nat,
    job: Option<Shown>,
    error: string,
    isPolling: bool,
    loops: seq<Loop>
  )

  const MOUNTED: State := State(0, None, "", false, [])

  datatype Answer = Fetched(job: Shown) | Broke(message: string)

  datatype Event =
    | Track(jobID: string, initial: Option<Shown>)
    | Stop
    | Reply(loop: nat, answer: Answer)
    | Wake(loop: nat)

  function StepTrack(s: State, jobID: string, initial: Option<Shown>): State {
    var generation := s.generation + 1;
    State(generation, initial, "", true, s.loops + [Loop(generation, jobID, initial, Fetching, [], None)])
  }

  function StepStop(s: State): State {
    s.(generation := s.generation + 1, isPolling := false)
  }

  function StepReply(s: State, i: nat, answer: Answer): State {
    if i >= |s.loops| || s.loops[i].phase != Fetching then s else
      var loop := s.loops[i];
      if s.generation != loop.generation then
        s.(loops := s.loops[i := loop.(phase := Ended)])
      else match answer
        case Broke(message) =>
          s.(error := message, isPolling := false,
             loops := s.loops[i := loop.(phase := Ended, failure := Some(message))])
        case Fetched(job) =>
          var accepted := loop.accepted + [job];
          if IsTerminal(job) then
            s.(job := Some(job), isPolling := false,
               loops := s.loops[i := loop.(phase := Ended, accepted := accepted)])
          else
            s.(job := Some(job), loops := s.loops[i := loop.(phase := Sleeping, accepted := accepted)])
  }

  function StepWake(s: State, i: nat): State {
    if i >= |s.loops| || s.loops[i].phase != Sleeping then s else
      s.(loops := s.loops[i := s.loops[i].(phase := if s.generation == s.loops[i].generation then Fetching else Ended)])
  }

  function Step(s: State, e: Event): State {
    match e
    case Track(jobID, initial) => StepTrack(s, jobID, initial)
    case Stop => StepStop(s)
    case Reply(i, answer) => StepReply(s, i, answer)
    case Wake(i) => StepWake(s, i)
  }

  function Run(s: State, events: seq<Event>): State
    decreases |events|
  {
    if events == [] then s else Run(Step(s, events[0]), events[1..])
  }

  /** The hook as it is written: a counter, three pieces of state, and the calls in progress. */
  class JobTracker {
    var trackingGeneration: nat
    var job: Option<Shown>
    var error: string
    var isPolling: bool
    var loops: seq<Loop>

    constructor ()
      ensures Value() == MOUNTED
    {
      trackingGeneration, job, error, isPolling, loops := 0, None, "", false, [];
    }

    function Value(): State
      reads this
    {
      State(trackingGeneration, job, error, isPolling, loops)
    }

    method StopTracking()
      modifies this
      ensures Value() == Step(old(Value()), Stop)
    {
      trackingGeneration := trackingGeneration + 1;
      isPolling := false;
    }

    /** `trackJob` up to its first await. */
    method TrackJob(jobID: string, initialJob: Option<Shown>)
      modifies this
      ensures Value() == Step(old(Value()), Track(jobID, initialJob))
    {
      var generation := trackingGeneration + 1;
      trackingGeneration := generation;
      job := initialJob;
      error := "";
      isPolling := true;
      loops := loops + [Loop(generation, jobID, initialJob, Fetching, [], None)];
    }

    /** A call of `trackJob` goes on after `getJob`. */
    method Resume(i: nat, answer: Answer)
      requires i < |loops| && loops[i].phase == Fetching
      modifies this
      ensures Value() == Step(old(Value()), Reply(i, answer))
    {
      var loop := loops[i];
      if trackingGeneration != loop.generation {
        loops := loops[i := loop.(phase := Ended)];
        return;
      }
      match answer {
        case Fetched(currentJob) =>
          job := Some(currentJob);
          loop := loop.(accepted := loop.accepted + [currentJob]);
          if IsTerminal(currentJob) {
            isPolling := false;
            loops := loops[i := loop.(phase := Ended)];
            return;
          }
          loops := loops[i := loop.(phase := Sleeping)];
        case Broke(message) =>
          error := message;
          isPolling := false;
          loops := loops[i := loop.(phase := Ended, failure := Some(message))];
      }
    }

    /** A call of `trackJob` goes on after the delay, at the guard of its loop. */
    method WakeUp(i: nat)
      requires i < |loops| && loops[i].phase == Sleeping
      modifies this
      ensures Value() == Step(old(Value()), Wake(i))
    {
      if trackingGeneration == loops[i].generation {
        loops := loops[i := loops[i].(phase := Fetching)];
      } else {
        loops := loops[i := loops[i].(phase := Ended)];
      }
    }
  }

  // ---------------------------------------------------------------- the invariant

  predicate Current(s: State, i: nat) {
    i < |s.loops| && s.loops[i].generation == s.generation && s.loops[i].phase != Ended
  }

  /** What the newest call has put on display. */
  function Display(s: State): Option<Shown> {
    if s.loops == [] then None else
      var last := s.loops[|s.loops| - 1];
      if last.accepted == [] then last.initial else Some(last.accepted[|last.accepted| - 1])
  }

  function Complaint(s: State): string {
    if s.loops == [] || s.loops[|s.loops| - 1].failure.None? then ""
    else s.loops[|s.loops| - 1].failure.value
  }

  ghost predicate Inv(s: State) {
    && (forall i, j :: 0 <= i < j < |s.loops| ==> s.loops[i].generation < s.loops[j].generation)
    && (forall i :: 0 <= i < |s.loops| ==> s.loops[i].generation <= s.generation)
    && (s.isPolling <==> exists i :: Current(s, i))
    && s.job == Display(s)
    && s.error == Complaint(s)
    && (forall i :: 0 <= i < |s.loops| && s.loops[i].failure.Some? ==> s.loops[i].phase == Ended)
  }

  /** Only the newest call can be current. */
  lemma CurrentIsNewest(s: State, i: nat)
    requires Inv(s) && i < |s.loops| && s.loops[i].generation == s.generation
    ensures i == |s.loops| - 1
  {
    var last := |s.loops| - 1;
    assert s.loops[last].generation <= s.generation;
  }

  /** An event of a call that is no longer current writes nothing, and ends that call. */
  lemma StaleWritesNothing(s: State, e: Event)
    requires (e.Reply? || e.Wake?) && e.loop < |s.loops| && s.loops[e.loop].generation != s.generation
    ensures var t := Step(s, e);
            && t.(loops := s.loops) == s
            && |t.loops| == |s.loops|
            && (forall i :: 0 <= i < |s.loops| && i != e.loop ==> t.loops[i] == s.loops[i])
            && t.loops[e.loop].(phase := s.loops[e.loop].phase) == s.loops[e.loop]
            && t.loops[e.loop].phase ==
               (if s.loops[e.loop].phase == (if e.Reply? then Fetching else Sleeping) then Ended
                else s.loops[e.loop].phase)
  {
  }

  lemma StaleKeepsInv(s: State, e: Event)
    requires Inv(s) && (e.Reply? || e.Wake?) && e.loop < |s.loops| && s.loops[e.loop].generation != s.generation
    ensures Inv(Step(s, e))
  {
    var t := Step(s, e);
    StaleWritesNothing(s, e);
    hide Step;
    assert forall j: nat :: Current(t, j) <==> Current(s, j);
    assert Display(t) == Display(s) && Complaint(t) == Complaint(s);
  }

  lemma CurrentKeepsInv(s: State, e: Event)
    requires Inv(s) && (e.Reply? || e.Wake?) && e.loop < |s.loops| && s.loops[e.loop].generation == s.generation
    ensures Inv(Step(s, e))
  {
    var t := Step(s, e);
    var i := e.loop;
    CurrentIsNewest(s, i);
    if t != s {
      assert Current(s, i);
      assert t.loops[i].phase != Ended ==> Current(t, i);
      forall j: nat | Current(t, j)
        ensures j == i
      {
        assert s.loops[j].generation == s.generation;
        CurrentIsNewest(s, j);
      }
    }
  }

  lemma LoopKeepsInv(s: State, e: Event)
    requires Inv(s) && (e.Reply? || e.Wake?)
    ensures Inv(Step(s, e))
  {
    if e.loop < |s.loops| {
      hide Inv, Step;
      if s.loops[e.loop].generation == s.generation {
        CurrentKeepsInv(s, e);
      } else {
        StaleKeepsInv(s, e);
      }
    }
  }

  lemma StepKeepsInv(s: State, e: Event)
    requires Inv(s)
    ensures Inv(Step(s, e))
  {
    match e
    case Track(jobID, initial) =>
      var t := Step(s, e);
      assert Current(t, |s.loops|);
    case Stop =>
      var t := Step(s, e);
      assert forall i :: !Current(t, i);
    case Reply(_, _) => LoopKeepsInv(s, e);
    case Wake(_) => LoopKeepsInv(s, e);
  }

  lemma {:induction false} RunKeepsInv(s: State, events: seq<Event>)
    requires Inv(s)
    ensures Inv(Run(s, events))
    decreases |events|
  {
    if events != [] {
      StepKeepsInv(s, events[0]);
      hide Inv, Step;
      RunKeepsInv(Step(s, events[0]), events[1..]);
    }
  }

  /** Under every interleaving of calls, stops, answers and delays: the hook says it polls exactly
      when one call is current, which is then the newest and the only one; and what it shows is the
      newest call's initial job or the last answer that call fetched, with that call's error. */
  lemma OneLoopOwnsTheState(events: seq<Event>)
    ensures var s := Run(MOUNTED, events);
            && (s.isPolling <==> s.loops != [] && Current(s, |s.loops| - 1))
            && (forall i :: 0 <= i < |s.loops| - 1 ==> !Current(s, i))
            && s.job == Display(s) && s.error == Complaint(s)
  {
    var s := Run(MOUNTED, events);
    assert forall i :: !Current(MOUNTED, i);
    RunKeepsInv(MOUNTED, events);
    forall i: nat | Current(s, i)
      ensures i == |s.loops| - 1
    {
      CurrentIsNewest(s, i);
    }
  }

  /** After a stop, and until the next call, nothing that arrives changes what is shown. */
  lemma {:induction false} StopSilences(s: State, events: seq<Event>)
    requires forall i :: 0 <= i < |s.loops| ==> s.loops[i].generation < s.generation
    requires forall k :: 0 <= k < |events| ==> events[k].Reply? || events[k].Wake?
    ensures var t := Run(s, events);
            t.job == s.job && t.error == s.error && t.isPolling == s.isPolling && t.generation == s.generation
    decreases |events|
  {
    if events != [] {
      var e := events[0];
      if e.loop < |s.loops| {
        StaleWritesNothing(s, e);
      }
      StopSilences(Step(s, e), events[1..]);
    }
  }

  /** From every reachable state: a stop ends the polling and leaves what is shown, and until the next
      call no answer that is still to come, nor the end of any delay, changes that. */
  lemma StopIsFinal(events: seq<Event>, later: seq<Event>)
    requires forall k :: 0 <= k < |later| ==> later[k].Reply? || later[k].Wake?
    ensures var s := Run(MOUNTED, events);
            var t := Run(Step(s, Stop), later);
            t.job == s.job && t.error == s.error && !t.isPolling && forall i :: !Current(t, i)
  {
    var s := Run(MOUNTED, events);
    assert forall i :: !Current(MOUNTED, i);
    RunKeepsInv(MOUNTED, events);
    StopSilences(Step(s, Stop), later);
    StepKeepsInv(s, Stop);
    RunKeepsInv(Step(s, Stop), later);
  }

  // ---------------------------------------------------------------- one call, left alone

  /** The jobs that a call fetches, and the delay after each. */
  function Polls(i: nat, jobs: seq<Shown>): seq<Event> {
    if jobs == [] then [] else [Reply(i, Fetched(jobs[0])), Wake(i)] + Polls(i, jobs[1..])
  }

  /** The call waits for an answer and nobody has called or stopped since. */
  predicate Asking(s: State, i: nat) {
    && i < |s.loops| && s.loops[i].generation == s.generation && s.loops[i].phase == Fetching
    && s.isPolling && s.error == ""
  }

  lemma {:induction false} PollsGoOn(s: State, i: nat, jobs: seq<Shown>)
    requires Asking(s, i)
    requires forall k :: 0 <= k < |jobs| ==> jobs[k].status != "success" && jobs[k].status != "failed"
    ensures var t := Run(s, Polls(i, jobs));
            Asking(t, i) && t.job == if jobs == [] then s.job else Some(jobs[|jobs| - 1])
    decreases |jobs|
  {
    if jobs != [] {
      var events := Polls(i, jobs);
      assert events[0] == Reply(i, Fetched(jobs[0])) && events[1..] == [Wake(i)] + Polls(i, jobs[1..]);
      assert events[1..][1..] == Polls(i, jobs[1..]);
      PollsGoOn(Step(Step(s, events[0]), Wake(i)), i, jobs[1..]);
    }
  }

  /** A call that no other call and no stop disturbs, begun in any state: it shows the initial job, then
      each job that it fetches, and asks again a delay after each, until one has the status "success" or "failed"
      or the API fails; an API error is shown beside the job shown last. */
  lemma {:induction false} FollowsTheJob(s: State, jobID: string, initial: Option<Shown>, jobs: seq<Shown>,
                                         answer: Answer)
    requires forall k :: 0 <= k < |jobs| ==> jobs[k].status != "success" && jobs[k].status != "failed"
    ensures var i := |s.loops|;
            var t := Run(Step(s, Track(jobID, initial)), Polls(i, jobs));
            var u := Step(t, Reply(i, answer));
            && t.isPolling && t.error == "" && t.job == (if jobs == [] then initial else Some(jobs[|jobs| - 1]))
            && (answer.Fetched? ==>
                  && u.job == Some(answer.job) && u.error == ""
                  && (u.isPolling <==> answer.job.status != "success" && answer.job.status != "failed"))
            && (answer.Broke? ==> !u.isPolling && u.error == answer.message && u.job == t.job)
            && i < |t.loops| == |u.loops| && t.loops[i].phase == Fetching
            && u.loops[i].phase == (if u.isPolling then Sleeping else Ended)
  {
    var i := |s.loops|;
    PollsGoOn(Step(s, Track(jobID, initial)), i, jobs);
  }
}
