/** The life of one job, call by call: what is accepted, what is refused and why, and where every
    sequence of calls ends (internal/domain/job/job.go, failure.go). */
module Lifecycle {
  import opened GoText
  import opened Errors
  import opened Ids
  import opened JobEntity

  // ---------------------------------------------------------------- what is accepted

  /** A payload that reads as a JSON object with at least one member. */
  predicate FilledObject(payload: Payload) {
    TrimSpace(payload.text) != "" && payload.reading.Object? && payload.reading.members >= 1
  }

  /** The error matches this variable and no other. */
  ghost predicate Only(e: Error, kind: Kind) {
    forall k :: Is(e, k) <==> k == kind
  }

  lemma PayloadIff(payload: Payload)
    ensures ValidatePayload(payload).None? <==> FilledObject(payload)
    ensures ValidatePayload(payload).Some? ==> Only(ValidatePayload(payload).value, InvalidPayload)
  {
    hide TrimSpace;
    if ValidatePayload(payload).Some? {
      WrapsOnly(ValidatePayload(payload).value, InvalidPayload);
    }
  }

  lemma WrapsOnly(e: Error, kind: Kind)
    requires e == Sentinel(kind) || (e.Wrap? && e.cause == Sentinel(kind))
    ensures Only(e, kind)
  {
    forall k
      ensures Is(e, k) <==> k == kind
    {
      if e.Wrap? {
        assert Is(e.cause, k) <==> k == kind;
      }
    }
  }

  predicate NamesType(name: string, t: Type) {
    match t
    case SendEmail => name == "send_email"
    case ReportGeneration => name == "report_generation"
    case DataCleanup => name == "data_cleanup"
  }

  predicate NamesStatus(name: string, s: Status) {
    match s
    case Pending => name == "pending"
    case Processing => name == "processing"
    case Success => name == "success"
    case Failed => name == "failed"
  }

  lemma TypeIff(name: string, t: Type)
    ensures TypeOfName(name) == Some(t) <==> NamesType(name, t)
    ensures TypeName(t) == name <==> NamesType(name, t)
  {
  }

  lemma StatusIff(name: string, s: Status)
    ensures StatusName(s) == name <==> NamesStatus(name, s)
  {
  }

  /** A new job needs an ID of the grammar, one of the three names, a filled object and a time; it is
      pending, with no attempt behind it and three retries before it. */
  lemma NewIff(id: string, typeName: string, payload: Payload, now: Time, t: Type)
    ensures New(id, typeName, payload, now) == Ok(JobState(id, t, Pending, payload, 0, 3, None, now, now, None, None))
            <==> InGrammar(id) && NamesType(typeName, t) && FilledObject(payload) && now != 0
  {
    IsValidIsGrammar(id);
    PayloadIff(payload);
    TypeIff(typeName, t);
    hide IsValid, InGrammar, ValidatePayload, FilledObject, TypeOfName;
  }

  /** The check that a job to be made fails first. */
  ghost function WrongInNew(id: string, typeName: string, payload: Payload, now: Time): Option<Kind> {
    if !InGrammar(id) then Some(InvalidID)
    else if !exists t :: NamesType(typeName, t) then Some(InvalidType)
    else if !FilledObject(payload) then Some(InvalidPayload)
    else if now == 0 then Some(InvalidCreatedAt)
    else None
  }

  lemma NewRefusedIff(id: string, typeName: string, payload: Payload, now: Time)
    ensures var r, wrong := New(id, typeName, payload, now), WrongInNew(id, typeName, payload, now);
            (r.Err? <==> wrong.Some?) && (r.Err? ==> Only(r.error, wrong.value))
  {
    IsValidIsGrammar(id);
    PayloadIff(payload);
    forall t
      ensures TypeOfName(typeName) == Some(t) <==> NamesType(typeName, t)
    {
      TypeIff(typeName, t);
    }
    var r := New(id, typeName, payload, now);
    hide InGrammar, FilledObject, TypeOfName, NamesType, Only;
    if r.Err? && !(IsValid(id) && TypeOfName(typeName).Some? && ValidatePayload(payload).Some?) {
      hide IsValid, ValidatePayload;
      WrapsOnly(r.error, WrongInNew(id, typeName, payload, now).value);
    }
  }

  /** The check that a stored job fails first when it is restored. */
  ghost function WrongInRestore(p: JobState): Option<Kind> {
    if !InGrammar(p.id) then Some(InvalidID)
    else if !FilledObject(p.payload) then Some(InvalidPayload)
    else if !(0 <= p.retryCount <= p.maxRetries && 1 <= p.maxRetries) then Some(InvalidRetry)
    else if p.createdAt == 0 then Some(InvalidCreatedAt)
    else if p.updatedAt == 0 || p.updatedAt < p.createdAt then Some(InvalidUpdatedAt)
    else if p.startedAt == Some(0) || p.completedAt == Some(0) then Some(InvalidEventTime)
    else None
  }

  lemma RestoreRefusedIff(p: JobState)
    ensures var r, wrong := Restore(p), WrongInRestore(p);
            if wrong.None? then r == Ok(p) else r.Err? && Only(r.error, wrong.value)
  {
    IsValidIsGrammar(p.id);
    PayloadIff(p.payload);
    var r := Restore(p);
    hide IsValid, InGrammar, FilledObject, ValidatePayload, Only;
    if r.Err? && WrongInRestore(p) != Some(InvalidPayload) {
      WrapsOnly(r.error, WrongInRestore(p).value);
    }
  }

  // ---------------------------------------------------------------- transitions

  /** What is wrong with a transition from `from`, at this time, with a reason where one is needed. */
  function WrongInTransition(j: JobState, from: Status, at: Time, reason: string): Option<Kind> {
    if j.status != from then Some(InvalidTransition)
    else if TrimSpace(reason) == "" then Some(InvalidFailureReason)
    else if at == 0 || at < j.updatedAt then Some(InvalidEventTime)
    else None
  }

  ghost predicate RefusedFor<T>(r: Result<T>, wrong: Option<Kind>) {
    (r.Err? <==> wrong.Some?) && (r.Err? ==> Only(r.error, wrong.value))
  }

  /** A job is started from pending only, and ended or put back from processing only; never without a
      time, never before its last update, and never failed without a reason. */
  lemma TransitionRefusedIff(j: JobState, at: Time, reason: string)
    ensures RefusedFor(MarkProcessing(j, at), WrongInTransition(j, Pending, at, "-"))
    ensures RefusedFor(MarkSuccess(j, at), WrongInTransition(j, Processing, at, "-"))
    ensures RefusedFor(MarkFailed(j, at, reason), WrongInTransition(j, Processing, at, reason))
    ensures RefusedFor(RecordFailure(j, at, reason), WrongInTransition(j, Processing, at, reason))
  {
    TrimSpaceKeeps("-");
    WrapsOnly(TransitionRefused(), InvalidTransition);
    WrapsOnly(TimeRefused(), InvalidEventTime);
    WrapsOnly(Sentinel(InvalidFailureReason), InvalidFailureReason);
    hide TrimSpace, Only;
  }

  /** What an accepted transition makes of any job, even one that no calls lead to. */
  lemma TransitionFields(j: JobState, at: Time, reason: string)
    ensures var r, next := MarkProcessing(j, at), j.(status := Processing, startedAt := Some(at));
            r.Ok? ==> r.value == next.(updatedAt := at, completedAt := None)
    ensures var r, next := MarkSuccess(j, at), j.(status := Success, lastError := None);
            r.Ok? ==> r.value == next.(updatedAt := at, completedAt := Some(at))
    ensures var r, next := MarkFailed(j, at, reason), j.(status := Failed, lastError := Some(TrimSpace(reason)));
            r.Ok? ==> r.value == next.(updatedAt := at, completedAt := Some(at))
    ensures var r, next := RecordFailure(j, at, reason), j.(lastError := Some(TrimSpace(reason)), updatedAt := at);
            r.Ok? ==>
              if j.retryCount < j.maxRetries then
                r.value == (next.(status := Pending, retryCount := j.retryCount + 1, completedAt := None), RetryScheduled)
              else
                r.value == (next.(status := Failed, completedAt := Some(at)), TerminalFailure)
  {
    hide TrimSpace;
  }

  // ---------------------------------------------------------------- sequences of calls

  /** The call is not refused. */
  predicate Takes(j: JobState, call: Call) {
    match call
    case CallProcessing(at) => MarkProcessing(j, at).Ok?
    case CallSuccess(at) => MarkSuccess(j, at).Ok?
    case CallFailure(at, reason) => RecordFailure(j, at, reason).Ok?
  }

  /** The calls of a sequence that are not refused. */
  function Accepted(j: JobState, calls: seq<Call>): seq<Call>
    decreases |calls|
  {
    if calls == [] then [] else
      (if Takes(j, calls[0]) then [calls[0]] else []) + Accepted(Apply(j, calls[0]), calls[1..])
  }

  /** How many accepted calls a job has behind it. */
  function Age(j: JobState): int {
    match j.status
    case Pending => 2 * j.retryCount
    case Processing => 2 * j.retryCount + 1
    case _ => 2 * j.retryCount + 2
  }

  /** The next call in the only order there is. */
  predicate Follows(j: JobState, call: Call, k: JobState) {
    && Age(k) == Age(j) + 1 && !IsTerminal(j.status)
    && (call.CallProcessing? <==> Age(j) % 2 == 0)
    && k.status == (if call.CallProcessing? then Processing else if call.CallSuccess? then Success
                    else if Age(j) == 7 then Failed else Pending)
  }

  lemma FailureFollows(j: JobState, at: Time, reason: string)
    requires Coherent(j) && RecordFailure(j, at, reason).Ok?
    ensures Follows(j, CallFailure(at, reason), RecordFailure(j, at, reason).value.0)
  {
    hide TrimSpace, IsValid, ValidatePayload, IsReason;
  }

  /** One call: refused, or the next one. */
  lemma OneCall(j: JobState, call: Call)
    requires Coherent(j)
    ensures Coherent(Apply(j, call)) && 0 <= Age(j) <= 8
    ensures if Takes(j, call) then Follows(j, call, Apply(j, call)) else Apply(j, call) == j
  {
    hide Coherent, RecordFailure, ApplyAll;
    ApplyAllKeepsCoherent(j, [call]);
    ApplyTwo(j, call, call);
    AgeIs(j);
    match call
    case CallFailure(at, reason) => if Takes(j, call) { FailureFollows(j, at, reason); }
    case _ => {}
  }

  /** Starts at the even places, their answers at the odd ones. */
  predicate InTurn(calls: seq<Call>, age: int) {
    && (forall i :: 0 <= i < |calls| ==> (calls[i].CallProcessing? <==> (age + i) % 2 == 0))
    && (forall i :: 0 <= i < |calls| - 1 ==> !calls[i].CallSuccess?)
  }

  function StatusAfter(last: Call, place: int): Status {
    match last
    case CallProcessing(_) => Processing
    case CallSuccess(_) => Success
    case CallFailure(_, _) => if place == 7 then Failed else Pending
  }

  /** From `j` on, these calls were accepted, and `k` is what they have made of it. */
  predicate TurnsInto(j: JobState, taken: seq<Call>, k: JobState) {
    && 0 <= Age(k) == Age(j) + |taken| <= 8
    && InTurn(taken, Age(j))
    && (taken == [] ==> k == j)
    && (taken != [] ==> !IsTerminal(j.status) && k.status == StatusAfter(taken[|taken| - 1], Age(k) - 1))
  }

  lemma {:induction false} AcceptedInTurn(j: JobState, calls: seq<Call>)
    requires Coherent(j)
    ensures TurnsInto(j, Accepted(j, calls), ApplyAll(j, calls))
    decreases |calls|
  {
    hide Coherent, Apply, Takes, TurnsInto, Follows;
    if calls == [] {
      NoneTaken(j);
    } else {
      var next := Apply(j, calls[0]);
      OneCall(j, calls[0]);
      AcceptedInTurn(next, calls[1..]);
      var rest := Accepted(next, calls[1..]);
      if Takes(j, calls[0]) {
        OneMoreTaken(j, calls[0], next, rest, ApplyAll(j, calls));
        assert Accepted(j, calls) == [calls[0]] + rest;
      } else {
        assert Accepted(j, calls) == rest;
      }
    }
  }

  lemma NoneTaken(j: JobState)
    requires Coherent(j)
    ensures TurnsInto(j, [], j)
  {
    AgeIs(j);
  }

  lemma OneMoreTaken(j: JobState, call: Call, next: JobState, rest: seq<Call>, k: JobState)
    requires Coherent(j) && Follows(j, call, next) && TurnsInto(next, rest, k)
    ensures TurnsInto(j, [call] + rest, k)
  {
    AgeIs(j);
    hide Coherent, Age, InTurn;
    InTurnFrom(call, rest, Age(j));
  }

  /** One more call in front. */
  lemma InTurnFrom(first: Call, rest: seq<Call>, age: int)
    requires first.CallProcessing? <==> age % 2 == 0
    requires InTurn(rest, age + 1) && (rest != [] ==> !first.CallSuccess?)
    ensures var calls := [first] + rest;
            InTurn(calls, age) && calls[|calls| - 1] == if rest == [] then first else rest[|rest| - 1]
  {
    var calls := [first] + rest;
    forall i | 0 <= i < |calls|
      ensures calls[i].CallProcessing? <==> (age + i) % 2 == 0
      ensures i < |calls| - 1 ==> !calls[i].CallSuccess?
    {
      if i > 0 {
        assert calls[i] == rest[i - 1];
      }
    }
  }

  lemma AgeIs(j: JobState)
    requires Coherent(j)
    ensures 0 <= Age(j) <= 8
  {
    hide IsValid, ValidatePayload, IsReason;
  }

  /** Whatever is called on a new job, in whatever order: the calls that are not refused are at most
      eight, a start and its answer in turn, a success only as the last of all; and they alone tell
      how the job stands. The eighth, if it is a failure, is the one that makes the job failed. */
  lemma FourAttempts(origin: JobState, calls: seq<Call>)
    requires New(origin.id, TypeName(origin.jobType), origin.payload, origin.createdAt) == Ok(origin)
    ensures var taken, j := Accepted(origin, calls), ApplyAll(origin, calls);
            var n := |taken|;
            && n <= 8
            && (forall i :: 0 <= i < n ==> (taken[i].CallProcessing? <==> i % 2 == 0))
            && (forall i :: 0 <= i < n - 1 ==> !taken[i].CallSuccess?)
            && (n % 2 == 1 ==> j.status == Processing && j.retryCount == n / 2)
            && (n == 0 ==> j == origin && j.status == Pending && j.retryCount == 0)
            && (n > 0 && taken[n - 1].CallSuccess? ==> j.status == Success && j.retryCount == n / 2 - 1)
            && (n > 0 && taken[n - 1].CallFailure? ==>
                  if n < 8 then j.status == Pending && j.retryCount == n / 2 else j.status == Failed && j.retryCount == 3)
            && j.maxRetries == 3
  {
    hide New, Accepted, ApplyAll, TypeName, Coherent, Age;
    NewIsCoherent(origin.id, TypeName(origin.jobType), origin.payload, origin.createdAt);
    NewIsFresh(origin.id, TypeName(origin.jobType), origin.payload, origin.createdAt);
    AcceptedInTurn(origin, calls);
    ApplyAllKeepsCoherent(origin, calls);
    AgeTells(origin);
    AgeTells(ApplyAll(origin, calls));
  }

  /** How a job stands, by its age. */
  lemma AgeTells(j: JobState)
    requires Coherent(j)
    ensures j.maxRetries == 3
    ensures j.status == Pending ==> j.retryCount == Age(j) / 2
    ensures j.status == Pending && j.retryCount == 0 ==> Age(j) == 0
    ensures j.status == Processing ==> Age(j) % 2 == 1 && j.retryCount == Age(j) / 2
    ensures j.status == Success ==> j.retryCount == Age(j) / 2 - 1
    ensures j.status == Failed ==> Age(j) == 8 && j.retryCount == 3
  {
    hide IsValid, ValidatePayload, IsReason;
  }

  // ---------------------------------------------------------------- attempts, one after the other

  /** One attempt: its start, its end, and the reason if it failed. */
  datatype Try = Try(begin: Time, end: Time, failure: Option<string>)

  function CallsOf(tries: seq<Try>): seq<Call> {
    if tries == [] then [] else
      var n := |tries| - 1;
      var t := tries[n];
      CallsOf(tries[..n])
      + [CallProcessing(t.begin), if t.failure.None? then CallSuccess(t.end) else CallFailure(t.end, t.failure.value)]
  }

  /** The clock runs forward from `now`, and every failure has a reason. */
  predicate Timely(tries: seq<Try>, now: Time) {
    forall i: nat :: i < |tries| ==> TimelyAt(tries, i, now)
  }

  predicate TimelyAt(tries: seq<Try>, i: nat, now: Time)
    requires i < |tries|
  {
    && tries[i].begin != 0 && tries[i].end != 0
    && (if i == 0 then now else tries[i - 1].end) <= tries[i].begin <= tries[i].end
    && (tries[i].failure.Some? ==> TrimSpace(tries[i].failure.value) != "")
  }

  predicate AllFail(tries: seq<Try>) {
    forall i :: 0 <= i < |tries| ==> tries[i].failure.Some?
  }

  /** How a job stands after an attempt, in every column. */
  function Stands(origin: JobState, n: nat, t: Try): JobState
    requires n > 0
  {
    var j := origin.(startedAt := Some(t.begin), updatedAt := t.end);
    match t.failure
    case None => j.(status := Success, retryCount := n - 1, lastError := None, completedAt := Some(t.end))
    case Some(reason) =>
      var k := j.(lastError := Some(TrimSpace(reason)));
      if n <= 3 then k.(status := Pending, retryCount := n)
      else k.(status := Failed, retryCount := 3, completedAt := Some(t.end))
  }

  lemma OneTry(j: JobState, t: Try)
    requires j.status == Pending && j.completedAt == None && j.maxRetries == 3 && 0 <= j.retryCount <= 3
    requires t.begin != 0 && t.end != 0 && j.updatedAt <= t.begin <= t.end
    requires t.failure.Some? ==> TrimSpace(t.failure.value) != ""
    ensures ApplyAll(j, [CallProcessing(t.begin), if t.failure.None? then CallSuccess(t.end)
                                                  else CallFailure(t.end, t.failure.value)])
            == Stands(j.(retryCount := 0), j.retryCount + 1, t)
  {
    hide TrimSpace;
    ApplyTwo(j, CallProcessing(t.begin), if t.failure.None? then CallSuccess(t.end)
                                         else CallFailure(t.end, t.failure.value));
  }

  /** A new job after up to four attempts of which all but the last one failed: after one, two or three
      failures it waits with that many retries counted, after the fourth it has failed with three; and
      a success ends it at once. */
  lemma {:induction false} AfterTries(origin: JobState, tries: seq<Try>)
    requires New(origin.id, TypeName(origin.jobType), origin.payload, origin.createdAt) == Ok(origin)
    requires 1 <= |tries| <= 4 && Timely(tries, origin.createdAt) && AllFail(tries[..|tries| - 1])
    ensures ApplyAll(origin, CallsOf(tries)) == Stands(origin, |tries|, tries[|tries| - 1])
    decreases |tries|
  {
    hide New, Apply, ApplyAll, TypeName, TrimSpace;
    NewIsFresh(origin.id, TypeName(origin.jobType), origin.payload, origin.createdAt);
    var n := |tries| - 1;
    var t := tries[n];
    var before := CallsOf(tries[..n]);
    ApplyAllAppend(origin, before, [CallProcessing(t.begin), if t.failure.None? then CallSuccess(t.end)
                                                             else CallFailure(t.end, t.failure.value)]);
    assert TimelyAt(tries, n, origin.createdAt);
    if n == 0 {
      NoCalls(origin);
      OneTry(origin, t);
    } else {
      FewerTries(tries, origin.createdAt);
      AfterTries(origin, tries[..n]);
      OneTry(ApplyAll(origin, before), t);
    }
  }

  lemma FewerTries(tries: seq<Try>, now: Time)
    requires |tries| >= 2 && Timely(tries, now) && AllFail(tries[..|tries| - 1])
    ensures var fewer := tries[..|tries| - 1];
            && Timely(fewer, now) && fewer[|fewer| - 1].failure.Some?
            && AllFail(fewer[..|fewer| - 1])
            && fewer[|fewer| - 1].end <= tries[|tries| - 1].begin
  {
    hide TrimSpace;
    var fewer := tries[..|tries| - 1];
    forall i: nat | i < |fewer|
      ensures TimelyAt(fewer, i, now)
    {
      assert TimelyAt(tries, i, now) && fewer[i] == tries[i];
    }
    assert TimelyAt(tries, |tries| - 1, now) && tries[..|tries| - 1][|fewer| - 1].failure.Some?;
  }

  lemma NoCalls(j: JobState)
    ensures ApplyAll(j, []) == j
  {
  }
}
