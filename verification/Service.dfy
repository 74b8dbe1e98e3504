/** The service from outside: a job is created, processed as often as it takes, and looked up. */
module Service {
  import opened GoText
  import opened Utf8
  import opened Errors
  import opened Ids
  import opened JobEntity
  import opened Lifecycle
  import opened Mapper
  import opened Protocol
  import opened Stores
  import opened UseCases
  import opened Results
  import opened Outcomes

  // ---------------------------------------------------------------- looking up

  /** A job is found under every text that trims to its ID; otherwise the error says what is wrong. */
  lemma GetIff(table: map<string, JobRecord>, text: string, reply: Reply, failure: Error)
    ensures var r, id := Get(table, text, reply, failure), TrimSpace(text);
            if !InGrammar(id) then r.Err? && Only(r.error, InvalidID)
            else if reply != Done then r.Err? && forall k :: Is(r.error, k) <==> Is(failure, k)
            else if id !in table then r.Err? && Only(r.error, JobNotFound)
            else if ToDomain(table[id]).Ok? then r == ToDomain(table[id])
            else r.Err?
  {
    var id := TrimSpace(text);
    LookupIff(table, id, reply, failure);
    IsValidIsGrammar(id);
    OnlyThroughWrap("validate job ID: ", Wrap("invalid job ID", Sentinel(InvalidID)), InvalidID) by {
      WrapsOnly(Wrap("invalid job ID", Sentinel(InvalidID)), InvalidID);
    }
    hide IsValid, InGrammar, ToDomain, Only, TrimSpace;
    var found := JobRepository.Lookup(table, id, reply, failure);
    if IsValid(id) && found.Err? {
      if Only(found.error, JobNotFound) {
        OnlyThroughWrap("get job: ", found.error, JobNotFound);
      }
    }
  }

  lemma NewRowLoads(r: Request, id: string, t: Type, typeName: string)
    requires Proper(r, id, t) && NamesType(typeName, t)
    ensures Coherent(NewJob(r, id, t)) && NewRow(r, id, typeName) == FromDomain(NewJob(r, id, t))
    ensures ToDomain(NewRow(r, id, typeName)) == Ok(NewJob(r, id, t))
    ensures New(id, TypeName(t), r.payload, r.now) == Ok(NewJob(r, id, t))
  {
    NewIff(id, TypeName(t), r.payload, r.now, t);
    TypeIff(TypeName(t), t);
    TypeIff(typeName, t);
    StatusIff("pending", Pending);
    hide New, TypeName, StatusName, InGrammar, FilledObject, Reads, ToDomain, Coherent;
    NewIsCoherent(id, TypeName(t), r.payload, r.now);
    CoherentRoundTrip(NewJob(r, id, t));
  }

  /** What a request has created is there to be looked up, as it was returned. */
  lemma GetAfterCreate(w: World, r: Request, id: string, t: Type, left: seq<int>, right: seq<int>, failure: Error)
    requires Proper(r, id, t) && Create(w, r).1.Ok? && AllSpace(left) && AllSpace(right)
    ensures Get(Create(w, r).0.table, Blank(left) + id + Blank(right), Done, failure) == Create(w, r).1
  {
    TypeIff(TypeName(t), t);
    CreateEffect(w, r, id, t, TypeName(t));
    NewRowLoads(r, id, t, TypeName(t));
    hide Create, TypeName, NamesType, ToDomain, Coherent, NewRow, NewJob, Get, Blank, AllSpace, Reads, FilledObject;
    var text := Blank(left) + id + Blank(right);
    IDIsFramed(id);
    TrimSpaceIff(text, id);
    GetIff(Create(w, r).0.table, text, Done, failure);
  }

  lemma IDIsFramed(id: string)
    requires InGrammar(id)
    ensures !StartsBlank(id) && !EndsBlank(id)
  {
    IsValidIsGrammar(id);
    ValidIffSlots(id);
    hide InGrammar, IsValid;
    assert SlotAccepts(0, id[0] as int) && SlotAccepts(35, id[35] as int);
    NotSpaceStops(id, id[0] as int);
    NotSpaceEnds(id, id[35] as int);
  }

  // ---------------------------------------------------------------- a job's life

  /** One round: a pop, and a call in which everything succeeds but perhaps the handler. */
  datatype Round = Round(begin: Time, handler: Option<Error>, end: Time)

  function AnswersIn(round: Round): Answers {
    Answers(Done, round.begin, Done, ZERO_TIME, round.handler, round.end, Done, ZERO_TIME, Done, Sentinel(JobNotFound))
  }

  function ServeOne(w: World, round: Round): World {
    if w.list == [] then w else
      var n := |w.list| - 1;
      var popped := w.(list := w.list[..n]);
      match ParseID(w.list[n])
      case Ok(id) => Process(popped, id, AnswersIn(round)).0
      case Err(_) => popped
  }

  /** Round after round; a round that finds the list empty does nothing. */
  function Serve(w: World, rounds: seq<Round>): World {
    if rounds == [] then w else
      var n := |rounds| - 1;
      ServeOne(Serve(w, rounds[..n]), rounds[n])
  }

  function TryIn(round: Round, id: string, typeName: string): Try {
    Try(round.begin, round.end,
        if round.handler.None? then None
        else Some("handle " + typeName + " job " + id + ": " + Text(round.handler.value)))
  }

  lemma TryHasReason(round: Round, id: string, typeName: string)
    ensures var t := TryIn(round, id, typeName); t.failure.Some? ==> TrimSpace(t.failure.value) != ""
  {
    var t := TryIn(round, id, typeName);
    if t.failure.Some? {
      assert t.failure.value[0] == "handle "[0];
      TrimSpaceNotBlank(t.failure.value);
    }
  }

  function TriesIn(rounds: seq<Round>, id: string, typeName: string): seq<Try> {
    seq(|rounds|, i requires 0 <= i < |rounds| => TryIn(rounds[i], id, typeName))
  }

  /** The only listed job, which waits. */
  predicate WaitsAlone(w: World, j: JobState, t: Type) {
    && w.list == [j.id] && j.id in w.table && w.table[j.id] == FromDomain(j)
    && j.status == Pending && j.completedAt == None && j.jobType == t
  }

  lemma WaitingLoads(w: World, j: JobState)
    requires Coherent(j) && j.status == Pending && j.id in w.table && w.table[j.id] == FromDomain(j)
    ensures IsValid(j.id) && ParseID(j.id) == Ok(j.id)
    ensures PendingJob(w.(list := []), j.id) && JobAt(w.(list := []), j.id) == j
  {
    CoherentRoundTrip(j);
    hide ToDomain, FromDomain, IsValid, ParseID;
    CoherentID(j);
    ParseIDKeepsValid(j.id);
    assert FromDomain(j).id == j.id by { FromDomainID(j); }
  }

  lemma FromDomainID(j: JobState)
    ensures FromDomain(j).id == j.id
  {
  }

  lemma CoherentID(j: JobState)
    requires Coherent(j)
    ensures IsValid(j.id) && j.maxRetries == 3 && 0 <= j.retryCount <= 3
  {
    hide IsValid, ValidatePayload, IsReason;
  }

  lemma StandsInRow(j: JobState, typeName: string, round: Round)
    requires NamesType(typeName, j.jobType) && 0 <= j.retryCount <= 3 == j.maxRetries
    requires j.status == Pending && j.completedAt == None
    ensures EndedRow(FromDomain(j), j.id, typeName, AnswersIn(round)) ==
            FromDomain(Stands(j.(retryCount := 0), j.retryCount + 1, TryIn(round, j.id, typeName)))
  {
    StatusIff("pending", Pending);
    StatusIff("success", Success);
    StatusIff("failed", Failed);
    hide StatusName, TypeName, TrimSpace;
  }

  /** A round of the waiting job. */
  lemma OneRound(w: World, j: JobState, typeName: string, round: Round)
    requires WaitsAlone(w, j, j.jobType) && Coherent(j) && NamesType(typeName, j.jobType)
    requires round.begin != 0 && round.end != 0 && j.updatedAt <= round.begin <= round.end
    ensures var next := Stands(j.(retryCount := 0), j.retryCount + 1, TryIn(round, j.id, typeName));
            && ServeOne(w, round).table == w.table[j.id := FromDomain(next)]
            && ServeOne(w, round).list == if next.status == Pending then [j.id] else []
  {
    hide Coherent, PendingJob, JobAt, FromDomain, Process, ParseID, IsValid, NamesType, EndedRow, TryIn, EventsOf,
         StartObserved, EndObserved;
    WaitingLoads(w, j);
    CoherentID(j);
    StandsInRow(j, typeName, round);
    FromDomainTimes(j);
    assert w.list[..0] == [];
    StandsPending(j, typeName, round);
    hide Stands;
    CallEffect(w.(list := []), j.id, typeName, AnswersIn(round));
  }

  lemma StandsPending(j: JobState, typeName: string, round: Round)
    requires j.retryCount >= 0
    ensures Stands(j.(retryCount := 0), j.retryCount + 1, TryIn(round, j.id, typeName)).status == Pending <==>
            round.handler.Some? && j.retryCount + 1 <= 3
  {
  }

  lemma FromDomainTimes(j: JobState)
    ensures var row := FromDomain(j);
            && row.id == j.id && row.updatedAt == j.updatedAt && row.retryCount == j.retryCount
            && row.maxRetries == j.maxRetries
  {
  }

  /** After up to three failures the job waits again. */
  lemma WaitsAgain(j: JobState, tries: seq<Try>, t: Try)
    requires New(j.id, TypeName(j.jobType), j.payload, j.createdAt) == Ok(j)
    requires 1 <= |tries| <= 3 && Timely(tries, j.createdAt) && AllFail(tries)
    ensures var n := |tries|;
            var next := Stands(j, n, tries[n - 1]);
            && Coherent(next) && next.status == Pending && next.completedAt == None && next.retryCount == n
            && next.id == j.id && next.jobType == j.jobType && next.updatedAt == tries[n - 1].end
            && Stands(next.(retryCount := 0), n + 1, t) == Stands(j, n + 1, t)
  {
    NewIsCoherent(j.id, TypeName(j.jobType), j.payload, j.createdAt);
    NewIsFresh(j.id, TypeName(j.jobType), j.payload, j.createdAt);
    AfterTries(j, tries);
    ApplyAllKeepsCoherent(j, CallsOf(tries));
    hide New, Coherent, TrimSpace, TypeName, ApplyAll, CallsOf, Timely;
  }

  /** The rounds of a new job that waits alone: all but the last one fail. */
  predicate Served(w: World, j: JobState, typeName: string, rounds: seq<Round>) {
    && WaitsAlone(w, j, j.jobType) && NamesType(typeName, j.jobType)
    && New(j.id, TypeName(j.jobType), j.payload, j.createdAt) == Ok(j)
    && 1 <= |rounds| <= 4
    && var tries := TriesIn(rounds, j.id, typeName);
       Timely(tries, j.createdAt) && AllFail(tries[..|tries| - 1])
  }

  predicate ServedTo(w: World, j: JobState, after: World, next: JobState) {
    after.table == w.table[j.id := FromDomain(next)] && after.list == if next.status == Pending then [j.id] else []
  }

  lemma NewJobIsFresh(j: JobState)
    requires New(j.id, TypeName(j.jobType), j.payload, j.createdAt) == Ok(j)
    ensures Coherent(j) && j.retryCount == 0 && j.(retryCount := 0) == j && j.updatedAt == j.createdAt
  {
    NewIsCoherent(j.id, TypeName(j.jobType), j.payload, j.createdAt);
    NewIsFresh(j.id, TypeName(j.jobType), j.payload, j.createdAt);
    hide New, Coherent, TypeName;
  }

  lemma OnlyRound(w: World, j: JobState, typeName: string, rounds: seq<Round>)
    requires Served(w, j, typeName, rounds) && |rounds| == 1
    ensures WaitsAlone(w, j, j.jobType) && NamesType(typeName, j.jobType)
    ensures New(j.id, TypeName(j.jobType), j.payload, j.createdAt) == Ok(j)
    ensures rounds[0].begin != 0 && rounds[0].end != 0 && j.createdAt <= rounds[0].begin <= rounds[0].end
    ensures Serve(w, rounds) == ServeOne(w, rounds[0])
  {
    assert TimelyAt(TriesIn(rounds, j.id, typeName), 0, j.createdAt);
    assert rounds[..0] == [];
    hide New, NamesType, TypeName, WaitsAlone, ServeOne, AllFail;
  }

  lemma FirstRound(w: World, j: JobState, typeName: string, rounds: seq<Round>)
    requires Served(w, j, typeName, rounds) && |rounds| == 1
    ensures ServedTo(w, j, Serve(w, rounds), Stands(j, 1, TryIn(rounds[0], j.id, typeName)))
  {
    hide Served, New, Coherent, ServeOne, FromDomain, NamesType, TypeName, Stands, WaitsAlone, Serve;
    OnlyRound(w, j, typeName, rounds);
    NewJobIsFresh(j);
    OneRound(w, j, typeName, rounds[0]);
  }

  lemma ServedBefore(w: World, j: JobState, typeName: string, rounds: seq<Round>)
    requires Served(w, j, typeName, rounds) && |rounds| > 1
    ensures Served(w, j, typeName, rounds[..|rounds| - 1])
  {
    var n := |rounds| - 1;
    var tries := TriesIn(rounds, j.id, typeName);
    assert TriesIn(rounds[..n], j.id, typeName) == tries[..n];
    FewerTries(tries, j.createdAt);
    hide New, NamesType, TypeName, WaitsAlone, Timely, TriesIn;
  }

  lemma NextRound(w: World, j: JobState, typeName: string, rounds: seq<Round>, middle: JobState)
    requires Served(w, j, typeName, rounds) && |rounds| > 1
    requires var n := |rounds| - 1;
             && middle == Stands(j, n, TryIn(rounds[n - 1], j.id, typeName))
             && ServedTo(w, j, Serve(w, rounds[..n]), middle)
    ensures var n := |rounds| - 1;
            ServedTo(w, j, Serve(w, rounds), Stands(j, n + 1, TryIn(rounds[n], j.id, typeName)))
  {
    var n := |rounds| - 1;
    var tries := TriesIn(rounds, j.id, typeName);
    var last := TryIn(rounds[n], j.id, typeName);
    assert TimelyAt(tries, n, j.createdAt);
    FewerTries(tries, j.createdAt);
    assert tries[..n][n - 1] == TryIn(rounds[n - 1], j.id, typeName);
    hide New, Coherent, ServeOne, FromDomain, NamesType, TypeName, Stands, WaitsAlone, Timely, TimelyAt;
    WaitsAgain(j, tries[..n], last);
    var before := Serve(w, rounds[..n]);
    SameRow(w, before, j, middle, FromDomain(Stands(j, n + 1, last)));
    OneRound(before, middle, typeName, rounds[n]);
  }

  lemma ServedIs(w: World, j: JobState, typeName: string, rounds: seq<Round>)
    requires Served(w, j, typeName, rounds)
    ensures 1 <= |rounds| <= 4
  {
    hide New, NamesType, TypeName, WaitsAlone, Timely;
  }

  lemma {:induction false} RoundsAre(w: World, j: JobState, typeName: string, rounds: seq<Round>)
    requires Served(w, j, typeName, rounds)
    ensures var n := |rounds|;
            ServedTo(w, j, Serve(w, rounds), Stands(j, n, TryIn(rounds[n - 1], j.id, typeName)))
    decreases |rounds|
  {
    hide Served, Stands, ServedTo, Serve;
    ServedIs(w, j, typeName, rounds);
    var n := |rounds| - 1;
    if n == 0 {
      FirstRound(w, j, typeName, rounds);
    } else {
      ServedBefore(w, j, typeName, rounds);
      RoundsAre(w, j, typeName, rounds[..n]);
      NextRound(w, j, typeName, rounds, Stands(j, n, TryIn(rounds[n - 1], j.id, typeName)));
    }
  }

  lemma SameRow(w: World, v: World, j: JobState, k: JobState, last: JobRecord)
    requires WaitsAlone(w, j, j.jobType) && k.id == j.id && k.jobType == j.jobType
    requires k.status == Pending && k.completedAt == None
    requires v.table == w.table[j.id := FromDomain(k)] && v.list == [j.id]
    ensures WaitsAlone(v, k, k.jobType)
    ensures v.table[j.id := last] == w.table[j.id := last]
  {
    hide FromDomain;
  }

  /** The clock does not run backwards from `now` on. */
  predicate InTime(rounds: seq<Round>, now: Time) {
    forall i: nat :: i < |rounds| ==> InTimeAt(rounds, i, now)
  }

  predicate InTimeAt(rounds: seq<Round>, i: nat, now: Time)
    requires i < |rounds|
  {
    && rounds[i].begin != 0 && rounds[i].end != 0
    && (if i == 0 then now else rounds[i - 1].end) <= rounds[i].begin <= rounds[i].end
  }

  /** The row of a job after `n` rounds, by the last one. */
  function LifeRow(r: Request, id: string, typeName: string, n: nat, last: Round): JobRecord
    requires n > 0
  {
    var row := NewRow(r, id, typeName).(startedAt := Some(last.begin), updatedAt := last.end);
    match last.handler
    case None => row.(status := "success", retryCount := n - 1, completedAt := Some(last.end))
    case Some(cause) =>
      var noted := row.(lastError := Some(TrimSpace("handle " + typeName + " job " + id + ": " + Text(cause))));
      if n <= 3 then noted.(retryCount := n)
      else noted.(status := "failed", retryCount := 3, completedAt := Some(last.end))
  }

  /** A job from its creation on, alone in the list: for every proper request, and whatever the handler
      answers in up to four rounds of which all but the last one fail. One, two or three failures leave
      the job pending and listed, with that many retries counted; the fourth leaves it failed with three,
      and not listed; a success ends it in any of the four. */
  lemma LifeOfAJob(w: World, r: Request, id: string, t: Type, typeName: string, rounds: seq<Round>)
    requires w.list == [] && Proper(r, id, t) && NamesType(typeName, t) && id !in w.table
    requires r.insert == Done && r.publish == Done
    requires 1 <= |rounds| <= 4 && InTime(rounds, r.now)
    requires forall i :: 0 <= i < |rounds| - 1 ==> rounds[i].handler.Some?
    ensures var n, after := |rounds|, Serve(Create(w, r).0, rounds);
            && after.table == w.table[id := LifeRow(r, id, typeName, n, rounds[n - 1])]
            && after.list == if rounds[n - 1].handler.Some? && n <= 3 then [id] else []
  {
    hide Proper, Create, Serve, NamesType, InTime, NewRow, Stands, FromDomain, LifeRow, New, TypeName;
    CreateEffect(w, r, id, t, typeName);
    var j := NewJob(r, id, t);
    var n := |rounds|;
    var created := Create(w, r).0;
    NewJobWaits(w, created, r, id, t, typeName);
    RoundsAreTimely(rounds, id, typeName, r.now);
    assert Served(created, j, typeName, rounds);
    RoundsAre(created, j, typeName, rounds);
    LifeRowStands(r, id, t, typeName, n, rounds[n - 1]);
    assert w.table[id := NewRow(r, id, typeName)][id := LifeRow(r, id, typeName, n, rounds[n - 1])]
        == w.table[id := LifeRow(r, id, typeName, n, rounds[n - 1])];
  }

  lemma NewJobWaits(w: World, created: World, r: Request, id: string, t: Type, typeName: string)
    requires Proper(r, id, t) && NamesType(typeName, t)
    requires created.table == w.table[id := NewRow(r, id, typeName)] && created.list == [id]
    ensures var j := NewJob(r, id, t);
            && WaitsAlone(created, j, t) && New(id, TypeName(t), r.payload, r.now) == Ok(j)
            && j.id == id && j.jobType == t && j.payload == r.payload && j.createdAt == r.now
  {
    hide Proper, NamesType, NewRow, FromDomain, New, TypeName, Coherent, ToDomain;
    NewRowLoads(r, id, t, typeName);
  }

  lemma RoundsAreTimely(rounds: seq<Round>, id: string, typeName: string, now: Time)
    requires 1 <= |rounds| && InTime(rounds, now)
    requires forall i :: 0 <= i < |rounds| - 1 ==> rounds[i].handler.Some?
    ensures var tries := TriesIn(rounds, id, typeName);
            Timely(tries, now) && AllFail(tries[..|tries| - 1])
  {
    var tries := TriesIn(rounds, id, typeName);
    hide TrimSpace;
    forall i: nat | i < |tries|
      ensures TimelyAt(tries, i, now)
    {
      assert InTimeAt(rounds, i, now);
      TryHasReason(rounds[i], id, typeName);
    }
  }

  lemma LifeRowStands(r: Request, id: string, t: Type, typeName: string, n: nat, last: Round)
    requires NamesType(typeName, t) && 1 <= n <= 4
    ensures var next := Stands(NewJob(r, id, t), n, TryIn(last, id, typeName));
            && FromDomain(next) == LifeRow(r, id, typeName, n, last)
            && (next.status == Pending <==> last.handler.Some? && n <= 3)
  {
    StatusIff("pending", Pending);
    StatusIff("success", Success);
    StatusIff("failed", Failed);
    TypeIff(typeName, t);
    hide StatusName, TypeName, TrimSpace, NamesType;
  }

  /** Where nothing is listed nothing is processed, however many rounds follow. */
  lemma {:induction false} NothingListed(w: World, rounds: seq<Round>)
    requires w.list == []
    ensures Serve(w, rounds) == w
    decreases |rounds|
  {
    if rounds != [] {
      NothingListed(w, rounds[..|rounds| - 1]);
    }
  }
}
