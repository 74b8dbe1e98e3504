/** The handler registry (internal/adapters/executor/dispatcher.go). */
module Executor {
  import opened GoText
  import opened Errors
  import opened JobEntity

  /** A handler is known by a tag; what it does to the outside world is not modelled. */
  type Handler = nat

  const REQUIRED_TYPES: seq<Type> := [SendEmail, ReportGeneration, DataCleanup]

  /** The registries that may be used: every key names a type, none is nil, none is missing. */
  ghost predicate Acceptable(handlers: map<string, Option<Handler>>) {
    && (forall name <- handlers :: TypeOfName(name).Some? && handlers[name].Some?)
    && (forall t: Type :: TypeName(t) in handlers)
  }

  function HandleError(j: JobState, cause: Error): Error {
    Wrap("handle " + TypeName(j.jobType) + " job " + j.id + ": ", cause)
  }

  /** Whatever the handler said, the error names the job first, so its text is not blank. */
  lemma HandleErrorNotBlank(j: JobState, cause: Error)
    ensures TrimSpace(Text(HandleError(j, cause))) != ""
  {
    var text := Text(HandleError(j, cause));
    assert text[0] == "handle "[0];
    TrimSpaceNotBlank(text);
  }

  class Dispatcher {
    const handlers: map<string, Handler>

    constructor (handlers: map<string, Handler>)
      ensures this.handlers == handlers
    {
      this.handlers := handlers;
    }

    /** `NewDispatcher`: copies the registry key by key, in any order, and refuses the registries
        that are not acceptable. */
    static method New(handlers: map<string, Option<Handler>>) returns (r: Dispatcher?, err: Option<Error>)
      ensures r == null <==> err.Some?
      ensures r != null <==> Acceptable(handlers)
      ensures r != null ==> forall t: Type :: TypeName(t) in r.handlers
      ensures r != null ==> fresh(r) && r.handlers.Keys == handlers.Keys
      ensures r != null ==> forall name <- handlers :: Some(r.handlers[name]) == handlers[name]
      ensures err.Some? ==> Is(err.value, InvalidType) || Is(err.value, HandlerNotRegistered)
    {
      var copied: map<string, Handler> := map[];
      var rest := handlers.Keys;
      while rest != {}
        invariant rest <= handlers.Keys
        invariant copied.Keys == handlers.Keys - rest
        invariant forall name <- copied :: TypeOfName(name).Some? && Some(copied[name]) == handlers[name]
        decreases rest
      {
        var name :| name in rest;
        rest := rest - {name};
        if TypeOfName(name).None? {
          return null, Some(Wrap("", Sentinel(InvalidType)));
        }
        if handlers[name].None? {
          return null, Some(Wrap("nil handler: ", Sentinel(HandlerNotRegistered)));
        }
        copied := copied[name := handlers[name].value];
      }
      for i := 0 to |REQUIRED_TYPES|
        invariant forall k :: 0 <= k < i ==> TypeName(REQUIRED_TYPES[k]) in copied
      {
        if TypeName(REQUIRED_TYPES[i]) !in copied {
          return null, Some(Foreign(KindText(HandlerNotRegistered) + ": " + TypeName(REQUIRED_TYPES[i]), {HandlerNotRegistered}));
        }
      }
      forall t: Type
        ensures TypeName(t) in copied
      {
        assert t == REQUIRED_TYPES[0] || t == REQUIRED_TYPES[1] || t == REQUIRED_TYPES[2];
      }
      r := new Dispatcher(copied);
      err := None;
    }

    /** The error `Execute` returns when the handler, if it is reached, gives `answer`. */
    function Outcome(entity: JobState, answer: Option<Error>): Option<Error> {
      if TypeName(entity.jobType) !in handlers then
        Some(Foreign(KindText(HandlerNotRegistered) + ": " + TypeName(entity.jobType), {HandlerNotRegistered}))
      else if answer.Some? then Some(HandleError(entity, answer.value))
      else None
    }

    /** `Execute`: looks the type up and wraps the handler's answer. Every failure can be recorded,
        because its text is never blank. */
    method Execute(entity: JobState, answer: Option<Error>) returns (err: Option<Error>)
      ensures err == Outcome(entity, answer)
      ensures err.Some? ==> TrimSpace(Text(err.value)) != ""
    {
      if TypeName(entity.jobType) !in handlers {
        err := Some(Foreign(KindText(HandlerNotRegistered) + ": " + TypeName(entity.jobType), {HandlerNotRegistered}));
        assert Text(err.value)[0] == KindText(HandlerNotRegistered)[0] == 'j';
        TrimSpaceNotBlank(Text(err.value));
      } else if answer.Some? {
        err := Some(HandleError(entity, answer.value));
        HandleErrorNotBlank(entity, answer.value);
      } else {
        err := None;
      }
    }
  }
}
