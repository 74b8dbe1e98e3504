/** The table, the queue and the observer as objects with state (internal/adapters/mysql,
    internal/adapters/redis). What the database or the list answers to a call is an argument. */
module Stores {
  import opened Errors
  import opened Ids
  import opened JobEntity
  import opened JobClass
  import opened Mapper
  import opened Protocol

  class JobRepository {
    var rows: map<string, JobRecord>

    constructor ()
      ensures rows == map[]
    {
      rows := map[];
    }

    /** The key of a row is one of its columns. */
    ghost predicate Valid()
      reads this
    {
      Keyed(rows)
    }

    static ghost predicate Keyed(table: map<string, JobRecord>) {
      forall id <- table :: table[id].id == id
    }

    /** The table after an insert, and the error of the insert, if any. */
    static function Inserted(table: map<string, JobRecord>, record: JobRecord, reply: Reply): map<string, JobRecord> {
      if reply == Refused || record.id in table then table else table[record.id := record]
    }

    static function InsertError(reply: Reply, failure: Error, stored: bool): Option<Error> {
      if reply == Refused then Some(Wrap("create job: ", failure))
      else if stored then Some(Wrap("", Sentinel(JobAlreadyExists)))
      else if reply == Unacknowledged then Some(Wrap("create job: ", failure))
      else None
    }

    /** `Create`: a plain insert, refused when the key exists. */
    method Create(entity: Job, reply: Reply, failure: Error) returns (err: Option<Error>)
      requires Valid()
      modifies this
      ensures Valid() && rows == Inserted(old(rows), FromDomain(entity.Value()), reply)
      ensures err == InsertError(reply, failure, entity.id in old(rows))
      ensures forall id <- old(rows) :: id in rows && rows[id] == old(rows)[id]
    {
      var record := FromDomain(entity.Value());
      if reply == Refused {
        return Some(Wrap("create job: ", failure));
      }
      if record.id in rows {
        return Some(Wrap("", Sentinel(JobAlreadyExists)));
      }
      rows := rows[record.id := record];
      err := if reply == Done then None else Some(Wrap("create job: ", failure));
    }

    /** What a lookup finds. */
    static function Lookup(table: map<string, JobRecord>, id: string, reply: Reply, failure: Error): Result<JobState> {
      if !IsValid(id) then Err(Wrap("", Sentinel(InvalidID)))
      else if reply != Done then Err(Wrap("get job: ", failure))
      else if id !in table then Err(Wrap("", Sentinel(JobNotFound)))
      else match ToDomain(table[id])
        case Err(e) => Err(Wrap("map job from persistence: ", e))
        case Ok(j) => Ok(j)
    }

    /** `GetByID`: the record, mapped back to a new object, if the mapper accepts it. */
    method GetByID(id: string, reply: Reply, failure: Error) returns (job: Job?, err: Option<Error>)
      requires Valid()
      ensures Job.Returned(Lookup(rows, id, reply, failure), job, err)
      ensures job != null ==> fresh(job) && id in rows && job.id == id
    {
      if !IsValid(id) {
        return null, Some(Wrap("", Sentinel(InvalidID)));
      }
      if reply != Done {
        return null, Some(Wrap("get job: ", failure));
      }
      if id !in rows {
        return null, Some(Wrap("", Sentinel(JobNotFound)));
      }
      var loaded := ToDomain(rows[id]);
      if loaded.Err? {
        return null, Some(Wrap("map job from persistence: ", loaded.error));
      }
      LoadedID(rows[id]);
      job := new Job.Of(loaded.value);
      err := None;
    }

    /** The table after an update, and the error of the update, if any. */
    static function Updated(table: map<string, JobRecord>, record: JobRecord, reply: Reply, stamp: Time)
      : map<string, JobRecord>
    {
      if reply == Refused || record.id !in table then table
      else table[record.id := OverwriteRecord(table[record.id], record, stamp)]
    }

    static function UpdateError(reply: Reply, failure: Error, stored: bool): Option<Error> {
      if reply == Refused then Some(Wrap("update job: ", failure))
      else if !stored then Some(Wrap("", Sentinel(JobNotFound)))
      else if reply == Unacknowledged then Some(Wrap("update job: ", failure))
      else None
    }

    /** `Update`: writes seven columns of the row with this ID, whatever the row holds; no such row is
        an error. The database layer may put an instant of its own into `updated_at`. */
    method Update(entity: Job, reply: Reply, stamp: Time, failure: Error) returns (err: Option<Error>)
      requires Valid()
      modifies this
      ensures Valid() && rows == Updated(old(rows), FromDomain(entity.Value()), reply, stamp)
      ensures err == UpdateError(reply, failure, entity.id in old(rows))
      ensures rows.Keys == old(rows).Keys
      ensures forall id <- old(rows) :: id != entity.id ==> rows[id] == old(rows)[id]
      ensures reply != Refused && entity.id in rows ==>
                && entity.updatedAt <= rows[entity.id].updatedAt
                && (stamp == ZERO_TIME ==> rows[entity.id].updatedAt == entity.updatedAt)
    {
      var record := FromDomain(entity.Value());
      if reply == Refused {
        return Some(Wrap("update job: ", failure));
      }
      if record.id !in rows {
        return Some(Wrap("", Sentinel(JobNotFound)));
      }
      var row := rows[record.id];
      rows := rows[record.id := row.(
        status := record.status, retryCount := record.retryCount, maxRetries := record.maxRetries,
        lastError := record.lastError, updatedAt := StampedAt(record.updatedAt, stamp),
        startedAt := record.startedAt, completedAt := record.completedAt)];
      err := if reply == Done then None else Some(Wrap("update job: ", failure));
    }
  }

  class JobQueue {
    var list: seq<string>

    constructor ()
      ensures list == []
    {
      list := [];
    }

    /** The error of a push, if any. */
    static function PushError(id: string, reply: Reply, failure: Error): Option<Error> {
      if !IsValid(id) then Some(Wrap("", Sentinel(InvalidID)))
      else if reply == Done then None
      else Some(Join(Sentinel(JobQueueUnavailable), failure))
    }

    /** `Enqueue`: LPUSH. */
    method Enqueue(id: string, reply: Reply, failure: Error) returns (err: Option<Error>)
      modifies this
      ensures list == if IsValid(id) && reply != Refused then [id] + old(list) else old(list)
      ensures err == PushError(id, reply, failure)
    {
      if !IsValid(id) {
        return Some(Wrap("", Sentinel(InvalidID)));
      }
      if reply != Refused {
        list := [id] + list;
      }
      err := if reply == Done then None else Some(Join(Sentinel(JobQueueUnavailable), failure));
    }

    /** The error of a pop: the end of the context as it is, anything else marked. */
    static function PopError(failure: Error): Error {
      if Is(failure, ContextCanceled) || Is(failure, DeadlineExceeded) then failure
      else Join(Sentinel(JobQueueUnavailable), failure)
    }

    /** `Dequeue`: BRPOP, which waits while the list is empty, and the parse of what it popped. */
    method Dequeue(reply: Reply, failure: Error) returns (r: Result<string>)
      requires list != [] || reply == Refused
      modifies this
      ensures list == if reply == Refused then old(list) else old(list)[..|old(list)| - 1]
      ensures reply != Done ==> r == Err(PopError(failure))
      ensures reply == Done ==>
                match ParseID(old(list)[|old(list)| - 1])
                case Ok(id) => r == Ok(id)
                case Err(e) => r.Err? && Is(r.error, InvalidID)
    {
      if reply == Refused {
        return Err(PopError(failure));
      }
      var raw := list[|list| - 1];
      list := list[..|list| - 1];
      if reply == Unacknowledged {
        return Err(PopError(failure));
      }
      r := ParseID(raw);
      if r.Err? {
        r := Err(Wrap("invalid job ID received from queue: ", r.error));
      }
    }
  }

  /** The lifecycle observer, with what it has been told about each job. */
  class Observer {
    var seen: map<string, seq<Event>>

    constructor ()
      ensures seen == map[]
    {
      seen := map[];
    }

    function Of(id: string): seq<Event>
      reads this
    {
      if id in seen then seen[id] else []
    }

    method StatusPersisted(entity: Job, previous: Option<Status>)
      modifies this
      ensures Of(entity.id) == old(Of(entity.id)) + [Event(previous, entity.status)]
      ensures forall id :: id != entity.id ==> Of(id) == old(Of(id))
    {
      seen := seen[entity.id := Of(entity.id) + [Event(previous, entity.status)]];
    }
  }
}
