# Verification of the job service

A Dafny model of a small asynchronous job service and proofs about it. An API call inserts a pending
row into a table and publishes its ID on a list; a dispatcher pops one ID at a time and hands it to a
worker; the worker loads the row, runs a handler, records the outcome and, on a failure with retries
left, publishes the ID again. The UPDATE statement names the ID and nothing else: no status and no
version guards it. That no two workers ever touch the same job, that no update is lost and that every
job ends rests on an unwritten invariant, which is stated and proved here.

`dafny verify dfyconfig.toml` checks everything.

## How it is built

| file | what it models |
|---|---|
| `GoText.dfy`, `Utf8.dfy`, `Errors.dfy` | Go strings as bytes (UTF-8 decoding, trimming) and the standard they follow (RFC 3629, section 3), Go errors as wrap/join trees |
| `Ids.dfy`, `Uuid.dfy` | the ID grammar and its rune-indexed scan; the version 4 generator (RFC 4122, sections 4.1.1, 4.1.3, 4.4) |
| `JobEntity.dfy`, `JobClass.dfy` | the job as a value with its transitions, and as the object updated in place |
| `Names.dfy`, `Lifecycle.dfy` | which texts name a type or a status; which calls a job accepts, in which order, and how often |
| `Mapper.dfy`, `Stores.dfy` | the table record, the repository, the queue and the observer |
| `Executor.dfy` | the handler registry |
| `Protocol.dfy` | the whole system as steps: one per call to the outside, any interleaving, faults included |
| `ProtocolInvariant.dfy`, `ProtocolSteps.dfy` | the invariant, and that each of the fifteen actions keeps it |
| `ProtocolTheorems.dfy` | what the invariant means over whole runs |
| `Frames.dfy`, `BlindWrite.dfy` | what one process can touch; the unguarded UPDATE against a guarded one |
| `Clocks.dfy` | what the clocks of the service and of the database layer can do to `updated_at` |
| `Delivery.dfy`, `Drain.dfy` | order and back-pressure on the way to the workers; termination |
| `Faults.dfy` | exactly when, and why, a job is left behind |
| `UseCases.dfy`, `UseCaseTheorems.dfy` | the two use cases as imperative code, and their tie to the protocol steps |
| `Results.dfy`, `Interference.dfy` | what the results of the use case mean, alone and among other processes |
| `Outcomes.dfy`, `Service.dfy` | what each call leaves in the table, the list and the observer, column by column, and the life of a job from outside |
| `WorkerLoops.dfy`, `Pool.dfy`, `PoolDelivery.dfy` | the dispatcher and worker loops; start and shutdown of the pool; that it delivers what it is given |
| `Tracker.dfy` | the browser's polling hook |

A run is any sequence of actions, from the empty system, by any number of API calls, dispatchers and
workers that may join at any time; an action that is not possible where it occurs changes nothing. Any
call may be refused, or take effect and still be answered with an error; any process may stop between
two calls; the clock may show anything. Every theorem about runs holds for all of these unless it says
otherwise. Histories (rows written, executor calls, observer calls, losses) are kept in the state but
read by no process.

What is assumed of the outside: a call takes effect at once or not at all; a push adds its ID at most
once; a pop gives an element to at most one caller; handlers only read the job they are given; an update
writes `updated_at` as the record has it, or the database layer puts a later instant of its own there,
whatever the column held before; in the pool, `Dequeue` and `Execute` return, and a
`Dequeue` that starts after the cancellation fails.

The imperative parts (`Job`, `JobRepository`, `JobQueue`, `ProcessJob`, `CreateJob`, the loops, the
hook) are classes and methods proved against functions, and the theorems are about those functions. What the functions compute is stated once more without them, in
the texts, numbers and columns that the service shows to its users (`Names`, `Lifecycle`, `Outcomes`,
`Service`), so that no theorem is true merely of itself.
`Ports` only gathers the three stores, so that a use case can speak of them in one word.

## What came out

- A job whose processing meets a fault is left behind, and each one left behind has exactly one fault
  on record: a failed call, a lost answer, a refused clock reading, an ID dropped by a cancelled
  dispatcher, or a stopped process. Nothing in the service picks such a job up again.
- An error of a handler is not only wrapped but also recognised: if it matches one of the two result
  sentinels itself, the worker's log line can be wrong. `MisleadingHandler` gives such a call for each
  sentinel, and `VerdictRightIff` the exact condition, on the row and the answers alone, under which the
  line is right.
- The clock of the service is harmless: whatever it shows, no row's `updated_at` goes back, because a
  refused reading stops the call before anything is written. The model also lets the database layer
  put instants of its own into that column. Such an instant can be taken back by the next update;
  `StepTakesBackIff` says exactly when, and `StampTakenBack` gives the call.
- `README.md:7` of the service speaks of retrying recoverable failures. The code retries every failure,
  whatever its cause, until the retries are spent; the model follows the code.
- `Restore` accepts rows that no sequence of calls produces. Every row the service writes is one that
  some sequence does produce, up to a later `updated_at`, so loading never brings in one of the others.
- `MarkFailed`, which no use case calls, leads out of the reachable jobs exactly when retries remain.

## Model

| member | source | states |
|---|---|---|
| ProtocolTheorems.SingleToken | internal/application/usecase/process_job.go:74-212 | in every reachable state an ID occurs at most once in the list and the hands of all processes together, so two processes never work on one job, even if the ID generator repeats itself |
| ProtocolTheorems.TokenConservation | internal/application/usecase/process_job.go:86-226 | every persisted job is in exactly one of three situations, token held, row terminal, or stranded, and has at most one fault on record |
| Faults.LeftBehindIff | internal/application/usecase/process_job.go:86-226 | in every run, a job is left behind if and only if one of the run's actions was a failed or unanswered call, a refused clock reading, a dropped hand or a stopped process for that very job; there is at most one such action, and the fault on record is its own |
| Faults.StepRecords | internal/adapters/worker/dispatcher.go:59-97 | in any state of the invariant, each action puts exactly the fault that it is on the record of exactly that job: an update that ends a job leaves nothing behind even if its answer is lost, and a stop after it neither |
| BlindWrite.BlindWriteIsGuarded | internal/adapters/mysql/job_repository.go:85-98 | every run with the unguarded UPDATE is, state for state, the run of an UPDATE that also compares the whole row, updated_at included, with the row as the process last read or wrote it |
| BlindWrite.StepSeen | internal/adapters/mysql/job_repository.go:85-116 | from any state of the invariant in which each process has in sight the row it may write, one step is the same with and without the comparison, and keeps it so |
| Frames.OthersKeepMine | internal/application/usecase/process_job.go:86-212 | while a process holds a job, no action of any other process touches that process, a column of the job's row, or its history |
| ProtocolTheorems.NothingIsLost | internal/application/usecase/process_job.go:98-204 | between any two moments of a run, with any clock readings: no retry count decreases, no terminal row or its attempts change, id, type, payload, created_at and max_retries stay, and no history shrinks or is rewritten |
| Clocks.ClockIsSafe | internal/domain/job/job.go:239-327 | for any clock readings of the service, forwards or backwards, and updates that write the record's time: between any two moments of a run no row's updated_at decreases, and at every moment each process goes by a copy that is the row itself, in every column |
| Clocks.StepTakesBackIff | internal/adapters/mysql/job_repository.go:85-98 | one action takes a row's updated_at back if and only if it is an update that takes effect and writes an earlier instant, and then the column was ahead of the copy that the process went by |
| Clocks.ExactAdvances | internal/application/usecase/process_job.go:98-107 | where each process goes by the row itself, the refusal of earlier clock readings is enough: no action without an instant of the database layer takes a row back |
| Clocks.StampedRunAdvances | internal/adapters/mysql/job_repository.go:85-98 | with instants of the database layer, a run in which no update writes an earlier instant than the row has takes no row back |
| Clocks.StampTakenBack | internal/adapters/mysql/job_repository.go:85-98 | from every reachable state, the call of a worker in which the database layer's instant is taken back by the next update |
| ProtocolTheorems.PersistBeforePublish | internal/application/usecase/create_job.go:86-97 | every ID in the list, in a dispatcher's hand, and in a worker before its first write is valid and names a pending row; a lookup or a write never misses its row, and only the clock can refuse a transition |
| ProtocolTheorems.ProcNoSurprise | internal/application/usecase/process_job.go:86-141 | in any state of the invariant a process finds the row of its job pending before its first write and processing before its second, and only the clock can refuse its transitions |
| ProtocolTheorems.ExecutionAccounting | internal/application/usecase/process_job.go:121-228 | executor calls match the row: as many as the retry count while pending, at most one more while processing, one more when terminal; max_retries is 3 and there are never more than 4 calls; failed means retry count 3 and exactly 4 calls that all failed, success that only the last one succeeded; last_error is the trimmed text of the latest recorded failure |
| ProtocolTheorems.ObserverTrace | internal/application/usecase/process_job.go:109-212 | the observer sees the row's statuses in order, each call naming the status before, missing at most the last change; the statuses follow the allowed transitions and end in the row's |
| Delivery.FirstInFirstOut | internal/adapters/redis/job_queue.go:52-75 | pushes are pops followed by the reversed list; each dispatcher has handed over, in order, all it took but at most one |
| Delivery.HandedInOrder | internal/adapters/worker/dispatcher.go:59-97 | in every run, with any number of dispatchers and any losses, what a dispatcher handed to workers is a subsequence of what was popped, which is a prefix of what was pushed |
| Delivery.DeliveredInOrder | internal/adapters/worker/dispatcher.go:59-97 | with one dispatcher nothing is left out, as long as no pop's answer is lost: a prefix, at most one ID short of what was popped |
| Delivery.OldestReachesWorker | internal/adapters/worker/dispatcher.go:59-97 | from every reachable state with a listed ID, a dispatcher and a worker that join can bring the ID listed first to the worker, with nothing else changed |
| Delivery.BackPressure | internal/adapters/worker/pool.go:85-111 | in every reachable state the jobs that were popped and are not back in the list, ended or lost are exactly those in the hands of dispatchers and workers, and no more than these: six for one pool of a dispatcher and five workers |
| Delivery.ProcessingBounded | internal/adapters/worker/pool.go:14-15 | no more unlost processing rows than workers |
| Delivery.InProgressIsHeld | internal/application/usecase/process_job.go:109-153 | an unlost processing row is in the hands of a worker |
| Delivery.StepPublished | internal/adapters/redis/job_queue.go:44-108 | every action keeps this: a pushed ID has a row; an API call is responsible only for an ID never pushed, anyone else only for a popped one |
| ProtocolTheorems.InvConserves | internal/application/usecase/process_job.go:86-226 | the three situations of a job, in any state of the invariant |
| ProtocolTheorems.StepEvolves | internal/domain/job/job.go:239-327 | no action changes a terminal row or an origin, lowers a retry count or rewrites a history, and only an update changes a row |
| ProtocolTheorems.PathAllowed | README.md:121-136 | along any history each status follows from the one before by an arrow of the documented diagram |
| ProtocolSteps.StepKeepsInv | internal/application/usecase/process_job.go:74-265 | each of the fifteen actions, with any reply, keeps the invariant |
| ProtocolSteps.RunKeepsInv | internal/application/usecase/process_job.go:74-265 | every run from a state of the invariant ends in one |
| ProtocolSteps.InsertKeepsInv | internal/adapters/mysql/job_repository.go:27-45 | an insert, refused on a duplicate key, keeps it |
| ProtocolSteps.SaveKeepsInv | internal/adapters/mysql/job_repository.go:76-117 | an update keeps it, whether refused, acknowledged or not, and whatever instant the database layer puts into updated_at |
| ProtocolSteps.PublishKeepsInv | internal/adapters/redis/job_queue.go:44-66 | a push keeps it, by the API or for a retry |
| ProtocolSteps.PopKeepsInv | internal/adapters/redis/job_queue.go:68-108 | a pop keeps it, also when its answer is lost |
| ProtocolSteps.HandOverKeepsInv | internal/adapters/worker/dispatcher.go:87-92 | a hand-over on the unbuffered channel keeps it |
| ProtocolSteps.CrashKeepsInv | internal/application/usecase/process_job.go:74-265 | a process that stops anywhere keeps it |
| ProtocolSteps.HeldIsOpen | internal/application/usecase/process_job.go:143-153 | a job in somebody's hands is terminal only between its last write and its last report |
| ProtocolSteps.ListedIDParses | internal/adapters/redis/job_queue.go:98-105 | the ID check of a pop never fails |
| ProtocolInvariant.HolderIsTheOnlyPlace | internal/adapters/worker/dispatcher.go:59-97 | a held job is held by one process, is not listed, not settled and has no fault on record |
| ProtocolInvariant.MoveKeepsInv | internal/application/usecase/process_job.go:109-153 | a process that changes place and rewrites its own job's entry disturbs nobody else |
| Drain.QueueDrains | internal/domain/job/failure.go:55-66 | fault-free processing after any run ends within the measure of where it began; at its end the list is empty and every job is terminal or was lost before |
| Drain.DrainExists | internal/application/usecase/process_job.go:121-212 | from every such state with a dispatcher and a worker, that end can be reached |
| Drain.UsefulWorks | internal/domain/job/failure.go:55-66 | every useful action lowers the sum, over all jobs, of remaining retries and stage |
| Drain.UsefulRunIsBounded | internal/application/usecase/process_job.go:121-212 | a run of useful actions has at most as many steps as the measure of the state it begins in, minus the measure of the state it ends in |
| Drain.DrainedMeansDone | internal/adapters/worker/dispatcher.go:59-97 | where no useful action is left, every process rests, the list is empty and every job is terminal or lost |
| Drain.SomethingToDo | internal/adapters/worker/processor_worker.go:71-145 | while an ID is listed or a process is busy, some useful action is possible |
| Drain.FaultFreeLosesNothing | internal/application/usecase/process_job.go:86-226 | in a run without faults no job is ever lost: its token is held exactly as long as it is not terminal |
| Drain.UsefulSameFaults | internal/application/usecase/process_job.go:86-226 | a useful action records no loss |
| UseCases.ProcessJob.Execute | internal/application/usecase/process_job.go:74-130 | leaves the stores, and returns the error, that the specification function says, for all answers of the outside |
| UseCases.ProcessJob.HandleSuccess | internal/application/usecase/process_job.go:132-156 | after a handler that returned nil: the success is written and reported, or the stores and the error say which call or transition failed |
| UseCases.ProcessJob.HandleExecutionFailure | internal/application/usecase/process_job.go:158-265 | after a failed attempt, for all answers: the stores and the error after recording, updating, reporting and publishing, in this order; there is no case left for an unknown outcome |
| UseCases.CreateJob.Execute | internal/application/usecase/create_job.go:62-100 | leaves the stores, and returns the job or the error, that the specification function says |
| UseCases.GetJob.Execute | internal/application/usecase/get_job.go:28-43 | a new object with the job found under the ID in the text, or the error of the text or of the lookup, as the specification function says |
| Outcomes.CallEffect | internal/application/usecase/process_job.go:74-265 | what one call on a pending job leaves, from the row and the answers alone: every column of the row, the status as "processing", "success", "pending" or "failed", last_error as the trimmed text of the wrapped handler error; the list; each observer call; nothing of other jobs |
| Outcomes.NotPendingIsRefused | internal/application/usecase/process_job.go:74-107 | an ID outside the grammar, one without a row, and one whose row is not pending: nothing changes, and the error matches the one variable for it |
| Outcomes.LookupIff | internal/adapters/mysql/job_repository.go:47-74 | which error a lookup gives: an invalid ID, the failed call's own, a missing job, or the mapper's; otherwise the row, if it loads |
| Outcomes.StoreErrors | internal/adapters/redis/job_queue.go:44-96 | what each error of an insert, an update, a push and a pop matches, variable by variable: an existing key, a missing row, an invalid ID, an unavailable queue, the end of the context unmarked |
| Outcomes.CreateEffect | internal/application/usecase/create_job.go:62-100 | what a proper request leaves, for any table and any answers: the new row in every column, the list, the observer call; and exactly when it returns the job |
| Outcomes.CreateError | internal/application/usecase/create_job.go:86-97 | what the error of a proper request matches: an existing job, the failed call's own error, or an unavailable queue besides |
| Outcomes.ImproperIsRefused | internal/application/usecase/create_job.go:66-84 | any other request changes nothing, and its error is that of the first check it fails: type, generator, ID, payload, time |
| Outcomes.WrittenRequestSucceeds | internal/domain/job/type.go:16-32 | a type name in any mixture of capitals and small letters with ASCII white space around it, an unused ID, a filled object, a time and two calls that succeed: the request returns a job of that type |
| Service.LifeOfAJob | README.md:136-136 | from request to end, for a job alone in the list and any handler answers: one, two or three failed rounds leave the row "pending" and listed with that many retries, the fourth leaves it "failed" with three and unlisted, a success in any of the four "success"; every column given |
| Service.GetAfterCreate | internal/application/usecase/get_job.go:28-43 | what a request returned is what a lookup finds, by any text that is the ID with white space around it |
| Service.GetIff | internal/application/usecase/get_job.go:28-43 | a job is found exactly under the texts that trim to its ID; otherwise the error matches an invalid ID, a missing job, or the failed call's own |
| UseCases.RestIsStill | internal/application/usecase/process_job.go:74-156 | a process that has returned does nothing more |
| UseCaseTheorems.ExecuteIsItsScript | internal/application/usecase/process_job.go:74-265 | from every reachable state in which a worker has received an ID, its ten protocol steps in a row have on the stores the effect of `Execute`, for all answers |
| UseCaseTheorems.CallGoesOn | internal/application/usecase/process_job.go:86-212 | in any state of the invariant, the next call of a worker leaves exactly the rest of `Execute` to be done, in effect and error, or nothing if the worker has returned |
| UseCaseTheorems.CreateIsItsScript | internal/application/usecase/create_job.go:62-100 | from every reachable state and for every request, valid or not, the protocol steps of an API call in a row have on the stores the effect of `CreateJob.Execute` |
| Interference.ExecuteUnderInterference | internal/application/usecase/process_job.go:74-265 | whatever other processes do before each step of a worker, its call leaves the row and the events of its job, and lists the ID or not, as `Execute` would alone, and returns the same error |
| Interference.WeaveIsRest | internal/application/usecase/process_job.go:86-212 | the same from any place in the call: whatever others do before each of the remaining steps, they end, for the job and in the error returned, as the rest of `Execute` would alone |
| Interference.ResultUnderInterference | internal/application/usecase/process_job.go:206-265 | the error that the interrupted call returns agrees with what it did: nil exactly when the row it leaves is an acknowledged success, a sentinel exactly when its effect took place or an error from outside matches it |
| Results.ResultAgreesWithEffect | internal/application/usecase/process_job.go:206-265 | nil exactly when the success was written and acknowledged; an error matches a sentinel exactly when the announced retry or failure took place or an error from outside matches it itself; and which takes place is decided by the row and the answers |
| Results.SentinelRightIff | internal/application/usecase/process_job.go:12-20 | a sentinel tells the truth exactly for the inputs for which no error from outside carries it, unless its effect takes place anyway |
| Results.NeverBoth | internal/application/usecase/process_job.go:12-20 | no result matches both sentinels when no error from outside carries one |
| Results.MisleadingHandler | internal/application/usecase/process_job.go:228-256 | for each sentinel a handler error for which the result matches both: a final failure that looks like a retry, and a retry that looks like the final failure |
| Results.FailureAgrees | internal/application/usecase/process_job.go:158-265 | what the error of the failure branch matches, against what the branch did |
| Results.FailureEffect | internal/application/usecase/process_job.go:166-212 | what the failure branch does to the row and the list, for every reply |
| UseCaseTheorems.CreateResult | internal/application/usecase/create_job.go:76-99 | a job is returned only after a fresh row was inserted and its ID pushed; no row is overwritten, and no ID is pushed that was not inserted by this call |
| JobEntity.ReachableIffCoherent | internal/domain/job/job.go:48-77 | a job results from some sequence of New, MarkProcessing, MarkSuccess and RecordFailure calls exactly when it satisfies the entity invariant |
| Lifecycle.FourAttempts | internal/domain/job/failure.go:22-67 | whatever is called on a new job, the calls not refused are at most eight, a start and its answer in turn, a success only last; their number and the last of them alone give the status and the retry count; the eighth, if a failure, is the one that makes the job failed, with three retries |
| Lifecycle.AfterTries | internal/domain/job/failure.go:55-66 | a new job after up to four timely attempts, all but the last failed: pending with retry count 1, 2, 3, failed with 3 after the fourth, or a success, in every field |
| Lifecycle.TransitionRefusedIff | internal/domain/job/job.go:239-327 | each transition is refused exactly for a wrong status, a blank reason, or a time that is zero or before the last update, in this order, and the error matches the variable for that and no other |
| Lifecycle.TransitionFields | internal/domain/job/failure.go:30-67 | what an accepted transition makes of any job, even one that no calls lead to, in every field |
| Lifecycle.NewIff | internal/domain/job/job.go:48-77 | New accepts exactly an ID of the grammar, one of three names, a filled object and a time; the job is pending with retry count 0 and max_retries 3 |
| Lifecycle.NewRefusedIff | internal/domain/job/job.go:48-77 | New refuses exactly the rest, and its error matches the variable of the first check that fails and no other |
| Lifecycle.RestoreRefusedIff | internal/domain/job/job.go:82-137 | Restore gives back what passes its checks, and refuses the rest with the error of the first check that fails |
| JobEntity.ApplyAllKeepsCoherent | internal/domain/job/failure.go:30-67 | every sequence of calls, refused ones included, keeps the entity invariant |
| JobEntity.CallsToReach | internal/domain/job/failure.go:22-67 | the entity invariant is not too weak: a sequence of calls for each job that satisfies it |
| JobEntity.MarkFailedCoherentIff | internal/domain/job/job.go:285-314 | MarkFailed keeps the invariant exactly when the retries are spent |
| JobEntity.RestoreKeepsCoherent | internal/domain/job/job.go:82-137 | Restore gives every reachable job back unchanged |
| JobEntity.RestoreAcceptsMore | internal/domain/job/job.go:79-137 | and accepts a success that never started |
| JobEntity.ParseOfName | internal/domain/job/type.go:16-32 | each type and status is stored under its name in the table, spelled out, and the name parses back to it |
| Names.ParseTypeIff | internal/domain/job/type.go:16-32 | a text parses to a type if and only if, trimmed, it spells that type's name letter by letter: small letter, capital, or one of the two other code points whose lower case it is |
| Names.ParseStatusIff | internal/domain/job/status.go:17-33 | the same for the four status names |
| Names.AsciiNameIff | internal/domain/job/type.go:16-23 | an ASCII text spells a name exactly when it is the name in any mixture of capitals and small letters, between tabs, line ends and spaces |
| JobClass.Job.Make | internal/domain/job/job.go:48-77 | returns the job or the error of the specification, and a new coherent object |
| JobClass.Job.MarkProcessing | internal/domain/job/job.go:239-260 | the whole new value, or the refusal and the old value; keeps the invariant |
| JobClass.Job.MarkSuccess | internal/domain/job/job.go:262-283 | the whole new value without the last error, or the refusal and the old value; keeps the invariant |
| JobClass.Job.MarkFailed | internal/domain/job/job.go:285-314 | the whole new value, or the refusal and the old value |
| JobClass.Job.RecordFailure | internal/domain/job/failure.go:30-67 | the whole new value with the outcome, or the refusal and the old value; keeps the invariant |
| Mapper.RoundTrip | internal/adapters/mysql/job_mapper.go:12-77 | mapping a job with a valid ID to a record and back fails exactly when Restore refuses it, and otherwise returns it field by field |
| Mapper.LoadingNormalizes | internal/adapters/mysql/job_mapper.go:43-77 | whatever record loads, storing and loading the result again returns the same |
| Mapper.CoherentRoundTrip | migrations/000001_create_jobs.up.sql:16-25 | every reachable job comes back unchanged, and its record meets the table's constraints |
| Mapper.EveryRowLoads | internal/adapters/mysql/job_repository.go:47-74 | every row of every run meets the constraints, loads as it was, and is a job that calls can produce, up to an updated_at that the database layer has moved forward |
| Mapper.StoredRoundTrip | internal/adapters/mysql/job_mapper.go:12-77 | a coherent job whose updated_at was moved forward in the table comes back as stored, and its record meets the constraints |
| Stores.JobRepository.Create | internal/adapters/mysql/job_repository.go:27-45 | for any job and any table: the new table and the error, for every reply; an existing key is refused and its row kept |
| Stores.JobRepository.GetByID | internal/adapters/mysql/job_repository.go:47-74 | for any table: a new object with what the mapper makes of the row, or the error of the ID, the call, the missing row or the mapper |
| Stores.JobRepository.Update | internal/adapters/mysql/job_repository.go:76-117 | for any job and any table: seven columns of that row and no other, updated_at as the record has it or a later instant of the database layer, and the error for every reply |
| Stores.JobQueue.Enqueue | internal/adapters/redis/job_queue.go:44-66 | the new list and the error, for every reply |
| Stores.JobQueue.Dequeue | internal/adapters/redis/job_queue.go:68-108 | the new list, and the parsed last element or the error, for every reply |
| Stores.Observer.StatusPersisted | internal/application/usecase/process_job.go:119-119 | one more event for this job, none for others |
| Executor.Dispatcher.New | internal/adapters/executor/dispatcher.go:37-78 | in any iteration order: a dispatcher with a copy of the registry exactly when each key is a type, no handler is nil and no type is missing |
| Executor.Dispatcher.Execute | internal/adapters/executor/dispatcher.go:80-107 | the handler's answer, wrapped; every error has a text that RecordFailure accepts |
| Executor.HandleErrorNotBlank | internal/domain/job/failure.go:42-45 | even a blank handler message leaves a recordable reason |
| Ids.IsValidIsGrammar | internal/domain/job/id.go:21-51 | on every byte string, malformed UTF-8 included, the rune-indexed loop accepts the 8-4-4-4-12 grammar and nothing else |
| Utf8.TrimSpaceIff | internal/domain/job/id.go:11-11 | trimming returns exactly the part between the longest runs of Unicode white space at both ends, on every byte string, malformed UTF-8 included |
| Utf8.DecodeRuneIff | internal/domain/job/id.go:27-27 | the rune that a range loop sees at a byte is the code point encoded there, or U+FFFD for one byte where none is |
| Ids.ParseIDNormalizes | internal/domain/job/id.go:10-19 | parsing accepts exactly the strings whose trimmed form is in the grammar, and is idempotent |
| Ids.ParseIDKeepsValid | internal/domain/job/id.go:10-19 | a valid ID parses to itself |
| Uuid.NewID | internal/platform/idgen/uuid.go:19-44 | fills and stamps the array in place; the result is the printed form of the stamped bytes, and the final parse never fails |
| Uuid.DecodePrint | internal/platform/idgen/uuid.go:29-36 | decoding a printed ID gives back its 16 bytes |
| Uuid.PrintDecode | internal/platform/idgen/uuid.go:29-36 | printing what was decoded gives back every lower-case ID |
| Uuid.PrintedIDParses | internal/platform/idgen/uuid.go:38-43 | every printed ID is valid and parses to itself |
| Uuid.PrintAlike | internal/platform/idgen/uuid.go:25-27 | two random inputs give the same ID exactly when they agree outside the six stamped bits |
| Uuid.GeneratorRange | internal/platform/idgen/uuid.go:25-36 | the texts the generator can return are the lower-case version 4 IDs, all of them |
| WorkerLoops.RunDispatcher | internal/adapters/worker/dispatcher.go:42-122 | the loop ends, and the channel is closed once, at the first turn in which the select sees the cancellation, or `Dequeue` fails and the context is over or its error matches ContextCanceled or DeadlineExceeded; all IDs received before that turn are sent, in order, and the one of that turn is dropped; no other error ends it, and until then every received ID is sent |
| WorkerLoops.RunWorker | internal/adapters/worker/processor_worker.go:57-146 | one verdict for each job in order; the worker stops before a job only when the context is over or the channel closed, and after a job only when that failed and the context is over |
| WorkerLoops.VerdictRightIff | internal/adapters/worker/processor_worker.go:92-144 | the verdict on a pending job says what happened to it if and only if a sentinel carried by an error from outside comes with a retry scheduled anyway or, for the second, with a final failure anyway |
| Pool.PoolIsSound | internal/adapters/worker/pool.go:84-119 | in every reachable state: the jobs channel is closed at most once and nobody sends afterwards, error sends do not block and find the channel open, the wait group is never negative, and before the cancellation a blocked send has every worker receiving or executing |
| PoolDelivery.PoolForwards | internal/adapters/worker/dispatcher.go:59-97 | for any number of workers and any interleaving, the IDs that workers began to execute, then the one in the dispatcher's hand, are all that `Dequeue` returned, in order; only after a cancellation may the last one be missing, and then the dispatcher has stopped |
| PoolDelivery.OneAtATime | internal/adapters/worker/processor_worker.go:71-145 | each worker has ended, in order, all it began but the one it is at |
| PoolDelivery.BackForMore | internal/adapters/worker/processor_worker.go:92-144 | in every reachable state a worker whose execution ends goes back to receive, however it ended, unless it failed with the context over, and touches nobody else |
| PoolDelivery.LeavesWhenDone | internal/adapters/worker/processor_worker.go:71-90 | in every reachable state a worker that waits for an ID can leave by itself exactly when the context is over, or the channel closed, and takes only itself off the wait group |
| PoolDelivery.LoopEndsOnlyThen | internal/adapters/worker/dispatcher.go:99-106 | the dispatcher is past its loop only after a cancellation or a context error of `Dequeue`, and after such an error always |
| PoolDelivery.StopsAtOnce | internal/adapters/worker/dispatcher.go:87-122 | in every reachable state, a delay and a blocked send can be ended by the cancellation alone, exactly when there was one |
| PoolDelivery.PoolDelivers | internal/adapters/worker/dispatcher.go:59-97 | for any answers of `Dequeue` that are not the end of the context, errors included, the pool can go on without a cancellation until every returned ID has begun, and asks for more |
| PoolDelivery.SendGoesThrough | internal/adapters/worker/dispatcher.go:87-96 | until the cancellation no send blocks for ever: from every state of the invariant at most an end of an execution is between it and a worker |
| Pool.PoolShutsDown | internal/adapters/worker/pool.go:113-153 | once the end has begun, any interleaving takes at most `Rank` steps, and where none is left Run has returned, all workers are gone, the jobs channel was closed once and no error is reported |
| Pool.StoppingDescends | internal/adapters/worker/dispatcher.go:59-106 | every action after that brings the end closer |
| Pool.StoppingGoesOn | internal/adapters/worker/processor_worker.go:71-145 | until Run has returned some action is possible: no deadlock |
| Pool.StepKeepsInv | internal/adapters/worker/pool.go:84-153 | every action of the goroutines keeps the pool's invariant |
| Pool.NilChannelIsReported | internal/adapters/worker/pool.go:121-145 | with a nil channel Run would report one error for the dispatcher and one for each worker, otherwise none |
| Tracker.OneLoopOwnsTheState | web/src/hooks/useJobTracker.js:13-44 | under every interleaving: isPolling exactly when one unfinished call has the current generation, which is the newest; what is shown is that call's initial job or last answer, and its error |
| Tracker.StaleWritesNothing | web/src/hooks/useJobTracker.js:25-43 | a call of an older generation writes nothing and ends when it next goes on |
| Tracker.StopIsFinal | web/src/hooks/useJobTracker.js:13-16 | from every reachable state, a stop ends the polling and leaves what is shown, and until the next call no answer and no delay that is still to come changes that |
| Tracker.StopSilences | web/src/hooks/useJobTracker.js:25-43 | from any state in which all calls are of older generations, such events change nothing |
| Tracker.FollowsTheJob | web/src/hooks/useJobTracker.js:18-44 | an undisturbed call, begun in any state, shows the initial job, then each job fetched, and asks again until one has the status "success" or "failed" or the API fails, whose error it shows |
| Tracker.JobTracker.StopTracking | web/src/hooks/useJobTracker.js:13-16 | the whole new state of the hook |
| Tracker.JobTracker.TrackJob | web/src/hooks/useJobTracker.js:18-27 | the whole new state when a call of trackJob reaches its first await: a new generation that makes every other call stale |
| Tracker.JobTracker.Resume | web/src/hooks/useJobTracker.js:27-40 | the whole new state when an answer of the API has been handled |
| Tracker.JobTracker.WakeUp | web/src/hooks/useJobTracker.js:42-43 | the whole new state when a delay is over: the call asks again, or ends because it is stale |

## Left out

- HTTP handlers, router, request IDs, React components, configuration, logging and process wiring: thin wrappers around what is modelled.
- The constructors that refuse nil dependencies, and nil entities: the model's values are never nil.
- The handlers' own work: a handler is any choice between nil and an error; the executor's call is in the model, what the handler does to the world is not.
- JSON decoding: a payload carries what the decoder reads in it, and the model says which readings are accepted.
- GORM, MySQL and Redis internals: a map and a sequence. UPDATE writes the record's seven columns; the instant that the database layer may put into updated_at is an argument, later than the record's; an earlier one is not modelled, nor is rounding of instants to microseconds or rewriting of the JSON text by the database.
- Duplicate delivery by client-side retries of a push or by a replay after a restart of the list server: excluded by the assumptions above.
- A pop reply that does not have two parts: one more error after which the element is lost, like the lost answer that is modelled.
- Observer construction and panics inside an observer: an observer call always returns.
- Texts of error messages, except that the executor's are never blank and that the recorded reason is the trimmed text of the failure.
- Lower-casing of type and status names sends only the runes that can become ASCII to their images; the others are kept, which no comparison with a name can tell apart.
- Real time: delays and timeouts appear only as the events that end them.
- An API answer without a status field, in the polling hook: only jobs with a status and errors are modelled.
- WorkerLoops.RunDispatcher: takes a finite script of what each turn meets, since the loop has no end of its own; interleaving with the workers is in `Pool` and `Protocol`.
- WorkerLoops.RunWorker: takes a finite script of what each receive meets, for the same reason.
- Pool.PoolShutsDown: speaks of values in a step system, not of objects; the goroutines, channels and the wait group are its state.
- Clocks.ClockIsSafe: is for runs in which the database layer writes updated_at as the record has it; where it puts instants of its own there, a row can go back, and `Clocks.StepTakesBackIff` says when.
- Delivery.DeliveredInOrder: demands a single dispatcher, which is what one pool starts, and that no pop's answer is lost, since such an ID reaches nobody; `HandedInOrder` is the statement without these.
- JobClass.Job.MarkFailed: takes no part in the whole-run theorems, because no use case calls it.
- UseCases.ProcessJob.Execute: expects a registry that holds every type, which the registry's constructor guarantees.
- UseCaseTheorems.ExecuteIsItsScript: compares the use case with its steps in a row; with others in between, `Interference.ExecuteUnderInterference` compares what concerns the job itself.
- UseCaseTheorems.CreateIsItsScript: is for an API call whose steps are in a row; among others, a second call with the same generated ID may insert first.
- Service.LifeOfAJob: is for one job alone in the list, calls that succeed and a clock that does not run backwards; `Outcomes.CallEffect` is for all answers, and `Interference.ExecuteUnderInterference` for a job among others.
