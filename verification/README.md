# django-lambda-tasks, modelled and proved in Dafny

django-lambda-tasks runs background tasks on AWS Lambda and AWS Batch: a task is enqueued as an
SQS message, delivered at least once, executed inside a lock, a transaction and a pair of timeouts,
and its outcome is kept in a `TaskRecord`. This project models that machinery and proves what it
guarantees, and exactly when.

`dafny verify dfyconfig.toml` checks everything.

## The parts

**The execution protocol.** `Protocol` is a labelled step system with one step for each point at
which `execute_immediately` touches something shared: `get_or_create`, taking the lock, entering and
leaving the task body, submitting a Batch job, each commit callback, leaving the lock, saving the
outcome, sending the retry. Any number of workers take these steps in any order; messages are delivered as often as the
queue likes; workers crash anywhere; store operations raise; cleanup deletes records; time passes.
A label fixes everything the environment chose, so a run is a list of labels.
`Invariants` proves what every step keeps. On it rest

* `Guarantees`: a body is entered at most once per creation of its record, and creations are
  counted exactly by deletions; what may happen at any time, and that no attempt gets stuck;
* `History`: every field of a row is told by the events of the run that led to it;
* `Retries`: chains of retries are bounded paths, and an attempt takes effect completely or not
  at all, once per chain, as long as nothing raises after a commit and the chain's records are kept;
* `Chains`: how long they get when records are deleted, and a Batch task on its way through a
  carrier message and a job;
* `Locks`, `Overlap` and `Deadlines`: leases exclude each other, and as long as its bodies keep to
  their hard deadlines, two bodies of a singleton can overlap if and only if the alarm was armed
  later than the lock was taken;
* `Records` and `Finality`: the life of a row, exactly when it can still change, and that a terminal
  row does not;
* `Witnesses`: concrete runs showing that the hypotheses of these results are needed.

**The executor as written.** `Executor.Process` follows the code as methods over mutable stores, in
the order of the source. Between any two operations `Interfere` stands for the other workers:
callers know of it only that it takes legal steps of the protocol that are not this attempt's own.
`ExecuteImmediately` is proved to take only steps of the protocol whatever happens in between, and,
when it runs undisturbed, to do exactly what the big-step functions of `Sequential` say.
`Sequential` compares eager execution (retries nested in each other) with draining the queue.
`Handler` is the batch loop with its partial-failure report, and `cleanup_task_records`; `Entry` puts
the cold start before it, for both entry points.

**Timeouts.** `Timeouts` models the single alarm and signal handler of a process, the
`TimeoutContext` objects that save and restore them, and programs that nest contexts, raise and
catch. The objects are proved against a function over values, and the laws of nesting about that
function.

**Cold start.** `References` has the colon-separated references with printers, split and join;
`Secrets` what variables refer to and how a resolution of all of them goes; `ColdStart.Container` the
two loaders, the secret cache and the sentinels, over an immutable Secrets Manager; `Restarts` what
any sequence of attempts comes to.

**Routing.** `Settings` validates the queues and resolves timeouts, `Errors` has the exception
classes and the tests applied to them, `Decorators` the checks a task passes when it is decorated
and when it is executed, and `Routing` says where an enqueued task goes, with the
second hop of Batch tasks.

## What the code does that its documentation does not say

The model follows the code.

* Statuses are SUCCEEDED and RETRIED (lambda_tasks/models.py:42-46), not SUCCESS and RETRYING.
* Exceeding the retry limit raises out of the executor (lambda_tasks/models.py:201), so it is in the
  failures the handler reports and fails a Batch job, although a record was written. Redelivery of
  the message then finds the record and is acknowledged.
* A singleton body stopped by its hard timeout outlives its lease if and only if the alarm was armed
  after the lock was taken (`Locks.HardTimeoutIsLostIffLate`, with a run in
  `Witnesses.LateHardTimeoutIsLost`). Leaving the lock then raises `LockError`, so the record becomes
  RETRIED, FAILED with the limit exceeded, or an ignored SUCCEEDED instead of the plain FAILED the
  documentation promises (`Locks.LateHardTimeoutIsALockError`). If the lock store itself raises
  something else at that moment, the record says that.
* The transaction commits before the lock is left and before commit callbacks run, so an attempt
  recorded RETRIED may have taken effect (`Witnesses.LateReleaseRetriesACommit`).
* Cleanup deletes records of running attempts too, and such an attempt may later overwrite the row of
  another (`Witnesses.StaleSaveOverwrites`).
* A secret resolution that fails part-way leaves targets set, and every later cold start of the
  container fails on the conflict check (`Restarts.PartWayNeverRecovers`, with inputs in
  `Restarts.PartWayInput`).
* The environment loader has no cache, so an environment secret it cannot set completely is fetched
  and decoded by every attempt (`Restarts.EnvironmentFetchedAgainIff`, `Restarts.EnvironmentInput`).
* A `TimeoutContext` entered inside another suspends it: its hard limit is then no bound on its
  duration (`Timeouts.NestingOutlastsTheLimit`).
* A missing field of a fetched secret raises `KeyError` rather than `ValueError`
  (lambda_tasks/secret_loader.py:194).

## Modelling decisions

* A lock has expired when the clock is past its expiry. Releasing it raises `LockError` unless the
  caller still holds it. Saving a row that is gone raises `DatabaseError`.
* Message ids are natural numbers drawn once; `root` and `sender` of a dispatch, the phases of an
  attempt and the multiset of deleted records are history, not stored by the system.
* A body's outcome, the errors of each store operation, and the retry jitter (1 to 5) are inputs.
* A traceback is the class of the error it reports. A row's result is an integer.
* In `Sequential.NestedEqualsDrained` the clock stands still, so eager and queued execution agree on
  times as well; in `Sequential.NestedEqualsDrainedLater` it moves on between deliveries.
* The order in which an environment lists its variables is an input.
* A carrier, the message of `submit_batch_job`, submits its job in its body: its database effects are
  rolled back by an error, the job is not.
* Where it matters, the exception hierarchy is one in which LockError is an Exception.

## Model

| member | source | states |
|---|---|---|
| Errors.LockAndRetryTestsExclusive | lambda_tasks/decorators.py:282-296 | for every exception hierarchy: no error passes both the lock test and `retry_on`, whatever accepted singleton declaration, if and only if every ancestor of a kind of LockError is related to LockError |
| Errors.KindsWithOneParentAreLinear | lambda_tasks/decorators.py:282-296 | the tests exclude each other for a LockError with any number of parents, such as the one Redis declares, if each further kind of it is derived from one kind only |
| Errors.RedisIsLikeThat | lambda_tasks/decorators.py:282-296 | the classes Redis declares are such: a LockError under two unrelated classes, with a kind of its own |
| Errors.TwoParentsMeetBothTests | lambda_tasks/models.py:182-189 | with multiple inheritance an accepted declaration exists whose error passes both |
| Tasks.OrderIrrelevantIffLinear | lambda_tasks/models.py:181-230 | every outcome of every accepted wrapper is judged alike whichever test comes first, if and only if the kinds of LockError bring in no class unrelated to it |
| Tasks.VerdictByCause | lambda_tasks/models.py:181-241 | for each verdict the exact cause: uncaught, contention that is ignored, retriable below or at the limit, or neither |
| Tasks.ConcludedShows | lambda_tasks/models.py:181-252 | the row saved, by the cause of its outcome and not by the verdict: SUCCEEDED with the value, or with the traceback of contention that is ignored; RETRIED for a retriable error below the limit; FAILED for every other; nothing but the named fields changes |
| Tasks.HardTimeout | lambda_tasks/decorators.py:88-133 | the lease and hard timeout of a resolvable task is more than 1 and at most 3600 seconds |
| Settings.ParsingReadsTheSetting | lambda_tasks/settings.py:26-39 | a dict is read as an SQS queue with its `queue_url`, or as a Batch queue with its two ARNs, each under its own name, if and only if it has just these keys with texts; anything else is refused by name |
| Settings.ReadQueues | lambda_tasks/settings.py:43-66 | queue settings are read if and only if every entry is a dict of one of the two kinds and `default` one for SQS; every queue then has what its own dict says; for each error, when it is raised and what it names |
| Settings.ResolvedTimeouts | lambda_tasks/decorators.py:88-133 | for a decorated task, resolution succeeds if and only if 0 < soft < hard <= the maximum of its queue, its own limits taken before those of the settings, and then yields those values; for each error exactly when it is raised |
| Decorators.Decorate | lambda_tasks/decorators.py:235-297 | the checks made on decoration: which limits, delay and `retry_on` are accepted, if and only if, in terms of the classes' ancestors; a plain task may list kinds of LockError, a singleton nothing related to it; errors name the culprit |
| Decorators.ResolvableIff | lambda_tasks/decorators.py:88-133 | a task can be executed if and only if it was decorated, its queue is configured, and its limits or those of the settings are in order and within the queue's; its lock is held for the hard one |
| Protocol.MoveOf | lambda_tasks/models.py:116-259 | which stores each step may change: only `get_or_create` adds records, only saving changes a row, only publishing and retrying send, only entering and leaving the lock touch locks |
| Invariants.StepKeepsInv | lambda_tasks/models.py:109-259 | every step of every worker, of the queue, of cleanup and of time keeps the whole invariant |
| Invariants.RunKeepsInv | lambda_tasks/models.py:109-259 | so does every run |
| Invariants.MoveKeepsAttempt | lambda_tasks/models.py:155-256 | an attempt's history is consistent with where it is: an outcome with an error has committed only if something raised after the commit |
| Invariants.MoveKeepsOwned | lambda_tasks/models.py:136-153 | each record belongs to the one attempt that created it and was not yet cleaned up |
| Invariants.MoveKeepsCounted | lambda_tasks/models.py:136-153 | creations of an id equal its deletions, plus one if its record is present |
| Invariants.MoveKeepsLeased | lambda_tasks/models.py:159-180 | an unexpired lease of an attempt inside the lock is the one in the lock table |
| Invariants.MoveKeepsLineage | lambda_tasks/models.py:214-229 | every message is a first one or the one retry of its sender, with the same work and a higher counter |
| Invariants.MoveKeepsPublished | lambda_tasks/models.py:269-271 | the messages an attempt published are its body's enqueues, in order, and the job it submitted carries what its message asked for |
| Invariants.MoveKeepsRows | lambda_tasks/models.py:192-252 | rows stay well-formed: end times, tracebacks and the message they carry |
| Invariants.CleanupKeepsInv | lambda_tasks/tasks.py:14-28 | deleting any record at any time keeps the invariant |
| Guarantees.RunCountsEvents | lambda_tasks/models.py:136-180 | along any run, attempts that created or started are exactly the creation and entry events |
| Guarantees.BodyRunsAtMostOncePerRecord | lambda_tasks/models.py:136-153 | in every run: creations of an id equal deletions plus presence, body entries never exceed creations, and without deletion there is at most one |
| Guarantees.EnvironmentIsFree | lambda_tasks/models.py:109-153 | in every reachable state: time may pass, any message may come under a new id, any be delivered again, any record be deleted |
| Guarantees.WorkersMayCrash | lambda_tasks/models.py:109-259 | an attempt may end anywhere, leaving everything else as it is |
| Guarantees.AnythingMayRaise | lambda_tasks/models.py:136-259 | whatever an attempt does next may raise any error |
| Guarantees.AttemptsCanGoOn | lambda_tasks/models.py:109-259 | in every reachable state, an attempt that is not over has a step to take with nothing raising |
| Retries.CounterIdentifies | lambda_tasks/models.py:204-229 | while no record of a chain of retries is deleted, its messages have different counters |
| Retries.EarlierWasRetried | lambda_tasks/models.py:204-229 | while no record of a chain is deleted, every message of it but the last has an attempt recorded RETRIED |
| Retries.ChainIsBounded | lambda_tasks/models.py:189-229 | while none of their records is deleted, a first message with counter n0 leads to at most max(0, MAX_RETRIES - n0) + 1 messages, however often deliveries repeat and workers crash |
| Retries.RetryRepeatsTheWork | lambda_tasks/models.py:214-229 | a retry has the task and arguments of the first message, the wrapper's queue, a counter within the limit and a delay of 1 to 5 seconds above the retry delay, cut off at 900 |
| Retries.RetriesAtMostCreations | lambda_tasks/models.py:204-229 | with cleanup, an id is retried at most as often as its record was created |
| Retries.LateIffRaised | lambda_tasks/models.py:174-181 | along any run: an attempt is marked as raising after its commit if and only if a callback of it raised, or leaving the lock did although the body had returned |
| Retries.AllOrNothing | lambda_tasks/models.py:174-256 | in every run: a recorded success committed, sent every enqueue in order, and nothing raised after the commit; any other recorded ending committed if and only if something did, and otherwise sent nothing |
| Retries.OneEffectPerChain | lambda_tasks/models.py:174-256 | in every run: of the attempts of a retry chain none of whose records is deleted, at most one commits whose transaction nothing raises after, whatever happens to other tasks and attempts |
| Retries.ChainBreaksIffRetryLost | lambda_tasks/models.py:204-229 | a RETRIED attempt that is over has no successor if and only if sending it raised or its worker crashed before sending it |
| Chains.ChainIsBoundedByDeletions | lambda_tasks/models.py:189-229 | in every reachable state, cleanup included: a message leads to at most (retries left + 1) times (1 + deletions of the records of its chain) messages |
| Chains.JobsCarryTheMessage | lambda_tasks/tasks.py:40-78 | every job an execution of a carrier submitted carries, unchanged, the message the carrier was sent with |
| Chains.CommittedCarrierSubmitted | lambda_tasks/tasks.py:40-78 | an execution of a carrier that took effect submitted a job |
| Chains.AtMostOneJob | lambda_tasks/tasks.py:40-78 | all executions of a carrier together submit at most one job while its record is not deleted |
| Chains.BatchTaskRunsAtMostOnce | lambda_tasks/tasks.py:40-78 | in every reachable state: through a carrier and the job it submitted, a Batch task's body is entered at most once, with the message the carrier was sent with, while neither record is deleted |
| Locks.UnexpiredLeasesExclude | lambda_tasks/models.py:159-180 | two attempts inside the same singleton's lock never both have time left on their leases |
| Locks.ReleaseRaisesIffExpired | lambda_tasks/models.py:174-181 | leaving the lock raises LockError if and only if the lease has run out, replacing what the block raised or returned |
| Locks.HardTimeoutIsLostIffLate | lambda_tasks/models.py:174-181 | at the hard deadline, leaving the lock replaces the hard timeout's error by a LockError if and only if the alarm was armed after the lock was taken |
| Locks.LateHardTimeoutIsALockError | lambda_tasks/models.py:174-230 | however long the rollback takes, a singleton body stopped by a hard alarm armed after its lock was taken ends as lock contention, unless releasing raises otherwise |
| Locks.PromptBodiesNeverOverlap | lambda_tasks/models.py:159-180 | in every reachable state: two bodies of a singleton that were armed at the moment of acquisition and have not passed their own hard deadlines are one |
| Deadlines.ProgramsKeepDeadlines | lambda_tasks/timeouts.py:47-66 | along any run in which time waits for running programs that nest no context and never catch the hard signal, no body of the tasks concerned passes its hard deadline |
| Overlap.PromptStaysAlone | lambda_tasks/models.py:159-180 | while a body whose lease covers its deadline runs and keeps to that deadline, nobody else gets inside its lock |
| Overlap.LateLetsIn | lambda_tasks/timeouts.py:58-66 | a body whose lease ends before its deadline can be joined by another, whatever else is running and whether or not anybody waits |
| Overlap.OverlapIffLate | lambda_tasks/models.py:159-180 | in every reachable state, for any set of tasks with this one in it: among the continuations in which their bodies keep to their deadlines there is one with another body of the singleton beside this one, if and only if they do so now and this one's lease ends before its hard deadline |
| Overlap.OwnOverlapIffLate | lambda_tasks/models.py:159-180 | asking it of the bodies of the singleton alone: if and only if this one's lease ends before its hard deadline |
| Records.RowsAreWellFormed | lambda_tasks/models.py:192-252 | end time exactly on terminal rows and never before the start; traceback on every FAILED and RETRIED row; the row carries the message sent under its id |
| History.RowsTellTheirLife | lambda_tasks/models.py:136-252 | in every run, whoever saves and whatever is deleted: a row is there exactly if it was created since it was last deleted; it starts at the clock of the step that created it, is RUNNING and empty until something is saved, and then shows, by cause, the last outcome saved, at the clock of that step, with the last value and the last error |
| Records.SaveFindsOwnRowIffNotCleaned | lambda_tasks/tasks.py:20-28 | an attempt about to save finds the row it created if and only if cleanup has not deleted it |
| Finality.SettledRowsAreFinal | lambda_tasks/models.py:192-252 | once no attempt that created the record can save any more, the row stays as it is until deleted, whatever happens to other records |
| Finality.RowCanChangeIffUnsettled | lambda_tasks/models.py:192-252 | in every reachable state: some continuation that does not delete the row changes it, if and only if an attempt that created a record of its id can still save a verdict |
| Finality.TerminalRowsAreFinal | lambda_tasks/models.py:192-252 | in every run in which cleanup has left unfinished attempts at a message alone: its row, once terminal, stays as it is until deleted |
| Finality.OneTerminalStatus | lambda_tasks/models.py:192-252 | in every run that never deletes it, a row has at most one terminal status and does not change after it |
| Finality.TidyRowCanChangeIff | lambda_tasks/models.py:192-252 | there, some continuation changes the row if and only if the one attempt that created it can still save, and then it is RUNNING |
| Records.ResultOrTraceback | lambda_tasks/models.py:192-252 | if cleanup deletes records of this id only after their attempts: FAILED and RETRIED rows have a traceback and never a result, and exactly clean successes have a result |
| Witnesses.LateArmingAllowsOverlap | lambda_tasks/models.py:175-180 | a run with two bodies of one singleton side by side, one second between lock and alarm |
| Witnesses.LateHardTimeoutIsLost | lambda_tasks/models.py:174-181 | a run in which a body stopped at its hard deadline leaves the lock with a LockError |
| Witnesses.LateReleaseRetriesACommit | lambda_tasks/models.py:174-229 | a run in which a committed attempt is recorded RETRIED |
| Witnesses.StaleSaveOverwrites | lambda_tasks/models.py:230-236 | a run in which a cleaned-up attempt turns another's SUCCEEDED row into FAILED with a result |
| Sequential.Attempts | lambda_tasks/models.py:189-229 | an execution leads to at least one and at most MAX_RETRIES - n_retries + 1 attempts |
| Sequential.NestedEqualsDrained | lambda_tasks/models.py:289-315 | nested eager retries and draining the queue leave the same records, ids and locks, and an empty queue, after the same number of attempts |
| Sequential.NestedEqualsDrainedLater | lambda_tasks/models.py:214-229 | however long the queue takes over each retry: if nobody else holds the task's lock, or somebody does all the while, draining leaves the same rows and jobs as nested execution up to times, and an empty queue |
| Sequential.AttemptsStopAtFirstNonRetry | lambda_tasks/models.py:189-229 | attempts go on exactly to the first outcome not judged a retry, whose ending the caller sees |
| Sequential.NestedRows | lambda_tasks/models.py:204-229 | attempt i leaves its own row with counter n + i; no other row changes |
| Sequential.NestedRowsShow | lambda_tasks/models.py:181-252 | each of these rows starts now and shows its attempt's outcome by cause; that of an error no handler catches stays RUNNING |
| Sequential.NestedJobs | lambda_tasks/tasks.py:40-78 | a carrier whose last attempt returns submitted one job, under the id after those of its retries, and any other execution none |
| Sequential.NestedRetriesThenStops | lambda_tasks/models.py:189-229 | every row but the last is RETRIED, the last is not, and an error reaches the caller exactly when the last attempt had used up its retries; its row is then FAILED |
| Executor.Process.GetOrCreate | lambda_tasks/models.py:136-153 | a new row if and only if none existed and the lookup did not raise: RUNNING, with the message, started now, and nothing else; the protocol step of that name |
| Executor.Process.Acquire | lambda_tasks/models.py:159-175 | a free or expired lock is taken until now + hard timeout; a held one raises LockError without waiting |
| Executor.Process.Release | lambda_tasks/models.py:174-181 | a lock still held is given back and the block's outcome kept; otherwise LockError replaces it |
| Executor.Process.RunCallbacks | lambda_tasks/models.py:269-271 | under any interference the callbacks before the first that raises send their messages, in order, and its error or the body's value is on its way out |
| Executor.Process.Publish | lambda_tasks/models.py:310-315 | sending gives the message a fresh id and puts it last in the queue |
| Executor.Process.SubmitJob | lambda_tasks/tasks.py:63-78 | the job gets a fresh id and carries the message asked for; the protocol step of that name |
| Executor.Process.RunBody | lambda_tasks/tasks.py:40-78 | under any interference a carrier's body that returns has submitted one job, and one that raises has or has not; no other body submits any |
| Executor.Process.Transaction | lambda_tasks/models.py:176-180 | under any interference what leaves the transaction is the body's value, unless the beginning, the body or a callback raised, and a job was submitted exactly if the body of a carrier came to that |
| Executor.Process.Guard | lambda_tasks/models.py:174-180 | under any interference the outcome is the transaction's, or for a singleton an error of its lock; undisturbed, exactly which, and the lock is free again |
| Executor.Process.Save | lambda_tasks/models.py:192-252 | the update of the named fields of the row equals concluding it: it shows the outcome by cause, ended now; a missing row raises |
| Executor.Process.ConcludeAttempt | lambda_tasks/models.py:181-256 | the verdict of the branch taken; unless the error escapes, a row that shows the outcome by cause, with the literal status of the verdict; and what is raised otherwise |
| Executor.Process.Admit | lambda_tasks/models.py:122-153 | under any interference: an unresolvable task and a failing lookup raise what they raise, an existing record is skipped, and every other delivery gets a row of its own; undisturbed, exactly which, with the row that starts now |
| Executor.Process.Perform | lambda_tasks/models.py:155-256 | the guarded block and its conclusion: the verdict is recorded, or the error passed on |
| Executor.Process.Attempt | lambda_tasks/models.py:116-256 | a whole delivery short of its retry: over, it ends as its attempt did, and raises only what its settings, the lookup, the save, an uncaught error or the limit account for; otherwise it is recorded RETRIED below the limit; undisturbed, which of the two is the sequential model's |
| Executor.Process.FollowUp | lambda_tasks/models.py:214-229 | the retry is sent, or in eager mode run to its own end; the recursion ends because the counter approaches the limit |
| Executor.Process.Requeue | lambda_tasks/models.py:214-229 | the retry task of the protocol is sent under a fresh id, or the send raises and nothing is sent |
| Executor.Process.ExecuteImmediately | lambda_tasks/models.py:109-259 | under any interference it takes only protocol steps, brings one new attempt to its end, ends as the attempt did, raises only what that accounts for, saves only a verdict its outcome justifies with a row that shows that outcome by cause, ended now, and clears the logger's message id; undisturbed it equals the sequential model, eager or queued |
| Executor.CleanMeansReturned | lambda_tasks/models.py:241-247 | a clean verdict means that the body returned and neither the beginning nor a callback raised |
| Executor.OthersLeaveAttempt | lambda_tasks/models.py:109-259 | no run of other workers changes an attempt, except that cleanup may orphan it |
| Handler.ReportIsExact | lambda_tasks/handler.py:137-152 | for every batch, the failures are in order exactly the ids that raised, and the final store is the fold of the single deliveries |
| Handler.RedeliveryIsAcknowledged | lambda_tasks/models.py:149-153 | a batch of recorded, still resolvable messages changes nothing and reports nothing |
| Handler.SecondDeliveryDoesNothing | lambda_tasks/handler.py:137-152 | whatever a batch reported, delivering its processable records again changes nothing and is acknowledged, retry limits exceeded included |
| Handler.BatchLeavesRecords | lambda_tasks/handler.py:137-152 | after a batch every processable record of it has its row, and no row was removed |
| Handler.HandleOne | lambda_tasks/handler.py:139-150 | a lost connection raises its error and an invalid body a ValidationError; any other record gets one attempt carried to its end, and raises only what that accounts for |
| Handler.Handle | lambda_tasks/handler.py:135-152 | under any interference each record that is come to and parses gets an attempt of its own carried to its end, and the report lists exactly the records that raised, all of them Exceptions, those with a lost connection or an invalid body among them; undisturbed it equals the batch fold |
| Handler.CleanupTaskRecords | lambda_tasks/tasks.py:14-28 | a record stays if and only if it started at the cutoff or later, whatever its status, unchanged, and the number of the others is returned |
| Entry.Invoke | lambda_tasks/handler.py:126-152 | an invocation is one attempt at the cold start and, only if that succeeds, the batch loop; in a container left stuck it fails, leaves it stuck and processes no record |
| Entry.RunBatchJob | lambda_tasks/handler.py:155-184 | exit code 0 exactly when there was a message, the cold start succeeded and processing it did not raise; without a message nothing is done at all |
| Timeouts.DeadlineSlides | lambda_tasks/timeouts.py:58-78 | for any program: the handler is the one it found, and while it receives no signal its alarm moves by exactly the time spent in nested contexts |
| Timeouts.ContextRestores | lambda_tasks/timeouts.py:58-78 | however it is left, a context leaves the handler as found and the alarm with the time it had at entry, or none |
| Timeouts.EvalKeepsOnTime | lambda_tasks/timeouts.py:47-66 | inside a context the pending alarm is always the next of soft and hard, due at the right own time |
| Timeouts.EachContextDeliversOnTime | lambda_tasks/timeouts.py:47-66 | each context of any nest delivers at most the soft signal at its own time soft, then at most the hard signal at its own time hard |
| Timeouts.ContextIsASchedule | lambda_tasks/timeouts.py:40-78 | for any flat code that raises and catches as it likes, a context comes to two interrupts: SoftLimit raised in the code at its time soft, HardLimit at its time hard; it is left as if these were raised there, after the time it took |
| Timeouts.CompletedMeansDone | lambda_tasks/timeouts.py:47-56 | work under any alarm completes if and only if it is over before the alarm is due, and is then done to the end; otherwise it is left at that moment by the error of the one signal that came |
| Timeouts.SignalsAreRaised | lambda_tasks/timeouts.py:47-56 | code that catches nothing, however its contexts nest, is left by the error of the first signal that comes to any of them, and no other comes |
| Timeouts.SoftLimitLeavesTimeToCleanUp | lambda_tasks/timeouts.py:24-56 | work stopped by the soft limit that catches it and cleans up completes at soft + cleanup if that is before the hard limit, and is stopped at the hard limit otherwise |
| Timeouts.InnermostContextByTheClock | lambda_tasks/timeouts.py:47-66 | without inner contexts these are entry + soft and entry + hard |
| Timeouts.UnorderedLimitsAreLate | lambda_tasks/timeouts.py:51-52 | for hard <= soft the one-second bound acts: the hard signal then comes at soft + 1 |
| Timeouts.HardLimitIsABound | lambda_tasks/timeouts.py:54-56 | a body that never catches the hard signal spends at most hard seconds of its own time, and of the clock without inner contexts |
| Timeouts.ResolvedLimitsHold | lambda_tasks/decorators.py:88-133 | with resolved timeouts the signals come at those times and the body ends within the queue's maximum |
| Timeouts.NestingOutlastsTheLimit | lambda_tasks/timeouts.py:58-66 | a nested context lets a body run for any time without a signal of its own |
| Timeouts.EagerIgnoresContexts | lambda_tasks/timeouts.py:58-78 | in eager mode a program behaves as if its contexts were not there |
| Timeouts.Process.Sleep | lambda_tasks/timeouts.py:47-56 | the alarm interrupts at its deadline and runs the installed handler, as in the value model |
| Timeouts.TimeoutContext.Handle | lambda_tasks/timeouts.py:47-56 | first the soft error and a second alarm, then the hard error and none |
| Timeouts.TimeoutContext.Enter | lambda_tasks/timeouts.py:58-66 | installs its handler, arms the soft limit, keeps what it found |
| Timeouts.TimeoutContext.Leave | lambda_tasks/timeouts.py:68-78 | puts back what it kept, cancelling its own alarm |
| Timeouts.Execute | lambda_tasks/timeouts.py:24-78 | programs run with context objects equal the value model, with the same handler object installed afterwards |
| References.JoinUndoesSplit | lambda_tasks/secret_loader.py:75-84 | joining what was split is the identity on all strings |
| References.SplitUndoesJoin | lambda_tasks/secret_loader.py:75-84 | splitting what was joined is the identity on all lists of colon-free parts |
| References.PartsCountColons | lambda_tasks/secret_loader.py:75-77 | a string has one part more than colons |
| References.ParsingInvertsPrinting | lambda_tasks/secret_loader.py:56-110 | a value parses to a reference if and only if the reference has a seven-part ARN and non-empty colon-free fields and prints as that value |
| References.PrintingIsInjective | lambda_tasks/secret_loader.py:56-110 | well-formed references that print alike are equal |
| References.ParsingInvertsPrintingForEnvironment | lambda_tasks/environment_loader.py:73-107 | the same for the reference to an environment secret |
| ColdStart.Container.FetchSecret | lambda_tasks/secret_loader.py:113-138 | cached secrets cost no call; others one, cached exactly when it brought a decodable secret |
| ColdStart.Container.ScanReferences | lambda_tasks/secret_loader.py:161-167 | every prefixed variable is parsed, and its target listed once; an error names a malformed one |
| ColdStart.Container.LoadAll | lambda_tasks/secret_loader.py:192-198 | the loop equals the fold of single visits in the order listed, ending with the first that raises: variables, cache and calls are exactly those of the targets visited |
| ColdStart.Container.LoadOne | lambda_tasks/secret_loader.py:192-196 | one visit: on success the target has the text the store holds; each failure has its cause |
| ColdStart.Container.ResolveSecretsIntoEnv | lambda_tasks/secret_loader.py:141-200 | malformed references and conflicts change nothing and call nothing; otherwise it does exactly what the loop does in the order listed; it succeeds if and only if nothing is in its way, spelled out in terms of the store, then brings for each target the text the store holds under the field its reference names, and makes one call for each distinct secret not cached |
| Secrets.WorkFinishes | lambda_tasks/secret_loader.py:169-198 | for every order: it succeeds if and only if every value is obtainable, the same way in each order, with one call for each distinct secret not cached; when it fails, some targets are set if and only if the first in order could be |
| Secrets.LoadsIffNothingInTheWay | lambda_tasks/secret_loader.py:169-198 | for every order: the loader succeeds if and only if a client is there or not needed, and each secret can be had, is an object, and has under the name asked for a text that can be set under the target's; then each target has that text, and no other variable changes |
| Secrets.LoadProgresses | lambda_tasks/secret_loader.py:192-198 | from any point of the loop: it ends with all targets set, or at one that was hopeless from the start, and passes the next target if and only if that one can be resolved |
| Secrets.ConflictsAreSetTwice | lambda_tasks/secret_loader.py:172-179 | a conflict is a variable that is set and has a reference as well |
| Restarts.CallsAreFresh | lambda_tasks/secret_loader.py:181-193 | whether or not it succeeds, a resolution asks for no secret twice, for none that is cached and for none no reference names; a success for each that was not cached |
| Secrets.FinishedBrings | lambda_tasks/secret_loader.py:181-198 | a resolution through the cache equals looking every reference up in the store: each target has the text of the field its reference names |
| Secrets.PartWayIsStuckIff | lambda_tasks/secret_loader.py:172-196 | a resolution that fails leaves an environment the next call refuses, if and only if the first target it visited could be resolved |
| Restarts.SticksInOrderIff | lambda_tasks/secret_loader.py:172-196 | for each order: the loader fails and leaves the container stuck, if and only if the loop is reached, the first reference can be resolved and not all can |
| Restarts.StickingIsPossibleIff | lambda_tasks/secret_loader.py:172-196 | before the call: there is an order in which it does, if and only if the loop is reached, some reference can be resolved and some cannot |
| Restarts.PartWayInput | lambda_tasks/secret_loader.py:192-198 | a family of inputs: with one of two fields missing from a secret, the container is left stuck if and only if the loop begins with the one that is there |
| Restarts.NamesExist | lambda_tasks/secret_loader.py:75-110 | there are names and a reference for that family |
| Restarts.BecomesStuckIff | lambda_tasks/handler.py:88-123 | an attempt leaves the container stuck if and only if variables were in conflict or the secret loader failed after setting a target |
| Restarts.PartWayNeverRecovers | lambda_tasks/handler.py:88-132 | after an attempt that failed part-way every later attempt fails, and fetches no secret |
| Restarts.OnceUpAlwaysUp | lambda_tasks/handler.py:100-123 | after an attempt that succeeded every later one succeeds and changes nothing |
| Restarts.SuccessBrings | lambda_tasks/handler.py:88-123 | every success, first or later, leaves the environment plus what was missing of the environment secret plus the values of all references of the result |
| Restarts.SetupIsRun | lambda_tasks/handler.py:120-123 | an attempt whose loaders succeed fails if and only if Django is to be set up, since the environment names a settings module and the apps are not ready, and that fails; after a success the apps are ready exactly if they were or a module is named |
| Restarts.ReadyIffNamed | lambda_tasks/handler.py:88-123 | over any run: in a container that has come up, the apps are ready if and only if its environment names a settings module, and in no other |
| Restarts.FinalEnvironment | lambda_tasks/handler.py:88-132 | the environment after the first success of any run of attempts: the initial one, the contents the environment loader brought, and in one attempt the value of every reference there was |
| ColdStart.Container.ResolveEnvironment | lambda_tasks/environment_loader.py:42-70 | the whole content overrides the environment, or nothing or a part of it on an error; every call is accounted for |
| Restarts.EnvironmentLoadsIff | lambda_tasks/environment_loader.py:42-70 | the environment loader succeeds if and only if it has nothing to do or its secret can be fetched, is a flat object of texts and can be set completely; then all of it is set, and variables it does not name are unchanged in any case |
| Secrets.ValidateAndParse | lambda_tasks/environment_loader.py:120-148 | accepted if and only if a JSON object of strings without an empty name, and then all of it; for each error exactly when it is raised and which names it lists |
| Restarts.EnvironmentFetchedAgainIff | lambda_tasks/environment_loader.py:56-70 | an environment secret that was fetched and decoded is fetched again by the next attempt, if and only if its content was refused or names a variable that cannot be set, and the variable still refers to it |
| Restarts.EnvironmentInput | lambda_tasks/environment_loader.py:62-70 | containers that fetch and decode an environment secret twice: any with a name such as `A=B` in it |
| Restarts.FetchesOverARun | lambda_tasks/handler.py:88-132 | over any run of attempts of a container: each referenced secret is fetched and decoded at most once, and an environment secret that can be set completely by the last environment call only |
| ColdStart.Container.PerformColdStart | lambda_tasks/handler.py:88-123 | one attempt takes exactly one step of the memory: both loaders in order, set-up if needed, and the sentinel only at the end |
| ColdStart.Invocations | lambda_tasks/handler.py:88-132 | any sequence of attempts is a run of such steps, with every call accounted for in every memory of it |
| Routing.BuiltTasksArrive | lambda_tasks/decorators.py:140-158 | a task that is built for a configured queue is never refused by routing, and what arrives where the setting of that queue says is the call it was built from |
| Routing.SQSTasksAreSent | lambda_tasks/models.py:309-315 | a task for an SQS queue is sent to the URL its setting has, with its message and delay |
| Routing.TwoHopsCarryTheMessage | lambda_tasks/tasks.py:40-78 | under any accepted setting, a Batch task is one send to the URL of `default` with the same delay and a counter of 0, whose execution submits one job, with the job queue and the job definition that its setting has under these names and the message unchanged |
| Routing.EveryTaskArrivesOnce | lambda_tasks/models.py:293-317 | for any list of tasks with accepted delays, carriers included: once the carriers among the sent messages have submitted their jobs, each task's message is, once, in order and unchanged, at the place its queue names |
| Routing.CarriersAreSent | lambda_tasks/models.py:301-308 | the carrying task itself goes out in one hop |
| Routing.RetriesAreSent | lambda_tasks/models.py:214-227 | a retry of an accepted task is never refused by routing |
| Routing.Dispatcher.Execute | lambda_tasks/models.py:273-317 | in each mode exactly one place receives the message, in terms of the raw setting, or an error with its cause and none does; an execution on the spot passes its error on; it terminates because no task takes more than two hops |
| Routing.Dispatcher.SubmitBatchJob | lambda_tasks/tasks.py:40-78 | one job if and only if the setting is accepted and has the queue as a Batch queue; the job has its job queue, its job definition and the message |

## Left out

- Executor.Process.ExecuteImmediately: in eager mode tasks whose bodies enqueue other tasks are not covered, since those run nested inside the commit callbacks; queued mode covers them.
- Executor.Process.Interfere: its body takes no step; what callers may assume, and all that is proved from, is its contract, which allows any steps of other workers.
- Sequential.NestedEqualsDrainedLater: a singleton whose lock somebody else holds at first, and no longer at some retry, is not compared, since the two may then differ.
- Executor.Process.RunCallbacks: a commit callback that would itself run a task in the same process (eager mode) is not covered.
- Protocol.MoveOf: a retry, or an enqueue of a body, that goes to a Batch queue is one message here and not a carrier with its own job; `Routing` has both hops, and carriers that are sent as such submit their jobs in the protocol as well.
- Timeouts.Execute: the same context object entered twice at once, which the source never does, and alarms with fractions of a second are not modelled; a foreign handler is taken to raise.
- SQS, Redis, PostgreSQL, Batch and Secrets Manager are abstract stores; visibility timeouts, dead-letter queues and delays are covered only by delivery at any time and any number of times.
- The database transaction is all or nothing; single ORM writes are not represented.
- Importing tasks by name is a lookup in a fixed table; JSON and Pydantic validation of messages and arguments, `_build_kwargs_model` and `_validate_func` are not modelled.
- The 16-bit column of `n_retries`, the length limits of columns and of Batch container overrides.
- The local process pool is another source of deliveries; its processes and signals are not modelled.
- The mutual exclusion of the execution modes, `_set_memory_limit`, `_get_memory_mb` and `_sanitize_job_name`, each a fact about one branch.
- Logging other than the logger's message id, tracing, deployment checks, admin, migrations and the example project.
- `TaskRecord.duration`, a difference of two modelled times.
