/** The execution of tasks as a labelled step system: any number of workers,
    at-least-once delivery, crashes, record cleanup and the passing of time. Each label
    fixes everything the environment chose, so a step is a function of state and label. */
module Protocol {
  import opened Wrappers
  import opened Errors
  import opened Settings
  import opened Tasks

  /** One delivery of one message to one worker. */
  type AttemptId = nat

  /** A message accepted by a queue. `sender` is the attempt that sent it as its own retry;
      `root` is the first message of that chain of retries. */
  datatype Dispatch = Dispatch(task: Task, root: Id, sender: Option<AttemptId>)

  datatype Lease = Lease(holder: AttemptId, expiry: int)

  /** The program counter of `execute_immediately`. */
  datatype Phase =
    | Received                              // nothing done yet
    | Recorded                              // created the record
    | Guarded                               // inside the lock (or the null context)
    | Body                                  // inside the task, transaction open, alarm armed
    | Callbacks(rest: seq<Task>, value: int) // committed; on-commit callbacks outstanding
    | Releasing(pending: Outcome)           // leaving the lock
    | Concluding(outcome: Outcome)          // past the guarded block
    | Requeueing                            // saved as RETRIED, retry not yet sent
    | Done
    | Crashed

  /** An attempt: where it is, and what it has done so far. */
  datatype Attempt = Attempt(
    id: Id,
    message: Message,
    phase: Phase,
    created: bool,            // won `get_or_create`
    started: Option<nat>,     // when the body was entered
    lease: Option<int>,       // expiry of the lock it acquired
    calls: seq<Task>,         // enqueues made by a body that was committed
    committed: bool,          // its transaction committed
    published: seq<Id>,       // messages its commit callbacks sent
    late: bool,               // something raised after the commit
    saved: Option<Verdict>,   // verdict written to the database
    spawned: Option<Id>,      // the retry it sent
    job: Option<Id>,          // the Batch job its body submitted
    orphaned: bool)           // its record was deleted by cleanup

  function NewAttempt(id: Id, m: Message): Attempt {
    Attempt(id, m, Received, false, None, None, [], false, [], false, None, None, None, false)
  }

  datatype State = State(
    now: nat,
    sent: map<Id, Dispatch>,
    records: map<Id, Record>,
    owner: map<Id, AttemptId>,    // which attempt created each record
    locks: map<string, Lease>,
    attempts: map<AttemptId, Attempt>,
    deleted: multiset<Id>)        // records deleted, ever

  const EMPTY: State := State(0, map[], map[], map[], map[], map[], multiset{})

  /** How a task body ends: a value together with the enqueues it made, or an error. */
  datatype BodyResult = Returns(value: int, calls: seq<Task>) | Raises(error: Class)

  /** A step of one attempt. A `fault` is an error raised by the store being used. */
  datatype Action =
    | GetOrCreate(fault: Option<Class>)
    | Acquire(fault: Option<Class>)
    | Start(fault: Option<Class>)
    | SubmitJob(newId: Id)
    | Finish(result: BodyResult)
    | Publish(newId: Id)
    | CallbackFails(error: Class)
    | Leave
    | Release(fault: Option<Class>)
    | Save(fault: Option<Class>)
    | Requeue(newId: Id, jitter: nat)
    | RequeueFails
    | Crash

  datatype Label =
    | Tick
    | Submit(newId: Id, task: Task)
    | Cleanup(gone: Id)
    | Deliver(a: AttemptId, from: Id)
    | Act(a: AttemptId, action: Action)

  predicate Free(locks: map<string, Lease>, name: string, now: int) {
    name !in locks || now > locks[name].expiry
  }

  predicate Holds(locks: map<string, Lease>, name: string, a: AttemptId, now: int) {
    name in locks && locks[name].holder == a && now <= locks[name].expiry
  }

  predicate Over(p: Phase) {
    p.Done? || p.Crashed?
  }

  /** Between the entry and the exit of the lock. */
  predicate InGuard(p: Phase) {
    p.Guarded? || p.Body? || p.Callbacks? || p.Releasing?
  }

  /** What a step of one attempt leaves of the attempt and of the shared stores. */
  datatype Move = Move(
    attempt: Attempt,
    sent: map<Id, Dispatch>,
    records: map<Id, Record>,
    owner: map<Id, AttemptId>,
    locks: map<string, Lease>)

  predicate Can(cfg: Config, s: State, t: Attempt, x: Action) {
    match x
    case GetOrCreate(_) => t.phase.Received?
    case Acquire(fault) =>
      t.phase.Recorded? && Resolvable(cfg, t.message.taskName) &&
      (fault.Some? ==> cfg.tasks[t.message.taskName].singleton)
    case Start(_) => t.phase.Guarded?
    case SubmitJob(newId) =>
      t.phase.Body? && IsCarrier(t.message) && t.job.None? && newId !in s.sent
    case Finish(result) =>
      t.phase.Body? && (result.Returns? && IsCarrier(t.message) ==> t.job.Some?)
    case Publish(newId) => t.phase.Callbacks? && t.phase.rest != [] && newId !in s.sent
    case CallbackFails(_) => t.phase.Callbacks? && t.phase.rest != []
    case Leave => t.phase.Callbacks? && t.phase.rest == []
    case Release(fault) => t.phase.Releasing? && (fault.Some? ==> t.lease.Some?)
    case Save(_) => t.phase.Concluding? && Resolvable(cfg, t.message.taskName)
    case Requeue(newId, jitter) =>
      t.phase.Requeueing? && t.message.taskName in cfg.tasks &&
      newId !in s.sent && t.id in s.sent && 1 <= jitter <= 5
    case RequeueFails => t.phase.Requeueing?
    case Crash => !Over(t.phase)
  }

  /** The parts of an attempt that none of its own steps changes. */
  predicate SameDelivery(t: Attempt, u: Attempt) {
    u.id == t.id && u.message == t.message && u.orphaned == t.orphaned
  }

  function Stay(s: State, t: Attempt): Move {
    Move(t, s.sent, s.records, s.owner, s.locks)
  }

  function DoGetOrCreate(cfg: Config, s: State, a: AttemptId, t: Attempt, fault: Option<Class>): (m: Move)
    ensures SameDelivery(t, m.attempt) && m.sent == s.sent && m.locks == s.locks && m.attempt.lease == t.lease
    ensures m.attempt.published == t.published && m.attempt.calls == t.calls && m.attempt.spawned == t.spawned
    ensures m.attempt.started == t.started
    ensures m.attempt.saved == t.saved
    ensures m.attempt.late == t.late && m.attempt.job == t.job
  {
    if !Resolvable(cfg, t.message.taskName) || fault.Some? || t.id in s.records then
      Stay(s, t.(phase := Done))
    else
      Stay(s, t.(phase := Recorded, created := true)).(
      records := s.records[t.id := NewRecord(t.message, s.now)],
      owner := s.owner[t.id := a])
  }

  /** `cache.lock(...)` for a singleton, taken without waiting; no lock otherwise. */
  function DoAcquire(s: State, a: AttemptId, t: Attempt, singleton: bool, hard: int, fault: Option<Class>)
    : (m: Move)
    ensures SameDelivery(t, m.attempt) && m.sent == s.sent && m.records == s.records
    ensures m.owner == s.owner && m.records.Keys == s.records.Keys && m.attempt.created == t.created
    ensures m.attempt.published == t.published && m.attempt.calls == t.calls && m.attempt.spawned == t.spawned
    ensures m.attempt.started == t.started
    ensures m.attempt.saved == t.saved
    ensures m.attempt.late == t.late && m.attempt.job == t.job
  {
    var name := t.message.taskName;
    if !singleton then
      Stay(s, t.(phase := Guarded))
    else if fault.Some? then
      Stay(s, t.(phase := Concluding(Error(fault.value))))
    else if Free(s.locks, name, s.now) then
      Stay(s, t.(phase := Guarded, lease := Some(s.now + hard))).(
      locks := s.locks[name := Lease(a, s.now + hard)])
    else
      Stay(s, t.(phase := Concluding(Error(LOCK_ERROR))))
  }

  function DoStart(s: State, t: Attempt, fault: Option<Class>): (m: Move)
    ensures SameDelivery(t, m.attempt) && m.sent == s.sent && m.locks == s.locks && m.records == s.records
    ensures m.owner == s.owner && m.records.Keys == s.records.Keys
    ensures m.attempt.created == t.created && m.attempt.lease == t.lease
    ensures m.attempt.published == t.published && m.attempt.calls == t.calls && m.attempt.spawned == t.spawned
    ensures m.attempt.saved == t.saved
    ensures m.attempt.late == t.late && m.attempt.job == t.job
  {
    if fault.Some? then Stay(s, t.(phase := Releasing(Error(fault.value))))
    else Stay(s, t.(phase := Body, started := Some(s.now)))
  }

  /** `client.submit_job(...)` in the body of a carrier: the job gets an id of its own, under
      which the message it carries is delivered. No rollback takes it back. */
  function DoSubmitJob(s: State, t: Attempt, newId: Id): (m: Move)
    requires IsCarrier(t.message)
    ensures SameDelivery(t, m.attempt) && m.locks == s.locks && m.records == s.records && m.owner == s.owner
    ensures m.attempt == t.(job := Some(newId))
  {
    var inner := Task(t.message.kwargs.inner, 0, t.message.kwargs.batchQueue);
    Stay(s, t.(job := Some(newId))).(sent := s.sent[newId := Dispatch(inner, newId, None)])
  }

  /** An error rolls the transaction back; a value commits it. */
  function DoFinish(s: State, t: Attempt, result: BodyResult): (m: Move)
    ensures SameDelivery(t, m.attempt) && m.sent == s.sent && m.locks == s.locks && m.records == s.records
    ensures m.owner == s.owner && m.records.Keys == s.records.Keys
    ensures m.attempt.created == t.created && m.attempt.lease == t.lease
    ensures m.attempt.spawned == t.spawned
    ensures m.attempt.started == t.started
    ensures m.attempt.saved == t.saved
    ensures m.attempt.late == t.late && m.attempt.job == t.job
  {
    match result
    case Raises(error) => Stay(s, t.(phase := Releasing(Error(error))))
    case Returns(value, calls) =>
      Stay(s, t.(phase := Callbacks(calls, value), committed := true, calls := calls))
  }

  function DoPublish(s: State, t: Attempt, newId: Id): (m: Move)
    requires t.phase.Callbacks? && t.phase.rest != []
    ensures SameDelivery(t, m.attempt) && m.locks == s.locks && m.records == s.records
    ensures m.owner == s.owner && m.records.Keys == s.records.Keys
    ensures m.attempt.created == t.created && m.attempt.lease == t.lease
    ensures m.attempt.spawned == t.spawned
    ensures m.attempt.started == t.started
    ensures m.attempt.saved == t.saved
    ensures m.attempt.late == t.late && m.attempt.job == t.job
  {
    Stay(s, t.(phase := Callbacks(t.phase.rest[1..], t.phase.value), published := t.published + [newId])).(
    sent := s.sent[newId := Dispatch(t.phase.rest[0], newId, None)])
  }

  /** Leaving the lock: an expired or foreign lock raises, and replaces what was pending. */
  function DoRelease(s: State, a: AttemptId, t: Attempt, fault: Option<Class>): (m: Move)
    requires t.phase.Releasing?
    ensures SameDelivery(t, m.attempt) && m.sent == s.sent && m.records == s.records
    ensures m.owner == s.owner && m.records.Keys == s.records.Keys
    ensures m.attempt.created == t.created && m.attempt.lease == t.lease
    ensures m.attempt.published == t.published && m.attempt.calls == t.calls && m.attempt.spawned == t.spawned
    ensures m.attempt.started == t.started
    ensures m.attempt.saved == t.saved
    ensures m.attempt.job == t.job
  {
    var name := t.message.taskName;
    if t.lease.None? then
      Stay(s, t.(phase := Concluding(t.phase.pending)))
    else if fault.Some? then
      Stay(s, t.(phase := Concluding(Error(fault.value)), late := t.committed))
    else if Holds(s.locks, name, a, s.now) then
      Stay(s, t.(phase := Concluding(t.phase.pending))).(locks := s.locks - {name})
    else
      Stay(s, t.(phase := Concluding(Error(LOCK_ERROR)), late := t.committed))
  }

  function VerdictOf(cfg: Config, m: Message, o: Outcome): (v: Verdict)
    requires m.taskName in cfg.tasks
    ensures v.Clean? <==> o.Value?
    ensures v.Retry? ==> m.nRetries < cfg.maxRetries
  {
    Judge(cfg, cfg.tasks[m.taskName], m.nRetries, o)
  }

  function DoSave(s: State, t: Attempt, v: Verdict, fault: Option<Class>): (m: Move)
    requires t.phase.Concluding? && (v.Clean? <==> t.phase.outcome.Value?)
    ensures SameDelivery(t, m.attempt) && m.sent == s.sent && m.locks == s.locks
    ensures m.owner == s.owner && m.records.Keys == s.records.Keys
    ensures m.attempt.created == t.created && m.attempt.lease == t.lease
    ensures m.attempt.published == t.published && m.attempt.calls == t.calls && m.attempt.spawned == t.spawned
    ensures m.attempt.started == t.started
    ensures m.attempt.late == t.late && m.attempt.job == t.job
  {
    if v.Escaped? || fault.Some? || t.id !in s.records then
      Stay(s, t.(phase := Done))
    else
      var row := Conclude(s.records[t.id], v, t.phase.outcome, s.now);
      Move(t.(phase := if v.Retry? then Requeueing else Done, saved := Some(v)),
           s.sent, s.records[t.id := row], s.owner, s.locks)
  }

  function DoRequeue(cfg: Config, s: State, a: AttemptId, t: Attempt, newId: Id, jitter: nat): (m: Move)
    requires t.message.taskName in cfg.tasks && t.id in s.sent
    ensures SameDelivery(t, m.attempt) && m.locks == s.locks && m.records == s.records
    ensures m.owner == s.owner && m.records.Keys == s.records.Keys
    ensures m.attempt.created == t.created && m.attempt.lease == t.lease
    ensures m.attempt.published == t.published && m.attempt.calls == t.calls
    ensures m.attempt.started == t.started
    ensures m.attempt.saved == t.saved
    ensures m.attempt.late == t.late && m.attempt.job == t.job
  {
    Stay(s, t.(phase := Done, spawned := Some(newId))).(
    sent := s.sent[newId := Dispatch(
                     RetryTask(cfg.tasks[t.message.taskName], t.message, jitter), s.sent[t.id].root, Some(a))])
  }

  function MoveOf(cfg: Config, s: State, a: AttemptId, t: Attempt, x: Action): (m: Move)
    requires Can(cfg, s, t, x)
    ensures SameDelivery(t, m.attempt)
    ensures !x.GetOrCreate? ==> m.owner == s.owner && m.records.Keys == s.records.Keys && m.attempt.created == t.created
    ensures !x.GetOrCreate? && !x.Save? ==> m.records == s.records
    ensures !x.Publish? && !x.Requeue? && !x.SubmitJob? ==> m.sent == s.sent
    ensures !x.SubmitJob? ==> m.attempt.job == t.job
    ensures !x.Acquire? ==> m.attempt.lease == t.lease && (InGuard(m.attempt.phase) ==> InGuard(t.phase))
    ensures !x.Acquire? && !x.Release? ==> m.locks == s.locks
    ensures !x.Publish? && !x.Finish? ==> m.attempt.published == t.published && m.attempt.calls == t.calls
    ensures !x.Requeue? ==> m.attempt.spawned == t.spawned
    ensures !x.Save? ==> m.attempt.saved == t.saved
    ensures !x.Start? ==> m.attempt.started == t.started
    ensures !x.Release? && !x.CallbackFails? ==> m.attempt.late == t.late
  {
    match x
    case GetOrCreate(fault) => DoGetOrCreate(cfg, s, a, t, fault)
    case Acquire(fault) =>
      var name := t.message.taskName;
      DoAcquire(s, a, t, cfg.tasks[name].singleton, HardTimeout(cfg, name), fault)
    case Start(fault) => DoStart(s, t, fault)
    case SubmitJob(newId) => DoSubmitJob(s, t, newId)
    case Finish(result) => DoFinish(s, t, result)
    case Publish(newId) => DoPublish(s, t, newId)
    case CallbackFails(error) => Stay(s, t.(phase := Releasing(Error(error)), late := true))
    case Leave => Stay(s, t.(phase := Releasing(Value(t.phase.value))))
    case Release(fault) => DoRelease(s, a, t, fault)
    case Save(fault) => DoSave(s, t, VerdictOf(cfg, t.message, t.phase.outcome), fault)
    case Requeue(newId, jitter) => DoRequeue(cfg, s, a, t, newId, jitter)
    case RequeueFails => Stay(s, t.(phase := Done))
    case Crash => Stay(s, t.(phase := Crashed))
  }

  function Put(s: State, a: AttemptId, m: Move): State {
    s.(attempts := s.attempts[a := m.attempt],
       sent := m.sent, records := m.records, owner := m.owner, locks := m.locks)
  }

  predicate Enabled(cfg: Config, s: State, l: Label) {
    match l
    case Tick => true
    case Submit(newId, _) => newId !in s.sent
    case Cleanup(gone) => gone in s.records && gone in s.owner && s.owner[gone] in s.attempts
    case Deliver(a, from) => a !in s.attempts && from in s.sent
    case Act(a, x) => a in s.attempts && Can(cfg, s, s.attempts[a], x)
  }

  function Apply(cfg: Config, s: State, l: Label): State
    requires Enabled(cfg, s, l)
  {
    match l
    case Tick => s.(now := s.now + 1)
    case Submit(newId, task) => s.(sent := s.sent[newId := Dispatch(task, newId, None)])
    case Cleanup(gone) => DoCleanup(s, gone)
    case Deliver(a, from) =>
      s.(attempts := s.attempts[a := NewAttempt(from, s.sent[from].task.message)])
    case Act(a, x) => Put(s, a, MoveOf(cfg, s, a, s.attempts[a], x))
  }

  function DoCleanup(s: State, gone: Id): State
    requires gone in s.owner && s.owner[gone] in s.attempts
  {
    var a := s.owner[gone];
    s.(records := s.records - {gone},
       owner := s.owner - {gone},
       deleted := s.deleted + multiset{gone},
       attempts := s.attempts[a := s.attempts[a].(orphaned := true)])
  }

  /** A run of the system, as the labels it takes from a given state. */
  predicate Legal(cfg: Config, s: State, ls: seq<Label>)
    decreases |ls|
  {
    ls == [] || (Enabled(cfg, s, ls[0]) && Legal(cfg, Apply(cfg, s, ls[0]), ls[1..]))
  }

  function After(cfg: Config, s: State, ls: seq<Label>): State
    requires Legal(cfg, s, ls)
    decreases |ls|
  {
    if ls == [] then s else After(cfg, Apply(cfg, s, ls[0]), ls[1..])
  }

  lemma {:induction false} Concatenate(cfg: Config, s: State, xs: seq<Label>, ys: seq<Label>)
    requires Legal(cfg, s, xs) && Legal(cfg, After(cfg, s, xs), ys)
    ensures Legal(cfg, s, xs + ys)
    ensures After(cfg, s, xs + ys) == After(cfg, After(cfg, s, xs), ys)
    decreases |xs|
  {
    if xs == [] {
      assert xs + ys == ys;
    } else {
      assert (xs + ys)[1..] == xs[1..] + ys;
      Concatenate(cfg, Apply(cfg, s, xs[0]), xs[1..], ys);
    }
  }
}
