/** What every step of the protocol keeps. */
module Invariants {
  import opened Wrappers
  import opened Errors
  import opened Settings
  import opened Tasks
  import opened Protocol

  predicate IsSingleton(cfg: Config, t: Attempt) {
    t.message.taskName in cfg.tasks && cfg.tasks[t.message.taskName].singleton
  }

  /** An error after the commit is the only way to have both an error and a commit. */
  predicate OutcomeOk(t: Attempt, o: Outcome) {
    if o.Value? then t.committed && !t.late && |t.published| == |t.calls|
    else t.committed == t.late
  }

  predicate HistoryOk(cfg: Config, t: Attempt) {
    && (t.created ==> Resolvable(cfg, t.message.taskName))
    && (t.started.Some? || t.orphaned || t.lease.Some? || t.saved.Some? ==> t.created)
    && (t.lease.Some? ==> IsSingleton(cfg, t))
    && (t.committed ==> t.started.Some?)
    && (t.late ==> t.committed)
    && (!t.committed ==> t.calls == [] && t.published == [])
    && |t.published| <= |t.calls|
    && (t.saved.Some? ==> !t.saved.value.Escaped?)
    && (t.saved == Some(Clean) ==> t.committed && !t.late && |t.published| == |t.calls|)
    && (t.saved.Some? && t.saved != Some(Clean) ==> t.committed == t.late)
    && (t.saved == Some(Retry) ==> t.message.nRetries < cfg.maxRetries)
    && (t.spawned.Some? ==> t.saved == Some(Retry) && t.phase.Done?)
    && (t.job.Some? ==> t.started.Some? && IsCarrier(t.message))
    && (t.committed && IsCarrier(t.message) ==> t.job.Some?)
  }

  predicate PhaseOk(cfg: Config, t: Attempt) {
    && (!Over(t.phase) && !t.phase.Requeueing? ==> t.saved.None?)
    && (!Over(t.phase) ==> (t.created <==> !t.phase.Received?))
    && (InGuard(t.phase) ==> (t.lease.Some? <==> IsSingleton(cfg, t)))
    && match t.phase
       case Received | Recorded => t.started.None? && t.lease.None?
       case Guarded => t.started.None?
       case Body => t.started.Some? && !t.committed
       case Callbacks(rest, _) =>
         && t.committed && !t.late
         && |t.published| <= |t.calls| && rest == t.calls[|t.published|..]
       case Releasing(o) => OutcomeOk(t, o)
       case Concluding(o) => OutcomeOk(t, o)
       case Requeueing => t.saved == Some(Retry)
       case Done | Crashed => true
  }

  predicate AttemptOk(cfg: Config, t: Attempt) {
    HistoryOk(cfg, t) && PhaseOk(cfg, t)
  }

  ghost predicate AttemptsOk(cfg: Config, s: State) {
    forall a | a in s.attempts :: AttemptOk(cfg, s.attempts[a])
  }

  /** An attempt carries the message of the id it was delivered under. */
  ghost predicate Sourced(s: State) {
    forall a | a in s.attempts ::
      s.attempts[a].id in s.sent && s.attempts[a].message == s.sent[s.attempts[a].id].task.message
  }

  /** A record belongs to the attempt that created it, until cleanup deletes it. */
  ghost predicate Owned(s: State) {
    && s.records.Keys == s.owner.Keys
    && (forall id | id in s.owner ::
          && s.owner[id] in s.attempts
          && s.attempts[s.owner[id]].id == id
          && s.attempts[s.owner[id]].created && !s.attempts[s.owner[id]].orphaned)
    && (forall a | a in s.attempts && s.attempts[a].created && !s.attempts[a].orphaned ::
          s.attempts[a].id in s.owner && s.owner[s.attempts[a].id] == a)
  }

  /** The attempts that created a record for an id. */
  ghost function Creations(s: State, id: Id): set<AttemptId> {
    set a | a in s.attempts && s.attempts[a].created && s.attempts[a].id == id
  }

  ghost predicate Counted(s: State) {
    forall id: Id ::
      |Creations(s, id)| == (if id in s.records then 1 else 0) + s.deleted[id]
  }

  /** An unexpired lease is the one in the lock table. */
  ghost predicate Leased(s: State) {
    && (forall name | name in s.locks ::
          && s.locks[name].holder in s.attempts
          && s.attempts[s.locks[name].holder].lease == Some(s.locks[name].expiry)
          && s.attempts[s.locks[name].holder].message.taskName == name)
    && (forall a | a in s.attempts && InGuard(s.attempts[a].phase) ::
          HasLease(s, a))
  }

  predicate HasLease(s: State, a: AttemptId)
    requires a in s.attempts
  {
    var t := s.attempts[a];
    t.lease.Some? && s.now <= t.lease.value ==>
      t.message.taskName in s.locks && s.locks[t.message.taskName] == Lease(a, t.lease.value)
  }

  /** A message is a first one, or the one retry its sender sent. */
  predicate DispatchOk(cfg: Config, s: State, q: Id)
    requires q in s.sent
  {
    var d := s.sent[q];
    && d.root in s.sent
    && (d.sender.None? ==> d.root == q)
    && (d.sender.Some? ==>
          && d.sender.value in s.attempts
          && var t := s.attempts[d.sender.value];
          && t.spawned == Some(q)
          && t.id in s.sent
          && t.created
          && t.message.taskName in cfg.tasks
          && d.root == s.sent[t.id].root
          && (exists jitter | 1 <= jitter <= 5 ::
                d.task == RetryTask(cfg.tasks[t.message.taskName], t.message, jitter))
          && d.task.message.nRetries <= cfg.maxRetries
          && SameWork(d.task.message, s.sent[d.root].task.message)
          && d.task.message.nRetries > s.sent[d.root].task.message.nRetries)
  }

  predicate SameWork(m: Message, n: Message) {
    m.taskName == n.taskName && m.kwargs == n.kwargs
  }

  ghost predicate Lineage(cfg: Config, s: State) {
    && (forall q | q in s.sent :: DispatchOk(cfg, s, q))
    && (forall a | a in s.attempts && s.attempts[a].spawned.Some? ::
          s.attempts[a].spawned.value in s.sent && s.sent[s.attempts[a].spawned.value].sender == Some(a))
  }

  /** The i-th message published by an attempt is its body's i-th enqueue, and the job it
      submitted carries the message it was asked to carry. */
  predicate PublishedOk(s: State, t: Attempt) {
    && (forall i | 0 <= i < |t.published| && i < |t.calls| ::
          t.published[i] in s.sent && s.sent[t.published[i]] == Dispatch(t.calls[i], t.published[i], None))
    && (t.job.Some? ==> JobOk(s, t, t.job.value))
  }

  predicate JobOk(s: State, t: Attempt, job: Id) {
    && IsCarrier(t.message)
    && job in s.sent
    && s.sent[job] == Dispatch(Task(t.message.kwargs.inner, 0, t.message.kwargs.batchQueue), job, None)
  }

  ghost predicate Published(s: State) {
    forall a | a in s.attempts :: PublishedOk(s, s.attempts[a])
  }

  predicate RowOk(now: nat, row: Record) {
    && row.startTime <= now
    && (row.status.Running? <==> row.endTime.None?)
    && (row.endTime.Some? ==> row.startTime <= row.endTime.value <= now)
    && (row.status.Failed? || row.status.Retried? ==> row.traceback.Some?)
  }

  ghost predicate RowsOk(s: State) {
    forall id | id in s.records ::
      RowOk(s.now, s.records[id]) && id in s.sent && s.records[id].message == s.sent[id].task.message
  }

  ghost predicate Inv(cfg: Config, s: State) {
    && AttemptsOk(cfg, s)
    && Sourced(s)
    && Owned(s)
    && Counted(s)
    && Leased(s)
    && Lineage(cfg, s)
    && Published(s)
    && RowsOk(s)
  }

  lemma EmptyKeepsAll(cfg: Config)
    ensures Inv(cfg, EMPTY)
  {
    forall id: Id ensures Creations(EMPTY, id) == {} {
    }
  }

  // ---- one attempt's own steps ----

  lemma GetOrCreateKeepsAttempt(cfg: Config, s: State, a: AttemptId, t: Attempt, fault: Option<Class>)
    requires AttemptOk(cfg, t) && t.phase.Received?
    ensures AttemptOk(cfg, DoGetOrCreate(cfg, s, a, t, fault).attempt)
  {
    var t' := DoGetOrCreate(cfg, s, a, t, fault).attempt;
    assert t' == t.(phase := t'.phase, created := t'.created);
    assert HistoryOk(cfg, t');
    assert PhaseOk(cfg, t');
  }

  lemma AcquireKeepsAttempt(cfg: Config, s: State, a: AttemptId, t: Attempt,
                            singleton: bool, hard: int, fault: Option<Class>)
    requires AttemptOk(cfg, t) && t.phase.Recorded? && singleton == IsSingleton(cfg, t)
    ensures AttemptOk(cfg, DoAcquire(s, a, t, singleton, hard, fault).attempt)
  {
    var t' := DoAcquire(s, a, t, singleton, hard, fault).attempt;
    assert t' == t.(phase := t'.phase, lease := t'.lease);
    assert t'.phase.Guarded? || (t'.phase.Concluding? && t'.phase.outcome.Error?);
    assert t'.lease.Some? <==> t'.phase.Guarded? && IsSingleton(cfg, t);
    assert HistoryOk(cfg, t');
    assert PhaseOk(cfg, t');
  }

  lemma FinishKeepsAttempt(cfg: Config, s: State, t: Attempt, result: BodyResult)
    requires AttemptOk(cfg, t) && Can(cfg, s, t, Finish(result))
    ensures AttemptOk(cfg, DoFinish(s, t, result).attempt)
  {
    if result.Returns? {
      assert result.calls[|t.published|..] == result.calls;
    }
  }

  lemma BodyKeepsAttempt(cfg: Config, s: State, a: AttemptId, t: Attempt, x: Action)
    requires x.Start? || x.Finish? || x.Leave?
    requires AttemptOk(cfg, t) && Can(cfg, s, t, x)
    ensures AttemptOk(cfg, MoveOf(cfg, s, a, t, x).attempt)
  {
    if x.Finish? {
      FinishKeepsAttempt(cfg, s, t, x.result);
    }
  }

  lemma SubmitJobKeepsAttempt(cfg: Config, s: State, t: Attempt, newId: Id)
    requires AttemptOk(cfg, t) && t.phase.Body? && IsCarrier(t.message)
    ensures AttemptOk(cfg, DoSubmitJob(s, t, newId).attempt)
  {
  }

  lemma CallbackKeepsAttempt(cfg: Config, s: State, a: AttemptId, t: Attempt, x: Action)
    requires x.Publish? || x.CallbackFails?
    requires AttemptOk(cfg, t) && Can(cfg, s, t, x)
    ensures AttemptOk(cfg, MoveOf(cfg, s, a, t, x).attempt)
  {
  }

  lemma PassOnKeepsAttempt(cfg: Config, t: Attempt, o: Outcome, late: bool)
    requires AttemptOk(cfg, t) && t.phase.Releasing?
    requires (o == t.phase.pending && late == t.late) || (o.Error? && late == t.committed)
    ensures AttemptOk(cfg, t.(phase := Concluding(o), late := late))
  {
  }

  lemma ReleaseKeepsAttempt(cfg: Config, s: State, a: AttemptId, t: Attempt, fault: Option<Class>)
    requires AttemptOk(cfg, t) && t.phase.Releasing?
    ensures AttemptOk(cfg, DoRelease(s, a, t, fault).attempt)
  {
    if t.lease.None? || (fault.None? && Holds(s.locks, t.message.taskName, a, s.now)) {
      PassOnKeepsAttempt(cfg, t, t.phase.pending, t.late);
    } else {
      PassOnKeepsAttempt(cfg, t, Error(if fault.Some? then fault.value else LOCK_ERROR), t.committed);
    }
  }

  lemma VerdictKeepsAttempt(cfg: Config, t: Attempt, v: Verdict)
    requires AttemptOk(cfg, t) && t.phase.Concluding? && !v.Escaped?
    requires v.Clean? <==> t.phase.outcome.Value?
    requires v.Retry? ==> t.message.nRetries < cfg.maxRetries
    ensures AttemptOk(cfg, t.(phase := if v.Retry? then Requeueing else Done, saved := Some(v)))
  {
  }

  lemma SaveKeepsAttempt(cfg: Config, s: State, t: Attempt, v: Verdict, fault: Option<Class>)
    requires AttemptOk(cfg, t) && t.phase.Concluding?
    requires v.Clean? <==> t.phase.outcome.Value?
    requires v.Retry? ==> t.message.nRetries < cfg.maxRetries
    ensures AttemptOk(cfg, DoSave(s, t, v, fault).attempt)
  {
    if !v.Escaped? {
      VerdictKeepsAttempt(cfg, t, v);
    }
    assert AttemptOk(cfg, t.(phase := Done));
  }

  lemma EndKeepsAttempt(cfg: Config, s: State, a: AttemptId, t: Attempt, x: Action)
    requires x.Requeue? || x.RequeueFails? || x.Crash?
    requires AttemptOk(cfg, t) && Can(cfg, s, t, x)
    ensures AttemptOk(cfg, MoveOf(cfg, s, a, t, x).attempt)
  {
  }

  lemma MoveKeepsAttempt(cfg: Config, s: State, a: AttemptId, t: Attempt, x: Action)
    requires Can(cfg, s, t, x) && AttemptOk(cfg, t)
    ensures AttemptOk(cfg, MoveOf(cfg, s, a, t, x).attempt)
  {
    match x
    case GetOrCreate(fault) => GetOrCreateKeepsAttempt(cfg, s, a, t, fault);
    case Acquire(fault) =>
      var name := t.message.taskName;
      AcquireKeepsAttempt(cfg, s, a, t, cfg.tasks[name].singleton, HardTimeout(cfg, name), fault);
    case Start(_) | Finish(_) | Leave => BodyKeepsAttempt(cfg, s, a, t, x);
    case SubmitJob(newId) => SubmitJobKeepsAttempt(cfg, s, t, newId);
    case Publish(_) | CallbackFails(_) => CallbackKeepsAttempt(cfg, s, a, t, x);
    case Release(fault) => ReleaseKeepsAttempt(cfg, s, a, t, fault);
    case Save(fault) =>
      SaveKeepsAttempt(cfg, s, t, VerdictOf(cfg, t.message, t.phase.outcome), fault);
    case Requeue(_, _) | RequeueFails | Crash => EndKeepsAttempt(cfg, s, a, t, x);
  }

  // ---- what one attempt's step leaves of everything else ----

  lemma MoveKeepsSent(cfg: Config, s: State, a: AttemptId, t: Attempt, x: Action)
    requires Can(cfg, s, t, x)
    ensures Grows(s, MoveOf(cfg, s, a, t, x).sent)
  {
    match x
    case Publish(newId) =>
      assert MoveOf(cfg, s, a, t, x) == DoPublish(s, t, newId);
    case Requeue(newId, jitter) =>
      assert MoveOf(cfg, s, a, t, x) == DoRequeue(cfg, s, a, t, newId, jitter);
    case SubmitJob(newId) =>
      assert MoveOf(cfg, s, a, t, x) == DoSubmitJob(s, t, newId);
    case _ =>
  }

  lemma OthersKeepOwned(s: State, a: AttemptId, m: Move)
    requires a in s.attempts && Owned(s)
    requires SameDelivery(s.attempts[a], m.attempt) && m.attempt.created == s.attempts[a].created
    requires m.owner == s.owner && m.records.Keys == s.records.Keys
    ensures Owned(Put(s, a, m))
  {
  }

  lemma MoveKeepsOwned(cfg: Config, s: State, a: AttemptId, x: Action)
    requires a in s.attempts && Can(cfg, s, s.attempts[a], x)
    requires Owned(s) && AttemptOk(cfg, s.attempts[a])
    ensures Owned(Put(s, a, MoveOf(cfg, s, a, s.attempts[a], x)))
  {
    var t := s.attempts[a];
    var m := MoveOf(cfg, s, a, t, x);
    if x.GetOrCreate? {
      assert m == DoGetOrCreate(cfg, s, a, t, x.fault);
    } else {
      OthersKeepOwned(s, a, m);
    }
  }

  lemma MoveKeepsSourced(cfg: Config, s: State, a: AttemptId, x: Action)
    requires a in s.attempts && Can(cfg, s, s.attempts[a], x)
    requires Sourced(s)
    ensures Sourced(Put(s, a, MoveOf(cfg, s, a, s.attempts[a], x)))
  {
    var t := s.attempts[a];
    MoveKeepsSent(cfg, s, a, t, x);
  }

  lemma CreationKeepsCounted(s: State, a: AttemptId, m: Move)
    requires a in s.attempts && Counted(s)
    requires !s.attempts[a].created && m.attempt.created && m.attempt.id == s.attempts[a].id
    requires m.attempt.id !in s.records && m.records.Keys == s.records.Keys + {m.attempt.id}
    ensures Counted(Put(s, a, m))
  {
    var s' := Put(s, a, m);
    forall id: Id
      ensures |Creations(s', id)| == (if id in s'.records then 1 else 0) + s'.deleted[id]
    {
      assert |Creations(s, id)| == (if id in s.records then 1 else 0) + s.deleted[id];
      assert Creations(s', id) == if id == m.attempt.id then Creations(s, id) + {a} else Creations(s, id);
    }
  }

  lemma OthersKeepCounted(s: State, a: AttemptId, m: Move)
    requires a in s.attempts && Counted(s)
    requires m.attempt.created == s.attempts[a].created && m.attempt.id == s.attempts[a].id
    requires m.records.Keys == s.records.Keys
    ensures Counted(Put(s, a, m))
  {
    var s' := Put(s, a, m);
    forall id: Id
      ensures |Creations(s', id)| == (if id in s'.records then 1 else 0) + s'.deleted[id]
    {
      assert |Creations(s, id)| == (if id in s.records then 1 else 0) + s.deleted[id];
      assert Creations(s', id) == Creations(s, id);
    }
  }

  lemma MoveKeepsCounted(cfg: Config, s: State, a: AttemptId, x: Action)
    requires a in s.attempts && Can(cfg, s, s.attempts[a], x)
    requires Counted(s) && AttemptOk(cfg, s.attempts[a])
    ensures Counted(Put(s, a, MoveOf(cfg, s, a, s.attempts[a], x)))
  {
    var t := s.attempts[a];
    var m := MoveOf(cfg, s, a, t, x);
    if x.GetOrCreate? && m.attempt.created {
      CreationKeepsCounted(s, a, m);
    } else {
      OthersKeepCounted(s, a, m);
    }
  }

  lemma CleanupKeepsOwnership(s: State, gone: Id)
    requires Owned(s) && Counted(s) && gone in s.records
    ensures Owned(DoCleanup(s, gone)) && Counted(DoCleanup(s, gone))
  {
    var s' := DoCleanup(s, gone);
    forall id: Id
      ensures |Creations(s', id)| == (if id in s'.records then 1 else 0) + s'.deleted[id]
    {
      assert |Creations(s, id)| == (if id in s.records then 1 else 0) + s.deleted[id];
      assert Creations(s', id) == Creations(s, id);
    }
  }

  predicate Grows(s: State, sent: map<Id, Dispatch>) {
    forall q | q in s.sent :: q in sent && sent[q] == s.sent[q]
  }

  lemma KeepsPublished(s: State, a: AttemptId, m: Move)
    requires a in s.attempts && Published(s) && Grows(s, m.sent)
    requires PublishedOk(s.(sent := m.sent), m.attempt)
    ensures Published(Put(s, a, m))
  {
    var s' := Put(s, a, m);
    forall b | b in s'.attempts
      ensures PublishedOk(s', s'.attempts[b])
    {
      if b != a {
        assert PublishedOk(s, s.attempts[b]);
      } else {
        assert PublishedOk(s.(sent := m.sent), m.attempt);
      }
    }
  }

  lemma MoveKeepsPublished(cfg: Config, s: State, a: AttemptId, x: Action)
    requires a in s.attempts && Can(cfg, s, s.attempts[a], x)
    requires Published(s) && AttemptOk(cfg, s.attempts[a])
    ensures Published(Put(s, a, MoveOf(cfg, s, a, s.attempts[a], x)))
  {
    var t := s.attempts[a];
    var m := MoveOf(cfg, s, a, t, x);
    MoveKeepsSent(cfg, s, a, t, x);
    assert PublishedOk(s, t);
    if x.Publish? {
      assert m == DoPublish(s, t, x.newId);
      assert t.phase.rest[0] == t.calls[|t.published|];
    } else if x.Finish? {
      assert m.attempt.published == t.published == [];
    } else if x.SubmitJob? {
      assert m == DoSubmitJob(s, t, x.newId);
    }
    KeepsPublished(s, a, m);
  }

  lemma MoveKeepsRows(cfg: Config, s: State, a: AttemptId, x: Action)
    requires a in s.attempts && Can(cfg, s, s.attempts[a], x)
    requires RowsOk(s) && Sourced(s)
    ensures RowsOk(Put(s, a, MoveOf(cfg, s, a, s.attempts[a], x)))
  {
    var t := s.attempts[a];
    MoveKeepsSent(cfg, s, a, t, x);
    if x.GetOrCreate? {
      NewRowKeepsRows(cfg, s, a, x.fault);
    } else if x.Save? {
      SaveKeepsRows(s, a, VerdictOf(cfg, t.message, t.phase.outcome), x.fault);
    } else {
      RowsStay(s, a, MoveOf(cfg, s, a, t, x));
    }
  }

  lemma RowsStay(s: State, a: AttemptId, m: Move)
    requires RowsOk(s) && m.records == s.records && Grows(s, m.sent)
    ensures RowsOk(Put(s, a, m))
  {
  }

  lemma NewRowKeepsRows(cfg: Config, s: State, a: AttemptId, fault: Option<Class>)
    requires a in s.attempts && RowsOk(s) && Sourced(s)
    ensures RowsOk(Put(s, a, DoGetOrCreate(cfg, s, a, s.attempts[a], fault)))
  {
  }

  lemma SaveKeepsRows(s: State, a: AttemptId, v: Verdict, fault: Option<Class>)
    requires a in s.attempts && RowsOk(s)
    requires s.attempts[a].phase.Concluding? && (v.Clean? <==> s.attempts[a].phase.outcome.Value?)
    ensures RowsOk(Put(s, a, DoSave(s, s.attempts[a], v, fault)))
  {
  }

  lemma LockingKeepsLeased(s: State, a: AttemptId, m: Move, expiry: int)
    requires a in s.attempts && !InGuard(s.attempts[a].phase) && s.attempts[a].lease.None?
    requires Leased(s)
    requires m.attempt.message == s.attempts[a].message && m.attempt.lease == Some(expiry)
    requires Free(s.locks, m.attempt.message.taskName, s.now)
    requires m.locks == s.locks[m.attempt.message.taskName := Lease(a, expiry)]
    ensures Leased(Put(s, a, m))
  {
    var s' := Put(s, a, m);
    forall b | b in s'.attempts && InGuard(s'.attempts[b].phase)
      ensures HasLease(s', b)
    {
      if b != a {
        assert s'.attempts[b] == s.attempts[b];
        assert HasLease(s, b);
      }
    }
  }

  lemma UnlockingKeepsLeased(s: State, a: AttemptId, m: Move)
    requires a in s.attempts && Leased(s)
    requires m.attempt.message == s.attempts[a].message && m.attempt.lease == s.attempts[a].lease
    requires !InGuard(m.attempt.phase)
    requires Holds(s.locks, m.attempt.message.taskName, a, s.now)
    requires m.locks == s.locks - {m.attempt.message.taskName}
    ensures Leased(Put(s, a, m))
  {
    var s' := Put(s, a, m);
    forall b | b in s'.attempts && InGuard(s'.attempts[b].phase)
      ensures HasLease(s', b)
    {
      assert b != a && s'.attempts[b] == s.attempts[b];
      assert HasLease(s, b);
    }
  }

  /** Steps that leave locks, lease and task alone, and do not enter the guard. */
  lemma OthersKeepLeased(s: State, a: AttemptId, m: Move)
    requires a in s.attempts && Leased(s)
    requires m.locks == s.locks && m.attempt.lease == s.attempts[a].lease
    requires m.attempt.message == s.attempts[a].message
    requires InGuard(m.attempt.phase) ==> InGuard(s.attempts[a].phase) || m.attempt.lease.None?
    ensures Leased(Put(s, a, m))
  {
    var s' := Put(s, a, m);
    forall b | b in s'.attempts && InGuard(s'.attempts[b].phase)
      ensures HasLease(s', b)
    {
      if b != a || InGuard(s.attempts[a].phase) {
        assert HasLease(s, b);
      }
    }
  }

  lemma MoveKeepsLeased(cfg: Config, s: State, a: AttemptId, x: Action)
    requires a in s.attempts && Can(cfg, s, s.attempts[a], x)
    requires Leased(s) && AttemptOk(cfg, s.attempts[a])
    ensures Leased(Put(s, a, MoveOf(cfg, s, a, s.attempts[a], x)))
  {
    var t := s.attempts[a];
    var m := MoveOf(cfg, s, a, t, x);
    if x.Acquire? {
      assert m == DoAcquire(s, a, t, cfg.tasks[t.message.taskName].singleton,
                            HardTimeout(cfg, t.message.taskName), x.fault);
    }
    if x.Acquire? && m.attempt.lease.Some? {
      LockingKeepsLeased(s, a, m, m.attempt.lease.value);
    } else if x.Release? && m.locks != s.locks {
      UnlockingKeepsLeased(s, a, m);
    } else {
      OthersKeepLeased(s, a, m);
    }
  }

  // ---- retries ----

  /** Steps other than sending a retry: new messages are first ones, and no attempt
      changes what it was delivered or what it sent. */
  ghost predicate NoRetrySent(s: State, s': State) {
    && Grows(s, s'.sent)
    && (forall q | q in s'.sent && q !in s.sent :: s'.sent[q].sender.None? && s'.sent[q].root == q)
    && (forall a | a in s.attempts ::
          && a in s'.attempts
          && s'.attempts[a].id == s.attempts[a].id
          && s'.attempts[a].message == s.attempts[a].message
          && s'.attempts[a].spawned == s.attempts[a].spawned
          && (s.attempts[a].created ==> s'.attempts[a].created))
    && (forall a | a in s'.attempts && a !in s.attempts :: s'.attempts[a].spawned.None?)
  }

  lemma NoRetryKeepsLineage(cfg: Config, s: State, s': State)
    requires Lineage(cfg, s) && NoRetrySent(s, s')
    ensures Lineage(cfg, s')
  {
    forall q | q in s'.sent
      ensures DispatchOk(cfg, s', q)
    {
      if q in s.sent {
        assert DispatchOk(cfg, s, q);
      }
    }
  }

  lemma RequeueKeepsLineage(cfg: Config, s: State, a: AttemptId, q: Id, jitter: nat)
    requires a in s.attempts && Can(cfg, s, s.attempts[a], Requeue(q, jitter))
    requires Lineage(cfg, s) && Sourced(s) && AttemptOk(cfg, s.attempts[a])
    ensures Lineage(cfg, Put(s, a, DoRequeue(cfg, s, a, s.attempts[a], q, jitter)))
  {
    var s' := Put(s, a, DoRequeue(cfg, s, a, s.attempts[a], q, jitter));
    forall q' | q' in s'.sent
      ensures DispatchOk(cfg, s', q')
    {
      if q' == q {
        RetryIsDescended(cfg, s, a, q, jitter);
      } else {
        assert DispatchOk(cfg, s, q');
      }
    }
  }

  lemma RetryIsDescended(cfg: Config, s: State, a: AttemptId, q: Id, jitter: nat)
    requires a in s.attempts && Can(cfg, s, s.attempts[a], Requeue(q, jitter))
    requires Lineage(cfg, s) && Sourced(s) && AttemptOk(cfg, s.attempts[a])
    ensures DispatchOk(cfg, Put(s, a, DoRequeue(cfg, s, a, s.attempts[a], q, jitter)), q)
  {
    var t := s.attempts[a];
    var s' := Put(s, a, DoRequeue(cfg, s, a, t, q, jitter));
    assert DispatchOk(cfg, s, t.id);
    assert s'.sent[q].task == RetryTask(cfg.tasks[t.message.taskName], t.message, jitter);
  }

  lemma MoveSendsNoRetry(cfg: Config, s: State, a: AttemptId, x: Action)
    requires a in s.attempts && Can(cfg, s, s.attempts[a], x) && !x.Requeue?
    ensures NoRetrySent(s, Put(s, a, MoveOf(cfg, s, a, s.attempts[a], x)))
  {
    var t := s.attempts[a];
    var m := MoveOf(cfg, s, a, t, x);
    MoveKeepsSent(cfg, s, a, t, x);
    if x.Publish? {
      assert m == DoPublish(s, t, x.newId);
    } else if x.GetOrCreate? {
      assert m == DoGetOrCreate(cfg, s, a, t, x.fault);
    } else if x.SubmitJob? {
      assert m == DoSubmitJob(s, t, x.newId);
    }
  }

  lemma MoveKeepsLineage(cfg: Config, s: State, a: AttemptId, x: Action)
    requires a in s.attempts && Can(cfg, s, s.attempts[a], x)
    requires Lineage(cfg, s) && Sourced(s) && AttemptOk(cfg, s.attempts[a])
    ensures Lineage(cfg, Put(s, a, MoveOf(cfg, s, a, s.attempts[a], x)))
  {
    var t := s.attempts[a];
    var m := MoveOf(cfg, s, a, t, x);
    if x.Requeue? {
      RequeueKeepsLineage(cfg, s, a, x.newId, x.jitter);
    } else {
      MoveSendsNoRetry(cfg, s, a, x);
      NoRetryKeepsLineage(cfg, s, Put(s, a, m));
    }
  }

  // ---- all together ----

  lemma MoveKeepsInv(cfg: Config, s: State, a: AttemptId, x: Action)
    requires Inv(cfg, s) && a in s.attempts && Can(cfg, s, s.attempts[a], x)
    ensures Inv(cfg, Put(s, a, MoveOf(cfg, s, a, s.attempts[a], x)))
  {
    assert AttemptOk(cfg, s.attempts[a]);
    MoveKeepsAttempt(cfg, s, a, s.attempts[a], x);
    MoveKeepsSourced(cfg, s, a, x);
    MoveKeepsOwned(cfg, s, a, x);
    MoveKeepsCounted(cfg, s, a, x);
    MoveKeepsLeased(cfg, s, a, x);
    MoveKeepsLineage(cfg, s, a, x);
    MoveKeepsPublished(cfg, s, a, x);
    MoveKeepsRows(cfg, s, a, x);
  }

  /** Steps of the environment: time passes, a message is submitted or delivered. */
  ghost predicate Quiet(s: State, s': State) {
    && s'.records == s.records && s'.owner == s.owner
    && s'.locks == s.locks && s'.deleted == s.deleted
    && s.now <= s'.now
    && NoRetrySent(s, s')
    && (forall a | a in s.attempts :: a in s'.attempts && s'.attempts[a] == s.attempts[a])
    && (forall a | a in s'.attempts && a !in s.attempts ::
          && s'.attempts[a].id in s'.sent
          && s'.attempts[a] == NewAttempt(s'.attempts[a].id, s'.sent[s'.attempts[a].id].task.message))
  }

  lemma QuietKeepsAttempts(cfg: Config, s: State, s': State)
    requires Quiet(s, s') && AttemptsOk(cfg, s) && Sourced(s) && Published(s)
    ensures AttemptsOk(cfg, s') && Sourced(s') && Published(s')
  {
    forall a | a in s'.attempts
      ensures AttemptOk(cfg, s'.attempts[a]) && PublishedOk(s', s'.attempts[a])
    {
      if a in s.attempts {
        assert AttemptOk(cfg, s.attempts[a]) && PublishedOk(s, s.attempts[a]);
      }
    }
  }

  lemma QuietKeepsCounted(s: State, s': State)
    requires Quiet(s, s') && Counted(s)
    ensures Counted(s')
  {
    forall id: Id
      ensures |Creations(s', id)| == (if id in s'.records then 1 else 0) + s'.deleted[id]
    {
      assert |Creations(s, id)| == (if id in s.records then 1 else 0) + s.deleted[id];
      assert Creations(s', id) == Creations(s, id);
    }
  }

  lemma QuietKeepsRows(s: State, s': State)
    requires Quiet(s, s') && Owned(s) && RowsOk(s)
    ensures Owned(s') && RowsOk(s')
  {
  }

  lemma QuietKeepsLeased(s: State, s': State)
    requires Quiet(s, s') && Leased(s)
    ensures Leased(s')
  {
    forall a | a in s'.attempts && InGuard(s'.attempts[a].phase)
      ensures HasLease(s', a)
    {
      assert HasLease(s, a);
    }
  }

  lemma QuietKeepsInv(cfg: Config, s: State, s': State)
    requires Inv(cfg, s) && Quiet(s, s')
    ensures Inv(cfg, s')
  {
    QuietKeepsAttempts(cfg, s, s');
    QuietKeepsCounted(s, s');
    QuietKeepsRows(s, s');
    QuietKeepsLeased(s, s');
    NoRetryKeepsLineage(cfg, s, s');
  }

  lemma CleanupKeepsAttempts(cfg: Config, s: State, gone: Id)
    requires Owned(s) && gone in s.records
    requires AttemptsOk(cfg, s) && Sourced(s) && Published(s)
    ensures AttemptsOk(cfg, DoCleanup(s, gone)) && Sourced(DoCleanup(s, gone)) && Published(DoCleanup(s, gone))
  {
    var s' := DoCleanup(s, gone);
    forall b | b in s'.attempts
      ensures PublishedOk(s', s'.attempts[b]) && AttemptOk(cfg, s'.attempts[b])
    {
      assert PublishedOk(s, s.attempts[b]);
      assert AttemptOk(cfg, s.attempts[b]);
    }
  }

  lemma CleanupKeepsLeased(s: State, gone: Id)
    requires Leased(s) && gone in s.owner && s.owner[gone] in s.attempts
    ensures Leased(DoCleanup(s, gone))
  {
    var s' := DoCleanup(s, gone);
    forall b | b in s'.attempts && InGuard(s'.attempts[b].phase)
      ensures HasLease(s', b)
    {
      assert HasLease(s, b);
    }
  }

  lemma CleanupSendsNoRetry(s: State, gone: Id)
    requires gone in s.owner && s.owner[gone] in s.attempts
    ensures NoRetrySent(s, DoCleanup(s, gone))
  {
  }

  lemma CleanupKeepsRows(s: State, gone: Id)
    requires gone in s.owner && s.owner[gone] in s.attempts && RowsOk(s)
    ensures RowsOk(DoCleanup(s, gone))
  {
  }

  lemma CleanupKeepsInv(cfg: Config, s: State, gone: Id)
    requires Inv(cfg, s) && gone in s.records
    ensures Inv(cfg, DoCleanup(s, gone))
  {
    CleanupKeepsOwnership(s, gone);
    CleanupKeepsAttempts(cfg, s, gone);
    CleanupKeepsLeased(s, gone);
    CleanupSendsNoRetry(s, gone);
    NoRetryKeepsLineage(cfg, s, DoCleanup(s, gone));
    CleanupKeepsRows(s, gone);
  }

  lemma EnvironmentIsQuiet(cfg: Config, s: State, l: Label)
    requires Enabled(cfg, s, l) && (l.Tick? || l.Submit? || l.Deliver?)
    ensures Quiet(s, Apply(cfg, s, l))
  {
  }

  /** Every step of the system keeps the invariant. */
  lemma StepKeepsInv(cfg: Config, s: State, l: Label)
    requires Inv(cfg, s) && Enabled(cfg, s, l)
    ensures Inv(cfg, Apply(cfg, s, l))
  {
    match l
    case Tick | Submit(_, _) | Deliver(_, _) =>
      EnvironmentIsQuiet(cfg, s, l);
      QuietKeepsInv(cfg, s, Apply(cfg, s, l));
    case Cleanup(gone) => CleanupKeepsInv(cfg, s, gone);
    case Act(a, x) => MoveKeepsInv(cfg, s, a, x);
  }

  lemma {:induction false} RunKeepsInv(cfg: Config, s: State, ls: seq<Label>)
    requires Inv(cfg, s) && Legal(cfg, s, ls)
    ensures Inv(cfg, After(cfg, s, ls))
    decreases |ls|
  {
    if ls != [] {
      StepKeepsInv(cfg, s, ls[0]);
      RunKeepsInv(cfg, Apply(cfg, s, ls[0]), ls[1..]);
    }
  }
}
