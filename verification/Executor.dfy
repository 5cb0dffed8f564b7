/** The executor as it is written: a process working on shared stores, with other workers
    interfering between any two of its operations. */
module Executor {
  import opened Wrappers
  import opened Errors
  import opened Settings
  import opened Tasks
  import opened Protocol
  import opened Invariants
  import opened Sequential

  /** All that is not up to the executor in one execution: how the body ends, and which
      store operations raise. */
  datatype World = World(
    result: BodyResult,
    job: bool,                        // a carrier that raises had submitted its job
    lookup: Option<Class>,
    lock: Option<Class>,
    begin: Option<Class>,
    callback: Option<(nat, Class)>,   // which commit callback raises, and what
    release: Option<Class>,
    save: Option<Class>,
    requeue: Option<Class>,
    jitter: nat)

  /** No store operation raises, the body enqueues nothing, and a body that raises has left
      no Batch job behind. */
  predicate Undisturbed(w: World) {
    && w.lookup.None? && w.lock.None? && w.begin.None? && w.callback.None?
    && w.release.None? && w.save.None? && w.requeue.None?
    && Childless(w.result) && !w.job
  }

  predicate Childless(r: BodyResult) {
    r.Returns? ==> r.calls == []
  }

  function BodyOutcome(r: BodyResult): Outcome {
    match r
    case Returns(value, _) => Value(value)
    case Raises(error) => Error(error)
  }

  /** How the commit callbacks end: the first that raises, if it is reached. */
  predicate CallbackRaises(w: World, calls: seq<Task>) {
    w.callback.Some? && w.callback.value.0 < |calls|
  }

  /** What is on its way out of the transaction, whatever other workers do: what the body
      returned, unless it, the beginning or a callback raised. */
  function Pending(w: World): Outcome {
    if w.begin.Some? then Error(w.begin.value)
    else
      match w.result
      case Raises(error) => Error(error)
      case Returns(value, calls) => if CallbackRaises(w, calls) then Error(w.callback.value.1) else Value(value)
  }

  /** The outcomes an attempt may conclude with: that one, or for a singleton an error of its
      lock in its place. */
  predicate MayConclude(w: World, singleton: bool, o: Outcome) {
    || o == Pending(w)
    || (singleton &&
        (|| o == Error(LOCK_ERROR)
         || (w.lock.Some? && o == Error(w.lock.value))
         || (w.release.Some? && o == Error(w.release.value))))
  }

  /** The verdict an attempt saved is that on one of these outcomes. */
  ghost predicate Justified(cfg: Config, w: World, m: Message, saved: Option<Verdict>) {
    saved.Some? ==>
      && m.taskName in cfg.tasks
      && exists o: Outcome {:trigger MayConclude(w, cfg.tasks[m.taskName].singleton, o)} ::
           MayConclude(w, cfg.tasks[m.taskName].singleton, o) && saved == Some(VerdictOf(cfg, m, o))
  }

  /** What an execution that raised `e` may have raised it for: its settings, the lookup, the
      save or the missing row, an error no handler catches, or retries used up. */
  ghost predicate AttemptRaises(cfg: Config, w: World, m: Message, saved: Option<Verdict>, e: Class) {
    if !Resolvable(cfg, m.taskName) then saved.None? && e == CONFIGURATION_ERROR
    else if w.lookup.Some? then saved.None? && e == w.lookup.value
    else if saved.Some? then saved == Some(Exhausted) && e == MAX_RETRIES_EXCEEDED
    else
      || e == (if w.save.Some? then w.save.value else DATABASE_ERROR)
      || (MayConclude(w, cfg.tasks[m.taskName].singleton, Error(e)) && !IsSubclass(cfg.hierarchy, e, EXCEPTION))
  }

  /** The same, sending and running a retry included. */
  ghost predicate RaisesFor(cfg: Config, script: Message -> World, m: Message, saved: Option<Verdict>, e: Class,
                            eager: bool)
    decreases RetriesLeft(cfg, m)
  {
    if saved == Some(Retry) && m.nRetries < cfg.maxRetries then
      if script(m).requeue.Some? then e == script(m).requeue.value
      else eager && exists v: Option<Verdict> :: RaisesFor(cfg, script, Next(m), v, e, eager)
    else AttemptRaises(cfg, script(m), m, saved, e)
  }

  /** A clean verdict means that the body returned and nothing raised. */
  lemma CleanMeansReturned(cfg: Config, w: World, m: Message)
    requires Justified(cfg, w, m, Some(Clean))
    ensures w.begin.None? && w.result.Returns? && !CallbackRaises(w, w.result.calls)
  {
    var o :| MayConclude(w, cfg.tasks[m.taskName].singleton, o) && VerdictOf(cfg, m, o) == Clean;
  }

  function Outcomes(script: Message -> World): Script {
    m => BodyOutcome(script(m).result)
  }

  ghost predicate Leads(cfg: Config, s: State, ls: seq<Label>, s': State) {
    Legal(cfg, s, ls) && After(cfg, s, ls) == s'
  }

  lemma Join(cfg: Config, s: State, xs: seq<Label>, u: State, ys: seq<Label>, s': State)
    requires Leads(cfg, s, xs, u) && Leads(cfg, u, ys, s')
    ensures Leads(cfg, s, xs + ys, s')
  {
    Concatenate(cfg, s, xs, ys);
  }

  lemma Single(cfg: Config, s: State, l: Label)
    requires Enabled(cfg, s, l)
    ensures Leads(cfg, s, [l], Apply(cfg, s, l))
  {
    assert [l][1..] == [];
  }

  lemma OneMove(cfg: Config, s: State, a: AttemptId, x: Action, m: Move, s': State)
    requires a in s.attempts && Can(cfg, s, s.attempts[a], x)
    requires m == MoveOf(cfg, s, a, s.attempts[a], x) && s' == Put(s, a, m)
    ensures Leads(cfg, s, [Act(a, x)], s')
  {
    Single(cfg, s, Act(a, x));
  }

  lemma Acquired(cfg: Config, s: State, a: AttemptId, singleton: bool, hard: int, fault: Option<Class>, s': State)
    requires a in s.attempts && s.attempts[a].phase.Recorded?
    requires Resolved(cfg, s.attempts[a].message, singleton, hard) && (fault.Some? ==> singleton)
    requires s' == Put(s, a, DoAcquire(s, a, s.attempts[a], singleton, hard, fault))
    ensures Leads(cfg, s, [Act(a, Action.Acquire(fault))], s')
  {
    Single(cfg, s, Act(a, Action.Acquire(fault)));
  }

  lemma Released(cfg: Config, s: State, a: AttemptId, fault: Option<Class>, s': State)
    requires a in s.attempts && s.attempts[a].phase.Releasing? && (fault.Some? ==> s.attempts[a].lease.Some?)
    requires s' == Put(s, a, DoRelease(s, a, s.attempts[a], fault))
    ensures Leads(cfg, s, [Act(a, Action.Release(fault))], s')
  {
    Single(cfg, s, Act(a, Action.Release(fault)));
  }

  lemma Saved(cfg: Config, s: State, a: AttemptId, v: Verdict, fault: Option<Class>, s': State)
    requires a in s.attempts && s.attempts[a].phase.Concluding?
    requires Resolvable(cfg, s.attempts[a].message.taskName)
    requires v == VerdictOf(cfg, s.attempts[a].message, s.attempts[a].phase.outcome)
    requires s' == Put(s, a, DoSave(s, s.attempts[a], v, fault))
    ensures Leads(cfg, s, [Act(a, Action.Save(fault))], s')
  {
    Single(cfg, s, Act(a, Action.Save(fault)));
  }

  /** The wrapper's lock settings, as resolved for this execution. */
  predicate Resolved(cfg: Config, m: Message, singleton: bool, hard: int) {
    && Resolvable(cfg, m.taskName)
    && singleton == cfg.tasks[m.taskName].singleton
    && hard == HardTimeout(cfg, m.taskName)
  }

  /** The row an attempt leaves as it saves: it shows an outcome the attempt may conclude with,
      on which its verdict is; and the value its body returned if that is clean. */
  ghost predicate RowSays(cfg: Config, w: World, m: Message, row: Record, v: Verdict, now: nat) {
    && m.taskName in cfg.tasks
    && row.status == (match v
                      case Clean => Succeeded
                      case Ignored => Succeeded
                      case Retry => Retried
                      case Exhausted => Failed
                      case Failure => Failed
                      case Escaped => Running)
    && (v.Clean? ==> w.result.Returns? && row.result == Some(w.result.value))
    && exists o: Outcome {:trigger MayConclude(w, cfg.tasks[m.taskName].singleton, o)} ::
         && MayConclude(w, cfg.tasks[m.taskName].singleton, o)
         && v == VerdictOf(cfg, m, o) && Shows(cfg, m, row, o, now)
  }

  lemma RowSaysOutcome(cfg: Config, w: World, m: Message, row: Record, v: Verdict, o: Outcome, now: nat)
    requires m.taskName in cfg.tasks && MayConclude(w, cfg.tasks[m.taskName].singleton, o)
    requires v == VerdictOf(cfg, m, o) && !v.Escaped? && Shows(cfg, m, row, o, now)
    ensures RowSays(cfg, w, m, row, v, now)
  {
    if o.Error? {
      EffectiveMatches(cfg.hierarchy, cfg.tasks[m.taskName], o.error);
    }
  }

  lemma RaisesOutcome(cfg: Config, w: World, m: Message, v: Verdict, o: Outcome, e: Class)
    requires Resolvable(cfg, m.taskName) && MayConclude(w, cfg.tasks[m.taskName].singleton, o)
    requires v == VerdictOf(cfg, m, o) && w.lookup.None?
    requires if v.Escaped? then o.Error? && e == o.error
             else e == if w.save.Some? then w.save.value else DATABASE_ERROR
    ensures AttemptRaises(cfg, w, m, None, e)
  {
  }

  /** What an attempt that ended in a given way has done. */
  predicate EndsAs(t: Attempt, ending: Ending, eager: bool) {
    match ending
    case Skipped => !t.created
    case Returned =>
      && t.saved.Some? && !t.saved.value.Exhausted? && !t.saved.value.Escaped?
      && (t.saved.value.Retry? ==> t.spawned.Some?)
    case Raised(_) =>
      match t.saved
      case None => true
      case Some(v) => v.Exhausted? || (v.Retry? && (t.spawned.None? || eager))
  }

  /** A finished attempt takes no more steps. */
  lemma {:induction false} FinishedStays(cfg: Config, s: State, ls: seq<Label>, a: AttemptId)
    requires a in s.attempts && Over(s.attempts[a].phase) && Legal(cfg, s, ls)
    ensures Undone(s, After(cfg, s, ls), a)
    decreases |ls|
  {
    if ls != [] {
      StepLeavesAttempt(cfg, s, ls[0], a);
      FinishedStays(cfg, Apply(cfg, s, ls[0]), ls[1..], a);
    }
  }

  lemma {:induction false} RunKeepsSent(cfg: Config, s: State, ls: seq<Label>)
    requires Legal(cfg, s, ls)
    ensures Grows(s, After(cfg, s, ls).sent)
    decreases |ls|
  {
    if ls != [] {
      if ls[0].Act? {
        MoveKeepsSent(cfg, s, ls[0].a, s.attempts[ls[0].a], ls[0].action);
      }
      RunKeepsSent(cfg, Apply(cfg, s, ls[0]), ls[1..]);
    }
  }

  /** The label is a step of attempt `a`. */
  predicate Concerns(l: Label, a: AttemptId) {
    (l.Act? || l.Deliver?) && l.a == a
  }

  /** What other workers cannot change for an attempt. */
  ghost predicate Undone(s: State, s': State, a: AttemptId) {
    && a in s.attempts && a in s'.attempts
    && s'.attempts[a] == s.attempts[a].(orphaned := s'.attempts[a].orphaned)
    && Grows(s, s'.sent)
  }

  /** The messages were sent for the tasks, one each, in order. */
  predicate SentFor(sent: map<Id, Dispatch>, ids: seq<Id>, tasks: seq<Task>) {
    |ids| == |tasks| && forall i | 0 <= i < |ids| :: ids[i] in sent && sent[ids[i]].task == tasks[i]
  }

  lemma OneMoreSent(before: map<Id, Dispatch>, sent: map<Id, Dispatch>, ids: seq<Id>, tasks: seq<Task>, i: nat, q: Id)
    requires i < |tasks| && SentFor(before, ids, tasks[..i])
    requires forall p | p in before :: p in sent && sent[p] == before[p]
    requires q in sent && sent[q].task == tasks[i]
    ensures SentFor(sent, ids + [q], tasks[..i + 1])
  {
  }

  /** What the guarded block keeps of its attempt. */
  predicate Kept(t: Attempt, u: Attempt) {
    u.lease == t.lease && u.saved == t.saved && u.spawned == t.spawned
  }

  lemma StepLeavesAttempt(cfg: Config, s: State, l: Label, a: AttemptId)
    requires a in s.attempts && Enabled(cfg, s, l) && !Concerns(l, a)
    ensures Undone(s, Apply(cfg, s, l), a)
  {
    if l.Act? {
      MoveKeepsSent(cfg, s, l.a, s.attempts[l.a], l.action);
    }
  }

  lemma {:induction false} OthersLeaveAttempt(cfg: Config, s: State, ls: seq<Label>, a: AttemptId)
    requires a in s.attempts && Legal(cfg, s, ls)
    requires forall l | l in ls :: !Concerns(l, a)
    ensures Undone(s, After(cfg, s, ls), a)
    decreases |ls|
  {
    if ls != [] {
      assert ls[0] in ls;
      StepLeavesAttempt(cfg, s, ls[0], a);
      OthersLeaveAttempt(cfg, Apply(cfg, s, ls[0]), ls[1..], a);
    }
  }

  /** What an undisturbed execution leaves and answers, in either mode. */
  ghost predicate AsSpecified(cfg: Config, eager: bool, st: Store, id: Id, m: Message, script: Script,
                              st': Store, ending: Ending)
  {
    if eager then (st', ending) == Nested(cfg, st, id, m, script)
    else st' == Sequential.Deliver(cfg, st, id, m, script) && ending == EndingOf(cfg, st, id, m, script)
  }

  /** The same for what follows the attempt itself, once a retry is due. */
  ghost predicate FollowedUp(cfg: Config, eager: bool, st: Store, m: Message, script: Script,
                             st': Store, ending: Ending)
  {
    if eager then
      var (last, nested) := Nested(cfg, st.(nextId := st.nextId + 1), st.nextId, Next(m), script);
      st' == last && ending == if nested.Skipped? then Returned else nested
    else
      && st' == st.(queue := st.queue + [(st.nextId, Next(m))], nextId := st.nextId + 1)
      && ending == Returned
  }

  lemma AttemptThenFollowUp(cfg: Config, eager: bool, st: Store, id: Id, m: Message, script: Script,
                            st': Store, ending: Ending)
    requires Retries(cfg, st, id, m, script)
    requires FollowedUp(cfg, eager, Attempted(cfg, st, id, m, script), m, script, st', ending)
    ensures AsSpecified(cfg, eager, st, id, m, script, st', ending)
  {
  }

  /** What an attempt does after its record is created does not depend on the new row. */
  lemma AdmittedThenPerformed(cfg: Config, st: Store, admitted: Store, id: Id, m: Message, script: Script,
                              v: Verdict, last: Store)
    requires !Rejected(cfg, st, id, m)
    requires admitted == st.(records := st.records[id := NewRecord(m, st.now)])
    requires v == VerdictFor(cfg, admitted, m, script)
    requires last == WithJob(admitted, m, Submits(cfg, admitted, m, script)).(
                       records := admitted.records[id := RowFor(cfg, admitted, m, script)],
                       locks := LocksAfter(cfg, admitted, m))
    ensures v == VerdictFor(cfg, st, m, script)
    ensures OutcomeOf(cfg, admitted, m, script) == OutcomeOf(cfg, st, m, script)
    ensures last == Attempted(cfg, st, id, m, script)
  {
    var row := RowFor(cfg, st, m, script);
    assert st.records[id := NewRecord(m, st.now)][id := row] == st.records[id := row];
  }

  /** A `TaskRecord` in memory. */
  class TaskRecord {
    const pk: Id
    var status: Status
    var endTime: Option<nat>
    var result: Option<int>
    var traceback: Option<Class>

    constructor (pk: Id)
      ensures this.pk == pk && status == Running && endTime == None && result == None && traceback == None
    {
      this.pk := pk;
      status, endTime, result, traceback := Running, None, None, None;
    }
  }

  datatype Field = StatusField | EndTimeField | ResultField | TracebackField

  /** The row after an update of the named fields. */
  function Updated(row: Record, status: Status, endTime: Option<nat>, result: Option<int>, traceback: Option<Class>,
                   fields: set<Field>): Record
  {
    row.(status := if StatusField in fields then status else row.status,
         endTime := if EndTimeField in fields then endTime else row.endTime,
         result := if ResultField in fields then result else row.result,
         traceback := if TracebackField in fields then traceback else row.traceback)
  }

  datatype Lookup = LookupFailed(error: Class) | Existing | New(record: TaskRecord)

  class Process {
    const cfg: Config
    const eager: bool
    var now: nat
    var sent: map<Id, Dispatch>
    var records: map<Id, Record>
    var locks: map<string, Lease>
    var nextId: Id
    var queue: seq<(Id, Message)>
    var jobs: seq<(Id, Message)>    // submitted to AWS Batch
    var messageId: Option<Id>       // `task_logger.message_id`
    ghost var owner: map<Id, AttemptId>
    ghost var attempts: map<AttemptId, Attempt>
    ghost var deleted: multiset<Id>
    var nextAttempt: AttemptId     // also the token of the attempt's lock

    /** The protocol state this process and its stores are in. */
    ghost function View(): State
      reads this
    {
      State(now, sent, records, owner, locks, attempts, deleted)
    }

    function Snapshot(): Store
      reads this
    {
      Store(now, records, locks, nextId, queue, jobs)
    }

    ghost predicate Valid()
      reads this
    {
      && (forall id | id in sent :: id < nextId)
      && (forall a | a in attempts :: a < nextAttempt)
    }

    ghost predicate Working(a: AttemptId, id: Id, m: Message)
      reads this
    {
      && Valid()
      && a in attempts && attempts[a].id == id && attempts[a].message == m
      && id in sent
    }

    /** Other workers take any number of steps; none if the process is alone. Callers know
        only this contract: what is proved of them holds for every way of meeting it, of
        which the body is one. */
    method Interfere(a: AttemptId, ghost alone: bool) returns (ghost others: seq<Label>)
      requires Valid() && a in attempts
      modifies this
      ensures Valid()
      ensures Leads(cfg, old(View()), others, View())
      ensures Undone(old(View()), View(), a)
      ensures messageId == old(messageId)
      ensures alone ==> View() == old(View()) && Snapshot() == old(Snapshot())
    {
      others := [];
    }

    method Receive(ghost id: Id, ghost m: Message) returns (a: AttemptId, ghost trace: seq<Label>)
      requires Valid() && id in sent && sent[id].task.message == m
      modifies this`attempts, this`nextAttempt
      ensures Working(a, id, m) && attempts[a] == NewAttempt(id, m)
      ensures a !in old(attempts)
      ensures Leads(cfg, old(View()), trace, View())
    {
      a := nextAttempt;
      attempts := attempts[a := NewAttempt(id, m)];
      nextAttempt := nextAttempt + 1;
      trace := [Label.Deliver(a, id)];
      Single(cfg, old(View()), Label.Deliver(a, id));
    }

    /** `TaskRecord.objects.get_or_create(pk=..., defaults=...)`. */
    method GetOrCreate(a: AttemptId, id: Id, m: Message, fault: Option<Class>)
      returns (found: Lookup, ghost trace: seq<Label>)
      requires Working(a, id, m) && attempts[a].phase.Received? && Resolvable(cfg, m.taskName)
      modifies this`records, this`owner, this`attempts
      ensures Working(a, id, m)
      ensures Leads(cfg, old(View()), trace, View())
      ensures found.LookupFailed? <==> fault.Some?
      ensures found.LookupFailed? ==> found.error == fault.value
      ensures found.New? <==> fault.None? && id !in old(records)
      ensures found.New? ==>
                && fresh(found.record) && found.record.pk == id
                && found.record.result.None? && found.record.traceback.None?
                && attempts[a] == old(attempts[a]).(phase := Recorded, created := true)
                && records == old(records)[id := NewRecord(m, now)] && IsNew(records[id], m, now)
      ensures !found.New? ==> records == old(records) && attempts[a] == old(attempts[a]).(phase := Done)
    {
      ghost var s := View();
      trace := [Act(a, Action.GetOrCreate(fault))];
      if fault.Some? {
        found := LookupFailed(fault.value);
        attempts := attempts[a := attempts[a].(phase := Done)];
      } else if id in records {
        found := Existing;
        attempts := attempts[a := attempts[a].(phase := Done)];
      } else {
        var record := new TaskRecord(id);
        records := records[id := NewRecord(m, now)];
        owner := owner[id := a];
        attempts := attempts[a := attempts[a].(phase := Recorded, created := true)];
        found := New(record);
      }
      OneMove(cfg, s, a, Action.GetOrCreate(fault), DoGetOrCreate(cfg, s, a, s.attempts[a], fault), View());
    }

    /** The lock itself: taken without waiting, for as long as the hard timeout. */
    method TakeLock(name: string, holder: AttemptId, hard: int, fault: Option<Class>) returns (error: Option<Class>)
      modifies this`locks
      ensures error == if fault.Some? then fault else if Free(old(locks), name, now) then None else Some(LOCK_ERROR)
      ensures locks == if error.None? then old(locks)[name := Lease(holder, now + hard)] else old(locks)
    {
      if fault.Some? {
        return fault;
      }
      if name in locks && now <= locks[name].expiry {
        return Some(LOCK_ERROR);
      }
      locks := locks[name := Lease(holder, now + hard)];
      return None;
    }

    /** `cache.lock(...).__enter__` */
    method EnterLock(a: AttemptId, ghost id: Id, m: Message, hard: int, fault: Option<Class>)
      returns (error: Option<Class>, ghost trace: seq<Label>)
      requires Working(a, id, m) && attempts[a].phase.Recorded?
      requires Resolved(cfg, m, true, hard)
      modifies this`locks, this`attempts
      ensures Working(a, id, m)
      ensures Leads(cfg, old(View()), trace, View())
      ensures error == if fault.Some? then fault
                       else if Free(old(locks), m.taskName, now) then None else Some(LOCK_ERROR)
      ensures locks == if error.None? then old(locks)[m.taskName := Lease(a, now + hard)] else old(locks)
      ensures attempts[a].phase == if error.Some? then Concluding(Error(error.value)) else Guarded
      ensures error.None? ==> attempts[a].lease == Some(now + hard)
      ensures attempts[a].saved == old(attempts[a].saved) && attempts[a].spawned == old(attempts[a].spawned)
      ensures attempts[a].job == old(attempts[a].job)
    {
      ghost var s := View();
      error := TakeLock(m.taskName, a, hard, fault);
      attempts := attempts[a := DoAcquire(s, a, attempts[a], true, hard, fault).attempt];
      trace := [Act(a, Action.Acquire(fault))];
      Acquired(cfg, s, a, true, hard, fault, View());
    }

    /** The null context of a task that is no singleton. */
    method EnterNullContext(a: AttemptId, ghost id: Id, ghost m: Message, ghost hard: int)
      returns (ghost trace: seq<Label>)
      requires Working(a, id, m) && attempts[a].phase.Recorded?
      requires Resolved(cfg, m, false, hard)
      modifies this`attempts
      ensures Working(a, id, m)
      ensures Leads(cfg, old(View()), trace, View())
      ensures attempts[a] == old(attempts[a]).(phase := Guarded)
    {
      ghost var s := View();
      attempts := attempts[a := attempts[a].(phase := Guarded)];
      trace := [Act(a, Action.Acquire(None))];
      Acquired(cfg, s, a, false, hard, None, View());
    }

    /** `lock_ctx.__enter__` */
    method Acquire(a: AttemptId, ghost id: Id, m: Message, singleton: bool, hard: int, fault: Option<Class>)
      returns (error: Option<Class>, ghost trace: seq<Label>)
      requires Working(a, id, m) && attempts[a].phase.Recorded? && attempts[a].lease.None?
      requires Resolved(cfg, m, singleton, hard)
      modifies this`locks, this`attempts
      ensures Working(a, id, m)
      ensures Leads(cfg, old(View()), trace, View())
      ensures error == (if !singleton then None
                        else if fault.Some? then fault
                        else if Free(old(locks), m.taskName, now) then None else Some(LOCK_ERROR))
      ensures locks == (if singleton && error.None?
                        then old(locks)[m.taskName := Lease(a, now + hard)] else old(locks))
      ensures attempts[a].phase == if error.Some? then Concluding(Error(error.value)) else Guarded
      ensures error.None? ==> attempts[a].lease == if singleton then Some(now + hard) else None
      ensures attempts[a].saved == old(attempts[a].saved) && attempts[a].spawned == old(attempts[a].spawned)
      ensures attempts[a].job == old(attempts[a].job)
    {
      if singleton {
        error, trace := EnterLock(a, id, m, hard, fault);
      } else {
        error := None;
        trace := EnterNullContext(a, id, m, hard);
      }
    }

    /** Giving the lock back: an error unless it is still held. */
    method ReturnLock(name: string, holder: AttemptId, fault: Option<Class>) returns (error: Option<Class>)
      modifies this`locks
      ensures
        var held := Holds(old(locks), name, holder, now);
        && error == (if fault.Some? then fault else if held then None else Some(LOCK_ERROR))
        && locks == (if fault.None? && held then old(locks) - {name} else old(locks))
    {
      if fault.Some? {
        return fault;
      }
      if name in locks && locks[name].holder == holder && now <= locks[name].expiry {
        locks := locks - {name};
        return None;
      }
      return Some(LOCK_ERROR);
    }

    /** `cache.lock(...).__exit__`, or the null context. */
    method Release(a: AttemptId, ghost id: Id, m: Message, singleton: bool, pending: Outcome, fault: Option<Class>)
      returns (outcome: Outcome, ghost trace: seq<Label>)
      requires Working(a, id, m) && attempts[a].phase == Releasing(pending)
      requires attempts[a].lease.Some? <==> singleton
      modifies this`locks, this`attempts
      ensures Working(a, id, m)
      ensures Leads(cfg, old(View()), trace, View())
      ensures attempts[a].phase == Concluding(outcome)
      ensures attempts[a].saved == old(attempts[a].saved) && attempts[a].spawned == old(attempts[a].spawned)
      ensures
        var held := Holds(old(locks), m.taskName, a, now);
        && outcome == (if !singleton then pending
                       else if fault.Some? then Error(fault.value)
                       else if held then pending else Error(LOCK_ERROR))
        && locks == (if singleton && fault.None? && held then old(locks) - {m.taskName} else old(locks))
    {
      ghost var s := View();
      ghost var x := Action.Release(if singleton then fault else None);
      outcome := pending;
      if singleton {
        var error := ReturnLock(m.taskName, a, fault);
        if error.Some? {
          outcome := Error(error.value);
        }
      }
      ghost var move := DoRelease(s, a, s.attempts[a], x.fault);
      attempts := attempts[a := move.attempt];
      trace := [Act(a, x)];
      Released(cfg, s, a, x.fault, View());
    }

    // ---- inside the lock ----

    /** Opening the transaction and arming the alarm, then calling the task: up to the point
        where the block is left, by commit or rollback. */
    method Enter(a: AttemptId, ghost id: Id, ghost m: Message, fault: Option<Class>)
      returns (ghost trace: seq<Label>)
      requires Working(a, id, m) && attempts[a].phase.Guarded?
      modifies this`attempts
      ensures Working(a, id, m)
      ensures Leads(cfg, old(View()), trace, View())
      ensures Kept(old(attempts[a]), attempts[a]) && attempts[a].job == old(attempts[a].job)
      ensures attempts[a].phase == if fault.Some? then Releasing(Error(fault.value)) else Body
    {
      ghost var s := View();
      attempts := attempts[a := DoStart(s, attempts[a], fault).attempt];
      trace := [Act(a, Start(fault))];
      OneMove(cfg, s, a, Start(fault), DoStart(s, s.attempts[a], fault), View());
    }

    /** `client.submit_job(...)`: the job gets a fresh id. */
    method SubmitJob(a: AttemptId, ghost id: Id, m: Message) returns (ghost trace: seq<Label>)
      requires Working(a, id, m) && attempts[a].phase.Body? && attempts[a].job.None? && IsCarrier(m)
      modifies this`sent, this`nextId, this`jobs, this`attempts
      ensures Working(a, id, m)
      ensures Leads(cfg, old(View()), trace, View())
      ensures Kept(old(attempts[a]), attempts[a]) && attempts[a].phase.Body?
      ensures attempts[a].job == Some(old(nextId))
      ensures Snapshot() == WithJob(old(Snapshot()), m, true)
      ensures old(nextId) in sent && sent[old(nextId)].task.message == m.kwargs.inner
    {
      ghost var s := View();
      ghost var x := Action.SubmitJob(nextId);
      ghost var move := DoSubmitJob(s, attempts[a], nextId);
      sent := sent[nextId := Dispatch(Task(m.kwargs.inner, 0, m.kwargs.batchQueue), nextId, None)];
      jobs := jobs + [(nextId, m.kwargs.inner)];
      nextId := nextId + 1;
      attempts := attempts[a := move.attempt];
      trace := [Act(a, x)];
      OneMove(cfg, s, a, x, move, View());
    }

    /** The body, with other workers before and after what it does: that of a carrier submits
        its job and returns, or raises without having done so or in spite of it. */
    method RunBody(a: AttemptId, ghost id: Id, m: Message, w: World, ghost alone: bool)
      returns (ghost trace: seq<Label>)
      requires Working(a, id, m) && attempts[a].phase.Body? && attempts[a].job.None?
      modifies this
      ensures Working(a, id, m)
      ensures Leads(cfg, old(View()), trace, View())
      ensures Kept(old(attempts[a]), attempts[a]) && attempts[a].phase.Body?
      ensures attempts[a].job.Some? <==> IsCarrier(m) && (w.result.Returns? || w.job)
      ensures messageId == old(messageId)
      ensures alone && !w.job ==> Snapshot() == WithJob(old(Snapshot()), m, IsCarrier(m) && w.result.Returns?)
    {
      ghost var s := View();
      trace := Interfere(a, alone);
      if IsCarrier(m) && (w.result.Returns? || w.job) {
        ghost var u := View();
        ghost var more := SubmitJob(a, id, m);
        Join(cfg, s, trace, u, more, View());
        trace := trace + more;
        u := View();
        more := Interfere(a, alone);
        Join(cfg, s, trace, u, more, View());
        trace := trace + more;
      }
    }

    method Finish(a: AttemptId, ghost id: Id, ghost m: Message, result: BodyResult)
      returns (ghost trace: seq<Label>)
      requires Working(a, id, m) && attempts[a].phase.Body?
      requires result.Returns? && IsCarrier(m) ==> attempts[a].job.Some?
      modifies this`attempts
      ensures Working(a, id, m)
      ensures Leads(cfg, old(View()), trace, View())
      ensures Kept(old(attempts[a]), attempts[a]) && attempts[a].job == old(attempts[a].job)
      ensures attempts[a].phase ==
              if result.Raises? then Releasing(Error(result.error)) else Callbacks(result.calls, result.value)
    {
      ghost var s := View();
      attempts := attempts[a := DoFinish(s, attempts[a], result).attempt];
      trace := [Act(a, Action.Finish(result))];
      OneMove(cfg, s, a, Action.Finish(result), DoFinish(s, s.attempts[a], result), View());
    }

    /** `client.send_message(...)`: the message gets a fresh id. */
    method Publish(a: AttemptId, ghost id: Id, ghost m: Message, task: Task)
      returns (ghost trace: seq<Label>)
      requires Working(a, id, m)
      requires attempts[a].phase.Callbacks? && attempts[a].phase.rest != [] && attempts[a].phase.rest[0] == task
      modifies this`sent, this`nextId, this`queue, this`attempts
      ensures Working(a, id, m)
      ensures Leads(cfg, old(View()), trace, View())
      ensures Kept(old(attempts[a]), attempts[a]) && attempts[a].job == old(attempts[a].job)
      ensures attempts[a].phase == Callbacks(old(attempts[a].phase.rest)[1..], old(attempts[a].phase.value))
      ensures queue == old(queue) + [(old(nextId), task.message)] && nextId == old(nextId) + 1
      ensures attempts[a].published == old(attempts[a].published) + [old(nextId)]
      ensures Grows(old(View()), sent) && old(nextId) in sent && sent[old(nextId)].task == task
    {
      ghost var s := View();
      ghost var x := Action.Publish(nextId);
      ghost var move := DoPublish(s, attempts[a], nextId);
      sent := sent[nextId := Dispatch(task, nextId, None)];
      queue := queue + [(nextId, task.message)];
      nextId := nextId + 1;
      attempts := attempts[a := move.attempt];
      trace := [Act(a, x)];
      OneMove(cfg, s, a, x, move, View());
    }

    /** Leaving the transaction, after its last callback or with one that raised. */
    method EndCallbacks(a: AttemptId, ghost id: Id, ghost m: Message, value: int, error: Option<Class>)
      returns (pending: Outcome, ghost trace: seq<Label>)
      requires Working(a, id, m) && attempts[a].phase.Callbacks? && attempts[a].phase.value == value
      requires error.Some? <==> attempts[a].phase.rest != []
      modifies this`attempts
      ensures Working(a, id, m)
      ensures Leads(cfg, old(View()), trace, View())
      ensures Kept(old(attempts[a]), attempts[a]) && attempts[a].job == old(attempts[a].job)
      ensures attempts[a].published == old(attempts[a].published)
      ensures attempts[a].phase == Releasing(pending)
      ensures pending == if error.Some? then Error(error.value) else Value(value)
    {
      ghost var s := View();
      pending := if error.Some? then Error(error.value) else Value(value);
      ghost var x := if error.Some? then CallbackFails(error.value) else Leave;
      attempts := attempts[a := MoveOf(cfg, s, a, attempts[a], x).attempt];
      trace := [Act(a, x)];
      OneMove(cfg, s, a, x, MoveOf(cfg, s, a, s.attempts[a], x), View());
    }

    /** One callback, with other workers after it. */
    method RunCallback(a: AttemptId, ghost id: Id, ghost m: Message, value: int, task: Task, ghost alone: bool)
      returns (ghost newId: Id, ghost trace: seq<Label>)
      requires Working(a, id, m)
      requires attempts[a].phase.Callbacks? && attempts[a].phase.value == value
      requires attempts[a].phase.rest != [] && attempts[a].phase.rest[0] == task
      modifies this
      ensures Working(a, id, m)
      ensures Leads(cfg, old(View()), trace, View())
      ensures Kept(old(attempts[a]), attempts[a]) && attempts[a].job == old(attempts[a].job)
      ensures attempts[a].phase == Callbacks(old(attempts[a].phase.rest)[1..], value)
      ensures attempts[a].published == old(attempts[a].published) + [newId]
      ensures Grows(old(View()), sent) && newId in sent && sent[newId].task == task
      ensures messageId == old(messageId)
    {
      ghost var s := View();
      newId := nextId;
      trace := Publish(a, id, m, task);
      ghost var u := View();
      ghost var others := Interfere(a, alone);
      Join(cfg, s, trace, u, others, View());
      trace := trace + others;
    }

    /** The on-commit callbacks, in order, until one raises. */
    method RunCallbacks(a: AttemptId, ghost id: Id, ghost m: Message, value: int, calls: seq<Task>,
                        w: World, ghost alone: bool)
      returns (pending: Outcome, ghost trace: seq<Label>)
      requires Working(a, id, m) && attempts[a].phase == Callbacks(calls, value)
      modifies this
      ensures Working(a, id, m)
      ensures Leads(cfg, old(View()), trace, View())
      ensures Kept(old(attempts[a]), attempts[a]) && attempts[a].job == old(attempts[a].job)
      ensures attempts[a].phase == Releasing(pending)
      ensures messageId == old(messageId)
      ensures pending == if CallbackRaises(w, calls) then Error(w.callback.value.1) else Value(value)
      ensures
        var done := if CallbackRaises(w, calls) then w.callback.value.0 else |calls|;
        && old(attempts[a].published) <= attempts[a].published
        && SentFor(sent, attempts[a].published[|old(attempts[a].published)|..], calls[..done])
      ensures alone && calls == [] ==> pending == Value(value) && Snapshot() == old(Snapshot())
    {
      trace := [];
      ghost var news: seq<Id> := [];
      var i := 0;
      while i < |calls| && !(w.callback.Some? && w.callback.value.0 == i)
        invariant 0 <= i <= |calls|
        invariant Working(a, id, m)
        invariant Leads(cfg, old(View()), trace, View())
        invariant Kept(old(attempts[a]), attempts[a]) && attempts[a].job == old(attempts[a].job)
        invariant attempts[a].phase == Callbacks(calls[i..], value)
        invariant messageId == old(messageId)
        invariant w.callback.Some? ==> i <= w.callback.value.0
        invariant attempts[a].published == old(attempts[a].published) + news && SentFor(sent, news, calls[..i])
        invariant calls == [] ==> Snapshot() == old(Snapshot())
      {
        ghost var u := View();
        ghost var newId, more := RunCallback(a, id, m, value, calls[i], alone);
        Join(cfg, old(View()), trace, u, more, View());
        trace := trace + more;
        OneMoreSent(u.sent, sent, news, calls, i, newId);
        news := news + [newId];
        i := i + 1;
      }
      ghost var u := View();
      ghost var leaving;
      pending, leaving := EndCallbacks(a, id, m, value, if i < |calls| then Some(w.callback.value.1) else None);
      Join(cfg, old(View()), trace, u, leaving, View());
      trace := trace + leaving;
    }

    /** The body, and the commit or rollback that its end brings. */
    method CallTask(a: AttemptId, ghost id: Id, m: Message, w: World, ghost alone: bool)
      returns (ghost trace: seq<Label>)
      requires Working(a, id, m) && attempts[a].phase.Body? && attempts[a].job.None?
      modifies this
      ensures Working(a, id, m)
      ensures Leads(cfg, old(View()), trace, View())
      ensures Kept(old(attempts[a]), attempts[a])
      ensures attempts[a].phase == if w.result.Raises? then Releasing(Error(w.result.error))
                                   else Callbacks(w.result.calls, w.result.value)
      ensures attempts[a].job.Some? <==> IsCarrier(m) && (w.result.Returns? || w.job)
      ensures messageId == old(messageId)
      ensures alone && !w.job ==> Snapshot() == WithJob(old(Snapshot()), m, IsCarrier(m) && w.result.Returns?)
    {
      ghost var s := View();
      trace := RunBody(a, id, m, w, alone);
      ghost var u := View();
      ghost var more := Finish(a, id, m, w.result);
      Join(cfg, s, trace, u, more, View());
      trace := trace + more;
    }

    /** The transaction: the body under its alarm, then commit and callbacks, or rollback. */
    method Transaction(a: AttemptId, ghost id: Id, m: Message, w: World, ghost alone: bool)
      returns (pending: Outcome, ghost trace: seq<Label>)
      requires Working(a, id, m) && attempts[a].phase.Guarded? && attempts[a].job.None?
      modifies this
      ensures Working(a, id, m)
      ensures Leads(cfg, old(View()), trace, View())
      ensures Kept(old(attempts[a]), attempts[a]) && attempts[a].phase == Releasing(pending)
      ensures attempts[a].job.Some? <==> w.begin.None? && IsCarrier(m) && (w.result.Returns? || w.job)
      ensures messageId == old(messageId)
      ensures pending == Pending(w)
      ensures alone && Undisturbed(w) ==>
                && pending == BodyOutcome(w.result)
                && Snapshot() == WithJob(old(Snapshot()), m, IsCarrier(m) && pending.Value?)
    {
      ghost var s := View();
      trace := Enter(a, id, m, w.begin);
      if w.begin.Some? {
        return Error(w.begin.value), trace;
      }
      ghost var u := View();
      ghost var more := CallTask(a, id, m, w, alone);
      Join(cfg, s, trace, u, more, View());
      trace := trace + more;
      match w.result
      case Raises(error) =>
        pending := Error(error);
      case Returns(value, calls) =>
        u := View();
        pending, more := RunCallbacks(a, id, m, value, calls, w, alone);
        Join(cfg, s, trace, u, more, View());
        trace := trace + more;
    }

    /** The same, with other workers before and after it. */
    method Inside(a: AttemptId, ghost id: Id, m: Message, w: World, ghost alone: bool)
      returns (pending: Outcome, ghost trace: seq<Label>)
      requires Working(a, id, m) && attempts[a].phase.Guarded? && attempts[a].job.None?
      modifies this
      ensures Working(a, id, m)
      ensures Leads(cfg, old(View()), trace, View())
      ensures Kept(old(attempts[a]), attempts[a]) && attempts[a].phase == Releasing(pending)
      ensures attempts[a].job.Some? <==> w.begin.None? && IsCarrier(m) && (w.result.Returns? || w.job)
      ensures messageId == old(messageId)
      ensures pending == Pending(w)
      ensures alone && Undisturbed(w) ==>
                && pending == BodyOutcome(w.result)
                && Snapshot() == WithJob(old(Snapshot()), m, IsCarrier(m) && pending.Value?)
    {
      ghost var s := View();
      trace := Interfere(a, alone);
      ghost var u := View();
      ghost var more;
      pending, more := Transaction(a, id, m, w, alone);
      Join(cfg, s, trace, u, more, View());
      trace := trace + more;
      u := View();
      more := Interfere(a, alone);
      Join(cfg, s, trace, u, more, View());
      trace := trace + more;
    }

    /** What happens in the lock, and leaving it. */
    method Held(a: AttemptId, ghost id: Id, m: Message, singleton: bool, w: World, ghost alone: bool)
      returns (outcome: Outcome, ghost trace: seq<Label>)
      requires Working(a, id, m) && attempts[a].phase.Guarded? && attempts[a].job.None?
      requires attempts[a].lease.Some? <==> singleton
      modifies this
      ensures Working(a, id, m)
      ensures Leads(cfg, old(View()), trace, View())
      ensures attempts[a].phase == Concluding(outcome)
      ensures attempts[a].saved == old(attempts[a].saved) && attempts[a].spawned == old(attempts[a].spawned)
      ensures messageId == old(messageId)
      ensures MayConclude(w, singleton, outcome)
      ensures alone && Undisturbed(w) && (singleton ==> Holds(old(locks), m.taskName, a, old(now))) ==>
                && outcome == BodyOutcome(w.result)
                && Snapshot() == WithJob(old(Snapshot()), m, IsCarrier(m) && outcome.Value?).(
                     locks := if singleton then old(locks) - {m.taskName} else old(locks))
    {
      ghost var s := View();
      var pending;
      pending, trace := Inside(a, id, m, w, alone);
      ghost var u := View();
      ghost var more;
      outcome, more := Release(a, id, m, singleton, pending, w.release);
      Join(cfg, s, trace, u, more, View());
      trace := trace + more;
    }

    /** `with lock_ctx: with transaction.atomic(): with TimeoutContext(...)`. */
    method Guard(a: AttemptId, ghost id: Id, m: Message, singleton: bool, hard: int, w: World, ghost alone: bool)
      returns (outcome: Outcome, ghost trace: seq<Label>)
      requires Working(a, id, m) && attempts[a].phase.Recorded? && attempts[a].lease.None?
      requires attempts[a].job.None? && Resolved(cfg, m, singleton, hard)
      modifies this
      ensures Working(a, id, m)
      ensures Leads(cfg, old(View()), trace, View())
      ensures attempts[a].phase == Concluding(outcome)
      ensures attempts[a].saved == old(attempts[a].saved) && attempts[a].spawned == old(attempts[a].spawned)
      ensures messageId == old(messageId)
      ensures MayConclude(w, singleton, outcome)
      ensures alone && Undisturbed(w) ==>
                var taken := singleton && !Free(old(locks), m.taskName, old(now));
                && outcome == (if taken then Error(LOCK_ERROR) else BodyOutcome(w.result))
                && Snapshot() == WithJob(old(Snapshot()), m, IsCarrier(m) && outcome.Value?).(
                     locks := if singleton && !taken then old(locks) - {m.taskName} else old(locks))
    {
      ghost var s := View();
      var error;
      error, trace := Acquire(a, id, m, singleton, hard, w.lock);
      if error.Some? {
        return Error(error.value), trace;
      }
      ghost var u := View();
      ghost var more;
      outcome, more := Held(a, id, m, singleton, w, alone);
      Join(cfg, s, trace, u, more, View());
      trace := trace + more;
    }

    // ---- concluding ----

    /** `record.save(update_fields=...)`. */
    method Save(a: AttemptId, record: TaskRecord, ghost id: Id, ghost m: Message, ghost v: Verdict, ghost o: Outcome,
                fields: set<Field>, fault: Option<Class>)
      returns (error: Option<Class>, ghost trace: seq<Label>)
      requires Working(a, id, m) && attempts[a].phase == Concluding(o)
      requires Resolvable(cfg, m.taskName) && v == VerdictOf(cfg, m, o) && !v.Escaped?
      requires record.pk == id
      requires id in records ==>
                 Updated(records[id], record.status, record.endTime, record.result, record.traceback, fields)
                 == Conclude(records[id], v, o, now)
      modifies this`records, this`attempts
      ensures Working(a, id, m)
      ensures Leads(cfg, old(View()), trace, View())
      ensures error == if fault.Some? then fault else if id in old(records) then None else Some(DATABASE_ERROR)
      ensures records == if error.None? then old(records)[id := Conclude(old(records)[id], v, o, now)] else old(records)
      ensures error.None? ==> Shows(cfg, m, records[id], o, now)
      ensures attempts[a].phase == if error.None? && v.Retry? then Requeueing else Done
      ensures attempts[a].saved == if error.None? then Some(v) else old(attempts[a].saved)
      ensures attempts[a].spawned == old(attempts[a].spawned)
    {
      ghost var s := View();
      if id in records {
        ConcludedShows(cfg, m, records[id], o, now);
      }
      error := None;
      if fault.Some? {
        error := fault;
      } else if record.pk !in records {
        error := Some(DATABASE_ERROR);
      } else {
        var row := Updated(records[record.pk], record.status, record.endTime, record.result, record.traceback, fields);
        records := records[record.pk := row];
      }
      ghost var move := DoSave(s, s.attempts[a], v, fault);
      attempts := attempts[a := move.attempt];
      trace := [Act(a, Action.Save(fault))];
      Saved(cfg, s, a, v, fault, View());
    }

    /** What follows the guarded block: the verdict, recorded unless the error escapes. */
    method ConcludeAttempt(a: AttemptId, record: TaskRecord, ghost id: Id, m: Message, o: Outcome, w: World)
      returns (v: Verdict, error: Option<Class>, ghost trace: seq<Label>)
      requires Working(a, id, m) && attempts[a].phase == Concluding(o)
      requires Resolvable(cfg, m.taskName) && record.pk == id
      requires MayConclude(w, cfg.tasks[m.taskName].singleton, o)
      modifies this`records, this`attempts, record
      ensures Working(a, id, m)
      ensures Leads(cfg, old(View()), trace, View())
      ensures v == VerdictOf(cfg, m, o)
      ensures error == if v.Escaped? then Some(o.error)
                       else if w.save.Some? then w.save
                       else if id in old(records) then None else Some(DATABASE_ERROR)
      ensures records == if error.None? then old(records)[id := Conclude(old(records)[id], v, o, now)] else old(records)
      ensures error.None? ==> Shows(cfg, m, records[id], o, now) && RowSays(cfg, w, m, records[id], v, now)
      ensures error.Some? && w.lookup.None? ==> AttemptRaises(cfg, w, m, None, error.value)
      ensures attempts[a].phase == if error.None? && v.Retry? then Requeueing else Done
      ensures attempts[a].saved == if error.None? then Some(v) else old(attempts[a].saved)
      ensures attempts[a].spawned == old(attempts[a].spawned)
    {
      v := VerdictOf(cfg, m, o);
      if v.Escaped? {
        ghost var s := View();
        attempts := attempts[a := DoSave(s, attempts[a], v, None).attempt];
        trace := [Act(a, Action.Save(None))];
        Saved(cfg, s, a, v, None, View());
        error := Some(o.error);
      } else if o.Value? {
        record.status := Succeeded;
        record.result := Some(o.value);
        record.endTime := Some(now);
        error, trace := Save(a, record, id, m, v, o, {StatusField, ResultField, EndTimeField}, w.save);
      } else {
        record.status := StatusOf(v);
        record.traceback := Some(o.error);
        record.endTime := Some(now);
        error, trace := Save(a, record, id, m, v, o, {StatusField, TracebackField, EndTimeField}, w.save);
      }
      if error.None? {
        RowSaysOutcome(cfg, w, m, records[id], v, o, now);
      } else if w.lookup.None? {
        RaisesOutcome(cfg, w, m, v, o, error.value);
      }
    }

    // ---- retrying ----

    /** `retry_task.execute_on_commit()` in a worker's autocommit mode: the retry is sent, or
        in eager mode given an id and left to the caller to run. */
    method Requeue(a: AttemptId, id: Id, m: Message, w: World)
      returns (error: Option<Class>, newId: Id, ghost trace: seq<Label>)
      requires Working(a, id, m) && attempts[a].phase.Requeueing? && m.taskName in cfg.tasks
      modifies this`sent, this`nextId, this`queue, this`attempts
      ensures Working(a, id, m)
      ensures Leads(cfg, old(View()), trace, View())
      ensures error == w.requeue
      ensures attempts[a] == old(attempts[a]).(phase := Done,
                                               spawned := if error.None? then Some(newId) else old(attempts[a].spawned))
      ensures error.None? ==>
                && newId == old(nextId) && nextId == old(nextId) + 1
                && newId in sent && sent[newId].task == RetryTask(cfg.tasks[m.taskName], m, 1 + w.jitter % 5)
                && queue == if eager then old(queue) else old(queue) + [(newId, Next(m))]
      ensures error.Some? ==> queue == old(queue) && nextId == old(nextId) && sent == old(sent)
    {
      ghost var s := View();
      error, newId := w.requeue, nextId;
      if w.requeue.Some? {
        attempts := attempts[a := attempts[a].(phase := Done)];
        trace := [Act(a, RequeueFails)];
        OneMove(cfg, s, a, RequeueFails, Stay(s, attempts[a]), View());
      } else {
        var jitter := 1 + w.jitter % 5;
        var task := RetryTask(cfg.tasks[m.taskName], m, jitter);
        ghost var move := DoRequeue(cfg, s, a, s.attempts[a], newId, jitter);
        sent := sent[newId := Dispatch(task, sent[id].root, Some(a))];
        nextId := nextId + 1;
        if !eager {
          queue := queue + [(newId, task.message)];
        }
        attempts := attempts[a := move.attempt];
        trace := [Act(a, Action.Requeue(newId, jitter))];
        OneMove(cfg, s, a, Action.Requeue(newId, jitter), move, View());
      }
    }

    /** A delivery, with other workers after it. */
    method Arrive(ghost id: Id, ghost m: Message, ghost alone: bool) returns (a: AttemptId, ghost trace: seq<Label>)
      requires Valid() && id in sent && sent[id].task.message == m
      modifies this
      ensures Working(a, id, m) && a !in old(attempts)
      ensures attempts[a] == NewAttempt(id, m).(orphaned := attempts[a].orphaned)
      ensures Leads(cfg, old(View()), trace, View())
      ensures messageId == old(messageId)
      ensures alone ==> Snapshot() == old(Snapshot())
    {
      ghost var s := View();
      a, trace := Receive(id, m);
      ghost var u := View();
      ghost var more := Interfere(a, alone);
      Join(cfg, s, trace, u, more, View());
      trace := trace + more;
    }

    /** From a delivery to its record: turned away, or an attempt with a new record. */
    method Admit(id: Id, m: Message, w: World, ghost alone: bool)
      returns (a: AttemptId, refused: Option<Ending>, record: TaskRecord?, ghost trace: seq<Label>)
      requires Valid() && id in sent && sent[id].task.message == m
      modifies this
      ensures Working(a, id, m)
      ensures Leads(cfg, old(View()), trace, View())
      ensures messageId == old(messageId)
      ensures refused.None? ==>
                && record != null && fresh(record) && record.pk == id
                && Resolvable(cfg, m.taskName)
                && attempts[a].phase.Recorded? && attempts[a].lease.None? && attempts[a].job.None?
      ensures a !in old(attempts) && attempts[a].saved.None? && attempts[a].spawned.None?
      ensures refused.Some? ==> EndsAs(attempts[a], refused.value, eager) && attempts[a].phase.Done?
      ensures refused == (if !Resolvable(cfg, m.taskName) then Some(Raised(CONFIGURATION_ERROR))
                          else if w.lookup.Some? then Some(Raised(w.lookup.value))
                          else if refused.Some? then Some(Skipped) else None)
      ensures alone && Undisturbed(w) ==>
                var st := old(Snapshot());
                && (refused.Some? <==> Rejected(cfg, st, id, m))
                && (refused.Some? ==> refused.value == if Resolvable(cfg, m.taskName) then Skipped
                                                       else Raised(CONFIGURATION_ERROR))
                && Snapshot() == (if refused.Some? then st
                                  else st.(records := st.records[id := NewRecord(m, st.now)]))
    {
      ghost var s := View();
      a, trace := Arrive(id, m, alone);
      record := null;
      ghost var u := View();
      ghost var more;
      if !Resolvable(cfg, m.taskName) {
        attempts := attempts[a := attempts[a].(phase := Done)];
        OneMove(cfg, u, a, Action.GetOrCreate(None), Stay(u, attempts[a]), View());
        Join(cfg, s, trace, u, [Act(a, Action.GetOrCreate(None))], View());
        trace := trace + [Act(a, Action.GetOrCreate(None))];
        refused := Some(Raised(CONFIGURATION_ERROR));
      } else {
        var found;
        found, more := GetOrCreate(a, id, m, w.lookup);
        Join(cfg, s, trace, u, more, View());
        trace := trace + more;
        match found
        case LookupFailed(error) => refused := Some(Raised(error));
        case Existing => refused := Some(Skipped);
        case New(r) => refused, record := None, r;
      }
    }

    /** The guarded block, with other workers before and after it. */
    method GuardedBlock(a: AttemptId, ghost id: Id, m: Message, w: World, ghost alone: bool)
      returns (outcome: Outcome, ghost trace: seq<Label>)
      requires Working(a, id, m) && attempts[a].phase.Recorded? && attempts[a].lease.None?
      requires attempts[a].job.None? && Resolvable(cfg, m.taskName)
      modifies this
      ensures Working(a, id, m)
      ensures Leads(cfg, old(View()), trace, View())
      ensures attempts[a].phase == Concluding(outcome)
      ensures attempts[a].saved == old(attempts[a].saved) && attempts[a].spawned == old(attempts[a].spawned)
      ensures messageId == old(messageId)
      ensures MayConclude(w, cfg.tasks[m.taskName].singleton, outcome)
      ensures alone && Undisturbed(w) ==>
                var st := old(Snapshot());
                && outcome == (if Contended(cfg, st, m) then Error(LOCK_ERROR) else BodyOutcome(w.result))
                && Snapshot() == WithJob(st, m, IsCarrier(m) && outcome.Value?).(locks := LocksAfter(cfg, st, m))
    {
      ghost var s := View();
      var singleton := cfg.tasks[m.taskName].singleton;
      var hard := HardTimeout(cfg, m.taskName);
      trace := Interfere(a, alone);
      ghost var u := View();
      ghost var more;
      outcome, more := Guard(a, id, m, singleton, hard, w, alone);
      Join(cfg, s, trace, u, more, View());
      trace := trace + more;
      u := View();
      more := Interfere(a, alone);
      Join(cfg, s, trace, u, more, View());
      trace := trace + more;
    }

    /** The attempt proper: the guarded block and its conclusion. */
    method Perform(a: AttemptId, record: TaskRecord, ghost id: Id, m: Message, w: World,
                   ghost script: Script, ghost alone: bool)
      returns (v: Verdict, error: Option<Class>, ghost trace: seq<Label>)
      requires Working(a, id, m) && attempts[a].phase.Recorded? && attempts[a].lease.None?
      requires attempts[a].saved.None? && attempts[a].job.None?
      requires Resolvable(cfg, m.taskName) && record.pk == id
      requires script(m) == BodyOutcome(w.result)
      modifies this, record
      ensures Working(a, id, m)
      ensures Leads(cfg, old(View()), trace, View())
      ensures messageId == old(messageId)
      ensures attempts[a].phase == if error.None? && v.Retry? then Requeueing else Done
      ensures attempts[a].saved == if error.None? then Some(v) else old(attempts[a].saved)
      ensures attempts[a].spawned == old(attempts[a].spawned)
      ensures error.None? ==> !v.Escaped?
      ensures v.Retry? ==> m.nRetries < cfg.maxRetries
      ensures Justified(cfg, w, m, Some(v))
      ensures error.None? ==> id in records && RowSays(cfg, w, m, records[id], v, now)
      ensures error.Some? && w.lookup.None? ==> AttemptRaises(cfg, w, m, None, error.value)
      ensures alone && Undisturbed(w) && id in old(records) && old(records)[id] == NewRecord(m, old(now)) ==>
                var st := old(Snapshot());
                && v == VerdictFor(cfg, st, m, script)
                && error == (if v.Escaped? then Some(OutcomeOf(cfg, st, m, script).error) else None)
                && Snapshot() == WithJob(st, m, Submits(cfg, st, m, script)).(
                     records := st.records[id := RowFor(cfg, st, m, script)], locks := LocksAfter(cfg, st, m))
    {
      ghost var s := View();
      var outcome;
      outcome, trace := GuardedBlock(a, id, m, w, alone);
      ghost var u := View();
      ghost var more;
      v, error, more := ConcludeAttempt(a, record, id, m, outcome, w);
      assert MayConclude(w, cfg.tasks[m.taskName].singleton, outcome) && v == VerdictOf(cfg, m, outcome);
      Join(cfg, s, trace, u, more, View());
      trace := trace + more;
    }

    /** One delivery, short of sending a retry; `ended` is None when one is to be sent. The
        logger has the message's id all the while. */
    method Attempt(id: Id, m: Message, w: World, ghost script: Script, ghost alone: bool)
      returns (a: AttemptId, ended: Option<Ending>, ghost trace: seq<Label>)
      requires Valid() && id in sent && sent[id].task.message == m
      requires script(m) == BodyOutcome(w.result)
      requires messageId == Some(id)
      modifies this
      ensures Working(a, id, m)
      ensures Leads(cfg, old(View()), trace, View())
      ensures messageId == old(messageId)
      ensures a !in old(attempts)
      ensures ended.Some? ==> EndsAs(attempts[a], ended.value, eager) && attempts[a].phase.Done?
      ensures ended.None? ==>
                && attempts[a].phase.Requeueing? && attempts[a].saved == Some(Retry) && attempts[a].spawned.None?
                && m.taskName in cfg.tasks && m.nRetries < cfg.maxRetries
      ensures Justified(cfg, w, m, attempts[a].saved)
      ensures attempts[a].saved.Some? ==> id in records && RowSays(cfg, w, m, records[id], attempts[a].saved.value, now)
      ensures ended.Some? ==>
                if ended.value.Raised? then AttemptRaises(cfg, w, m, attempts[a].saved, ended.value.error)
                else Resolvable(cfg, m.taskName) && w.lookup.None?
      ensures ended.None? ==> Resolvable(cfg, m.taskName) && w.lookup.None?
      ensures alone && Undisturbed(w) ==>
                var st := old(Snapshot());
                && Snapshot() == Attempted(cfg, st, id, m, script)
                && (ended.None? <==> Retries(cfg, st, id, m, script))
                && (ended.Some? ==> ended.value == EndingOf(cfg, st, id, m, script))
    {
      ghost var s := View();
      ghost var st := Snapshot();
      var refused, record;
      a, refused, record, trace := Admit(id, m, w, alone);
      if refused.Some? {
        return a, refused, trace;
      }
      ghost var u, admitted := View(), Snapshot();
      ghost var more;
      var v, error;
      v, error, more := Perform(a, record, id, m, w, script, alone);
      if alone && Undisturbed(w) {
        AdmittedThenPerformed(cfg, st, admitted, id, m, script, v, Snapshot());
      }
      Join(cfg, s, trace, u, more, View());
      trace := trace + more;
      ended := if error.Some? then Some(Raised(error.value))
               else if v.Exhausted? then Some(Raised(MAX_RETRIES_EXCEEDED))
               else if v.Retry? then None
               else Some(Returned);
    }

    /** Sending the retry, with other workers before it. */
    method SendRetry(a: AttemptId, id: Id, m: Message, w: World, ghost alone: bool)
      returns (error: Option<Class>, newId: Id, ghost trace: seq<Label>)
      requires Working(a, id, m) && attempts[a].phase.Requeueing?
      requires attempts[a].saved == Some(Retry) && attempts[a].spawned.None?
      requires m.taskName in cfg.tasks
      modifies this
      ensures error == w.requeue
      ensures Working(a, id, m) && attempts[a].phase.Done? && attempts[a].saved == Some(Retry)
      ensures attempts[a].spawned.Some? <==> error.None?
      ensures error.None? ==> newId in sent && sent[newId].task.message == Next(m)
      ensures Leads(cfg, old(View()), trace, View())
      ensures alone && Undisturbed(w) ==>
                var st := old(Snapshot());
                && error.None? && newId == st.nextId
                && Snapshot() == st.(nextId := st.nextId + 1,
                                     queue := if eager then st.queue else st.queue + [(st.nextId, Next(m))])
    {
      ghost var s := View();
      trace := Interfere(a, alone);
      ghost var u := View();
      ghost var more;
      error, newId, more := Requeue(a, id, m, w);
      Join(cfg, s, trace, u, more, View());
      trace := trace + more;
    }

    /** Sending the retry, and in eager mode running it. */
    method FollowUp(a: AttemptId, id: Id, m: Message, script: Message -> World, ghost alone: bool)
      returns (ending: Ending, ghost trace: seq<Label>)
      requires Working(a, id, m) && attempts[a].phase.Requeueing?
      requires attempts[a].saved == Some(Retry) && attempts[a].spawned.None?
      requires m.taskName in cfg.tasks && m.nRetries < cfg.maxRetries
      requires eager ==> forall m': Message :: Childless(script(m').result)
      modifies this
      ensures Valid()
      ensures a in attempts && attempts[a].id == id && EndsAs(attempts[a], ending, eager) && attempts[a].phase.Done?
      ensures attempts[a].saved == Some(Retry)
      ensures ending.Raised? ==> RaisesFor(cfg, script, m, Some(Retry), ending.error, eager)
      ensures Leads(cfg, old(View()), trace, View())
      ensures alone && (forall m': Message :: Undisturbed(script(m'))) ==>
                FollowedUp(cfg, eager, old(Snapshot()), m, Outcomes(script), Snapshot(), ending)
      decreases RetriesLeft(cfg, m), 0
    {
      ghost var s := View();
      var failed, newId;
      failed, newId, trace := SendRetry(a, id, m, script(m), alone);
      if failed.Some? {
        ending := Raised(failed.value);
      } else if eager {
        ghost var u := View();
        var _, e, steps := ExecuteImmediately(newId, Next(m), script, alone);
        FinishedStays(cfg, u, steps, a);
        Join(cfg, s, trace, u, steps, View());
        ending, trace := if e.Skipped? then Returned else e, trace + steps;
      } else {
        ending := Returned;
      }
    }

    /** `SQSLambdaTaskMessage.execute_immediately`. Whatever other workers do in between, it
        takes only steps of the protocol, carries one new attempt through to its end, and
        leaves the logger's message id cleared. Run alone, it does what `Sequential` says. */
    method ExecuteImmediately(id: Id, m: Message, script: Message -> World, ghost alone: bool)
      returns (a: AttemptId, ending: Ending, ghost trace: seq<Label>)
      requires Valid() && id in sent && sent[id].task.message == m
      requires eager ==> forall m': Message :: Childless(script(m').result)
      modifies this
      ensures Valid()
      ensures Leads(cfg, old(View()), trace, View())
      ensures a !in old(attempts) && a in attempts && attempts[a].id == id
      ensures EndsAs(attempts[a], ending, eager) && attempts[a].phase.Done?
      ensures Justified(cfg, script(m), m, attempts[a].saved)
      ensures attempts[a].saved.Some? && attempts[a].saved != Some(Retry) ==>
                id in records && RowSays(cfg, script(m), m, records[id], attempts[a].saved.value, now)
      ensures if ending.Raised? then RaisesFor(cfg, script, m, attempts[a].saved, ending.error, eager)
              else Resolvable(cfg, m.taskName) && script(m).lookup.None?
      ensures messageId == None
      ensures alone && (forall m': Message :: Undisturbed(script(m'))) ==>
                AsSpecified(cfg, eager, old(Snapshot()), id, m, Outcomes(script), Snapshot(), ending)
      decreases RetriesLeft(cfg, m), 1
    {
      messageId := Some(id);
      ghost var s := View();
      ghost var st := Snapshot();
      var ended;
      a, ended, trace := Attempt(id, m, script(m), Outcomes(script), alone);
      if ended.Some? {
        ending := ended.value;
      } else {
        ghost var u := View();
        ghost var more;
        ending, more := FollowUp(a, id, m, script, alone);
        Join(cfg, s, trace, u, more, View());
        trace := trace + more;
        if alone && forall m': Message :: Undisturbed(script(m')) {
          AttemptThenFollowUp(cfg, eager, st, id, m, Outcomes(script), Snapshot(), ending);
        }
      }
      messageId := None;
    }
  }
}
