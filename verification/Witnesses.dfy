/** Concrete runs showing that the hypotheses of the guarantees cannot be dropped. */
module Witnesses {
  import opened Wrappers
  import opened Errors
  import opened Settings
  import opened Tasks
  import opened Protocol
  import opened Invariants
  import opened Guarantees
  import opened Locks

  const VALUE_ERROR: Class := "ValueError"
  const NAME := "app.tasks.sync"
  const WORK: Message := Message(NAME, Plain(map[]), 0)
  const TASK: Task := Task(WORK, 0, DEFAULT_QUEUE)
  const WRAPPER: Wrapper := Wrapper(DEFAULT_QUEUE, Timeouts(Some(1), Some(2)), [], 0, true, true)

  /** One singleton task with timeouts of 1 and 2 seconds. */
  const CONFIG: Config := Config(
    map[NAME := WRAPPER],
    map[EXCEPTION := {EXCEPTION}, LOCK_ERROR := {LOCK_ERROR, EXCEPTION}, VALUE_ERROR := {VALUE_ERROR, EXCEPTION}],
    map[DEFAULT_QUEUE := SQSQueue("https://sqs/default")],
    Defaults(270, 300),
    2880)

  lemma ConfigResolves()
    ensures ValidConfig(CONFIG) && Resolvable(CONFIG, NAME)
    ensures HardTimeout(CONFIG, NAME) == 2
  {
    assert !Comparable(CONFIG.hierarchy, "", LOCK_ERROR);
  }

  /** The run `ls` leads to `s`, and every body kept to its deadline on the way. */
  ghost predicate Leads(ls: seq<Label>, s: State) {
    Legal(CONFIG, EMPTY, ls) && After(CONFIG, EMPTY, ls) == s && AlarmsHonoured(CONFIG, EMPTY, ls, {NAME})
  }

  lemma {:induction false} HonouredStep(s: State, ls: seq<Label>, l: Label)
    requires Legal(CONFIG, s, ls) && AlarmsHonoured(CONFIG, s, ls, {NAME})
    requires Enabled(CONFIG, After(CONFIG, s, ls), l)
    requires WithinDeadlines(CONFIG, Apply(CONFIG, After(CONFIG, s, ls), l), {NAME})
    ensures Legal(CONFIG, s, ls + [l])
    ensures After(CONFIG, s, ls + [l]) == Apply(CONFIG, After(CONFIG, s, ls), l)
    ensures AlarmsHonoured(CONFIG, s, ls + [l], {NAME})
    decreases |ls|
  {
    if ls == [] {
      assert [l][1..] == [];
      assert ls + [l] == [l];
      assert AlarmsHonoured(CONFIG, Apply(CONFIG, s, l), [], {NAME});
    } else {
      assert (ls + [l])[1..] == ls[1..] + [l];
      HonouredStep(Apply(CONFIG, s, ls[0]), ls[1..], l);
    }
  }

  lemma Go(ls: seq<Label>, s: State, l: Label) returns (ls': seq<Label>, s': State)
    requires Leads(ls, s) && Enabled(CONFIG, s, l) && WithinDeadlines(CONFIG, Apply(CONFIG, s, l), {NAME})
    ensures s' == Apply(CONFIG, s, l) && ls' == ls + [l] && Leads(ls', s')
  {
    HonouredStep(EMPTY, ls, l);
    ls', s' := ls + [l], Apply(CONFIG, s, l);
  }

  const FIRST: Dispatch := Dispatch(TASK, 0, None)
  const SECOND: Dispatch := Dispatch(TASK, 1, None)
  const ROW: Record := NewRecord(WORK, 0)

  function Created(id: Id): Attempt {
    NewAttempt(id, WORK).(phase := Recorded, created := true)
  }

  /** Message `id` is delivered to a new attempt, which creates its record. */
  lemma Record(ls: seq<Label>, s: State, a: AttemptId, id: Id) returns (ls': seq<Label>, s': State)
    requires Leads(ls, s) && WithinDeadlines(CONFIG, s, {NAME})
    requires a !in s.attempts && id !in s.records && id in s.sent && s.sent[id].task == TASK
    ensures Leads(ls', s') && WithinDeadlines(CONFIG, s', {NAME})
    ensures s' == s.(attempts := s.attempts[a := Created(id)],
                     records := s.records[id := NewRecord(WORK, s.now)], owner := s.owner[id := a])
  {
    ls', s' := Arrive(ls, s, a, id);
    ls', s' := Create(ls', s', a, id);
    assert s.attempts[a := NewAttempt(id, WORK)][a := Created(id)] == s.attempts[a := Created(id)];
  }

  lemma Create(ls: seq<Label>, s: State, a: AttemptId, id: Id) returns (ls': seq<Label>, s': State)
    requires Leads(ls, s) && WithinDeadlines(CONFIG, s, {NAME})
    requires a in s.attempts && s.attempts[a] == NewAttempt(id, WORK) && id !in s.records
    ensures Leads(ls', s') && WithinDeadlines(CONFIG, s', {NAME})
    ensures s' == s.(attempts := s.attempts[a := Created(id)],
                     records := s.records[id := NewRecord(WORK, s.now)], owner := s.owner[id := a])
  {
    Creates(s, a, id);
    ls', s' := Go(ls, s, Act(a, GetOrCreate(None)));
  }

  lemma Arrive(ls: seq<Label>, s: State, a: AttemptId, id: Id) returns (ls': seq<Label>, s': State)
    requires Leads(ls, s) && WithinDeadlines(CONFIG, s, {NAME})
    requires a !in s.attempts && id in s.sent && s.sent[id].task == TASK
    ensures Leads(ls', s') && WithinDeadlines(CONFIG, s', {NAME})
    ensures s' == s.(attempts := s.attempts[a := NewAttempt(id, WORK)])
  {
    ls', s' := Go(ls, s, Deliver(a, id));
  }

  lemma Creates(s: State, a: AttemptId, id: Id)
    requires a in s.attempts && s.attempts[a] == NewAttempt(id, WORK) && id !in s.records
    requires WithinDeadlines(CONFIG, s, {NAME})
    ensures Enabled(CONFIG, s, Act(a, GetOrCreate(None)))
    ensures
      var s' := Apply(CONFIG, s, Act(a, GetOrCreate(None)));
      && s' == s.(attempts := s.attempts[a := Created(id)],
                  records := s.records[id := NewRecord(WORK, s.now)], owner := s.owner[id := a])
      && WithinDeadlines(CONFIG, s', {NAME})
  {
    ConfigResolves();
  }

  function Begun(t: Attempt, now: nat): Attempt {
    t.(phase := Body, started := Some(now), lease := Some(now + 2))
  }

  function Locked(t: Attempt, now: nat): Attempt {
    t.(phase := Guarded, lease := Some(now + 2))
  }

  lemma Enter(s: State, a: AttemptId, locks: map<string, Lease>)
    requires WithinDeadlines(CONFIG, s, {NAME}) && a in s.attempts && s.attempts[a].message == WORK
    ensures
      var guarded := s.(attempts := s.attempts[a := Locked(s.attempts[a], s.now)], locks := locks);
      var s' := s.(attempts := s.attempts[a := Begun(s.attempts[a], s.now)], locks := locks);
      && Enabled(CONFIG, guarded, Act(a, Start(None)))
      && Apply(CONFIG, guarded, Act(a, Start(None))) == s'
      && WithinDeadlines(CONFIG, s', {NAME})
  {
    ConfigResolves();
    var guarded := s.(attempts := s.attempts[a := Locked(s.attempts[a], s.now)], locks := locks);
    assert DoStart(guarded, guarded.attempts[a], None).attempt == Begun(s.attempts[a], s.now);
    assert s.attempts[a := Locked(s.attempts[a], s.now)][a := Begun(s.attempts[a], s.now)] ==
           s.attempts[a := Begun(s.attempts[a], s.now)];
  }

  lemma Begin(ls: seq<Label>, s: State, a: AttemptId) returns (ls': seq<Label>, s': State)
    requires Leads(ls, s) && WithinDeadlines(CONFIG, s, {NAME})
    requires a in s.attempts && s.attempts[a].message == WORK && s.attempts[a].phase.Recorded?
    requires Free(s.locks, NAME, s.now)
    ensures Leads(ls', s') && WithinDeadlines(CONFIG, s', {NAME})
    ensures s' == s.(attempts := s.attempts[a := Begun(s.attempts[a], s.now)],
                     locks := s.locks[NAME := Lease(a, s.now + 2)])
  {
    ConfigResolves();
    var locks := s.locks[NAME := Lease(a, s.now + 2)];
    var guarded := s.(attempts := s.attempts[a := Locked(s.attempts[a], s.now)], locks := locks);
    assert Apply(CONFIG, s, Act(a, Acquire(None))) == guarded;
    ls', s' := Go(ls, s, Act(a, Acquire(None)));
    Enter(s, a, locks);
    ls', s' := Go(ls', guarded, Act(a, Start(None)));
  }

  /** The body ends, and the attempt is about to leave the lock. */
  lemma End(ls: seq<Label>, s: State, a: AttemptId, result: BodyResult) returns (ls': seq<Label>, s': State)
    requires Leads(ls, s) && WithinDeadlines(CONFIG, s, {NAME})
    requires a in s.attempts && s.attempts[a].phase.Body?
    requires s.attempts[a].calls == [] && !s.attempts[a].committed && !IsCarrier(s.attempts[a].message)
    requires result.Returns? ==> result.calls == []
    ensures Leads(ls', s') && WithinDeadlines(CONFIG, s', {NAME})
    ensures s' == s.(attempts := s.attempts[a := Ended(s.attempts[a], result)])
    ensures result.Raises? ==> Act(a, Finish(result)) in ls'
  {
    if result.Returns? {
      ls', s' := Return(ls, s, a, result.value);
    } else {
      ls', s' := Go(ls, s, Act(a, Finish(result)));
    }
  }

  lemma Return(ls: seq<Label>, s: State, a: AttemptId, value: int) returns (ls': seq<Label>, s': State)
    requires Leads(ls, s) && WithinDeadlines(CONFIG, s, {NAME})
    requires a in s.attempts && s.attempts[a].phase.Body?
    requires s.attempts[a].calls == [] && !s.attempts[a].committed && !IsCarrier(s.attempts[a].message)
    ensures Leads(ls', s') && WithinDeadlines(CONFIG, s', {NAME})
    ensures s' == s.(attempts := s.attempts[a := Ended(s.attempts[a], Returns(value, []))])
  {
    var t := s.attempts[a];
    var u := s.(attempts := s.attempts[a := t.(phase := Callbacks([], value), committed := true)]);
    FinishesWith(s, a, value);
    ls', s' := Go(ls, s, Act(a, Finish(Returns(value, []))));
    Leaves(u, a);
    ls', s' := Go(ls', u, Act(a, Leave));
    assert s'.attempts == s.attempts[a := Ended(t, Returns(value, []))];
  }

  lemma FinishesWith(s: State, a: AttemptId, value: int)
    requires a in s.attempts && s.attempts[a].phase.Body? && !IsCarrier(s.attempts[a].message)
    requires s.attempts[a].calls == [] && WithinDeadlines(CONFIG, s, {NAME})
    ensures
      var x := Finish(Returns(value, []));
      var t := s.attempts[a].(phase := Callbacks([], value), committed := true);
      && Enabled(CONFIG, s, Act(a, x))
      && Apply(CONFIG, s, Act(a, x)) == s.(attempts := s.attempts[a := t])
      && WithinDeadlines(CONFIG, s.(attempts := s.attempts[a := t]), {NAME})
  {
    assert DoFinish(s, s.attempts[a], Returns(value, [])).attempt ==
           s.attempts[a].(phase := Callbacks([], value), committed := true);
  }

  lemma Leaves(s: State, a: AttemptId)
    requires a in s.attempts && s.attempts[a].phase.Callbacks? && s.attempts[a].phase.rest == []
    requires WithinDeadlines(CONFIG, s, {NAME})
    ensures
      var t := s.attempts[a].(phase := Releasing(Value(s.attempts[a].phase.value)));
      && Enabled(CONFIG, s, Act(a, Leave)) && Apply(CONFIG, s, Act(a, Leave)) == s.(attempts := s.attempts[a := t])
      && WithinDeadlines(CONFIG, s.(attempts := s.attempts[a := t]), {NAME})
  {
  }

  function Ended(t: Attempt, result: BodyResult): Attempt {
    var o := if result.Returns? then Value(result.value) else Error(result.error);
    t.(phase := Releasing(o), committed := result.Returns?)
  }

  /** A recorded attempt takes the free lock, runs its body, and is about to leave the lock. */
  lemma Perform(ls: seq<Label>, s: State, a: AttemptId, result: BodyResult) returns (ls': seq<Label>, s': State)
    requires Leads(ls, s) && WithinDeadlines(CONFIG, s, {NAME})
    requires a in s.attempts && s.attempts[a].message == WORK && s.attempts[a].phase.Recorded?
    requires s.attempts[a].calls == [] && !s.attempts[a].committed
    requires NAME !in s.locks && (result.Returns? ==> result.calls == [])
    ensures Leads(ls', s') && WithinDeadlines(CONFIG, s', {NAME})
    ensures s' == s.(attempts := s.attempts[a := Ended(Begun(s.attempts[a], s.now), result)],
                     locks := s.locks[NAME := Lease(a, s.now + 2)])
  {
    ls', s' := Begin(ls, s, a);
    ls', s' := End(ls', s', a, result);
    assert s'.attempts == s.attempts[a := Ended(Begun(s.attempts[a], s.now), result)];
  }

  // ---- the lock ----

  /** Two messages of the task, each with its record, at time 0. */
  lemma TwoRecorded() returns (ls: seq<Label>, s: State)
    ensures Leads(ls, s) && WithinDeadlines(CONFIG, s, {NAME})
    ensures s == State(0, map[0 := FIRST, 1 := SECOND], map[0 := ROW, 1 := ROW], map[0 := 0, 1 := 1],
                       map[], map[0 := Created(0), 1 := Created(1)], multiset{})
  {
    ls, s := [], EMPTY;
    ls, s := Go(ls, s, Submit(0, TASK));
    ls, s := Go(ls, s, Submit(1, TASK));
    ls, s := Record(ls, s, 0, 0);
    ls, s := Record(ls, s, 1, 1);
  }

  lemma OneLocked() returns (ls: seq<Label>, s: State)
    ensures Leads(ls, s) && WithinDeadlines(CONFIG, s, {NAME}) && s.now == 0
    ensures s.attempts == map[0 := Locked(Created(0), 0), 1 := Created(1)]
    ensures s.locks == map[NAME := Lease(0, 2)]
  {
    ConfigResolves();
    ls, s := TwoRecorded();
    ls, s := Go(ls, s, Act(0, Acquire(None)));
  }

  lemma LockedForASecond() returns (ls: seq<Label>, s: State)
    ensures Leads(ls, s) && WithinDeadlines(CONFIG, s, {NAME}) && s.now == 1
    ensures s.attempts == map[0 := Locked(Created(0), 0), 1 := Created(1)]
    ensures s.locks == map[NAME := Lease(0, 2)]
  {
    ls, s := OneLocked();
    ls, s := Go(ls, s, Tick);
  }

  /** A second passes between taking the lock and entering the body. */
  lemma ArmedLate() returns (ls: seq<Label>, s: State)
    ensures Leads(ls, s) && s.now == 1
    ensures s.attempts == map[0 := Created(0).(phase := Body, started := Some(1), lease := Some(2)), 1 := Created(1)]
    ensures s.locks == map[NAME := Lease(0, 2)]
  {
    ConfigResolves();
    ls, s := LockedForASecond();
    ls, s := Go(ls, s, Act(0, Start(None)));
  }

  /** At its hard deadline the body is still running, and its lock has run out. */
  lemma LeaseOver() returns (ls: seq<Label>, s: State)
    ensures Leads(ls, s) && WithinDeadlines(CONFIG, s, {NAME}) && s.now == 3
    ensures s.attempts == map[0 := Created(0).(phase := Body, started := Some(1), lease := Some(2)), 1 := Created(1)]
    ensures s.locks == map[NAME := Lease(0, 2)]
  {
    ConfigResolves();
    ls, s := ArmedLate();
    ls, s := Go(ls, s, Tick);
    ls, s := Go(ls, s, Tick);
  }

  /** A body that begins one second after its lock was taken can be overlapped by another,
      though every body keeps to its hard deadline. */
  lemma LateArmingAllowsOverlap() returns (ls: seq<Label>, s: State)
    ensures Leads(ls, s)
    ensures InBody(s, 0) && InBody(s, 1)
    ensures s.attempts[0].message == s.attempts[1].message == WORK
    ensures !ArmedOnAcquiring(CONFIG, s.attempts[0])
  {
    ConfigResolves();
    ls, s := LeaseOver();
    ls, s := Begin(ls, s, 1);
  }

  const HARD_LIMIT: Class := "HardTimeLimitExceeded"

  lemma StoppedLate() returns (ls: seq<Label>, s: State)
    ensures Leads(ls, s) && s.now == 3 && Act(0, Finish(Raises(HARD_LIMIT))) in ls
    ensures s.attempts == map[0 := Begun(Created(0), 0).(phase := Releasing(Error(HARD_LIMIT)), started := Some(1)),
                              1 := Created(1)]
    ensures s.locks == map[NAME := Lease(0, 2)]
  {
    ls, s := LeaseOver();
    ls, s := End(ls, s, 0, Raises(HARD_LIMIT));
  }

  /** A body stopped by its hard alarm, which was armed one second after the lock was taken:
      its lock has run out by then, and the hard timeout's error is lost. */
  lemma LateHardTimeoutIsLost() returns (ls: seq<Label>, s: State)
    ensures Leads(ls, s)
    ensures s.now == 3 && 0 in s.attempts && s.attempts[0].started == Some(1)
    ensures HardTimeout(CONFIG, NAME) == 2 && Act(0, Finish(Raises(HARD_LIMIT))) in ls
    ensures s.attempts[0].phase == Concluding(Error(LOCK_ERROR))
  {
    ConfigResolves();
    ls, s := StoppedLate();
    ls, s := Go(ls, s, Act(0, Release(None)));
  }

  lemma Committed() returns (ls: seq<Label>, s: State)
    ensures Leads(ls, s) && s.now == 0
    ensures s.attempts == map[0 := Ended(Begun(Created(0), 0), Returns(5, [])), 1 := Created(1)]
    ensures s.locks == map[NAME := Lease(0, 2)] && 0 in s.records
  {
    ls, s := TwoRecorded();
    ls, s := Perform(ls, s, 0, Returns(5, []));
  }

  lemma CommittedAndExpired() returns (ls: seq<Label>, s: State)
    ensures Leads(ls, s) && s.now == 3
    ensures s.attempts == map[0 := Ended(Begun(Created(0), 0), Returns(5, [])), 1 := Created(1)]
    ensures s.locks == map[NAME := Lease(0, 2)] && 0 in s.records
  {
    ls, s := Committed();
    ls, s := Go(ls, s, Tick);
    ls, s := Go(ls, s, Tick);
    ls, s := Go(ls, s, Tick);
  }

  lemma CommittedAndRaised() returns (ls: seq<Label>, s: State)
    ensures Leads(ls, s) && WithinDeadlines(CONFIG, s, {NAME}) && 0 in s.records && 0 in s.attempts
    ensures
      var t := s.attempts[0];
      t.id == 0 && t.message == WORK && t.committed && t.late && t.phase == Concluding(Error(LOCK_ERROR))
  {
    ls, s := CommittedAndExpired();
    ls, s := Go(ls, s, Act(0, Release(None)));
  }

  /** An attempt that commits, and whose lease then runs out before it leaves the lock, is
      recorded RETRIED although it took effect. */
  lemma LateReleaseRetriesACommit() returns (ls: seq<Label>, s: State)
    ensures Leads(ls, s)
    ensures 0 in s.records && s.records[0].status == Retried
    ensures 0 in s.attempts && s.attempts[0].id == 0 && s.attempts[0].committed && s.attempts[0].late
  {
    ConfigResolves();
    ls, s := CommittedAndRaised();
    LockErrorIsRetried();
    ls, s := Go(ls, s, Act(0, Save(None)));
  }

  lemma LockErrorIsRetried()
    ensures VerdictOf(CONFIG, WORK, Error(LOCK_ERROR)) == Retry
  {
    assert EffectiveRetryOn(WRAPPER) == [LOCK_ERROR];
    assert LOCK_ERROR in [LOCK_ERROR] && IsSubclass(CONFIG.hierarchy, LOCK_ERROR, LOCK_ERROR);
    assert Matches(CONFIG.hierarchy, LOCK_ERROR, [LOCK_ERROR]);
  }

  // ---- cleanup ----

  lemma FirstDeleted() returns (ls: seq<Label>, s: State)
    ensures Leads(ls, s) && WithinDeadlines(CONFIG, s, {NAME})
    ensures s == State(0, map[0 := FIRST], map[], map[], map[], map[0 := DELETED], multiset{0})
  {
    ls, s := [], EMPTY;
    ls, s := Go(ls, s, Submit(0, TASK));
    ls, s := Record(ls, s, 0, 0);
    ls, s := Go(ls, s, Cleanup(0));
  }

  /** One message delivered twice; the first record is deleted between the deliveries. */
  lemma RecordedAgain() returns (ls: seq<Label>, s: State)
    ensures Leads(ls, s) && WithinDeadlines(CONFIG, s, {NAME})
    ensures s == State(0, map[0 := FIRST], map[0 := ROW], map[0 := 1], map[],
                       map[0 := DELETED, 1 := Created(0)], multiset{0})
  {
    ls, s := FirstDeleted();
    ls, s := Record(ls, s, 1, 0);
  }

  const DELETED: Attempt := NewAttempt(0, WORK).(phase := Recorded, created := true, orphaned := true)

  lemma SecondEnds() returns (ls: seq<Label>, s: State)
    ensures Leads(ls, s) && WithinDeadlines(CONFIG, s, {NAME}) && s.now == 0
    ensures s.records == map[0 := ROW] && s.locks == map[NAME := Lease(1, 2)]
    ensures s.attempts == map[0 := DELETED, 1 := Ended(Begun(Created(0), 0), Returns(5, []))]
  {
    ls, s := RecordedAgain();
    ls, s := Perform(ls, s, 1, Returns(5, []));
  }

  lemma SecondLeaves() returns (ls: seq<Label>, s: State)
    ensures Leads(ls, s) && WithinDeadlines(CONFIG, s, {NAME}) && s.now == 0
    ensures s.records == map[0 := ROW] && s.locks == map[]
    ensures s.attempts.Keys == {0, 1} && s.attempts[0] == DELETED
    ensures s.attempts[1].phase == Concluding(Value(5)) && s.attempts[1].message == WORK && s.attempts[1].id == 0
  {
    ls, s := SecondEnds();
    ls, s := Go(ls, s, Act(1, Release(None)));
  }

  lemma SecondSucceeds() returns (ls: seq<Label>, s: State)
    ensures Leads(ls, s) && WithinDeadlines(CONFIG, s, {NAME})
    ensures s.records == map[0 := Tasks.Conclude(ROW, Clean, Value(5), 0)]
    ensures s.now == 0 && s.locks == map[]
    ensures 0 in s.attempts && s.attempts[0] == DELETED
  {
    ConfigResolves();
    ls, s := SecondLeaves();
    ls, s := Go(ls, s, Act(1, Save(None)));
  }

  lemma FirstRaises() returns (ls: seq<Label>, s: State)
    ensures Leads(ls, s) && WithinDeadlines(CONFIG, s, {NAME})
    ensures s.records == map[0 := Tasks.Conclude(ROW, Clean, Value(5), 0)]
    ensures 0 in s.attempts && s.attempts[0].phase == Concluding(Error(VALUE_ERROR))
    ensures s.attempts[0].message == WORK && s.attempts[0].id == 0
  {
    ConfigResolves();
    ls, s := SecondSucceeds();
    ls, s := Perform(ls, s, 0, Raises(VALUE_ERROR));
    ls, s := Go(ls, s, Act(0, Release(None)));
  }

  /** If cleanup deletes the record of a running attempt, that attempt may later turn
      another attempt's SUCCEEDED row into a FAILED one that still shows a result. */
  lemma StaleSaveOverwrites() returns (ls: seq<Label>, s: State)
    ensures Leads(ls, s)
    ensures 0 in s.records && s.records[0].status == Failed && s.records[0].result == Some(5)
  {
    ConfigResolves();
    ls, s := FirstRaises();
    ValueErrorFails();
    ls, s := Go(ls, s, Act(0, Save(None)));
  }

  lemma ValueErrorFails()
    ensures VerdictOf(CONFIG, WORK, Error(VALUE_ERROR)) == Failure
  {
    assert EffectiveRetryOn(WRAPPER) == [LOCK_ERROR];
  }
}
