/** What the expiring singleton lock does, and does not, guarantee. */
module Locks {
  import opened Wrappers
  import opened Errors
  import opened Settings
  import opened Tasks
  import opened Protocol
  import opened Invariants
  import opened Guarantees

  /** `a` is between taking and leaving the lock of a singleton task. */
  predicate InsideLock(s: State, a: AttemptId, name: string) {
    && a in s.attempts && InGuard(s.attempts[a].phase)
    && s.attempts[a].message.taskName == name && s.attempts[a].lease.Some?
  }

  /** No two attempts inside the lock both have time left on their leases. */
  lemma UnexpiredLeasesExclude(cfg: Config, s: State, name: string, a: AttemptId, b: AttemptId)
    requires Reachable(cfg, s)
    requires InsideLock(s, a, name) && s.now <= s.attempts[a].lease.value
    requires InsideLock(s, b, name) && s.now <= s.attempts[b].lease.value
    ensures a == b
  {
    ReachableInv(cfg, s);
    assert HasLease(s, a) && HasLease(s, b);
  }

  lemma HoldsIffUnexpired(cfg: Config, s: State, a: AttemptId)
    requires Inv(cfg, s)
    requires a in s.attempts && InGuard(s.attempts[a].phase) && s.attempts[a].lease.Some?
    ensures Holds(s.locks, s.attempts[a].message.taskName, a, s.now) <==> s.now <= s.attempts[a].lease.value
  {
    assert HasLease(s, a);
  }

  /** Leaving the lock raises LockError exactly when the lease has run out; what the block
      itself raised, or returned, is then lost. */
  lemma ReleaseRaisesIffExpired(cfg: Config, s: State, a: AttemptId)
    requires Reachable(cfg, s)
    requires a in s.attempts && s.attempts[a].phase.Releasing? && s.attempts[a].lease.Some?
    ensures
      var t := s.attempts[a];
      DoRelease(s, a, t, None).attempt.phase ==
      Concluding(if s.now <= t.lease.value then t.phase.pending else Error(LOCK_ERROR))
  {
    ReachableInv(cfg, s);
    HoldsIffUnexpired(cfg, s, a);
  }

  // ---- bodies stopped by their hard alarm ----

  /** The alarm was armed so long after the lock was taken that the lease ends first. */
  predicate Late(cfg: Config, t: Attempt)
    requires Resolvable(cfg, t.message.taskName) && t.started.Some? && t.lease.Some?
  {
    t.lease.value < t.started.value + HardTimeout(cfg, t.message.taskName)
  }

  /** What an attempt leaves its lock with, if the hard alarm stopped its body and rolled it
      back at once: the hard timeout's error is replaced by a LockError if and only if the
      alarm was armed after the lock was taken. */
  lemma HardTimeoutIsLostIffLate(cfg: Config, s: State, a: AttemptId, name: string, hard: Class)
    requires Reachable(cfg, s) && Resolvable(cfg, name) && hard != LOCK_ERROR
    requires InsideLock(s, a, name) && s.attempts[a].phase == Releasing(Error(hard))
    requires s.attempts[a].started.Some? && s.now == s.attempts[a].started.value + HardTimeout(cfg, name)
    ensures
      var left := DoRelease(s, a, s.attempts[a], None).attempt.phase;
      && (left == Concluding(Error(LOCK_ERROR)) <==> Late(cfg, s.attempts[a]))
      && (left == Concluding(Error(hard)) <==> !Late(cfg, s.attempts[a]))
  {
    ReleaseRaisesIffExpired(cfg, s, a);
  }

  lemma LockErrorVerdict(cfg: Config, m: Message)
    requires m.taskName in cfg.tasks && cfg.tasks[m.taskName].singleton
    requires IsSubclass(cfg.hierarchy, LOCK_ERROR, EXCEPTION) && IsSubclass(cfg.hierarchy, LOCK_ERROR, LOCK_ERROR)
    ensures
      var v := VerdictOf(cfg, m, Error(LOCK_ERROR));
      if cfg.tasks[m.taskName].retrySingleton then v == Retry || v == Exhausted else v == Ignored
  {
    var w := cfg.tasks[m.taskName];
    if w.retrySingleton {
      assert EffectiveRetryOn(w)[0] == LOCK_ERROR;
      assert Matches(cfg.hierarchy, LOCK_ERROR, EffectiveRetryOn(w));
    }
  }

  /** However late the rollback is over: the lock of such a body has run out, and unless the
      release itself fails otherwise the attempt is judged as one that found the lock taken. */
  lemma LateHardTimeoutIsALockError(cfg: Config, s: State, a: AttemptId, name: string)
    requires Reachable(cfg, s) && Resolvable(cfg, name)
    requires InsideLock(s, a, name) && s.attempts[a].phase.Releasing? && s.attempts[a].started.Some?
    requires Late(cfg, s.attempts[a]) && s.now >= s.attempts[a].started.value + HardTimeout(cfg, name)
    requires IsSubclass(cfg.hierarchy, LOCK_ERROR, EXCEPTION) && IsSubclass(cfg.hierarchy, LOCK_ERROR, LOCK_ERROR)
    ensures
      var t' := DoRelease(s, a, s.attempts[a], None).attempt;
      var v := VerdictOf(cfg, s.attempts[a].message, Error(LOCK_ERROR));
      && t'.phase == Concluding(Error(LOCK_ERROR))
      && (if cfg.tasks[name].retrySingleton then v == Retry || v == Exhausted else v == Ignored)
  {
    HoldersAreSingletons(cfg, s, a);
    ReleaseRaisesIffExpired(cfg, s, a);
    LockErrorVerdict(cfg, s.attempts[a].message);
  }

  lemma HoldersAreSingletons(cfg: Config, s: State, a: AttemptId)
    requires Reachable(cfg, s) && a in s.attempts && s.attempts[a].lease.Some?
    ensures IsSingleton(cfg, s.attempts[a])
  {
    ReachableInv(cfg, s);
    assert AttemptOk(cfg, s.attempts[a]);
  }

  // ---- bodies that keep to their hard deadline ----

  predicate InBody(s: State, a: AttemptId) {
    a in s.attempts && s.attempts[a].phase.Body?
  }

  /** Time has not passed the hard deadline of an attempt that is in its body. */
  predicate OnTime(cfg: Config, s: State, a: AttemptId) {
    InBody(s, a) && s.attempts[a].started.Some? && Resolvable(cfg, s.attempts[a].message.taskName) ==>
      s.now <= s.attempts[a].started.value + HardTimeout(cfg, s.attempts[a].message.taskName)
  }

  /** Nor that of any running body of some tasks. */
  ghost predicate WithinDeadlines(cfg: Config, s: State, names: set<string>) {
    forall a | a in s.attempts && s.attempts[a].message.taskName in names :: OnTime(cfg, s, a)
  }

  /** A run in which no body of these tasks swallows its hard timeout. */
  ghost predicate AlarmsHonoured(cfg: Config, s: State, ls: seq<Label>, names: set<string>)
    requires Legal(cfg, s, ls)
    decreases |ls|
  {
    WithinDeadlines(cfg, s, names) && (ls == [] || AlarmsHonoured(cfg, Apply(cfg, s, ls[0]), ls[1..], names))
  }

  /** A run in which one attempt's body does not. */
  predicate StaysOnTime(cfg: Config, s: State, ls: seq<Label>, a: AttemptId)
    requires Legal(cfg, s, ls)
    decreases |ls|
  {
    OnTime(cfg, s, a) && (ls == [] || StaysOnTime(cfg, Apply(cfg, s, ls[0]), ls[1..], a))
  }

  /** The lease and the hard deadline are the same moment. */
  predicate ArmedOnAcquiring(cfg: Config, t: Attempt) {
    && Resolvable(cfg, t.message.taskName)
    && t.started.Some? && t.lease.Some?
    && t.lease.value == t.started.value + HardTimeout(cfg, t.message.taskName)
  }

  /** Two bodies of a singleton that armed their alarms at the moment they took the lock, and
      have not passed their own deadlines, are never both running. */
  lemma PromptBodiesNeverOverlap(cfg: Config, s: State, a: AttemptId, b: AttemptId)
    requires Reachable(cfg, s) && InBody(s, a) && InBody(s, b)
    requires s.attempts[a].message.taskName == s.attempts[b].message.taskName
    requires ArmedOnAcquiring(cfg, s.attempts[a]) && OnTime(cfg, s, a)
    requires ArmedOnAcquiring(cfg, s.attempts[b]) && OnTime(cfg, s, b)
    ensures a == b
  {
    UnexpiredLeasesExclude(cfg, s, s.attempts[a].message.taskName, a, b);
  }
}
