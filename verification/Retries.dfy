/** Chains of retries: how long they get, and which of their attempts take effect. */
module Retries {
  import opened Wrappers
  import opened Errors
  import opened Settings
  import opened Tasks
  import opened Protocol
  import opened Invariants
  import opened Guarantees
  import opened Locks

  function RetriesOf(s: State, q: Id): nat
    requires q in s.sent
  {
    s.sent[q].task.message.nRetries
  }

  /** The messages of one chain: a first one, and the retries that descend from it. */
  ghost function Chain(s: State, root: Id): set<Id> {
    set q | q in s.sent && s.sent[q].root == root
  }

  // ---- uniqueness ----

  lemma AtMostOneElement<T>(xs: set<T>, x: T, y: T)
    requires |xs| <= 1 && x in xs && y in xs
    ensures x == y
  {
    if x != y {
      Smaller({x, y}, xs);
    }
  }

  lemma OneCreationPerId(cfg: Config, s: State, a: AttemptId, b: AttemptId)
    requires Inv(cfg, s) && a in s.attempts && b in s.attempts
    requires s.attempts[a].created && s.attempts[b].created
    requires s.attempts[a].id == s.attempts[b].id && s.deleted[s.attempts[a].id] == 0
    ensures a == b
  {
    var id := s.attempts[a].id;
    assert |Creations(s, id)| == (if id in s.records then 1 else 0) + s.deleted[id];
    AtMostOneElement(Creations(s, id), a, b);
  }

  /** No record of a message of the chain was ever deleted. */
  ghost predicate Kept(s: State, root: Id) {
    forall q | q in Chain(s, root) :: s.deleted[q] == 0
  }

  /** While none of its records is deleted, the retry counter tells the messages of a chain
      apart. */
  lemma {:induction false} CounterIdentifies(cfg: Config, s: State, p: Id, q: Id)
    requires Inv(cfg, s) && p in s.sent && q in s.sent
    requires s.sent[p].root == s.sent[q].root && Kept(s, s.sent[p].root)
    requires RetriesOf(s, p) == RetriesOf(s, q)
    ensures p == q
    decreases RetriesOf(s, p)
  {
    assert DispatchOk(cfg, s, p) && DispatchOk(cfg, s, q);
    if s.sent[p].sender.Some? && s.sent[q].sender.Some? {
      var a, b := s.sent[p].sender.value, s.sent[q].sender.value;
      CounterIdentifies(cfg, s, s.attempts[a].id, s.attempts[b].id);
      OneCreationPerId(cfg, s, a, b);
    }
  }

  /** Every message of a chain but the last was tried, and that attempt was RETRIED. */
  lemma {:induction false} EarlierWasRetried(cfg: Config, s: State, p: Id, q: Id) returns (a: AttemptId)
    requires Inv(cfg, s) && p in s.sent && q in s.sent
    requires s.sent[p].root == s.sent[q].root && Kept(s, s.sent[p].root)
    requires RetriesOf(s, p) < RetriesOf(s, q)
    ensures a in s.attempts && s.attempts[a].id == p && s.attempts[a].saved == Some(Retry)
    decreases RetriesOf(s, q)
  {
    assert DispatchOk(cfg, s, p) && DispatchOk(cfg, s, q);
    a := s.sent[q].sender.value;
    assert AttemptOk(cfg, s.attempts[a]);
    var before := s.attempts[a].id;
    if RetriesOf(s, before) == RetriesOf(s, p) {
      CounterIdentifies(cfg, s, before, p);
    } else {
      a := EarlierWasRetried(cfg, s, p, before);
    }
  }

  // ---- length ----

  lemma {:induction false} DistinctInRange(qs: set<Id>, f: map<Id, int>, lo: int, hi: int)
    requires qs <= f.Keys && forall q | q in qs :: lo <= f[q] <= hi
    requires forall p, q | p in qs && q in qs && f[p] == f[q] :: p == q
    ensures |qs| <= if hi < lo then 0 else hi - lo + 1
    decreases hi - lo
  {
    if qs != {} {
      if top :| top in qs && f[top] == hi {
        var rest := qs - {top};
        DistinctInRange(rest, f, lo, hi - 1);
      } else {
        DistinctInRange(qs, f, lo, hi - 1);
      }
    }
  }

  /** With none of its records deleted, a message leads to at most one executed message per
      counter value left to it, however deliveries are repeated and workers crash. */
  lemma ChainIsBounded(cfg: Config, s: State, root: Id)
    requires Reachable(cfg, s) && Kept(s, root)
    requires root in s.sent && s.sent[root].root == root
    ensures
      var n0 := RetriesOf(s, root);
      |Chain(s, root)| <= (if cfg.maxRetries > n0 then cfg.maxRetries - n0 else 0) + 1
    ensures forall p, q | p in Chain(s, root) && q in Chain(s, root) && p != q ::
              RetriesOf(s, p) != RetriesOf(s, q)
  {
    ReachableInv(cfg, s);
    var n0 := RetriesOf(s, root);
    var hi := if cfg.maxRetries > n0 then cfg.maxRetries else n0;
    var f := map q | q in s.sent :: RetriesOf(s, q);
    forall q | q in Chain(s, root)
      ensures n0 <= f[q] <= hi
    {
      assert DispatchOk(cfg, s, q);
    }
    forall p, q | p in Chain(s, root) && q in Chain(s, root) && RetriesOf(s, p) == RetriesOf(s, q)
      ensures p == q
    {
      CounterIdentifies(cfg, s, p, q);
    }
    DistinctInRange(Chain(s, root), f, n0, hi);
  }

  /** A retry repeats the work of the first message, on the wrapper's queue, with a higher
      counter still within the limit and a delay SQS accepts. */
  lemma RetryRepeatsTheWork(cfg: Config, s: State, root: Id, q: Id)
    requires ValidConfig(cfg) && Reachable(cfg, s)
    requires q in s.sent && s.sent[q].root == root && q != root
    ensures root in s.sent
    ensures
      var first, retry := s.sent[root].task, s.sent[q].task;
      && SameWork(retry.message, first.message)
      && first.message.nRetries < retry.message.nRetries <= cfg.maxRetries
      && first.message.taskName in cfg.tasks
      && retry.queue == cfg.tasks[first.message.taskName].queue
      && 1 <= retry.delay <= MAX_DELAY
      && var base := cfg.tasks[first.message.taskName].retryDelay;
      && base <= retry.delay <= base + 5
      && (base < retry.delay || retry.delay == MAX_DELAY)
  {
    ReachableInv(cfg, s);
    assert DispatchOk(cfg, s, q);
  }

  /** The retries sent by attempts at `p`. */
  ghost function RetriesSent(s: State, p: Id): set<Id> {
    set q | q in s.sent && s.sent[q].sender.Some? &&
            s.sent[q].sender.value in s.attempts && s.attempts[s.sent[q].sender.value].id == p
  }

  /** With cleanup, an id may be retried again, but no more often than its record was created. */
  lemma RetriesAtMostCreations(cfg: Config, s: State, p: Id)
    requires Reachable(cfg, s)
    ensures |RetriesSent(s, p)| <= (if p in s.records then 1 else 0) + s.deleted[p]
  {
    ReachableInv(cfg, s);
    var children := RetriesSent(s, p);
    assert |Creations(s, p)| == (if p in s.records then 1 else 0) + s.deleted[p];
    forall q | q in children
      ensures s.sent[q].sender.value in Creations(s, p)
      ensures s.attempts[s.sent[q].sender.value].spawned == Some(q)
    {
      assert DispatchOk(cfg, s, q);
    }
    var f := map q | q in children :: s.sent[q].sender.value;
    Injected(children, f, Creations(s, p));
  }

  lemma {:induction false} Injected(qs: set<Id>, f: map<Id, AttemptId>, ys: set<AttemptId>)
    requires qs <= f.Keys && forall q | q in qs :: f[q] in ys
    requires forall p, q | p in qs && q in qs && f[p] == f[q] :: p == q
    ensures |qs| <= |ys|
    decreases qs
  {
    if qs != {} {
      var q :| q in qs;
      Injected(qs - {q}, f, ys - {f[q]});
    }
  }

  // ---- errors after the commit ----

  /** After its transaction committed something raises for the attempt: a commit callback, or
      leaving the lock although the body returned. */
  predicate RaisesAfterCommit(s: State, l: Label, a: AttemptId) {
    && l.Act? && l.a == a && a in s.attempts
    && var t := s.attempts[a];
    || l.action.CallbackFails?
    || (&& l.action.Release? && t.phase.Releasing? && t.phase.pending.Value?
        && t.lease.Some? && (l.action.fault.Some? || s.now > t.lease.value))
  }

  /** How often that happened along a run. */
  function LateErrors(cfg: Config, s: State, ls: seq<Label>, a: AttemptId): nat
    requires Legal(cfg, s, ls)
  {
    Times(cfg, s, ls, (u, l) => RaisesAfterCommit(u, l, a))
  }

  predicate IsLate(s: State, a: AttemptId) {
    a in s.attempts && s.attempts[a].late
  }

  lemma ReleaseIsLate(cfg: Config, s: State, a: AttemptId, fault: Option<Class>)
    requires a in s.attempts && s.attempts[a].phase.Releasing?
    requires OutcomeOk(s.attempts[a], s.attempts[a].phase.pending)
    requires s.attempts[a].late ==> s.attempts[a].committed
    requires s.attempts[a].lease.Some? ==>
               (Holds(s.locks, s.attempts[a].message.taskName, a, s.now) <==> s.now <= s.attempts[a].lease.value)
    requires fault.Some? ==> s.attempts[a].lease.Some?
    ensures
      DoRelease(s, a, s.attempts[a], fault).attempt.late <==>
      s.attempts[a].late || RaisesAfterCommit(s, Act(a, Release(fault)), a)
  {
  }

  lemma ReleaseStepIsLate(cfg: Config, s: State, a: AttemptId, fault: Option<Class>)
    requires Inv(cfg, s) && a in s.attempts && Can(cfg, s, s.attempts[a], Release(fault))
    ensures
      MoveOf(cfg, s, a, s.attempts[a], Release(fault)).attempt.late <==>
      s.attempts[a].late || RaisesAfterCommit(s, Act(a, Release(fault)), a)
  {
    assert AttemptOk(cfg, s.attempts[a]);
    if s.attempts[a].lease.Some? {
      HoldsIffUnexpired(cfg, s, a);
    }
    ReleaseIsLate(cfg, s, a, fault);
  }

  lemma OtherStepIsLate(cfg: Config, s: State, l: Label, a: AttemptId)
    requires Enabled(cfg, s, l) && !(l.Act? && l.a == a && l.action.Release?)
    ensures IsLate(Apply(cfg, s, l), a) <==> IsLate(s, a) || RaisesAfterCommit(s, l, a)
  {
    if l.Act? {
      assert Apply(cfg, s, l).attempts == s.attempts[l.a := MoveOf(cfg, s, l.a, s.attempts[l.a], l.action).attempt];
    }
  }

  lemma StepIsLate(cfg: Config, s: State, l: Label, a: AttemptId)
    requires Inv(cfg, s) && Enabled(cfg, s, l)
    ensures IsLate(Apply(cfg, s, l), a) <==> IsLate(s, a) || RaisesAfterCommit(s, l, a)
  {
    if l.Act? && l.a == a && l.action.Release? {
      ReleaseStepIsLate(cfg, s, a, l.action.fault);
    } else {
      OtherStepIsLate(cfg, s, l, a);
    }
  }

  lemma {:induction false} LateIffRaised(cfg: Config, s: State, ls: seq<Label>, a: AttemptId)
    requires Inv(cfg, s) && Legal(cfg, s, ls)
    ensures IsLate(After(cfg, s, ls), a) <==> IsLate(s, a) || LateErrors(cfg, s, ls, a) > 0
    decreases |ls|
  {
    if ls != [] {
      StepIsLate(cfg, s, ls[0], a);
      StepKeepsInv(cfg, s, ls[0]);
      LateIffRaised(cfg, Apply(cfg, s, ls[0]), ls[1..], a);
    }
  }

  // ---- effects ----

  lemma SavedEffects(cfg: Config, s: State, a: AttemptId)
    requires Inv(cfg, s) && a in s.attempts && s.attempts[a].saved.Some?
    ensures
      var t := s.attempts[a];
      if t.saved == Some(Clean) then
        && t.committed && !t.late
        && |t.published| == |t.calls|
        && forall i | 0 <= i < |t.calls| ::
             t.published[i] in s.sent && s.sent[t.published[i]].task == t.calls[i]
      else
        && (t.committed <==> t.late)
        && (!t.late ==> t.published == [])
  {
    assert AttemptOk(cfg, s.attempts[a]);
    assert PublishedOk(s, s.attempts[a]);
  }

  /** A recorded success took effect completely: the transaction is committed, each of the
      body's enqueues was sent, in order, and nothing raised after the commit. Any other
      recorded ending took effect if and only if something did, and otherwise left and sent
      nothing. */
  lemma AllOrNothing(cfg: Config, ls: seq<Label>, a: AttemptId)
    requires Legal(cfg, EMPTY, ls)
    requires var s := After(cfg, EMPTY, ls); a in s.attempts && s.attempts[a].saved.Some?
    ensures
      var s := After(cfg, EMPTY, ls);
      var t := s.attempts[a];
      var raised := LateErrors(cfg, EMPTY, ls, a) > 0;
      if t.saved == Some(Clean) then
        && t.committed && !raised
        && |t.published| == |t.calls|
        && forall i | 0 <= i < |t.calls| ::
             t.published[i] in s.sent && s.sent[t.published[i]].task == t.calls[i]
      else
        && (t.committed <==> raised)
        && (!raised ==> t.published == [])
  {
    EmptyKeepsAll(cfg);
    RunKeepsInv(cfg, EMPTY, ls);
    LateIffRaised(cfg, EMPTY, ls, a);
    SavedEffects(cfg, After(cfg, EMPTY, ls), a);
  }

  lemma CommittedTwice(cfg: Config, s: State, a: AttemptId, b: AttemptId)
    requires Inv(cfg, s) && a in s.attempts && b in s.attempts
    requires s.attempts[a].id in s.sent && s.attempts[b].id in s.sent
    requires s.sent[s.attempts[a].id].root == s.sent[s.attempts[b].id].root
    requires Kept(s, s.sent[s.attempts[a].id].root)
    requires s.attempts[a].committed && s.attempts[b].committed && !s.attempts[a].late
    requires RetriesOf(s, s.attempts[a].id) <= RetriesOf(s, s.attempts[b].id)
    ensures a == b
  {
    assert AttemptOk(cfg, s.attempts[a]) && AttemptOk(cfg, s.attempts[b]);
    var p, q := s.attempts[a].id, s.attempts[b].id;
    if RetriesOf(s, p) == RetriesOf(s, q) {
      CounterIdentifies(cfg, s, p, q);
      OneCreationPerId(cfg, s, a, b);
    } else {
      var c := EarlierWasRetried(cfg, s, p, q);
      assert AttemptOk(cfg, s.attempts[c]);
      OneCreationPerId(cfg, s, a, c);
    }
  }

  /** Of two attempts of one chain of retries for which nothing raised after a commit, at most
      one takes effect, as long as no record of the chain is deleted, whatever else happens
      in the system. */
  lemma OneEffectPerChain(cfg: Config, ls: seq<Label>, a: AttemptId, b: AttemptId)
    requires Legal(cfg, EMPTY, ls)
    requires LateErrors(cfg, EMPTY, ls, a) == 0 && LateErrors(cfg, EMPTY, ls, b) == 0
    requires
      var s := After(cfg, EMPTY, ls);
      && a in s.attempts && b in s.attempts
      && s.attempts[a].id in s.sent && s.attempts[b].id in s.sent
      && s.sent[s.attempts[a].id].root == s.sent[s.attempts[b].id].root
      && Kept(s, s.sent[s.attempts[a].id].root)
      && s.attempts[a].committed && s.attempts[b].committed
    ensures a == b
  {
    var s := After(cfg, EMPTY, ls);
    EmptyKeepsAll(cfg);
    RunKeepsInv(cfg, EMPTY, ls);
    LateIffRaised(cfg, EMPTY, ls, a);
    LateIffRaised(cfg, EMPTY, ls, b);
    if RetriesOf(s, s.attempts[a].id) <= RetriesOf(s, s.attempts[b].id) {
      CommittedTwice(cfg, s, a, b);
    } else {
      CommittedTwice(cfg, s, b, a);
    }
  }

  // ---- retries that are never sent ----

  /** An attempt already recorded RETRIED fails to send its retry, or crashes before it. */
  predicate LosesRetry(s: State, l: Label, a: AttemptId) {
    && l.Act? && l.a == a && a in s.attempts && s.attempts[a].phase.Requeueing?
    && (l.action.RequeueFails? || l.action.Crash?)
  }

  function LostRetries(cfg: Config, s: State, ls: seq<Label>, a: AttemptId): nat
    requires Legal(cfg, s, ls)
  {
    Times(cfg, s, ls, (u, l) => LosesRetry(u, l, a))
  }

  /** An attempt recorded RETRIED is about to send its retry, has sent it, or has lost it. */
  predicate RetryAccounted(t: Attempt, lost: bool) {
    && (lost ==> t.saved == Some(Retry) && Over(t.phase) && t.spawned.None?)
    && (t.saved == Some(Retry) && Over(t.phase) && t.spawned.None? ==> lost)
    && (t.phase.Requeueing? ==> t.spawned.None?)
  }

  lemma MoveAccounts(cfg: Config, s: State, a: AttemptId, t: Attempt, x: Action, lost: bool)
    requires Can(cfg, s, t, x) && AttemptOk(cfg, t) && RetryAccounted(t, lost)
    ensures RetryAccounted(MoveOf(cfg, s, a, t, x).attempt,
                           lost || (t.phase.Requeueing? && (x.RequeueFails? || x.Crash?)))
  {
    if x.Save? {
      assert MoveOf(cfg, s, a, t, x) == DoSave(s, t, VerdictOf(cfg, t.message, t.phase.outcome), x.fault);
    }
  }

  predicate Accounted(s: State, a: AttemptId, lost: bool) {
    if a in s.attempts then RetryAccounted(s.attempts[a], lost) else !lost
  }

  lemma StepAccounts(cfg: Config, s: State, l: Label, a: AttemptId, lost: bool)
    requires AttemptsOk(cfg, s) && Enabled(cfg, s, l) && Accounted(s, a, lost)
    ensures Accounted(Apply(cfg, s, l), a, lost || LosesRetry(s, l, a))
  {
    if l.Act? && l.a == a {
      assert AttemptOk(cfg, s.attempts[a]);
      MoveAccounts(cfg, s, a, s.attempts[a], l.action, lost);
    }
  }

  lemma {:induction false} RunAccounts(cfg: Config, s: State, ls: seq<Label>, a: AttemptId, lost: bool)
    requires Inv(cfg, s) && Legal(cfg, s, ls) && Accounted(s, a, lost)
    ensures Accounted(After(cfg, s, ls), a, lost || LostRetries(cfg, s, ls, a) > 0)
    decreases |ls|
  {
    if ls != [] {
      StepAccounts(cfg, s, ls[0], a, lost);
      StepKeepsInv(cfg, s, ls[0]);
      RunAccounts(cfg, Apply(cfg, s, ls[0]), ls[1..], a, lost || LosesRetry(s, ls[0], a));
    }
  }

  /** A RETRIED attempt that is over has no successor if and only if sending it raised, or its
      worker crashed after recording RETRIED and before sending. */
  lemma ChainBreaksIffRetryLost(cfg: Config, ls: seq<Label>, a: AttemptId)
    requires Legal(cfg, EMPTY, ls)
    requires
      var s := After(cfg, EMPTY, ls);
      a in s.attempts && s.attempts[a].saved == Some(Retry) && Over(s.attempts[a].phase)
    ensures After(cfg, EMPTY, ls).attempts[a].spawned.None? <==> LostRetries(cfg, EMPTY, ls, a) > 0
  {
    EmptyKeepsAll(cfg);
    RunAccounts(cfg, EMPTY, ls, a, false);
  }
}
