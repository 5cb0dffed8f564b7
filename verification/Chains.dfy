/** How long chains of retries get when records are deleted. */
module Chains {
  import opened Wrappers
  import opened Errors
  import opened Settings
  import opened Tasks
  import opened Protocol
  import opened Invariants
  import opened Guarantees
  import opened Retries

  /** The deletions of the records of some messages. */
  ghost function Deletions(s: State, qs: set<Id>): nat {
    if qs == {} then 0
    else
      var q :| q in qs;
      s.deleted[q] + Deletions(s, qs - {q})
  }

  lemma {:induction false} DeletionsOf(s: State, qs: set<Id>, q: Id)
    requires q in qs
    ensures Deletions(s, qs) == s.deleted[q] + Deletions(s, qs - {q})
    decreases qs
  {
    var p :| p in qs && Deletions(s, qs) == s.deleted[p] + Deletions(s, qs - {p});
    if p != q {
      DeletionsOf(s, qs - {p}, q);
      DeletionsOf(s, qs - {q}, p);
      assert qs - {p} - {q} == qs - {q} - {p};
    }
  }

  lemma {:induction false} DeletionsAdd(s: State, ps: set<Id>, qs: set<Id>)
    requires ps !! qs
    ensures Deletions(s, ps + qs) == Deletions(s, ps) + Deletions(s, qs)
    decreases ps
  {
    if ps == {} {
      assert ps + qs == qs;
    } else {
      var p :| p in ps;
      DeletionsOf(s, ps, p);
      DeletionsOf(s, ps + qs, p);
      assert ps + qs - {p} == (ps - {p}) + qs;
      DeletionsAdd(s, ps - {p}, qs);
    }
  }

  /** The attempts that created a record for one of some messages. */
  ghost function Creators(s: State, qs: set<Id>): set<AttemptId> {
    set a | a in s.attempts && s.attempts[a].created && s.attempts[a].id in qs
  }

  lemma {:induction false} FewCreators(s: State, qs: set<Id>)
    requires Counted(s)
    ensures |Creators(s, qs)| <= |qs| + Deletions(s, qs)
    decreases qs
  {
    if qs == {} {
      assert Creators(s, qs) == {};
    } else {
      var q :| q in qs;
      FewCreators(s, qs - {q});
      DeletionsOf(s, qs, q);
      assert |Creations(s, q)| == (if q in s.records then 1 else 0) + s.deleted[q];
      assert Creators(s, qs) == Creators(s, qs - {q}) + Creations(s, q);
    }
  }

  /** The messages of a chain with a given counter. */
  ghost function Level(s: State, root: Id, n: nat): set<Id> {
    set q | q in Chain(s, root) && RetriesOf(s, q) == n
  }

  /** Those with counters up to a given one. */
  ghost function UpTo(s: State, root: Id, n: nat): set<Id> {
    set q | q in Chain(s, root) && RetriesOf(s, q) <= n
  }

  /** The first message of a chain, with its counter. */
  predicate Begins(s: State, root: Id, n0: nat) {
    root in s.sent && s.sent[root].root == root && RetriesOf(s, root) == n0
  }

  lemma FirstLevel(cfg: Config, s: State, root: Id, n0: nat)
    requires Lineage(cfg, s) && Begins(s, root, n0)
    ensures Level(s, root, n0) == {root} == UpTo(s, root, n0)
  {
    forall q | q in Chain(s, root)
      ensures q == root || RetriesOf(s, q) > n0
    {
      assert DispatchOk(cfg, s, q);
    }
  }

  /** Each message of a level but the first was sent by an attempt at the level before. */
  lemma NextLevel(cfg: Config, s: State, root: Id, n0: nat, n: nat)
    requires Inv(cfg, s) && Begins(s, root, n0) && n >= n0
    ensures |Level(s, root, n + 1)| <= |Creators(s, Level(s, root, n))|
  {
    var next := Level(s, root, n + 1);
    forall q | q in next
      ensures s.sent[q].sender.Some? && s.sent[q].sender.value in Creators(s, Level(s, root, n))
      ensures s.attempts[s.sent[q].sender.value].spawned == Some(q)
    {
      assert DispatchOk(cfg, s, q);
    }
    var f := map q | q in next :: s.sent[q].sender.value;
    Injected(next, f, Creators(s, Level(s, root, n)));
  }

  lemma UpToNext(s: State, root: Id, n: nat)
    ensures UpTo(s, root, n + 1) == UpTo(s, root, n) + Level(s, root, n + 1)
    ensures UpTo(s, root, n) !! Level(s, root, n + 1)
  {
  }

  ghost predicate SlowAt(s: State, root: Id, n: nat) {
    |Level(s, root, n + 1)| <= |Level(s, root, n)| + Deletions(s, Level(s, root, n))
  }

  /** The levels of a chain begin with one message, and grow by deletions only. */
  ghost predicate GrowsSlowly(s: State, root: Id, n0: nat) {
    && Level(s, root, n0) == {root} == UpTo(s, root, n0)
    && forall n: nat {:trigger SlowAt(s, root, n)} | n >= n0 :: SlowAt(s, root, n)
  }

  lemma ChainGrowsSlowly(cfg: Config, s: State, root: Id, n0: nat)
    requires Inv(cfg, s) && Begins(s, root, n0)
    ensures GrowsSlowly(s, root, n0)
  {
    FirstLevel(cfg, s, root, n0);
    forall n: nat | n >= n0
      ensures SlowAt(s, root, n)
    {
      NextLevel(cfg, s, root, n0, n);
      FewCreators(s, Level(s, root, n));
    }
  }

  lemma DeletionsUpTo(s: State, root: Id, n: nat)
    ensures Deletions(s, UpTo(s, root, n + 1)) == Deletions(s, UpTo(s, root, n)) + Deletions(s, Level(s, root, n + 1))
  {
    UpToNext(s, root, n);
    DeletionsAdd(s, UpTo(s, root, n), Level(s, root, n + 1));
  }

  /** A level has one message, and one more at most for each record deleted before it. */
  lemma {:induction false} LevelBound(s: State, root: Id, n0: nat, n: nat)
    requires GrowsSlowly(s, root, n0) && n > n0
    ensures |Level(s, root, n)| <= 1 + Deletions(s, UpTo(s, root, n - 1))
    decreases n
  {
    assert SlowAt(s, root, n - 1);
    if n - 1 > n0 {
      LevelBound(s, root, n0, n - 1);
      DeletionsUpTo(s, root, n - 2);
    }
  }

  lemma DeletionsGrow(s: State, ps: set<Id>, qs: set<Id>)
    requires ps <= qs
    ensures Deletions(s, ps) <= Deletions(s, qs)
  {
    DeletionsAdd(s, ps, qs - ps);
    assert ps + (qs - ps) == qs;
  }

  lemma NextUpTo(s: State, root: Id, n0: nat, n: nat)
    requires GrowsSlowly(s, root, n0) && n > n0
    ensures |UpTo(s, root, n)| <= |UpTo(s, root, n - 1)| + 1 + Deletions(s, Chain(s, root))
  {
    LevelBound(s, root, n0, n);
    UpToNext(s, root, n - 1);
    DeletionsGrow(s, UpTo(s, root, n - 1), Chain(s, root));
  }

  lemma {:induction false} UpToBound(s: State, root: Id, n0: nat, n: nat)
    requires GrowsSlowly(s, root, n0) && n >= n0
    ensures |UpTo(s, root, n)| <= (n - n0 + 1) * (1 + Deletions(s, Chain(s, root)))
    decreases n
  {
    var d := 1 + Deletions(s, Chain(s, root));
    if n > n0 {
      UpToBound(s, root, n0, n - 1);
      NextUpTo(s, root, n0, n);
      assert (n - n0 + 1) * d == (n - n0) * d + d;
    }
  }

  /** In every reachable state, cleanup included: a message leads to no more messages than
      there are counter values left to it, times one more than the deletions of its chain's
      records. */
  lemma ChainIsBoundedByDeletions(cfg: Config, s: State, root: Id, n0: nat)
    requires Reachable(cfg, s) && Begins(s, root, n0)
    ensures
      var left := if cfg.maxRetries > n0 then cfg.maxRetries - n0 else 0;
      |Chain(s, root)| <= (left + 1) * (1 + Deletions(s, Chain(s, root)))
  {
    ReachableInv(cfg, s);
    var top := if cfg.maxRetries > n0 then cfg.maxRetries else n0;
    forall q | q in Chain(s, root)
      ensures RetriesOf(s, q) <= top
    {
      assert DispatchOk(cfg, s, q);
    }
    assert UpTo(s, root, top) == Chain(s, root);
    ChainGrowsSlowly(cfg, s, root, n0);
    UpToBound(s, root, n0, top);
  }

  // ---- a Batch task, through both of its message ids ----

  /** The ids of the Batch jobs that executions of a carrier message submitted. */
  ghost predicate IsJobOf(s: State, carrier: Id, job: Id) {
    exists a | a in s.attempts :: s.attempts[a].id == carrier && s.attempts[a].job == Some(job)
  }

  /** Every job carries, unchanged, the message its carrier was sent with. */
  lemma JobsCarryTheMessage(cfg: Config, s: State, carrier: Id, job: Id)
    requires Reachable(cfg, s) && IsJobOf(s, carrier, job)
    ensures carrier in s.sent && IsCarrier(s.sent[carrier].task.message)
    ensures job in s.sent && s.sent[job].task.message == s.sent[carrier].task.message.kwargs.inner
  {
    ReachableInv(cfg, s);
    var a :| a in s.attempts && s.attempts[a].id == carrier && s.attempts[a].job == Some(job);
    assert PublishedOk(s, s.attempts[a]);
  }

  /** A Batch task reaches its body by way of a carrier, whose body submits a job, and of the
      job's own id. While no record of these ids is deleted, the carrier's executions submit
      at most one job. */
  lemma AtMostOneJob(cfg: Config, s: State, carrier: Id, i: Id, j: Id)
    requires Reachable(cfg, s) && s.deleted[carrier] == 0
    requires IsJobOf(s, carrier, i) && IsJobOf(s, carrier, j)
    ensures i == j
  {
    ReachableInv(cfg, s);
    var a :| a in s.attempts && s.attempts[a].id == carrier && s.attempts[a].job == Some(i);
    var b :| b in s.attempts && s.attempts[b].id == carrier && s.attempts[b].job == Some(j);
    assert AttemptOk(cfg, s.attempts[a]) && AttemptOk(cfg, s.attempts[b]);
    StartedOnce(cfg, s, a, b);
  }

  /** An execution of a carrier that took effect submitted one. */
  lemma CommittedCarrierSubmitted(cfg: Config, s: State, a: AttemptId)
    requires Reachable(cfg, s) && a in s.attempts && s.attempts[a].committed && IsCarrier(s.attempts[a].message)
    ensures s.attempts[a].job.Some? && IsJobOf(s, s.attempts[a].id, s.attempts[a].job.value)
  {
    ReachableInv(cfg, s);
    assert AttemptOk(cfg, s.attempts[a]);
  }

  /** So the task's body is entered at most once in all, however often either message is
      delivered and whoever crashes. */
  lemma BatchTaskRunsAtMostOnce(cfg: Config, s: State, carrier: Id, a: AttemptId, b: AttemptId)
    requires Reachable(cfg, s) && a in s.attempts && b in s.attempts
    requires IsJobOf(s, carrier, s.attempts[a].id) && IsJobOf(s, carrier, s.attempts[b].id)
    requires s.deleted[carrier] == 0 && s.deleted[s.attempts[a].id] == 0
    requires s.attempts[a].started.Some? && s.attempts[b].started.Some?
    ensures a == b
    ensures
      && carrier in s.sent && IsCarrier(s.sent[carrier].task.message)
      && s.attempts[a].message == s.sent[carrier].task.message.kwargs.inner
  {
    AtMostOneJob(cfg, s, carrier, s.attempts[a].id, s.attempts[b].id);
    JobsCarryTheMessage(cfg, s, carrier, s.attempts[a].id);
    ReachableInv(cfg, s);
    StartedOnce(cfg, s, a, b);
  }

  lemma StartedOnce(cfg: Config, s: State, a: AttemptId, b: AttemptId)
    requires Inv(cfg, s) && a in s.attempts && b in s.attempts
    requires s.attempts[a].started.Some? && s.attempts[b].started.Some?
    requires s.attempts[a].id == s.attempts[b].id && s.deleted[s.attempts[a].id] == 0
    ensures a == b
  {
    assert AttemptOk(cfg, s.attempts[a]) && AttemptOk(cfg, s.attempts[b]);
    OneCreationPerId(cfg, s, a, b);
  }
}
