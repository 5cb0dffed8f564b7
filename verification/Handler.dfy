/** The Lambda entry point: a batch of records, with partial-failure reporting; and the
    maintenance task that deletes old records. */
module Handler {
  import opened Wrappers
  import opened Errors
  import opened Settings
  import opened Tasks
  import opened Protocol
  import opened Invariants
  import opened Sequential
  import opened Executor

  const VALIDATION_ERROR: Class := "ValidationError"

  /** An SQS record; `body` is None when the JSON is no valid message. `connection` is what
      closing old database connections before it raises, if it does. */
  datatype Delivery = Delivery(id: Id, body: Option<Message>, connection: Option<Class>)

  /** `batchItemFailures`, or an error that is not an `Exception` and ends the invocation. */
  datatype Report = Failures(ids: seq<Id>) | Died(error: Class)

  function EndingAt(cfg: Config, st: Store, d: Delivery, script: Script): Ending {
    if d.connection.Some? then Raised(d.connection.value)
    else if d.body.None? then Raised(VALIDATION_ERROR)
    else EndingOf(cfg, st, d.id, d.body.value, script)
  }

  function StoreAfter(cfg: Config, st: Store, d: Delivery, script: Script): Store {
    if d.connection.Some? || d.body.None? then st else Sequential.Deliver(cfg, st, d.id, d.body.value, script)
  }

  /** `except Exception` catches it. */
  predicate Caught(cfg: Config, e: Ending) {
    e.Raised? ==> IsSubclass(cfg.hierarchy, e.error, EXCEPTION)
  }

  /** The batch loop, from a given store and list of failures. */
  function Loop(cfg: Config, st: Store, batch: seq<Delivery>, script: Script, failures: seq<Id>): (Store, Report)
    decreases |batch|
  {
    if batch == [] then (st, Failures(failures))
    else
      var d := batch[0];
      var e := EndingAt(cfg, st, d, script);
      var st' := StoreAfter(cfg, st, d, script);
      if !Caught(cfg, e) then (st', Died(e.error))
      else Loop(cfg, st', batch[1..], script, if e.Raised? then failures + [d.id] else failures)
  }

  // ---- what the report says ----

  /** The store before record `i`: single-record steps, one after another. */
  function StoreBefore(cfg: Config, st: Store, batch: seq<Delivery>, script: Script, i: nat): Store
    requires i <= |batch|
  {
    if i == 0 then st else StoreAfter(cfg, StoreBefore(cfg, st, batch, script, i - 1), batch[i - 1], script)
  }

  /** How each record of a batch ends, if the loop gets to it. */
  function EndingsOf(cfg: Config, st: Store, batch: seq<Delivery>, script: Script): (es: seq<Ending>)
    ensures |es| == |batch|
  {
    seq(|batch|, i requires 0 <= i < |batch| => EndingAt(cfg, StoreBefore(cfg, st, batch, script, i), batch[i], script))
  }

  /** The ids of the records that raised, in order. */
  function FailedIds(batch: seq<Delivery>, es: seq<Ending>): seq<Id>
    requires |es| <= |batch|
    decreases |es|
  {
    if es == [] then []
    else
      var last := |es| - 1;
      FailedIds(batch, es[..last]) + if es[last].Raised? then [batch[last].id] else []
  }

  lemma LoopUnfolds(cfg: Config, st: Store, batch: seq<Delivery>, script: Script, failures: seq<Id>)
    requires batch != [] && Caught(cfg, EndingAt(cfg, st, batch[0], script))
    ensures Loop(cfg, st, batch, script, failures) ==
            Loop(cfg, StoreAfter(cfg, st, batch[0], script), batch[1..], script,
                 if EndingAt(cfg, st, batch[0], script).Raised? then failures + [batch[0].id] else failures)
  {
  }

  lemma FailedIdsUnfolds(batch: seq<Delivery>, es: seq<Ending>, i: nat)
    requires i < |es| <= |batch|
    ensures FailedIds(batch, es[..i + 1]) ==
            if es[i].Raised? then FailedIds(batch, es[..i]) + [batch[i].id] else FailedIds(batch, es[..i])
  {
    assert es[..i + 1][..i] == es[..i];
  }

  lemma {:induction false} FailuresAreListed(batch: seq<Delivery>, es: seq<Ending>)
    requires |es| <= |batch|
    ensures forall i | 0 <= i < |es| && es[i].Raised? :: batch[i].id in FailedIds(batch, es)
    decreases |es|
  {
    if es != [] {
      FailuresAreListed(batch, es[..|es| - 1]);
    }
  }

  lemma LoopStep(cfg: Config, st: Store, batch: seq<Delivery>, script: Script, es: seq<Ending>, i: nat)
    requires i < |batch| && es == EndingsOf(cfg, st, batch, script)
    requires forall e | e in es :: Caught(cfg, e)
    ensures
      Loop(cfg, StoreBefore(cfg, st, batch, script, i), batch[i..], script, FailedIds(batch, es[..i])) ==
      Loop(cfg, StoreBefore(cfg, st, batch, script, i + 1), batch[i + 1..], script, FailedIds(batch, es[..i + 1]))
  {
    var before := StoreBefore(cfg, st, batch, script, i);
    assert es[i] in es && es[i] == EndingAt(cfg, before, batch[i], script);
    assert batch[i..][0] == batch[i] && batch[i..][1..] == batch[i + 1..];
    LoopUnfolds(cfg, before, batch[i..], script, FailedIds(batch, es[..i]));
    FailedIdsUnfolds(batch, es, i);
  }

  lemma {:induction false} LoopFrom(cfg: Config, st: Store, batch: seq<Delivery>, script: Script,
                                    es: seq<Ending>, i: nat)
    requires i <= |batch| && es == EndingsOf(cfg, st, batch, script)
    requires forall e | e in es :: Caught(cfg, e)
    ensures
      Loop(cfg, StoreBefore(cfg, st, batch, script, i), batch[i..], script, FailedIds(batch, es[..i])) ==
      (StoreBefore(cfg, st, batch, script, |batch|), Failures(FailedIds(batch, es)))
    decreases |batch| - i
  {
    if i < |batch| {
      LoopStep(cfg, st, batch, script, es, i);
      LoopFrom(cfg, st, batch, script, es, i + 1);
    } else {
      assert es[..i] == es;
    }
  }

  /** When only `Exception`s are raised, every record is processed whatever happened to the
      others, the reported failures are, in order, the ids whose processing raised, and the
      final store is that of the single-record steps. */
  lemma ReportIsExact(cfg: Config, st: Store, batch: seq<Delivery>, script: Script)
    requires forall e | e in EndingsOf(cfg, st, batch, script) :: Caught(cfg, e)
    ensures Loop(cfg, st, batch, script, []) ==
            (StoreBefore(cfg, st, batch, script, |batch|),
             Failures(FailedIds(batch, EndingsOf(cfg, st, batch, script))))
  {
    assert batch[0..] == batch;
    var es := EndingsOf(cfg, st, batch, script);
    assert es[..0] == [];
    LoopFrom(cfg, st, batch, script, es, 0);
  }

  // ---- delivering again ----

  /** The message can be processed: it is come to, it parses, its task resolves. */
  predicate Processable(cfg: Config, d: Delivery) {
    d.connection.None? && d.body.Some? && Resolvable(cfg, d.body.value.taskName)
  }

  /** One delivery leaves a record under its id, and no record is ever removed. */
  lemma DeliveryLeavesRecord(cfg: Config, st: Store, d: Delivery, script: Script)
    ensures st.records.Keys <= StoreAfter(cfg, st, d, script).records.Keys
    ensures Processable(cfg, d) ==> d.id in StoreAfter(cfg, st, d, script).records
  {
  }

  lemma {:induction false} BatchLeavesRecords(cfg: Config, st: Store, batch: seq<Delivery>,
                                              script: Script, failures: seq<Id>)
    requires Loop(cfg, st, batch, script, failures).1.Failures?
    ensures
      var st' := Loop(cfg, st, batch, script, failures).0;
      && st.records.Keys <= st'.records.Keys
      && forall d | d in batch && Processable(cfg, d) :: d.id in st'.records
    decreases |batch|
  {
    if batch != [] {
      DeliveryLeavesRecord(cfg, st, batch[0], script);
      var e := EndingAt(cfg, st, batch[0], script);
      BatchLeavesRecords(cfg, StoreAfter(cfg, st, batch[0], script), batch[1..], script,
                         if e.Raised? then failures + [batch[0].id] else failures);
      forall d | d in batch && Processable(cfg, d)
        ensures d.id in Loop(cfg, st, batch, script, failures).0.records
      {
        assert d == batch[0] || d in batch[1..];
      }
    }
  }

  /** Records that already exist are acknowledged, and nothing changes. */
  lemma {:induction false} RedeliveryIsAcknowledged(cfg: Config, st: Store, batch: seq<Delivery>, script: Script)
    requires forall d | d in batch :: Processable(cfg, d) && d.id in st.records
    ensures Loop(cfg, st, batch, script, []) == (st, Failures([]))
    decreases |batch|
  {
    if batch != [] {
      assert batch[0] in batch;
      RedeliveryIsAcknowledged(cfg, st, batch[1..], script);
    }
  }

  /** Whatever a batch reported, retry limits exceeded included, delivering any of its
      processable records again changes nothing and reports nothing, however the tasks
      would behave now. */
  lemma SecondDeliveryDoesNothing(cfg: Config, st: Store, batch: seq<Delivery>, again: seq<Delivery>,
                                  script: Script, script': Script)
    requires Loop(cfg, st, batch, script, []).1.Failures?
    requires forall d | d in again :: d in batch && Processable(cfg, d)
    ensures
      var st' := Loop(cfg, st, batch, script, []).0;
      Loop(cfg, st', again, script', []) == (st', Failures([]))
  {
    BatchLeavesRecords(cfg, st, batch, script, []);
    RedeliveryIsAcknowledged(cfg, Loop(cfg, st, batch, script, []).0, again, script');
  }

  // ---- the code ----

  /** The records of a batch are messages the queue delivered. */
  ghost predicate FromQueue(p: Process, batch: seq<Delivery>)
    reads p
  {
    forall d | d in batch && d.body.Some? :: d.id in p.sent && p.sent[d.id].task.message == d.body.value
  }

  /** How one record of a batch came out: it was not come to, an invalid body raised, or one
      attempt of its own was carried to its end, and ended like that. */
  ghost predicate Handled(s: State, eager: bool, d: Delivery, a: Option<AttemptId>, e: Ending) {
    if d.connection.Some? then a.None? && e == Raised(d.connection.value)
    else if d.body.None? then a.None? && e == Raised(VALIDATION_ERROR)
    else
      && a.Some? && a.value in s.attempts
      && s.attempts[a.value].id == d.id && s.attempts[a.value].phase.Done?
      && EndsAs(s.attempts[a.value], e, eager)
  }

  ghost predicate AllHandled(s: State, eager: bool, batch: seq<Delivery>,
                             runs: seq<Option<AttemptId>>, endings: seq<Ending>)
  {
    && |runs| == |endings| <= |batch|
    && forall i | 0 <= i < |endings| :: Handled(s, eager, batch[i], runs[i], endings[i])
  }

  lemma HandledStays(cfg: Config, s: State, ls: seq<Label>, eager: bool, batch: seq<Delivery>,
                     runs: seq<Option<AttemptId>>, endings: seq<Ending>)
    requires Legal(cfg, s, ls) && AllHandled(s, eager, batch, runs, endings)
    ensures AllHandled(After(cfg, s, ls), eager, batch, runs, endings)
  {
    forall i | 0 <= i < |endings|
      ensures Handled(After(cfg, s, ls), eager, batch[i], runs[i], endings[i])
    {
      assert Handled(s, eager, batch[i], runs[i], endings[i]);
      if runs[i].Some? {
        FinishedStays(cfg, s, ls, runs[i].value);
      }
    }
  }

  lemma OneMoreHandled(s: State, eager: bool, batch: seq<Delivery>, runs: seq<Option<AttemptId>>,
                       endings: seq<Ending>, run: Option<AttemptId>, ending: Ending)
    requires AllHandled(s, eager, batch, runs, endings) && |endings| < |batch|
    requires Handled(s, eager, batch[|endings|], run, ending)
    ensures AllHandled(s, eager, batch, runs + [run], endings + [ending])
    ensures FailedIds(batch, endings + [ending]) ==
            FailedIds(batch, endings) + if ending.Raised? then [batch[|endings|].id] else []
  {
    assert (endings + [ending])[..|endings|] == endings;
  }

  /** The body of the loop, up to its `except`. */
  method HandleOne(p: Process, d: Delivery, script: Message -> World, ghost alone: bool)
    returns (ending: Ending, ghost run: Option<AttemptId>, ghost trace: seq<Label>)
    requires p.Valid() && FromQueue(p, [d])
    requires p.eager ==> forall m: Message :: Childless(script(m).result)
    modifies p
    ensures p.Valid()
    ensures Leads(p.cfg, old(p.View()), trace, p.View()) && Grows(old(p.View()), p.sent)
    ensures Handled(p.View(), p.eager, d, run, ending)
    ensures d.connection.Some? ==> ending == Raised(d.connection.value)
    ensures d.connection.None? && d.body.None? ==> ending == Raised("ValidationError")
    ensures ending.Raised? && run.Some? ==>
              RaisesFor(p.cfg, script, d.body.value, p.attempts[run.value].saved, ending.error, p.eager)
    ensures alone && !p.eager && (forall m: Message :: Undisturbed(script(m))) ==>
              && p.Snapshot() == StoreAfter(p.cfg, old(p.Snapshot()), d, Outcomes(script))
              && ending == EndingAt(p.cfg, old(p.Snapshot()), d, Outcomes(script))
  {
    if d.connection.Some? {
      return Raised(d.connection.value), None, [];
    }
    if d.body.None? {
      return Raised(VALIDATION_ERROR), None, [];
    }
    assert d in [d];
    ghost var u := p.View();
    var a, e, steps := p.ExecuteImmediately(d.id, d.body.value, script, alone);
    RunKeepsSent(p.cfg, u, steps);
    ending, run, trace := e, Some(a), steps;
  }

  /** The next record of a batch. */
  method HandleNext(p: Process, batch: seq<Delivery>, i: nat, script: Message -> World, ghost alone: bool,
                    ghost runs: seq<Option<AttemptId>>, ghost endings: seq<Ending>)
    returns (ending: Ending, ghost run: Option<AttemptId>, ghost trace: seq<Label>)
    requires p.Valid() && FromQueue(p, batch) && i < |batch|
    requires |endings| == i && AllHandled(p.View(), p.eager, batch, runs, endings)
    requires p.eager ==> forall m: Message :: Childless(script(m).result)
    modifies p
    ensures p.Valid() && FromQueue(p, batch)
    ensures Leads(p.cfg, old(p.View()), trace, p.View())
    ensures AllHandled(p.View(), p.eager, batch, runs + [run], endings + [ending])
    ensures FailedIds(batch, endings + [ending]) ==
            FailedIds(batch, endings) + if ending.Raised? then [batch[i].id] else []
    ensures batch[i].connection.Some? || batch[i].body.None? ==> ending.Raised?
    ensures alone && !p.eager && (forall m: Message :: Undisturbed(script(m))) ==>
              && p.Snapshot() == StoreAfter(p.cfg, old(p.Snapshot()), batch[i], Outcomes(script))
              && ending == EndingAt(p.cfg, old(p.Snapshot()), batch[i], Outcomes(script))
  {
    ghost var u := p.View();
    ending, run, trace := HandleOne(p, batch[i], script, alone);
    HandledStays(p.cfg, u, trace, p.eager, batch, runs, endings);
    OneMoreHandled(p.View(), p.eager, batch, runs, endings, run, ending);
  }

  /** The loop of `handler`: one record after another; errors are collected, not passed on.
      Whatever other workers do, each record that is come to and parses gets an attempt of
      its own, and the ids reported are those of the records that raised. */
  method Handle(p: Process, batch: seq<Delivery>, script: Message -> World, ghost alone: bool)
    returns (report: Report, ghost endings: seq<Ending>, ghost runs: seq<Option<AttemptId>>, ghost trace: seq<Label>)
    requires p.Valid() && FromQueue(p, batch)
    requires p.eager ==> forall m: Message :: Childless(script(m).result)
    modifies p
    ensures p.Valid()
    ensures Leads(p.cfg, old(p.View()), trace, p.View())
    ensures AllHandled(p.View(), p.eager, batch, runs, endings)
    ensures report.Failures? ==>
              && |endings| == |batch|
              && report.ids == FailedIds(batch, endings)
              && (forall e | e in endings && e.Raised? :: IsSubclass(p.cfg.hierarchy, e.error, EXCEPTION))
              && (forall i | 0 <= i < |batch| && endings[i].Raised? :: batch[i].id in report.ids)
              && (forall d | d in batch && (d.connection.Some? || d.body.None?) :: d.id in report.ids)
    ensures report.Died? ==>
              && endings != [] && endings[|endings| - 1] == Raised(report.error)
              && !IsSubclass(p.cfg.hierarchy, report.error, EXCEPTION)
    ensures alone && !p.eager && (forall m: Message :: Undisturbed(script(m))) ==>
              (p.Snapshot(), report) == Loop(p.cfg, old(p.Snapshot()), batch, Outcomes(script), [])
  {
    ghost var s := p.View();
    ghost var st := p.Snapshot();
    ghost var undisturbed := alone && !p.eager && forall m: Message :: Undisturbed(script(m));
    var failures: seq<Id> := [];
    endings, runs, trace := [], [], [];
    var i := 0;
    while i < |batch|
      invariant 0 <= i <= |batch|
      invariant p.Valid() && FromQueue(p, batch)
      invariant Leads(p.cfg, s, trace, p.View())
      invariant |endings| == i && AllHandled(p.View(), p.eager, batch, runs, endings)
      invariant failures == FailedIds(batch, endings)
      invariant forall j | 0 <= j < i && (batch[j].connection.Some? || batch[j].body.None?) :: endings[j].Raised?
      invariant forall e | e in endings :: Caught(p.cfg, e)
      invariant undisturbed ==>
                  Loop(p.cfg, p.Snapshot(), batch[i..], Outcomes(script), failures) ==
                  Loop(p.cfg, st, batch, Outcomes(script), [])
    {
      ghost var u := p.View();
      assert batch[i..][0] == batch[i] && batch[i..][1..] == batch[i + 1..];
      var ending, run, steps := HandleNext(p, batch, i, script, alone, runs, endings);
      Join(p.cfg, s, trace, u, steps, p.View());
      trace := trace + steps;
      endings, runs := endings + [ending], runs + [run];
      if ending.Raised? {
        if !IsSubclass(p.cfg.hierarchy, ending.error, EXCEPTION) {
          return Died(ending.error), endings, runs, trace;
        }
        failures := failures + [batch[i].id];
      }
      i := i + 1;
    }
    report := Failures(failures);
    FailuresAreListed(batch, endings);
  }

  lemma CleanupKeepsOwned(s: State, gone: Id)
    requires Owned(s) && gone in s.records
    ensures Owned(DoCleanup(s, gone))
  {
  }

  /** One deleted row. */
  method DeleteRecord(p: Process, gone: Id) returns (ghost trace: seq<Label>)
    requires p.Valid() && Owned(p.View()) && gone in p.records
    modifies p`records, p`owner, p`attempts, p`deleted
    ensures p.Valid() && Owned(p.View())
    ensures trace == [Cleanup(gone)] && Leads(p.cfg, old(p.View()), trace, p.View())
    ensures p.records == old(p.records) - {gone}
  {
    ghost var u := p.View();
    ghost var a := p.owner[gone];
    p.records := p.records - {gone};
    p.owner := p.owner - {gone};
    p.deleted := p.deleted + multiset{gone};
    p.attempts := p.attempts[a := p.attempts[a].(orphaned := true)];
    trace := [Cleanup(gone)];
    assert p.View() == DoCleanup(u, gone);
    CleanupKeepsOwned(u, gone);
    Single(p.cfg, u, Cleanup(gone));
  }

  function Since(records: map<Id, Record>, cutoff: int): map<Id, Record> {
    map id | id in records && records[id].startTime >= cutoff :: records[id]
  }

  function Before(records: map<Id, Record>, cutoff: int): set<Id> {
    set id | id in records && records[id].startTime < cutoff
  }

  /** The same for one that began before a cutoff. */
  method DeleteOld(p: Process, gone: Id, ghost cutoff: int) returns (ghost trace: seq<Label>)
    requires p.Valid() && Owned(p.View()) && gone in Before(p.records, cutoff)
    modifies p`records, p`owner, p`attempts, p`deleted
    ensures p.Valid() && Owned(p.View()) && Leads(p.cfg, old(p.View()), trace, p.View())
    ensures Before(p.records, cutoff) == Before(old(p.records), cutoff) - {gone}
    ensures Since(p.records, cutoff) == Since(old(p.records), cutoff)
    ensures |p.records| == |old(p.records)| - 1
  {
    trace := DeleteRecord(p, gone);
    FewerRecords(old(p.records), gone, cutoff);
  }

  /** `cleanup_task_records`: deletes every record that began before the cutoff, whatever
      its status, and returns how many there were. */
  method CleanupTaskRecords(p: Process, retentionDays: int) returns (deletedCount: nat, ghost trace: seq<Label>)
    requires p.Valid() && Owned(p.View())
    modifies p`records, p`owner, p`attempts, p`deleted
    ensures p.Valid() && Owned(p.View())
    ensures Leads(p.cfg, old(p.View()), trace, p.View())
    ensures p.records == Since(old(p.records), p.now - 86400 * retentionDays)
    ensures forall id | id in old(p.records) ::
              (id in p.records <==> old(p.records)[id].startTime >= old(p.now) - 86400 * retentionDays)
    ensures deletedCount == |old(p.records)| - |p.records|
  {
    var cutoff := p.now - 86400 * retentionDays;
    ghost var s := p.View();
    ghost var before := p.records;
    trace := [];
    deletedCount := 0;
    var todo := Before(p.records, cutoff);
    while todo != {}
      invariant p.Valid() && Owned(p.View())
      invariant Leads(p.cfg, s, trace, p.View())
      invariant todo == Before(p.records, cutoff)
      invariant Since(p.records, cutoff) == Since(before, cutoff)
      invariant deletedCount == |before| - |p.records|
      decreases |todo|
    {
      var gone :| gone in todo;
      ghost var u := p.View();
      ghost var step := DeleteOld(p, gone, cutoff);
      Join(p.cfg, s, trace, u, step, p.View());
      trace := trace + step;
      deletedCount := deletedCount + 1;
      todo := todo - {gone};
    }
    NoneBefore(p.records, cutoff);
    SinceIsAtOrAfter(before, cutoff);
  }

  lemma SinceIsAtOrAfter(records: map<Id, Record>, cutoff: int)
    ensures forall id | id in records :: (id in Since(records, cutoff) <==> records[id].startTime >= cutoff)
  {
  }

  lemma NoneBefore(records: map<Id, Record>, cutoff: int)
    requires Before(records, cutoff) == {}
    ensures Since(records, cutoff) == records
  {
    forall id | id in records
      ensures records[id].startTime >= cutoff
    {
      assert id !in Before(records, cutoff);
    }
  }

  lemma FewerRecords(records: map<Id, Record>, gone: Id, cutoff: int)
    requires gone in Before(records, cutoff)
    ensures Before(records - {gone}, cutoff) == Before(records, cutoff) - {gone}
    ensures Since(records - {gone}, cutoff) == Since(records, cutoff)
    ensures |records - {gone}| == |records| - 1
  {
    assert (records - {gone}).Keys == records.Keys - {gone};
  }
}
