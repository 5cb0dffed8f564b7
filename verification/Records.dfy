/** The life of a task record. */
module Records {
  import opened Wrappers
  import opened Errors
  import opened Settings
  import opened Tasks
  import opened Protocol
  import opened Invariants
  import opened Guarantees

  /** In every reachable state: an end time is present exactly on terminal rows and never
      precedes the start, a traceback is present on every FAILED and RETRIED row, and the
      row carries the message sent under its id. */
  lemma RowsAreWellFormed(cfg: Config, s: State, id: Id)
    requires Reachable(cfg, s) && id in s.records
    ensures
      var row := s.records[id];
      && (row.endTime.Some? <==> !row.status.Running?)
      && (row.endTime.Some? ==> row.startTime <= row.endTime.value <= s.now)
      && (row.status.Failed? || row.status.Retried? ==> row.traceback.Some?)
      && id in s.sent && row.message == s.sent[id].task.message
  {
    ReachableInv(cfg, s);
  }

  /** When an attempt comes to save its verdict, the row it created is still there exactly
      if cleanup has not deleted it; otherwise the save finds no row, or another attempt's. */
  lemma SaveFindsOwnRowIffNotCleaned(cfg: Config, s: State, a: AttemptId)
    requires Reachable(cfg, s) && a in s.attempts && s.attempts[a].phase.Concluding?
    ensures
      var t := s.attempts[a];
      !t.orphaned <==> t.id in s.records && t.id in s.owner && s.owner[t.id] == a
  {
    ReachableInv(cfg, s);
    assert AttemptOk(cfg, s.attempts[a]);
  }

  // ---- runs in which cleanup leaves unfinished attempts at a message alone ----

  /** Cleanup deletes a record of this id only when its attempt is over. */
  predicate Spares(s: State, l: Label, id: Id) {
    l == Cleanup(id) && id in s.owner && s.owner[id] in s.attempts ==>
      Over(s.attempts[s.owner[id]].phase)
  }

  predicate Tidy(cfg: Config, s: State, ls: seq<Label>, id: Id)
    requires Legal(cfg, s, ls)
    decreases |ls|
  {
    ls == [] || (Spares(s, ls[0], id) && Tidy(cfg, Apply(cfg, s, ls[0]), ls[1..], id))
  }

  /** A row says what the attempt that created it saved, and nothing else. */
  predicate RowOf(row: Record, t: Attempt) {
    match t.saved
    case None => row.status.Running? && row.result.None? && row.traceback.None?
    case Some(v) =>
      && !v.Escaped? && row.status == StatusOf(v)
      && (v.Clean? ==> row.result.Some? && row.traceback.None?)
      && (!v.Clean? ==> row.result.None? && row.traceback.Some?)
  }

  ghost predicate TidyState(s: State, id: Id) {
    && (forall a | a in s.attempts && s.attempts[a].orphaned && s.attempts[a].id == id :: Over(s.attempts[a].phase))
    && (id in s.records && id in s.owner && s.owner[id] in s.attempts ==>
          RowOf(s.records[id], s.attempts[s.owner[id]]))
  }

  /** A step that leaves the row of `id` and its attempts' verdicts alone. */
  lemma OthersKeepTidy(s: State, a: AttemptId, m: Move, id: Id)
    requires Owned(s) && TidyState(s, id) && a in s.attempts
    requires SameDelivery(s.attempts[a], m.attempt)
    requires m.attempt.id == id ==> m.attempt.saved == s.attempts[a].saved && !m.attempt.orphaned
    requires id in m.records ==> id in s.records && m.records[id] == s.records[id]
    requires id in m.owner ==> id in s.owner && m.owner[id] == s.owner[id]
    ensures TidyState(Put(s, a, m), id)
  {
  }

  lemma CreationKeepsTidy(s: State, a: AttemptId, m: Move, id: Id)
    requires Owned(s) && TidyState(s, id) && a in s.attempts
    requires SameDelivery(s.attempts[a], m.attempt) && m.attempt.id == id
    requires m.attempt.saved.None? && !m.attempt.orphaned
    requires m.records == s.records[id := NewRecord(m.attempt.message, s.now)]
    requires m.owner == s.owner[id := a]
    ensures TidyState(Put(s, a, m), id)
  {
  }

  lemma SavingKeepsTidy(s: State, a: AttemptId, m: Move, id: Id)
    requires Owned(s) && TidyState(s, id) && a in s.attempts
    requires SameDelivery(s.attempts[a], m.attempt) && m.attempt.id == id
    requires s.attempts[a].created && !s.attempts[a].orphaned
    requires id in s.records && id in m.records && m.owner == s.owner
    requires RowOf(s.records[id], s.attempts[a]) ==> RowOf(m.records[id], m.attempt)
    ensures TidyState(Put(s, a, m), id)
  {
    assert RowOf(s.records[id], s.attempts[a]);
  }

  lemma ConcludedRow(row: Record, t: Attempt, v: Verdict, o: Outcome, now: nat)
    requires !v.Escaped? && (v.Clean? <==> o.Value?) && t.saved == Some(v)
    requires row.status.Running? && row.result.None? && row.traceback.None?
    ensures RowOf(Tasks.Conclude(row, v, o, now), t)
  {
  }

  lemma SaveKeepsTidy(s: State, a: AttemptId, v: Verdict, fault: Option<Class>, id: Id)
    requires Owned(s) && TidyState(s, id) && a in s.attempts
    requires s.attempts[a].created && s.attempts[a].saved.None?
    requires s.attempts[a].phase.Concluding? && (v.Clean? <==> s.attempts[a].phase.outcome.Value?)
    ensures TidyState(Put(s, a, DoSave(s, s.attempts[a], v, fault)), id)
  {
    var t := s.attempts[a];
    var m := DoSave(s, t, v, fault);
    if t.id == id {
      assert !t.orphaned;
    }
    if t.id == id && m.attempt.saved.Some? {
      assert RowOf(s.records[id], t);
      ConcludedRow(s.records[id], m.attempt, v, t.phase.outcome, s.now);
      SavingKeepsTidy(s, a, m, id);
    } else {
      OthersKeepTidy(s, a, m, id);
    }
  }

  lemma MoveKeepsTidy(cfg: Config, s: State, a: AttemptId, x: Action, id: Id)
    requires Owned(s) && TidyState(s, id)
    requires a in s.attempts && Can(cfg, s, s.attempts[a], x) && AttemptOk(cfg, s.attempts[a])
    ensures TidyState(Put(s, a, MoveOf(cfg, s, a, s.attempts[a], x)), id)
  {
    var t := s.attempts[a];
    var m := MoveOf(cfg, s, a, t, x);
    if x.Save? {
      SaveKeepsTidy(s, a, VerdictOf(cfg, t.message, t.phase.outcome), x.fault, id);
    } else if x.GetOrCreate? {
      assert m == DoGetOrCreate(cfg, s, a, t, x.fault);
      if m.attempt.created && t.id == id {
        CreationKeepsTidy(s, a, m, id);
      } else {
        OthersKeepTidy(s, a, m, id);
      }
    } else {
      OthersKeepTidy(s, a, m, id);
    }
  }

  lemma QuietKeepsTidy(s: State, s': State, id: Id)
    requires Owned(s) && TidyState(s, id) && Quiet(s, s')
    ensures TidyState(s', id)
  {
  }

  lemma CleanupKeepsTidy(s: State, gone: Id, id: Id)
    requires Owned(s) && TidyState(s, id) && gone in s.owner
    requires gone == id ==> Over(s.attempts[s.owner[gone]].phase)
    ensures TidyState(DoCleanup(s, gone), id)
  {
  }

  lemma StepKeepsTidy(cfg: Config, s: State, l: Label, id: Id)
    requires Owned(s) && AttemptsOk(cfg, s)
    requires TidyState(s, id) && Enabled(cfg, s, l) && Spares(s, l, id)
    ensures TidyState(Apply(cfg, s, l), id)
  {
    if l.Act? {
      assert AttemptOk(cfg, s.attempts[l.a]);
      MoveKeepsTidy(cfg, s, l.a, l.action, id);
    } else if l.Cleanup? {
      CleanupKeepsTidy(s, l.gone, id);
    } else {
      EnvironmentIsQuiet(cfg, s, l);
      QuietKeepsTidy(s, Apply(cfg, s, l), id);
    }
  }

  lemma {:induction false} TidyRun(cfg: Config, s: State, ls: seq<Label>, id: Id)
    requires Inv(cfg, s) && TidyState(s, id) && Legal(cfg, s, ls) && Tidy(cfg, s, ls, id)
    ensures Inv(cfg, After(cfg, s, ls)) && TidyState(After(cfg, s, ls), id)
    decreases |ls|
  {
    if ls != [] {
      StepKeepsTidy(cfg, s, ls[0], id);
      StepKeepsInv(cfg, s, ls[0]);
      TidyRun(cfg, Apply(cfg, s, ls[0]), ls[1..], id);
    }
  }

  /** Whatever becomes of other records: in such runs the row of this id has a result exactly
      if it is a clean success, and a traceback exactly if it is terminal otherwise. */
  lemma ResultOrTraceback(cfg: Config, ls: seq<Label>, id: Id)
    requires Legal(cfg, EMPTY, ls) && Tidy(cfg, EMPTY, ls, id) && id in After(cfg, EMPTY, ls).records
    ensures
      var row := After(cfg, EMPTY, ls).records[id];
      && (row.result.Some? ==> row.status.Succeeded? && row.traceback.None?)
      && (!row.status.Running? ==> (row.result.Some? <==> row.traceback.None?))
      && (row.status.Running? ==> row.result.None? && row.traceback.None?)
  {
    EmptyKeepsAll(cfg);
    TidyRun(cfg, EMPTY, ls, id);
    OwnedRow(After(cfg, EMPTY, ls), id);
  }

  lemma OwnedRow(s: State, id: Id)
    requires Owned(s) && TidyState(s, id) && id in s.records
    ensures id in s.owner && s.owner[id] in s.attempts && RowOf(s.records[id], s.attempts[s.owner[id]])
  {
  }
}
