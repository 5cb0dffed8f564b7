/** Exactly when the row of a message can still change. */
module Finality {
  import opened Wrappers
  import opened Errors
  import opened Settings
  import opened Tasks
  import opened Protocol
  import opened Invariants
  import opened Guarantees
  import opened Records

  /** The executor catches the error, so its verdict is saved. */
  predicate Caught(cfg: Config, o: Outcome) {
    o.Error? ==> IsSubclass(cfg.hierarchy, o.error, EXCEPTION)
  }

  /** An attempt that may still save a verdict: it is before its save, and no uncaught error
      is on its way out with nothing left to replace it. */
  predicate CanConclude(cfg: Config, t: Attempt) {
    match t.phase
    case Recorded | Guarded | Body | Callbacks(_, _) => true
    case Releasing(o) => t.lease.Some? || Caught(cfg, o)
    case Concluding(o) => Caught(cfg, o)
    case _ => false
  }

  /** No attempt that created a record of this id can still save. */
  ghost predicate Settled(cfg: Config, s: State, id: Id) {
    forall a | a in s.attempts && s.attempts[a].created && s.attempts[a].id == id ::
      !CanConclude(cfg, s.attempts[a])
  }

  /** Some continuation that does not delete the row changes it. */
  ghost predicate CanChange(cfg: Config, s: State, id: Id)
    requires id in s.records
  {
    exists ls: seq<Label> :: Legal(cfg, s, ls) && Cleanup(id) !in ls && Differs(s, After(cfg, s, ls), id)
  }

  predicate Differs(s: State, u: State, id: Id)
    requires id in s.records
  {
    id !in u.records || u.records[id] != s.records[id]
  }

  // ---- a settled row stays ----

  lemma MoveStaysSettled(cfg: Config, s: State, a: AttemptId, t: Attempt, x: Action)
    requires Can(cfg, s, t, x) && AttemptOk(cfg, t) && t.created && !CanConclude(cfg, t)
    ensures !CanConclude(cfg, MoveOf(cfg, s, a, t, x).attempt)
    ensures MoveOf(cfg, s, a, t, x).records == s.records
  {
  }

  lemma MoveKeepsRow(cfg: Config, s: State, a: AttemptId, x: Action, id: Id)
    requires a in s.attempts && Can(cfg, s, s.attempts[a], x) && AttemptOk(cfg, s.attempts[a])
    requires id in s.records && Settled(cfg, s, id)
    ensures
      var m := MoveOf(cfg, s, a, s.attempts[a], x);
      && id in m.records && m.records[id] == s.records[id]
      && (m.attempt.created && m.attempt.id == id ==> !CanConclude(cfg, m.attempt))
  {
    var t := s.attempts[a];
    if t.created && t.id == id {
      MoveStaysSettled(cfg, s, a, t, x);
    } else if x.GetOrCreate? {
      assert MoveOf(cfg, s, a, t, x) == DoGetOrCreate(cfg, s, a, t, x.fault);
    } else if x.Save? {
      assert MoveOf(cfg, s, a, t, x) == DoSave(s, t, VerdictOf(cfg, t.message, t.phase.outcome), x.fault);
    }
  }

  lemma StepKeepsRow(cfg: Config, s: State, l: Label, id: Id)
    requires AttemptsOk(cfg, s) && Enabled(cfg, s, l) && l != Cleanup(id)
    requires id in s.records && Settled(cfg, s, id)
    ensures
      var u := Apply(cfg, s, l);
      id in u.records && u.records[id] == s.records[id] && Settled(cfg, u, id)
  {
    if l.Act? {
      assert AttemptOk(cfg, s.attempts[l.a]);
      MoveKeepsRow(cfg, s, l.a, l.action, id);
    }
  }

  /** Once no attempt that created its record can save any more, a row is final: whatever
      else happens, cleanup of other records included, it stays as it is until deleted. */
  lemma {:induction false} SettledRowsAreFinal(cfg: Config, s: State, ls: seq<Label>, id: Id)
    requires Inv(cfg, s) && id in s.records && Settled(cfg, s, id)
    requires Legal(cfg, s, ls) && Cleanup(id) !in ls
    ensures id in After(cfg, s, ls).records && After(cfg, s, ls).records[id] == s.records[id]
    decreases |ls|
  {
    if ls != [] {
      assert ls[0] in ls && Cleanup(id) !in ls[1..];
      StepKeepsRow(cfg, s, ls[0], id);
      StepKeepsInv(cfg, s, ls[0]);
      SettledRowsAreFinal(cfg, Apply(cfg, s, ls[0]), ls[1..], id);
    }
  }

  // ---- an unsettled row can change ----

  /** The steps lead from `s` to `u` without deleting the row of `id`, and leave it alone. */
  ghost predicate Reaches(cfg: Config, s: State, ls: seq<Label>, u: State, id: Id) {
    && Legal(cfg, s, ls) && After(cfg, s, ls) == u && Cleanup(id) !in ls
    && u.records == s.records && u.now == s.now
  }

  lemma Chained(cfg: Config, s: State, xs: seq<Label>, u: State, ys: seq<Label>, v: State, id: Id)
    requires Reaches(cfg, s, xs, u, id) && Reaches(cfg, u, ys, v, id)
    ensures Reaches(cfg, s, xs + ys, v, id)
  {
    Concatenate(cfg, s, xs, ys);
  }

  lemma OneLabel(cfg: Config, s: State, l: Label)
    requires Enabled(cfg, s, l)
    ensures Legal(cfg, s, [l]) && After(cfg, s, [l]) == Apply(cfg, s, l)
  {
    assert [l][1..] == [];
  }

  lemma OneStep(cfg: Config, s: State, a: AttemptId, x: Action, m: Move, id: Id)
    requires a in s.attempts && Can(cfg, s, s.attempts[a], x) && m == MoveOf(cfg, s, a, s.attempts[a], x)
    requires m.records == s.records
    ensures Reaches(cfg, s, [Act(a, x)], Put(s, a, m), id)
  {
    OneLabel(cfg, s, Act(a, x));
  }

  /** The attempt of a state reached is `t`, up to its phase and what it committed. */
  predicate Continues(t: Attempt, u: Attempt) {
    u.id == t.id && u.message == t.message && u.created == t.created
  }

  lemma BeginningFails(cfg: Config, s: State, a: AttemptId, id: Id) returns (ls: seq<Label>, u: State)
    requires a in s.attempts && s.attempts[a].phase.Guarded?
    ensures Reaches(cfg, s, ls, u, id) && a in u.attempts && Continues(s.attempts[a], u.attempts[a])
    ensures u.attempts[a].phase == Releasing(Error(LOCK_ERROR))
  {
    var x, m := Start(Some(LOCK_ERROR)), DoStart(s, s.attempts[a], Some(LOCK_ERROR));
    OneStep(cfg, s, a, x, m, id);
    ls, u := [Act(a, x)], Put(s, a, m);
  }

  lemma BodyFails(cfg: Config, s: State, a: AttemptId, id: Id) returns (ls: seq<Label>, u: State)
    requires a in s.attempts && s.attempts[a].phase.Body?
    ensures Reaches(cfg, s, ls, u, id) && a in u.attempts && Continues(s.attempts[a], u.attempts[a])
    ensures u.attempts[a].phase == Releasing(Error(LOCK_ERROR))
  {
    var x, m := Finish(Raises(LOCK_ERROR)), DoFinish(s, s.attempts[a], Raises(LOCK_ERROR));
    OneStep(cfg, s, a, x, m, id);
    ls, u := [Act(a, x)], Put(s, a, m);
  }

  lemma CallbackRaises(cfg: Config, s: State, a: AttemptId, id: Id) returns (ls: seq<Label>, u: State)
    requires a in s.attempts && s.attempts[a].phase.Callbacks? && s.attempts[a].phase.rest != []
    ensures Reaches(cfg, s, ls, u, id) && a in u.attempts && Continues(s.attempts[a], u.attempts[a])
    ensures u.attempts[a].phase == Releasing(Error(LOCK_ERROR))
  {
    var m := Stay(s, s.attempts[a].(phase := Releasing(Error(LOCK_ERROR)), late := true));
    OneStep(cfg, s, a, CallbackFails(LOCK_ERROR), m, id);
    ls, u := [Act(a, CallbackFails(LOCK_ERROR))], Put(s, a, m);
  }

  lemma CallbacksDone(cfg: Config, s: State, a: AttemptId, id: Id) returns (ls: seq<Label>, u: State)
    requires a in s.attempts && s.attempts[a].phase.Callbacks? && s.attempts[a].phase.rest == []
    ensures Reaches(cfg, s, ls, u, id) && a in u.attempts && Continues(s.attempts[a], u.attempts[a])
    ensures u.attempts[a].phase.Releasing? && u.attempts[a].phase.pending.Value?
  {
    var m := Stay(s, s.attempts[a].(phase := Releasing(Value(s.attempts[a].phase.value))));
    OneStep(cfg, s, a, Leave, m, id);
    ls, u := [Act(a, Leave)], Put(s, a, m);
  }

  /** An attempt inside the transaction can be made to leave it with a caught outcome. */
  lemma LeavesTransaction(cfg: Config, s: State, a: AttemptId, id: Id) returns (ls: seq<Label>, u: State)
    requires a in s.attempts
    requires var p := s.attempts[a].phase; p.Guarded? || p.Body? || p.Callbacks?
    requires IsSubclass(cfg.hierarchy, LOCK_ERROR, EXCEPTION)
    ensures Reaches(cfg, s, ls, u, id) && a in u.attempts && Continues(s.attempts[a], u.attempts[a])
    ensures u.attempts[a].phase.Releasing? && Caught(cfg, u.attempts[a].phase.pending)
  {
    if s.attempts[a].phase.Guarded? {
      ls, u := BeginningFails(cfg, s, a, id);
    } else if s.attempts[a].phase.Body? {
      ls, u := BodyFails(cfg, s, a, id);
    } else if s.attempts[a].phase.rest != [] {
      ls, u := CallbackRaises(cfg, s, a, id);
    } else {
      ls, u := CallbacksDone(cfg, s, a, id);
    }
  }

  lemma ReleaseOutcome(cfg: Config, s: State, a: AttemptId, t: Attempt)
    requires t.phase.Releasing? && CanConclude(cfg, t) && IsSubclass(cfg.hierarchy, LOCK_ERROR, EXCEPTION)
    ensures
      var u := DoRelease(s, a, t, if t.lease.Some? then Some(LOCK_ERROR) else None).attempt;
      u.phase.Concluding? && Caught(cfg, u.phase.outcome) && Continues(t, u)
  {
  }

  /** An attempt leaving the lock can come to a caught outcome. */
  lemma LeavesLock(cfg: Config, s: State, a: AttemptId, id: Id) returns (ls: seq<Label>, u: State)
    requires a in s.attempts && s.attempts[a].phase.Releasing? && CanConclude(cfg, s.attempts[a])
    requires IsSubclass(cfg.hierarchy, LOCK_ERROR, EXCEPTION)
    ensures Reaches(cfg, s, ls, u, id) && a in u.attempts && Continues(s.attempts[a], u.attempts[a])
    ensures u.attempts[a].phase.Concluding? && Caught(cfg, u.attempts[a].phase.outcome)
  {
    var t := s.attempts[a];
    var fault := if t.lease.Some? then Some(LOCK_ERROR) else None;
    ReleaseOutcome(cfg, s, a, t);
    OneStep(cfg, s, a, Release(fault), DoRelease(s, a, t, fault), id);
    ls, u := [Act(a, Release(fault))], Put(s, a, DoRelease(s, a, t, fault));
  }

  /** A recorded attempt enters the lock, or is turned away with a caught error. */
  lemma EntersLock(cfg: Config, s: State, a: AttemptId, id: Id) returns (ls: seq<Label>, u: State)
    requires a in s.attempts && s.attempts[a].phase.Recorded? && Resolvable(cfg, s.attempts[a].message.taskName)
    ensures Reaches(cfg, s, ls, u, id) && a in u.attempts && Continues(s.attempts[a], u.attempts[a])
    ensures u.attempts[a].phase.Guarded? || u.attempts[a].phase == Concluding(Error(LOCK_ERROR))
  {
    var t := s.attempts[a];
    var name := t.message.taskName;
    var m := DoAcquire(s, a, t, cfg.tasks[name].singleton, HardTimeout(cfg, name), None);
    OneStep(cfg, s, a, Acquire(None), m, id);
    ls, u := [Act(a, Acquire(None))], Put(s, a, m);
  }

  lemma ComesToConclusion(cfg: Config, s: State, a: AttemptId, id: Id) returns (ls: seq<Label>, u: State)
    requires a in s.attempts && CanConclude(cfg, s.attempts[a]) && Resolvable(cfg, s.attempts[a].message.taskName)
    requires IsSubclass(cfg.hierarchy, LOCK_ERROR, EXCEPTION)
    ensures Reaches(cfg, s, ls, u, id) && a in u.attempts && Continues(s.attempts[a], u.attempts[a])
    ensures u.attempts[a].phase.Concluding? && Caught(cfg, u.attempts[a].phase.outcome)
  {
    ls, u := [], s;
    var more;
    if u.attempts[a].phase.Recorded? {
      ls, u := EntersLock(cfg, s, a, id);
    }
    if u.attempts[a].phase.Guarded? || u.attempts[a].phase.Body? || u.attempts[a].phase.Callbacks? {
      var v := u;
      more, u := LeavesTransaction(cfg, v, a, id);
      Chained(cfg, s, ls, v, more, u, id);
      ls := ls + more;
    }
    if u.attempts[a].phase.Releasing? {
      var v := u;
      more, u := LeavesLock(cfg, v, a, id);
      Chained(cfg, s, ls, v, more, u, id);
      ls := ls + more;
    }
  }

  /** One tick later the attempt saves: the row gets an end time it did not have. */
  lemma SavesLater(cfg: Config, s: State, a: AttemptId, id: Id) returns (ls: seq<Label>)
    requires a in s.attempts && s.attempts[a].id == id && id in s.records && RowOk(s.now, s.records[id])
    requires s.attempts[a].phase.Concluding? && Caught(cfg, s.attempts[a].phase.outcome)
    requires Resolvable(cfg, s.attempts[a].message.taskName)
    ensures Legal(cfg, s, ls) && Cleanup(id) !in ls && Differs(s, After(cfg, s, ls), id)
  {
    var u := s.(now := s.now + 1);
    var t := s.attempts[a];
    var v := VerdictOf(cfg, t.message, t.phase.outcome);
    var m := DoSave(u, t, v, None);
    assert !v.Escaped?;
    assert m.records[id].endTime == Some(s.now + 1);
    assert Apply(cfg, u, Act(a, Save(None))) == Put(u, a, m);
    var save := [Act(a, Save(None))];
    ls := [Tick] + save;
    OneLabel(cfg, u, save[0]);
    OneLabel(cfg, s, Tick);
    Concatenate(cfg, s, [Tick], save);
  }

  lemma UnsettledChanges(cfg: Config, s: State, a: AttemptId, id: Id)
    requires id in s.records && RowOk(s.now, s.records[id]) && a in s.attempts && s.attempts[a].id == id
    requires Resolvable(cfg, s.attempts[a].message.taskName)
    requires CanConclude(cfg, s.attempts[a]) && IsSubclass(cfg.hierarchy, LOCK_ERROR, EXCEPTION)
    ensures CanChange(cfg, s, id)
  {
    var xs, u := ComesToConclusion(cfg, s, a, id);
    var ys := SavesLater(cfg, u, a, id);
    Concatenate(cfg, s, xs, ys);
    assert Differs(s, After(cfg, s, xs + ys), id);
  }

  /** In every reachable state: some continuation without cleanup of this record changes its
      row, if and only if some attempt that created a record of this id can still save. */
  lemma RowCanChangeIffUnsettled(cfg: Config, s: State, id: Id)
    requires Reachable(cfg, s) && id in s.records && IsSubclass(cfg.hierarchy, LOCK_ERROR, EXCEPTION)
    ensures CanChange(cfg, s, id) <==> !Settled(cfg, s, id)
  {
    ReachableInv(cfg, s);
    if Settled(cfg, s, id) {
      forall ls: seq<Label> | Legal(cfg, s, ls) && Cleanup(id) !in ls
        ensures !Differs(s, After(cfg, s, ls), id)
      {
        SettledRowsAreFinal(cfg, s, ls, id);
      }
    } else {
      var a :| a in s.attempts && s.attempts[a].created && s.attempts[a].id == id && CanConclude(cfg, s.attempts[a]);
      assert AttemptOk(cfg, s.attempts[a]);
      UnsettledChanges(cfg, s, a, id);
    }
  }

  // ---- terminal rows ----

  lemma {:induction false} NeverDeletedIsTidy(cfg: Config, s: State, ls: seq<Label>, id: Id)
    requires Legal(cfg, s, ls) && Cleanup(id) !in ls
    ensures Tidy(cfg, s, ls, id)
    decreases |ls|
  {
    if ls != [] {
      assert ls[0] in ls && Cleanup(id) !in ls[1..];
      NeverDeletedIsTidy(cfg, Apply(cfg, s, ls[0]), ls[1..], id);
    }
  }

  lemma OwnerDecides(cfg: Config, s: State, id: Id)
    requires Owned(s) && TidyState(s, id) && id in s.records
    ensures id in s.owner && s.owner[id] in s.attempts
    ensures Settled(cfg, s, id) <==> !CanConclude(cfg, s.attempts[s.owner[id]])
  {
    forall a | a in s.attempts && s.attempts[a].created && s.attempts[a].id == id && a != s.owner[id]
      ensures !CanConclude(cfg, s.attempts[a])
    {
      assert s.attempts[a].orphaned;
    }
  }

  lemma TerminalIsSettled(cfg: Config, s: State, id: Id)
    requires Owned(s) && AttemptsOk(cfg, s) && TidyState(s, id)
    requires id in s.records && !s.records[id].status.Running?
    ensures Settled(cfg, s, id)
  {
    OwnerDecides(cfg, s, id);
    var t := s.attempts[s.owner[id]];
    assert RowOf(s.records[id], t) && AttemptOk(cfg, t);
    SavedIsPast(cfg, t);
  }

  lemma SavedIsPast(cfg: Config, t: Attempt)
    requires AttemptOk(cfg, t) && t.saved.Some?
    ensures !CanConclude(cfg, t)
  {
  }

  /** If cleanup has so far left the unfinished attempts at a message alone, a terminal row is
      final: from then on it changes in nothing, and so never shows a second terminal status,
      until it is deleted. */
  lemma TerminalRowsAreFinal(cfg: Config, xs: seq<Label>, ys: seq<Label>, id: Id)
    requires Legal(cfg, EMPTY, xs) && Tidy(cfg, EMPTY, xs, id)
    requires id in After(cfg, EMPTY, xs).records && !After(cfg, EMPTY, xs).records[id].status.Running?
    requires Legal(cfg, After(cfg, EMPTY, xs), ys) && Cleanup(id) !in ys
    ensures
      var s := After(cfg, EMPTY, xs);
      var u := After(cfg, s, ys);
      id in u.records && u.records[id] == s.records[id]
  {
    EmptyKeepsAll(cfg);
    TidyRun(cfg, EMPTY, xs, id);
    var s := After(cfg, EMPTY, xs);
    TerminalIsSettled(cfg, s, id);
    SettledRowsAreFinal(cfg, s, ys, id);
  }

  /** In such a state whether the row can change is decided by the one attempt that created
      it, and it cannot if the row is terminal. */
  lemma TidyRowCanChangeIff(cfg: Config, xs: seq<Label>, id: Id)
    requires Legal(cfg, EMPTY, xs) && Tidy(cfg, EMPTY, xs, id) && IsSubclass(cfg.hierarchy, LOCK_ERROR, EXCEPTION)
    requires id in After(cfg, EMPTY, xs).records
    ensures
      var s := After(cfg, EMPTY, xs);
      && id in s.owner && s.owner[id] in s.attempts
      && (CanChange(cfg, s, id) <==> CanConclude(cfg, s.attempts[s.owner[id]]))
      && (CanChange(cfg, s, id) ==> s.records[id].status.Running?)
  {
    EmptyKeepsAll(cfg);
    TidyRun(cfg, EMPTY, xs, id);
    var s := After(cfg, EMPTY, xs);
    assert Reachable(cfg, s);
    OwnerDecides(cfg, s, id);
    RowCanChangeIffUnsettled(cfg, s, id);
    if !s.records[id].status.Running? {
      TerminalIsSettled(cfg, s, id);
    }
  }

  /** A row that is never deleted has at most one terminal status in its life. */
  lemma OneTerminalStatus(cfg: Config, xs: seq<Label>, ys: seq<Label>, id: Id)
    requires Legal(cfg, EMPTY, xs + ys) && Cleanup(id) !in xs + ys
    requires Legal(cfg, EMPTY, xs) && id in After(cfg, EMPTY, xs).records
    requires !After(cfg, EMPTY, xs).records[id].status.Running?
    ensures
      var s, u := After(cfg, EMPTY, xs), After(cfg, EMPTY, xs + ys);
      id in u.records && u.records[id] == s.records[id]
  {
    Divide(cfg, EMPTY, xs, ys);
    NeverDeletedIsTidy(cfg, EMPTY, xs, id);
    TerminalRowsAreFinal(cfg, xs, ys, id);
  }

  lemma {:induction false} Divide(cfg: Config, s: State, xs: seq<Label>, ys: seq<Label>)
    requires Legal(cfg, s, xs + ys)
    ensures Legal(cfg, s, xs) && Legal(cfg, After(cfg, s, xs), ys)
    ensures After(cfg, s, xs + ys) == After(cfg, After(cfg, s, xs), ys)
    decreases |xs|
  {
    if xs == [] {
      assert xs + ys == ys;
    } else {
      assert (xs + ys)[1..] == xs[1..] + ys && (xs + ys)[0] == xs[0];
      Divide(cfg, Apply(cfg, s, xs[0]), xs[1..], ys);
    }
  }
}
