/** What a row says, told from the events of the run that led to it. */
module History {
  import opened Wrappers
  import opened Errors
  import opened Tasks
  import opened Protocol
  import opened Invariants
  import opened Guarantees

  /** An outcome that was recorded, and when. */
  datatype Entry = Entry(at: nat, outcome: Outcome)

  /** What happened to a row so far: when it was created, and what was saved to it. */
  datatype Life = Life(born: nat, saves: seq<Entry>)

  /** The step saves an outcome to the row of `id`: nothing raises, the row is there, and the
      error, if it is one, is caught. */
  predicate SavesRow(cfg: Config, s: State, l: Label, id: Id) {
    && l.Act? && l.a in s.attempts && l.action == Action.Save(None)
    && s.attempts[l.a].id == id && id in s.records && s.attempts[l.a].phase.Concluding?
    && var o := s.attempts[l.a].phase.outcome;
    o.Error? ==> IsSubclass(cfg.hierarchy, o.error, EXCEPTION)
  }

  /** One more step in the life of a row. */
  function LifeAfter(cfg: Config, s: State, l: Label, id: Id, life: Option<Life>): Option<Life> {
    if l == Cleanup(id) then None
    else if CreatesRecord(cfg, s, l, id) then Some(Life(s.now, []))
    else if life.Some? && SavesRow(cfg, s, l, id) then
      Some(Life(life.value.born, life.value.saves + [Entry(s.now, s.attempts[l.a].phase.outcome)]))
    else life
  }

  function LifeOf(cfg: Config, s: State, ls: seq<Label>, id: Id, life: Option<Life>): Option<Life>
    requires Legal(cfg, s, ls)
    decreases |ls|
  {
    if ls == [] then life
    else LifeOf(cfg, Apply(cfg, s, ls[0]), ls[1..], id, LifeAfter(cfg, s, ls[0], id, life))
  }

  function LastValue(saves: seq<Entry>): Option<int> {
    if saves == [] then None
    else
      match saves[|saves| - 1].outcome
      case Value(value) => Some(value)
      case Error(_) => LastValue(saves[..|saves| - 1])
  }

  function LastError(saves: seq<Entry>): Option<Class> {
    if saves == [] then None
    else
      match saves[|saves| - 1].outcome
      case Error(e) => Some(e)
      case Value(_) => LastError(saves[..|saves| - 1])
  }

  /** The row tells its life: it started when it was created; it is RUNNING, with nothing
      else, until something is saved; then it shows the last outcome saved, with the last
      value and the last error there were. */
  ghost predicate Tells(cfg: Config, m: Message, row: Record, life: Life) {
    && row.message == m && row.startTime == life.born
    && row.result == LastValue(life.saves) && row.traceback == LastError(life.saves)
    && if life.saves == [] then IsNew(row, m, life.born)
       else
         && m.taskName in cfg.tasks
         && var last := life.saves[|life.saves| - 1];
         Shows(cfg, m, row, last.outcome, last.at)
  }

  ghost predicate Told(cfg: Config, s: State, id: Id, life: Option<Life>) {
    if id in s.records then
      life.Some? && id in s.sent && Tells(cfg, s.sent[id].task.message, s.records[id], life.value)
    else life.None?
  }

  lemma NewRowTells(cfg: Config, m: Message, now: nat)
    ensures Tells(cfg, m, NewRecord(m, now), Life(now, []))
  {
  }

  lemma SavedRowTells(cfg: Config, m: Message, row: Record, life: Life, o: Outcome, now: nat)
    requires Tells(cfg, m, row, life) && m.taskName in cfg.tasks
    requires o.Error? ==> IsSubclass(cfg.hierarchy, o.error, EXCEPTION)
    ensures
      var v := VerdictOf(cfg, m, o);
      !v.Escaped? && (v.Clean? <==> o.Value?) &&
      Tells(cfg, m, Tasks.Conclude(row, v, o, now), Life(life.born, life.saves + [Entry(now, o)]))
  {
    ConcludedShows(cfg, m, row, o, now);
    assert (life.saves + [Entry(now, o)])[..|life.saves|] == life.saves;
  }

  lemma CreationTells(cfg: Config, s: State, a: AttemptId, fault: Option<Class>, id: Id, life: Option<Life>)
    requires a in s.attempts && s.attempts[a].phase.Received? && Sourced(s) && Told(cfg, s, id, life)
    ensures Told(cfg, Put(s, a, DoGetOrCreate(cfg, s, a, s.attempts[a], fault)), id,
                 LifeAfter(cfg, s, Act(a, GetOrCreate(fault)), id, life))
  {
    if CreatesRecord(cfg, s, Act(a, GetOrCreate(fault)), id) {
      NewRowTells(cfg, s.attempts[a].message, s.now);
    }
  }

  lemma SaveTells(cfg: Config, s: State, a: AttemptId, fault: Option<Class>, id: Id, life: Option<Life>)
    requires a in s.attempts && s.attempts[a].phase.Concluding? && Sourced(s) && Told(cfg, s, id, life)
    requires s.attempts[a].message.taskName in cfg.tasks
    ensures
      var t := s.attempts[a];
      var v := VerdictOf(cfg, t.message, t.phase.outcome);
      Told(cfg, Put(s, a, DoSave(s, t, v, fault)), id, LifeAfter(cfg, s, Act(a, Action.Save(fault)), id, life))
  {
    var t := s.attempts[a];
    if SavesRow(cfg, s, Act(a, Action.Save(fault)), id) {
      SavedRowTells(cfg, t.message, s.records[id], life.value, t.phase.outcome, s.now);
    }
  }

  /** Steps that leave the row alone leave its life alone. */
  lemma OtherMoveTells(cfg: Config, s: State, a: AttemptId, x: Action, m: Move, id: Id, life: Option<Life>)
    requires Told(cfg, s, id, life) && m.records == s.records && Grows(s, m.sent)
    requires !x.GetOrCreate? && !x.Save?
    ensures Told(cfg, Put(s, a, m), id, LifeAfter(cfg, s, Act(a, x), id, life))
  {
  }

  lemma MoveTells(cfg: Config, s: State, a: AttemptId, x: Action, id: Id, life: Option<Life>)
    requires a in s.attempts && Can(cfg, s, s.attempts[a], x) && Sourced(s) && Told(cfg, s, id, life)
    ensures Told(cfg, Put(s, a, MoveOf(cfg, s, a, s.attempts[a], x)), id, LifeAfter(cfg, s, Act(a, x), id, life))
  {
    if x.GetOrCreate? {
      CreationTells(cfg, s, a, x.fault, id, life);
    } else if x.Save? {
      SaveTells(cfg, s, a, x.fault, id, life);
    } else {
      MoveKeepsSent(cfg, s, a, s.attempts[a], x);
      OtherMoveTells(cfg, s, a, x, MoveOf(cfg, s, a, s.attempts[a], x), id, life);
    }
  }

  lemma StepTells(cfg: Config, s: State, l: Label, id: Id, life: Option<Life>)
    requires Sourced(s) && Enabled(cfg, s, l) && Told(cfg, s, id, life)
    ensures Told(cfg, Apply(cfg, s, l), id, LifeAfter(cfg, s, l, id, life))
  {
    if l.Act? {
      MoveTells(cfg, s, l.a, l.action, id, life);
    }
  }

  lemma {:induction false} RunTells(cfg: Config, s: State, ls: seq<Label>, id: Id, life: Option<Life>)
    requires Inv(cfg, s) && Legal(cfg, s, ls) && Told(cfg, s, id, life)
    ensures Told(cfg, After(cfg, s, ls), id, LifeOf(cfg, s, ls, id, life))
    decreases |ls|
  {
    if ls != [] {
      StepTells(cfg, s, ls[0], id, life);
      StepKeepsInv(cfg, s, ls[0]);
      RunTells(cfg, Apply(cfg, s, ls[0]), ls[1..], id, LifeAfter(cfg, s, ls[0], id, life));
    }
  }

  /** In every run, whoever saved what and whatever was deleted: a row is there if and only if
      it was created after it was last deleted, and every field of it is told by the events:
      the clock at the step that created it, the message sent under its id, the clock at the
      step that last saved to it, and the outcomes saved. */
  lemma RowsTellTheirLife(cfg: Config, ls: seq<Label>, id: Id)
    requires Legal(cfg, EMPTY, ls)
    ensures
      var s := After(cfg, EMPTY, ls);
      var life := LifeOf(cfg, EMPTY, ls, id, None);
      && (id in s.records <==> life.Some?)
      && (id in s.records ==> id in s.sent && Tells(cfg, s.sent[id].task.message, s.records[id], life.value))
  {
    EmptyKeepsAll(cfg);
    RunTells(cfg, EMPTY, ls, id, None);
  }
}
