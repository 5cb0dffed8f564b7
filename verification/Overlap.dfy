/** Exactly when the bodies of a singleton task can overlap. */
module Overlap {
  import opened Wrappers
  import opened Errors
  import opened Settings
  import opened Tasks
  import opened Protocol
  import opened Invariants
  import opened Guarantees
  import opened Locks

  predicate ForTask(s: State, a: AttemptId, name: string) {
    a in s.attempts && s.attempts[a].message.taskName == name
  }

  /** No attempt at the task but `a` is inside its lock. */
  ghost predicate OnlyInside(s: State, a: AttemptId, name: string) {
    forall c | ForTask(s, c, name) && c != a :: !InGuard(s.attempts[c].phase)
  }

  /** `a` is in the body of a singleton task, alone, with time left on its lease. */
  ghost predicate Occupies(cfg: Config, s: State, a: AttemptId, name: string) {
    && ForTask(s, a, name) && InBody(s, a) && OnlyInside(s, a, name)
    && Resolvable(cfg, name) && cfg.tasks[name].singleton
    && s.attempts[a].started.Some? && s.attempts[a].lease.Some? && s.now <= s.attempts[a].lease.value
  }

  /** So it is, and no body of some tasks has passed its deadline. */
  ghost predicate Calm(cfg: Config, s: State, a: AttemptId, name: string, names: set<string>) {
    Occupies(cfg, s, a, name) && WithinDeadlines(cfg, s, names)
  }

  /** Some continuation, with the bodies of some tasks keeping to their deadlines, has another
      body of the task run beside that of `a`. */
  ghost predicate CanOverlap(cfg: Config, s: State, a: AttemptId, name: string, names: set<string>) {
    exists ls: seq<Label>, b: AttemptId ::
      Legal(cfg, s, ls) && AlarmsHonoured(cfg, s, ls, names) && Overlapping(After(cfg, s, ls), a, b, name)
  }

  predicate Overlapping(s: State, a: AttemptId, b: AttemptId, name: string) {
    a != b && ForTask(s, a, name) && ForTask(s, b, name) && InBody(s, a) && InBody(s, b)
  }

  // ---- a lease as long as the body keeps others out ----

  predicate PastBody(p: Phase) {
    p.Callbacks? || p.Releasing? || p.Concluding? || p.Requeueing? || Over(p)
  }

  lemma LeavingStaysPast(cfg: Config, s: State, a: AttemptId, t: Attempt, x: Action)
    requires Can(cfg, s, t, x) && (x.Finish? || x.Publish? || x.CallbackFails? || x.Leave? || x.Release?)
    ensures PastBody(MoveOf(cfg, s, a, t, x).attempt.phase)
  {
  }

  lemma EndingStaysPast(cfg: Config, s: State, a: AttemptId, t: Attempt, x: Action)
    requires Can(cfg, s, t, x) && (x.Save? || x.Requeue? || x.RequeueFails? || x.Crash?)
    ensures PastBody(MoveOf(cfg, s, a, t, x).attempt.phase)
  {
  }

  lemma MoveStaysPast(cfg: Config, s: State, a: AttemptId, t: Attempt, x: Action)
    requires Can(cfg, s, t, x) && (PastBody(t.phase) || t.phase.Body?)
    ensures
      var u := MoveOf(cfg, s, a, t, x).attempt;
      && (PastBody(u.phase) || (x.SubmitJob? && u.phase == t.phase)) && u.started == t.started && u.lease == t.lease
  {
    if x.SubmitJob? {
      assert MoveOf(cfg, s, a, t, x) == DoSubmitJob(s, t, x.newId);
    } else if x.Save? || x.Requeue? || x.RequeueFails? || x.Crash? {
      EndingStaysPast(cfg, s, a, t, x);
    } else {
      LeavingStaysPast(cfg, s, a, t, x);
    }
  }

  lemma {:induction false} NeverBack(cfg: Config, s: State, ls: seq<Label>, a: AttemptId)
    requires Legal(cfg, s, ls) && a in s.attempts && PastBody(s.attempts[a].phase)
    ensures !InBody(After(cfg, s, ls), a)
    decreases |ls|
  {
    if ls != [] {
      if ls[0].Act? && ls[0].a == a {
        MoveStaysPast(cfg, s, a, s.attempts[a], ls[0].action);
      }
      NeverBack(cfg, Apply(cfg, s, ls[0]), ls[1..], a);
    }
  }

  /** While the lease lasts nobody else gets inside. */
  lemma OthersStayOut(cfg: Config, s: State, a: AttemptId, name: string, c: AttemptId, x: Action)
    requires Occupies(cfg, s, a, name) && HasLease(s, a)
    requires ForTask(s, c, name) && c != a && Can(cfg, s, s.attempts[c], x)
    ensures !InGuard(MoveOf(cfg, s, c, s.attempts[c], x).attempt.phase)
  {
    if x.Acquire? {
      assert MoveOf(cfg, s, c, s.attempts[c], x) ==
             DoAcquire(s, c, s.attempts[c], true, HardTimeout(cfg, name), x.fault);
    }
  }

  lemma StepKeepsOnlyInside(cfg: Config, s: State, a: AttemptId, name: string, l: Label)
    requires Occupies(cfg, s, a, name) && HasLease(s, a) && Enabled(cfg, s, l)
    ensures OnlyInside(Apply(cfg, s, l), a, name)
  {
    if l.Act? && ForTask(s, l.a, name) && l.a != a {
      OthersStayOut(cfg, s, a, name, l.a, l.action);
    }
  }

  /** The attempt after a step: still in its body and unchanged, or past it. */
  lemma StepOnBody(cfg: Config, s: State, a: AttemptId, l: Label)
    requires InBody(s, a) && Enabled(cfg, s, l)
    ensures
      var t, u := s.attempts[a], Apply(cfg, s, l).attempts[a];
      && u.message == t.message && u.started == t.started && u.lease == t.lease
      && (u.phase == t.phase || PastBody(u.phase))
  {
    if l.Act? && l.a == a {
      MoveStaysPast(cfg, s, a, s.attempts[a], l.action);
    }
  }

  /** A body whose lease lasts until its hard deadline, and which keeps to that deadline,
      stays alone, whatever becomes of other bodies' deadlines. */
  lemma {:induction false} PromptStaysAlone(cfg: Config, s: State, ls: seq<Label>, a: AttemptId, name: string)
    requires Inv(cfg, s) && Occupies(cfg, s, a, name) && !Late(cfg, s.attempts[a])
    requires Legal(cfg, s, ls) && StaysOnTime(cfg, s, ls, a)
    ensures InBody(After(cfg, s, ls), a) ==> OnlyInside(After(cfg, s, ls), a, name)
    decreases |ls|
  {
    if ls != [] {
      var u := Apply(cfg, s, ls[0]);
      assert HasLease(s, a);
      StepKeepsInv(cfg, s, ls[0]);
      StepKeepsOnlyInside(cfg, s, a, name, ls[0]);
      StepOnBody(cfg, s, a, ls[0]);
      if InBody(u, a) {
        assert OnTime(cfg, u, a);
        PromptStaysAlone(cfg, u, ls[1..], a, name);
      } else {
        NeverBack(cfg, u, ls[1..], a);
      }
    }
  }

  lemma {:induction false} HonouredByOne(cfg: Config, s: State, ls: seq<Label>, a: AttemptId, names: set<string>)
    requires Legal(cfg, s, ls) && AlarmsHonoured(cfg, s, ls, names)
    requires a in s.attempts && s.attempts[a].message.taskName in names
    ensures StaysOnTime(cfg, s, ls, a)
    decreases |ls|
  {
    assert OnTime(cfg, s, a);
    if ls != [] {
      StepKeepsMessage(cfg, s, ls[0], a);
      HonouredByOne(cfg, Apply(cfg, s, ls[0]), ls[1..], a, names);
    }
  }

  lemma StepKeepsMessage(cfg: Config, s: State, l: Label, a: AttemptId)
    requires a in s.attempts && Enabled(cfg, s, l)
    ensures a in Apply(cfg, s, l).attempts && Apply(cfg, s, l).attempts[a].message == s.attempts[a].message
  {
  }

  // ---- a lease that ends too early lets another in ----

  function Later(s: State, k: nat): State {
    s.(now := s.now + k)
  }

  function Ticks(k: nat): seq<Label> {
    seq(k, i => Tick)
  }

  /** Time may pass as long as the only running body's deadline allows. */
  lemma {:induction false} TimePasses(cfg: Config, s: State, k: nat, names: set<string>)
    requires forall j: nat | j <= k :: WithinDeadlines(cfg, Later(s, j), names)
    ensures Legal(cfg, s, Ticks(k)) && After(cfg, s, Ticks(k)) == Later(s, k) && AlarmsHonoured(cfg, s, Ticks(k), names)
    decreases k
  {
    assert Later(s, 0) == s;
    if k > 0 {
      var u := Later(s, 1);
      forall j: nat | j <= k - 1
        ensures WithinDeadlines(cfg, Later(u, j), names)
      {
        assert Later(u, j) == Later(s, j + 1);
      }
      TimePasses(cfg, u, k - 1, names);
      assert Ticks(k)[1..] == Ticks(k - 1);
      assert Later(u, k - 1) == Later(s, k);
    } else {
      assert Ticks(0) == [];
    }
  }

  lemma {:induction false} HonouredTogether(cfg: Config, s: State, xs: seq<Label>, ys: seq<Label>, names: set<string>)
    requires Legal(cfg, s, xs) && AlarmsHonoured(cfg, s, xs, names)
    requires Legal(cfg, After(cfg, s, xs), ys) && AlarmsHonoured(cfg, After(cfg, s, xs), ys, names)
    ensures Legal(cfg, s, xs + ys) && AlarmsHonoured(cfg, s, xs + ys, names)
    ensures After(cfg, s, xs + ys) == After(cfg, After(cfg, s, xs), ys)
    decreases |xs|
  {
    Concatenate(cfg, s, xs, ys);
    if xs == [] {
      assert xs + ys == ys;
    } else {
      assert (xs + ys)[1..] == xs[1..] + ys;
      HonouredTogether(cfg, Apply(cfg, s, xs[0]), xs[1..], ys, names);
    }
  }

  lemma HonouredSingle(cfg: Config, s: State, l: Label, names: set<string>)
    requires Enabled(cfg, s, l) && WithinDeadlines(cfg, s, names) && WithinDeadlines(cfg, Apply(cfg, s, l), names)
    ensures Legal(cfg, s, [l]) && After(cfg, s, [l]) == Apply(cfg, s, l) && AlarmsHonoured(cfg, s, [l], names)
  {
    assert [l][1..] == [];
    assert AlarmsHonoured(cfg, Apply(cfg, s, l), [], names);
  }

  /** A recorded attempt at a singleton whose lock is free goes into its body. */
  lemma EntrySteps(cfg: Config, s: State, b: AttemptId, name: string) returns (s0: State, s1: State)
    requires ForTask(s, b, name) && s.attempts[b].phase.Recorded?
    requires Resolvable(cfg, name) && cfg.tasks[name].singleton && Free(s.locks, name, s.now)
    ensures Enabled(cfg, s, Act(b, Acquire(None))) && Apply(cfg, s, Act(b, Acquire(None))) == s0
    ensures Enabled(cfg, s0, Act(b, Start(None))) && Apply(cfg, s0, Act(b, Start(None))) == s1
    ensures s0.now == s.now && s1.now == s.now
    ensures ForTask(s0, b, name) && s0.attempts[b].phase == Guarded
    ensures ForTask(s1, b, name) && s1.attempts[b].phase == Body && s1.attempts[b].started == Some(s.now)
    ensures s0.attempts.Keys == s.attempts.Keys && s1.attempts.Keys == s.attempts.Keys
    ensures forall c | c in s.attempts && c != b :: s0.attempts[c] == s.attempts[c] && s1.attempts[c] == s.attempts[c]
  {
    s0 := Put(s, b, DoAcquire(s, b, s.attempts[b], true, HardTimeout(cfg, name), None));
    assert s0.attempts[b].phase == Guarded;
    s1 := Put(s0, b, DoStart(s0, s0.attempts[b], None));
  }

  lemma GoesIn(cfg: Config, s: State, b: AttemptId, name: string, names: set<string>)
    requires WithinDeadlines(cfg, s, names) && ForTask(s, b, name) && s.attempts[b].phase.Recorded?
    requires Resolvable(cfg, name) && cfg.tasks[name].singleton && Free(s.locks, name, s.now)
    ensures
      var ls := [Act(b, Acquire(None)), Act(b, Start(None))];
      && Legal(cfg, s, ls) && AlarmsHonoured(cfg, s, ls, names)
      && var s' := After(cfg, s, ls);
      && InBody(s', b) && ForTask(s', b, name)
      && forall c | c in s.attempts && c != b :: c in s'.attempts && s'.attempts[c] == s.attempts[c]
  {
    var l0, l1 := Act(b, Acquire(None)), Act(b, Start(None));
    var s0, s1 := EntrySteps(cfg, s, b, name);
    HonouredSingle(cfg, s, l0, names);
    HonouredSingle(cfg, s0, l1, names);
    HonouredTogether(cfg, s, [l0], [l1], names);
    assert [l0] + [l1] == [l0, l1];
  }

  // ---- making room, and a rival ----

  const STOPPED: Class := "Exception"

  /** The attempts other than `a` that are in a body. */
  ghost function Others(s: State, a: AttemptId): set<AttemptId> {
    set c | c in s.attempts && InBody(s, c) && c != a
  }

  /** Another body ends with an error. */
  lemma EndBody(cfg: Config, s: State, a: AttemptId, name: string, c: AttemptId, names: set<string>)
    requires Calm(cfg, s, a, name, names) && c in Others(s, a)
    ensures
      var l := Act(c, Finish(Raises(STOPPED)));
      && Enabled(cfg, s, l)
      && var u := Apply(cfg, s, l);
      && Calm(cfg, u, a, name, names) && u.attempts[a] == s.attempts[a]
      && Others(u, a) == Others(s, a) - {c}
  {
    var u := Put(s, c, DoFinish(s, s.attempts[c], Raises(STOPPED)));
    assert Apply(cfg, s, Act(c, Finish(Raises(STOPPED)))) == u;
    assert u.attempts == s.attempts[c := u.attempts[c]] && u.attempts[c].phase.Releasing?;
    assert s.attempts[c].message.taskName != name;
  }

  /** The other bodies can all end, whatever tasks they are of. */
  lemma {:induction false} MakeRoom(cfg: Config, s: State, a: AttemptId, name: string, names: set<string>)
    returns (ls: seq<Label>, u: State)
    requires Inv(cfg, s) && Calm(cfg, s, a, name, names)
    ensures Legal(cfg, s, ls) && AlarmsHonoured(cfg, s, ls, names) && After(cfg, s, ls) == u
    ensures Inv(cfg, u) && Calm(cfg, u, a, name, names) && u.attempts[a] == s.attempts[a]
    ensures Others(u, a) == {}
    decreases Others(s, a)
  {
    if Others(s, a) == {} {
      ls, u := [], s;
    } else {
      var c :| c in Others(s, a);
      var l := Act(c, Finish(Raises(STOPPED)));
      EndBody(cfg, s, a, name, c, names);
      StepKeepsInv(cfg, s, l);
      HonouredSingle(cfg, s, l, names);
      var rest;
      rest, u := MakeRoom(cfg, Apply(cfg, s, l), a, name, names);
      HonouredTogether(cfg, s, [l], rest, names);
      ls := [l] + rest;
    }
  }

  /** One step that leaves the attempts there are alone, and none of them in its body new. */
  ghost predicate Adds(s: State, u: State, b: AttemptId) {
    && u.now == s.now && u.locks == s.locks && b !in s.attempts
    && (forall c | c in s.attempts :: c in u.attempts && u.attempts[c] == s.attempts[c])
    && (forall c | c in u.attempts && c !in s.attempts :: c == b && !InGuard(u.attempts[c].phase))
  }

  lemma AddingKeeps(cfg: Config, s: State, u: State, a: AttemptId, b: AttemptId, name: string, names: set<string>)
    requires Adds(s, u, b) && Calm(cfg, s, a, name, names) && Others(s, a) == {}
    ensures Calm(cfg, u, a, name, names) && Others(u, a) == {}
  {
    forall c
      ensures c !in Others(u, a)
    {
      assert c !in Others(s, a);
    }
  }

  /** An environment step that adds at most one attempt, outside every lock. */
  lemma AddStep(cfg: Config, s: State, l: Label, u: State, a: AttemptId, b: AttemptId, name: string, names: set<string>)
    requires Inv(cfg, s) && Calm(cfg, s, a, name, names) && Others(s, a) == {}
    requires Enabled(cfg, s, l) && u == Apply(cfg, s, l) && Adds(s, u, b)
    ensures Legal(cfg, s, [l]) && AlarmsHonoured(cfg, s, [l], names) && After(cfg, s, [l]) == u
    ensures Inv(cfg, u) && Calm(cfg, u, a, name, names) && u.attempts[a] == s.attempts[a]
    ensures Others(u, a) == {}
  {
    AddingKeeps(cfg, s, u, a, b, name, names);
    StepKeepsInv(cfg, s, l);
    HonouredSingle(cfg, s, l, names);
  }

  lemma UnusedId(s: State) returns (q: Id, b: AttemptId)
    requires RowsOk(s)
    ensures q !in s.sent && q !in s.records && b !in s.attempts
  {
    q := Unused(s.sent.Keys);
    b := Unused(s.attempts.Keys);
  }

  lemma SubmitAdds(cfg: Config, s: State, q: Id, task: Task, b: AttemptId)
    requires q !in s.sent && b !in s.attempts
    ensures Enabled(cfg, s, Submit(q, task))
    ensures
      var u := Apply(cfg, s, Submit(q, task));
      Adds(s, u, b) && u.records == s.records && u.sent == s.sent[q := Dispatch(task, q, None)]
  {
  }

  lemma DeliverAdds(cfg: Config, s: State, q: Id, b: AttemptId)
    requires q in s.sent && b !in s.attempts
    ensures Enabled(cfg, s, Deliver(b, q))
    ensures
      var u := Apply(cfg, s, Deliver(b, q));
      && Adds(s, u, b) && u.records == s.records
      && b in u.attempts && u.attempts[b] == NewAttempt(q, s.sent[q].task.message)
  {
  }

  lemma Delivered(cfg: Config, s: State, a: AttemptId, name: string, names: set<string>)
    returns (ls: seq<Label>, u: State, b: AttemptId, q: Id)
    requires Inv(cfg, s) && Calm(cfg, s, a, name, names) && Others(s, a) == {}
    ensures Legal(cfg, s, ls) && AlarmsHonoured(cfg, s, ls, names) && After(cfg, s, ls) == u
    ensures Inv(cfg, u) && Calm(cfg, u, a, name, names) && u.attempts[a] == s.attempts[a]
    ensures Others(u, a) == {} && b != a && b in u.attempts
    ensures u.attempts[b] == NewAttempt(q, Message(name, Plain(map[]), 0)) && q !in u.records
  {
    q, b := UnusedId(s);
    var task := Task(Message(name, Plain(map[]), 0), 0, DEFAULT_QUEUE);
    SubmitAdds(cfg, s, q, task, b);
    var s0 := Apply(cfg, s, Submit(q, task));
    AddStep(cfg, s, Submit(q, task), s0, a, b, name, names);
    DeliverAdds(cfg, s0, q, b);
    u := Apply(cfg, s0, Deliver(b, q));
    AddStep(cfg, s0, Deliver(b, q), u, a, b, name, names);
    HonouredTogether(cfg, s, [Submit(q, task)], [Deliver(b, q)], names);
    ls := [Submit(q, task)] + [Deliver(b, q)];
  }

  lemma RecordingKeeps(cfg: Config, s: State, a: AttemptId, b: AttemptId, name: string, names: set<string>)
    requires Calm(cfg, s, a, name, names) && Others(s, a) == {} && b != a
    requires ForTask(s, b, name) && s.attempts[b].phase.Received? && s.attempts[b].id !in s.records
    ensures Enabled(cfg, s, Act(b, GetOrCreate(None)))
    ensures
      var u := Apply(cfg, s, Act(b, GetOrCreate(None)));
      && Calm(cfg, u, a, name, names) && u.attempts[a] == s.attempts[a]
      && Others(u, a) == {} && ForTask(u, b, name) && u.attempts[b].phase.Recorded?
  {
    var u := Put(s, b, DoGetOrCreate(cfg, s, b, s.attempts[b], None));
    assert Apply(cfg, s, Act(b, GetOrCreate(None))) == u;
    assert u.attempts == s.attempts[b := u.attempts[b]] && u.attempts[b].phase.Recorded?;
    forall c
      ensures c !in Others(u, a)
    {
      assert c !in Others(s, a);
    }
  }

  /** The new attempt creates its record. */
  lemma Recorded(cfg: Config, s: State, a: AttemptId, b: AttemptId, name: string, names: set<string>)
    returns (ls: seq<Label>, u: State)
    requires Inv(cfg, s) && Calm(cfg, s, a, name, names) && Others(s, a) == {} && b != a
    requires ForTask(s, b, name) && s.attempts[b].phase.Received? && s.attempts[b].id !in s.records
    ensures Legal(cfg, s, ls) && AlarmsHonoured(cfg, s, ls, names) && After(cfg, s, ls) == u
    ensures Inv(cfg, u) && Calm(cfg, u, a, name, names) && u.attempts[a] == s.attempts[a]
    ensures Others(u, a) == {} && ForTask(u, b, name) && u.attempts[b].phase.Recorded?
  {
    var l := Act(b, GetOrCreate(None));
    RecordingKeeps(cfg, s, a, b, name, names);
    StepKeepsInv(cfg, s, l);
    HonouredSingle(cfg, s, l, names);
    ls, u := [l], Apply(cfg, s, l);
  }

  /** A message of the task can be sent, delivered and recorded. */
  lemma AddRival(cfg: Config, s: State, a: AttemptId, name: string, names: set<string>)
    returns (ls: seq<Label>, u: State, b: AttemptId)
    requires Inv(cfg, s) && Calm(cfg, s, a, name, names) && Others(s, a) == {}
    ensures Legal(cfg, s, ls) && AlarmsHonoured(cfg, s, ls, names) && After(cfg, s, ls) == u
    ensures Inv(cfg, u) && Calm(cfg, u, a, name, names) && u.attempts[a] == s.attempts[a]
    ensures Others(u, a) == {} && ForTask(u, b, name) && u.attempts[b].phase.Recorded?
  {
    var xs, v, c, q := Delivered(cfg, s, a, name, names);
    var ys, t := Recorded(cfg, v, a, c, name, names);
    HonouredTogether(cfg, s, xs, ys, names);
    ls, u, b := xs + ys, t, c;
  }

  // ---- waiting for the lease to end ----

  lemma SoleDeadline(cfg: Config, s: State, a: AttemptId, name: string, j: nat, names: set<string>)
    requires Occupies(cfg, s, a, name) && s.now + j <= s.attempts[a].started.value + HardTimeout(cfg, name)
    requires Others(s, a) == {}
    ensures WithinDeadlines(cfg, Later(s, j), names)
  {
    forall c | c in s.attempts && s.attempts[c].phase.Body?
      ensures c == a
    {
      assert c !in Others(s, a);
    }
  }

  /** When the body is alone and its lease ends before its deadline, time can pass until the
      lock is free. */
  lemma LeaseEnds(cfg: Config, s: State, a: AttemptId, name: string, names: set<string>)
    returns (ls: seq<Label>, u: State)
    requires Inv(cfg, s) && Occupies(cfg, s, a, name) && Others(s, a) == {} && Late(cfg, s.attempts[a])
    ensures Legal(cfg, s, ls) && AlarmsHonoured(cfg, s, ls, names) && After(cfg, s, ls) == u
    ensures u == Later(s, s.attempts[a].lease.value + 1 - s.now)
    ensures WithinDeadlines(cfg, u, names) && Free(u.locks, name, u.now)
  {
    var k := s.attempts[a].lease.value + 1 - s.now;
    assert HasLease(s, a);
    forall j: nat | j <= k
      ensures WithinDeadlines(cfg, Later(s, j), names)
    {
      SoleDeadline(cfg, s, a, name, j, names);
    }
    TimePasses(cfg, s, k, names);
    ls, u := Ticks(k), Later(s, k);
  }

  /** Then a waiting attempt goes in. */
  lemma WaitingGoesIn(cfg: Config, s: State, a: AttemptId, b: AttemptId, name: string, names: set<string>)
    returns (ls: seq<Label>)
    requires Inv(cfg, s) && Occupies(cfg, s, a, name) && Others(s, a) == {} && Late(cfg, s.attempts[a])
    requires ForTask(s, b, name) && s.attempts[b].phase.Recorded?
    ensures Legal(cfg, s, ls) && AlarmsHonoured(cfg, s, ls, names) && Overlapping(After(cfg, s, ls), a, b, name)
  {
    var wait, u := LeaseEnds(cfg, s, a, name, names);
    GoesIn(cfg, u, b, name, names);
    var entry := [Act(b, Acquire(None)), Act(b, Start(None))];
    HonouredTogether(cfg, s, wait, entry, names);
    ls := wait + entry;
  }

  /** Whatever else is running and whether or not anybody waits: a body whose lease ends
      before its deadline can be joined. */
  lemma LateLetsIn(cfg: Config, s: State, a: AttemptId, name: string, names: set<string>)
    requires Inv(cfg, s) && Calm(cfg, s, a, name, names) && Late(cfg, s.attempts[a])
    ensures CanOverlap(cfg, s, a, name, names)
  {
    var xs, u := MakeRoom(cfg, s, a, name, names);
    var ys, v, b := AddRival(cfg, u, a, name, names);
    var zs := WaitingGoesIn(cfg, v, a, b, name, names);
    HonouredTogether(cfg, s, xs, ys, names);
    HonouredTogether(cfg, s, xs + ys, zs, names);
    assert Overlapping(After(cfg, s, xs + ys + zs), a, b, name);
  }

  /** With the bodies of this task, and of any others, keeping to their hard deadlines:
      another body of the same singleton can come to run beside this one if and only if this
      one's lease ends before its hard deadline, that is, if its alarm was armed after its
      lock was taken. */
  lemma OverlapIffLate(cfg: Config, s: State, a: AttemptId, name: string, names: set<string>)
    requires Reachable(cfg, s) && Occupies(cfg, s, a, name) && name in names
    ensures CanOverlap(cfg, s, a, name, names) <==> WithinDeadlines(cfg, s, names) && Late(cfg, s.attempts[a])
  {
    ReachableInv(cfg, s);
    if WithinDeadlines(cfg, s, names) && Late(cfg, s.attempts[a]) {
      LateLetsIn(cfg, s, a, name, names);
    }
    if !Late(cfg, s.attempts[a]) {
      forall ls: seq<Label>, c: AttemptId |
        Legal(cfg, s, ls) && AlarmsHonoured(cfg, s, ls, names) && Overlapping(After(cfg, s, ls), a, c, name)
        ensures false
      {
        HonouredByOne(cfg, s, ls, a, names);
        PromptStaysAlone(cfg, s, ls, a, name);
      }
    }
  }

  /** Asking it of the bodies of this task alone, there is nothing else to the condition. */
  lemma OwnOverlapIffLate(cfg: Config, s: State, a: AttemptId, name: string)
    requires Reachable(cfg, s) && Occupies(cfg, s, a, name)
    ensures CanOverlap(cfg, s, a, name, {name}) <==> Late(cfg, s.attempts[a])
  {
    OverlapIffLate(cfg, s, a, name, {name});
    if Late(cfg, s.attempts[a]) {
      forall c | c in s.attempts && s.attempts[c].message.taskName in {name}
        ensures OnTime(cfg, s, c)
      {
        assert ForTask(s, c, name);
      }
    }
  }
}
