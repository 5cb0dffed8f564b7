/** What holds in every run of the protocol, from the empty state. */
module Guarantees {
  import opened Wrappers
  import opened Errors
  import opened Settings
  import opened Tasks
  import opened Protocol
  import opened Invariants

  /** `s` is a state the system can reach. */
  ghost predicate Reachable(cfg: Config, s: State) {
    exists ls: seq<Label> :: Legal(cfg, EMPTY, ls) && After(cfg, EMPTY, ls) == s
  }

  lemma ReachableInv(cfg: Config, s: State)
    requires Reachable(cfg, s)
    ensures Inv(cfg, s)
  {
    var ls: seq<Label> :| Legal(cfg, EMPTY, ls) && After(cfg, EMPTY, ls) == s;
    EmptyKeepsAll(cfg);
    RunKeepsInv(cfg, EMPTY, ls);
  }

  // ---- at most once ----

  /** The label enters the body of a task delivered under `id`. */
  predicate EntersBody(s: State, l: Label, id: Id) {
    l.Act? && l.a in s.attempts && s.attempts[l.a].id == id && l.action == Start(None)
  }

  /** The label creates the record of `id`. */
  predicate CreatesRecord(cfg: Config, s: State, l: Label, id: Id) {
    && l.Act? && l.a in s.attempts && s.attempts[l.a].id == id && l.action == GetOrCreate(None)
    && Resolvable(cfg, s.attempts[l.a].message.taskName) && id !in s.records
  }

  /** How often something happens along a run. */
  function Times(cfg: Config, s: State, ls: seq<Label>, happens: (State, Label) -> bool): nat
    requires Legal(cfg, s, ls)
    decreases |ls|
  {
    if ls == [] then 0
    else (if happens(s, ls[0]) then 1 else 0) + Times(cfg, Apply(cfg, s, ls[0]), ls[1..], happens)
  }

  ghost function Starts(s: State, id: Id): set<AttemptId> {
    set a | a in s.attempts && s.attempts[a].started.Some? && s.attempts[a].id == id
  }

  lemma PutStarts(s: State, a: AttemptId, m: Move, id: Id)
    requires a in s.attempts && SameDelivery(s.attempts[a], m.attempt)
    requires s.attempts[a].started.Some? ==> m.attempt.started.Some?
    ensures
      var begun := m.attempt.started.Some? && s.attempts[a].started.None? && m.attempt.id == id;
      Starts(Put(s, a, m), id) == Starts(s, id) + if begun then {a} else {}
  {
  }

  lemma PutCreations(s: State, a: AttemptId, m: Move, id: Id)
    requires a in s.attempts && SameDelivery(s.attempts[a], m.attempt)
    requires s.attempts[a].created ==> m.attempt.created
    ensures
      var made := m.attempt.created && !s.attempts[a].created && m.attempt.id == id;
      Creations(Put(s, a, m), id) == Creations(s, id) + if made then {a} else {}
  {
  }

  lemma StartBegins(cfg: Config, s: State, a: AttemptId, t: Attempt, x: Action)
    requires Can(cfg, s, t, x) && AttemptOk(cfg, t)
    ensures
      var u := MoveOf(cfg, s, a, t, x).attempt;
      && (t.started.Some? ==> u.started.Some?)
      && (u.started.Some? && t.started.None? <==> x == Start(None))
  {
  }

  lemma GetOrCreateCreates(cfg: Config, s: State, a: AttemptId, t: Attempt, x: Action)
    requires Can(cfg, s, t, x) && AttemptOk(cfg, t)
    ensures
      var u := MoveOf(cfg, s, a, t, x).attempt;
      && (t.created ==> u.created)
      && (u.created && !t.created <==>
          x == GetOrCreate(None) && Resolvable(cfg, t.message.taskName) && t.id !in s.records)
  {
    if x.GetOrCreate? {
      assert MoveOf(cfg, s, a, t, x) == DoGetOrCreate(cfg, s, a, t, x.fault);
    }
  }

  lemma MoveCountsEvents(cfg: Config, s: State, a: AttemptId, x: Action, id: Id)
    requires a in s.attempts && Can(cfg, s, s.attempts[a], x) && AttemptOk(cfg, s.attempts[a])
    ensures
      var s' := Put(s, a, MoveOf(cfg, s, a, s.attempts[a], x));
      && |Starts(s', id)| == |Starts(s, id)| + (if EntersBody(s, Act(a, x), id) then 1 else 0)
      && |Creations(s', id)| == |Creations(s, id)| + (if CreatesRecord(cfg, s, Act(a, x), id) then 1 else 0)
  {
    var t := s.attempts[a];
    var m := MoveOf(cfg, s, a, t, x);
    StartBegins(cfg, s, a, t, x);
    GetOrCreateCreates(cfg, s, a, t, x);
    PutStarts(s, a, m, id);
    PutCreations(s, a, m, id);
    assert t.started.None? ==> a !in Starts(s, id);
    assert !t.created ==> a !in Creations(s, id);
  }

  lemma EnvironmentCountsEvents(cfg: Config, s: State, l: Label, id: Id)
    requires Enabled(cfg, s, l) && !l.Act?
    ensures Starts(Apply(cfg, s, l), id) == Starts(s, id)
    ensures Creations(Apply(cfg, s, l), id) == Creations(s, id)
    ensures Apply(cfg, s, l).deleted[id] == s.deleted[id] + if l == Cleanup(id) then 1 else 0
  {
  }

  lemma StepCountsEvents(cfg: Config, s: State, l: Label, id: Id)
    requires Inv(cfg, s) && Enabled(cfg, s, l)
    ensures |Starts(Apply(cfg, s, l), id)| == |Starts(s, id)| + if EntersBody(s, l, id) then 1 else 0
    ensures |Creations(Apply(cfg, s, l), id)| == |Creations(s, id)| + if CreatesRecord(cfg, s, l, id) then 1 else 0
    ensures Apply(cfg, s, l).deleted[id] == s.deleted[id] + if l == Cleanup(id) then 1 else 0
  {
    if l.Act? {
      assert AttemptOk(cfg, s.attempts[l.a]);
      MoveCountsEvents(cfg, s, l.a, l.action, id);
    } else {
      EnvironmentCountsEvents(cfg, s, l, id);
    }
  }

  lemma {:induction false} RunCountsEvents(cfg: Config, s: State, ls: seq<Label>, id: Id)
    requires Inv(cfg, s) && Legal(cfg, s, ls)
    ensures
      var s' := After(cfg, s, ls);
      && |Starts(s', id)| == |Starts(s, id)| + Times(cfg, s, ls, (u, l) => EntersBody(u, l, id))
      && |Creations(s', id)| == |Creations(s, id)| + Times(cfg, s, ls, (u, l) => CreatesRecord(cfg, u, l, id))
      && s'.deleted[id] == s.deleted[id] + Times(cfg, s, ls, (u, l) => l == Cleanup(id))
    decreases |ls|
  {
    if ls != [] {
      StepCountsEvents(cfg, s, ls[0], id);
      StepKeepsInv(cfg, s, ls[0]);
      RunCountsEvents(cfg, Apply(cfg, s, ls[0]), ls[1..], id);
    }
  }

  /** However deliveries, crashes and cleanups interleave, the record of an id was created
      as often as it was deleted, once more if it is there now, and the body was entered at
      most that often. While no record of the id is deleted, that is at most once. */
  lemma BodyRunsAtMostOncePerRecord(cfg: Config, ls: seq<Label>, id: Id)
    requires Legal(cfg, EMPTY, ls)
    ensures
      var bodies := Times(cfg, EMPTY, ls, (u, l) => EntersBody(u, l, id));
      var creations := Times(cfg, EMPTY, ls, (u, l) => CreatesRecord(cfg, u, l, id));
      var deletions := Times(cfg, EMPTY, ls, (u, l) => l == Cleanup(id));
      && creations == deletions + (if id in After(cfg, EMPTY, ls).records then 1 else 0)
      && bodies <= creations
      && (deletions == 0 ==> bodies <= 1)
  {
    var s := After(cfg, EMPTY, ls);
    EmptyKeepsAll(cfg);
    RunKeepsInv(cfg, EMPTY, ls);
    RunCountsEvents(cfg, EMPTY, ls, id);
    assert Starts(EMPTY, id) == {} && Creations(EMPTY, id) == {};
    assert |Creations(s, id)| == (if id in s.records then 1 else 0) + s.deleted[id];
    forall a | a in Starts(s, id)
      ensures a in Creations(s, id)
    {
      assert AttemptOk(cfg, s.attempts[a]);
    }
    Smaller(Starts(s, id), Creations(s, id));
  }

  lemma {:induction false} Smaller<T>(xs: set<T>, ys: set<T>)
    requires xs <= ys
    ensures |xs| <= |ys|
    decreases xs
  {
    if xs != {} {
      var x :| x in xs;
      Smaller(xs - {x}, ys - {x});
    }
  }

  // ---- what may happen ----

  lemma {:induction false} Unused(xs: set<nat>) returns (n: nat)
    ensures n !in xs && forall x | x in xs :: x < n
    decreases xs
  {
    if xs == {} {
      n := 0;
    } else {
      var x :| x in xs;
      var m := Unused(xs - {x});
      n := if m > x then m else x + 1;
      forall y | y in xs
        ensures y < n
      {
        assert y == x || y in xs - {x};
      }
    }
  }

  /** The environment is free: time passes, any message is accepted under an id that was never
      used, any message is delivered again at any time, and any record is deleted. */
  lemma EnvironmentIsFree(cfg: Config, s: State, q: Id, task: Task, b: AttemptId, from: Id, id: Id)
    requires Reachable(cfg, s)
    ensures Enabled(cfg, s, Tick) && Apply(cfg, s, Tick) == s.(now := s.now + 1)
    ensures q !in s.sent ==>
              Enabled(cfg, s, Submit(q, task)) && q in Apply(cfg, s, Submit(q, task)).sent
    ensures b !in s.attempts && from in s.sent ==>
              && Enabled(cfg, s, Deliver(b, from)) && b in Apply(cfg, s, Deliver(b, from)).attempts
              && Apply(cfg, s, Deliver(b, from)).attempts[b] == NewAttempt(from, s.sent[from].task.message)
    ensures id in s.records ==>
              Enabled(cfg, s, Cleanup(id)) && Apply(cfg, s, Cleanup(id)).records == s.records - {id}
  {
    RecordsHaveOwners(cfg, s, id);
  }

  lemma RecordsHaveOwners(cfg: Config, s: State, id: Id)
    requires Reachable(cfg, s)
    ensures id in s.records ==> id in s.owner && s.owner[id] in s.attempts
  {
    ReachableInv(cfg, s);
  }

  /** Any worker crashes in the middle of its attempt, leaving everything else as it is. */
  lemma WorkersMayCrash(cfg: Config, s: State, a: AttemptId)
    requires a in s.attempts && !Over(s.attempts[a].phase)
    ensures Enabled(cfg, s, Act(a, Crash))
    ensures Apply(cfg, s, Act(a, Crash)) == s.(attempts := s.attempts[a := s.attempts[a].(phase := Crashed)])
  {
    assert MoveOf(cfg, s, a, s.attempts[a], Crash) == Stay(s, s.attempts[a].(phase := Crashed));
  }

  /** Every operation on a store that an attempt comes to may raise any error, and so may the
      body and each commit callback. */
  lemma AnythingMayRaise(cfg: Config, s: State, a: AttemptId, e: Class)
    requires Reachable(cfg, s) && a in s.attempts
    ensures
      match s.attempts[a].phase
      case Received => Enabled(cfg, s, Act(a, GetOrCreate(Some(e))))
      case Recorded => IsSingleton(cfg, s.attempts[a]) ==> Enabled(cfg, s, Act(a, Acquire(Some(e))))
      case Guarded => Enabled(cfg, s, Act(a, Start(Some(e))))
      case Body => Enabled(cfg, s, Act(a, Finish(Raises(e))))
      case Callbacks(rest, _) => rest != [] ==> Enabled(cfg, s, Act(a, CallbackFails(e)))
      case Releasing(_) => IsSingleton(cfg, s.attempts[a]) ==> Enabled(cfg, s, Act(a, Release(Some(e))))
      case Concluding(_) => Enabled(cfg, s, Act(a, Save(Some(e))))
      case Requeueing => Enabled(cfg, s, Act(a, RequeueFails))
      case _ => true
  {
    AttemptIsOk(cfg, s, a);
  }

  lemma AttemptIsOk(cfg: Config, s: State, a: AttemptId)
    requires Reachable(cfg, s) && a in s.attempts
    ensures AttemptOk(cfg, s.attempts[a])
  {
    ReachableInv(cfg, s);
  }

  /** No attempt gets stuck: one that is not over has a step of its own to take, without a
      crash and without anything raising. */
  lemma AttemptsCanGoOn(cfg: Config, s: State, a: AttemptId) returns (x: Action)
    requires Reachable(cfg, s) && a in s.attempts && !Over(s.attempts[a].phase)
    ensures Enabled(cfg, s, Act(a, x)) && !x.Crash? && !x.RequeueFails? && !x.CallbackFails?
    ensures x.GetOrCreate? || x.Acquire? || x.Start? || x.Release? || x.Save? ==> x.fault.None?
    ensures x.Finish? ==> x.result.Returns?
  {
    ReachableInv(cfg, s);
    var t := s.attempts[a];
    assert AttemptOk(cfg, t);
    var q := Unused(s.sent.Keys);
    x := match t.phase
         case Received => GetOrCreate(None)
         case Recorded => Acquire(None)
         case Guarded => Start(None)
         case Body => if IsCarrier(t.message) && t.job.None? then SubmitJob(q) else Finish(Returns(0, []))
         case Callbacks(rest, _) => if rest == [] then Leave else Publish(q)
         case Releasing(_) => Release(None)
         case Concluding(_) => Save(None)
         case Requeueing => Requeue(q, 1)
         case Done | Crashed => Crash;
  }
}
