/** Soft and hard time limits, nested over the one alarm a process has. */
module Timeouts {
  import opened Wrappers
  import Settings

  datatype Error = SoftLimit | HardLimit | ForeignSignal(handler: nat) | Other(kind: nat)

  /** How a piece of code is left. */
  datatype Exit = Completed | Threw(error: Error)

  /** What is installed for SIGALRM: a handler of somebody else's, which raises, or that of
      a `TimeoutContext`. */
  datatype Handler = Foreign(id: nat) | Limit(soft: nat, hard: nat, inHardPhase: bool)

  /** A signal delivered in a context: `own` is the time the context has been running,
      contexts nested in it excluded. */
  datatype Fired = Fired(error: Error, own: nat, at: nat)

  /** A context that was entered and left. */
  datatype Run = Run(soft: nat, hard: nat, entered: nat, fired: seq<Fired>)

  /** The process's clock and alarm, with what happened in the innermost context (`own`,
      `fired`) and in those already left (`runs`). */
  datatype Clock = Clock(
    now: nat,
    deadline: Option<nat>,
    handler: Handler,
    own: nat,
    fired: seq<Fired>,
    runs: seq<Run>)

  datatype Except = Everything | Only(errors: set<Error>)

  predicate Catches(x: Except, e: Error) {
    x.Everything? || e in x.errors
  }

  /** Code with well-nested contexts. */
  datatype Prog =
    | Work(duration: nat)
    | Raise(error: Error)
    | Seq(first: Prog, second: Prog)
    | Try(body: Prog, caught: Except, recover: Prog)
    | With(soft: nat, hard: nat, body: Prog)

  /** A pending alarm is in the future: one that is due has been delivered. */
  predicate Ready(s: Clock) {
    s.deadline.Some? ==> s.deadline.value > s.now
  }

  function Max(a: int, b: int): int {
    if a > b then a else b
  }

  /** `signal.alarm(n)`: what it returns, and what it leaves pending. */
  function Remaining(s: Clock): nat
    requires Ready(s)
  {
    if s.deadline.Some? then s.deadline.value - s.now else 0
  }

  function Armed(now: nat, n: nat): Option<nat> {
    if n == 0 then None else Some(now + n)
  }

  function Pass(s: Clock, d: nat): Clock {
    s.(now := s.now + d, own := s.own + d)
  }

  /** SIGALRM is delivered. */
  function Fire(s: Clock): (Clock, Exit) {
    match s.handler
    case Foreign(id) =>
      (s.(deadline := None, fired := s.fired + [Fired(ForeignSignal(id), s.own, s.now)]), Threw(ForeignSignal(id)))
    case Limit(soft, hard, inHardPhase) =>
      if !inHardPhase then
        (s.(deadline := Armed(s.now, Max(1, hard - soft)), handler := s.handler.(inHardPhase := true),
         fired := s.fired + [Fired(SoftLimit, s.own, s.now)]), Threw(SoftLimit))
      else
        (s.(deadline := None, fired := s.fired + [Fired(HardLimit, s.own, s.now)]), Threw(HardLimit))
  }

  function Wait(s: Clock, d: nat): (Clock, Exit)
    requires Ready(s)
  {
    if s.deadline.Some? && s.deadline.value <= s.now + d then Fire(Pass(s, s.deadline.value - s.now))
    else (Pass(s, d), Completed)
  }

  /** `__enter__` */
  function Entered(s: Clock, soft: nat, hard: nat): Clock {
    s.(deadline := Armed(s.now, soft), handler := Limit(soft, hard, false), own := 0, fired := [])
  }

  /** `__exit__`, back to the context (or none) that was current in `s`. */
  function Left(s: Clock, inner: Clock, soft: nat, hard: nat): Clock
    requires Ready(s)
  {
    inner.(deadline := Armed(inner.now, Remaining(s)), handler := s.handler, own := s.own, fired := s.fired,
           runs := inner.runs + [Run(soft, hard, s.now, inner.fired)])
  }

  function Eval(eager: bool, s: Clock, p: Prog): (r: (Clock, Exit))
    requires Ready(s)
    ensures Ready(r.0)
    decreases p
  {
    match p
    case Work(d) => Wait(s, d)
    case Raise(e) => (s, Threw(e))
    case Seq(first, second) =>
      var (u, o) := Eval(eager, s, first);
      if o.Threw? then (u, o) else Eval(eager, u, second)
    case Try(body, caught, recover) =>
      var (u, o) := Eval(eager, s, body);
      if o.Threw? && Catches(caught, o.error) then Eval(eager, u, recover) else (u, o)
    case With(soft, hard, body) =>
      if eager then Eval(eager, s, body)
      else
        var (u, o) := Eval(eager, Entered(s, soft, hard), body);
        (Left(s, u, soft, hard), o)
  }

  // ---- the outer deadline ----

  /** Same handler, up to the phase its own signals moved it to. */
  predicate SameHandler(s: Clock, u: Clock) {
    if s.handler.Foreign? then u.handler == s.handler
    else u.handler.Limit? && u.handler == s.handler.(inHardPhase := u.handler.inHardPhase)
  }

  /** Whatever contexts a program nests, and however it is left: the handler is the one it
      found, and while no signal is delivered to it the pending alarm is the one it found,
      later by exactly the time spent in nested contexts. */
  lemma {:induction false} DeadlineSlides(s: Clock, p: Prog)
    requires Ready(s)
    ensures
      var u := Eval(false, s, p).0;
      && SameHandler(s, u)
      && s.fired <= u.fired && s.now <= u.now && s.own <= u.own
      && u.own - s.own <= u.now - s.now
      && (u.fired == s.fired ==>
            && u.handler == s.handler
            && u.deadline == if s.deadline.None? then None
                             else Some(s.deadline.value + (u.now - s.now) - (u.own - s.own)))
    decreases p
  {
    match p
    case Work(_) | Raise(_) =>
    case Seq(first, second) =>
      DeadlineSlides(s, first);
      DeadlineSlides(Eval(false, s, first).0, second);
    case Try(body, _, recover) =>
      DeadlineSlides(s, body);
      DeadlineSlides(Eval(false, s, body).0, recover);
    case With(soft, hard, body) =>
      DeadlineSlides(Entered(s, soft, hard), body);
  }

  /** A context leaves the handler and the alarm as it found them, the alarm postponed by
      the time the context took; none is pending if none was. */
  lemma ContextRestores(s: Clock, soft: nat, hard: nat, body: Prog)
    requires Ready(s)
    ensures
      var u := Eval(false, s, With(soft, hard, body)).0;
      && u.handler == s.handler
      && (s.deadline.None? ==> u.deadline.None?)
      && (s.deadline.Some? ==> u.deadline == Some(s.deadline.value + (u.now - s.now)))
      && s.now <= u.now
  {
    var inner := Entered(s, soft, hard);
    DeadlineSlides(inner, body);
    var (u, o) := Eval(false, inner, body);
    assert Eval(false, s, With(soft, hard, body)) == (Left(s, u, soft, hard), o);
  }

  // ---- one context ----

  /** Every context has the timeouts the executor resolves. */
  predicate WellTimed(p: Prog) {
    match p
    case Work(_) | Raise(_) => true
    case Seq(first, second) => WellTimed(first) && WellTimed(second)
    case Try(body, _, recover) => WellTimed(body) && WellTimed(recover)
    case With(soft, hard, body) => 0 < soft < hard && WellTimed(body)
  }

  predicate IsSignal(f: Fired, error: Error, own: nat) {
    f.error == error && f.own == own
  }

  /** What a context with given limits delivers: nothing; the soft signal when its own time
      reaches the soft limit; or that, and then the hard signal at the hard limit. */
  predicate Delivered(soft: nat, hard: nat, fired: seq<Fired>) {
    && |fired| <= 2
    && (|fired| >= 1 ==> IsSignal(fired[0], SoftLimit, soft))
    && (|fired| == 2 ==> IsSignal(fired[1], HardLimit, hard))
  }

  /** Inside a context: the next signal to come is the right one, at the right time. */
  predicate OnTime(s: Clock) {
    match s.handler
    case Foreign(_) => true
    case Limit(soft, hard, inHardPhase) =>
      && 0 < soft < hard
      && Delivered(soft, hard, s.fired)
      && (inHardPhase <==> s.fired != [])
      && match |s.fired| {
           case 0 => s.own < soft && s.deadline == Some(s.now + soft - s.own)
           case 1 => soft <= s.own < hard && s.deadline == Some(s.now + hard - s.own)
           case _ => hard <= s.own && s.deadline == None
         }
  }

  ghost predicate RunsOk(s: Clock) {
    forall r | r in s.runs :: Delivered(r.soft, r.hard, r.fired)
  }

  lemma {:induction false} EvalKeepsOnTime(s: Clock, p: Prog)
    requires Ready(s) && OnTime(s) && RunsOk(s) && WellTimed(p)
    ensures OnTime(Eval(false, s, p).0) && RunsOk(Eval(false, s, p).0)
    decreases p
  {
    match p
    case Work(_) | Raise(_) =>
    case Seq(first, second) =>
      EvalKeepsOnTime(s, first);
      EvalKeepsOnTime(Eval(false, s, first).0, second);
    case Try(body, _, recover) =>
      EvalKeepsOnTime(s, body);
      EvalKeepsOnTime(Eval(false, s, body).0, recover);
    case With(soft, hard, body) =>
      var inner := Entered(s, soft, hard);
      EvalKeepsOnTime(inner, body);
      DeadlineSlides(inner, body);
  }

  /** However contexts are nested, every one of them delivers at most one soft signal, when
      its own time reaches the soft limit, and after it at most one hard signal, at the hard
      limit: the lower bound of one second on the second alarm never takes effect. */
  lemma EachContextDeliversOnTime(s: Clock, p: Prog)
    requires Ready(s) && s.runs == [] && s.handler.Foreign? && WellTimed(p)
    ensures forall r | r in Eval(false, s, p).0.runs :: Delivered(r.soft, r.hard, r.fired)
  {
    EvalKeepsOnTime(s, p);
  }

  /** With limits that are not in order the bound does take effect: the hard signal comes
      one second after the soft one, past the hard limit. */
  lemma UnorderedLimitsAreLate(soft: nat, hard: nat)
    requires 0 < hard <= soft
    ensures
      var p := With(soft, hard, Seq(Try(Work(soft), Everything, Work(0)), Work(1)));
      var u := Eval(false, Clock(0, None, Foreign(0), 0, [], []), p).0;
      |u.runs| == 1 && u.runs[0].fired == [Fired(SoftLimit, soft, soft), Fired(HardLimit, soft + 1, soft + 1)]
  {
    var s := Entered(Clock(0, None, Foreign(0), 0, [], []), soft, hard);
    var swallow := Try(Work(soft), Everything, Work(0));
    assert Eval(false, s, Work(soft)) == Wait(s, soft);
    var u := Wait(s, soft).0;
    assert Eval(false, s, swallow) == Eval(false, u, Work(0)) == (u, Completed);
    assert Eval(false, s, Seq(swallow, Work(1))) == Eval(false, u, Work(1)) == Wait(u, 1);
  }

  predicate NoContexts(p: Prog) {
    match p
    case Work(_) | Raise(_) => true
    case Seq(first, second) => NoContexts(first) && NoContexts(second)
    case Try(body, _, recover) => NoContexts(body) && NoContexts(recover)
    case With(_, _, _) => false
  }

  lemma {:induction false} FlatTimes(s: Clock, p: Prog, entered: nat)
    requires Ready(s) && NoContexts(p)
    requires s.now == entered + s.own && forall f | f in s.fired :: f.at == entered + f.own
    ensures
      var u := Eval(false, s, p).0;
      && u.now == entered + u.own
      && (forall f | f in u.fired :: f.at == entered + f.own)
      && u.runs == s.runs
    decreases p
  {
    match p
    case Work(_) | Raise(_) =>
    case Seq(first, second) =>
      FlatTimes(s, first, entered);
      FlatTimes(Eval(false, s, first).0, second, entered);
    case Try(body, _, recover) =>
      FlatTimes(s, body, entered);
      FlatTimes(Eval(false, s, body).0, recover, entered);
  }

  /** When the signals of a context come, by the clock. */
  predicate ByTheClock(soft: nat, hard: nat, r: Run) {
    forall f | f in r.fired ::
      (f.error == SoftLimit && f.at == r.entered + soft) || (f.error == HardLimit && f.at == r.entered + hard)
  }

  lemma OwnTimeIsClockTime(soft: nat, hard: nat, r: Run)
    requires Delivered(soft, hard, r.fired) && forall f | f in r.fired :: f.at == r.entered + f.own
    ensures ByTheClock(soft, hard, r)
  {
    forall f | f in r.fired
      ensures (f.error == SoftLimit && f.own == soft) || (f.error == HardLimit && f.own == hard)
    {
      var i :| 0 <= i < |r.fired| && r.fired[i] == f;
      assert i == 0 || i == 1;
    }
  }

  lemma WithUnfolds(s: Clock, soft: nat, hard: nat, body: Prog)
    requires Ready(s)
    ensures
      var (u, o) := Eval(false, Entered(s, soft, hard), body);
      Eval(false, s, With(soft, hard, body)) == (Left(s, u, soft, hard), o)
  {
  }

  /** A context with none inside it: the soft signal comes `soft` seconds after it was
      entered, the hard signal `hard` seconds after. */
  lemma InnermostContextByTheClock(s: Clock, soft: nat, hard: nat, body: Prog)
    requires Ready(s) && 0 < soft < hard && NoContexts(body) && RunsOk(s)
    ensures
      var u := Eval(false, s, With(soft, hard, body)).0;
      && |u.runs| == |s.runs| + 1 && u.runs[|s.runs|].entered == s.now
      && Delivered(soft, hard, u.runs[|s.runs|].fired)
      && ByTheClock(soft, hard, u.runs[|s.runs|])
  {
    var u := Eval(false, Entered(s, soft, hard), body).0;
    InnerDelivers(s, soft, hard, body);
    var r := Run(soft, hard, s.now, u.fired);
    OwnTimeIsClockTime(soft, hard, r);
    WithUnfolds(s, soft, hard, body);
    assert Left(s, u, soft, hard).runs == s.runs + [r];
  }

  lemma InnerDelivers(s: Clock, soft: nat, hard: nat, body: Prog)
    requires Ready(s) && 0 < soft < hard && NoContexts(body) && RunsOk(s)
    ensures
      var u := Eval(false, Entered(s, soft, hard), body).0;
      && Delivered(soft, hard, u.fired) && u.runs == s.runs
      && forall f | f in u.fired :: f.at == s.now + f.own
  {
    var inner := Entered(s, soft, hard);
    FlatTimes(inner, body, s.now);
    FlatIsWellTimed(body);
    EvalKeepsOnTime(inner, body);
    DeadlineSlides(inner, body);
  }

  lemma {:induction false} FlatIsWellTimed(p: Prog)
    requires NoContexts(p)
    ensures WellTimed(p)
    decreases p
  {
    match p
    case Work(_) | Raise(_) =>
    case Seq(first, second) =>
      FlatIsWellTimed(first);
      FlatIsWellTimed(second);
    case Try(body, _, recover) =>
      FlatIsWellTimed(body);
      FlatIsWellTimed(recover);
  }

  // ---- what a context means for its code ----

  /** Something raised in code when its own time comes to a moment. */
  datatype Interrupt = Interrupt(at: nat, error: Error)

  /** How flat code goes under a list of interrupts, without any alarm: the next one due cuts
      work short and is raised there; code is left by an error unless it catches it. The
      result is the time it comes to, the interrupts still due, and how it is left. */
  function Interrupted(time: nat, due: seq<Interrupt>, p: Prog): (nat, seq<Interrupt>, Exit)
    decreases p
  {
    match p
    case Work(d) =>
      if due != [] && due[0].at <= time + d then (due[0].at, due[1..], Threw(due[0].error))
      else (time + d, due, Completed)
    case Raise(e) => (time, due, Threw(e))
    case Seq(first, second) =>
      var (time', due', o) := Interrupted(time, due, first);
      if o.Completed? then Interrupted(time', due', second) else (time', due', o)
    case Try(body, caught, recover) =>
      var (time', due', o) := Interrupted(time, due, body);
      if o.Threw? && (caught.Everything? || o.error in caught.errors) then Interrupted(time', due', recover)
      else (time', due', o)
    case With(_, _, body) => Interrupted(time, due, body)
  }

  /** What a context still has to deliver. */
  function Due(soft: nat, hard: nat, delivered: nat): seq<Interrupt> {
    if delivered == 0 then [Interrupt(soft, SoftLimit), Interrupt(hard, HardLimit)]
    else if delivered == 1 then [Interrupt(hard, HardLimit)]
    else []
  }

  lemma WaitFollowsSchedule(s: Clock, d: nat)
    requires Ready(s) && OnTime(s) && s.handler.Limit?
    ensures
      var (u, o) := Wait(s, d);
      && OnTime(u) && u.handler.Limit? && u.handler.soft == s.handler.soft && u.handler.hard == s.handler.hard
      && (u.own, Due(s.handler.soft, s.handler.hard, |u.fired|), o) ==
         Interrupted(s.own, Due(s.handler.soft, s.handler.hard, |s.fired|), Work(d))
  {
    var due := Due(s.handler.soft, s.handler.hard, |s.fired|);
    if |s.fired| == 0 {
      assert due[1..] == [Interrupt(s.handler.hard, HardLimit)];
    } else if |s.fired| == 1 {
      assert due[1..] == [];
    }
  }

  lemma {:induction false} FollowsSchedule(s: Clock, p: Prog)
    requires Ready(s) && OnTime(s) && s.handler.Limit? && NoContexts(p)
    ensures
      var (u, o) := Eval(false, s, p);
      && OnTime(u) && u.handler.Limit? && u.handler.soft == s.handler.soft && u.handler.hard == s.handler.hard
      && (u.own, Due(s.handler.soft, s.handler.hard, |u.fired|), o) ==
         Interrupted(s.own, Due(s.handler.soft, s.handler.hard, |s.fired|), p)
    decreases p
  {
    match p
    case Work(d) =>
      WaitFollowsSchedule(s, d);
    case Raise(_) =>
    case Seq(first, second) =>
      FollowsSchedule(s, first);
      var (u, o) := Eval(false, s, first);
      if o.Completed? {
        FollowsSchedule(u, second);
      }
    case Try(body, caught, recover) =>
      FollowsSchedule(s, body);
      var (u, o) := Eval(false, s, body);
      if o.Threw? && Catches(caught, o.error) {
        FollowsSchedule(u, recover);
      }
  }

  /** A context is a schedule of two interrupts: for any flat code, the alarm, the handler and
      its two phases come to SoftLimit raised in the code at its time `soft`, then HardLimit
      at its time `hard`, and to nothing else. The code is left as if these had been raised
      there, and the clock has moved on by the time it took. */
  lemma ContextIsASchedule(s: Clock, soft: nat, hard: nat, body: Prog)
    requires Ready(s) && 0 < soft < hard && NoContexts(body)
    ensures
      var (u, o) := Eval(false, s, With(soft, hard, body));
      var (time, rest, exit) := Interrupted(0, [Interrupt(soft, SoftLimit), Interrupt(hard, HardLimit)], body);
      && o == exit && u.now == s.now + time
      && |u.runs| == |s.runs| + 1 && |u.runs[|s.runs|].fired| + |rest| == 2
  {
    var inner := Entered(s, soft, hard);
    FollowsSchedule(inner, body);
    FlatTimes(inner, body, s.now);
    WithUnfolds(s, soft, hard, body);
  }

  /** Work, and nothing else. */
  predicate Straight(p: Prog) {
    match p
    case Work(_) => true
    case Seq(first, second) => Straight(first) && Straight(second)
    case _ => false
  }

  function Duration(p: Prog): nat {
    match p
    case Work(d) => d
    case Seq(first, second) => Duration(first) + Duration(second)
    case _ => 0
  }

  /** What the next signal raises. */
  function Signal(h: Handler): Error {
    match h
    case Foreign(id) => ForeignSignal(id)
    case Limit(_, _, inHardPhase) => if inHardPhase then HardLimit else SoftLimit
  }

  /** Whoever's alarm is pending: work that completes was done to the end, and it completes if
      and only if it is over before the alarm is due. Otherwise it was cut short at that
      moment, and left by the error of the one signal that came. */
  lemma {:induction false} CompletedMeansDone(s: Clock, p: Prog)
    requires Ready(s) && Straight(p)
    ensures
      var (u, o) := Eval(false, s, p);
      && (o.Completed? <==> u.own == s.own + Duration(p) && u.fired == s.fired)
      && (o.Completed? <==> s.deadline.None? || s.now + Duration(p) < s.deadline.value)
      && (o.Completed? ==> u == s.(now := s.now + Duration(p), own := s.own + Duration(p)))
      && (o.Threw? ==>
            && u.now == s.deadline.value && |u.fired| == |s.fired| + 1
            && o == Threw(u.fired[|s.fired|].error) && u.fired[|s.fired|].error == Signal(s.handler))
    decreases p
  {
    match p
    case Work(_) =>
    case Seq(first, second) =>
      CompletedMeansDone(s, first);
      var (u, o) := Eval(false, s, first);
      if o.Completed? {
        CompletedMeansDone(u, second);
      }
  }

  predicate TryFree(p: Prog) {
    match p
    case Work(_) | Raise(_) => true
    case Seq(first, second) => TryFree(first) && TryFree(second)
    case Try(_, _, _) => false
    case With(_, _, body) => TryFree(body)
  }

  /** No signal is lost on code that catches nothing, however its contexts are nested: the
      first one that comes, to whichever of them, is the last, and the code is left by its
      error. */
  lemma {:induction false} SignalsAreRaised(s: Clock, p: Prog)
    requires Ready(s) && TryFree(p)
    ensures
      var (u, o) := Eval(false, s, p);
      && s.fired <= u.fired && |u.fired| <= |s.fired| + 1 && s.runs <= u.runs
      && (|u.fired| == |s.fired| + 1 ==> o == Threw(u.fired[|s.fired|].error))
      && (forall i | |s.runs| <= i < |u.runs| ::
            |u.runs[i].fired| <= 1 && (|u.runs[i].fired| == 1 ==> o == Threw(u.runs[i].fired[0].error)))
    decreases p
  {
    match p
    case Work(_) | Raise(_) =>
    case Seq(first, second) =>
      SignalsAreRaised(s, first);
      var (u, o) := Eval(false, s, first);
      if o.Completed? {
        SignalsAreRaised(u, second);
      }
    case With(soft, hard, body) =>
      SignalsAreRaised(Entered(s, soft, hard), body);
  }

  // ---- when the hard limit is a bound ----

  /** The hard signal is never caught. */
  predicate HonoursHard(p: Prog) {
    match p
    case Work(_) | Raise(_) => true
    case Seq(first, second) => HonoursHard(first) && HonoursHard(second)
    case Try(body, caught, recover) => !Catches(caught, HardLimit) && HonoursHard(body) && HonoursHard(recover)
    case With(_, _, body) => HonoursHard(body)
  }

  lemma {:induction false} HardSignalEnds(s: Clock, p: Prog)
    requires Ready(s) && OnTime(s) && RunsOk(s) && WellTimed(p) && HonoursHard(p)
    requires s.handler.Limit? && |s.fired| < 2
    ensures
      var (u, o) := Eval(false, s, p);
      && u.own <= s.handler.hard
      && (|u.fired| == 2 ==> o == Threw(HardLimit))
    decreases p
  {
    EvalKeepsOnTime(s, p);
    DeadlineSlides(s, p);
    match p
    case Work(_) | Raise(_) =>
    case Seq(first, second) =>
      EvalKeepsOnTime(s, first);
      DeadlineSlides(s, first);
      HardSignalEnds(s, first);
      var (u, o) := Eval(false, s, first);
      if o.Completed? {
        HardSignalEnds(u, second);
      }
    case Try(body, caught, recover) =>
      EvalKeepsOnTime(s, body);
      DeadlineSlides(s, body);
      HardSignalEnds(s, body);
      var (u, o) := Eval(false, s, body);
      if o.Threw? && Catches(caught, o.error) {
        HardSignalEnds(u, recover);
      }
    case With(_, _, _) =>
  }

  /** A body that never catches the hard signal spends no more than the hard limit of its
      own time, and not more than that by the clock if it nests no contexts. */
  lemma HardLimitIsABound(s: Clock, soft: nat, hard: nat, body: Prog)
    requires Ready(s) && 0 < soft < hard && WellTimed(body) && HonoursHard(body) && RunsOk(s)
    ensures
      var inner := Entered(s, soft, hard);
      var (u, o) := Eval(false, inner, body);
      && u.own <= hard
      && (u.own == hard ==> o == Threw(HardLimit))
      && (NoContexts(body) ==> u.now <= s.now + hard)
  {
    var inner := Entered(s, soft, hard);
    EvalKeepsOnTime(inner, body);
    DeadlineSlides(inner, body);
    HardSignalEnds(inner, body);
    if NoContexts(body) {
      FlatTimes(inner, body, s.now);
    }
  }

  /** What the two phases are for: work that is stopped by the soft limit, and cleans up. With
      less to clean up than there is between the limits it completes, at soft + cleanup; else
      the hard limit stops it. Work that is over before the soft limit is not stopped. */
  lemma SoftLimitLeavesTimeToCleanUp(s: Clock, soft: nat, hard: nat, work: nat, cleanup: nat)
    requires Ready(s) && 0 < soft < hard
    ensures
      var p := With(soft, hard, Try(Work(work), Only({SoftLimit}), Work(cleanup)));
      var (u, o) := Eval(false, s, p);
      && WellTimed(p) && HonoursHard(p) && NoContexts(p.body) && !TryFree(p)
      && (u.now, o) == (if work < soft then (s.now + work, Completed)
                        else if soft + cleanup < hard then (s.now + soft + cleanup, Completed)
                        else (s.now + hard, Threw(HardLimit)))
  {
    var due := [Interrupt(soft, SoftLimit), Interrupt(hard, HardLimit)];
    var body := Try(Work(work), Only({SoftLimit}), Work(cleanup));
    ContextIsASchedule(s, soft, hard, body);
    assert due[1..] == [Interrupt(hard, HardLimit)];
    if work >= soft {
      assert Interrupted(0, due, Work(work)) == (soft, due[1..], Threw(SoftLimit));
      assert Interrupted(0, due, body) == Interrupted(soft, due[1..], Work(cleanup));
    } else {
      assert Interrupted(0, due, Work(work)) == (work, due, Completed);
    }
  }

  /** Straight code nests and catches nothing. */
  lemma {:induction false} StraightIsPlain(p: Prog, d: nat)
    requires Straight(p)
    ensures NoContexts(p) && TryFree(p) && WellTimed(p) && HonoursHard(p)
    ensures Straight(Seq(p, Work(d))) && Duration(Seq(p, Work(d))) == Duration(p) + d
    decreases p
  {
    match p
    case Work(_) =>
    case Seq(first, second) =>
      StraightIsPlain(first, d);
      StraightIsPlain(second, d);
  }

  lemma EndsWithin(s: Clock, soft: nat, hard: nat, body: Prog)
    requires Ready(s) && RunsOk(s) && 0 < soft < hard && NoContexts(body) && HonoursHard(body)
    ensures Eval(false, s, With(soft, hard, body)).0.now <= s.now + hard
  {
    FlatIsWellTimed(body);
    HardLimitIsABound(s, soft, hard, body);
    WithUnfolds(s, soft, hard, body);
  }

  /** A task body under the timeouts resolved for it, with no context of its own and not
      catching the hard signal, is over within the queue's maximum; its signals come when
      the resolved limits are reached. */
  lemma ResolvedLimitsHold(queues: Settings.Queues, queue: string, t: Settings.Timeouts, d: Settings.Defaults,
                           s: Clock, body: Prog)
    requires Settings.AcceptsTimeouts(t) && Settings.ResolvedTimeouts(queues, queue, t, d).Ok?
    requires Ready(s) && RunsOk(s) && NoContexts(body) && HonoursHard(body)
    ensures
      var (soft, hard) := Settings.ResolvedTimeouts(queues, queue, t, d).value;
      && 0 <= soft && 0 <= hard
      && var u := Eval(false, s, With(soft, hard, body)).0;
      && u.now <= s.now + hard <= s.now + Settings.MAX_BATCH_TIMEOUT
      && |u.runs| == |s.runs| + 1 && u.runs[|s.runs|].entered == s.now
      && ByTheClock(soft, hard, u.runs[|s.runs|])
  {
    var (soft, hard) := Settings.ResolvedTimeouts(queues, queue, t, d).value;
    EndsWithin(s, soft, hard, body);
    InnermostContextByTheClock(s, soft, hard, body);
  }

  /** A nested context suspends the outer limits: a body can outlast its hard limit without
      any signal of its own. */
  lemma NestingOutlastsTheLimit(soft: nat, hard: nat, long: nat)
    requires 0 < soft < hard
    ensures
      var s := Clock(0, None, Foreign(0), 0, [], []);
      var (u, o) := Eval(false, s, With(soft, hard, With(long + 1, long + 2, Work(long))));
      u.now == long && o == Completed && |u.runs| == 2 && u.runs[1].fired == []
  {
    var s := Clock(0, None, Foreign(0), 0, [], []);
    var outer := Entered(s, soft, hard);
    var inner := Entered(outer, long + 1, long + 2);
    assert Eval(false, inner, Work(long)) == (Pass(inner, long), Completed);
    assert Eval(false, outer, With(long + 1, long + 2, Work(long))) ==
           (Left(outer, Pass(inner, long), long + 1, long + 2), Completed);
  }

  // ---- eager mode ----

  /** The same code without its contexts. */
  function Stripped(p: Prog): Prog {
    match p
    case Work(_) | Raise(_) => p
    case Seq(first, second) => Seq(Stripped(first), Stripped(second))
    case Try(body, caught, recover) => Try(Stripped(body), caught, Stripped(recover))
    case With(_, _, body) => Stripped(body)
  }

  lemma {:induction false} EagerIgnoresContexts(s: Clock, p: Prog)
    requires Ready(s)
    ensures NoContexts(Stripped(p))
    ensures Eval(true, s, p) == Eval(false, s, Stripped(p))
    decreases p
  {
    match p
    case Work(_) | Raise(_) =>
    case Seq(first, second) =>
      EagerIgnoresContexts(s, first);
      EagerIgnoresContexts(Eval(true, s, first).0, second);
    case Try(body, _, recover) =>
      EagerIgnoresContexts(s, body);
      EagerIgnoresContexts(Eval(true, s, body).0, recover);
    case With(_, _, body) =>
      EagerIgnoresContexts(s, body);
  }

  // ---- the code ----

  /** What `signal.signal` installs: somebody else's handler, or a context's bound method. */
  datatype Installed = ForeignHandler(id: nat) | Bound(context: TimeoutContext)

  /** The process: its clock, its alarm, its SIGALRM handler. */
  class Process {
    const eager: bool
    var now: nat
    var deadline: Option<nat>
    var handler: Installed
    ghost var own: nat
    ghost var fired: seq<Fired>
    ghost var runs: seq<Run>

    ghost function Context(): set<object>
      reads this
    {
      if handler.Bound? then {handler.context} else {}
    }

    ghost function View(): Clock
      reads this, Context()
    {
      var h := match handler
               case ForeignHandler(id) => Foreign(id)
               case Bound(c) => Limit(c.softTimeout, c.hardTimeout, c.inHardPhase);
      Clock(now, deadline, h, own, fired, runs)
    }

    /** `signal.alarm` */
    method Alarm(seconds: nat) returns (remaining: nat)
      requires Ready(View())
      modifies this`deadline
      ensures remaining == old(Remaining(View())) && deadline == Armed(now, seconds)
    {
      remaining := if deadline.Some? then deadline.value - now else 0;
      deadline := if seconds == 0 then None else Some(now + seconds);
    }

    /** Time passes, until the alarm goes off if it does. */
    method Sleep(d: nat) returns (o: Exit)
      requires Ready(View())
      modifies this`now, this`deadline, this`own, this`fired, Context()
      ensures Ready(View()) && (View(), o) == Wait(old(View()), d)
      ensures handler.Bound? ==> handler.context.SavedSince(old(handler.context.previousAlarm),
                                                            old(handler.context.previousHandler))
    {
      if deadline.None? || deadline.value > now + d {
        now, own := now + d, own + d;
        return Completed;
      }
      own, now := own + (deadline.value - now), deadline.value;
      deadline := None;
      var error;
      match handler {
        case ForeignHandler(id) => error := ForeignSignal(id);
        case Bound(context) => error := context.Handle(this);
      }
      fired := fired + [Fired(error, own, now)];
      o := Threw(error);
    }
  }

  class TimeoutContext {
    const softTimeout: nat
    const hardTimeout: nat
    var previousAlarm: nat
    var previousHandler: Option<Installed>
    var inHardPhase: bool

    constructor (softTimeout: nat, hardTimeout: nat)
      ensures this.softTimeout == softTimeout && this.hardTimeout == hardTimeout
      ensures previousAlarm == 0 && previousHandler == None && !inHardPhase
    {
      this.softTimeout, this.hardTimeout := softTimeout, hardTimeout;
      previousAlarm, previousHandler, inHardPhase := 0, None, false;
    }

    predicate SavedSince(alarm: nat, handler: Option<Installed>)
      reads this
    {
      previousAlarm == alarm && previousHandler == handler
    }

    /** `_handler` */
    method Handle(p: Process) returns (error: Error)
      requires p.deadline.None?
      modifies this`inHardPhase, p`deadline
      ensures inHardPhase
      ensures error == if old(inHardPhase) then HardLimit else SoftLimit
      ensures p.deadline == if old(inHardPhase) then None else Armed(p.now, Max(1, hardTimeout - softTimeout))
    {
      if !inHardPhase {
        inHardPhase := true;
        var remaining := hardTimeout - softTimeout;
        var _ := p.Alarm(if remaining > 1 then remaining else 1);
        error := SoftLimit;
      } else {
        error := HardLimit;
      }
    }

    /** `__enter__` */
    method Enter(p: Process)
      requires Ready(p.View())
      modifies this, p`deadline, p`handler, p`own, p`fired
      ensures if p.eager then p.View() == old(p.View()) && p.handler == old(p.handler)
              else
                && p.View() == Entered(old(p.View()), softTimeout, hardTimeout)
                && p.handler == Bound(this)
                && previousAlarm == old(Remaining(p.View())) && previousHandler == Some(old(p.handler))
    {
      if !p.eager {
        inHardPhase := false;
        previousHandler := Some(p.handler);
        p.handler := Bound(this);
        previousAlarm := p.Alarm(softTimeout);
        p.own, p.fired := 0, [];
      }
    }

    /** `__exit__`; `outer` is what the context found. */
    method Leave(p: Process, ghost outer: Clock)
      requires Ready(p.View()) && Ready(outer)
      requires !p.eager ==> previousAlarm == Remaining(outer) && previousHandler.Some?
      modifies p`deadline, p`handler, p`own, p`fired, p`runs
      ensures if p.eager then p.View() == old(p.View()) && p.handler == old(p.handler)
              else
                && p.handler == old(previousHandler.value)
                && p.View().(handler := outer.handler) == Left(outer, old(p.View()), softTimeout, hardTimeout)
    {
      if !p.eager {
        p.runs := p.runs + [Run(softTimeout, hardTimeout, outer.now, p.fired)];
        p.own, p.fired := outer.own, outer.fired;
        var _ := p.Alarm(0);
        p.handler := previousHandler.value;
        if previousAlarm > 0 {
          var _ := p.Alarm(previousAlarm);
        }
      }
    }
  }

  /** Runs a program with its contexts as objects. */
  method Execute(p: Process, prog: Prog) returns (o: Exit)
    requires Ready(p.View())
    modifies p
    modifies p.Context()
    ensures Ready(p.View()) && p.handler == old(p.handler)
    ensures p.handler.Bound? ==> p.handler.context.SavedSince(old(p.handler.context.previousAlarm),
                                                              old(p.handler.context.previousHandler))
    ensures (p.View(), o) == Eval(p.eager, old(p.View()), prog)
    decreases prog
  {
    match prog
    case Work(d) =>
      o := p.Sleep(d);
    case Raise(e) =>
      o := Threw(e);
    case Seq(first, second) =>
      o := Execute(p, first);
      if o.Completed? {
        o := Execute(p, second);
      }
    case Try(body, caught, recover) =>
      o := Execute(p, body);
      if o.Threw? && Catches(caught, o.error) {
        o := Execute(p, recover);
      }
    case With(soft, hard, body) =>
      ghost var outer := p.View();
      var context := new TimeoutContext(soft, hard);
      context.Enter(p);
      o := Execute(p, body);
      context.Leave(p, outer);
  }
}
