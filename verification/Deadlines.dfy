/** Bodies under their alarms: what makes a running body keep to its hard deadline. */
module Deadlines {
  import opened Wrappers
  import opened Errors
  import opened Settings
  import opened Tasks
  import opened Protocol
  import opened Locks
  import opened Overlap
  import Alarms = Timeouts

  /** The soft and hard timeouts of a task. */
  function LimitsOf(cfg: Config, name: string): (limits: (int, int))
    requires Resolvable(cfg, name)
    ensures 0 < limits.0 < limits.1 == HardTimeout(cfg, name)
  {
    ResolvedTimeouts(cfg.queues, cfg.tasks[name].queue, cfg.tasks[name].timeouts, cfg.defaults).value
  }

  /** When a body that began at some time, with a given program, is over. */
  function OverAt(cfg: Config, name: string, began: nat, body: Alarms.Prog): nat
    requires Resolvable(cfg, name)
  {
    var (soft, hard) := LimitsOf(cfg, name);
    var idle := Alarms.Clock(began, None, Alarms.Foreign(0), 0, [], []);
    Alarms.Eval(false, Alarms.Entered(idle, soft, hard), body).0.now
  }

  /** Every running body of some tasks is one that nests no context and never catches the
      hard signal, and its program is not over yet. */
  ghost predicate RunsProgram(cfg: Config, s: State, progs: map<AttemptId, Alarms.Prog>, names: set<string>) {
    forall a | InBody(s, a) && s.attempts[a].started.Some? && s.attempts[a].message.taskName in names &&
               Resolvable(cfg, s.attempts[a].message.taskName) ::
      && a in progs && Alarms.NoContexts(progs[a]) && Alarms.HonoursHard(progs[a])
      && s.now <= OverAt(cfg, s.attempts[a].message.taskName, s.attempts[a].started.value, progs[a])
  }

  /** A run in which time does not pass the end of any running program of these tasks. */
  ghost predicate TimeWaits(cfg: Config, s: State, ls: seq<Label>, progs: map<AttemptId, Alarms.Prog>,
                            names: set<string>)
    requires Legal(cfg, s, ls)
    decreases |ls|
  {
    ls == [] ||
    (&& (ls[0].Tick? ==> RunsProgram(cfg, Apply(cfg, s, ls[0]), progs, names))
     && TimeWaits(cfg, Apply(cfg, s, ls[0]), ls[1..], progs, names))
  }

  lemma OverByHardDeadline(cfg: Config, name: string, began: nat, body: Alarms.Prog)
    requires Resolvable(cfg, name) && Alarms.NoContexts(body) && Alarms.HonoursHard(body)
    ensures OverAt(cfg, name, began, body) <= began + HardTimeout(cfg, name)
  {
    var (soft, hard) := LimitsOf(cfg, name);
    Alarms.FlatIsWellTimed(body);
    Alarms.HardLimitIsABound(Alarms.Clock(began, None, Alarms.Foreign(0), 0, [], []), soft, hard, body);
  }

  lemma ProgramsOnTime(cfg: Config, s: State, progs: map<AttemptId, Alarms.Prog>, names: set<string>)
    requires RunsProgram(cfg, s, progs, names)
    ensures WithinDeadlines(cfg, s, names)
  {
    forall a | a in s.attempts && s.attempts[a].message.taskName in names
      ensures OnTime(cfg, s, a)
    {
      var name := s.attempts[a].message.taskName;
      if InBody(s, a) && s.attempts[a].started.Some? && Resolvable(cfg, name) {
        OverByHardDeadline(cfg, name, s.attempts[a].started.value, progs[a]);
      }
    }
  }

  lemma RecordingIsNoBody(cfg: Config, s: State, a: AttemptId, t: Attempt, fault: Option<Class>)
    ensures !DoGetOrCreate(cfg, s, a, t, fault).attempt.phase.Body?
  {
  }

  lemma AcquiringIsNoBody(s: State, a: AttemptId, t: Attempt, singleton: bool, hard: int, fault: Option<Class>)
    ensures !DoAcquire(s, a, t, singleton, hard, fault).attempt.phase.Body?
  {
  }

  lemma EntersNow(cfg: Config, s: State, a: AttemptId, t: Attempt, x: Action)
    requires Can(cfg, s, t, x)
    ensures
      var u := MoveOf(cfg, s, a, t, x).attempt;
      u.phase.Body? ==> u.started == Some(s.now) || (t.phase.Body? && u.started == t.started)
  {
    match x
    case GetOrCreate(fault) => RecordingIsNoBody(cfg, s, a, t, fault);
    case Acquire(fault) =>
      var name := t.message.taskName;
      AcquiringIsNoBody(s, a, t, cfg.tasks[name].singleton, HardTimeout(cfg, name), fault);
    case Start(_) | SubmitJob(_) =>
    case Save(_) | Requeue(_, _) | RequeueFails | Crash => EndingStaysPast(cfg, s, a, t, x);
    case _ => LeavingStaysPast(cfg, s, a, t, x);
  }

  /** A step that takes no time brings no body past its deadline. */
  lemma StepStaysOnTime(cfg: Config, s: State, l: Label, names: set<string>)
    requires Enabled(cfg, s, l) && !l.Tick? && WithinDeadlines(cfg, s, names)
    ensures WithinDeadlines(cfg, Apply(cfg, s, l), names)
  {
    var u := Apply(cfg, s, l);
    forall a | a in u.attempts && u.attempts[a].message.taskName in names
      ensures OnTime(cfg, u, a)
    {
      if l.Act? && l.a == a && InBody(u, a) {
        EntersNow(cfg, s, a, s.attempts[a], l.action);
      }
      assert a in s.attempts ==> OnTime(cfg, s, a);
    }
  }

  /** Along any run, whatever program each body is: if none of them nests a context or catches
      the hard signal, no body passes its hard deadline. This is the hypothesis under which
      leases and bodies of singletons are compared. */
  lemma {:induction false} ProgramsKeepDeadlines(cfg: Config, s: State, ls: seq<Label>,
                                                 progs: map<AttemptId, Alarms.Prog>, names: set<string>)
    requires Legal(cfg, s, ls) && WithinDeadlines(cfg, s, names) && TimeWaits(cfg, s, ls, progs, names)
    ensures AlarmsHonoured(cfg, s, ls, names)
    decreases |ls|
  {
    if ls != [] {
      if ls[0].Tick? {
        ProgramsOnTime(cfg, Apply(cfg, s, ls[0]), progs, names);
      } else {
        StepStaysOnTime(cfg, s, ls[0], names);
      }
      ProgramsKeepDeadlines(cfg, Apply(cfg, s, ls[0]), ls[1..], progs, names);
    }
  }
}
