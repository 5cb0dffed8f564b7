/** The entry points as a whole: a cold start, and then records. */
module Entry {
  import opened Wrappers
  import opened Errors
  import opened Tasks
  import opened Protocol
  import opened Sequential
  import opened Executor
  import opened Handler
  import Secrets
  import ColdStart
  import Restarts

  /** Why an invocation raises: its cold start did, or the processing of a record raised
      something that is not an `Exception`. */
  datatype Raise = StartFailed(error: Secrets.LoadError) | RecordFailed(kind: Class)

  /** One attempt at the cold start; a container that is stuck stays so. */
  method Start(c: ColdStart.Container, w: Secrets.Weather)
    returns (start: Result<(), Secrets.LoadError>, ghost course: ColdStart.Course)
    requires c.Valid()
    modifies c
    ensures c.Valid()
    ensures ColdStart.Started(c.vault, w, old(c.View()), start.Ok?, course, c.View())
    ensures old(Restarts.IsStuck(c.View())) ==> start.Err? && Restarts.IsStuck(c.View())
  {
    ghost var m := c.View();
    start, course := c.PerformColdStart(w);
    if Restarts.IsStuck(m) {
      Restarts.StuckFails(c.vault, w, m, start.Ok?, course, c.View());
    }
  }

  /** `handler`. An invocation whose cold start fails processes no record; in a container
      that an earlier attempt left stuck, that is every invocation. */
  method Invoke(c: ColdStart.Container, p: Process, w: Secrets.Weather, batch: seq<Delivery>,
                script: Message -> World, ghost alone: bool)
    returns (r: Result<seq<Id>, Raise>, ghost course: ColdStart.Course, ghost endings: seq<Ending>,
             ghost runs: seq<Option<AttemptId>>, ghost trace: seq<Label>)
    requires c.Valid() && p.Valid() && FromQueue(p, batch)
    requires p.eager ==> forall m: Message :: Childless(script(m).result)
    modifies c, p
    ensures c.Valid() && p.Valid()
    // The cold start decides whether anything is processed.
    ensures
      var started := !(r.Err? && r.error.StartFailed?);
      && ColdStart.Started(c.vault, w, old(c.View()), started, course, c.View())
      && (!started ==> p.View() == old(p.View()) && p.Snapshot() == old(p.Snapshot()) && endings == [])
    ensures old(Restarts.IsStuck(c.View())) ==> r.Err? && r.error.StartFailed? && Restarts.IsStuck(c.View())
    // Then every record is, unless one ends the invocation.
    ensures Leads(p.cfg, old(p.View()), trace, p.View())
    ensures AllHandled(p.View(), p.eager, batch, runs, endings)
    ensures r.Ok? ==>
              && |endings| == |batch| && r.value == FailedIds(batch, endings)
              && forall e | e in endings && e.Raised? :: IsSubclass(p.cfg.hierarchy, e.error, EXCEPTION)
    ensures r.Err? && r.error.RecordFailed? ==>
              && endings != [] && endings[|endings| - 1] == Raised(r.error.kind)
              && !IsSubclass(p.cfg.hierarchy, r.error.kind, EXCEPTION)
  {
    endings, runs, trace := [], [], [];
    var start;
    start, course := Start(c, w);
    if start.Err? {
      return Err(StartFailed(start.error)), course, endings, runs, trace;
    }
    var report;
    report, endings, runs, trace := Handle(p, batch, script, alone);
    r := if report.Died? then Err(RecordFailed(report.error)) else Ok(report.ids);
  }

  /** `main`, the Batch entry point: exit code 0 exactly when there was a message and its
      processing did not raise, so a task that used up its retries fails its job. Without a
      message there is no cold start either. */
  method RunBatchJob(c: ColdStart.Container, p: Process, w: Secrets.Weather, job: Option<Delivery>,
                     script: Message -> World, ghost alone: bool)
    returns (code: Result<int, Raise>, ghost endings: seq<Ending>, ghost runs: seq<Option<AttemptId>>)
    requires c.Valid() && p.Valid() && (job.Some? ==> FromQueue(p, [job.value]))
    requires p.eager ==> forall m: Message :: Childless(script(m).result)
    modifies c, p
    ensures c.Valid() && p.Valid()
    ensures job.None? ==> code == Ok(1) && p.View() == old(p.View()) && c.View() == old(c.View())
    ensures job.Some? && code.Err? && code.error.StartFailed? ==> p.View() == old(p.View()) && endings == []
    ensures job.Some? && !(code.Err? && code.error.StartFailed?) ==>
              && |endings| == 1 == |runs|
              && Handled(p.View(), p.eager, job.value, runs[0], endings[0])
              && (code == Ok(0) <==> !endings[0].Raised?)
              && (code == Ok(1) <==> endings[0].Raised? && IsSubclass(p.cfg.hierarchy, endings[0].error, EXCEPTION))
  {
    endings, runs := [], [];
    if job.None? {
      return Ok(1), endings, runs;
    }
    var r, _, ends, attempts, _ := Invoke(c, p, w, [job.value], script, alone);
    endings, runs := ends, attempts;
    match r
    case Err(error) => code := Err(error);
    case Ok(ids) =>
      assert endings[0] in endings;
      code := Ok(if ids != [] then 1 else 0);
  }
}
