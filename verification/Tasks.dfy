/** Messages, task wrappers, records, and how an attempt's outcome is judged. */
module Tasks {
  import opened Wrappers
  import opened Errors
  import opened Settings

  /** A message id, drawn by the queue (or `uuid4`) and never reused. */
  type Id = nat

  /** Keyword arguments: plain ones, or those of `submit_batch_job`, whose
      `message_json` is the encoding of another message. */
  datatype Kwargs =
    | Plain(args: map<string, int>)
    | Submission(inner: Message, batchQueue: string)

  datatype Message = Message(taskName: string, kwargs: Kwargs, nRetries: nat)

  const SUBMIT_BATCH_JOB := "lambda_tasks.tasks.submit_batch_job"

  /** A message whose execution submits another one to AWS Batch. */
  predicate IsCarrier(m: Message) {
    m.taskName == SUBMIT_BATCH_JOB && m.kwargs.Submission?
  }

  /** An `SQSLambdaTask`: a message with its delay and queue. */
  datatype Task = Task(message: Message, delay: int, queue: string)

  /** What `LambdaTaskWrapper` keeps of a decorated function. */
  datatype Wrapper = Wrapper(
    queue: string,
    timeouts: Timeouts,
    retryOn: seq<Class>,
    retryDelay: int,
    singleton: bool,
    retrySingleton: bool)

  datatype Config = Config(
    tasks: map<string, Wrapper>,
    hierarchy: Hierarchy,
    queues: Queues,
    defaults: Defaults,
    maxRetries: int)

  /** What the decorator accepts (`_validate_timeouts`, `_validate_retry_delay`,
      `_validate_singleton`). */
  predicate AcceptedWrapper(h: Hierarchy, w: Wrapper) {
    && AcceptsTimeouts(w.timeouts)
    && 0 <= w.retryDelay <= MAX_DELAY
    && (w.retryDelay != 0 ==> w.retryOn != [])
    && AcceptsRetryOn(h, w.singleton, w.retryOn)
  }

  ghost predicate ValidConfig(cfg: Config) {
    forall name | name in cfg.tasks :: AcceptedWrapper(cfg.hierarchy, cfg.tasks[name])
  }

  /** The task imports as a wrapper and its timeouts resolve. */
  predicate Resolvable(cfg: Config, name: string) {
    && name in cfg.tasks
    && AcceptsTimeouts(cfg.tasks[name].timeouts)
    && ResolvedTimeouts(cfg.queues, cfg.tasks[name].queue, cfg.tasks[name].timeouts, cfg.defaults).Ok?
  }

  function HardTimeout(cfg: Config, name: string): (hard: int)
    requires Resolvable(cfg, name)
    ensures 1 < hard <= MAX_BATCH_TIMEOUT
  {
    ResolvedTimeouts(cfg.queues, cfg.tasks[name].queue, cfg.tasks[name].timeouts, cfg.defaults).value.1
  }

  datatype Status = Running | Succeeded | Failed | Retried

  /** A `TaskRecord` row. The traceback is represented by the class it reports. */
  datatype Record = Record(
    message: Message,
    status: Status,
    startTime: nat,
    endTime: Option<nat>,
    result: Option<int>,
    traceback: Option<Class>)

  function NewRecord(m: Message, now: nat): Record {
    Record(m, Running, now, None, None, None)
  }

  /** How the block guarded by lock, transaction and timeouts came out. */
  datatype Outcome = Value(value: int) | Error(error: Class)

  datatype Verdict =
    | Clean        // no error
    | Ignored      // lock contention on a singleton that does not retry
    | Retry
    | Exhausted    // would retry, but the limit is reached
    | Failure
    | Escaped      // not an `Exception`: no handler catches it

  function EffectiveRetryOn(w: Wrapper): seq<Class> {
    if w.singleton && w.retrySingleton then [LOCK_ERROR] + w.retryOn else w.retryOn
  }

  function Judge(cfg: Config, w: Wrapper, nRetries: nat, o: Outcome): Verdict {
    if o.Value? then Clean
    else if !IsSubclass(cfg.hierarchy, o.error, EXCEPTION) then Escaped
    else if w.singleton && !w.retrySingleton && IsSubclass(cfg.hierarchy, o.error, LOCK_ERROR) then Ignored
    else if Matches(cfg.hierarchy, o.error, EffectiveRetryOn(w)) then
      if nRetries >= cfg.maxRetries then Exhausted else Retry
    else Failure
  }

  /** The same tests with `retry_on` asked before lock contention. */
  function JudgeRetryFirst(cfg: Config, w: Wrapper, nRetries: nat, o: Outcome): Verdict {
    if o.Value? then Clean
    else if !IsSubclass(cfg.hierarchy, o.error, EXCEPTION) then Escaped
    else if Matches(cfg.hierarchy, o.error, EffectiveRetryOn(w)) then
      if nRetries >= cfg.maxRetries then Exhausted else Retry
    else if w.singleton && !w.retrySingleton && IsSubclass(cfg.hierarchy, o.error, LOCK_ERROR) then Ignored
    else Failure
  }

  lemma BranchOrderIrrelevant(cfg: Config, w: Wrapper, nRetries: nat, o: Outcome)
    requires AcceptedWrapper(cfg.hierarchy, w) && LockErrorsLinear(cfg.hierarchy)
    ensures Judge(cfg, w, nRetries, o) == JudgeRetryFirst(cfg, w, nRetries, o)
  {
    LockAndRetryTestsExclusive(cfg.hierarchy);
    if o.Error? {
      assert AcceptsRetryOn(cfg.hierarchy, w.singleton, w.retryOn);
    }
  }

  /** Every outcome of every accepted wrapper is judged the same in whichever order the two
      tests are made. */
  ghost predicate OrderIrrelevant(cfg: Config) {
    forall w: Wrapper, n: nat, o: Outcome | AcceptedWrapper(cfg.hierarchy, w) ::
      Judge(cfg, w, n, o) == JudgeRetryFirst(cfg, w, n, o)
  }

  /** A wrapper whose errors of class `e` are judged differently. */
  lemma OrderMatters(cfg: Config, e: Class, t: Class)
    requires e in cfg.hierarchy && LOCK_ERROR in cfg.hierarchy[e] && t in cfg.hierarchy[e]
    requires IsSubclass(cfg.hierarchy, e, EXCEPTION) && !Comparable(cfg.hierarchy, t, LOCK_ERROR)
    ensures !OrderIrrelevant(cfg)
  {
    var w := Wrapper(DEFAULT_QUEUE, Timeouts(None, None), [t], 0, true, false);
    assert AcceptedWrapper(cfg.hierarchy, w);
    assert t in EffectiveRetryOn(w) && IsSubclass(cfg.hierarchy, e, t);
    assert Judge(cfg, w, 0, Error(e)) == Ignored;
    assert JudgeRetryFirst(cfg, w, 0, Error(e)) != Ignored;
  }

  /** That is so if and only if the kinds of LockError bring in no class unrelated to it. */
  lemma OrderIrrelevantIffLinear(cfg: Config)
    requires WellFormed(cfg.hierarchy) && IsSubclass(cfg.hierarchy, LOCK_ERROR, EXCEPTION)
    ensures OrderIrrelevant(cfg) <==> LockErrorsLinear(cfg.hierarchy)
  {
    if LockErrorsLinear(cfg.hierarchy) {
      forall w: Wrapper, n: nat, o: Outcome | AcceptedWrapper(cfg.hierarchy, w)
        ensures Judge(cfg, w, n, o) == JudgeRetryFirst(cfg, w, n, o)
      {
        BranchOrderIrrelevant(cfg, w, n, o);
      }
    } else {
      var e, t :| e in cfg.hierarchy && LOCK_ERROR in cfg.hierarchy[e] && t in cfg.hierarchy[e] &&
                  !Comparable(cfg.hierarchy, t, LOCK_ERROR);
      OrderMatters(cfg, e, t);
    }
  }

  // ---- what an outcome's verdict depends on ----

  /** The error is one its wrapper retries: a listed one, or lock contention of a singleton. */
  predicate Retriable(h: Hierarchy, w: Wrapper, e: Class) {
    Matches(h, e, w.retryOn) || (w.singleton && w.retrySingleton && IsSubclass(h, e, LOCK_ERROR))
  }

  lemma EffectiveMatches(h: Hierarchy, w: Wrapper, e: Class)
    ensures Matches(h, e, EffectiveRetryOn(w)) <==> Retriable(h, w, e)
  {
    if w.singleton && w.retrySingleton {
      var effective := [LOCK_ERROR] + w.retryOn;
      if IsSubclass(h, e, LOCK_ERROR) {
        assert LOCK_ERROR in effective;
      }
      if Matches(h, e, w.retryOn) {
        var t :| t in w.retryOn && IsSubclass(h, e, t);
        assert t in effective;
      }
    }
  }

  /** When each verdict is reached, under a hierarchy in which the tests exclude each other:
      the counter decides between retrying and giving up, and nothing else. */
  lemma VerdictByCause(cfg: Config, w: Wrapper, n: nat, e: Class)
    requires AcceptedWrapper(cfg.hierarchy, w) && LockErrorsLinear(cfg.hierarchy)
    ensures
      var h := cfg.hierarchy;
      var v := Judge(cfg, w, n, Error(e));
      && (v.Escaped? <==> !IsSubclass(h, e, EXCEPTION))
      && (v.Retry? <==> IsSubclass(h, e, EXCEPTION) && Retriable(h, w, e) && n < cfg.maxRetries)
      && (v.Exhausted? <==> IsSubclass(h, e, EXCEPTION) && Retriable(h, w, e) && n >= cfg.maxRetries)
      && (v.Ignored? <==> IsSubclass(h, e, EXCEPTION) && IsSubclass(h, e, LOCK_ERROR) &&
                          w.singleton && !w.retrySingleton)
      && (v.Failure? <==> IsSubclass(h, e, EXCEPTION) && !Retriable(h, w, e) &&
                          !(w.singleton && IsSubclass(h, e, LOCK_ERROR)))
  {
    EffectiveMatches(cfg.hierarchy, w, e);
    LockAndRetryTestsExclusive(cfg.hierarchy);
    assert AcceptsRetryOn(cfg.hierarchy, w.singleton, w.retryOn);
  }

  function StatusOf(v: Verdict): Status
    requires !v.Escaped?
  {
    match v
    case Clean | Ignored => Succeeded
    case Retry => Retried
    case Exhausted | Failure => Failed
  }

  /** The row after `record.save(update_fields=...)`: only the named fields change. */
  function Conclude(row: Record, v: Verdict, o: Outcome, now: nat): Record
    requires !v.Escaped? && (v.Clean? <==> o.Value?)
  {
    if o.Value? then
      row.(status := StatusOf(v), result := Some(o.value), endTime := Some(now))
    else
      row.(status := StatusOf(v), traceback := Some(o.error), endTime := Some(now))
  }

  // ---- what a row says ----

  /** The error is contention that its wrapper takes for a success. */
  predicate IsIgnored(h: Hierarchy, w: Wrapper, e: Class) {
    w.singleton && !w.retrySingleton && IsSubclass(h, e, LOCK_ERROR)
  }

  /** The row shows an outcome, by its cause and not by the verdict: SUCCEEDED for a value and
      for ignored contention, RETRIED for an error that is retried below the limit, FAILED for
      every other; and with it the value or the error, and when it was recorded. */
  predicate Shows(cfg: Config, m: Message, row: Record, o: Outcome, at: nat)
    requires m.taskName in cfg.tasks
  {
    var w := cfg.tasks[m.taskName];
    && row.endTime == Some(at)
    && match o
       case Value(value) => row.status == Succeeded && row.result == Some(value)
       case Error(e) =>
         && row.traceback == Some(e)
         && row.status == if IsIgnored(cfg.hierarchy, w, e) then Succeeded
                          else if Retriable(cfg.hierarchy, w, e) && m.nRetries < cfg.maxRetries then Retried
                          else Failed
  }

  /** Whatever the verdict is called, the row it is written to shows the outcome, and keeps
      all else. */
  lemma ConcludedShows(cfg: Config, m: Message, row: Record, o: Outcome, at: nat)
    requires m.taskName in cfg.tasks && (o.Error? ==> IsSubclass(cfg.hierarchy, o.error, EXCEPTION))
    ensures
      var v := Judge(cfg, cfg.tasks[m.taskName], m.nRetries, o);
      !v.Escaped? && (v.Clean? <==> o.Value?) &&
      var row' := Conclude(row, v, o, at);
      && Shows(cfg, m, row', o, at)
      && row'.message == row.message && row'.startTime == row.startTime
      && (o.Value? ==> row'.traceback == row.traceback) && (o.Error? ==> row'.result == row.result)
  {
    if o.Error? {
      EffectiveMatches(cfg.hierarchy, cfg.tasks[m.taskName], o.error);
    }
  }

  /** A row that was just created. */
  predicate IsNew(row: Record, m: Message, now: nat) {
    && row.message == m && row.status == Running && row.startTime == now
    && row.endTime.None? && row.result.None? && row.traceback.None?
  }

  /** `min(wrapper.retry_delay + round(random.uniform(1, 5)), MAX_DELAY)`. */
  function RetryDelay(w: Wrapper, jitter: nat): (delay: int)
    ensures delay <= w.retryDelay + jitter && delay <= 900
    ensures delay == w.retryDelay + jitter || delay == 900
  {
    if w.retryDelay + jitter < MAX_DELAY then w.retryDelay + jitter else MAX_DELAY
  }

  /** The task an attempt enqueues to retry itself. */
  function RetryTask(w: Wrapper, m: Message, jitter: nat): Task {
    Task(m.(nRetries := m.nRetries + 1), RetryDelay(w, jitter), w.queue)
  }
}
