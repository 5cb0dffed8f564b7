/** Queue settings and timeout resolution. */
module Settings {
  import opened Wrappers

  const MAX_DELAY := 900
  const MAX_TIMEOUT := 900
  const MAX_BATCH_TIMEOUT := 3600
  const DEFAULT_QUEUE := "default"

  datatype QueueConfig =
    | SQSQueue(queueUrl: string)
    | BatchQueue(jobQueueArn: string, jobDefinitionArn: string)

  type Queues = map<string, QueueConfig>

  /** A value written by the project in LAMBDA_TASKS_QUEUES. */
  datatype RawValue = Text(text: string) | OtherValue
  datatype RawQueue = NotADict | Dict(fields: map<string, RawValue>)

  datatype ConfigurationError =
    | QueuesMissing
    | DefaultMissing
    | MalformedQueue(name: string)
    | DefaultNotSQS
    | UnknownQueue
    | NotPositive
    | AboveMaximum
    | SoftNotBelowHard

  predicate TextFields(fields: map<string, RawValue>, names: set<string>) {
    fields.Keys == names && forall n | n in names :: fields[n].Text?
  }

  function ParseQueueConfig(name: string, raw: RawQueue): Result<QueueConfig, ConfigurationError> {
    match raw
    case NotADict => Err(MalformedQueue(name))
    case Dict(fields) =>
      if TextFields(fields, {"queue_url"}) then
        Ok(SQSQueue(fields["queue_url"].text))
      else if TextFields(fields, {"job_queue_arn", "job_definition_arn"}) then
        Ok(BatchQueue(fields["job_queue_arn"].text, fields["job_definition_arn"].text))
      else
        Err(MalformedQueue(name))
  }

  // ---- what the raw setting says ----

  /** A dict with the one key of an SQS queue. */
  predicate SaysSQS(raw: RawQueue) {
    raw.Dict? && raw.fields.Keys == {"queue_url"} && raw.fields["queue_url"].Text?
  }

  /** A dict with the two keys of a Batch queue. */
  predicate SaysBatch(raw: RawQueue) {
    && raw.Dict? && raw.fields.Keys == {"job_queue_arn", "job_definition_arn"}
    && raw.fields["job_queue_arn"].Text? && raw.fields["job_definition_arn"].Text?
  }

  /** The queue has what the dict gives it, each value under its own name. */
  predicate Says(raw: RawQueue, config: QueueConfig) {
    match config
    case SQSQueue(url) => SaysSQS(raw) && url == raw.fields["queue_url"].text
    case BatchQueue(jobQueue, jobDefinition) =>
      && SaysBatch(raw)
      && jobQueue == raw.fields["job_queue_arn"].text && jobDefinition == raw.fields["job_definition_arn"].text
  }

  /** A dict is read as exactly what it says, and refused if it says neither. */
  lemma ParsingReadsTheSetting(name: string, raw: RawQueue)
    ensures ParseQueueConfig(name, raw).Ok? <==> SaysSQS(raw) || SaysBatch(raw)
    ensures forall config :: ParseQueueConfig(name, raw) == Ok(config) <==> Says(raw, config)
    ensures ParseQueueConfig(name, raw).Err? ==> ParseQueueConfig(name, raw).error == MalformedQueue(name)
  {
    if raw.Dict? {
      assert "job_queue_arn" in {"job_queue_arn", "job_definition_arn"};
      if raw.fields.Keys == {"queue_url"} {
        assert "job_queue_arn" !in raw.fields;
      }
    }
  }

  /** What a usable LAMBDA_TASKS_QUEUES looks like. */
  ghost predicate Accepted(queues: map<string, RawQueue>) {
    && DEFAULT_QUEUE in queues && SaysSQS(queues[DEFAULT_QUEUE])
    && forall name | name in queues :: SaysSQS(queues[name]) || SaysBatch(queues[name])
  }

  /** The `QUEUES` property: the whole setting is validated on every read. */
  method ReadQueues(queues: map<string, RawQueue>) returns (r: Result<Queues, ConfigurationError>)
    ensures r.Ok? <==> Accepted(queues)
    ensures r.Ok? ==>
              && r.value.Keys == queues.Keys
              && DEFAULT_QUEUE in r.value && r.value[DEFAULT_QUEUE].SQSQueue?
              && forall name | name in queues :: Says(queues[name], r.value[name])
    ensures r == Err(QueuesMissing) <==> queues == map[]
    ensures r == Err(DefaultMissing) <==> queues != map[] && DEFAULT_QUEUE !in queues
    ensures r.Err? && r.error != QueuesMissing && r.error != DefaultMissing ==>
              if r.error == DefaultNotSQS then
                && SaysBatch(queues[DEFAULT_QUEUE])
                && forall name | name in queues :: SaysSQS(queues[name]) || SaysBatch(queues[name])
              else
                && r.error.MalformedQueue? && r.error.name in queues
                && !SaysSQS(queues[r.error.name]) && !SaysBatch(queues[r.error.name])
  {
    if queues == map[] {
      return Err(QueuesMissing);
    }
    if DEFAULT_QUEUE !in queues {
      return Err(DefaultMissing);
    }
    var parsed: Queues := map[];
    var todo := queues.Keys;
    while todo != {}
      invariant todo <= queues.Keys
      invariant parsed.Keys == queues.Keys - todo
      invariant forall name | name in parsed :: Says(queues[name], parsed[name])
      decreases |todo|
    {
      var name :| name in todo;
      var config := ParseQueueConfig(name, queues[name]);
      ParsingReadsTheSetting(name, queues[name]);
      if config.Err? {
        return Err(config.error);
      }
      parsed := parsed[name := config.value];
      todo := todo - {name};
    }
    if !parsed[DEFAULT_QUEUE].SQSQueue? {
      return Err(DefaultNotSQS);
    }
    return Ok(parsed);
  }

  function QueueMaxTimeout(queues: Queues, queue: string): Result<int, ConfigurationError> {
    if queue !in queues then Err(UnknownQueue)
    else if queues[queue].BatchQueue? then Ok(MAX_BATCH_TIMEOUT)
    else Ok(MAX_TIMEOUT)
  }

  /** The timeouts a task was decorated with, and the defaults in settings. */
  datatype Timeouts = Timeouts(soft: Option<int>, hard: Option<int>)
  datatype Defaults = Defaults(soft: int, hard: int)

  /** `_validate_timeouts`, at decoration time. */
  predicate AcceptsTimeouts(t: Timeouts) {
    && (t.soft.Some? ==> t.soft.value > 0)
    && (t.hard.Some? ==> t.hard.value > 0)
    && (t.soft.Some? && t.hard.Some? ==> t.soft.value < t.hard.value)
  }

  function Or(o: Option<int>, d: int): int {
    if o.Some? then o.value else d
  }

  /** The checks `resolved_timeouts` makes on one of the two values. */
  function CheckTimeout(source: Option<int>, value: int, maximum: int): Option<ConfigurationError> {
    if source.None? && value <= 0 then Some(NotPositive)
    else if source.None? && value > maximum then Some(AboveMaximum)
    else if source.Some? && value > maximum then Some(AboveMaximum)
    else None
  }

  /** For a decorated task, resolution succeeds exactly on an ordered pair within the
      queue's limit: the decorator's checks and the late ones leave no gap between them. */
  function ResolvedTimeouts(queues: Queues, queue: string, t: Timeouts, d: Defaults)
    : (r: Result<(int, int), ConfigurationError>)
    requires AcceptsTimeouts(t)
    ensures
      var soft := if t.soft.Some? then t.soft.value else d.soft;
      var hard := if t.hard.Some? then t.hard.value else d.hard;
      var most := if queue in queues && queues[queue].BatchQueue? then 3600 else 900;
      && (r.Ok? <==> queue in queues && 0 < soft < hard <= most)
      && (r.Ok? ==> r.value == (soft, hard))
      && (r == Err(UnknownQueue) <==> queue !in queues)
      && (r == Err(NotPositive) <==> queue in queues && (soft <= 0 || (soft <= most && hard <= 0)))
      && (r == Err(AboveMaximum) <==> queue in queues && (soft > most || (0 < soft && hard > most)))
      && (r == Err(SoftNotBelowHard) <==> queue in queues && 0 < hard <= soft <= most)
  {
    var soft := Or(t.soft, d.soft);
    var hard := Or(t.hard, d.hard);
    var maximum := QueueMaxTimeout(queues, queue);
    if maximum.Err? then Err(maximum.error)
    else if CheckTimeout(t.soft, soft, maximum.value).Some? then
      Err(CheckTimeout(t.soft, soft, maximum.value).value)
    else if CheckTimeout(t.hard, hard, maximum.value).Some? then
      Err(CheckTimeout(t.hard, hard, maximum.value).value)
    else if soft >= hard then Err(SoftNotBelowHard)
    else Ok((soft, hard))
  }
}
