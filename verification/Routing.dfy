/** Where an enqueued task goes, and the second hop of tasks for AWS Batch. */
module Routing {
  import opened Wrappers
  import opened Errors
  import opened Settings
  import opened Tasks

  /** The execution mode the settings select. */
  datatype Mode = Noop | Eager | LocalWorkers | Remote

  datatype DispatchError =
    | ImproperlyConfigured(reason: ConfigurationError)
    | NotABatchQueue(name: string)
    | InvalidDelay(delay: int)
    | NegativeRetries(nRetries: int)
    | Raised(error: Class)

  /** A call of SendMessage, and one of SubmitJob. */
  datatype Send = Send(queueUrl: string, message: Message, delay: int)
  datatype Job = Job(jobQueue: string, jobDefinition: string, message: Message)

  /** `_build_task`, with the overrides popped from the arguments. */
  function BuildTask(name: string, queue: string, kwargs: Kwargs, nRetries: int, delay: int)
    : (r: Result<Task, DispatchError>)
    ensures r.Ok? <==> 0 <= delay <= 900 && 0 <= nRetries
    ensures r.Ok? ==>
              r.value.message == Message(name, kwargs, nRetries) && r.value.delay == delay && r.value.queue == queue
    ensures r.Err? ==> r.error == if 0 <= delay <= 900 then NegativeRetries(nRetries) else InvalidDelay(delay)
  {
    if delay < 0 || delay > MAX_DELAY then Err(InvalidDelay(delay))
    else if nRetries < 0 then Err(NegativeRetries(nRetries))
    else Ok(Task(Message(name, kwargs, nRetries), delay, queue))
  }

  /** The task that carries another one to its Batch queue. */
  function Carrier(task: Task): Result<Task, DispatchError> {
    BuildTask(SUBMIT_BATCH_JOB, DEFAULT_QUEUE, Submission(task.message, task.queue), 0, task.delay)
  }

  lemma AllRead(raw: map<string, RawQueue>)
    requires Accepted(raw)
    ensures forall name | name in raw ::
              ParseQueueConfig(name, raw[name]).Ok? && Says(raw[name], ParseQueueConfig(name, raw[name]).value)
  {
    forall name | name in raw
      ensures ParseQueueConfig(name, raw[name]).Ok? && Says(raw[name], ParseQueueConfig(name, raw[name]).value)
    {
      ParsingReadsTheSetting(name, raw[name]);
    }
  }

  /** Two readings of the same dict are the same. */
  lemma OneReading(raw: RawQueue, q: QueueConfig, q': QueueConfig)
    requires Says(raw, q) && Says(raw, q')
    ensures q == q'
  {
    KindsDiffer(raw);
  }

  lemma KindsDiffer(raw: RawQueue)
    ensures !(SaysSQS(raw) && SaysBatch(raw))
  {
    assert "job_queue_arn" !in {"queue_url"} && "job_queue_arn" in {"job_queue_arn", "job_definition_arn"};
  }

  /** What LAMBDA_TASKS_QUEUES says, once accepted. */
  ghost function QueuesOf(raw: map<string, RawQueue>): (queues: Queues)
    requires Accepted(raw)
    ensures queues.Keys == raw.Keys && DEFAULT_QUEUE in queues && queues[DEFAULT_QUEUE].SQSQueue?
    ensures forall name | name in raw :: Says(raw[name], queues[name])
  {
    AllRead(raw);
    map name | name in raw :: ParseQueueConfig(name, raw[name]).value
  }

  /** There is only one way to read the setting. */
  lemma SameReading(raw: map<string, RawQueue>, queues: Queues)
    requires Accepted(raw) && queues.Keys == raw.Keys
    requires forall name | name in raw :: Says(raw[name], queues[name])
    ensures queues == QueuesOf(raw)
  {
    forall name | name in raw
      ensures queues[name] == QueuesOf(raw)[name]
    {
      OneReading(raw[name], queues[name], QueuesOf(raw)[name]);
    }
  }

  /** How many times a task is routed on before it is sent. */
  ghost function Hops(raw: map<string, RawQueue>, task: Task): nat {
    if Accepted(raw) && task.queue in raw && QueuesOf(raw)[task.queue].BatchQueue? then 2 else 1
  }

  /** What the remote mode sends for a task, if anything. */
  ghost function Sent(raw: map<string, RawQueue>, task: Task): Option<Send> {
    if !Accepted(raw) || task.queue !in raw then None
    else
      match QueuesOf(raw)[task.queue]
      case SQSQueue(url) => Some(Send(url, task.message, task.delay))
      case BatchQueue(_, _) =>
        if Carrier(task).Err? then None
        else Some(Send(QueuesOf(raw)[DEFAULT_QUEUE].queueUrl, Carrier(task).value.message, Carrier(task).value.delay))
  }

  /** The job `submit_batch_job` submits for its arguments, if any. */
  ghost function Submitted(raw: map<string, RawQueue>, inner: Message, batchQueue: string): Option<Job> {
    if !Accepted(raw) || batchQueue !in raw then None
    else
      match QueuesOf(raw)[batchQueue]
      case SQSQueue(_) => None
      case BatchQueue(jobQueue, jobDefinition) => Some(Job(jobQueue, jobDefinition, inner))
  }

  /** A message for a Batch queue, under any accepted settings: one send, to the default SQS
      queue, with the same delay; and its execution submits one job, to the queue the task
      named, carrying the message unchanged. */
  lemma TwoHopsCarryTheMessage(raw: map<string, RawQueue>, task: Task)
    requires Accepted(raw) && task.queue in raw && SaysBatch(raw[task.queue])
    ensures Sent(raw, task).Some? <==> 0 <= task.delay <= 900
    ensures Sent(raw, task).Some? ==>
              var send := Sent(raw, task).value;
              var target := raw[task.queue].fields;
              && send.queueUrl == raw["default"].fields["queue_url"].text
              && send.delay == task.delay
              && send.message == Message("lambda_tasks.tasks.submit_batch_job", Submission(task.message, task.queue), 0)
              && Submitted(raw, send.message.kwargs.inner, send.message.kwargs.batchQueue) ==
                 Some(Job(target["job_queue_arn"].text, target["job_definition_arn"].text, task.message))
  {
    assert QueuesOf(raw)[task.queue].BatchQueue? by {
      ReadsAsSaid(raw, task.queue);
    }
  }

  lemma ReadsAsSaid(raw: map<string, RawQueue>, queue: string)
    requires Accepted(raw) && queue in raw
    ensures QueuesOf(raw)[queue].BatchQueue? <==> SaysBatch(raw[queue])
    ensures QueuesOf(raw)[queue].SQSQueue? <==> SaysSQS(raw[queue])
  {
    assert Says(raw[queue], QueuesOf(raw)[queue]);
    KindsDiffer(raw[queue]);
  }

  /** A message for an SQS queue is sent there as it is. */
  lemma SQSTasksAreSent(raw: map<string, RawQueue>, task: Task)
    requires Accepted(raw) && task.queue in raw && SaysSQS(raw[task.queue])
    ensures Sent(raw, task) == Some(Send(raw[task.queue].fields["queue_url"].text, task.message, task.delay))
  {
    ReadsAsSaid(raw, task.queue);
  }

  /** Where a message is executed in the end. */
  datatype Place = OnLambda(queueUrl: string) | OnBatch(jobQueue: string, jobDefinition: string)

  /** What is sent for a list of tasks, refused ones dropped. */
  ghost function SentAll(raw: map<string, RawQueue>, tasks: seq<Task>): seq<Send> {
    if tasks == [] then []
    else (if Sent(raw, tasks[0]).Some? then [Sent(raw, tasks[0]).value] else []) + SentAll(raw, tasks[1..])
  }

  /** Where a message sent to an SQS queue gets to: a carrier submits its job there, or
      fails; any other message is executed. */
  ghost function ArrivesFrom(raw: map<string, RawQueue>, queueUrl: string, message: Message): seq<(Place, Message)> {
    if !IsCarrier(message) then [(OnLambda(queueUrl), message)]
    else
      match Submitted(raw, message.kwargs.inner, message.kwargs.batchQueue)
      case None => []
      case Some(job) => [(OnBatch(job.jobQueue, job.jobDefinition), job.message)]
  }

  /** Where the messages of a queue get to, once each carrier among them has submitted its job. */
  ghost function Arrivals(raw: map<string, RawQueue>, sends: seq<Send>): seq<(Place, Message)> {
    if sends == [] then []
    else ArrivesFrom(raw, sends[0].queueUrl, sends[0].message) + Arrivals(raw, sends[1..])
  }

  /** Where the settings say a task belongs. */
  ghost function Destination(raw: map<string, RawQueue>, task: Task): seq<(Place, Message)>
    requires Accepted(raw)
  {
    if task.queue !in raw then []
    else
      var fields := raw[task.queue].fields;
      if SaysSQS(raw[task.queue]) then ArrivesFrom(raw, fields["queue_url"].text, task.message)
      else [(OnBatch(fields["job_queue_arn"].text, fields["job_definition_arn"].text), task.message)]
  }

  ghost function Destinations(raw: map<string, RawQueue>, tasks: seq<Task>): seq<(Place, Message)>
    requires Accepted(raw)
  {
    if tasks == [] then [] else Destination(raw, tasks[0]) + Destinations(raw, tasks[1..])
  }

  /** What is sent for a task on a configured queue arrives where the queue says. */
  lemma TaskArrives(raw: map<string, RawQueue>, task: Task)
    requires Accepted(raw) && task.queue in raw && 0 <= task.delay <= 900
    ensures Sent(raw, task).Some? && Sent(raw, task).value.delay == task.delay
    ensures ArrivesFrom(raw, Sent(raw, task).value.queueUrl, Sent(raw, task).value.message) == Destination(raw, task)
  {
    if SaysSQS(raw[task.queue]) {
      SQSTasksAreSent(raw, task);
    } else {
      TwoHopsCarryTheMessage(raw, task);
    }
  }

  /** Every task on a configured queue gets to exactly the place its queue names, once, in
      order and unchanged, whichever of them go through a carrier or are carriers. */
  lemma {:induction false} EveryTaskArrivesOnce(raw: map<string, RawQueue>, tasks: seq<Task>)
    requires Accepted(raw)
    requires forall t | t in tasks :: 0 <= t.delay <= 900
    ensures Arrivals(raw, SentAll(raw, tasks)) == Destinations(raw, tasks)
    decreases |tasks|
  {
    if tasks != [] {
      var task := tasks[0];
      assert task in tasks;
      EveryTaskArrivesOnce(raw, tasks[1..]);
      var rest := SentAll(raw, tasks[1..]);
      if task.queue in raw {
        TaskArrives(raw, task);
        var sent := Sent(raw, task).value;
        assert SentAll(raw, tasks) == [sent] + rest;
        assert ([sent] + rest)[1..] == rest;
      } else {
        assert SentAll(raw, tasks) == [] + rest == rest;
      }
    }
  }

  /** What `_build_task` accepts for a configured queue is never refused by routing, and what
      arrives is the call it was built from. */
  lemma BuiltTasksArrive(raw: map<string, RawQueue>, name: string, queue: string, kwargs: Kwargs, n: nat, delay: int)
    requires Accepted(raw) && queue in raw && BuildTask(name, queue, kwargs, n, delay).Ok?
    requires name != SUBMIT_BATCH_JOB
    ensures
      var task := BuildTask(name, queue, kwargs, n, delay).value;
      && Sent(raw, task).Some? && Sent(raw, task).value.delay == delay
      && var send := Sent(raw, task).value;
      var fields := raw[queue].fields;
      var place := if SaysSQS(raw[queue]) then OnLambda(fields["queue_url"].text)
                   else OnBatch(fields["job_queue_arn"].text, fields["job_definition_arn"].text);
      ArrivesFrom(raw, send.queueUrl, send.message) == [(place, Message(name, kwargs, n))]
  {
    TaskArrives(raw, BuildTask(name, queue, kwargs, n, delay).value);
  }

  /** Routing never goes on: what a task for a Batch queue is carried by is itself sent in
      one hop. */
  lemma CarriersAreSent(raw: map<string, RawQueue>, task: Task)
    requires Accepted(raw) && Carrier(task).Ok?
    ensures Hops(raw, Carrier(task).value) == 1 && Sent(raw, Carrier(task).value).Some?
  {
  }

  /** A retry of an accepted task is never refused by the queue it goes to, and nothing of
      it is lost on the way. */
  lemma RetriesAreSent(cfg: Config, raw: map<string, RawQueue>, name: string, m: Message, jitter: nat)
    requires Accepted(raw) && cfg.queues == QueuesOf(raw) && ValidConfig(cfg)
    requires Resolvable(cfg, name) && m.taskName == name && 1 <= jitter <= 5
    ensures
      var retry := RetryTask(cfg.tasks[name], m, jitter);
      && Sent(raw, retry).Some?
      && var send := Sent(raw, retry).value;
      && 1 <= send.delay <= MAX_DELAY
      && (send.message == retry.message || send.message.kwargs == Submission(retry.message, cfg.tasks[name].queue))
  {
    var retry := RetryTask(cfg.tasks[name], m, jitter);
    assert AcceptedWrapper(cfg.hierarchy, cfg.tasks[name]);
    assert retry.queue in raw;
  }

  // ---- the code ----

  /** A process that enqueues tasks, and the services it calls. */
  class Dispatcher {
    const mode: Mode
    const raw: map<string, RawQueue>    // LAMBDA_TASKS_QUEUES
    var sends: seq<Send>                // SQS
    var jobs: seq<Job>                  // AWS Batch
    var pool: seq<Message>              // the local executor
    var ran: seq<Message>               // executed on the spot

    constructor (mode: Mode, raw: map<string, RawQueue>)
      ensures this.mode == mode && this.raw == raw
      ensures sends == [] && jobs == [] && pool == [] && ran == []
    {
      this.mode, this.raw := mode, raw;
      sends, jobs, pool, ran := [], [], [], [];
    }

    /** `SQSLambdaTask._execute`; `nested` is what an execution on the spot raises, if it
        does. A Batch task is sent by a second call, for its carrier, and there is no third:
        the measure is the number of hops. */
    method Execute(task: Task, nested: Option<Class>) returns (r: Result<(), DispatchError>)
      modifies this`sends, this`pool, this`ran
      ensures mode.Noop? ==> r.Ok? && sends == old(sends) && pool == old(pool) && ran == old(ran)
      ensures mode.Eager? ==>
                && sends == old(sends) && pool == old(pool) && ran == old(ran) + [task.message]
                && r == if nested.Some? then Err(Raised(nested.value)) else Ok(())
      ensures mode.LocalWorkers? ==>
                r.Ok? && sends == old(sends) && pool == old(pool) + [task.message] && ran == old(ran)
      ensures mode.Remote? ==>
                && pool == old(pool) && ran == old(ran)
                && (r.Ok? <==> Sent(raw, task).Some?)
                && sends == if r.Ok? then old(sends) + [Sent(raw, task).value] else old(sends)
      ensures mode.Remote? ==>
                (r.Ok? <==>
                 Accepted(raw) && task.queue in raw && (SaysSQS(raw[task.queue]) || 0 <= task.delay <= 900))
      ensures mode.Remote? && r.Ok? ==>
                && |sends| == |old(sends)| + 1 && old(sends) <= sends
                && sends[|old(sends)|] ==
                   if SaysSQS(raw[task.queue]) then
                     Send(raw[task.queue].fields["queue_url"].text, task.message, task.delay)
                   else
                     Send(raw["default"].fields["queue_url"].text,
                          Message("lambda_tasks.tasks.submit_batch_job", Submission(task.message, task.queue), 0),
                          task.delay)
      ensures mode.Remote? && Accepted(raw) && task.queue !in raw ==> r == Err(ImproperlyConfigured(UnknownQueue))
      ensures mode.Remote? && Accepted(raw) && task.queue in raw && r.Err? ==> r == Err(InvalidDelay(task.delay))
      ensures mode.Remote? && !Accepted(raw) ==> r.Err? && r.error.ImproperlyConfigured?
      decreases Hops(raw, task)
    {
      match mode {
        case Noop =>
          return Ok(());
        case Eager =>
          ran := ran + [task.message];
          return if nested.Some? then Err(Raised(nested.value)) else Ok(());
        case LocalWorkers =>
          pool := pool + [task.message];
          return Ok(());
        case Remote =>
      }
      var queues := ReadQueues(raw);
      if queues.Err? {
        return Err(ImproperlyConfigured(queues.error));
      }
      SameReading(raw, queues.value);
      if task.queue !in queues.value {
        return Err(ImproperlyConfigured(UnknownQueue));
      }
      match queues.value[task.queue] {
        case BatchQueue(_, _) =>
          var carrier := Carrier(task);
          if carrier.Err? {
            return Err(carrier.error);
          }
          CarriersAreSent(raw, task);
          r := Execute(carrier.value, nested);
        case SQSQueue(url) =>
          sends := sends + [Send(url, task.message, task.delay)];
          r := Ok(());
      }
    }

    /** The body of the built-in task `submit_batch_job`. */
    method SubmitBatchJob(inner: Message, batchQueue: string) returns (r: Result<nat, DispatchError>)
      modifies this`jobs
      ensures r.Ok? <==> Submitted(raw, inner, batchQueue).Some?
      ensures r.Ok? <==> Accepted(raw) && batchQueue in raw && SaysBatch(raw[batchQueue])
      ensures r.Ok? ==>
                var fields := raw[batchQueue].fields;
                jobs == old(jobs) + [Job(fields["job_queue_arn"].text, fields["job_definition_arn"].text, inner)]
      ensures jobs == if r.Ok? then old(jobs) + [Submitted(raw, inner, batchQueue).value] else old(jobs)
      ensures !Accepted(raw) ==> r.Err? && r.error.ImproperlyConfigured?
      ensures Accepted(raw) && batchQueue !in raw ==> r == Err(ImproperlyConfigured(UnknownQueue))
      ensures Accepted(raw) && batchQueue in raw && r.Err? ==> r == Err(NotABatchQueue(batchQueue))
    {
      var queues := ReadQueues(raw);
      if queues.Err? {
        return Err(ImproperlyConfigured(queues.error));
      }
      SameReading(raw, queues.value);
      if batchQueue !in queues.value {
        return Err(ImproperlyConfigured(UnknownQueue));
      }
      match queues.value[batchQueue]
      case SQSQueue(_) =>
        r := Err(NotABatchQueue(batchQueue));
      case BatchQueue(jobQueue, jobDefinition) =>
        jobs := jobs + [Job(jobQueue, jobDefinition, inner)];
        r := Ok(|jobs|);
    }
  }
}
