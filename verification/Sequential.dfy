/** The executor run alone, one message at a time: what one delivery does as a whole, and
    the two ways of following up retries, nested (eager mode) and through the queue. Tasks
    here enqueue nothing themselves and no store operation raises. */
module Sequential {
  import opened Wrappers
  import opened Errors
  import opened Settings
  import opened Tasks
  import opened Protocol

  const MAX_RETRIES_EXCEEDED: Class := "MaxRetriesExceededError"
  const CONFIGURATION_ERROR: Class := "ConfigurationError"

  /** How `execute_immediately` ends for its caller. */
  datatype Ending = Skipped | Returned | Raised(error: Class)

  /** What an executing process sees. Ids are drawn in order from `nextId`. */
  datatype Store = Store(
    now: nat,
    records: map<Id, Record>,
    locks: map<string, Lease>,
    nextId: Id,
    queue: seq<(Id, Message)>,
    jobs: seq<(Id, Message)>)   // Batch jobs, with the ids they run under

  /** How a task's body behaves, by the message it is run for. */
  type Script = Message -> Outcome

  predicate Contended(cfg: Config, st: Store, m: Message) {
    m.taskName in cfg.tasks && cfg.tasks[m.taskName].singleton && !Free(st.locks, m.taskName, st.now)
  }

  function OutcomeOf(cfg: Config, st: Store, m: Message, script: Script): Outcome {
    if Contended(cfg, st, m) then Error(LOCK_ERROR) else script(m)
  }

  function VerdictFor(cfg: Config, st: Store, m: Message, script: Script): Verdict
    requires m.taskName in cfg.tasks
  {
    VerdictOf(cfg, m, OutcomeOf(cfg, st, m, script))
  }

  /** The locks after the attempt: a stale lock it displaced is gone. */
  function LocksAfter(cfg: Config, st: Store, m: Message): map<string, Lease> {
    if m.taskName in cfg.tasks && cfg.tasks[m.taskName].singleton && Free(st.locks, m.taskName, st.now)
    then st.locks - {m.taskName} else st.locks
  }

  /** The delivery is turned away: unresolvable task, or a record that already exists. */
  predicate Rejected(cfg: Config, st: Store, id: Id, m: Message) {
    !Resolvable(cfg, m.taskName) || id in st.records
  }

  /** The body is that of a carrier, and submits its job. */
  predicate Submits(cfg: Config, st: Store, m: Message, script: Script) {
    IsCarrier(m) && OutcomeOf(cfg, st, m, script).Value?
  }

  function WithJob(st: Store, m: Message, submits: bool): Store
    requires submits ==> IsCarrier(m)
  {
    if submits then st.(jobs := st.jobs + [(st.nextId, m.kwargs.inner)], nextId := st.nextId + 1) else st
  }

  /** One delivery, up to but not including the sending of a retry. */
  function Attempted(cfg: Config, st: Store, id: Id, m: Message, script: Script): Store {
    if Rejected(cfg, st, id, m) then st
    else
      WithJob(st, m, Submits(cfg, st, m, script)).(
      records := st.records[id := RowFor(cfg, st, m, script)], locks := LocksAfter(cfg, st, m))
  }

  /** The record an attempt at `m` leaves. */
  function RowFor(cfg: Config, st: Store, m: Message, script: Script): Record
    requires m.taskName in cfg.tasks
  {
    var v := VerdictFor(cfg, st, m, script);
    var row := NewRecord(m, st.now);
    if v.Escaped? then row else Conclude(row, v, OutcomeOf(cfg, st, m, script), st.now)
  }

  predicate Retries(cfg: Config, st: Store, id: Id, m: Message, script: Script) {
    !Rejected(cfg, st, id, m) && VerdictFor(cfg, st, m, script).Retry?
  }

  function EndingOf(cfg: Config, st: Store, id: Id, m: Message, script: Script): Ending {
    if !Resolvable(cfg, m.taskName) then Raised(CONFIGURATION_ERROR)
    else if id in st.records then Skipped
    else EndingFor(cfg, st, m, script)
  }

  function EndingFor(cfg: Config, st: Store, m: Message, script: Script): Ending
    requires m.taskName in cfg.tasks
  {
    match VerdictFor(cfg, st, m, script)
    case Exhausted => Raised(MAX_RETRIES_EXCEEDED)
    case Escaped => Raised(OutcomeOf(cfg, st, m, script).error)
    case _ => Returned
  }

  function Next(m: Message): Message {
    m.(nRetries := m.nRetries + 1)
  }

  // ---- retries through the queue ----

  /** One delivery in queue mode: a retry is a new message at the end of the queue. */
  function Deliver(cfg: Config, st: Store, id: Id, m: Message, script: Script): Store {
    var after := Attempted(cfg, st, id, m, script);
    if Retries(cfg, st, id, m, script) then
      after.(queue := after.queue + [(after.nextId, Next(m))], nextId := after.nextId + 1)
    else after
  }

  /** The next `k` deliveries from the front of the queue. */
  function Drain(cfg: Config, st: Store, script: Script, k: nat): Store
    decreases k
  {
    if k == 0 || st.queue == [] then st
    else
      var (id, m) := st.queue[0];
      Drain(cfg, Deliver(cfg, st.(queue := st.queue[1..]), id, m, script), script, k - 1)
  }

  // ---- retries nested ----

  function RetriesLeft(cfg: Config, m: Message): nat {
    if cfg.maxRetries > m.nRetries then cfg.maxRetries - m.nRetries else 0
  }

  /** Eager mode: `_execute` runs the retry on the spot, under a fresh id. */
  function Nested(cfg: Config, st: Store, id: Id, m: Message, script: Script): (Store, Ending)
    decreases RetriesLeft(cfg, m)
  {
    var after := Attempted(cfg, st, id, m, script);
    if Retries(cfg, st, id, m, script) then
      var (st', ending) := Nested(cfg, after.(nextId := after.nextId + 1), after.nextId, Next(m), script);
      (st', if ending.Skipped? then Returned else ending)
    else (after, EndingOf(cfg, st, id, m, script))
  }

  /** How many attempts a first delivery leads to. */
  function Attempts(cfg: Config, st: Store, id: Id, m: Message, script: Script): (k: nat)
    ensures 1 <= k <= RetriesLeft(cfg, m) + 1
    decreases RetriesLeft(cfg, m)
  {
    var after := Attempted(cfg, st, id, m, script);
    if Retries(cfg, st, id, m, script) then
      1 + Attempts(cfg, after.(nextId := after.nextId + 1), after.nextId, Next(m), script)
    else 1
  }

  /** The store an attempt that is retried leaves, once the retry's id is drawn: there is its
      row, perhaps a lock less, and no job. */
  function Due(cfg: Config, st: Store, id: Id, m: Message, script: Script): Store
    requires m.taskName in cfg.tasks
  {
    st.(records := st.records[id := RowFor(cfg, st, m, script)], locks := LocksAfter(cfg, st, m),
        nextId := st.nextId + 1)
  }

  lemma RetryLeaves(cfg: Config, st: Store, id: Id, m: Message, script: Script)
    requires Retries(cfg, st, id, m, script)
    ensures Attempted(cfg, st, id, m, script).(nextId := st.nextId + 1) == Due(cfg, st, id, m, script)
    ensures Attempted(cfg, st, id, m, script).nextId == st.nextId
    ensures Attempted(cfg, st, id, m, script).queue == st.queue
  {
  }

  lemma AttemptsUnfold(cfg: Config, st: Store, id: Id, m: Message, script: Script)
    requires Retries(cfg, st, id, m, script)
    ensures Attempts(cfg, st, id, m, script) ==
            1 + Attempts(cfg, Due(cfg, st, id, m, script), st.nextId, Next(m), script)
  {
    RetryLeaves(cfg, st, id, m, script);
  }

  lemma RunUnfolds(cfg: Config, st: Store, id: Id, m: Message, script: Script)
    requires Retries(cfg, st, id, m, script)
    ensures
      var (last, ending) := Nested(cfg, Due(cfg, st, id, m, script), st.nextId, Next(m), script);
      Nested(cfg, st, id, m, script) == (last, if ending.Skipped? then Returned else ending)
  {
    RetryLeaves(cfg, st, id, m, script);
  }

  lemma NestedUnfolds(cfg: Config, st: Store, id: Id, m: Message, script: Script)
    requires Retries(cfg, st, id, m, script)
    ensures
      var due := Due(cfg, st, id, m, script);
      && Nested(cfg, st, id, m, script).0 == Nested(cfg, due, st.nextId, Next(m), script).0
      && Nested(cfg, st, id, m, script).1 ==
         (if Nested(cfg, due, st.nextId, Next(m), script).1.Skipped? then Returned
          else Nested(cfg, due, st.nextId, Next(m), script).1)
      && Attempts(cfg, st, id, m, script) == 1 + Attempts(cfg, due, st.nextId, Next(m), script)
  {
    RunUnfolds(cfg, st, id, m, script);
    AttemptsUnfold(cfg, st, id, m, script);
  }

  lemma NestedEnds(cfg: Config, st: Store, id: Id, m: Message, script: Script)
    requires !Retries(cfg, st, id, m, script)
    ensures Nested(cfg, st, id, m, script).0 == Attempted(cfg, st, id, m, script)
    ensures Deliver(cfg, st, id, m, script) == Attempted(cfg, st, id, m, script)
    ensures Attempts(cfg, st, id, m, script) == 1
  {
  }

  /** Ids not yet drawn have no records. */
  ghost predicate Drawn(st: Store) {
    forall id | id in st.records :: id < st.nextId
  }

  /** The next attempt is not turned away. */
  lemma DueIsNext(cfg: Config, st: Store, id: Id, m: Message, script: Script)
    requires Drawn(st) && id < st.nextId && Retries(cfg, st, id, m, script)
    ensures
      var due := Due(cfg, st, id, m, script);
      && Drawn(due) && st.nextId < due.nextId && due.jobs == st.jobs && !Rejected(cfg, due, st.nextId, Next(m))
      && due.records == st.records[id := RowFor(cfg, st, m, script)]
  {
  }

  lemma RetryIsSent(cfg: Config, st: Store, id: Id, m: Message, script: Script)
    requires st.queue == [] && Retries(cfg, st, id, m, script)
    ensures
      var sent := Deliver(cfg, st, id, m, script);
      sent.queue == [(st.nextId, Next(m))] && sent.(queue := sent.queue[1..]) == Due(cfg, st, id, m, script)
  {
    RetryLeaves(cfg, st, id, m, script);
  }

  /** Eager execution and draining the queue leave the same records, ids and locks, and an
      empty queue, after the same number of attempts. */
  lemma {:induction false} NestedEqualsDrained(cfg: Config, st: Store, id: Id, m: Message, script: Script)
    requires st.queue == []
    ensures Drain(cfg, Deliver(cfg, st, id, m, script), script, Attempts(cfg, st, id, m, script) - 1)
            == Nested(cfg, st, id, m, script).0
    decreases RetriesLeft(cfg, m)
  {
    if Retries(cfg, st, id, m, script) {
      RetryIsSent(cfg, st, id, m, script);
      NestedUnfolds(cfg, st, id, m, script);
      NestedEqualsDrained(cfg, Due(cfg, st, id, m, script), st.nextId, Next(m), script);
    } else {
      NestedEnds(cfg, st, id, m, script);
    }
  }

  // ---- the same while time passes ----

  /** Draining with the clock moving on before each delivery, by given steps. */
  function DrainLater(cfg: Config, st: Store, script: Script, waits: seq<nat>): Store
    decreases |waits|
  {
    if waits == [] || st.queue == [] then st
    else
      var (id, m) := st.queue[0];
      var due := st.(now := st.now + waits[0], queue := st.queue[1..]);
      DrainLater(cfg, Deliver(cfg, due, id, m, script), script, waits[1..])
  }

  function Timeless(row: Record): Record {
    row.(startTime := 0, endTime := if row.endTime.Some? then Some(0) else None)
  }

  /** Two stores that differ in times, and in locks, only. */
  ghost predicate SameRows(st: Store, u: Store) {
    && st.records.Keys == u.records.Keys && st.nextId == u.nextId && st.queue == u.queue && st.jobs == u.jobs
    && forall id | id in st.records :: Timeless(st.records[id]) == Timeless(u.records[id])
  }

  lemma AttemptedAlike(cfg: Config, st: Store, u: Store, id: Id, m: Message, script: Script)
    requires SameRows(st, u) && Contended(cfg, st, m) == Contended(cfg, u, m)
    ensures SameRows(Attempted(cfg, st, id, m, script), Attempted(cfg, u, id, m, script))
    ensures Retries(cfg, st, id, m, script) == Retries(cfg, u, id, m, script)
    ensures EndingOf(cfg, st, id, m, script) == EndingOf(cfg, u, id, m, script)
  {
  }

  function Total(waits: seq<nat>): nat {
    if waits == [] then 0 else waits[0] + Total(waits[1..])
  }

  /** Nobody else holds the task's lock, or somebody does for longer than a given time. */
  predicate LockSettled(cfg: Config, st: Store, m: Message, wait: nat) {
    Contended(cfg, st, m) ==> st.locks[m.taskName].expiry >= st.now + wait
  }

  /** An attempt changes nothing about the lock for the next one, if time takes no foreign
      lock away. */
  lemma StaysSettled(cfg: Config, st: Store, id: Id, m: Message, script: Script, wait: nat, rest: nat)
    requires LockSettled(cfg, st, m, wait + rest)
    ensures
      var due := Attempted(cfg, st, id, m, script).(now := st.now + wait);
      Contended(cfg, due, Next(m)) == Contended(cfg, st, m) && LockSettled(cfg, due, Next(m), rest)
  {
  }

  lemma ContentionIgnores(cfg: Config, st: Store, u: Store, m: Message)
    requires st.now == u.now && st.locks == u.locks
    ensures Contended(cfg, st, m) == Contended(cfg, u, m)
  {
  }

  /** The queue's side of one retry: it is delivered alone, some time later. */
  lemma RetryFallsDue(cfg: Config, u: Store, id: Id, m: Message, script: Script, wait: nat, rest: nat)
    returns (due: Store)
    requires u.queue == [] && Retries(cfg, u, id, m, script) && LockSettled(cfg, u, m, wait + rest)
    ensures
      var sent := Deliver(cfg, u, id, m, script);
      sent.queue == [(u.nextId, Next(m))] && due == sent.(now := sent.now + wait, queue := [])
    ensures due == Attempted(cfg, u, id, m, script).(now := u.now + wait, nextId := u.nextId + 1)
    ensures Contended(cfg, due, Next(m)) == Contended(cfg, u, m) && LockSettled(cfg, due, Next(m), rest)
  {
    RetryLeaves(cfg, u, id, m, script);
    StaysSettled(cfg, u, id, m, script, wait, rest);
    due := Attempted(cfg, u, id, m, script).(now := u.now + wait, nextId := u.nextId + 1);
    ContentionIgnores(cfg, due, Attempted(cfg, u, id, m, script).(now := u.now + wait), Next(m));
  }

  lemma DrainsNext(cfg: Config, sent: Store, script: Script, waits: seq<nat>, id: Id, m: Message)
    requires sent.queue == [(id, m)] && waits != []
    ensures DrainLater(cfg, sent, script, waits) ==
            DrainLater(cfg, Deliver(cfg, sent.(now := sent.now + waits[0], queue := []), id, m, script), script,
                       waits[1..])
  {
    assert sent.queue[1..] == [];
  }

  /** However long the queue takes over each retry, as long as nobody else holds the task's
      lock, or somebody does all the while: draining leaves the same rows as nested
      execution, up to times, and an empty queue. */
  lemma {:induction false} NestedEqualsDrainedLater(cfg: Config, st: Store, u: Store, id: Id, m: Message,
                                                    script: Script, waits: seq<nat>)
    requires SameRows(st, u) && st.queue == []
    requires Contended(cfg, st, m) == Contended(cfg, u, m) && LockSettled(cfg, u, m, Total(waits))
    requires |waits| >= Attempts(cfg, st, id, m, script) - 1
    ensures SameRows(Nested(cfg, st, id, m, script).0,
                     DrainLater(cfg, Deliver(cfg, u, id, m, script), script, waits))
    decreases RetriesLeft(cfg, m)
  {
    if Retries(cfg, st, id, m, script) {
      NestedUnfolds(cfg, st, id, m, script);
      var due := BothRetry(cfg, st, u, id, m, script, waits);
      DrainsNext(cfg, Deliver(cfg, u, id, m, script), script, waits, st.nextId, Next(m));
      NestedEqualsDrainedLater(cfg, Due(cfg, st, id, m, script), due, st.nextId, Next(m), script, waits[1..]);
    } else {
      BothEnd(cfg, st, u, id, m, script, waits);
    }
  }

  lemma BothEnd(cfg: Config, st: Store, u: Store, id: Id, m: Message, script: Script, waits: seq<nat>)
    requires SameRows(st, u) && st.queue == [] && Contended(cfg, st, m) == Contended(cfg, u, m)
    requires !Retries(cfg, st, id, m, script)
    ensures SameRows(Nested(cfg, st, id, m, script).0,
                     DrainLater(cfg, Deliver(cfg, u, id, m, script), script, waits))
  {
    AttemptedAlike(cfg, st, u, id, m, script);
    NestedEnds(cfg, st, id, m, script);
    NestedEnds(cfg, u, id, m, script);
  }

  /** Both sides come to the next attempt with the same rows. */
  lemma BothRetry(cfg: Config, st: Store, u: Store, id: Id, m: Message, script: Script, waits: seq<nat>)
    returns (due: Store)
    requires SameRows(st, u) && st.queue == [] && waits != []
    requires Contended(cfg, st, m) == Contended(cfg, u, m) && LockSettled(cfg, u, m, Total(waits))
    requires Retries(cfg, st, id, m, script)
    ensures
      var next := Due(cfg, st, id, m, script);
      && next.queue == [] && SameRows(next, due)
      && Contended(cfg, next, Next(m)) == Contended(cfg, due, Next(m))
      && LockSettled(cfg, due, Next(m), Total(waits[1..]))
    ensures
      var sent := Deliver(cfg, u, id, m, script);
      sent.queue == [(st.nextId, Next(m))] && due == sent.(now := sent.now + waits[0], queue := [])
  {
    AttemptedAlike(cfg, st, u, id, m, script);
    NestedFallsDue(cfg, st, id, m, script);
    due := RetryFallsDue(cfg, u, id, m, script, waits[0], Total(waits[1..]));
    DueAlike(cfg, st, u, id, m, script, due);
  }

  lemma NestedFallsDue(cfg: Config, st: Store, id: Id, m: Message, script: Script)
    requires Retries(cfg, st, id, m, script)
    ensures Contended(cfg, Due(cfg, st, id, m, script), Next(m)) == Contended(cfg, st, m)
    ensures Due(cfg, st, id, m, script).queue == st.queue
  {
  }

  lemma DueAlike(cfg: Config, st: Store, u: Store, id: Id, m: Message, script: Script, due: Store)
    requires SameRows(st, u) && Retries(cfg, st, id, m, script) && Retries(cfg, u, id, m, script)
    requires SameRows(Attempted(cfg, st, id, m, script), Attempted(cfg, u, id, m, script))
    requires due.records == Attempted(cfg, u, id, m, script).records
    requires due.jobs == Attempted(cfg, u, id, m, script).jobs
    requires due.nextId == u.nextId + 1 && due.queue == st.queue
    ensures SameRows(Due(cfg, st, id, m, script), due)
  {
    RetryLeaves(cfg, st, id, m, script);
  }

  /** The id and the message of the `i`-th attempt of a nested execution. */
  function IdOf(st: Store, id: Id, i: nat): Id {
    if i == 0 then id else st.nextId + i - 1
  }

  function MessageOf(m: Message, i: nat): Message {
    m.(nRetries := m.nRetries + i)
  }

  /** Retrying does not change whether the singleton lock is taken. */
  lemma RetrySeesTheSame(cfg: Config, st: Store, id: Id, m: Message, script: Script, i: nat)
    requires m.taskName in cfg.tasks
    ensures
      var st' := Due(cfg, st, id, m, script);
      && VerdictFor(cfg, st', MessageOf(m, i), script) == VerdictFor(cfg, st, MessageOf(m, i), script)
      && RowFor(cfg, st', MessageOf(m, i), script) == RowFor(cfg, st, MessageOf(m, i), script)
      && Submits(cfg, st', MessageOf(m, i), script) == Submits(cfg, st, MessageOf(m, i), script)
      && EndingFor(cfg, st', MessageOf(m, i), script) == EndingFor(cfg, st, MessageOf(m, i), script)
  {
  }

  /** The first `k` attempts are all judged retries. */
  ghost predicate AllRetry(cfg: Config, st: Store, m: Message, script: Script, k: nat)
    requires m.taskName in cfg.tasks
  {
    forall i | 0 <= i < k :: VerdictFor(cfg, st, MessageOf(m, i), script).Retry?
  }

  lemma RetriesShift(cfg: Config, st: Store, id: Id, m: Message, script: Script, k: nat)
    requires m.taskName in cfg.tasks && k > 0 && VerdictFor(cfg, st, m, script).Retry?
    requires AllRetry(cfg, Due(cfg, st, id, m, script), Next(m), script, k - 1)
    ensures AllRetry(cfg, st, m, script, k)
  {
    assert MessageOf(m, 0) == m;
    forall i | 0 < i < k
      ensures VerdictFor(cfg, st, MessageOf(m, i), script).Retry?
    {
      assert MessageOf(m, i) == MessageOf(Next(m), i - 1);
      RetrySeesTheSame(cfg, st, id, m, script, i);
    }
  }

  /** The attempts are those up to the first that is not judged a retry. */
  lemma {:induction false} AttemptsStopAtFirstNonRetry(cfg: Config, st: Store, id: Id, m: Message, script: Script)
    requires Drawn(st) && id < st.nextId && !Rejected(cfg, st, id, m)
    ensures
      var k := Attempts(cfg, st, id, m, script);
      && AllRetry(cfg, st, m, script, k - 1)
      && !VerdictFor(cfg, st, MessageOf(m, k - 1), script).Retry?
      && Nested(cfg, st, id, m, script).1 == EndingFor(cfg, st, MessageOf(m, k - 1), script)
    decreases RetriesLeft(cfg, m)
  {
    assert MessageOf(m, 0) == m;
    if Retries(cfg, st, id, m, script) {
      var k := Attempts(cfg, st, id, m, script);
      NestedUnfolds(cfg, st, id, m, script);
      DueIsNext(cfg, st, id, m, script);
      AttemptsStopAtFirstNonRetry(cfg, Due(cfg, st, id, m, script), st.nextId, Next(m), script);
      RetriesShift(cfg, st, id, m, script, k - 1);
      assert MessageOf(m, k - 1) == MessageOf(Next(m), k - 2);
      RetrySeesTheSame(cfg, st, id, m, script, k - 1);
    }
  }

  /** The `i`-th attempt seen from the start, and from the second attempt on. */
  lemma ShiftedAttempt(cfg: Config, st: Store, id: Id, m: Message, script: Script, i: nat)
    requires i > 0 && m.taskName in cfg.tasks
    ensures
      var after := Due(cfg, st, id, m, script);
      && IdOf(st, id, i) == IdOf(after, st.nextId, i - 1)
      && MessageOf(m, i) == MessageOf(Next(m), i - 1)
      && RowFor(cfg, after, MessageOf(Next(m), i - 1), script) == RowFor(cfg, st, MessageOf(m, i), script)
  {
    RetrySeesTheSame(cfg, st, id, m, script, i);
  }

  /** The rows of `k` attempts are there. */
  ghost predicate RowsLeft(cfg: Config, st: Store, id: Id, m: Message, script: Script, k: nat, rows: map<Id, Record>)
    requires m.taskName in cfg.tasks
  {
    forall i | 0 <= i < k ::
      IdOf(st, id, i) in rows && rows[IdOf(st, id, i)] == RowFor(cfg, st, MessageOf(m, i), script)
  }

  lemma RowsShift(cfg: Config, st: Store, id: Id, m: Message, script: Script, k: nat, rows: map<Id, Record>)
    requires m.taskName in cfg.tasks && k > 0
    requires id in rows && rows[id] == RowFor(cfg, st, m, script)
    requires
      var after := Due(cfg, st, id, m, script);
      RowsLeft(cfg, after, st.nextId, Next(m), script, k - 1, rows)
    ensures RowsLeft(cfg, st, id, m, script, k, rows)
  {
    assert MessageOf(m, 0) == m;
    forall i | 0 < i < k
      ensures IdOf(st, id, i) in rows && rows[IdOf(st, id, i)] == RowFor(cfg, st, MessageOf(m, i), script)
    {
      ShiftedAttempt(cfg, st, id, m, script, i);
    }
  }

  /** The rows a nested execution leaves: attempt `i` has the counter of the first message
      plus `i`, its own verdict and an id of its own; no other row changes. */
  lemma {:induction false} NestedRows(cfg: Config, st: Store, id: Id, m: Message, script: Script)
    requires Drawn(st) && id < st.nextId && !Rejected(cfg, st, id, m)
    ensures
      var st' := Nested(cfg, st, id, m, script).0;
      var k := Attempts(cfg, st, id, m, script);
      && (forall j | j in st'.records :: j in st.records || j == id || st.nextId <= j < st.nextId + k - 1)
      && (forall j | j in st.records :: j in st'.records && st'.records[j] == st.records[j])
      && RowsLeft(cfg, st, id, m, script, k, st'.records)
    decreases RetriesLeft(cfg, m)
  {
    assert MessageOf(m, 0) == m;
    if Retries(cfg, st, id, m, script) {
      var due := Due(cfg, st, id, m, script);
      var k := Attempts(cfg, st, id, m, script);
      NestedUnfolds(cfg, st, id, m, script);
      DueIsNext(cfg, st, id, m, script);
      NestedRows(cfg, due, st.nextId, Next(m), script);
      RowsShift(cfg, st, id, m, script, k, Nested(cfg, st, id, m, script).0.records);
    } else {
      NestedEnds(cfg, st, id, m, script);
      OneRow(cfg, st, id, m, script);
    }
  }

  /** What attempt `i` comes out with: the body's outcome, or contention if somebody else's
      lock on the singleton has time left. */
  function OutcomeAt(cfg: Config, st: Store, m: Message, script: Script, i: nat): Outcome
    requires m.taskName in cfg.tasks
  {
    if cfg.tasks[m.taskName].singleton && m.taskName in st.locks && st.now <= st.locks[m.taskName].expiry
    then Error("LockError") else script(MessageOf(m, i))
  }

  lemma RowShows(cfg: Config, st: Store, m: Message, script: Script, i: nat)
    requires m.taskName in cfg.tasks
    ensures
      var row, o := RowFor(cfg, st, MessageOf(m, i), script), OutcomeAt(cfg, st, m, script, i);
      && OutcomeOf(cfg, st, MessageOf(m, i), script) == o
      && row.message == MessageOf(m, i) && row.startTime == st.now
      && if o.Error? && !IsSubclass(cfg.hierarchy, o.error, EXCEPTION) then IsNew(row, MessageOf(m, i), st.now)
         else Shows(cfg, MessageOf(m, i), row, o, st.now)
  {
    var o := OutcomeOf(cfg, st, MessageOf(m, i), script);
    if o.Value? || IsSubclass(cfg.hierarchy, o.error, EXCEPTION) {
      ConcludedShows(cfg, MessageOf(m, i), NewRecord(MessageOf(m, i), st.now), o, st.now);
    }
  }

  /** What those rows say, by their outcomes: the row of an attempt whose error no handler
      catches stays RUNNING, every other shows how its attempt came out. */
  lemma NestedRowsShow(cfg: Config, st: Store, id: Id, m: Message, script: Script, i: nat)
    requires Drawn(st) && id < st.nextId && !Rejected(cfg, st, id, m) && i < Attempts(cfg, st, id, m, script)
    ensures
      var rows := Nested(cfg, st, id, m, script).0.records;
      && IdOf(st, id, i) in rows
      && var row, o := rows[IdOf(st, id, i)], OutcomeAt(cfg, st, m, script, i);
      && row.message == MessageOf(m, i) && row.startTime == st.now
      && if o.Error? && !IsSubclass(cfg.hierarchy, o.error, EXCEPTION) then IsNew(row, MessageOf(m, i), st.now)
         else Shows(cfg, MessageOf(m, i), row, o, st.now)
  {
    NestedRows(cfg, st, id, m, script);
    RowShows(cfg, st, m, script, i);
  }

  /** A carrier whose last attempt returns has submitted one job, and any other execution
      none; the ids drawn are those of the retries and of the job. */
  lemma {:induction false} NestedJobs(cfg: Config, st: Store, id: Id, m: Message, script: Script)
    requires Drawn(st) && id < st.nextId && !Rejected(cfg, st, id, m)
    ensures
      var st' := Nested(cfg, st, id, m, script).0;
      var k := Attempts(cfg, st, id, m, script);
      (st'.jobs, st'.nextId) ==
      (if Submits(cfg, st, MessageOf(m, k - 1), script)
       then (st.jobs + [(st.nextId + k - 1, m.kwargs.inner)], st.nextId + k)
       else (st.jobs, st.nextId + k - 1))
    decreases RetriesLeft(cfg, m)
  {
    assert MessageOf(m, 0) == m;
    if Retries(cfg, st, id, m, script) {
      var k := Attempts(cfg, st, id, m, script);
      NestedUnfolds(cfg, st, id, m, script);
      DueIsNext(cfg, st, id, m, script);
      NestedJobs(cfg, Due(cfg, st, id, m, script), st.nextId, Next(m), script);
      assert MessageOf(m, k - 1) == MessageOf(Next(m), k - 2);
      RetrySeesTheSame(cfg, st, id, m, script, k - 1);
    } else {
      NestedEnds(cfg, st, id, m, script);
      OneRow(cfg, st, id, m, script);
    }
  }

  lemma OneRow(cfg: Config, st: Store, id: Id, m: Message, script: Script)
    requires !Rejected(cfg, st, id, m)
    ensures
      var after := Attempted(cfg, st, id, m, script);
      && after.records == st.records[id := RowFor(cfg, st, m, script)]
      && (after.jobs, after.nextId) == (if Submits(cfg, st, m, script)
                                        then (st.jobs + [(st.nextId, m.kwargs.inner)], st.nextId + 1)
                                        else (st.jobs, st.nextId))
  {
  }

  /** Every record but the last is RETRIED and the last is not; and, for errors that are
      Exceptions, the caller sees an error exactly when the last attempt had used up its
      retries, which for an error it would retry means a counter of at least the limit. */
  lemma NestedRetriesThenStops(cfg: Config, st: Store, id: Id, m: Message, script: Script)
    requires Drawn(st) && id < st.nextId && !Rejected(cfg, st, id, m)
    requires forall m': Message :: script(m').Error? ==> IsSubclass(cfg.hierarchy, script(m').error, EXCEPTION)
    requires IsSubclass(cfg.hierarchy, LOCK_ERROR, EXCEPTION)
    ensures
      var (st', ending) := Nested(cfg, st, id, m, script);
      var k := Attempts(cfg, st, id, m, script);
      && (forall i | 0 <= i < k ::
            IdOf(st, id, i) in st'.records &&
            (st'.records[IdOf(st, id, i)].status == Retried <==> i < k - 1))
      && (ending == Returned || ending == Raised(MAX_RETRIES_EXCEEDED))
      && (ending.Raised? ==> m.nRetries + k - 1 >= cfg.maxRetries)
      && (ending.Raised? <==> VerdictFor(cfg, st, MessageOf(m, k - 1), script).Exhausted?)
      && (ending.Raised? ==> st'.records[IdOf(st, id, k - 1)].status == Failed)
  {
    NestedRows(cfg, st, id, m, script);
    AttemptsStopAtFirstNonRetry(cfg, st, id, m, script);
    var k := Attempts(cfg, st, id, m, script);
    forall i | 0 <= i < k
      ensures RowFor(cfg, st, MessageOf(m, i), script).status == Retried <==> i < k - 1
      ensures !VerdictFor(cfg, st, MessageOf(m, i), script).Escaped?
    {
      if i < k - 1 {
        assert VerdictFor(cfg, st, MessageOf(m, i), script).Retry?;
      } else {
        assert i == k - 1;
      }
    }
  }
}
