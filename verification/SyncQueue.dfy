/** The sheet-sync job queue as a state machine: every committed transaction of the
    producers and the workers is one step, and the transaction of the scheduler is one step
    for each job it adds. Times are integer ticks. */
module SyncQueue {
  import opened Prelude

  type JobId = nat
  type ConnectionId = nat
  type Time = int

  const SECOND: Time := 1_000_000

  datatype Trigger =
    | Scheduled | Manual | ImportCommitted | LotCreated | LotUpdated | LotDeleted
    | SettingsChanged | MoexRefreshed

  datatype Status = Queued | Running | Succeeded | Failed

  datatype Job = Job(
    connection: ConnectionId,
    trigger: Trigger,
    status: Status,
    attempts: nat,
    nextAttempt: Option<Time>,
    createdAt: Time,
    startedAt: Option<Time>,
    completedAt: Option<Time>)

  datatype Connection = Connection(
    enabled: bool,
    interval: nat,
    createdAt: Time,
    lastAttempt: Option<Time>)

  /** What one worker session holds. `execute` sets `last_attempt_at` in its session first
      (Executing); the value reaches the database at the first later commit (Flushed). */
  datatype Slot =
    | Idle
    | Claimed(job: JobId)
    | Executing(job: JobId, at: Time)
    | Flushed(job: JobId)

  datatype State = State(
    jobs: map<JobId, Job>,
    connections: map<ConnectionId, Connection>,
    workers: seq<Slot>,
    now: Time,
    maxAttempts: nat)

  datatype Step =
    | Tick(to: Time)
    | Configure(c: ConnectionId, enabled: bool, interval: nat)
    | Enqueue(c: ConnectionId, trigger: Trigger, answer: JobId)
    | Schedule(c: ConnectionId, added: JobId)
    | Claim(w: nat, j: JobId)
    | Begin(w: nat)
    | Flush(w: nat)
    | Succeed(w: nat)
    | Fail(w: nat)
    | Crash(w: nat)

  function Init(workers: nat, maxAttempts: nat, now: Time): State {
    State(map[], map[], seq(workers, _ => Idle), now, maxAttempts)
  }

  function Pow2(n: nat): (r: nat)
    ensures r >= 1
  {
    if n == 0 then 1 else 2 * Pow2(n - 1)
  }

  // ---------- Reading a state ----------

  predicate Has(s: State, j: JobId, status: Status) {
    j in s.jobs && s.jobs[j].status == status
  }

  predicate Terminal(status: Status) {
    status == Succeeded || status == Failed
  }

  predicate ActiveJob(s: State, j: JobId, c: ConnectionId) {
    j in s.jobs && s.jobs[j].connection == c && !Terminal(s.jobs[j].status)
  }

  predicate QueuedFor(s: State, j: JobId, c: ConnectionId) {
    Has(s, j, Queued) && s.jobs[j].connection == c
  }

  function Active(s: State, c: ConnectionId): set<JobId> {
    set j | j in s.jobs && ActiveJob(s, j, c)
  }

  function QueuedJobs(s: State, c: ConnectionId): set<JobId> {
    set j | j in s.jobs && QueuedFor(s, j, c)
  }

  predicate Overdue(s: State, c: ConnectionId) {
    && c in s.connections
    && s.connections[c].enabled
    && var reference := match s.connections[c].lastAttempt
                        case None => s.connections[c].createdAt
                        case Some(t) => t;
       reference + s.connections[c].interval * SECOND <= s.now
  }

  /** The connections for which the scheduler adds a job. */
  predicate Due(s: State, c: ConnectionId) {
    Overdue(s, c) && Active(s, c) == {}
  }

  predicate Claimable(s: State, j: JobId) {
    && Has(s, j, Queued)
    && (s.jobs[j].nextAttempt.Some? ==> s.jobs[j].nextAttempt.value <= s.now)
  }

  predicate Busy(slot: Slot) {
    !slot.Idle?
  }

  predicate Holds(s: State, w: nat, j: JobId) {
    w < |s.workers| && Busy(s.workers[w]) && s.workers[w].job == j
  }

  // ---------- One step ----------

  function NewJob(c: ConnectionId, trigger: Trigger, now: Time): Job {
    Job(c, trigger, Queued, 0, Some(now), now, None, None)
  }

  ghost predicate Allowed(s: State, step: Step) {
    match step
    case Tick(to) => s.now <= to
    case Configure(_, _, _) => true
    case Enqueue(c, trigger, answer) =>
      && c in s.connections
      && trigger != Scheduled  // only the scheduler uses this trigger
      && (s.connections[c].enabled || trigger == Manual)
      && (if QueuedJobs(s, c) == {} then answer !in s.jobs else answer in QueuedJobs(s, c))
    case Schedule(c, added) => Due(s, c) && added !in s.jobs
    case Claim(w, j) =>
      w < |s.workers| && s.workers[w].Idle? && Claimable(s, j)
    case Begin(w) =>
      w < |s.workers| && s.workers[w].Claimed?
    case Flush(w) =>
      && w < |s.workers| && s.workers[w].Executing?
      && s.workers[w].job in s.jobs
      && s.jobs[s.workers[w].job].connection in s.connections
    case Succeed(w) =>
      && w < |s.workers| && (s.workers[w].Executing? || s.workers[w].Flushed?)
      && s.workers[w].job in s.jobs
      && s.jobs[s.workers[w].job].connection in s.connections
    case Fail(w) =>
      && w < |s.workers| && Busy(s.workers[w])
      && s.workers[w].job in s.jobs
      && s.jobs[s.workers[w].job].connection in s.connections
    case Crash(w) =>
      w < |s.workers| && Busy(s.workers[w])
  }

  function Touch(s: State, c: ConnectionId, at: Time): State
    requires c in s.connections
  {
    s.(connections := s.connections[c := s.connections[c].(lastAttempt := Some(at))])
  }

  function Failure(job: Job, now: Time, maxAttempts: nat): Job {
    if job.attempts < maxAttempts then
      job.(status := Queued, nextAttempt := Some(now + Pow2(job.attempts) * SECOND))
    else
      job.(status := Failed, completedAt := Some(now))
  }

  ghost function Apply(s: State, step: Step): State
    requires Allowed(s, step)
  {
    match step
    case Tick(to) => s.(now := to)
    case Configure(c, enabled, interval) =>
      if c in s.connections then
        s.(connections := s.connections[c := s.connections[c].(enabled := enabled, interval := interval)])
      else
        s.(connections := s.connections[c := Connection(enabled, interval, s.now, None)])
    case Enqueue(c, trigger, answer) =>
      if answer in s.jobs then s
      else s.(jobs := s.jobs[answer := NewJob(c, trigger, s.now)])
    case Schedule(c, added) =>
      s.(jobs := s.jobs[added := NewJob(c, Scheduled, s.now)])
    case Claim(w, j) =>
      s.(workers := s.workers[w := Claimed(j)],
         jobs := s.jobs[j := s.jobs[j].(status := Running, startedAt := Some(s.now),
                                        attempts := s.jobs[j].attempts + 1)])
    case Begin(w) =>
      s.(workers := s.workers[w := Executing(s.workers[w].job, s.now)])
    case Flush(w) =>
      var j := s.workers[w].job;
      Touch(s, s.jobs[j].connection, s.workers[w].at).(workers := s.workers[w := Flushed(j)])
    case Succeed(w) =>
      var j := s.workers[w].job;
      var touched := if s.workers[w].Executing? then Touch(s, s.jobs[j].connection, s.workers[w].at) else s;
      touched.(workers := s.workers[w := Idle],
               jobs := s.jobs[j := s.jobs[j].(status := Succeeded, completedAt := Some(s.now))])
    case Fail(w) =>
      var j := s.workers[w].job;
      Touch(s, s.jobs[j].connection, s.now).(
        workers := s.workers[w := Idle],
        jobs := s.jobs[j := Failure(s.jobs[j], s.now, s.maxAttempts)])
    case Crash(w) => s.(workers := s.workers[w := Idle])
  }

  // ---------- Runs ----------

  ghost predicate ValidRun(s: State, steps: seq<Step>)
    decreases |steps|, 0
  {
    steps == [] ||
    var before := steps[..|steps| - 1];
    ValidRun(s, before) && Allowed(Exec(s, before), steps[|steps| - 1])
  }

  /** The state after a run; steps are applied left to right. */
  ghost function Exec(s: State, steps: seq<Step>): State
    requires ValidRun(s, steps)
    decreases |steps|, 1
  {
    if steps == [] then s
    else Apply(Exec(s, steps[..|steps| - 1]), steps[|steps| - 1])
  }

  /** Reached from an empty queue with at least one permitted attempt. */
  ghost predicate Reachable(s: State) {
    exists workers: nat, maxAttempts: nat, start: Time, steps: seq<Step> ::
      && maxAttempts >= 1
      && ValidRun(Init(workers, maxAttempts, start), steps)
      && s == Exec(Init(workers, maxAttempts, start), steps)
  }
}
