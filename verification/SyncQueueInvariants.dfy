/** What every step of the sheet-sync queue keeps, and the theorems over all runs. */
module SyncQueueInvariants {
  import opened Prelude
  import opened SyncQueue

  // ---------- The invariant ----------

  /** The ladder of one job: attempts, timestamps and status move together. */
  ghost predicate JobOk(s: State, job: Job) {
    && job.connection in s.connections
    && job.createdAt <= s.now
    && job.attempts <= s.maxAttempts
    && (job.attempts == 0 <==> job.startedAt.None?)
    && (job.startedAt.Some? ==> job.createdAt <= job.startedAt.value <= s.now)
    && (job.completedAt.Some? <==> Terminal(job.status))
    && (job.completedAt.Some? ==>
          job.startedAt.Some? && job.startedAt.value <= job.completedAt.value <= s.now)
    && (job.status == Queued ==>
          && job.attempts < s.maxAttempts
          && job.nextAttempt.Some?
          && (job.startedAt.Some? ==>
                job.nextAttempt.value >= job.startedAt.value + Pow2(job.attempts) * SECOND))
    && (job.status == Running || job.status == Succeeded ==> job.attempts >= 1)
    && (job.status == Failed ==> job.attempts == s.maxAttempts)
  }

  ghost predicate JobsOk(s: State) {
    s.maxAttempts >= 1 && forall j :: j in s.jobs ==> JobOk(s, s.jobs[j])
  }

  /** A busy worker holds a RUNNING job that no other worker holds. */
  ghost predicate WorkersOk(s: State) {
    && (forall w, j :: Holds(s, w, j) ==> Has(s, j, Running))
    && (forall v, w, j :: Holds(s, v, j) && Holds(s, w, j) ==> v == w)
    && (forall w :: 0 <= w < |s.workers| && s.workers[w].Executing? ==>
          && s.workers[w].job in s.jobs
          && s.jobs[s.workers[w].job].startedAt.Some?
          && s.jobs[s.workers[w].job].startedAt.value <= s.workers[w].at <= s.now)
  }

  /** A QUEUED job that has never been tried. */
  predicate Fresh(s: State, j: JobId, c: ConnectionId) {
    QueuedFor(s, j, c) && s.jobs[j].attempts == 0
  }

  ghost predicate OneFresh(s: State) {
    forall c, j, k :: Fresh(s, j, c) && Fresh(s, k, c) ==> j == k
  }

  ghost predicate Inv(s: State) {
    JobsOk(s) && WorkersOk(s) && OneFresh(s)
  }

  /** What one step makes of an existing job. */
  function Effect(s: State, step: Step, j: JobId): Job
    requires j in s.jobs
  {
    var job := s.jobs[j];
    match step
    case Claim(_, k) =>
      if j == k then job.(status := Running, startedAt := Some(s.now), attempts := job.attempts + 1) else job
    case Succeed(w) =>
      if Holds(s, w, j) then job.(status := Succeeded, completedAt := Some(s.now)) else job
    case Fail(w) =>
      if Holds(s, w, j) then Failure(job, s.now, s.maxAttempts) else job
    case _ => job
  }

  lemma JobStep(s: State, step: Step, j: JobId)
    requires Allowed(s, step) && j in s.jobs
    ensures j in Apply(s, step).jobs && Apply(s, step).jobs[j] == Effect(s, step, j)
    ensures s.now <= Apply(s, step).now && Apply(s, step).maxAttempts == s.maxAttempts
    ensures forall c :: c in s.connections ==> c in Apply(s, step).connections
  {
  }

  /** A job that a step adds is a fresh QUEUED one of a known connection. */
  lemma AddedJob(s: State, step: Step, j: JobId)
    requires Allowed(s, step) && j !in s.jobs && j in Apply(s, step).jobs
    ensures var job := Apply(s, step).jobs[j];
            && job == NewJob(job.connection, job.trigger, s.now)
            && job.connection in s.connections
            && Apply(s, step).now == s.now && Apply(s, step).maxAttempts == s.maxAttempts
            && Apply(s, step).connections == s.connections
            && (step.Schedule? ==> step == Schedule(job.connection, j) && Due(s, job.connection)
                                   && job.trigger == Scheduled)
            && (!step.Schedule? ==> step == Enqueue(job.connection, job.trigger, j)
                                    && QueuedJobs(s, job.connection) == {})
  {
  }

  /** Only a claim makes a worker hold a job; only its end makes it let go. */
  lemma HoldStep(s: State, step: Step, w: nat, j: JobId)
    requires Allowed(s, step)
    ensures Holds(Apply(s, step), w, j) <==>
            || step == Claim(w, j)
            || (Holds(s, w, j) && step != Succeed(w) && step != Fail(w) && step != Crash(w))
    ensures |Apply(s, step).workers| == |s.workers|
  {
  }

  lemma JobOkStep(s: State, step: Step, j: JobId)
    requires Inv(s) && Allowed(s, step) && j in Apply(s, step).jobs
    ensures JobOk(Apply(s, step), Apply(s, step).jobs[j])
  {
    if j in s.jobs {
      assert JobOk(s, s.jobs[j]);
      JobStep(s, step, j);
      assert (step.Succeed? || step.Fail?) && Holds(s, step.w, j) ==> Has(s, j, Running);
    } else {
      AddedJob(s, step, j);
    }
  }

  lemma JobsOkStep(s: State, step: Step)
    requires Inv(s) && Allowed(s, step)
    ensures JobsOk(Apply(s, step))
  {
    var t := Apply(s, step);
    forall j | j in t.jobs
      ensures JobOk(t, t.jobs[j])
    {
      JobOkStep(s, step, j);
    }
    assert t.maxAttempts == s.maxAttempts;
  }

  lemma HeldRunningStep(s: State, step: Step, w: nat, j: JobId)
    requires Inv(s) && Allowed(s, step) && Holds(Apply(s, step), w, j)
    ensures Has(Apply(s, step), j, Running)
  {
    HoldStep(s, step, w, j);
    if Holds(s, w, j) {
      assert Has(s, j, Running);
      JobStep(s, step, j);
    }
  }

  lemma HeldOnceStep(s: State, step: Step, v: nat, w: nat, j: JobId)
    requires Inv(s) && Allowed(s, step)
    requires Holds(Apply(s, step), v, j) && Holds(Apply(s, step), w, j)
    ensures v == w
  {
    HoldStep(s, step, v, j);
    HoldStep(s, step, w, j);
    assert Holds(s, v, j) || Holds(s, w, j) ==> Has(s, j, Running);
  }

  lemma ExecutingStep(s: State, step: Step, w: nat)
    requires Inv(s) && Allowed(s, step)
    requires w < |Apply(s, step).workers| && Apply(s, step).workers[w].Executing?
    ensures var t := Apply(s, step);
            && t.workers[w].job in t.jobs
            && t.jobs[t.workers[w].job].startedAt.Some?
            && t.jobs[t.workers[w].job].startedAt.value <= t.workers[w].at <= t.now
  {
    var j := Apply(s, step).workers[w].job;
    HoldStep(s, step, w, j);
    assert Has(s, j, Running) && JobOk(s, s.jobs[j]);
    JobStep(s, step, j);
  }

  lemma WorkersOkStep(s: State, step: Step)
    requires Inv(s) && Allowed(s, step)
    ensures WorkersOk(Apply(s, step))
  {
    var t := Apply(s, step);
    forall w, j | Holds(t, w, j)
      ensures Has(t, j, Running)
    {
      HeldRunningStep(s, step, w, j);
    }
    forall v, w, j | Holds(t, v, j) && Holds(t, w, j)
      ensures v == w
    {
      HeldOnceStep(s, step, v, w, j);
    }
    forall w | 0 <= w < |t.workers| && t.workers[w].Executing?
      ensures t.workers[w].job in t.jobs && t.jobs[t.workers[w].job].startedAt.Some?
      ensures t.jobs[t.workers[w].job].startedAt.value <= t.workers[w].at <= t.now
    {
      ExecutingStep(s, step, w);
    }
  }

  /** A step that adds a job to a connection adds no other one and keeps the rest. */
  lemma AddsOneJob(s: State, step: Step, c: ConnectionId, j: JobId)
    requires Inv(s) && Allowed(s, step)
    requires j !in s.jobs && j in Apply(s, step).jobs && Apply(s, step).jobs[j].connection == c
    ensures QueuedJobs(s, c) == {}
    ensures j in QueuedJobs(Apply(s, step), c)
    ensures forall k :: k in Apply(s, step).jobs && Apply(s, step).jobs[k].connection == c && k != j ==>
              k in s.jobs && Apply(s, step).jobs[k] == s.jobs[k]
    ensures forall k :: k in s.jobs ==> k in Apply(s, step).jobs && Apply(s, step).jobs[k] == s.jobs[k]
  {
    AddedJob(s, step, j);
    if step.Schedule? {
      assert QueuedJobs(s, c) <= Active(s, c);
    }
  }

  lemma OneFreshStep(s: State, step: Step)
    requires Inv(s) && Allowed(s, step)
    ensures OneFresh(Apply(s, step))
  {
    var t := Apply(s, step);
    forall c, j, k | Fresh(t, j, c) && Fresh(t, k, c)
      ensures j == k
    {
      FreshStep(s, step, j, c);
      FreshStep(s, step, k, c);
    }
  }

  /** A fresh job was fresh before, or it is the only one its connection has QUEUED. */
  lemma FreshStep(s: State, step: Step, j: JobId, c: ConnectionId)
    requires Inv(s) && Allowed(s, step) && Fresh(Apply(s, step), j, c)
    ensures Fresh(s, j, c)
            || (forall k :: Fresh(Apply(s, step), k, c) ==> k == j)
  {
    var t := Apply(s, step);
    if j in s.jobs {
      JobStep(s, step, j);
      assert JobOk(s, s.jobs[j]);
    } else {
      AddsOneJob(s, step, c, j);
      assert forall k :: k in s.jobs && Fresh(t, k, c) ==> k in QueuedJobs(s, c);
    }
  }

  lemma InvStep(s: State, step: Step)
    requires Inv(s) && Allowed(s, step)
    ensures Inv(Apply(s, step))
  {
    JobsOkStep(s, step);
    WorkersOkStep(s, step);
    OneFreshStep(s, step);
  }

  lemma {:induction false} InvRun(s: State, steps: seq<Step>)
    requires Inv(s) && ValidRun(s, steps)
    ensures Inv(Exec(s, steps))
  {
    if steps != [] {
      var before := steps[..|steps| - 1];
      InvRun(s, before);
      InvStep(Exec(s, before), steps[|steps| - 1]);
    }
  }

  lemma ReachableInv(s: State)
    requires Reachable(s)
    ensures Inv(s)
  {
    var workers: nat, maxAttempts: nat, start: Time, steps: seq<Step> :|
      && maxAttempts >= 1
      && ValidRun(Init(workers, maxAttempts, start), steps)
      && s == Exec(Init(workers, maxAttempts, start), steps);
    InvRun(Init(workers, maxAttempts, start), steps);
  }

  /** State s is reached from s0 by some run. */
  ghost predicate From(s0: State, s: State) {
    exists steps :: ValidRun(s0, steps) && s == Exec(s0, steps)
  }

  lemma FromItself(s: State)
    ensures From(s, s)
  {
    var none: seq<Step> := [];
    assert ValidRun(s, none) && Exec(s, none) == s;
  }

  /** One more step of a run. */
  lemma Take(s0: State, s: State, step: Step) returns (t: State)
    requires From(s0, s) && Allowed(s, step)
    ensures t == Apply(s, step) && From(s0, t)
  {
    t := Apply(s, step);
    var steps :| ValidRun(s0, steps) && s == Exec(s0, steps);
    var more := steps + [step];
    assert more[..|more| - 1] == steps;
    assert ValidRun(s0, more) && Exec(s0, more) == t;
  }

  lemma One(s: State, step: Step)
    requires Allowed(s, step)
    ensures ValidRun(s, [step]) && Exec(s, [step]) == Apply(s, step)
  {
    var none: seq<Step> := [];
    assert ValidRun(s, none) && Exec(s, none) == s;
    var steps := none + [step];
    assert steps[..|steps| - 1] == none;
    assert steps == [step];
  }

  lemma {:induction false} Append(s: State, first: seq<Step>, rest: seq<Step>)
    requires ValidRun(s, first) && ValidRun(Exec(s, first), rest)
    ensures ValidRun(s, first + rest) && Exec(s, first + rest) == Exec(Exec(s, first), rest)
  {
    var all := first + rest;
    if rest == [] {
      assert all == first;
    } else {
      var before := rest[..|rest| - 1];
      Append(s, first, before);
      assert all[..|all| - 1] == first + before;
    }
  }
}
