/** The sheet-sync queue drains: remaining work falls with every claim and every finish,
    progress is always possible, and the bound of W + 1 active jobs is reached. */
module SyncQueueDrain {
  import opened SyncQueue
  import opened SyncQueueInvariants
  import opened SyncQueueRuns

  // ---------- Remaining work ----------

  function Work(job: Job, maxAttempts: nat): nat {
    if Terminal(job.status) || job.attempts > maxAttempts then 0
    else 2 * (maxAttempts - job.attempts) + if job.status == Running then 1 else 0
  }

  /** Claims and finishes that the jobs can still take. */
  ghost function TotalWork(jobs: map<JobId, Job>, maxAttempts: nat): nat {
    if jobs == map[] then 0
    else
      var j :| j in jobs;
      Work(jobs[j], maxAttempts) + TotalWork(jobs - {j}, maxAttempts)
  }

  lemma {:induction false} TotalWorkSplit(jobs: map<JobId, Job>, maxAttempts: nat, j: JobId)
    requires j in jobs
    ensures TotalWork(jobs, maxAttempts) == Work(jobs[j], maxAttempts) + TotalWork(jobs - {j}, maxAttempts)
    decreases |jobs|
  {
    var k :| k in jobs
      && TotalWork(jobs, maxAttempts) == Work(jobs[k], maxAttempts) + TotalWork(jobs - {k}, maxAttempts);
    if k != j {
      TotalWorkSplit(jobs - {k}, maxAttempts, j);
      TotalWorkSplit(jobs - {j}, maxAttempts, k);
      assert jobs - {k} - {j} == jobs - {j} - {k};
    }
  }

  lemma TotalWorkUpdate(jobs: map<JobId, Job>, maxAttempts: nat, j: JobId, job: Job)
    requires j in jobs
    ensures TotalWork(jobs[j := job], maxAttempts)
            == TotalWork(jobs, maxAttempts) - Work(jobs[j], maxAttempts) + Work(job, maxAttempts)
  {
    TotalWorkSplit(jobs, maxAttempts, j);
    TotalWorkSplit(jobs[j := job], maxAttempts, j);
    assert jobs[j := job] - {j} == jobs - {j};
  }

  predicate Progress(step: Step) {
    step.Claim? || step.Succeed? || step.Fail?
  }

  function ProgressCount(steps: seq<Step>): nat {
    if steps == [] then 0
    else ProgressCount(steps[..|steps| - 1]) + if Progress(steps[|steps| - 1]) then 1 else 0
  }

  ghost function Remaining(s: State): nat {
    TotalWork(s.jobs, s.maxAttempts)
  }

  lemma RemainingStep(s: State, step: Step)
    requires Inv(s) && Allowed(s, step)
    requires Apply(s, step).jobs.Keys == s.jobs.Keys
    ensures Progress(step) ==> Remaining(Apply(s, step)) < Remaining(s)
    ensures !Progress(step) ==> Remaining(Apply(s, step)) == Remaining(s)
  {
    if Progress(step) {
      var j := WorkedOn(s, step);
      var job := Apply(s, step).jobs[j];
      hide Apply, Allowed, Inv, TotalWork, Work;
      TotalWorkUpdate(s.jobs, s.maxAttempts, j, job);
    } else {
      assert Apply(s, step).jobs == s.jobs;
    }
  }

  /** The job that a claim or a finish changes loses work. */
  lemma WorkedOn(s: State, step: Step) returns (j: JobId)
    requires Inv(s) && Allowed(s, step) && Progress(step)
    ensures j in s.jobs && j in Apply(s, step).jobs
    ensures Work(Apply(s, step).jobs[j], s.maxAttempts) < Work(s.jobs[j], s.maxAttempts)
    ensures Apply(s, step).jobs == s.jobs[j := Apply(s, step).jobs[j]]
    ensures Apply(s, step).maxAttempts == s.maxAttempts
  {
    j := if step.Claim? then step.j else s.workers[step.w].job;
    assert !step.Claim? ==> Holds(s, step.w, j);
    assert JobOk(s, s.jobs[j]);
    JobStep(s, step, j);
  }

  /** While no job is added, claims and finishes together never exceed the remaining work. */
  lemma {:induction false} DrainBound(s: State, steps: seq<Step>)
    requires Inv(s) && ValidRun(s, steps)
    requires Exec(s, steps).jobs.Keys == s.jobs.Keys
    ensures ProgressCount(steps) + Remaining(Exec(s, steps)) <= Remaining(s)
  {
    if steps != [] {
      var before := steps[..|steps| - 1];
      var last := steps[|steps| - 1];
      var u := Exec(s, before);
      forall j | j in s.jobs
        ensures j in u.jobs
      {
        KeepsConnection(s, before, j);
      }
      forall j | j in u.jobs
        ensures j in s.jobs
      {
        JobStep(u, last, j);
      }
      DrainBound(s, before);
      InvRun(s, before);
      RemainingStep(u, last);
    }
  }

  ghost predicate Drained(s: State) {
    forall j :: j in s.jobs ==> Terminal(s.jobs[j].status)
  }

  // ---------- Progress is always possible ----------

  /** Unless a crash left an orphan, any worker pool can claim or finish a job once enough
      time has passed, as long as a job is active. */
  lemma CanProgress(s: State) returns (wait: Time, step: Step)
    requires Inv(s) && |s.workers| > 0 && Orphans(s) == {} && !Drained(s)
    ensures Allowed(s, Tick(wait)) && Progress(step) && Allowed(Apply(s, Tick(wait)), step)
    ensures Apply(Apply(s, Tick(wait)), step).jobs.Keys == s.jobs.Keys
  {
    var j :| j in s.jobs && !Terminal(s.jobs[j].status);
    assert JobOk(s, s.jobs[j]);
    wait := s.now;
    if s.jobs[j].status == Running {
      assert j !in Orphans(s);
      var w: nat :| Holds(s, w, j);
      step := Fail(w);
    } else if Busy(s.workers[0]) {
      assert Holds(s, 0, s.workers[0].job);
      assert JobOk(s, s.jobs[s.workers[0].job]);
      step := Fail(0);
    } else {
      var due := s.jobs[j].nextAttempt.value;
      wait := if due > s.now then due else s.now;
      step := Claim(0, j);
    }
  }

  lemma TickKeeps(s: State, to: Time)
    requires Allowed(s, Tick(to))
    ensures Apply(s, Tick(to)).jobs == s.jobs
  {
  }

  lemma ProgressOnce(s: State) returns (steps: seq<Step>)
    requires Inv(s) && |s.workers| > 0 && Orphans(s) == {} && !Drained(s)
    ensures ValidRun(s, steps)
    ensures var t := Exec(s, steps);
            && Inv(t) && |t.workers| == |s.workers| && Orphans(t) == {}
            && t.jobs.Keys == s.jobs.Keys && Remaining(t) < Remaining(s)
  {
    var wait, step := CanProgress(s);
    var later := Apply(s, Tick(wait));
    TickKeeps(s, wait);
    hide Apply, Allowed, Inv, Orphans, Remaining, Drained, ValidRun, Exec;
    LimitStep(s, Tick(wait));
    LimitStep(later, step);
    InvStep(s, Tick(wait));
    InvStep(later, step);
    OrphansStep(s, Tick(wait));
    OrphansStep(later, step);
    RemainingStep(s, Tick(wait));
    RemainingStep(later, step);
    One(s, Tick(wait));
    One(later, step);
    Append(s, [Tick(wait)], [step]);
    steps := [Tick(wait)] + [step];
  }

  /** From every state without orphans the queue can be emptied without adding a job. */
  lemma {:induction false} Drains(s: State) returns (steps: seq<Step>)
    requires Inv(s) && |s.workers| > 0 && Orphans(s) == {}
    ensures ValidRun(s, steps) && Drained(Exec(s, steps))
    ensures Exec(s, steps).jobs.Keys == s.jobs.Keys
    decreases Remaining(s)
  {
    if Drained(s) {
      steps := [];
    } else {
      var first := ProgressOnce(s);
      var rest := Drains(Exec(s, first));
      Append(s, first, rest);
      steps := first + rest;
    }
  }

  // ---------- The bound of W + 1 is reached ----------

  function FirstIds(n: nat): (ids: set<JobId>)
    ensures |ids| == n
    ensures forall j: JobId :: j in ids <==> j < n
  {
    if n == 0 then {} else FirstIds(n - 1) + {n - 1}
  }

  /** k of the workers hold one job each of connection 0. */
  ghost predicate Filled(s: State, k: nat) {
    && 0 in s.connections
    && s.jobs.Keys == FirstIds(k)
    && (forall j :: 0 <= j < k ==> s.jobs[j].status == Running && s.jobs[j].connection == 0)
    && (forall w :: k <= w < |s.workers| ==> s.workers[w].Idle?)
  }

  lemma Extend(s: State, steps: seq<Step>, step: Step) returns (more: seq<Step>)
    requires ValidRun(s, steps) && Allowed(Exec(s, steps), step)
    ensures more == steps + [step] && ValidRun(s, more)
    ensures Exec(s, more) == Apply(Exec(s, steps), step)
    ensures Crashes(more) == Crashes(steps) + if step.Crash? then 1 else 0
  {
    more := steps + [step];
    assert more[..|more| - 1] == steps;
  }

  lemma FillOne(s: State, k: nat)
    requires Filled(s, k) && k < |s.workers|
    ensures Allowed(s, Enqueue(0, Manual, k))
    ensures Allowed(Apply(s, Enqueue(0, Manual, k)), Claim(k, k))
    ensures var t := Apply(Apply(s, Enqueue(0, Manual, k)), Claim(k, k));
            Filled(t, k + 1) && |t.workers| == |s.workers|
  {
    FillEnqueue(s, k);
    FillClaim(s, Apply(s, Enqueue(0, Manual, k)), k);
  }

  lemma FillEnqueue(s: State, k: nat)
    requires Filled(s, k)
    ensures Allowed(s, Enqueue(0, Manual, k))
    ensures Apply(s, Enqueue(0, Manual, k)) == s.(jobs := s.jobs[k := NewJob(0, Manual, s.now)])
  {
    assert QueuedJobs(s, 0) == {};
  }

  lemma FillClaim(s: State, u: State, k: nat)
    requires Filled(s, k) && k < |s.workers| && u == s.(jobs := s.jobs[k := NewJob(0, Manual, s.now)])
    ensures Allowed(u, Claim(k, k))
    ensures Filled(Apply(u, Claim(k, k)), k + 1) && |Apply(u, Claim(k, k)).workers| == |s.workers|
  {
    FilledNext(s, Apply(u, Claim(k, k)), k);
  }

  lemma FilledNext(s: State, t: State, k: nat)
    requires Filled(s, k) && k < |s.workers| && k in t.jobs && t.connections == s.connections
    requires t.jobs == s.jobs[k := t.jobs[k]] && t.jobs[k].status == Running && t.jobs[k].connection == 0
    requires t.workers == s.workers[k := Claimed(k)]
    ensures Filled(t, k + 1)
  {
    FirstIdsNext(s.jobs, k, t.jobs[k]);
    hide FirstIds;
  }

  lemma FirstIdsNext<T>(m: map<nat, T>, k: nat, value: T)
    requires m.Keys == FirstIds(k)
    ensures m[k := value].Keys == FirstIds(k + 1)
    ensures forall j: nat :: j < k <==> j in m
  {
    assert m[k := value].Keys == m.Keys + {k};
  }

  lemma {:induction false} Fill(workers: nat, maxAttempts: nat, k: nat) returns (steps: seq<Step>)
    requires maxAttempts >= 1 && k <= workers
    ensures ValidRun(Init(workers, maxAttempts, 0), steps) && Crashes(steps) == 0
    ensures Filled(Exec(Init(workers, maxAttempts, 0), steps), k)
    ensures |Exec(Init(workers, maxAttempts, 0), steps).workers| == workers
  {
    if k == 0 {
      steps := Extend(Init(workers, maxAttempts, 0), [], Configure(0, true, 60));
    } else {
      var first := Fill(workers, maxAttempts, k - 1);
      FillOne(Exec(Init(workers, maxAttempts, 0), first), k - 1);
      var second := Extend(Init(workers, maxAttempts, 0), first, Enqueue(0, Manual, k - 1));
      steps := Extend(Init(workers, maxAttempts, 0), second, Claim(k - 1, k - 1));
    }
  }

  lemma OneMore(s: State, k: nat)
    requires Filled(s, k)
    ensures Allowed(s, Enqueue(0, Manual, k))
    ensures Active(Apply(s, Enqueue(0, Manual, k)), 0) == FirstIds(k + 1)
  {
    assert QueuedJobs(s, 0) == {};
    assert Apply(s, Enqueue(0, Manual, k)).jobs == s.jobs[k := NewJob(0, Manual, s.now)];
  }

  /** For every number of workers W there is a run without crashes in which one connection
      has W + 1 active jobs, so the bound of `QueueBound` cannot be improved. */
  lemma QueueBoundIsTight(workers: nat, maxAttempts: nat) returns (steps: seq<Step>)
    requires maxAttempts >= 1
    ensures ValidRun(Init(workers, maxAttempts, 0), steps) && Crashes(steps) == 0
    ensures |Active(Exec(Init(workers, maxAttempts, 0), steps), 0)| == workers + 1
  {
    var first := Fill(workers, maxAttempts, workers);
    hide Apply, Allowed, Filled, Active, Exec, ValidRun;
    OneMore(Exec(Init(workers, maxAttempts, 0), first), workers);
    steps := Extend(Init(workers, maxAttempts, 0), first, Enqueue(0, Manual, workers));
  }
}
