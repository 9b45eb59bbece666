/** Timing of the sheet-sync queue over all runs: spacing of scheduled jobs and the
    exponential backoff of retries. */
module SyncQueueTiming {
  import opened Prelude
  import opened SyncQueue
  import opened SyncQueueInvariants
  import opened SyncQueueRuns

  // ---------- Scheduled jobs are spaced ----------

  predicate AttemptedSince(s: State, c: ConnectionId, t: Time) {
    && c in s.connections
    && s.connections[c].lastAttempt.Some?
    && s.connections[c].lastAttempt.value >= t
  }

  /** Worker w works on a job of connection c. */
  predicate WorksFor(s: State, w: nat, c: ConnectionId) {
    && w < |s.workers| && Busy(s.workers[w])
    && s.workers[w].job in s.jobs
    && s.jobs[s.workers[w].job].connection == c
  }

  /** Every attempt that is still to be recorded for c began no earlier than t, and one that
      was recorded for a running job is visible in the connection. */
  ghost predicate WritesSince(s: State, c: ConnectionId, t: Time) {
    forall w: nat :: WorksFor(s, w, c) ==>
      && (s.workers[w].Executing? ==> s.workers[w].at >= t)
      && (s.workers[w].Flushed? ==> AttemptedSince(s, c, t))
  }

  /** The reference time of the scheduler has passed the creation of every scheduled job
      that is no longer active. */
  ghost predicate SchedulerOk(s: State) {
    forall c, j :: j in ScheduledJobs(s, c) ==>
      && WritesSince(s, c, s.jobs[j].createdAt)
      && (ActiveJob(s, j, c) || AttemptedSince(s, c, s.jobs[j].createdAt))
  }

  lemma AttemptedSinceStep(s: State, step: Step, c: ConnectionId, at: Time)
    requires Inv(s) && Allowed(s, step) && at <= s.now
    requires WritesSince(s, c, at) && AttemptedSince(s, c, at)
    ensures AttemptedSince(Apply(s, step), c, at)
  {
    if step.Flush? || step.Succeed? {
      assert Holds(s, step.w, s.workers[step.w].job);
      assert s.jobs[s.workers[step.w].job].connection == c ==> WorksFor(s, step.w, c);
    }
  }

  lemma WritesSinceStep(s: State, step: Step, c: ConnectionId, at: Time)
    requires Inv(s) && Allowed(s, step) && at <= s.now
    requires WritesSince(s, c, at)
    ensures WritesSince(Apply(s, step), c, at)
  {
    var t := Apply(s, step);
    forall w: nat | WorksFor(t, w, c)
      ensures t.workers[w].Executing? ==> t.workers[w].at >= at
      ensures t.workers[w].Flushed? ==> AttemptedSince(t, c, at)
    {
      if t.workers[w].Flushed? || t.workers[w].Executing? {
        assert Holds(s, w, s.workers[w].job);
        assert WorksFor(s, w, c);
        if s.workers[w].Flushed? {
          AttemptedSinceStep(s, step, c, at);
        }
      }
    }
  }

  lemma SchedulerOkStep(s: State, step: Step)
    requires Inv(s) && Allowed(s, step) && SchedulerOk(s)
    ensures SchedulerOk(Apply(s, step))
  {
    var t := Apply(s, step);
    forall c, j | j in ScheduledJobs(t, c)
      ensures WritesSince(t, c, t.jobs[j].createdAt)
      ensures ActiveJob(t, j, c) || AttemptedSince(t, c, t.jobs[j].createdAt)
    {
      if j in s.jobs {
        ScheduledJobStep(s, step, j, c);
      } else {
        NewScheduledJob(s, step, c, j);
      }
    }
  }

  lemma ScheduledJobStep(s: State, step: Step, j: JobId, c: ConnectionId)
    requires Inv(s) && Allowed(s, step) && SchedulerOk(s)
    requires j in s.jobs && j in ScheduledJobs(Apply(s, step), c)
    ensures WritesSince(Apply(s, step), c, Apply(s, step).jobs[j].createdAt)
    ensures ActiveJob(Apply(s, step), j, c) || AttemptedSince(Apply(s, step), c, Apply(s, step).jobs[j].createdAt)
  {
    JobStep(s, step, j);
    assert j in ScheduledJobs(s, c);
    assert JobOk(s, s.jobs[j]);
    WritesSinceStep(s, step, c, s.jobs[j].createdAt);
    if AttemptedSince(s, c, s.jobs[j].createdAt) {
      AttemptedSinceStep(s, step, c, s.jobs[j].createdAt);
    } else {
      FinishedIsRecorded(s, step, j, c);
    }
  }

  lemma FinishedIsRecorded(s: State, step: Step, j: JobId, c: ConnectionId)
    requires Inv(s) && Allowed(s, step) && ActiveJob(s, j, c) && WritesSince(s, c, s.jobs[j].createdAt)
    ensures ActiveJob(Apply(s, step), j, c) || AttemptedSince(Apply(s, step), c, s.jobs[j].createdAt)
  {
    JobStep(s, step, j);
    assert JobOk(s, s.jobs[j]);
    assert forall w: nat :: Holds(s, w, j) ==> WorksFor(s, w, c);
  }

  lemma NewScheduledJob(s: State, step: Step, c: ConnectionId, j: JobId)
    requires Inv(s) && Allowed(s, step) && j !in s.jobs
    requires j in ScheduledJobs(Apply(s, step), c)
    ensures ActiveJob(Apply(s, step), j, c)
    ensures WritesSince(Apply(s, step), c, s.now)
    ensures Apply(s, step).jobs[j].createdAt == s.now
  {
    var t := Apply(s, step);
    AddedJob(s, step, j);
    NobodyWorksFor(s, c);
    forall w: nat
      ensures !WorksFor(t, w, c)
    {
      assert !WorksFor(s, w, c);
      assert w < |s.workers| && Busy(s.workers[w]) ==> Holds(s, w, s.workers[w].job);
    }
  }

  lemma NobodyWorksFor(s: State, c: ConnectionId)
    requires Inv(s) && Active(s, c) == {}
    ensures forall w: nat :: !WorksFor(s, w, c)
  {
    forall w: nat
      ensures !WorksFor(s, w, c)
    {
      if w < |s.workers| && Busy(s.workers[w]) {
        assert Holds(s, w, s.workers[w].job);
        assert s.workers[w].job !in Active(s, c);
      }
    }
  }

  lemma {:induction false} SchedulerOkRun(s: State, steps: seq<Step>)
    requires Inv(s) && SchedulerOk(s) && ValidRun(s, steps)
    ensures Inv(Exec(s, steps)) && SchedulerOk(Exec(s, steps))
  {
    if steps != [] {
      var before := steps[..|steps| - 1];
      SchedulerOkRun(s, before);
      InvStep(Exec(s, before), steps[|steps| - 1]);
      SchedulerOkStep(Exec(s, before), steps[|steps| - 1]);
    }
  }

  /** When the scheduler adds a job for a connection, every earlier scheduled job of that
      connection is at least the interval then in force older, whatever workers, retries and
      reconfigurations happened in between. */
  lemma ScheduledJobsSpaced(s: State, earlier: JobId, c: ConnectionId, added: JobId)
    requires Reachable(s) && Allowed(s, Schedule(c, added)) && earlier in ScheduledJobs(s, c)
    ensures s.jobs[earlier].createdAt + s.connections[c].interval * SECOND <= s.now
  {
    var workers: nat, maxAttempts: nat, start: Time, steps: seq<Step> :|
      && maxAttempts >= 1
      && ValidRun(Init(workers, maxAttempts, start), steps)
      && s == Exec(Init(workers, maxAttempts, start), steps);
    SchedulerOkRun(Init(workers, maxAttempts, start), steps);
    assert earlier !in Active(s, c);
  }

  /** Every terminal job was created no later than the last recorded attempt. */
  ghost predicate TerminalRecorded(s: State) {
    forall c, j :: j in s.jobs && s.jobs[j].connection == c && Terminal(s.jobs[j].status) ==>
      AttemptedSince(s, c, s.jobs[j].createdAt) && WritesSince(s, c, s.jobs[j].createdAt)
  }

  ghost predicate OwnRecorded(s: State) {
    forall w: nat :: w < |s.workers| && s.workers[w].Flushed? ==>
      && s.workers[w].job in s.jobs
      && AttemptedSince(s, s.jobs[s.workers[w].job].connection, s.jobs[s.workers[w].job].createdAt)
  }

  lemma TerminalRecordedStep(s: State, step: Step)
    requires Inv(s) && Allowed(s, step) && |s.workers| <= 1
    requires TerminalRecorded(s) && OwnRecorded(s)
    ensures TerminalRecorded(Apply(s, step)) && OwnRecorded(Apply(s, step))
  {
    var t := Apply(s, step);
    forall c, j | j in t.jobs && t.jobs[j].connection == c && Terminal(t.jobs[j].status)
      ensures AttemptedSince(t, c, t.jobs[j].createdAt) && WritesSince(t, c, t.jobs[j].createdAt)
    {
      TerminalJobStep(s, step, j, c);
    }
    if |t.workers| == 1 && t.workers[0].Flushed? {
      HoldStep(s, step, 0, t.workers[0].job);
      JobStep(s, step, t.workers[0].job);
      assert JobOk(s, s.jobs[t.workers[0].job]);
    }
  }

  lemma TerminalJobStep(s: State, step: Step, j: JobId, c: ConnectionId)
    requires Inv(s) && Allowed(s, step) && |s.workers| <= 1
    requires TerminalRecorded(s) && OwnRecorded(s)
    requires j in Apply(s, step).jobs && Apply(s, step).jobs[j].connection == c
    requires Terminal(Apply(s, step).jobs[j].status)
    ensures AttemptedSince(Apply(s, step), c, Apply(s, step).jobs[j].createdAt)
    ensures WritesSince(Apply(s, step), c, Apply(s, step).jobs[j].createdAt)
  {
    assert j !in s.jobs ==> false by {
      if j !in s.jobs {
        AddedJob(s, step, j);
      }
    }
    JobStep(s, step, j);
    assert JobOk(s, s.jobs[j]);
    if Terminal(s.jobs[j].status) {
      AttemptedSinceStep(s, step, c, s.jobs[j].createdAt);
      WritesSinceStep(s, step, c, s.jobs[j].createdAt);
    } else {
      assert |s.workers| == 1 ==> !Busy(Apply(s, step).workers[0]);
    }
  }

  /** With at most one worker the last recorded attempt postdates the creation of every
      terminal job. */
  lemma {:induction false} SingleWorkerRecords(workers: nat, maxAttempts: nat, start: Time, steps: seq<Step>)
    requires workers <= 1 && maxAttempts >= 1 && ValidRun(Init(workers, maxAttempts, start), steps)
    ensures var s := Exec(Init(workers, maxAttempts, start), steps);
            Inv(s) && TerminalRecorded(s) && OwnRecorded(s)
  {
    if steps != [] {
      var before := steps[..|steps| - 1];
      SingleWorkerRecords(workers, maxAttempts, start, before);
      SameLimit(Init(workers, maxAttempts, start), before);
      InvStep(Exec(Init(workers, maxAttempts, start), before), steps[|steps| - 1]);
      TerminalRecordedStep(Exec(Init(workers, maxAttempts, start), before), steps[|steps| - 1]);
    }
  }

  /** No finished job is younger than the last recorded attempt of its connection. */
  ghost predicate AttemptsRecorded(s: State) {
    forall j :: j in s.jobs && Terminal(s.jobs[j].status) ==>
      AttemptedSince(s, s.jobs[j].connection, s.jobs[j].createdAt)
  }

  /** From two workers on the slower one can write its older attempt time over the newer one. */
  lemma SlowerWorkerWritesLast(workers: nat, maxAttempts: nat, start: Time) returns (s: State, j: JobId)
    requires workers >= 2 && maxAttempts >= 1
    ensures From(Init(workers, maxAttempts, start), s) && Has(s, j, Succeeded) && s.jobs[j].connection in s.connections
    ensures s.connections[s.jobs[j].connection].lastAttempt.Some?
    ensures s.connections[s.jobs[j].connection].lastAttempt.value < s.jobs[j].createdAt
    ensures !AttemptsRecorded(s)
  {
    var s0 := Init(workers, maxAttempts, start);
    FromItself(s0);
    var s1 := Take(s0, s0, Configure(0, true, 60));
    assert QueuedJobs(s1, 0) == {};
    var s2 := FirstWorkerBegins(s0, s1);
    s := SecondWorkerOvertakes(s0, s2);
    j := 1;
  }

  lemma FirstWorkerBegins(s0: State, s: State) returns (t: State)
    requires From(s0, s) && s.jobs == map[] && 0 in s.connections && s.connections[0].enabled && QueuedJobs(s, 0) == {}
    requires |s.workers| >= 2 && s.workers[0].Idle? && s.workers[1].Idle?
    ensures From(s0, t) && t.jobs.Keys == {0} && t.now == s.now + 10
    ensures t.jobs[0].connection == 0 && t.jobs[0].status == Running
    ensures 0 in t.connections && t.connections[0].enabled
    ensures |t.workers| >= 2 && t.workers[0] == Executing(0, s.now) && t.workers[1].Idle?
  {
    var s1 := Take(s0, s, Enqueue(0, Manual, 0));
    var s2 := Take(s0, s1, Claim(0, 0));
    var s3 := Take(s0, s2, Begin(0));
    t := Take(s0, s3, Tick(s.now + 10));
  }

  /** Worker 0 began job 0 earlier; worker 1 serves a follow-up completely before worker 0 ends. */
  lemma SecondWorkerOvertakes(s0: State, s: State) returns (t: State)
    requires From(s0, s) && s.jobs.Keys == {0} && s.jobs[0].connection == 0 && s.jobs[0].status == Running
    requires 0 in s.connections && s.connections[0].enabled
    requires |s.workers| >= 2 && s.workers[0] == Executing(0, s.now - 10) && s.workers[1].Idle?
    ensures From(s0, t) && Has(t, 1, Succeeded) && t.jobs[1].connection == 0 && t.jobs[1].createdAt == s.now
    ensures 0 in t.connections && t.connections[0].lastAttempt == Some(s.now - 10)
  {
    assert QueuedJobs(s, 0) == {};
    var s1 := Take(s0, s, Enqueue(0, Manual, 1));
    var s2 := Take(s0, s1, Claim(1, 1));
    var s3 := Take(s0, s2, Begin(1));
    var s4 := Take(s0, s3, Succeed(1));
    t := Take(s0, s4, Succeed(0));
  }

  /** The recorded attempt times can be relied on in every run exactly with at most one worker. */
  lemma AttemptsRecordedIff(workers: nat, maxAttempts: nat, start: Time)
    requires maxAttempts >= 1
    ensures (forall s :: From(Init(workers, maxAttempts, start), s) ==> AttemptsRecorded(s)) <==> workers <= 1
  {
    hide Apply, Allowed, AttemptedSince;
    if workers <= 1 {
      forall s | From(Init(workers, maxAttempts, start), s)
        ensures AttemptsRecorded(s)
      {
        var s0 := Init(workers, maxAttempts, start);
        var steps :| ValidRun(s0, steps) && s == Exec(s0, steps);
        SingleWorkerRecords(workers, maxAttempts, start, steps);
      }
    } else {
      var s, j := SlowerWorkerWritesLast(workers, maxAttempts, start);
    }
  }

  // ---------- Retries back off exponentially ----------

  /** The times at which job j was claimed in a run. */
  ghost function ClaimTimes(s: State, steps: seq<Step>, j: JobId): seq<Time>
    requires ValidRun(s, steps)
  {
    if steps == [] then []
    else
      var before := steps[..|steps| - 1];
      var last := steps[|steps| - 1];
      ClaimTimes(s, before, j)
      + if last.Claim? && last.j == j then [Exec(s, before).now] else []
  }

  ghost predicate BacksOff(times: seq<Time>) {
    forall k :: 0 <= k && k + 1 < |times| ==> times[k + 1] >= times[k] + Pow2(k + 1) * SECOND
  }

  /** The log agrees with what the job records about itself. */
  predicate LogOk(s: State, times: seq<Time>, j: JobId) {
    if j in s.jobs then
      && |times| == s.jobs[j].attempts
      && (times != [] ==> s.jobs[j].startedAt == Some(times[|times| - 1]))
    else times == []
  }

  lemma LogStep(s: State, step: Step, times: seq<Time>, j: JobId)
    requires Inv(s) && Allowed(s, step) && LogOk(s, times, j) && BacksOff(times)
    ensures var more := times + if step.Claim? && step.j == j then [s.now] else [];
            LogOk(Apply(s, step), more, j) && BacksOff(more)
  {
    if step.Claim? && step.j == j {
      assert JobOk(s, s.jobs[j]);
    } else {
      if step.Succeed? || step.Fail? {
        assert Holds(s, step.w, s.workers[step.w].job);
      }
      assert j in Apply(s, step).jobs && j in s.jobs ==>
          && Apply(s, step).jobs[j].attempts == s.jobs[j].attempts
          && Apply(s, step).jobs[j].startedAt == s.jobs[j].startedAt;
    }
  }

  lemma {:induction false} ClaimsBackOff(workers: nat, maxAttempts: nat, start: Time, steps: seq<Step>, j: JobId)
    requires maxAttempts >= 1 && ValidRun(Init(workers, maxAttempts, start), steps)
    ensures var s := Exec(Init(workers, maxAttempts, start), steps);
            var times := ClaimTimes(Init(workers, maxAttempts, start), steps, j);
            BacksOff(times) && LogOk(s, times, j)
  {
    if steps != [] {
      var before := steps[..|steps| - 1];
      var s0 := Init(workers, maxAttempts, start);
      ClaimsBackOff(workers, maxAttempts, start, before, j);
      InvRun(s0, before);
      LogStep(Exec(s0, before), steps[|steps| - 1], ClaimTimes(s0, before, j), j);
    }
  }

  lemma {:induction false} BackoffSum(times: seq<Time>)
    requires BacksOff(times) && times != []
    ensures times[|times| - 1] >= times[0] + (Pow2(|times|) - 2) * SECOND
  {
    if |times| > 1 {
      var front := times[..|times| - 1];
      BackoffSum(front);
      assert times[|times| - 2 + 1] >= times[|times| - 2] + Pow2(|times| - 1) * SECOND;
    }
  }

  /** The n-th claim of a job comes at least 2^n - 2 seconds after its first, and there are
      never more than the permitted number of claims. */
  lemma RetryBackoff(workers: nat, maxAttempts: nat, start: Time, steps: seq<Step>, j: JobId, n: nat)
    requires maxAttempts >= 1 && ValidRun(Init(workers, maxAttempts, start), steps)
    requires 1 <= n <= |ClaimTimes(Init(workers, maxAttempts, start), steps, j)|
    ensures var times := ClaimTimes(Init(workers, maxAttempts, start), steps, j);
            && times[n - 1] >= times[0] + (Pow2(n) - 2) * SECOND
            && |times| <= maxAttempts
  {
    var times := ClaimTimes(Init(workers, maxAttempts, start), steps, j);
    ClaimsBackOff(workers, maxAttempts, start, steps, j);
    assert BacksOff(times[..n]);
    BackoffSum(times[..n]);
    InvRun(Init(workers, maxAttempts, start), steps);
    var s := Exec(Init(workers, maxAttempts, start), steps);
    assert j in s.jobs && JobOk(s, s.jobs[j]);
    SameLimit(Init(workers, maxAttempts, start), steps);
  }

  lemma {:induction false} SameLimit(s: State, steps: seq<Step>)
    requires ValidRun(s, steps)
    ensures Exec(s, steps).maxAttempts == s.maxAttempts
    ensures |Exec(s, steps).workers| == |s.workers|
  {
    hide Apply, Allowed;
    if steps != [] {
      SameLimit(s, steps[..|steps| - 1]);
      LimitStep(Exec(s, steps[..|steps| - 1]), steps[|steps| - 1]);
    }
  }
}
