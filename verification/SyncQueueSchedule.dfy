/** What the queue does in the fields of its records: which connections get scheduled jobs, when a
    job waits and when it can be claimed. */
module SyncQueueSchedule {
  import opened Prelude
  import opened SyncQueue
  import opened SyncQueueInvariants
  import R = SyncQueueRuns

  // ---------- The scheduler ----------

  /** The connection is enabled, none of its jobs waits or runs, and the last attempt, or its creation
      if there was none, is at least the interval ago. */
  predicate Awaits(s: State, c: ConnectionId) {
    && c in s.connections && s.connections[c].enabled
    && (forall j :: j in s.jobs && s.jobs[j].connection == c ==>
          s.jobs[j].status != Queued && s.jobs[j].status != Running)
    && var since := s.now - s.connections[c].interval * 1_000_000;
       if s.connections[c].lastAttempt.Some? then s.connections[c].lastAttempt.value <= since
       else s.connections[c].createdAt <= since
  }

  lemma DueMeaning(s: State, c: ConnectionId)
    ensures Due(s, c) <==> Awaits(s, c)
  {
    forall j | j in s.jobs
      ensures j in Active(s, c)
              <==> s.jobs[j].connection == c && (s.jobs[j].status == Queued || s.jobs[j].status == Running)
    {
    }
  }

  function ScheduledJob(c: ConnectionId, now: Time): Job {
    Job(c, Scheduled, Queued, 0, Some(now), now, None, None)
  }

  predicate GetsJob(before: State, after: map<JobId, Job>, c: ConnectionId) {
    exists j :: j in after && j !in before.jobs && after[j].connection == c
  }

  /** The jobs of `after` are those of `before` and one new scheduled job for each connection outside
      `pending` that awaits one. */
  ghost predicate ScheduledBut(before: State, after: map<JobId, Job>, pending: set<ConnectionId>) {
    && (forall j :: j in before.jobs ==> j in after && after[j] == before.jobs[j])
    && (forall j :: j in after && j !in before.jobs ==> after[j] == ScheduledJob(after[j].connection, before.now))
    && (forall i, j :: i in after && j in after && i != j && i !in before.jobs && j !in before.jobs ==>
          after[i].connection != after[j].connection)
    && (forall c :: GetsJob(before, after, c) <==> Awaits(before, c) && c !in pending)
  }

  lemma ScheduledNext(
    before: State, jobs: map<JobId, Job>, pending: set<ConnectionId>, c: ConnectionId, added: JobId)
    requires ScheduledBut(before, jobs, pending) && c in pending && added !in jobs
    ensures Awaits(before, c) ==>
              ScheduledBut(before, jobs[added := ScheduledJob(c, before.now)], pending - {c})
    ensures !Awaits(before, c) ==> ScheduledBut(before, jobs, pending - {c})
  {
    hide Awaits;
    var more := jobs[added := ScheduledJob(c, before.now)];
    forall d
      ensures GetsJob(before, more, d) <==> GetsJob(before, jobs, d) || d == c
    {
      assert added in more && added !in before.jobs;
      if j :| j in jobs && j !in before.jobs && jobs[j].connection == d {
        assert j in more && more[j] == jobs[j];
      }
    }
    assert !GetsJob(before, jobs, c);
  }

  lemma NothingScheduled(before: State, pending: set<ConnectionId>)
    requires before.connections.Keys <= pending
    ensures ScheduledBut(before, before.jobs, pending)
  {
  }

  // ---------- Disabled connections ----------

  /** No step enables the connection. */
  predicate NeverEnables(steps: seq<Step>, c: ConnectionId) {
    forall i :: 0 <= i < |steps| && steps[i].Configure? && steps[i].c == c ==> !steps[i].enabled
  }

  predicate Disabled(s: State, c: ConnectionId) {
    c in s.connections ==> !s.connections[c].enabled
  }

  lemma DisabledStep(s: State, step: Step, c: ConnectionId)
    requires Allowed(s, step) && Disabled(s, c) && NeverEnables([step], c)
    ensures Disabled(Apply(s, step), c)
    ensures forall j :: j in Apply(s, step).jobs && j !in s.jobs && Apply(s, step).jobs[j].connection == c ==>
              Apply(s, step).jobs[j].trigger == Manual
  {
    assert [step][0] == step;
    forall j | j in Apply(s, step).jobs && j !in s.jobs && Apply(s, step).jobs[j].connection == c
      ensures Apply(s, step).jobs[j].trigger == Manual
    {
      AddedJob(s, step, j);
    }
  }

  /** While a connection is disabled, in any run, it gets no other job than manual ones. */
  lemma {:induction false} DisabledOnlyManual(s: State, steps: seq<Step>, c: ConnectionId)
    requires ValidRun(s, steps) && Disabled(s, c) && NeverEnables(steps, c)
    ensures Disabled(Exec(s, steps), c)
    ensures forall j :: j in Exec(s, steps).jobs && j !in s.jobs && Exec(s, steps).jobs[j].connection == c ==>
              Exec(s, steps).jobs[j].trigger == Manual
  {
    hide Apply, Allowed, Disabled;
    if steps != [] {
      var before, last := steps[..|steps| - 1], steps[|steps| - 1];
      assert NeverEnables([last], c);
      DisabledOnlyManual(s, before, c);
      DisabledStep(Exec(s, before), last, c);
      forall j | j in Exec(s, before).jobs
        ensures j in Exec(s, steps).jobs && Exec(s, steps).jobs[j].connection == Exec(s, before).jobs[j].connection
        ensures Exec(s, steps).jobs[j].trigger == Exec(s, before).jobs[j].trigger
      {
        JobStep(Exec(s, before), last, j);
      }
    }
  }

  predicate NeverConfigures(steps: seq<Step>, c: ConnectionId) {
    forall i :: 0 <= i < |steps| && steps[i].Configure? ==> steps[i].c != c
  }

  lemma SettingsStep(s: State, step: Step, c: ConnectionId)
    requires Allowed(s, step) && c in s.connections && !(step.Configure? && step.c == c)
    ensures c in Apply(s, step).connections
    ensures Apply(s, step).connections[c] == s.connections[c].(lastAttempt := Apply(s, step).connections[c].lastAttempt)
  {
  }

  lemma {:induction false} SettingsRun(s: State, steps: seq<Step>, c: ConnectionId)
    requires ValidRun(s, steps) && c in s.connections && NeverConfigures(steps, c)
    ensures c in Exec(s, steps).connections
    ensures Exec(s, steps).connections[c] == s.connections[c].(lastAttempt := Exec(s, steps).connections[c].lastAttempt)
  {
    hide Apply, Allowed;
    if steps != [] {
      SettingsRun(s, steps[..|steps| - 1], c);
      SettingsStep(Exec(s, steps[..|steps| - 1]), steps[|steps| - 1], c);
    }
  }

  /** The settings in force are those of the last configuration; a connection keeps the time of its
      creation. */
  lemma SettingsInForce(s: State, c: ConnectionId, enabled: bool, interval: nat, steps: seq<Step>)
    requires var t := Apply(s, Configure(c, enabled, interval)); ValidRun(t, steps) && NeverConfigures(steps, c)
    ensures var now := Exec(Apply(s, Configure(c, enabled, interval)), steps);
            && c in now.connections && now.connections[c].enabled == enabled && now.connections[c].interval == interval
            && now.connections[c].createdAt == if c in s.connections then s.connections[c].createdAt else s.now
  {
    SettingsRun(Apply(s, Configure(c, enabled, interval)), steps, c);
    hide ValidRun, Exec;
  }

  // ---------- Waiting jobs ----------

  predicate NeverClaims(steps: seq<Step>, j: JobId) {
    forall i :: 0 <= i < |steps| && steps[i].Claim? ==> steps[i].j != j
  }

  lemma {:induction false} WaitingJobStays(s: State, steps: seq<Step>, j: JobId)
    requires Inv(s) && ValidRun(s, steps) && Has(s, j, Queued) && NeverClaims(steps, j)
    ensures j in Exec(s, steps).jobs && Exec(s, steps).jobs[j] == s.jobs[j] && s.now <= Exec(s, steps).now
  {
    hide Apply, Allowed;
    if steps != [] {
      var before := steps[..|steps| - 1];
      WaitingJobStays(s, before, j);
      InvRun(s, before);
      JobStep(Exec(s, before), steps[|steps| - 1], j);
      assert forall w :: Holds(Exec(s, before), w, j) ==> Has(Exec(s, before), j, Running);
    }
  }

  /** A new job can be claimed at once, and as long as nobody has claimed it. */
  lemma NewJobWaits(s: State, c: ConnectionId, trigger: Trigger, added: JobId, rest: seq<Step>)
    requires Inv(s) && added !in s.jobs && NeverClaims(rest, added)
    requires Allowed(s, Enqueue(c, trigger, added)) && ValidRun(Apply(s, Enqueue(c, trigger, added)), rest)
    ensures var t := Exec(Apply(s, Enqueue(c, trigger, added)), rest);
            && Claimable(t, added) && t.jobs[added].connection == c && t.jobs[added].trigger == trigger
            && t.jobs[added].createdAt == s.now && t.jobs[added].attempts == 0
  {
    InvStep(s, Enqueue(c, trigger, added));
    WaitingJobStays(Apply(s, Enqueue(c, trigger, added)), rest, added);
    hide ValidRun, Exec, Inv, Allowed;
  }

  /** After a failure below the limit the job waits for exactly two to the power of its attempts in
      seconds; at the limit it has failed for good. */
  lemma RetryWaits(s: State, w: nat, rest: seq<Step>)
    requires Inv(s) && Allowed(s, Fail(w)) && ValidRun(Apply(s, Fail(w)), rest) && NeverClaims(rest, s.workers[w].job)
    ensures var j, t := s.workers[w].job, Exec(Apply(s, Fail(w)), rest);
            && j in t.jobs && t.jobs[j].attempts == s.jobs[j].attempts
            && (s.jobs[j].attempts < s.maxAttempts ==>
                  t.jobs[j].status == Queued
                  && (Claimable(t, j) <==> s.now + Pow2(s.jobs[j].attempts) * 1_000_000 <= t.now))
            && (s.jobs[j].attempts >= s.maxAttempts ==>
                  t.jobs[j].status == Failed && t.jobs[j].completedAt == Some(s.now))
  {
    var j, t := s.workers[w].job, Apply(s, Fail(w));
    InvStep(s, Fail(w));
    if s.jobs[j].attempts < s.maxAttempts {
      WaitingJobStays(t, rest, j);
    } else {
      R.TerminalForever(t, rest, j);
    }
    hide ValidRun, Exec, Inv, Allowed, Pow2;
  }

  /** A job that succeeds keeps the time of its success. */
  lemma SuccessStays(s: State, w: nat, rest: seq<Step>)
    requires Inv(s) && Allowed(s, Succeed(w)) && ValidRun(Apply(s, Succeed(w)), rest)
    ensures var j, t := s.workers[w].job, Exec(Apply(s, Succeed(w)), rest);
            j in t.jobs && t.jobs[j] == s.jobs[j].(status := Succeeded, completedAt := Some(s.now))
  {
    InvStep(s, Succeed(w));
    R.TerminalForever(Apply(s, Succeed(w)), rest, s.workers[w].job);
    hide ValidRun, Exec, Inv, Allowed;
  }
}
