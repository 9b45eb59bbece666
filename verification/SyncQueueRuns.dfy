/** Theorems about every run of the sheet-sync queue: no event is lost, terminal jobs stay as
    they are, what a crash leaves behind, and how many jobs can be active or queued. */
module SyncQueueRuns {
  import opened SyncQueue
  import opened SyncQueueInvariants

  // ---------- No event is lost ----------

  /** Job j still waits, or its latest attempt started no earlier than t. */
  predicate ServedAfter(s: State, j: JobId, t: Time) {
    && j in s.jobs
    && (s.jobs[j].status == Queued
        || (s.jobs[j].startedAt.Some? && s.jobs[j].startedAt.value >= t))
  }

  lemma {:induction false} ServedAfterRun(s: State, steps: seq<Step>, j: JobId, t: Time)
    requires Inv(s) && ValidRun(s, steps) && ServedAfter(s, j, t) && t <= s.now
    ensures ServedAfter(Exec(s, steps), j, t) && s.now <= Exec(s, steps).now
  {
    if steps != [] {
      var before := steps[..|steps| - 1];
      var last := steps[|steps| - 1];
      var u := Exec(s, before);
      ServedAfterRun(s, before, j, t);
      InvRun(s, before);
      ServedAfterStep(u, last, j, t);
    }
  }

  lemma ServedAfterStep(s: State, step: Step, j: JobId, t: Time)
    requires Inv(s) && Allowed(s, step) && ServedAfter(s, j, t) && t <= s.now
    ensures ServedAfter(Apply(s, step), j, t) && s.now <= Apply(s, step).now
  {
    JobStep(s, step, j);
    assert (step.Succeed? || step.Fail?) && Holds(s, step.w, j) ==> Has(s, j, Running);
  }

  /** Whatever happens after an event was answered with job `answer`, that job waits, or it
      was started after the event; a SUCCEEDED one therefore read the sheet after it. */
  lemma NoEventLost(s: State, c: ConnectionId, trigger: Trigger, answer: JobId, rest: seq<Step>)
    requires Reachable(s) && Allowed(s, Enqueue(c, trigger, answer))
    requires ValidRun(Apply(s, Enqueue(c, trigger, answer)), rest)
    ensures var t := Exec(Apply(s, Enqueue(c, trigger, answer)), rest);
            && ServedAfter(t, answer, s.now)
            && t.jobs[answer].connection == c
            && (t.jobs[answer].status == Succeeded ==>
                  && t.jobs[answer].startedAt.Some? && t.jobs[answer].completedAt.Some?
                  && s.now <= t.jobs[answer].startedAt.value <= t.jobs[answer].completedAt.value)
  {
    ReachableInv(s);
    var step := Enqueue(c, trigger, answer);
    var u := Apply(s, step);
    InvStep(s, step);
    assert answer in s.jobs ==> answer in QueuedJobs(s, c);
    ServedAfterRun(u, rest, answer, s.now);
    InvRun(u, rest);
    KeepsConnection(u, rest, answer);
    assert JobOk(Exec(u, rest), Exec(u, rest).jobs[answer]);
  }

  lemma {:induction false} KeepsConnection(s: State, steps: seq<Step>, j: JobId)
    requires ValidRun(s, steps) && j in s.jobs
    ensures j in Exec(s, steps).jobs
    ensures Exec(s, steps).jobs[j].connection == s.jobs[j].connection
    ensures Exec(s, steps).jobs[j].createdAt == s.jobs[j].createdAt
    ensures Exec(s, steps).jobs[j].trigger == s.jobs[j].trigger
  {
    if steps != [] {
      var before := steps[..|steps| - 1];
      KeepsConnection(s, before, j);
      JobStep(Exec(s, before), steps[|steps| - 1], j);
    }
  }

  /** The step neither claims a job of c nor queues a failed one again. */
  predicate Merging(s: State, step: Step, c: ConnectionId) {
    && (step.Claim? && step.j in s.jobs ==> s.jobs[step.j].connection != c)
    && (step.Fail? ==> forall j :: j in s.jobs && Holds(s, step.w, j) ==>
          s.jobs[j].connection != c || s.jobs[j].attempts >= s.maxAttempts)
  }

  ghost predicate MergesAlong(s: State, steps: seq<Step>, c: ConnectionId)
    requires ValidRun(s, steps)
  {
    steps == []
    || (MergesAlong(s, steps[..|steps| - 1], c) && Merging(Exec(s, steps[..|steps| - 1]), steps[|steps| - 1], c))
  }

  lemma MergingStep(s: State, step: Step, c: ConnectionId)
    requires Inv(s) && Allowed(s, step) && Merging(s, step, c) && |QueuedJobs(s, c)| <= 1
    ensures |QueuedJobs(Apply(s, step), c)| <= 1
    ensures forall j :: QueuedJobs(s, c) == {j} ==> QueuedJobs(Apply(s, step), c) == {j}
    ensures step.Enqueue? && step.c == c ==> QueuedJobs(Apply(s, step), c) == {step.answer}
  {
    QueuedStays(s, step, c);
    MergingAdds(s, step, c);
    if step.Enqueue? && step.c == c {
      assert step.answer in QueuedJobs(Apply(s, step), c);
    }
    hide Inv, Apply, Allowed, Merging, QueuedJobs;
    OneElement(QueuedJobs(Apply(s, step), c));
    OneElement(QueuedJobs(s, c));
  }

  lemma OneElement(jobs: set<JobId>)
    ensures |jobs| <= 1 ==> forall j :: j in jobs ==> jobs == {j}
  {
    if |jobs| <= 1 {
      forall j | j in jobs
        ensures jobs == {j}
      {
        CardinalityMonotone({j}, jobs);
        assert |jobs - {j}| == 0;
        assert jobs == {j} + (jobs - {j});
      }
    }
  }

  lemma QueuedStays(s: State, step: Step, c: ConnectionId)
    requires Inv(s) && Allowed(s, step) && Merging(s, step, c)
    ensures QueuedJobs(s, c) <= QueuedJobs(Apply(s, step), c)
  {
    forall j | j in QueuedJobs(s, c)
      ensures j in QueuedJobs(Apply(s, step), c)
    {
      JobStep(s, step, j);
      assert forall w :: Holds(s, w, j) ==> Has(s, j, Running);
    }
  }

  lemma MergingAdds(s: State, step: Step, c: ConnectionId)
    requires Inv(s) && Allowed(s, step) && Merging(s, step, c) && |QueuedJobs(s, c)| <= 1
    ensures |QueuedJobs(Apply(s, step), c)| <= 1
  {
    SecondQueuedJobOnlyByRetry(s, step, c);
    if step.Fail? {
      assert Holds(s, step.w, s.workers[step.w].job);
    }
  }

  /** Events coalesce: whatever workers and scheduler do in the meantime, running passes included,
      as long as no job of c is claimed and no failed one is queued again, all events of c are
      answered with one and the same job, the only one QUEUED. */
  lemma {:induction false} EventsCoalesce(s: State, steps: seq<Step>, c: ConnectionId)
    requires Inv(s) && ValidRun(s, steps) && MergesAlong(s, steps, c) && |QueuedJobs(s, c)| <= 1
    ensures |QueuedJobs(Exec(s, steps), c)| <= 1
    ensures forall j :: QueuedJobs(s, c) == {j} ==> QueuedJobs(Exec(s, steps), c) == {j}
    ensures forall i :: 0 <= i < |steps| && steps[i].Enqueue? && steps[i].c == c ==>
              QueuedJobs(Exec(s, steps), c) == {steps[i].answer}
  {
    hide Inv, Apply, Allowed, Merging, QueuedJobs;
    if steps != [] {
      var before, last := steps[..|steps| - 1], steps[|steps| - 1];
      EventsCoalesce(s, before, c);
      InvRun(s, before);
      MergingStep(Exec(s, before), last, c);
      forall i | 0 <= i < |steps| && steps[i].Enqueue? && steps[i].c == c
        ensures QueuedJobs(Exec(s, steps), c) == {steps[i].answer}
      {
        assert i < |before| ==> before[i] == steps[i];
      }
    }
  }

  // ---------- Terminal states are absorbing ----------

  lemma {:induction false} TerminalForever(s: State, steps: seq<Step>, j: JobId)
    requires Inv(s) && ValidRun(s, steps) && j in s.jobs && Terminal(s.jobs[j].status)
    ensures j in Exec(s, steps).jobs && Exec(s, steps).jobs[j] == s.jobs[j]
  {
    if steps != [] {
      var before := steps[..|steps| - 1];
      var last := steps[|steps| - 1];
      TerminalForever(s, before, j);
      InvRun(s, before);
      var u := Exec(s, before);
      JobStep(u, last, j);
      assert forall w :: Holds(u, w, j) ==> Has(u, j, Running);
    }
  }

  // ---------- Crashed workers ----------

  /** RUNNING jobs that no worker holds any more. */
  ghost function Orphans(s: State): set<JobId> {
    set j | j in s.jobs && s.jobs[j].status == Running && !exists w: nat :: Holds(s, w, j)
  }

  lemma OrphansStep(s: State, step: Step)
    requires Inv(s) && Allowed(s, step)
    ensures Orphans(Apply(s, step)) ==
            Orphans(s) + (if step.Crash? then {s.workers[step.w].job} else {})
    ensures step.Crash? ==> s.workers[step.w].job !in Orphans(s)
    ensures forall j :: j in Orphans(s) ==> Apply(s, step).jobs[j] == s.jobs[j]
  {
    var t := Apply(s, step);
    forall j | j in t.jobs
      ensures j in Orphans(t) <==>
              j in Orphans(s) || (step.Crash? && j == s.workers[step.w].job)
      ensures j in Orphans(s) ==> t.jobs[j] == s.jobs[j]
    {
      OrphanStep(s, step, j);
    }
    forall j | j in s.jobs
      ensures j in t.jobs
    {
      JobStep(s, step, j);
    }
    if step.Crash? {
      assert Holds(s, step.w, s.workers[step.w].job);
    }
  }

  lemma OrphanStep(s: State, step: Step, j: JobId)
    requires Inv(s) && Allowed(s, step) && j in Apply(s, step).jobs
    ensures j in Orphans(Apply(s, step)) <==>
            j in Orphans(s) || (step.Crash? && j == s.workers[step.w].job)
    ensures j in Orphans(s) ==> Apply(s, step).jobs[j] == s.jobs[j]
  {
    var t := Apply(s, step);
    if j !in s.jobs {
      AddedJob(s, step, j);
    } else {
      JobStep(s, step, j);
      forall w: nat
        ensures Holds(t, w, j) <==>
                || step == Claim(w, j)
                || (Holds(s, w, j) && step != Succeed(w) && step != Fail(w) && step != Crash(w))
      {
        HoldStep(s, step, w, j);
      }
      if step.Crash? {
        var crashed := s.workers[step.w].job;
        assert Holds(s, step.w, crashed);
        assert Has(s, crashed, Running);
        assert j == crashed ==> forall w: nat :: Holds(s, w, j) ==> w == step.w;
      }
    }
  }

  /** A job whose worker crashed stays RUNNING for ever, and from then on the scheduler
      never adds a job for its connection. */
  lemma {:induction false} OrphanForever(s: State, steps: seq<Step>, j: JobId)
    requires Inv(s) && ValidRun(s, steps) && j in Orphans(s)
    ensures j in Orphans(Exec(s, steps)) && Exec(s, steps).jobs[j] == s.jobs[j]
    ensures forall k :: k in ScheduledJobs(Exec(s, steps), s.jobs[j].connection) ==> k in s.jobs
  {
    if steps != [] {
      var before := steps[..|steps| - 1];
      var last := steps[|steps| - 1];
      var u := Exec(s, before);
      var c := s.jobs[j].connection;
      OrphanForever(s, before, j);
      InvRun(s, before);
      OrphansStep(u, last);
      assert j in Active(u, c);
      assert !Due(u, c);
      forall k | k in ScheduledJobs(Exec(s, steps), c)
        ensures k in ScheduledJobs(u, c)
      {
        NotScheduledHere(u, last, c, k);
      }
    }
  }

  lemma NotScheduledHere(s: State, step: Step, c: ConnectionId, k: JobId)
    requires Allowed(s, step) && !Due(s, c) && k in ScheduledJobs(Apply(s, step), c)
    ensures k in ScheduledJobs(s, c)
  {
    if k in s.jobs {
      JobStep(s, step, k);
    } else {
      AddedJob(s, step, k);
      assert false;
    }
  }

  function ScheduledJobs(s: State, c: ConnectionId): set<JobId> {
    set j | j in s.jobs && s.jobs[j].connection == c && s.jobs[j].trigger == Scheduled
  }

  function Crashes(steps: seq<Step>): nat {
    if steps == [] then 0
    else Crashes(steps[..|steps| - 1]) + if steps[|steps| - 1].Crash? then 1 else 0
  }

  // ---------- The queue is bounded ----------

  function Held(workers: seq<Slot>): set<JobId> {
    set w | 0 <= w < |workers| && Busy(workers[w]) :: workers[w].job
  }

  lemma {:induction false} HeldAtMost(workers: seq<Slot>)
    ensures |Held(workers)| <= |workers|
  {
    if workers != [] {
      var front := workers[..|workers| - 1];
      var last := workers[|workers| - 1];
      HeldAtMost(front);
      assert Held(workers) == Held(front) + if Busy(last) then {last.job} else {} by {
        forall j | j in Held(workers)
          ensures j in Held(front) || (Busy(last) && j == last.job)
        {
          var w :| 0 <= w < |workers| && Busy(workers[w]) && workers[w].job == j;
          assert w < |front| ==> front[w] == workers[w];
        }
        forall j | j in Held(front)
          ensures j in Held(workers)
        {
          var w :| 0 <= w < |front| && Busy(front[w]) && front[w].job == j;
          assert workers[w] == front[w];
        }
      }
    }
  }

  lemma CardinalityMonotone<T>(a: set<T>, b: set<T>)
    requires a <= b
    ensures |a| <= |b|
  {
    assert b == a + (b - a);
  }

  ghost predicate Bounded(s: State) {
    forall c :: |Active(s, c)| <= |s.workers| + |Orphans(s)| + 1
  }

  /** With nothing QUEUED, the active jobs of a connection are held or orphaned. */
  lemma RunningAtMost(s: State, c: ConnectionId)
    requires Inv(s) && QueuedJobs(s, c) == {}
    ensures |Active(s, c)| <= |s.workers| + |Orphans(s)|
  {
    HeldAtMost(s.workers);
    forall j | j in Active(s, c)
      ensures j in Held(s.workers) + Orphans(s)
    {
      assert j !in QueuedJobs(s, c);
      if j !in Orphans(s) {
        var w: nat :| Holds(s, w, j);
        assert s.workers[w].job in Held(s.workers);
      }
    }
    CardinalityMonotone(Active(s, c), Held(s.workers) + Orphans(s));
  }

  /** The only steps that add an active job add exactly one, to a connection with nothing
      QUEUED. */
  lemma ActiveStep(s: State, step: Step, c: ConnectionId)
    requires Inv(s) && Allowed(s, step)
    ensures Active(Apply(s, step), c) <= Active(s, c)
            || (QueuedJobs(s, c) == {} && exists j :: Active(Apply(s, step), c) == Active(s, c) + {j})
  {
    var t := Apply(s, step);
    forall j | j in Active(t, c) && j in s.jobs
      ensures j in Active(s, c)
    {
      JobStep(s, step, j);
      assert (step.Succeed? || step.Fail?) && Holds(s, step.w, j) ==> Has(s, j, Running);
    }
    if j :| j in Active(t, c) && j !in s.jobs {
      AddsOneJob(s, step, c, j);
      assert Active(t, c) == Active(s, c) + {j};
    }
  }

  lemma BoundedStep(s: State, step: Step)
    requires Inv(s) && Allowed(s, step) && Bounded(s)
    ensures Bounded(Apply(s, step))
  {
    hide Inv, Apply, Allowed, Active, Orphans, QueuedJobs;
    OrphansStep(s, step);
    LimitStep(s, step);
    CardinalityMonotone(Orphans(s), Orphans(Apply(s, step)));
    forall c
      ensures |Active(Apply(s, step), c)| <= |s.workers| + |Orphans(s)| + 1
    {
      BoundedConnection(s, step, c);
    }
  }

  lemma BoundedConnection(s: State, step: Step, c: ConnectionId)
    requires Inv(s) && Allowed(s, step) && |Active(s, c)| <= |s.workers| + |Orphans(s)| + 1
    ensures |Active(Apply(s, step), c)| <= |s.workers| + |Orphans(s)| + 1
  {
    hide Inv, Apply, Allowed, Active, Orphans, QueuedJobs;
    ActiveStep(s, step, c);
    if Active(Apply(s, step), c) <= Active(s, c) {
      CardinalityMonotone(Active(Apply(s, step), c), Active(s, c));
    } else {
      RunningAtMost(s, c);
    }
  }

  /** With W workers, no connection ever has more than W + 1 QUEUED or RUNNING jobs, plus one
      for each crash; and never two QUEUED jobs that were not yet tried. */
  lemma {:induction false} QueueBound(workers: nat, maxAttempts: nat, start: Time, steps: seq<Step>)
    requires maxAttempts >= 1 && ValidRun(Init(workers, maxAttempts, start), steps)
    ensures var s := Exec(Init(workers, maxAttempts, start), steps);
            && Inv(s) && Bounded(s) && |s.workers| == workers && |Orphans(s)| == Crashes(steps)
            && (forall c :: |Active(s, c)| <= workers + 1 + Crashes(steps))
            && (forall c, j, k :: Fresh(s, j, c) && Fresh(s, k, c) ==> j == k)
  {
    if steps == [] {
      assert Orphans(Init(workers, maxAttempts, start)) == {};
      assert forall c :: Active(Init(workers, maxAttempts, start), c) == {};
    } else {
      var before := steps[..|steps| - 1];
      var u := Exec(Init(workers, maxAttempts, start), before);
      QueueBound(workers, maxAttempts, start, before);
      InvStep(u, steps[|steps| - 1]);
      BoundedStep(u, steps[|steps| - 1]);
      OrphansStep(u, steps[|steps| - 1]);
    }
  }

  /** What one step does to the QUEUED jobs of a connection. */
  lemma QueuedStep(s: State, step: Step, c: ConnectionId)
    requires Inv(s) && Allowed(s, step) && !step.Fail?
    ensures || QueuedJobs(Apply(s, step), c) <= QueuedJobs(s, c)
            || exists j :: QueuedJobs(Apply(s, step), c) == {j}
  {
    var t := Apply(s, step);
    forall j | j in QueuedJobs(t, c) && j in s.jobs
      ensures j in QueuedJobs(s, c)
    {
      JobStep(s, step, j);
    }
    if j :| j in QueuedJobs(t, c) && j !in s.jobs {
      AddsOneJob(s, step, c, j);
      assert QueuedJobs(t, c) == {j};
    }
  }

  lemma QueuedAfterFailure(s: State, w: nat, c: ConnectionId)
    requires Inv(s) && Allowed(s, Fail(w))
    ensures var j := s.workers[w].job;
            && j !in QueuedJobs(s, c)
            && QueuedJobs(Apply(s, Fail(w)), c) ==
                 if s.jobs[j].connection == c && s.jobs[j].attempts < s.maxAttempts
                 then QueuedJobs(s, c) + {j} else QueuedJobs(s, c)
  {
    assert Holds(s, w, s.workers[w].job);
  }

  /** "At most one QUEUED job per connection" is kept by every step except a retry that
      meets a follow-up queued while the job was running. */
  lemma SecondQueuedJobOnlyByRetry(s: State, step: Step, c: ConnectionId)
    requires Inv(s) && Allowed(s, step) && |QueuedJobs(s, c)| <= 1
    ensures |QueuedJobs(Apply(s, step), c)| > 1 <==>
            && step.Fail?
            && s.jobs[s.workers[step.w].job].connection == c
            && s.jobs[s.workers[step.w].job].attempts < s.maxAttempts
            && QueuedJobs(s, c) != {}
  {
    if step.Fail? {
      QueuedAfterFailure(s, step.w, c);
    } else {
      QueuedStep(s, step, c);
    }
    if !step.Fail? && QueuedJobs(Apply(s, step), c) <= QueuedJobs(s, c) {
      CardinalityMonotone(QueuedJobs(Apply(s, step), c), QueuedJobs(s, c));
    }
  }

  /** Worker 0 fails while a follow-up waits: two QUEUED jobs. */
  lemma TwoQueuedJobs(workers: nat, maxAttempts: nat, start: Time) returns (s: State)
    requires workers >= 1 && maxAttempts >= 2
    ensures From(Init(workers, maxAttempts, start), s) && QueuedJobs(s, 0) == {0, 1}
  {
    var s0 := Init(workers, maxAttempts, start);
    var running := RunningJob(s0);
    s := RetryMeetsFollowUp(s0, running);
  }

  lemma RetryMeetsFollowUp(s0: State, s: State) returns (t: State)
    requires From(s0, s) && s.jobs.Keys == {0} && s.maxAttempts >= 2 && 0 in s.connections && s.connections[0].enabled
    requires s.jobs[0].connection == 0 && s.jobs[0].status == Running && s.jobs[0].attempts == 1
    requires |s.workers| >= 1 && s.workers[0] == Claimed(0)
    ensures From(s0, t) && QueuedJobs(t, 0) == {0, 1}
  {
    assert QueuedJobs(s, 0) == {};
    var s1 := Take(s0, s, Enqueue(0, Manual, 1));
    assert s1.jobs.Keys == {0, 1};
    t := Take(s0, s1, Fail(0));
  }

  /** A retry ends the merging without any claim: two events that arrive around it are answered
      with two jobs. */
  lemma RetryEndsMerging(workers: nat, maxAttempts: nat, start: Time) returns (s: State, steps: seq<Step>)
    requires workers >= 1 && maxAttempts >= 2
    ensures From(Init(workers, maxAttempts, start), s) && QueuedJobs(s, 0) == {}
    ensures steps == [Enqueue(0, Manual, 1), Fail(0), Enqueue(0, Manual, 0)] && ValidRun(s, steps)
  {
    var s0 := Init(workers, maxAttempts, start);
    s := RunningJob(s0);
    var s1 := Apply(s, Enqueue(0, Manual, 1));
    var s2 := Apply(s1, Fail(0));
    One(s, Enqueue(0, Manual, 1));
    One(s1, Fail(0));
    assert 0 in QueuedJobs(s2, 0);
    One(s2, Enqueue(0, Manual, 0));
    Append(s1, [Fail(0)], [Enqueue(0, Manual, 0)]);
    Append(s, [Enqueue(0, Manual, 1)], [Fail(0)] + [Enqueue(0, Manual, 0)]);
    steps := [Enqueue(0, Manual, 1), Fail(0), Enqueue(0, Manual, 0)];
    assert steps == [Enqueue(0, Manual, 1)] + ([Fail(0)] + [Enqueue(0, Manual, 0)]);
  }

  /** Worker 0 runs the only job of connection 0. */
  lemma RunningJob(s0: State) returns (s: State)
    requires s0.jobs == map[] && s0.connections == map[] && s0.maxAttempts >= 2
    requires |s0.workers| >= 1 && s0.workers[0].Idle?
    ensures From(s0, s) && s.jobs.Keys == {0} && s.maxAttempts >= 2 && 0 in s.connections && s.connections[0].enabled
    ensures s.jobs[0].connection == 0 && s.jobs[0].status == Running && s.jobs[0].attempts == 1
    ensures |s.workers| >= 1 && s.workers[0] == Claimed(0) && QueuedJobs(s, 0) == {}
  {
    FromItself(s0);
    var s1 := Take(s0, s0, Configure(0, true, 60));
    assert QueuedJobs(s1, 0) == {};
    var s2 := Take(s0, s1, Enqueue(0, Manual, 0));
    s := Take(s0, s2, Claim(0, 0));
  }

  /** Without a retry no connection ever has a second QUEUED job. */
  lemma {:induction false} OneQueuedWithoutRetry(
    workers: nat, maxAttempts: nat, start: Time, steps: seq<Step>, c: ConnectionId)
    requires maxAttempts == 1 || (maxAttempts >= 1 && workers == 0)
    requires ValidRun(Init(workers, maxAttempts, start), steps)
    ensures var s := Exec(Init(workers, maxAttempts, start), steps);
            Inv(s) && |s.workers| == workers && s.maxAttempts == maxAttempts && |QueuedJobs(s, c)| <= 1
  {
    var s0 := Init(workers, maxAttempts, start);
    if steps == [] {
      assert QueuedJobs(s0, c) == {};
    } else {
      var before, step := steps[..|steps| - 1], steps[|steps| - 1];
      OneQueuedWithoutRetry(workers, maxAttempts, start, before, c);
      var s := Exec(s0, before);
      InvStep(s, step);
      LimitStep(s, step);
      if step.Fail? {
        NoRetryLeft(s, step);
      }
      SecondQueuedJobOnlyByRetry(s, step, c);
    }
  }

  lemma LimitStep(s: State, step: Step)
    requires Allowed(s, step)
    ensures Apply(s, step).maxAttempts == s.maxAttempts && |Apply(s, step).workers| == |s.workers|
  {
  }

  lemma NoRetryLeft(s: State, step: Step)
    requires Inv(s) && Allowed(s, step) && step.Fail? && s.maxAttempts == 1
    ensures s.jobs[s.workers[step.w].job].attempts == s.maxAttempts
  {
    var j := s.workers[step.w].job;
    assert Holds(s, step.w, j);
    assert JobOk(s, s.jobs[j]);
  }

  /** A connection can come to have two QUEUED jobs exactly if there is a worker and a job may be
      tried more than once. */
  lemma TwoQueuedJobsIff(workers: nat, maxAttempts: nat, start: Time)
    requires maxAttempts >= 1
    ensures (exists s, c :: From(Init(workers, maxAttempts, start), s) && |QueuedJobs(s, c)| > 1)
            <==> workers >= 1 && maxAttempts >= 2
  {
    hide Apply, Allowed, QueuedJobs;
    if workers >= 1 && maxAttempts >= 2 {
      var s := TwoQueuedJobs(workers, maxAttempts, start);
      assert |QueuedJobs(s, 0)| > 1;
    } else {
      forall s, c | From(Init(workers, maxAttempts, start), s)
        ensures |QueuedJobs(s, c)| <= 1
      {
        var s0 := Init(workers, maxAttempts, start);
        var steps :| ValidRun(s0, steps) && s == Exec(s0, steps);
        OneQueuedWithoutRetry(workers, maxAttempts, start, steps, c);
      }
    }
  }
}
