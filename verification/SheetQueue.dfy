/** The queue functions as the services and the worker call them, over mutable tables.
    Each committed call is proved to be one step of the state machine in SyncQueue. */
module SheetQueue {
  import opened Prelude
  import opened SyncQueue
  import opened SyncQueueInvariants
  import opened SyncQueueSchedule

  datatype QueueError = NotConnected | AutomaticSyncDisabled

  /** How `execute` ends: it may fail before or after it recorded the attempt in its session,
      and instrument refreshes may commit that record before the end. */
  datatype Outcome = Completes(flushes: bool) | Raises(begins: bool, flushes: bool)

  predicate Oldest(s: State, j: JobId, among: set<JobId>) {
    && j in among && j in s.jobs
    && forall k :: k in among && k in s.jobs ==> s.jobs[j].createdAt <= s.jobs[k].createdAt
  }

  class Queue {
    var jobs: map<JobId, Job>
    var connections: map<ConnectionId, Connection>
    var workers: seq<Slot>
    var now: Time
    const maxAttempts: nat

    function View(): State
      reads this
    {
      State(jobs, connections, workers, now, maxAttempts)
    }

    constructor (workerCount: nat, maxAttempts: nat, start: Time)
      ensures View() == Init(workerCount, maxAttempts, start)
    {
      jobs, connections := map[], map[];
      workers := seq(workerCount, _ => Idle);
      now := start;
      this.maxAttempts := maxAttempts;
    }

    /** The `order_by(created_at)` of the job queries. */
    method FindOldest(candidates: set<JobId>) returns (j: JobId)
      requires candidates != {} && candidates <= jobs.Keys
      ensures Oldest(View(), j, candidates)
    {
      j :| j in candidates;
      var rest := candidates - {j};
      while rest != {}
        invariant rest <= candidates && j in candidates
        invariant forall k :: k in candidates - rest ==> jobs[j].createdAt <= jobs[k].createdAt
        decreases rest
      {
        var k :| k in rest;
        rest := rest - {k};
        if jobs[k].createdAt < jobs[j].createdAt {
          j := k;
        }
      }
    }

    method Enqueue(c: ConnectionId, trigger: Trigger, newId: JobId) returns (r: Result<JobId, QueueError>)
      requires trigger != Scheduled && newId !in jobs
      modifies this
      ensures r == Err(NotConnected) <==> c !in old(connections)
      ensures r == Err(AutomaticSyncDisabled) <==>
              c in old(connections) && !old(connections)[c].enabled && trigger != Manual
      ensures r.Err? ==> View() == old(View())
      ensures r.Ok? ==> var step := SyncQueue.Enqueue(c, trigger, r.value);
                        Allowed(old(View()), step) && View() == Apply(old(View()), step)
      ensures r.Ok? && QueuedJobs(old(View()), c) != {} ==>
                && r.value in old(jobs) && View() == old(View())
                && forall k :: k in QueuedJobs(old(View()), c) ==>
                     old(jobs)[r.value].createdAt <= old(jobs)[k].createdAt
      ensures r.Ok? && QueuedJobs(old(View()), c) == {} ==>
                r.value == newId && jobs == old(jobs)[newId := Job(c, trigger, Queued, 0, Some(now), now, None, None)]
    {
      if c !in connections {
        return Err(NotConnected);
      }
      if !connections[c].enabled && trigger != Manual {
        return Err(AutomaticSyncDisabled);
      }
      var existing := QueuedJobs(View(), c);
      if existing != {} {
        var j := FindOldest(existing);
        return Ok(j);
      }
      jobs := jobs[newId := NewJob(c, trigger, now)];
      return Ok(newId);
    }

    /** The event hook of the other services: silent for a missing or disabled connection. */
    method EnqueueEvent(c: ConnectionId, trigger: Trigger, newId: JobId) returns (r: Option<JobId>)
      requires trigger != Scheduled && newId !in jobs
      modifies this
      ensures r.None? <==> c !in old(connections) || !old(connections)[c].enabled
      ensures r.None? ==> View() == old(View())
      ensures r.Some? ==> var step := SyncQueue.Enqueue(c, trigger, r.value);
                          Allowed(old(View()), step) && View() == Apply(old(View()), step)
      ensures r.Some? && QueuedJobs(old(View()), c) == {} ==>
                r.value == newId && jobs == old(jobs)[newId := Job(c, trigger, Queued, 0, Some(now), now, None, None)]
    {
      if c !in connections || !connections[c].enabled {
        return None;
      }
      var existing := QueuedJobs(View(), c);
      if existing != {} {
        var j :| j in existing;
        return Some(j);
      }
      jobs := jobs[newId := NewJob(c, trigger, now)];
      return Some(newId);
    }

    /** Adds one job for every overdue enabled connection without an active job, and for no
        other; fresh ids are taken from `firstId` on. */
    method EnqueueDue(firstId: JobId) returns (steps: seq<Step>)
      requires forall j :: j in jobs ==> j < firstId
      modifies this
      ensures ValidRun(old(View()), steps) && View() == Exec(old(View()), steps)
      ensures forall i :: 0 <= i < |steps| ==> steps[i].Schedule? && Due(old(View()), steps[i].c)
      ensures forall c :: Overdue(View(), c) ==> Active(View(), c) != {}
      ensures forall c :: !Due(old(View()), c) ==> Active(View(), c) == Active(old(View()), c)
      ensures forall j :: j in jobs ==> j < firstId + |steps|
      ensures ScheduledBut(old(View()), jobs, {})
    {
      hide Active, Overdue, Apply, Allowed, ValidRun, Exec, ScheduledBut, Awaits;
      ghost var before := View();
      steps := [];
      NoSteps(before);
      OverdueIsConnected(before);
      var pending := connections.Keys;
      NothingScheduled(before, pending);
      while pending != {}
        invariant View() == before.(jobs := jobs)
        invariant ValidRun(before, steps) && View() == Exec(before, steps)
        invariant forall i :: 0 <= i < |steps| ==> steps[i].Schedule? && Due(before, steps[i].c)
        invariant forall c :: Overdue(before, c) && c !in pending ==> Active(View(), c) != {}
        invariant forall c :: c in pending || !Due(before, c) ==> Active(View(), c) == Active(before, c)
        invariant forall j :: j in jobs ==> j < firstId + |steps|
        invariant ScheduledBut(before, jobs, pending)
        decreases pending
      {
        var c :| c in pending;
        ScheduledNext(before, jobs, pending, c, firstId + |steps|);
        DueMeaning(before, c);
        pending := pending - {c};
        OverdueIgnoresJobs(before, jobs);
        if Overdue(View(), c) && Active(View(), c) == {} {
          var step := Schedule(c, firstId + |steps|);
          ScheduleOne(View(), c, step.added);
          Append1(before, steps, step);
          steps := steps + [step];
          jobs := jobs[step.added := NewJob(c, Scheduled, now)];
        }
      }
      OverdueIgnoresJobs(before, jobs);
    }

    /** Claims the oldest due job that no other transaction has locked. */
    method ClaimNext(w: nat, locked: set<JobId>) returns (r: Option<JobId>)
      requires w < |workers| && workers[w].Idle?
      modifies this
      ensures r.None? ==> View() == old(View())
      ensures r.None? <==> forall j :: Claimable(old(View()), j) ==> j in locked
      ensures r.Some? ==>
                && Allowed(old(View()), Claim(w, r.value))
                && View() == Apply(old(View()), Claim(w, r.value))
                && r.value !in locked
                && forall k :: Claimable(old(View()), k) && k !in locked ==>
                     old(jobs)[r.value].createdAt <= old(jobs)[k].createdAt
      ensures r.Some? ==>
                var job := old(jobs)[r.value];
                && job.status == Queued && (job.nextAttempt.Some? ==> job.nextAttempt.value <= now)
                && jobs == old(jobs)[r.value := job.(status := Running, startedAt := Some(now),
                                                     attempts := job.attempts + 1)]
    {
      var due := set j | j in jobs && Claimable(View(), j) && j !in locked;
      if due == {} {
        assert forall j :: Claimable(View(), j) ==> j in jobs && (j in due || j in locked);
        return None;
      }
      var j := FindOldest(due);
      jobs := jobs[j := jobs[j].(status := Running, startedAt := Some(now), attempts := jobs[j].attempts + 1)];
      workers := workers[w := Claimed(j)];
      return Some(j);
    }

    method RecordFailure(w: nat)
      requires Allowed(View(), Fail(w))
      modifies this
      ensures View() == Apply(old(View()), Fail(w))
    {
      var j := workers[w].job;
      var job := jobs[j];
      connections := connections[job.connection := connections[job.connection].(lastAttempt := Some(now))];
      if job.attempts < maxAttempts {
        job := job.(status := Queued, nextAttempt := Some(now + Pow2(job.attempts) * SECOND));
      } else {
        job := job.(status := Failed, completedAt := Some(now));
      }
      jobs := jobs[j := job];
      workers := workers[w := Idle];
    }

    method RecordSuccess(w: nat)
      requires Allowed(View(), Succeed(w))
      modifies this
      ensures View() == Apply(old(View()), Succeed(w))
    {
      var j := workers[w].job;
      if workers[w].Executing? {
        var c := jobs[j].connection;
        connections := connections[c := connections[c].(lastAttempt := Some(workers[w].at))];
      }
      jobs := jobs[j := jobs[j].(status := Succeeded, completedAt := Some(now))];
      workers := workers[w := Idle];
    }

    /** `execute` notes the attempt in its session. */
    method BeginAttempt(w: nat)
      requires Allowed(View(), Begin(w))
      modifies this
      ensures View() == Apply(old(View()), Begin(w))
    {
      workers := workers[w := Executing(workers[w].job, now)];
    }

    /** A commit inside `execute` makes the noted attempt visible. */
    method FlushAttempt(w: nat)
      requires Allowed(View(), Flush(w))
      modifies this
      ensures View() == Apply(old(View()), Flush(w))
    {
      var j := workers[w].job;
      var c := jobs[j].connection;
      connections := connections[c := connections[c].(lastAttempt := Some(workers[w].at))];
      workers := workers[w := Flushed(j)];
    }

    /** The run of `execute` by worker w on the job it claimed, up to its end. */
    method Attempt(w: nat, begins: bool, flushes: bool) returns (steps: seq<Step>)
      requires w < |workers| && workers[w].Claimed? && Inv(View())
      modifies this
      ensures ValidRun(old(View()), steps) && View() == Exec(old(View()), steps)
      ensures Allowed(View(), Fail(w)) && (begins ==> Allowed(View(), Succeed(w)))
      ensures workers[w := Idle] == old(workers)[w := Idle]
    {
      ghost var s0 := View();
      ghost var j := workers[w].job;
      assert Holds(s0, w, j) && Has(s0, j, Running) && JobOk(s0, jobs[j]);
      steps := [];
      if begins {
        BeginAttempt(w);
        One(s0, Begin(w));
        steps := [Begin(w)];
        if flushes {
          Append1(s0, steps, Flush(w));
          FlushAttempt(w);
          steps := steps + [Flush(w)];
        }
      }
    }

    /** The attempt and the record of its end. */
    method ExecuteClaimed(w: nat, outcome: Outcome) returns (steps: seq<Step>)
      requires w < |workers| && workers[w].Claimed? && Inv(View())
      modifies this
      ensures ValidRun(old(View()), steps) && View() == Exec(old(View()), steps)
      ensures workers == old(workers)[w := Idle]
      ensures steps != [] && steps[|steps| - 1] == if outcome.Completes? then Succeed(w) else Fail(w)
    {
      ghost var s0 := View();
      steps := Attempt(w, outcome.Completes? || outcome.begins, outcome.flushes);
      if outcome.Completes? {
        Append1(s0, steps, Succeed(w));
        RecordSuccess(w);
        steps := steps + [Succeed(w)];
      } else {
        Append1(s0, steps, Fail(w));
        RecordFailure(w);
        steps := steps + [Fail(w)];
      }
    }

    method ScheduleAndClaim(w: nat, locked: set<JobId>, firstId: JobId)
      returns (claimed: Option<JobId>, steps: seq<Step>)
      requires w < |workers| && workers[w].Idle? && Inv(View())
      requires forall j :: j in jobs ==> j < firstId
      modifies this
      ensures ValidRun(old(View()), steps) && View() == Exec(old(View()), steps) && Inv(View())
      ensures workers == if claimed.Some? then old(workers)[w := Claimed(claimed.value)] else old(workers)
      ensures claimed.Some? ==> steps != [] && steps[|steps| - 1] == Claim(w, claimed.value)
      ensures claimed.None? ==> forall i :: 0 <= i < |steps| ==> steps[i].Schedule?
    {
      ghost var s0 := View();
      steps := EnqueueDue(firstId);
      InvRun(s0, steps);
      SameWorkers(s0, steps);
      ghost var s1 := View();
      claimed := ClaimNext(w, locked);
      if claimed.Some? {
        InvStep(s1, Claim(w, claimed.value));
        Append1(s0, steps, Claim(w, claimed.value));
        steps := steps + [Claim(w, claimed.value)];
      }
    }

    /** One worker pass: schedule, claim, execute, record the result. The steps are returned;
        they form a run, so everything proved of runs holds of any interleaving of passes. */
    method ProcessOneJob(w: nat, locked: set<JobId>, firstId: JobId, outcome: Outcome)
      returns (processed: bool, steps: seq<Step>)
      requires w < |workers| && workers[w].Idle? && Inv(View())
      requires forall j :: j in jobs ==> j < firstId
      modifies this
      ensures ValidRun(old(View()), steps) && View() == Exec(old(View()), steps)
      ensures workers == old(workers)
      ensures processed ==> steps != []
      ensures processed ==> steps[|steps| - 1] == if outcome.Completes? then Succeed(w) else Fail(w)
      ensures !processed ==> forall i :: 0 <= i < |steps| ==> steps[i].Schedule?
    {
      ghost var s0 := View();
      var claimed, first := ScheduleAndClaim(w, locked, firstId);
      steps := first;
      processed := claimed.Some?;
      if processed {
        var rest := ExecuteClaimed(w, outcome);
        Append(s0, first, rest);
        steps := first + rest;
      }
    }
  }

  lemma Append1(s: State, steps: seq<Step>, step: Step)
    requires ValidRun(s, steps) && Allowed(Exec(s, steps), step)
    ensures ValidRun(s, steps + [step]) && Exec(s, steps + [step]) == Apply(Exec(s, steps), step)
  {
    One(Exec(s, steps), step);
    Append(s, steps, [step]);
  }

  lemma NoSteps(s: State)
    ensures ValidRun(s, []) && Exec(s, []) == s
  {
  }

  lemma OverdueIsConnected(s: State)
    ensures forall c :: Overdue(s, c) ==> c in s.connections
  {
  }

  lemma OverdueIgnoresJobs(s: State, jobs: map<JobId, Job>)
    ensures forall c :: Overdue(s.(jobs := jobs), c) == Overdue(s, c)
  {
  }

  lemma ScheduleOne(s: State, c: ConnectionId, added: JobId)
    requires Due(s, c) && added !in s.jobs
    ensures var t := s.(jobs := s.jobs[added := NewJob(c, Scheduled, s.now)]);
            && Allowed(s, Schedule(c, added)) && t == Apply(s, Schedule(c, added))
            && Active(t, c) == {added}
            && forall d :: d != c ==> Active(t, d) == Active(s, d)
  {
  }

  lemma {:induction false} SameWorkers(s: State, steps: seq<Step>)
    requires ValidRun(s, steps) && forall i :: 0 <= i < |steps| ==> steps[i].Schedule?
    ensures Exec(s, steps).workers == s.workers
  {
    if steps != [] {
      SameWorkers(s, steps[..|steps| - 1]);
    }
  }
}
