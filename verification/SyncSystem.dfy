/** The queue and the pass together: workers read a sheet when they run a job, write their batch
    later, and users edit the sheet at any time. */
module SyncSystem {
  import opened Prelude
  import opened Cells
  import opened SheetConnection
  import opened SheetGateway
  import opened SheetSync
  import opened SheetSyncRows
  import opened SheetSyncBatch
  import Q = SyncQueue
  import I = SyncQueueInvariants
  import R = SyncQueueRuns

  /** What a pass has read, and the answers of the exchange that it works with. */
  datatype Reading = Reading(at: Q.Time, world: World, rows: seq<Row>)

  datatype Made = Made(connection: Q.ConnectionId, reading: Reading)

  /** `made` are all readings so far, `shown` is the one behind the latest batch of a connection, and
      `answered` is the time of the latest event that was answered with a job. None is stored. */
  datatype System = System(
    queue: Q.State, sheets: map<Q.ConnectionId, Sheet>, readings: map<nat, Reading>, written: set<nat>,
    made: seq<Made>, shown: map<Q.ConnectionId, Reading>, answered: map<Q.JobId, Q.Time>)

  datatype Event =
    | Queue(step: Q.Step)
    | Read(worker: nat, world: World, rows: seq<Row>)
    | Write(worker: nat)
    | Edit(connection: Q.ConnectionId, sheet: Sheet)

  /** The columns of each connection, which do not change during a run. */
  type Configs = Q.ConnectionId -> Config

  ghost predicate ValidConfigs(configs: Configs) {
    forall c :: ValidConfig(configs(c))
  }

  // ---------- One event ----------

  predicate Works(q: Q.State, w: nat) {
    && w < |q.workers| && (q.workers[w].Executing? || q.workers[w].Flushed?)
    && q.workers[w].job in q.jobs
  }

  function ConnectionOf(q: Q.State, w: nat): Q.ConnectionId
    requires Works(q, w)
  {
    q.jobs[q.workers[w].job].connection
  }

  /** A user edits any cells of data rows except the results. */
  ghost predicate UserEdit(config: Config, before: Sheet, after: Sheet) {
    forall k: Address :: OutputColumn(config, k.1) ==> SameCell(before, after, k)
  }

  ghost predicate Allowed(configs: Configs, s: System, e: Event) {
    match e
    case Queue(step) => Q.Allowed(s.queue, step) && (step.Succeed? ==> step.w in s.written)
    case Read(w, _, rows) =>
      && Works(s.queue, w) && w !in s.readings
      && ConnectionOf(s.queue, w) in s.sheets
      && ReadsRows(configs(ConnectionOf(s.queue, w)), s.sheets[ConnectionOf(s.queue, w)], rows)
    case Write(w) => && Works(s.queue, w) && w in s.readings && w !in s.written
                     && ConnectionOf(s.queue, w) in s.sheets
    case Edit(c, sheet) => c in s.sheets && UserEdit(configs(c), s.sheets[c], sheet)
  }

  /** A worker that begins or ends a job holds no reading. */
  function Forget(step: Q.Step): set<nat> {
    if step.Claim? || step.Succeed? || step.Fail? || step.Crash? then {step.w} else {}
  }

  ghost function Apply(configs: Configs, s: System, e: Event): System
    requires Allowed(configs, s, e)
  {
    match e
    case Queue(step) =>
      s.(queue := Q.Apply(s.queue, step),
         readings := s.readings - Forget(step),
         written := s.written - Forget(step),
         answered := if step.Enqueue? then s.answered[step.answer := s.queue.now] else s.answered)
    case Read(w, world, rows) =>
      var r := Reading(s.queue.now, world, rows);
      s.(readings := s.readings[w := r], made := s.made + [Made(ConnectionOf(s.queue, w), r)])
    case Write(w) =>
      var c := ConnectionOf(s.queue, w);
      var r := s.readings[w];
      s.(sheets := s.sheets[c := ApplyBatch(s.sheets[c], NaiveBatch(configs(c), r.world, r.rows))],
         written := s.written + {w},
         shown := s.shown[c := r])
    case Edit(c, sheet) => s.(sheets := s.sheets[c := sheet])
  }

  // ---------- Runs ----------

  function Start(workers: nat, maxAttempts: nat, start: Q.Time, sheets: map<Q.ConnectionId, Sheet>): System {
    System(Q.Init(workers, maxAttempts, start), sheets, map[], {}, [], map[], map[])
  }

  ghost predicate ValidRun(configs: Configs, s: System, events: seq<Event>)
    decreases |events|, 0
  {
    events == []
    || (ValidRun(configs, s, events[..|events| - 1])
        && Allowed(configs, Exec(configs, s, events[..|events| - 1]), events[|events| - 1]))
  }

  ghost function Exec(configs: Configs, s: System, events: seq<Event>): System
    requires ValidRun(configs, s, events)
    decreases |events|, 1
  {
    if events == [] then s else Apply(configs, Exec(configs, s, events[..|events| - 1]), events[|events| - 1])
  }

  ghost predicate From(configs: Configs, s0: System, s: System) {
    exists events :: ValidRun(configs, s0, events) && s == Exec(configs, s0, events)
  }

  lemma FromItself(configs: Configs, s: System)
    ensures From(configs, s, s)
  {
    var none: seq<Event> := [];
    assert ValidRun(configs, s, none) && Exec(configs, s, none) == s;
  }

  lemma Take(configs: Configs, s0: System, s: System, e: Event) returns (t: System)
    requires From(configs, s0, s) && Allowed(configs, s, e)
    ensures t == Apply(configs, s, e) && From(configs, s0, t)
  {
    t := Apply(configs, s, e);
    var events :| ValidRun(configs, s0, events) && s == Exec(configs, s0, events);
    hide Allowed, Apply;
    var more := events + [e];
    assert more[..|more| - 1] == events;
    assert ValidRun(configs, s0, more) && Exec(configs, s0, more) == t;
  }

  // ---------- The results on a sheet ----------

  /** The sheet shows, for every row with an accepted ISIN, the results computed from a reading. */
  ghost predicate ShowsReading(config: Config, sheet: Sheet, r: Reading) {
    forall i, c: Column :: 0 <= i < |r.rows| && Accepted(r.rows[i], config) && OutputColumn(config, c) ==>
      && (r.rows[i].number, c) in sheet
      && At(CellsOf(config, r.world, r.rows[i]), c) == Some(sheet[(r.rows[i].number, c)])
  }

  ghost predicate SheetsShow(configs: Configs, s: System) {
    forall c :: c in s.shown ==> c in s.sheets && ShowsReading(configs(c), s.sheets[c], s.shown[c])
  }

  ghost predicate ReadingOk(configs: Configs, s: System, w: nat)
    requires w in s.readings
  {
    && Works(s.queue, w)
    && s.queue.jobs[s.queue.workers[w].job].startedAt.Some?
    && s.queue.jobs[s.queue.workers[w].job].startedAt.value <= s.readings[w].at <= s.queue.now
    && DataRows(configs(ConnectionOf(s.queue, w)), s.readings[w].rows)
    && Made(ConnectionOf(s.queue, w), s.readings[w]) in s.made
  }

  ghost predicate ReadingsOk(configs: Configs, s: System) {
    && s.written <= s.readings.Keys
    && (forall w :: w in s.readings ==> ReadingOk(configs, s, w))
    && (forall c :: c in s.shown ==> s.shown[c].at <= s.queue.now && Made(c, s.shown[c]) in s.made)
  }

  ghost predicate AnswersServed(s: System) {
    forall j :: j in s.answered ==> s.answered[j] <= s.queue.now && R.ServedAfter(s.queue, j, s.answered[j])
  }

  ghost predicate Inv(configs: Configs, s: System) {
    I.Inv(s.queue) && ReadingsOk(configs, s) && AnswersServed(s) && SheetsShow(configs, s)
  }

  // ---------- What every event keeps ----------

  lemma WriteShows(config: Config, r: Reading, sheet: Sheet)
    requires ValidConfig(config) && DataRows(config, r.rows)
    ensures ShowsReading(config, ApplyBatch(sheet, NaiveBatch(config, r.world, r.rows)), r)
  {
    hide NaiveBatch, ApplyBatch, At, CellsOf, OutputColumn, Accepted, DataRows;
    forall i, c: Column | 0 <= i < |r.rows| && Accepted(r.rows[i], config) && OutputColumn(config, c)
      ensures (r.rows[i].number, c) in ApplyBatch(sheet, NaiveBatch(config, r.world, r.rows))
      ensures At(CellsOf(config, r.world, r.rows[i]), c)
              == Some(ApplyBatch(sheet, NaiveBatch(config, r.world, r.rows))[(r.rows[i].number, c)])
    {
      CellsOfFresh(config, r.world, r.rows[i]);
      SheetShowsRowCells(config, r.world, sheet, r.rows, i, c);
    }
  }

  lemma EditKeepsResults(config: Config, r: Reading, before: Sheet, after: Sheet)
    requires ShowsReading(config, before, r) && UserEdit(config, before, after)
    ensures ShowsReading(config, after, r)
  {
    hide At, CellsOf, OutputColumn, Accepted;
    forall i, c: Column | 0 <= i < |r.rows| && Accepted(r.rows[i], config) && OutputColumn(config, c)
      ensures (r.rows[i].number, c) in after
      ensures At(CellsOf(config, r.world, r.rows[i]), c) == Some(after[(r.rows[i].number, c)])
    {
      assert SameCell(before, after, (r.rows[i].number, c));
    }
  }

  lemma SheetsShowStep(configs: Configs, s: System, e: Event)
    requires ValidConfigs(configs) && Inv(configs, s) && Allowed(configs, s, e)
    ensures SheetsShow(configs, Apply(configs, s, e))
  {
    hide ShowsReading, NaiveBatch, ApplyBatch, ReadsRows, UserEdit, DataRows, I.Inv, AnswersServed, Q.Apply, Q.Allowed,
      ValidConfig;
    match e
    case Write(w) =>
      assert ReadingOk(configs, s, w);
      var c := ConnectionOf(s.queue, w);
      WriteShows(configs(c), s.readings[w], s.sheets[c]);
    case Edit(c, sheet) =>
      if c in s.shown {
        EditKeepsResults(configs(c), s.shown[c], s.sheets[c], sheet);
      }
    case _ =>
  }

  lemma WorkerKeeps(q: Q.State, step: Q.Step, w: nat)
    requires I.Inv(q) && Q.Allowed(q, step) && Works(q, w) && w !in Forget(step)
    ensures Works(Q.Apply(q, step), w) && Q.Apply(q, step).workers[w].job == q.workers[w].job
    ensures Q.Apply(q, step).jobs[q.workers[w].job] == q.jobs[q.workers[w].job]
    ensures q.now <= Q.Apply(q, step).now
  {
    var j := q.workers[w].job;
    assert Q.Holds(q, w, j) && Q.Has(q, j, Q.Running);
    I.JobStep(q, step, j);
    assert forall v :: Q.Holds(q, v, j) ==> v == w;
  }

  lemma ReadingStep(configs: Configs, s: System, step: Q.Step, w: nat)
    requires Inv(configs, s) && Allowed(configs, s, Queue(step)) && w in s.readings && w !in Forget(step)
    ensures ReadingOk(configs, Apply(configs, s, Queue(step)), w)
  {
    assert ReadingOk(configs, s, w);
    WorkerKeeps(s.queue, step, w);
    hide I.Inv, AnswersServed, SheetsShow, DataRows, Q.Apply, Q.Allowed;
  }

  lemma NewReading(configs: Configs, s: System, e: Event)
    requires Inv(configs, s) && Allowed(configs, s, e) && e.Read?
    ensures ReadingOk(configs, Apply(configs, s, e), e.worker)
  {
    var j := s.queue.workers[e.worker].job;
    var c := ConnectionOf(s.queue, e.worker);
    assert Q.Holds(s.queue, e.worker, j) && Q.Has(s.queue, j, Q.Running);
    assert I.JobOk(s.queue, s.queue.jobs[j]);
    ReadRowsAreData(configs(c), s.sheets[c], e.rows);
    hide IsReading, DataRows, AnswersServed, SheetsShow, Requested;
  }

  lemma ReadingsOkStep(configs: Configs, s: System, e: Event)
    requires Inv(configs, s) && Allowed(configs, s, e)
    ensures ReadingsOk(configs, Apply(configs, s, e))
  {
    hide I.Inv, AnswersServed, SheetsShow, DataRows, ApplyBatch, NaiveBatch, UserEdit, ReadsRows, Q.Apply, Q.Allowed;
    var t := Apply(configs, s, e);
    forall w | w in t.readings
      ensures ReadingOk(configs, t, w)
    {
      match e
      case Queue(step) => ReadingStep(configs, s, step, w);
      case Read(v, _, _) =>
        if w == v {
          NewReading(configs, s, e);
        } else {
          assert ReadingOk(configs, s, w);
        }
      case _ => assert ReadingOk(configs, s, w);
    }
    if e.Queue? {
      TimeGoesOn(s.queue, e.step);
    }
    if e.Write? {
      assert ReadingOk(configs, s, e.worker);
    }
  }

  lemma TimeGoesOn(q: Q.State, step: Q.Step)
    requires Q.Allowed(q, step)
    ensures q.now <= Q.Apply(q, step).now
  {
  }

  lemma Answered(q: Q.State, step: Q.Step)
    requires Q.Allowed(q, step) && step.Enqueue?
    ensures Q.Apply(q, step).now == q.now && R.ServedAfter(Q.Apply(q, step), step.answer, q.now)
  {
    assert step.answer in q.jobs ==> step.answer in Q.QueuedJobs(q, step.c);
  }

  lemma AnswersServedStep(configs: Configs, s: System, e: Event)
    requires Inv(configs, s) && Allowed(configs, s, e)
    ensures AnswersServed(Apply(configs, s, e))
  {
    hide SheetsShow, ReadingsOk, R.ServedAfter, ApplyBatch, NaiveBatch, UserEdit, ReadsRows, Q.Apply, Q.Allowed, I.Inv;
    var t := Apply(configs, s, e);
    if e.Queue? {
      forall j | j in t.answered
        ensures t.answered[j] <= t.queue.now && R.ServedAfter(t.queue, j, t.answered[j])
      {
        if e.step.Enqueue? && j == e.step.answer {
          Answered(s.queue, e.step);
        } else {
          R.ServedAfterStep(s.queue, e.step, j, s.answered[j]);
        }
      }
    }
  }

  lemma InvStep(configs: Configs, s: System, e: Event)
    requires ValidConfigs(configs) && Inv(configs, s) && Allowed(configs, s, e)
    ensures Inv(configs, Apply(configs, s, e))
  {
    SheetsShowStep(configs, s, e);
    ReadingsOkStep(configs, s, e);
    AnswersServedStep(configs, s, e);
    hide SheetsShow, ReadingsOk, AnswersServed, I.Inv, Q.Apply, Q.Allowed, ApplyBatch, NaiveBatch, UserEdit, ReadsRows;
    if e.Queue? {
      I.InvStep(s.queue, e.step);
    }
  }

  lemma {:induction false} InvRun(configs: Configs, s: System, events: seq<Event>)
    requires ValidConfigs(configs) && Inv(configs, s) && ValidRun(configs, s, events)
    ensures Inv(configs, Exec(configs, s, events))
    ensures |Exec(configs, s, events).queue.workers| == |s.queue.workers|
    decreases |events|
  {
    hide Inv, Apply, Allowed, ValidConfigs;
    if events != [] {
      var before, last := events[..|events| - 1], events[|events| - 1];
      InvRun(configs, s, before);
      InvStep(configs, Exec(configs, s, before), last);
      SameWorkers(configs, Exec(configs, s, before), last);
    }
  }

  lemma SameWorkers(configs: Configs, s: System, e: Event)
    requires Allowed(configs, s, e)
    ensures |Apply(configs, s, e).queue.workers| == |s.queue.workers|
  {
    hide ApplyBatch, NaiveBatch, UserEdit, ReadsRows, Q.Apply, Q.Allowed;
    if e.Queue? {
      R.LimitStep(s.queue, e.step);
    }
  }

  lemma StartInv(configs: Configs, workers: nat, maxAttempts: nat, start: Q.Time, sheets: map<Q.ConnectionId, Sheet>)
    requires maxAttempts >= 1
    ensures Inv(configs, Start(workers, maxAttempts, start, sheets))
  {
  }

  // ---------- Without overlapping passes the results follow the events ----------

  /** The worker has read and is still to write. */
  predicate Pending(s: System, w: nat) {
    w in s.readings && w !in s.written && Works(s.queue, w)
  }

  /** No two workers are between the reading and the writing of one sheet. */
  ghost predicate Apart(s: System) {
    forall v, w :: Pending(s, v) && Pending(s, w) && ConnectionOf(s.queue, v) == ConnectionOf(s.queue, w) ==> v == w
  }

  ghost predicate ApartAlong(configs: Configs, s: System, events: seq<Event>)
    requires ValidRun(configs, s, events)
  {
    events == []
    || (ApartAlong(configs, s, events[..|events| - 1]) && Apart(Exec(configs, s, events[..|events| - 1])))
  }

  /** No sheet shows a later reading than one that is still to be written. */
  ghost predicate InOrder(s: System) {
    forall w :: Pending(s, w) && ConnectionOf(s.queue, w) in s.shown ==>
      s.shown[ConnectionOf(s.queue, w)].at <= s.readings[w].at
  }

  ghost predicate ShownSince(s: System, c: Q.ConnectionId, t: Q.Time) {
    c in s.shown && s.shown[c].at >= t
  }

  /** A written reading, or a later one, is shown. */
  ghost predicate WrittenShown(s: System) {
    forall w :: w in s.written && w in s.readings && Works(s.queue, w) ==>
      ShownSince(s, ConnectionOf(s.queue, w), s.readings[w].at)
  }

  /** Once a job that answered an event has succeeded, the latest batch of its connection was
      computed from a reading that is no older than the event. */
  ghost predicate EventsFollowed(s: System) {
    forall j :: j in s.answered && Q.Has(s.queue, j, Q.Succeeded) ==>
      ShownSince(s, s.queue.jobs[j].connection, s.answered[j])
  }

  ghost predicate Ordered(s: System) {
    InOrder(s) && WrittenShown(s) && EventsFollowed(s)
  }

  lemma StillPending(configs: Configs, s: System, step: Q.Step, w: nat)
    requires Inv(configs, s) && Allowed(configs, s, Queue(step)) && Pending(Apply(configs, s, Queue(step)), w)
    ensures Pending(s, w) && ConnectionOf(Apply(configs, s, Queue(step)).queue, w) == ConnectionOf(s.queue, w)
  {
    hide AnswersServed, SheetsShow, I.Inv, Q.Apply, Q.Allowed;
    assert w in s.readings && w !in Forget(step);
    assert ReadingOk(configs, s, w);
    WorkerKeeps(s.queue, step, w);
  }

  lemma InOrderStep(configs: Configs, s: System, e: Event)
    requires Inv(configs, s) && Allowed(configs, s, e) && Ordered(s) && Apart(s)
    ensures InOrder(Apply(configs, s, e))
  {
    hide I.Inv, AnswersServed, SheetsShow, WrittenShown, EventsFollowed, ApplyBatch, NaiveBatch, UserEdit, ReadsRows,
      Q.Apply, Q.Allowed, ReadingOk;
    var t := Apply(configs, s, e);
    forall w | Pending(t, w) && ConnectionOf(t.queue, w) in t.shown
      ensures t.shown[ConnectionOf(t.queue, w)].at <= t.readings[w].at
    {
      if e.Queue? {
        StillPending(configs, s, e.step, w);
      }
      if e.Write? {
        assert Pending(s, e.worker) && Pending(s, w);
      }
    }
  }

  lemma ShownGrows(configs: Configs, s: System, e: Event, c: Q.ConnectionId, t: Q.Time)
    requires Allowed(configs, s, e) && InOrder(s) && ShownSince(s, c, t)
    ensures ShownSince(Apply(configs, s, e), c, t)
  {
    hide ApplyBatch, NaiveBatch, UserEdit, ReadsRows, Q.Apply, Q.Allowed;
  }

  lemma WrittenShownStep(configs: Configs, s: System, e: Event)
    requires Inv(configs, s) && Allowed(configs, s, e) && Ordered(s)
    ensures WrittenShown(Apply(configs, s, e))
  {
    hide I.Inv, AnswersServed, SheetsShow, EventsFollowed, ApplyBatch, NaiveBatch, UserEdit, ReadsRows, Q.Apply,
      Q.Allowed,
      InOrder, ShownSince;
    var t := Apply(configs, s, e);
    forall w | w in t.written && w in t.readings && Works(t.queue, w)
      ensures ShownSince(t, ConnectionOf(t.queue, w), t.readings[w].at)
    {
      if e.Write? && w == e.worker {
        JustShown(configs, s, e);
      } else {
        assert ReadingOk(configs, s, w);
        if e.Queue? {
          WorkerKeeps(s.queue, e.step, w);
        }
        ShownGrows(configs, s, e, ConnectionOf(s.queue, w), s.readings[w].at);
      }
    }
  }

  lemma JustShown(configs: Configs, s: System, e: Event)
    requires Allowed(configs, s, e) && e.Write?
    ensures ShownSince(Apply(configs, s, e), ConnectionOf(s.queue, e.worker), s.readings[e.worker].at)
  {
    hide ApplyBatch, NaiveBatch;
  }

  lemma EventsFollowedStep(configs: Configs, s: System, e: Event)
    requires Inv(configs, s) && Allowed(configs, s, e) && Ordered(s)
    ensures EventsFollowed(Apply(configs, s, e))
  {
    hide I.Inv, SheetsShow, ReadingsOk, AnswersServed, WrittenShown, ApplyBatch, NaiveBatch, UserEdit, ReadsRows,
      Q.Apply,
      Q.Allowed, InOrder, ShownSince;
    var t := Apply(configs, s, e);
    forall j | j in t.answered && Q.Has(t.queue, j, Q.Succeeded)
      ensures ShownSince(t, t.queue.jobs[j].connection, t.answered[j])
    {
      if e.Queue? {
        SucceededStep(configs, s, e.step, j);
      } else {
        ShownGrows(configs, s, e, s.queue.jobs[j].connection, s.answered[j]);
      }
    }
  }

  lemma SucceededStep(configs: Configs, s: System, step: Q.Step, j: Q.JobId)
    requires Inv(configs, s) && Allowed(configs, s, Queue(step)) && Ordered(s)
    requires j in Apply(configs, s, Queue(step)).answered && Q.Has(Apply(configs, s, Queue(step)).queue, j, Q.Succeeded)
    ensures var t := Apply(configs, s, Queue(step));
            ShownSince(t, t.queue.jobs[j].connection, t.answered[j])
  {
    SucceededBefore(configs, s, step, j);
    hide I.Inv, SheetsShow, ReadingsOk, AnswersServed, WrittenShown, Q.Apply, Q.Allowed, InOrder, ShownSince;
    if Q.Has(s.queue, j, Q.Succeeded) {
      I.JobStep(s.queue, step, j);
      ShownGrows(configs, s, Queue(step), s.queue.jobs[j].connection, s.answered[j]);
    } else {
      JustSucceeded(configs, s, step, j);
      ShownGrows(configs, s, Queue(step), s.queue.jobs[j].connection, s.answered[j]);
    }
  }

  /** A succeeded job had succeeded before or succeeds in this step; it is not one that answers. */
  lemma SucceededBefore(configs: Configs, s: System, step: Q.Step, j: Q.JobId)
    requires Inv(configs, s) && Allowed(configs, s, Queue(step))
    requires j in Apply(configs, s, Queue(step)).answered && Q.Has(Apply(configs, s, Queue(step)).queue, j, Q.Succeeded)
    ensures j in s.answered && j in s.queue.jobs && Apply(configs, s, Queue(step)).answered[j] == s.answered[j]
    ensures Apply(configs, s, Queue(step)).queue.jobs[j].connection == s.queue.jobs[j].connection
    ensures Q.Has(s.queue, j, Q.Succeeded) || (step.Succeed? && Q.Holds(s.queue, step.w, j))
  {
    hide SheetsShow, ReadingsOk;
    if step.Enqueue? {
      AnswerIsQueued(s.queue, step);
    }
    if j in s.queue.jobs {
      I.JobStep(s.queue, step, j);
    }
  }

  lemma AnswerIsQueued(q: Q.State, step: Q.Step)
    requires Q.Allowed(q, step) && step.Enqueue?
    ensures Q.Has(Q.Apply(q, step), step.answer, Q.Queued)
  {
    assert step.answer in q.jobs ==> step.answer in Q.QueuedJobs(q, step.c);
  }

  lemma JustSucceeded(configs: Configs, s: System, step: Q.Step, j: Q.JobId)
    requires Inv(configs, s) && Allowed(configs, s, Queue(step)) && WrittenShown(s)
    requires step.Succeed? && Q.Holds(s.queue, step.w, j) && j in s.answered
    ensures ShownSince(s, s.queue.jobs[j].connection, s.answered[j])
  {
    hide SheetsShow;
    assert ReadingOk(configs, s, step.w);
    assert Q.Has(s.queue, j, Q.Running) && R.ServedAfter(s.queue, j, s.answered[j]);
  }

  lemma {:induction false} OrderedRun(configs: Configs, s: System, events: seq<Event>)
    requires ValidConfigs(configs) && Inv(configs, s) && Ordered(s)
    requires ValidRun(configs, s, events) && ApartAlong(configs, s, events)
    ensures Ordered(Exec(configs, s, events))
    decreases |events|
  {
    hide Inv, Apply, Allowed, ValidConfigs, InOrder, WrittenShown, EventsFollowed, Apart;
    if events != [] {
      var before, last := events[..|events| - 1], events[|events| - 1];
      OrderedRun(configs, s, before);
      InvRun(configs, s, before);
      InOrderStep(configs, Exec(configs, s, before), last);
      WrittenShownStep(configs, Exec(configs, s, before), last);
      EventsFollowedStep(configs, Exec(configs, s, before), last);
    }
  }

  /** With any number of workers, in every run in which no two of them are between the reading and
      the writing of one sheet at the same time: once a job that answered an event has succeeded,
      the sheet of its connection shows, row by row, the results computed from one reading that is
      no older than the event, in every later state and whatever users edit in the meantime. */
  lemma ResultsFollowEvents(
    configs: Configs, workers: nat, maxAttempts: nat, start: Q.Time, sheets: map<Q.ConnectionId, Sheet>,
    events: seq<Event>, j: Q.JobId)
    requires ValidConfigs(configs) && maxAttempts >= 1
    requires ValidRun(configs, Start(workers, maxAttempts, start, sheets), events)
    requires ApartAlong(configs, Start(workers, maxAttempts, start, sheets), events)
    requires var s := Exec(configs, Start(workers, maxAttempts, start, sheets), events);
             j in s.answered && Q.Has(s.queue, j, Q.Succeeded)
    ensures var s := Exec(configs, Start(workers, maxAttempts, start, sheets), events);
            var c := s.queue.jobs[j].connection;
            && c in s.shown && c in s.sheets && s.shown[c].at >= s.answered[j] && Made(c, s.shown[c]) in s.made
            && ShowsReading(configs(c), s.sheets[c], s.shown[c])
  {
    var s0 := Start(workers, maxAttempts, start, sheets);
    StartInv(configs, workers, maxAttempts, start, sheets);
    OrderedRun(configs, s0, events);
    InvRun(configs, s0, events);
    hide I.Inv, AnswersServed, ShowsReading, ValidRun, Exec, ReadingOk;
  }

  lemma OneWorkerApart(configs: Configs, s: System)
    requires Inv(configs, s) && |s.queue.workers| <= 1
    ensures Apart(s)
  {
    hide Inv;
  }

  /** One worker is never in its own way. */
  lemma {:induction false} OneWorkerApartAlong(configs: Configs, s: System, events: seq<Event>)
    requires ValidConfigs(configs) && Inv(configs, s) && ValidRun(configs, s, events) && |s.queue.workers| <= 1
    ensures ApartAlong(configs, s, events)
    decreases |events|
  {
    hide Inv, Apply, Allowed, ValidConfigs, Apart;
    if events != [] {
      var before := events[..|events| - 1];
      OneWorkerApartAlong(configs, s, before);
      InvRun(configs, s, before);
      OneWorkerApart(configs, Exec(configs, s, before));
    }
  }

  /** The sheet shows the results of a reading made at this time or later. */
  ghost predicate ShowsResultsSince(configs: Configs, s: System, c: Q.ConnectionId, t: Q.Time) {
    c in s.sheets && exists r :: Made(c, r) in s.made && r.at >= t && ShowsReading(configs(c), s.sheets[c], r)
  }

  /** Once a job that answered an event has succeeded, its sheet shows the results of a reading that
      is no older than the event. */
  ghost predicate EventsShown(configs: Configs, s: System) {
    forall j :: j in s.answered && Q.Has(s.queue, j, Q.Succeeded) ==>
      ShowsResultsSince(configs, s, s.queue.jobs[j].connection, s.answered[j])
  }

  lemma OneWorkerShows(
    configs: Configs, workers: nat, maxAttempts: nat, start: Q.Time, sheets: map<Q.ConnectionId, Sheet>, s: System)
    requires ValidConfigs(configs) && maxAttempts >= 1 && workers <= 1
    requires From(configs, Start(workers, maxAttempts, start, sheets), s)
    ensures EventsShown(configs, s)
  {
    var s0 := Start(workers, maxAttempts, start, sheets);
    var events :| ValidRun(configs, s0, events) && s == Exec(configs, s0, events);
    StartInv(configs, workers, maxAttempts, start, sheets);
    OneWorkerApartAlong(configs, s0, events);
    hide ShowsReading, Inv, ValidRun, Exec, ApartAlong;
    forall j | j in s.answered && Q.Has(s.queue, j, Q.Succeeded)
      ensures ShowsResultsSince(configs, s, s.queue.jobs[j].connection, s.answered[j])
    {
      ResultsFollowEvents(configs, workers, maxAttempts, start, sheets, events, j);
    }
  }
}
