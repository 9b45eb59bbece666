/** Committing a preview: one batch for each owner, file content and sheet, one lot for each
    parsed row, and the instruments that the rows name. */
module Imports {
  import opened Prelude
  import opened SpreadsheetReader

  type OwnerId = nat
  type BatchId = nat

  datatype Instrument = Instrument(shortName: string)

  datatype Batch = Batch(
    owner: OwnerId, checksum: string, sheetName: string, rowsRead: nat, lotsCreated: nat, instrumentsUpdated: nat,
    errors: seq<RowError>)

  datatype Lot = Lot(owner: OwnerId, batch: BatchId, row: ImportRow)

  /** `events` counts the synchronisation requests that commits have queued, by owner. */
  datatype Store = Store(
    instruments: map<string, Instrument>, batches: map<BatchId, Batch>, lots: seq<Lot>, events: seq<OwnerId>)

  predicate SameKey(b: Batch, owner: OwnerId, checksum: string, sheetName: string) {
    b.owner == owner && b.checksum == checksum && b.sheetName == sheetName
  }

  predicate Imported(s: Store, owner: OwnerId, preview: Preview) {
    exists id :: id in s.batches && SameKey(s.batches[id], owner, preview.checksum, preview.sheetName)
  }

  // ---------- Instruments ----------

  /** The name that a row gives a new instrument. */
  function FirstName(row: ImportRow): string {
    if row.name.Some? then row.name.value else row.isin
  }

  /** An unknown instrument is created; a known one that still goes by its ISIN is named. */
  function NameInstrument(instruments: map<string, Instrument>, row: ImportRow): map<string, Instrument> {
    if row.isin !in instruments then instruments[row.isin := Instrument(FirstName(row))]
    else if row.name.Some? && instruments[row.isin].shortName == row.isin
    then instruments[row.isin := Instrument(row.name.value)]
    else instruments
  }

  function Updates(instruments: map<string, Instrument>, row: ImportRow): nat {
    if row.isin !in instruments || (row.name.Some? && instruments[row.isin].shortName == row.isin) then 1 else 0
  }

  function NameInstruments(instruments: map<string, Instrument>, rows: seq<ImportRow>): map<string, Instrument> {
    if rows == [] then instruments
    else NameInstrument(NameInstruments(instruments, rows[..|rows| - 1]), rows[|rows| - 1])
  }

  function CountUpdates(instruments: map<string, Instrument>, rows: seq<ImportRow>): nat {
    if rows == [] then 0
    else CountUpdates(instruments, rows[..|rows| - 1])
         + Updates(NameInstruments(instruments, rows[..|rows| - 1]), rows[|rows| - 1])
  }

  /** The name of the first row of the instrument that has one other than the ISIN. */
  function FirstGivenName(rows: seq<ImportRow>, isin: string): Option<string> {
    if rows == [] then None
    else
      var before, last := FirstGivenName(rows[..|rows| - 1], isin), rows[|rows| - 1];
      if before.Some? then before
      else if last.isin == isin && last.name != Some(isin) then last.name
      else None
  }

  /** Row i creates its instrument, or names one that still goes by its ISIN. */
  predicate Touches(instruments: map<string, Instrument>, rows: seq<ImportRow>, i: int)
    requires 0 <= i < |rows|
  {
    var isin := rows[i].isin;
    || (isin !in instruments && !Mentions(rows[..i], isin))
    || (&& rows[i].name.Some? && FirstGivenName(rows[..i], isin).None?
        && (isin in instruments ==> instruments[isin].shortName == isin))
  }

  function TouchingRows(instruments: map<string, Instrument>, rows: seq<ImportRow>): set<int> {
    set i | 0 <= i < |rows| && Touches(instruments, rows, i)
  }

  predicate Mentions(rows: seq<ImportRow>, isin: string) {
    exists row :: row in rows && row.isin == isin
  }

  lemma MentionsSnoc(front: seq<ImportRow>, last: ImportRow, isin: string)
    ensures Mentions(front + [last], isin) <==> Mentions(front, isin) || last.isin == isin
  {
    var rows := front + [last];
    assert last in rows && forall row :: row in front ==> row in rows;
  }

  /** What one row does to the instrument of an ISIN. */
  lemma NameOne(instruments: map<string, Instrument>, row: ImportRow, isin: string)
    ensures var named := NameInstrument(instruments, row);
            && (isin in named <==> isin in instruments || row.isin == isin)
            && (isin in instruments && instruments[isin].shortName != isin ==> named[isin] == instruments[isin])
            && (isin in named && !(isin in instruments && instruments[isin].shortName != isin) ==>
                  named[isin].shortName == if row.isin == isin && row.name.Some? then row.name.value else isin)
  {
  }

  /** After a commit every instrument of its rows exists; a name other than the ISIN is kept for
      good, and otherwise the first such name that a row gives is taken. */
  lemma {:induction false} NamesAreFirst(instruments: map<string, Instrument>, rows: seq<ImportRow>, isin: string)
    ensures var named := NameInstruments(instruments, rows);
            && (isin in named <==> isin in instruments || Mentions(rows, isin))
            && (isin in instruments && instruments[isin].shortName != isin ==> named[isin] == instruments[isin])
            && (isin in named && !(isin in instruments && instruments[isin].shortName != isin) ==>
                  named[isin].shortName
                  == if FirstGivenName(rows, isin).Some? then FirstGivenName(rows, isin).value else isin)
    ensures FirstGivenName(rows, isin).Some? ==> FirstGivenName(rows, isin).value != isin && Mentions(rows, isin)
  {
    hide NameInstrument, Mentions;
    if rows == [] {
      assert !Mentions([], isin) by { NothingMentioned(isin); }
    } else {
      var front, last := rows[..|rows| - 1], rows[|rows| - 1];
      assert rows == front + [last];
      NamesAreFirst(instruments, front, isin);
      MentionsSnoc(front, last, isin);
      NameOne(NameInstruments(instruments, front), last, isin);
    }
  }

  lemma TouchesMeaning(instruments: map<string, Instrument>, front: seq<ImportRow>, last: ImportRow)
    ensures Updates(NameInstruments(instruments, front), last)
            == if Touches(instruments, front + [last], |front|) then 1 else 0
  {
    hide NameInstruments, Mentions, FirstGivenName;
    assert (front + [last])[..|front|] == front;
    NamesAreFirst(instruments, front, last.isin);
  }

  lemma TouchingGrows(instruments: map<string, Instrument>, rows: seq<ImportRow>)
    requires rows != []
    ensures var n := |rows| - 1;
            && n !in TouchingRows(instruments, rows[..n])
            && TouchingRows(instruments, rows)
               == TouchingRows(instruments, rows[..n]) + if Touches(instruments, rows, n) then {n} else {}
  {
    hide Touches;
    var n := |rows| - 1;
    assert rows == rows[..n] + [rows[n]];
    forall i | 0 <= i < n
      ensures Touches(instruments, rows, i) == Touches(instruments, rows[..n], i)
    {
      TouchesFront(instruments, rows[..n], rows[n], i);
    }
  }

  /** The number of updates is the number of rows that create or name an instrument. */
  lemma {:induction false} UpdatesMeaning(instruments: map<string, Instrument>, rows: seq<ImportRow>)
    ensures CountUpdates(instruments, rows) == |TouchingRows(instruments, rows)|
  {
    hide Touches, Updates, NameInstruments;
    if rows == [] {
      assert TouchingRows(instruments, rows) == {};
    } else {
      hide TouchingRows;
      var n := |rows| - 1;
      assert rows == rows[..n] + [rows[n]];
      UpdatesMeaning(instruments, rows[..n]);
      TouchesMeaning(instruments, rows[..n], rows[n]);
      TouchingGrows(instruments, rows);
    }
  }

  lemma TouchesFront(instruments: map<string, Instrument>, front: seq<ImportRow>, last: ImportRow, i: int)
    requires 0 <= i < |front|
    ensures Touches(instruments, front + [last], i) == Touches(instruments, front, i)
  {
    assert (front + [last])[..i] == front[..i];
  }

  lemma NothingMentioned(isin: string)
    ensures !Mentions([], isin)
  {
  }

  // ---------- Commit ----------

  function LotsOf(owner: OwnerId, batch: BatchId, rows: seq<ImportRow>): seq<Lot> {
    seq(|rows|, i requires 0 <= i < |rows| => Lot(owner, batch, rows[i]))
  }

  function Commit(s: Store, owner: OwnerId, preview: Preview, id: BatchId): Store {
    if Imported(s, owner, preview) then s
    else
      Store(
        NameInstruments(s.instruments, preview.rows),
        s.batches[id := Batch(owner, preview.checksum, preview.sheetName, preview.rowsRead, |preview.rows|,
                              CountUpdates(s.instruments, preview.rows), preview.errors)],
        s.lots + LotsOf(owner, id, preview.rows),
        s.events + [owner])
  }

  class ImportService {
    var instruments: map<string, Instrument>
    var batches: map<BatchId, Batch>
    var lots: seq<Lot>
    var events: seq<OwnerId>

    ghost function View(): Store
      reads this
    {
      Store(instruments, batches, lots, events)
    }

    constructor ()
      ensures View() == Store(map[], map[], [], [])
    {
      instruments, batches, lots, events := map[], map[], [], [];
    }

    /** Names the instruments of the rows and adds a lot for each row. */
    method AddRows(owner: OwnerId, rows: seq<ImportRow>, id: BatchId) returns (updated: nat)
      modifies this`instruments, this`lots
      ensures instruments == NameInstruments(old(instruments), rows)
      ensures updated == CountUpdates(old(instruments), rows)
      ensures lots == old(lots) + LotsOf(owner, id, rows)
    {
      hide LotsOf;
      updated := 0;
      NoLots(owner, id);
      for i := 0 to |rows|
        invariant instruments == NameInstruments(old(instruments), rows[..i])
        invariant updated == CountUpdates(old(instruments), rows[..i])
        invariant lots == old(lots) + LotsOf(owner, id, rows[..i])
      {
        var row := rows[i];
        assert rows[..i + 1][..i] == rows[..i];
        LotsSnoc(owner, id, rows[..i + 1]);
        if row.isin !in instruments {
          instruments := instruments[row.isin := Instrument(FirstName(row))];
          updated := updated + 1;
        } else if row.name.Some? && instruments[row.isin].shortName == row.isin {
          instruments := instruments[row.isin := Instrument(row.name.value)];
          updated := updated + 1;
        }
        lots := lots + [Lot(owner, id, row)];
      }
      assert rows[..|rows|] == rows;
    }

    method CommitPreview(owner: OwnerId, preview: Preview, id: BatchId) returns (batch: BatchId, duplicate: bool)
      requires id !in batches
      modifies this
      ensures View() == Commit(old(View()), owner, preview, id)
      ensures duplicate <==> exists k :: k in old(batches) && old(batches)[k].owner == owner
                                && old(batches)[k].checksum == preview.checksum
                                && old(batches)[k].sheetName == preview.sheetName
      ensures batch in batches && SameKey(batches[batch], owner, preview.checksum, preview.sheetName)
      ensures !duplicate ==> batch == id
      ensures !duplicate ==>
                batches[id] == Batch(owner, preview.checksum, preview.sheetName, preview.rowsRead, |preview.rows|,
                                     |TouchingRows(old(instruments), preview.rows)|, preview.errors)
    {
      if existing :| existing in batches && SameKey(batches[existing], owner, preview.checksum, preview.sheetName) {
        return existing, true;
      }
      var updated := AddRows(owner, preview.rows, id);
      batches := batches[id := Batch(owner, preview.checksum, preview.sheetName, preview.rowsRead, |preview.rows|,
                                     updated, preview.errors)];
      events := events + [owner];
      UpdatesMeaning(old(instruments), preview.rows);
      return id, false;
    }
  }

  lemma NoLots(owner: OwnerId, id: BatchId)
    ensures LotsOf(owner, id, []) == []
  {
  }

  lemma LotsSnoc(owner: OwnerId, id: BatchId, rows: seq<ImportRow>)
    requires rows != []
    ensures LotsOf(owner, id, rows) == LotsOf(owner, id, rows[..|rows| - 1]) + [Lot(owner, id, rows[|rows| - 1])]
  {
  }

  // ---------- Runs of commits ----------

  datatype Step = Step(owner: OwnerId, preview: Preview, id: BatchId)

  ghost predicate ValidRun(run: seq<Step>)
    decreases |run|, 0
  {
    run == [] || (ValidRun(run[..|run| - 1]) && run[|run| - 1].id !in Exec(run[..|run| - 1]).batches)
  }

  ghost function Exec(run: seq<Step>): Store
    requires ValidRun(run)
    decreases |run|, 1
  {
    if run == [] then Store(map[], map[], [], [])
    else
      var last := run[|run| - 1];
      Commit(Exec(run[..|run| - 1]), last.owner, last.preview, last.id)
  }

  /** The lots of one batch. */
  function LotsIn(lots: seq<Lot>, batch: BatchId): seq<ImportRow> {
    if lots == [] then []
    else LotsIn(lots[..|lots| - 1], batch) + if lots[|lots| - 1].batch == batch then [lots[|lots| - 1].row] else []
  }

  lemma {:induction false} LotsInSum(a: seq<Lot>, b: seq<Lot>, batch: BatchId)
    ensures LotsIn(a + b, batch) == LotsIn(a, batch) + LotsIn(b, batch)
  {
    if b == [] {
      assert a + b == a;
    } else {
      LotsInSum(a, b[..|b| - 1], batch);
      assert (a + b)[..|a + b| - 1] == a + b[..|b| - 1];
    }
  }

  lemma {:induction false} LotsInOf(owner: OwnerId, id: BatchId, rows: seq<ImportRow>, batch: BatchId)
    ensures LotsIn(LotsOf(owner, id, rows), batch) == if id == batch then rows else []
  {
    if rows != [] {
      var front := rows[..|rows| - 1];
      LotsInOf(owner, id, front, batch);
      assert LotsOf(owner, id, rows)[..|rows| - 1] == LotsOf(owner, id, front);
      assert rows == front + [rows[|rows| - 1]];
    }
  }

  lemma {:induction false} NoLotsWithoutBatch(lots: seq<Lot>, batch: BatchId)
    requires forall lot :: lot in lots ==> lot.batch != batch
    ensures LotsIn(lots, batch) == []
  {
    if lots != [] {
      assert lots[|lots| - 1] in lots;
      NoLotsWithoutBatch(lots[..|lots| - 1], batch);
    }
  }

  /** The batch was committed by some step of the run, and its lots are the rows of that step's
      preview, in order. */
  ghost predicate Accounted(run: seq<Step>, s: Store, id: BatchId)
    requires id in s.batches
  {
    exists k :: 0 <= k < |run| && CommittedBy(s, id, run[k])
  }

  predicate CommittedBy(s: Store, id: BatchId, step: Step)
    requires id in s.batches
  {
    && step.id == id && SameKey(s.batches[id], step.owner, step.preview.checksum, step.preview.sheetName)
    && LotsIn(s.lots, id) == step.preview.rows && s.batches[id].lotsCreated == |step.preview.rows|
  }

  ghost predicate UniqueBatches(s: Store) {
    forall a, b :: a in s.batches && b in s.batches && SameBatch(s.batches[a], s.batches[b]) ==> a == b
  }

  predicate SameBatch(a: Batch, b: Batch) {
    SameKey(a, b.owner, b.checksum, b.sheetName)
  }

  ghost predicate AllAccounted(run: seq<Step>, s: Store) {
    forall id :: id in s.batches ==> Accounted(run, s, id)
  }

  ghost predicate LotsOwned(s: Store) {
    forall lot :: lot in s.lots ==>
      lot.batch in s.batches && lot.owner == s.batches[lot.batch].owner && lot.row.isin in s.instruments
  }

  function BatchesOf(s: Store, owner: OwnerId): set<BatchId> {
    set id | id in s.batches && s.batches[id].owner == owner
  }

  /** Every owner has filed one request for each of the owner's batches. */
  ghost predicate OneRequestEach(s: Store) {
    forall owner :: multiset(s.events)[owner] == |BatchesOf(s, owner)|
  }

  ghost predicate Inv(run: seq<Step>, s: Store) {
    UniqueBatches(s) && AllAccounted(run, s) && LotsOwned(s) && OneRequestEach(s)
  }

  lemma {:induction false} InstrumentsGrow(instruments: map<string, Instrument>, rows: seq<ImportRow>)
    ensures forall isin :: isin in instruments ==> isin in NameInstruments(instruments, rows)
    ensures forall row :: row in rows ==> row.isin in NameInstruments(instruments, rows)
  {
    if rows != [] {
      var front, last := rows[..|rows| - 1], rows[|rows| - 1];
      assert rows == front + [last];
      InstrumentsGrow(instruments, front);
    }
  }

  lemma StillAccounted(run: seq<Step>, step: Step, s: Store, id: BatchId)
    requires id in s.batches && Accounted(run, s, id) && step.id !in s.batches
    ensures id in Commit(s, step.owner, step.preview, step.id).batches
    ensures Accounted(run + [step], Commit(s, step.owner, step.preview, step.id), id)
  {
    hide NameInstruments, CountUpdates;
    var t := Commit(s, step.owner, step.preview, step.id);
    var k :| 0 <= k < |run| && CommittedBy(s, id, run[k]);
    LotsInSum(s.lots, LotsOf(step.owner, step.id, step.preview.rows), id);
    LotsInOf(step.owner, step.id, step.preview.rows, id);
    assert (run + [step])[k] == run[k];
    assert LotsIn(t.lots, id) == LotsIn(s.lots, id);
  }

  lemma NewlyAccounted(run: seq<Step>, step: Step, s: Store)
    requires Inv(run, s) && step.id !in s.batches && !Imported(s, step.owner, step.preview)
    ensures Accounted(run + [step], Commit(s, step.owner, step.preview, step.id), step.id)
  {
    hide NameInstruments, CountUpdates, Accounted;
    NoLotsWithoutBatch(s.lots, step.id);
    LotsInSum(s.lots, LotsOf(step.owner, step.id, step.preview.rows), step.id);
    LotsInOf(step.owner, step.id, step.preview.rows, step.id);
    CommitAccounted(run, step, s);
  }

  lemma CommitAccounted(run: seq<Step>, step: Step, s: Store)
    requires !Imported(s, step.owner, step.preview)
    requires LotsIn(Commit(s, step.owner, step.preview, step.id).lots, step.id) == step.preview.rows
    ensures Accounted(run + [step], Commit(s, step.owner, step.preview, step.id), step.id)
  {
    hide NameInstruments, CountUpdates, LotsIn, LotsOf;
    assert (run + [step])[|run|] == step;
  }

  lemma CommitKeepsUnique(s: Store, step: Step)
    requires UniqueBatches(s) && step.id !in s.batches
    ensures UniqueBatches(Commit(s, step.owner, step.preview, step.id))
  {
    hide NameInstruments, CountUpdates, LotsOf;
    var t := Commit(s, step.owner, step.preview, step.id);
    forall a, b | a in t.batches && b in t.batches && SameBatch(t.batches[a], t.batches[b])
      ensures a == b
    {
      assert a in s.batches && b in s.batches ==> SameBatch(s.batches[a], s.batches[b]);
    }
  }

  lemma CommitKeepsOwned(s: Store, step: Step)
    requires LotsOwned(s) && step.id !in s.batches
    ensures LotsOwned(Commit(s, step.owner, step.preview, step.id))
  {
    hide NameInstruments, CountUpdates;
    InstrumentsGrow(s.instruments, step.preview.rows);
    var t := Commit(s, step.owner, step.preview, step.id);
    forall lot | lot in t.lots
      ensures lot.batch in t.batches && lot.owner == t.batches[lot.batch].owner && lot.row.isin in t.instruments
    {
      assert lot in s.lots || lot in LotsOf(step.owner, step.id, step.preview.rows);
    }
  }

  lemma CommitKeepsAccounts(run: seq<Step>, step: Step, s: Store)
    requires Inv(run, s) && step.id !in s.batches
    ensures AllAccounted(run + [step], Commit(s, step.owner, step.preview, step.id))
  {
    hide Inv, Accounted, NameInstruments, CountUpdates, LotsOf;
    var t := Commit(s, step.owner, step.preview, step.id);
    forall id | id in t.batches
      ensures Accounted(run + [step], t, id)
    {
      if id in s.batches {
        assert Accounted(run, s, id) by { InvAccounts(run, s, id); }
        StillAccounted(run, step, s, id);
      } else {
        NewlyAccounted(run, step, s);
      }
    }
  }

  lemma InvAccounts(run: seq<Step>, s: Store, id: BatchId)
    requires Inv(run, s) && id in s.batches
    ensures Accounted(run, s, id)
  {
  }

  lemma CommitKeepsInv(run: seq<Step>, step: Step, s: Store)
    requires Inv(run, s) && step.id !in s.batches
    ensures Inv(run + [step], Commit(s, step.owner, step.preview, step.id))
  {
    hide NameInstruments, CountUpdates, UniqueBatches, AllAccounted, LotsOwned, OneRequestEach, Commit;
    CommitKeepsUnique(s, step);
    CommitKeepsOwned(s, step);
    CommitKeepsAccounts(run, step, s);
    CommitKeepsRequests(s, step);
  }

  lemma CommitKeepsRequests(s: Store, step: Step)
    requires OneRequestEach(s) && step.id !in s.batches
    ensures OneRequestEach(Commit(s, step.owner, step.preview, step.id))
  {
    hide BatchesOf, Commit;
    forall owner
      ensures multiset(Commit(s, step.owner, step.preview, step.id).events)[owner]
              == |BatchesOf(Commit(s, step.owner, step.preview, step.id), owner)|
    {
      CommitRequests(s, step, owner);
    }
  }

  lemma CommitRequests(s: Store, step: Step, owner: OwnerId)
    requires step.id !in s.batches && multiset(s.events)[owner] == |BatchesOf(s, owner)|
    ensures multiset(Commit(s, step.owner, step.preview, step.id).events)[owner]
            == |BatchesOf(Commit(s, step.owner, step.preview, step.id), owner)|
  {
    if !Imported(s, step.owner, step.preview) {
      CommitCounts(s, step, owner);
    }
  }

  lemma CommitCounts(s: Store, step: Step, owner: OwnerId)
    requires step.id !in s.batches && !Imported(s, step.owner, step.preview)
    ensures var t := Commit(s, step.owner, step.preview, step.id);
            && multiset(t.events)[owner] == multiset(s.events)[owner] + (if owner == step.owner then 1 else 0)
            && |BatchesOf(t, owner)| == |BatchesOf(s, owner)| + (if owner == step.owner then 1 else 0)
  {
    hide NameInstruments, CountUpdates, LotsOf, Imported;
    var t := Commit(s, step.owner, step.preview, step.id);
    assert BatchesOf(t, owner) == BatchesOf(s, owner) + (if owner == step.owner then {step.id} else {});
    assert step.id !in BatchesOf(s, owner);
  }

  /** Over all runs of commits: at most one batch for each owner, content and sheet; the lots of
      a batch are exactly the rows of one preview; no lot is without its batch and instrument;
      and every owner has requested one synchronisation for each of the owner's batches. */
  lemma {:induction false} RunInv(run: seq<Step>)
    requires ValidRun(run)
    ensures Inv(run, Exec(run))
    decreases |run|
  {
    hide Inv, Commit;
    if run == [] {
      assert Inv([], Store(map[], map[], [], [])) by { EmptyInv(); }
    } else {
      var front, last := run[..|run| - 1], run[|run| - 1];
      RunInv(front);
      CommitKeepsInv(front, last, Exec(front));
      assert run == front + [last];
    }
  }

  lemma EmptyInv()
    ensures Inv([], Store(map[], map[], [], []))
  {
  }

  /** Committing the same content again, at any later time, adds nothing. */
  lemma {:induction false} ReplayAddsNothing(run: seq<Step>, k: int, again: Step)
    requires ValidRun(run) && 0 <= k < |run|
    requires again.owner == run[k].owner && again.preview.checksum == run[k].preview.checksum
             && again.preview.sheetName == run[k].preview.sheetName
    ensures Commit(Exec(run), again.owner, again.preview, again.id) == Exec(run)
    ensures Imported(Exec(run), again.owner, again.preview)
    decreases |run|
  {
    hide NameInstruments, CountUpdates, LotsOf;
    var front, last := run[..|run| - 1], run[|run| - 1];
    if k < |front| {
      assert front[k] == run[k];
      ReplayAddsNothing(front, k, again);
      StaysImported(Exec(front), last, again);
    } else {
      NowImported(Exec(front), last, again);
    }
  }

  lemma StaysImported(s: Store, step: Step, again: Step)
    requires step.id !in s.batches && Imported(s, again.owner, again.preview)
    ensures Imported(Commit(s, step.owner, step.preview, step.id), again.owner, again.preview)
  {
    hide NameInstruments, CountUpdates, LotsOf;
    var id :| id in s.batches && SameKey(s.batches[id], again.owner, again.preview.checksum, again.preview.sheetName);
    assert id in Commit(s, step.owner, step.preview, step.id).batches;
  }

  lemma NowImported(s: Store, step: Step, again: Step)
    requires again.owner == step.owner && again.preview.checksum == step.preview.checksum
             && again.preview.sheetName == step.preview.sheetName
    ensures Imported(Commit(s, step.owner, step.preview, step.id), again.owner, again.preview)
  {
    hide NameInstruments, CountUpdates, LotsOf;
    if !Imported(s, step.owner, step.preview) {
      assert step.id in Commit(s, step.owner, step.preview, step.id).batches;
    }
  }

  predicate SameImport(a: Step, b: Step) {
    a.owner == b.owner && a.preview.checksum == b.preview.checksum && a.preview.sheetName == b.preview.sheetName
  }

  lemma ImportedOnlyBy(s: Store, step: Step, again: Step)
    requires step.id !in s.batches && !Imported(s, again.owner, again.preview) && !SameImport(step, again)
    ensures !Imported(Commit(s, step.owner, step.preview, step.id), again.owner, again.preview)
  {
    hide NameInstruments, CountUpdates, LotsOf;
  }

  /** Over every run a commit is a duplicate exactly if the same owner has committed the same content
      of the same sheet before: other sheets of a file and other owners are imported. */
  lemma {:induction false} DuplicateIff(run: seq<Step>, again: Step)
    requires ValidRun(run)
    ensures Imported(Exec(run), again.owner, again.preview)
            <==> exists k :: 0 <= k < |run| && SameImport(run[k], again)
    decreases |run|
  {
    hide Commit, Imported;
    if run == [] {
      assert !Imported(Exec(run), again.owner, again.preview) by { NothingImported(again); }
    } else {
      var front, last := run[..|run| - 1], run[|run| - 1];
      DuplicateIff(front, again);
      if exists k :: 0 <= k < |run| && SameImport(run[k], again) {
        var k :| 0 <= k < |run| && SameImport(run[k], again);
        ReplayAddsNothing(run, k, again);
      } else {
        assert forall k :: 0 <= k < |front| ==> front[k] == run[k];
        ImportedOnlyBy(Exec(front), last, again);
      }
    }
  }

  lemma NothingImported(again: Step)
    ensures !Imported(Exec([]), again.owner, again.preview)
  {
  }
}
