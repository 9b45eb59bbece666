/** The whole pass: reading, refreshing every instrument once, computing the rows with the
    table of historical answers, and writing one batch. */
module SheetSyncPass {
  import opened Prelude
  import opened SheetConnection
  import opened SheetGateway
  import opened SheetSync
  import opened SheetSyncRows
  import opened SheetSyncBatch
  import opened SheetSyncExecute

  type Pair = (Row, string)

  // ---------- First occurrences ----------

  /** The distinct elements in the order in which they first occur. */
  function FirstOccurrences<T(==,!new)>(s: seq<T>): (r: seq<T>)
    ensures forall x :: x in r <==> x in s
    ensures Distinct(r)
  {
    if s == [] then []
    else
      var front, last := s[..|s| - 1], s[|s| - 1];
      assert s == front + [last];
      var r := FirstOccurrences(front);
      if last in r then r else r + [last]
  }

  lemma FirstOccurrencesSnoc<T(!new)>(s: seq<T>, x: T)
    ensures FirstOccurrences(s + [x]) == if x in s then FirstOccurrences(s) else FirstOccurrences(s) + [x]
  {
    assert (s + [x])[..|s|] == s;
  }

  // ---------- What a pass amounts to ----------

  function WithIsin(config: Config, rows: seq<Row>): seq<Row> {
    if rows == [] then []
    else
      WithIsin(config, rows[..|rows| - 1]) + if HasIsin(rows[|rows| - 1], config) then [rows[|rows| - 1]] else []
  }

  function AcceptedPairs(config: Config, rows: seq<Row>): seq<Pair> {
    if rows == [] then []
    else
      var last := rows[|rows| - 1];
      AcceptedPairs(config, rows[..|rows| - 1])
      + if Accepted(last, config) then [(last, IsinOf(last, config).value)] else []
  }

  function RejectedErrors(config: Config, rows: seq<Row>): seq<RowError> {
    if rows == [] then []
    else
      var last := rows[|rows| - 1];
      RejectedErrors(config, rows[..|rows| - 1])
      + if Rejected(last, config)
        then [IsinRejected(last.number, RawIsin(last, config), IsinOf(last, config).error)] else []
  }

  function Isins(pairs: seq<Pair>): seq<string> {
    seq(|pairs|, i requires 0 <= i < |pairs| => pairs[i].1)
  }

  function RefreshErrors(world: World, isins: seq<string>): seq<RowError> {
    if isins == [] then []
    else
      var last := isins[|isins| - 1];
      RefreshErrors(world, isins[..|isins| - 1])
      + match world.refresh(last)
        case Err(message) => [RefreshRejected(last, Clip(message, 1000))]
        case Ok(_) => []
  }

  function CountRefreshed(world: World, isins: seq<string>): nat {
    if isins == [] then 0
    else CountRefreshed(world, isins[..|isins| - 1]) + if world.refresh(isins[|isins| - 1]).Ok? then 1 else 0
  }

  ghost function UpdatesFor(config: Config, world: World, pairs: seq<Pair>): seq<CellUpdate> {
    if pairs == [] then []
    else
      var last := pairs[|pairs| - 1];
      UpdatesFor(config, world, pairs[..|pairs| - 1])
      + CellUpdates(last.0.number, RowCells(config, world, last.1, last.0.values))
  }

  function KeySet(keys: seq<Key>): set<Key> {
    set k | k in keys
  }

  /** All keys that the rows ask for, with repetitions. */
  function Asked(world: World, pairs: seq<Pair>): seq<Key> {
    if pairs == [] then []
    else Asked(world, pairs[..|pairs| - 1]) + RowKeys(world, pairs[|pairs| - 1].0, pairs[|pairs| - 1].1)
  }

  function Questions(world: World, keys: seq<Key>): seq<Question> {
    seq(|keys|, i requires 0 <= i < |keys| => QuestionOf(world, keys[i]))
  }

  ghost function MainErrors(config: Config, world: World, pairs: seq<Pair>): seq<RowError> {
    if pairs == [] then []
    else
      var front, last := pairs[..|pairs| - 1], pairs[|pairs| - 1];
      MainErrors(config, world, front)
      + RowErrors(config, world, last.0, last.1, KeySet(Asked(world, front)))
  }

  /** The requests of a pass: every distinct accepted ISIN once, in the order of the rows, and
      every distinct pair of ISIN and purchase date that some row asks for once. */
  function RefreshList(config: Config, rows: seq<Row>): seq<string> {
    FirstOccurrences(Isins(AcceptedPairs(config, rows)))
  }

  function QuestionList(config: Config, world: World, rows: seq<Row>): seq<Question> {
    Questions(world, FirstOccurrences(Asked(world, AcceptedPairs(config, rows))))
  }

  ghost function AllErrors(config: Config, world: World, rows: seq<Row>): seq<RowError> {
    RejectedErrors(config, rows) + RefreshErrors(world, RefreshList(config, rows))
    + MainErrors(config, world, AcceptedPairs(config, rows))
  }

  ghost function ReportOf(config: Config, world: World, rows: seq<Row>): Report {
    Report(|WithIsin(config, rows)|, |AcceptedPairs(config, rows)|, CountRefreshed(world, RefreshList(config, rows)),
           AllErrors(config, world, rows))
  }

  // ---------- Filtering first changes nothing ----------

  lemma {:induction false} FilteringFirst(config: Config, rows: seq<Row>)
    ensures AcceptedPairs(config, WithIsin(config, rows)) == AcceptedPairs(config, rows)
    ensures RejectedErrors(config, WithIsin(config, rows)) == RejectedErrors(config, rows)
  {
    hide IsinOf, RawIsin;
    if rows != [] {
      var front, last := rows[..|rows| - 1], rows[|rows| - 1];
      FilteringFirst(config, front);
      if HasIsin(last, config) {
        assert WithIsin(config, rows) == WithIsin(config, front) + [last];
        assert WithIsin(config, rows)[..|WithIsin(config, front)|] == WithIsin(config, front);
      } else {
        assert WithIsin(config, rows) == WithIsin(config, front);
      }
    }
  }

  lemma {:induction false} UpdatesAreMain(config: Config, world: World, rows: seq<Row>)
    ensures UpdatesFor(config, world, AcceptedPairs(config, rows)) == MainUpdates(config, world, rows)
  {
    hide IsinOf, RowCells, CellUpdates;
    if rows != [] {
      var front, last := rows[..|rows| - 1], rows[|rows| - 1];
      UpdatesAreMain(config, world, front);
      if Accepted(last, config) {
        var pairs := AcceptedPairs(config, rows);
        assert pairs == AcceptedPairs(config, front) + [(last, IsinOf(last, config).value)];
        assert pairs[..|pairs| - 1] == AcceptedPairs(config, front);
      } else {
        assert AcceptedPairs(config, rows) == AcceptedPairs(config, front);
      }
    }
  }

  // ---------- The loops ----------

  method KeepRowsWithIsin(config: Config, all: seq<Row>) returns (rows: seq<Row>)
    ensures rows == WithIsin(config, all)
  {
    rows := [];
    for i := 0 to |all|
      invariant rows == WithIsin(config, all[..i])
    {
      assert all[..i + 1][..i] == all[..i];
      if HasIsin(all[i], config) {
        rows := rows + [all[i]];
      }
    }
    assert all[..|all|] == all;
  }

  method NormalizeRows(config: Config, rows: seq<Row>) returns (pairs: seq<Pair>, errors: seq<RowError>)
    requires forall row :: row in rows ==> HasIsin(row, config)
    ensures pairs == AcceptedPairs(config, rows) && errors == RejectedErrors(config, rows)
  {
    hide IsinOf, RawIsin;
    pairs, errors := [], [];
    for i := 0 to |rows|
      invariant pairs == AcceptedPairs(config, rows[..i]) && errors == RejectedErrors(config, rows[..i])
    {
      assert rows[..i + 1][..i] == rows[..i];
      assert rows[i] in rows;
      match IsinOf(rows[i], config)
      case Ok(isin) => pairs := pairs + [(rows[i], isin)];
      case Err(e) => errors := errors + [IsinRejected(rows[i].number, RawIsin(rows[i], config), e)];
    }
    assert rows[..|rows|] == rows;
  }

  method DistinctIsins(pairs: seq<Pair>) returns (isins: seq<string>)
    ensures isins == FirstOccurrences(Isins(pairs))
  {
    isins := [];
    for i := 0 to |pairs|
      invariant isins == FirstOccurrences(Isins(pairs)[..i])
    {
      assert Isins(pairs)[..i + 1] == Isins(pairs)[..i] + [pairs[i].1];
      FirstOccurrencesSnoc(Isins(pairs)[..i], pairs[i].1);
      if pairs[i].1 !in isins {
        isins := isins + [pairs[i].1];
      }
    }
    assert Isins(pairs)[..|pairs|] == Isins(pairs);
  }

  /** The table of refreshed instruments holds the answers of the exchange. */
  ghost predicate Refreshes(world: World, isins: seq<string>, table: map<string, Option<Refreshed>>) {
    && (forall isin :: isin in table <==> isin in isins)
    && (forall isin :: isin in table ==>
          table[isin] == match world.refresh(isin) case Ok(r) => Some(r) case Err(_) => None)
  }

  lemma NothingRefreshed(world: World)
    ensures Refreshes(world, [], map[])
  {
  }

  lemma RefreshesSnoc(world: World, isins: seq<string>, table: map<string, Option<Refreshed>>, isin: string)
    requires Refreshes(world, isins, table)
    ensures Refreshes(world, isins + [isin],
                      table[isin := match world.refresh(isin) case Ok(r) => Some(r) case Err(_) => None])
  {
  }

  method RefreshAll(moex: Exchange, isins: seq<string>)
    returns (table: map<string, Option<Refreshed>>, errors: seq<RowError>, count: nat)
    modifies moex`refreshes
    ensures moex.refreshes == old(moex.refreshes) + isins
    ensures Refreshes(moex.world, isins, table)
    ensures errors == RefreshErrors(moex.world, isins) && count == CountRefreshed(moex.world, isins)
  {
    hide Refreshes;
    table, errors, count := map[], [], 0;
    NothingRefreshed(moex.world);
    for i := 0 to |isins|
      invariant moex.refreshes == old(moex.refreshes) + isins[..i]
      invariant Refreshes(moex.world, isins[..i], table)
      invariant errors == RefreshErrors(moex.world, isins[..i]) && count == CountRefreshed(moex.world, isins[..i])
    {
      assert isins[..i + 1][..i] == isins[..i] && isins[..i + 1] == isins[..i] + [isins[i]];
      RefreshesSnoc(moex.world, isins[..i], table, isins[i]);
      var answer := moex.Refresh(isins[i]);
      match answer
      case Ok(r) =>
        table := table[isins[i] := Some(r)];
        count := count + 1;
      case Err(message) =>
        table := table[isins[i] := None];
        errors := errors + [RefreshRejected(isins[i], Clip(message, 1000))];
    }
    assert isins[..|isins|] == isins;
  }

  // ---------- The rows ----------

  lemma AskedSnoc(world: World, pairs: seq<Pair>, last: Pair)
    ensures Asked(world, pairs + [last]) == Asked(world, pairs) + RowKeys(world, last.0, last.1)
    ensures KeySet(Asked(world, pairs + [last]))
            == KeySet(Asked(world, pairs)) + (set k | k in RowKeys(world, last.0, last.1))
  {
    hide RowKeys;
    assert (pairs + [last])[..|pairs|] == pairs;
  }

  lemma QuestionsSnoc(world: World, pairs: seq<Pair>, last: Pair)
    ensures Questions(world, FirstOccurrences(Asked(world, pairs + [last])))
            == Questions(world, FirstOccurrences(Asked(world, pairs)))
               + NewQuestions(world, last.0, last.1, KeySet(Asked(world, pairs)))
  {
    hide QuestionOf, AsksHistory, FirstOccurrences, Asked;
    AskedSnoc(world, pairs, last);
    var before, keys := Asked(world, pairs), RowKeys(world, last.0, last.1);
    if keys != [] {
      FirstOccurrencesSnoc(before, keys[0]);
      assert keys == [keys[0]];
    } else {
      assert before + keys == before;
    }
  }

  lemma PairsSnoc(config: Config, world: World, pairs: seq<Pair>, last: Pair)
    ensures UpdatesFor(config, world, pairs + [last])
            == UpdatesFor(config, world, pairs)
               + CellUpdates(last.0.number, RowCells(config, world, last.1, last.0.values))
    ensures MainErrors(config, world, pairs + [last])
            == MainErrors(config, world, pairs) + RowErrors(config, world, last.0, last.1, KeySet(Asked(world, pairs)))
  {
    hide RowCells, CellUpdates, RowErrors, Asked;
    assert (pairs + [last])[..|pairs|] == pairs;
  }

  lemma NoPairs(config: Config, world: World)
    ensures UpdatesFor(config, world, []) == [] && MainErrors(config, world, []) == [] && KeySet(Asked(world, [])) == {}
    ensures TableOk(world, map[]) && Questions(world, FirstOccurrences(Asked(world, []))) == []
  {
  }

  method ComputeRows(config: Config, moex: Exchange, refreshed: map<string, Option<Refreshed>>, pairs: seq<Pair>)
    returns (updates: seq<CellUpdate>, errors: seq<RowError>)
    requires Refreshes(moex.world, FirstOccurrences(Isins(pairs)), refreshed)
    modifies moex`questions
    ensures updates == UpdatesFor(config, moex.world, pairs)
    ensures errors == MainErrors(config, moex.world, pairs)
    ensures moex.questions == old(moex.questions) + Questions(moex.world, FirstOccurrences(Asked(moex.world, pairs)))
  {
    hide RowCells, FailedRow, CellUpdates, RowErrors, TableOk, NewQuestions, RowKeys, FirstOccurrences, Questions,
      UpdatesFor,
      MainErrors, Asked, KeySet;
    updates, errors := [], [];
    var table: map<Key, Option<real>> := map[];
    NoPairs(config, moex.world);
    for i := 0 to |pairs|
      invariant updates == UpdatesFor(config, moex.world, pairs[..i])
      invariant errors == MainErrors(config, moex.world, pairs[..i])
      invariant TableOk(moex.world, table) && table.Keys == KeySet(Asked(moex.world, pairs[..i]))
      invariant moex.questions
                == old(moex.questions) + Questions(moex.world, FirstOccurrences(Asked(moex.world, pairs[..i])))
    {
      var (row, isin) := pairs[i];
      assert pairs[..i + 1][..i] == pairs[..i] && pairs[..i + 1] == pairs[..i] + [pairs[i]];
      assert isin in Isins(pairs) by {
        assert Isins(pairs)[i] == isin;
      }
      AskedSnoc(moex.world, pairs[..i], pairs[i]);
      PairsSnoc(config, moex.world, pairs[..i], pairs[i]);
      QuestionsSnoc(moex.world, pairs[..i], pairs[i]);
      match refreshed[isin]
      case None =>
        FailedIsin(config, moex.world, row, isin, table.Keys);
        updates := updates + CellUpdates(row.number, FailedRow(config));
      case Some(r) =>
        var cells, failures;
        cells, table, failures := ProcessRow(config, moex, r, row, isin, table);
        updates := updates + CellUpdates(row.number, cells);
        errors := errors + failures;
    }
    assert pairs[..|pairs|] == pairs;
  }

  lemma FailedIsin(config: Config, world: World, row: Row, isin: string, known: set<Key>)
    requires world.refresh(isin).Err?
    ensures RowCells(config, world, isin, row.values) == FailedRow(config)
    ensures RowErrors(config, world, row, isin, known) == [] && RowKeys(world, row, isin) == []
    ensures NewQuestions(world, row, isin, known) == []
  {
  }

  // ---------- The marks of invalid rows ----------

  function NumberOf(e: RowError): Option<int> {
    match e
    case IsinRejected(n, _, _) => Some(n)
    case RefreshRejected(_, _) => None
    case HistoryRejected(n, _, _) => Some(n)
    case CalculationRejected(n, _, _) => Some(n)
  }

  predicate HasPair(number: int, pairs: seq<Pair>) {
    exists i :: 0 <= i < |pairs| && pairs[i].0.number == number
  }

  function ErrorMarks(config: Config, pairs: seq<Pair>, e: RowError): seq<CellUpdate> {
    if NumberOf(e).Some? && config.statusColumn.Some? && !HasPair(NumberOf(e).value, pairs)
    then InvalidUpdates(NumberOf(e).value, config.statusColumn.value) else []
  }

  function MarksFor(config: Config, pairs: seq<Pair>, errors: seq<RowError>): seq<CellUpdate> {
    if errors == [] then []
    else MarksFor(config, pairs, errors[..|errors| - 1]) + ErrorMarks(config, pairs, errors[|errors| - 1])
  }

  method MarkInvalidRows(config: Config, pairs: seq<Pair>, errors: seq<RowError>) returns (updates: seq<CellUpdate>)
    ensures updates == MarksFor(config, pairs, errors)
  {
    updates := [];
    for i := 0 to |errors|
      invariant updates == MarksFor(config, pairs, errors[..i])
    {
      assert errors[..i + 1][..i] == errors[..i];
      var number := NumberOf(errors[i]);
      if number.Some? && config.statusColumn.Some? {
        if HasPair(number.value, pairs) {
          continue;
        }
        updates := updates + InvalidUpdates(number.value, config.statusColumn.value);
      }
    }
    assert errors[..|errors|] == errors;
  }

  lemma {:induction false} QuietErrors(config: Config, pairs: seq<Pair>, errors: seq<RowError>, more: seq<RowError>)
    requires forall e :: e in more ==> ErrorMarks(config, pairs, e) == []
    ensures MarksFor(config, pairs, errors + more) == MarksFor(config, pairs, errors)
  {
    hide ErrorMarks;
    if more == [] {
      assert errors + more == errors;
    } else {
      var front, last := more[..|more| - 1], more[|more| - 1];
      QuietErrors(config, pairs, errors, front);
      assert (errors + more)[..|errors + more| - 1] == errors + front;
      assert last in more;
    }
  }

  lemma {:induction false} RefreshErrorsQuiet(config: Config, world: World, pairs: seq<Pair>, isins: seq<string>)
    ensures forall e :: e in RefreshErrors(world, isins) ==> ErrorMarks(config, pairs, e) == []
  {
    if isins != [] {
      RefreshErrorsQuiet(config, world, pairs, isins[..|isins| - 1]);
    }
  }

  lemma RowErrorsNumber(config: Config, world: World, row: Row, isin: string, known: set<Key>)
    ensures forall e :: e in RowErrors(config, world, row, isin, known) ==> NumberOf(e) == Some(row.number)
  {
    hide CurrentOf, AsksHistory, EffectivePurchase;
  }

  lemma {:induction false} MainErrorsQuiet(config: Config, world: World, pairs: seq<Pair>, some: seq<Pair>)
    requires forall pair :: pair in some ==> pair in pairs
    ensures forall e :: e in MainErrors(config, world, some) ==> ErrorMarks(config, pairs, e) == []
  {
    hide RowErrors;
    if some != [] {
      var front, last := some[..|some| - 1], some[|some| - 1];
      assert last in some;
      MainErrorsQuiet(config, world, pairs, front);
      RowErrorsNumber(config, world, last.0, last.1, KeySet(Asked(world, front)));
      var i :| 0 <= i < |pairs| && pairs[i] == last;
      assert HasPair(last.0.number, pairs);
    }
  }

  lemma {:induction false} PairsAreAccepted(config: Config, rows: seq<Row>, number: int)
    ensures HasPair(number, AcceptedPairs(config, rows)) <==> NumberAccepted(number, rows, config)
  {
    hide IsinOf, Accepted;
    if rows != [] {
      var front, last := rows[..|rows| - 1], rows[|rows| - 1];
      PairsAreAccepted(config, front, number);
      var before, now := AcceptedPairs(config, front), AcceptedPairs(config, rows);
      assert forall i :: 0 <= i < |front| ==> front[i] == rows[i];
      assert forall i :: 0 <= i < |before| ==> now[i] == before[i];
      if Accepted(last, config) {
        assert now[|before|].0 == last;
        assert last.number == number ==> HasPair(number, now);
      }
      if HasPair(number, now) {
        var i :| 0 <= i < |now| && now[i].0.number == number;
        assert i < |before| ==> HasPair(number, before);
      }
      if HasPair(number, before) {
        var i :| 0 <= i < |before| && before[i].0.number == number;
        assert now[i].0.number == number;
      }
    }
  }

  lemma {:induction false} RejectedMarks(config: Config, all: seq<Row>, rows: seq<Row>)
    ensures MarksFor(config, AcceptedPairs(config, all), RejectedErrors(config, rows))
            == InvalidMarks(config, all, rows)
  {
    hide IsinOf, NumberAccepted, HasPair, InvalidUpdates, RawIsin;
    if rows != [] {
      var front, last := rows[..|rows| - 1], rows[|rows| - 1];
      RejectedMarks(config, all, front);
      PairsAreAccepted(config, all, last.number);
      var before, now := RejectedErrors(config, front), RejectedErrors(config, rows);
      if Rejected(last, config) {
        assert now[..|now| - 1] == before;
      } else {
        assert now == before;
      }
    }
  }

  lemma MarksAreInvalidMarks(config: Config, world: World, rows: seq<Row>)
    ensures MarksFor(config, AcceptedPairs(config, rows), AllErrors(config, world, rows))
            == InvalidMarks(config, rows, rows)
  {
    hide ErrorMarks, RejectedErrors, RefreshErrors, MainErrors, AcceptedPairs, InvalidMarks, RefreshList, MarksFor;
    var pairs, isins := AcceptedPairs(config, rows), RefreshList(config, rows);
    RejectedMarks(config, rows, rows);
    RefreshErrorsQuiet(config, world, pairs, isins);
    QuietErrors(config, pairs, RejectedErrors(config, rows), RefreshErrors(world, isins));
    MainErrorsQuiet(config, world, pairs, pairs);
    QuietErrors(config, pairs, RejectedErrors(config, rows) + RefreshErrors(world, isins),
                MainErrors(config, world, pairs));
  }

  // ---------- The requests ----------

  lemma {:induction false} PairsExactly(config: Config, rows: seq<Row>, row: Row, isin: string)
    ensures (row, isin) in AcceptedPairs(config, rows)
            <==> row in rows && Accepted(row, config) && IsinOf(row, config) == Ok(isin)
  {
    hide IsinOf;
    if rows != [] {
      var front, last := rows[..|rows| - 1], rows[|rows| - 1];
      assert rows == front + [last];
      PairsExactly(config, front, row, isin);
    }
  }

  lemma {:induction false} AskedExactly(world: World, pairs: seq<Pair>, key: Key)
    ensures key in Asked(world, pairs) <==> exists pair :: pair in pairs && key in RowKeys(world, pair.0, pair.1)
  {
    hide RowKeys;
    if pairs != [] {
      var front, last := pairs[..|pairs| - 1], pairs[|pairs| - 1];
      assert pairs == front + [last];
      AskedExactly(world, front, key);
    }
  }

  /** Every ISIN that some row has is refreshed exactly once, however often it occurs. */
  lemma EveryInstrumentOnce(config: Config, rows: seq<Row>, isin: string)
    ensures Distinct(RefreshList(config, rows))
    ensures isin in RefreshList(config, rows)
            <==> exists row :: row in rows && Accepted(row, config) && IsinOf(row, config) == Ok(isin)
  {
    hide IsinOf, Accepted, AcceptedPairs, FirstOccurrences;
    var pairs := AcceptedPairs(config, rows);
    if isin in RefreshList(config, rows) {
      var i :| 0 <= i < |pairs| && Isins(pairs)[i] == isin;
      assert pairs[i] in pairs;
      PairsExactly(config, rows, pairs[i].0, isin);
    }
    if row :| row in rows && Accepted(row, config) && IsinOf(row, config) == Ok(isin) {
      PairsExactly(config, rows, row, isin);
      var i :| 0 <= i < |pairs| && pairs[i] == (row, isin);
      assert Isins(pairs)[i] == isin;
    }
  }

  /** The exchange is asked about an ISIN and a purchase date exactly if some row of a refreshed
      instrument leaves J blank, and then exactly once. */
  lemma EveryDateOnce(config: Config, world: World, rows: seq<Row>, key: Key)
    ensures var keys := FirstOccurrences(Asked(world, AcceptedPairs(config, rows)));
            && Distinct(keys)
            && QuestionList(config, world, rows) == Questions(world, keys)
            && (key in keys <==>
                  exists row :: && row in rows && Accepted(row, config) && IsinOf(row, config) == Ok(key.0)
                    && world.refresh(key.0).Ok? && AsksHistory(row.values, world)
                    && PurchaseDate(row.values, world) == key.1)
  {
    hide IsinOf, Accepted, AcceptedPairs, FirstOccurrences, AsksHistory, PurchaseDate, Questions;
    var pairs := AcceptedPairs(config, rows);
    AskedExactly(world, pairs, key);
    if key in Asked(world, pairs) {
      var pair :| pair in pairs && key in RowKeys(world, pair.0, pair.1);
      PairsExactly(config, rows, pair.0, pair.1);
    }
    if row :| row in rows && Accepted(row, config) && IsinOf(row, config) == Ok(key.0)
              && world.refresh(key.0).Ok? && AsksHistory(row.values, world)
              && PurchaseDate(row.values, world) == key.1 {
      PairsExactly(config, rows, row, key.0);
      assert key in RowKeys(world, row, key.0);
    }
  }

  // ---------- The pass ----------

  method Execute(config: Config, gateway: MemoryGateway, moex: Exchange) returns (report: Report)
    modifies gateway, moex
    ensures Syncs(config, moex.world, old(gateway.cells), gateway.cells)
    ensures exists rows :: && ReadsRows(config, old(gateway.cells), rows)
              && gateway.cells == ApplyBatch(old(gateway.cells), NaiveBatch(config, moex.world, rows))
              && gateway.batches == old(gateway.batches) + [NaiveBatch(config, moex.world, rows)]
              && moex.refreshes == old(moex.refreshes) + RefreshList(config, rows)
              && moex.questions == old(moex.questions) + QuestionList(config, moex.world, rows)
              && report == ReportOf(config, moex.world, rows)
  {
    hide ApplyBatch, IsReading, FirstOccurrences, AcceptedPairs, RejectedErrors, RefreshErrors, MainErrors,
      WithIsin, UpdatesFor,
      MainUpdates, InvalidMarks, MarksFor, Requested, Asked, Questions, CountRefreshed, HeaderUpdates;
    var all := gateway.Read(Requested(config), config.headerRow + 1);
    var rows := KeepRowsWithIsin(config, all);
    RowsWithIsin(config, all);
    var pairs, errors := NormalizeRows(config, rows);
    FilteringFirst(config, all);
    var isins := DistinctIsins(pairs);
    var refreshed, refreshErrors, count := RefreshAll(moex, isins);
    var updates := HeaderUpdates(config);
    var rowUpdates, rowErrors := ComputeRows(config, moex, refreshed, pairs);
    errors := errors + refreshErrors + rowErrors;
    UpdatesAreMain(config, moex.world, all);
    var marks := MarkInvalidRows(config, pairs, errors);
    MarksAreInvalidMarks(config, moex.world, all);
    updates := updates + rowUpdates + marks;
    assert updates == NaiveBatch(config, moex.world, all);
    var written := gateway.UpdateCells(updates);
    report := Report(|rows|, |pairs|, count, errors);
    assert report == ReportOf(config, moex.world, all);
    assert ReadsRows(config, old(gateway.cells), all);
  }

  lemma {:induction false} RowsWithIsin(config: Config, rows: seq<Row>)
    ensures forall row :: row in WithIsin(config, rows) ==> HasIsin(row, config)
  {
    if rows != [] {
      RowsWithIsin(config, rows[..|rows| - 1]);
    }
  }
}
