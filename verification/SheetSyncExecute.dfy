/** The pass as the service runs it: one question to the exchange for each instrument, a table
    of historical answers, and one batch at the end. It is proved equal to the computation
    that treats every row on its own. */
module SheetSyncExecute {
  import opened Prelude
  import opened Cells
  import opened YieldEngine
  import opened SheetCalculations
  import opened SheetConnection
  import opened SheetGateway
  import opened SheetSync
  import opened SheetSyncRows
  import Isin

  // ---------- The outside world ----------

  type Question = (string, Option<string>, int)

  /** The client of the exchange; the two logs record the requests it received. */
  class Exchange {
    const world: World
    var refreshes: seq<string>
    var questions: seq<Question>

    constructor (world: World)
      ensures this.world == world && refreshes == [] && questions == []
    {
      this.world := world;
      refreshes := [];
      questions := [];
    }

    method Refresh(isin: string) returns (r: Result<Refreshed, string>)
      modifies this`refreshes
      ensures r == world.refresh(isin)
      ensures refreshes == old(refreshes) + [isin]
    {
      refreshes := refreshes + [isin];
      r := world.refresh(isin);
    }

    method AccruedInterestOn(secid: string, board: Option<string>, date: int) returns (h: History)
      modifies this`questions
      ensures h == world.history(secid, board, date)
      ensures questions == old(questions) + [(secid, board, date)]
    {
      questions := questions + [(secid, board, date)];
      h := world.history(secid, board, date);
    }
  }

  /** The in-memory gateway of one worksheet. */
  class MemoryGateway {
    var cells: Sheet
    var batches: seq<seq<CellUpdate>>

    constructor (sheet: Sheet)
      ensures cells == sheet && batches == []
    {
      cells := sheet;
      batches := [];
    }

    method Read(columns: set<Column>, first: int) returns (rows: seq<Row>)
      ensures IsReading(cells, columns, first, rows)
    {
      rows := ReadRows(cells, columns, first);
    }

    method UpdateCells(updates: seq<CellUpdate>) returns (count: nat)
      modifies this
      ensures cells == ApplyBatch(old(cells), updates)
      ensures batches == old(batches) + [updates]
      ensures count == |updates|
    {
      batches := batches + [updates];
      for i := 0 to |updates|
        invariant cells == ApplyBatch(old(cells), updates[..i])
        invariant batches == old(batches) + [updates]
      {
        assert updates[..i + 1][..i] == updates[..i];
        cells := cells[AddressOf(updates[i]) := updates[i].value];
      }
      assert updates[..|updates|] == updates;
      count := |updates|;
    }
  }

  // ---------- The report of a pass ----------

  datatype RowError =
    | IsinRejected(number: int, raw: string, reason: Isin.IsinError)
    | RefreshRejected(isin: string, message: string)
    | HistoryRejected(number: int, isin: string, message: string)
    | CalculationRejected(number: int, isin: string, failure: EngineError)

  datatype Report = Report(rowsRead: nat, rowsUpdated: nat, instrumentsRefreshed: nat, errors: seq<RowError>)

  function Clip(message: string, limit: nat): string {
    if |message| <= limit then message else message[..limit]
  }

  // ---------- Calculation, as loops and branches ----------

  method ComputeSheetCurrent(p: SheetPurchase, date: int, offer: real, accrued: real, flows: seq<CashFlow>)
    returns (r: Result<SheetCurrent, EngineError>)
    requires p.quantity != 0.0
    ensures r == CalculateCurrent(p, date, offer, accrued, flows)
  {
    var result := ComputeCurrentYield(CurrentInput(EnginePurchase(p), date, offer, accrued, flows, 0.0, CUSTOMER_TAX));
    match result
    case Err(e) => return Err(e);
    case Ok(y) =>
      var count := SummarizePaidCoupons(p.purchaseDate, date, p.quantity, flows).0;
      var delta := match p.plan case Some(plan) => Some(y.annualAfterTax - plan) case None => None;
      return Ok(SheetCurrent(
        count, y.coupons, y.exitTotal, y.profitBeforeTax, y.profitAfterTax, y.annualAfterTax, delta));
  }

  method ParseSheetPurchase(values: RowValues, accrued: Option<real>, commission: real, parser: Parser)
    returns (r: Result<SheetPurchase, RowStatus>)
    ensures r == ParsePurchase(values, accrued, commission, parser)
  {
    var missing := [];
    var date := ParseDate(Cell(values, E_DATE), parser);
    var quantity := ParseDecimal(Cell(values, H_QUANTITY), parser);
    var price := ParseDecimal(Cell(values, I_PRICE), parser);
    if date.None? {
      missing := missing + ["E"];
    }
    if quantity.None? {
      missing := missing + ["H"];
    }
    if price.None? {
      missing := missing + ["I"];
    }
    assert missing == Missing(values, parser);
    if missing != [] {
      return Err(MissingInputs(missing));
    }
    if accrued.None? {
      return Err(NoPurchaseAccrued);
    }
    if quantity.value <= 0.0 {
      return Err(NonPositiveAmount);
    }
    if price.value < 0.0 || accrued.value < 0.0 || commission < 0.0 {
      return Err(NegativeAmount);
    }
    return Ok(SheetPurchase(date.value, quantity.value, price.value, accrued.value, commission,
                            ParseDecimal(Cell(values, V_PLAN), parser)));
  }

  ghost function CalculationErrors(
    config: Config, world: World, r: Refreshed, p: SheetPurchase, number: int, isin: string): seq<RowError>
    requires p.quantity != 0.0
  {
    if Quoted(config, r) && CurrentOf(config, world, r, p).Err?
    then [CalculationRejected(number, isin, CurrentOf(config, world, r, p).error)]
    else []
  }

  method CalculateRow(
    config: Config, world: World, r: Refreshed, p: SheetPurchase, blank: RowDict, number: int, isin: string)
    returns (d: RowDict, errors: seq<RowError>)
    requires p.quantity != 0.0
    ensures d == PurchaseCells(config, world, r, p, blank)
    ensures errors == CalculationErrors(config, world, r, p, number, isin)
  {
    errors := [];
    var date := world.localDate(QuoteTime(r.market));
    var summary := SummarizePaidCoupons(p.purchaseDate, date, p.quantity, r.cashflows);
    d := PutSummary(blank, summary.0, summary.1);
    var price := MarketRubPrice(r.market, config.priceMode);
    if price.None? {
      d := PutStatus(d, if OfferMode(config.priceMode) then NoOffer else NoBid);
      return;
    }
    if r.market.accrued.None? {
      d := PutStatus(d, NoCurrentAccrued);
      return;
    }
    var calculation := ComputeSheetCurrent(p, date, price.value, r.market.accrued.value, r.cashflows);
    match calculation
    case Err(e) =>
      d := PutStatus(d, CalculationFailed(e));
      errors := [CalculationRejected(number, isin, e)];
    case Ok(c) => d := PutResult(d, c);
  }

  // ---------- One row, with the table of historical answers ----------

  type Key = (string, int)

  function KeyOf(world: World, row: Row, isin: string): Key
    requires AsksHistory(row.values, world)
  {
    (isin, PurchaseDate(row.values, world))
  }

  function QuestionOf(world: World, key: Key): Question {
    match world.refresh(key.0)
    case Ok(r) => (r.secid, r.board, key.1)
    case Err(_) => ("", None, key.1)
  }

  function HistoryAt(world: World, key: Key): History {
    var q := QuestionOf(world, key);
    world.history(q.0, q.1, q.2)
  }

  /** The keys that one row asks for. */
  function RowKeys(world: World, row: Row, isin: string): seq<Key> {
    if world.refresh(isin).Ok? && AsksHistory(row.values, world) then [KeyOf(world, row, isin)] else []
  }

  /** The table holds what the exchange would answer. */
  ghost predicate TableOk(world: World, table: map<Key, Option<real>>) {
    forall key :: key in table ==> table[key] == Answer(HistoryAt(world, key))
  }

  /** A failed question is reported by the row that asks first. */
  function HistoryErrors(world: World, row: Row, isin: string, known: set<Key>): seq<RowError> {
    var keys := RowKeys(world, row, isin);
    if keys != [] && keys[0] !in known then
      match HistoryAt(world, keys[0])
      case HistoryFailed(message) => [HistoryRejected(row.number, isin, Clip(message, 900))]
      case _ => []
    else []
  }

  ghost function RowErrors(config: Config, world: World, row: Row, isin: string, known: set<Key>): seq<RowError> {
    match world.refresh(isin)
    case Err(_) => []
    case Ok(r) =>
      HistoryErrors(world, row, isin, known)
      + match EffectivePurchase(world, r, row.values)
        case Err(_) => []
        case Ok(p) => CalculationErrors(config, world, r, p, row.number, isin)
  }

  method AskHistory(moex: Exchange, r: Refreshed, row: Row, isin: string, table: map<Key, Option<real>>)
    returns (answer: Option<real>, known: map<Key, Option<real>>, errors: seq<RowError>)
    requires moex.world.refresh(isin) == Ok(r) && AsksHistory(row.values, moex.world) && TableOk(moex.world, table)
    modifies moex`questions
    ensures answer == HistoryOf(moex.world, r, row.values)
    ensures TableOk(moex.world, known) && known.Keys == table.Keys + {KeyOf(moex.world, row, isin)}
    ensures moex.questions == old(moex.questions)
            + if KeyOf(moex.world, row, isin) in table then []
              else [QuestionOf(moex.world, KeyOf(moex.world, row, isin))]
    ensures errors == HistoryErrors(moex.world, row, isin, table.Keys)
  {
    errors := [];
    known := table;
    var key := KeyOf(moex.world, row, isin);
    if key !in known {
      var h := moex.AccruedInterestOn(r.secid, r.board, key.1);
      match h
      case Found(a) => known := known[key := Some(a)];
      case NotFound => known := known[key := None];
      case HistoryFailed(message) =>
        known := known[key := None];
        errors := [HistoryRejected(row.number, isin, Clip(message, 900))];
    }
    answer := known[key];
  }

  method ProcessRow(config: Config, moex: Exchange, r: Refreshed, row: Row, isin: string, table: map<Key, Option<real>>)
    returns (d: RowDict, known: map<Key, Option<real>>, errors: seq<RowError>)
    requires moex.world.refresh(isin) == Ok(r) && TableOk(moex.world, table)
    modifies moex`questions
    ensures d == RowCells(config, moex.world, isin, row.values)
    ensures TableOk(moex.world, known)
    ensures known.Keys == table.Keys + (set k | k in RowKeys(moex.world, row, isin))
    ensures moex.questions == old(moex.questions) + NewQuestions(moex.world, row, isin, table.Keys)
    ensures errors == RowErrors(config, moex.world, row, isin, table.Keys)
  {
    hide TableOk, At, MarketCells, PurchaseCells, ParseDecimal, ParseDate, PutBlanks, PutStatus, HistoryErrors,
      CalculationErrors,
      PutResult;
    errors := [];
    known := table;
    d := WithCommission(MarketCells(config, moex.world, r), row.values);
    var commission := Commission(row.values, moex.world);
    if commission.None? {
      d := PutStatus(PutBlanks(d), BadCommission);
      assert errors == HistoryErrors(moex.world, row, isin, table.Keys) by {
        NoQuestionNoError(moex.world, row, isin, table.Keys);
      }
      return;
    }
    var accrued := ParseDecimal(Cell(row.values, J_ACCRUED), moex.world.parser);
    ghost var answer := None;
    if AsksHistory(row.values, moex.world) {
      accrued, known, errors := AskHistory(moex, r, row, isin, table);
      answer := accrued;
      d := WithAccrued(d, row.values, moex.world, accrued);
    } else {
      NoQuestionNoError(moex.world, row, isin, table.Keys);
    }
    assert answer == HistoryOf(moex.world, r, row.values);
    assert accrued == PurchaseAccrued(row.values, moex.world, answer);
    var purchase := ParseSheetPurchase(row.values, accrued, commission.value, moex.world.parser);
    d := PutBlanks(d);
    match purchase
    case Err(status) => d := PutStatus(d, status);
    case Ok(p) =>
      var failures;
      d, failures := CalculateRow(config, moex.world, r, p, d, row.number, isin);
      errors := errors + failures;
  }

  lemma NoQuestionNoError(world: World, row: Row, isin: string, known: set<Key>)
    requires !AsksHistory(row.values, world)
    ensures HistoryErrors(world, row, isin, known) == []
  {
  }

  /** A row asks the exchange only what no earlier row has asked. */
  function NewQuestions(world: World, row: Row, isin: string, known: set<Key>): seq<Question> {
    var keys := RowKeys(world, row, isin);
    if keys != [] && keys[0] !in known then [QuestionOf(world, keys[0])] else []
  }
}
