/** One synchronisation pass as a function of the sheet rows: the cells it writes for every
    row, computed row by row with fresh answers of the exchange. */
module SheetSync {
  import opened Prelude
  import opened Cells
  import opened YieldEngine
  import opened Rounding
  import opened SheetCalculations
  import opened SheetGateway
  import opened SheetConnection
  import Isin

  // ---------- The exchange ----------

  datatype Market = Market(
    accrued: Option<real>, bidPercent: Option<real>, bidRub: Option<real>,
    offerPercent: Option<real>, offerRub: Option<real>, marketTime: Option<int>, receivedAt: int)

  datatype Refreshed = Refreshed(secid: string, board: Option<string>, market: Market, cashflows: seq<CashFlow>)

  datatype History = Found(accrued: real) | NotFound | HistoryFailed(message: string)

  /** Everything outside the sheet: market answers, history answers, time zone and text. */
  datatype World = World(
    refresh: string -> Result<Refreshed, string>,
    history: (string, Option<string>, int) -> History,
    localDate: int -> int,
    timeText: int -> string,
    parser: Parser)

  function QuoteTime(m: Market): int {
    match m.marketTime case Some(t) => t case None => m.receivedAt
  }

  function Full(price: Option<real>, accrued: Option<real>): Option<real> {
    if price.Some? && accrued.Some? then Some(price.value + accrued.value) else None
  }

  function MarketPrice(m: Market, mode: PriceMode): Option<real> {
    match mode
    case BestBidPercent => m.bidPercent
    case BestBidFullRub => Full(m.bidRub, m.accrued)
    case BestBidCleanRub => m.bidRub
    case BestOfferPercent => m.offerPercent
    case BestOfferFullRub => Full(m.offerRub, m.accrued)
    case BestOfferCleanRub => m.offerRub
  }

  function MarketRubPrice(m: Market, mode: PriceMode): Option<real> {
    if OfferMode(mode) then m.offerRub else m.bidRub
  }

  function QuoteStatus(m: Market, mode: PriceMode): string {
    if MarketPrice(m, mode).Some? then "FRESH" else if OfferMode(mode) then "NO OFFER" else "NO BID"
  }

  function Number(v: Option<real>): Value {
    match v case Some(n) => Num(n) case None => Blank
  }

  function Rounded(v: Option<real>): Value {
    match v case Some(n) => Num(Money(n)) case None => Blank
  }

  // ---------- The cells of one row ----------

  /** A dictionary that remembers the order of insertion. */
  datatype Dict = Dict(keys: seq<Column>, values: map<Column, Value>)

  predicate ValidDict(d: Dict) {
    && (forall c :: c in d.keys ==> c in d.values)
    && (forall c :: c in d.values ==> c in d.keys)
    && Distinct(d.keys)
  }

  const EMPTY_DICT := Dict([], map[])

  type RowDict = d: Dict | ValidDict(d) witness EMPTY_DICT

  /** The value of a key, if it is present. */
  function At(d: Dict, c: Column): Option<Value> {
    if c in d.values then Some(d.values[c]) else None
  }

  function Put(d: RowDict, c: Column, v: Value): (r: RowDict)
    ensures forall k: Column :: At(r, k) == if k == c then Some(v) else At(d, k)
  {
    Dict(if c in d.values then d.keys else d.keys + [c], d.values[c := v])
  }

  function PutOptional(d: RowDict, c: Option<Column>, v: Value): (r: RowDict)
    ensures forall k: Column :: At(r, k) == if c == Some(k) then Some(v) else At(d, k)
  {
    if c.Some? then Put(d, c.value, v) else d
  }

  function PutBlanksFrom(d: RowDict, c: Column): (r: RowDict)
    requires AE_COUNT <= c <= AK_DELTA + 1
    ensures forall k: Column :: At(r, k) == if c <= k <= AK_DELTA then Some(Blank) else At(d, k)
    decreases AL_STATUS - c
  {
    if c > AK_DELTA then d else PutBlanksFrom(Put(d, c, Blank), c + 1)
  }

  /** Clears AE to AK. */
  function PutBlanks(d: RowDict): (r: RowDict)
    ensures forall k: Column :: At(r, k) == if AE_COUNT <= k <= AK_DELTA then Some(Blank) else At(d, k)
  {
    PutBlanksFrom(d, AE_COUNT)
  }

  function PutStatus(d: RowDict, status: RowStatus): (r: RowDict)
    ensures forall k: Column :: At(r, k) == if k == AL_STATUS then Some(Value.Text(Label(status))) else At(d, k)
  {
    Put(d, AL_STATUS, Value.Text(Label(status)))
  }

  function FailedRow(config: Config): (r: RowDict) {
    var d := PutStatus(PutBlanks(Put(Put(EMPTY_DICT, config.priceColumn, Blank), AD_ACCRUED, Blank)), RefreshFailed);
    PutOptional(PutOptional(d, config.updatedAtColumn, Value.Text("")), config.statusColumn, Value.Text("ERROR"))
  }

  function MarketCells(config: Config, world: World, r: Refreshed): (d: RowDict) {
    var d := Put(Put(EMPTY_DICT, config.priceColumn, Number(MarketPrice(r.market, config.priceMode))),
                 AD_ACCRUED, Rounded(r.market.accrued));
    PutOptional(PutOptional(d, config.updatedAtColumn, Value.Text(world.timeText(QuoteTime(r.market)))),
                config.statusColumn, Value.Text(QuoteStatus(r.market, config.priceMode)))
  }

  function Commission(values: RowValues, world: World): Option<real> {
    if IsBlank(Cell(values, L_COMMISSION)) then Some(DEFAULT_COMMISSION)
    else ParseDecimal(Cell(values, L_COMMISSION), world.parser)
  }

  function WithCommission(d: RowDict, values: RowValues): (r: RowDict)
    ensures forall k: Column :: At(r, k) ==
              if k == L_COMMISSION && IsBlank(Cell(values, k)) then Some(Num(DEFAULT_COMMISSION)) else At(d, k)
  {
    if IsBlank(Cell(values, L_COMMISSION)) then Put(d, L_COMMISSION, Num(DEFAULT_COMMISSION)) else d
  }

  /** The row asks for the historical accrued interest of its purchase date. */
  predicate AsksHistory(values: RowValues, world: World) {
    && Commission(values, world).Some?
    && IsBlank(Cell(values, J_ACCRUED))
    && ParseDate(Cell(values, E_DATE), world.parser).Some?
  }

  function PurchaseDate(values: RowValues, world: World): int
    requires AsksHistory(values, world)
  {
    ParseDate(Cell(values, E_DATE), world.parser).value
  }

  function Answer(h: History): Option<real> {
    match h case Found(a) => Some(a) case _ => None
  }

  /** The purchase accrued interest, given the answer to the row's question, if it asks one. */
  function PurchaseAccrued(values: RowValues, world: World, answer: Option<real>): Option<real> {
    if AsksHistory(values, world) then answer else ParseDecimal(Cell(values, J_ACCRUED), world.parser)
  }

  function WithAccrued(d: RowDict, values: RowValues, world: World, answer: Option<real>): (r: RowDict)
    ensures forall k: Column :: At(r, k) ==
              if k == J_ACCRUED && AsksHistory(values, world) && answer.Some?
              then Some(Num(Money(answer.value))) else At(d, k)
  {
    if AsksHistory(values, world) && answer.Some? then Put(d, J_ACCRUED, Num(Money(answer.value))) else d
  }

  function PutSummary(d: RowDict, count: nat, coupons: real): (r: RowDict) {
    Put(Put(d, AE_COUNT, Num(count as real)), AF_COUPONS, Num(Money(coupons)))
  }

  function PutResult(d: RowDict, c: SheetCurrent): (r: RowDict) {
    PutStatus(
      Put(Put(Put(Put(Put(PutSummary(d, c.couponCount, c.coupons),
        AG_EXIT, Num(Money(c.exitTotal))), AH_BEFORE, Num(Money(c.profitBeforeTax))),
        AI_AFTER, Num(Money(c.profitAfterTax))), AJ_ANNUAL, Num(Money(c.annualAfterTax))),
        AK_DELTA, Rounded(c.planDelta)),
      Calculated)
  }

  /** The calculation cells of a row whose purchase could be read. */
  ghost function PurchaseCells(config: Config, world: World, r: Refreshed, p: SheetPurchase,
      d: RowDict): (cells: RowDict)
    requires p.quantity != 0.0
  {
    var date := world.localDate(QuoteTime(r.market));
    var summary := SummarizePaidCoupons(p.purchaseDate, date, p.quantity, r.cashflows);
    var summed := PutSummary(d, summary.0, summary.1);
    var price := MarketRubPrice(r.market, config.priceMode);
    if price.None? then PutStatus(summed, if OfferMode(config.priceMode) then NoOffer else NoBid)
    else if r.market.accrued.None? then PutStatus(summed, NoCurrentAccrued)
    else
      match CalculateCurrent(p, date, price.value, r.market.accrued.value, r.cashflows)
      case Err(e) => PutStatus(summed, CalculationFailed(e))
      case Ok(c) => PutResult(summed, c)
  }

  ghost function RefreshedRow(config: Config, world: World, r: Refreshed, values: RowValues,
      answer: Option<real>): (cells: RowDict) {
    var d := WithCommission(MarketCells(config, world, r), values);
    var commission := Commission(values, world);
    if commission.None? then PutStatus(PutBlanks(d), BadCommission)
    else
      var blank := PutBlanks(WithAccrued(d, values, world, answer));
      match ParsePurchase(values, PurchaseAccrued(values, world, answer), commission.value, world.parser)
      case Err(status) => PutStatus(blank, status)
      case Ok(p) => PurchaseCells(config, world, r, p, blank)
  }

  /** What the exchange answers about the accrued interest on the purchase date. */
  function HistoryOf(world: World, r: Refreshed, values: RowValues): Option<real> {
    if AsksHistory(values, world)
    then Answer(world.history(r.secid, r.board, PurchaseDate(values, world)))
    else None
  }

  /** The cells of one row, every question asked anew. */
  ghost function RowCells(config: Config, world: World, isin: string, values: RowValues): (cells: RowDict) {
    match world.refresh(isin)
    case Err(_) => FailedRow(config)
    case Ok(r) => RefreshedRow(config, world, r, values, HistoryOf(world, r, values))
  }

  // ---------- The batch of a pass ----------

  function CellUpdates(number: int, d: RowDict): seq<CellUpdate>
  {
    seq(|d.keys|, i requires 0 <= i < |d.keys| => CellUpdate(number, d.keys[i], d.values[d.keys[i]]))
  }

  function HeaderText(c: Column): string {
    if c == AD_ACCRUED then "Текущий НКД MOEX, ₽/шт."
    else if c == AE_COUNT then "Выплачено купонов, шт."
    else if c == AF_COUPONS then "Получено купонов, ₽"
    else if c == AG_EXIT then "Текущая стоимость с купонами, ₽"
    else if c == AH_BEFORE then "Текущий доход до налога, ₽"
    else if c == AI_AFTER then "Текущий чистый доход, ₽"
    else if c == AJ_ANNUAL then "Годовой текущий %, после налога"
    else if c == AK_DELTA then "Отклонение от плана, п.п."
    else "Статус расчёта"
  }

  function HeaderUpdates(config: Config): seq<CellUpdate> {
    seq(9, i requires 0 <= i < 9 =>
      CellUpdate(config.headerRow, AD_ACCRUED + i, Value.Text(HeaderText(AD_ACCRUED + i))))
  }

  /** The text of an ISIN cell. */
  function RawIsin(row: Row, config: Config): string {
    match Cell(row.values, config.isinColumn)
    case Text(s) => s
    case _ => ""
  }

  predicate HasIsin(row: Row, config: Config) {
    !IsBlank(Cell(row.values, config.isinColumn))
  }

  function IsinOf(row: Row, config: Config): Result<string, Isin.IsinError> {
    Isin.NormalizeIsin(RawIsin(row, config))
  }

  predicate Accepted(row: Row, config: Config) {
    HasIsin(row, config) && IsinOf(row, config).Ok?
  }

  predicate Rejected(row: Row, config: Config) {
    HasIsin(row, config) && IsinOf(row, config).Err?
  }

  predicate NumberAccepted(number: int, rows: seq<Row>, config: Config) {
    exists i :: 0 <= i < |rows| && rows[i].number == number && Accepted(rows[i], config)
  }

  function InvalidUpdates(number: int, status: Column): seq<CellUpdate> {
    [CellUpdate(number, status, Value.Text("INVALID ISIN")),
     CellUpdate(number, AL_STATUS, Value.Text(INVALID_ISIN_LABEL))]
  }

  ghost function CellsOf(config: Config, world: World, row: Row): RowDict
    requires Accepted(row, config)
  {
    RowCells(config, world, IsinOf(row, config).value, row.values)
  }

  /** What one row contributes to the main part of the batch. */
  ghost function RowUpdates(config: Config, world: World, row: Row): seq<CellUpdate> {
    if Accepted(row, config)
    then CellUpdates(row.number, CellsOf(config, world, row))
    else []
  }

  ghost function MainUpdates(config: Config, world: World, rows: seq<Row>): seq<CellUpdate> {
    if rows == [] then []
    else MainUpdates(config, world, rows[..|rows| - 1]) + RowUpdates(config, world, rows[|rows| - 1])
  }

  function RowMarks(config: Config, all: seq<Row>, row: Row): seq<CellUpdate> {
    if Rejected(row, config) && config.statusColumn.Some? && !NumberAccepted(row.number, all, config)
    then InvalidUpdates(row.number, config.statusColumn.value) else []
  }

  /** The marks of rows with an invalid ISIN, unless an accepted row has the same number. */
  function InvalidMarks(config: Config, all: seq<Row>, rows: seq<Row>): seq<CellUpdate> {
    if rows == [] then []
    else
      InvalidMarks(config, all, rows[..|rows| - 1]) + RowMarks(config, all, rows[|rows| - 1])
  }

  /** The batch of a pass, computed row by row without any table. */
  ghost function NaiveBatch(config: Config, world: World, rows: seq<Row>): seq<CellUpdate> {
    HeaderUpdates(config) + MainUpdates(config, world, rows) + InvalidMarks(config, rows, rows)
  }
}
