/** Sheet cells as the service reads and writes them. Columns are identified by number. */
module Cells {
  import opened Prelude
  import Columns

  /** `Blank` stands for a missing, null or empty cell. */
  datatype Value = Blank | Num(n: real) | Text(s: string) | Flag(b: bool) | Day(d: int)

  type Column = nat

  predicate IsBlank(v: Value) {
    v == Blank || v == Text("")
  }

  // The fixed columns of the profile.
  const E_DATE: Column := 5
  const H_QUANTITY: Column := 8
  const I_PRICE: Column := 9
  const J_ACCRUED: Column := 10
  const L_COMMISSION: Column := 12
  const V_PLAN: Column := 22
  const AD_ACCRUED: Column := 30
  const AE_COUNT: Column := 31
  const AF_COUPONS: Column := 32
  const AG_EXIT: Column := 33
  const AH_BEFORE: Column := 34
  const AI_AFTER: Column := 35
  const AJ_ANNUAL: Column := 36
  const AK_DELTA: Column := 37
  const AL_STATUS: Column := 38

  predicate InputColumn(c: Column) {
    c in {E_DATE, H_QUANTITY, I_PRICE, J_ACCRUED, L_COMMISSION, V_PLAN}
  }

  predicate CalculationColumn(c: Column) {
    AD_ACCRUED <= c <= AL_STATUS
  }

  predicate Reserved(c: Column) {
    InputColumn(c) || CalculationColumn(c)
  }

  /** The numbers above are the numbers of the columns that the profile names. */
  lemma ColumnNumbers()
    ensures Columns.Name(E_DATE) == "E" && Columns.Name(H_QUANTITY) == "H" && Columns.Name(I_PRICE) == "I"
    ensures Columns.Name(J_ACCRUED) == "J" && Columns.Name(L_COMMISSION) == "L" && Columns.Name(V_PLAN) == "V"
    ensures Columns.Name(AD_ACCRUED) == "AD" && Columns.Name(AE_COUNT) == "AE" && Columns.Name(AF_COUPONS) == "AF"
    ensures Columns.Name(AG_EXIT) == "AG" && Columns.Name(AH_BEFORE) == "AH" && Columns.Name(AI_AFTER) == "AI"
    ensures Columns.Name(AJ_ANNUAL) == "AJ" && Columns.Name(AK_DELTA) == "AK" && Columns.Name(AL_STATUS) == "AL"
  {
    assert Columns.Name(1) == "A";
  }

  /** How text is read as a number or a date. */
  datatype Parser = Parser(decimalOf: string -> Option<real>, dateOf: string -> Option<int>)

  function ParseDecimal(v: Value, parser: Parser): Option<real> {
    if IsBlank(v) then None
    else match v
      case Num(n) => Some(n)
      case Text(s) => parser.decimalOf(s)
      case _ => None
  }

  /** Truncation toward zero. */
  function Truncate(r: real): int {
    if r < 0.0 then -((-r).Floor) else r.Floor
  }

  /** The day numbers, counted from 1899-12-30, of the years 1 to 9999. */
  const FIRST_DAY := -693_593
  const LAST_DAY := 2_958_465

  function ParseDate(v: Value, parser: Parser): Option<int> {
    if IsBlank(v) then None
    else match v
      case Day(d) => Some(d)
      case Num(n) => var d := Truncate(n); if FIRST_DAY <= d <= LAST_DAY then Some(d) else None
      case Text(s) => parser.dateOf(s)
      case _ => None
  }
}
