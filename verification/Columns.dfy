/** Column names in bijective base 26: "A" is 1, "Z" is 26, "AA" is 27. */
module Columns {
  import opened Prelude
  import opened Text

  const LAST_COLUMN := 16_384

  datatype ColumnError = NotAColumn | MissingColumn | BadNumber

  function LetterValue(c: char): int {
    c as int - 'A' as int + 1
  }

  function Letter(v: nat): (c: char)
    requires 1 <= v <= 26
    ensures IsUpper(c) && LetterValue(c) == v
  {
    'A' + (v - 1) as char
  }

  predicate IsName(s: string) {
    forall i :: 0 <= i < |s| ==> IsUpper(s[i])
  }

  /** The number that a name denotes; any text is folded the same way. */
  function Number(s: string): int {
    if s == "" then 0 else Number(s[..|s| - 1]) * 26 + LetterValue(s[|s| - 1])
  }

  /** The name of a number. */
  function Name(n: nat): string {
    if n == 0 then "" else Name((n - 1) / 26) + [Letter((n - 1) % 26 + 1)]
  }

  method ColumnNumber(value: string) returns (result: int)
    ensures result == Number(value)
  {
    result := 0;
    for i := 0 to |value|
      invariant result == Number(value[..i])
    {
      assert value[..i + 1][..i] == value[..i];
      result := result * 26 + value[i] as int - 'A' as int + 1;
    }
    assert value[..|value|] == value;
  }

  method ColumnName(value: int) returns (r: Result<string, ColumnError>)
    ensures r.Ok? <==> 1 <= value <= LAST_COLUMN
    ensures r.Ok? ==> r.value == Name(value)
  {
    if !(1 <= value <= LAST_COLUMN) {
      return Err(BadNumber);
    }
    var result := "";
    var current: nat := value;
    while current != 0
      invariant Name(value) == Name(current) + result
      decreases current
    {
      var remainder := (current - 1) % 26;
      current := (current - 1) / 26;
      result := [Letter(remainder + 1)] + result;
    }
    return Ok(result);
  }

  // ---------- The codec is a bijection ----------

  lemma {:induction false} NumberOfName(n: nat)
    ensures IsName(Name(n)) && Number(Name(n)) == n
  {
    if n > 0 {
      NumberOfName((n - 1) / 26);
      assert Name(n)[..|Name(n)| - 1] == Name((n - 1) / 26);
    }
  }

  lemma NameOfSum(n: nat, c: char)
    requires IsUpper(c)
    ensures Name(n * 26 + LetterValue(c)) == Name(n) + [c]
  {
    var v := LetterValue(c);
    assert (n * 26 + v - 1) / 26 == n && (n * 26 + v - 1) % 26 == v - 1;
  }

  lemma {:induction false} NameOfNumber(s: string)
    requires IsName(s)
    ensures Number(s) >= 0 && Name(Number(s)) == s
  {
    if s != "" {
      hide Name, LetterValue;
      var front, last := s[..|s| - 1], s[|s| - 1];
      NameOfNumber(front);
      assert LetterValue(last) >= 1 by { LetterValuePositive(last); }
      NameOfSum(Number(front), last);
      assert s == front + [last];
    }
  }

  lemma LetterValuePositive(c: char)
    requires IsUpper(c)
    ensures 1 <= LetterValue(c) <= 26
  {
  }

  // ---------- The order is shortlex ----------

  /** Shorter first, then by the first differing letter. */
  ghost predicate Shortlex(a: string, b: string) {
    || |a| < |b|
    || (|a| == |b| && exists i :: 0 <= i < |a| && a[..i] == b[..i] && a[i] < b[i])
  }

  /** The least and the greatest number of a name with k letters. */
  function LeastOf(k: nat): int {
    if k == 0 then 0 else LeastOf(k - 1) * 26 + 1
  }

  function GreatestOf(k: nat): int {
    if k == 0 then 0 else GreatestOf(k - 1) * 26 + 26
  }

  lemma {:induction false} NumberRange(s: string)
    requires IsName(s)
    ensures LeastOf(|s|) <= Number(s) <= GreatestOf(|s|)
  {
    if s != "" {
      NumberRange(s[..|s| - 1]);
    }
  }

  lemma {:induction false} LengthsAreConsecutive(k: nat)
    ensures LeastOf(k + 1) == GreatestOf(k) + 1
  {
    if k > 0 {
      LengthsAreConsecutive(k - 1);
    }
  }

  lemma {:induction false} RangesIncrease(k: nat, m: nat)
    requires k < m
    ensures GreatestOf(k) < LeastOf(m)
  {
    LengthsAreConsecutive(k);
    if k + 1 < m {
      RangesIncrease(k, m - 1);
      LengthsAreConsecutive(m - 1);
      RangeNonEmpty(m - 1);
    }
  }

  lemma {:induction false} RangeNonEmpty(k: nat)
    ensures LeastOf(k) <= GreatestOf(k)
  {
    if k > 0 {
      RangeNonEmpty(k - 1);
    }
  }

  lemma {:induction false} SameLengthOrder(a: string, b: string)
    requires IsName(a) && IsName(b) && |a| == |b|
    ensures Number(a) < Number(b) <==> Shortlex(a, b)
    ensures Number(a) == Number(b) <==> a == b
  {
    if a == "" {
      assert b == "" && !Shortlex(a, b);
    } else {
      var k := |a| - 1;
      SameLengthOrder(a[..k], b[..k]);
      ShortlexSnoc(a[..k], a[k], b[..k], b[k]);
      LettersInOrder(a[k], b[k]);
      hide Shortlex, LetterValue, IsUpper;
      assert a == a[..k] + [a[k]] && b == b[..k] + [b[k]];
      DigitOrder(Number(a[..k]), LetterValue(a[k]), Number(b[..k]), LetterValue(b[k]));
    }
  }

  lemma LettersInOrder(x: char, y: char)
    requires IsUpper(x) && IsUpper(y)
    ensures 1 <= LetterValue(x) <= 26 && 1 <= LetterValue(y) <= 26
    ensures (x < y <==> LetterValue(x) < LetterValue(y)) && (x == y <==> LetterValue(x) == LetterValue(y))
  {
  }

  lemma DigitOrder(m: int, x: int, n: int, y: int)
    requires 1 <= x <= 26 && 1 <= y <= 26
    ensures m * 26 + x < n * 26 + y <==> m < n || (m == n && x < y)
    ensures m * 26 + x == n * 26 + y <==> m == n && x == y
  {
  }

  lemma ShortlexSnoc(a: string, x: char, b: string, y: char)
    requires |a| == |b|
    ensures Shortlex(a + [x], b + [y]) <==> Shortlex(a, b) || (a == b && x < y)
  {
    var longA, longB := a + [x], b + [y];
    forall i | 0 <= i <= |a|
      ensures longA[..i] == a[..i] && longB[..i] == b[..i]
    {
    }
    if i :| 0 <= i < |a| && a[..i] == b[..i] && a[i] < b[i] {
      assert longA[..i] == longB[..i] && longA[i] < longB[i];
    }
    if a == b && x < y {
      assert longA[..|a|] == longB[..|a|];
    }
    if i :| 0 <= i < |longA| && longA[..i] == longB[..i] && longA[i] < longB[i] {
      if i < |a| {
        assert a[..i] == b[..i] && a[i] < b[i];
      } else {
        assert a == longA[..i] && b == longB[..i];
      }
    }
  }

  /** Numbers order the names as a spreadsheet does: by length, then alphabetically. */
  lemma OrderIsShortlex(a: string, b: string)
    requires IsName(a) && IsName(b)
    ensures Number(a) < Number(b) <==> Shortlex(a, b)
  {
    NumberRange(a);
    NumberRange(b);
    if |a| == |b| {
      SameLengthOrder(a, b);
    } else if |a| < |b| {
      RangesIncrease(|a|, |b|);
    } else {
      RangesIncrease(|b|, |a|);
    }
  }

  // ---------- Normalisation of user input ----------

  predicate Acceptable(candidate: string) {
    1 <= |candidate| <= 3 && IsName(candidate) && Number(candidate) <= LAST_COLUMN
  }

  function Normalize(value: Option<string>, required: bool): Result<Option<string>, ColumnError> {
    if value.None? || Strip(value.value) == "" then
      if required then Err(MissingColumn) else Ok(None)
    else
      var candidate := Upper(Strip(value.value));
      if Acceptable(candidate)
      then Ok(Some(candidate))
      else Err(NotAColumn)
  }

  lemma AcceptableNames(candidate: string)
    requires Acceptable(candidate)
    ensures 1 <= Number(candidate) <= LAST_COLUMN && candidate == Name(Number(candidate))
  {
    hide Number, Name;
    NameOfNumber(candidate);
    NumberRange(candidate);
    assert LeastOf(1) == 1 && LeastOf(2) == 27 && LeastOf(3) == 703;
  }

  lemma ColumnNamesAcceptable(n: nat)
    requires 1 <= n <= LAST_COLUMN
    ensures Acceptable(Name(n))
  {
    var name := Name(n);
    hide Number, Name;
    NumberOfName(n);
    NumberRange(name);
    assert GreatestOf(0) == 0 && GreatestOf(1) == 26 && GreatestOf(2) == 702 && GreatestOf(3) == 18_278;
    if |name| > 3 {
      RangesIncrease(3, |name|);
    }
  }

  /** Trimmed and upper-cased input is accepted exactly when it names one of the columns
      1 to 16384, and the accepted name is then its canonical one. */
  lemma NormalizeAcceptsExactlyTheNames(value: string, required: bool)
    requires Strip(value) != ""
    ensures var candidate := Upper(Strip(value));
            && (Normalize(Some(value), required).Ok? <==>
                  exists n :: 1 <= n <= LAST_COLUMN && candidate == Name(n))
            && (Normalize(Some(value), required).Ok? ==>
                  Normalize(Some(value), required).value == Some(candidate))
  {
    hide Acceptable, Name, Upper, Strip;
    var candidate := Upper(Strip(value));
    if Acceptable(candidate) {
      AcceptableNames(candidate);
    }
    if n :| 1 <= n <= LAST_COLUMN && candidate == Name(n) {
      ColumnNamesAcceptable(n);
    }
  }

  lemma NormalizedNumber(value: Option<string>, required: bool)
    requires Normalize(value, required).Ok? && Normalize(value, required).value.Some?
    ensures IsName(Normalize(value, required).value.value)
    ensures 1 <= Number(Normalize(value, required).value.value) <= LAST_COLUMN
  {
    AcceptableNames(Normalize(value, required).value.value);
  }

  /** Normalising twice changes nothing. */
  lemma NormalizeIdempotent(value: Option<string>, required: bool)
    requires Normalize(value, required).Ok?
    ensures Normalize(Normalize(value, required).value, required) == Normalize(value, required)
  {
    var r := Normalize(value, required).value;
    if r.Some? {
      hide Upper, Number;
      StripFixed(r.value);
      UpperFixed(r.value);
    }
  }
}
