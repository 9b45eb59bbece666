/** ISIN validation: the ISO 6166 pattern and the Luhn check digit of Annex B of
    ISO/IEC 7812-1 over letters expanded to two digits. */
module Isin {
  import opened Prelude
  import opened Text

  datatype IsinError = BadPattern | BadCheckDigit

  predicate MatchesPattern(value: string) {
    && |value| == 12
    && IsUpper(value[0]) && IsUpper(value[1])
    && (forall i :: 2 <= i < 11 ==> IsUpper(value[i]) || IsDigit(value[i]))
    && IsDigit(value[11])
  }

  predicate Expandable(value: string) {
    forall i :: 0 <= i < |value| ==> IsUpper(value[i]) || IsDigit(value[i])
  }

  type Digit = d: int | 0 <= d < 10

  function DigitValue(c: char): Digit
    requires IsDigit(c)
  {
    c as int - '0' as int
  }

  /** A digit stands for itself, a letter for the two digits of its rank after nine. */
  function ExpandChar(c: char): seq<Digit>
    requires IsUpper(c) || IsDigit(c)
  {
    if IsDigit(c) then [DigitValue(c)]
    else [(c as int - 55) / 10, (c as int - 55) % 10]
  }

  function Expand(value: string): seq<Digit>
    requires Expandable(value)
  {
    if value == "" then [] else Expand(value[..|value| - 1]) + ExpandChar(value[|value| - 1])
  }

  /** What one digit adds to the total: itself, or the digit sum of its double. */
  function Weight(d: Digit, doubled: bool): int {
    if !doubled then d else if d < 5 then 2 * d else 2 * d - 9
  }

  /** The total from the right; `doubled` tells whether the last digit is doubled. */
  function LuhnTotal(digits: seq<Digit>, doubled: bool): int {
    if digits == [] then 0
    else Weight(digits[|digits| - 1], doubled) + LuhnTotal(digits[..|digits| - 1], !doubled)
  }

  predicate CheckDigitOk(value: string)
    requires Expandable(value)
  {
    LuhnTotal(Expand(value), false) % 10 == 0
  }

  method ExpandText(value: string) returns (digits: seq<Digit>)
    requires Expandable(value)
    ensures digits == Expand(value)
  {
    digits := [];
    for i := 0 to |value|
      invariant digits == Expand(value[..i])
    {
      assert value[..i + 1][..i] == value[..i];
      digits := digits + ExpandChar(value[i]);
    }
    assert value[..|value|] == value;
  }

  lemma DigitSumOfDouble(d: Digit)
    ensures d * 2 / 10 + d * 2 % 10 == Weight(d, true)
  {
    assert d * 2 / 10 == if d < 5 then 0 else 1;
  }

  method ValidCheckDigit(value: string) returns (ok: bool)
    requires Expandable(value)
    ensures ok == CheckDigitOk(value)
  {
    var expanded := ExpandText(value);
    var total := 0;
    var shouldDouble := false;
    var i := |expanded|;
    assert expanded[..i] == expanded;
    while i > 0
      invariant 0 <= i <= |expanded|
      invariant total + LuhnTotal(expanded[..i], shouldDouble) == LuhnTotal(expanded, false)
    {
      i := i - 1;
      assert expanded[..i + 1][..i] == expanded[..i];
      var digit: int := expanded[i];
      if shouldDouble {
        DigitSumOfDouble(expanded[i]);
        digit := digit * 2;
        digit := digit / 10 + digit % 10;
      }
      total := total + digit;
      shouldDouble := !shouldDouble;
    }
    ok := total % 10 == 0;
  }

  predicate ValidIsin(value: string) {
    MatchesPattern(value) && CheckDigitOk(value)
  }

  function NormalizeIsin(value: string): Result<string, IsinError> {
    var normalized := Upper(Strip(value));
    if !MatchesPattern(normalized) then Err(BadPattern)
    else if !CheckDigitOk(normalized) then Err(BadCheckDigit)
    else Ok(normalized)
  }

  /** A normalised identifier is valid, and normalising it again changes nothing. */
  lemma NormalizeIsinFixed(value: string)
    requires NormalizeIsin(value).Ok?
    ensures ValidIsin(NormalizeIsin(value).value)
    ensures NormalizeIsin(NormalizeIsin(value).value) == NormalizeIsin(value)
  {
    var isin := NormalizeIsin(value).value;
    StripFixed(isin);
    UpperFixed(isin);
  }

  // ---------- How the total splits ----------

  lemma {:induction false} ExpandSplit(a: string, b: string)
    requires Expandable(a) && Expandable(b)
    ensures Expandable(a + b) && Expand(a + b) == Expand(a) + Expand(b)
  {
    hide ExpandChar, IsUpper, IsDigit;
    if b == "" {
      assert a + b == a;
    } else {
      var front, all := b[..|b| - 1], a + b;
      ExpandSplit(a, front);
      assert all[..|all| - 1] == a + front && all[|all| - 1] == b[|b| - 1];
      var last := ExpandChar(b[|b| - 1]);
      assert Expand(all) == Expand(a + front) + last && Expand(b) == Expand(front) + last;
    }
  }

  predicate Even(n: nat) {
    n % 2 == 0
  }

  lemma {:induction false} TotalSplit(a: seq<Digit>, b: seq<Digit>, doubled: bool)
    ensures LuhnTotal(a + b, doubled)
            == LuhnTotal(b, doubled) + LuhnTotal(a, if Even(|b|) then doubled else !doubled)
  {
    if b == [] {
      assert a + b == a;
    } else {
      TotalSplit(a, b[..|b| - 1], !doubled);
      assert (a + b)[..|a + b| - 1] == a + b[..|b| - 1];
    }
  }

  function DoubledBefore(after: string): bool
    requires Expandable(after)
  {
    !Even(|Expand(after)|)
  }

  /** What the text around a middle part of n digits adds to the total. */
  function OuterTotal(before: string, n: nat, after: string): int
    requires Expandable(before) && Expandable(after)
  {
    LuhnTotal(Expand(after), false)
    + LuhnTotal(Expand(before), if Even(n) then DoubledBefore(after) else !DoubledBefore(after))
  }

  /** Only the middle part's own total, at the parity set by what follows it, depends on it. */
  lemma TotalAround(before: string, middle: string, after: string)
    requires Expandable(before) && Expandable(after)
    requires forall i :: 0 <= i < |middle| ==> IsDigit(middle[i])
    ensures Expandable(before + middle + after)
    ensures LuhnTotal(Expand(before + middle + after), false)
            == OuterTotal(before, |middle|, after) + LuhnTotal(Expand(middle), DoubledBefore(after))
  {
    DigitsExpand(middle);
    ExpandSplit(before, middle);
    ExpandSplit(before + middle, after);
    TotalSplit(Expand(before) + Expand(middle), Expand(after), false);
    TotalSplit(Expand(before), Expand(middle), DoubledBefore(after));
  }

  lemma {:induction false} DigitsExpand(s: string)
    requires forall i :: 0 <= i < |s| ==> IsDigit(s[i])
    ensures |Expand(s)| == |s|
    ensures forall i :: 0 <= i < |s| ==> Expand(s)[i] == DigitValue(s[i])
  {
    if s != "" {
      DigitsExpand(s[..|s| - 1]);
    }
  }

  // ---------- Strength of the check digit ----------

  lemma SameRemainder(rest: int, x: int, y: int)
    requires -9 <= x - y <= 9 && (rest + x) % 10 == 0
    ensures (rest + y) % 10 == 0 <==> x == y
  {
  }

  lemma TotalOfReplacement(value: string, k: nat, c: char)
    requires Expandable(value) && k < |value| && IsDigit(c)
    ensures Expandable(value[k := c])
    ensures LuhnTotal(Expand(value[k := c]), false)
            == OuterTotal(value[..k], 1, value[k + 1..]) + Weight(DigitValue(c), DoubledBefore(value[k + 1..]))
  {
    var before, after := value[..k], value[k + 1..];
    TotalAround(before, [c], after);
    assert value[k := c] == before + [c] + after;
    SingleTotal(c, DoubledBefore(after));
  }

  lemma SingleTotal(c: char, doubled: bool)
    requires IsDigit(c)
    ensures LuhnTotal(Expand([c]), doubled) == Weight(DigitValue(c), doubled)
  {
    DigitsExpand([c]);
    assert Expand([c]) == [DigitValue(c)];
  }

  lemma PatternExpandable(value: string, k: nat)
    requires MatchesPattern(value) && k < 12
    ensures |value| == 12 && Expandable(value) && Expandable(value[..k]) && Expandable(value[k + 1..])
  {
  }

  lemma ReplacementOk(value: string, k: nat, c: char)
    requires Expandable(value) && k < |value| && IsDigit(c)
    ensures Expandable(value[k := c])
    ensures CheckDigitOk(value[k := c]) <==>
            (OuterTotal(value[..k], 1, value[k + 1..])
             + Weight(DigitValue(c), DoubledBefore(value[k + 1..]))) % 10 == 0
  {
    TotalOfReplacement(value, k, c);
  }

  lemma ReplacementMatches(value: string, k: nat, c: char)
    requires MatchesPattern(value) && k < 12 && IsDigit(value[k]) && IsDigit(c)
    ensures MatchesPattern(value[k := c])
  {
  }

  /** Every mistyped digit is detected, wherever letters shift the doubling. */
  lemma SingleDigitErrorDetected(value: string, k: nat, c: char)
    requires ValidIsin(value) && k < 12 && IsDigit(value[k]) && IsDigit(c) && c != value[k]
    ensures MatchesPattern(value[k := c]) && !CheckDigitOk(value[k := c])
  {
    hide MatchesPattern, Expandable, OuterTotal, DoubledBefore, Weight, LuhnTotal, Expand;
    ReplacementMatches(value, k, c);
    PatternExpandable(value, k);
    ReplacementOk(value, k, c);
    ReplacementOk(value, k, value[k]);
    assert value[k := value[k]] == value;
    DifferentWeights(OuterTotal(value[..k], 1, value[k + 1..]),
                     DigitValue(value[k]), DigitValue(c), DoubledBefore(value[k + 1..]));
  }

  lemma DifferentWeights(rest: int, x: Digit, y: Digit, doubled: bool)
    requires x != y && (rest + Weight(x, doubled)) % 10 == 0
    ensures (rest + Weight(y, doubled)) % 10 != 0
  {
    SameRemainder(rest, Weight(x, doubled), Weight(y, doubled));
  }

  predicate IsBody(body: string) {
    && |body| == 11 && IsUpper(body[0]) && IsUpper(body[1])
    && forall i :: 2 <= i < 11 ==> IsUpper(body[i]) || IsDigit(body[i])
  }

  lemma BodyMatches(body: string, c: char)
    requires IsBody(body)
    ensures Expandable(body) && (MatchesPattern(body + [c]) <==> IsDigit(c))
  {
    var value := body + [c];
    assert value[11] == c && forall i :: 0 <= i < 11 ==> value[i] == body[i];
  }

  lemma CheckDigitOfBody(body: string, c: char)
    requires IsBody(body)
    ensures Expandable(body)
    ensures ValidIsin(body + [c]) <==>
            IsDigit(c) && (OuterTotal(body, 1, "") + c as int - '0' as int) % 10 == 0
  {
    hide IsBody, MatchesPattern, Expandable, OuterTotal, LuhnTotal, Expand;
    BodyMatches(body, c);
    if IsDigit(c) {
      NoText();
      TotalAround(body, [c], "");
      assert body + [c] + "" == body + [c];
      SingleTotal(c, false);
    }
  }

  lemma NoText()
    ensures Expandable("") && !DoubledBefore("")
  {
  }

  lemma ClosingDigit(rest: int) returns (digit: char)
    ensures IsDigit(digit) && (rest + digit as int - '0' as int) % 10 == 0
  {
    digit := '0' + ((-rest) % 10) as char;
  }

  /** From the right, the digits count alternately as they are and with the digit sum of their double,
      beginning with the check digit as it is. */
  lemma LuhnPairs(digits: seq<Digit>, x: Digit, y: Digit)
    ensures LuhnTotal(digits + [x, y], false) == LuhnTotal(digits, false) + (x + x) / 10 + (x + x) % 10 + y
    ensures LuhnTotal([y], false) == y && LuhnTotal([], false) == 0
  {
    var all := digits + [x, y];
    assert all[..|all| - 1] == digits + [x] && (digits + [x])[..|digits|] == digits;
    DigitSumOfDouble(x);
  }

  /** Letters count from ten for A to thirty-five for Z, with both digits. */
  lemma ExpandedText(text: string, c: char)
    requires Expandable(text) && (IsUpper(c) || IsDigit(c))
    ensures Expandable(text + [c])
    ensures IsDigit(c) ==> Expand(text + [c]) == Expand(text) + [c as int - '0' as int]
    ensures IsUpper(c) ==> var rank := 10 + (c as int - 'A' as int);
                           10 <= rank <= 35 && Expand(text + [c]) == Expand(text) + [rank / 10, rank % 10]
  {
    assert (text + [c])[..|text|] == text;
  }

  lemma KnownStart()
    ensures Expandable("RU0") && Expand("RU0") == [2, 7, 3, 0, 0]
  {
    hide Expand;
    NothingExpanded();
    ExpandedText("", 'R');
    assert "" + ['R'] == "R";
    ExpandedText("R", 'U');
    assert "R" + ['U'] == "RU";
    ExpandedText("RU", '0');
    assert "RU" + ['0'] == "RU0";
  }

  lemma KnownMiddle()
    ensures Expandable("RU000A") && Expand("RU000A") == [2, 7, 3, 0, 0, 0, 0, 1, 0]
  {
    hide Expand;
    KnownStart();
    ExpandedText("RU0", '0');
    assert "RU0" + ['0'] == "RU00";
    ExpandedText("RU00", '0');
    assert "RU00" + ['0'] == "RU000";
    ExpandedText("RU000", 'A');
    assert "RU000" + ['A'] == "RU000A";
  }

  lemma KnownRest()
    ensures Expandable("RU000A107") && Expand("RU000A107") == [2, 7, 3, 0, 0, 0, 0, 1, 0, 1, 0, 7]
  {
    hide Expand;
    KnownMiddle();
    ExpandedText("RU000A", '1');
    assert "RU000A" + ['1'] == "RU000A1";
    ExpandedText("RU000A1", '0');
    assert "RU000A1" + ['0'] == "RU000A10";
    ExpandedText("RU000A10", '7');
    assert "RU000A10" + ['7'] == "RU000A107";
  }

  lemma KnownDigits()
    ensures Expandable("RU000A107SX3") && Expand("RU000A107SX3") == [2, 7, 3, 0, 0, 0, 0, 1, 0, 1, 0, 7, 2, 8, 3, 3, 3]
  {
    hide Expand;
    KnownRest();
    ExpandedText("RU000A107", 'S');
    assert "RU000A107" + ['S'] == "RU000A107S";
    ExpandedText("RU000A107S", 'X');
    assert "RU000A107S" + ['X'] == "RU000A107SX";
    ExpandedText("RU000A107SX", '3');
    assert "RU000A107SX" + ['3'] == "RU000A107SX3";
  }

  lemma NothingExpanded()
    ensures Expand("") == []
  {
  }

  lemma KnownTotal()
    ensures LuhnTotal([2, 7, 3, 0, 0, 0, 0, 1, 0, 1, 0, 7, 2, 8, 3, 3, 3], false) == 40
  {
    hide LuhnTotal;
    LuhnPairs([], 0, 2);
    LuhnPairs([2], 7, 3);
    assert [2] + [7, 3] == [2, 7, 3];
    LuhnPairs([2, 7, 3], 0, 0);
    assert [2, 7, 3] + [0, 0] == [2, 7, 3, 0, 0];
    LuhnPairs([2, 7, 3, 0, 0], 0, 0);
    assert [2, 7, 3, 0, 0] + [0, 0] == [2, 7, 3, 0, 0, 0, 0];
    LuhnPairs([2, 7, 3, 0, 0, 0, 0], 1, 0);
    assert [2, 7, 3, 0, 0, 0, 0] + [1, 0] == [2, 7, 3, 0, 0, 0, 0, 1, 0];
    LuhnPairs([2, 7, 3, 0, 0, 0, 0, 1, 0], 1, 0);
    assert [2, 7, 3, 0, 0, 0, 0, 1, 0] + [1, 0] == [2, 7, 3, 0, 0, 0, 0, 1, 0, 1, 0];
    LuhnPairs([2, 7, 3, 0, 0, 0, 0, 1, 0, 1, 0], 7, 2);
    assert [2, 7, 3, 0, 0, 0, 0, 1, 0, 1, 0] + [7, 2] == [2, 7, 3, 0, 0, 0, 0, 1, 0, 1, 0, 7, 2];
    LuhnPairs([2, 7, 3, 0, 0, 0, 0, 1, 0, 1, 0, 7, 2], 8, 3);
    assert [2, 7, 3, 0, 0, 0, 0, 1, 0, 1, 0, 7, 2] + [8, 3] == [2, 7, 3, 0, 0, 0, 0, 1, 0, 1, 0, 7, 2, 8, 3];
    LuhnPairs([2, 7, 3, 0, 0, 0, 0, 1, 0, 1, 0, 7, 2, 8, 3], 3, 3);
    assert [2, 7, 3, 0, 0, 0, 0, 1, 0, 1, 0, 7, 2, 8, 3] + [3, 3]
        == [2, 7, 3, 0, 0, 0, 0, 1, 0, 1, 0, 7, 2, 8, 3, 3, 3];
  }

  /** An identifier that is in use is accepted. */
  lemma KnownIsin()
    ensures ValidIsin("RU000A107SX3")
  {
    KnownDigits();
    KnownTotal();
    hide Expand, LuhnTotal;
  }

  /** Every eleven-character body has exactly one check digit. */
  lemma ExactlyOneCheckDigit(body: string) returns (digit: char)
    requires IsBody(body)
    ensures ValidIsin(body + [digit])
    ensures forall c: char :: ValidIsin(body + [c]) ==> c == digit
  {
    CheckDigitOfBody(body, '0');
    var rest := OuterTotal(body, 1, "");
    hide IsBody, ValidIsin, OuterTotal, Expandable;
    digit := ClosingDigit(rest);
    CheckDigitOfBody(body, digit);
    forall c: char | ValidIsin(body + [c])
      ensures c == digit
    {
      CheckDigitOfBody(body, c);
      SameRemainder(rest, c as int - '0' as int, digit as int - '0' as int);
    }
  }

  function Swapped(value: string, k: nat): string
    requires k + 1 < |value|
  {
    value[k := value[k + 1]][k + 1 := value[k]]
  }

  lemma PairTotal(c: char, d: char, doubled: bool)
    requires IsDigit(c) && IsDigit(d)
    ensures LuhnTotal(Expand([c, d]), doubled) == Weight(DigitValue(c), !doubled) + Weight(DigitValue(d), doubled)
  {
    hide LuhnTotal, Weight, Expand;
    DigitsExpand([c, d]);
    DigitsExpand([c]);
    DigitsExpand([d]);
    assert Expand([c]) == [DigitValue(c)] && Expand([d]) == [DigitValue(d)];
    assert Expand([c, d]) == [DigitValue(c)] + [DigitValue(d)];
    TotalSplit([DigitValue(c)], [DigitValue(d)], doubled);
    SingleTotal(c, !doubled);
    SingleTotal(d, doubled);
  }

  lemma PairOk(before: string, c: char, d: char, after: string)
    requires Expandable(before) && Expandable(after) && IsDigit(c) && IsDigit(d)
    ensures Expandable(before + [c, d] + after)
    ensures CheckDigitOk(before + [c, d] + after) <==>
            (OuterTotal(before, 2, after)
             + (Weight(DigitValue(c), !DoubledBefore(after)) + Weight(DigitValue(d), DoubledBefore(after)))) % 10 == 0
  {
    hide Expand, LuhnTotal, Weight, OuterTotal, DoubledBefore;
    TotalAround(before, [c, d], after);
    PairTotal(c, d, DoubledBefore(after));
  }

  lemma SwapWeights(rest: int, x: Digit, y: Digit, doubled: bool)
    requires (rest + (Weight(x, !doubled) + Weight(y, doubled))) % 10 == 0 && x != y
    ensures (rest + (Weight(y, !doubled) + Weight(x, doubled))) % 10 == 0 <==>
            (x == 0 && y == 9) || (x == 9 && y == 0)
  {
    SameRemainder(rest, Weight(x, !doubled) + Weight(y, doubled), Weight(y, !doubled) + Weight(x, doubled));
  }

  lemma SwapMatches(value: string, k: nat)
    requires MatchesPattern(value) && k + 1 < 12 && IsDigit(value[k]) && IsDigit(value[k + 1])
    ensures MatchesPattern(Swapped(value, k))
    ensures value == value[..k] + [value[k], value[k + 1]] + value[k + 2..]
    ensures Swapped(value, k) == value[..k] + [value[k + 1], value[k]] + value[k + 2..]
  {
  }

  /** Swapping two adjacent different digits is detected except for 0 and 9. */
  lemma AdjacentSwapDetected(value: string, k: nat)
    requires ValidIsin(value) && k + 1 < 12
    requires IsDigit(value[k]) && IsDigit(value[k + 1]) && value[k] != value[k + 1]
    ensures MatchesPattern(Swapped(value, k))
    ensures CheckDigitOk(Swapped(value, k)) <==>
            (value[k] == '0' && value[k + 1] == '9') || (value[k] == '9' && value[k + 1] == '0')
  {
    var before, after := value[..k], value[k + 2..];
    var c, d := value[k], value[k + 1];
    SwapMatches(value, k);
    PairOk(before, c, d, after);
    PairOk(before, d, c, after);
    SwapWeights(OuterTotal(before, 2, after), DigitValue(c), DigitValue(d), DoubledBefore(after));
  }
}
