/** Printing amounts for chat, and reading them back. */
module Money {
  import opened Domain
  import opened Text
  import opened Amount
  import Readings

  function Symbol(currency: string): string {
    if currency == "VND" then "\U{20AB}" else if currency == "AUD" then "A$" else if currency == "USD" then "$" else ""
  }

  /** The first `i` digits, with a dot wherever a multiple of three digits remains. */
  function Grouped(digits: string, i: nat): string
    requires i <= |digits|
  {
    if i == 0 then "" else
    Grouped(digits, i - 1) + (if i > 1 && (|digits| - i + 1) % 3 == 0 then "." else "") + [digits[i - 1]]
  }

  /** Two digits, zero-padded. */
  function Cents(n: nat): (s: string)
    requires n < 100
    ensures |s| == 2 && AllDigits(s)
  {
    [DigitChar(n / 10), DigitChar(n % 10)]
  }

  function Number(n: nat, places: nat): string {
    if places == 0 then Grouped(Dec(n), |Dec(n)|)
    else Grouped(Dec(n / 100), |Dec(n / 100)|) + "," + Cents(n % 100)
  }

  const SMALLEST: int := -0x8000_0000_0000_0000

  /** The smallest 64-bit integer is its own negation, so its digits are printed with a sign of their own. */
  function SmallestNumber(places: nat): string {
    if places == 0 then
      var d := "-" + Dec(9_223_372_036_854_775_808);
      Grouped(d, |d|)
    else
      var d := "-" + Dec(92_233_720_368_547_758);
      Grouped(d, |d|) + ",-8"
  }

  function Format(n: int, currency: string): string {
    var cur := Upper(currency);
    var places := CurrencyDecimalPlaces(cur);
    (if n < 0 then "-" else "")
    + (if n == SMALLEST then SmallestNumber(places) else Number(if n < 0 then -n else n, places))
    + " " + (if Symbol(cur) != "" then Symbol(cur) else cur)
  }

  /** Go's %d, its division and its remainder, which truncate toward zero. */
  function Decimal(n: int): string {
    if n < 0 then "-" + Dec(-n) else Dec(n)
  }

  function Quotient(n: int, d: int): int
    requires d > 0
  {
    if n < 0 then -((-n) / d) else n / d
  }

  /** Go's %02d of a remainder by a hundred. */
  function TwoDigits(n: int): string
    requires -100 < n < 100
  {
    if n < 0 then "-" + Dec(-n) else Cents(n)
  }

  /** The number as the code prints it, from an amount whose sign has been taken off where that is possible. */
  function Body(n: int, places: nat): string {
    if places == 0 then Grouped(Decimal(n), |Decimal(n)|)
    else
      var q := Quotient(n, 100);
      Grouped(Decimal(q), |Decimal(q)|) + "," + TwoDigits(n - q * 100)
  }

  lemma BodyIsNumber(n: nat, places: nat)
    ensures Body(n, places) == Number(n, places)
  {
    hide Dec, Grouped, Cents;
  }

  lemma BodyOfSmallest(places: nat)
    ensures Body(SMALLEST, places) == SmallestNumber(places)
  {
    hide Grouped;
    if places != 0 {
      assert Quotient(SMALLEST, 100) == -92_233_720_368_547_758;
      assert TwoDigits(-8) == "-8" by { Eight(); }
      var d := Decimal(-92_233_720_368_547_758);
      assert Grouped(d, |d|) + "," + "-8" == Grouped(d, |d|) + ",-8";
    }
  }

  lemma Eight()
    ensures "-" + Dec(8) == "-8"
  {
  }

  method FormatMinor(amount: int64, currency: string) returns (r: string)
    ensures r == Format(amount as int, currency)
  {
    hide Body, Number, SmallestNumber, Upper;
    var cur := Upper(currency);
    var neg := amount < 0;
    var abs := amount;
    if neg && amount as int != SMALLEST { abs := -amount; }
    var number := FormatNumber(abs as int, CurrencyDecimalPlaces(cur));
    if amount as int == SMALLEST {
      BodyOfSmallest(CurrencyDecimalPlaces(cur));
    } else {
      BodyIsNumber(abs as int, CurrencyDecimalPlaces(cur));
    }
    var sign := if neg then "-" else "";
    var symbol := Symbol(cur);
    r := sign + number + " " + (if symbol != "" then symbol else cur);
  }

  method FormatNumber(n: int, places: nat) returns (r: string)
    requires places == 0 || places == 2
    ensures r == Body(n, places)
  {
    if places == 0 {
      r := Group(Decimal(n));
      return;
    }
    var scale := 1;
    for i := 0 to places
      invariant scale == if i == 0 then 1 else if i == 1 then 10 else 100
    {
      scale := scale * 10;
    }
    var q := Quotient(n, scale);
    var grouped := Group(Decimal(q));
    r := grouped + "," + TwoDigits(n - q * scale);
  }

  method Group(digits: string) returns (grouped: string)
    ensures grouped == Grouped(digits, |digits|)
  {
    grouped := "";
    for i := 0 to |digits|
      invariant grouped == Grouped(digits, i)
    {
      if i > 0 && (|digits| - i) % 3 == 0 { grouped := grouped + "."; }
      grouped := grouped + [digits[i]];
    }
  }

  // ---------------------------------------------------------------- the printed form

  lemma {:induction false} GroupedBody(digits: string, i: nat)
    requires AllDigits(digits) && i <= |digits|
    ensures var g := Grouped(digits, i);
            && IsBody(g) && Digits(g) == digits[..i]
            && (i > 0 ==> g != "" && g[0] == digits[0] && g[|g| - 1] == digits[i - 1])
            && (forall k :: 0 <= k < |g| ==> g[k] != ',')
  {
    hide Digits;
    EmptyHasNoDigits();
    if i > 0 {
      GroupedBody(digits, i - 1);
      var head, c := Grouped(digits, i - 1), digits[i - 1];
      var dot := if i > 1 && (|digits| - i + 1) % 3 == 0 then "." else "";
      DigitsConcat(head, dot);
      DigitsConcat(head + dot, [c]);
      SeparatorHasNoDigits('.');
      NoSeparator([c]);
      assert digits[..i] == digits[..i - 1] + [c];
    }
  }

  lemma EmptyHasNoDigits()
    ensures Digits("") == ""
  {
  }

  /** Counted from the right, every fourth character is a dot and no other: groups of three, no leading dot. */
  lemma {:induction false} GroupsOfThree(digits: string, i: nat, k: nat)
    requires AllDigits(digits) && 0 < i <= |digits| && k < |Grouped(digits, i)|
    ensures var g := Grouped(digits, i);
            var after := |digits| - i + (|digits| - i) / 3;
            g[k] == '.' <==> (|g| - 1 - k + after) % 4 == 3
  {
    var g := Grouped(digits, i);
    var rest := |digits| - i;
    if i > 1 {
      var head := Grouped(digits, i - 1);
      assert |g| == |head| + (if (rest + 1) % 3 == 0 then 2 else 1);
      assert (rest + 1) / 3 == rest / 3 + if (rest + 1) % 3 == 0 then 1 else 0;
      if k < |head| {
        assert g[k] == head[k];
        GroupsOfThree(digits, i - 1, k);
      }
    }
    assert IsDigit(digits[i - 1]);
    assert (rest + rest / 3) % 4 == rest % 3 by { assert rest + rest / 3 == 4 * (rest / 3) + rest % 3; }
  }

  lemma DecGrouped(n: nat)
    ensures var g := Grouped(Dec(n), |Dec(n)|);
            && IsBody(g) && Digits(g) == Dec(n) && g != "" && IsDigit(g[0]) && IsDigit(g[|g| - 1])
  {
    GroupedBody(Dec(n), |Dec(n)|);
    assert Dec(n)[..|Dec(n)|] == Dec(n);
  }

  lemma CentsValue(n: nat)
    ensures var d := Dec(n / 100) + Cents(n % 100);
            AllDigits(d) && Val(d) == n && (|d| <= 15 <==> n < Pow10(15))
  {
    hide Dec;
    var c := Cents(n % 100);
    ValConcat(Dec(n / 100), c);
    ValDec(n / 100);
    assert Val(c) == n % 100 by {
      assert c[..1] == [c[0]] && c[..1][..0] == "";
      assert Val(c[..1]) == n % 100 / 10;
    }
    assert Pow10(2) == 100;
    DecLength(n / 100, 13);
    PowAdd(2, 13);
  }

  // ---------------------------------------------------------------- reading back

  /** The printed forms that the parser meets: a body, a space and a symbol. */
  predicate Printed(g: string, symbol: string) {
    && IsBody(g) && g != "" && IsDigit(g[0]) && IsDigit(g[|g| - 1])
    && (symbol == "\U{20AB}" || symbol == "A$" || symbol == "$")
  }

  function CurrencyOf(symbol: string): string {
    if symbol == "A$" then "AUD" else if symbol == "$" then "USD" else "VND"
  }

  lemma PrintedIsRead(g: string, symbol: string, hint: string)
    requires Printed(g, symbol)
    ensures Parse(g + " " + symbol, hint) == Evaluate(g, CurrencyOf(symbol), 1)
  {
    hide Evaluate, Parse;
    Readings.PricedIn(g, " ", symbol, hint);
  }

  // ---------------------------------------------------------------- main results

  lemma PrintedValue(g: string, symbol: string, hint: string)
    requires Printed(g, symbol)
    requires var places := if symbol == "\U{20AB}" then 0 else 2; Point(g, places, 1) == -1
    ensures var places := if symbol == "\U{20AB}" then 0 else 2;
            Parse(g + " " + symbol, hint) == AsParsed(Settle(Digits(g), "", places, 1), CurrencyOf(symbol))
  {
    hide Parse, Settle, Digits, CurrencyDecimalPlaces;
    PrintedIsRead(g, symbol, hint);
    PlacesOf(symbol);
  }

  lemma PlacesOf(symbol: string)
    requires symbol == "\U{20AB}" || symbol == "A$" || symbol == "$"
    ensures CurrencyDecimalPlaces(CurrencyOf(symbol)) == if symbol == "\U{20AB}" then 0 else 2
  {
    assert Upper("VND") == "VND" && Upper("USD") == "USD" && Upper("AUD") == "AUD";
  }

  /** A negative amount is the positive one with a sign before it; the number is followed by a space and the symbol of
      its currency, or by the code of a currency that has none; only VND, JPY and KRW have no decimals. */
  lemma SignAndSymbol(n: int, currency: string)
    ensures SMALLEST < n < 0 ==> Format(n, currency) == "-" + Format(-n, currency)
    ensures n >= 0 ==>
              var cur := Upper(currency);
              Format(n, currency) == Number(n, if cur in ["VND", "JPY", "KRW"] then 0 else 2) + " "
                                     + (match cur
                                        case "VND" => "\U{20AB}" case "AUD" => "A$" case "USD" => "$" case _ => cur)
  {
    hide Number, SmallestNumber;
    var cur := Upper(currency);
    UpperTwice(currency);
    var number := Number(if n < 0 then -n else n, CurrencyDecimalPlaces(cur));
    var tail := " " + (if Symbol(cur) != "" then Symbol(cur) else cur);
    assert "" + number == number;
    assert "-" + number + tail == "-" + (number + tail);
  }

  lemma UpperTwice(s: string)
    ensures Upper(Upper(s)) == Upper(s)
  {
    forall i | 0 <= i < |s| ensures UpperChar(UpperChar(s[i])) == UpperChar(s[i]) { UpperOnce(s[i]); }
  }

  lemma UpperOnce(c: char)
    ensures UpperChar(UpperChar(c)) == UpperChar(c)
  {
  }

  /** A printed VND amount reads back as itself up to fifteen digits, and is refused beyond. */
  lemma VndRoundTrip(n: nat, hint: string)
    ensures Parse(Format(n, "VND"), hint) == if n < 1_000_000_000_000_000 then Amount(n, "VND") else Invalid
  {
    hide Parse, Settle, Digits, Val, Dec, Grouped;
    var g := Grouped(Dec(n), |Dec(n)|);
    assert Upper("VND") == "VND";
    DecGrouped(n);
    PrintedValue(g, "\U{20AB}", hint);
    assert Format(n, "VND") == g + " " + "\U{20AB}" by { assert "" + g == g; }
    ValDec(n);
    DecLength(n, 15);
    FifteenZeros();
    SettleWhole(Dec(n), 0, 1);
  }

  /** A printed dollar amount reads back a hundred times too large: its comma is taken for a thousands separator. */
  lemma DollarsReadHundredfold(n: nat, currency: string, hint: string)
    requires currency == "USD" || currency == "AUD"
    ensures Parse(Format(n, currency), hint) == if n < 1_000_000_000_000_000 then Amount(100 * n, currency) else Invalid
  {
    hide Parse, Settle, Digits, Val, Dec, Number, Cents, Point;
    var g := Number(n, 2);
    var symbol := Symbol(currency);
    assert Upper(currency) == currency;
    DollarBody(n);
    PrintedValue(g, symbol, hint);
    assert Format(n, currency) == g + " " + symbol by { assert "" + g == g; }
    CentsValue(n);
    FifteenZeros();
    SettleWhole(Dec(n / 100) + Cents(n % 100), 2, 1);
  }

  lemma DollarBody(n: nat)
    ensures var g := Number(n, 2);
            && IsBody(g) && g != "" && IsDigit(g[0]) && IsDigit(g[|g| - 1])
            && Digits(g) == Dec(n / 100) + Cents(n % 100) && Point(g, 2, 1) == -1
  {
    hide Digits, LastSeparator, Dec, Grouped, Cents;
    var whole := Grouped(Dec(n / 100), |Dec(n / 100)|);
    var cents := Cents(n % 100);
    DecGrouped(n / 100);
    var g := whole + "," + cents;
    DigitsConcat(whole, ",");
    DigitsConcat(whole + ",", cents);
    SeparatorHasNoDigits(',');
    NoSeparator(cents);
    assert g[|whole|] == ',';
    assert LastSeparator(g) == |whole| by {
      assert !IsSeparator(g[|whole| + 1]) && !IsSeparator(g[|whole| + 2]);
    }
  }

  /** No printed negative amount is read as an amount. */
  lemma NegativesAreRefused(n: int, currency: string, hint: string)
    requires n < 0
    ensures Parse(Format(n, currency), hint) == Invalid
  {
    var f := Format(n, currency);
    assert f[0] == '-';
    MinusStays(f);
  }

  lemma MinusStays(s: string)
    requires s != "" && s[0] == '-'
    ensures '-' in TrimSpace(s)
  {
    assert TrimLeft(s) == s;
    TrimRightKeeps(s);
  }

  lemma {:induction false} TrimRightKeeps(s: string)
    requires s != "" && !IsSpace(s[0])
    ensures TrimRight(s) != "" && TrimRight(s)[0] == s[0]
    decreases |s|
  {
    if |s| > 1 && IsSpace(s[|s| - 1]) { TrimRightKeeps(s[..|s| - 1]); }
  }
}
