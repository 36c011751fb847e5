/** Reading amounts: from receipt or chat text to minor units. */
module Amount {
  import opened Domain
  import opened Text

  const MAX: int := 0x7FFF_FFFF_FFFF_FFFF

  newtype int64 = x: int | -0x8000_0000_0000_0000 <= x <= 0x7FFF_FFFF_FFFF_FFFF

  datatype Parsed = Amount(minor: int, currency: string) | Invalid

  function CurrencyDecimalPlaces(currency: string): (places: nat)
    ensures places == if Upper(currency) in ["VND", "JPY", "KRW"] then 0 else 2
  {
    var c := Upper(currency);
    if c == "VND" || c == "JPY" || c == "KRW" then 0 else 2
  }

  // ---------------------------------------------------------------- currency and multiplier

  const TOKENS: seq<string> := [
    "\U{0111}\U{1ED3}ng", "\U{0110}\U{1ED3}ng", "\U{0110}\U{1ED2}NG", "DONG", "Dong", "dong",
    "VN\U{0110}", "VND", "vn\U{0111}", "vnd", "AUD", "aud", "A$", "a$", "$", "\U{20AB}", "\U{0111}", "\U{0110}"]

  function CurrencyIn(s: string): string {
    var upper := Upper(s);
    if Contains(upper, "\U{0110}\U{1ED2}NG") || Contains(upper, "DONG") || Contains(upper, "VN\U{0110}")
       || Contains(upper, "VND") || Contains(s, "\U{0111}") || Contains(s, "\U{0110}") || Contains(s, "\U{20AB}")
    then "VND"
    else if Contains(upper, "AUD") then "AUD"
    else if Contains(s, "A$") then "AUD"
    else if Contains(s, "\U{20AB}") then "VND"
    else if Contains(s, "$") then "USD"
    else ""
  }

  function Currency(s: string, hint: string): string {
    if CurrencyIn(s) != "" then CurrencyIn(s)
    else if Upper(TrimSpace(hint)) != "" then Upper(TrimSpace(hint))
    else "VND"
  }

  function RemoveTokens(s: string, n: nat): string
    requires n <= |TOKENS|
  {
    if n == 0 then s else Remove(RemoveTokens(s, n - 1), TOKENS[n - 1])
  }

  method DetectCurrency(s: string, hint: string) returns (currency: string, rest: string)
    ensures currency == Currency(s, hint) && rest == TrimSpace(RemoveTokens(s, |TOKENS|))
  {
    currency := CurrencyIn(s);
    if currency == "" { currency := Upper(TrimSpace(hint)); }
    if currency == "" { currency := "VND"; }
    rest := s;
    for i := 0 to |TOKENS|
      invariant rest == RemoveTokens(s, i)
    {
      rest := Remove(rest, TOKENS[i]);
    }
    rest := TrimSpace(rest);
  }

  datatype Suffix = Suffix(text: string, factor: int)

  const MULTIPLIERS: seq<Suffix> := [Suffix("tri\U{1EC7}u", 1_000_000), Suffix("tr", 1_000_000), Suffix("k", 1_000)]

  function FirstMultiplier(lower: string, i: nat): (r: nat)
    requires i <= |MULTIPLIERS|
    ensures i <= r <= |MULTIPLIERS|
    decreases |MULTIPLIERS| - i
  {
    if i == |MULTIPLIERS| || HasSuffix(lower, MULTIPLIERS[i].text) then i else FirstMultiplier(lower, i + 1)
  }

  /** The multiplier is found in the lowered text, and as many bytes are cut from the text itself. */
  function Multiplied(s: string): Suffix {
    var i := FirstMultiplier(Lower(s), 0);
    if i == |MULTIPLIERS| then Suffix(s, 1)
    else Suffix(TrimSpace(DropBytes(s, Bytes(MULTIPLIERS[i].text))), MULTIPLIERS[i].factor)
  }

  // ---------------------------------------------------------------- digits and separators

  predicate IsSeparator(c: char) {
    c == '.' || c == ','
  }

  predicate Acceptable(c: char) {
    IsDigit(c) || IsSeparator(c) || c == ' '
  }

  function WithoutSpaces(s: string): string {
    if s == "" then ""
    else if s[|s| - 1] == ' ' then WithoutSpaces(s[..|s| - 1])
    else WithoutSpaces(s[..|s| - 1]) + [s[|s| - 1]]
  }

  predicate IsBody(s: string) {
    forall i :: 0 <= i < |s| ==> IsDigit(s[i]) || IsSeparator(s[i])
  }

  /** stripSeparators. */
  function Digits(s: string): (r: string)
    ensures IsBody(s) ==> AllDigits(r)
    ensures |r| <= |s|
  {
    if s == "" then ""
    else if IsSeparator(s[|s| - 1]) then Digits(s[..|s| - 1])
    else Digits(s[..|s| - 1]) + [s[|s| - 1]]
  }

  function LastSeparator(s: string): (i: int)
    ensures -1 <= i < |s|
    ensures i >= 0 ==> IsSeparator(s[i])
    ensures forall k :: i < k < |s| ==> !IsSeparator(s[k])
  {
    if s == "" then -1 else if IsSeparator(s[|s| - 1]) then |s| - 1 else LastSeparator(s[..|s| - 1])
  }

  /** Where the decimal point is, if there is one. */
  function Point(s: string, places: nat, factor: int): (p: int)
    ensures -1 <= p < |s| && (p >= 0 ==> IsSeparator(s[p]))
  {
    var last := LastSeparator(s);
    var n := |s| - last - 1;
    if last < 0 || (places == 0 && factor == 1) then -1
    else if places == 0 then (if n > 0 && n != 3 then last else -1)
    else if s[last] == '.' && n == 2 then last
    else -1
  }

  // ---------------------------------------------------------------- the value

  /** Minor units of whole.frac times factor, with the limits on digits and the integer range. */
  function Settle(whole: string, frac: string, places: nat, factor: int): Option<int>
    requires AllDigits(whole) && AllDigits(frac)
  {
    var n := |frac|;
    if whole + frac == "" || |whole| + n > 15 || n > 4 then None else
    var product := Val(whole + frac) * factor * Pow10(if n < places then places - n else 0);
    var divisor := Pow10(if n > places then n - places else 0);
    if product > MAX || product % divisor != 0 then None else Some(product / divisor)
  }

  function Evaluate(body: string, currency: string, factor: int): Parsed
    requires IsBody(body)
  {
    var places := CurrencyDecimalPlaces(currency);
    var p := Point(body, places, factor);
    AsParsed(Settle(Whole(body, p), Frac(body, p), places, factor), currency)
  }

  /** The digits before and after the decimal point. */
  function Whole(body: string, p: int): string
    requires p < |body|
  {
    Digits(if p < 0 then body else body[..p])
  }

  function Frac(body: string, p: int): string
    requires p < |body|
  {
    if p < 0 then "" else Digits(body[p + 1..])
  }

  function AsParsed(minor: Option<int>, currency: string): Parsed {
    match minor
    case None => Invalid
    case Some(m) => Amount(m, currency)
  }

  lemma {:induction false} BodyOf(s: string)
    requires forall i :: 0 <= i < |s| ==> Acceptable(s[i])
    ensures IsBody(WithoutSpaces(s))
  {
    if s != "" { BodyOf(s[..|s| - 1]); }
  }

  lemma {:induction false} NoSpaces(g: string)
    requires IsBody(g)
    ensures WithoutSpaces(g) == g
  {
    if g != "" {
      NoSpaces(g[..|g| - 1]);
      assert g[..|g| - 1] + [g[|g| - 1]] == g;
    }
  }

  function Parse(raw: string, hint: string): Parsed {
    var s := TrimSpace(raw);
    if s == "" || '-' in s then Invalid else
    var m := Multiplied(TrimSpace(RemoveTokens(s, |TOKENS|)));
    if !(forall i :: 0 <= i < |m.text| ==> Acceptable(m.text[i])) then Invalid else
    BodyOf(m.text);
    Evaluate(WithoutSpaces(m.text), Currency(s, hint), m.factor)
  }

  // ---------------------------------------------------------------- the parser as it runs, in 64-bit arithmetic

  lemma FifteenDigits(s: string)
    requires AllDigits(s) && |s| <= 15
    ensures Val(s) < 1_000_000_000_000_000
  {
    ValBound(s);
    PowMonotone(|s|, 15);
    FifteenZeros();
  }

  /** The overflow guard v > MAX / f holds exactly when v * f is past the integer range. */
  lemma Guard(v: int, f: int)
    requires v >= 0 && f >= 1
    ensures v > MAX / f <==> v * f > MAX
  {
    var q := MAX / f;
    assert q * f <= MAX < (q + 1) * f;
    if v <= q { assert v * f <= q * f; } else { assert (q + 1) * f <= v * f; }
  }

  method Times(v: int64, factor: int64) returns (fits: bool, product: int64)
    requires v >= 0 && factor >= 1
    ensures fits <==> v as int * factor as int <= MAX
    ensures fits ==> product as int == v as int * factor as int
  {
    Guard(v as int, factor as int);
    if factor > 1 && v > 0x7FFF_FFFF_FFFF_FFFF / factor { return false, 0; }
    return true, v * factor;
  }

  lemma SettleWhole(digits: string, places: nat, factor: int)
    requires AllDigits(digits) && (places == 0 || places == 2)
    ensures Settle(digits, "", places, factor) ==
            if digits == "" || |digits| > 15 then None else
            var v := Val(digits) * (if places == 2 then 100 else 1) * factor;
            if v > MAX then None else Some(v)
  {
    hide Val;
    assert digits + "" == digits;
    assert Pow10(2) == 100 && Pow10(0) == 1;
    Swap(Val(digits), factor, 100);
  }

  lemma Swap(a: int, b: int, c: int)
    ensures a * b * c == a * c * b
  {
    assert b * c == c * b;
    Regroup(a, b, c);
    Regroup(a, c, b);
  }

  method FinishAmount(digits: string, currency: string, factor: int64) returns (r: Parsed)
    requires AllDigits(digits) && factor >= 1
    ensures r == AsParsed(Settle(digits, "", CurrencyDecimalPlaces(currency), factor as int), currency)
  {
    hide Settle, Val;
    SettleWhole(digits, CurrencyDecimalPlaces(currency), factor as int);
    if digits == "" || |digits| > 15 { return Invalid; }
    FifteenDigits(digits);
    var v := Val(digits) as int64;
    if CurrencyDecimalPlaces(currency) == 2 {
      if v > 0x7FFF_FFFF_FFFF_FFFF / 100 { return Invalid; }
      v := v * 100;
    }
    var fits, product := Times(v, factor);
    if !fits { return Invalid; }
    r := Amount(product as int, currency);
  }

  lemma SettleDecimal(whole: string, frac: string, places: nat, factor: int)
    requires AllDigits(whole) && AllDigits(frac) && frac != "" && (places == 0 || (places == 2 && |frac| <= 2))
    ensures Settle(whole, frac, places, factor) ==
            if |whole| + |frac| > 15 || |frac| > 4 then None else
            var v := Val(whole + frac) * (if places == 0 then 1 else Pow10(2 - |frac|)) * factor;
            var scale := if places == 0 then Pow10(|frac|) else 1;
            if v > MAX || v % scale != 0 then None else Some(v / scale)
  {
    hide Val;
    assert Pow10(0) == 1;
    Swap(Val(whole + frac), factor, Pow10(if places == 0 then 0 else 2 - |frac|));
  }

  method FinishDecimal(whole: string, frac: string, currency: string, factor: int64) returns (r: Parsed)
    requires AllDigits(whole) && AllDigits(frac) && frac != "" && factor >= 1
    requires CurrencyDecimalPlaces(currency) == 2 ==> |frac| <= 2
    ensures r == AsParsed(Settle(whole, frac, CurrencyDecimalPlaces(currency), factor as int), currency)
  {
    hide Settle, Val;
    var places := CurrencyDecimalPlaces(currency);
    SettleDecimal(whole, frac, places, factor as int);
    var intDigits := if whole == "" then "0" else whole;
    if |frac| > 4 { return Invalid; }
    if |intDigits| + |frac| > 15 { return Invalid; }
    LeadingZero(whole, frac);
    FifteenDigits(intDigits + frac);
    var combined := Val(intDigits + frac) as int64;
    if places == 0 {
      var scale: int64 := 1;
      for i := 0 to |frac|
        invariant scale as int == Pow10(i) <= 10_000
      {
        if scale > 0x7FFF_FFFF_FFFF_FFFF / 10 { return Invalid; }
        PowMonotone(i + 1, 4);
        assert Pow10(4) == 10_000;
        scale := scale * 10;
      }
      var fits, value := Times(combined, factor);
      if !fits { return Invalid; }
      if value % scale != 0 { return Invalid; }
      return Amount((value / scale) as int, currency);
    }
    var minor := combined;
    for i := |frac| to places
      invariant minor as int == combined as int * Pow10(i - |frac|)
      invariant minor as int < 1_000_000_000_000_000 * Pow10(i - |frac|)
    {
      assert Pow10(i - |frac|) == 1 && Pow10(i + 1 - |frac|) == 10;
      if minor > 0x7FFF_FFFF_FFFF_FFFF / 10 { return Invalid; }
      minor := minor * 10;
    }
    var fits, product := Times(minor, factor);
    if !fits { return Invalid; }
    r := Amount(product as int, currency);
  }

  lemma LeadingZero(whole: string, frac: string)
    requires AllDigits(whole) && AllDigits(frac)
    ensures var i := if whole == "" then "0" else whole; AllDigits(i + frac) && Val(i + frac) == Val(whole + frac)
  {
    if whole == "" {
      assert "" + frac == frac;
      Zero(frac);
    } else {
      ValConcat(whole, frac);
    }
  }

  lemma Zero(frac: string)
    requires AllDigits(frac)
    ensures AllDigits("0" + frac) && Val("0" + frac) == Val(frac)
  {
    ValConcat("0", frac);
    assert Val("0") == 0 by { assert "0"[..0] == ""; }
  }

  method KeepDigits(s: string) returns (ok: bool, body: string)
    ensures ok <==> forall i :: 0 <= i < |s| ==> Acceptable(s[i])
    ensures ok ==> body == WithoutSpaces(s)
  {
    body := "";
    for i := 0 to |s|
      invariant forall k :: 0 <= k < i ==> Acceptable(s[k])
      invariant body == WithoutSpaces(s[..i])
    {
      assert s[..i + 1][..i] == s[..i];
      if IsDigit(s[i]) || IsSeparator(s[i]) {
        body := body + [s[i]];
      } else if s[i] != ' ' {
        return false, "";
      }
    }
    assert s[..|s|] == s;
    ok := true;
  }

  method StripMultiplier(s: string) returns (rest: string, factor: int64)
    ensures rest == Multiplied(s).text && factor as int == Multiplied(s).factor && factor >= 1
  {
    var lower := Lower(s);
    rest, factor := s, 1;
    for i := 0 to |MULTIPLIERS|
      invariant rest == s && factor == 1
      invariant FirstMultiplier(lower, 0) == FirstMultiplier(lower, i)
    {
      var m := MULTIPLIERS[i];
      if HasSuffix(lower, m.text) {
        assert m.factor == 1_000_000 || m.factor == 1_000;
        return TrimSpace(DropBytes(s, Bytes(m.text))), m.factor as int64;
      }
    }
  }

  lemma {:induction false} NoSeparator(s: string)
    requires forall k :: 0 <= k < |s| ==> !IsSeparator(s[k])
    ensures Digits(s) == s
  {
    if s != "" {
      var t := s[..|s| - 1];
      assert forall k :: 0 <= k < |t| ==> t[k] == s[k];
      NoSeparator(t);
      assert t + [s[|s| - 1]] == s;
    }
  }

  method FindPoint(s: string, places: nat, factor: int64) returns (decimalAt: int)
    requires factor >= 1 && !(places == 0 && factor == 1)
    ensures decimalAt == Point(s, places, factor as int)
    ensures decimalAt >= 0 ==> 0 < |s| - decimalAt - 1 && (places != 0 ==> |s| - decimalAt - 1 == 2)
    ensures decimalAt >= 0 ==> forall k :: decimalAt < k < |s| ==> !IsSeparator(s[k])
  {
    hide Digits, LastSeparator;
    var last := LastSeparator(s);
    decimalAt := -1;
    if last >= 0 {
      NoSeparator(s[last + 1..]);
      var frac := Digits(s[last + 1..]);
      if places == 0 {
        if |frac| > 0 && |frac| != 3 { decimalAt := last; }
      } else if s[last] == '.' && |frac| == 2 {
        decimalAt := last;
      }
    }
  }

  lemma NoPoint(s: string)
    ensures Point(s, 0, 1) == -1
  {
  }

  method ParseBody(s: string, currency: string, factor: int64) returns (r: Parsed)
    requires IsBody(s) && factor >= 1
    ensures r == Evaluate(s, currency, factor as int)
  {
    hide Settle, Val, Digits, LastSeparator, Upper, Point;
    var places := CurrencyDecimalPlaces(currency);
    if places == 0 && factor == 1 {
      NoPoint(s);
      r := FinishAmount(Digits(s), currency, factor);
      return;
    }
    var decimalAt := FindPoint(s, places, factor);
    if decimalAt < 0 {
      r := FinishAmount(Digits(s), currency, factor);
    } else {
      NoSeparator(s[decimalAt + 1..]);
      r := FinishDecimal(Digits(s[..decimalAt]), Digits(s[decimalAt + 1..]), currency, factor);
    }
  }

  method ParseAmount(raw: string, currencyHint: string) returns (r: Parsed)
    ensures r == Parse(raw, currencyHint)
  {
    hide Evaluate, RemoveTokens, Currency, Multiplied, WithoutSpaces, Acceptable, TrimSpace;
    var s := TrimSpace(raw);
    if s == "" { return Invalid; }
    if '-' in s { return Invalid; }
    var currency, rest := DetectCurrency(s, currencyHint);
    var text, factor := StripMultiplier(rest);
    var ok, body := KeepDigits(text);
    if !ok { return Invalid; }
    BodyOf(text);
    if body == "" {
      Nothing(currency, factor as int);
      return Invalid;
    }
    r := ParseBody(body, currency, factor);
  }

  lemma Nothing(currency: string, factor: int)
    ensures Evaluate("", currency, factor) == Invalid
  {
  }

  // ---------------------------------------------------------------- main results

  lemma {:induction false} DigitsConcat(a: string, b: string)
    ensures Digits(a + b) == Digits(a) + Digits(b)
    decreases |b|
  {
    if b == "" {
      assert a + b == a;
    } else {
      var b' := b[..|b| - 1];
      assert (a + b)[..|a + b| - 1] == a + b' && (a + b)[|a + b| - 1] == b[|b| - 1];
      DigitsConcat(a, b');
    }
  }

  /** The point drops no digit and moves none. */
  lemma NoDigitLost(body: string, places: nat, factor: int)
    ensures var p := Point(body, places, factor); Whole(body, p) + Frac(body, p) == Digits(body)
  {
    hide Point, Digits;
    var p := Point(body, places, factor);
    if p >= 0 {
      var head, tail := body[..p], body[p + 1..];
      assert body == head + ([body[p]] + tail);
      DigitsConcat([body[p]], tail);
      DigitsConcat(head, [body[p]] + tail);
      SeparatorHasNoDigits(body[p]);
    }
  }

  lemma SeparatorHasNoDigits(c: char)
    requires IsSeparator(c)
    ensures Digits([c]) == ""
  {
    assert [c][..0] == "";
  }

  /** A success is the exact decimal value times the multiplier in minor units, within the integer range. It is given
      exactly for 1 to 15 digits, at most 4 of them after the point, when the value is a whole number of minor units and
      the product the code forms fits in 64 bits. */
  lemma AmountsAreExact(whole: string, frac: string, places: nat, factor: int)
    requires AllDigits(whole) && AllDigits(frac) && factor >= 1
    ensures var n := |frac|;
            var exact := (Val(whole) * Pow10(n) + Val(frac)) * factor * Pow10(places);
            var r := Settle(whole, frac, places, factor);
            && (r.Some? ==> 0 <= r.value <= MAX && r.value * Pow10(n) == exact)
            && (r.Some? <==> 1 <= |whole| + n <= 15 && n <= 4 && exact % Pow10(n) == 0
                             && exact <= MAX * Pow10(if n < places then n else places))
  {
    hide Val, Pow10;
    var n := |frac|;
    var least := if n < places then n else places;
    var lift, drop := places - least, n - least;
    ValConcat(whole, frac);
    PowAdd(lift, least);
    PowAdd(drop, least);
    PowZero();
    var base := Val(whole + frac) * factor;
    Regroup(base, Pow10(lift), Pow10(least));
    assert base * Pow10(places) == (base * Pow10(lift)) * Pow10(least);
    Positive(Val(whole + frac), factor, Pow10(lift));
    Scaled(base * Pow10(lift), Pow10(drop), Pow10(least));
  }

  lemma PowZero()
    ensures Pow10(0) == 1
  {
  }

  lemma Positive(v: nat, factor: int, p: nat)
    requires factor >= 1
    ensures v * factor * p >= 0
  {
    assert v * factor >= 0;
  }

  lemma Regroup(a: int, b: int, c: int)
    ensures a * (b * c) == (a * b) * c
  {
  }

  /** Multiplying by a common factor keeps order, divisibility and the quotient. */
  lemma Scaled(product: int, divisor: nat, common: nat)
    requires product >= 0 && divisor >= 1 && common >= 1
    ensures product > MAX <==> product * common > MAX * common
    ensures product % divisor == 0 <==> (product * common) % (divisor * common) == 0
    ensures product % divisor == 0 ==> (product / divisor) * (divisor * common) == product * common
    ensures 0 <= product / divisor <= product
  {
    var q, r := product / divisor, product % divisor;
    Ordered(product, MAX, common);
    Distribute(q, divisor, r, common);
    Below(r, divisor, common);
    assert divisor * common >= 1;
    Remainder(product * common, divisor * common, q, r * common);
    Quotient(product, divisor);
  }

  lemma Ordered(a: int, b: int, c: nat)
    requires c >= 1
    ensures a > b <==> a * c > b * c
  {
    if a > b { Steps(b, a, c); } else { Steps(a, b, c); }
  }

  lemma Steps(a: int, b: int, c: nat)
    requires a <= b
    ensures a * c <= b * c && (c >= 1 ==> a * c + (b - a) <= b * c)
  {
    assert (b - a) * c == b * c - a * c;
    if c >= 1 {
      assert (b - a) * c == (b - a) * (c - 1) + (b - a);
      assert (b - a) * (c - 1) >= 0;
    }
  }

  lemma Distribute(q: int, d: int, r: int, c: int)
    ensures (q * d + r) * c == q * (d * c) + r * c
  {
    assert (q * d + r) * c == (q * d) * c + r * c;
    Regroup(q, d, c);
  }

  lemma Below(r: int, d: int, c: nat)
    requires 0 <= r < d && c >= 1
    ensures 0 <= r * c < d * c && (r == 0 <==> r * c == 0) && d * c >= 1
  {
    Steps(0, r, c);
    Steps(r, d, c);
  }

  lemma Quotient(a: int, d: nat)
    requires a >= 0 && d >= 1
    ensures 0 <= a / d <= a
  {
    var q := a / d;
    assert q * d <= a < q * d + d;
    if q < 0 {
      Steps(q, -1, d);
      assert false;
    }
    Steps(1, d, q);
  }

  lemma Remainder(a: int, b: nat, q: int, r: int)
    requires b >= 1 && a == q * b + r && 0 <= r < b
    ensures a % b == r && a / b == q
  {
    var q', r' := a / b, a % b;
    assert a == q' * b + r' && 0 <= r' < b;
    if q > q' {
      Steps(q' + 1, q, b);
      assert false;
    } else if q < q' {
      Steps(q + 1, q', b);
      assert false;
    }
  }
}
