/** What an accepted amount says: its digits, the place of the decimal point and the multiplier. */
module Readings {
  import opened Domain
  import opened Text
  import opened Amount

  // ---------------------------------------------------------------- no digit of the text is lost

  /** The digits of a text, in order. */
  function DigitChars(s: string): string {
    if s == "" then "" else DigitChars(s[..|s| - 1]) + (if IsDigit(s[|s| - 1]) then [s[|s| - 1]] else "")
  }

  predicate NoDigits(s: string) {
    forall i :: 0 <= i < |s| ==> !IsDigit(s[i])
  }

  lemma {:induction false} DigitCharsConcat(a: string, b: string)
    ensures DigitChars(a + b) == DigitChars(a) + DigitChars(b)
    decreases |b|
  {
    if b == "" {
      assert a + b == a;
    } else {
      var b' := b[..|b| - 1];
      assert (a + b)[..|a + b| - 1] == a + b' && (a + b)[|a + b| - 1] == b[|b| - 1];
      DigitCharsConcat(a, b');
    }
  }

  lemma {:induction false} NoDigitChars(s: string)
    requires NoDigits(s)
    ensures DigitChars(s) == ""
  {
    if s != "" { NoDigitChars(s[..|s| - 1]); }
  }

  lemma {:induction false} TrimLeftKeeps(s: string)
    ensures DigitChars(TrimLeft(s)) == DigitChars(s)
  {
    if s != "" && IsSpace(s[0]) {
      TrimLeftKeeps(s[1..]);
      assert s == s[..1] + s[1..];
      DigitCharsConcat(s[..1], s[1..]);
      NoDigitChars(s[..1]);
    }
  }

  lemma {:induction false} TrimRightKeeps(s: string)
    ensures DigitChars(TrimRight(s)) == DigitChars(s)
  {
    if s != "" && IsSpace(s[|s| - 1]) { TrimRightKeeps(s[..|s| - 1]); }
  }

  lemma TrimKeeps(s: string)
    ensures DigitChars(TrimSpace(s)) == DigitChars(s)
  {
    TrimLeftKeeps(s);
    TrimRightKeeps(TrimLeft(s));
  }

  lemma {:induction false} RemoveKeeps(s: string, t: string)
    requires t != "" && NoDigits(t)
    ensures DigitChars(Remove(s, t)) == DigitChars(s)
    decreases |s|
  {
    if |s| >= |t| {
      var n := if s[..|t|] == t then |t| else 1;
      RemoveKeeps(s[n..], t);
      assert s == s[..n] + s[n..];
      DigitCharsConcat(s[..n], s[n..]);
      if n == |t| && s[..n] == t {
        NoDigitChars(t);
        assert Remove(s, t) == Remove(s[n..], t);
      } else {
        assert s[..1] == [s[0]];
        DigitCharsConcat([s[0]], Remove(s[1..], t));
      }
    }
  }

  lemma {:induction false} TokensKeep(s: string, n: nat)
    requires n <= |TOKENS|
    ensures DigitChars(RemoveTokens(s, n)) == DigitChars(s)
  {
    hide Remove;
    if n > 0 {
      TokensKeep(s, n - 1);
      TokenHasNoDigits(n - 1);
      RemoveKeeps(RemoveTokens(s, n - 1), TOKENS[n - 1]);
    }
  }

  lemma TokenHasNoDigits(i: nat)
    requires i < |TOKENS|
    ensures NoDigits(TOKENS[i])
  {
  }

  lemma {:induction false} BytesOfLower(s: string)
    ensures Bytes(Lower(s)) <= Bytes(s)
  {
    if s != "" {
      BytesOfLower(s[..|s| - 1]);
      assert Lower(s)[..|s| - 1] == Lower(s[..|s| - 1]);
      assert Width(LowerChar(s[|s| - 1])) <= Width(s[|s| - 1]);
    }
  }

  /** Cutting no more bytes than a tail has leaves what stands before the tail. */
  lemma {:induction false} DropWithin(a: string, tail: string, w: nat)
    requires w <= Bytes(tail)
    ensures DropBytes(a + tail, w) == a + DropBytes(tail, w)
    decreases |tail|
  {
    hide Width;
    if w > 0 {
      var s, tail', c := a + tail, tail[..|tail| - 1], tail[|tail| - 1];
      assert s[..|s| - 1] == a + tail' && s[|s| - 1] == c;
      if Width(c) <= w {
        DropWithin(a, tail', w - Width(c));
      } else {
        var left := seq(Width(c) - w, _ => '\U{FFFD}');
        assert (a + tail') + left == a + (tail' + left);
      }
    }
  }

  lemma {:induction false} DropHasNoDigits(s: string, w: nat)
    requires NoDigits(s)
    ensures NoDigits(DropBytes(s, w))
    decreases |s|
  {
    if w > 0 && s != "" && Width(s[|s| - 1]) <= w { DropHasNoDigits(s[..|s| - 1], w - Width(s[|s| - 1])); }
  }

  /** The bytes cut for a multiplier are never those of a digit. */
  lemma CutKeeps(s: string, suffix: string)
    requires HasSuffix(Lower(s), suffix) && NoDigits(suffix)
    ensures DigitChars(DropBytes(s, Bytes(suffix))) == DigitChars(s)
  {
    hide DropBytes, Bytes, NoDigits, DigitChars;
    var n := |s| - |suffix|;
    var a, tail := s[..n], s[n..];
    assert s == a + tail && Lower(tail) == suffix;
    TailHasNoDigits(tail);
    BytesOfLower(tail);
    DropWithin(a, tail, Bytes(suffix));
    DropHasNoDigits(tail, Bytes(suffix));
    NoDigitChars(tail);
    NoDigitChars(DropBytes(tail, Bytes(suffix)));
    DigitCharsConcat(a, tail);
    DigitCharsConcat(a, DropBytes(tail, Bytes(suffix)));
  }

  lemma TailHasNoDigits(tail: string)
    requires NoDigits(Lower(tail))
    ensures NoDigits(tail)
  {
    forall i | 0 <= i < |tail| ensures !IsDigit(tail[i]) { assert Lower(tail)[i] == LowerChar(tail[i]); }
  }

  lemma MultiplierKeeps(s: string)
    ensures DigitChars(Multiplied(s).text) == DigitChars(s)
  {
    hide DropBytes, Bytes, TrimSpace, DigitChars, HasSuffix;
    var i := FirstMultiplier(Lower(s), 0);
    if i < |MULTIPLIERS| {
      var t := MULTIPLIERS[i].text;
      Matching(Lower(s), 0);
      assert NoDigits(t);
      CutKeeps(s, t);
      TrimKeeps(DropBytes(s, Bytes(t)));
    }
  }

  lemma {:induction false} Matching(lower: string, i: nat)
    requires i <= |MULTIPLIERS|
    ensures var k := FirstMultiplier(lower, i); k < |MULTIPLIERS| ==> HasSuffix(lower, MULTIPLIERS[k].text)
    decreases |MULTIPLIERS| - i
  {
    hide HasSuffix;
    if i < |MULTIPLIERS| && !HasSuffix(lower, MULTIPLIERS[i].text) { Matching(lower, i + 1); }
  }

  lemma {:induction false} SpacesKeep(s: string)
    ensures DigitChars(WithoutSpaces(s)) == DigitChars(s)
  {
    if s != "" {
      var t := s[..|s| - 1];
      SpacesKeep(t);
      if s[|s| - 1] != ' ' {
        DigitCharsConcat(WithoutSpaces(t), [s[|s| - 1]]);
        assert [s[|s| - 1]][..0] == "";
        assert DigitChars([s[|s| - 1]]) == if IsDigit(s[|s| - 1]) then [s[|s| - 1]] else "";
      }
    }
  }

  lemma {:induction false} SpacesApart(a: string, b: string)
    ensures WithoutSpaces(a + b) == WithoutSpaces(a) + WithoutSpaces(b)
    decreases |b|
  {
    if b == "" {
      assert a + b == a;
    } else {
      var b' := b[..|b| - 1];
      assert (a + b)[..|a + b| - 1] == a + b' && (a + b)[|a + b| - 1] == b[|b| - 1];
      SpacesApart(a, b');
    }
  }

  /** A space between parts of an amount makes no difference, and nothing else is taken out of it. */
  lemma SpacesGo(a: string, b: string)
    requires IsBody(a) && IsBody(b)
    ensures WithoutSpaces(a + " " + b) == a + b
  {
    hide WithoutSpaces;
    SpacesApart(a, " ");
    SpacesApart(a + " ", b);
    NoSpaces(a);
    NoSpaces(b);
    OneSpace();
    assert a + "" == a;
  }

  lemma OneSpace()
    ensures WithoutSpaces(" ") == ""
  {
    assert " "[..0] == "";
  }

  lemma {:induction false} BodyDigits(s: string)
    requires IsBody(s)
    ensures Digits(s) == DigitChars(s)
  {
    if s != "" { BodyDigits(s[..|s| - 1]); }
  }

  // ---------------------------------------------------------------- the whole parser

  datatype Reading = Reading(whole: string, frac: string, factor: int, places: nat)

  /** The text without currency tokens, and the multiplier that was cut from it. */
  function Cleaned(raw: string): Suffix {
    Multiplied(TrimSpace(RemoveTokens(TrimSpace(raw), |TOKENS|)))
  }

  /** The one reading of a text: all its digits in order, split at its decimal point, and its multiplier. */
  ghost predicate Reads(raw: string, r: Reading) {
    var body := WithoutSpaces(Cleaned(raw).text);
    && AllDigits(r.whole) && AllDigits(r.frac) && r.whole + r.frac == DigitChars(raw)
    && r.factor == Cleaned(raw).factor && r.frac == AfterPoint(body, Point(body, r.places, r.factor))
  }

  function AfterPoint(body: string, p: int): string
    requires -1 <= p < |body|
  {
    if p < 0 then "" else body[p + 1..]
  }

  /** A number of minor units is the exact value of a reading, within the integer range. */
  ghost predicate Exact(minor: int, r: Reading)
    requires AllDigits(r.whole) && AllDigits(r.frac)
  {
    && 0 <= minor <= MAX
    && minor * Pow10(|r.frac|) == (Val(r.whole) * Pow10(|r.frac|) + Val(r.frac)) * r.factor * Pow10(r.places)
  }

  lemma BodyHasAllDigits(raw: string)
    requires forall i :: 0 <= i < |Cleaned(raw).text| ==> Acceptable(Cleaned(raw).text[i])
    ensures var body := WithoutSpaces(Cleaned(raw).text); IsBody(body) && Digits(body) == DigitChars(raw)
  {
    hide DigitChars, TrimSpace, RemoveTokens, Multiplied, WithoutSpaces, Digits, IsBody;
    var s := TrimSpace(raw);
    var t := RemoveTokens(s, |TOKENS|);
    TrimKeeps(raw);
    TokensKeep(s, |TOKENS|);
    TrimKeeps(t);
    MultiplierKeeps(TrimSpace(t));
    var m := Multiplied(TrimSpace(t));
    assert m == Cleaned(raw);
    SpacesKeep(m.text);
    BodyOf(m.text);
    BodyDigits(WithoutSpaces(m.text));
  }

  /** For a given currency a text has one reading. */
  lemma ReadingIsUnique(raw: string, q: Reading, r: Reading)
    requires Reads(raw, q) && Reads(raw, r) && q.places == r.places
    ensures q == r
  {
    hide Cleaned, DigitChars, WithoutSpaces, Point, AllDigits;
    var n := |DigitChars(raw)| - |r.frac|;
    assert q.whole == (q.whole + q.frac)[..n] && r.whole == (r.whole + r.frac)[..n];
  }

  /** An accepted text has its reading, and the result is the exact value of that reading in minor units. */
  lemma ParseIsExact(raw: string, hint: string) returns (r: Reading)
    ensures match Parse(raw, hint)
            case Invalid => true
            case Amount(minor, currency) =>
              && currency == Currency(TrimSpace(raw), hint) && r.places == CurrencyDecimalPlaces(currency)
              && Reads(raw, r) && Exact(minor, r)
  {
    hide Evaluate, RemoveTokens, Currency, Multiplied, TrimSpace, DigitChars, WithoutSpaces, Acceptable, Exact, Point,
      CurrencyDecimalPlaces, AllDigits;
    r := Reading("", "", 1, 0);
    if Parse(raw, hint).Amount? {
      BodyHasAllDigits(raw);
      MultiplierIs(TrimSpace(RemoveTokens(TrimSpace(raw), |TOKENS|)));
      r := EvaluateIsExact(WithoutSpaces(Cleaned(raw).text), Currency(TrimSpace(raw), hint), Cleaned(raw).factor);
    }
  }

  lemma EvaluateIsExact(body: string, currency: string, factor: int) returns (r: Reading)
    requires IsBody(body) && factor >= 1 && Evaluate(body, currency, factor).Amount?
    ensures AllDigits(r.whole) && AllDigits(r.frac) && r.whole + r.frac == Digits(body) && r.factor == factor
    ensures r.places == CurrencyDecimalPlaces(currency)
    ensures r.frac == AfterPoint(body, Point(body, r.places, factor))
    ensures var a := Evaluate(body, currency, factor); a.currency == currency && Exact(a.minor, r)
  {
    hide Settle, Digits, Point, CurrencyDecimalPlaces, Exact;
    var places := CurrencyDecimalPlaces(currency);
    var p := Point(body, places, factor);
    r := Reading(Whole(body, p), Frac(body, p), factor, places);
    NoDigitLost(body, places, factor);
    FracIsAfterPoint(body, places, factor);
    SettleIsExact(r);
  }

  lemma SettleIsExact(r: Reading)
    requires AllDigits(r.whole) && AllDigits(r.frac) && r.factor >= 1
    ensures var v := Settle(r.whole, r.frac, r.places, r.factor); v.Some? ==> Exact(v.value, r)
  {
    hide Settle, Val, Pow10;
    AmountsAreExact(r.whole, r.frac, r.places, r.factor);
  }

  /** No separator follows the point. */
  lemma FracIsAfterPoint(body: string, places: nat, factor: int)
    ensures var p := Point(body, places, factor); Frac(body, p) == AfterPoint(body, p)
  {
    hide Digits, LastSeparator;
    var p := Point(body, places, factor);
    if p >= 0 {
      assert p == LastSeparator(body);
      NoSeparator(body[p + 1..]);
    }
  }

  /** Where a separator is a decimal point, for every body: `sep` is its last separator. */
  lemma SeparatorRule(w: string, sep: char, f: string, places: nat, factor: int)
    requires IsBody(w) && (sep == '.' || sep == ',') && AllDigits(f) && factor >= 1
    ensures var point := if places == 0 then factor > 1 && |f| != 0 && |f| != 3 else sep == '.' && |f| == 2;
            Point(w + [sep] + f, places, factor) == if point then |w| else -1
    ensures Point(f, places, factor) == -1
  {
    hide LastSeparator;
    var g := w + [sep] + f;
    assert g[|w|] == sep;
    assert forall k :: |w| < k < |g| ==> g[k] == f[k - |w| - 1];
    assert LastSeparator(g) == |w|;
    assert LastSeparator(f) == -1;
  }

  /** 1 to 15 digits with at most 4 after the point, and a whole number of minor units whose product fits in 64 bits. */
  ghost predicate Fits(r: Reading)
    requires AllDigits(r.whole) && AllDigits(r.frac)
  {
    var n := |r.frac|;
    var exact := (Val(r.whole) * Pow10(n) + Val(r.frac)) * r.factor * Pow10(r.places);
    && 1 <= |r.whole| + n <= 15 && n <= 4 && exact % Pow10(n) == 0
    && exact <= MAX * Pow10(if n < r.places then n else r.places)
  }

  lemma SettleFits(r: Reading)
    requires AllDigits(r.whole) && AllDigits(r.frac) && r.factor >= 1
    ensures Settle(r.whole, r.frac, r.places, r.factor).Some? <==> Fits(r)
  {
    hide Settle, Val, Pow10;
    AmountsAreExact(r.whole, r.frac, r.places, r.factor);
  }

  /** What makes a text acceptable, once it is read: no sign, nothing but digits, separators and spaces beside the
      currency and the multiplier, and an amount that fits. */
  lemma ParseAccepts(raw: string, hint: string, r: Reading)
    requires Reads(raw, r) && r.places == CurrencyDecimalPlaces(Currency(TrimSpace(raw), hint))
    ensures var text := Cleaned(raw).text;
            Parse(raw, hint).Amount? <==>
            '-' !in raw && (forall i :: 0 <= i < |text| ==> text[i] in "0123456789., ") && Fits(r)
  {
    hide Evaluate, RemoveTokens, Currency, Multiplied, TrimSpace, DigitChars, WithoutSpaces, Point, Reads, Fits,
      CurrencyDecimalPlaces, AllDigits;
    var text := Cleaned(raw).text;
    assert forall i :: 0 <= i < |text| ==> (Acceptable(text[i]) <==> text[i] in "0123456789., ");
    SignSurvives(raw);
    if forall i :: 0 <= i < |text| ==> Acceptable(text[i]) {
      AcceptableText(raw, hint, r);
    }
  }

  lemma AcceptableText(raw: string, hint: string, r: Reading)
    requires Reads(raw, r) && r.places == CurrencyDecimalPlaces(Currency(TrimSpace(raw), hint))
    requires forall i :: 0 <= i < |Cleaned(raw).text| ==> Acceptable(Cleaned(raw).text[i])
    ensures IsBody(WithoutSpaces(Cleaned(raw).text))
    ensures TrimSpace(raw) == "" ==> !Fits(r)
    ensures Evaluate(WithoutSpaces(Cleaned(raw).text), Currency(TrimSpace(raw), hint), Cleaned(raw).factor).Amount? <==>
            Fits(r)
  {
    hide RemoveTokens, Currency, Multiplied, TrimSpace, WithoutSpaces, Point, Fits, CurrencyDecimalPlaces, Settle,
      Digits;
    var m := Cleaned(raw);
    var body := WithoutSpaces(m.text);
    BodyHasAllDigits(raw);
    TrimKeeps(raw);
    MultiplierIs(TrimSpace(RemoveTokens(TrimSpace(raw), |TOKENS|)));
    var p := Point(body, r.places, r.factor);
    NoDigitLost(body, r.places, r.factor);
    FracIsAfterPoint(body, r.places, r.factor);
    assert r.whole == Whole(body, p) by {
      assert r.whole == (r.whole + r.frac)[..|Whole(body, p)|];
    }
    SettleFits(r);
    if TrimSpace(raw) == "" {
      assert r.whole + r.frac == "";
      NothingFits(r);
    }
  }

  lemma NothingFits(r: Reading)
    requires r.whole + r.frac == ""
    ensures !Fits(r)
  {
    assert |r.whole + r.frac| == 0;
  }

  /** A minus sign anywhere in the text is still there when the text is trimmed. */
  lemma SignSurvives(raw: string)
    ensures '-' in raw <==> '-' in TrimSpace(raw)
  {
    TrimLeftIs(raw);
    TrimRightIs(TrimLeft(raw));
  }

  lemma {:induction false} TrimLeftIs(s: string)
    ensures '-' in s <==> '-' in TrimLeft(s)
  {
    if s != "" && IsSpace(s[0]) {
      TrimLeftIs(s[1..]);
      assert s == [s[0]] + s[1..];
    }
  }

  lemma {:induction false} TrimRightIs(s: string)
    ensures '-' in s <==> '-' in TrimRight(s)
  {
    if s != "" && IsSpace(s[|s| - 1]) {
      TrimRightIs(s[..|s| - 1]);
      assert s == s[..|s| - 1] + [s[|s| - 1]];
    }
  }

  /** The multiplier of a text is the one it ends with, in either case. */
  lemma MultiplierIs(s: string)
    ensures Multiplied(s).factor ==
            if HasSuffix(Lower(s), "tri\U{1EC7}u") || HasSuffix(Lower(s), "tr") then 1_000_000
            else if HasSuffix(Lower(s), "k") then 1_000 else 1
  {
    hide DropBytes, Bytes, TrimSpace, HasSuffix, Lower;
    var lower := Lower(s);
    assert FirstMultiplier(lower, 3) == 3;
    assert FirstMultiplier(lower, 2) == if HasSuffix(lower, "k") then 2 else 3;
    assert FirstMultiplier(lower, 1) == if HasSuffix(lower, "tr") then 1 else FirstMultiplier(lower, 2);
  }

  // ---------------------------------------------------------------- amounts with a currency

  predicate Plain(g: string) {
    forall i :: 0 <= i < |g| ==> Acceptable(g[i])
  }

  /** A letter of token `i` that the later token `k` does not have. */
  function Letter(i: nat, k: nat): nat {
    if i == 0 then (if k == 1 then 0 else 1)
    else if i == 4 then (if k == 5 then 0 else 1)
    else if i == 6 then (if k == 7 then 2 else 0)
    else if i == 8 then (if k == 9 then 2 else 0)
    else if i in {1, 2, 3, 5, 10, 11} then 1
    else 0
  }

  lemma LetterAbsent(i: nat, k: nat)
    requires i < k < |TOKENS|
    ensures Letter(i, k) < |TOKENS[i]| && TOKENS[i][Letter(i, k)] !in TOKENS[k]
    ensures !Acceptable(TOKENS[i][Letter(i, k)])
  {
  }

  lemma TokenStarts(i: nat)
    requires i < |TOKENS|
    ensures TOKENS[i] != "" && !Acceptable(TOKENS[i][0])
  {
  }

  lemma {:induction false} TokenRemoved(g: string, k: nat, n: nat)
    requires Plain(g) && k < |TOKENS| && n <= |TOKENS|
    ensures RemoveTokens(g + TOKENS[k], n) == if n <= k then g + TOKENS[k] else g
  {
    hide Replace, Letter;
    if n > 0 {
      var i := n - 1;
      TokenRemoved(g, k, i);
      TokenStarts(i);
      if i < k {
        LetterAbsent(i, k);
        ReplaceAbsent(g + TOKENS[k], TOKENS[i], "", Letter(i, k));
      } else if i == k {
        RemoveEnd(g, TOKENS[k]);
      } else {
        ReplaceAbsent(g, TOKENS[i], "", 0);
      }
    }
  }

  lemma UpperConcat(a: string, b: string)
    ensures Upper(a + b) == Upper(a) + Upper(b)
  {
  }

  lemma OccursInside(a: string, b: string, c: string)
    ensures Contains(a + b + c, b)
  {
    var s := a + b + c;
    assert s[|a|..|a| + |b|] == b;
    assert OccursAt(s, b, |a|);
  }

  lemma PlainUpper(g: string)
    requires Plain(g)
    ensures Upper(g) == g
  {
  }

  /** Dong, in any of its spellings. */
  lemma DongFound(g: string, token: string)
    requires Plain(g)
    requires token in ["\U{0111}\U{1ED3}ng", "\U{0110}\U{1ED3}ng", "\U{0110}\U{1ED2}NG", "DONG", "Dong", "dong",
                       "VN\U{0110}", "VND", "vn\U{0111}", "vnd", "\U{20AB}", "\U{0111}", "\U{0110}"]
    ensures CurrencyIn(g + token) == "VND"
  {
    hide Contains, CurrencyIn;
    if token in ["DONG", "Dong", "dong"] {
      assert Upper(token) == "DONG";
      DongWord(g, token);
    } else if token in ["VND", "vnd"] {
      assert Upper(token) == "VND";
      DongWord(g, token);
    } else {
      DongLetter(g, token, if token[0] == 'V' || token[0] == 'v' then 2 else 0);
    }
  }

  lemma DongWord(g: string, token: string)
    requires Upper(token) == "DONG" || Upper(token) == "VND"
    ensures CurrencyIn(g + token) == "VND"
  {
    hide Contains, Upper;
    UpperConcat(g, token);
    ContainsEnd(Upper(g), Upper(token));
  }

  lemma DongLetter(g: string, token: string, k: nat)
    requires k < |token| && token[k] in ['\U{0111}', '\U{0110}', '\U{20AB}']
    ensures CurrencyIn(g + token) == "VND"
  {
    hide Contains, Upper;
    OccursInside(g + token[..k], [token[k]], token[k + 1..]);
    assert g + token[..k] + [token[k]] + token[k + 1..] == g + token;
  }

  /** No spelling of dong fits into a text without its letters. */
  lemma NoDong(s: string)
    requires 'O' !in Upper(s) && 'V' !in Upper(s) && '\U{1ED2}' !in Upper(s)
    requires '\U{0111}' !in s && '\U{0110}' !in s && '\U{20AB}' !in s
    ensures CurrencyIn(s) == if Contains(Upper(s), "AUD") || Contains(s, "A$") then "AUD"
                             else if Contains(s, "$") then "USD" else ""
  {
    hide Contains, Upper;
    NotContains(Upper(s), "\U{0110}\U{1ED2}NG", 1);
    NotContains(Upper(s), "DONG", 1);
    NotContains(Upper(s), "VN\U{0110}", 0);
    NotContains(Upper(s), "VND", 0);
    NotContains(s, "\U{0111}", 0);
    NotContains(s, "\U{0110}", 0);
    NotContains(s, "\U{20AB}", 0);
  }

  /** Dollars of two countries; a lower-case "a$" is taken for the other one. */
  lemma DollarFound(g: string, token: string)
    requires Plain(g) && token in ["AUD", "aud", "A$", "a$", "$"]
    ensures CurrencyIn(g + token) == if token == "$" || token == "a$" then "USD" else "AUD"
  {
    hide Contains, CurrencyIn;
    var s := g + token;
    PlainUpper(g);
    UpperConcat(g, token);
    assert Upper(token) == if token in ["AUD", "aud"] then "AUD" else if token == "$" then "$" else "A$";
    NoDong(s);
    ContainsEnd(g, token);
    ContainsEnd(Upper(g), Upper(token));
    if token in ["A$", "a$", "$"] {
      NotContains(Upper(s), "AUD", 1);
      if token != "A$" { NotContains(s, "A$", 0); }
      if token == "a$" {
        ContainsEnd(g + "a", "$");
        assert g + "a" + "$" == s;
      }
    }
  }

  /** Without a currency in the text the hint counts, and without a hint it is dong. */
  lemma NothingFound(g: string, hint: string)
    requires Plain(g)
    ensures CurrencyIn(g) == ""
    ensures Currency(g, hint) == if TrimSpace(hint) == "" then "VND" else Upper(TrimSpace(hint))
  {
    PlainUpper(g);
    NotContains(g, "\U{0110}\U{1ED2}NG", 0);
    NotContains(g, "DONG", 0);
    NotContains(g, "VN\U{0110}", 0);
    NotContains(g, "VND", 0);
    NotContains(g, "AUD", 0);
    NotContains(g, "\U{0111}", 0);
    NotContains(g, "\U{0110}", 0);
    NotContains(g, "\U{20AB}", 0);
    NotContains(g, "A$", 0);
    NotContains(g, "$", 0);
  }

  lemma NoMultiplier(g: string)
    requires g != "" && Acceptable(g[|g| - 1])
    ensures Multiplied(g) == Suffix(g, 1)
  {
    var lower := Lower(g);
    assert lower[|g| - 1] == g[|g| - 1];
    forall i | 0 <= i < |MULTIPLIERS| ensures !HasSuffix(lower, MULTIPLIERS[i].text) {
      var t := MULTIPLIERS[i].text;
      assert !Acceptable(t[|t| - 1]);
      if |t| <= |g| { assert lower[|g| - |t|..][|t| - 1] == lower[|g| - 1]; }
    }
    assert FirstMultiplier(lower, 2) == 3;
    assert FirstMultiplier(lower, 1) == 3;
  }

  lemma TrimmedBody(g: string, pad: string)
    requires IsBody(g) && g != "" && (pad == "" || pad == " ")
    ensures TrimSpace(g + pad) == g
  {
    if pad == "" {
      assert g + pad == g;
      TrimNothing(g);
    } else {
      assert (g + pad)[0] == g[0];
      TrimRightOne(g, ' ');
    }
  }

  lemma TokenEnds(k: nat)
    requires k < |TOKENS|
    ensures var token := TOKENS[k]; token != "" && '-' !in token && !IsSpace(token[|token| - 1])
  {
  }

  lemma TokenTaken(g: string, pad: string, k: nat, hint: string)
    requires IsBody(g) && g != "" && (pad == "" || pad == " ") && k < |TOKENS|
    requires CurrencyIn(g + pad + TOKENS[k]) != ""
    ensures Parse(g + pad + TOKENS[k], hint) == Evaluate(g, CurrencyIn(g + pad + TOKENS[k]), 1)
  {
    hide Evaluate, RemoveTokens, CurrencyIn, Multiplied, WithoutSpaces, TrimLeft, TrimRight;
    var token, s := TOKENS[k], g + pad + TOKENS[k];
    TokenEnds(k);
    assert Plain(g + pad) && !IsSpace(g[0]);
    assert s[0] == g[0] && s[|s| - 1] == token[|token| - 1];
    TrimNothing(s);
    assert '-' !in s;
    TokenRemoved(g + pad, k, |TOKENS|);
    TrimmedBody(g, pad);
    NoMultiplier(g);
    NoSpaces(g);
  }

  lemma TokenIndex(token: string) returns (k: nat)
    requires token in ["\U{0111}\U{1ED3}ng", "\U{0110}\U{1ED3}ng", "\U{0110}\U{1ED2}NG", "DONG", "Dong", "dong",
                       "VN\U{0110}", "VND", "vn\U{0111}", "vnd", "AUD", "aud", "A$", "a$", "$", "\U{20AB}", "\U{0111}",
                       "\U{0110}"]
    ensures k < |TOKENS| && TOKENS[k] == token
  {
    assert token in TOKENS;
    k :| 0 <= k < |TOKENS| && TOKENS[k] == token;
  }

  /** Every way to name a currency after an amount, with or without a space: the name is taken off, and the amount is
      read in that currency whatever the hint. */
  lemma PricedIn(g: string, pad: string, token: string, hint: string)
    requires IsBody(g) && g != "" && (pad == "" || pad == " ")
    requires token in ["\U{0111}\U{1ED3}ng", "\U{0110}\U{1ED3}ng", "\U{0110}\U{1ED2}NG", "DONG", "Dong", "dong",
                       "VN\U{0110}", "VND", "vn\U{0111}", "vnd", "AUD", "aud", "A$", "a$", "$", "\U{20AB}", "\U{0111}",
                       "\U{0110}"]
    ensures var currency := if token in ["AUD", "aud", "A$"] then "AUD"
                            else if token in ["$", "a$"] then "USD" else "VND";
            Parse(g + pad + token, hint) == Evaluate(g, currency, 1)
  {
    hide Evaluate, CurrencyIn, Parse;
    var k := TokenIndex(token);
    assert Plain(g + pad);
    if token in ["AUD", "aud", "A$", "a$", "$"] { DollarFound(g + pad, token); } else { DongFound(g + pad, token); }
    TokenTaken(g, pad, k, hint);
  }

  // ---------------------------------------------------------------- the multiplier rule

  /** The comment on multipliers takes a separator for a decimal point if one or two digits follow it. Code and comment
      part exactly when four or more do. */
  lemma CommentFailsFromFourDigits(body: string, factor: int)
    requires factor > 1 && LastSeparator(body) >= 0
    ensures var n := |body| - LastSeparator(body) - 1;
            ((Point(body, 0, factor) >= 0) != (0 < n < 3)) <==> n >= 4
  {
  }

  predicate MultipleChar(c: char) {
    IsDigit(c) || IsSeparator(c) || c in "triuk\U{1EC7}TRIUK\U{1EC6}"
  }

  lemma {:induction false} NoTokens(s: string, n: nat)
    requires n <= |TOKENS| && forall i :: 0 <= i < |s| ==> MultipleChar(s[i])
    ensures RemoveTokens(s, n) == s
  {
    if n > 0 {
      NoTokens(s, n - 1);
      TokenStart(n - 1);
      ReplaceAbsent(s, TOKENS[n - 1], "", 0);
    }
  }

  lemma TokenStart(i: nat)
    requires i < |TOKENS|
    ensures TOKENS[i] != "" && !MultipleChar(TOKENS[i][0])
  {
  }

  lemma MultipleUpper(c: char)
    requires MultipleChar(c)
    ensures MultipleChar(UpperChar(c))
  {
  }

  lemma NoCurrency(s: string)
    requires forall i :: 0 <= i < |s| ==> MultipleChar(s[i])
    ensures CurrencyIn(s) == ""
  {
    hide Contains, CurrencyIn;
    forall i | 0 <= i < |s| ensures MultipleChar(Upper(s)[i]) { MultipleUpper(s[i]); }
    NoDong(s);
    NotContains(Upper(s), "AUD", 0);
    NotContains(s, "A$", 0);
    NotContains(s, "$", 0);
  }

  lemma {:induction false} DropAll(s: string)
    ensures DropBytes(s, Bytes(s)) == ""
  {
    hide Width;
    if s != "" {
      assert Width(s[|s| - 1]) >= 1 by { Wide(s[|s| - 1]); }
      DropAll(s[..|s| - 1]);
    }
  }

  lemma Wide(c: char)
    ensures Width(c) >= 1
  {
  }

  lemma {:induction false} SameBytes(s: string)
    requires forall i :: 0 <= i < |s| ==> Width(LowerChar(s[i])) == Width(s[i])
    ensures Bytes(Lower(s)) == Bytes(s)
  {
    if s != "" {
      SameBytes(s[..|s| - 1]);
      assert Lower(s)[..|s| - 1] == Lower(s[..|s| - 1]);
    }
  }

  lemma LowerConcat(a: string, b: string)
    ensures Lower(a + b) == Lower(a) + Lower(b)
  {
  }

  /** The three multipliers end in different letters. */
  lemma FirstByEnd(lower: string, i: nat)
    requires i < |MULTIPLIERS| && HasSuffix(lower, MULTIPLIERS[i].text)
    ensures FirstMultiplier(lower, 0) == i
  {
    hide HasSuffix;
    EndsIn(lower, MULTIPLIERS[i].text);
    EndsIn(lower, MULTIPLIERS[0].text);
    EndsIn(lower, MULTIPLIERS[1].text);
    assert FirstMultiplier(lower, 2) == if HasSuffix(lower, MULTIPLIERS[2].text) then 2 else 3;
    assert FirstMultiplier(lower, 1) == if HasSuffix(lower, MULTIPLIERS[1].text) then 1 else FirstMultiplier(lower, 2);
  }

  lemma EndsIn(s: string, t: string)
    requires t != ""
    ensures HasSuffix(s, t) ==> s != "" && s[|s| - 1] == t[|t| - 1]
  {
  }

  lemma WhichMultiplier(g: string, suffix: string)
    requires suffix in ["tri\U{1EC7}u", "TRI\U{1EC6}U", "tr", "TR", "k", "K"]
    ensures var i := FirstMultiplier(Lower(g + suffix), 0);
            && i < |MULTIPLIERS| && MULTIPLIERS[i].text == Lower(suffix)
            && MULTIPLIERS[i].factor == if suffix == "k" || suffix == "K" then 1_000 else 1_000_000
  {
    hide FirstMultiplier;
    LowerConcat(g, suffix);
    var i := if |suffix| == 5 then 0 else if |suffix| == 2 then 1 else 2;
    assert Lower(suffix) == MULTIPLIERS[i].text;
    FirstByEnd(Lower(g) + Lower(suffix), i);
  }

  lemma MultiplierCut(g: string, suffix: string)
    requires IsBody(g) && g != "" && suffix in ["tri\U{1EC7}u", "TRI\U{1EC6}U", "tr", "TR", "k", "K"]
    ensures Multiplied(g + suffix) == Suffix(g, if suffix == "k" || suffix == "K" then 1_000 else 1_000_000)
  {
    hide DropBytes, Bytes, TrimSpace, HasSuffix, FirstMultiplier;
    WhichMultiplier(g, suffix);
    SameBytes(suffix);
    DropWithin(g, suffix, Bytes(suffix));
    DropAll(suffix);
    assert g + "" == g;
    TrimNothing(g);
  }

  /** An amount with a multiplier is read as thousands or millions of dong. */
  lemma Multiples(g: string, suffix: string)
    requires IsBody(g) && g != "" && suffix in ["tri\U{1EC7}u", "TRI\U{1EC6}U", "tr", "TR", "k", "K"]
    ensures Parse(g + suffix, "") == Evaluate(g, "VND", if suffix == "k" || suffix == "K" then 1_000 else 1_000_000)
  {
    hide Evaluate, RemoveTokens, CurrencyIn, Multiplied, WithoutSpaces, TrimLeft, TrimRight;
    var s := g + suffix;
    assert forall i :: 0 <= i < |suffix| ==> MultipleChar(suffix[i]);
    assert s[|s| - 1] == suffix[|suffix| - 1] && !IsSpace(s[|s| - 1]);
    TrimNothing(s);
    assert forall i :: 0 <= i < |s| ==> MultipleChar(s[i]);
    assert '-' !in s;
    NoTokens(s, |TOKENS|);
    NoCurrency(s);
    NoHint();
    MultiplierCut(g, suffix);
    NoSpaces(g);
  }

  lemma NoHint()
    ensures Upper(TrimSpace("")) == ""
  {
  }

  lemma VndHasNoPlaces()
    ensures CurrencyDecimalPlaces("VND") == 0
  {
    assert Upper("VND") == "VND";
  }

  lemma PointAt(w: string, f: string)
    requires AllDigits(w) && AllDigits(f)
    ensures var g := w + "." + f; IsBody(g) && LastSeparator(g) == |w| && g[..|w|] == w && g[|w| + 1..] == f
  {
    hide LastSeparator;
    var g := w + "." + f;
    var i := LastSeparator(g);
    assert g[|w|] == '.';
    assert forall k :: 0 <= k < |f| ==> g[|w| + 1 + k] == f[k];
    assert forall k :: |w| < k < |g| ==> g[k] == f[k - |w| - 1];
  }

  /** Amounts in millions: one, two or four digits after the separator are a fraction, the last against the comment;
      none or three make it a thousands separator, and more are refused. */
  lemma Fractions(w: string, f: string)
    requires AllDigits(w) && AllDigits(f)
    ensures Parse(w + "." + f + "tr", "") ==
            if !(1 <= |w| + |f| <= 15) || |f| > 4 || Val(w + f) * 1_000_000 > MAX then Invalid
            else Amount(Val(w + f) * (if |f| == 3 then 1_000_000 else Pow10(6 - |f|)), "VND")
  {
    hide Parse, Val, Pow10;
    SixZeros();
    if |f| == 0 || |f| == 3 { Thousands(w, f); } else { Decimals(w, f); }
  }

  lemma Thousands(w: string, f: string)
    requires AllDigits(w) && AllDigits(f) && (|f| == 0 || |f| == 3)
    ensures Parse(w + "." + f + "tr", "") ==
            if !(1 <= |w| + |f| <= 15) || Val(w + f) * 1_000_000 > MAX then Invalid
            else Amount(Val(w + f) * 1_000_000, "VND")
  {
    hide Settle, Digits, LastSeparator, Parse, Val;
    var g := w + "." + f;
    PointAt(w, f);
    Multiples(g, "tr");
    VndHasNoPlaces();
    assert Point(g, 0, 1_000_000) == -1;
    DigitsAround(w, f);
    SettleWhole(w + f, 0, 1_000_000);
  }

  lemma DigitsAround(w: string, f: string)
    requires AllDigits(w) && AllDigits(f)
    ensures Digits(w + "." + f) == w + f
  {
    hide Digits;
    NoSeparator(w);
    NoSeparator(f);
    DigitsConcat(w, ".");
    DigitsConcat(w + ".", f);
    SeparatorHasNoDigits('.');
    assert w + "" == w;
  }

  lemma Decimals(w: string, f: string)
    requires AllDigits(w) && AllDigits(f) && |f| != 0 && |f| != 3
    ensures Parse(w + "." + f + "tr", "") ==
            if |f| <= 4 && |w| + |f| <= 15 && Val(w + f) * 1_000_000 <= MAX
            then Amount(Val(w + f) * Pow10(6 - |f|), "VND") else Invalid
  {
    hide Settle, Digits, LastSeparator, Parse, Val;
    var g := w + "." + f;
    PointAt(w, f);
    Multiples(g, "tr");
    VndHasNoPlaces();
    NoSeparator(w);
    NoSeparator(f);
    assert Point(g, 0, 1_000_000) == |w|;
    SettleDecimal(w, f, 0, 1_000_000);
    if |f| <= 4 { Divided(Val(w + f), |f|); }
  }

  lemma Divided(v: nat, n: nat)
    requires n <= 4
    ensures v * 1_000_000 % Pow10(n) == 0 && v * 1_000_000 / Pow10(n) == v * Pow10(6 - n)
  {
    hide Pow10;
    PowAdd(6 - n, n);
    SixZeros();
    Regroup(v, Pow10(6 - n), Pow10(n));
    Remainder(v * 1_000_000, Pow10(n), v * Pow10(6 - n), 0);
  }

  lemma SixZeros()
    ensures Pow10(6) == 1_000_000 && Pow10(2) == 100
  {
    assert Pow10(3) == 1000;
    PowAdd(3, 3);
  }

  /** 1.2345tr is read as 1 234 500 dong; as the comment has it, it would be 12 345 million. */
  lemma CommentIsWrong()
    ensures Parse("1.2345tr", "") == Amount(1_234_500, "VND")
  {
    hide Parse;
    assert "1.2345tr" == "1" + "." + "2345" + "tr";
    Fractions("1", "2345");
    assert "1" + "2345" == "12345";
    Digits12345();
    SixZeros();
  }

  lemma Digits12345()
    ensures AllDigits("12345") && Val("12345") == 12345
  {
    assert Val("1") == 1 by { assert "1"[..0] == ""; }
    assert Val("12") == 12 by { assert "12"[..1] == "1"; }
    assert Val("123") == 123 by { assert "123"[..2] == "12"; }
    assert Val("1234") == 1234 by { assert "1234"[..3] == "123"; }
    assert "12345"[..4] == "1234";
  }

  /** The guard on the product before the division also rejects amounts that do fit: 99999999999.9999tr is
      99999999999999900 dong. */
  lemma FittingAmountRejected()
    ensures Parse("99999999999.9999tr", "") == Invalid
    ensures AllDigits("999999999999999") && Val("999999999999999") * 100 == 99_999_999_999_999_900 <= MAX
  {
    hide Parse;
    assert "99999999999.9999tr" == "99999999999" + "." + "9999" + "tr";
    Fractions("99999999999", "9999");
    assert "99999999999" + "9999" == "999999999999999";
    AllNines("999999999999999");
    FifteenZeros();
  }

  lemma {:induction false} AllNines(s: string)
    requires forall i :: 0 <= i < |s| ==> s[i] == '9'
    ensures AllDigits(s) && Val(s) == Pow10(|s|) - 1
  {
    if s != "" { AllNines(s[..|s| - 1]); }
  }
}
