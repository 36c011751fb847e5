/** Strings as sequences of Unicode characters, with the operations of Go's strings package that parsing uses. */
module Text {

  /** unicode.IsSpace. */
  predicate IsSpace(c: char) {
    || '\t' <= c <= '\r' || c == ' ' || c == '\U{0085}' || c == '\U{00A0}' || c == '\U{1680}'
    || '\U{2000}' <= c <= '\U{200A}' || c == '\U{2028}' || c == '\U{2029}' || c == '\U{202F}'
    || c == '\U{205F}' || c == '\U{3000}'
  }

  function TrimLeft(s: string): string {
    if s != "" && IsSpace(s[0]) then TrimLeft(s[1..]) else s
  }

  function TrimRight(s: string): string {
    if s != "" && IsSpace(s[|s| - 1]) then TrimRight(s[..|s| - 1]) else s
  }

  function TrimSpace(s: string): string {
    TrimRight(TrimLeft(s))
  }

  predicate OccursAt(s: string, t: string, i: int) {
    0 <= i <= |s| - |t| && s[i..i + |t|] == t
  }

  predicate Contains(s: string, t: string) {
    exists i :: 0 <= i <= |s| && OccursAt(s, t, i)
  }

  predicate HasSuffix(s: string, t: string) {
    |t| <= |s| && s[|s| - |t|..] == t
  }

  /** strings.ReplaceAll. */
  function Replace(s: string, t: string, u: string): string
    requires t != ""
  {
    if |s| < |t| then s
    else if s[..|t|] == t then u + Replace(s[|t|..], t, u)
    else [s[0]] + Replace(s[1..], t, u)
  }

  function Remove(s: string, t: string): string
    requires t != ""
  {
    Replace(s, t, "")
  }

  /** The bytes a character takes in UTF-8. */
  function Width(c: char): nat {
    if c < '\U{0080}' then 1 else if c < '\U{0800}' then 2 else if c < '\U{10000}' then 3 else 4
  }

  function Bytes(s: string): nat {
    if s == "" then 0 else Bytes(s[..|s| - 1]) + Width(s[|s| - 1])
  }

  /** s[:len(s)-w] on bytes. A character cut in two leaves bytes that read as the replacement character. */
  function DropBytes(s: string, w: nat): string
    decreases |s|
  {
    if w == 0 || s == "" then s else
    var v := Width(s[|s| - 1]);
    if v <= w then DropBytes(s[..|s| - 1], w - v)
    else s[..|s| - 1] + seq(v - w, _ => '\U{FFFD}')
  }

  // ---------------------------------------------------------------- words

  function WordEnd(s: string): (n: nat)
    ensures n <= |s| && (forall i :: 0 <= i < n ==> !IsSpace(s[i])) && (n < |s| ==> IsSpace(s[n]))
  {
    if s == "" || IsSpace(s[0]) then 0 else 1 + WordEnd(s[1..])
  }

  lemma TrimLeftBound(s: string)
    ensures |TrimLeft(s)| <= |s| && (TrimLeft(s) != "" ==> !IsSpace(TrimLeft(s)[0]))
  {
  }

  /** strings.Fields: the maximal runs without white space. */
  function Fields(s: string): seq<string>
    decreases |s|
  {
    TrimLeftBound(s);
    var t := TrimLeft(s);
    if t == "" then [] else
    var n := WordEnd(t);
    [t[..n]] + Fields(t[n..])
  }

  predicate NoSpace(w: string) {
    forall i :: 0 <= i < |w| ==> !IsSpace(w[i])
  }

  lemma {:induction false} WordEndOf(w: string, tail: string)
    requires NoSpace(w) && (tail != "" ==> IsSpace(tail[0]))
    ensures WordEnd(w + tail) == |w|
  {
    if w == "" {
      assert w + tail == tail;
    } else {
      assert (w + tail)[0] == w[0] && (w + tail)[1..] == w[1..] + tail;
      WordEndOf(w[1..], tail);
    }
  }

  lemma FieldsOne(w: string)
    requires w != "" && NoSpace(w)
    ensures Fields(w) == [w]
  {
    WordEndOf(w, "");
    assert w + "" == w && TrimLeft(w) == w && w[..|w|] == w && w[|w|..] == "";
  }

  lemma FieldsCons(w: string, c: char, rest: string)
    requires w != "" && NoSpace(w) && IsSpace(c)
    ensures Fields(w + [c] + rest) == [w] + Fields(rest)
  {
    var s, tail := w + [c] + rest, [c] + rest;
    assert s == w + tail && s[0] == w[0];
    WordEndOf(w, tail);
    assert TrimLeft(s) == s && s[..|w|] == w && s[|w|..] == tail;
    SkipSpace(c, rest);
  }

  lemma SkipSpace(c: char, rest: string)
    requires IsSpace(c)
    ensures Fields([c] + rest) == Fields(rest)
  {
    assert ([c] + rest)[1..] == rest;
    assert TrimLeft([c] + rest) == TrimLeft(rest);
  }

  /** strings.Join with a space. */
  function Join(words: seq<string>): string {
    if words == [] then "" else if |words| == 1 then words[0] else words[0] + " " + Join(words[1..])
  }

  // ---------------------------------------------------------------- letter case

  /** unicode.ToLower for ASCII, the Vietnamese letters and every character that lowers to one of them. */
  function LowerChar(c: char): char {
    if 'A' <= c <= 'Z' || ('\U{00C0}' <= c <= '\U{00DE}' && c != '\U{00D7}') then (c as int + 32) as char
    else if c == '\U{0130}' then 'i'
    else if c == '\U{212A}' then 'k'
    else if c == '\U{01AF}' then '\U{01B0}'
    else if c == '\U{0102}' || c == '\U{0110}' || c == '\U{0128}' || c == '\U{0168}' || c == '\U{01A0}'
         || ('\U{1EA0}' <= c <= '\U{1EF9}' && c as int % 2 == 0) then (c as int + 1) as char
    else c
  }

  /** unicode.ToUpper for the same letters. */
  function UpperChar(c: char): char {
    if 'a' <= c <= 'z' || ('\U{00E0}' <= c <= '\U{00FE}' && c != '\U{00F7}') then (c as int - 32) as char
    else if c == '\U{0131}' then 'I'
    else if c == '\U{017F}' then 'S'
    else if c == '\U{01B0}' then '\U{01AF}'
    else if c == '\U{0103}' || c == '\U{0111}' || c == '\U{0129}' || c == '\U{0169}' || c == '\U{01A1}'
         || ('\U{1EA0}' <= c <= '\U{1EF9}' && c as int % 2 == 1) then (c as int - 1) as char
    else c
  }

  function Lower(s: string): (r: string)
    ensures |r| == |s| && forall i :: 0 <= i < |s| ==> r[i] == LowerChar(s[i])
  {
    seq(|s|, i requires 0 <= i < |s| => LowerChar(s[i]))
  }

  function Upper(s: string): (r: string)
    ensures |r| == |s| && forall i :: 0 <= i < |s| ==> r[i] == UpperChar(s[i])
  {
    seq(|s|, i requires 0 <= i < |s| => UpperChar(s[i]))
  }

  // ---------------------------------------------------------------- digits

  predicate IsDigit(c: char) {
    '0' <= c <= '9'
  }

  predicate AllDigits(s: string) {
    forall i :: 0 <= i < |s| ==> IsDigit(s[i])
  }

  function Pow10(n: nat): (p: nat)
    ensures p >= 1
  {
    if n == 0 then 1 else 10 * Pow10(n - 1)
  }

  function DigitChar(d: nat): (c: char)
    requires d < 10
    ensures IsDigit(c)
  {
    '0' + d as char
  }

  /** strconv.ParseInt of a digit string, without its bound. */
  function Val(s: string): nat
    requires AllDigits(s)
  {
    if s == "" then 0 else 10 * Val(s[..|s| - 1]) + (s[|s| - 1] - '0') as nat
  }

  /** The decimal digits of a number. */
  function Dec(n: nat): (s: string)
    ensures AllDigits(s) && s != ""
  {
    if n < 10 then [DigitChar(n)] else Dec(n / 10) + [DigitChar(n % 10)]
  }

  /** At least `w` decimal digits, zero-padded. */
  function Pad(n: nat, w: nat): (s: string)
    ensures AllDigits(s) && |s| >= w
    decreases w
  {
    if w == 0 then (if n == 0 then "" else Dec(n)) else Pad(n / 10, w - 1) + [DigitChar(n % 10)]
  }

  lemma {:induction false} PadValue(n: nat, w: nat)
    ensures Val(Pad(n, w)) == n
    decreases w
  {
    if w == 0 {
      if n > 0 { ValDec(n); }
    } else {
      PadValue(n / 10, w - 1);
      var s := Pad(n, w);
      assert s[..|s| - 1] == Pad(n / 10, w - 1);
    }
  }

  lemma {:induction false} PadLength(n: nat, w: nat)
    ensures |Pad(n, w)| == w <==> n < Pow10(w)
    decreases w
  {
    if w > 0 {
      PadLength(n / 10, w - 1);
      assert n < 10 * Pow10(w - 1) <==> n / 10 < Pow10(w - 1);
    }
  }

  lemma {:induction false} ValDec(n: nat)
    ensures Val(Dec(n)) == n
  {
    if n >= 10 {
      ValDec(n / 10);
      var s := Dec(n);
      assert s[..|s| - 1] == Dec(n / 10);
    }
  }

  lemma {:induction false} DecLength(n: nat, k: nat)
    requires k >= 1
    ensures |Dec(n)| <= k <==> n < Pow10(k)
  {
    assert Pow10(1) == 10 * Pow10(0) == 10;
    if n >= 10 && k > 1 {
      DecLength(n / 10, k - 1);
      assert n < 10 * Pow10(k - 1) <==> n / 10 < Pow10(k - 1);
    } else if n < 10 && k > 1 {
      PowMonotone(1, k);
    }
  }

  lemma {:induction false} PowMonotone(a: nat, b: nat)
    requires a <= b
    ensures Pow10(a) <= Pow10(b)
  {
    if a < b { PowMonotone(a, b - 1); }
  }

  lemma TenTimes(x: nat, y: nat)
    ensures x * (10 * y) == 10 * (x * y)
  {
  }

  lemma {:induction false} PowAdd(a: nat, b: nat)
    ensures Pow10(a + b) == Pow10(a) * Pow10(b)
  {
    if a > 0 {
      PowAdd(a - 1, b);
      TenTimes(Pow10(b), Pow10(a - 1));
    }
  }

  lemma FifteenZeros()
    ensures Pow10(15) == 1_000_000_000_000_000
  {
    assert Pow10(3) == 1000;
    PowAdd(3, 3);
    PowAdd(6, 6);
    PowAdd(12, 3);
  }

  lemma {:induction false} ValConcat(a: string, b: string)
    requires AllDigits(a) && AllDigits(b)
    ensures AllDigits(a + b) && Val(a + b) == Val(a) * Pow10(|b|) + Val(b)
    decreases |b|
  {
    if b == "" {
      assert a + b == a;
    } else {
      var b' := b[..|b| - 1];
      ValConcat(a, b');
      assert (a + b)[..|a + b| - 1] == a + b' && (a + b)[|a + b| - 1] == b[|b| - 1];
      TenTimes(Val(a), Pow10(|b'|));
      assert Pow10(|b|) == 10 * Pow10(|b'|);
    }
  }

  lemma {:induction false} ValBound(s: string)
    requires AllDigits(s)
    ensures Val(s) < Pow10(|s|)
    decreases |s|
  {
    if s != "" { ValBound(s[..|s| - 1]); }
  }

  // ---------------------------------------------------------------- trimming and removal

  lemma TrimNothing(s: string)
    requires s != "" ==> !IsSpace(s[0]) && !IsSpace(s[|s| - 1])
    ensures TrimSpace(s) == s
  {
  }

  /** A token with a character that does not occur is not there to be replaced. */
  lemma {:induction false} ReplaceAbsent(s: string, t: string, u: string, k: nat)
    requires k < |t| && t[k] !in s
    ensures Replace(s, t, u) == s
    decreases |s|
  {
    if |s| >= |t| {
      assert s[..|t|][k] == s[k] != t[k];
      ReplaceAbsent(s[1..], t, u, k);
      assert [s[0]] + s[1..] == s;
    }
  }

  /** A token at the end goes, when its first character occurs nowhere else. */
  lemma {:induction false} RemoveEnd(a: string, t: string)
    requires t != "" && t[0] !in a
    ensures Remove(a + t, t) == a
    decreases |a|
  {
    var s := a + t;
    if a == "" {
      assert s == t && s[..|t|] == t && s[|t|..] == "";
      assert Replace("", t, "") == "" && "" + "" == "";
      assert Replace(s, t, "") == "" + Replace(s[|t|..], t, "");
    } else {
      assert s[0] == a[0] != t[0];
      assert s[1..] == a[1..] + t;
      RemoveEnd(a[1..], t);
      assert [a[0]] + a[1..] == a;
    }
  }

  lemma ContainsEnd(a: string, t: string)
    ensures Contains(a + t, t)
  {
    assert OccursAt(a + t, t, |a|);
  }

  lemma NotContains(s: string, t: string, k: nat)
    requires k < |t| && t[k] !in s
    ensures !Contains(s, t)
  {
    forall i | 0 <= i <= |s| - |t| ensures !OccursAt(s, t, i) {
      assert s[i..i + |t|][k] == s[i + k];
    }
  }

  lemma TrimRightOne(a: string, c: char)
    requires IsSpace(c) && (a != "" ==> !IsSpace(a[|a| - 1]))
    ensures TrimRight(a + [c]) == a
  {
    assert (a + [c])[..|a|] == a;
  }
}
