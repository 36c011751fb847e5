/** Matching keys for merchant names. */
module Merchant {
  import opened Text

  /** A Vietnamese letter folds to its ASCII base. */
  function FoldChar(c: char): char {
    if c in "àáạảãâầấậẩẫăằắặẳẵ" then 'a'
    else if c in "èéẹẻẽêềếệểễ" then 'e'
    else if c in "ìíịỉĩ" then 'i'
    else if c in "òóọỏõôồốộổỗơờớợởỡ" then 'o'
    else if c in "ùúụủũưừứựửữ" then 'u'
    else if c in "ỳýỵỷỹ" then 'y'
    else if c == 'đ' then 'd'
    else c
  }

  predicate IsKeyChar(c: char) {
    'a' <= c <= 'z' || '0' <= c <= '9'
  }

  /** Lowered, folded, dots dropped and everything else a space. */
  function Letters(s: string): string {
    if s == "" then "" else
    var c := FoldChar(LowerChar(s[|s| - 1]));
    Letters(s[..|s| - 1]) + (if IsKeyChar(c) then [c] else if c == '.' then "" else " ")
  }

  function Clean(raw: string): string {
    Join(Fields(Letters(TrimSpace(raw))))
  }

  const FORMS: seq<string> := ["cty tnhh", "cong ty tnhh", "cong ty cp", "co ltd", "jsc", "llc"]

  predicate HasPrefix(s: string, t: string) {
    |t| <= |s| && s[..|t|] == t
  }

  /** One form, tried at the front, at the back and as the whole key, in that order. */
  function StripForm(key: string, form: string): (r: string)
    ensures |r| <= |key| && (|r| == |key| ==> r == key)
  {
    var a := if HasPrefix(key, form + " ") then key[|form| + 1..] else key;
    var b := if HasSuffix(a, " " + form) then a[..|a| - |form| - 1] else a;
    if b == form then "" else b
  }

  function Pass(key: string, i: nat): (r: string)
    requires i <= |FORMS|
    ensures |r| <= |key| && (|r| == |key| ==> r == key)
  {
    if i == 0 then key else StripForm(Pass(key, i - 1), FORMS[i - 1])
  }

  function Strip(key: string): string
    decreases |key|
  {
    var r := Pass(key, |FORMS|);
    if key == "" || r == key then key else Strip(r)
  }

  function Key(raw: string): string {
    Strip(Clean(raw))
  }

  /** The two nested loops. They end because every strip shortens the key. */
  method NormaliseMerchant(raw: string) returns (display: string, key: string)
    ensures display == TrimSpace(raw) && key == Key(raw)
  {
    hide Clean, Pass, StripForm;
    display := TrimSpace(raw);
    key := Clean(raw);
    var stripped := true;
    while stripped && key != ""
      invariant Strip(key) == Key(raw)
      invariant !stripped ==> key == Key(raw)
      decreases stripped, |key|
    {
      stripped := false;
      ghost var before := key;
      PassZero(before);
      for i := 0 to |FORMS|
        invariant key == Pass(before, i) && (stripped <==> key != before)
        invariant |key| <= |before|
      {
        var form := FORMS[i];
        PassNext(before, i);
        assert form != "";
        var changed;
        key, changed := StripOne(key, form);
        stripped := stripped || changed;
      }
    }
  }

  method StripOne(key: string, form: string) returns (rest: string, stripped: bool)
    requires form != ""
    ensures rest == StripForm(key, form) && (stripped <==> rest != key)
  {
    rest, stripped := key, false;
    if HasPrefix(rest, form + " ") { rest, stripped := rest[|form| + 1..], true; }
    if HasSuffix(rest, " " + form) { rest, stripped := rest[..|rest| - |form| - 1], true; }
    if rest == form { rest, stripped := "", true; }
  }

  lemma PassZero(key: string)
    ensures Pass(key, 0) == key
  {
  }

  lemma PassNext(key: string, i: nat)
    requires i < |FORMS|
    ensures Pass(key, i + 1) == StripForm(Pass(key, i), FORMS[i])
  {
  }

  // ---------------------------------------------------------------- letters

  predicate Among(c: char, first: char, last: char) {
    first <= c <= last && c as int % 2 == 1
  }

  /** The folding table by code point: the Latin-1 letters with an accent, the five letters with a horn, breve or tilde,
      d with a stroke, and in the Vietnamese block every second character, in the order of their base. */
  lemma FoldByCodePoint(c: char)
    ensures FoldChar(c)
            == if '\U{E0}' <= c <= '\U{E3}' || c == '\U{103}' || Among(c, '\U{1EA1}', '\U{1EB7}') then 'a'
               else if '\U{E8}' <= c <= '\U{EA}' || Among(c, '\U{1EB9}', '\U{1EC7}') then 'e'
               else if '\U{EC}' <= c <= '\U{ED}' || c == '\U{129}' || Among(c, '\U{1EC9}', '\U{1ECB}') then 'i'
               else if '\U{F2}' <= c <= '\U{F5}' || c == '\U{1A1}' || Among(c, '\U{1ECD}', '\U{1EE3}') then 'o'
               else if '\U{F9}' <= c <= '\U{FA}' || c == '\U{169}' || c == '\U{1B0}' || Among(c, '\U{1EE5}', '\U{1EF1}')
               then 'u'
               else if c == '\U{FD}' || Among(c, '\U{1EF3}', '\U{1EF9}') then 'y'
               else if c == '\U{111}' then 'd'
               else c
  {
    AsAndEs(c);
    Os(c);
    Us(c);
  }

  lemma AsAndEs(c: char)
    ensures c in "àáạảãâầấậẩẫăằắặẳẵ" <==>
            '\U{E0}' <= c <= '\U{E3}' || c == '\U{103}' || Among(c, '\U{1EA1}', '\U{1EB7}')
    ensures c in "èéẹẻẽêềếệểễ" <==> '\U{E8}' <= c <= '\U{EA}' || Among(c, '\U{1EB9}', '\U{1EC7}')
  {
  }

  lemma Os(c: char)
    ensures c in "òóọỏõôồốộổỗơờớợởỡ" <==>
            '\U{F2}' <= c <= '\U{F5}' || c == '\U{1A1}' || Among(c, '\U{1ECD}', '\U{1EE3}')
  {
  }

  lemma Us(c: char)
    ensures c in "ùúụủũưừứựửữ" <==>
            '\U{F9}' <= c <= '\U{FA}' || c == '\U{169}' || c == '\U{1B0}' || Among(c, '\U{1EE5}', '\U{1EF1}')
  {
  }

  /** A name is taken letter by letter: plain letters and digits stay, capitals are lowered, a dot goes and any other
      ASCII character is a space. What is not ASCII is folded first. */
  lemma LetterByLetter(s: string, c: char)
    ensures Letters("") == ""
    ensures Letters(s + [c])
            == Letters(s) + (if 'a' <= c <= 'z' || '0' <= c <= '9' then [c]
                             else if 'A' <= c <= 'Z' then [(c as int + 32) as char]
                             else if c == '.' then ""
                             else if c < '\U{80}' then " "
                             else
                               var f := FoldChar(LowerChar(c));
                               if 'a' <= f <= 'z' then [f] else " ")
  {
    assert (s + [c])[..|s|] == s;
    if c < '\U{80}' { FoldStays(LowerChar(c)); } else { FoldsToLetter(c); }
  }

  /** No character beyond ASCII folds to a digit or a dot. */
  lemma FoldsToLetter(c: char)
    requires c >= '\U{80}'
    ensures var f := FoldChar(LowerChar(c)); f != '.' && !('0' <= f <= '9')
  {
  }

  // ---------------------------------------------------------------- what a key is

  /** Words of letters and digits with single spaces between them. */
  predicate SingleSpaced(k: string) {
    && (forall i :: 0 <= i < |k| ==> IsKeyChar(k[i]) || k[i] == ' ')
    && (k != "" ==> k[0] != ' ' && k[|k| - 1] != ' ')
    && (forall i :: 0 < i < |k| && k[i - 1] == ' ' ==> k[i] != ' ')
  }

  predicate Bare(k: string, form: string) {
    !HasPrefix(k, form + " ") && !HasSuffix(k, " " + form) && k != form
  }

  predicate IsKey(k: string) {
    SingleSpaced(k) && forall i :: 0 <= i < |FORMS| ==> Bare(k, FORMS[i])
  }

  lemma {:induction false} LettersAreKeyChars(s: string)
    ensures forall i :: 0 <= i < |Letters(s)| ==> IsKeyChar(Letters(s)[i]) || Letters(s)[i] == ' '
  {
    if s != "" { LettersAreKeyChars(s[..|s| - 1]); }
  }

  predicate KeyText(s: string) {
    forall i :: 0 <= i < |s| ==> IsKeyChar(s[i]) || s[i] == ' '
  }

  lemma {:induction false} TrimLeftSuffix(s: string)
    ensures exists k :: 0 <= k <= |s| && TrimLeft(s) == s[k..]
  {
    if s != "" && IsSpace(s[0]) {
      TrimLeftSuffix(s[1..]);
      var k :| 0 <= k <= |s[1..]| && TrimLeft(s[1..]) == s[1..][k..];
      assert s[1..][k..] == s[k + 1..];
    } else {
      assert s == s[0..];
    }
  }

  predicate IsWord(w: string) {
    w != "" && forall i :: 0 <= i < |w| ==> IsKeyChar(w[i])
  }

  lemma {:induction false} FieldsAreWords(s: string)
    requires KeyText(s)
    ensures forall i :: 0 <= i < |Fields(s)| ==> IsWord(Fields(s)[i])
    decreases |s|
  {
    TrimLeftBound(s);
    TrimLeftSuffix(s);
    var t := TrimLeft(s);
    if t != "" {
      var n := WordEnd(t);
      assert n > 0;
      FieldsAreWords(t[n..]);
      assert IsWord(t[..n]);
    }
  }

  lemma {:induction false} JoinIsSingleSpaced(words: seq<string>)
    requires forall i :: 0 <= i < |words| ==> IsWord(words[i])
    ensures SingleSpaced(Join(words)) && (words != [] ==> Join(words) != "")
  {
    if |words| > 1 {
      var w, rest := words[0], Join(words[1..]);
      JoinIsSingleSpaced(words[1..]);
      var k := w + " " + rest;
      assert k[0] == w[0] && k[|k| - 1] == rest[|rest| - 1];
      assert forall i :: 0 <= i < |rest| ==> k[|w| + 1 + i] == rest[i];
      forall i | 0 < i < |k| && k[i - 1] == ' ' ensures k[i] != ' ' {
        if i > |w| + 1 { assert k[i] == rest[i - |w| - 1] && k[i - 1] == rest[i - |w| - 2]; }
      }
    }
  }

  lemma CleanIsSingleSpaced(raw: string)
    ensures SingleSpaced(Clean(raw))
  {
    hide Fields, Join, Letters, TrimSpace;
    LettersAreKeyChars(TrimSpace(raw));
    FieldsAreWords(Letters(TrimSpace(raw)));
    JoinIsSingleSpaced(Fields(Letters(TrimSpace(raw))));
  }

  lemma AfterSpace(k: string, j: nat)
    requires SingleSpaced(k) && 0 < j <= |k| && k[j - 1] == ' '
    ensures SingleSpaced(k[j..]) && j < |k|
  {
    var r := k[j..];
    assert forall i :: 0 <= i < |r| ==> r[i] == k[i + j];
    forall i | 0 < i < |r| && r[i - 1] == ' ' ensures r[i] != ' ' {
      assert k[i + j - 1] == ' ';
    }
  }

  lemma BeforeSpace(k: string, j: nat)
    requires SingleSpaced(k) && j < |k| && k[j] == ' '
    ensures SingleSpaced(k[..j]) && 0 < j
  {
    assert k[j - 1] != ' ';
  }

  lemma StripFormKeeps(key: string, form: string)
    requires SingleSpaced(key) && form != ""
    ensures SingleSpaced(StripForm(key, form))
  {
    hide SingleSpaced;
    SpacedEmpty();
    var n := |form|;
    if HasPrefix(key, form + " ") {
      assert key[n] == (form + " ")[n] == ' ';
      AfterSpace(key, n + 1);
    }
    var a := if HasPrefix(key, form + " ") then key[n + 1..] else key;
    if HasSuffix(a, " " + form) {
      assert a[|a| - n - 1] == (" " + form)[0] == ' ';
      BeforeSpace(a, |a| - n - 1);
    }
  }

  lemma SpacedEmpty()
    ensures SingleSpaced("")
  {
  }

  lemma {:induction false} PassKeeps(key: string, i: nat)
    requires SingleSpaced(key) && i <= |FORMS|
    ensures SingleSpaced(Pass(key, i))
  {
    hide SingleSpaced, StripForm;
    if i > 0 {
      PassKeeps(key, i - 1);
      assert FORMS[i - 1] != "";
      StripFormKeeps(Pass(key, i - 1), FORMS[i - 1]);
    }
  }

  lemma {:induction false} PassUnchanged(key: string, n: nat)
    requires n <= |FORMS| && Pass(key, n) == key
    ensures forall i :: 0 <= i < n ==> Bare(key, FORMS[i])
  {
    if n > 0 {
      assert Pass(key, n - 1) == key;
      PassUnchanged(key, n - 1);
    }
  }

  lemma {:induction false} StripReachesKey(key: string)
    requires SingleSpaced(key)
    ensures IsKey(Strip(key))
    decreases |key|
  {
    hide SingleSpaced, StripForm, Pass;
    var r := Pass(key, |FORMS|);
    if key == "" {
      EmptyIsBare();
    } else if r == key {
      PassUnchanged(key, |FORMS|);
    } else {
      PassKeeps(key, |FORMS|);
      StripReachesKey(r);
    }
  }

  lemma EmptyIsBare()
    ensures forall i :: 0 <= i < |FORMS| ==> Bare("", FORMS[i])
  {
  }

  // ---------------------------------------------------------------- main results

  /** One legal form taken off one end. */
  ghost predicate TakesOff(a: string, b: string, form: string) {
    a == form + " " + b || a == b + " " + form || (a == form && b == "")
  }

  /** `b` is what is left of `a` after taking off legal forms, one at a time. */
  ghost predicate Strips(a: string, b: string)
    decreases |a|
  {
    a == b || exists c, form :: |c| < |a| && form in FORMS && TakesOff(a, c, form) && Strips(c, b)
  }

  lemma StripsThen(a: string, c: string, b: string, form: string)
    requires form in FORMS && TakesOff(a, c, form) && Strips(c, b)
    ensures Strips(a, b)
  {
    assert form != "";
    assert |c| < |a|;
  }

  lemma Front(a: string, form: string)
    requires HasPrefix(a, form + " ")
    ensures TakesOff(a, a[|form| + 1..], form)
  {
    assert a == (form + " ") + a[|form| + 1..];
  }

  lemma Back(a: string, form: string)
    requires HasSuffix(a, " " + form)
    ensures TakesOff(a, a[..|a| - |form| - 1], form)
  {
    assert a == a[..|a| - |form| - 1] + (" " + form);
    assert a == a[..|a| - |form| - 1] + " " + form;
  }

  lemma FormStrips(a: string, form: string, b: string)
    requires form in FORMS && Strips(StripForm(a, form), b)
    ensures Strips(a, b)
  {
    hide Strips, TakesOff;
    var c := if HasPrefix(a, form + " ") then a[|form| + 1..] else a;
    BackStrips(c, form, b);
    if HasPrefix(a, form + " ") {
      Front(a, form);
      StripsThen(a, c, b, form);
    }
  }

  lemma BackStrips(c: string, form: string, b: string)
    requires form in FORMS
    requires var d := if HasSuffix(c, " " + form) then c[..|c| - |form| - 1] else c;
             Strips(if d == form then "" else d, b)
    ensures Strips(c, b)
  {
    hide Strips, TakesOff;
    var d := if HasSuffix(c, " " + form) then c[..|c| - |form| - 1] else c;
    if d == form {
      Whole(form);
      StripsThen(d, "", b, form);
    }
    if HasSuffix(c, " " + form) {
      Back(c, form);
      StripsThen(c, d, b, form);
    }
  }

  lemma Whole(form: string)
    ensures TakesOff(form, "", form)
  {
  }

  lemma {:induction false} PassStrips(a: string, n: nat, b: string)
    requires n <= |FORMS| && Strips(Pass(a, n), b)
    ensures Strips(a, b)
  {
    hide Strips, StripForm;
    if n > 0 {
      FormStrips(Pass(a, n - 1), FORMS[n - 1], b);
      PassStrips(a, n - 1, b);
    }
  }

  lemma {:induction false} StripStrips(a: string)
    ensures Strips(a, Strip(a))
    decreases |a|
  {
    hide Pass;
    var r := Pass(a, |FORMS|);
    if a != "" && r != a {
      StripStrips(r);
      PassStrips(a, |FORMS|, Strip(r));
    }
  }

  /** Nothing but legal forms is lost between the cleaned name and its key. */
  lemma OnlyFormsAreLost(raw: string)
    ensures Strips(Clean(raw), Key(raw))
    ensures forall form :: form in FORMS ==>
              form in ["cty tnhh", "cong ty tnhh", "cong ty cp", "co ltd", "jsc", "llc"]
  {
    StripStrips(Clean(raw));
  }

  /** Every key is single-spaced words without a legal form at either end. */
  lemma KeysAreNormal(raw: string)
    ensures IsKey(Key(raw))
    ensures forall form :: form in ["cty tnhh", "cong ty tnhh", "cong ty cp", "co ltd", "jsc", "llc"] ==>
              Bare(Key(raw), form)
  {
    hide Clean, Strip, SingleSpaced, Bare;
    CleanIsSingleSpaced(raw);
    StripReachesKey(Clean(raw));
    forall form | form in ["cty tnhh", "cong ty tnhh", "cong ty cp", "co ltd", "jsc", "llc"]
      ensures Bare(Key(raw), form)
    {
      assert form in FORMS;
      var i :| 0 <= i < |FORMS| && FORMS[i] == form;
    }
  }

  lemma {:induction false} LettersOfKey(k: string)
    requires KeyText(k)
    ensures Letters(k) == k
  {
    if k != "" {
      LettersOfKey(k[..|k| - 1]);
      KeyCharStays(k[|k| - 1]);
      assert k[..|k| - 1] + [k[|k| - 1]] == k;
    }
  }

  lemma KeyCharStays(c: char)
    requires IsKeyChar(c) || c == ' '
    ensures FoldChar(LowerChar(c)) == c
  {
    assert LowerChar(c) == c;
    FoldStays(c);
  }

  lemma NotAscii(letters: string, c: char)
    requires c < '\U{0080}' && forall i :: 0 <= i < |letters| ==> letters[i] >= '\U{0080}'
    ensures c !in letters
  {
  }

  /** No ASCII character is in the folding table. */
  lemma FoldStays(c: char)
    requires c < '\U{0080}'
    ensures FoldChar(c) == c
  {
    NotAscii("àáạảãâầấậẩẫăằắặẳẵ", c);
    NotAscii("èéẹẻẽêềếệểễ", c);
    NotAscii("ìíịỉĩ", c);
    NotAscii("òóọỏõôồốộổỗơờớợởỡ", c);
    NotAscii("ùúụủũưừứựửữ", c);
    NotAscii("ỳýỵỷỹ", c);
  }

  lemma {:induction false} WordsOfKey(k: string)
    requires SingleSpaced(k)
    ensures Join(Fields(k)) == k && (k != "" ==> Fields(k) != [])
    decreases |k|
  {
    hide Fields, SingleSpaced;
    if k == "" {
      NoFields();
    } else {
      var n := FirstSpace(k);
      var w := k[..n];
      if n == |k| {
        FieldsOne(k);
      } else {
        AfterSpace(k, n + 1);
        WordsOfKey(k[n + 1..]);
        FieldsCons(w, ' ', k[n + 1..]);
        assert k == w + [' '] + k[n + 1..];
      }
    }
  }

  lemma NoFields()
    ensures Fields("") == []
  {
  }

  lemma FirstSpace(k: string) returns (n: nat)
    requires SingleSpaced(k) && k != ""
    ensures 0 < n <= |k| && NoSpace(k[..n]) && (n < |k| ==> k[n] == ' ')
  {
    n := WordEnd(k);
  }

  /** A key is its own key. */
  lemma KeyIsFixedPoint(raw: string)
    ensures Key(Key(raw)) == Key(raw)
  {
    KeysAreNormal(raw);
    NormalIsFixed(Key(raw));
  }

  lemma NormalIsFixed(k: string)
    requires IsKey(k)
    ensures Key(k) == k
  {
    hide Letters, Fields, Join, Pass;
    TrimNothing(k);
    LettersOfKey(k);
    WordsOfKey(k);
    BareIsUnchanged(k, |FORMS|);
  }

  lemma {:induction false} BareIsUnchanged(k: string, n: nat)
    requires n <= |FORMS| && forall i :: 0 <= i < n ==> Bare(k, FORMS[i])
    ensures Pass(k, n) == k
  {
    if n > 0 { BareIsUnchanged(k, n - 1); }
  }
}
