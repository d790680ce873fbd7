/** The text Python produces from a decoded JSON value with `str(...)` and with
    an f-string, as used for the CDP error message and for generated ids. */
module PyText {
  import opened Wrappers
  import opened Json

  predicate IsDigit(ch: char) {
    '0' <= ch <= '9'
  }

  predicate AllDigits(s: string) {
    forall i :: 0 <= i < |s| ==> IsDigit(s[i])
  }

  function DigitChar(d: nat): (ch: char)
    requires d < 10
    ensures IsDigit(ch) && ch as int - '0' as int == d
  {
    ['0', '1', '2', '3', '4', '5', '6', '7', '8', '9'][d]
  }

  /** Decimal notation of a natural number, no leading zeros: `str(n)`. */
  function Decimal(n: nat): string {
    if n < 10 then [DigitChar(n)] else Decimal(n / 10) + [DigitChar(n % 10)]
  }

  /** The number a string of decimal digits denotes. */
  function DigitsValue(s: string): int {
    if |s| == 0 then 0
    else DigitsValue(s[..|s| - 1]) * 10 + (s[|s| - 1] as int - '0' as int)
  }

  /** A decimal rendering is a non-empty string of digits, with no leading
      zero unless the number is zero. */
  lemma {:induction false} DecimalIsDigits(n: nat)
    ensures 0 < |Decimal(n)| && AllDigits(Decimal(n))
    ensures n > 0 ==> Decimal(n)[0] != '0'
  {
    if n >= 10 {
      DecimalIsDigits(n / 10);
      assert Decimal(n)[0] == Decimal(n / 10)[0];
    }
  }

  /** Reading back a decimal rendering gives the number rendered. */
  lemma {:induction false} DecimalRoundTrip(n: nat)
    ensures DigitsValue(Decimal(n)) == n
  {
    if n >= 10 {
      var s := Decimal(n);
      assert s[..|s| - 1] == Decimal(n / 10);
      DecimalRoundTrip(n / 10);
    }
  }

  /** Distinct numbers have distinct decimal renderings. */
  lemma DecimalInjective(a: nat, b: nat)
    ensures Decimal(a) == Decimal(b) <==> a == b
  {
    if Decimal(a) == Decimal(b) {
      DecimalRoundTrip(a);
      DecimalRoundTrip(b);
    }
  }

  /** `str(i)` for a Python int, with the sign of a negative number. */
  function IntText(i: int): string {
    if i < 0 then "-" + Decimal(-i) else Decimal(i)
  }

  /** The number a decimal string with an optional leading minus denotes. */
  function SignedValue(t: string): int {
    if |t| > 0 && t[0] == '-' then -DigitsValue(t[1..]) else DigitsValue(t)
  }

  /** `str` of a number, read back, is that number. */
  lemma IntTextRoundTrip(i: int)
    ensures SignedValue(IntText(i)) == i
  {
    if i < 0 {
      NegativeTextRoundTrip(-i);
    } else {
      NaturalTextRoundTrip(i);
    }
  }

  lemma NegativeTextRoundTrip(n: nat)
    requires n > 0
    ensures SignedValue(IntText(-(n as int))) == -(n as int)
  {
    SignedValueNegative(Decimal(n));
    DecimalRoundTrip(n);
  }

  lemma NaturalTextRoundTrip(n: nat)
    ensures SignedValue(IntText(n)) == n
  {
    var d := Decimal(n);
    assert IntText(n) == d;
    DecimalIsDigits(n);
    SignedValueDigits(d);
    DecimalRoundTrip(n);
  }

  lemma SignedValueNegative(d: string)
    ensures SignedValue("-" + d) == -DigitsValue(d)
  {
    var t := "-" + d;
    assert t[0] == '-' && t[1..] == d;
  }

  lemma SignedValueDigits(d: string)
    requires 0 < |d| && AllDigits(d)
    ensures SignedValue(d) == DigitsValue(d)
  {
    assert IsDigit(d[0]);
  }

  /** Distinct numbers give distinct error texts. */
  lemma StrOfNumberInjective(a: int, b: int)
    ensures Str(JNum(a)) == Str(JNum(b)) <==> a == b
  {
    IntTextRoundTrip(a);
    IntTextRoundTrip(b);
  }

  /** `str(v)` of a decoded value: a string is its own text, everything else
      is rendered as `repr` renders it. */
  function Str(j: Json): string {
    match j
    case JStr(s) => s
    case _ => Repr(j)
  }

  /** `repr(v)` of a decoded value, the form `str` gives inside lists and dicts. */
  function Repr(j: Json): string
    decreases j, 1
  {
    match j
    case JNull => "None"
    case JBool(b) => if b then "True" else "False"
    case JNum(n) => IntText(n)
    case JStr(s) => QuoteString(s)
    case JArr(items) => "[" + ReprItems(j, items) + "]"
    case JObj(ms) => "{" + ReprMembers(j, ms) + "}"
  }

  /** The comma-separated reprs of a list's items. */
  function ReprItems(ghost parent: Json, items: seq<Json>): string
    requires forall x :: x in items ==> x < parent
    decreases parent, 0, |items|
  {
    if |items| == 0 then ""
    else
      assert items[0] in items;
      assert forall x :: x in items[1..] ==> x in items;
      Repr(items[0]) + (if |items| == 1 then "" else ", " + ReprItems(parent, items[1..]))
  }

  /** The comma-separated `key: value` reprs of a dict's members. */
  function ReprMembers(ghost parent: Json, ms: seq<Member>): string
    requires forall m :: m in ms ==> m.value < parent
    decreases parent, 0, |ms|
  {
    if |ms| == 0 then ""
    else
      assert ms[0] in ms;
      assert forall m :: m in ms[1..] ==> m in ms;
      QuoteString(ms[0].key) + ": " + Repr(ms[0].value)
        + (if |ms| == 1 then "" else ", " + ReprMembers(parent, ms[1..]))
  }

  /** `repr(s)` of a string: single quotes unless the text holds a single
      quote and no double quote. */
  function QuoteString(s: string): (r: string)
    ensures |r| >= 2 && r[0] == r[|r| - 1]
    ensures r[0] == '\'' || r[0] == '"'
    ensures r[0] == '"' <==> '\'' in s && '"' !in s
  {
    var q := if '\'' in s && '"' !in s then '"' else '\'';
    [q] + Escape(s, q) + [q]
  }

  /** Backslash escapes inside a string repr, for the quote in use, the
      backslash itself and the three whitespace controls. */
  function Escape(s: string, q: char): string {
    if |s| == 0 then ""
    else EscapeChar(s[0], q) + Escape(s[1..], q)
  }

  function EscapeChar(ch: char, q: char): string {
    if ch == '\\' then "\\\\"
    else if ch == q then ['\\', q]
    else if ch == '\n' then "\\n"
    else if ch == '\r' then "\\r"
    else if ch == '\t' then "\\t"
    else [ch]
  }

  /** The character a backslash followed by `c` stands for inside a repr quoted with `q`,
      or None for an escape `repr` never writes. */
  function Unescaped(c: char, q: char): Option<char> {
    if c == '\\' then Some('\\')
    else if c == q then Some(q)
    else if c == 'n' then Some('\n')
    else if c == 'r' then Some('\r')
    else if c == 't' then Some('\t')
    else None
  }

  /** Reads the body of a string repr quoted with `q` back into the text, or
      None when it is not one: a stray quote or an unknown escape. */
  function Unescape(t: string, q: char): Option<string>
    decreases |t|
  {
    if |t| == 0 then Some("")
    else if t[0] == '\\' then
      if |t| < 2 then None
      else
        var ch := Unescaped(t[1], q);
        var rest := Unescape(t[2..], q);
        if ch.None? || rest.None? then None else Some([ch.value] + rest.value)
    else if t[0] == q then None
    else
      var rest := Unescape(t[1..], q);
      if rest.None? then None else Some([t[0]] + rest.value)
  }

  /** Each character's escape is a backslash pair that reads back as the
      character, or the character itself when that is neither a backslash
      nor the quote. */
  lemma EscapeCharUndone(ch: char, q: char)
    requires q == '\'' || q == '"'
    ensures var e := EscapeChar(ch, q);
      || (|e| == 2 && e[0] == '\\' && Unescaped(e[1], q) == Some(ch))
      || (e == [ch] && ch != '\\' && ch != q)
  {
  }

  lemma UnescapePair(c: char, q: char, t: string)
    ensures Unescape(['\\', c] + t, q) ==
      if Unescaped(c, q).None? || Unescape(t, q).None? then None
      else Some([Unescaped(c, q).value] + Unescape(t, q).value)
  {
    var u := ['\\', c] + t;
    assert u[0] == '\\' && u[1] == c && u[2..] == t;
  }

  lemma UnescapePlain(c: char, q: char, t: string)
    requires c != '\\' && c != q
    ensures Unescape([c] + t, q) ==
      if Unescape(t, q).None? then None else Some([c] + Unescape(t, q).value)
  {
    var u := [c] + t;
    assert u[0] == c && u[1..] == t;
  }

  /** Escaping for either quote character is undone by `Unescape`. */
  lemma {:induction false} EscapeRoundTrip(s: string, q: char)
    requires q == '\'' || q == '"'
    ensures Unescape(Escape(s, q), q) == Some(s)
  {
    if |s| > 0 {
      var e := EscapeChar(s[0], q);
      var rest := Escape(s[1..], q);
      assert Escape(s, q) == e + rest;
      EscapeRoundTrip(s[1..], q);
      EscapeCharUndone(s[0], q);
      if |e| == 2 {
        EscapedPairRoundTrip(s[0], q, rest);
      } else {
        PlainCharRoundTrip(s[0], q, rest);
      }
      assert s == [s[0]] + s[1..];
    }
  }

  /** A character escaped as a backslash pair, followed by text that reads back. */
  lemma EscapedPairRoundTrip(ch: char, q: char, rest: string)
    requires q == '\'' || q == '"'
    requires |EscapeChar(ch, q)| == 2
    requires Unescape(rest, q).Some?
    ensures Unescape(EscapeChar(ch, q) + rest, q) == Some([ch] + Unescape(rest, q).value)
  {
    var e := EscapeChar(ch, q);
    EscapeCharUndone(ch, q);
    assert e == ['\\', e[1]];
    UnescapePair(e[1], q, rest);
  }

  /** A character written as itself, followed by text that reads back. */
  lemma PlainCharRoundTrip(ch: char, q: char, rest: string)
    requires q == '\'' || q == '"'
    requires |EscapeChar(ch, q)| != 2
    requires Unescape(rest, q).Some?
    ensures Unescape(EscapeChar(ch, q) + rest, q) == Some([ch] + Unescape(rest, q).value)
  {
    EscapeCharUndone(ch, q);
    UnescapePlain(ch, q, rest);
  }

  /** The repr of a string determines the string: its body, read back with
      the quote it opens with, is the text. */
  lemma QuoteStringRoundTrip(s: string)
    ensures var r := QuoteString(s); Unescape(r[1..|r| - 1], r[0]) == Some(s)
  {
    var r := QuoteString(s);
    var q := r[0];
    assert r[1..|r| - 1] == Escape(s, q);
    EscapeRoundTrip(s, q);
  }

  /** Distinct strings have distinct reprs. */
  lemma QuoteStringInjective(a: string, b: string)
    ensures QuoteString(a) == QuoteString(b) <==> a == b
  {
    QuoteStringRoundTrip(a);
    QuoteStringRoundTrip(b);
  }
}
