/** Python's str() and repr() of a value read with json.load, as
    transform_to_data.py uses them on hashtags that are not mappings.
    Characters above U+00FF are written as they are. */
module PyText {
  import opened Strings
  import opened JsonValue
  import JsonText

  /** The characters repr() writes as \xHH: the C0 controls, DEL, the C1
      controls, the no-break space and the soft hyphen. */
  predicate HexEscaped(c: char) {
    c < ' ' || ('\U{7F}' <= c <= '\U{A0}') || c == '\U{AD}'
  }

  /** repr() picks double quotes only for text with a single quote and no
      double quote. */
  function QuoteFor(s: string): (q: char)
    ensures q == '\'' || q == '"'
  {
    if '\'' in s && '"' !in s then '"' else '\''
  }

  /** The escape of one character inside quotes q. */
  function ReprChar(c: char, q: char): (r: string)
    requires q == '\'' || q == '"'
    ensures r != []
    ensures '\n' !in r
  {
    if c == q || c == '\\' then ['\\', c]
    else if c == '\t' then "\\t"
    else if c == '\n' then "\\n"
    else if c == '\r' then "\\r"
    else if HexEscaped(c) then "\\x" + [JsonText.HexDigit(c as int / 16), JsonText.HexDigit(c as int % 16)]
    else [c]
  }

  function ReprBody(s: string, q: char): (r: string)
    requires q == '\'' || q == '"'
    ensures '\n' !in r
  {
    if s == [] then [] else ReprChar(s[0], q) + ReprBody(s[1..], q)
  }

  /** repr(s) for a string s. */
  function StrRepr(s: string): (r: string)
    ensures |r| >= 2 && r[0] == r[|r| - 1] == QuoteFor(s)
    ensures '\n' !in r
  {
    var q := QuoteFor(s);
    [q] + ReprBody(s, q) + [q]
  }

  /** What the letter after a backslash stands for. */
  function Unescaped(c: char): char {
    if c == 't' then '\t' else if c == 'n' then '\n' else if c == 'r' then '\r' else c
  }

  /** Reading the text between the quotes of a repr() back. */
  function Decode(t: string): string
    decreases |t|
  {
    if t == [] then []
    else if t[0] == '\\' && |t| >= 2 then
      if t[1] == 'x' && |t| >= 4 && JsonText.IsHexChar(t[2]) && JsonText.IsHexChar(t[3]) then
        [(JsonText.HexValue(t[2]) * 16 + JsonText.HexValue(t[3])) as char] + Decode(t[4..])
      else [Unescaped(t[1])] + Decode(t[2..])
    else [t[0]] + Decode(t[1..])
  }

  lemma DecodeOne(c: char, q: char, rest: string)
    requires q == '\'' || q == '"'
    ensures Decode(ReprChar(c, q) + rest) == [c] + Decode(rest)
  {
    var e := ReprChar(c, q) + rest;
    if c == q || c == '\\' || c == '\t' || c == '\n' || c == '\r' {
      assert e[0] == '\\' && e[1] != 'x' && e[2..] == rest;
    } else if HexEscaped(c) {
      var hi := c as int / 16;
      var lo := c as int % 16;
      JsonText.HexRoundTrip(hi);
      JsonText.HexRoundTrip(lo);
      assert e[2] == JsonText.HexDigit(hi) && e[3] == JsonText.HexDigit(lo) && e[4..] == rest;
    } else {
      assert e[0] == c && e[1..] == rest;
    }
  }

  /** Reading back what repr() wrote between the quotes gives the string. */
  lemma {:induction false} ReprRoundTrip(s: string, q: char)
    requires q == '\'' || q == '"'
    ensures Decode(ReprBody(s, q)) == s
  {
    if s != [] {
      ReprRoundTrip(s[1..], q);
      DecodeOne(s[0], q, ReprBody(s[1..], q));
      assert s == [s[0]] + s[1..];
    }
  }

  lemma StrReprRoundTrip(s: string)
    ensures var r := StrRepr(s); Decode(r[1..|r| - 1]) == s
  {
    var r := StrRepr(s);
    assert r[1..|r| - 1] == ReprBody(s, QuoteFor(s));
    ReprRoundTrip(s, QuoteFor(s));
  }

  /** repr(v): None, True and False by name, lists and dicts with ", "
      between items and ": " after a key. */
  function Repr(j: Json): (r: string)
    ensures '\n' !in r
    decreases j, 1
  {
    match j
    case JNull => "None"
    case JBool(b) => if b then "True" else "False"
    case JNum(n) => IntTextOneLine(n); IntToString(n)
    case JStr(s) => StrRepr(s)
    case JArr(items) => "[" + ReprItems(items, j) + "]"
    case JObj(fields) =>
      assert forall k | 0 <= k < |fields| :: fields[k].value < fields[k] < j;
      "{" + ReprFields(fields, j) + "}"
  }

  function ReprItems(items: seq<Json>, ghost whole: Json): (r: string)
    requires forall k | 0 <= k < |items| :: items[k] < whole
    ensures '\n' !in r
    decreases whole, 0, |items|
  {
    if items == [] then ""
    else if |items| == 1 then Repr(items[0])
    else Repr(items[0]) + ", " + ReprItems(items[1..], whole)
  }

  function ReprFields(fields: seq<Field>, ghost whole: Json): (r: string)
    requires forall k | 0 <= k < |fields| :: fields[k].value < whole
    ensures '\n' !in r
    decreases whole, 0, |fields|
  {
    if fields == [] then ""
    else
      var one := StrRepr(fields[0].key) + ": " + Repr(fields[0].value);
      if |fields| == 1 then one else one + ", " + ReprFields(fields[1..], whole)
  }

  // ---------------------------------------------------------------------
  // int() of a string

  function DigitValue(c: char): (d: nat)
    requires IsDigitChar(c)
    ensures d < 10
  {
    c as int - '0' as int
  }

  /** Decimal digits, with single underscores allowed between two digits. */
  predicate IsDigitText(s: string) {
    && s != []
    && IsDigitChar(s[0]) && IsDigitChar(s[|s| - 1])
    && (forall i | 0 <= i < |s| :: IsDigitChar(s[i]) || s[i] == '_')
    && (forall i | 0 <= i < |s| - 1 :: s[i] == '_' ==> s[i + 1] != '_')
  }

  /** The value of the digits of s, underscores skipped. */
  function DigitsValue(s: string): nat
    requires forall i | 0 <= i < |s| :: IsDigitChar(s[i]) || s[i] == '_'
  {
    if s == [] then 0
    else if s[|s| - 1] == '_' then DigitsValue(s[..|s| - 1])
    else DigitsValue(s[..|s| - 1]) * 10 + DigitValue(s[|s| - 1])
  }

  /** int(s) for a string s, or None where int() raises ValueError: the
      stripped text is an optional sign followed by digit text. */
  function IntOf(s: string): Option<int> {
    var t := Trim(s);
    if t != [] && (t[0] == '-' || t[0] == '+') then
      var v: int := if IsDigitText(t[1..]) then DigitsValue(t[1..]) else 0;
      if IsDigitText(t[1..]) then Some(if t[0] == '-' then -v else v) else None
    else if IsDigitText(t) then Some(DigitsValue(t))
    else None
  }

  lemma {:induction false} NatTextValue(n: nat)
    ensures IsDigitText(NatToString(n))
    ensures DigitsValue(NatToString(n)) == n
    decreases n
  {
    var r := NatToString(n);
    if n < 10 {
      assert r == [DigitChar(n)];
    } else {
      NatTextValue(n / 10);
      assert r[..|r| - 1] == NatToString(n / 10);
      assert r[|r| - 1] == DigitChar(n % 10);
    }
  }

  lemma DigitCharValue(d: nat)
    requires d < 10
    ensures DigitValue(DigitChar(d)) == d
  {
  }

  /** int() reads back the decimal text of every integer. */
  lemma IntOfRoundTrip(n: int)
    ensures IntOf(IntToString(n)) == Some(n)
  {
    var r := IntToString(n);
    var m: nat := if n < 0 then -n else n;
    NatTextValue(m);
    assert !IsSpace(r[0]) && !IsSpace(r[|r| - 1]);
    TrimOfTrimmed(r);
    if n < 0 {
      assert r[1..] == NatToString(m);
    }
  }

  /** str(v): a string is itself, every other value is its repr(). */
  function PyStr(j: Json): (r: string)
    ensures j.JStr? ==> r == j.s
    ensures !j.JStr? ==> r == Repr(j)
  {
    if j.JStr? then j.s else Repr(j)
  }
}
