/** JSON.stringify of a string, which the JavaScript writers use to quote a
    front-matter value, and the reading a JSON or YAML parser gives the quoted
    text back. */
module JsonText {
  import opened Strings

  /** Lower-case hexadecimal digit, as JSON.stringify writes them. */
  function HexDigit(n: nat): (c: char)
    requires n < 16
    ensures IsHexChar(c)
  {
    if n < 10 then ('0' as int + n) as char else ('a' as int + n - 10) as char
  }

  predicate IsHexChar(c: char) {
    IsDigitChar(c) || 'a' <= c <= 'f' || 'A' <= c <= 'F'
  }

  function HexValue(c: char): (n: nat)
    requires IsHexChar(c)
    ensures n < 16
  {
    if IsDigitChar(c) then c as int - '0' as int
    else if 'a' <= c <= 'f' then c as int - 'a' as int + 10
    else c as int - 'A' as int + 10
  }

  lemma HexRoundTrip(n: nat)
    requires n < 16
    ensures HexValue(HexDigit(n)) == n
  {
  }

  /** The escape of one character inside the quotes: the two-character forms
      for the quote, the backslash and the five named controls, \u00XX for
      the other characters below U+0020, and the character itself otherwise. */
  function QuoteChar(c: char): (r: string)
    ensures r != []
    ensures '\n' !in r
  {
    if c == '"' then "\\\""
    else if c == '\\' then "\\\\"
    else if c == '\n' then "\\n"
    else if c == '\r' then "\\r"
    else if c == '\t' then "\\t"
    else if c == 8 as char then "\\b"
    else if c == 12 as char then "\\f"
    else if c < ' ' then "\\u00" + [HexDigit(c as int / 16), HexDigit(c as int % 16)]
    else [c]
  }

  function QuoteBody(s: string): (r: string)
    ensures '\n' !in r
  {
    if s == [] then [] else QuoteChar(s[0]) + QuoteBody(s[1..])
  }

  /** JSON.stringify(s) for a string s. */
  function JsonQuote(s: string): (r: string)
    ensures |r| >= 2 && r[0] == '"' && r[|r| - 1] == '"'
    ensures '\n' !in r
  {
    "\"" + QuoteBody(s) + "\""
  }

  /** What the letter after a backslash stands for. */
  function Unescaped(c: char): char {
    if c == 'n' then '\n'
    else if c == 'r' then '\r'
    else if c == 't' then '\t'
    else if c == 'b' then 8 as char
    else if c == 'f' then 12 as char
    else c
  }

  predicate IsScalar(n: int) {
    0 <= n < 0xD800 || 0xE000 <= n < 0x11_0000
  }

  /** The four hexadecimal digits of a \u escape. */
  function Hex4(s: string): (n: nat)
    requires |s| == 4 && forall i | 0 <= i < 4 :: IsHexChar(s[i])
  {
    HexValue(s[0]) * 4096 + HexValue(s[1]) * 256 + HexValue(s[2]) * 16 + HexValue(s[3])
  }

  /** Reading the text between the quotes. */
  function Decode(s: string): string
    decreases |s|
  {
    if s == [] then []
    else if s[0] == '\\' && |s| >= 2 then
      if s[1] == 'u' && |s| >= 6 && (forall i | 2 <= i < 6 :: IsHexChar(s[i])) && IsScalar(Hex4(s[2..6])) then
        [Hex4(s[2..6]) as char] + Decode(s[6..])
      else [Unescaped(s[1])] + Decode(s[2..])
    else [s[0]] + Decode(s[1..])
  }

  lemma DecodeOne(c: char, rest: string)
    ensures Decode(QuoteChar(c) + rest) == [c] + Decode(rest)
  {
    var e := QuoteChar(c) + rest;
    if c < ' ' && c != '\n' && c != '\r' && c != '\t' && c != 8 as char && c != 12 as char {
      var hi := c as int / 16;
      var lo := c as int % 16;
      HexRoundTrip(hi);
      HexRoundTrip(lo);
      assert e[2..6] == "00" + [HexDigit(hi), HexDigit(lo)];
      assert Hex4(e[2..6]) == c as int;
      assert e[6..] == rest;
    } else if c == '"' || c == '\\' || c == '\n' || c == '\r' || c == '\t' || c == 8 as char || c == 12 as char {
      assert e[0] == '\\' && e[1] != 'u' && e[2..] == rest;
    } else {
      assert e[0] == c && e[1..] == rest;
    }
  }

  /** Decoding what JSON.stringify wrote between the quotes gives the
      original string. */
  lemma {:induction false} QuoteRoundTrip(s: string)
    ensures Decode(QuoteBody(s)) == s
  {
    if s != [] {
      QuoteRoundTrip(s[1..]);
      DecodeOne(s[0], QuoteBody(s[1..]));
      assert s == [s[0]] + s[1..];
    }
  }

  /** Reading a quoted value: the text between the quotes, decoded. */
  function Unquote(q: string): string {
    if |q| >= 2 && q[0] == '"' && q[|q| - 1] == '"' then Decode(q[1..|q| - 1]) else q
  }

  lemma JsonQuoteRoundTrip(s: string)
    ensures Unquote(JsonQuote(s)) == s
  {
    var q := JsonQuote(s);
    assert q[1..|q| - 1] == QuoteBody(s);
    QuoteRoundTrip(s);
  }
}
