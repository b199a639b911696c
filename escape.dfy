/** The double-quoted front-matter escape shared by the profile writer
    (mdx_escape in scripts/devfolio-scraper/fetch_devfolio_profile_json.py)
    and the project writer (escapeYaml in scripts/generate-project-mdx.ts):
    backslashes are doubled, then double quotes are backslash-escaped, then
    newlines become spaces. */
module Escape {
  import opened Strings

  /** The three replacements, applied one after the other as the scripts do.
      The empty string maps to itself, which is the scripts' early return. */
  function EscapeQuoted(s: string): (r: string)
    ensures '\n' !in r
  {
    ReplaceChar(ReplaceChar(ReplaceChar(s, '\\', "\\\\"), '"', "\\\""), '\n', " ")
  }

  /** What one character becomes. */
  function EscapeChar(c: char): string {
    if c == '\\' then "\\\\"
    else if c == '"' then "\\\""
    else if c == '\n' then " "
    else [c]
  }

  /** The escape read one character at a time: an independent definition. */
  function EscapeCharwise(s: string): string {
    if s == [] then [] else EscapeChar(s[0]) + EscapeCharwise(s[1..])
  }

  /** Reading a quoted value back: a backslash takes the next character
      literally. */
  function Unescape(s: string): string {
    if s == [] then []
    else if s[0] == '\\' && |s| >= 2 then [s[1]] + Unescape(s[2..])
    else [s[0]] + Unescape(s[1..])
  }

  lemma EscapeOne(c: char)
    ensures EscapeQuoted([c]) == EscapeChar(c)
  {
    assert [c][1..] == [];
    if c == '\\' {
      assert ReplaceChar([c], '\\', "\\\\") == "\\\\";
    } else if c == '"' {
      assert ReplaceChar([c], '\\', "\\\\") == [c];
      assert ReplaceChar([c], '"', "\\\"") == "\\\"";
    } else {
      assert ReplaceChar([c], '\\', "\\\\") == [c];
      assert ReplaceChar([c], '"', "\\\"") == [c];
    }
  }

  /** The chained replacements never disturb one another: the second does not
      touch the backslashes the first wrote, and the third sees no newline the
      others wrote. */
  lemma {:induction false} EscapeIsCharwise(s: string)
    ensures EscapeQuoted(s) == EscapeCharwise(s)
  {
    if s != [] {
      EscapeIsCharwise(s[1..]);
      var c := s[0];
      var one := ReplaceChar([c], '\\', "\\\\");
      var rest := ReplaceChar(s[1..], '\\', "\\\\");
      assert s == [c] + s[1..];
      ReplaceCharAppend([c], s[1..], '\\', "\\\\");
      ReplaceCharAppend(one, rest, '"', "\\\"");
      var two := ReplaceChar(one, '"', "\\\"");
      ReplaceCharAppend(two, ReplaceChar(rest, '"', "\\\""), '\n', " ");
      EscapeOne(c);
    }
  }

  lemma {:induction false} UnescapeCharwise(s: string)
    ensures Unescape(EscapeCharwise(s)) == ReplaceChar(s, '\n', " ")
  {
    if s != [] {
      UnescapeCharwise(s[1..]);
      var rest := EscapeCharwise(s[1..]);
      var e := EscapeChar(s[0]) + rest;
      if s[0] == '\\' || s[0] == '"' {
        assert e[0] == '\\' && e[2..] == rest;
      } else {
        assert e[0] != '\\' && e[1..] == rest;
      }
    }
  }

  /** Reading an escaped value back gives the original text with its
      newlines turned into spaces: nothing else is lost. */
  lemma EscapeRoundTrip(s: string)
    ensures Unescape(EscapeQuoted(s)) == ReplaceChar(s, '\n', " ")
  {
    EscapeIsCharwise(s);
    UnescapeCharwise(s);
  }
}
