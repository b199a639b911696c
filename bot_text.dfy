/** The text helpers of telegram-bot/src/index.ts: normalizeTwitter, the
    comma-separated tag list, the category lookup and parseTeammates.
    Regular-expression \s is the six ASCII whitespace characters of
    Strings, \w is IsWordChar. */
module BotText {
  import opened Strings
  import opened Lists

  /** telegram-bot/src/types.ts MAIN_CATEGORIES. */
  const MainCategories: seq<string> := ["AI", "Wallet", "Defi", "Consumer", "Onramp", "Infra"]

  /** `text.toLowerCase() === "/skip"`. */
  predicate IsSkip(text: string) {
    Lower(text) == "/skip"
  }

  /** `.replace(/^@/, "")`. */
  function DropAt(s: string): (r: string)
    ensures r == (if s != [] && s[0] == '@' then s[1..] else s)
  {
    if s != [] && s[0] == '@' then s[1..] else s
  }

  /** `.split(/\s/)[0]`: everything before the first whitespace. */
  function FirstToken(s: string): (r: string)
    ensures |r| <= |s| && r == s[..|r|]
    ensures forall i | 0 <= i < |r| :: !IsSpace(r[i])
    ensures |r| < |s| ==> IsSpace(s[|r|])
  {
    s[..FirstSpace(s, 0)]
  }

  /** normalizeTwitter: the first whitespace-free token of the trimmed
      input, without one leading '@'. */
  function NormalizeTwitter(input: string): (r: string)
    ensures var u := DropAt(Trim(input));
      |r| <= |u| && r == u[..|r|] && (forall i | 0 <= i < |r| :: !IsSpace(r[i])) && (|r| < |u| ==> IsSpace(u[|r|]))
  {
    FirstToken(DropAt(Trim(input)))
  }

  /** A handle with no whitespace and no leading '@' comes back unchanged. */
  lemma NormalizeHandle(h: string)
    requires forall i | 0 <= i < |h| :: !IsSpace(h[i])
    requires h == [] || h[0] != '@'
    ensures NormalizeTwitter(h) == h && NormalizeTwitter("@" + h) == h
  {
    TrimOfTrimmed(h);
    var a := "@" + h;
    assert a[0] == '@' && a[|a| - 1] == (if h == [] then '@' else h[|h| - 1]);
    TrimOfTrimmed(a);
    assert DropAt(a) == h;
  }

  /** The project's Twitter/X answer: a profile link is kept as sent. */
  function TwitterProfileAnswer(text: string): (r: string)
    ensures Contains(text, "twitter.com") || Contains(text, "x.com") ==> r == text
    ensures !(Contains(text, "twitter.com") || Contains(text, "x.com")) ==> r == NormalizeTwitter(text)
  {
    if Contains(text, "twitter.com") || Contains(text, "x.com") then text else NormalizeTwitter(text)
  }

  predicate NonEmpty(s: string) {
    s != ""
  }

  function IsNonEmpty(): string -> bool {
    (s: string) => NonEmpty(s)
  }

  function Trimmed(): string -> string {
    (s: string) => Trim(s)
  }

  /** `text.split(",").map((t) => t.trim()).filter(Boolean)`. */
  function TagList(text: string): (r: seq<string>)
    ensures forall t | t in r :: t != "" && Trim(t) == t
    ensures forall t :: t in r <==> t != "" && exists i | 0 <= i < |Split(text, ',')| :: Trim(Split(text, ',')[i]) == t
  {
    var pieces := Mapped(Split(text, ','), Trimmed());
    FilterMembers(pieces, IsNonEmpty());
    forall t | t in pieces ensures Trim(t) == t {
      var i :| 0 <= i < |pieces| && pieces[i] == t;
      TrimShape(Split(text, ',')[i]);
      TrimOfTrimmed(t);
    }
    Filter(pieces, IsNonEmpty())
  }

  /** A tag list never holds a comma, so the tags the bot stores are the
      pieces a reader splitting on commas would see. */
  lemma TagListNoComma(text: string)
    ensures forall t | t in TagList(text) :: ',' !in t
  {
    var parts := Split(text, ',');
    SplitFromParts(text, ',', 0);
    forall t | t in TagList(text) ensures ',' !in t {
      var i :| 0 <= i < |parts| && Trim(parts[i]) == t;
      TrimKeepsAbsence(parts[i], ',');
    }
  }

  function SameCategory(text: string): string -> bool {
    (c: string) => Lower(c) == Lower(Trim(text))
  }

  /** `MAIN_CATEGORIES.find(...)`: the canonical spelling of a category
      named in any case. */
  function CategoryOf(text: string): (r: Option<string>)
    ensures r.None? <==> forall i | 0 <= i < |MainCategories| :: Lower(MainCategories[i]) != Lower(Trim(text))
    ensures r.Some? ==> r.value in MainCategories && Lower(r.value) == Lower(Trim(text))
  {
    FindFirst(MainCategories, SameCategory(text))
  }

  // ---------------------------------------------------------------------
  // parseTeammates

  datatype Teammate = Teammate(name: string, twitter: string)

  predicate AllWord(s: string) {
    forall i | 0 <= i < |s| :: IsWordChar(s[i])
  }

  /** Regular-expression '.' does not match a line break. */
  predicate NoLineBreak(s: string) {
    forall i | 0 <= i < |s| :: s[i] != '\n' && s[i] != '\r'
  }

  /** The last whitespace before position j. */
  function LastSpace(s: string, j: nat): (r: Option<nat>)
    requires j <= |s|
    ensures r.None? ==> forall m | 0 <= m < j :: !IsSpace(s[m])
    ensures r.Some? ==> r.value < j && IsSpace(s[r.value]) && forall m | r.value < m < j :: !IsSpace(s[m])
  {
    if j == 0 then None else if IsSpace(s[j - 1]) then Some(j - 1) else LastSpace(s, j - 1)
  }

  /** The start of the whitespace run that ends at j. */
  function RunStart(s: string, j: nat): (r: nat)
    requires j <= |s|
    ensures r <= j && (r == 0 || !IsSpace(s[r - 1]))
    ensures forall m | r <= m < j :: IsSpace(s[m])
  {
    if j > 0 && IsSpace(s[j - 1]) then RunStart(s, j - 1) else j
  }

  /** `line.match(/^(.+?)\s+@?(\w+)\s*$/)`: after the trailing whitespace is
      set aside, the last token must be an optional '@' and word
      characters, with whitespace before it; the lazy name group stops
      where that whitespace run begins, but takes at least one character. */
  function RegexTeammate(line: string): (r: Option<Teammate>)
    ensures r.Some? ==> r.value.twitter != [] && AllWord(r.value.twitter)
  {
    var e := RunStart(line, |line|);
    match LastSpace(line, e)
    case None => None
    case Some(w) =>
      var tok := line[w + 1..e];
      var h := DropAt(tok);
      var k := RunStart(line, w + 1);
      var i := if k >= 1 then k else 1;
      if h != [] && AllWord(h) && i <= w && NoLineBreak(line[..i]) then
        TrimOfTrimmed(h);
        Some(Teammate(Trim(line[..i]), Trim(h)))
      else None
  }

  /** The fallback for a line with an '@': the trimmed text before the
      first '@' and the token after it. */
  function AtTeammate(line: string): (r: Option<Teammate>)
    ensures r.Some? ==> (r.value.name != [] && r.value.twitter != [] &&
      forall i | 0 <= i < |r.value.twitter| :: !IsSpace(r.value.twitter[i]))
  {
    if HasChar(line, '@') then
      var at := IndexOf(line, '@', 0);
      var twitter := FirstToken(line[at + 1..]);
      var name := Trim(line[..at]);
      if name != "" && twitter != "" then Some(Teammate(name, twitter)) else None
    else None
  }

  function ParseLine(line: string): Option<Teammate> {
    var m := RegexTeammate(line);
    if m.Some? then m else AtTeammate(line)
  }

  /** `text.split(/\n/).map((l) => l.trim()).filter(Boolean)`. */
  function Lines(text: string): (r: seq<string>)
    ensures forall l | l in r :: l != "" && !IsSpace(l[0])
  {
    var pieces := Mapped(Split(text, '\n'), Trimmed());
    FilterMembers(pieces, IsNonEmpty());
    forall l | l in pieces && l != "" ensures !IsSpace(l[0]) {
      var i :| 0 <= i < |pieces| && pieces[i] == l;
      TrimShape(Split(text, '\n')[i]);
    }
    Filter(pieces, IsNonEmpty())
  }

  /** The teammates the text lists, one per line that parses. */
  function ParsedTeammates(text: string): seq<Teammate> {
    FilterMap(Lines(text), ParseLine)
  }

  lemma {:induction false} TrimEndKeepsFirst(s: string)
    requires s != [] && !IsSpace(s[0])
    ensures TrimEnd(s) != []
  {
    if |s| > 1 && IsSpace(s[|s| - 1]) {
      TrimEndKeepsFirst(s[..|s| - 1]);
    }
  }

  /** On a line that does not start with whitespace every teammate found
      has a name and a handle. */
  lemma ParseLineFilled(line: string)
    requires line != [] && !IsSpace(line[0])
    ensures ParseLine(line).Some? ==> ParseLine(line).value.name != [] && ParseLine(line).value.twitter != []
  {
    var r := RegexTeammate(line);
    if r.Some? {
      var e := RunStart(line, |line|);
      var w := LastSpace(line, e).value;
      var k := RunStart(line, w + 1);
      var i := if k >= 1 then k else 1;
      assert r.value.name == Trim(line[..i]);
      TrimEndKeepsFirst(line[..i]);
    }
  }

  predicate Filled(t: Teammate) {
    t.name != [] && t.twitter != [] && forall i | 0 <= i < |t.twitter| :: !IsSpace(t.twitter[i])
  }

  lemma ParsedFilled(ls: seq<string>)
    requires forall l | l in ls :: l != "" && !IsSpace(l[0])
    ensures forall t | t in FilterMap(ls, ParseLine) :: Filled(t)
  {
    forall i | 0 <= i < |ls| && ParseLine(ls[i]).Some? ensures Filled(ParseLine(ls[i]).value) {
      assert ls[i] in ls;
      ParseLineFilled(ls[i]);
    }
    FilterMapAllSatisfy(ls, ParseLine, Filled);
  }

  /** Every teammate parseTeammates returns has a non-empty name and a
      non-empty handle without whitespace. */
  lemma TeammatesFilled(text: string)
    ensures forall t | t in ParsedTeammates(text) :: Filled(t)
  {
    ParsedFilled(Lines(text));
  }

  /** The loop of parseTeammates. */
  method ParseTeammates(text: string) returns (result: seq<Teammate>)
    ensures result == ParsedTeammates(text)
  {
    var lines := Lines(text);
    result := [];
    for k := 0 to |lines|
      invariant result == FilterMap(lines[..k], ParseLine)
    {
      FilterMapStep(lines, ParseLine, k);
      var line := lines[k];
      var m := RegexTeammate(line);
      if m.Some? {
        result := result + [m.value];
      } else if HasChar(line, '@') {
        var at := IndexOf(line, '@', 0);
        var twitter := FirstToken(line[at + 1..]);
        var name := Trim(line[..at]);
        if name != "" && twitter != "" {
          result := result + [Teammate(name, twitter)];
        }
      }
    }
    assert lines[..|lines|] == lines;
  }

  /** The format the bot asks for, "Name @handle", is read back as that
      name and handle. */
  lemma TeammateLineRoundTrip(n: string, h: string)
    requires n != [] && !IsSpace(n[0]) && !IsSpace(n[|n| - 1]) && NoLineBreak(n)
    requires h != [] && AllWord(h)
    ensures ParseLine(n + " @" + h) == Some(Teammate(n, h))
  {
    var line := n + " @" + h;
    assert line[|line| - 1] == h[|h| - 1];
    var e := RunStart(line, |line|);
    assert e == |line|;
    forall m | |n| < m < |line| ensures !IsSpace(line[m]) {
      if m > |n| + 1 {
        assert line[m] == h[m - |n| - 2];
      }
    }
    assert line[|n|] == ' ';
    var last := LastSpace(line, e);
    assert last.Some?;
    assert last.value == |n|;
    assert line[|n| + 1..e] == "@" + h;
    assert DropAt("@" + h) == h;
    assert line[|n| - 1] == n[|n| - 1];
    assert RunStart(line, |n| + 1) == |n|;
    assert line[..|n|] == n;
    TrimOfTrimmed(n);
    TrimOfTrimmed(h);
  }
}
