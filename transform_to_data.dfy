/** The project normaliser of the Devfolio scraper
    (scripts/devfolio-scraper/transform_to_data.py): one raw Devfolio record
    becomes one directory project. */
module TransformToData {
  import opened Strings
  import opened JsonValue
  import opened Directory
  import opened Lists
  import opened PyText

  // ---------------------------------------------------------------------
  // Category inference

  /** The keyword table, in the order its entries are tried. */
  const CategoryKeywords: seq<(string, seq<string>)> := [
    ("AI", ["ai", "chatbot", "agents", "discovery", "personalization", "automation", "compute", "support", "multi-agent", "llm", "ml"]),
    ("Consumer", ["creator", "payments", "video", "content", "rewards", "marketplace", "music", "gaming", "messaging", "social", "consumer"]),
    ("DeFi", ["defi", "dex", "amm", "yield", "staking", "savings", "portfolio", "treasury", "multisig", "lending", "insurance", "onramp", "trading", "farming", "uniswap", "hooks"]),
    ("Gaming", ["gaming", "play-to-earn", "nft", "lottery", "raffle", "casual", "betting", "quests", "gamification", "dungeon"]),
    ("Infra", ["infra", "oracle", "bridge", "l2", "analytics", "gas", "relay", "dev-tools", "security", "audit", "solidity", "smart contract"]),
    ("Mini-apps", ["mini-app", "marketplace", "miniapp", "farcaster"]),
    ("NFT", ["nft", "art", "gallery", "no-code", "deployer", "collab", "3d"]),
    ("DAO", ["dao", "governance", "voting", "treasury", "multisig", "sybil"]),
    ("Identity", ["identity", "credentials", "kyc", "soulbound", "attestations", "naming", "zk"]),
    ("Social", ["social", "creator", "tipping", "messaging", "token-gated", "community", "social-tokens"]),
    ("Payments", ["payments", "stablecoin", "onramp", "merchant", "micropayments", "payroll", "streaming", "freelance", "usdc"])
  ]

  function CategoryNames(table: seq<(string, seq<string>)>): seq<string> {
    if table == [] then [] else [table[0].0] + CategoryNames(table[1..])
  }

  /** The site's category filter lists the same categories in the same order. */
  lemma SiteCategoriesFollowKeywordTable()
    ensures Categories == ["All"] + CategoryNames(CategoryKeywords)
  {
  }

  /** The name a hashtag contributes to category matching: the lowercased
      "name" of a mapping that has one, or a lowercased string. */
  function CategoryTagName(h: Json): Option<string> {
    if h.JObj? && Has(h, "name") then
      (if Get(h, "name").JStr? then Some(Lower(Get(h, "name").s)) else None)
    else if h.JStr? then Some(Lower(h.s))
    else None
  }

  /** The tag names in hashtag order. */
  function CategoryTagNames(hashtags: seq<Json>): (r: seq<string>)
    ensures |r| <= |hashtags|
  {
    FilterMap(hashtags, CategoryTagName)
  }

  /** A keyword and a tag match when either is a substring of the other. */
  predicate Related(kw: string, t: string) {
    Contains(t, kw) || Contains(kw, t)
  }

  /** Some tag from index j on matches kw. */
  predicate AnyRelated(kw: string, tags: seq<string>, j: nat)
    decreases |tags| - j
  {
    j < |tags| && (Related(kw, tags[j]) || AnyRelated(kw, tags, j + 1))
  }

  /** Some keyword from index k on matches some tag. */
  predicate AnyKeyword(kws: seq<string>, tags: seq<string>, k: nat)
    decreases |kws| - k
  {
    k < |kws| && (AnyRelated(kws[k], tags, 0) || AnyKeyword(kws, tags, k + 1))
  }

  /** The first entry of table from index c on with a matching keyword, else
      "Consumer". */
  function CategoryFrom(table: seq<(string, seq<string>)>, tags: seq<string>, c: nat): string
    requires c <= |table|
    decreases |table| - c
  {
    if c == |table| then "Consumer"
    else if AnyKeyword(table[c].1, tags, 0) then table[c].0
    else CategoryFrom(table, tags, c + 1)
  }

  /** The category of a hashtag list under a keyword table. */
  function CategoryOf(table: seq<(string, seq<string>)>, hashtags: seq<Json>): string {
    if hashtags == [] then "Consumer" else CategoryFrom(table, CategoryTagNames(hashtags), 0)
  }

  lemma {:induction false} AnyRelatedExists(kw: string, tags: seq<string>, j: nat)
    requires j <= |tags|
    ensures AnyRelated(kw, tags, j) <==> exists m | j <= m < |tags| :: Related(kw, tags[m])
    decreases |tags| - j
  {
    if j < |tags| {
      AnyRelatedExists(kw, tags, j + 1);
    }
  }

  lemma {:induction false} AnyKeywordExists(kws: seq<string>, tags: seq<string>, k: nat)
    requires k <= |kws|
    ensures AnyKeyword(kws, tags, k) <==>
      exists n, m | k <= n < |kws| && 0 <= m < |tags| :: Related(kws[n], tags[m])
    decreases |kws| - k
  {
    if k < |kws| {
      AnyKeywordExists(kws, tags, k + 1);
      AnyRelatedExists(kws[k], tags, 0);
    }
  }

  /** Entry c of the table matches when one of its keywords is related to one
      of the tags. */
  predicate EntryMatches(table: seq<(string, seq<string>)>, c: nat, tags: seq<string>)
    requires c < |table|
  {
    exists n, m | 0 <= n < |table[c].1| && 0 <= m < |tags| :: Related(table[c].1[n], tags[m])
  }

  lemma {:induction false} CategoryFromFirstMatch(table: seq<(string, seq<string>)>, tags: seq<string>, c: nat, from: nat)
    requires from <= c < |table|
    requires EntryMatches(table, c, tags)
    requires forall d | from <= d < c :: !EntryMatches(table, d, tags)
    ensures CategoryFrom(table, tags, from) == table[c].0
    decreases c - from
  {
    AnyKeywordExists(table[from].1, tags, 0);
    if from < c {
      assert !EntryMatches(table, from, tags);
      CategoryFromFirstMatch(table, tags, c, from + 1);
    }
  }

  lemma {:induction false} CategoryFromNoMatch(table: seq<(string, seq<string>)>, tags: seq<string>, from: nat)
    requires from <= |table|
    requires forall d | from <= d < |table| :: !EntryMatches(table, d, tags)
    ensures CategoryFrom(table, tags, from) == "Consumer"
    decreases |table| - from
  {
    if from < |table| {
      AnyKeywordExists(table[from].1, tags, 0);
      assert !EntryMatches(table, from, tags);
      CategoryFromNoMatch(table, tags, from + 1);
    }
  }

  /** The category is the first entry, in table order, with a keyword that is
      a substring of, or contains, some tag name; "Consumer" when no entry
      matches or there are no hashtags. */
  lemma CategoryIsFirstMatch(table: seq<(string, seq<string>)>, hashtags: seq<Json>)
    ensures var tags := CategoryTagNames(hashtags);
      (hashtags == [] || forall d | 0 <= d < |table| :: !EntryMatches(table, d, tags)) ==>
        CategoryOf(table, hashtags) == "Consumer"
    ensures var tags := CategoryTagNames(hashtags);
      forall c | 0 <= c < |table| ::
        hashtags != [] && EntryMatches(table, c, tags) &&
        (forall d | 0 <= d < c :: !EntryMatches(table, d, tags)) ==>
          CategoryOf(table, hashtags) == table[c].0
  {
    var tags := CategoryTagNames(hashtags);
    if hashtags != [] {
      if forall d | 0 <= d < |table| :: !EntryMatches(table, d, tags) {
        CategoryFromNoMatch(table, tags, 0);
      }
      forall c | 0 <= c < |table| &&
        EntryMatches(table, c, tags) && (forall d | 0 <= d < c :: !EntryMatches(table, d, tags))
        ensures CategoryOf(table, hashtags) == table[c].0
      {
        CategoryFromFirstMatch(table, tags, c, 0);
      }
    }
  }

  /** An empty tag is contained in the very first keyword. */
  lemma CategoryExampleEmptyTag()
    ensures CategoryFrom(CategoryKeywords, [""], 0) == "AI"
  {
  }

  /** infer_category: collects the tag names, then tries the table entries
      and their keywords in order. */
  method InferCategory(table: seq<(string, seq<string>)>, hashtags: seq<Json>) returns (category: string)
    ensures category == CategoryOf(table, hashtags)
  {
    if hashtags == [] {
      return "Consumer";
    }
    var tagNames: seq<string> := [];
    var i := 0;
    while i < |hashtags|
      invariant 0 <= i <= |hashtags|
      invariant tagNames == FilterMap(hashtags[..i], CategoryTagName)
    {
      var name := CategoryTagName(hashtags[i]);
      FilterMapStep(hashtags, CategoryTagName, i);
      tagNames := tagNames + OptionToSeq(name);
      i := i + 1;
    }
    TakeSnoc(hashtags, i);
    var c := 0;
    while c < |table|
      invariant 0 <= c <= |table|
      invariant CategoryFrom(table, tagNames, c) == CategoryOf(table, hashtags)
    {
      var (cat, keywords) := table[c];
      var k := 0;
      while k < |keywords|
        invariant 0 <= k <= |keywords|
        invariant AnyKeyword(keywords, tagNames, 0) == AnyKeyword(keywords, tagNames, k)
      {
        if AnyRelated(keywords[k], tagNames, 0) {
          return cat;
        }
        k := k + 1;
      }
      c := c + 1;
    }
    return "Consumer";
  }

  // ---------------------------------------------------------------------
  // Descriptions

  /** Drops a leading run of '#'. */
  function DropHashes(s: string): (r: string)
    ensures |r| <= |s| && r == s[|s| - |r|..]
    ensures r == [] || r[0] != '#'
  {
    if s != [] && s[0] == '#' then DropHashes(s[1..]) else s
  }

  /** re.sub(r"^#+\s*", "", s): one leading run of '#' and the whitespace
      after it. */
  function StripHeading(s: string): (r: string)
    ensures |r| <= |s| && r == s[|s| - |r|..]
    ensures (s == [] || s[0] != '#') ==> r == s
  {
    if s != [] && s[0] == '#' then
      TrimStartShape(DropHashes(s));
      TrimStart(DropHashes(s))
    else s
  }

  function DropNewlines(s: string): (r: string)
    ensures |r| <= |s|
    ensures r == [] || r[0] != '\n'
  {
    if s != [] && s[0] == '\n' then DropNewlines(s[1..]) else s
  }

  /** re.sub(r"\n+", " ", s): every run of newlines becomes one space. */
  function CollapseNewlines(s: string): (r: string)
    ensures '\n' !in r
    decreases |s|
  {
    if s == [] then []
    else if s[0] == '\n' then [' '] + CollapseNewlines(DropNewlines(s))
    else [s[0]] + CollapseNewlines(s[1..])
  }

  /** Text without newlines is left alone. */
  lemma {:induction false} CollapseNewlinesIdentity(s: string)
    requires '\n' !in s
    ensures CollapseNewlines(s) == s
  {
    if s != [] {
      assert '\n' !in s[1..];
      CollapseNewlinesIdentity(s[1..]);
    }
  }

  lemma TakeKeepsAbsence(s: string, c: char, n: nat)
    requires c !in s
    ensures c !in Take(s, n)
  {
    var r := Take(s, n);
    forall k | 0 <= k < |r| ensures r[k] != c {
      assert r[k] == s[k];
    }
  }

  /** description_text: a short description from a string or from the first
      section of a section list; at most 400 characters. */
  function DescriptionText(d: Json): (r: string)
    ensures |r| <= 400
    ensures !Truthy(d) ==> r == ""
    ensures d.JStr? ==> r == Take(Trim(d.s), 400)
    ensures !d.JStr? ==> '\n' !in r
    ensures !d.JStr? && !d.JArr? ==> r == ""
  {
    if !Truthy(d) then ""
    else if d.JStr? then Take(Trim(d.s), 400)
    else if d.JArr? && d.items[0].JObj? then
      var first := d.items[0];
      var content := if Str(Get(first, "content")) != "" then Str(Get(first, "content")) else Str(Get(first, "title"));
      var text := Trim(CollapseNewlines(StripHeading(content)));
      TrimKeepsAbsence(CollapseNewlines(StripHeading(content)), '\n');
      TakeKeepsAbsence(text, '\n', 400);
      Take(text, 400)
    else ""
  }

  /** The short description: the tagline, else the description text, else
      "Built on Base.", cut to 377 characters plus "..." when longer than 380. */
  function ShortDescription(tagline: string, desc: string): (r: string)
    ensures |r| <= 380 && r != ""
    ensures var d := if tagline != "" then tagline else if desc != "" then desc else "Built on Base.";
      (|d| <= 380 ==> r == d) &&
      (|d| > 380 ==> |r| == 380 && r[..377] == d[..377] && r[377..] == "...")
  {
    var d := if tagline != "" then tagline else if desc != "" then desc else "Built on Base.";
    if |d| > 380 then d[..377] + "..." else d
  }

  const BoilerplatePhrases: seq<string> := [
    "First Place Winners will receive",
    "Incubator Placement",
    "Demo Day Invitation",
    "Second Place Winners",
    "prizes to teams placed"
  ]

  predicate IsBoilerplate(phrases: seq<string>, content: string) {
    exists phrase | phrase in phrases :: Contains(content, phrase)
  }

  /** The Markdown one section contributes, if it is kept: a mapping whose
      stripped content is non-empty and free of prize boilerplate. */
  function SectionPart(phrases: seq<string>, item: Json): (r: Option<string>)
    ensures r.Some? ==> r.value != [] && !IsSpace(r.value[0]) && !IsSpace(r.value[|r.value| - 1])
  {
    if !item.JObj? then None
    else
      var title := Trim(Str(Get(item, "title")));
      var content := Trim(Str(Get(item, "content")));
      TrimShape(Str(Get(item, "content")));
      if content == "" || IsBoilerplate(phrases, content) then None
      else if title != "" then Some("## " + title + "\n\n" + content)
      else Some(content)
  }

  function SectionPartFor(phrases: seq<string>): Json -> Option<string> {
    item => SectionPart(phrases, item)
  }

  /** The kept parts, in section order. */
  function SectionParts(phrases: seq<string>, items: seq<Json>): seq<string> {
    FilterMap(items, SectionPartFor(phrases))
  }

  function FullDescriptionSpec(phrases: seq<string>, d: Json): string {
    if !d.JArr? then ""
    else
      var parts := SectionParts(phrases, d.items);
      if parts == [] then "" else Trim(Join(parts, "\n\n"))
  }

  /** full_description_markdown: the kept sections joined by blank lines. */
  method FullDescriptionMarkdown(phrases: seq<string>, d: Json) returns (r: string)
    ensures r == FullDescriptionSpec(phrases, d)
  {
    if !Truthy(d) || !d.JArr? {
      return "";
    }
    var parts: seq<string> := [];
    var i := 0;
    while i < |d.items|
      invariant 0 <= i <= |d.items|
      invariant parts == FilterMap(d.items[..i], SectionPartFor(phrases))
    {
      var part := SectionPart(phrases, d.items[i]);
      FilterMapStep(d.items, SectionPartFor(phrases), i);
      parts := parts + OptionToSeq(part);
      i := i + 1;
    }
    TakeSnoc(d.items, i);
    if parts == [] {
      return "";
    }
    return Trim(Join(parts, "\n\n"));
  }

  lemma SectionPartsShape(phrases: seq<string>, items: seq<Json>)
    ensures forall p | p in SectionParts(phrases, items) :: p != [] && !IsSpace(p[0]) && !IsSpace(p[|p| - 1])
  {
    FilterMapSource(items, SectionPartFor(phrases));
  }

  lemma {:induction false} JoinEnds(parts: seq<string>, sep: string)
    requires parts != [] && forall p | p in parts :: p != []
    ensures var j := Join(parts, sep); var l := parts[|parts| - 1];
      parts[0] != [] && l != [] && j != [] && j[0] == parts[0][0] && j[|j| - 1] == l[|l| - 1]
  {
    assert parts[0] in parts && parts[|parts| - 1] in parts;
    if |parts| > 1 {
      assert forall p | p in parts[1..] :: p in parts;
      JoinEnds(parts[1..], sep);
      assert Join(parts, sep) == parts[0] + sep + Join(parts[1..], sep);
    }
  }

  /** The full description is empty exactly when no section is kept, and the
      final strip never changes the join. */
  lemma FullDescriptionIsJoin(phrases: seq<string>, d: Json)
    ensures d.JArr? ==> (FullDescriptionSpec(phrases, d) == "" <==>
      forall k | 0 <= k < |d.items| :: SectionPart(phrases, d.items[k]).None?)
    ensures d.JArr? && SectionParts(phrases, d.items) != [] ==>
      FullDescriptionSpec(phrases, d) == Join(SectionParts(phrases, d.items), "\n\n")
  {
    if d.JArr? {
      var parts := SectionParts(phrases, d.items);
      FilterMapEmpty(d.items, SectionPartFor(phrases));
      if parts != [] {
        SectionPartsShape(phrases, d.items);
        JoinEnds(parts, "\n\n");
        TrimOfTrimmed(Join(parts, "\n\n"));
      }
    }
  }

  // ---------------------------------------------------------------------
  // Founder attribution

  /** The founder a member contributes, if any: the username with its spaces
      removed and stripped must be non-empty. */
  function MemberFounder(m: Json, projectName: string): Option<ProjectFounder> {
    if !m.JObj? then None
    else
      var first := Trim(Str(Get(m, "first_name")));
      var last := Trim(Str(Get(m, "last_name")));
      var full := Trim(first + " " + last);
      var username := Trim(ReplaceChar(Str(Get(m, "username")), ' ', ""));
      if username == "" then None
      else Some(ProjectFounder(if full != "" then full else projectName, username, None))
  }

  function FounderFor(projectName: string): Json -> Option<ProjectFounder> {
    m => MemberFounder(m, projectName)
  }

  /** The founders kept from a member list: every one has a name and a
      non-empty handle free of spaces. */
  function KeptFoundersSpec(members: seq<Json>, projectName: string): (r: seq<ProjectFounder>)
    ensures projectName != "" ==> forall f | f in r ::
      f.name != "" && f.twitter != "" && ' ' !in f.twitter && f.github.None?
  {
    FilterMapSource(members, FounderFor(projectName));
    MembersWellFormed(members, projectName);
    FilterMap(members, FounderFor(projectName))
  }

  /** Every kept founder has a name and a non-empty handle free of spaces. */
  lemma MemberFounderWellFormed(m: Json, projectName: string)
    requires projectName != ""
    ensures var f := MemberFounder(m, projectName);
      f.Some? ==> f.value.name != "" && f.value.twitter != "" && ' ' !in f.value.twitter && f.value.github.None?
  {
    if m.JObj? {
      TrimKeepsAbsence(ReplaceChar(Str(Get(m, "username")), ' ', ""), ' ');
    }
  }

  lemma MembersWellFormed(members: seq<Json>, projectName: string)
    ensures projectName != "" ==> forall k | 0 <= k < |members| :: var f := MemberFounder(members[k], projectName);
      f.Some? ==> f.value.name != "" && f.value.twitter != "" && ' ' !in f.value.twitter && f.value.github.None?
  {
    if projectName != "" {
      forall k | 0 <= k < |members| {
        MemberFounderWellFormed(members[k], projectName);
      }
    }
  }


  /** The members loop: skips members without a usable username. */
  method KeptFounders(members: seq<Json>, projectName: string) returns (kept: seq<ProjectFounder>)
    ensures kept == KeptFoundersSpec(members, projectName)
  {
    kept := [];
    var i := 0;
    while i < |members|
      invariant 0 <= i <= |members|
      invariant kept == FilterMap(members[..i], FounderFor(projectName))
    {
      var f := FounderFor(projectName)(members[i]);
      FilterMapStep(members, FounderFor(projectName), i);
      kept := kept + OptionToSeq(f);
      i := i + 1;
    }
    TakeSnoc(members, i);
  }

  // ---------------------------------------------------------------------
  // Link partition

  const SkipDomains: seq<string> := [
    "basescan.org", "blockscout.com", "drive.google.com", "canva.com", "1drv.ms",
    "linktr.ee", "medium.com", "docs.google.com", "figma.com"
  ]

  predicate IsGithubLink(lower: string) { Contains(lower, "github.com") }
  predicate IsFarcasterLink(lower: string) { Contains(lower, "farcaster.xyz") || Contains(lower, "warpcast.com") }
  predicate IsYoutubeLink(lower: string) { Contains(lower, "youtu.be") || Contains(lower, "youtube.com") }
  predicate IsSkipped(skip: seq<string>, lower: string) { exists d | d in skip :: Contains(lower, d) }

  /** A segment is considered at all when, stripped, it starts with "http". */
  predicate IsCandidate(part: string) { StartsWith(Trim(part), "http") }

  datatype LinkState = LinkState(github: string, farcaster: string, youtube: string, other: seq<string>)

  /** One pass of the link loop over a raw segment. */
  function LinkStep(skip: seq<string>, st: LinkState, raw: string): LinkState {
    var part := Trim(raw);
    if part == "" || !StartsWith(part, "http") then st
    else
      var lower := Lower(part);
      if IsGithubLink(lower) && st.github == "" then st.(github := part)
      else if IsFarcasterLink(lower) then (if st.farcaster == "" then st.(farcaster := part) else st)
      else if IsYoutubeLink(lower) then (if st.youtube == "" then st.(youtube := part) else st)
      else if !IsSkipped(skip, lower) then st.(other := st.other + [part])
      else st
  }

  function LinkFold(skip: seq<string>, parts: seq<string>): LinkState {
    if parts == [] then LinkState("", "", "", [])
    else LinkStep(skip, LinkFold(skip, parts[..|parts| - 1]), parts[|parts| - 1])
  }

  /** The segments of the links field: full-width commas count as commas. */
  function LinkSegments(linksStr: string): seq<string> {
    Split(ReplaceChar(linksStr, '\U{FF0C}', ","), ',')
  }

  function PartitionSpec(skip: seq<string>, linksStr: string): (r: LinkState)
    ensures |r.other| <= 5
  {
    var st := if linksStr != "" then LinkFold(skip, LinkSegments(linksStr)) else LinkState("", "", "", []);
    st.(other := Take(st.other, 5))
  }

  /** The github link is the first candidate segment that mentions
      github.com, or "" when there is none. */
  lemma {:induction false} GithubIsFirst(skip: seq<string>, parts: seq<string>)
    ensures var g := LinkFold(skip, parts).github;
      (g == "" <==> forall k | 0 <= k < |parts| :: !(IsCandidate(parts[k]) && IsGithubLink(Lower(Trim(parts[k])))))
    ensures var g := LinkFold(skip, parts).github;
      g != "" ==> exists k | 0 <= k < |parts| ::
        g == Trim(parts[k]) && IsCandidate(parts[k]) && IsGithubLink(Lower(g)) &&
        forall j | 0 <= j < k :: !(IsCandidate(parts[j]) && IsGithubLink(Lower(Trim(parts[j]))))
  {
    if parts != [] {
      var init := parts[..|parts| - 1];
      GithubIsFirst(skip, init);
      assert forall k | 0 <= k < |init| :: init[k] == parts[k];
      var last := parts[|parts| - 1];
      if LinkFold(skip, init).github == "" && IsCandidate(last) && IsGithubLink(Lower(Trim(last))) {
        assert Trim(last) != "";
        assert LinkFold(skip, parts).github == Trim(last);
      }
    }
  }

  /** Every "other" link is a stripped candidate segment that is neither a
      Farcaster nor a YouTube link and is on no skipped domain. */
  lemma {:induction false} OtherLinksAreKept(skip: seq<string>, parts: seq<string>)
    ensures forall o | o in LinkFold(skip, parts).other ::
      StartsWith(o, "http") && !IsFarcasterLink(Lower(o)) && !IsYoutubeLink(Lower(o)) && !IsSkipped(skip, Lower(o)) &&
      exists k | 0 <= k < |parts| :: o == Trim(parts[k])
  {
    if parts != [] {
      var init := parts[..|parts| - 1];
      OtherLinksAreKept(skip, init);
      assert forall k | 0 <= k < |init| :: init[k] == parts[k];
    }
  }

  /** Once a github link is taken, a further github.com segment that is not a
      Farcaster or YouTube link and not on a skipped domain is appended to
      the other links rather than dropped. */
  lemma SecondGithubIsOther(skip: seq<string>, parts: seq<string>, raw: string)
    requires LinkFold(skip, parts).github != ""
    requires IsCandidate(raw)
    requires var lower := Lower(Trim(raw));
      IsGithubLink(lower) && !IsFarcasterLink(lower) && !IsYoutubeLink(lower) && !IsSkipped(skip, lower)
    ensures LinkFold(skip, parts + [raw]).other == LinkFold(skip, parts).other + [Trim(raw)]
    ensures LinkFold(skip, parts + [raw]).github == LinkFold(skip, parts).github
  {
    assert (parts + [raw])[..|parts|] == parts;
  }

  /** The links loop: each segment is classified in turn, and at most five
      other links survive. */
  method PartitionLinks(skip: seq<string>, linksStr: string) returns (st: LinkState)
    ensures st == PartitionSpec(skip, linksStr)
  {
    st := LinkState("", "", "", []);
    if linksStr != "" {
      var parts := LinkSegments(linksStr);
      var i := 0;
      while i < |parts|
        invariant 0 <= i <= |parts|
        invariant st == LinkFold(skip, parts[..i])
      {
        assert parts[..i + 1][..i] == parts[..i];
        var part := Trim(parts[i]);
        if part != "" && StartsWith(part, "http") {
          var lower := Lower(part);
          if IsGithubLink(lower) && st.github == "" {
            st := st.(github := part);
          } else if IsFarcasterLink(lower) {
            if st.farcaster == "" {
              st := st.(farcaster := part);
            }
          } else if IsYoutubeLink(lower) {
            if st.youtube == "" {
              st := st.(youtube := part);
            }
          } else if !IsSkipped(skip, lower) {
            st := st.(other := st.other + [part]);
          }
        }
        i := i + 1;
      }
      assert parts[..i] == parts;
    }
    st := st.(other := Take(st.other, 5));
  }

  // ---------------------------------------------------------------------
  // Tags

  /** One tag, `h.get("name") or h if isinstance(h, dict) else str(h)`: a
      mapping gives its truthy name, whatever its type, or else the mapping
      itself; every other value gives its Python text. */
  function TagValue(h: Json): Json {
    if h.JObj? then Or(Get(h, "name"), h) else JStr(PyStr(h))
  }

  /** The first 15 truthy hashtags, each as its tag value, in order;
      duplicates are kept. */
  function TagNames(hashtags: seq<Json>): (r: seq<Json>)
    ensures var kept := Filter(hashtags, Truthy);
      && |r| == (if |kept| < 15 then |kept| else 15)
      && forall i | 0 <= i < |r| :: r[i] == TagValue(kept[i])
    ensures forall t | t in r :: exists h | h in hashtags :: Truthy(h) && TagValue(h) == t
  {
    var kept := Filter(hashtags, Truthy);
    FilterMembers(hashtags, Truthy);
    var r := Take(Mapped(kept, TagValue), 15);
    assert forall i | 0 <= i < |r| :: r[i] == TagValue(kept[i]) && kept[i] in kept;
    r
  }

  /** What str() and `or` make of hashtags that are not plain strings: a
      list becomes its Python text, a mapping without a truthy name stays a
      mapping, and a name that is not a string is kept as it is. */
  lemma TagValueExamples()
    ensures TagValue(JArr([JStr("x")])) == JStr("['x']")
    ensures TagValue(JNum(7)) == JStr("7")
    ensures TagValue(JObj([Field("name", JStr(""))])) == JObj([Field("name", JStr(""))])
    ensures TagValue(JObj([Field("name", JNum(3))])) == JNum(3)
  {
    assert PyText.ReprBody("x", '\'') == "x";
    assert PyText.StrRepr("x") == "'x'";
  }

  /** The tag list is only capped, never deduplicated: a repeated hashtag
      appears twice. */
  lemma TagNamesKeepDuplicates()
    ensures TagNames([JStr("defi"), JStr("defi")]) == [JStr("defi"), JStr("defi")]
  {
    assert [JStr("defi"), JStr("defi")][..1] == [JStr("defi")];
    assert Filter([JStr("defi")], Truthy) == [JStr("defi")];
  }

  // ---------------------------------------------------------------------
  // The record

  const HackathonBatchMap: seq<(string, string)> := [
    ("base-batch-india", "Base Batch India"),
    ("build-onchain-fbi", "Build Onchain FBI"),
    ("onchain-ai-blr", "Onchain AI BLR"),
    ("based-india", "Based India")
  ]

  /** The script's constant tables. The operations below take them as a
      parameter, so what is proved of them holds for any tables. */
  datatype Tables = Tables(
    categoryKeywords: seq<(string, seq<string>)>,
    boilerplate: seq<string>,
    skipDomains: seq<string>,
    batchMap: seq<(string, string)>)

  const DevfolioTables: Tables := Tables(CategoryKeywords, BoilerplatePhrases, SkipDomains, HackathonBatchMap)

  /** HACKATHON_BATCH_MAP.get(subdomain), with "" for a missing key. */
  function BatchOf(subdomain: string, table: seq<(string, string)>): string {
    if table == [] then "" else if table[0].0 == subdomain then table[0].1 else BatchOf(subdomain, table[1..])
  }

  function NonEmpty(s: string): (r: Option<string>)
    ensures r.Some? ==> r.value != ""
  {
    if s != "" then Some(s) else None
  }

  /** The hackathon subdomain, "base-batch-india" when blank. */
  function Subdomain(hackathon: Json): (r: string)
    ensures r != ""
  {
    var sub := Trim(Str(Get(hackathon, "subdomain")));
    if sub != "" then sub else "base-batch-india"
  }

  /** The batch: the mapped display name, else the hackathon's name, else
      "Base Batch India". */
  function BatchName(batchMap: seq<(string, string)>, hackathon: Json): (r: string)
    ensures r != ""
  {
    var mapped := BatchOf(Subdomain(hackathon), batchMap);
    if mapped != "" then mapped
    else if Str(Get(hackathon, "name")) != "" then Str(Get(hackathon, "name"))
    else "Base Batch India"
  }

  /** The stripped name, or "Project {i+1}". */
  function ProjectName(src: Json, i: nat): (r: string)
    ensures r != ""
  {
    var raw := Trim(Str(Get(src, "name")));
    if raw != "" then raw else "Project " + NatToString(i + 1)
  }

  /** The project page: the hackathon's projects page, plus "/slug". */
  function ProjectUrl(subdomain: string, slug: string): string {
    var baseUrl := "https://" + subdomain + ".devfolio.co/projects";
    if slug != "" then baseUrl + "/" + slug else baseUrl
  }

  /** The uuid, or the 1-based position as text. */
  function ProjectId(src: Json, i: nat): (r: string)
    ensures r != ""
  {
    if Str(Get(src, "uuid")) != "" then Str(Get(src, "uuid")) else NatToString(i + 1)
  }

  /** The favicon or cover image, stripped; else the first two characters of
      the name, upper-cased. */
  function Logo(src: Json, name: string): (r: string)
    requires name != ""
    ensures r != ""
    ensures var logo := Trim(Str(Or(Get(src, "favicon"), Get(src, "cover_img"))));
      && (logo != "" ==> r == logo)
      && (logo == "" ==> |r| == (if |name| < 2 then |name| else 2))
      && (logo == "" ==> forall k | 0 <= k < |r| :: r[k] == UpperChar(name[k]))
  {
    var logo := Trim(Str(Or(Get(src, "favicon"), Get(src, "cover_img"))));
    if logo != "" then logo else Upper(Take(name, 2))
  }

  /** Assembles the output record from its computed parts. */
  function Assemble(id: string, name: string, description: string, descriptionFull: string, category: string,
                    kept: seq<ProjectFounder>, slug: string, url: string, batch: string, tags: seq<Json>,
                    logo: string, links: LinkState): (p: Project)
    requires id != "" && name != "" && logo != "" && batch != ""
    requires 0 < |description| <= 380 && |tags| <= 15 && |links.other| <= 5
    requires forall f | f in kept :: f.twitter != ""
    ensures && p.id != "" && p.name != "" && p.founderTwitter != "" && p.logo != "" && p.batch != ""
      && 0 < |p.description| <= 380
      && p.source == Some(p.url)
      && |p.tags| <= 15
      && (p.links.Some? ==> 0 < |p.links.value| <= 5)
      && (p.slug.Some? ==> p.slug.value != "")
      && (p.descriptionFull.Some? ==> p.descriptionFull.value != "")
      && (p.github.Some? ==> p.github.value != "")
      && (p.farcaster.Some? ==> p.farcaster.value != "")
      && (p.youtube.Some? ==> p.youtube.value != "")
      && (p.founders.Some? ==> p.founders.value != [] && p.founderTwitter == p.founders.value[0].twitter)
      && p.prizes.None?
  {
    Project(
      id := id,
      name := name,
      description := description,
      descriptionFull := NonEmpty(descriptionFull),
      category := category,
      founder := if kept != [] then kept[0].name else name,
      founderTwitter := if kept != [] then kept[0].twitter else if slug != "" then slug else "devfolio",
      founderTwitterHandle := None,
      founderGithub := None,
      founders := if kept != [] then Some(kept) else None,
      slug := NonEmpty(slug),
      url := url,
      batch := batch,
      tags := tags,
      logo := logo,
      source := Some(url),
      github := NonEmpty(links.github),
      farcaster := NonEmpty(links.farcaster),
      youtube := NonEmpty(links.youtube),
      links := if links.other != [] then Some(links.other) else None,
      prizes := None)
  }

  /** The per-record body of the script's main loop; None for a record that
      is not a mapping. i is the record's position in the input. */
  function NormalizeSpec(t: Tables, src: Json, i: nat): (r: Option<Project>)
    ensures r.Some? <==> src.JObj?
  {
    if !src.JObj? then None
    else
      var hackathon := Get(src, "hackathon");
      var name := ProjectName(src, i);
      var slug := Trim(Str(Get(src, "slug")));
      var tagline := Trim(Str(Get(src, "tagline")));
      var hashtags := Items(Get(src, "hashtags"));
      Some(Assemble(
        ProjectId(src, i),
        name,
        ShortDescription(tagline, DescriptionText(Get(src, "description"))),
        FullDescriptionSpec(t.boilerplate, Get(src, "description")),
        CategoryOf(t.categoryKeywords, hashtags),
        KeptFoundersSpec(Items(Get(src, "members")), name),
        slug,
        ProjectUrl(Subdomain(hackathon), slug),
        BatchName(t.batchMap, hackathon),
        TagNames(hashtags),
        Logo(src, name),
        PartitionSpec(t.skipDomains, Trim(Str(Get(src, "links"))))))
  }

  /** The mandatory keys always carry a usable value, the optional keys are
      present only with a non-empty value, and prizes are never emitted. */
  lemma NormalizedRecordShape(t: Tables, src: Json, i: nat)
    requires src.JObj?
    ensures var p := NormalizeSpec(t, src, i).value;
      && p.id != "" && p.name != "" && p.founderTwitter != "" && p.logo != "" && p.batch != ""
      && 0 < |p.description| <= 380
      && p.source == Some(p.url)
      && |p.tags| <= 15
      && (p.links.Some? ==> 0 < |p.links.value| <= 5)
      && (p.slug.Some? ==> p.slug.value != "")
      && (p.descriptionFull.Some? ==> p.descriptionFull.value != "")
      && (p.github.Some? ==> p.github.value != "")
      && (p.farcaster.Some? ==> p.farcaster.value != "")
      && (p.youtube.Some? ==> p.youtube.value != "")
      && (p.founders.Some? ==> p.founders.value != [] && p.founderTwitter == p.founders.value[0].twitter)
      && p.prizes.None?
  {
  }

  /** Founder attribution: the first member with a usable username supplies
      founder and founderTwitter; without one, the project name and the slug
      (or "devfolio") stand in. */
  lemma FounderAttribution(t: Tables, src: Json, i: nat)
    requires src.JObj?
    ensures var p := NormalizeSpec(t, src, i).value;
      var kept := KeptFoundersSpec(Items(Get(src, "members")), p.name);
      var slug := Trim(Str(Get(src, "slug")));
      && (kept != [] ==> p.founder == kept[0].name && p.founderTwitter == kept[0].twitter)
      && (kept == [] ==> p.founder == p.name && p.founderTwitter == (if slug != "" then slug else "devfolio"))
  {
  }

  /** The per-record body, step by step. */
  method Normalize(t: Tables, src: Json, i: nat) returns (r: Option<Project>)
    ensures r == NormalizeSpec(t, src, i)
  {
    if !src.JObj? {
      return None;
    }
    var hackathon := Get(src, "hackathon");
    var subdomain := Subdomain(hackathon);
    var batch := BatchName(t.batchMap, hackathon);
    var name := ProjectName(src, i);
    var slug := Trim(Str(Get(src, "slug")));
    var tagline := Trim(Str(Get(src, "tagline")));
    var description := ShortDescription(tagline, DescriptionText(Get(src, "description")));
    var descriptionFull := FullDescriptionMarkdown(t.boilerplate, Get(src, "description"));
    var hashtags := Items(Get(src, "hashtags"));
    var tags := TagNames(hashtags);
    var kept := KeptFounders(Items(Get(src, "members")), name);
    var url := ProjectUrl(subdomain, slug);
    var logo := Logo(src, name);
    var links := PartitionLinks(t.skipDomains, Trim(Str(Get(src, "links"))));
    var category := InferCategory(t.categoryKeywords, hashtags);
    r := Some(Assemble(ProjectId(src, i), name, description, descriptionFull, category,
                       kept, slug, url, batch, tags, logo, links));
  }

  function NormalizeFor(t: Tables): (Json, nat) -> Option<Project> {
    (src: Json, i: nat) => NormalizeSpec(t, src, i)
  }

  predicate IsRecord(j: Json) {
    j.JObj?
  }

  /** The whole input list: records that are not mappings are skipped but
      still count for the numbering. */
  function TransformSpec(t: Tables, raw: seq<Json>): seq<Project> {
    FilterMapIndexed(raw, NormalizeFor(t))
  }

  /** One project per input record that is a mapping. */
  lemma TransformCount(t: Tables, raw: seq<Json>)
    ensures |TransformSpec(t, raw)| == |Filter(raw, IsRecord)|
  {
    FilterMapIndexedLength(raw, NormalizeFor(t), IsRecord);
  }

  /** The script's main loop. */
  method TransformAll(t: Tables, raw: seq<Json>) returns (projects: seq<Project>)
    ensures projects == TransformSpec(t, raw)
  {
    projects := [];
    var i := 0;
    while i < |raw|
      invariant 0 <= i <= |raw|
      invariant projects == FilterMapIndexed(raw[..i], NormalizeFor(t))
    {
      var p := Normalize(t, raw[i], i);
      FilterMapIndexedStep(raw, NormalizeFor(t), i);
      projects := projects + OptionToSeq(p);
      i := i + 1;
    }
    TakeSnoc(raw, i);
  }
}
