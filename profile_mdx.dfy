/** The founder profile writer (scripts/devfolio-scraper/fetch_devfolio_profile_json.py,
    from the extracted page data onward): the social links, the front-matter
    schema, the MDX document, the set of usernames a run fetches and the
    clean-up of duplicate profile files. */
module ProfileMdx {
  import opened Strings
  import opened JsonValue
  import opened Lists
  import opened Escape
  import opened ProfileLinks
  import opened ProfileExtract
  import PyText

  // ---------------------------------------------------------------------
  // Social links (social_from_profiles)
  // ---------------------------------------------------------------------

  datatype Platform = Github | Twitter | Linkedin

  /** The link of a profile entry: url, else link, else value, stripped. */
  function ProfileUrl(p: Json): string {
    Trim(Str(Or(Or(Get(p, "url"), Get(p, "link")), Get(p, "value"))))
  }

  /** The kind of a profile entry: type, else platform, else name, lowercased. */
  function ProfileKind(p: Json): string {
    Lower(Str(Or(Or(Get(p, "type"), Get(p, "platform")), Get(p, "name"))))
  }

  /** An entry names a platform by its kind or, for GitHub and Twitter, by a
      domain occurring anywhere in its link. Entries that are not mappings are
      skipped. One entry can name several platforms. */
  predicate Names(p: Json, pl: Platform) {
    var url := ProfileUrl(p);
    var kind := ProfileKind(p);
    p.JObj? &&
    match pl
    case Github => Contains(kind, "github") || Contains(url, "github.com")
    case Twitter => Contains(kind, "twitter") || Contains(url, "x.com") || Contains(url, "twitter.com")
    case Linkedin => Contains(kind, "linkedin")
  }

  /** Python `url or None`. */
  function UrlOrNone(url: string): (r: Option<string>)
    ensures r.Some? ==> r.value == url && url != ""
  {
    if url == "" then None else Some(url)
  }

  /** The entries naming one platform, as a predicate. */
  function NamesFor(pl: Platform): Json -> bool {
    (p: Json) => Names(p, pl)
  }

  /** An entry's link, None when it is blank. */
  function LinkOf(p: Json): Option<string> {
    UrlOrNone(ProfileUrl(p))
  }

  /** The link recorded for one platform after reading the entries in order:
      every entry naming the platform overwrites it, even with None. */
  function SocialLink(profiles: seq<Json>, pl: Platform): Option<string> {
    LastWith(profiles, NamesFor(pl), LinkOf)
  }

  datatype Social = Social(github: Option<string>, twitter: Option<string>, linkedin: Option<string>)

  function SocialOf(profiles: seq<Json>): Social {
    Social(SocialLink(profiles, Github), SocialLink(profiles, Twitter), SocialLink(profiles, Linkedin))
  }

  /** The classification loop of social_from_profiles. */
  method SocialFromProfiles(profiles: seq<Json>) returns (s: Social)
    ensures s == SocialOf(profiles)
  {
    s := Social(None, None, None);
    var i := 0;
    while i < |profiles|
      invariant 0 <= i <= |profiles|
      invariant s == SocialOf(profiles[..i])
    {
      assert profiles[..i + 1][..i] == profiles[..i];
      assert profiles[..i + 1][i] == profiles[i];
      var p := profiles[i];
      var url := ProfileUrl(p);
      if Names(p, Github) {
        s := s.(github := UrlOrNone(url));
      }
      if Names(p, Twitter) {
        s := s.(twitter := UrlOrNone(url));
      }
      if Names(p, Linkedin) {
        s := s.(linkedin := UrlOrNone(url));
      }
      i := i + 1;
    }
    assert profiles[..i] == profiles;
  }

  /** A platform no entry names has no link; otherwise the link is that of
      the last entry naming it, which is not blank. */
  lemma SocialLinkIsLastNamed(profiles: seq<Json>, pl: Platform)
    ensures (forall k | 0 <= k < |profiles| :: !Names(profiles[k], pl)) ==> SocialLink(profiles, pl).None?
    ensures SocialLink(profiles, pl).Some? ==>
      exists k | 0 <= k < |profiles| ::
        Names(profiles[k], pl) && SocialLink(profiles, pl).value == ProfileUrl(profiles[k]) &&
        ProfileUrl(profiles[k]) != "" &&
        forall j | k < j < |profiles| :: !Names(profiles[j], pl)
  {
    LastWithIsLast(profiles, NamesFor(pl), LinkOf);
  }

  /** The last entry naming a platform decides its link, even when that entry
      has none: earlier links are then dropped. */
  lemma SocialLinkOfLast(profiles: seq<Json>, pl: Platform, k: nat)
    requires k < |profiles| && Names(profiles[k], pl)
    requires forall j | k < j < |profiles| :: !Names(profiles[j], pl)
    ensures SocialLink(profiles, pl) == UrlOrNone(ProfileUrl(profiles[k]))
  {
    LastWithAt(profiles, NamesFor(pl), LinkOf, k);
  }

  // ---------------------------------------------------------------------
  // The front-matter schema (build_founder_schema)
  // ---------------------------------------------------------------------

  /** A front-matter value: a string, an integer, a float (the prize amount,
      which Python prints with a trailing ".0"), the tag list, or None. */
  datatype Value = VStr(s: string) | VInt(n: int) | VFloat(whole: int) | VList(items: seq<string>) | VNone

  /** The front-matter keys the writer uses. */
  datatype Key =
    | Username | Name | City | Country | ShortBio | ProfileImage | GithubUrl | TwitterUrl | LinkedinUrl
    | HackathonsAttended | ProjectsBuilt | PrizesWon | PrizeWinningsAmount | OnchainCredsClaimed | Tags

  /** The key as written in the front matter. */
  function KeyName(k: Key): (r: string)
    ensures '\n' !in r
  {
    match k
    case Username => "username"
    case Name => "name"
    case City => "city"
    case Country => "country"
    case ShortBio => "short_bio"
    case ProfileImage => "profile_image"
    case GithubUrl => "github"
    case TwitterUrl => "twitter"
    case LinkedinUrl => "linkedin"
    case HackathonsAttended => "hackathons_attended"
    case ProjectsBuilt => "projects_built"
    case PrizesWon => "prizes_won"
    case PrizeWinningsAmount => "prize_winnings_amount"
    case OnchainCredsClaimed => "onchain_creds_claimed"
    case Tags => "tags"
  }

  /** The front matter in key order (Python dicts keep insertion order). */
  type Schema = seq<(Key, Value)>

  function StrOrNone(s: string): (v: Value)
    ensures v.VStr? ==> v.s != ""
  {
    if s == "" then VNone else VStr(s)
  }

  function OptionOrNone(o: Option<string>): (v: Value)
    ensures v.VStr? ==> o == Some(v.s)
  {
    if o.Some? then VStr(o.value) else VNone
  }

  /** Python int() of a count: a number is itself, a boolean 1 or 0, a
      string its decimal value. A string int() rejects, or a list or
      mapping, makes the script raise; the model reads those as 0. */
  function CountOf(j: Json): int {
    match j
    case JNum(n) => n
    case JBool(b) => if b then 1 else 0
    case JStr(s) => PyText.IntOf(s).GetOr(0)
    case _ => 0
  }

  /** A count given as decimal text reads as its value, as int() reads it. */
  lemma CountOfText(n: int)
    ensures CountOf(JStr(IntToString(n))) == n
  {
    PyText.IntOfRoundTrip(n);
  }

  /** stats.get(a) or stats.get(b) or 0, as a count. */
  function StatCount(stats: Json, a: string, b: string): int {
    CountOf(Or(Or(Get(stats, a), Get(stats, b)), JNum(0)))
  }

  /** A counter given as decimal text under its first name reads as the
      number the text spells, whatever the second name holds. */
  lemma StatCountFromText(stats: Json, a: string, b: string, n: int)
    requires Get(stats, a) == JStr(IntToString(n))
    ensures StatCount(stats, a, b) == n
  {
    CountOfText(n);
  }

  datatype Stats = Stats(hackathons: int, projects: int, prizes: int, amount: int, creds: int)

  /** The five counters; all zero unless the statistics are a non-empty mapping. */
  function StatsOf(stats: Json): (r: Stats)
    ensures !Truthy(stats) || !stats.JObj? ==> r == Stats(0, 0, 0, 0, 0)
  {
    if Truthy(stats) && stats.JObj? then
      Stats(StatCount(stats, "hackathons_attended", "hackathon_count"),
            StatCount(stats, "projects_built", "project_count"),
            StatCount(stats, "prizes_won", "prize_count"),
            StatCount(stats, "prize_winnings_amount", "prize_amount"),
            StatCount(stats, "onchain_credentials_claimed", "onchain_creds"))
    else Stats(0, 0, 0, 0, 0)
  }

  /** The long biography as the user record holds it: bio, else full_bio,
      else long_bio, unstripped. */
  function FullBioRaw(user: Json): string {
    Str(Or(Or(Get(user, "bio"), Get(user, "full_bio")), Get(user, "long_bio")))
  }

  /** First and last name joined, or the username when both are blank. */
  function DisplayName(user: Json, username: string): (r: string)
    ensures username != "" ==> r != ""
  {
    var first := Trim(Str(Get(user, "first_name")));
    var last := Trim(Str(Get(user, "last_name")));
    var full := Trim(first + " " + last);
    if full != "" then full else username
  }

  function UserImage(user: Json): string {
    Trim(Str(Or(Or(Get(user, "profile_image"), Get(user, "avatar_url")), Get(user, "profileImage"))))
  }

  /** The city, "" unless an address was found. */
  function CityOf(address: Json): string {
    if Truthy(address) then Trim(Str(Or(Get(address, "city"), Get(address, "locality")))) else ""
  }

  /** The country: India by default, also when the address gives a blank one. */
  function CountryOf(address: Json): (r: string)
    ensures r != ""
    ensures !Truthy(address) ==> r == "India"
  {
    if !Truthy(address) then "India"
    else
      var c := Trim(Str(Or(Get(address, "country"), JStr("India"))));
      if c != "" then c else "India"
  }

  /** Words never taken as tags. */
  const TagStopwords: seq<string> := ["the", "and", "from", "for", "with", "building", "builder"]

  /** The words of both biographies, commas counting as spaces. */
  function BioWords(shortBio: string, fullBio: string): seq<string> {
    Words(ReplaceChar(shortBio + " " + fullBio, ',', " "))
  }

  /** A tag qualifies: longer than two characters, letters and digits only,
      not a stop word. */
  predicate IsTag(w: string) {
    |w| > 2 && IsAlnum(w) && w !in TagStopwords
  }

  /** A word with dots and hashes stripped from both ends, when it qualifies. */
  function TagCandidate(word: string): (r: Option<string>)
    ensures r.Some? ==> IsTag(r.value) && r.value == StripChars(word, ".#")
  {
    var w := StripChars(word, ".#");
    if IsTag(w) then Some(w) else None
  }

  const MaxTags: nat := 12

  /** The first twelve distinct qualifying words, in order of first use. */
  function BioTagsSpec(shortBio: string, fullBio: string): seq<string> {
    Take(Dedupe(FilterMap(BioWords(shortBio, fullBio), TagCandidate)), MaxTags)
  }

  /** The tag loop of build_founder_schema, then the order-keeping dedupe and
      the cut to twelve. */
  method BioTags(shortBio: string, fullBio: string) returns (tags: seq<string>)
    ensures tags == BioTagsSpec(shortBio, fullBio)
  {
    var words := BioWords(shortBio, fullBio);
    var found := [];
    var i := 0;
    while i < |words|
      invariant 0 <= i <= |words|
      invariant found == FilterMap(words[..i], TagCandidate)
    {
      FilterMapStep(words, TagCandidate, i);
      var w := TagCandidate(words[i]);
      if w.Some? {
        found := found + [w.value];
      }
      i := i + 1;
    }
    assert words[..i] == words;
    tags := Take(Dedupe(found), MaxTags);
  }

  /** At most twelve tags, none repeated, each a qualifying word of a
      biography with its dots and hashes stripped. */
  lemma BioTagsFacts(shortBio: string, fullBio: string)
    ensures var tags := BioTagsSpec(shortBio, fullBio);
      && |tags| <= MaxTags
      && Distinct(tags)
      && forall t | t in tags :: IsTag(t) && exists w | w in BioWords(shortBio, fullBio) :: StripChars(w, ".#") == t
  {
    var words := BioWords(shortBio, fullBio);
    var cands := FilterMap(words, TagCandidate);
    var d := Dedupe(cands);
    TakeDistinct(d, MaxTags);
    FilterMapSource(words, TagCandidate);
    var tags := Take(d, MaxTags);
    forall t | t in tags
      ensures IsTag(t) && exists w | w in words :: StripChars(w, ".#") == t
    {
      var k :| 0 <= k < |tags| && tags[k] == t;
      assert d[k] == t;
      assert t in cands;
    }
  }

  /** The keys of a schema, in order. */
  function Keys(schema: Schema): (r: seq<Key>)
    ensures |r| == |schema|
  {
    seq(|schema|, i requires 0 <= i < |schema| => schema[i].0)
  }

  /** The fifteen front-matter keys of a found profile, in order. */
  const FounderKeys: seq<Key> :=
    [Username, Name, City, Country, ShortBio, ProfileImage, GithubUrl, TwitterUrl, LinkedinUrl,
     HackathonsAttended, ProjectsBuilt, PrizesWon, PrizeWinningsAmount, OnchainCredsClaimed, Tags]

  /** No recorded link is blank. */
  predicate SocialNonBlank(s: Social) {
    (s.github.Some? ==> s.github.value != "") &&
    (s.twitter.Some? ==> s.twitter.value != "") &&
    (s.linkedin.Some? ==> s.linkedin.value != "")
  }

  lemma SocialOfNonBlank(profiles: seq<Json>)
    ensures SocialNonBlank(SocialOf(profiles))
  {
    SocialLinkIsLastNamed(profiles, Github);
    SocialLinkIsLastNamed(profiles, Twitter);
    SocialLinkIsLastNamed(profiles, Linkedin);
  }

  /** None stands for every blank optional string: city, short_bio,
      profile_image and the three links (the country, also at index 2..8, is
      never blank). */
  predicate OptionalsNonBlank(r: Schema)
    requires |r| >= 9
  {
    r[2].1 != VStr("") && r[3].1 != VStr("") && r[4].1 != VStr("") && r[5].1 != VStr("") &&
    r[6].1 != VStr("") && r[7].1 != VStr("") && r[8].1 != VStr("")
  }

  /** The schema of a found user from its parts. */
  function FounderSchema(username: string, name: string, city: string, country: string, shortBio: string,
                         image: string, social: Social, counts: Stats, tags: seq<string>): (r: Schema)
    requires SocialNonBlank(social) && country != ""
    ensures Keys(r) == FounderKeys
    ensures r[0] == (Username, VStr(username)) && r[1] == (Name, VStr(name))
    ensures r[3] == (Country, VStr(country)) && r[14] == (Tags, VList(tags))
    ensures OptionalsNonBlank(r)
  {
    [(Username, VStr(username)), (Name, VStr(name)), (City, StrOrNone(city)),
     (Country, VStr(country)), (ShortBio, StrOrNone(shortBio)), (ProfileImage, StrOrNone(image)),
     (GithubUrl, OptionOrNone(social.github)), (TwitterUrl, OptionOrNone(social.twitter)),
     (LinkedinUrl, OptionOrNone(social.linkedin)), (HackathonsAttended, VInt(counts.hackathons)),
     (ProjectsBuilt, VInt(counts.projects)), (PrizesWon, VInt(counts.prizes)),
     (PrizeWinningsAmount, VFloat(counts.amount)), (OnchainCredsClaimed, VInt(counts.creds)),
     (Tags, VList(tags))]
  }

  /** build_founder_schema. A missing or empty user gives only the username,
      as both username and name. Otherwise the fifteen keys: a name (the
      username at worst), a country (India at worst), None instead of every
      blank optional string, and at most twelve distinct tags. */
  function BuildFounderSchema(user: Json, profiles: seq<Json>, address: Json, stats: Json, username: string): (r: Schema)
    ensures r != [] && r[0] == (Username, VStr(username))
    ensures !Truthy(user) ==> r == [(Username, VStr(username)), (Name, VStr(username))]
    ensures Truthy(user) ==>
      && Keys(r) == FounderKeys
      && (username != "" ==> r[1].1.VStr? && r[1].1.s != "")
      && r[3].1 == VStr(CountryOf(address))
      && OptionalsNonBlank(r)
      && r[14].1.VList? && |r[14].1.items| <= MaxTags && Distinct(r[14].1.items)
  {
    if !Truthy(user) then [(Username, VStr(username)), (Name, VStr(username))]
    else
      var shortBio := Trim(Str(Get(user, "short_bio")));
      var fullBio := Trim(FullBioRaw(user));
      SocialOfNonBlank(profiles);
      BioTagsFacts(shortBio, fullBio);
      FounderSchema(username, DisplayName(user, username), CityOf(address), CountryOf(address), shortBio,
                    UserImage(user), SocialOf(profiles), StatsOf(stats), BioTagsSpec(shortBio, fullBio))
  }

  /** The schema written when the page could not be used: the username and a
      title-cased name with underscores as spaces. */
  function PlaceholderSchema(username: string): (r: Schema)
    ensures r != [] && r[0] == (Username, VStr(username))
  {
    [(Username, VStr(username)), (Name, VStr(TitleCase(ReplaceChar(username, '_', " "))))]
  }

  /** The placeholder name is the username with underscores turned into
      spaces and title-cased: it differs from that text only in case, and a
      letter of it is a capital exactly when it starts a run of letters. */
  lemma PlaceholderNameFacts(username: string)
    ensures var name := PlaceholderSchema(username)[1].1.s;
      Lower(name) == Lower(ReplaceChar(username, '_', " ")) && '_' !in name
    ensures CapitalisedWords(PlaceholderSchema(username)[1].1.s)
  {
    var spaced := ReplaceChar(username, '_', " ");
    TitleCaseOnlyChangesCase(spaced);
    TitleCaseCapitals(spaced);
    var name := PlaceholderSchema(username)[1].1.s;
    assert name == TitleCase(spaced);
    forall i | 0 <= i < |name|
      ensures name[i] != '_'
    {
      assert spaced[i] != '_';
    }
  }

  // ---------------------------------------------------------------------
  // The MDX document (mdx_escape, generate_mdx)
  // ---------------------------------------------------------------------

  function TagLine(t: string): string {
    "  - \"" + EscapeQuoted(t) + "\""
  }

  function TagLines(ts: seq<string>): (r: seq<string>)
    ensures |r| == |ts|
  {
    seq(|ts|, i requires 0 <= i < |ts| => TagLine(ts[i]))
  }

  /** The one-character strings of s: what Python's loop over a string yields. */
  function Chars(s: string): seq<string> {
    seq(|s|, i requires 0 <= i < |s| => [s[i]])
  }

  /** The front-matter lines of one entry. None is skipped; a non-empty tags
      value becomes a block list; a string is quoted and escaped; a number is
      written bare; a list under any other key is skipped. */
  function EntryLines(e: (Key, Value)): seq<string> {
    var k := KeyName(e.0);
    match e.1
    case VNone => []
    case VList(ts) => if e.0 == Tags && ts != [] then ["tags:"] + TagLines(ts) else []
    case VStr(s) =>
      if e.0 == Tags && s != "" then ["tags:"] + TagLines(Chars(s))
      else [k + ": \"" + EscapeQuoted(s) + "\""]
    case VInt(n) => [k + ": " + IntToString(n)]
    case VFloat(n) => [k + ": " + IntToString(n) + ".0"]
  }

  /** All front-matter lines, entry by entry. */
  function FrontMatter(schema: Schema): seq<string> {
    FlatMap(schema, EntryLines)
  }

  const AboutPlaceholder: string := "*Edit this section in the MDX file.*"
  const MaxAbout: nat := 2000

  /** The About paragraph: the first 2000 characters of the biography, or a
      prompt to edit when there is none. */
  function About(fullBio: string): (r: string)
    ensures fullBio != "" ==> |r| <= |fullBio| && |r| <= MaxAbout && r == fullBio[..|r|] && (|r| < MaxAbout ==> r == fullBio)
    ensures fullBio == "" ==> r == AboutPlaceholder
  {
    if fullBio != "" then Take(fullBio, MaxAbout) else AboutPlaceholder
  }

  /** Everything after the closing delimiter. */
  function Body(fullBio: string): (r: seq<string>)
    ensures r != []
  {
    ["", "## About", "", About(fullBio), "", "## What I'm Building", "",
     "*Add your focus areas and current projects here.*", "", "## Interests", "",
     "- Web3", "- Base", "- India ecosystem"]
  }

  function MdxLines(schema: Schema, fullBio: string): seq<string> {
    ["---"] + FrontMatter(schema) + ["---"] + Body(fullBio)
  }

  /** The document: the lines joined by newlines. */
  function MdxText(schema: Schema, fullBio: string): string {
    Join(MdxLines(schema, fullBio), "\n")
  }

  /** generate_mdx's loop over the schema. */
  method GenerateMdx(schema: Schema, fullBio: string) returns (mdx: string)
    ensures mdx == MdxText(schema, fullBio)
  {
    var lines := ["---"];
    var i := 0;
    while i < |schema|
      invariant 0 <= i <= |schema|
      invariant lines == ["---"] + FrontMatter(schema[..i])
    {
      FlatMapStep(schema, EntryLines, i);
      AppendAssoc(["---"], FrontMatter(schema[..i]), EntryLines(schema[i]));
      lines := lines + EntryLines(schema[i]);
      i := i + 1;
    }
    TakeSnoc(schema, i);
    lines := lines + ["---"] + Body(fullBio);
    mdx := Join(lines, "\n");
  }

  /** A front-matter line is one physical line and cannot be taken for the
      "---" delimiter: it holds a colon or starts with a space. */
  predicate IsFrontMatterLine(l: string) {
    '\n' !in l && (':' in l || (l != [] && l[0] == ' '))
  }

  lemma IntLineShape(k: string, n: int, tail: string)
    requires '\n' !in k && '\n' !in tail
    ensures IsFrontMatterLine(k + ": " + IntToString(n) + tail)
  {
    var s := IntToString(n);
    assert '\n' !in s by {
      forall i | 0 <= i < |s| ensures s[i] != '\n' { }
    }
    assert (k + ": " + s + tail)[|k|] == ':';
  }

  lemma EntryLinesShape(e: (Key, Value))
    ensures forall j | 0 <= j < |EntryLines(e)| :: IsFrontMatterLine(EntryLines(e)[j])
  {
    var k := KeyName(e.0);
    match e.1
    case VNone =>
    case VList(ts) =>
    case VStr(s) =>
      assert (k + ": \"" + EscapeQuoted(s) + "\"")[|k|] == ':';
    case VInt(n) =>
      IntLineShape(k, n, "");
      assert k + ": " + IntToString(n) + "" == k + ": " + IntToString(n);
    case VFloat(n) =>
      IntLineShape(k, n, ".0");
  }

  lemma FrontMatterLines(schema: Schema)
    ensures forall j | 0 <= j < |FrontMatter(schema)| :: IsFrontMatterLine(FrontMatter(schema)[j])
  {
    forall i | 0 <= i < |schema|
      ensures forall j | 0 <= j < |EntryLines(schema[i])| :: IsFrontMatterLine(EntryLines(schema[i])[j])
    {
      EntryLinesShape(schema[i]);
    }
    FlatMapAll(schema, EntryLines, IsFrontMatterLine);
  }

  /** Lines of that kind between two delimiters, followed by anything, split
      back into exactly those lines. */
  lemma DelimitedReadsBack(fm: seq<string>, rest: seq<string>)
    requires forall j | 0 <= j < |fm| :: IsFrontMatterLine(fm[j])
    requires rest != []
    ensures var lines := Split(Join(["---"] + fm + ["---"] + rest, "\n"), '\n');
      |lines| >= |fm| + 2 && lines[..|fm| + 2] == ["---"] + fm + ["---"] &&
      forall i | 1 <= i <= |fm| :: lines[i] != "---"
  {
    var head := ["---"] + fm + ["---"];
    forall i | 0 <= i < |head| ensures '\n' !in head[i] {
      if 0 < i <= |fm| { assert head[i] == fm[i - 1]; }
    }
    JoinSplitPrefix(head, rest, '\n');
    forall i | 1 <= i <= |fm| ensures head[i] != "---" {
      assert head[i] == fm[i - 1];
      assert IsFrontMatterLine(fm[i - 1]);
    }
  }

  /** A reader that splits the document into lines gets the opening
      delimiter, exactly the front-matter lines, and the closing delimiter. */
  lemma FrontMatterReadsBack(schema: Schema, fullBio: string)
    ensures var fm := FrontMatter(schema); var lines := Split(MdxText(schema, fullBio), '\n');
      |lines| >= |fm| + 2 && lines[..|fm| + 2] == ["---"] + fm + ["---"] &&
      forall i | 1 <= i <= |fm| :: lines[i] != "---"
  {
    FrontMatterLines(schema);
    DelimitedReadsBack(FrontMatter(schema), Body(fullBio));
  }

  // ---------------------------------------------------------------------
  // One profile page
  // ---------------------------------------------------------------------

  /** What fetching a profile page gave: a network failure, a page without
      the Next.js data script, data that is not JSON, or the parsed data. */
  datatype Fetch = FetchFailed | NoNextData | BadJson | Page(nextData: Json)

  /** The schema and biography written for one username: the placeholder for
      every failure, else what the page data yields. */
  function PageSchema(username: string, fetch: Fetch): (r: (Schema, string))
    ensures r.0 != [] && r.0[0] == (Username, VStr(username))
  {
    match fetch
    case Page(nextData) =>
      var ex := ExtractSpec(nextData);
      (BuildFounderSchema(ex.user, ex.profiles, ex.address, ex.stats, username),
       if Truthy(ex.user) then FullBioRaw(ex.user) else "")
    case _ => (PlaceholderSchema(username), "")
  }

  /** The document written for one username. */
  function ProfileDocument(username: string, fetch: Fetch): string {
    var ps := PageSchema(username, fetch);
    MdxText(ps.0, ps.1)
  }

  /** A document whose schema starts with the username opens with the
      delimiter and the username line. */
  lemma MdxStartsWithUsername(schema: Schema, fullBio: string, username: string)
    requires schema != [] && schema[0] == (Username, VStr(username))
    ensures var lines := Split(MdxText(schema, fullBio), '\n');
      |lines| >= 3 && lines[0] == "---" && lines[1] == "username: \"" + EscapeQuoted(username) + "\""
  {
    FrontMatterReadsBack(schema, fullBio);
    FlatMapFirst(schema, EntryLines);
    var first := EntryLines(schema[0]);
    assert KeyName(Username) == "username";
    assert "username" + ": \"" == "username: \"";
    assert first == ["username: \"" + EscapeQuoted(username) + "\""];
    var fm := FrontMatter(schema);
    assert fm[0] == first[0];
    var lines := Split(MdxText(schema, fullBio), '\n');
    assert lines[1] == (["---"] + fm + ["---"])[1];
  }

  /** Whatever the fetch gave, the page's front matter opens with its
      username. */
  lemma ProfileDocumentStartsWithUsername(username: string, fetch: Fetch)
    ensures var lines := Split(ProfileDocument(username, fetch), '\n');
      |lines| >= 3 && lines[0] == "---" && lines[1] == "username: \"" + EscapeQuoted(username) + "\""
  {
    var ps := PageSchema(username, fetch);
    MdxStartsWithUsername(ps.0, ps.1, username);
  }

  // ---------------------------------------------------------------------
  // The usernames of a run, and the clean-up (main)
  // ---------------------------------------------------------------------

  /** A handle worth fetching: not blank and not the organisation account. */
  predicate IsHandle(h: string) {
    h != "" && h != "devfolio"
  }

  /** The stripped handles of one project record: its founderTwitter and the
      twitter of every entry of its founders list. */
  function ProjectHandles(p: Json): seq<string> {
    var founders := Items(Get(p, "founders"));
    [Trim(Str(Get(p, "founderTwitter")))] +
    seq(|founders|, i requires 0 <= i < |founders| => Trim(Str(Get(founders[i], "twitter"))))
  }

  function HandlesOf(p: Json): set<string> {
    set h | h in ProjectHandles(p) && IsHandle(h)
  }

  /** The handles of every project. */
  function RawHandles(projects: seq<Json>): set<string> {
    UnionOf(projects, HandlesOf)
  }

  /** A handle known from the links file stands for its Devfolio username. */
  function Canonical(u: string, index: map<string, string>): string {
    if Lower(u) in index then index[Lower(u)] else u
  }

  function CanonicalFor(index: map<string, string>): string -> string {
    u => Canonical(u, index)
  }

  function CanonicalUsernames(projects: seq<Json>, index: map<string, string>): set<string> {
    ImageOf(RawHandles(projects), CanonicalFor(index))
  }

  /** The username collection of main, without retry arguments. */
  method CollectUsernames(projects: seq<Json>, index: map<string, string>) returns (usernames: set<string>)
    ensures usernames == CanonicalUsernames(projects, index)
  {
    var raw := UnionAll(projects, HandlesOf);
    usernames := MapSet(raw, CanonicalFor(index));
  }

  /** Every username of a run is a handle of some project that the links
      file does not know, or the Devfolio username the links file gives for a
      handle of some project. */
  lemma CanonicalUsernameOrigin(projects: seq<Json>, links: seq<Field>, u: string)
    requires u in CanonicalUsernames(projects, TwitterIndex(links))
    ensures exists h | h in RawHandles(projects) ::
      (Lower(h) !in TwitterIndex(links) && u == h) ||
      (exists k | 0 <= k < |links| :: links[k].key == u && Lower(EntryTwitter(links[k].value)) == Lower(h))
  {
    var index := TwitterIndex(links);
    var h :| h in RawHandles(projects) && CanonicalFor(index)(h) == u;
    if Lower(h) in index {
      MapOfLastWins(links, TwitterEntry, Lower(h));
    }
  }

  /** The trimmed, non-blank command-line arguments. */
  function RetryUsernames(args: seq<string>): set<string> {
    set a | a in args && Trim(a) != "" :: Trim(a)
  }

  /** The usernames a run fetches: the retry arguments when there are any;
      otherwise, when the project list exists, the canonical usernames of its
      handles (no index without a links file); otherwise nothing is done. */
  function RunUsernames(args: seq<string>, projectsFile: Option<seq<Json>>, linksFile: Option<seq<Field>>): Option<set<string>> {
    if RetryUsernames(args) != {} then Some(RetryUsernames(args))
    else if projectsFile.None? then None
    else
      var index := if linksFile.Some? then TwitterIndex(linksFile.value) else map[];
      Some(CanonicalUsernames(projectsFile.value, index))
  }

  /** The clean-up's test as written: a profile file whose lowercased name is
      a Twitter handle listed in the links file. */
  predicate IsDuplicateProfile(stem: string, links: seq<Field>): (r: bool)
    ensures r <==> exists i | 0 <= i < |links| ::
      EntryTwitter(links[i].value) != "" && Lower(EntryTwitter(links[i].value)) == Lower(stem)
  {
    MapOfKeys(links, TwitterEntry, Lower(stem));
    Lower(stem) in TwitterIndex(links)
  }

  /** The clean-up as written deletes the profile just written for a founder
      whose Devfolio username is also (up to case) their Twitter handle. */
  lemma CleanupDeletesCanonicalProfile()
    ensures var projects := [JObj([Field("founderTwitter", JStr("alice"))])];
      var links := [Field("alice", JObj([Field("twitter", JStr("Alice"))]))];
      "alice" in CanonicalUsernames(projects, TwitterIndex(links)) && IsDuplicateProfile("alice", links)
  {
    var projects := [JObj([Field("founderTwitter", JStr("alice"))])];
    var links := [Field("alice", JObj([Field("twitter", JStr("Alice"))]))];
    assert Trim("alice") == "alice";
    assert Trim("Alice") == "Alice";
    assert Lower("Alice") == "alice";
    assert Lower("alice") == "alice";
    assert TwitterIndex(links) == map["alice" := "alice"];
    assert ProjectHandles(projects[0]) == ["alice"];
    assert "alice" in HandlesOf(projects[0]);
    UnionOfMembers(projects, HandlesOf, "alice");
    assert CanonicalFor(TwitterIndex(links))("alice") == "alice";
  }

  /** The clean-up's evident intent: a file named after a Twitter handle is a
      duplicate only when that handle is not itself a Devfolio username of
      the links file. */
  predicate IsDuplicateProfileFixed(stem: string, links: seq<Field>): (r: bool)
    ensures r <==>
      && (exists i | 0 <= i < |links| ::
            EntryTwitter(links[i].value) != "" && Lower(EntryTwitter(links[i].value)) == Lower(stem))
      && (forall i | 0 <= i < |links| :: links[i].key != stem)
  {
    MapOfKeys(links, TwitterEntry, Lower(stem));
    LookupFirst(links, stem);
    Lower(stem) in TwitterIndex(links) && Lookup(links, stem).None?
  }

  /** With the corrected test no profile written in the same run is removed. */
  lemma FixedCleanupKeepsWrittenProfiles(projects: seq<Json>, links: seq<Field>, u: string)
    requires u in CanonicalUsernames(projects, TwitterIndex(links))
    ensures !IsDuplicateProfileFixed(u, links)
  {
    var index := TwitterIndex(links);
    var h :| h in RawHandles(projects) && CanonicalFor(index)(h) == u;
    if Lower(h) in index {
      MapOfLastWins(links, TwitterEntry, Lower(h));
      var k :| 0 <= k < |links| && TwitterEntry(links[k]) == Some((Lower(h), u));
      LookupFirst(links, u);
    }
  }

  /** The corrected test still removes what the clean-up is for: a profile
      file named after a Twitter handle whose owner has another username. */
  lemma FixedCleanupRemovesHandleFiles()
    ensures var links := [Field("alice", JObj([Field("twitter", JStr("AliceBuilds"))]))];
      IsDuplicateProfileFixed("alicebuilds", links) && IsDuplicateProfileFixed("AliceBuilds", links)
  {
    var links := [Field("alice", JObj([Field("twitter", JStr("AliceBuilds"))]))];
    assert Trim("AliceBuilds") == "AliceBuilds";
    assert Lower("AliceBuilds") == "alicebuilds";
    assert Lower("alicebuilds") == "alicebuilds";
    assert TwitterIndex(links) == map["alicebuilds" := "alice"];
    assert "alicebuilds" != "alice" && "AliceBuilds" != "alice";
  }

  /** The profile files left after a run: those written this run and those
      already present, less the duplicates the clean-up removes. The clean-up
      runs only outside retry mode and only when the links file exists. */
  function FilesAfterRun(existing: set<string>, written: set<string>, retry: bool, linksFile: Option<seq<Field>>): set<string> {
    var all := existing + written;
    if retry || linksFile.None? then all
    else set s | s in all && !IsDuplicateProfileFixed(s, linksFile.value)
  }

  /** Every profile written in a full run survives the corrected clean-up. */
  lemma FilesAfterRunKeepWritten(existing: set<string>, projects: seq<Json>, linksFile: Option<seq<Field>>)
    requires linksFile.Some?
    ensures var written := CanonicalUsernames(projects, TwitterIndex(linksFile.value));
      written <= FilesAfterRun(existing, written, false, linksFile)
  {
    var written := CanonicalUsernames(projects, TwitterIndex(linksFile.value));
    forall u | u in written
      ensures u in FilesAfterRun(existing, written, false, linksFile)
    {
      FixedCleanupKeepsWrittenProfiles(projects, linksFile.value, u);
    }
  }
}
