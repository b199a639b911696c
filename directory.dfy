/** The directory's record types and the site's lookups over them
    (lib/data.ts). The project list itself is loaded from JSON by the site;
    here it is a parameter. */
module Directory {
  import opened Strings
  import JsonValue

  /** One member of a project's team. */
  datatype ProjectFounder = ProjectFounder(name: string, twitter: string, github: Option<string>)

  /** A directory project. Keys the JSON may omit are Options;
      founderTwitterHandle is written by the profile-link merge and is not
      part of the site's own type. The tags are kept as the JSON holds
      them: a hashtag that is not a string can leave a tag of another
      type. */
  datatype Project = Project(
    id: string,
    name: string,
    description: string,
    descriptionFull: Option<string>,
    category: string,
    founder: string,
    founderTwitter: string,
    founderTwitterHandle: Option<string>,
    founderGithub: Option<string>,
    founders: Option<seq<ProjectFounder>>,
    slug: Option<string>,
    url: string,
    batch: string,
    tags: seq<JsonValue.Json>,
    logo: string,
    source: Option<string>,
    github: Option<string>,
    farcaster: Option<string>,
    youtube: Option<string>,
    links: Option<seq<string>>,
    prizes: Option<seq<string>>)

  /** A founder card derived from a project. */
  datatype Founder = Founder(
    id: string,
    name: string,
    twitter: string,
    github: Option<string>,
    avatar: string,
    role: string,
    project: string)

  /** The category filter's choices: "All" and then the eleven categories. */
  const Categories: seq<string> :=
    ["All", "AI", "Consumer", "DeFi", "Gaming", "Infra", "Mini-apps", "NFT", "DAO", "Identity", "Social", "Payments"]

  /** The batch filter's choices. */
  const Batches: seq<string> :=
    ["All Batches", "Base Batch India", "Based India", "Builder Track 002", "Build Onchain FBI",
     "Onchain AI BLR", "ClawdKitchen", "Independent"]

  /** JS truthiness of an optional string: present and not "". */
  predicate Present(o: Option<string>) {
    o.Some? && o.value != ""
  }

  /** Array.prototype.find with `p.slug === key`: the first project whose slug
      is exactly key. */
  function FindBySlug(projects: seq<Project>, key: string): (r: Option<Project>)
    ensures r.Some? <==> exists i | 0 <= i < |projects| :: projects[i].slug == Some(key)
    ensures r.Some? ==> exists i | 0 <= i < |projects| ::
      projects[i] == r.value && r.value.slug == Some(key) &&
      forall j | 0 <= j < i :: projects[j].slug != Some(key)
  {
    if projects == [] then None
    else if projects[0].slug == Some(key) then Some(projects[0])
    else
      var r := FindBySlug(projects[1..], key);
      assert r.Some? ==> exists i | 0 <= i < |projects[1..]| ::
        projects[1..][i] == r.value && forall j | 0 <= j < i :: projects[1..][j].slug != Some(key);
      assert r.Some? ==> exists i | 1 <= i < |projects| ::
        projects[i] == r.value && forall j | 1 <= j < i :: projects[j].slug != Some(key);
      r
  }

  /** Array.prototype.find with `p.id === key`. */
  function FindById(projects: seq<Project>, key: string): (r: Option<Project>)
    ensures r.Some? <==> exists i | 0 <= i < |projects| :: projects[i].id == key
    ensures r.Some? ==> exists i | 0 <= i < |projects| ::
      projects[i] == r.value && r.value.id == key &&
      forall j | 0 <= j < i :: projects[j].id != key
  {
    if projects == [] then None
    else if projects[0].id == key then Some(projects[0])
    else
      var r := FindById(projects[1..], key);
      assert r.Some? ==> exists i | 0 <= i < |projects[1..]| ::
        projects[1..][i] == r.value && forall j | 0 <= j < i :: projects[1..][j].id != key;
      assert r.Some? ==> exists i | 1 <= i < |projects| ::
        projects[i] == r.value && forall j | 1 <= j < i :: projects[j].id != key;
      r
  }

  /** A slug match anywhere in the list takes precedence over an id match;
      with neither there is no project. */
  function GetProjectBySlugOrId(projects: seq<Project>, key: string): (r: Option<Project>)
    ensures (exists i | 0 <= i < |projects| :: projects[i].slug == Some(key)) ==>
      r.Some? && r.value.slug == Some(key)
    ensures (forall i | 0 <= i < |projects| :: projects[i].slug != Some(key)) ==>
      r == FindById(projects, key)
    ensures r.None? <==> forall i | 0 <= i < |projects| ::
      projects[i].slug != Some(key) && projects[i].id != key
  {
    var bySlug := FindBySlug(projects, key);
    if bySlug.Some? then bySlug else FindById(projects, key)
  }

  /** The exact project found: the first slug match, else the first id match. */
  lemma GetProjectFirstMatch(projects: seq<Project>, key: string, i: nat)
    requires i < |projects|
    requires projects[i].slug == Some(key) || projects[i].id == key
    requires forall j | 0 <= j < i :: projects[j].slug != Some(key) && projects[j].id != key
    requires projects[i].slug == Some(key) || forall j | i < j < |projects| :: projects[j].slug != Some(key)
    ensures GetProjectBySlugOrId(projects, key) == Some(projects[i])
  {
    var r := GetProjectBySlugOrId(projects, key);
    if projects[i].slug == Some(key) {
      var k :| 0 <= k < |projects| && projects[k] == r.value && r.value.slug == Some(key) &&
        forall j | 0 <= j < k :: projects[j].slug != Some(key);
      assert k == i;
    } else {
      var k :| 0 <= k < |projects| && projects[k] == r.value && r.value.id == key &&
        forall j | 0 <= j < k :: projects[j].id != key;
      assert k == i;
    }
  }

  /** True at the index of a character that begins a space-separated word. */
  predicate WordStart(s: string, i: nat)
    requires i < |s|
  {
    s[i] != ' ' && (i == 0 || s[i - 1] == ' ')
  }

  /** The word-initial characters of s from index i on: an independent
      reading of "first character of every word". */
  function WordStarts(s: string, i: nat): string
    requires i <= |s|
    decreases |s| - i
  {
    if i == |s| then []
    else (if WordStart(s, i) then [s[i]] else []) + WordStarts(s, i + 1)
  }

  /** `words.map((w) => w[0]).join("")`: an empty word's `w[0]` is undefined,
      which join renders as "". */
  function FirstChars(words: seq<string>): string {
    if words == [] then []
    else (if words[0] == [] then [] else [words[0][0]]) + FirstChars(words[1..])
  }

  /** The avatar: initials of the space-separated words of the project name,
      at most two of them, upper-cased. */
  function Avatar(name: string): (r: string)
    ensures |r| <= 2
  {
    var initials := FirstChars(Split(name, ' '));
    Upper(if |initials| <= 2 then initials else initials[..2])
  }

  lemma {:induction false} WordStartsInsideWord(s: string, start: nat, i: nat, k: nat)
    requires start < i <= k <= |s|
    requires forall j | start <= j < k :: s[j] != ' '
    ensures WordStarts(s, i) == WordStarts(s, k)
    decreases k - i
  {
    if i < k {
      assert !WordStart(s, i);
      WordStartsInsideWord(s, start, i + 1, k);
    }
  }

  lemma FirstCharsCons(w: string, rest: seq<string>)
    ensures FirstChars([w] + rest) == (if w == [] then [] else [w[0]]) + FirstChars(rest)
  {
    assert ([w] + rest)[1..] == rest;
  }

  /** The word that starts at start contributes its first character, if it
      is not empty, and nothing else. */
  lemma WordStartsOfWord(s: string, start: nat, k: nat)
    requires start <= k <= |s| && k == IndexOf(s, ' ', start)
    requires start == 0 || s[start - 1] == ' '
    ensures WordStarts(s, start) == (if start < k then [s[start]] else []) + WordStarts(s, k)
  {
    if start < k {
      assert WordStart(s, start);
      WordStartsInsideWord(s, start, start + 1, k);
    }
  }

  lemma {:induction false} FirstCharsSplitFrom(s: string, start: nat)
    requires start <= |s|
    requires start == 0 || s[start - 1] == ' '
    ensures FirstChars(SplitFrom(s, ' ', start)) == WordStarts(s, start)
    decreases |s| - start
  {
    var k := IndexOf(s, ' ', start);
    WordStartsOfWord(s, start, k);
    var w := s[start..k];
    assert w == [] <==> start == k;
    assert start < k ==> w[0] == s[start];
    if k == |s| {
      FirstCharsCons(w, []);
      var parts := SplitFrom(s, ' ', start);
      assert parts == [s[start..]];
      assert w == s[start..];
      assert [w] + [] == [w];
      assert WordStarts(s, k) == [];
    } else {
      var rest := SplitFrom(s, ' ', k + 1);
      assert SplitFrom(s, ' ', start) == [w] + rest;
      FirstCharsSplitFrom(s, k + 1);
      assert WordStarts(s, k) == WordStarts(s, k + 1) by {
        assert !WordStart(s, k);
      }
      FirstCharsCons(w, rest);
    }
  }

  /** The avatar is the first two word-initial characters of the name,
      upper-cased, whatever spacing the name has. */
  lemma AvatarIsWordInitials(name: string)
    ensures var w := WordStarts(name, 0);
      Avatar(name) == Upper(if |w| <= 2 then w else w[..2])
  {
    FirstCharsSplitFrom(name, 0);
  }

  /** The founder card of one project. */
  function FounderOf(p: Project): (f: Founder)
    ensures f.id == p.id && f.name == p.founder && f.twitter == p.founderTwitter
    ensures f.github.Some? <==> Present(p.founderGithub)
    ensures f.github.Some? ==> f.github == p.founderGithub
    ensures f.role == "Builder" && f.project == p.name
    ensures |f.avatar| <= 2
  {
    Founder(p.id, p.founder, p.founderTwitter,
            if Present(p.founderGithub) then p.founderGithub else None,
            Avatar(p.name), "Builder", p.name)
  }

  /** One founder card per project, in project order. */
  function Founders(projects: seq<Project>): (r: seq<Founder>)
    ensures |r| == |projects|
    ensures forall i | 0 <= i < |r| :: r[i] == FounderOf(projects[i])
  {
    seq(|projects|, i requires 0 <= i < |projects| => FounderOf(projects[i]))
  }
}
