/** The profile-link fetcher (scripts/devfolio-scraper/fetch_devfolio_profiles.py):
    the Twitter handle parser, the usernames it visits and the results file
    it writes. Fetching and reading the HTML are a given per-username result. */
module FetchProfiles {
  import opened Strings
  import opened JsonValue
  import opened Lists

  /** The four link prefixes, compared against the lowercased link. */
  const TwitterPrefixes: seq<string> := ["https://x.com/", "https://twitter.com/", "http://x.com/", "http://twitter.com/"]

  /** The handle after a prefix: the first path segment, without a query,
      stripped. */
  function HandleAfter(url: string, n: nat): (r: string)
    requires n <= |url|
    ensures '/' !in r && '?' !in r
  {
    var segment := Split(url[n..], '/')[0];
    SplitJoin(url[n..], '/');
    var head := Split(segment, '?')[0];
    SplitJoin(segment, '?');
    assert '/' !in head by {
      SplitFromParts(segment, '?', 0);
      assert Join(Split(segment, '?'), "?") == segment;
      JoinHeadIsPrefix(Split(segment, '?'), "?");
    }
    TrimKeepsAbsence(head, '/');
    TrimKeepsAbsence(head, '?');
    Trim(head)
  }

  lemma JoinHeadIsPrefix(parts: seq<string>, sep: string)
    requires parts != []
    ensures |parts[0]| <= |Join(parts, sep)| && Join(parts, sep)[..|parts[0]|] == parts[0]
  {
  }

  /** The prefix search from position i of the prefix list onwards. */
  function MatchPrefixes(url: string, i: nat): (r: Option<string>)
    requires i <= |TwitterPrefixes|
    ensures r.Some? ==> r.value != "" && '/' !in r.value && '?' !in r.value
    decreases |TwitterPrefixes| - i
  {
    if i == |TwitterPrefixes| then None
    else
      var prefix := TwitterPrefixes[i];
      if StartsWith(Lower(url), prefix) && HandleAfter(url, |prefix|) != "" then Some(HandleAfter(url, |prefix|))
      else MatchPrefixes(url, i + 1)
  }

  /** extract_handle_from_twitter_url: None for an empty link; otherwise,
      after dropping trailing slashes, the handle of the first matching
      prefix that yields a non-empty one. The prefix is matched ignoring case,
      the handle keeps its case. */
  function ExtractHandleFromTwitterUrl(url: string): (r: Option<string>)
    ensures url == "" ==> r.None?
    ensures r.Some? ==> r.value != "" && '/' !in r.value && '?' !in r.value
  {
    if url == "" then None else MatchPrefixes(TrimEndChar(url, '/'), 0)
  }

  /** The prefixes hold no upper-case letter, and no prefix is a prefix of a
      later one. */
  lemma PrefixFacts()
    ensures forall i, k | 0 <= i < |TwitterPrefixes| && 0 <= k < |TwitterPrefixes[i]| :: !IsUpperChar(TwitterPrefixes[i][k])
    ensures forall j, i | 0 <= j < i < |TwitterPrefixes| ::
      exists k | 0 <= k < |TwitterPrefixes[j]| && k < |TwitterPrefixes[i]| :: TwitterPrefixes[j][k] != TwitterPrefixes[i][k]
  {
    var p := TwitterPrefixes;
    assert p[0][8] != p[1][8] && p[0][4] != p[2][4] && p[0][4] != p[3][4];
    assert p[1][4] != p[2][4] && p[1][4] != p[3][4] && p[2][7] != p[3][7];
  }

  /** A link whose lowercased form starts with prefix i matches no earlier
      prefix, and does match prefix i. */
  lemma StartsWithOnly(url: string, i: nat)
    requires i < |TwitterPrefixes|
    requires |TwitterPrefixes[i]| <= |url| && url[..|TwitterPrefixes[i]|] == TwitterPrefixes[i]
    ensures StartsWith(Lower(url), TwitterPrefixes[i])
    ensures forall j | 0 <= j < i :: !StartsWith(Lower(url), TwitterPrefixes[j])
  {
    PrefixFacts();
    var p := TwitterPrefixes[i];
    var low := Lower(url);
    assert low[..|p|] == p by {
      forall k | 0 <= k < |p| ensures low[k] == p[k] {
        assert url[k] == p[k];
      }
    }
    StartsWithSlice(low, p);
    forall j | 0 <= j < i ensures !StartsWith(low, TwitterPrefixes[j]) {
      var q := TwitterPrefixes[j];
      var k :| 0 <= k < |q| && k < |p| && q[k] != p[k];
      StartsWithSlice(low, q);
      assert low[k] == p[k];
      assert |q| > |low| || low[..|q|][k] != q[k];
    }
  }

  /** The search settles on prefix i once the earlier ones fail. */
  lemma {:induction false} MatchPrefixesAt(url: string, j: nat, i: nat)
    requires j <= i < |TwitterPrefixes|
    requires forall m | j <= m < i :: !StartsWith(Lower(url), TwitterPrefixes[m])
    requires StartsWith(Lower(url), TwitterPrefixes[i]) && HandleAfter(url, |TwitterPrefixes[i]|) != ""
    ensures MatchPrefixes(url, j) == Some(HandleAfter(url, |TwitterPrefixes[i]|))
    decreases i - j
  {
    if j < i {
      MatchPrefixesAt(url, j + 1, i);
    }
  }

  /** The segment after the prefix, when it is followed by nothing, by a path
      or by a query, is the handle. */
  lemma HandleAfterFinds(url: string, n: nat, h: string, tail: string)
    requires n <= |url| && url[n..] == h + tail
    requires '/' !in h && '?' !in h && Trim(h) == h
    requires tail == [] || tail[0] == '/' || tail[0] == '?'
    ensures HandleAfter(url, n) == h
  {
    SplitHeadAppend(h, tail, '/');
    var w := Split(tail, '/')[0];
    if tail == [] {
      assert w == "";
    } else if tail[0] == '/' {
      SplitHeadAtSep(tail, '/');
    } else {
      assert IndexOf(tail, '/', 0) > 0;
      assert w != [] && w[0] == '?';
    }
    SplitHeadAppend(h, w, '?');
    if w != [] {
      SplitHeadAtSep(w, '?');
    }
    assert Split(h + w, '?')[0] == h;
  }

  /** extract_handle_from_twitter_url gives back the handle of a link built
      from any of the four prefixes, with or without a further path, query
      or trailing slash. */
  lemma HandleRoundTrip(i: nat, h: string, tail: string)
    requires i < |TwitterPrefixes|
    requires h != [] && '/' !in h && '?' !in h && Trim(h) == h
    requires tail == [] || tail[0] == '/' || tail[0] == '?'
    ensures ExtractHandleFromTwitterUrl(TwitterPrefixes[i] + h + tail) == Some(h)
  {
    var p := TwitterPrefixes[i];
    var url := p + h + tail;
    var r := TrimEndChar(url, '/');
    assert url[|p| + |h| - 1] == h[|h| - 1];
    assert |r| >= |p| + |h|;
    var t := tail[..|r| - |p| - |h|];
    assert r == p + h + t by {
      assert url[..|r|] == p + h + t;
    }
    assert r[..|p|] == p;
    StartsWithOnly(r, i);
    assert r[|p|..] == h + t;
    HandleAfterFinds(r, |p|, h, t);
    MatchPrefixesAt(r, 0, i);
  }

  /** Hosts with www. are not recognised. */
  lemma WwwHostGivesNone()
    ensures ExtractHandleFromTwitterUrl("https://www.x.com/alice").None?
  {
    var url := "https://www.x.com/alice";
    assert TrimEndChar(url, '/') == url;
    var low := Lower(url);
    assert low[4] == 's' && low[8] == 'w';
    var p := TwitterPrefixes;
    forall j | 0 <= j < 4 ensures !StartsWith(low, p[j]) {
      StartsWithSlice(low, p[j]);
      assert low[..|p[j]|][4] != p[j][4] || low[..|p[j]|][8] != p[j][8];
    }
  }

  // ---------------------------------------------------------------------
  // main: the usernames to fetch and the cleaned results

  /** The Devfolio username a project record names: its stripped
      founderTwitter, unless that is empty or the "devfolio" placeholder. */
  function ProjectUsername(p: Json): (r: set<string>)
    ensures forall u | u in r :: u != "" && u != "devfolio"
  {
    var tw := Trim(Str(Get(p, "founderTwitter")));
    if tw != "" && tw != "devfolio" then {tw} else {}
  }

  function Usernames(projects: seq<Json>): set<string> {
    UnionOf(projects, ProjectUsername)
  }

  /** A username is fetched exactly when some project names it. */
  lemma UsernamesMembers(projects: seq<Json>, u: string)
    ensures u in Usernames(projects) <==>
      u != "" && u != "devfolio" && exists i | 0 <= i < |projects| :: Trim(Str(Get(projects[i], "founderTwitter"))) == u
  {
    UnionOfMembers(projects, ProjectUsername, u);
  }

  /** The set-building loop. */
  method CollectFounderUsernames(projects: seq<Json>) returns (usernames: set<string>)
    ensures usernames == Usernames(projects)
  {
    usernames := {};
    var i := 0;
    while i < |projects|
      invariant 0 <= i <= |projects|
      invariant usernames == Usernames(projects[..i])
    {
      UnionOfStep(projects, ProjectUsername, i);
      var tw := Trim(Str(Get(projects[i], "founderTwitter")));
      if tw != "" && tw != "devfolio" {
        usernames := usernames + {tw};
      }
      i := i + 1;
    }
    assert projects[..i] == projects;
  }

  /** Strictly increasing in code-point order, which is how Python orders
      strings. */
  predicate StrictlySorted(s: seq<string>) {
    forall i, j | 0 <= i < j < |s| :: StrLe(s[i], s[j]) && s[i] != s[j]
  }

  /** Every finite non-empty set of strings has a least element. */
  lemma {:induction false} LeastExists(s: set<string>)
    requires s != {}
    ensures exists m | m in s :: forall x | x in s :: StrLe(m, x)
    decreases |s|
  {
    var x :| x in s;
    StrLeTotal(x, x);
    if s - {x} != {} {
      LeastExists(s - {x});
      var m :| m in s - {x} && forall y | y in s - {x} :: StrLe(m, y);
      StrLeTotal(m, x);
      if !StrLe(m, x) {
        forall y | y in s ensures StrLe(x, y) {
          if y != x {
            StrLeTransitive(x, m, y);
          }
        }
      }
    }
  }

  /** sorted(usernames): all of the set, each once, in increasing order. */
  method SortedUsernames(usernames: set<string>) returns (r: seq<string>)
    ensures |r| == |usernames|
    ensures forall u :: u in r <==> u in usernames
    ensures StrictlySorted(r)
  {
    r := [];
    var rest := usernames;
    while rest != {}
      invariant forall u :: u in usernames <==> u in r || u in rest
      invariant forall k | 0 <= k < |r| :: r[k] !in rest
      invariant |r| + |rest| == |usernames|
      invariant StrictlySorted(r)
      invariant forall k, x | 0 <= k < |r| && x in rest :: StrLe(r[k], x)
      decreases |rest|
    {
      LeastExists(rest);
      var m :| m in rest && forall x | x in rest :: StrLe(m, x);
      r := r + [m];
      rest := rest - {m};
    }
  }

  /** One fetched entry with its "_error" key dropped, other keys in order. */
  function CleanEntry(data: seq<Field>): (r: seq<Field>)
    ensures forall k | 0 <= k < |r| :: r[k].key != "_error"
    ensures forall f :: f in r <==> f in data && f.key != "_error"
  {
    var r := Filter(data, (f: Field) => f.key != "_error");
    FilterMembers(data, (f: Field) => f.key != "_error");
    assert forall k | 0 <= k < |r| :: r[k] in r;
    r
  }

  /** The results object, one key per username in the order visited;
      fetch stands for fetch_profile, a page request and scrape. */
  function ResultsFor(order: seq<string>, fetch: string -> seq<Field>): (r: seq<Field>)
    ensures |r| == |order|
  {
    seq(|order|, i requires 0 <= i < |order| => Field(order[i], JObj(CleanEntry(fetch(order[i])))))
  }

  /** main, given the parsed project list (None when the file is missing, in
      which case nothing is written). */
  method FetchProfilesMain(projectsFile: Option<seq<Json>>, fetch: string -> seq<Field>) returns (results: Option<seq<Field>>)
    ensures projectsFile.None? ==> results.None?
    ensures projectsFile.Some? ==> (results.Some? &&
      exists order: seq<string> ::
        StrictlySorted(order) && |order| == |Usernames(projectsFile.value)| &&
        (forall u :: u in order <==> u in Usernames(projectsFile.value)) &&
        results.value == ResultsFor(order, fetch))
  {
    if projectsFile.None? {
      return None;
    }
    var usernames := CollectFounderUsernames(projectsFile.value);
    var order := SortedUsernames(usernames);
    var out: seq<Field> := [];
    var i := 0;
    while i < |order|
      invariant 0 <= i <= |order|
      invariant out == ResultsFor(order[..i], fetch)
    {
      var data := fetch(order[i]);
      out := out + [Field(order[i], JObj(CleanEntry(data)))];
      i := i + 1;
    }
    assert order[..i] == order;
    results := Some(out);
  }

  /** What the results promise the merge step: every key is a distinct
      non-empty username named by a project, every entry is an object, and
      no entry keeps an "_error" key. */
  lemma ResultsFacts(projects: seq<Json>, order: seq<string>, fetch: string -> seq<Field>)
    requires StrictlySorted(order)
    requires forall u :: u in order <==> u in Usernames(projects)
    ensures var r := ResultsFor(order, fetch);
      && (forall k | 0 <= k < |r| :: r[k].key != "" && r[k].key in Usernames(projects))
      && (forall k, l | 0 <= k < l < |r| :: r[k].key != r[l].key)
      && (forall k | 0 <= k < |r| :: r[k].value.JObj? &&
            forall m | 0 <= m < |r[k].value.fields| :: r[k].value.fields[m].key != "_error")
  {
    var r := ResultsFor(order, fetch);
    forall k | 0 <= k < |r| ensures r[k].key != "" && r[k].key in Usernames(projects) {
      assert r[k].key == order[k];
      UsernamesMembers(projects, order[k]);
    }
  }
}
