/** scripts/fetch-clawd-kitchen.js: the ClawdKitchen submissions mapped to
    directory entries. The HTTP response is a parameter: None when it is not
    ok (the script throws), otherwise the parsed body. */
module ClawdKitchen {
  import opened Strings
  import opened JsonValue
  import opened Lists
  import MdxFromJson

  /** The characters `[a-z0-9]` keeps. */
  predicate IsSlugChar(c: char) {
    IsLowerChar(c) || IsDigitChar(c)
  }

  /** Drops the leading characters outside `[a-z0-9]`. */
  function DropRun(s: string): (r: string)
    ensures |r| <= |s| && (r == [] || IsSlugChar(r[0]))
    ensures r == s[|s| - |r|..]
  {
    if s == [] || IsSlugChar(s[0]) then s else DropRun(s[1..])
  }

  /** The characters DropRun skips are all outside `[a-z0-9]`. */
  lemma {:induction false} DropRunKeepsSlugChars(s: string)
    ensures Filter(DropRun(s), IsSlugChar) == Filter(s, IsSlugChar)
    decreases |s|
  {
    if s != [] && !IsSlugChar(s[0]) {
      DropRunKeepsSlugChars(s[1..]);
      FilterCons(s[0], s[1..], IsSlugChar);
      assert s == [s[0]] + s[1..];
    }
  }

  /** `replace(/[^a-z0-9]+/g, "-")`: each maximal run of other characters
      becomes one '-' (CollapseRunsIsCharwise pins where the dashes go, and
      CollapseRunsKeepsSlugChars that the `[a-z0-9]` characters stay). */
  function CollapseRuns(s: string): (r: string)
    ensures forall i | 0 <= i < |r| :: IsSlugChar(r[i]) || r[i] == '-'
    ensures forall i | 0 <= i < |r| - 1 :: !(r[i] == '-' && r[i + 1] == '-')
    ensures r != [] && r[0] == '-' ==> s != [] && !IsSlugChar(s[0])
    decreases |s|
  {
    if s == [] then []
    else if IsSlugChar(s[0]) then [s[0]] + CollapseRuns(s[1..])
    else "-" + CollapseRuns(DropRun(s[1..]))
  }

  /** The `[a-z0-9]` characters are kept, in order, and no other character
      of the input survives. */
  lemma {:induction false} CollapseRunsKeepsSlugChars(s: string)
    ensures Filter(CollapseRuns(s), IsSlugChar) == Filter(s, IsSlugChar)
    decreases |s|
  {
    if s != [] {
      assert s == [s[0]] + s[1..];
      FilterCons(s[0], s[1..], IsSlugChar);
      if IsSlugChar(s[0]) {
        CollapseRunsKeepsSlugChars(s[1..]);
        FilterCons(s[0], CollapseRuns(s[1..]), IsSlugChar);
      } else {
        CollapseRunsKeepsSlugChars(DropRun(s[1..]));
        DropRunKeepsSlugChars(s[1..]);
        FilterCons('-', CollapseRuns(DropRun(s[1..])), IsSlugChar);
      }
    }
  }

  /** The same replacement read one character at a time: a character of
      `[a-z0-9]` is copied, and any other character writes '-' unless the
      character before it was also outside `[a-z0-9]` (inRun). */
  function CollapseFrom(s: string, inRun: bool): string
    decreases |s|
  {
    if s == [] then []
    else if IsSlugChar(s[0]) then [s[0]] + CollapseFrom(s[1..], false)
    else (if inRun then "" else "-") + CollapseFrom(s[1..], true)
  }

  /** Inside a run, the rest of the run writes nothing. */
  lemma {:induction false} CollapseFromSkipsRun(s: string)
    ensures CollapseFrom(s, true) == CollapseFrom(DropRun(s), false)
    decreases |s|
  {
    if s != [] && !IsSlugChar(s[0]) {
      CollapseFromSkipsRun(s[1..]);
      assert CollapseFrom(s, true) == CollapseFrom(s[1..], true);
    }
  }

  /** CollapseRuns is the character-at-a-time replacement started outside a
      run: the dashes stand exactly where a run of other characters begins. */
  lemma {:induction false} CollapseRunsIsCharwise(s: string)
    ensures CollapseRuns(s) == CollapseFrom(s, false)
    decreases |s|
  {
    if s != [] {
      if IsSlugChar(s[0]) {
        CollapseRunsIsCharwise(s[1..]);
      } else {
        CollapseFromSkipsRun(s[1..]);
        CollapseRunsIsCharwise(DropRun(s[1..]));
      }
    }
  }

  /** `replace(/^-|-$/g, "")`: one '-' off each end. */
  function DropLeadingDash(s: string): (r: string)
    ensures r == s || (s != [] && s[0] == '-' && r == s[1..])
  {
    if s != [] && s[0] == '-' then s[1..] else s
  }

  function DropTrailingDash(s: string): (r: string)
    ensures r == s || (s != [] && s[|s| - 1] == '-' && r == s[..|s| - 1])
  {
    if s != [] && s[|s| - 1] == '-' then s[..|s| - 1] else s
  }

  function StripDash(s: string): string {
    DropTrailingDash(DropLeadingDash(s))
  }

  /** The slug base of a project name. */
  function Base(name: string): string {
    StripDash(CollapseRuns(Lower(Trim(name))))
  }

  predicate DashSeparated(b: string) {
    && (forall i | 0 <= i < |b| :: IsSlugChar(b[i]) || b[i] == '-')
    && (forall i | 0 <= i < |b| - 1 :: !(b[i] == '-' && b[i + 1] == '-'))
  }

  /** The base is made of `[a-z0-9]` and single dashes between them. */
  lemma BaseShape(name: string)
    ensures var b := Base(name);
      DashSeparated(b) && (b == [] || (b[0] != '-' && b[|b| - 1] != '-'))
  {
    var c := CollapseRuns(Lower(Trim(name)));
    var t := DropLeadingDash(c);
    var b := DropTrailingDash(t);
    assert DashSeparated(c);
    assert t == [] || t[0] != '-' by {
      if t != [] && t != c { assert t[0] == c[1]; }
    }
    assert DashSeparated(t);
    assert b == [] || b[|b| - 1] != '-' by {
      if b != [] && b != t { assert b[|b| - 1] == t[|t| - 2]; }
    }
    assert b == [] || b[0] == t[0];
  }

  /** Collapsing changes nothing in text that is already dash-separated and
      does not end with '-'. */
  lemma {:induction false} CollapseFixed(s: string)
    requires DashSeparated(s) && (s == [] || s[|s| - 1] != '-')
    ensures CollapseRuns(s) == s
    decreases |s|
  {
    if s != [] {
      if IsSlugChar(s[0]) {
        CollapseFixed(s[1..]);
      } else {
        assert IsSlugChar(s[1]);
        assert DropRun(s[1..]) == s[1..];
        CollapseFixed(s[1..]);
      }
      assert s == [s[0]] + s[1..];
    }
  }

  /** Slugifying a base again gives the same base. */
  lemma BaseIdempotent(name: string)
    ensures Base(Base(name)) == Base(name)
  {
    var b := Base(name);
    BaseShape(name);
    assert DashSeparated(b);
    forall i | 0 <= i < |b|
      ensures !IsSpace(b[i]) && !IsUpperChar(b[i])
    {
      assert IsSlugChar(b[i]) || b[i] == '-';
    }
    TrimOfTrimmed(b);
    assert Lower(b) == b;
    CollapseFixed(b);
    assert DropLeadingDash(b) == b;
    assert StripDash(b) == b;
  }

  /** `(id || "").replace(/-/g, "").slice(0, 6)`. */
  function ShortId(id: string): (r: string)
    ensures |r| <= 6 && '-' !in r
  {
    var noDash := Filter(id, (c: char) => c != '-');
    FilterMembers(id, (c: char) => c != '-');
    var r := Take(noDash, 6);
    assert forall i | 0 <= i < |r| :: r[i] == noDash[i] && noDash[i] in noDash;
    r
  }

  /** slugify: base-shortId whenever the id gives a short id, even with an
      empty base; otherwise the base, or "clawd-project". */
  function Slugify(name: string, id: string): (r: string)
    ensures r != ""
    ensures ShortId(id) != "" ==> |r| > |ShortId(id)| && r[|r| - |ShortId(id)|..] == ShortId(id) && r[|r| - |ShortId(id)| - 1] == '-'
    ensures ShortId(id) != "" ==> r[..|r| - |ShortId(id)| - 1] == Base(name)
    ensures ShortId(id) == "" && Base(name) != "" ==> r == Base(name)
    ensures ShortId(id) == "" && Base(name) == "" ==> r == "clawd-project"
  {
    var base := Base(name);
    var short := ShortId(id);
    if short != "" then
      var r := base + "-" + short;
      assert r[|r| - |short|..] == short && r[..|r| - |short| - 1] == base;
      r
    else if base != "" then base
    else "clawd-project"
  }

  /** A name with nothing in `[a-z0-9]` and an id give a slug that starts
      with '-'. */
  lemma EmptyBaseSlug(name: string, id: string)
    requires Base(name) == "" && ShortId(id) != ""
    ensures Slugify(name, id)[0] == '-'
  {
  }

  // ---------------------------------------------------------------------
  // main

  datatype ClawdEntry = ClawdEntry(name: Option<Json>, description: Json, url: Json,
                                   github: Option<Json>, slug: string, links: Option<seq<Json>>)

  function Field(s: Json, key: string): Option<Json> {
    MdxFromJson.Lookup1(s, key)
  }

  function TruthyValues(vs: seq<Option<Json>>): (r: seq<Json>)
    ensures forall i | 0 <= i < |r| :: JsTruthy(Some(r[i]))
    ensures r == [] <==> forall i | 0 <= i < |vs| :: !JsTruthy(vs[i])
    ensures vs != [] && JsTruthy(vs[0]) ==> r[0] == vs[0].value
  {
    if vs == [] then []
    else (if JsTruthy(vs[0]) then [vs[0].value] else []) + TruthyValues(vs[1..])
  }

  const BasescanPrefix := "https://basescan.org/address/"

  /** The links of a submission: the truthy github and vercel urls, the
      token url, and the basescan page of the contract. */
  function LinksOf(s: Json): (r: seq<Json>)
    ensures forall i | 0 <= i < |r| :: JsTruthy(Some(r[i]))
    ensures r == [] <==> (!JsTruthy(Field(s, "github_url")) && !JsTruthy(Field(s, "vercel_url"))
      && !JsTruthy(Field(s, "token_url")) && !JsTruthy(Field(s, "contract_address")))
    ensures JsTruthy(Field(s, "github_url")) ==> r[0] == Field(s, "github_url").value
  {
    var contract := Field(s, "contract_address");
    var vs := [Field(s, "github_url"), Field(s, "vercel_url"), Field(s, "token_url"),
               if JsTruthy(contract) then Some(JStr(BasescanPrefix + MdxFromJson.Text(contract))) else None];
    assert |BasescanPrefix| > 0;
    assert JsTruthy(vs[3]) <==> JsTruthy(contract);
    assert (forall i | 0 <= i < |vs| :: !JsTruthy(vs[i])) <==>
      !JsTruthy(vs[0]) && !JsTruthy(vs[1]) && !JsTruthy(vs[2]) && !JsTruthy(vs[3]);
    TruthyValues(vs)
  }

  const DefaultUrl := "https://clawd.kitchen/submissions"

  /** The map callback of main. */
  function EntryOf(s: Json): (e: ClawdEntry)
    ensures e.links.None? <==> LinksOf(s) == []
    ensures e.links.Some? ==> e.links.value == LinksOf(s)
    ensures e.github.Some? ==> JsTruthy(e.github) && e.github == Field(s, "github_url")
    ensures e.github.None? <==> !JsTruthy(Field(s, "github_url"))
    ensures JsTruthy(Some(e.url))
    ensures JsTruthy(Field(s, "vercel_url")) ==> Some(e.url) == Field(s, "vercel_url")
    ensures !JsTruthy(Field(s, "vercel_url")) && JsTruthy(Field(s, "github_url")) ==> Some(e.url) == Field(s, "github_url")
  {
    var description := JsOr(Field(s, "description"), Some(JStr(""))).value;
    var url := JsOr(JsOr(Field(s, "vercel_url"), Field(s, "github_url")), Some(JStr(DefaultUrl))).value;
    var github := if JsTruthy(Field(s, "github_url")) then Field(s, "github_url") else None;
    var links := LinksOf(s);
    ClawdEntry(Field(s, "project_name"), description, url, github,
               Slugify(Str(Field(s, "project_name").GetOr(JNull)), Str(Field(s, "id").GetOr(JNull))),
               if links == [] then None else Some(links))
  }

  /** main: None when the response is not ok; otherwise one entry per
      submission, in order, and none when the body has no submissions. */
  function Entries(response: Option<Json>): (r: Option<seq<ClawdEntry>>)
    ensures response.None? <==> r.None?
    ensures r.Some? ==> |r.value| == |Items(JsOr(Field(response.value, "submissions"), Some(JArr([]))).value)|
    ensures r.Some? ==> forall i | 0 <= i < |r.value| ::
      r.value[i] == EntryOf(Items(JsOr(Field(response.value, "submissions"), Some(JArr([]))).value)[i])
    ensures response.Some? && !JsTruthy(Field(response.value, "submissions")) ==> r == Some([])
  {
    if response.None? then None
    else Some(Mapped(Items(JsOr(Field(response.value, "submissions"), Some(JArr([]))).value), EntryOf))
  }
}
