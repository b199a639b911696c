/** lib/founder.ts: the process-wide cache of founder front matter and the
    merged founder list of the pals view. A JS Map keyed by username is a
    seq<Field> (keys in insertion order, `set` replacing a key's value where
    it stands); each founder MDX file is its readdir name and its parsed
    front matter, None when gray-matter fails on it (the file is skipped).
    String.prototype.localeCompare is a caller-supplied name order. */
module FounderLib {
  import opened Strings
  import opened JsonValue
  import opened Lists
  import opened Sorting
  import opened EditIds
  import MdxFromJson

  datatype FounderSource = FounderSource(name: string, data: Option<seq<Field>>, content: string)

  /** The files the batch read stores: .mdx files that parse. */
  predicate Stored(f: FounderSource) {
    IsMdxName(f.name) && f.data.Some?
  }

  function StoresAs(u: string): FounderSource -> bool {
    (f: FounderSource) => Stored(f) && Stem(f.name) == u
  }

  function StoredValue(f: FounderSource): Option<Json> {
    if f.data.Some? then Some(JObj(f.data.value)) else None
  }

  /** The map after the loop over the directory. */
  function FrontmatterMap(files: seq<FounderSource>): seq<Field> {
    if files == [] then []
    else
      var m := FrontmatterMap(files[..|files| - 1]);
      var f := files[|files| - 1];
      if Stored(f) then SetField(m, Stem(f.name), JObj(f.data.value)) else m
  }

  /** A username maps to the front matter of the last stored file with that
      stem, and is absent when no stored file has it. */
  lemma {:induction false} FrontmatterLookup(files: seq<FounderSource>, u: string)
    ensures Lookup(FrontmatterMap(files), u) == LastWith(files, StoresAs(u), StoredValue)
  {
    if files != [] {
      FrontmatterLookup(files[..|files| - 1], u);
    }
  }

  class FounderFrontmatterCache {
    /** _allFounderFrontmatterCache. */
    var cache: Option<seq<Field>>

    constructor()
      ensures cache.None?
    {
      cache := None;
    }

    /** getAllFounderFrontmatterMap: the first call reads the directory
        (None when it is missing) and keeps the map; every later call
        returns the kept map. */
    method GetAllFounderFrontmatterMap(dir: Option<seq<FounderSource>>) returns (m: seq<Field>)
      modifies this
      ensures old(cache).Some? ==> m == old(cache).value && cache == old(cache)
      ensures old(cache).None? ==> m == DirMap(dir) && cache == Some(m)
    {
      if cache.Some? {
        return cache.value;
      }
      m := [];
      if dir.Some? {
        var files := dir.value;
        for i := 0 to |files|
          invariant m == FrontmatterMap(files[..i])
        {
          assert files[..i + 1][..i] == files[..i];
          var f := files[i];
          if IsMdxName(f.name) && f.data.Some? {
            m := SetField(m, Stem(f.name), JObj(f.data.value));
          }
        }
        assert files[..|files|] == files;
      }
      cache := Some(m);
    }

    /** getAllFounderUsernames: the kept map's keys, in insertion order. */
    method GetAllFounderUsernames(dir: Option<seq<FounderSource>>) returns (names: seq<string>)
      modifies this
      ensures cache == Some(if old(cache).Some? then old(cache).value else DirMap(dir))
      ensures names == Keys(cache.value)
    {
      var m := GetAllFounderFrontmatterMap(dir);
      names := Keys(m);
    }

    /** getAllFoundersForPals, reading the front matter through the cache. */
    method GetAllFoundersForPals(projects: seq<Json>, dir: Option<seq<FounderSource>>, nameLe: (Json, Json) -> bool)
      returns (out: seq<FounderForPals>)
      modifies this
      ensures cache == Some(if old(cache).Some? then old(cache).value else DirMap(dir))
      ensures out == Pals(projects, cache.value, nameLe)
    {
      var names := GetAllFounderUsernames(dir);
      var fm := GetAllFounderFrontmatterMap(dir);
      out := FoundersForPals(projects, fm, names, nameLe);
    }
  }

  function DirMap(dir: Option<seq<FounderSource>>): seq<Field> {
    if dir.Some? then FrontmatterMap(dir.value) else []
  }

  // ---------------------------------------------------------------------
  // getFounderByUsername

  datatype FounderProfile = FounderProfile(username: string, frontmatter: seq<Field>, content: string)

  /** No file by that name, a file gray-matter throws on, or the profile. */
  datatype ProfileRead = NoFile | Unparsable | Found(profile: FounderProfile)

  function FileNamed(files: seq<FounderSource>, name: string): (r: Option<FounderSource>)
    ensures r.None? <==> forall i | 0 <= i < |files| :: files[i].name != name
    ensures r.Some? ==> r.value in files && r.value.name == name
  {
    if files == [] then None
    else if files[0].name == name then Some(files[0])
    else
      var r := FileNamed(files[1..], name);
      assert forall i | 1 <= i < |files| :: files[i] == files[1..][i - 1];
      r
  }

  /** Reading content/founders/<username>.mdx. */
  function FounderByUsername(dir: Option<seq<FounderSource>>, u: string): (r: ProfileRead)
    ensures r.NoFile? <==> dir.None? || forall i | 0 <= i < |dir.value| :: dir.value[i].name != u + ".mdx"
    ensures r.Found? ==> (r.profile.username == u &&
      exists i | 0 <= i < |dir.value| :: dir.value[i] == FounderSource(u + ".mdx", Some(r.profile.frontmatter), r.profile.content))
    ensures r.Unparsable? ==> exists i | 0 <= i < |dir.value| :: dir.value[i].name == u + ".mdx" && dir.value[i].data.None?
  {
    if dir.None? then NoFile
    else
      match FileNamed(dir.value, u + ".mdx")
      case None => NoFile
      case Some(f) => if f.data.None? then Unparsable else Found(FounderProfile(u, f.data.value, f.content))
  }

  /** A stored file's username is its name without ".mdx". */
  lemma StoresAsName(u: string, f: FounderSource)
    ensures StoresAs(u)(f) <==> f.data.Some? && f.name == u + ".mdx"
  {
    EndsWithSlice(u + ".mdx", ".mdx");
    assert (u + ".mdx")[|u + ".mdx"| - 4..] == ".mdx";
  }

  /** In a directory, where names are unique, the profile read by username
      has the front matter the batch map holds for that username. */
  lemma ProfileAgreesWithMap(files: seq<FounderSource>, u: string)
    requires forall i, j | 0 <= i < j < |files| :: files[i].name != files[j].name
    ensures match FounderByUsername(Some(files), u)
      case Found(p) => Lookup(FrontmatterMap(files), u) == Some(JObj(p.frontmatter))
      case _ => Lookup(FrontmatterMap(files), u).None?
  {
    FrontmatterLookup(files, u);
    var p := StoresAs(u);
    forall i | 0 <= i < |files| ensures p(files[i]) <==> files[i].data.Some? && files[i].name == u + ".mdx" {
      StoresAsName(u, files[i]);
    }
    match FounderByUsername(Some(files), u)
    case Found(pr) =>
      var k :| 0 <= k < |files| && files[k] == FounderSource(u + ".mdx", Some(pr.frontmatter), pr.content);
      LastWithAt(files, p, StoredValue, k);
    case _ =>
      LastWithIsLast(files, p, StoredValue);
  }

  // ---------------------------------------------------------------------
  // getAllFoundersForPals

  /** `(x || "").trim()` when it is a handle worth listing. */
  function Handle(v: Json): (r: Option<string>)
    ensures r.Some? ==> r.value != "" && r.value != "devfolio" && r.value == Trim(Str(v))
    ensures r.None? ==> Trim(Str(v)) == "" || Trim(Str(v)) == "devfolio"
  {
    var t := Trim(Str(v));
    if t != "" && t != "devfolio" then Some(t) else None
  }

  function TwitterHandle(f: Json): Option<string> {
    Handle(Get(f, "twitter"))
  }

  /** `p.founders || []`. */
  function CoFounders(p: Json): seq<Json> {
    Items(Get(p, "founders"))
  }

  /** The usernames one project adds: its founderTwitter, then its
      founders' twitter handles. */
  function ProjectHandles(p: Json): seq<string> {
    OptionToSeq(Handle(Get(p, "founderTwitter"))) + FilterMap(CoFounders(p), TwitterHandle)
  }

  function Keys(m: seq<Field>): (r: seq<string>)
    ensures |r| == |m| && forall i | 0 <= i < |m| :: r[i] == m[i].key
  {
    Mapped(m, (f: Field) => f.key)
  }

  /** The Set of usernames, in insertion order. */
  function Usernames(projects: seq<Json>, fm: seq<Field>): seq<string> {
    Dedupe(FlatMap(projects, ProjectHandles) + Keys(fm))
  }

  /** `(x || "").toLowerCase() === username.toLowerCase()`. */
  predicate SameHandle(v: Json, u: string) {
    Lower(Str(v)) == Lower(u)
  }

  predicate Matches(p: Json, u: string) {
    SameHandle(Get(p, "founderTwitter"), u) ||
    exists i | 0 <= i < |CoFounders(p)| :: SameHandle(Get(CoFounders(p)[i], "twitter"), u)
  }

  /** projects.find: the first matching project. */
  function FindProject(projects: seq<Json>, u: string): (r: Option<Json>)
    ensures r.None? <==> forall k | 0 <= k < |projects| :: !Matches(projects[k], u)
    ensures r.Some? ==> exists k | 0 <= k < |projects| ::
      projects[k] == r.value && Matches(projects[k], u) && forall j | 0 <= j < k :: !Matches(projects[j], u)
  {
    if projects == [] then None
    else if Matches(projects[0], u) then Some(projects[0])
    else
      var r := FindProject(projects[1..], u);
      assert forall k | 1 <= k < |projects| :: projects[k] == projects[1..][k - 1];
      if r.Some? then
        var k :| 0 <= k < |projects[1..]| && projects[1..][k] == r.value && Matches(projects[1..][k], u) &&
          forall j | 0 <= j < k :: !Matches(projects[1..][j], u);
        assert projects[k + 1] == r.value;
        r
      else r
  }

  datatype FounderForPals = FounderForPals(username: string, name: Json, city: Json, shortBio: Json,
                                           profileImage: Json, project: Json, tags: Json)

  /** `a ?? b` on a possibly undefined value. */
  function Nullish(a: Option<Json>, b: Json): Json {
    if a.Some? && a.value != JNull then a.value else b
  }

  function Prop(j: Json, key: string): Option<Json> {
    MdxFromJson.Lookup1(j, key)
  }

  /** The entry of one username: from its front matter when it has one,
      else from its project, else none. */
  function PalOf(projects: seq<Json>, fm: seq<Field>, u: string): (r: Option<FounderForPals>)
    ensures r.Some? ==> r.value.username == u
    ensures r.None? <==> Lookup(fm, u).None? && FindProject(projects, u).None?
    ensures Lookup(fm, u).Some? ==> r.Some? && r.value.name == JsOr(Prop(Lookup(fm, u).value, "name"), Some(JStr(u))).value
    ensures Lookup(fm, u).None? && r.Some? ==> r.value.city == JNull && r.value.shortBio == JNull && r.value.profileImage == JNull
  {
    var f := Lookup(fm, u);
    var proj := FindProject(projects, u);
    var projName := if proj.Some? then Prop(proj.value, "name") else None;
    if f.Some? then
      var d := f.value;
      Some(FounderForPals(u, JsOr(Prop(d, "name"), Some(JStr(u))).value,
        Nullish(Prop(d, "city"), JNull), Nullish(Prop(d, "short_bio"), JNull), Nullish(Prop(d, "profile_image"), JNull),
        Nullish(projName, Nullish(Prop(d, "name"), JStr(u))), Nullish(Prop(d, "tags"), JArr([]))))
    else if proj.Some? then
      Some(FounderForPals(u, Nullish(Prop(proj.value, "founder"), JStr(u)), JNull, JNull, JNull,
        Nullish(projName, JStr(u)), Nullish(Prop(proj.value, "tags"), JArr([]))))
    else None
  }

  function PalFor(projects: seq<Json>, fm: seq<Field>): string -> Option<FounderForPals> {
    (u: string) => PalOf(projects, fm, u)
  }

  function ByName(nameLe: (Json, Json) -> bool): (FounderForPals, FounderForPals) -> bool {
    (a: FounderForPals, b: FounderForPals) => nameLe(a.name, b.name)
  }

  /** The list before the sort. */
  function Unsorted(projects: seq<Json>, fm: seq<Field>): seq<FounderForPals> {
    FilterMap(Usernames(projects, fm), PalFor(projects, fm))
  }

  /** getAllFoundersForPals. */
  function Pals(projects: seq<Json>, fm: seq<Field>, nameLe: (Json, Json) -> bool): seq<FounderForPals> {
    SortBy(Unsorted(projects, fm), ByName(nameLe))
  }

  /** A username is listed exactly when a project names it (trimmed, not
      empty, not "devfolio") or the front matter has it. */
  lemma UsernamesMembers(projects: seq<Json>, fm: seq<Field>, u: string)
    ensures u in Usernames(projects, fm) <==> u in FlatMap(projects, ProjectHandles) || u in Keys(fm)
  {
    var all := FlatMap(projects, ProjectHandles) + Keys(fm);
    if u in all {
      var i :| 0 <= i < |all| && all[i] == u;
    }
  }

  function UsernameOf(e: FounderForPals): string {
    e.username
  }

  /** Before the sort there is one entry per listed username that has front
      matter or a project, in the order the usernames were listed, and no
      username twice. */
  lemma UnsortedFacts(projects: seq<Json>, fm: seq<Field>)
    ensures var un := Unsorted(projects, fm);
      && Distinct(Mapped(un, UsernameOf))
      && (forall e | e in un :: e.username in Usernames(projects, fm))
  {
    var us := Usernames(projects, fm);
    FilterMapDistinctKeys(us, PalFor(projects, fm), UsernameOf);
    FilterMapSource(us, PalFor(projects, fm));
  }

  /** A username gets an entry exactly when it is listed and has front
      matter or a matching project. */
  lemma ListedIff(projects: seq<Json>, fm: seq<Field>, u: string)
    ensures (exists e | e in Unsorted(projects, fm) :: e.username == u) <==>
      u in Usernames(projects, fm) && (Lookup(fm, u).Some? || FindProject(projects, u).Some?)
  {
    var us := Usernames(projects, fm);
    var f := PalFor(projects, fm);
    FilterMapSource(us, f);
    if u in us && (Lookup(fm, u).Some? || FindProject(projects, u).Some?) {
      var k :| 0 <= k < |us| && us[k] == u;
      FilterMapKeeps(us, f, k);
      assert f(us[k]).value in Unsorted(projects, fm);
    }
  }

  /** The name order on entries is a total preorder when the name order is. */
  lemma ByNameOrder(nameLe: (Json, Json) -> bool)
    requires TotalPreorder(nameLe)
    ensures TotalPreorder(ByName(nameLe))
  {
    var le := ByName(nameLe);
    forall a: FounderForPals, b: FounderForPals ensures le(a, b) || le(b, a) {
      assert nameLe(a.name, b.name) || nameLe(b.name, a.name);
    }
    forall a: FounderForPals, b: FounderForPals, c: FounderForPals | le(a, b) && le(b, c) ensures le(a, c) {
      assert nameLe(a.name, b.name) && nameLe(b.name, c.name);
    }
  }

  /** The output is the unsorted list reordered by name. */
  lemma PalsSorted(projects: seq<Json>, fm: seq<Field>, nameLe: (Json, Json) -> bool)
    requires TotalPreorder(nameLe)
    ensures multiset(Pals(projects, fm, nameLe)) == multiset(Unsorted(projects, fm))
    ensures SortedBy(Pals(projects, fm, nameLe), ByName(nameLe))
  {
    ByNameOrder(nameLe);
    SortBySorted(Unsorted(projects, fm), ByName(nameLe));
  }

  /** The Set filled from the projects' handles, then the map's keys. */
  method CollectUsernames(projects: seq<Json>, keys: seq<string>) returns (usernames: seq<string>)
    ensures usernames == Dedupe(FlatMap(projects, ProjectHandles) + keys)
  {
    usernames := [];
    ghost var added: seq<string> := [];
    for i := 0 to |projects|
      invariant added == FlatMap(projects[..i], ProjectHandles)
      invariant usernames == Dedupe(added)
    {
      FlatMapStep(projects, ProjectHandles, i);
      usernames := AddAllToSet(usernames, added, ProjectHandles(projects[i]));
      added := added + ProjectHandles(projects[i]);
    }
    assert projects[..|projects|] == projects;
    usernames := AddAllToSet(usernames, added, keys);
  }

  /** The body of getAllFoundersForPals once the map and its keys are read:
      one entry per username that has front matter or a project, sorted by
      name. */
  method FoundersForPals(projects: seq<Json>, fm: seq<Field>, keys: seq<string>, nameLe: (Json, Json) -> bool)
    returns (out: seq<FounderForPals>)
    requires keys == Keys(fm)
    ensures out == Pals(projects, fm, nameLe)
  {
    var usernames := CollectUsernames(projects, keys);
    ghost var pal := PalFor(projects, fm);
    var list: seq<FounderForPals> := [];
    for k := 0 to |usernames|
      invariant list == FilterMap(usernames[..k], pal)
    {
      FilterMapStep(usernames, pal, k);
      var entry := PalOf(projects, fm, usernames[k]);
      if entry.Some? {
        list := list + [entry.value];
      }
    }
    assert usernames[..|usernames|] == usernames;
    assert list == Unsorted(projects, fm);
    out := SortBy(list, ByName(nameLe));
  }
}
