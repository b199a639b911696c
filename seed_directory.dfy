/** The rows scripts/seed-directory-to-supabase.ts upserts into
    directory_projects and directory_founders. A row value is a Json value:
    JNull is SQL null, and a value the script only casts (`as string`) is
    passed on as it is. The project list is the parsed JSON array (None when
    the file is missing); the founder directory is its readdir listing. */
module SeedDirectory {
  import opened Strings
  import opened JsonValue
  import opened Lists
  import opened EditIds
  import MdxFromJson

  datatype ProjectRow = ProjectRow(
    slug: Json, name: Json, description: Json, descriptionFull: Json, category: Json,
    founderName: Json, founderTwitter: Json, founderTwitterHandle: Json, founderGithub: Json,
    url: Json, batch: Json, tags: Json, logoUrl: Json, githubUrl: Json, farcasterUrl: Json,
    youtubeUrl: Json, otherLinks: Json, prizes: Json)

  datatype FounderRow = FounderRow(
    username: Json, name: Json, city: Json, country: Json, shortBio: Json, profileImage: Json,
    github: Json, twitter: Json, hackathonsAttended: Json, projectsBuilt: Json, prizesWon: Json,
    prizeWinningsAmount: Json, onchainCredsClaimed: Json, tags: Json)

  /** One element as Array.prototype.join writes it: null as "". */
  function JoinItem(j: Json): string {
    if j == JNull then "" else MdxFromJson.TextOf(j)
  }

  /** `Array.isArray(v) ? v.join(", ") : null`. */
  function JoinedList(v: Json): (r: Json)
    ensures r == JNull <==> !v.JArr?
    ensures v == JArr([]) ==> r == JStr("")
  {
    if v.JArr? then JStr(Join(Mapped(v.items, JoinItem), ", ")) else JNull
  }

  /** `(founders ?? [])[0]`: the first element of a list, the "0" key of an
      object, undefined (JNull) otherwise. */
  function Primary(proj: Json): Json {
    var founders := Coalesce(Get(proj, "founders"), JArr([]));
    if founders.JArr? then (if founders.items == [] then JNull else founders.items[0])
    else if founders.JObj? then Get(founders, "0")
    else JNull
  }

  /** `primary?.key`. */
  function PrimaryField(proj: Json, key: string): Json {
    var primary := Primary(proj);
    if primary == JNull then JNull else Get(primary, key)
  }

  /** `logo?.startsWith("http") ? logo : null`. */
  function LogoUrl(logo: Json): (r: Json)
    ensures r != JNull ==> r == logo && logo.JStr? && StartsWith(logo.s, "http")
    ensures logo.JStr? && StartsWith(logo.s, "http") ==> r == logo
  {
    if logo.JStr? && StartsWith(logo.s, "http") then logo else JNull
  }

  /** The map callback of loadProjects. */
  function ProjectRowOf(proj: Json): (r: ProjectRow)
    ensures Get(proj, "slug") != JNull ==> r.slug == Get(proj, "slug")
    ensures Get(proj, "slug") == JNull && Get(proj, "id") != JNull ==> r.slug == Get(proj, "id")
    ensures Get(proj, "slug") == JNull && Get(proj, "id") == JNull ==> r.slug == JStr("")
    ensures Get(proj, "links") == JNull ==> r.otherLinks == JStr("")
    ensures r.otherLinks == JNull <==> Get(proj, "links") != JNull && !Get(proj, "links").JArr?
    ensures r.tags == JNull <==> !Get(proj, "tags").JArr?
    ensures r.founderName == JNull <==> Get(proj, "founder") == JNull && PrimaryField(proj, "name") == JNull
    ensures r.founderTwitter == JNull <==> Get(proj, "founderTwitter") == JNull && PrimaryField(proj, "twitter") == JNull
  {
    ProjectRow(
      Coalesce(Coalesce(Get(proj, "slug"), Get(proj, "id")), JStr("")),
      Coalesce(Get(proj, "name"), JStr("")),
      Get(proj, "description"),
      Get(proj, "descriptionFull"),
      Get(proj, "category"),
      Coalesce(Get(proj, "founder"), PrimaryField(proj, "name")),
      Coalesce(Get(proj, "founderTwitter"), PrimaryField(proj, "twitter")),
      Get(proj, "founderTwitterHandle"),
      Get(proj, "founderGithub"),
      Get(proj, "url"),
      Get(proj, "batch"),
      JoinedList(Get(proj, "tags")),
      LogoUrl(Get(proj, "logo")),
      Get(proj, "github"),
      Get(proj, "farcaster"),
      Get(proj, "youtube"),
      JoinedList(Coalesce(Get(proj, "links"), JArr([]))),
      JoinedList(Get(proj, "prizes")))
  }

  /** `r.slug && r.name` with JavaScript truthiness. */
  predicate Seedable(r: ProjectRow) {
    JsTrue(r.slug) && JsTrue(r.name)
  }

  /** loadProjects: every project mapped, then the rows whose slug or name
      is falsy ("", 0, false or null) dropped. */
  function LoadProjects(file: Option<seq<Json>>): (r: seq<ProjectRow>)
    ensures file.None? ==> r == []
    ensures file.Some? ==> |r| <= |file.value|
    ensures forall x | x in r :: Seedable(x)
  {
    if file.None? then []
    else
      FilterMembers(Mapped(file.value, ProjectRowOf), Seedable);
      Filter(Mapped(file.value, ProjectRowOf), Seedable)
  }

  /** The seeded rows are, in order, the rows of the projects whose slug
      and name are truthy, and nothing else. */
  lemma LoadProjectsFacts(projects: seq<Json>)
    ensures var rows := LoadProjects(Some(projects));
      && IsSubsequence(rows, Mapped(projects, ProjectRowOf))
      && (forall r :: r in rows <==> Seedable(r) && exists k | 0 <= k < |projects| :: r == ProjectRowOf(projects[k]))
  {
    var m := Mapped(projects, ProjectRowOf);
    FilterIsSubsequence(m, Seedable);
    FilterMembers(m, Seedable);
    MappedMembers(projects, ProjectRowOf);
  }

  /** `??` keeps an empty slug, so a project whose slug is "" is dropped
      even when it has an id. */
  lemma EmptySlugDropped(proj: Json)
    requires Get(proj, "slug") == JStr("")
    ensures !Seedable(ProjectRowOf(proj))
  {
  }

  /** An empty list is truthy in JavaScript, so a row whose slug is [] is
      kept. */
  lemma EmptyListSlugSeeded(proj: Json)
    requires Get(proj, "slug") == JArr([]) && Get(proj, "name") == JStr("n")
    ensures Seedable(ProjectRowOf(proj))
  {
  }

  /** `v != null ? String(v) : null`. */
  function NumText(v: Json): (r: Json)
    ensures r == JNull <==> v == JNull
    ensures r != JNull ==> r.JStr? && r.s == MdxFromJson.TextOf(v)
  {
    if v == JNull then JNull else JStr(MdxFromJson.TextOf(v))
  }

  /** One founder file's row. */
  function FounderRowOf(f: MdxFile): (r: FounderRow)
    ensures Get(JObj(f.data), "username") == JNull ==> r.username == JStr(Stem(f.name))
    ensures Get(JObj(f.data), "username") != JNull ==> r.username == Get(JObj(f.data), "username")
    ensures r.username != JNull && r.name != JNull
    ensures Get(JObj(f.data), "name") == JNull ==> r.name == r.username
    ensures r.tags == JNull <==> !Get(JObj(f.data), "tags").JArr?
  {
    var d := JObj(f.data);
    var username := Coalesce(Get(d, "username"), JStr(Stem(f.name)));
    FounderRow(
      username,
      Coalesce(Get(d, "name"), username),
      Get(d, "city"),
      Get(d, "country"),
      Get(d, "short_bio"),
      Get(d, "profile_image"),
      Get(d, "github"),
      Get(d, "twitter"),
      NumText(Get(d, "hackathons_attended")),
      NumText(Get(d, "projects_built")),
      NumText(Get(d, "prizes_won")),
      NumText(Get(d, "prize_winnings_amount")),
      NumText(Get(d, "onchain_creds_claimed")),
      JoinedList(Get(d, "tags")))
  }

  function FounderRowOfMdx(f: MdxFile): Option<FounderRow> {
    if IsMdxName(f.name) then Some(FounderRowOf(f)) else None
  }

  function FounderRows(files: seq<MdxFile>): seq<FounderRow> {
    FilterMap(files, FounderRowOfMdx)
  }

  /** loadFounders: one row per .mdx file, in readdir order. */
  method LoadFounders(dir: Option<seq<MdxFile>>) returns (rows: seq<FounderRow>)
    ensures dir.None? ==> rows == []
    ensures dir.Some? ==> rows == FounderRows(dir.value)
  {
    rows := [];
    if dir.None? {
      return;
    }
    var files := dir.value;
    for i := 0 to |files|
      invariant rows == FounderRows(files[..i])
    {
      FilterMapStep(files, FounderRowOfMdx, i);
      if IsMdxName(files[i].name) {
        rows := rows + [FounderRowOf(files[i])];
      }
    }
    assert files[..|files|] == files;
  }

  /** There is a founder row for each .mdx file and for nothing else. */
  lemma FounderRowsFacts(files: seq<MdxFile>)
    ensures forall k | 0 <= k < |files| && IsMdxName(files[k].name) :: FounderRowOf(files[k]) in FounderRows(files)
    ensures forall r | r in FounderRows(files) :: exists k | 0 <= k < |files| :: IsMdxName(files[k].name) && r == FounderRowOf(files[k])
  {
    FilterMapSource(files, FounderRowOfMdx);
    forall k | 0 <= k < |files| && IsMdxName(files[k].name) ensures FounderRowOf(files[k]) in FounderRows(files) {
      FilterMapKeeps(files, FounderRowOfMdx, k);
    }
  }

  /** main: each table is upserted only when it has rows (None otherwise). */
  datatype Seeding = Seeding(projects: Option<seq<ProjectRow>>, founders: Option<seq<FounderRow>>)

  method SeedDirectoryMain(projectsFile: Option<seq<Json>>, foundersDir: Option<seq<MdxFile>>)
    returns (out: Seeding)
    ensures out.projects.None? <==> LoadProjects(projectsFile) == []
    ensures out.projects.Some? ==> out.projects.value == LoadProjects(projectsFile)
    ensures var fr := if foundersDir.Some? then FounderRows(foundersDir.value) else [];
      (out.founders.None? <==> fr == []) && (out.founders.Some? ==> out.founders.value == fr)
  {
    var projects := LoadProjects(projectsFile);
    var founders := LoadFounders(foundersDir);
    out := Seeding(if |projects| > 0 then Some(projects) else None, if |founders| > 0 then Some(founders) else None);
  }
}
