/** The project MDX generator (scripts/generate-project-mdx.ts): a new file
    for each project with a slug whose file is missing, and an edit_id for
    each existing file that lacks one. The directory is a map from file name
    to file; a file the generator writes is kept as its text together with
    the edit id it carries, since reading MDX text back (gray-matter) is not
    part of this model. */
module ProjectMdx {
  import opened Strings
  import opened JsonValue
  import opened Lists
  import opened Escape
  import opened EditIds

  /** escapeYaml: "" for the empty string, otherwise the three replacements
      of the shared front-matter escape. */
  function EscapeYaml(s: string): (r: string)
    ensures '\n' !in r
    ensures s == "" ==> r == ""
    ensures Unescape(r) == ReplaceChar(s, '\n', " ")
  {
    EscapeRoundTrip(s);
    if s == "" then "" else EscapeQuoted(s)
  }

  /** The fields buildNewMdx is given, each already read as a string (an
      absent field is ""). */
  datatype NewProject = NewProject(id: string, slug: string, name: string, description: string,
                                   url: string, github: string, farcaster: string, logo: string)

  /** A quoted front-matter line `key: "value"`. */
  function Quoted(key: string, value: string): string {
    key + ": \"" + value + "\""
  }

  const AboutHeading := "## About this project"
  const AboutText := "Add a longer description, milestones, or team story here. This content is merged with the project data from Devfolio."
  const LinksHeading := "## Links"
  const DefaultLink := DevfolioLink("https://base-batch-india.devfolio.co")

  /** The front matter of the lines array: an entry is null when its field
      is left out. */
  function FrontMatter(p: NewProject, editId: string): (r: seq<Option<string>>)
    ensures |r| == 8 && r[0] == Some("---") && r[7] == Some("---")
    ensures r[1] == Some(Quoted("edit_id", editId))
    ensures r[5].None? <==> Trim(p.description) == ""
    ensures r[6].None? <==> !(Trim(p.logo) != "" && StartsWith(Trim(p.logo), "http"))
  {
    var slug := Trim(p.slug);
    var name := Trim(if p.name != "" then p.name else slug);
    var description := Trim(p.description);
    var logo := Trim(p.logo);
    [Some("---"),
     Some(Quoted("edit_id", editId)),
     Some(Quoted("slug", EscapeYaml(slug))),
     Some(Quoted("project_id", Trim(p.id))),
     Some(Quoted("name", EscapeYaml(name))),
     if description != "" then Some(Quoted("description", EscapeYaml(description))) else None,
     if logo != "" && StartsWith(logo, "http") then Some(Quoted("logo", EscapeYaml(logo))) else None,
     Some("---")]
  }

  /** The body lines that follow, up to "## Links" and a blank line. */
  function BodyLines(): (r: seq<Option<string>>)
    ensures |r| == 7 && r[5] == Some(LinksHeading) && r[6] == Some("")
  {
    [Some(""), Some(AboutHeading), Some(""), Some(AboutText), Some(""), Some(LinksHeading), Some("")]
  }

  /** The lines array before filter(Boolean). */
  function RawLines(p: NewProject, editId: string): seq<Option<string>> {
    FrontMatter(p, editId) + BodyLines()
  }

  function DevfolioLink(url: string): (r: string)
    ensures |r| > 0 && r[0] == '-'
  { "- [Devfolio](" + url + ")" }
  function GithubLink(url: string): (r: string)
    ensures |r| > 0 && r[0] == '-'
  { "- [GitHub](" + url + ")" }
  function FarcasterLink(url: string): (r: string)
    ensures |r| > 0 && r[0] == '-'
  { "- [Farcaster miniapp](" + url + ")" }

  /** The link lines: Devfolio, GitHub, Farcaster, each when present and in
      that order, and the default Devfolio link when there is none. */
  function LinkLines(p: NewProject): (r: seq<string>)
    ensures 1 <= |r| <= 3 && |r[0]| > 0 && r[0][0] == '-'
    ensures p.url == "" && p.github == "" && p.farcaster == "" ==> r == [DefaultLink]
    ensures p.url != "" ==> r[0] == DevfolioLink(p.url)
    ensures p.github != "" ==> GithubLink(p.github) in r
    ensures p.farcaster != "" ==> r[|r| - 1] == FarcasterLink(p.farcaster)
  {
    var found :=
      (if p.url != "" then [DevfolioLink(p.url)] else []) +
      (if p.github != "" then [GithubLink(p.github)] else []) +
      (if p.farcaster != "" then [FarcasterLink(p.farcaster)] else []);
    if found == [] then [DefaultLink] else found
  }

  /** filter(Boolean): null and "" are both dropped. */
  function Truthies(lines: seq<Option<string>>): seq<string> {
    FilterMap(lines, (o: Option<string>) => if o.Some? && o.value != "" then o else None)
  }

  /** buildNewMdx as written: the file opens with the front matter's "---"
      and ends with a line break. */
  function BuildNewMdxAsWritten(p: NewProject, editId: string): (r: string)
    ensures StartsWith(r, "---") && r[|r| - 1] == '\n'
  {
    var tail := Join(LinkLines(p), "\n") + "\n";
    TruthiesOpenFile(RawLines(p, editId), tail);
    Join(Truthies(RawLines(p, editId)), "\n") + tail
  }

  lemma TruthiesOpenFile(raw: seq<Option<string>>, tail: string)
    requires raw != [] && raw[0] == Some("---")
    ensures StartsWith(Join(Truthies(raw), "\n") + tail, "---")
  {
    FilterMapFirst(raw, (o: Option<string>) => if o.Some? && o.value != "" then o else None, 0);
    OpensWithFrontMatter(Truthies(raw), tail);
  }

  /** Lines joined with "\n" start with the first line. */
  lemma OpensWithFrontMatter(kept: seq<string>, tail: string)
    requires kept != [] && kept[0] == "---"
    ensures StartsWith(Join(kept, "\n") + tail, "---")
  {
    JoinStartsWithFirst(kept);
    StartsWithSlice(Join(kept, "\n") + tail, "---");
    assert (Join(kept, "\n") + tail)[..3] == Join(kept, "\n")[..3];
  }

  /** buildNewMdx with the blank lines kept, which is what the "" entries
      of the lines array are for: only null lines are dropped, so "## Links"
      is followed by a line break before the first link. */
  function NonNull(lines: seq<Option<string>>): seq<string> {
    FilterMap(lines, (o: Option<string>) => o)
  }

  function BuildNewMdx(p: NewProject, editId: string): (r: string)
    ensures StartsWith(r, "---") && r[|r| - 1] == '\n'
  {
    var tail := Join(LinkLines(p), "\n") + "\n";
    NonNullOpenFile(RawLines(p, editId), tail);
    Join(NonNull(RawLines(p, editId)), "\n") + tail
  }

  lemma NonNullOpenFile(raw: seq<Option<string>>, tail: string)
    requires raw != [] && raw[0] == Some("---")
    ensures StartsWith(Join(NonNull(raw), "\n") + tail, "---")
  {
    FilterMapFirst(raw, (o: Option<string>) => o, 0);
    OpensWithFrontMatter(NonNull(raw), tail);
  }

  /** The lines array ends with "## Links" and "": the kept lines end the
      same way, and the Boolean filter ends on "## Links" itself. */
  lemma RawLinesEnd(p: NewProject, editId: string)
    ensures var raw := RawLines(p, editId);
      && NonNull(raw) == NonNull(raw[..13]) + [LinksHeading, ""]
      && Truthies(raw) == Truthies(raw[..13]) + [LinksHeading]
  {
    var raw := RawLines(p, editId);
    assert raw[..15] == raw;
    FilterMapStep(raw, (o: Option<string>) => o, 13);
    FilterMapStep(raw, (o: Option<string>) => o, 14);
    FilterMapStep(raw, (o: Option<string>) => if o.Some? && o.value != "" then o else None, 13);
    FilterMapStep(raw, (o: Option<string>) => if o.Some? && o.value != "" then o else None, 14);
  }

  lemma JoinSnoc(a: seq<string>, x: string, sep: string)
    requires a != []
    ensures Join(a + [x], sep) == Join(a, sep) + sep + x
    decreases |a|
  {
    if |a| > 1 {
      assert (a + [x])[1..] == a[1..] + [x];
      JoinSnoc(a[1..], x, sep);
    }
  }

  lemma JoinStartsWithFirst(links: seq<string>)
    requires links != []
    ensures |Join(links, "\n")| >= |links[0]| && Join(links, "\n")[..|links[0]|] == links[0]
  {
    if |links| > 1 {
      assert Join(links, "\n") == links[0] + "\n" + Join(links[1..], "\n");
    }
  }

  /** As written, "## Links" and the first link end up on one line: the
      text is the kept lines up to "## Links", then the link lines with no
      line break in between, and the link text starts with '-'. */
  lemma LinksHeadingRunsIntoFirstLink(p: NewProject, editId: string)
    ensures var t := Truthies(RawLines(p, editId)[..13]);
      BuildNewMdxAsWritten(p, editId) == Join(t, "\n") + "\n" + LinksHeading + Join(LinkLines(p), "\n") + "\n"
    ensures Join(LinkLines(p), "\n")[0] == '-'
  {
    RawLinesEnd(p, editId);
    var raw := RawLines(p, editId);
    var t := Truthies(raw[..13]);
    assert raw[..13][0] == Some("---");
    FilterMapFirst(raw[..13], (o: Option<string>) => if o.Some? && o.value != "" then o else None, 0);
    assert t != [];
    JoinSnoc(t, LinksHeading, "\n");
    var links := LinkLines(p);
    JoinStartsWithFirst(links);
    assert links[0][0] == '-';
  }

  lemma JoinSnocBlank(a: seq<string>, x: string, sep: string)
    requires a != []
    ensures Join(a + [x, ""], sep) == Join(a, sep) + sep + x + sep
  {
    JoinSnoc(a, x, sep);
    JoinSnoc(a + [x], "", sep);
    assert a + [x, ""] == (a + [x]) + [""];
  }

  /** The kept lines up to "## Links" start with the opening "---". */
  lemma KeptLinesStart(p: NewProject, editId: string)
    ensures NonNull(RawLines(p, editId)[..13]) != []
  {
    var raw := RawLines(p, editId);
    assert raw[..13][0] == Some("---");
    FilterMapFirst(raw[..13], (o: Option<string>) => o, 0);
  }

  /** With only null lines dropped, "## Links" ends its own line, the blank
      line after it is kept, and the link lines follow on lines of their own. */
  lemma FixedLinksOnTheirOwnLines(p: NewProject, editId: string)
    ensures var n := NonNull(RawLines(p, editId)[..13]);
      BuildNewMdx(p, editId) == Join(n, "\n") + "\n" + LinksHeading + "\n" + Join(LinkLines(p), "\n") + "\n"
  {
    RawLinesEnd(p, editId);
    KeptLinesStart(p, editId);
    JoinSnocBlank(NonNull(RawLines(p, editId)[..13]), LinksHeading, "\n");
  }

  // ---------------------------------------------------------------------
  // main

  /** A file in content/projects: read back through gray-matter, or written
      by this run with the edit id it carries. */
  datatype ProjectFile = Parsed(data: seq<Field>, content: string) | Written(text: string, editId: string)

  predicate FileHasEditId(f: ProjectFile) {
    match f
    case Parsed(data, _) => JsTrue(Get(JObj(data), "edit_id"))
    case Written(_, id) => id != ""
  }

  function SlugText(p: Json): string {
    Trim(Str(Get(p, "slug")))
  }

  /** What main hands to buildNewMdx. */
  function NewProjectOf(p: Json): NewProject {
    var slug := SlugText(p);
    NewProject(Str(Get(p, "id")), slug, Str(JsEither(Get(p, "name"), JStr(slug))), Str(Get(p, "description")),
               Str(JsEither(Get(p, "url"), Get(p, "source"))), Str(Get(p, "github")), Str(Get(p, "farcaster")),
               Str(Get(p, "logo")))
  }

  datatype RunState = RunState(files: map<string, ProjectFile>, created: nat, updated: nat)

  /** The ids drawn so far: one per created and one per updated file. */
  function Drawn(s: RunState): nat {
    s.created + s.updated
  }

  /** An existing file without an id, with `data.edit_id` set. */
  function GiveId(f: ProjectFile, id: string): (r: ProjectFile)
    ensures id != "" ==> FileHasEditId(r)
  {
    match f
    case Parsed(data, content) => Parsed(SetField(data, "edit_id", JStr(id)), content)
    case Written(text, _) => Written(text, id)
  }

  /** The file buildNewMdx writes for a project. */
  function NewFile(p: Json, id: string): (r: ProjectFile)
    ensures id != "" ==> FileHasEditId(r)
  {
    Written(BuildNewMdx(NewProjectOf(p), id), id)
  }

  /** One project: skipped when its slug is blank or its file has an
      edit_id; otherwise its file gains an id or is created. */
  function Step(s: RunState, p: Json, draws: nat -> nat): (r: RunState)
    requires ValidDraws(draws)
    ensures Drawn(r) == Drawn(s) || Drawn(r) == Drawn(s) + 1
  {
    var slug := SlugText(p);
    var file := slug + ".mdx";
    if slug == "" then s
    else if file in s.files then
      var f := s.files[file];
      if FileHasEditId(f) then s
      else
        s.(files := s.files[file := GiveId(f, EditIdFrom(draws, Drawn(s)))], updated := s.updated + 1)
    else
      s.(files := s.files[file := NewFile(p, EditIdFrom(draws, Drawn(s)))], created := s.created + 1)
  }

  function Run(projects: seq<Json>, files: map<string, ProjectFile>, draws: nat -> nat): RunState
    requires ValidDraws(draws)
  {
    if projects == [] then RunState(files, 0, 0)
    else Step(Run(projects[..|projects| - 1], files, draws), projects[|projects| - 1], draws)
  }

  lemma RunStep(projects: seq<Json>, files: map<string, ProjectFile>, draws: nat -> nat, i: nat)
    requires ValidDraws(draws) && i < |projects|
    ensures Run(projects[..i + 1], files, draws) == Step(Run(projects[..i], files, draws), projects[i], draws)
  {
    assert projects[..i + 1][..i] == projects[..i];
  }

  /** The body of main's loop for one project. */
  method RunProject(dir: map<string, ProjectFile>, created: nat, updated: nat, p: Json, draws: nat -> nat)
    returns (dir': map<string, ProjectFile>, created': nat, updated': nat)
    requires ValidDraws(draws)
    ensures RunState(dir', created', updated') == Step(RunState(dir, created, updated), p, draws)
  {
    dir', created', updated' := dir, created, updated;
    var slug := SlugText(p);
    if slug == "" {
      return;
    }
    var file := slug + ".mdx";
    if file in dir {
      var f := dir[file];
      if !FileHasEditId(f) {
        var id := RandomEditId(draws, created + updated);
        dir' := dir[file := GiveId(f, id)];
        updated' := updated + 1;
      }
    } else {
      var id := RandomEditId(draws, created + updated);
      dir' := dir[file := NewFile(p, id)];
      created' := created + 1;
    }
  }

  /** main; None when the project list is missing (it exits with an error). */
  method GenerateProjectMdx(projectsFile: Option<seq<Json>>, files: map<string, ProjectFile>, draws: nat -> nat)
    returns (out: Option<RunState>)
    requires ValidDraws(draws)
    ensures projectsFile.None? ==> out.None?
    ensures projectsFile.Some? ==> out == Some(Run(projectsFile.value, files, draws))
  {
    if projectsFile.None? {
      return None;
    }
    var projects := projectsFile.value;
    var dir := files;
    var created, updated := 0, 0;
    var i := 0;
    while i < |projects|
      invariant 0 <= i <= |projects|
      invariant RunState(dir, created, updated) == Run(projects[..i], files, draws)
    {
      RunStep(projects, files, draws, i);
      dir, created, updated := RunProject(dir, created, updated, projects[i], draws);
      i := i + 1;
    }
    assert projects[..i] == projects;
    out := Some(RunState(dir, created, updated));
  }

  /** After a step, the project's file exists and has an edit id; no other
      file changes; a file that had an id is untouched. */
  lemma StepFacts(s: RunState, p: Json, draws: nat -> nat)
    requires ValidDraws(draws)
    ensures var r := Step(s, p, draws); var file := SlugText(p) + ".mdx";
      && (SlugText(p) == "" ==> r == s)
      && (SlugText(p) != "" ==> file in r.files && FileHasEditId(r.files[file]))
      && (forall f | f in s.files && f != file :: f in r.files && r.files[f] == s.files[f])
      && (forall f | f in r.files :: f in s.files || f == file)
      && (file in s.files && FileHasEditId(s.files[file]) ==> r == s)
  {
    var file := SlugText(p) + ".mdx";
    if SlugText(p) != "" && (file !in s.files || !FileHasEditId(s.files[file])) {
      EditIdTruthy(draws, Drawn(s));
    }
  }

  /** Every project with a slug has a file with an edit id after the run,
      files no project names are untouched, and no file disappears. */
  lemma {:induction false} RunFacts(projects: seq<Json>, files: map<string, ProjectFile>, draws: nat -> nat)
    requires ValidDraws(draws)
    ensures var r := Run(projects, files, draws);
      && (forall i | 0 <= i < |projects| && SlugText(projects[i]) != "" ::
            SlugText(projects[i]) + ".mdx" in r.files && FileHasEditId(r.files[SlugText(projects[i]) + ".mdx"]))
      && (forall f | f in files :: f in r.files)
      && (forall f | f in files && FileHasEditId(files[f]) :: r.files[f] == files[f])
      && r.created + r.updated <= |projects|
  {
    if projects != [] {
      var init := projects[..|projects| - 1];
      var p := projects[|projects| - 1];
      RunFacts(init, files, draws);
      var s := Run(init, files, draws);
      var r := Step(s, p, draws);
      assert Run(projects, files, draws) == r;
      StepFacts(s, p, draws);
      var file := SlugText(p) + ".mdx";
      forall i | 0 <= i < |projects| - 1 && SlugText(projects[i]) != ""
        ensures SlugText(projects[i]) + ".mdx" in r.files && FileHasEditId(r.files[SlugText(projects[i]) + ".mdx"])
      {
        assert projects[i] == init[i];
      }
      forall f | f in files && FileHasEditId(files[f]) ensures r.files[f] == files[f] {
        if f == file {
          assert FileHasEditId(s.files[f]);
        }
      }
    }
  }

  /** A second run right after a first creates and updates nothing and
      leaves every file as it was, whatever it would draw. */
  lemma {:induction false} SecondRunChangesNothing(projects: seq<Json>, files: map<string, ProjectFile>, draws: nat -> nat, draws2: nat -> nat)
    requires ValidDraws(draws) && ValidDraws(draws2)
    ensures var once := Run(projects, files, draws).files;
      Run(projects, once, draws2) == RunState(once, 0, 0)
  {
    RunFacts(projects, files, draws);
    var once := Run(projects, files, draws).files;
    QuietRun(projects, once, draws2);
  }

  /** A run over a directory where every named file already has an id. */
  lemma {:induction false} QuietRun(projects: seq<Json>, files: map<string, ProjectFile>, draws: nat -> nat)
    requires ValidDraws(draws)
    requires forall i | 0 <= i < |projects| && SlugText(projects[i]) != "" ::
      SlugText(projects[i]) + ".mdx" in files && FileHasEditId(files[SlugText(projects[i]) + ".mdx"])
    ensures Run(projects, files, draws) == RunState(files, 0, 0)
  {
    if projects != [] {
      var init := projects[..|projects| - 1];
      assert forall i | 0 <= i < |init| :: init[i] == projects[i];
      QuietRun(init, files, draws);
    }
  }
}
