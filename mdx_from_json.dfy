/** The project and founder MDX writer (scripts/generate-mdx-from-json.js):
    one project file per project with a slug or id, and one founder file per
    distinct founder username, each written only when missing. The project
    list and the names of the files already present are parameters; the
    writes come back as (file name, content) pairs in the order they happen. */
module MdxFromJson {
  import opened Strings
  import opened JsonValue
  import opened Lists
  import opened JsonText

  // ---------------------------------------------------------------------
  // File names

  /** The characters safeFilename replaces. */
  predicate Unsafe(c: char) {
    c == '\\' || c == '/' || c == ':' || c == '*' || c == '?' || c == '"' || c == '<' || c == '>' || c == '|'
  }

  function Unsafed(u: string): (r: string)
    ensures |r| == |u|
    ensures forall i | 0 <= i < |r| :: !Unsafe(r[i])
  {
    seq(|u|, i requires 0 <= i < |u| => if Unsafe(u[i]) then '_' else u[i])
  }

  /** safeFilename: each unsafe character becomes "_", the result is
      trimmed, and an empty result becomes "unknown". */
  function SafeFilename(u: string): (r: string)
    ensures r != ""
    ensures forall i | 0 <= i < |r| :: !Unsafe(r[i])
  {
    var t := Trim(Unsafed(u));
    TrimKeepsOut(Unsafed(u), Unsafe);
    if t == "" then "unknown" else t
  }

  /** A name that is already safe and trimmed is kept as it is. */
  lemma SafeFilenameKeepsSafe(u: string)
    requires u != "" && (forall i | 0 <= i < |u| :: !Unsafe(u[i]))
    requires !IsSpace(u[0]) && !IsSpace(u[|u| - 1])
    ensures SafeFilename(u) == u
  {
    assert Unsafed(u) == u;
    TrimOfTrimmed(u);
  }

  /** Applying safeFilename twice gives what applying it once gives. */
  lemma SafeFilenameIdempotent(u: string)
    ensures SafeFilename(SafeFilename(u)) == SafeFilename(u)
  {
    var r := SafeFilename(u);
    var t := Trim(Unsafed(u));
    TrimShape(Unsafed(u));
    if t == "" {
      assert r == "unknown";
      assert !IsSpace(r[0]) && !IsSpace(r[|r| - 1]);
    }
    SafeFilenameKeepsSafe(r);
  }

  function SlugToFilename(slug: string): (r: string)
    ensures |r| == |slug| + 4 && r[..|slug|] == slug && r[|slug|..] == ".mdx"
  {
    slug + ".mdx"
  }

  // ---------------------------------------------------------------------
  // Values as the template literals print them

  /** String(v) for a value read from the JSON (None is undefined). */
  function Text(v: Option<Json>): string {
    if v.None? then "undefined" else TextOf(v.value)
  }

  function TextOf(j: Json): string
    decreases j, 1
  {
    match j
    case JNull => "null"
    case JBool(b) => if b then "true" else "false"
    case JNum(n) => IntToString(n)
    case JStr(s) => s
    case JObj(_) => "[object Object]"
    case JArr(items) => ArrayText(items, j)
  }

  /** Array.prototype.toString: the elements joined with ",", null elements
      as "". */
  function ArrayText(items: seq<Json>, ghost whole: Json): string
    requires forall k | 0 <= k < |items| :: items[k] < whole
    decreases whole, 0, |items|
  {
    if items == [] then ""
    else
      var first := if items[0] == JNull then "" else TextOf(items[0]);
      if |items| == 1 then first else first + "," + ArrayText(items[1..], whole)
  }

  /** What one front-matter entry prints as its value: a string holding a
      newline or a colon is JSON-quoted, every other value is printed as
      String(v) prints it. */
  function Value(v: Option<Json>): (r: string)
    ensures v.Some? && v.value.JStr? ==> '\n' !in r
    ensures v.Some? && v.value.JStr? && ('\n' in v.value.s || ':' in v.value.s) ==> Unquote(r) == v.value.s
    ensures v.Some? && v.value.JStr? && '\n' !in v.value.s && ':' !in v.value.s ==> r == v.value.s
  {
    if v.Some? && v.value.JStr? && ('\n' in v.value.s || ':' in v.value.s) then
      JsonQuoteRoundTrip(v.value.s);
      JsonQuote(v.value.s)
    else Text(v)
  }

  /** JSON.stringify(v): strings quoted, arrays and objects written out
      without spaces, keys in insertion order. */
  function Stringify(j: Json): (r: string)
    ensures '\n' !in r
    decreases j, 1
  {
    match j
    case JNull => "null"
    case JBool(b) => if b then "true" else "false"
    case JNum(n) => IntTextOneLine(n); IntToString(n)
    case JStr(s) => JsonQuote(s)
    case JArr(items) => "[" + StringifyItems(items, j) + "]"
    case JObj(fields) =>
      assert forall k | 0 <= k < |fields| :: fields[k].value < fields[k] < j;
      "{" + StringifyFields(fields, j) + "}"
  }

  function StringifyItems(items: seq<Json>, ghost whole: Json): (r: string)
    requires forall k | 0 <= k < |items| :: items[k] < whole
    ensures '\n' !in r
    decreases whole, 0, |items|
  {
    if items == [] then ""
    else if |items| == 1 then Stringify(items[0])
    else Stringify(items[0]) + "," + StringifyItems(items[1..], whole)
  }

  function StringifyFields(fields: seq<Field>, ghost whole: Json): (r: string)
    requires forall k | 0 <= k < |fields| :: fields[k].value < whole
    ensures '\n' !in r
    decreases whole, 0, |fields|
  {
    if fields == [] then ""
    else
      var one := JsonQuote(fields[0].key) + ":" + Stringify(fields[0].value);
      if |fields| == 1 then one else one + "," + StringifyFields(fields[1..], whole)
  }

  /** Values whose printed form is one line. */
  predicate OneLine(v: Option<Json>) {
    v.None? || !v.value.JArr?
  }

  lemma ValueOneLine(v: Option<Json>)
    requires OneLine(v)
    ensures '\n' !in Value(v)
  {
    if v.Some? && v.value.JNum? {
      IntTextOneLine(v.value.n);
    }
  }

  /** The front-matter keys the two writers use. */
  datatype FmKey =
    | EditIdKey | SlugKey | ProjectIdKey | NameKey | DescriptionKey
    | UsernameKey | HackathonsKey | ProjectsKey | PrizesKey | AmountKey | CredsKey

  function KeyName(k: FmKey): (r: string)
    ensures '\n' !in r
  {
    match k
    case EditIdKey => "edit_id"
    case SlugKey => "slug"
    case ProjectIdKey => "project_id"
    case NameKey => "name"
    case DescriptionKey => "description"
    case UsernameKey => "username"
    case HackathonsKey => "hackathons_attended"
    case ProjectsKey => "projects_built"
    case PrizesKey => "prizes_won"
    case AmountKey => "prize_winnings_amount"
    case CredsKey => "onchain_creds_claimed"
  }

  /** `${k}: ${v}`. */
  function Entry(k: FmKey, value: string): (r: string)
    ensures '\n' !in value ==> '\n' !in r
    ensures |KeyName(k)| + 2 <= |r| && r[..|KeyName(k)| + 2] == KeyName(k) + ": " && r[|KeyName(k)| + 2..] == value
  {
    KeyName(k) + ": " + value
  }

  /** "---", the entries, "---", an empty line, then the body. */
  function Document(lines: seq<string>, body: string): string {
    "---\n" + Join(lines, "\n") + "\n---\n\n" + body
  }

  /** A reader that splits a document into lines finds the delimiter, the
      entry lines, the closing delimiter and the empty line, then the body. */
  lemma DocumentReadsBack(lines: seq<string>, body: string)
    requires lines != [] && forall i | 0 <= i < |lines| :: '\n' !in lines[i]
    ensures Split(Document(lines, body), '\n') == ["---"] + lines + ["---", ""] + Split(body, '\n')
  {
    JoinThenSplit(lines, "---\n\n" + body, '\n');
    assert Document(lines, body) == "---" + "\n" + (Join(lines, "\n") + "\n" + ("---\n\n" + body));
    SplitAfterLine("---", Join(lines, "\n") + "\n" + ("---\n\n" + body), '\n');
    assert "---\n\n" + body == "---" + "\n" + ("\n" + body);
    SplitAfterLine("---", "\n" + body, '\n');
    assert "\n" + body == "" + "\n" + body;
    SplitAfterLine("", body, '\n');
  }

  // ---------------------------------------------------------------------
  // Project files

  /** `p.slug || p.id`. */
  function SlugOf(p: Json): Json {
    JsEither(Get(p, "slug"), Get(p, "id"))
  }

  /** The project file of p, or None for a project skipped for having
      neither slug nor id. */
  function ProjectFile(p: Json): (r: Option<string>)
    ensures r.Some? <==> JsTrue(SlugOf(p))
    ensures r.Some? ==> r.value == TextOf(SlugOf(p)) + ".mdx"
  {
    if JsTrue(SlugOf(p)) then Some(SlugToFilename(TextOf(SlugOf(p)))) else None
  }

  /** `p.id || slug`, the value the edit id is cut from. */
  function IdSource(p: Json): Json {
    JsEither(Get(p, "id"), SlugOf(p))
  }

  /** A slug that is an empty list is truthy in JavaScript: it is kept, and
      prints as "", so the file is ".mdx". */
  lemma EmptyListSlugKept()
    ensures ProjectFile(JObj([Field("slug", JArr([])), Field("id", JStr("i"))])) == Some(".mdx")
  {
  }

  /** "proj-" and `.slice(0, 8)` of the id, or of the slug when the id is
      falsy: the first eight characters of a string, the first eight
      elements of an array (then printed with toString). Other values have
      no slice method and read as "". */
  function EditId(p: Json): (r: string)
    ensures 5 <= |r| && r[..5] == "proj-"
    ensures var t := IdSource(p); t.JStr? ==>
      && |r| <= 13 && |r| - 5 <= |t.s| && r[5..] == t.s[..|r| - 5]
      && (|r| == 13 || r[5..] == t.s)
    ensures var t := IdSource(p); t.JArr? && |t.items| <= 8 ==> r[5..] == TextOf(t)
    ensures var t := IdSource(p); !t.JStr? && !t.JArr? ==> r == "proj-"
  {
    var t := IdSource(p);
    if t.JArr? then "proj-" + TextOf(JArr(Take(t.items, 8)))
    else "proj-" + Take(Str(t), 8)
  }

  function Lookup1(p: Json, key: string): Option<Json> {
    if p.JObj? then Lookup(p.fields, key) else None
  }

  /** The edit_id entry: "proj-" and the id are one line. */
  function EditIdLine(p: Json): (r: string)
    ensures '\n' !in r
  {
    Entry(EditIdKey, Value(Some(JStr(EditId(p)))))
  }

  /** edit_id, slug, project_id, name and description, in that order. */
  function ProjectLines(p: Json): (r: seq<string>)
    ensures |r| == 5
  {
    [EditIdLine(p),
     Entry(SlugKey, Value(Some(SlugOf(p)))),
     Entry(ProjectIdKey, Value(Lookup1(p, "id"))),
     Entry(NameKey, Value(Lookup1(p, "name"))),
     Entry(DescriptionKey, Value(Some(JsEither(Get(p, "description"), JStr("")))))]
  }

  const ProjectBodyHead := "## About this project\nAdd a longer description, milestones, or team story here. This content is merged with the project data from Devfolio.\n## Links\n- [Devfolio]("
  const ProjectBodyTail := ")\n"

  /** The default body with "{url}" replaced by `p.url || ""`. */
  function ProjectBody(p: Json): string {
    ProjectBodyHead + TextOf(JsEither(Get(p, "url"), JStr(""))) + ProjectBodyTail
  }

  function ProjectDocument(p: Json): string {
    Document(ProjectLines(p), ProjectBody(p))
  }

  lemma ProjectLinesOneLine(p: Json)
    requires OneLine(Some(SlugOf(p))) && OneLine(Lookup1(p, "id")) && OneLine(Lookup1(p, "name"))
    requires OneLine(Some(JsEither(Get(p, "description"), JStr(""))))
    ensures ProjectLines(p) != [] && forall i | 0 <= i < |ProjectLines(p)| :: '\n' !in ProjectLines(p)[i]
  {
    FrontLinesOneLine(EditIdLine(p), Some(SlugOf(p)), Lookup1(p, "id"), Lookup1(p, "name"),
                      Some(JsEither(Get(p, "description"), JStr(""))));
  }

  /** The five project lines, over their values. */
  lemma FrontLinesOneLine(edit: string, slug: Option<Json>, id: Option<Json>, name: Option<Json>, desc: Option<Json>)
    requires '\n' !in edit && OneLine(slug) && OneLine(id) && OneLine(name) && OneLine(desc)
    ensures var lines := [edit, Entry(SlugKey, Value(slug)), Entry(ProjectIdKey, Value(id)), Entry(NameKey, Value(name)),
                          Entry(DescriptionKey, Value(desc))];
      forall i | 0 <= i < |lines| :: '\n' !in lines[i]
  {
    var lines := [edit, Entry(SlugKey, Value(slug)), Entry(ProjectIdKey, Value(id)), Entry(NameKey, Value(name)),
                  Entry(DescriptionKey, Value(desc))];
    forall i | 0 <= i < |lines|
      ensures '\n' !in lines[i]
    {
      if i == 1 {
        EntryOneLine(SlugKey, slug);
      } else if i == 2 {
        EntryOneLine(ProjectIdKey, id);
      } else if i == 3 {
        EntryOneLine(NameKey, name);
      } else if i == 4 {
        EntryOneLine(DescriptionKey, desc);
      }
    }
  }

  lemma EntryOneLine(k: FmKey, v: Option<Json>)
    requires OneLine(v)
    ensures '\n' !in Entry(k, Value(v))
  {
    ValueOneLine(v);
  }

  /** When the slug, id, name and description are not lists, the project
      file has exactly the five front-matter lines. */
  lemma ProjectDocumentLines(p: Json)
    requires OneLine(Some(SlugOf(p))) && OneLine(Lookup1(p, "id")) && OneLine(Lookup1(p, "name"))
    requires OneLine(Some(JsEither(Get(p, "description"), JStr(""))))
    ensures Split(ProjectDocument(p), '\n') == ["---"] + ProjectLines(p) + ["---", ""] + Split(ProjectBody(p), '\n')
  {
    ProjectLinesOneLine(p);
    DocumentReadsBack(ProjectLines(p), ProjectBody(p));
  }

  // ---------------------------------------------------------------------
  // Founders

  /** What the Map keeps per founder. */
  datatype Pending = Pending(name: Json, username: string)

  /** The Map key: the lowercased username. */
  function FounderKey(e: Pending): string {
    Lower(e.username)
  }

  /** The founders one project contributes, primary first: `founderTwitter ||
      founder` when truthy, then each co-founder with a non-blank twitter. */
  function Candidates(p: Json): seq<Pending> {
    var primary := JsEither(Get(p, "founderTwitter"), Get(p, "founder"));
    var first := if JsTrue(primary) then [Pending(JsEither(Get(p, "founder"), Get(p, "name")), Trim(TextOf(primary)))] else [];
    first + FilterMap(Items(Get(p, "founders")), CoFounder)
  }

  function CoFounder(f: Json): (r: Option<Pending>)
    ensures r.Some? ==> r.value.username != ""
  {
    var username := Trim(Str(Get(f, "twitter")));
    if username == "" then None else Some(Pending(JsEither(Get(f, "name"), JStr("")), username))
  }

  /** Every project's founders, project by project. */
  function AllCandidates(projects: seq<Json>): seq<Pending> {
    FlatMap(projects, Candidates)
  }

  /** founderByUsername in insertion order, given the founders in the order
      the loop meets them. */
  function FounderMap(c: seq<Pending>): (r: seq<Pending>)
    ensures forall i, j | 0 <= i < j < |r| :: FounderKey(r[i]) != FounderKey(r[j])
  {
    FirstByKey(c, FounderKey)
  }

  /** Every founder met has its key in the map, under the first founder met
      with that key, and the map keeps the order in which the keys first
      appear. */
  lemma FounderMapFacts(c: seq<Pending>)
    ensures forall j | 0 <= j < |c| :: HasKey(FounderMap(c), FounderKey, FounderKey(c[j]))
    ensures var r := FounderMap(c);
      forall i | 0 <= i < |r| :: exists j | 0 <= j < |c| ::
        c[j] == r[i] && forall m | 0 <= m < j :: FounderKey(c[m]) != FounderKey(r[i])
    ensures IsSubsequence(FounderMap(c), c)
  {
    FirstByKeyCovers(c, FounderKey);
    FirstByKeyFirst(c, FounderKey);
    FirstByKeySubsequence(c, FounderKey);
  }

  function FounderFile(e: Pending): Option<string> {
    Some(SafeFilename(e.username) + ".mdx")
  }

  /** What the founder writer prints as a value: unlike the project
      writer, it JSON-stringifies an array, so every value is one line. */
  function FounderValue(v: Json): (r: string)
    ensures '\n' !in r
    ensures v.JArr? ==> r == Stringify(v)
    ensures !v.JArr? ==> r == Value(Some(v))
  {
    if v.JArr? then Stringify(v) else ValueOneLine(Some(v)); Value(Some(v))
  }

  /** username, name (`name || username`), the five counts at 0, and the
      literal empty tag list. */
  function FounderLines(e: Pending): (r: seq<string>)
    ensures |r| == 8
  {
    [Entry(UsernameKey, FounderValue(JStr(e.username))),
     Entry(NameKey, FounderValue(JsEither(e.name, JStr(e.username)))),
     ZeroEntry(HackathonsKey),
     ZeroEntry(ProjectsKey),
     ZeroEntry(PrizesKey),
     ZeroEntry(AmountKey),
     ZeroEntry(CredsKey),
     TagsLine()]
  }

  /** A count written as 0. */
  function ZeroEntry(k: FmKey): (r: string)
    ensures '\n' !in r
  {
    var zero := "0";
    assert zero[0] == '0';
    Entry(k, zero)
  }

  /** The literal empty tag list. */
  function TagsLine(): (r: string)
    ensures '\n' !in r
  {
    "tags: []"
  }

  const FounderBody := "## About\nBuilder from India.\n\n## What I'm Building\n*Add your focus areas and current projects here.*\n\n## Interests\n- Web3\n- Base\n- India ecosystem\n"

  function FounderDocument(e: Pending): string {
    Document(FounderLines(e), FounderBody)
  }

  lemma FounderLinesOneLine(e: Pending)
    ensures FounderLines(e) != [] && forall i | 0 <= i < |FounderLines(e)| :: '\n' !in FounderLines(e)[i]
  {
    var l1 := Entry(UsernameKey, FounderValue(JStr(e.username)));
    var l2 := Entry(NameKey, FounderValue(JsEither(e.name, JStr(e.username))));
    assert '\n' !in l1 && '\n' !in l2;
    var zeros := [ZeroEntry(HackathonsKey), ZeroEntry(ProjectsKey), ZeroEntry(PrizesKey), ZeroEntry(AmountKey), ZeroEntry(CredsKey)];
    assert forall i | 0 <= i < |zeros| :: '\n' !in zeros[i];
    assert FounderLines(e) == [l1, l2] + zeros + [TagsLine()];
  }

  /** The founder file has the eight front-matter lines between the fences,
      then the fixed body. */
  lemma FounderDocumentLines(e: Pending)
    ensures Split(FounderDocument(e), '\n') == ["---"] + FounderLines(e) + ["---", ""] + Split(FounderBody, '\n')
  {
    FounderLinesOneLine(e);
    DocumentReadsBack(FounderLines(e), FounderBody);
  }

  /** Reading the username line back gives the username. */
  lemma FounderUsernameReadsBack(e: Pending)
    ensures var line := FounderLines(e)[0]; var v := line[|KeyName(UsernameKey)| + 2..];
      && ('\n' in e.username || ':' in e.username ==> Unquote(v) == e.username)
      && ('\n' !in e.username && ':' !in e.username ==> v == e.username)
  {
  }

  // ---------------------------------------------------------------------
  // The run

  datatype Outcome = Outcome(
    projectWrites: seq<(string, string)>,
    founderWrites: seq<(string, string)>,
    projectsCreated: nat,
    foundersCreated: nat)

  /** The projects whose file gets written, given the files present. */
  function ProjectsCreated(projects: seq<Json>, present: set<string>): seq<Json> {
    Creating(projects, ProjectFile, present)
  }

  function FoundersCreated(c: seq<Pending>, present: set<string>): seq<Pending> {
    Creating(FounderMap(c), FounderFile, present)
  }

  /** The write of one project: its file name and content. */
  function ProjectWrite(p: Json): (string, string) {
    (if ProjectFile(p).Some? then ProjectFile(p).value else "", ProjectDocument(p))
  }

  function FounderWrite(e: Pending): (string, string) {
    (FounderFile(e).value, FounderDocument(e))
  }

  /** The first loop, which writes the project files and collects the
      founders. The two jobs share nothing, so the model runs them as two
      passes: the file writes here, the founder collection in
      CollectFounders. */
  method ProjectPass(projects: seq<Json>, projectFiles: set<string>)
    returns (writes: seq<(string, string)>, created: nat)
    ensures writes == Mapped(ProjectsCreated(projects, projectFiles), ProjectWrite)
    ensures created == |writes|
  {
    writes := WriteMissing(projects, ProjectFile, ProjectWrite, projectFiles);
    created := |writes|;
  }

  /** The founder half of the first loop. */
  method CollectFounders(projects: seq<Json>) returns (founders: seq<Pending>)
    ensures founders == FounderMap(AllCandidates(projects))
  {
    founders := [];
    var i := 0;
    while i < |projects|
      invariant 0 <= i <= |projects|
      invariant founders == FounderMap(AllCandidates(projects[..i]))
    {
      FlatMapStep(projects, Candidates, i);
      founders := AddFounders(founders, AllCandidates(projects[..i]), Candidates(projects[i]));
      i := i + 1;
    }
    assert projects[..i] == projects;
  }

  /** `founderByUsername.has(key)`. */
  method MapHas(m: seq<Pending>, key: string) returns (found: bool)
    ensures found == HasKey(m, FounderKey, key)
  {
    found := false;
    var n := 0;
    while n < |m|
      invariant 0 <= n <= |m|
      invariant found <==> exists q | 0 <= q < n :: FounderKey(m[q]) == key
    {
      if FounderKey(m[n]) == key {
        found := true;
      }
      n := n + 1;
    }
  }

  /** One project's founders added to the Map, first occurrence winning. */
  method AddFounders(m: seq<Pending>, ghost before: seq<Pending>, add: seq<Pending>) returns (r: seq<Pending>)
    requires m == FounderMap(before)
    ensures r == FounderMap(before + add)
  {
    r := m;
    var k := 0;
    assert before + add[..0] == before;
    while k < |add|
      invariant 0 <= k <= |add|
      invariant r == FounderMap(before + add[..k])
    {
      FirstByKeyAppendStep(before, add, FounderKey, k);
      var found := MapHas(r, FounderKey(add[k]));
      if !found {
        r := r + [add[k]];
      }
      k := k + 1;
    }
    assert add[..k] == add;
  }

  /** The second loop: founder files, in Map order. */
  method FounderPass(founders: seq<Pending>, founderFiles: set<string>)
    returns (writes: seq<(string, string)>, created: nat)
    ensures writes == Mapped(Creating(founders, FounderFile, founderFiles), FounderWrite)
    ensures created == |writes|
  {
    writes := WriteMissing(founders, FounderFile, FounderWrite, founderFiles);
    created := |writes|;
  }

  /** The script's run: None when the project list is missing (it exits with
      an error). */
  method GenerateMdx(projectsFile: Option<seq<Json>>, projectFiles: set<string>, founderFiles: set<string>)
    returns (out: Option<Outcome>)
    ensures projectsFile.None? ==> out.None?
    ensures projectsFile.Some? ==> (out.Some? &&
      out.value.projectWrites == Mapped(ProjectsCreated(projectsFile.value, projectFiles), ProjectWrite) &&
      out.value.projectsCreated == |out.value.projectWrites| &&
      out.value.founderWrites == Mapped(FoundersCreated(AllCandidates(projectsFile.value), founderFiles), FounderWrite) &&
      out.value.foundersCreated == |out.value.founderWrites|)
  {
    if projectsFile.None? {
      return None;
    }
    var pw, pc := ProjectPass(projectsFile.value, projectFiles);
    var founders := CollectFounders(projectsFile.value);
    var fw, fc := FounderPass(founders, founderFiles);
    out := Some(Outcome(pw, fw, pc, fc));
  }

  /** What the run promises: every project with a slug or id and every
      founder in the map has a file afterwards, every write creates a new
      file, and each counter is the number of files it created. */
  lemma ProjectRunFacts(projects: seq<Json>, projectFiles: set<string>)
    ensures var ps := ProjectsCreated(projects, projectFiles);
      && (forall i | 0 <= i < |projects| && ProjectFile(projects[i]).Some? ::
            ProjectFile(projects[i]).value in projectFiles + CreatedNames(ps, ProjectFile))
      && (forall i | 0 <= i < |ps| :: ProjectFile(ps[i]).Some? && ProjectFile(ps[i]).value !in projectFiles)
      && (forall i, j | 0 <= i < j < |ps| :: ProjectFile(ps[i]) != ProjectFile(ps[j]))
      && |CreatedNames(ps, ProjectFile)| == |ps|
  {
    CreatingFacts(projects, ProjectFile, projectFiles);
  }

  lemma FounderRunFacts(c: seq<Pending>, founderFiles: set<string>)
    ensures var m := FounderMap(c); var fs := FoundersCreated(c, founderFiles);
      && (forall i | 0 <= i < |m| :: FounderFile(m[i]).value in founderFiles + CreatedNames(fs, FounderFile))
      && (forall i | 0 <= i < |fs| :: FounderFile(fs[i]).value !in founderFiles)
      && (forall i, j | 0 <= i < j < |fs| :: FounderFile(fs[i]) != FounderFile(fs[j]))
      && |CreatedNames(fs, FounderFile)| == |fs|
  {
    CreatingFacts(FounderMap(c), FounderFile, founderFiles);
  }
}
