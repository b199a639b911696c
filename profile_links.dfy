/** profile_links.json and its merge into the project list
    (scripts/devfolio-scraper/merge_profile_links.py). The file maps each
    Devfolio username to what was found on that user's profile page:
    { "twitter": handle, "github": url }. */
module ProfileLinks {
  import opened Strings
  import opened JsonValue
  import opened Directory
  import opened Lists

  /** The stripped Twitter handle of one entry; "" when it has none. */
  function EntryTwitter(data: Json): string {
    Trim(Str(Get(data, "twitter")))
  }

  /** What one entry contributes to the index: its lowercased handle and
      its Devfolio username, when it has a handle. */
  function TwitterEntry(e: Field): Option<(string, string)> {
    if EntryTwitter(e.value) != "" then Some((Lower(EntryTwitter(e.value)), e.key)) else None
  }

  /** Lowercased Twitter handle to Devfolio username, entries read in file
      order so that a later entry for the same handle replaces an earlier one
      (MapOfKeys and MapOfLastWins). */
  function TwitterIndex(links: seq<Field>): map<string, string> {
    MapOf(links, TwitterEntry)
  }

  /** The index-building loop. */
  method BuildTwitterIndex(links: seq<Field>) returns (m: map<string, string>)
    ensures m == TwitterIndex(links)
  {
    m := map[];
    var i := 0;
    while i < |links|
      invariant 0 <= i <= |links|
      invariant m == TwitterIndex(links[..i])
    {
      assert links[..i + 1][..i] == links[..i];
      assert links[..i + 1][i] == links[i];
      var tw := EntryTwitter(links[i].value);
      if tw != "" {
        m := m[Lower(tw) := links[i].key];
      }
      i := i + 1;
    }
    assert links[..i] == links;
  }

  /** The github url recorded for a Devfolio username; "" when there is none. */
  function EntryGithub(links: seq<Field>, user: string): string {
    var e := Lookup(links, user);
    if e.Some? then Str(Get(e.value, "github")) else ""
  }

  /** The Twitter handle recorded for a Devfolio username, unstripped; "" when
      there is none. */
  function EntryHandle(links: seq<Field>, user: string): string {
    var e := Lookup(links, user);
    if e.Some? then Str(Get(e.value, "twitter")) else ""
  }

  /** The canonicalisation of one project, and whether it counts as updated.
      A founderTwitter that is a known Twitter handle becomes the Devfolio
      username, keeping the handle for display; one that is already a Devfolio
      username only gains the handle. Either way the GitHub url of the
      canonical user is added when there is one. */
  function MergeProject(p: Project, links: seq<Field>, index: map<string, string>): (r: (Project, bool))
    ensures var key := Trim(p.founderTwitter);
      (key == "" || key == "devfolio") ==> r == (p, false)
    ensures r.0 == p.(founderTwitter := r.0.founderTwitter, founderTwitterHandle := r.0.founderTwitterHandle,
                      founderGithub := r.0.founderGithub)
  {
    var key := Trim(p.founderTwitter);
    if key == "" || key == "devfolio" then (p, false)
    else
      var step :=
        if Lower(key) in index then (p.(founderTwitter := index[Lower(key)], founderTwitterHandle := Some(key)), true)
        else if EntryHandle(links, key) != "" then (p.(founderTwitterHandle := Some(EntryHandle(links, key))), true)
        else (p, false);
      var q := step.0;
      var canonical := if q.founderTwitter != "" then q.founderTwitter else key;
      var github := EntryGithub(links, canonical);
      (if github != "" then q.(founderGithub := Some(github)) else q, step.1)
  }

  /** The three cases of the rewrite, and the GitHub url that follows the
      canonical user. */
  lemma MergeCases(p: Project, links: seq<Field>, index: map<string, string>)
    requires Trim(p.founderTwitter) != "" && Trim(p.founderTwitter) != "devfolio"
    ensures var key := Trim(p.founderTwitter); var r := MergeProject(p, links, index);
      && (Lower(key) in index ==>
            r.0.founderTwitter == index[Lower(key)] && r.0.founderTwitterHandle == Some(key) && r.1)
      && (Lower(key) !in index && EntryHandle(links, key) != "" ==>
            r.0.founderTwitter == p.founderTwitter && r.0.founderTwitterHandle == Some(EntryHandle(links, key)) && r.1)
      && (Lower(key) !in index && EntryHandle(links, key) == "" ==>
            r.0.founderTwitter == p.founderTwitter && r.0.founderTwitterHandle == p.founderTwitterHandle && !r.1)
      && (var canonical := if r.0.founderTwitter != "" then r.0.founderTwitter else key;
          r.0.founderGithub == if EntryGithub(links, canonical) != "" then Some(EntryGithub(links, canonical))
                               else p.founderGithub)
  {
  }

  /** Nothing populated is replaced by an empty value, provided no Devfolio
      username in the file is empty (the profile fetcher never writes one). */
  lemma MergeNeverEmpties(p: Project, links: seq<Field>)
    requires forall k | 0 <= k < |links| :: links[k].key != ""
    ensures var r := MergeProject(p, links, TwitterIndex(links)).0;
      && (p.founderTwitter != "" ==> r.founderTwitter != "")
      && (r.founderTwitterHandle != p.founderTwitterHandle ==> r.founderTwitterHandle.value != "")
      && (r.founderGithub != p.founderGithub ==> r.founderGithub.value != "")
  {
    var key := Trim(p.founderTwitter);
    var index := TwitterIndex(links);
    if key != "" && key != "devfolio" && Lower(key) in index {
      MapOfLastWins(links, TwitterEntry, Lower(key));
    }
  }

  /** The list after the merge: same length, same order, each project
      rewritten on its own. */
  function MergedProjects(ps: seq<Project>, links: seq<Field>): (r: seq<Project>)
    ensures |r| == |ps|
  {
    seq(|ps|, i requires 0 <= i < |ps| => MergeProject(ps[i], links, TwitterIndex(links)).0)
  }

  lemma MergedStep(ps: seq<Project>, links: seq<Field>, i: nat)
    requires i < |ps|
    ensures MergedProjects(ps[..i + 1], links) ==
      MergedProjects(ps[..i], links) + [MergeProject(ps[i], links, TwitterIndex(links)).0]
  {
  }

  /** How many projects took one of the two rewrite branches. */
  function UpdatedCount(ps: seq<Project>, links: seq<Field>): (n: nat)
    ensures n <= |ps|
  {
    if ps == [] then 0
    else UpdatedCount(ps[..|ps| - 1], links) + (if MergeProject(ps[|ps| - 1], links, TwitterIndex(links)).1 then 1 else 0)
  }

  /** The script's main: builds the index, then rewrites each project in
      place and counts the updates. A missing links file changes nothing. */
  method MergeProfileLinks(projects: array<Project>, linksFile: Option<seq<Field>>) returns (updated: nat)
    modifies projects
    ensures linksFile.None? ==> projects[..] == old(projects[..]) && updated == 0
    ensures linksFile.Some? ==>
      projects[..] == MergedProjects(old(projects[..]), linksFile.value) &&
      updated == UpdatedCount(old(projects[..]), linksFile.value)
  {
    updated := 0;
    if linksFile.None? {
      return;
    }
    var links := linksFile.value;
    var index := BuildTwitterIndex(links);
    ghost var before := projects[..];
    var i := 0;
    while i < projects.Length
      invariant 0 <= i <= projects.Length
      invariant forall k | i <= k < projects.Length :: projects[k] == before[k]
      invariant projects[..i] == MergedProjects(before[..i], links)
      invariant updated == UpdatedCount(before[..i], links)
    {
      updated := MergeAt(projects, links, index, before, i, updated);
      i := i + 1;
    }
    TakeSnoc(before, i);
    TakeSnoc(projects[..], i);
  }

  /** One turn of the loop: project i is rewritten and counted. */
  method MergeAt(projects: array<Project>, links: seq<Field>, index: map<string, string>, ghost before: seq<Project>,
                 i: nat, updated: nat) returns (updated': nat)
    modifies projects
    requires index == TwitterIndex(links) && i < projects.Length == |before|
    requires forall k | i <= k < projects.Length :: projects[k] == before[k]
    requires projects[..i] == MergedProjects(before[..i], links)
    requires updated == UpdatedCount(before[..i], links)
    ensures forall k | i + 1 <= k < projects.Length :: projects[k] == before[k]
    ensures projects[..i + 1] == MergedProjects(before[..i + 1], links)
    ensures updated' == UpdatedCount(before[..i + 1], links)
  {
    assert before[..i + 1][..i] == before[..i];
    MergedStep(before, links, i);
    ghost var done := projects[..i];
    var r := MergeProject(projects[i], links, index);
    projects[i] := r.0;
    assert projects[..i + 1] == done + [r.0];
    updated' := if r.1 then updated + 1 else updated;
  }
}
