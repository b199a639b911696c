/** lib/projects-resolved.ts: the directory's projects with logo, name and
    description taken from the project's MDX front matter where it gives
    them. The front-matter map is a parameter, keyed by slug; a field is
    None when the front matter leaves it null or undefined. */
module ProjectsResolved {
  import opened Strings
  import opened Lists
  import opened Directory

  datatype ProjectFrontmatter = ProjectFrontmatter(logo: Option<string>, name: Option<string>, description: Option<string>)

  /** `p.slug ?? p.id`. */
  function KeyOf(p: Project): string {
    if p.slug.Some? then p.slug.value else p.id
  }

  /** `fm?.field ?? own`. */
  function Override(fm: Option<ProjectFrontmatter>, field: ProjectFrontmatter -> Option<string>, own: string): (r: string)
    ensures fm.Some? && field(fm.value).Some? ==> r == field(fm.value).value
    ensures fm.None? || field(fm.value).None? ==> r == own
  {
    if fm.Some? && field(fm.value).Some? then field(fm.value).value else own
  }

  function FrontmatterOf(p: Project, bySlug: map<string, ProjectFrontmatter>): Option<ProjectFrontmatter> {
    if KeyOf(p) in bySlug then Some(bySlug[KeyOf(p)]) else None
  }

  /** The map callback. */
  function Resolve(p: Project, bySlug: map<string, ProjectFrontmatter>): (r: Project)
    ensures r.(logo := p.logo, name := p.name, description := p.description) == p
    ensures KeyOf(p) !in bySlug ==> r == p
    ensures KeyOf(r) == KeyOf(p)
    ensures KeyOf(p) in bySlug && bySlug[KeyOf(p)].logo.Some? ==> r.logo == bySlug[KeyOf(p)].logo.value
    ensures KeyOf(p) in bySlug && bySlug[KeyOf(p)].name.Some? ==> r.name == bySlug[KeyOf(p)].name.value
    ensures KeyOf(p) in bySlug && bySlug[KeyOf(p)].description.Some? ==> r.description == bySlug[KeyOf(p)].description.value
  {
    var fm := FrontmatterOf(p, bySlug);
    p.(logo := Override(fm, (f: ProjectFrontmatter) => f.logo, p.logo),
       name := Override(fm, (f: ProjectFrontmatter) => f.name, p.name),
       description := Override(fm, (f: ProjectFrontmatter) => f.description, p.description))
  }

  /** getProjectsWithResolvedLogos. */
  function ResolvedProjects(projects: seq<Project>, bySlug: map<string, ProjectFrontmatter>): (r: seq<Project>)
    ensures |r| == |projects|
    ensures forall i | 0 <= i < |r| :: r[i] == Resolve(projects[i], bySlug)
  {
    Mapped(projects, (p: Project) => Resolve(p, bySlug))
  }

  /** Resolving an already resolved list changes nothing: the lookup key is
      not one of the fields that are replaced. */
  lemma ResolveIdempotent(projects: seq<Project>, bySlug: map<string, ProjectFrontmatter>)
    ensures ResolvedProjects(ResolvedProjects(projects, bySlug), bySlug) == ResolvedProjects(projects, bySlug)
  {
    var once := ResolvedProjects(projects, bySlug);
    forall i | 0 <= i < |once| ensures Resolve(once[i], bySlug) == once[i] {
      var p := projects[i];
      if KeyOf(p) in bySlug {
        var fm := bySlug[KeyOf(p)];
        assert once[i] == Resolve(p, bySlug);
      }
    }
  }
}
