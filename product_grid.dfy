/** components/product-grid.tsx: which projects the grid shows for the
    chosen category, batch and search text, and the count line under it. */
module ProductGrid {
  import opened Strings
  import opened Lists
  import opened Directory

  const AllCategories := "All"
  const AllBatches := "All Batches"

  /** The three selections the component keeps in state. */
  datatype Selection = Selection(category: string, batch: string, search: string)

  const Defaults := Selection(AllCategories, AllBatches, "")

  predicate MatchesCategory(sel: Selection, p: Project) {
    sel.category == AllCategories || p.category == sel.category
  }

  predicate MatchesBatch(sel: Selection, p: Project) {
    sel.batch == AllBatches || p.batch == sel.batch
  }

  /** The query is neither trimmed nor applied to tags. */
  predicate MatchesSearch(sel: Selection, p: Project) {
    var q := Lower(sel.search);
    sel.search == "" || Contains(Lower(p.name), q) || Contains(Lower(p.description), q) || Contains(Lower(p.founder), q)
  }

  predicate Shown(sel: Selection, p: Project) {
    MatchesCategory(sel, p) && MatchesBatch(sel, p) && MatchesSearch(sel, p)
  }

  function ShownBy(sel: Selection): Project -> bool {
    (p: Project) => Shown(sel, p)
  }

  /** filtered: the projects that pass all three tests, in their order. */
  function Filtered(projects: seq<Project>, sel: Selection): (r: seq<Project>)
    ensures IsSubsequence(r, projects)
    ensures forall p :: p in r <==> p in projects && Shown(sel, p)
  {
    FilterIsSubsequence(projects, ShownBy(sel));
    FilterMembers(projects, ShownBy(sel));
    Filter(projects, ShownBy(sel))
  }

  /** With the initial selections every project is shown. */
  lemma DefaultsShowAll(projects: seq<Project>)
    ensures Filtered(projects, Defaults) == projects
  {
    FilterAll(projects, ShownBy(Defaults));
  }

  /** Away from the defaults, category and batch must match exactly. */
  lemma ExactCategoryAndBatch(projects: seq<Project>, sel: Selection, p: Project)
    requires sel.category != AllCategories && sel.batch != AllBatches
    requires p in Filtered(projects, sel)
    ensures p.category == sel.category && p.batch == sel.batch
  {
  }

  /** The line under the grid, "N project shown" or "N projects shown". */
  function CountLabel(n: nat): (r: string)
    ensures StartsWith(r, NatToString(n))
  {
    StartsWithSlice(NatToString(n) + " project" + (if n != 1 then "s" else "") + " shown", NatToString(n));
    NatToString(n) + " project" + (if n != 1 then "s" else "") + " shown"
  }

  /** The noun is plural exactly when the count is not one. */
  lemma CountLabelPlural(n: nat)
    ensures EndsWith(CountLabel(n), "projects shown") <==> n != 1
  {
    var r := CountLabel(n);
    EndsWithSlice(r, "projects shown");
    var d := NatToString(n);
    if n == 1 {
      assert r == d + " project shown";
      assert r[|r| - 7] == 't';
      assert "projects shown"[7] == 's';
    } else {
      assert r == d + " projects shown";
      assert r[|r| - 14..] == "projects shown";
    }
  }
}
