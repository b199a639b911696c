/** The rows scripts/sync-edit-ids-to-supabase.ts upserts into the
    edit_id_registry table: one per MDX file whose front matter carries an
    edit_id, founders first, then projects. Each directory is its readdir
    listing (None when the directory is missing); the Supabase client is not
    part of this model. */
module SyncEditIds {
  import opened Strings
  import opened JsonValue
  import opened Lists
  import opened EditIds

  datatype RowType = FounderRow | ProjectRow

  datatype RegistryRow = RegistryRow(editId: string, rowType: RowType, identifier: string)

  /** The front-matter key that names the file's owner. */
  function IdentifierKey(t: RowType): string {
    match t
    case FounderRow => "username"
    case ProjectRow => "slug"
  }

  /** `data.edit_id?.trim()`, with a missing or non-string value read as "". */
  function EditIdText(f: MdxFile): string {
    Trim(Str(Get(JObj(f.data), "edit_id")))
  }

  /** `data.username?.trim() || stem` (or `data.slug`). */
  function Identifier(t: RowType, f: MdxFile): string {
    var own := Trim(Str(Get(JObj(f.data), IdentifierKey(t))));
    if own != "" then own else Stem(f.name)
  }

  /** The row a file contributes, if any. */
  function RowOf(t: RowType, f: MdxFile): (r: Option<RegistryRow>)
    ensures r.Some? <==> IsMdxName(f.name) && EditIdText(f) != ""
    ensures r.Some? ==> r.value.rowType == t && r.value.identifier == Identifier(t, f)
    ensures r.Some? ==> |r.value.editId| == |EditIdText(f)| && r.value.editId != ""
    ensures r.Some? ==> forall i | 0 <= i < |r.value.editId| :: !IsUpperChar(r.value.editId[i])
  {
    if IsMdxName(f.name) && EditIdText(f) != "" then
      Some(RegistryRow(Lower(EditIdText(f)), t, Identifier(t, f)))
    else None
  }

  /** The owner falls back to the file name without ".mdx" exactly when the
      front matter gives no non-blank owner. */
  lemma IdentifierFallback(t: RowType, f: MdxFile)
    requires IsMdxName(f.name)
    ensures var own := Trim(Str(Get(JObj(f.data), IdentifierKey(t))));
      && (own == "" ==> Identifier(t, f) + ".mdx" == f.name)
      && (own != "" ==> Identifier(t, f) == own && Trim(Identifier(t, f)) == Identifier(t, f))
  {
    var own := Trim(Str(Get(JObj(f.data), IdentifierKey(t))));
    if own != "" {
      TrimShape(Str(Get(JObj(f.data), IdentifierKey(t))));
      TrimOfTrimmed(own);
    }
  }

  function Rows(t: RowType, files: seq<MdxFile>): seq<RegistryRow> {
    FilterMap(files, (f: MdxFile) => RowOf(t, f))
  }

  /** syncFounders / syncProjects: the loop over the directory. */
  method SyncRows(t: RowType, dir: Option<seq<MdxFile>>) returns (rows: seq<RegistryRow>)
    ensures dir.None? ==> rows == []
    ensures dir.Some? ==> rows == Rows(t, dir.value)
  {
    rows := [];
    if dir.None? {
      return;
    }
    var files := dir.value;
    for i := 0 to |files|
      invariant rows == Rows(t, files[..i])
    {
      FilterMapStep(files, (f: MdxFile) => RowOf(t, f), i);
      var f := files[i];
      if IsMdxName(f.name) {
        var editId := EditIdText(f);
        if editId != "" {
          rows := rows + [RegistryRow(Lower(editId), t, Identifier(t, f))];
        }
      }
    }
    assert files[..|files|] == files;
  }

  /** Every row has the directory's type and a non-empty id. */
  lemma RowsType(t: RowType, files: seq<MdxFile>)
    ensures forall i | 0 <= i < |Rows(t, files)| :: Rows(t, files)[i].rowType == t && Rows(t, files)[i].editId != ""
  {
    FilterMapSource(files, (f: MdxFile) => RowOf(t, f));
    assert forall i | 0 <= i < |Rows(t, files)| :: Rows(t, files)[i] in Rows(t, files);
  }

  /** Every row comes from one of the directory's files, and every file
      with an id gives a row. */
  lemma RowsFacts(t: RowType, files: seq<MdxFile>)
    ensures forall r | r in Rows(t, files) :: exists k | 0 <= k < |files| :: RowOf(t, files[k]) == Some(r)
    ensures forall k | 0 <= k < |files| && IsMdxName(files[k].name) && EditIdText(files[k]) != "" ::
      RowOf(t, files[k]).value in Rows(t, files)
    ensures Rows(t, files) == [] <==> forall k | 0 <= k < |files| :: !(IsMdxName(files[k].name) && EditIdText(files[k]) != "")
  {
    var f := (f: MdxFile) => RowOf(t, f);
    FilterMapSource(files, f);
    FilterMapEmpty(files, f);
    forall k | 0 <= k < |files| && IsMdxName(files[k].name) && EditIdText(files[k]) != ""
      ensures RowOf(t, files[k]).value in Rows(t, files)
    {
      FilterMapKeeps(files, f, k);
    }
  }

  /** main: the founder rows then the project rows, and no upsert (None)
      when there are none. */
  method SyncEditIds(founders: Option<seq<MdxFile>>, projects: Option<seq<MdxFile>>)
    returns (upsert: Option<seq<RegistryRow>>)
    ensures var fr := if founders.Some? then Rows(FounderRow, founders.value) else [];
      var pr := if projects.Some? then Rows(ProjectRow, projects.value) else [];
      && (upsert.None? <==> fr == [] && pr == [])
      && (upsert.Some? ==> upsert.value == fr + pr)
  {
    var founderRows := SyncRows(FounderRow, founders);
    var projectRows := SyncRows(ProjectRow, projects);
    var all := founderRows + projectRows;
    if |all| == 0 {
      return None;
    }
    return Some(all);
  }

  /** In the upserted batch the founder rows come first, then the project
      rows. */
  lemma FoundersFirst(founders: seq<MdxFile>, projects: seq<MdxFile>)
    ensures var fr := Rows(FounderRow, founders); var all := fr + Rows(ProjectRow, projects);
      && (forall i | 0 <= i < |fr| :: all[i].rowType == FounderRow)
      && (forall i | |fr| <= i < |all| :: all[i].rowType == ProjectRow)
  {
    var fr := Rows(FounderRow, founders);
    var pr := Rows(ProjectRow, projects);
    RowsType(FounderRow, founders);
    RowsType(ProjectRow, projects);
  }
}
