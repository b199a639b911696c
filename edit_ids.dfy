/** Edit ids: the eight-character random code both randomEditId functions
    draw (scripts/generate-project-mdx.ts and
    scripts/add-edit-ids-to-founders.ts), and the founder pass that gives
    every founder file without one an id
    (scripts/add-edit-ids-to-founders.ts). Math.random is an oracle: draws(k)
    is the index the k-th call picks, floor(Math.random() * 31). */
module EditIds {
  import opened Strings
  import opened JsonValue
  import Lists

  const Alphabet := "abcdefghjkmnpqrstuvwxyz23456789"
  const IdLength: nat := 8

  /** An index stream Math.random can produce. */
  ghost predicate ValidDraws(draws: nat -> nat) {
    forall k :: draws(k) < |Alphabet|
  }

  /** The id built by the n-th call of randomEditId. */
  function EditIdFrom(draws: nat -> nat, n: nat): (id: string)
    requires ValidDraws(draws)
    ensures |id| == IdLength
    ensures forall i | 0 <= i < |id| :: id[i] in Alphabet
  {
    seq(IdLength, i requires 0 <= i < IdLength => Alphabet[draws(IdLength * n + i)])
  }

  /** The loop of randomEditId. */
  method RandomEditId(draws: nat -> nat, n: nat) returns (id: string)
    requires ValidDraws(draws)
    ensures id == EditIdFrom(draws, n)
  {
    ghost var want := EditIdFrom(draws, n);
    id := "";
    for i := 0 to IdLength
      invariant id == want[..i]
    {
      Lists.TakeSnoc(want, i);
      id := id + [Alphabet[draws(IdLength * n + i)]];
    }
    Lists.TakeSnoc(want, IdLength);
  }

  /** An edit id is truthy, so a file that receives one counts as having one. */
  lemma EditIdTruthy(draws: nat -> nat, n: nat)
    requires ValidDraws(draws)
    ensures JsTrue(JStr(EditIdFrom(draws, n)))
  {
  }

  /** `data.edit_id = v` on a front-matter object: the value of an existing
      key is replaced where it stands, a new key goes at the end. */
  function SetField(data: seq<Field>, key: string, v: Json): (r: seq<Field>)
    ensures Lookup(r, key) == Some(v)
    ensures forall k | k != key :: Lookup(r, k) == Lookup(data, k)
  {
    if data == [] then [Field(key, v)]
    else if data[0].key == key then [Field(key, v)] + data[1..]
    else [data[0]] + SetField(data[1..], key, v)
  }

  // ---------------------------------------------------------------------
  // add-edit-ids-to-founders

  /** One file of content/founders as gray-matter reads it. */
  datatype MdxFile = MdxFile(name: string, data: seq<Field>, content: string)

  predicate IsMdxName(name: string) {
    EndsWith(name, ".mdx")
  }

  /** `file.replace(/\.mdx$/, "")`: the name without its ".mdx" ending. */
  function Stem(name: string): (r: string)
    ensures IsMdxName(name) ==> r + ".mdx" == name
    ensures !IsMdxName(name) ==> r == name
  {
    EndsWithSlice(name, ".mdx");
    if IsMdxName(name) then name[..|name| - 4] else name
  }

  /** `if (data.edit_id)`, with JavaScript truthiness: an empty list or
      mapping counts as an id. */
  predicate HasEditId(f: MdxFile) {
    JsTrue(Get(JObj(f.data), "edit_id"))
  }

  /** The files that get an id, the k-th of them drawing the k-th id. */
  predicate NeedsId(f: MdxFile) {
    IsMdxName(f.name) && !HasEditId(f)
  }

  function CountNeeding(files: seq<MdxFile>): (n: nat)
    ensures n <= |files|
  {
    if files == [] then 0 else CountNeeding(files[..|files| - 1]) + (if NeedsId(files[|files| - 1]) then 1 else 0)
  }

  /** The directory after the run: each file that needs an id gets the next
      one, every other file is left as it is. */
  function WithIds(files: seq<MdxFile>, draws: nat -> nat): (r: seq<MdxFile>)
    requires ValidDraws(draws)
    ensures |r| == |files|
  {
    if files == [] then []
    else
      var init := files[..|files| - 1];
      var f := files[|files| - 1];
      WithIds(init, draws) +
        [if NeedsId(f) then f.(data := SetField(f.data, "edit_id", JStr(EditIdFrom(draws, CountNeeding(init))))) else f]
  }

  lemma WithIdsStep(files: seq<MdxFile>, draws: nat -> nat, i: nat)
    requires ValidDraws(draws) && i < |files|
    ensures var f := files[i]; var n := CountNeeding(files[..i]);
      && WithIds(files[..i + 1], draws) == WithIds(files[..i], draws) +
           [if NeedsId(f) then f.(data := SetField(f.data, "edit_id", JStr(EditIdFrom(draws, n)))) else f]
      && CountNeeding(files[..i + 1]) == n + (if NeedsId(f) then 1 else 0)
  {
    assert files[..i + 1][..i] == files[..i];
  }

  /** main: the directory's files in readdir order, rewritten in place;
      a missing directory (None) changes nothing. */
  method AddEditIds(dir: Option<array<MdxFile>>, draws: nat -> nat) returns (added: nat)
    requires ValidDraws(draws)
    modifies if dir.Some? then {dir.value} else {}
    ensures dir.None? ==> added == 0
    ensures dir.Some? ==> dir.value[..] == WithIds(old(dir.value[..]), draws) && added == CountNeeding(old(dir.value[..]))
  {
    added := 0;
    if dir.None? {
      return;
    }
    var files := dir.value;
    ghost var before := files[..];
    var i := 0;
    while i < files.Length
      invariant 0 <= i <= files.Length
      invariant forall k | i <= k < files.Length :: files[k] == before[k]
      invariant files[..i] == WithIds(before[..i], draws)
      invariant added == CountNeeding(before[..i])
    {
      WithIdsStep(before, draws, i);
      ghost var done := files[..i];
      var f := files[i];
      var g := f;
      if IsMdxName(f.name) && !JsTrue(Get(JObj(f.data), "edit_id")) {
        var id := RandomEditId(draws, added);
        g := f.(data := SetField(f.data, "edit_id", JStr(id)));
        added := added + 1;
      }
      files[i] := g;
      assert files[..i + 1] == done + [g];
      i := i + 1;
    }
    assert before[..i] == before;
    assert files[..] == files[..i];
  }

  /** Files that had an id, or are not .mdx files, are not modified; every
      .mdx file has an id afterwards. */
  lemma {:induction false} WithIdsFacts(files: seq<MdxFile>, draws: nat -> nat)
    requires ValidDraws(draws)
    ensures var r := WithIds(files, draws);
      && (forall i | 0 <= i < |files| && !NeedsId(files[i]) :: r[i] == files[i])
      && (forall i | 0 <= i < |files| :: r[i].name == files[i].name && r[i].content == files[i].content)
      && (forall i | 0 <= i < |files| && IsMdxName(files[i].name) :: HasEditId(r[i]))
  {
    if files != [] {
      var init := files[..|files| - 1];
      WithIdsFacts(init, draws);
      var r := WithIds(files, draws);
      assert forall i | 0 <= i < |init| :: r[i] == WithIds(init, draws)[i] && init[i] == files[i];
      var f := files[|files| - 1];
      if NeedsId(f) {
        EditIdTruthy(draws, CountNeeding(init));
      }
    }
  }

  lemma {:induction false} CountNeedingNone(files: seq<MdxFile>)
    requires forall i | 0 <= i < |files| :: !NeedsId(files[i])
    ensures CountNeeding(files) == 0
  {
    if files != [] {
      CountNeedingNone(files[..|files| - 1]);
    }
  }

  lemma {:induction false} WithIdsNone(files: seq<MdxFile>, draws: nat -> nat)
    requires ValidDraws(draws)
    requires forall i | 0 <= i < |files| :: !NeedsId(files[i])
    ensures WithIds(files, draws) == files
  {
    if files != [] {
      WithIdsNone(files[..|files| - 1], draws);
    }
  }

  /** An edit_id that is an empty list is truthy in JavaScript, so the file
      keeps it and draws no id. */
  lemma EmptyListIdKept(name: string, content: string, draws: nat -> nat)
    requires ValidDraws(draws)
    ensures var f := MdxFile(name, [Field("edit_id", JArr([]))], content);
      WithIds([f], draws) == [f] && CountNeeding([f]) == 0
  {
    var f := MdxFile(name, [Field("edit_id", JArr([]))], content);
    assert [f][..0] == [];
  }

  /** A second run right after a first adds nothing and changes nothing,
      whatever ids it would draw. */
  lemma SecondRunAddsNothing(files: seq<MdxFile>, draws: nat -> nat, draws2: nat -> nat)
    requires ValidDraws(draws) && ValidDraws(draws2)
    ensures var once := WithIds(files, draws);
      CountNeeding(once) == 0 && WithIds(once, draws2) == once
  {
    var once := WithIds(files, draws);
    WithIdsFacts(files, draws);
    forall i | 0 <= i < |once| ensures !NeedsId(once[i]) {
      if IsMdxName(once[i].name) {
        assert IsMdxName(files[i].name);
      }
    }
    CountNeedingNone(once);
    WithIdsNone(once, draws2);
  }
}
