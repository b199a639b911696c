/** The readers of a Devfolio profile page's parsed Next.js payload
    (find_in_obj and extract_users_and_stats in
    scripts/devfolio-scraper/fetch_devfolio_profile_json.py). Python's None
    is the JSON null value: a null found is the same as nothing found. */
module ProfileExtract {
  import opened Strings
  import opened JsonValue

  // ---------------------------------------------------------------------
  // find_in_obj

  /** The first value reached, depth first, by consuming the keys of path
      through mappings (in key order) and lists; null when there is none. */
  function FindInObj(obj: Json, path: seq<string>): (r: Json)
    ensures path == [] ==> r == obj
    ensures path != [] && !obj.JObj? && !obj.JArr? ==> r == JNull
    decreases obj, 1
  {
    if path == [] then obj
    else match obj
      case JObj(fields) => FindInFields(fields, path)
      case JArr(items) => FindInItems(items, path)
      case _ => JNull
  }

  /** The loop over a mapping's items: a key equal to path[0] is followed with
      the rest of the path, and every value is then searched with the whole
      path, before the next item is tried. */
  function FindInFields(fields: seq<Field>, path: seq<string>): Json
    requires path != []
    decreases fields, 0
  {
    if fields == [] then JNull
    else
      var v := fields[0].value;
      var viaKey := if fields[0].key == path[0] then FindInObj(v, path[1..]) else JNull;
      if viaKey != JNull then viaKey
      else
        var inside := FindInObj(v, path);
        if inside != JNull then inside else FindInFields(fields[1..], path)
  }

  function FindInItems(items: seq<Json>, path: seq<string>): Json
    requires path != []
    decreases items, 0
  {
    if items == [] then JNull
    else
      var inside := FindInObj(items[0], path);
      if inside != JNull then inside else FindInItems(items[1..], path)
  }

  /** v can be reached from obj along path: an independent, order-free
      reading of the search, in which each key of the path is consumed at some
      mapping below the previous one. */
  ghost predicate Reaches(obj: Json, path: seq<string>, v: Json)
    decreases obj, 1
  {
    if path == [] then v == obj
    else match obj
      case JObj(fields) => ReachesFields(fields, path, v)
      case JArr(items) => ReachesItems(items, path, v)
      case _ => false
  }

  ghost predicate ReachesFields(fields: seq<Field>, path: seq<string>, v: Json)
    requires path != []
    decreases fields, 0
  {
    fields != [] &&
    ((fields[0].key == path[0] && Reaches(fields[0].value, path[1..], v)) ||
     Reaches(fields[0].value, path, v) ||
     ReachesFields(fields[1..], path, v))
  }

  ghost predicate ReachesItems(items: seq<Json>, path: seq<string>, v: Json)
    requires path != []
    decreases items, 0
  {
    items != [] && (Reaches(items[0], path, v) || ReachesItems(items[1..], path, v))
  }

  lemma {:induction false} FindSound(obj: Json, path: seq<string>)
    ensures FindInObj(obj, path) != JNull ==> Reaches(obj, path, FindInObj(obj, path))
    decreases obj, 1
  {
    if path != [] {
      match obj
      case JObj(fields) => FindFieldsSound(fields, path);
      case JArr(items) => FindItemsSound(items, path);
      case _ =>
    }
  }

  lemma {:induction false} FindFieldsSound(fields: seq<Field>, path: seq<string>)
    requires path != []
    ensures FindInFields(fields, path) != JNull ==> ReachesFields(fields, path, FindInFields(fields, path))
    decreases fields, 0
  {
    if fields != [] {
      var v := fields[0].value;
      FindSound(v, path[1..]);
      FindSound(v, path);
      FindFieldsSound(fields[1..], path);
    }
  }

  lemma {:induction false} FindItemsSound(items: seq<Json>, path: seq<string>)
    requires path != []
    ensures FindInItems(items, path) != JNull ==> ReachesItems(items, path, FindInItems(items, path))
    decreases items, 0
  {
    if items != [] {
      FindSound(items[0], path);
      FindItemsSound(items[1..], path);
    }
  }

  lemma {:induction false} FindComplete(obj: Json, path: seq<string>, v: Json)
    requires Reaches(obj, path, v) && v != JNull
    ensures FindInObj(obj, path) != JNull
    decreases obj, 1
  {
    if path != [] {
      match obj
      case JObj(fields) => FindFieldsComplete(fields, path, v);
      case JArr(items) => FindItemsComplete(items, path, v);
    }
  }

  lemma {:induction false} FindFieldsComplete(fields: seq<Field>, path: seq<string>, v: Json)
    requires path != [] && ReachesFields(fields, path, v) && v != JNull
    ensures FindInFields(fields, path) != JNull
    decreases fields, 0
  {
    var w := fields[0].value;
    if fields[0].key == path[0] && Reaches(w, path[1..], v) {
      FindComplete(w, path[1..], v);
    } else if Reaches(w, path, v) {
      FindComplete(w, path, v);
    } else {
      FindFieldsComplete(fields[1..], path, v);
    }
  }

  lemma {:induction false} FindItemsComplete(items: seq<Json>, path: seq<string>, v: Json)
    requires path != [] && ReachesItems(items, path, v) && v != JNull
    ensures FindInItems(items, path) != JNull
    decreases items, 0
  {
    if Reaches(items[0], path, v) {
      FindComplete(items[0], path, v);
    } else {
      FindItemsComplete(items[1..], path, v);
    }
  }

  /** The search finds something exactly when some non-null value can be
      reached along the path, and what it finds is such a value. */
  lemma FindInObjSpec(obj: Json, path: seq<string>, v: Json)
    ensures FindInObj(obj, path) != JNull ==> Reaches(obj, path, FindInObj(obj, path))
    ensures Reaches(obj, path, v) && v != JNull ==> FindInObj(obj, path) != JNull
  {
    FindSound(obj, path);
    if Reaches(obj, path, v) && v != JNull {
      FindComplete(obj, path, v);
    }
  }

  /** Consuming a key can always be replaced by descending through it, as
      long as some of the path is left. */
  lemma {:induction false} ReachesDropKey(obj: Json, path: seq<string>, v: Json)
    requires |path| >= 2 && Reaches(obj, path, v)
    ensures Reaches(obj, path[1..], v)
    decreases obj, 1
  {
    match obj
    case JObj(fields) => ReachesFieldsDropKey(fields, path, v);
    case JArr(items) => ReachesItemsDropKey(items, path, v);
  }

  lemma {:induction false} ReachesFieldsDropKey(fields: seq<Field>, path: seq<string>, v: Json)
    requires |path| >= 2 && ReachesFields(fields, path, v)
    ensures ReachesFields(fields, path[1..], v)
    decreases fields, 0
  {
    var w := fields[0].value;
    if fields[0].key == path[0] && Reaches(w, path[1..], v) {
    } else if Reaches(w, path, v) {
      ReachesDropKey(w, path, v);
    } else {
      ReachesFieldsDropKey(fields[1..], path, v);
    }
  }

  lemma {:induction false} ReachesItemsDropKey(items: seq<Json>, path: seq<string>, v: Json)
    requires |path| >= 2 && ReachesItems(items, path, v)
    ensures ReachesItems(items, path[1..], v)
    decreases items, 0
  {
    if Reaches(items[0], path, v) {
      ReachesDropKey(items[0], path, v);
    } else {
      ReachesItemsDropKey(items[1..], path, v);
    }
  }

  /** When a key matches path[0] but the rest of the path finds nothing in its
      value, the second search of that value with the whole path finds
      nothing either: the retry never changes the result. */
  lemma FullPathRetryFindsNothing(v: Json, path: seq<string>)
    requires path != [] && FindInObj(v, path[1..]) == JNull
    ensures FindInObj(v, path) == JNull
  {
    var w := FindInObj(v, path);
    if w != JNull {
      FindSound(v, path);
      if |path| >= 2 {
        ReachesDropKey(v, path, w);
        FindComplete(v, path[1..], w);
      }
    }
  }

  /** Every value the path leads to, in the depth-first order of the
      search: at each mapping item, first what the rest of the path reaches
      through a matching key, then what the whole path reaches in the item's
      value; list items in order. Nulls are listed too. */
  function Matches(obj: Json, path: seq<string>): seq<Json>
    decreases obj, 1
  {
    if path == [] then [obj]
    else match obj
      case JObj(fields) => MatchesFields(fields, path)
      case JArr(items) => MatchesItems(items, path)
      case _ => []
  }

  function MatchesFields(fields: seq<Field>, path: seq<string>): seq<Json>
    requires path != []
    decreases fields, 0
  {
    if fields == [] then []
    else
      var v := fields[0].value;
      (if fields[0].key == path[0] then Matches(v, path[1..]) else []) + Matches(v, path) + MatchesFields(fields[1..], path)
  }

  function MatchesItems(items: seq<Json>, path: seq<string>): seq<Json>
    requires path != []
    decreases items, 0
  {
    if items == [] then [] else Matches(items[0], path) + MatchesItems(items[1..], path)
  }

  /** The first non-null value of a list, or null when all are null. */
  function FirstNonNull(s: seq<Json>): (r: Json)
    ensures r == JNull <==> forall i | 0 <= i < |s| :: s[i] == JNull
    ensures r != JNull ==> exists i | 0 <= i < |s| :: s[i] == r && forall j | 0 <= j < i :: s[j] == JNull
  {
    if s == [] then JNull
    else if s[0] != JNull then s[0]
    else
      var r := FirstNonNull(s[1..]);
      assert forall i | 1 <= i < |s| :: s[i] == s[1..][i - 1];
      if r != JNull then
        var i :| 0 <= i < |s[1..]| && s[1..][i] == r && forall j | 0 <= j < i :: s[1..][j] == JNull;
        assert s[i + 1] == r && forall j | 0 <= j < i + 1 :: s[j] == JNull;
        r
      else r
  }

  lemma {:induction false} FirstNonNullAppend(a: seq<Json>, b: seq<Json>)
    ensures FirstNonNull(a + b) == if FirstNonNull(a) != JNull then FirstNonNull(a) else FirstNonNull(b)
  {
    if a != [] {
      FirstNonNullAppend(a[1..], b);
      assert (a + b)[1..] == a[1..] + b;
    } else {
      assert a + b == b;
    }
  }

  /** find_in_obj returns the first non-null value in depth-first order:
      the first value of Matches that is not null. */
  lemma {:induction false} FindIsFirstMatch(obj: Json, path: seq<string>)
    ensures FindInObj(obj, path) == FirstNonNull(Matches(obj, path))
    decreases obj, 1
  {
    if path == [] {
      assert FirstNonNull([obj]) == obj;
    } else {
      match obj
      case JObj(fields) => FindFieldsFirstMatch(fields, path);
      case JArr(items) => FindItemsFirstMatch(items, path);
      case _ =>
    }
  }

  lemma {:induction false} FindFieldsFirstMatch(fields: seq<Field>, path: seq<string>)
    requires path != []
    ensures FindInFields(fields, path) == FirstNonNull(MatchesFields(fields, path))
    decreases fields, 0
  {
    if fields != [] {
      var v := fields[0].value;
      var a := if fields[0].key == path[0] then Matches(v, path[1..]) else [];
      FindIsFirstMatch(v, path[1..]);
      FindIsFirstMatch(v, path);
      FindFieldsFirstMatch(fields[1..], path);
      FirstNonNullAppend(a, Matches(v, path) + MatchesFields(fields[1..], path));
      FirstNonNullAppend(Matches(v, path), MatchesFields(fields[1..], path));
      assert a + Matches(v, path) + MatchesFields(fields[1..], path) == a + (Matches(v, path) + MatchesFields(fields[1..], path));
    }
  }

  lemma {:induction false} FindItemsFirstMatch(items: seq<Json>, path: seq<string>)
    requires path != []
    ensures FindInItems(items, path) == FirstNonNull(MatchesItems(items, path))
    decreases items, 0
  {
    if items != [] {
      FindIsFirstMatch(items[0], path);
      FindItemsFirstMatch(items[1..], path);
      FirstNonNullAppend(Matches(items[0], path), MatchesItems(items[1..], path));
    }
  }

  /** The listed values are exactly the values the path reaches. */
  lemma {:induction false} MatchesAreReached(obj: Json, path: seq<string>, v: Json)
    ensures v in Matches(obj, path) <==> Reaches(obj, path, v)
    decreases obj, 1
  {
    if path != [] {
      match obj
      case JObj(fields) => MatchesFieldsAreReached(fields, path, v);
      case JArr(items) => MatchesItemsAreReached(items, path, v);
      case _ =>
    }
  }

  lemma {:induction false} MatchesFieldsAreReached(fields: seq<Field>, path: seq<string>, v: Json)
    requires path != []
    ensures v in MatchesFields(fields, path) <==> ReachesFields(fields, path, v)
    decreases fields, 0
  {
    if fields != [] {
      var w := fields[0].value;
      MatchesAreReached(w, path[1..], v);
      MatchesAreReached(w, path, v);
      MatchesFieldsAreReached(fields[1..], path, v);
    }
  }

  lemma {:induction false} MatchesItemsAreReached(items: seq<Json>, path: seq<string>, v: Json)
    requires path != []
    ensures v in MatchesItems(items, path) <==> ReachesItems(items, path, v)
    decreases items, 0
  {
    if items != [] {
      MatchesAreReached(items[0], path, v);
      MatchesItemsAreReached(items[1..], path, v);
    }
  }

  /** The search returns a non-null value that the path reaches, and every
      value the depth-first order lists before it is null; it returns null
      only when every value the path reaches is null. */
  lemma FindInObjFirst(obj: Json, path: seq<string>)
    ensures var m := Matches(obj, path); var r := FindInObj(obj, path);
      && (r == JNull <==> forall i | 0 <= i < |m| :: m[i] == JNull)
      && (r != JNull ==> exists i | 0 <= i < |m| :: m[i] == r && forall j | 0 <= j < i :: m[j] == JNull)
      && (r != JNull ==> Reaches(obj, path, r))
  {
    FindIsFirstMatch(obj, path);
    var r := FindInObj(obj, path);
    if r != JNull {
      MatchesAreReached(obj, path, r);
    }
  }

  // ---------------------------------------------------------------------
  // extract_users_and_stats

  /** The four values the extractor collects: users[0], the profiles list,
      the address mapping and userDevfolioStats (null while not found). */
  datatype Extraction = Extraction(user: Json, profiles: seq<Json>, address: Json, stats: Json)

  const NothingFound: Extraction := Extraction(JNull, [], JNull, JNull)

  /** The deepest level the walk still examines. */
  const MaxDepth: nat := 30

  /** users[0] of a node whose "users" is a non-empty list; null otherwise. */
  function FirstUser(o: Json): Json {
    var users := Get(o, "users");
    if users.JArr? && users.items != [] then users.items[0] else JNull
  }

  /** The node's "address" when it is a mapping; null otherwise. */
  function AddressOf(o: Json): Json {
    if Get(o, "address").JObj? then Get(o, "address") else JNull
  }

  /** The checks the walk makes at one mapping: user, stats and address are
      taken only while still missing, a non-empty profiles list always. */
  function WalkCheck(o: Json, st: Extraction): Extraction {
    var profiles := Get(o, "profiles");
    Extraction(
      if st.user == JNull then FirstUser(o) else st.user,
      if profiles.JArr? && profiles.items != [] then profiles.items else st.profiles,
      if st.address == JNull then AddressOf(o) else st.address,
      if st.stats == JNull then Get(o, "userDevfolioStats") else st.stats)
  }

  /** The recursive walk: a node deeper than MaxDepth is not looked at; a
      mapping is checked before its values are walked, in key order. */
  function Walk(o: Json, depth: nat, st: Extraction): Extraction
    decreases o, 1
  {
    if depth > MaxDepth then st
    else match o
      case JObj(fields) => WalkFields(fields, depth + 1, WalkCheck(o, st))
      case JArr(items) => WalkItems(items, depth + 1, st)
      case _ => st
  }

  function WalkFields(fields: seq<Field>, depth: nat, st: Extraction): Extraction
    decreases fields, 0
  {
    if fields == [] then st else WalkFields(fields[1..], depth, Walk(fields[0].value, depth, st))
  }

  function WalkItems(items: seq<Json>, depth: nat, st: Extraction): Extraction
    decreases items, 0
  {
    if items == [] then st else WalkItems(items[1..], depth, Walk(items[0], depth, st))
  }

  /** The walk, with the loops over a node's values. */
  method WalkTree(o: Json, depth: nat, st: Extraction) returns (r: Extraction)
    ensures r == Walk(o, depth, st)
    decreases o
  {
    if depth > MaxDepth {
      return st;
    }
    match o
    case JObj(fields) =>
      r := WalkCheck(o, st);
      var i := 0;
      while i < |fields|
        invariant 0 <= i <= |fields|
        invariant WalkFields(fields[i..], depth + 1, r) == Walk(o, depth, st)
      {
        assert fields[i..][1..] == fields[i + 1..];
        r := WalkTree(fields[i].value, depth + 1, r);
        i := i + 1;
      }
    case JArr(items) =>
      r := st;
      var i := 0;
      while i < |items|
        invariant 0 <= i <= |items|
        invariant WalkItems(items[i..], depth + 1, r) == Walk(o, depth, st)
      {
        assert items[i..][1..] == items[i + 1..];
        r := WalkTree(items[i], depth + 1, r);
        i := i + 1;
      }
    case _ =>
      r := st;
  }

  /** What the walk keeps: a user, address or stats value once found is never
      replaced, and the profiles list only ever becomes a non-empty one. */
  predicate Keeps(st: Extraction, r: Extraction) {
    && (st.user != JNull ==> r.user == st.user)
    && (st.address != JNull ==> r.address == st.address)
    && (st.stats != JNull ==> r.stats == st.stats)
    && (r.profiles == st.profiles || r.profiles != [])
  }

  lemma KeepsTransitive(a: Extraction, b: Extraction, c: Extraction)
    requires Keeps(a, b) && Keeps(b, c)
    ensures Keeps(a, c)
  {
  }

  lemma {:induction false} WalkKeeps(o: Json, depth: nat, st: Extraction)
    ensures Keeps(st, Walk(o, depth, st))
    decreases o, 1
  {
    if depth <= MaxDepth {
      match o
      case JObj(fields) =>
        WalkFieldsKeeps(fields, depth + 1, WalkCheck(o, st));
        KeepsTransitive(st, WalkCheck(o, st), Walk(o, depth, st));
      case JArr(items) => WalkItemsKeeps(items, depth + 1, st);
      case _ =>
    }
  }

  lemma {:induction false} WalkFieldsKeeps(fields: seq<Field>, depth: nat, st: Extraction)
    ensures Keeps(st, WalkFields(fields, depth, st))
    decreases fields, 0
  {
    if fields != [] {
      var mid := Walk(fields[0].value, depth, st);
      WalkKeeps(fields[0].value, depth, st);
      WalkFieldsKeeps(fields[1..], depth, mid);
      KeepsTransitive(st, mid, WalkFields(fields, depth, st));
    }
  }

  lemma {:induction false} WalkItemsKeeps(items: seq<Json>, depth: nat, st: Extraction)
    ensures Keeps(st, WalkItems(items, depth, st))
    decreases items, 0
  {
    if items != [] {
      var mid := Walk(items[0], depth, st);
      WalkKeeps(items[0], depth, st);
      WalkItemsKeeps(items[1..], depth, mid);
      KeepsTransitive(st, mid, WalkItems(items, depth, st));
    }
  }

  /** The data mapping of one dehydrated query: q["state"]["data"] when it is
      a non-empty mapping; null otherwise. */
  function QueryData(q: Json): Json {
    var data := Get(Get(q, "state"), "data");
    if data.JObj? && data.fields != [] then data else JNull
  }

  /** The checks the query pass makes on one query's data: user and stats only
      while missing, but profiles (any list, even an empty one) and address
      from every query that has them. */
  function QueryCheck(q: Json, st: Extraction): Extraction {
    var data := QueryData(q);
    if data == JNull then st
    else
      var profiles := Get(data, "profiles");
      Extraction(
        if st.user == JNull then FirstUser(data) else st.user,
        if profiles.JArr? then profiles.items else st.profiles,
        if AddressOf(data) != JNull then AddressOf(data) else st.address,
        if st.stats == JNull then Get(data, "userDevfolioStats") else st.stats)
  }

  /** The queries of the payload: props.pageProps.dehydratedState.queries,
      each read in order. */
  function Queries(nextData: Json): seq<Json> {
    var dehydrated := Get(Get(Get(nextData, "props"), "pageProps"), "dehydratedState");
    if dehydrated.JObj? then Items(Get(dehydrated, "queries")) else []
  }

  /** The query pass, a left fold over the queries seen so far. */
  function QueryPass(qs: seq<Json>): Extraction {
    if qs == [] then NothingFound else QueryCheck(qs[|qs| - 1], QueryPass(qs[..|qs| - 1]))
  }

  /** What the extractor returns: the query pass first, then the walk over the
      whole payload from depth 0. */
  function ExtractSpec(nextData: Json): Extraction {
    Walk(nextData, 0, QueryPass(Queries(nextData)))
  }

  /** extract_users_and_stats. */
  method ExtractUsersAndStats(nextData: Json) returns (r: Extraction)
    ensures r == ExtractSpec(nextData)
  {
    var queries := Queries(nextData);
    r := NothingFound;
    var i := 0;
    while i < |queries|
      invariant 0 <= i <= |queries|
      invariant r == QueryPass(queries[..i])
    {
      assert queries[..i + 1][..i] == queries[..i];
      r := QueryCheck(queries[i], r);
      i := i + 1;
    }
    assert queries[..i] == queries;
    r := WalkTree(nextData, 0, r);
  }

  /** Values the query pass found win over anything the walk meets. */
  lemma QueryPassWins(nextData: Json)
    ensures var q := QueryPass(Queries(nextData)); var r := ExtractSpec(nextData);
      && (q.user != JNull ==> r.user == q.user)
      && (q.address != JNull ==> r.address == q.address)
      && (q.stats != JNull ==> r.stats == q.stats)
      && (r.profiles == q.profiles || r.profiles != [])
  {
    WalkKeeps(nextData, 0, QueryPass(Queries(nextData)));
  }

  /** In the query pass the last query whose data has a profiles list decides
      the list. */
  lemma {:induction false} QueryProfilesLastWins(qs: seq<Json>, k: nat)
    requires k < |qs| && QueryData(qs[k]) != JNull && Get(QueryData(qs[k]), "profiles").JArr?
    requires forall j | k < j < |qs| :: QueryData(qs[j]) == JNull || !Get(QueryData(qs[j]), "profiles").JArr?
    ensures QueryPass(qs).profiles == Get(QueryData(qs[k]), "profiles").items
  {
    var n := |qs| - 1;
    if k < n {
      assert forall j | k < j < n :: qs[..n][j] == qs[j];
      QueryProfilesLastWins(qs[..n], k);
    }
  }

  /** In the query pass the first query whose data has a non-null users[0]
      decides the user. */
  lemma {:induction false} QueryUserFirstWins(qs: seq<Json>, k: nat)
    requires k < |qs| && QueryData(qs[k]) != JNull && FirstUser(QueryData(qs[k])) != JNull
    requires forall j | 0 <= j < k :: QueryData(qs[j]) == JNull || FirstUser(QueryData(qs[j])) == JNull
    ensures QueryPass(qs).user == FirstUser(QueryData(qs[k]))
  {
    var n := |qs| - 1;
    if k < n {
      assert forall j | 0 <= j < k :: qs[..n][j] == qs[j];
      QueryUserFirstWins(qs[..n], k);
      QueryStaysFound(qs[..n], k + 1);
    } else {
      QueryUserNone(qs[..n]);
    }
  }

  lemma {:induction false} QueryUserNone(qs: seq<Json>)
    requires forall j | 0 <= j < |qs| :: QueryData(qs[j]) == JNull || FirstUser(QueryData(qs[j])) == JNull
    ensures QueryPass(qs).user == JNull
  {
    if qs != [] {
      var n := |qs| - 1;
      assert forall j | 0 <= j < n :: qs[..n][j] == qs[j];
      QueryUserNone(qs[..n]);
    }
  }

  lemma QueryStaysFound(qs: seq<Json>, k: nat)
    requires k <= |qs|
    ensures QueryPass(qs[..k]).user != JNull ==> QueryPass(qs).user == QueryPass(qs[..k]).user
    decreases |qs| - k
  {
    if k < |qs| {
      assert qs[..k + 1][..k] == qs[..k];
      QueryStaysFound(qs, k + 1);
    } else {
      assert qs[..k] == qs;
    }
  }
}
