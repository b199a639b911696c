/** components/founders-pals-view.tsx: the similarity score between two
    founders, the search box's filter and the "similar founders" list.
    Array.prototype.sort on scores is the stable insertion sort of Sorting. */
module FoundersPalsView {
  import opened Strings
  import opened JsonValue
  import opened Lists
  import opened Sorting
  import opened FounderLib
  import MdxFromJson

  /** `String(t).toLowerCase()`. */
  function LowerText(t: Json): string {
    Lower(MdxFromJson.TextOf(t))
  }

  /** `new Set((f.tags || []).map(...))`, in insertion order. */
  function TagSet(f: FounderForPals): (r: seq<string>)
    ensures Distinct(r)
  {
    Dedupe(Mapped(Items(f.tags), LowerText))
  }

  /** Both cities present and equal ignoring case. */
  predicate SameCity(a: FounderForPals, b: FounderForPals) {
    JsTruthy(Some(a.city)) && JsTruthy(Some(b.city)) && Lower(Str(a.city)) == Lower(Str(b.city))
  }

  /** The tags of a that b has, each once. */
  function SharedTags(a: FounderForPals, b: FounderForPals): seq<string> {
    Filter(TagSet(a), InSeq(TagSet(b)))
  }

  /** The score before the cap at 99. */
  function RawScore(a: FounderForPals, b: FounderForPals): nat {
    (if SameCity(a, b) then 40 else 0) + 15 * |SharedTags(a, b)|
  }

  function Score(a: FounderForPals, b: FounderForPals): nat {
    if a.username == b.username then 0
    else if RawScore(a, b) < 99 then RawScore(a, b) else 99
  }

  /** matchScore: zero for the same username, else 40 for the same city and
      15 per shared tag, capped at 99. */
  method MatchScore(a: FounderForPals, b: FounderForPals) returns (score: nat)
    ensures score == Score(a, b)
    ensures score <= 99
  {
    if a.username == b.username {
      return 0;
    }
    score := 0;
    if JsTruthy(Some(a.city)) && JsTruthy(Some(b.city)) && Lower(Str(a.city)) == Lower(Str(b.city)) {
      score := score + 40;
    }
    var shared := CountShared(TagSet(a), TagSet(b));
    score := score + 15 * shared;
    score := if score < 99 then score else 99;
  }

  lemma SameCitySymmetric(a: FounderForPals, b: FounderForPals)
    ensures SameCity(a, b) <==> SameCity(b, a)
  {
  }

  /** The shared tags are the tags both founders have, so the score does not
      depend on the order of its arguments. */
  lemma ScoreSymmetric(a: FounderForPals, b: FounderForPals)
    ensures Score(a, b) == Score(b, a)
  {
    SharedCountSymmetric(TagSet(a), TagSet(b));
  }

  /** The score of two different founders counts the lowercased tags they
      have in common, whatever their order or repetition. */
  lemma ScoreCountsCommonTags(a: FounderForPals, b: FounderForPals)
    requires a.username != b.username
    ensures var raw := (if SameCity(a, b) then 40 else 0) + 15 * |Elems(TagSet(a)) * Elems(TagSet(b))|;
      Score(a, b) == if raw < 99 then raw else 99
  {
    FilterInCard(TagSet(a), TagSet(b));
  }

  /** A founder shares with another exactly the lowercased tags both carry. */
  lemma SharedTagsMembers(a: FounderForPals, b: FounderForPals, t: string)
    ensures t in SharedTags(a, b) <==> t in Mapped(Items(a.tags), LowerText) && t in Mapped(Items(b.tags), LowerText)
  {
    FilterMembers(TagSet(a), InSeq(TagSet(b)));
  }

  // ---------------------------------------------------------------------
  // filtered

  /** Whether one founder matches the lowercased query. */
  predicate Hit(q: string, f: FounderForPals) {
    || Contains(Lower(Str(f.name)), q)
    || Contains(Lower(f.username), q)
    || (JsTruthy(Some(f.project)) && Contains(Lower(Str(f.project)), q))
    || (JsTruthy(Some(f.city)) && Contains(Lower(Str(f.city)), q))
    || (exists t | t in Items(f.tags) :: Contains(LowerText(t), q))
  }

  function HitFor(q: string): FounderForPals -> bool {
    (f: FounderForPals) => Hit(q, f)
  }

  function Query(search: string): string {
    Lower(Trim(search))
  }

  /** The founders the search box leaves: all of them for a blank query,
      else those whose fields contain the query, in their order. */
  function Filtered(founders: seq<FounderForPals>, search: string): (r: seq<FounderForPals>)
    ensures Query(search) == "" ==> r == founders
    ensures IsSubsequence(r, founders)
    ensures Query(search) != "" ==> forall f :: f in r <==> f in founders && Hit(Query(search), f)
  {
    var q := Query(search);
    if q == "" then
      IsSubsequenceRefl(founders);
      founders
    else
      FilterIsSubsequence(founders, HitFor(q));
      FilterMembers(founders, HitFor(q));
      Filter(founders, HitFor(q))
  }

  // ---------------------------------------------------------------------
  // similar

  datatype ScoredFounder = ScoredFounder(founder: FounderForPals, score: nat)

  /** Higher scores first. */
  function ByScore(): (ScoredFounder, ScoredFounder) -> bool {
    (x: ScoredFounder, y: ScoredFounder) => x.score >= y.score
  }

  lemma ByScoreOrder()
    ensures TotalPreorder(ByScore())
  {
  }

  function ScoredAgainst(sel: FounderForPals): FounderForPals -> Option<ScoredFounder> {
    (f: FounderForPals) => if f.username != sel.username then Some(ScoredFounder(f, Score(sel, f))) else None
  }

  /** Every other founder with its score against the selected one. */
  function Candidates(founders: seq<FounderForPals>, sel: FounderForPals): seq<ScoredFounder> {
    FilterMap(founders, ScoredAgainst(sel))
  }

  function SelectedFounder(founders: seq<FounderForPals>, selected: Option<string>): Option<FounderForPals> {
    if selected.None? || selected.value == "" then None
    else FindFirst(founders, (f: FounderForPals) => f.username == selected.value)
  }

  /** similar: nothing without a selection, else the five best-scoring other
      founders. */
  function Similar(founders: seq<FounderForPals>, selected: Option<string>): seq<ScoredFounder> {
    match SelectedFounder(founders, selected)
    case None => []
    case Some(sel) => Take(SortBy(Candidates(founders, sel), ByScore()), 5)
  }

  /** An entry for another founder, with its score against sel. */
  predicate ScoredFrom(founders: seq<FounderForPals>, sel: FounderForPals, c: ScoredFounder) {
    c.founder.username != sel.username && c.score == Score(sel, c.founder) && c.founder in founders
  }

  lemma CandidatesFacts(founders: seq<FounderForPals>, sel: FounderForPals)
    ensures forall c | c in Candidates(founders, sel) :: ScoredFrom(founders, sel, c)
  {
    FilterMapSource(founders, ScoredAgainst(sel));
  }

  /** For a selected founder: at most five entries, none of them the
      selected founder, each another founder with its score, best first;
      every other founder left out scores no higher than the last one
      listed. */
  lemma SimilarFacts(founders: seq<FounderForPals>, sel: FounderForPals)
    ensures var r := Take(SortBy(Candidates(founders, sel), ByScore()), 5);
      && |r| <= 5
      && (forall i | 0 <= i < |r| :: ScoredFrom(founders, sel, r[i]))
      && SortedBy(r, ByScore())
      && (forall c | c in Candidates(founders, sel) && c !in r :: c.score <= r[|r| - 1].score)
  {
    var cs := Candidates(founders, sel);
    var r := Take(SortBy(cs, ByScore()), 5);
    ByScoreOrder();
    TopOfSorted(cs, ByScore(), 5);
    assert multiset(r) <= multiset(cs);
    CandidatesFacts(founders, sel);
    forall i | 0 <= i < |r| ensures ScoredFrom(founders, sel, r[i]) {
      assert r[i] in multiset(r);
      assert r[i] in cs;
    }
    forall c | c in cs && c !in r ensures c.score <= r[|r| - 1].score {
      assert ByScore()(r[|r| - 1], c);
    }
  }

  /** Nothing is similar when no founder is selected. */
  lemma NoSelectionNoSimilar(founders: seq<FounderForPals>, selected: Option<string>)
    requires SelectedFounder(founders, selected).None?
    ensures Similar(founders, selected) == []
  {
  }

  /** The filter and the map: every other founder with its score. */
  method ScoreOthers(founders: seq<FounderForPals>, sel: FounderForPals) returns (scored: seq<ScoredFounder>)
    ensures scored == Candidates(founders, sel)
  {
    scored := [];
    for i := 0 to |founders|
      invariant scored == FilterMap(founders[..i], ScoredAgainst(sel))
    {
      FilterMapStep(founders, ScoredAgainst(sel), i);
      var f := founders[i];
      if f.username != sel.username {
        var s := MatchScore(sel, f);
        scored := scored + [ScoredFounder(f, s)];
      }
    }
    assert founders[..|founders|] == founders;
  }

  /** The method behind the useMemo: filter, score, sort, keep five. */
  method SimilarFounders(founders: seq<FounderForPals>, selected: Option<string>) returns (r: seq<ScoredFounder>)
    ensures r == Similar(founders, selected)
  {
    var sel := SelectedFounder(founders, selected);
    if sel.None? {
      return [];
    }
    var scored := ScoreOthers(founders, sel.value);
    r := Take(SortBy(scored, ByScore()), 5);
  }
}
