/** A stable sort by a caller-supplied "comes no later than" relation. It
    stands for the library sorts the scripts call: Python sorted(),
    JavaScript Array.prototype.sort with a comparator (stable since ES2019). */
module Sorting {
  import Strings
  import opened Lists

  ghost predicate TotalPreorder<T(!new)>(le: (T, T) -> bool) {
    && (forall a, b :: le(a, b) || le(b, a))
    && (forall a, b, c :: le(a, b) && le(b, c) ==> le(a, c))
  }

  predicate SortedBy<T>(s: seq<T>, le: (T, T) -> bool) {
    forall i, j | 0 <= i < j < |s| :: le(s[i], s[j])
  }

  /** Puts x in front of the first element it may precede. */
  function Insert<T>(x: T, s: seq<T>, le: (T, T) -> bool): (r: seq<T>)
    ensures multiset(r) == multiset(s) + multiset{x}
    ensures |r| == |s| + 1
  {
    if s == [] then [x]
    else if le(x, s[0]) then [x] + s
    else
      assert s == [s[0]] + s[1..];
      [s[0]] + Insert(x, s[1..], le)
  }

  /** Insertion sort from the back, so that of two equivalent elements the
      earlier one ends up first. */
  function SortBy<T>(s: seq<T>, le: (T, T) -> bool): (r: seq<T>)
    ensures multiset(r) == multiset(s)
    ensures |r| == |s|
  {
    if s == [] then []
    else
      assert s == [s[0]] + s[1..];
      Insert(s[0], SortBy(s[1..], le), le)
  }

  /** A bound below x and below every element of s is below every element of
      Insert(x, s, le). */
  lemma {:induction false} InsertKeepsBound<T>(a: T, x: T, s: seq<T>, le: (T, T) -> bool)
    requires le(a, x) && forall k | 0 <= k < |s| :: le(a, s[k])
    ensures forall k | 0 <= k < |Insert(x, s, le)| :: le(a, Insert(x, s, le)[k])
  {
    if s != [] && !le(x, s[0]) {
      InsertKeepsBound(a, x, s[1..], le);
      var t := Insert(x, s[1..], le);
      assert Insert(x, s, le) == [s[0]] + t;
    }
  }

  lemma {:induction false} InsertSorted<T(!new)>(x: T, s: seq<T>, le: (T, T) -> bool)
    requires TotalPreorder(le)
    requires SortedBy(s, le)
    ensures SortedBy(Insert(x, s, le), le)
  {
    if s != [] && !le(x, s[0]) {
      var tail := s[1..];
      assert SortedBy(tail, le) by {
        forall i, j | 0 <= i < j < |tail| ensures le(tail[i], tail[j]) {
          assert tail[i] == s[i + 1] && tail[j] == s[j + 1];
        }
      }
      InsertSorted(x, tail, le);
      var t := Insert(x, tail, le);
      assert le(s[0], x);
      assert forall k | 0 <= k < |tail| :: tail[k] == s[k + 1];
      InsertKeepsBound(s[0], x, tail, le);
      var r := [s[0]] + t;
      forall i, j | 0 <= i < j < |r| ensures le(r[i], r[j]) {
        if i == 0 {
          assert r[j] == t[j - 1];
        } else {
          assert r[i] == t[i - 1] && r[j] == t[j - 1];
        }
      }
    }
  }

  /** The result is ordered by le; with the multiset ensures of SortBy it is a
      sorted permutation of the input. */
  lemma {:induction false} SortBySorted<T(!new)>(s: seq<T>, le: (T, T) -> bool)
    requires TotalPreorder(le)
    ensures SortedBy(SortBy(s, le), le)
  {
    if s != [] {
      SortBySorted(s[1..], le);
      InsertSorted(s[0], SortBy(s[1..], le), le);
    }
  }

  /** The elements equivalent to x under le: those that come no later than
      x and no earlier. */
  function Tie<T>(le: (T, T) -> bool, x: T): T -> bool {
    (y: T) => le(x, y) && le(y, x)
  }

  /** Inserting a passes no element of its own tie class. */
  lemma {:induction false} InsertStable<T(!new)>(a: T, t: seq<T>, le: (T, T) -> bool, x: T)
    requires TotalPreorder(le)
    ensures Filter(Insert(a, t, le), Tie(le, x)) == Filter([a] + t, Tie(le, x))
  {
    if t != [] && !le(a, t[0]) {
      var tie := Tie(le, x);
      InsertStable(a, t[1..], le, x);
      assert Insert(a, t, le) == [t[0]] + Insert(a, t[1..], le);
      FilterCons(t[0], Insert(a, t[1..], le), tie);
      FilterCons(a, t[1..], tie);
      FilterCons(a, t, tie);
      assert t == [t[0]] + t[1..];
      FilterCons(t[0], t[1..], tie);
      assert !(tie(a) && tie(t[0]));
    }
  }

  /** SortBy is stable: the elements of each tie class come out in the
      order they came in. */
  lemma {:induction false} SortByStable<T(!new)>(s: seq<T>, le: (T, T) -> bool, x: T)
    requires TotalPreorder(le)
    ensures Filter(SortBy(s, le), Tie(le, x)) == Filter(s, Tie(le, x))
  {
    if s != [] {
      SortByStable(s[1..], le, x);
      InsertStable(s[0], SortBy(s[1..], le), le, x);
      FilterCons(s[0], SortBy(s[1..], le), Tie(le, x));
      FilterCons(s[0], s[1..], Tie(le, x));
      assert s == [s[0]] + s[1..];
    }
  }

  lemma SortByMembers<T>(s: seq<T>, le: (T, T) -> bool, x: T)
    ensures x in SortBy(s, le) <==> x in s
  {
    assert x in SortBy(s, le) <==> x in multiset(SortBy(s, le));
    assert x in s <==> x in multiset(s);
  }

  /** A prefix of a sorted sequence is sorted, and its last element comes no
      later than anything after it. */
  lemma SortedPrefix<T>(s: seq<T>, le: (T, T) -> bool, m: nat)
    requires m <= |s| && SortedBy(s, le)
    ensures SortedBy(s[..m], le)
    ensures m > 0 ==> forall k | m <= k < |s| :: le(s[m - 1], s[k])
  {
    var p := s[..m];
    forall i, j | 0 <= i < j < |p| ensures le(p[i], p[j]) {
      assert p[i] == s[i] && p[j] == s[j];
    }
  }

  lemma SplitMultiset<T>(s: seq<T>, m: nat)
    requires m <= |s|
    ensures multiset(s) == multiset(s[..m]) + multiset(s[m..])
  {
    assert s == s[..m] + s[m..];
  }

  /** The first n of the sorted sequence are sorted, come from s, and every
      element of s left out comes no earlier than the last one kept. */
  lemma TopOfSorted<T(!new)>(s: seq<T>, le: (T, T) -> bool, n: nat)
    requires TotalPreorder(le)
    ensures var r := Strings.Take(SortBy(s, le), n);
      && SortedBy(r, le)
      && multiset(r) <= multiset(s)
      && (n > 0 ==> forall c | c in s && c !in r :: le(r[|r| - 1], c))
  {
    var sorted := SortBy(s, le);
    SortBySorted(s, le);
    var r := Strings.Take(sorted, n);
    var m := |r|;
    assert r == sorted[..m];
    SortedPrefix(sorted, le, m);
    SplitMultiset(sorted, m);
    if n > 0 {
      forall c | c in s && c !in r ensures le(r[m - 1], c) {
        assert c in multiset(sorted);
        var k :| 0 <= k < |sorted| && sorted[k] == c;
        assert k >= m;
      }
    }
  }
}
