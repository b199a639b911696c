/** Sequence combinators for the scripts' "collect into a list" loops. Each
    is a left fold over the input, the shape of a loop that appends as it
    goes, so a loop invariant can say "the list so far is the combinator
    applied to the prefix seen so far". */
module Lists {
  import opened Strings

  function OptionToSeq<T>(o: Option<T>): (r: seq<T>)
    ensures |r| <= 1
  {
    if o.Some? then [o.value] else []
  }

  /** Keeps f's result for every element where f gives one, in order. */
  function FilterMap<A, B>(s: seq<A>, f: A -> Option<B>): (r: seq<B>)
    ensures |r| <= |s|
  {
    if s == [] then [] else FilterMap(s[..|s| - 1], f) + OptionToSeq(f(s[|s| - 1]))
  }

  /** One more element extends the result by what f gives for it. */
  lemma FilterMapStep<A, B>(s: seq<A>, f: A -> Option<B>, i: nat)
    requires i < |s|
    ensures FilterMap(s[..i + 1], f) == FilterMap(s[..i], f) + OptionToSeq(f(s[i]))
  {
    assert s[..i + 1][..i] == s[..i];
  }

  /** The result is empty exactly when f gives nothing for every element. */
  lemma {:induction false} FilterMapEmpty<A, B>(s: seq<A>, f: A -> Option<B>)
    ensures FilterMap(s, f) == [] <==> forall k | 0 <= k < |s| :: f(s[k]).None?
  {
    if s != [] {
      var init := s[..|s| - 1];
      FilterMapEmpty(init, f);
      assert forall k | 0 <= k < |init| :: init[k] == s[k];
    }
  }

  /** Every result comes from some element. */
  lemma {:induction false} FilterMapSource<A, B>(s: seq<A>, f: A -> Option<B>)
    ensures forall b | b in FilterMap(s, f) :: exists k | 0 <= k < |s| :: f(s[k]) == Some(b)
  {
    if s != [] {
      var init := s[..|s| - 1];
      FilterMapSource(init, f);
      assert forall k | 0 <= k < |init| :: init[k] == s[k];
    }
  }

  /** Every element f maps contributes its result. */
  lemma {:induction false} FilterMapKeeps<A, B>(s: seq<A>, f: A -> Option<B>, k: nat)
    requires k < |s| && f(s[k]).Some?
    ensures f(s[k]).value in FilterMap(s, f)
  {
    if k < |s| - 1 {
      assert s[..|s| - 1][k] == s[k];
      FilterMapKeeps(s[..|s| - 1], f, k);
    }
  }

  /** The first result comes from the first element f maps. */
  lemma {:induction false} FilterMapFirst<A, B>(s: seq<A>, f: A -> Option<B>, k: nat)
    requires k < |s| && f(s[k]).Some?
    requires forall j | 0 <= j < k :: f(s[j]).None?
    ensures FilterMap(s, f) != [] && FilterMap(s, f)[0] == f(s[k]).value
  {
    if k < |s| - 1 {
      var init := s[..|s| - 1];
      assert forall j | 0 <= j < k :: init[j] == s[j];
      FilterMapFirst(init, f, k);
    } else {
      FilterMapEmpty(s[..|s| - 1], f);
      assert forall j | 0 <= j < k :: s[..|s| - 1][j] == s[j];
    }
  }

  /** Keeps the elements satisfying p, in order. */
  function Filter<A>(s: seq<A>, p: A -> bool): (r: seq<A>)
    ensures |r| <= |s|
  {
    if s == [] then [] else Filter(s[..|s| - 1], p) + (if p(s[|s| - 1]) then [s[|s| - 1]] else [])
  }

  lemma {:induction false} FilterMembers<A>(s: seq<A>, p: A -> bool)
    ensures forall x :: x in Filter(s, p) <==> x in s && p(x)
  {
    if s != [] {
      FilterMembers(s[..|s| - 1], p);
      assert s == s[..|s| - 1] + [s[|s| - 1]];
    }
  }

  lemma {:induction false} FilterAll<A>(s: seq<A>, p: A -> bool)
    requires forall k | 0 <= k < |s| :: p(s[k])
    ensures Filter(s, p) == s
  {
    if s != [] {
      FilterAll(s[..|s| - 1], p);
      assert s == s[..|s| - 1] + [s[|s| - 1]];
    }
  }

  lemma {:induction false} FilterAppend<A>(a: seq<A>, b: seq<A>, p: A -> bool)
    ensures Filter(a + b, p) == Filter(a, p) + Filter(b, p)
    decreases |b|
  {
    if b == [] {
      assert a + b == a;
    } else {
      var init := b[..|b| - 1];
      FilterAppend(a, init, p);
      var ab := a + b;
      assert ab[..|ab| - 1] == a + init;
      assert ab[|ab| - 1] == b[|b| - 1];
      assert Filter(ab, p) == Filter(a + init, p) + (if p(b[|b| - 1]) then [b[|b| - 1]] else []);
    }
  }

  lemma FilterCons<A>(x: A, s: seq<A>, p: A -> bool)
    ensures Filter([x] + s, p) == (if p(x) then [x] else []) + Filter(s, p)
  {
    var one := [x];
    assert one[..|one| - 1] == [] && one[|one| - 1] == x;
    assert Filter(one, p) == (if p(x) then [x] else []);
    FilterAppend(one, s, p);
  }

  /** s is an order-preserving subsequence of t. */
  predicate IsSubsequence<A(==)>(s: seq<A>, t: seq<A>)
    decreases |t|
  {
    s == [] ||
    (t != [] &&
     ((s[|s| - 1] == t[|t| - 1] && IsSubsequence(s[..|s| - 1], t[..|t| - 1])) ||
      IsSubsequence(s, t[..|t| - 1])))
  }

  /** Filtering keeps the survivors in their original order. */
  lemma {:induction false} FilterIsSubsequence<A>(s: seq<A>, p: A -> bool)
    ensures IsSubsequence(Filter(s, p), s)
  {
    if s != [] {
      var init := s[..|s| - 1];
      FilterIsSubsequence(init, p);
      var r := Filter(s, p);
      if p(s[|s| - 1]) {
        assert r[..|r| - 1] == Filter(init, p);
        assert r[|r| - 1] == s[|s| - 1];
      } else {
        assert r == Filter(init, p);
      }
    }
  }

  /** FilterMap where f also sees each element's position. */
  function FilterMapIndexed<A, B>(s: seq<A>, f: (A, nat) -> Option<B>): (r: seq<B>)
    ensures |r| <= |s|
  {
    if s == [] then [] else FilterMapIndexed(s[..|s| - 1], f) + OptionToSeq(f(s[|s| - 1], |s| - 1))
  }

  /** When f gives a result exactly for the elements satisfying p, there are
      as many results as elements satisfying p. */
  lemma {:induction false} FilterMapIndexedLength<A, B>(s: seq<A>, f: (A, nat) -> Option<B>, p: A -> bool)
    requires forall k | 0 <= k < |s| :: f(s[k], k).Some? == p(s[k])
    ensures |FilterMapIndexed(s, f)| == |Filter(s, p)|
  {
    if s != [] {
      var init := s[..|s| - 1];
      assert forall k | 0 <= k < |init| :: init[k] == s[k];
      FilterMapIndexedLength(init, f, p);
    }
  }

  /** One more element extends the result by what f gives for it. */
  lemma FilterMapIndexedStep<A, B>(s: seq<A>, f: (A, nat) -> Option<B>, i: nat)
    requires i < |s|
    ensures FilterMapIndexed(s[..i + 1], f) == FilterMapIndexed(s[..i], f) + OptionToSeq(f(s[i], i))
  {
    assert s[..i + 1][..i] == s[..i];
  }

  /** The map built by a loop that stores f's (key, value) for every element
      where f gives one; a later element with the same key replaces the
      value. */
  function MapOf<A, K(==), V>(s: seq<A>, f: A -> Option<(K, V)>): map<K, V> {
    if s == [] then map[]
    else
      var m := MapOf(s[..|s| - 1], f);
      var e := f(s[|s| - 1]);
      if e.Some? then m[e.value.0 := e.value.1] else m
  }

  /** Some element gives key k. */
  predicate GivesKey<A, K(==), V>(f: A -> Option<(K, V)>, a: A, k: K) {
    f(a).Some? && f(a).value.0 == k
  }

  /** A key is in the map exactly when some element gives it. */
  lemma {:induction false} MapOfKeys<A, K, V>(s: seq<A>, f: A -> Option<(K, V)>, k: K)
    ensures k in MapOf(s, f) <==> exists i | 0 <= i < |s| :: GivesKey(f, s[i], k)
  {
    if s != [] {
      var n := |s| - 1;
      MapOfKeys(s[..n], f, k);
      assert forall i | 0 <= i < n :: s[..n][i] == s[i];
    }
  }

  /** A key holds the value of the last element that gives it. */
  lemma {:induction false} MapOfLastWins<A, K, V>(s: seq<A>, f: A -> Option<(K, V)>, k: K)
    requires k in MapOf(s, f)
    ensures exists i | 0 <= i < |s| ::
      f(s[i]) == Some((k, MapOf(s, f)[k])) && forall j | i < j < |s| :: !GivesKey(f, s[j], k)
  {
    var n := |s| - 1;
    var init := s[..n];
    if !GivesKey(f, s[n], k) {
      MapOfLastWins(init, f, k);
      var i :| 0 <= i < n && f(init[i]) == Some((k, MapOf(init, f)[k])) &&
        forall j | i < j < n :: !GivesKey(f, init[j], k);
      assert init[i] == s[i];
      assert forall j | i < j < n :: init[j] == s[j];
    }
  }

  /** No element occurs twice. */
  predicate Distinct<A(==)>(s: seq<A>) {
    forall i, j | 0 <= i < j < |s| :: s[i] != s[j]
  }

  /** The first occurrence of every element, in order (Python
      list(dict.fromkeys(s))). */
  function Dedupe<A(==)>(s: seq<A>): (r: seq<A>)
    ensures |r| <= |s|
    ensures forall i | 0 <= i < |r| :: r[i] in s
    ensures forall i | 0 <= i < |s| :: s[i] in r
    ensures Distinct(r)
  {
    if s == [] then []
    else
      var d := Dedupe(s[..|s| - 1]);
      assert forall i | 0 <= i < |s| - 1 :: s[i] == s[..|s| - 1][i];
      if s[|s| - 1] in d then d else d + [s[|s| - 1]]
  }

  /** Dedupe keeps the elements in the order they first appear. */
  lemma {:induction false} DedupeIsSubsequence<A>(s: seq<A>)
    ensures IsSubsequence(Dedupe(s), s)
  {
    if s != [] {
      var init := s[..|s| - 1];
      DedupeIsSubsequence(init);
      var r := Dedupe(s);
      if s[|s| - 1] in Dedupe(init) {
        SubsequenceOfPrefix(r, init, s);
      } else {
        assert r[..|r| - 1] == Dedupe(init);
      }
    }
  }

  /** A subsequence of t[..|t| - 1] is a subsequence of t. */
  lemma SubsequenceOfPrefix<A>(r: seq<A>, init: seq<A>, t: seq<A>)
    requires t != [] && init == t[..|t| - 1]
    requires IsSubsequence(r, init)
    ensures IsSubsequence(r, t)
  {
  }

  /** A prefix of a list without repetitions has none either. */
  lemma TakeDistinct<A>(s: seq<A>, n: nat)
    requires Distinct(s)
    ensures Distinct(Take(s, n))
  {
  }

  /** The value v gives for the last element satisfying p, or None: the
      variable a loop overwrites at every element satisfying p. */
  function LastWith<A, B>(s: seq<A>, p: A -> bool, v: A -> Option<B>): Option<B> {
    if s == [] then None
    else if p(s[|s| - 1]) then v(s[|s| - 1])
    else LastWith(s[..|s| - 1], p, v)
  }

  /** No element satisfying p gives None; a result is v of the last element
      satisfying p. */
  lemma {:induction false} LastWithIsLast<A, B>(s: seq<A>, p: A -> bool, v: A -> Option<B>)
    ensures (forall k | 0 <= k < |s| :: !p(s[k])) ==> LastWith(s, p, v).None?
    ensures LastWith(s, p, v).Some? ==>
      exists k | 0 <= k < |s| :: p(s[k]) && v(s[k]) == LastWith(s, p, v) && forall j | k < j < |s| :: !p(s[j])
  {
    if s != [] {
      var n := |s| - 1;
      var init := s[..n];
      if !p(s[n]) {
        LastWithIsLast(init, p, v);
        assert forall k | 0 <= k < n :: init[k] == s[k];
      }
    }
  }

  /** What the last element satisfying p gives is the result, whatever came
      before it. */
  lemma {:induction false} LastWithAt<A, B>(s: seq<A>, p: A -> bool, v: A -> Option<B>, k: nat)
    requires k < |s| && p(s[k])
    requires forall j | k < j < |s| :: !p(s[j])
    ensures LastWith(s, p, v) == v(s[k])
  {
    var n := |s| - 1;
    if k < n {
      var init := s[..n];
      assert init[k] == s[k];
      assert forall j | k < j < n :: init[j] == s[j];
      LastWithAt(init, p, v, k);
    }
  }

  /** The concatenation of f's lists for every element, in order. */
  function FlatMap<A, B>(s: seq<A>, f: A -> seq<B>): seq<B> {
    if s == [] then [] else FlatMap(s[..|s| - 1], f) + f(s[|s| - 1])
  }

  lemma FlatMapStep<A, B>(s: seq<A>, f: A -> seq<B>, i: nat)
    requires i < |s|
    ensures FlatMap(s[..i + 1], f) == FlatMap(s[..i], f) + f(s[i])
  {
    assert s[..i + 1][..i] == s[..i];
  }

  /** A property every piece has, the concatenation has. */
  lemma {:induction false} FlatMapAll<A, B>(s: seq<A>, f: A -> seq<B>, p: B -> bool)
    requires forall i | 0 <= i < |s| :: forall j | 0 <= j < |f(s[i])| :: p(f(s[i])[j])
    ensures forall j | 0 <= j < |FlatMap(s, f)| :: p(FlatMap(s, f)[j])
  {
    if s != [] {
      var init := s[..|s| - 1];
      assert forall i | 0 <= i < |init| :: init[i] == s[i];
      FlatMapAll(init, f, p);
      var a := FlatMap(init, f);
      var b := f(s[|s| - 1]);
      forall j | 0 <= j < |a + b| ensures p((a + b)[j]) {
        if j >= |a| { assert (a + b)[j] == b[j - |a|]; }
      }
    }
  }

  /** The first element's list starts the concatenation. */
  lemma {:induction false} FlatMapFirst<A, B>(s: seq<A>, f: A -> seq<B>)
    requires s != []
    ensures |FlatMap(s, f)| >= |f(s[0])| && FlatMap(s, f)[..|f(s[0])|] == f(s[0])
  {
    var init := s[..|s| - 1];
    if |s| > 1 {
      assert init[0] == s[0];
      FlatMapFirst(init, f);
    } else {
      assert init == [];
    }
  }

  /** The union of f's sets for every element. */
  function UnionOf<A, B>(s: seq<A>, f: A -> set<B>): set<B> {
    if s == [] then {} else UnionOf(s[..|s| - 1], f) + f(s[|s| - 1])
  }

  lemma UnionOfStep<A, B>(s: seq<A>, f: A -> set<B>, i: nat)
    requires i < |s|
    ensures UnionOf(s[..i + 1], f) == UnionOf(s[..i], f) + f(s[i])
  {
    assert s[..i + 1][..i] == s[..i];
  }

  /** An element of the union comes from some element of s, and every
      element's set is included. */
  lemma {:induction false} UnionOfMembers<A, B>(s: seq<A>, f: A -> set<B>, b: B)
    ensures b in UnionOf(s, f) <==> exists i | 0 <= i < |s| :: b in f(s[i])
  {
    if s != [] {
      var init := s[..|s| - 1];
      assert forall i | 0 <= i < |init| :: init[i] == s[i];
      UnionOfMembers(init, f, b);
    }
  }

  /** The image of a set under f. */
  function ImageOf<A, B>(s: set<A>, f: A -> B): set<B> {
    set x | x in s :: f(x)
  }

  lemma ImageOfAdd<A, B>(s: set<A>, x: A, f: A -> B)
    ensures ImageOf(s + {x}, f) == ImageOf(s, f) + {f(x)}
  {
  }

  /** A loop that adds f's set for every element to an accumulator. */
  method UnionAll<A, B>(s: seq<A>, f: A -> set<B>) returns (r: set<B>)
    ensures r == UnionOf(s, f)
  {
    r := {};
    for i := 0 to |s|
      invariant r == UnionOf(s[..i], f)
    {
      UnionOfStep(s, f, i);
      r := r + f(s[i]);
    }
    TakeSnoc(s, |s|);
  }

  /** A loop that adds f(x) for every element x of a set. */
  method MapSet<A(==), B(==)>(s: set<A>, f: A -> B) returns (r: set<B>)
    ensures r == ImageOf(s, f)
  {
    r := {};
    var rest := s;
    while rest != {}
      invariant rest <= s
      invariant r == ImageOf(s - rest, f)
      decreases |rest|
    {
      var x :| x in rest;
      ImageOfAdd(s - rest, x, f);
      assert s - (rest - {x}) == (s - rest) + {x};
      r := r + {f(x)};
      rest := rest - {x};
    }
    assert s - rest == s;
  }

  /** The names of the files the elements of c create. */
  function CreatedNames<A>(c: seq<A>, name: A -> Option<string>): set<string> {
    set i | 0 <= i < |c| && name(c[i]).Some? :: name(c[i]).value
  }

  /** Write-when-missing over s: the elements whose file is neither present
      at the start nor written by an earlier element, in order. name gives
      None for an element that writes nothing. */
  function Creating<A>(s: seq<A>, name: A -> Option<string>, existing: set<string>): seq<A> {
    if s == [] then []
    else
      var c := Creating(s[..|s| - 1], name, existing);
      var x := s[|s| - 1];
      if name(x).Some? && name(x).value !in existing && name(x).value !in CreatedNames(c, name) then c + [x] else c
  }

  lemma CreatingStep<A>(s: seq<A>, name: A -> Option<string>, existing: set<string>, i: nat)
    requires i < |s|
    ensures var c := Creating(s[..i], name, existing);
      Creating(s[..i + 1], name, existing) ==
        if name(s[i]).Some? && name(s[i]).value !in existing && name(s[i]).value !in CreatedNames(c, name) then c + [s[i]] else c
  {
    assert s[..i + 1][..i] == s[..i];
  }

  lemma CreatedNamesAdd<A>(c: seq<A>, name: A -> Option<string>, x: A)
    requires name(x).Some?
    ensures CreatedNames(c + [x], name) == CreatedNames(c, name) + {name(x).value}
  {
    var d := c + [x];
    assert forall i | 0 <= i < |c| :: d[i] == c[i];
    assert d[|c|] == x;
  }

  /** Every created element names a file, no two the same, none of them
      present at the start; and every element that names a file finds it
      present at the start or created. */
  lemma {:induction false} CreatingFacts<A>(s: seq<A>, name: A -> Option<string>, existing: set<string>)
    ensures var c := Creating(s, name, existing);
      && |c| <= |s|
      && (forall i | 0 <= i < |c| :: name(c[i]).Some? && name(c[i]).value !in existing)
      && (forall i, j | 0 <= i < j < |c| :: name(c[i]) != name(c[j]))
      && (forall i | 0 <= i < |s| && name(s[i]).Some? ::
            name(s[i]).value in existing || name(s[i]).value in CreatedNames(c, name))
      && |CreatedNames(c, name)| == |c|
  {
    CreatingNamed(s, name, existing);
    CreatingCovers(s, name, existing);
  }

  lemma {:induction false} CreatingNamed<A>(s: seq<A>, name: A -> Option<string>, existing: set<string>)
    ensures var c := Creating(s, name, existing);
      && |c| <= |s|
      && (forall i | 0 <= i < |c| :: name(c[i]).Some? && name(c[i]).value !in existing)
      && (forall i, j | 0 <= i < j < |c| :: name(c[i]) != name(c[j]))
      && |CreatedNames(c, name)| == |c|
  {
    if s != [] {
      var init := s[..|s| - 1];
      var x := s[|s| - 1];
      CreatingNamed(init, name, existing);
      var c := Creating(init, name, existing);
      if name(x).Some? && name(x).value !in existing && name(x).value !in CreatedNames(c, name) {
        CreatedNamesAdd(c, name, x);
        var d := c + [x];
        assert forall i | 0 <= i < |c| :: d[i] == c[i];
        forall i | 0 <= i < |c| ensures name(d[i]) != name(x) {
          assert name(c[i]).value in CreatedNames(c, name);
        }
      }
    }
  }

  lemma {:induction false} CreatingCovers<A>(s: seq<A>, name: A -> Option<string>, existing: set<string>)
    ensures var c := Creating(s, name, existing);
      forall i | 0 <= i < |s| && name(s[i]).Some? ::
        name(s[i]).value in existing || name(s[i]).value in CreatedNames(c, name)
  {
    if s != [] {
      var init := s[..|s| - 1];
      var x := s[|s| - 1];
      CreatingCovers(init, name, existing);
      var c := Creating(init, name, existing);
      assert forall i | 0 <= i < |init| :: init[i] == s[i];
      if name(x).Some? && name(x).value !in existing && name(x).value !in CreatedNames(c, name) {
        CreatedNamesAdd(c, name, x);
      }
    }
  }

  predicate HasKey<A, K(==)>(d: seq<A>, key: A -> K, k: K) {
    exists i | 0 <= i < |d| :: key(d[i]) == k
  }

  /** A Map filled with `if (!m.has(k)) m.set(k, x)`, read back in insertion
      order: the first element for every key, in the order keys first
      appear. */
  function FirstByKey<A, K(==)>(s: seq<A>, key: A -> K): (r: seq<A>)
    ensures |r| <= |s|
    ensures forall i, j | 0 <= i < j < |r| :: key(r[i]) != key(r[j])
  {
    if s == [] then []
    else
      var d := FirstByKey(s[..|s| - 1], key);
      if HasKey(d, key, key(s[|s| - 1])) then d else d + [s[|s| - 1]]
  }

  lemma FirstByKeyStep<A, K>(s: seq<A>, key: A -> K, i: nat)
    requires i < |s|
    ensures var d := FirstByKey(s[..i], key);
      FirstByKey(s[..i + 1], key) == if HasKey(d, key, key(s[i])) then d else d + [s[i]]
  {
    assert s[..i + 1][..i] == s[..i];
  }

  /** Every key of s is kept. */
  lemma {:induction false} FirstByKeyCovers<A, K>(s: seq<A>, key: A -> K)
    ensures var r := FirstByKey(s, key); forall j | 0 <= j < |s| :: HasKey(r, key, key(s[j]))
  {
    if s != [] {
      var init := s[..|s| - 1];
      FirstByKeyCovers(init, key);
      var d := FirstByKey(init, key);
      var r := FirstByKey(s, key);
      assert r == d || r == d + [s[|s| - 1]];
      forall j | 0 <= j < |s| ensures HasKey(r, key, key(s[j])) {
        if j < |init| {
          assert init[j] == s[j];
          var i :| 0 <= i < |d| && key(d[i]) == key(init[j]);
          assert r[i] == d[i];
        } else if r != d {
          assert r[|d|] == s[j];
        }
      }
    }
  }

  /** Each kept element is the first element of s with its key. */
  lemma {:induction false} FirstByKeyFirst<A, K>(s: seq<A>, key: A -> K)
    ensures var r := FirstByKey(s, key);
      forall i | 0 <= i < |r| :: exists j | 0 <= j < |s| ::
        s[j] == r[i] && forall m | 0 <= m < j :: key(s[m]) != key(r[i])
  {
    if s != [] {
      var init := s[..|s| - 1];
      var x := s[|s| - 1];
      FirstByKeyFirst(init, key);
      FirstByKeyCovers(init, key);
      var d := FirstByKey(init, key);
      var r := FirstByKey(s, key);
      assert r == d || r == d + [x];
      forall i | 0 <= i < |r| ensures exists j | 0 <= j < |s| ::
          s[j] == r[i] && forall m | 0 <= m < j :: key(s[m]) != key(r[i]) {
        if i < |d| {
          assert r[i] == d[i];
          var j :| 0 <= j < |init| && init[j] == d[i] && forall m | 0 <= m < j :: key(init[m]) != key(d[i]);
          assert s[j] == r[i];
          assert forall m | 0 <= m < j :: s[m] == init[m];
        } else {
          assert r[i] == x && !HasKey(d, key, key(x));
          forall m | 0 <= m < |init| ensures key(s[m]) != key(x) {
            assert s[m] == init[m];
            var k :| 0 <= k < |d| && key(d[k]) == key(init[m]);
          }
        }
      }
    }
  }

  /** The kept elements keep their order. */
  lemma {:induction false} FirstByKeySubsequence<A, K>(s: seq<A>, key: A -> K)
    ensures IsSubsequence(FirstByKey(s, key), s)
  {
    if s != [] {
      var init := s[..|s| - 1];
      FirstByKeySubsequence(init, key);
      var d := FirstByKey(init, key);
      var r := FirstByKey(s, key);
      if r == d {
        SubsequenceOfPrefix(r, init, s);
      } else {
        assert r[..|r| - 1] == d;
      }
    }
  }

  /** f applied to every element. */
  function Mapped<A, B>(s: seq<A>, f: A -> B): (r: seq<B>)
    ensures |r| == |s|
    ensures forall i | 0 <= i < |s| :: r[i] == f(s[i])
  {
    seq(|s|, i requires 0 <= i < |s| => f(s[i]))
  }

  lemma MappedMembers<A, B>(s: seq<A>, f: A -> B)
    ensures forall y :: y in Mapped(s, f) <==> exists k | 0 <= k < |s| :: y == f(s[k])
  {
    var m := Mapped(s, f);
    forall y ensures y in m <==> exists k | 0 <= k < |s| :: y == f(s[k]) {
      if y in m {
        var k :| 0 <= k < |m| && m[k] == y;
      }
      if exists k | 0 <= k < |s| :: y == f(s[k]) {
        var k :| 0 <= k < |s| && y == f(s[k]);
        assert m[k] == y;
      }
    }
  }

  lemma MappedAppend<A, B>(s: seq<A>, x: A, f: A -> B)
    ensures Mapped(s + [x], f) == Mapped(s, f) + [f(x)]
  {
  }

  /** Adding the elements of t one by one after those of s. */
  lemma FirstByKeyAppendStep<A, K>(s: seq<A>, t: seq<A>, key: A -> K, k: nat)
    requires k < |t|
    ensures var d := FirstByKey(s + t[..k], key);
      FirstByKey(s + t[..k + 1], key) == if HasKey(d, key, key(t[k])) then d else d + [t[k]]
  {
    var u := s + t[..k + 1];
    assert u[..|u| - 1] == s + t[..k];
    assert u[|u| - 1] == t[k];
  }

  /** The write-when-missing loop: for each element that names a file not
      present, write it and remember the name. */
  method WriteMissing<A>(s: seq<A>, name: A -> Option<string>, write: A -> (string, string), existing: set<string>)
    returns (writes: seq<(string, string)>)
    ensures writes == Mapped(Creating(s, name, existing), write)
  {
    writes := [];
    var present := existing;
    var i := 0;
    while i < |s|
      invariant 0 <= i <= |s|
      invariant present == existing + CreatedNames(Creating(s[..i], name, existing), name)
      invariant writes == Mapped(Creating(s[..i], name, existing), write)
    {
      writes, present := WriteOne(s, name, write, existing, i, writes, present);
      i := i + 1;
    }
    TakeSnoc(s, i);
  }

  /** One turn of WriteMissing's loop: element i writes its file when the
      file is not present yet. */
  method WriteOne<A>(s: seq<A>, name: A -> Option<string>, write: A -> (string, string), existing: set<string>,
                     i: nat, writes: seq<(string, string)>, present: set<string>)
    returns (writes': seq<(string, string)>, present': set<string>)
    requires i < |s|
    requires present == existing + CreatedNames(Creating(s[..i], name, existing), name)
    requires writes == Mapped(Creating(s[..i], name, existing), write)
    ensures present' == existing + CreatedNames(Creating(s[..i + 1], name, existing), name)
    ensures writes' == Mapped(Creating(s[..i + 1], name, existing), write)
  {
    ghost var c := Creating(s[..i], name, existing);
    CreatingStep(s, name, existing, i);
    var file := name(s[i]);
    writes', present' := writes, present;
    if file.Some? && file.value !in present {
      CreatedNamesAdd(c, name, s[i]);
      MappedAppend(c, s[i], write);
      writes' := writes + [write(s[i])];
      present' := present + {file.value};
    }
  }

  /** The sum of f over xs. */
  function SumOver<A>(xs: seq<A>, f: A -> nat): nat {
    if xs == [] then 0 else f(xs[0]) + SumOver(xs[1..], f)
  }

  lemma {:induction false} SumOverAdd<A>(xs: seq<A>, f: A -> nat, g: A -> nat, h: A -> nat)
    requires forall i | 0 <= i < |xs| :: h(xs[i]) == f(xs[i]) + g(xs[i])
    ensures SumOver(xs, h) == SumOver(xs, f) + SumOver(xs, g)
  {
    if xs != [] {
      SumOverAdd(xs[1..], f, g, h);
    }
  }

  /** Over distinct elements, an indicator of one of them sums to 1. */
  lemma {:induction false} SumOverIndicator<A>(xs: seq<A>, x: A, f: A -> nat)
    requires Distinct(xs) && x in xs
    requires forall i | 0 <= i < |xs| :: f(xs[i]) == if xs[i] == x then 1 else 0
    ensures SumOver(xs, f) == 1
  {
    if xs[0] == x {
      SumOverZero(xs[1..], f);
    } else {
      SumOverIndicator(xs[1..], x, f);
    }
  }

  lemma {:induction false} SumOverZero<A>(xs: seq<A>, f: A -> nat)
    requires forall i | 0 <= i < |xs| :: f(xs[i]) == 0
    ensures SumOver(xs, f) == 0
  {
    if xs != [] {
      SumOverZero(xs[1..], f);
    }
  }

  /** The element's f-value when its key is k. */
  function Keyed<A, B, K(==)>(key: A -> K, f: A -> B, k: K): A -> Option<B> {
    (a: A) => if key(a) == k then Some(f(a)) else None
  }

  /** How many elements have each key. */
  function KeyedSize<A, B, K(==)>(data: seq<A>, key: A -> K, f: A -> B): K -> nat {
    (k: K) => |FilterMap(data, Keyed(key, f, k))|
  }

  function IndicatorOf<K(==)>(x: K): K -> nat {
    (k: K) => if k == x then 1 else 0
  }

  lemma KeyedSizeStep<A, B, K>(data: seq<A>, key: A -> K, f: A -> B)
    requires data != []
    ensures forall k: K :: (KeyedSize(data, key, f)(k) ==
      KeyedSize(data[..|data| - 1], key, f)(k) + IndicatorOf(key(data[|data| - 1]))(k))
  {
    assert data[..|data|] == data;
    forall k: K ensures KeyedSize(data, key, f)(k) ==
      KeyedSize(data[..|data| - 1], key, f)(k) + IndicatorOf(key(data[|data| - 1]))(k)
    {
      FilterMapStep(data, Keyed(key, f, k), |data| - 1);
    }
  }

  /** Grouping by a key drawn from distinct keys puts every element in
      exactly one group. */
  lemma {:induction false} KeyedPartition<A, B, K>(data: seq<A>, keys: seq<K>, key: A -> K, f: A -> B)
    requires Distinct(keys)
    requires forall i | 0 <= i < |data| :: key(data[i]) in keys
    ensures SumOver(keys, KeyedSize(data, key, f)) == |data|
  {
    if data == [] {
      SumOverZero(keys, KeyedSize(data, key, f));
    } else {
      var init := data[..|data| - 1];
      var x := key(data[|data| - 1]);
      assert forall i | 0 <= i < |init| :: init[i] == data[i];
      KeyedPartition(init, keys, key, f);
      KeyedSizeStep(data, key, f);
      SumOverAdd(keys, KeyedSize(init, key, f), IndicatorOf(x), KeyedSize(data, key, f));
      SumOverIndicator(keys, x, IndicatorOf(x));
    }
  }

  /** Mapping distinct elements to results that carry their source as key
      gives results with distinct keys. */
  lemma {:induction false} FilterMapDistinctKeys<A, B>(s: seq<A>, f: A -> Option<B>, key: B -> A)
    requires Distinct(s)
    requires forall i | 0 <= i < |s| :: f(s[i]).Some? ==> key(f(s[i]).value) == s[i]
    ensures Distinct(Mapped(FilterMap(s, f), key))
  {
    if s != [] {
      var init := s[..|s| - 1];
      assert forall i | 0 <= i < |init| :: init[i] == s[i];
      FilterMapDistinctKeys(init, f, key);
      FilterMapSource(init, f);
      var ri := FilterMap(init, f);
      var x := s[|s| - 1];
      if f(x).Some? {
        MappedAppend(ri, f(x).value, key);
        var ki := Mapped(ri, key);
        forall i | 0 <= i < |ri| ensures ki[i] != x {
          assert ri[i] in ri;
          var k :| 0 <= k < |init| && f(init[k]) == Some(ri[i]);
          assert init[k] == s[k];
        }
        assert Mapped(FilterMap(s, f), key) == ki + [x];
      }
    }
  }

  lemma DedupeSnoc<A>(s: seq<A>, x: A)
    ensures Dedupe(s + [x]) == if x in Dedupe(s) then Dedupe(s) else Dedupe(s) + [x]
  {
    assert (s + [x])[..|s|] == s;
  }

  lemma PrefixAppend<A>(s: seq<A>, t: seq<A>, k: nat)
    requires k <= |t|
    ensures k == 0 ==> s + t[..k] == s
    ensures k == |t| ==> s + t[..k] == s + t
    ensures k > 0 ==> s + t[..k] == (s + t[..k - 1]) + [t[k - 1]]
  {
    assert k == |t| ==> t[..k] == t;
    assert k > 0 ==> t[..k] == t[..k - 1] + [t[k - 1]];
  }

  lemma AppendAssoc<A>(a: seq<A>, b: seq<A>, c: seq<A>)
    ensures (a + b) + c == a + (b + c)
  {
  }

  lemma TakeSnoc<A>(s: seq<A>, i: nat)
    requires i <= |s|
    ensures i == |s| ==> s[..i] == s
    ensures i < |s| ==> s[..i + 1] == s[..i] + [s[i]]
  {
  }

  /** `set.add(x)` on a JS Set held as a sequence in insertion order. */
  method AddToSet<A(==)>(set_: seq<A>, ghost seen: seq<A>, x: A) returns (r: seq<A>)
    requires set_ == Dedupe(seen)
    ensures r == Dedupe(seen + [x])
  {
    DedupeSnoc(seen, x);
    if x in set_ {
      r := set_;
    } else {
      r := set_ + [x];
    }
  }

  /** Adding the elements of t one by one to a JS Set (a sequence in
      insertion order) holding the distinct elements of seen. */
  method AddAllToSet<A(==)>(set_: seq<A>, ghost seen: seq<A>, t: seq<A>) returns (r: seq<A>)
    requires set_ == Dedupe(seen)
    ensures r == Dedupe(seen + t)
  {
    r := set_;
    PrefixAppend(seen, t, 0);
    for k := 0 to |t|
      invariant r == Dedupe(seen + t[..k])
    {
      r := AddToSet(r, seen + t[..k], t[k]);
      PrefixAppend(seen, t, k + 1);
    }
    PrefixAppend(seen, t, |t|);
  }

  function Elems<A>(s: seq<A>): (r: set<A>)
    ensures forall x | x in r :: x in s
    ensures forall i | 0 <= i < |s| :: s[i] in r
  {
    if s == [] then {} else Elems(s[..|s| - 1]) + {s[|s| - 1]}
  }

  /** `t.has(x)` for a Set held as a sequence. */
  function InSeq<A(==)>(t: seq<A>): A -> bool {
    (x: A) => x in t
  }

  lemma InterSnoc<A>(s: seq<A>, t: seq<A>)
    requires s != []
    ensures var x := s[|s| - 1];
      Elems(s) * Elems(t) == Elems(s[..|s| - 1]) * Elems(t) + (if x in t then {x} else {})
  {
  }

  /** Counting the distinct elements of s that t has counts the elements
      the two have in common. */
  lemma {:induction false} FilterInCard<A>(s: seq<A>, t: seq<A>)
    requires Distinct(s)
    ensures |Filter(s, InSeq(t))| == |Elems(s) * Elems(t)|
  {
    if s != [] {
      var init := s[..|s| - 1];
      var x := s[|s| - 1];
      assert forall i | 0 <= i < |init| :: init[i] == s[i];
      FilterInCard(init, t);
      assert x !in Elems(init) * Elems(t);
      InterSnoc(s, t);
    }
  }

  lemma {:induction false} IsSubsequenceRefl<A>(s: seq<A>)
    ensures IsSubsequence(s, s)
  {
    if s != [] {
      IsSubsequenceRefl(s[..|s| - 1]);
    }
  }

  /** Array.prototype.find: the first element satisfying p. */
  function FindFirst<A(==)>(s: seq<A>, p: A -> bool): (r: Option<A>)
    ensures r.None? <==> forall k | 0 <= k < |s| :: !p(s[k])
    ensures r.Some? ==> exists k | 0 <= k < |s| :: s[k] == r.value && p(s[k]) && forall j | 0 <= j < k :: !p(s[j])
  {
    if s == [] then None
    else if p(s[0]) then Some(s[0])
    else
      var r := FindFirst(s[1..], p);
      assert forall k | 1 <= k < |s| :: s[k] == s[1..][k - 1];
      if r.Some? then
        var k :| 0 <= k < |s[1..]| && s[1..][k] == r.value && p(s[1..][k]) && forall j | 0 <= j < k :: !p(s[1..][j]);
        assert s[k + 1] == r.value;
        r
      else r
  }

  /** Two Sets share as many elements counted from either side. */
  lemma SharedCountSymmetric<A>(s: seq<A>, t: seq<A>)
    requires Distinct(s) && Distinct(t)
    ensures |Filter(s, InSeq(t))| == |Filter(t, InSeq(s))|
  {
    FilterInCard(s, t);
    FilterInCard(t, s);
    assert Elems(s) * Elems(t) == Elems(t) * Elems(s);
  }

  /** The loop `for (const x of s) if (t.has(x)) n++`. */
  method CountShared<A(==)>(s: seq<A>, t: seq<A>) returns (n: nat)
    ensures n == |Filter(s, InSeq(t))|
  {
    n := 0;
    for i := 0 to |s|
      invariant n == |Filter(s[..i], InSeq(t))|
    {
      assert s[..i + 1][..i] == s[..i];
      if s[i] in t {
        n := n + 1;
      }
    }
    assert s[..|s|] == s;
  }

  /** A property every result of f on s has, every element of FilterMap has. */
  lemma FilterMapAllSatisfy<A, B>(s: seq<A>, f: A -> Option<B>, post: B -> bool)
    requires forall i | 0 <= i < |s| && f(s[i]).Some? :: post(f(s[i]).value)
    ensures forall b | b in FilterMap(s, f) :: post(b)
  {
    FilterMapSource(s, f);
  }
}
