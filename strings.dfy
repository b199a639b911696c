/** String helpers shared by the scripts and the site code.
    Whitespace is the six ASCII whitespace characters and case mapping is
    ASCII-only. JavaScript's trim agrees with these on ASCII text; Python's
    strip and split also count \x1c to \x1f as whitespace. The recursions walk indices rather than slices so that calls
    on string literals can be evaluated by the verifier. */
module Strings {

  datatype Option<+T> = None | Some(value: T) {
    function GetOr(default: T): T {
      if Some? then value else default
    }
  }

  predicate IsSpace(c: char) {
    c == ' ' || c == '\t' || c == '\n' || c == '\r' || c == '\U{B}' || c == '\U{C}'
  }

  predicate IsUpperChar(c: char) { 'A' <= c <= 'Z' }
  predicate IsLowerChar(c: char) { 'a' <= c <= 'z' }
  predicate IsLetterChar(c: char) { IsUpperChar(c) || IsLowerChar(c) }
  predicate IsDigitChar(c: char) { '0' <= c <= '9' }
  predicate IsAlnumChar(c: char) { IsUpperChar(c) || IsLowerChar(c) || IsDigitChar(c) }
  /** The regular-expression class \w. */
  predicate IsWordChar(c: char) { IsAlnumChar(c) || c == '_' }

  function LowerChar(c: char): char {
    if IsUpperChar(c) then (c as int + 32) as char else c
  }

  function UpperChar(c: char): char {
    if IsLowerChar(c) then (c as int - 32) as char else c
  }

  function Lower(s: string): (r: string)
    ensures |r| == |s|
  {
    seq(|s|, i requires 0 <= i < |s| => LowerChar(s[i]))
  }

  function Upper(s: string): (r: string)
    ensures |r| == |s|
  {
    seq(|s|, i requires 0 <= i < |s| => UpperChar(s[i]))
  }

  predicate AllSpace(s: string) {
    forall i | 0 <= i < |s| :: IsSpace(s[i])
  }

  predicate IsAlnum(s: string) {
    |s| > 0 && forall i | 0 <= i < |s| :: IsAlnumChar(s[i])
  }

  /** Drops leading whitespace (Python lstrip(), JS trimStart()). */
  function TrimStart(s: string): (r: string)
    ensures |r| <= |s|
  {
    if s != [] && IsSpace(s[0]) then TrimStart(s[1..]) else s
  }

  /** Drops trailing whitespace (Python rstrip(), JS trimEnd()). */
  function TrimEnd(s: string): (r: string)
    ensures |r| <= |s|
  {
    if s != [] && IsSpace(s[|s| - 1]) then TrimEnd(s[..|s| - 1]) else s
  }

  /** Python strip() and JS trim(). */
  function Trim(s: string): (r: string)
    ensures |r| <= |s|
  {
    TrimEnd(TrimStart(s))
  }

  /** TrimStart removes exactly the leading whitespace: what it keeps is a
      suffix that does not start with whitespace, and what it drops is all
      whitespace. */
  lemma {:induction false} TrimStartShape(s: string)
    ensures var r := TrimStart(s);
      r == s[|s| - |r|..] && (r == [] || !IsSpace(r[0])) && AllSpace(s[..|s| - |r|])
  {
    if s != [] && IsSpace(s[0]) {
      TrimStartShape(s[1..]);
      var r := TrimStart(s[1..]);
      assert s[1..][..|s[1..]| - |r|] == s[1..|s| - |r|];
    }
  }

  /** TrimEnd removes exactly the trailing whitespace. */
  lemma {:induction false} TrimEndShape(s: string)
    ensures var r := TrimEnd(s);
      r == s[..|r|] && (r == [] || !IsSpace(r[|r| - 1])) && AllSpace(s[|r|..])
  {
    if s != [] && IsSpace(s[|s| - 1]) {
      TrimEndShape(s[..|s| - 1]);
      var r := TrimEnd(s[..|s| - 1]);
      assert s[..|s| - 1][|r|..] + [s[|s| - 1]] == s[|r|..];
    }
  }

  /** The stripped text is the piece of s that starts after the leading
      whitespace, with no whitespace at either end. */
  lemma TrimShape(s: string)
    ensures var r := Trim(s); var a := |s| - |TrimStart(s)|;
      (r == [] || (!IsSpace(r[0]) && !IsSpace(r[|r| - 1]))) &&
      a + |r| <= |s| && r == s[a..a + |r|]
  {
    var t := TrimStart(s);
    TrimStartShape(s);
    TrimEndShape(t);
    var r := TrimEnd(t);
    var a := |s| - |t|;
    assert r == t[..|r|] == s[a..a + |r|];
  }

  /** Stripping text that has no whitespace at its ends changes nothing. */
  lemma TrimOfTrimmed(s: string)
    requires s == [] || (!IsSpace(s[0]) && !IsSpace(s[|s| - 1]))
    ensures Trim(s) == s
  {
  }

  /** Stripping keeps out every character that was not there. */
  lemma TrimKeepsAbsence(s: string, c: char)
    requires c !in s
    ensures c !in Trim(s)
  {
    TrimShape(s);
    var r := Trim(s);
    var a := |s| - |TrimStart(s)|;
    forall k | 0 <= k < |r| ensures r[k] != c {
      assert r[k] == s[a + k];
    }
  }

  /** s has p at offset i + k onwards (the part p[k..] is still to check). */
  predicate MatchesAt(s: string, p: string, i: nat, k: nat)
    requires i + |p| <= |s| && k <= |p|
    decreases |p| - k
  {
    k == |p| || (s[i + k] == p[k] && MatchesAt(s, p, i, k + 1))
  }

  lemma MatchesAtSlice(s: string, p: string, i: nat, k: nat)
    requires i + |p| <= |s| && k <= |p|
    ensures MatchesAt(s, p, i, k) <==> s[i + k..i + |p|] == p[k..]
    decreases |p| - k
  {
    if k < |p| {
      MatchesAtSlice(s, p, i, k + 1);
      assert s[i + k..i + |p|] == [s[i + k]] + s[i + k + 1..i + |p|];
      assert p[k..] == [p[k]] + p[k + 1..];
    }
  }

  predicate StartsWith(s: string, p: string) {
    |p| <= |s| && MatchesAt(s, p, 0, 0)
  }

  lemma StartsWithSlice(s: string, p: string)
    ensures StartsWith(s, p) <==> |p| <= |s| && s[..|p|] == p
  {
    if |p| <= |s| { MatchesAtSlice(s, p, 0, 0); }
  }

  predicate EndsWith(s: string, p: string) {
    |p| <= |s| && MatchesAt(s, p, |s| - |p|, 0)
  }

  lemma EndsWithSlice(s: string, p: string)
    ensures EndsWith(s, p) <==> |p| <= |s| && s[|s| - |p|..] == p
  {
    if |p| <= |s| { MatchesAtSlice(s, p, |s| - |p|, 0); }
  }

  predicate ContainsFrom(s: string, sub: string, i: nat)
    decreases |s| - i
  {
    i + |sub| <= |s| && (MatchesAt(s, sub, i, 0) || ContainsFrom(s, sub, i + 1))
  }

  /** Python `sub in s`, JS `s.includes(sub)`. */
  predicate Contains(s: string, sub: string) {
    ContainsFrom(s, sub, 0)
  }

  lemma ContainsFromWitness(s: string, sub: string, i: nat, j: nat)
    requires i <= j && j + |sub| <= |s| && s[j..j + |sub|] == sub
    ensures ContainsFrom(s, sub, i)
    decreases j - i
  {
    if i == j {
      MatchesAtSlice(s, sub, i, 0);
    } else {
      ContainsFromWitness(s, sub, i + 1, j);
    }
  }

  lemma ContainsFromGives(s: string, sub: string, i: nat) returns (j: nat)
    requires ContainsFrom(s, sub, i)
    ensures i <= j && j + |sub| <= |s| && s[j..j + |sub|] == sub
    decreases |s| - i
  {
    if MatchesAt(s, sub, i, 0) {
      MatchesAtSlice(s, sub, i, 0);
      j := i;
    } else {
      j := ContainsFromGives(s, sub, i + 1);
    }
  }

  lemma ContainsEmpty(s: string)
    ensures Contains(s, "")
  {
  }

  lemma ContainsItself(s: string)
    ensures Contains(s, s)
  {
    ContainsFromWitness(s, s, 0, 0);
  }

  lemma StartsWithContains(s: string, p: string)
    requires StartsWith(s, p)
    ensures Contains(s, p)
  {
    StartsWithSlice(s, p);
    ContainsFromWitness(s, p, 0, 0);
  }

  /** A character occurs in s. */
  predicate HasChar(s: string, c: char) {
    exists i | 0 <= i < |s| :: s[i] == c
  }

  /** The index of the first occurrence of c, or |s| when there is none. */
  function IndexOf(s: string, c: char, from: nat): (r: nat)
    requires from <= |s|
    ensures from <= r <= |s|
    ensures r < |s| ==> s[r] == c
    ensures forall k | from <= k < r :: s[k] != c
    decreases |s| - from
  {
    if from == |s| || s[from] == c then from else IndexOf(s, c, from + 1)
  }

  /** Splits at every occurrence of sep, as Python str.split(sep) and JS
      split(sep) do for a one-character separator: "" gives [""]. */
  function SplitFrom(s: string, sep: char, start: nat): (r: seq<string>)
    requires start <= |s|
    ensures |r| >= 1
    decreases |s| - start
  {
    var k := IndexOf(s, sep, start);
    if k == |s| then [s[start..]] else [s[start..k]] + SplitFrom(s, sep, k + 1)
  }

  function Split(s: string, sep: char): (r: seq<string>)
    ensures |r| >= 1
  {
    SplitFrom(s, sep, 0)
  }

  function Join(parts: seq<string>, sep: string): string {
    if parts == [] then ""
    else if |parts| == 1 then parts[0]
    else parts[0] + sep + Join(parts[1..], sep)
  }

  lemma {:induction false} SplitFromParts(s: string, sep: char, start: nat)
    requires start <= |s|
    ensures forall p | p in SplitFrom(s, sep, start) :: sep !in p
    ensures Join(SplitFrom(s, sep, start), [sep]) == s[start..]
    decreases |s| - start
  {
    var k := IndexOf(s, sep, start);
    if k == |s| {
      assert forall i | 0 <= i < |s[start..]| :: s[start..][i] == s[start + i];
    } else {
      SplitFromParts(s, sep, k + 1);
      var rest := SplitFrom(s, sep, k + 1);
      assert forall i | 0 <= i < |s[start..k]| :: s[start..k][i] == s[start + i];
      assert s[start..] == s[start..k] + [sep] + s[k + 1..];
    }
  }

  /** Splitting then joining with the separator gives the string back, and
      no piece contains the separator. */
  lemma SplitJoin(s: string, sep: char)
    ensures forall p | p in Split(s, sep) :: sep !in p
    ensures Join(Split(s, sep), [sep]) == s
  {
    SplitFromParts(s, sep, 0);
  }

  /** A line that holds no separator is the first piece of whatever follows
      it. */
  lemma SplitAfterLine(x: string, y: string, sep: char)
    requires sep !in x
    ensures Split(x + [sep] + y, sep) == [x] + Split(y, sep)
  {
    var s := x + [sep] + y;
    assert IndexOf(s, sep, 0) == |x| by {
      assert s[|x|] == sep;
      assert forall k | 0 <= k < |x| :: s[k] == x[k];
    }
    assert s[0..|x|] == x;
    SplitFromShift(x + [sep], y, sep, 0);
  }

  lemma {:induction false} SplitFromShift(p: string, y: string, sep: char, j: nat)
    requires j <= |y|
    ensures SplitFrom(p + y, sep, |p| + j) == SplitFrom(y, sep, j)
    decreases |y| - j
  {
    var s := p + y;
    var k := IndexOf(y, sep, j);
    IndexOfShift(p, y, sep, j);
    SliceShift(p, y, j, k);
    if k < |y| {
      SplitFromShift(p, y, sep, k + 1);
    }
  }

  lemma SliceShift(p: string, y: string, j: nat, k: nat)
    requires j <= k <= |y|
    ensures (p + y)[|p| + j..|p| + k] == y[j..k]
    ensures (p + y)[|p| + j..] == y[j..]
  {
  }

  lemma {:induction false} IndexOfShift(p: string, y: string, c: char, j: nat)
    requires j <= |y|
    ensures IndexOf(p + y, c, |p| + j) == |p| + IndexOf(y, c, j)
    decreases |y| - j
  {
    if j < |y| {
      assert (p + y)[|p| + j] == y[j];
      if y[j] != c {
        IndexOfShift(p, y, c, j + 1);
      }
    }
  }

  /** Where c does not occur, the search passes over it. */
  lemma {:induction false} IndexOfSkip(s: string, c: char, from: nat, to: nat)
    requires from <= to <= |s|
    requires forall k | from <= k < to :: s[k] != c
    ensures IndexOf(s, c, from) == IndexOf(s, c, to)
    decreases |s| - from
  {
    if from < to {
      IndexOfSkip(s, c, from + 1, to);
    }
  }

  /** The first piece of x + y, when x holds no separator, is x followed by
      the first piece of y. */
  lemma SplitHeadAppend(x: string, y: string, sep: char)
    requires sep !in x
    ensures Split(x + y, sep)[0] == x + Split(y, sep)[0]
  {
    var s := x + y;
    assert forall k | 0 <= k < |x| :: s[k] == x[k];
    IndexOfSkip(s, sep, 0, |x|);
    IndexOfShift(x, y, sep, 0);
    var k := IndexOf(y, sep, 0);
    assert s[0..|x| + k] == x + y[0..k];
    if k == |y| {
      assert s[0..] == s[0..|x| + k];
    }
  }

  /** A piece after a leading separator starts empty. */
  lemma SplitHeadAtSep(y: string, sep: char)
    requires y != [] && y[0] == sep
    ensures Split(y, sep)[0] == ""
  {
  }

  /** Without a separator there is a single piece. */
  lemma SplitNoSep(y: string, sep: char)
    requires sep !in y
    ensures Split(y, sep)[0] == y
  {
    IndexOfSkip(y, sep, 0, |y|);
    assert y[0..] == y;
  }

  /** Joining lines that hold no separator and splitting the text again gives
      those lines back, whatever further pieces follow them. */
  lemma {:induction false} JoinSplitPrefix(a: seq<string>, b: seq<string>, sep: char)
    requires forall i | 0 <= i < |a| :: sep !in a[i]
    requires b != []
    ensures |Split(Join(a + b, [sep]), sep)| >= |a|
    ensures Split(Join(a + b, [sep]), sep)[..|a|] == a
  {
    if a != [] {
      var rest := a[1..] + b;
      assert a + b == [a[0]] + rest;
      assert (a + b)[1..] == rest;
      JoinSplitPrefix(a[1..], b, sep);
      SplitAfterLine(a[0], Join(rest, [sep]), sep);
      assert Join(a + b, [sep]) == a[0] + [sep] + Join(rest, [sep]);
    }
  }

  /** Python rstrip(c) for one character: drops every trailing c. */
  function TrimEndChar(s: string, c: char): (r: string)
    ensures |r| <= |s| && r == s[..|r|]
    ensures r == [] || r[|r| - 1] != c
    ensures forall i | |r| <= i < |s| :: s[i] == c
    decreases |s|
  {
    if s != [] && s[|s| - 1] == c then TrimEndChar(s[..|s| - 1], c) else s
  }

  /** Python strip(cs): drops the characters of cs from both ends. */
  function StripChars(s: string, cs: string): (r: string)
    ensures |r| <= |s|
    ensures r != [] ==> r[0] !in cs && r[|r| - 1] !in cs
    decreases |s|
  {
    if s == [] then s
    else if s[0] in cs then StripChars(s[1..], cs)
    else if s[|s| - 1] in cs then StripChars(s[..|s| - 1], cs)
    else s
  }

  /** Python title() on ASCII text: a letter is upper-cased when it starts a
      run of letters and lower-cased otherwise; other characters are kept. */
  function TitleCase(s: string): (r: string)
    ensures |r| == |s|
  {
    seq(|s|, i requires 0 <= i < |s| =>
      if IsLetterChar(s[i]) then
        (if i > 0 && IsLetterChar(s[i - 1]) then LowerChar(s[i]) else UpperChar(s[i]))
      else s[i])
  }

  /** Title casing changes only the case of letters. */
  lemma TitleCaseOnlyChangesCase(s: string)
    ensures Lower(TitleCase(s)) == Lower(s)
  {
    var t := TitleCase(s);
    forall i | 0 <= i < |s|
      ensures LowerChar(t[i]) == LowerChar(s[i])
    {
    }
  }

  /** A letter is a capital exactly when it starts a run of letters: it is
      the first character or follows a non-letter. */
  predicate CapitalisedWords(t: string) {
    forall i | 0 <= i < |t| && IsLetterChar(t[i]) :: IsUpperChar(t[i]) <==> (i == 0 || !IsLetterChar(t[i - 1]))
  }

  lemma TitleCaseCapitals(s: string)
    ensures CapitalisedWords(TitleCase(s))
  {
    var t := TitleCase(s);
    forall i | 0 <= i < |t| && IsLetterChar(t[i])
      ensures IsUpperChar(t[i]) <==> (i == 0 || !IsLetterChar(t[i - 1]))
    {
      assert IsLetterChar(s[i]);
      if i > 0 {
        assert IsLetterChar(t[i - 1]) <==> IsLetterChar(s[i - 1]);
      }
    }
  }

  /** Maximal runs of non-whitespace characters (Python str.split() with no
      argument). */
  function Words(s: string): (r: seq<string>)
    ensures forall w | w in r :: w != [] && forall i | 0 <= i < |w| :: !IsSpace(w[i])
    decreases |s|
  {
    var t := TrimStart(s);
    if t == [] then []
    else
      TrimStartShape(s);
      var k := FirstSpace(t, 0);
      assert forall i | 0 <= i < k :: !IsSpace(t[..k][i]);
      [t[..k]] + Words(t[k..])
  }

  /** The index of the first whitespace character at or after from, or |s|. */
  function FirstSpace(s: string, from: nat): (r: nat)
    requires from <= |s|
    ensures from <= r <= |s|
    ensures r < |s| ==> IsSpace(s[r])
    ensures forall k | from <= k < r :: !IsSpace(s[k])
    decreases |s| - from
  {
    if from == |s| || IsSpace(s[from]) then from else FirstSpace(s, from + 1)
  }

  /** The first n elements, or all of them when there are fewer (Python s[:n],
      JS slice(0, n)). */
  function Take<T>(s: seq<T>, n: nat): (r: seq<T>)
    ensures |r| <= n && |r| <= |s|
    ensures |r| == n || |r| == |s|
    ensures r == s[..|r|]
  {
    if |s| <= n then s else s[..n]
  }

  /** Replaces every occurrence of the character c by the string rep. */
  function ReplaceChar(s: string, c: char, rep: string): (r: string)
    ensures c !in rep ==> c !in r
  {
    if s == [] then []
    else (if s[0] == c then rep else [s[0]]) + ReplaceChar(s[1..], c, rep)
  }

  lemma ReplaceCharAppend(a: string, b: string, c: char, rep: string)
    ensures ReplaceChar(a + b, c, rep) == ReplaceChar(a, c, rep) + ReplaceChar(b, c, rep)
  {
    if a != [] {
      assert (a + b)[1..] == a[1..] + b;
      ReplaceCharAppend(a[1..], b, c, rep);
    } else {
      assert a + b == b;
    }
  }

  function DigitChar(d: nat): (c: char)
    requires d < 10
    ensures IsDigitChar(c)
  {
    ['0', '1', '2', '3', '4', '5', '6', '7', '8', '9'][d]
  }

  /** Decimal notation of a natural number (Python str(n), JS String(n)). */
  function NatToString(n: nat): (r: string)
    ensures |r| >= 1
    ensures forall i | 0 <= i < |r| :: IsDigitChar(r[i])
    decreases n
  {
    if n < 10 then [DigitChar(n)] else NatToString(n / 10) + [DigitChar(n % 10)]
  }

  function IntToString(n: int): (r: string)
    ensures |r| >= 1
    ensures forall i | 0 <= i < |r| :: IsDigitChar(r[i]) || (i == 0 && r[i] == '-')
  {
    if n < 0 then "-" + NatToString(-n) else NatToString(n)
  }

  lemma IntTextOneLine(n: int)
    ensures '\n' !in IntToString(n)
  {
    var r := IntToString(n);
    forall k | 0 <= k < |r| ensures r[k] != '\n' {
      assert IsDigitChar(r[k]) || r[k] == '-';
    }
  }

  /** Lexicographic order on code points (Python's default string order). */
  predicate StrLe(a: string, b: string)
    decreases |a|
  {
    a == [] || (b != [] && (a[0] < b[0] || (a[0] == b[0] && StrLe(a[1..], b[1..]))))
  }

  lemma {:induction false} StrLeTotal(a: string, b: string)
    ensures StrLe(a, b) || StrLe(b, a)
    decreases |a|
  {
    if a != [] && b != [] && a[0] == b[0] {
      StrLeTotal(a[1..], b[1..]);
    }
  }

  lemma {:induction false} StrLeTransitive(a: string, b: string, c: string)
    requires StrLe(a, b) && StrLe(b, c)
    ensures StrLe(a, c)
    decreases |a|
  {
    if a != [] && b != [] && c != [] && a[0] == b[0] && b[0] == c[0] {
      StrLeTransitive(a[1..], b[1..], c[1..]);
    }
  }

  lemma {:induction false} StrLeAntisymmetric(a: string, b: string)
    requires StrLe(a, b) && StrLe(b, a)
    ensures a == b
    decreases |a|
  {
    if a != [] && b != [] {
      StrLeAntisymmetric(a[1..], b[1..]);
      assert a == [a[0]] + a[1..];
      assert b == [b[0]] + b[1..];
    }
  }

  /** Stripping keeps every character of the result from the original, so a
      property no character of s has, no character of Trim(s) has. */
  lemma TrimKeepsOut(s: string, bad: char -> bool)
    requires forall i | 0 <= i < |s| :: !bad(s[i])
    ensures forall i | 0 <= i < |Trim(s)| :: !bad(Trim(s)[i])
  {
    TrimShape(s);
    var r := Trim(s);
    var a := |s| - |TrimStart(s)|;
    forall k | 0 <= k < |r| ensures !bad(r[k]) {
      assert r[k] == s[a + k];
    }
  }

  /** Lines joined, followed by the separator and more text, split back into
      those lines and the pieces of the text. */
  lemma {:induction false} JoinThenSplit(a: seq<string>, tail: string, sep: char)
    requires a != []
    requires forall i | 0 <= i < |a| :: sep !in a[i]
    ensures Split(Join(a, [sep]) + [sep] + tail, sep) == a + Split(tail, sep)
  {
    if |a| == 1 {
      SplitAfterLine(a[0], tail, sep);
    } else {
      var rest := a[1..];
      JoinThenSplit(rest, tail, sep);
      assert Join(a, [sep]) + [sep] + tail == a[0] + [sep] + (Join(rest, [sep]) + [sep] + tail);
      SplitAfterLine(a[0], Join(rest, [sep]) + [sep] + tail, sep);
      assert a == [a[0]] + rest;
    }
  }
}
