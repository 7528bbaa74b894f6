/**
 * The Python string operations the preprocessing relies on (str.strip, str.lower,
 * str.replace, str.title, str.split), restricted to ASCII, and the enumeration of
 * a set of strings as a list.
 */
module Text {
  import opened Basics

  /** The ASCII characters for which Python's str.isspace holds. */
  predicate IsSpace(c: char) {
    9 <= c as int <= 13 || 28 <= c as int <= 32
  }

  predicate IsUpper(c: char) { 'A' <= c <= 'Z' }

  predicate IsLower(c: char) { 'a' <= c <= 'z' }

  predicate IsLetter(c: char) { IsUpper(c) || IsLower(c) }

  function LowerChar(c: char): char {
    if IsUpper(c) then (c as int + 32) as char else c
  }

  function UpperChar(c: char): char {
    if IsLower(c) then (c as int - 32) as char else c
  }

  predicate AllSpace(s: string) {
    forall i :: 0 <= i < |s| ==> IsSpace(s[i])
  }

  /** Neither the first nor the last character is whitespace. */
  predicate NoSurroundingSpace(s: string) {
    s == [] || (!IsSpace(s[0]) && !IsSpace(s[|s| - 1]))
  }

  // ---------------------------------------------------------------- str.lower

  /** str.lower on ASCII. */
  function Lower(s: string): (r: string)
    ensures |r| == |s|
    ensures forall i :: 0 <= i < |r| ==> !IsUpper(r[i])
    ensures forall i :: 0 <= i < |r| ==> (IsLetter(r[i]) <==> IsLetter(s[i]))
    ensures forall i :: 0 <= i < |r| ==> (IsSpace(r[i]) <==> IsSpace(s[i]))
    ensures forall i :: 0 <= i < |r| && !IsUpper(s[i]) ==> r[i] == s[i]
    ensures forall i :: 0 <= i < |r| ==> r[i] == LowerChar(s[i])
  {
    seq(|s|, i requires 0 <= i < |s| => LowerChar(s[i]))
  }

  // ---------------------------------------------------------------- str.strip

  /** str.lstrip(): drops the leading whitespace. */
  function StripLeft(s: string): (r: string)
    ensures |r| <= |s| && r == s[|s| - |r|..]
    ensures AllSpace(s[..|s| - |r|])
    ensures r == [] || !IsSpace(r[0])
  {
    if s == [] || !IsSpace(s[0]) then s
    else
      var r := StripLeft(s[1..]);
      assert s[1..][|s| - 1 - |r|..] == s[|s| - |r|..];
      AllSpaceCons(s[0], s[1..][..|s| - 1 - |r|]);
      assert [s[0]] + s[1..][..|s| - 1 - |r|] == s[..|s| - |r|];
      r
  }

  /** str.rstrip(): drops the trailing whitespace. */
  function StripRight(s: string): (r: string)
    ensures |r| <= |s| && r == s[..|r|]
    ensures AllSpace(s[|r|..])
    ensures r == [] || !IsSpace(r[|r| - 1])
  {
    if s == [] || !IsSpace(s[|s| - 1]) then s
    else
      var r := StripRight(s[..|s| - 1]);
      assert s[..|s| - 1][..|r|] == s[..|r|];
      AllSpaceSnoc(s[..|s| - 1][|r|..], s[|s| - 1]);
      assert s[..|s| - 1][|r|..] + [s[|s| - 1]] == s[|r|..];
      r
  }

  lemma AllSpaceCons(c: char, w: string)
    requires IsSpace(c) && AllSpace(w)
    ensures AllSpace([c] + w)
  {
    forall i | 0 <= i < |w| + 1 ensures IsSpace(([c] + w)[i]) {
      if i > 0 {
        assert ([c] + w)[i] == w[i - 1];
      }
    }
  }

  lemma AllSpaceSnoc(w: string, c: char)
    requires AllSpace(w) && IsSpace(c)
    ensures AllSpace(w + [c])
  {
    forall i | 0 <= i < |w| + 1 ensures IsSpace((w + [c])[i]) {
      if i < |w| {
        assert (w + [c])[i] == w[i];
      }
    }
  }

  /** str.strip(): drops the leading and the trailing whitespace. */
  function Strip(s: string): (r: string)
    ensures |r| <= |s|
    ensures NoSurroundingSpace(r)
  {
    StripRight(StripLeft(s))
  }

  lemma {:induction false} StripLeftSpacePrefix(w: string, a: string)
    requires AllSpace(w)
    ensures StripLeft(w + a) == StripLeft(a)
    decreases |w|
  {
    if w != [] {
      var wa := w + a;
      assert wa[1..] == w[1..] + a;
      assert wa != [] && IsSpace(wa[0]);
      assert StripLeft(wa) == StripLeft(wa[1..]);
      StripLeftSpacePrefix(w[1..], a);
    } else {
      assert w + a == a;
    }
  }

  lemma {:induction false} StripRightSpaceSuffix(a: string, w: string)
    requires AllSpace(w)
    ensures StripRight(a + w) == StripRight(a)
    decreases |w|
  {
    if w != [] {
      assert (a + w)[..|a + w| - 1] == a + w[..|w| - 1];
      StripRightSpaceSuffix(a, w[..|w| - 1]);
    } else {
      assert a + w == a;
    }
  }

  lemma {:induction false} StripLeftSpaceSuffix(a: string, w: string)
    requires AllSpace(w)
    ensures StripLeft(a + w) == if StripLeft(a) == [] then [] else StripLeft(a) + w
    decreases |a|
  {
    var aw := a + w;
    if a == [] {
      StripLeftSpacePrefix(w, []);
      assert aw == w + [];
      assert StripLeft(aw) == StripLeft([]);
    } else if IsSpace(a[0]) {
      assert aw[0] == a[0] && aw[1..] == a[1..] + w;
      assert StripLeft(aw) == StripLeft(aw[1..]);
      assert StripLeft(a) == StripLeft(a[1..]);
      StripLeftSpaceSuffix(a[1..], w);
    } else {
      assert aw[0] == a[0];
      assert StripLeft(aw) == aw && StripLeft(a) == a;
    }
  }

  /**
   * Strip removes exactly the surrounding whitespace: whatever whitespace is
   * added around a string, stripping gives the same result.
   */
  lemma StripIgnoresSurroundingSpace(pre: string, a: string, post: string)
    requires AllSpace(pre) && AllSpace(post)
    ensures Strip(pre + a + post) == Strip(a)
  {
    var x := pre + a + post;
    assert x == pre + (a + post);
    StripLeftSpacePrefix(pre, a + post);
    StripLeftBeforeSpace(a, post);
    assert StripRight(StripLeft(a + post)) == StripRight(StripLeft(a));
  }

  /** Whitespace after a string does not survive its strip from both ends. */
  lemma StripLeftBeforeSpace(a: string, post: string)
    requires AllSpace(post)
    ensures StripRight(StripLeft(a + post)) == StripRight(StripLeft(a))
  {
    StripLeftSpaceSuffix(a, post);
    var l := StripLeft(a);
    if l != [] {
      StripRightSpaceSuffix(l, post);
    }
  }

  /** A string with no surrounding whitespace is its own strip. */
  lemma StripKeepsTrimmed(a: string)
    requires NoSurroundingSpace(a)
    ensures Strip(a) == a
  {
  }

  lemma {:induction false} StripLeftLower(s: string)
    ensures StripLeft(Lower(s)) == Lower(StripLeft(s))
    decreases |s|
  {
    if s != [] && IsSpace(s[0]) {
      assert Lower(s)[1..] == Lower(s[1..]);
      StripLeftLower(s[1..]);
    }
  }

  lemma {:induction false} StripRightLower(s: string)
    ensures StripRight(Lower(s)) == Lower(StripRight(s))
    decreases |s|
  {
    if s != [] && IsSpace(s[|s| - 1]) {
      assert Lower(s)[..|s| - 1] == Lower(s[..|s| - 1]);
      StripRightLower(s[..|s| - 1]);
    }
  }

  /** Stripping and lower-casing commute. */
  lemma StripLowerCommute(s: string)
    ensures Strip(Lower(s)) == Lower(Strip(s))
  {
    StripLeftLower(s);
    StripRightLower(StripLeft(s));
  }

  // ---------------------------------------------------------------- str.replace

  /** `pat` occurs somewhere in `s`. */
  predicate Occurs(s: string, pat: string) {
    exists i :: 0 <= i <= |s| && OccursAt(s, pat, i)
  }

  predicate OccursAt(s: string, pat: string, i: int) {
    0 <= i && i + |pat| <= |s| && s[i..i + |pat|] == pat
  }

  /** str.replace(pat, rep): every leftmost, non-overlapping occurrence of `pat` replaced. */
  function ReplaceAll(s: string, pat: string, rep: string): (r: string)
    requires pat != []
    decreases |s|
  {
    if |s| < |pat| then s
    else if s[..|pat|] == pat then rep + ReplaceAll(s[|pat|..], pat, rep)
    else [s[0]] + ReplaceAll(s[1..], pat, rep)
  }

  /** Replacing a whole string by `rep` gives `rep`. */
  lemma ReplaceWhole(s: string, rep: string)
    requires s != []
    ensures ReplaceAll(s, s, rep) == rep
  {
    assert s[..|s|] == s && s[|s|..] == [];
    assert rep + [] == rep;
  }

  /** A string as long as the pattern but different from it is left as it is. */
  lemma ReplaceOtherOfSameLength(s: string, pat: string, rep: string)
    requires pat != [] && |s| == |pat| && s != pat
    ensures ReplaceAll(s, pat, rep) == s
  {
    assert s[..|pat|] == s;
    assert ReplaceAll(s[1..], pat, rep) == s[1..];
    assert [s[0]] + s[1..] == s;
  }

  /** A string that does not contain the pattern is left as it is. */
  lemma {:induction false} ReplaceAbsent(s: string, pat: string, rep: string)
    requires pat != [] && !Occurs(s, pat)
    ensures ReplaceAll(s, pat, rep) == s
    decreases |s|
  {
    if |s| >= |pat| {
      assert !OccursAt(s, pat, 0);
      if Occurs(s[1..], pat) {
        var i :| 0 <= i <= |s[1..]| && OccursAt(s[1..], pat, i);
        assert 0 <= i && i + |pat| <= |s| - 1;
        assert s[i + 1..i + 1 + |pat|] == s[1..][i..i + |pat|];
        assert OccursAt(s, pat, i + 1);
        assert false;
      }
      ReplaceAbsent(s[1..], pat, rep);
    }
  }

  /**
   * The first occurrence is the one replaced: when `pat` does not occur before the
   * copy of it that follows `u` (nor overlapping its start), that copy becomes `rep`,
   * `u` is kept, and the rest is rewritten in the same way.
   */
  lemma {:induction false} ReplaceAtFirst(u: string, pat: string, rep: string, v: string)
    requires pat != [] && !Occurs(u + pat[..|pat| - 1], pat)
    ensures ReplaceAll(u + pat + v, pat, rep) == u + rep + ReplaceAll(v, pat, rep)
    decreases |u|
  {
    var s := u + pat + v;
    if u == [] {
      assert s == pat + v;
      assert s[..|pat|] == pat && s[|pat|..] == v;
    } else {
      var w := u + pat[..|pat| - 1];
      FirstWindow(u, pat, v);
      assert !OccursAt(w, pat, 0);
      assert ReplaceAll(s, pat, rep) == [u[0]] + ReplaceAll(s[1..], pat, rep);
      var w' := u[1..] + pat[..|pat| - 1];
      assert w == [u[0]] + w';
      NotOccursInTail(u[0], w', pat);
      assert s[1..] == u[1..] + pat + v;
      ReplaceAtFirst(u[1..], pat, rep, v);
      assert [u[0]] + (u[1..] + rep + ReplaceAll(v, pat, rep)) == u + rep + ReplaceAll(v, pat, rep);
    }
  }

  /** With `u` non-empty, the first |pat| characters of u + pat + v lie within u + pat minus its last character. */
  lemma FirstWindow(u: string, pat: string, v: string)
    requires u != [] && pat != []
    ensures (u + pat + v)[..|pat|] == (u + pat[..|pat| - 1])[..|pat|]
  {
    var s, w := u + pat + v, u + pat[..|pat| - 1];
    forall k | 0 <= k < |pat| ensures s[k] == w[k] {
      if k >= |u| {
        assert s[k] == pat[k - |u|] && w[k] == pat[..|pat| - 1][k - |u|];
      }
    }
  }

  /** A pattern absent from a string is absent from its tail. */
  lemma NotOccursInTail(c: char, w: string, pat: string)
    requires !Occurs([c] + w, pat)
    ensures !Occurs(w, pat)
  {
    forall i | 0 <= i <= |w| ensures !OccursAt(w, pat, i) {
      assert !OccursAt([c] + w, pat, i + 1);
      if i + |pat| <= |w| {
        assert ([c] + w)[i + 1..i + 1 + |pat|] == w[i..i + |pat|];
      }
    }
  }

  /** A string shorter than the pattern cannot contain it. */
  lemma ShortNotOccurs(s: string, pat: string)
    requires |s| < |pat|
    ensures !Occurs(s, pat)
  {
    forall i | 0 <= i <= |s| ensures !OccursAt(s, pat, i) {
    }
  }

  /** A string lacking one of the pattern's characters is left as it is. */
  lemma {:induction false} ReplaceMissingChar(s: string, pat: string, rep: string, k: nat)
    requires k < |pat| && pat[k] !in s
    ensures ReplaceAll(s, pat, rep) == s
    decreases |s|
  {
    if |s| >= |pat| {
      assert s[..|pat|][k] == s[k];
      assert s == [s[0]] + s[1..];
      ReplaceMissingChar(s[1..], pat, rep, k);
    }
  }

  /** The result starts with a non-space when the input, pattern and replacement all do. */
  lemma ReplaceKeepsLeadingNonSpace(s: string, pat: string, rep: string)
    requires pat != [] && rep != [] && !IsSpace(rep[0])
    requires s != [] && !IsSpace(s[0])
    ensures ReplaceAll(s, pat, rep) != [] && !IsSpace(ReplaceAll(s, pat, rep)[0])
  {
  }

  /** The result ends with a non-space when the input, pattern and replacement all do. */
  lemma {:induction false} ReplaceKeepsTrailingNonSpace(s: string, pat: string, rep: string)
    requires pat != [] && rep != [] && !IsSpace(rep[|rep| - 1])
    requires s != [] && !IsSpace(s[|s| - 1])
    ensures ReplaceAll(s, pat, rep) != []
    ensures !IsSpace(ReplaceAll(s, pat, rep)[|ReplaceAll(s, pat, rep)| - 1])
    decreases |s|
  {
    var r := ReplaceAll(s, pat, rep);
    if |s| >= |pat| {
      if s[..|pat|] == pat {
        var rest := s[|pat|..];
        if |s| > |pat| {
          ReplaceKeepsTrailingNonSpace(rest, pat, rep);
          EndsNonSpaceConcat(rep, ReplaceAll(rest, pat, rep));
        } else {
          assert rest == [] && ReplaceAll(rest, pat, rep) == [];
          assert r == rep + [] == rep;
        }
      } else {
        var rest := s[1..];
        if |s| > 1 {
          assert !IsSpace(rest[|rest| - 1]);
          ReplaceKeepsTrailingNonSpace(rest, pat, rep);
          EndsNonSpaceConcat([s[0]], ReplaceAll(rest, pat, rep));
        } else {
          assert rest == [] && ReplaceAll(rest, pat, rep) == [];
          assert r == [s[0]] + [] == s;
        }
      }
    }
  }

  /** A concatenation ends with whatever its non-empty second part ends with. */
  lemma EndsNonSpaceConcat(a: string, b: string)
    requires b != [] && !IsSpace(b[|b| - 1])
    ensures a + b != [] && !IsSpace((a + b)[|a + b| - 1])
  {
    assert (a + b)[|a + b| - 1] == b[|b| - 1];
  }

  /**
   * Replacing preserves NoSurroundingSpace when the pattern and the replacement
   * both begin and end with non-space characters.
   */
  lemma ReplaceKeepsTrimmed(s: string, pat: string, rep: string)
    requires pat != [] && rep != [] && !IsSpace(rep[0]) && !IsSpace(rep[|rep| - 1])
    requires NoSurroundingSpace(s)
    ensures NoSurroundingSpace(ReplaceAll(s, pat, rep))
  {
    if s != [] {
      ReplaceKeepsLeadingNonSpace(s, pat, rep);
      ReplaceKeepsTrailingNonSpace(s, pat, rep);
    }
  }

  // ---------------------------------------------------------------- str.title

  /**
   * A letter that begins a run of letters is upper case and every other letter
   * is lower case (the result of str.title on ASCII).
   */
  predicate TitleCased(s: string) {
    forall i :: 0 <= i < |s| && IsLetter(s[i]) ==>
      (IsUpper(s[i]) <==> (i == 0 || !IsLetter(s[i - 1])))
  }

  /** `a` and `b` differ at most in the case of their letters. */
  predicate SameIgnoringCase(a: string, b: string) {
    |a| == |b| && forall i :: 0 <= i < |a| ==> LowerChar(a[i]) == LowerChar(b[i])
  }

  /** str.title scanning with a flag that says whether the previous character was a letter. */
  function TitleFrom(s: string, afterLetter: bool): (r: string)
    ensures |r| == |s|
    ensures forall i :: 0 <= i < |s| ==> LowerChar(r[i]) == LowerChar(s[i])
    ensures forall i :: 0 <= i < |s| ==> (IsLetter(r[i]) <==> IsLetter(s[i]))
    ensures |s| > 0 && IsLetter(s[0]) ==> (IsUpper(r[0]) <==> !afterLetter)
    ensures forall i :: 0 < i < |s| && IsLetter(s[i]) ==> (IsUpper(r[i]) <==> !IsLetter(s[i - 1]))
  {
    if s == [] then []
    else
      var c := if !IsLetter(s[0]) then s[0]
               else if afterLetter then LowerChar(s[0])
               else UpperChar(s[0]);
      [c] + TitleFrom(s[1..], IsLetter(s[0]))
  }

  /** str.title on ASCII. */
  function Title(s: string): (r: string)
    ensures TitleCased(r)
    ensures SameIgnoringCase(r, s)
    ensures forall i :: 0 <= i < |s| && !IsLetter(s[i]) ==> r[i] == s[i]
  {
    TitleFrom(s, false)
  }

  /** After a letter, a run of lower-case letters is left as it is. */
  lemma {:induction false} TitleFromLowerWord(s: string)
    requires forall i :: 0 <= i < |s| ==> IsLower(s[i])
    ensures TitleFrom(s, true) == s
    decreases |s|
  {
    if s != [] {
      TitleFromLowerWord(s[1..]);
      assert s == [s[0]] + s[1..];
    }
  }

  /** A lower-case word is title-cased by capitalising its first letter. */
  lemma TitleOfLowerWord(s: string)
    requires s != [] && forall i :: 0 <= i < |s| ==> IsLower(s[i])
    ensures Title(s) == [UpperChar(s[0])] + s[1..]
  {
    TitleFromLowerWord(s[1..]);
  }

  lemma TitleKeepsTrimmed(s: string)
    requires NoSurroundingSpace(s)
    ensures NoSurroundingSpace(Title(s))
  {
  }

  // ---------------------------------------------------------------- str.split

  /** The pieces joined back with `sep` between them (str.join). */
  function Join(parts: seq<string>, sep: char): string
    requires |parts| >= 1
  {
    if |parts| == 1 then parts[0] else parts[0] + [sep] + Join(parts[1..], sep)
  }

  /** str.split(sep) with an explicit separator. */
  function Split(s: string, sep: char): (r: seq<string>)
    ensures |r| >= 1
    ensures forall i :: 0 <= i < |r| ==> sep !in r[i]
    ensures Join(r, sep) == s
    decreases |s|
  {
    if s == [] then [[]]
    else
      assert s == [s[0]] + s[1..];
      var rest := Split(s[1..], sep);
      if s[0] == sep then [[]] + rest
      else
        var r := [[s[0]] + rest[0]] + rest[1..];
        assert r[1..] == rest[1..];
        r
  }

  /** There is one piece more than there are separators. */
  lemma {:induction false} SplitCount(s: string, sep: char)
    ensures |Split(s, sep)| == multiset(s)[sep] + 1
    decreases |s|
  {
    if s != [] {
      assert s == [s[0]] + s[1..];
      SplitCount(s[1..], sep);
    }
  }

  lemma SplitNonEmpty(t: string, sep: char)
    ensures Split(t, sep) == [[] + Split(t, sep)[0]] + Split(t, sep)[1..]
  {
    var r := Split(t, sep);
    assert [] + r[0] == r[0];
    assert r == [r[0]] + r[1..];
  }

  lemma SplitCons(c: char, u: string, sep: char)
    requires c != sep
    ensures Split([c] + u, sep) == [[c] + Split(u, sep)[0]] + Split(u, sep)[1..]
  {
    assert ([c] + u)[1..] == u;
  }

  lemma {:induction false} SplitPrefix(p: string, t: string, sep: char)
    requires sep !in p
    ensures Split(p + t, sep) == [p + Split(t, sep)[0]] + Split(t, sep)[1..]
    decreases |p|
  {
    if p == [] {
      assert p + t == t;
      SplitNonEmpty(t, sep);
    } else {
      var r := Split(t, sep);
      var u := p[1..] + t;
      assert p + t == [p[0]] + u;
      SplitPrefix(p[1..], t, sep);
      assert Split(u, sep) == [p[1..] + r[0]] + r[1..];
      SplitCons(p[0], u, sep);
      assert [p[0]] + (p[1..] + r[0]) == p + r[0];
    }
  }

  /** Splitting undoes joining pieces that do not contain the separator. */
  lemma {:induction false} SplitJoin(parts: seq<string>, sep: char)
    requires |parts| >= 1
    requires forall i :: 0 <= i < |parts| ==> sep !in parts[i]
    ensures Split(Join(parts, sep), sep) == parts
    decreases |parts|
  {
    if |parts| == 1 {
      SplitPrefix(parts[0], [], sep);
      assert parts[0] + [] == parts[0];
    } else {
      var tail := Join(parts[1..], sep);
      SplitJoin(parts[1..], sep);
      assert parts[0] + [sep] + tail == parts[0] + ([sep] + tail);
      SplitPrefix(parts[0], [sep] + tail, sep);
      assert ([sep] + tail)[1..] == tail;
      assert parts[0] + [] == parts[0];
    }
  }

  // ---------------------------------------------------------------- list(set)

  /** Lexicographic order on strings, used to fix one enumeration of a set. */
  predicate LexLe(a: string, b: string)
    decreases |a|
  {
    a == [] || (b != [] && (a[0] < b[0] || (a[0] == b[0] && LexLe(a[1..], b[1..]))))
  }

  lemma {:induction false} LexRefl(a: string)
    ensures LexLe(a, a)
    decreases |a|
  {
    if a != [] { LexRefl(a[1..]); }
  }

  lemma {:induction false} LexTotal(a: string, b: string)
    ensures LexLe(a, b) || LexLe(b, a)
    decreases |a|
  {
    if a != [] && b != [] && a[0] == b[0] { LexTotal(a[1..], b[1..]); }
  }

  lemma {:induction false} LexAntisym(a: string, b: string)
    ensures LexLe(a, b) && LexLe(b, a) ==> a == b
    decreases |a|
  {
    if a != [] && b != [] && a[0] == b[0] {
      LexAntisym(a[1..], b[1..]);
      assert a == [a[0]] + a[1..] && b == [b[0]] + b[1..];
    }
  }

  lemma {:induction false} LexTrans(a: string, b: string, c: string)
    requires LexLe(a, b) && LexLe(b, c)
    ensures LexLe(a, c)
    decreases |a|
  {
    if a != [] && b != [] && c != [] && a[0] == b[0] && b[0] == c[0] {
      LexTrans(a[1..], b[1..], c[1..]);
    }
  }

  lemma LexAntisymAll()
    ensures forall a, b :: LexLe(a, b) && LexLe(b, a) ==> a == b
  {
    forall a, b ensures LexLe(a, b) && LexLe(b, a) ==> a == b {
      LexAntisym(a, b);
    }
  }

  /** `m` is the least element of `s`. */
  predicate IsLeast(m: string, s: set<string>) {
    m in s && forall y :: y in s ==> LexLe(m, y)
  }

  lemma {:induction false} LeastExists(s: set<string>)
    requires s != {}
    ensures exists m :: IsLeast(m, s)
    decreases |s|
  {
    var x :| x in s;
    var rest := s - {x};
    if rest == {} {
      forall y | y in s ensures LexLe(x, y) {
        assert y !in rest;
        LexRefl(x);
      }
      assert IsLeast(x, s);
    } else {
      LeastExists(rest);
      var m :| IsLeast(m, rest);
      LexTotal(x, m);
      if LexLe(x, m) {
        forall y | y in s ensures LexLe(x, y) {
          if y == x { LexRefl(x); } else { assert y in rest; LexTrans(x, m, y); }
        }
        assert IsLeast(x, s);
      } else {
        forall y | y in s ensures LexLe(m, y) {
          if y != x { assert y in rest; }
        }
        assert IsLeast(m, s);
      }
    }
  }

  /** The least string of a non-empty set. */
  function Least(s: set<string>): (m: string)
    requires s != {}
    ensures IsLeast(m, s)
  {
    LeastExists(s);
    LexAntisymAll();
    var m :| IsLeast(m, s);
    m
  }

  /**
   * list(s) for a set of strings. Python's order is the set's iteration order,
   * which nothing downstream relies on; this model lists the set in ascending order.
   */
  function SetToSeq(s: set<string>): (r: seq<string>)
    ensures |r| == |s| && NoDup(r) && Elems(r) == s
    ensures forall i, j :: 0 <= i < j < |r| ==> LexLe(r[i], r[j])
    decreases |s|
  {
    if s == {} then []
    else
      var m := Least(s);
      var rest := SetToSeq(s - {m});
      ConsOrdered(m, rest, s);
      ConsNoDup(m, rest, s);
      ConsElems(m, rest, s);
      [m] + rest
  }

  lemma ConsOrdered(m: string, rest: seq<string>, s: set<string>)
    requires m in s && forall y :: y in s ==> LexLe(m, y)
    requires Elems(rest) == s - {m}
    requires forall i, j :: 0 <= i < j < |rest| ==> LexLe(rest[i], rest[j])
    ensures var r := [m] + rest; forall i, j :: 0 <= i < j < |r| ==> LexLe(r[i], r[j])
  {
    var r := [m] + rest;
    forall i, j | 0 <= i < j < |r| ensures LexLe(r[i], r[j]) {
      assert r[j] == rest[j - 1] && r[j] in Elems(rest);
      if i > 0 {
        assert r[i] == rest[i - 1];
      }
    }
  }

  lemma ConsNoDup(m: string, rest: seq<string>, s: set<string>)
    requires NoDup(rest) && Elems(rest) == s - {m}
    ensures NoDup([m] + rest)
  {
    var r := [m] + rest;
    forall i, j | 0 <= i < j < |r| ensures r[i] != r[j] {
      assert r[j] == rest[j - 1] && r[j] in Elems(rest);
      if i > 0 {
        assert r[i] == rest[i - 1];
      }
    }
  }

  lemma ConsElems(m: string, rest: seq<string>, s: set<string>)
    requires m in s
    requires |rest| == |s - {m}| && Elems(rest) == s - {m}
    ensures |[m] + rest| == |s| && Elems([m] + rest) == s
  {
    assert Elems([m] + rest) == {m} + Elems(rest);
  }
}
