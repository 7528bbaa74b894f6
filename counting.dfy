/**
 * Occurrence counters as the application builds them (a dict incremented with
 * `d[k] = d.get(k, 0) + 1`, or collections.Counter), and their ranking
 * (`sorted(..., key=lambda x: -x[1])[:n]`, `Counter.most_common(n)`).
 *
 * A Python dict remembers insertion order, and ranking is a stable sort, so ties
 * come out in the order their keys were first seen. A counter is therefore modelled
 * as a sequence of entries in insertion order.
 */
module Counting {
  import opened Basics

  datatype Entry = Entry(key: string, count: nat)

  function Keys(t: seq<Entry>): (r: seq<string>)
    ensures |r| == |t| && forall i :: 0 <= i < |t| ==> r[i] == t[i].key
  {
    seq(|t|, i requires 0 <= i < |t| => t[i].key)
  }

  predicate DistinctKeys(t: seq<Entry>) {
    forall i, j :: 0 <= i < j < |t| ==> t[i].key != t[j].key
  }

  /** The position of the first occurrence of `k` in `xs`. */
  function FirstIndex(xs: seq<string>, k: string): (r: nat)
    requires k in xs
    ensures r < |xs| && xs[r] == k && k !in xs[..r]
  {
    if xs[0] == k then 0 else 1 + FirstIndex(xs[1..], k)
  }

  lemma {:induction false} FirstIndexPrefix(xs: seq<string>, ys: seq<string>, k: string)
    requires k in xs
    ensures FirstIndex(xs + ys, k) == FirstIndex(xs, k)
    decreases |xs|
  {
    if xs[0] != k {
      assert (xs + ys)[1..] == xs[1..] + ys;
      FirstIndexPrefix(xs[1..], ys, k);
    }
  }

  // The four parts of "t is the counter of xs".

  /** Every key of `t` occurs in `xs`. */
  predicate KeysFrom(xs: seq<string>, t: seq<Entry>) {
    forall i :: 0 <= i < |t| ==> t[i].key in xs
  }

  /** Every element of `xs` is a key of `t`. */
  predicate Covers(xs: seq<string>, t: seq<Entry>) {
    forall k :: k in xs ==> k in Keys(t)
  }

  /** Every entry holds the number of occurrences of its key in `xs`. */
  predicate CountsOf(xs: seq<string>, t: seq<Entry>) {
    forall i :: 0 <= i < |t| ==> t[i].count == multiset(xs)[t[i].key]
  }

  /** The keys appear in the order of their first occurrence in `xs`. */
  predicate FirstSeenOrder(xs: seq<string>, t: seq<Entry>)
    requires KeysFrom(xs, t)
  {
    forall i, j :: 0 <= i < j < |t| ==> FirstIndex(xs, t[i].key) < FirstIndex(xs, t[j].key)
  }

  /**
   * `t` is the counter of `xs`: one entry per distinct element, each holding the
   * number of occurrences, with the keys in order of first occurrence.
   */
  predicate IsTallyOf(xs: seq<string>, t: seq<Entry>) {
    DistinctKeys(t) && KeysFrom(xs, t) && Covers(xs, t) && CountsOf(xs, t) && FirstSeenOrder(xs, t)
  }

  /** `d[x] = d.get(x, 0) + 1` on an insertion-ordered dict. */
  function Bump(t: seq<Entry>, x: string): seq<Entry> {
    if t == [] then [Entry(x, 1)]
    else if t[0].key == x then [Entry(x, t[0].count + 1)] + t[1..]
    else [t[0]] + Bump(t[1..], x)
  }

  /** A key not yet present is appended with count 1. */
  lemma {:induction false} BumpNew(t: seq<Entry>, x: string)
    requires x !in Keys(t)
    ensures Bump(t, x) == t + [Entry(x, 1)]
  {
    if t != [] {
      assert Keys(t)[0] == t[0].key;
      assert x !in Keys(t[1..]) by {
        forall i | 0 <= i < |t| - 1 ensures Keys(t[1..])[i] != x {
          assert Keys(t)[i + 1] == t[i + 1].key;
        }
      }
      BumpNew(t[1..], x);
    }
  }

  /** `b` is `t` with the count of key `x` raised by one, in place. */
  predicate Raised(t: seq<Entry>, x: string, b: seq<Entry>) {
    && |b| == |t|
    && forall i :: 0 <= i < |t| ==> b[i] == (if t[i].key == x then Entry(x, t[i].count + 1) else t[i])
  }

  /** A present key has its count raised by one, in place; nothing else changes. */
  lemma {:induction false} BumpExisting(t: seq<Entry>, x: string)
    requires DistinctKeys(t) && x in Keys(t)
    ensures Raised(t, x, Bump(t, x))
  {
    if t[0].key == x {
      BumpAtHead(t, x);
    } else {
      var rest := t[1..];
      assert Keys(t) == [t[0].key] + Keys(rest);
      DistinctTail(t);
      BumpExisting(rest, x);
      BumpPastHead(t, rest, x);
    }
  }

  lemma BumpAtHead(t: seq<Entry>, x: string)
    requires DistinctKeys(t) && t != [] && t[0].key == x
    ensures Raised(t, x, Bump(t, x))
  {
    var b := Bump(t, x);
    assert b == [Entry(x, t[0].count + 1)] + t[1..];
    forall i | 0 < i < |t| ensures t[i].key != x && b[i] == t[i] {
      assert t[0].key != t[i].key;
    }
  }

  lemma DistinctTail(t: seq<Entry>)
    requires DistinctKeys(t) && t != []
    ensures DistinctKeys(t[1..])
  {
    var rest := t[1..];
    forall i, j | 0 <= i < j < |rest| ensures rest[i].key != rest[j].key {
      assert rest[i] == t[i + 1] && rest[j] == t[j + 1];
    }
  }

  lemma BumpPastHead(t: seq<Entry>, rest: seq<Entry>, x: string)
    requires t != [] && rest == t[1..] && t[0].key != x
    requires Raised(rest, x, Bump(rest, x))
    ensures Raised(t, x, Bump(t, x))
  {
    var b, tail := Bump(t, x), Bump(rest, x);
    assert b == [t[0]] + tail;
    forall i | 0 < i < |t| ensures b[i] == (if t[i].key == x then Entry(x, t[i].count + 1) else t[i]) {
      assert b[i] == tail[i - 1] && t[i] == rest[i - 1];
    }
  }

  lemma BumpDistinct(t: seq<Entry>, x: string)
    requires DistinctKeys(t)
    ensures DistinctKeys(Bump(t, x))
  {
    if x in Keys(t) {
      BumpExisting(t, x);
    } else {
      BumpNew(t, x);
      forall i | 0 <= i < |t| ensures t[i].key != x {
        assert Keys(t)[i] == t[i].key;
      }
    }
  }

  lemma BumpCovers(xs: seq<string>, x: string, t: seq<Entry>)
    requires DistinctKeys(t) && KeysFrom(xs, t) && Covers(xs, t)
    ensures KeysFrom(xs + [x], Bump(t, x)) && Covers(xs + [x], Bump(t, x))
  {
    var ys := xs + [x];
    var r := Bump(t, x);
    if x in Keys(t) {
      BumpExisting(t, x);
      forall k | k in ys ensures k in Keys(r) {
        var i :| 0 <= i < |t| && Keys(t)[i] == (if k in xs then k else x);
        assert Keys(r)[i] == Keys(t)[i];
      }
    } else {
      BumpNew(t, x);
      forall k | k in ys ensures k in Keys(r) {
        if k in xs {
          var i :| 0 <= i < |t| && Keys(t)[i] == k;
          assert Keys(r)[i] == k;
        } else {
          assert Keys(r)[|t|] == x;
        }
      }
    }
  }

  lemma BumpCounts(xs: seq<string>, x: string, t: seq<Entry>)
    requires DistinctKeys(t) && Covers(xs, t) && CountsOf(xs, t)
    ensures CountsOf(xs + [x], Bump(t, x))
  {
    assert multiset(xs + [x]) == multiset(xs) + multiset{x};
    if x in Keys(t) {
      BumpExisting(t, x);
    } else {
      BumpNew(t, x);
      assert x !in xs;
      forall i | 0 <= i < |t| ensures t[i].key != x {
        assert Keys(t)[i] == t[i].key;
      }
    }
  }

  lemma BumpOrder(xs: seq<string>, x: string, t: seq<Entry>)
    requires DistinctKeys(t) && KeysFrom(xs, t) && Covers(xs, t) && FirstSeenOrder(xs, t)
    requires KeysFrom(xs + [x], Bump(t, x))
    ensures FirstSeenOrder(xs + [x], Bump(t, x))
  {
    var ys := xs + [x];
    forall k | k in xs ensures FirstIndex(ys, k) == FirstIndex(xs, k) {
      FirstIndexPrefix(xs, [x], k);
    }
    if x in Keys(t) {
      BumpExisting(t, x);
    } else {
      BumpNew(t, x);
      assert x !in xs;
      assert FirstIndex(ys, x) == |xs| by {
        assert ys[..|xs|] == xs;
        FirstIndexUnique(ys, x, |xs|);
      }
    }
  }

  /** Counting one more element keeps a counter a counter. */
  lemma BumpKeepsTally(xs: seq<string>, x: string, t: seq<Entry>)
    requires IsTallyOf(xs, t)
    ensures IsTallyOf(xs + [x], Bump(t, x))
  {
    BumpDistinct(t, x);
    BumpCovers(xs, x, t);
    BumpCounts(xs, x, t);
    BumpOrder(xs, x, t);
  }

  lemma {:induction false} FirstIndexUnique(xs: seq<string>, k: string, n: nat)
    requires n < |xs| && xs[n] == k && k !in xs[..n]
    ensures FirstIndex(xs, k) == n
    decreases n
  {
    if n > 0 {
      assert xs[0] != k by { assert xs[..n][0] == xs[0]; }
      assert xs[1..][n - 1] == k;
      assert xs[1..][..n - 1] == xs[..n][1..];
      FirstIndexUnique(xs[1..], k, n - 1);
    }
  }

  /** Counter(xs), counting the elements one after another. */
  function Tally(xs: seq<string>): seq<Entry> {
    if xs == [] then [] else Bump(Tally(xs[..|xs| - 1]), xs[|xs| - 1])
  }

  lemma TallySnoc(xs: seq<string>, x: string)
    ensures Tally(xs + [x]) == Bump(Tally(xs), x)
  {
    assert (xs + [x])[..|xs|] == xs;
  }

  /** Counter(xs) is the counter of xs: distinct keys in first-seen order, true counts. */
  lemma {:induction false} TallyIsTally(xs: seq<string>)
    ensures IsTallyOf(xs, Tally(xs))
    decreases |xs|
  {
    if xs != [] {
      var init := xs[..|xs| - 1];
      assert xs == init + [xs[|xs| - 1]];
      TallyIsTally(init);
      TallySnoc(init, xs[|xs| - 1]);
      BumpKeepsTally(init, xs[|xs| - 1], Tally(init));
    }
  }

  /** The counter's keys are exactly the elements counted. */
  lemma TallyKeys(xs: seq<string>, k: string)
    ensures k in Keys(Tally(xs)) <==> k in xs
  {
    var t := Tally(xs);
    TallyIsTally(xs);
    if k in Keys(t) {
      var i :| 0 <= i < |t| && Keys(t)[i] == k;
      assert t[i].key in xs;
    }
  }

  /** A counter has one entry per distinct element (len(counter) == len(set(xs))). */
  lemma TallySize(xs: seq<string>)
    ensures |Tally(xs)| == |Elems(xs)|
  {
    var t := Tally(xs);
    TallyIsTally(xs);
    var ks := Keys(t);
    assert NoDup(ks);
    NoDupCard(ks);
    assert Elems(ks) == Elems(xs);
  }

  /** The counter of the element lists, counted one list after another. */
  method CountOccurrences(lists: seq<seq<string>>) returns (t: seq<Entry>)
    ensures t == Tally(Flatten(lists))
  {
    t := [];
    for i := 0 to |lists|
      invariant t == Tally(Flatten(lists[..i]))
    {
      var done := Flatten(lists[..i]);
      assert done + lists[i][..0] == done;
      for j := 0 to |lists[i]|
        invariant t == Tally(done + lists[i][..j])
      {
        PrefixStep(done, lists[i], j);
        TallySnoc(done + lists[i][..j], lists[i][j]);
        t := Bump(t, lists[i][j]);
      }
      ListStep(lists, i);
    }
    assert lists[..|lists|] == lists;
  }

  /** The counter of the element lists, leaving out every occurrence of `skip`. */
  method CountOthers(lists: seq<seq<string>>, skip: string) returns (t: seq<Entry>)
    ensures t == Tally(Without(Flatten(lists), skip))
  {
    t := [];
    for i := 0 to |lists|
      invariant t == Tally(Without(Flatten(lists[..i]), skip))
    {
      var done := Flatten(lists[..i]);
      assert done + lists[i][..0] == done;
      for j := 0 to |lists[i]|
        invariant t == Tally(Without(done + lists[i][..j], skip))
      {
        var x := lists[i][j];
        PrefixStep(done, lists[i], j);
        TallyOthersSnoc(done + lists[i][..j], x, skip);
        if x != skip {
          t := Bump(t, x);
        }
      }
      ListStep(lists, i);
    }
    assert lists[..|lists|] == lists;
  }

  lemma ListStep(lists: seq<seq<string>>, i: nat)
    requires i < |lists|
    ensures Flatten(lists[..i + 1]) == Flatten(lists[..i]) + lists[i][..|lists[i]|]
  {
    assert lists[i][..|lists[i]|] == lists[i];
    assert lists[..i + 1] == lists[..i] + [lists[i]];
    FlattenSnoc(lists[..i], lists[i]);
  }

  lemma PrefixStep(done: seq<string>, l: seq<string>, j: nat)
    requires j < |l|
    ensures done + l[..j + 1] == (done + l[..j]) + [l[j]]
  {
    assert l[..j + 1] == l[..j] + [l[j]];
  }

  lemma TallyOthersSnoc(xs: seq<string>, x: string, skip: string)
    ensures x == skip ==> Tally(Without(xs + [x], skip)) == Tally(Without(xs, skip))
    ensures x != skip ==> Tally(Without(xs + [x], skip)) == Bump(Tally(Without(xs, skip)), x)
  {
    var ys := xs + [x];
    assert ys[..|ys| - 1] == xs && ys[|ys| - 1] == x;
    assert Without(ys, skip) == Without(xs, skip) + (if x == skip then [] else [x]);
    if x != skip {
      TallySnoc(Without(xs, skip), x);
    } else {
      assert Without(xs, skip) + [] == Without(xs, skip);
    }
  }

  /** The counter never has `skip` as a key and counts every other element fully. */
  lemma CountOthersExcludes(xs: seq<string>, skip: string)
    ensures skip !in Keys(Tally(Without(xs, skip)))
    ensures forall e :: e in Tally(Without(xs, skip)) ==> e.key != skip && e.count == multiset(xs)[e.key]
  {
    var t := Tally(Without(xs, skip));
    TallyIsTally(Without(xs, skip));
    forall e | e in t ensures e.key != skip && e.count == multiset(xs)[e.key] {
      var i :| 0 <= i < |t| && t[i] == e;
    }
  }

  // ------------------------------------------------------------------ ranking

  /** Counts never increase along the sequence. */
  predicate NonIncreasing(s: seq<Entry>) {
    forall i, j :: 0 <= i < j < |s| ==> s[i].count >= s[j].count
  }

  /** The entries holding count `c`, in order. */
  function WithCount(s: seq<Entry>, c: nat): seq<Entry> {
    if s == [] then [] else (if s[0].count == c then [s[0]] else []) + WithCount(s[1..], c)
  }

  /** Inserts `e` before the first entry whose count is not larger. */
  function InsertByCount(e: Entry, s: seq<Entry>): (r: seq<Entry>)
    ensures |r| == |s| + 1 && multiset(r) == multiset(s) + multiset{e}
  {
    if s == [] || s[0].count <= e.count then [e] + s
    else
      assert s == [s[0]] + s[1..];
      [s[0]] + InsertByCount(e, s[1..])
  }

  lemma {:induction false} InsertKeepsOrder(e: Entry, s: seq<Entry>)
    requires NonIncreasing(s)
    ensures NonIncreasing(InsertByCount(e, s))
    ensures InsertByCount(e, s)[0] == e || (s != [] && InsertByCount(e, s)[0] == s[0])
    decreases |s|
  {
    if s == [] || s[0].count <= e.count {
      ConsKeepsOrder(e, s);
    } else {
      var tail := InsertByCount(e, s[1..]);
      InsertKeepsOrder(e, s[1..]);
      // the tail starts with e or with s[1], and neither outranks s[0]
      assert tail[0] == e || tail[0] == s[1];
      ConsKeepsOrder(s[0], tail);
    }
  }

  /** An entry at least as large as the head of a sorted sequence may go in front of it. */
  lemma ConsKeepsOrder(x: Entry, s: seq<Entry>)
    requires NonIncreasing(s) && (s == [] || x.count >= s[0].count)
    ensures NonIncreasing([x] + s)
  {
    var r := [x] + s;
    forall i, j | 0 <= i < j < |r| ensures r[i].count >= r[j].count {
      if i == 0 {
        assert r[j] == s[j - 1];
      } else {
        assert r[i] == s[i - 1] && r[j] == s[j - 1];
      }
    }
  }

  lemma WithCountCons(x: Entry, s: seq<Entry>, c: nat)
    ensures WithCount([x] + s, c) == (if x.count == c then [x] else []) + WithCount(s, c)
  {
    assert ([x] + s)[1..] == s;
  }

  lemma {:induction false} InsertWithCount(e: Entry, s: seq<Entry>, c: nat)
    ensures WithCount(InsertByCount(e, s), c) == (if e.count == c then [e] else []) + WithCount(s, c)
    decreases |s|
  {
    if s == [] || s[0].count <= e.count {
      WithCountCons(e, s, c);
    } else {
      var mine := if e.count == c then [e] else [];
      var head := if s[0].count == c then [s[0]] else [];
      InsertWithCount(e, s[1..], c);
      WithCountCons(s[0], InsertByCount(e, s[1..]), c);
      assert s == [s[0]] + s[1..];
      WithCountCons(s[0], s[1..], c);
      // a collected s[0] has count c > e.count, so e itself is not collected
      assert head == [] || mine == [];
    }
  }

  /**
   * sorted(s, key=lambda x: -x[1]): counts in non-increasing order, and entries
   * with equal counts in their original order (the sort is stable).
   */
  function SortByCount(s: seq<Entry>): (r: seq<Entry>)
    ensures |r| == |s| && multiset(r) == multiset(s)
    ensures NonIncreasing(r)
    ensures forall c :: WithCount(r, c) == WithCount(s, c)
  {
    if s == [] then []
    else
      assert s == [s[0]] + s[1..];
      var rest := SortByCount(s[1..]);
      InsertKeepsOrder(s[0], rest);
      forall c ensures WithCount(InsertByCount(s[0], rest), c) == WithCount(s, c) {
        InsertWithCount(s[0], rest, c);
      }
      InsertByCount(s[0], rest)
  }

  lemma {:induction false} WithCountPrefix(s: seq<Entry>, k: nat, c: nat)
    requires k <= |s|
    ensures WithCount(s[..k], c) <= WithCount(s, c)
    decreases k
  {
    if k > 0 {
      assert s[..k][1..] == s[1..][..k - 1];
      WithCountPrefix(s[1..], k - 1, c);
    }
  }

  /**
   * How many entries every ranking of the application keeps: most_common(10),
   * head(10) and the ten-item sections of the report.
   */
  const TopN: nat := 10

  /**
   * most_common(n), and sorted(...)[:n]: at most n entries, non-increasing counts,
   * entries taken from the counter, and for every count the entries listed are
   * the first ones with that count in the counter's own order.
   */
  function MostCommon(t: seq<Entry>, n: nat): (r: seq<Entry>)
    ensures |r| == Min(n, |t|)
    ensures NonIncreasing(r)
    ensures multiset(r) <= multiset(t)
    ensures forall c :: WithCount(r, c) <= WithCount(t, c)
  {
    var s := SortByCount(t);
    var k := Min(n, |t|);
    PrefixOfSorted(s, k);
    s[..k]
  }

  /** A prefix of a sorted sequence is sorted and takes its entries from it. */
  lemma PrefixOfSorted(s: seq<Entry>, k: nat)
    requires k <= |s| && NonIncreasing(s)
    ensures NonIncreasing(s[..k])
    ensures multiset(s[..k]) <= multiset(s)
    ensures forall c :: WithCount(s[..k], c) <= WithCount(s, c)
  {
    assert s == s[..k] + s[k..];
    assert multiset(s) == multiset(s[..k]) + multiset(s[k..]);
    forall c ensures WithCount(s[..k], c) <= WithCount(s, c) {
      WithCountPrefix(s, k, c);
    }
  }

  /** No entry left out of most_common(n) has a larger count than one listed. */
  lemma MostCommonIsTop(t: seq<Entry>, n: nat, left: Entry, listed: Entry)
    requires left in t && left !in MostCommon(t, n)
    requires listed in MostCommon(t, n)
    ensures listed.count >= left.count
  {
    var s := SortByCount(t);
    var k := Min(n, |t|);
    assert MostCommon(t, n) == s[..k];
    assert left in multiset(s);
    var j :| 0 <= j < |s| && s[j] == left;
    var i :| 0 <= i < k && s[..k][i] == listed;
    forall m | 0 <= m < k ensures s[m] != left {
      assert s[..k][m] == s[m];
    }
    assert k <= j;
  }

  /** Ranking a counter lists each key at most once. */
  lemma MostCommonDistinct(t: seq<Entry>, n: nat)
    requires DistinctKeys(t)
    ensures DistinctKeys(MostCommon(t, n))
  {
    var r := MostCommon(t, n);
    forall i, j | 0 <= i < j < |r| ensures r[i].key != r[j].key {
      assert r[i] in multiset(t) && r[j] in multiset(t);
      var p :| 0 <= p < |t| && t[p] == r[i];
      var q :| 0 <= q < |t| && t[q] == r[j];
      DistinctCount(t, p);
      assert multiset(r)[r[i]] <= 1;
      OccursOnce(r, i, j);
      assert p != q;
    }
  }

  /** An element that occurs at most once is not repeated further on. */
  lemma OccursOnce(r: seq<Entry>, i: nat, j: nat)
    requires i < j < |r| && multiset(r)[r[i]] <= 1
    ensures r[i] != r[j]
  {
    assert r == r[..j] + r[j..];
    assert r[i] == r[..j][i] && r[j] == r[j..][0];
    assert multiset(r) == multiset(r[..j]) + multiset(r[j..]);
  }

  /** In a sequence with distinct keys every entry occurs exactly once. */
  lemma {:induction false} DistinctCount(t: seq<Entry>, p: nat)
    requires DistinctKeys(t) && p < |t|
    ensures multiset(t)[t[p]] == 1
    decreases |t|
  {
    assert t == [t[0]] + t[1..];
    if p == 0 {
      assert t[0] !in t[1..] by {
        forall q | 0 <= q < |t| - 1 ensures t[1..][q] != t[0] {
          assert t[q + 1].key != t[0].key;
        }
      }
    } else {
      assert t[p] == t[1..][p - 1];
      assert t[0] != t[p] by { assert t[0].key != t[p].key; }
      DistinctCount(t[1..], p - 1);
    }
  }

  /** Entries of most_common over a counter of `xs` carry the true counts. */
  lemma MostCommonCounts(xs: seq<string>, n: nat, e: Entry)
    requires e in MostCommon(Tally(xs), n)
    ensures e.key in xs && e.count == multiset(xs)[e.key]
  {
    var t := Tally(xs);
    var r := MostCommon(t, n);
    assert e in multiset(r);
    assert multiset(r)[e] <= multiset(t)[e];
    TallyEntry(xs, e);
  }

  lemma TallyEntry(xs: seq<string>, e: Entry)
    requires e in multiset(Tally(xs))
    ensures e.key in xs && e.count == multiset(xs)[e.key]
  {
    var t := Tally(xs);
    TallyIsTally(xs);
    var i :| 0 <= i < |t| && t[i] == e;
  }
}
