/**
 * The two folding idioms the core repeats over lists of strings:
 *  - the ordered, duplicate-free union built by
 *    `for (const x of xs) if (!acc.includes(x)) acc.push(x)` (and by `Set.add`
 *    followed by `Array.from`, which keeps insertion order), and
 *  - keeping the longest non-empty string, where only a strictly longer one
 *    replaces the current value.
 * Each comes with an independent characterisation and a proof that the fold
 * meets it and is the only sequence (resp. string) that does.
 */
module Seqs {

  predicate NoDup<T(==,!new)>(s: seq<T>) {
    forall i, j :: 0 <= i < j < |s| ==> s[i] != s[j]
  }

  /** The lists of `ls` laid end to end. */
  function Concat<T>(ls: seq<seq<T>>): seq<T> {
    if ls == [] then [] else Concat(ls[..|ls| - 1]) + ls[|ls| - 1]
  }

  lemma ConcatSnoc<T>(ls: seq<seq<T>>, l: seq<T>)
    ensures Concat(ls + [l]) == Concat(ls) + l
  {
    assert (ls + [l])[..|ls|] == ls;
  }

  lemma {:induction false} ConcatAppend<T>(a: seq<seq<T>>, b: seq<seq<T>>)
    ensures Concat(a + b) == Concat(a) + Concat(b)
    decreases |b|
  {
    if b == [] {
      assert a + b == a;
    } else {
      var b', last := b[..|b| - 1], b[|b| - 1];
      calc {
        Concat(a + b);
        { assert a + b == (a + b') + [last]; }
        Concat((a + b') + [last]);
        { ConcatSnoc(a + b', last); }
        Concat(a + b') + last;
        { ConcatAppend(a, b'); }
        Concat(a) + Concat(b') + last;
        { ConcatSnoc(b', last); assert b == b' + [last]; }
        Concat(a) + Concat(b);
      }
    }
  }

  /** An empty list adds nothing to a concatenation, wherever it sits. */
  lemma ConcatDropEmpty<T>(a: seq<seq<T>>, b: seq<seq<T>>)
    ensures Concat(a + [[]] + b) == Concat(a + b)
  {
    ConcatAppend(a + [[]], b);
    ConcatSnoc(a, []);
    ConcatAppend(a, b);
  }

  /** An element is in the concatenation exactly when it is in one of the lists. */
  lemma {:induction false} ConcatMember<T>(ls: seq<seq<T>>, x: T)
    ensures x in Concat(ls) <==> exists i :: 0 <= i < |ls| && x in ls[i]
    decreases |ls|
  {
    if ls != [] {
      var init := ls[..|ls| - 1];
      ConcatMember(init, x);
      if x in Concat(init) {
        var i :| 0 <= i < |init| && x in init[i];
        assert ls[i] == init[i];
      }
      if i :| 0 <= i < |ls| && x in ls[i] {
        if i < |init| {
          assert init[i] == ls[i];
        }
      }
    }
  }

  // ---------------------------------------------------------------------------
  // Ordered union

  /** `acc` extended, in order, with each element of `xs` it does not yet hold. */
  function AddNew<T(==,!new)>(acc: seq<T>, xs: seq<T>): (r: seq<T>)
    ensures acc <= r
    ensures forall x :: x in r <==> x in acc || x in xs
    ensures NoDup(acc) ==> NoDup(r)
    decreases |xs|
  {
    if xs == [] then acc
    else
      var prev := AddNew(acc, xs[..|xs| - 1]);
      var x := xs[|xs| - 1];
      assert forall y :: y in xs <==> y in xs[..|xs| - 1] || y == x by {
        assert xs == xs[..|xs| - 1] + [x];
      }
      if x in prev then prev else prev + [x]
  }

  /** The loop `for (const x of xs) if (!acc.includes(x)) acc.push(x)`. */
  method AppendMissing<T(==,!new)>(acc: seq<T>, xs: seq<T>) returns (r: seq<T>)
    ensures r == AddNew(acc, xs)
  {
    r := acc;
    var i := 0;
    while i < |xs|
      invariant 0 <= i <= |xs|
      invariant r == AddNew(acc, xs[..i])
    {
      assert xs[..i + 1][..i] == xs[..i];
      if xs[i] !in r {
        r := r + [xs[i]];
      }
      i := i + 1;
    }
    assert xs[..|xs|] == xs;
  }

  /** Folding in `a` and then `b` is folding in `a + b`. */
  lemma {:induction false} AddNewAppend<T(!new)>(acc: seq<T>, a: seq<T>, b: seq<T>)
    ensures AddNew(AddNew(acc, a), b) == AddNew(acc, a + b)
    decreases |b|
  {
    if b == [] {
      assert a + b == a;
    } else {
      var b' := b[..|b| - 1];
      AddNewAppend(acc, a, b');
      assert (a + b)[..|a + b| - 1] == a + b';
    }
  }

  /** The elements of `s`, each once, in order of first occurrence. */
  function Distinct<T(==,!new)>(s: seq<T>): seq<T> {
    AddNew([], s)
  }

  /** Folding one more list into a distinct union of lists. */
  lemma DistinctConcatSnoc<T(!new)>(ls: seq<seq<T>>, l: seq<T>)
    ensures Distinct(Concat(ls + [l])) == AddNew(Distinct(Concat(ls)), l)
  {
    ConcatSnoc(ls, l);
    AddNewAppend([], Concat(ls), l);
  }

  /** The position of the first occurrence of `x` in `s`. */
  function FirstIndex<T(==,!new)>(s: seq<T>, x: T): (i: nat)
    requires x in s
    ensures i < |s| && s[i] == x && x !in s[..i]
  {
    if s[0] == x then 0
    else
      var i := 1 + FirstIndex(s[1..], x);
      assert s[..i] == [s[0]] + s[1..][..i - 1];
      i
  }

  lemma FirstIndexSnoc<T(!new)>(s: seq<T>, x: T, y: T)
    requires y in s
    ensures FirstIndex(s + [x], y) == FirstIndex(s, y)
  {
    var t := s + [x];
    var a, b := FirstIndex(t, y), FirstIndex(s, y);
    forall k | 0 <= k < a
      ensures t[k] != y
    {
      assert t[..a][k] == t[k];
    }
    forall k | 0 <= k < b
      ensures s[k] != y
    {
      assert s[..b][k] == s[k];
    }
    assert t[b] == y;
    assert a < |s| ==> t[a] == s[a];
  }

  lemma FirstIndexPrefix<T(!new)>(p: seq<T>, x: T)
    ensures forall y :: y in p ==> FirstIndex(p + [x], y) == FirstIndex(p, y)
  {
    forall y | y in p
      ensures FirstIndex(p + [x], y) == FirstIndex(p, y)
    {
      FirstIndexSnoc(p, x, y);
    }
  }

  /** The elements of `r` that occur in `s` appear in order of their first occurrence there. */
  ghost predicate FirstOccurrenceOrdered<T(!new)>(r: seq<T>, s: seq<T>) {
    forall i, j :: 0 <= i < j < |r| && r[i] in s && r[j] in s ==>
      FirstIndex(s, r[i]) < FirstIndex(s, r[j])
  }

  /** What an ordered duplicate-free union is, stated without the fold. */
  ghost predicate IsOrderedUnion<T(!new)>(r: seq<T>, s: seq<T>) {
    && NoDup(r)
    && (forall x :: x in r <==> x in s)
    && FirstOccurrenceOrdered(r, s)
  }

  /** The fold produces an ordered union ... */
  lemma {:induction false} DistinctIsOrderedUnion<T(!new)>(s: seq<T>)
    ensures IsOrderedUnion(Distinct(s), s)
    decreases |s|
  {
    if s != [] {
      var p, x := s[..|s| - 1], s[|s| - 1];
      assert s == p + [x];
      DistinctIsOrderedUnion(p);
      var dp := Distinct(p);
      forall y | y in p
        ensures FirstIndex(s, y) == FirstIndex(p, y)
      {
        FirstIndexSnoc(p, x, y);
      }
      if x !in dp {
        var d := Distinct(s);
        assert d == dp + [x];
        assert FirstIndex(s, x) == |p|;
        forall i, j | 0 <= i < j < |d|
          ensures FirstIndex(s, d[i]) < FirstIndex(s, d[j])
        {
          if j < |dp| {
            assert d[i] == dp[i] && d[j] == dp[j];
          } else {
            assert d[i] == dp[i] && d[i] in p;
          }
        }
      }
    }
  }

  /** An ordered union of `p + [x]`, for `x` already in `p`, is one of `p`. */
  lemma OrderedUnionSnocOld<T(!new)>(r: seq<T>, p: seq<T>, x: T)
    requires x in p && IsOrderedUnion(r, p + [x])
    ensures IsOrderedUnion(r, p)
  {
    FirstIndexPrefix(p, x);
    assert forall y :: y in p + [x] <==> y in p;
  }

  /** In an ordered union of `p + [x]`, for `x` new, `x` comes last. */
  lemma OrderedUnionLast<T(!new)>(r: seq<T>, p: seq<T>, x: T)
    requires x !in p && IsOrderedUnion(r, p + [x])
    ensures r != [] && r[|r| - 1] == x && x !in r[..|r| - 1]
  {
    var s := p + [x];
    FirstIndexPrefix(p, x);
    assert s[|p|] == x;
    assert FirstIndex(s, x) == |p|;
    assert x in r;
    var last := r[|r| - 1];
    assert last in s;
    assert FirstIndex(s, last) < |s|;
    forall k | 0 <= k < |r| - 1
      ensures r[k] != x
    {
      assert FirstIndex(s, r[k]) < FirstIndex(s, last);
    }
    var m :| 0 <= m < |r| && r[m] == x;
    assert m == |r| - 1;
  }

  /** An ordered union of `p + [x]`, for `x` new, ends in `x` after an ordered union of `p`. */
  lemma OrderedUnionSnocNew<T(!new)>(r: seq<T>, p: seq<T>, x: T)
    requires x !in p && IsOrderedUnion(r, p + [x])
    ensures r != [] && r[|r| - 1] == x && IsOrderedUnion(r[..|r| - 1], p)
  {
    OrderedUnionLast(r, p, x);
    var s := p + [x];
    FirstIndexPrefix(p, x);
    var r' := r[..|r| - 1];
    assert r == r' + [x];
    forall y
      ensures y in r' <==> y in p
    {
      assert y in s <==> y in p || y == x;
      assert y in r <==> y in r' || y == x;
    }
    forall i, j | 0 <= i < j < |r'| && r'[i] in p && r'[j] in p
      ensures FirstIndex(p, r'[i]) < FirstIndex(p, r'[j])
    {
      assert r'[i] == r[i] && r'[j] == r[j];
    }
  }

  /** One more element joins the distinct union exactly when it is new. */
  lemma DistinctSnoc<T(!new)>(p: seq<T>, x: T)
    ensures Distinct(p + [x]) == if x in p then Distinct(p) else Distinct(p) + [x]
  {
    assert (p + [x])[..|p|] == p;
  }

  lemma HeadIsMember<T>(r: seq<T>)
    ensures r != [] ==> r[0] in r
  {
  }

  /** ... and it is the only one: the three properties determine the result. */
  lemma {:induction false} OrderedUnionIsDistinct<T(!new)>(r: seq<T>, s: seq<T>)
    requires IsOrderedUnion(r, s)
    ensures r == Distinct(s)
    decreases |s|
  {
    if s == [] {
      HeadIsMember(r);
    } else {
      var p, x := s[..|s| - 1], s[|s| - 1];
      assert s == p + [x];
      DistinctSnoc(p, x);
      if x in p {
        OrderedUnionSnocOld(r, p, x);
        OrderedUnionIsDistinct(r, p);
      } else {
        OrderedUnionSnocNew(r, p, x);
        OrderedUnionIsDistinct(r[..|r| - 1], p);
        assert r == r[..|r| - 1] + [x];
      }
    }
  }

  // ---------------------------------------------------------------------------
  // Longest non-empty string, earliest wins ties

  /** `if (s && (!cur || s.length > cur.length)) cur = s`. */
  function Longer(cur: string, s: string): string {
    if s != "" && (cur == "" || |s| > |cur|) then s else cur
  }

  /** `Longer` folded over `ss` from the empty string. */
  function Longest(ss: seq<string>): string {
    if ss == [] then "" else Longer(Longest(ss[..|ss| - 1]), ss[|ss| - 1])
  }

  /** An empty candidate never wins, so inserting one anywhere changes nothing. */
  lemma {:induction false} LongestDropEmpty(a: seq<string>, b: seq<string>)
    ensures Longest(a + [""] + b) == Longest(a + b)
    decreases |b|
  {
    if b == [] {
      var c := a + [""];
      assert c[..|c| - 1] == a && c[|c| - 1] == "";
      assert Longest(c) == Longer(Longest(a), "");
      assert a + [""] + b == c && a + b == a;
    } else {
      var b', y := b[..|b| - 1], b[|b| - 1];
      LongestDropEmpty(a, b');
      assert (a + [""] + b)[..|a + [""] + b| - 1] == a + [""] + b';
      assert (a + b)[..|a + b| - 1] == a + b';
    }
  }

  /**
   * `r` is empty when every candidate is, and otherwise is a candidate of
   * maximal length with no candidate of that length before it.
   */
  ghost predicate IsEarliestLongest(r: string, ss: seq<string>) {
    && (forall j :: 0 <= j < |ss| ==> |ss[j]| <= |r|)
    && (r == "" <==> forall j :: 0 <= j < |ss| ==> ss[j] == "")
    && (r != "" ==> exists k :: 0 <= k < |ss| && ss[k] == r && forall j :: 0 <= j < k ==> |ss[j]| < |r|)
  }

  lemma {:induction false} LongestIsEarliestLongest(ss: seq<string>)
    ensures IsEarliestLongest(Longest(ss), ss)
    decreases |ss|
  {
    if ss != [] {
      var p, s := ss[..|ss| - 1], ss[|ss| - 1];
      LongestIsEarliestLongest(p);
      var cur := Longest(p);
      assert forall j :: 0 <= j < |p| ==> ss[j] == p[j];
      if s != "" && (cur == "" || |s| > |cur|) {
        forall j | 0 <= j < |ss| - 1
          ensures |ss[j]| < |s|
        {
          if cur == "" {
            assert p[j] == "";
          } else {
            assert |p[j]| <= |cur|;
          }
        }
        assert ss[|ss| - 1] == Longest(ss);
      } else if cur != "" {
        var k :| 0 <= k < |p| && p[k] == cur && forall j :: 0 <= j < k ==> |p[j]| < |cur|;
        assert ss[k] == cur;
      }
    }
  }

  lemma EarliestLongestUnique(r: string, ss: seq<string>)
    requires IsEarliestLongest(r, ss)
    ensures r == Longest(ss)
  {
    var l := Longest(ss);
    LongestIsEarliestLongest(ss);
    if r != "" {
      var k1 :| 0 <= k1 < |ss| && ss[k1] == r && forall j :: 0 <= j < k1 ==> |ss[j]| < |r|;
      var k2 :| 0 <= k2 < |ss| && ss[k2] == l && forall j :: 0 <= j < k2 ==> |ss[j]| < |l|;
      assert |r| == |l|;
      // each index is a candidate of the common length, so neither precedes the other
      assert |ss[k1]| == |l| && |ss[k2]| == |r|;
    }
  }
}
