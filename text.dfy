/**
 * The JavaScript string operations the core relies on, restated over `seq<char>`:
 * `toLowerCase` (ASCII letters only), the `\s` / `trim()` whitespace class,
 * `includes`, `join`, `split` on one character, and the decimal rendering of a
 * count inside a template literal.
 */
module Text {

  // ---------------------------------------------------------------------------
  // toLowerCase

  function LowerChar(c: char): char {
    if 'A' <= c <= 'Z' then (c as int + 32) as char else c
  }

  /** `s.toLowerCase()`, on ASCII letters. */
  function Lower(s: string): (r: string)
    ensures |r| == |s|
    ensures forall i :: 0 <= i < |s| ==> r[i] == LowerChar(s[i])
  {
    if s == [] then [] else [LowerChar(s[0])] + Lower(s[1..])
  }

  /** Lower-casing twice is lower-casing once. */
  lemma LowerIdempotent(s: string)
    ensures Lower(Lower(s)) == Lower(s)
  {
    var once := Lower(s);
    var twice := Lower(once);
    assert |twice| == |once|;
    forall i | 0 <= i < |once|
      ensures twice[i] == once[i]
    {
      assert LowerChar(LowerChar(s[i])) == LowerChar(s[i]);
    }
  }

  // ---------------------------------------------------------------------------
  // Whitespace: the `\s` regular-expression class and what `trim()` removes
  // (ECMAScript WhiteSpace and LineTerminator code points).

  predicate IsSpace(c: char) {
    || c == ' ' || c == '\t' || c == '\n' || c == '\r'
    || c == '\U{000B}' || c == '\U{000C}' || c == '\U{00A0}' || c == '\U{1680}'
    || ('\U{2000}' <= c <= '\U{200A}')
    || c == '\U{2028}' || c == '\U{2029}' || c == '\U{202F}' || c == '\U{205F}'
    || c == '\U{3000}' || c == '\U{FEFF}'
  }

  /** Every character of `s` is whitespace (the empty string included). */
  predicate Blank(s: string) {
    forall i :: 0 <= i < |s| ==> IsSpace(s[i])
  }

  /** `s.trimStart()`. */
  function TrimStart(s: string): (r: string)
    ensures |r| <= |s| && r == s[|s| - |r|..]
    ensures Blank(s[..|s| - |r|])
    ensures r == [] || !IsSpace(r[0])
  {
    if s != [] && IsSpace(s[0]) then TrimStart(s[1..]) else s
  }

  /** `s.trimEnd()`. */
  function TrimEnd(s: string): (r: string)
    ensures |r| <= |s| && r == s[..|r|]
    ensures Blank(s[|r|..])
    ensures r == [] || !IsSpace(r[|r| - 1])
  {
    if s != [] && IsSpace(s[|s| - 1]) then
      var r := TrimEnd(s[..|s| - 1]);
      assert s[..|r|] == s[..|s| - 1][..|r|];
      assert s[|r|..] == s[..|s| - 1][|r|..] + [s[|s| - 1]];
      r
    else s
  }

  /** `s.trim()`. */
  function Trim(s: string): string {
    TrimEnd(TrimStart(s))
  }

  /** A blank string is empty or begins with white space. */
  lemma BlankHead(s: string)
    requires Blank(s)
    ensures s == [] || IsSpace(s[0])
  {
  }

  /** `!s.trim()` holds exactly for the blank strings. */
  lemma TrimEmptyIffBlank(s: string)
    ensures Trim(s) == "" <==> Blank(s)
  {
    var t := TrimStart(s);
    var k := |s| - |t|;
    if Trim(s) == "" {
      assert Blank(t[|TrimEnd(t)|..]);
      assert t[|TrimEnd(t)|..] == t;
      BlankHead(t);
      assert k == |s|;
      assert s[..k] == s;
    } else {
      assert t != [] && !IsSpace(t[0]);
      assert s[k] == t[0];
    }
  }

  // ---------------------------------------------------------------------------
  // includes

  /** `s.includes(sub)`. */
  function Includes(s: string, sub: string): bool
    decreases |s|
  {
    if |sub| > |s| then false
    else s[..|sub|] == sub || Includes(s[1..], sub)
  }

  ghost predicate OccursAt(s: string, sub: string, i: int) {
    0 <= i && i + |sub| <= |s| && s[i..i + |sub|] == sub
  }

  /** `includes` finds `sub` exactly when it occurs somewhere in `s`. */
  lemma {:induction false} IncludesIff(s: string, sub: string)
    ensures Includes(s, sub) <==> exists i :: OccursAt(s, sub, i)
    decreases |s|
  {
    if |sub| > |s| {
    } else if s[..|sub|] == sub {
      assert OccursAt(s, sub, 0);
    } else {
      IncludesIff(s[1..], sub);
      if Includes(s[1..], sub) {
        var j :| OccursAt(s[1..], sub, j);
        assert s[1..][j..j + |sub|] == s[j + 1..j + 1 + |sub|];
        assert OccursAt(s, sub, j + 1);
      }
      if i :| OccursAt(s, sub, i) {
        assert i != 0;
        assert s[1..][i - 1..i - 1 + |sub|] == s[i..i + |sub|];
        assert OccursAt(s[1..], sub, i - 1);
      }
    }
  }

  // ---------------------------------------------------------------------------
  // join and split

  /** `xs.join(sep)`. */
  function Join(xs: seq<string>, sep: string): string
    decreases |xs|
  {
    if |xs| == 0 then ""
    else if |xs| == 1 then xs[0]
    else xs[0] + sep + Join(xs[1..], sep)
  }

  /** Joining a concatenation puts one separator between the two joined halves. */
  lemma {:induction false} JoinAppend(xs: seq<string>, ys: seq<string>, sep: string)
    requires xs != [] && ys != []
    ensures Join(xs + ys, sep) == Join(xs, sep) + sep + Join(ys, sep)
    decreases |xs|
  {
    if |xs| == 1 {
      assert (xs + ys)[1..] == ys;
    } else {
      JoinAppend(xs[1..], ys, sep);
      assert (xs + ys)[1..] == xs[1..] + ys;
    }
  }

  /** With a non-empty separator, only `[]` and `[""]` join to the empty string. */
  lemma JoinEmptyIff(xs: seq<string>, sep: string)
    requires sep != ""
    ensures Join(xs, sep) == "" <==> xs == [] || xs == [""]
  {
    if |xs| >= 2 {
      assert |Join(xs, sep)| >= |sep|;
    }
  }

  /** `s.split(sep)` for a one-character separator: the maximal separator-free pieces. */
  function Split(s: string, sep: char): (r: seq<string>)
    ensures |r| > 0
    ensures forall i :: 0 <= i < |r| ==> sep !in r[i]
    decreases |s|
  {
    if s == [] then [""]
    else
      var rest := Split(s[1..], sep);
      if s[0] == sep then [""] + rest else [[s[0]] + rest[0]] + rest[1..]
  }

  /** A string without the separator splits into itself alone. */
  lemma {:induction false} SplitWithoutSep(s: string, sep: char)
    requires sep !in s
    ensures Split(s, sep) == [s]
    decreases |s|
  {
    if s != [] {
      SplitWithoutSep(s[1..], sep);
      assert [s[0]] + s[1..] == s;
    }
  }

  /** Splitting and re-joining with the same separator gives back the string. */
  lemma {:induction false} JoinSplit(s: string, sep: char)
    ensures Join(Split(s, sep), [sep]) == s
    decreases |s|
  {
    if s != [] {
      var rest := Split(s[1..], sep);
      JoinSplit(s[1..], sep);
      if s[0] == sep {
        assert ([""] + rest)[1..] == rest;
      } else if |rest| == 1 {
      } else {
        var r := [[s[0]] + rest[0]] + rest[1..];
        assert r[1..] == rest[1..];
      }
    }
  }

  // ---------------------------------------------------------------------------
  // Decimal rendering of a count (`${n}` in a template literal)

  predicate IsDigit(c: char) {
    '0' <= c <= '9'
  }

  predicate AllDigits(s: string) {
    forall i :: 0 <= i < |s| ==> IsDigit(s[i])
  }

  function DigitChar(d: nat): (c: char)
    requires d < 10
  {
    ('0' as int + d) as char
  }

  /** `${n}` for a non-negative integer: its decimal digits, most significant first. */
  function NatToString(n: nat): (r: string)
    ensures r != "" && AllDigits(r)
    decreases n
  {
    if n < 10 then [DigitChar(n)] else NatToString(n / 10) + [DigitChar(n % 10)]
  }

  /** The value of a string of decimal digits. */
  function ParseDigits(s: string): nat
    requires AllDigits(s)
  {
    if s == [] then 0
    else ParseDigits(s[..|s| - 1]) * 10 + (s[|s| - 1] as int - '0' as int)
  }

  /** The decimal rendering reads back as the same number. */
  lemma {:induction false} ParseNatToString(n: nat)
    ensures ParseDigits(NatToString(n)) == n
    decreases n
  {
    if n >= 10 {
      ParseNatToString(n / 10);
      var s := NatToString(n);
      assert s[..|s| - 1] == NatToString(n / 10);
    }
  }

  lemma NatToStringInjective(a: nat, b: nat)
    requires NatToString(a) == NatToString(b)
    ensures a == b
  {
    ParseNatToString(a);
    ParseNatToString(b);
  }

  /**
   * A run of digits followed by text that starts with a non-digit is read
   * unambiguously: two such decompositions of one string agree.
   */
  lemma {:induction false} DigitRunUnique(d1: string, r1: string, d2: string, r2: string)
    requires AllDigits(d1) && AllDigits(d2)
    requires r1 != [] && !IsDigit(r1[0]) && r2 != [] && !IsDigit(r2[0])
    requires d1 + r1 == d2 + r2
    ensures d1 == d2 && r1 == r2
    decreases |d1|
  {
    if d1 == [] || d2 == [] {
      // the first characters agree, and only an empty run leaves a non-digit there
      assert (d1 + r1)[0] == (d2 + r2)[0];
      assert d1 == [] && d2 == [];
      assert d1 + r1 == r1 && d2 + r2 == r2;
    } else {
      assert (d1 + r1)[0] == d1[0] && (d2 + r2)[0] == d2[0];
      assert (d1 + r1)[1..] == d1[1..] + r1;
      assert (d2 + r2)[1..] == d2[1..] + r2;
      DigitRunUnique(d1[1..], r1, d2[1..], r2);
      assert d1 == [d1[0]] + d1[1..];
      assert d2 == [d2[0]] + d2[1..];
    }
  }

  /** `prefix + ${n} + suffix` determines `n` when the suffix starts with a non-digit. */
  lemma CountInTemplate(prefix: string, a: nat, ra: string, b: nat, rb: string)
    requires ra != [] && !IsDigit(ra[0]) && rb != [] && !IsDigit(rb[0])
    requires prefix + NatToString(a) + ra == prefix + NatToString(b) + rb
    ensures a == b && ra == rb
  {
    var x := prefix + NatToString(a) + ra;
    assert x[|prefix|..] == NatToString(a) + ra;
    assert (prefix + NatToString(b) + rb)[|prefix|..] == NatToString(b) + rb;
    DigitRunUnique(NatToString(a), ra, NatToString(b), rb);
    NatToStringInjective(a, b);
  }

  /** Regrouping a five-part concatenation around its second part. */
  lemma Regroup(a: string, b: string, c: string, d: string, e: string)
    ensures a + b + c + d + e == a + b + (c + d + e)
  {
  }

  /** `${a} ... ${b} ...` with texts between them that start with a non-digit determines both counts. */
  lemma TwoCountsInTemplate(start: string, middle: string, end: string, a1: nat, b1: nat, a2: nat, b2: nat)
    requires middle != [] && !IsDigit(middle[0]) && end != [] && !IsDigit(end[0])
    requires start + NatToString(a1) + middle + NatToString(b1) + end
          == start + NatToString(a2) + middle + NatToString(b2) + end
    ensures a1 == a2 && b1 == b2
  {
    var r1, r2 := middle + NatToString(b1) + end, middle + NatToString(b2) + end;
    Regroup(start, NatToString(a1), middle, NatToString(b1), end);
    Regroup(start, NatToString(a2), middle, NatToString(b2), end);
    assert r1[0] == middle[0] && r2[0] == middle[0];
    CountInTemplate(start, a1, r1, a2, r2);
    CountInTemplate(middle, b1, end, b2, end);
  }
}
