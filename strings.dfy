/**
 * String helpers with Python semantics: `sep.join`, `str.split(sep)`,
 * `str.strip()`, `str(int)`, ASCII `lower`/`upper`, prefix/suffix tests
 * and the code-point order that Python's `sorted` uses on `str`.
 */
module Strings {
  import opened Wrappers

  // ---------------------------------------------------------------- basics

  predicate StartsWith(s: string, prefix: string) {
    |prefix| <= |s| && s[..|prefix|] == prefix
  }

  predicate EndsWith(s: string, suffix: string) {
    |suffix| <= |s| && s[|s| - |suffix|..] == suffix
  }

  /** `sub` occurs in `s` starting at index `p`. */
  predicate OccursAt(s: string, sub: string, p: int) {
    0 <= p && p + |sub| <= |s| && s[p..p + |sub|] == sub
  }

  /** Python's `sub in s`. */
  predicate Contains(s: string, sub: string) {
    exists p :: 0 <= p <= |s| && OccursAt(s, sub, p)
  }

  /** No line break in `s`: what Python's regex `.*` can span. */
  predicate NoNewline(s: string) {
    '\n' !in s
  }

  /** Python's `sep.join(xs)`. */
  function Join(xs: seq<string>, sep: string): (r: string)
    ensures xs == [] ==> r == ""
    ensures |xs| == 1 ==> r == xs[0]
  {
    if |xs| == 0 then ""
    else if |xs| == 1 then xs[0]
    else xs[0] + sep + Join(xs[1..], sep)
  }

  lemma {:induction false} JoinSnoc(xs: seq<string>, x: string, sep: string)
    requires xs != []
    ensures Join(xs + [x], sep) == Join(xs, sep) + sep + x
  {
    if |xs| == 1 {
      assert xs + [x] == [xs[0], x];
    } else {
      assert (xs + [x])[1..] == xs[1..] + [x];
      JoinSnoc(xs[1..], x, sep);
    }
  }

  /** A character in neither the items nor the separator is not in their join. */
  lemma {:induction false} JoinExcludes(c: char, xs: seq<string>, sep: string)
    requires c !in sep
    requires forall i :: 0 <= i < |xs| ==> c !in xs[i]
    ensures c !in Join(xs, sep)
  {
    if |xs| > 1 {
      JoinExcludes(c, xs[1..], sep);
    }
  }

  /** Python's `s[k:]`: never fails, empty once `k` is past the end. */
  function DropPrefix(s: string, k: nat): (r: string)
    ensures |s| <= k ==> r == ""
    ensures k <= |s| ==> r == s[k..]
  {
    if k <= |s| then s[k..] else ""
  }

  // --------------------------------------------------------- split on sep

  /** Index of the first occurrence of `sep` in `s`. */
  function FindSep(s: string, sep: string): (r: Option<nat>)
    requires sep != ""
    ensures r.Some? ==> OccursAt(s, sep, r.value)
    ensures r.Some? ==> forall p :: 0 <= p < r.value ==> !OccursAt(s, sep, p)
    ensures r.None? ==> forall p :: !OccursAt(s, sep, p)
    decreases |s|
  {
    if |s| < |sep| then None
    else if s[..|sep|] == sep then Some(0)
    else
      ShiftOccurs(s, sep);
      match FindSep(s[1..], sep)
      case None => None
      case Some(i) => Some(i + 1)
  }

  lemma ShiftOccurs(s: string, sep: string)
    requires s != []
    ensures forall p :: p >= 1 ==> (OccursAt(s, sep, p) <==> OccursAt(s[1..], sep, p - 1))
  {
    forall p | p >= 1
      ensures OccursAt(s, sep, p) <==> OccursAt(s[1..], sep, p - 1)
    {
      if p + |sep| <= |s| {
        assert s[p..p + |sep|] == s[1..][p - 1..p - 1 + |sep|];
      }
    }
  }

  /** Python's `s.split(sep)` for a non-empty separator. */
  function Split(s: string, sep: string): (r: seq<string>)
    requires sep != ""
    ensures |r| >= 1
    decreases |s|
  {
    match FindSep(s, sep)
    case None => [s]
    case Some(i) => [s[..i]] + Split(s[i + |sep|..], sep)
  }

  /**
   * `sep` does not start inside `x` when `x` is followed by `sep`: then
   * splitting a join never cuts an item in two.
   */
  predicate NoSepInside(x: string, sep: string) {
    forall p :: 0 <= p < |x| ==> !OccursAt(x + sep, sep, p)
  }

  /** An item without the separator's first character cannot hold the separator. */
  lemma NoLeadCharNoSep(x: string, sep: string)
    requires sep != "" && sep[0] !in x
    ensures NoSepInside(x, sep)
  {
    forall q | 0 <= q < |x|
      ensures !OccursAt(x + sep, sep, q)
    {
      assert (x + sep)[q] == x[q];
    }
  }

  lemma FindSepAfterItem(x: string, sep: string, rest: string)
    requires sep != "" && NoSepInside(x, sep)
    ensures FindSep(x + sep + rest, sep) == Some(|x|)
  {
    var s := x + sep + rest;
    assert s[|x|..|x| + |sep|] == sep;
    assert OccursAt(s, sep, |x|);
    forall p | 0 <= p < |x|
      ensures !OccursAt(s, sep, p)
    {
      assert !OccursAt(x + sep, sep, p);
      assert s[p..p + |sep|] == (x + sep)[p..p + |sep|];
    }
  }

  lemma FindSepInLastItem(x: string, sep: string)
    requires sep != "" && NoSepInside(x, sep)
    ensures FindSep(x, sep) == None
  {
    forall p | OccursAt(x, sep, p)
      ensures OccursAt(x + sep, sep, p)
    {
      assert x[p..p + |sep|] == (x + sep)[p..p + |sep|];
    }
  }

  /** Splitting a join on the same separator gives the items back. */
  lemma {:induction false} SplitJoin(xs: seq<string>, sep: string)
    requires sep != "" && |xs| >= 1
    requires forall i :: 0 <= i < |xs| ==> NoSepInside(xs[i], sep)
    ensures Split(Join(xs, sep), sep) == xs
  {
    if |xs| == 1 {
      FindSepInLastItem(xs[0], sep);
    } else {
      var rest := Join(xs[1..], sep);
      FindSepAfterItem(xs[0], sep, rest);
      var s := xs[0] + sep + rest;
      assert s[..|xs[0]|] == xs[0];
      assert s[|xs[0]| + |sep|..] == rest;
      SplitJoin(xs[1..], sep);
    }
  }

  // ------------------------------------------------------------ whitespace

  /** The characters for which Python's `str.isspace()` holds. */
  predicate IsPySpace(c: char) {
    c == ' ' || ('\t' <= c <= '\r') || ('\U{1C}' <= c <= '\U{1F}') ||
    c == '\U{85}' || c == '\U{A0}' || c == '\U{1680}' || ('\U{2000}' <= c <= '\U{200A}') ||
    c == '\U{2028}' || c == '\U{2029}' || c == '\U{202F}' || c == '\U{205F}' || c == '\U{3000}'
  }

  function StripLeading(s: string): (r: string)
    ensures r == [] || !IsPySpace(r[0])
    ensures exists k :: 0 <= k <= |s| && r == s[k..]
    decreases |s|
  {
    if |s| > 0 && IsPySpace(s[0]) then
      var r := StripLeading(s[1..]);
      ghost var k :| 0 <= k <= |s[1..]| && r == s[1..][k..];
      assert r == s[k + 1..];
      r
    else
      assert s == s[0..];
      s
  }

  function StripTrailing(s: string): (r: string)
    ensures r == [] || !IsPySpace(r[|r| - 1])
    ensures exists k :: 0 <= k <= |s| && r == s[..k]
    decreases |s|
  {
    if |s| > 0 && IsPySpace(s[|s| - 1]) then
      var r := StripTrailing(s[..|s| - 1]);
      ghost var k :| 0 <= k <= |s| - 1 && r == s[..|s| - 1][..k];
      assert r == s[..k];
      r
    else
      assert s == s[..|s|];
      s
  }

  /** Python's `s.strip()` with no argument. */
  function Strip(s: string): (r: string)
    ensures r == [] || (!IsPySpace(r[0]) && !IsPySpace(r[|r| - 1]))
    ensures |r| <= |s|
  {
    var l := StripLeading(s);
    var r := StripTrailing(l);
    ghost var k :| 0 <= k <= |l| && r == l[..k];
    assert r != [] ==> r[0] == l[0];
    r
  }

  // ------------------------------------------------------------ ASCII case

  function LowerChar(c: char): char {
    if 'A' <= c <= 'Z' then (c as int + 32) as char else c
  }

  function UpperChar(c: char): char {
    if 'a' <= c <= 'z' then (c as int - 32) as char else c
  }

  /** `str.lower()` restricted to ASCII letters. */
  function Lower(s: string): (r: string)
    ensures |r| == |s|
    ensures forall i :: 0 <= i < |s| ==> r[i] == LowerChar(s[i])
  {
    seq(|s|, i requires 0 <= i < |s| => LowerChar(s[i]))
  }

  /** A name without upper-case ASCII letters is its own lower-case form. */
  lemma LowerOfLower(s: string)
    requires forall i :: 0 <= i < |s| ==> !('A' <= s[i] <= 'Z')
    ensures Lower(s) == s
  {
  }

  /** `str.upper()` restricted to ASCII letters. */
  function Upper(s: string): (r: string)
    ensures |r| == |s|
    ensures forall i :: 0 <= i < |s| ==> r[i] == UpperChar(s[i])
  {
    seq(|s|, i requires 0 <= i < |s| => UpperChar(s[i]))
  }

  // ------------------------------------------------------- str() of an int

  predicate IsDigit(c: char) { '0' <= c <= '9' }

  function DigitChar(d: nat): (c: char)
    requires d < 10
    ensures IsDigit(c) && c as int - '0' as int == d
  {
    ('0' as int + d) as char
  }

  /** Decimal rendering of a natural number, as Python's `str`/`%d`. */
  function NatToString(n: nat): string
    decreases n
  {
    if n < 10 then [DigitChar(n)] else NatToString(n / 10) + [DigitChar(n % 10)]
  }

  /** Decimal rendering of an integer, as Python's `str`/`%d`. */
  function IntToString(i: int): string {
    if i < 0 then "-" + NatToString(-i) else NatToString(i)
  }

  /** A decimal rendering is made of a sign and digits only. */
  lemma {:induction false} NatToStringDigits(n: nat)
    ensures forall i :: 0 <= i < |NatToString(n)| ==> IsDigit(NatToString(n)[i])
    decreases n
  {
    if n >= 10 {
      NatToStringDigits(n / 10);
    }
  }

  lemma IntToStringHasNoBackslash(i: int)
    ensures '\\' !in IntToString(i)
  {
    NatToStringDigits(if i < 0 then -i else i);
  }

  /** `strip` leaves a text alone that neither starts nor ends with whitespace. */
  lemma StripUnchanged(s: string)
    requires s == [] || (!IsPySpace(s[0]) && !IsPySpace(s[|s| - 1]))
    ensures Strip(s) == s
  {
    assert StripLeading(s) == s;
    assert StripTrailing(s) == s;
  }

  /** A decimal rendering holds no line break, and `strip` leaves it as it is. */
  lemma IntToStringIsStripped(i: int)
    ensures NoNewline(IntToString(i))
    ensures Strip(IntToString(i)) == IntToString(i)
  {
    var n: nat := if i < 0 then -i else i;
    NatToStringDigits(n);
    var d := NatToString(n);
    assert |d| >= 1;
    var s := IntToString(i);
    var sign := if i < 0 then "-" else "";
    assert s == sign + d;
    forall k | 0 <= k < |s|
      ensures s[k] == '-' || IsDigit(s[k])
    {
      if k >= |sign| {
        assert s[k] == d[k - |sign|];
      }
    }
    SignOrDigitIsNoSpace(s[0]);
    SignOrDigitIsNoSpace(s[|s| - 1]);
    StripUnchanged(s);
    SignsAndDigitsHaveNoNewline(s);
  }

  lemma SignOrDigitIsNoSpace(c: char)
    requires c == '-' || IsDigit(c)
    ensures !IsPySpace(c)
  {
  }

  lemma SignsAndDigitsHaveNoNewline(s: string)
    requires forall k :: 0 <= k < |s| ==> s[k] == '-' || IsDigit(s[k])
    ensures NoNewline(s)
  {
    forall k | 0 <= k < |s|
      ensures s[k] != '\n'
    {
    }
  }

  /** Value of a string of decimal digits. */
  function DigitsValue(s: string): nat
    requires forall k :: 0 <= k < |s| ==> IsDigit(s[k])
  {
    if s == [] then 0
    else
      assert IsDigit(s[|s| - 1]);
      DigitsValue(s[..|s| - 1]) * 10 + (s[|s| - 1] as int - '0' as int)
  }

  /** Rendering is digits only, has no leading zero, and reads back as `n`. */
  lemma {:induction false} NatToStringRoundTrip(n: nat)
    ensures var s := NatToString(n);
      |s| >= 1 && (forall k :: 0 <= k < |s| ==> IsDigit(s[k])) &&
      (s[0] == '0' ==> n == 0) && DigitsValue(s) == n
    decreases n
  {
    if n >= 10 {
      NatToStringRoundTrip(n / 10);
      var s := NatToString(n);
      assert s[..|s| - 1] == NatToString(n / 10);
    }
  }

  lemma NatToStringInjective(m: nat, n: nat)
    requires NatToString(m) == NatToString(n)
    ensures m == n
  {
    NatToStringRoundTrip(m);
    NatToStringRoundTrip(n);
  }

  // ------------------------------------------------- code-point string order

  /** `a <= b` on Python strings: lexicographic over code points. */
  predicate StrLe(a: string, b: string)
    decreases |a|
  {
    a == [] || (b != [] && (a[0] < b[0] || (a[0] == b[0] && StrLe(a[1..], b[1..]))))
  }

  lemma {:induction false} StrLeReflexive(a: string)
    ensures StrLe(a, a)
    decreases |a|
  {
    if a != [] {
      StrLeReflexive(a[1..]);
    }
  }

  lemma {:induction false} StrLeTotal(a: string, b: string)
    ensures StrLe(a, b) || StrLe(b, a)
    decreases |a|
  {
    if a != [] && b != [] && a[0] == b[0] {
      StrLeTotal(a[1..], b[1..]);
    }
  }

  lemma {:induction false} StrLeAntisymmetric(a: string, b: string)
    requires StrLe(a, b) && StrLe(b, a)
    ensures a == b
    decreases |a|
  {
    if a != [] && b != [] {
      StrLeAntisymmetric(a[1..], b[1..]);
      assert a == [a[0]] + a[1..];
      assert b == [b[0]] + b[1..];
    }
  }

  lemma {:induction false} StrLeTransitive(a: string, b: string, c: string)
    requires StrLe(a, b) && StrLe(b, c)
    ensures StrLe(a, c)
    decreases |a|
  {
    if a != [] && b != [] && c != [] && a[0] == b[0] && b[0] == c[0] {
      StrLeTransitive(a[1..], b[1..], c[1..]);
    }
  }
}
