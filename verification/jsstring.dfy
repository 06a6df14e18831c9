/** The pieces of JavaScript string semantics the client's guards rely on:
    `String.prototype.trim`, truthiness of a string-or-null value, `charAt(0)`,
    `startsWith`, and the decimal rendering of a number in a template literal. */
module JsString {
  import opened Results

  /** The characters `String.prototype.trim` removes: the ECMAScript WhiteSpace
      set (tab, vertical tab, form feed, space, no-break space, the byte order
      mark and the Unicode space separators) and the LineTerminator set. */
  const Whitespace: set<char> := {
    '\t', '\n', '\U{B}', '\U{C}', '\r', ' ', '\U{A0}', '\U{1680}',
    '\U{2000}', '\U{2001}', '\U{2002}', '\U{2003}', '\U{2004}', '\U{2005}',
    '\U{2006}', '\U{2007}', '\U{2008}', '\U{2009}', '\U{200A}',
    '\U{2028}', '\U{2029}', '\U{202F}', '\U{205F}', '\U{3000}', '\U{FEFF}'
  }

  predicate IsWhitespace(c: char) {
    c in Whitespace
  }

  /** The reference meaning of "blank": every character is whitespace. */
  predicate Blank(s: string) {
    forall i :: 0 <= i < |s| ==> IsWhitespace(s[i])
  }

  /** A string that starts with whitespace is blank exactly when the rest is. */
  lemma BlankWithoutFirst(s: string)
    requires |s| > 0 && IsWhitespace(s[0])
    ensures Blank(s) <==> Blank(s[1..])
  {
    if Blank(s[1..]) {
      forall i | 0 <= i < |s| ensures IsWhitespace(s[i]) {
        if i > 0 { assert s[i] == s[1..][i - 1]; }
      }
    }
  }

  /** A string that ends with whitespace is blank exactly when the rest is. */
  lemma BlankWithoutLast(s: string)
    requires |s| > 0 && IsWhitespace(s[|s| - 1])
    ensures Blank(s) <==> Blank(s[..|s| - 1])
  {
    if Blank(s[..|s| - 1]) {
      forall i | 0 <= i < |s| ensures IsWhitespace(s[i]) {
        if i < |s| - 1 { assert s[i] == s[..|s| - 1][i]; }
      }
    }
  }

  /** A blank prefix of the rest, behind a leading whitespace character, is
      a blank prefix of the whole. */
  lemma BlankConsPrefix(s: string, m: nat)
    requires 0 < |s| && IsWhitespace(s[0]) && m <= |s| - 1 && Blank(s[1..][..m])
    ensures Blank(s[..m + 1])
  {
    var p, q := s[..m + 1], s[1..][..m];
    forall i | 0 <= i < |p| ensures IsWhitespace(p[i]) {
      if i > 0 { assert p[i] == q[i - 1]; }
    }
  }

  /** A blank suffix of the rest, before a trailing whitespace character,
      extends to a blank suffix of the whole. */
  lemma BlankSnocSuffix(s: string, m: nat)
    requires 0 < |s| && IsWhitespace(s[|s| - 1]) && m <= |s| - 1 && Blank(s[..|s| - 1][m..])
    ensures Blank(s[m..])
  {
    var p, q := s[m..], s[..|s| - 1][m..];
    forall i | 0 <= i < |p| ensures IsWhitespace(p[i]) {
      if i < |q| { assert p[i] == q[i]; }
    }
  }

  /** Drops leading whitespace; what is left is a suffix of `s`. */
  function TrimStart(s: string): (r: string)
    ensures |r| <= |s| && r == s[|s| - |r|..]
    ensures r == [] <==> Blank(s)
    ensures r != [] ==> !IsWhitespace(r[0])
  {
    if |s| > 0 && IsWhitespace(s[0]) then
      BlankWithoutFirst(s);
      var r := TrimStart(s[1..]);
      assert s[1..][|s| - 1 - |r|..] == s[|s| - |r|..];
      r
    else
      s
  }

  /** Drops trailing whitespace; what is left is a prefix of `s`. */
  function TrimEnd(s: string): (r: string)
    ensures |r| <= |s| && r == s[..|r|]
    ensures r == [] <==> Blank(s)
    ensures r != [] ==> !IsWhitespace(r[|r| - 1])
  {
    if |s| > 0 && IsWhitespace(s[|s| - 1]) then
      BlankWithoutLast(s);
      var r := TrimEnd(s[..|s| - 1]);
      assert s[..|s| - 1][..|r|] == s[..|r|];
      r
    else
      s
  }

  /** `String.prototype.trim`: whitespace removed at both ends. The result is
      empty exactly when the input is blank, and otherwise starts and ends with
      a character that is not whitespace. */
  function Trim(s: string): (r: string)
    ensures |r| <= |s|
    ensures r == [] <==> Blank(s)
    ensures r != [] ==> !IsWhitespace(r[0]) && !IsWhitespace(r[|r| - 1])
    ensures exists k :: Occurs(r, s, k)
  {
    var t := TrimStart(s);
    var r := TrimEnd(t);
    assert Occurs(r, s, |s| - |t|);
    r
  }

  /** What `TrimStart` drops is whitespace. */
  lemma {:induction false} TrimStartDropsWhitespace(s: string)
    ensures Blank(s[..|s| - |TrimStart(s)|])
    decreases |s|
  {
    if |s| > 0 && IsWhitespace(s[0]) {
      var r := TrimStart(s[1..]);
      TrimStartDropsWhitespace(s[1..]);
      BlankConsPrefix(s, |s| - 1 - |r|);
    }
  }

  /** What `TrimEnd` drops is whitespace. */
  lemma {:induction false} TrimEndDropsWhitespace(s: string)
    ensures Blank(s[|TrimEnd(s)|..])
    decreases |s|
  {
    if |s| > 0 && IsWhitespace(s[|s| - 1]) {
      var r := TrimEnd(s[..|s| - 1]);
      TrimEndDropsWhitespace(s[..|s| - 1]);
      BlankSnocSuffix(s, |r|);
    }
  }

  /** `trim` drops only whitespace: the result is the run of the input left
      once a blank prefix and a blank suffix are cut off. */
  lemma TrimDropsOnlyWhitespace(s: string)
    ensures exists k :: Occurs(Trim(s), s, k) && Blank(s[..k]) && Blank(s[k + |Trim(s)|..])
  {
    var t := TrimStart(s);
    var r := TrimEnd(t);
    var k := |s| - |t|;
    TrimStartDropsWhitespace(s);
    TrimEndDropsWhitespace(t);
    assert Occurs(r, s, k);
    assert s[k + |r|..] == t[|r|..];
  }

  /** `r` is the run of `s` that starts at index `k`. */
  predicate Occurs(r: string, s: string, k: int) {
    0 <= k <= |s| - |r| && r == s[k..k + |r|]
  }

  /** Truthiness of a string-or-null value: present and not the empty string. */
  predicate Truthy(v: Option<string>) {
    v.Some? && v.value != ""
  }

  /** `s.charAt(0)`: the first character, or the empty string for an empty `s`. */
  function FirstChar(s: string): (r: string)
    ensures |r| <= 1
    ensures r == [] <==> s == []
    ensures r != [] ==> r[0] == s[0]
  {
    if s == [] then [] else s[..1]
  }

  /** `s.startsWith(p)`. */
  predicate StartsWith(s: string, p: string) {
    |p| <= |s| && s[..|p|] == p
  }

  predicate IsDigit(c: char) {
    '0' <= c <= '9'
  }

  function DigitChar(d: nat): (c: char)
    requires d < 10
    ensures IsDigit(c)
    ensures c as int - '0' as int == d
  {
    "0123456789"[d]
  }

  /** The decimal text JavaScript produces for a non-negative integer below
      10^21 in a template literal: only digits, at least one, and no leading
      zero. */
  function NatToString(n: nat): (r: string)
    ensures |r| >= 1
    ensures forall i :: 0 <= i < |r| ==> IsDigit(r[i])
    ensures r[0] == '0' ==> r == "0"
    decreases n
  {
    if n < 10 then [DigitChar(n)] else NatToString(n / 10) + [DigitChar(n % 10)]
  }

  /** The number a string of decimal digits denotes: the reading partner of `NatToString`. */
  function DigitsValue(s: string): nat
    requires forall i :: 0 <= i < |s| ==> IsDigit(s[i])
  {
    if s == [] then 0 else DigitsValue(s[..|s| - 1]) * 10 + DigitValue(s[|s| - 1])
  }

  function DigitValue(c: char): nat
    requires IsDigit(c)
  {
    c as int - '0' as int
  }

  /** Reading back the decimal text of `n` gives `n`. */
  lemma {:induction false} DecimalRoundTrip(n: nat)
    ensures DigitsValue(NatToString(n)) == n
    decreases n
  {
    if n >= 10 {
      var p := NatToString(n / 10);
      var r := NatToString(n);
      assert r == p + [DigitChar(n % 10)];
      assert r[..|r| - 1] == p;
      DecimalRoundTrip(n / 10);
    }
  }

  /** Distinct numbers have distinct decimal texts. */
  lemma DecimalInjective(a: nat, b: nat)
    requires NatToString(a) == NatToString(b)
    ensures a == b
  {
    DecimalRoundTrip(a);
    DecimalRoundTrip(b);
  }
}
