/** The Kotlin character and string operations the screens rely on.
    Whitespace is exactly the JVM set used by Kotlin's `isWhitespace` (the
    JVM has no whitespace beyond the Basic Multilingual Plane); `isDigit` and
    `uppercaseChar` are restricted to ASCII (see README). */
module Text {
  import opened Wrappers

  /** Kotlin `Char.isWhitespace()` on the JVM:
      `Character.isWhitespace(c) || Character.isSpaceChar(c)`. */
  predicate IsWhitespace(c: char) {
    ('\t' <= c <= '\r') || ('\U{1C}' <= c <= ' ')
    || c == '\U{A0}' || c == '\U{1680}' || ('\U{2000}' <= c <= '\U{200A}')
    || c == '\U{2028}' || c == '\U{2029}' || c == '\U{202F}' || c == '\U{205F}'
    || c == '\U{3000}'
  }

  /** Kotlin `CharSequence.isBlank()`: empty or only whitespace. */
  predicate IsBlank(s: string) {
    forall i :: 0 <= i < |s| ==> IsWhitespace(s[i])
  }

  /** Kotlin `Char.isDigit()`, restricted to the ASCII digits. */
  predicate IsDigit(c: char) {
    '0' <= c <= '9'
  }

  predicate AllDigits(s: string) {
    forall i :: 0 <= i < |s| ==> IsDigit(s[i])
  }

  /** Kotlin `String.length`: the number of UTF-16 code units, so a
      character beyond the Basic Multilingual Plane counts twice. */
  function Utf16Length(s: string): (n: nat)
    ensures |s| <= n <= 2 * |s|
  {
    if s == [] then 0
    else Utf16Length(s[..|s| - 1]) + if s[|s| - 1] as int >= 0x1_0000 then 2 else 1
  }

  /** Within the Basic Multilingual Plane the two lengths agree. */
  lemma {:induction false} BmpUtf16Length(s: string)
    requires forall i :: 0 <= i < |s| ==> s[i] as int < 0x1_0000
    ensures Utf16Length(s) == |s|
  {
    if s != [] {
      BmpUtf16Length(s[..|s| - 1]);
    }
  }

  /** Kotlin `Char.uppercaseChar()`, restricted to the ASCII letters. */
  function UpperChar(c: char): (u: char)
    ensures 'a' <= c <= 'z' ==> 'A' <= u <= 'Z' && u as int == c as int - 32
    ensures !('a' <= c <= 'z') ==> u == c
  {
    if 'a' <= c <= 'z' then (c as int - 32) as char else c
  }

  /** Kotlin `CharSequence.startsWith(prefix)`. */
  predicate StartsWith(s: string, prefix: string) {
    |prefix| <= |s| && s[..|prefix|] == prefix
  }

  /** The per-character test of `regionMatches(..., ignoreCase = true)`. */
  predicate CharEqualsIgnoreCase(a: char, b: char) {
    a == b || UpperChar(a) == UpperChar(b)
  }

  /** `q` occurs in `s` at position `i`, ignoring case. */
  predicate OccursAt(s: string, q: string, i: nat)
    requires i + |q| <= |s|
  {
    forall j :: 0 <= j < |q| ==> CharEqualsIgnoreCase(s[i + j], q[j])
  }

  /** Kotlin `s.contains(q, ignoreCase = true)`: tries every start position. */
  function ContainsIgnoreCase(s: string, q: string): bool
    decreases |s|
  {
    if |q| > |s| then false
    else if OccursAt(s, q, 0) then true
    else ContainsIgnoreCase(s[1..], q)
  }

  /** `q` matches `s`, ignoring case, at some position. */
  ghost predicate OccursIn(s: string, q: string) {
    exists i: nat :: i + |q| <= |s| && OccursAt(s, q, i)
  }

  /** The scan finds an occurrence exactly when there is one. */
  lemma {:induction false} ContainsIgnoreCaseIffOccurs(s: string, q: string)
    decreases |s|
    ensures ContainsIgnoreCase(s, q) <==> OccursIn(s, q)
  {
    if |q| <= |s| && !OccursAt(s, q, 0) {
      ContainsIgnoreCaseIffOccurs(s[1..], q);
      assert forall i: nat :: i + |q| <= |s| - 1 ==> (OccursAt(s[1..], q, i) <==> OccursAt(s, q, i + 1)) by {
        forall i: nat | i + |q| <= |s| - 1 ensures OccursAt(s[1..], q, i) <==> OccursAt(s, q, i + 1) {
        }
      }
      if ContainsIgnoreCase(s, q) {
        var i: nat :| i + |q| <= |s| - 1 && OccursAt(s[1..], q, i);
        assert OccursAt(s, q, i + 1);
      }
      if exists i: nat :: i + |q| <= |s| && OccursAt(s, q, i) {
        var i: nat :| i + |q| <= |s| && OccursAt(s, q, i);
        assert i != 0;
        assert OccursAt(s[1..], q, i - 1);
      }
    }
  }

  /** The empty string occurs in every string. */
  lemma EmptyOccursEverywhere(s: string)
    ensures ContainsIgnoreCase(s, "")
  {
    assert OccursAt(s, "", 0);
    ContainsIgnoreCaseIffOccurs(s, "");
  }

  // ---------------------------------------------------------------------
  // trim()

  function TrimStart(s: string): (r: string)
    ensures |r| <= |s| && r == s[|s| - |r|..]
    ensures IsBlank(s[..|s| - |r|])
    ensures r == [] || !IsWhitespace(r[0])
  {
    if s == [] || !IsWhitespace(s[0]) then s
    else
      var r := TrimStart(s[1..]);
      assert s[..|s| - |r|] == [s[0]] + s[1..][..|s| - 1 - |r|];
      r
  }

  function TrimEnd(s: string): (r: string)
    ensures |r| <= |s| && r == s[..|r|]
    ensures IsBlank(s[|r|..])
    ensures r == [] || !IsWhitespace(r[|r| - 1])
  {
    if s == [] || !IsWhitespace(s[|s| - 1]) then s
    else
      var r := TrimEnd(s[..|s| - 1]);
      assert s[|r|..] == s[..|s| - 1][|r|..] + [s[|s| - 1]];
      r
  }

  /** Kotlin `String.trim()`: removes leading and trailing whitespace. The
      result is the slice of `s` between two all-whitespace margins, and
      neither of its ends is whitespace. */
  function Trim(s: string): (r: string)
    ensures exists i, j :: 0 <= i <= j <= |s| && r == s[i..j] && IsBlank(s[..i]) && IsBlank(s[j..])
    ensures r == [] || (!IsWhitespace(r[0]) && !IsWhitespace(r[|r| - 1]))
  {
    var t := TrimStart(s);
    var r := TrimEnd(t);
    var i := |s| - |t|;
    var j := i + |r|;
    assert r == s[i..j];
    assert s[j..] == t[|r|..];
    r
  }

  /** A string is blank exactly when trimming it leaves nothing. */
  lemma BlankIffTrimEmpty(s: string)
    ensures IsBlank(s) <==> Trim(s) == []
  {
    var r := Trim(s);
    var i, j :| 0 <= i <= j <= |s| && r == s[i..j] && IsBlank(s[..i]) && IsBlank(s[j..]);
    if r == [] {
      assert i == j;
      forall k | 0 <= k < |s| ensures IsWhitespace(s[k]) {
        if k < i { assert s[k] == s[..i][k]; } else { assert s[k] == s[j..][k - j]; }
      }
    } else {
      assert r[0] == s[i] && !IsWhitespace(s[i]);
    }
  }

  /** Trimming is idempotent and a trimmed string is blank only if empty. */
  lemma TrimIdempotent(s: string)
    ensures Trim(Trim(s)) == Trim(s)
    ensures IsBlank(Trim(s)) ==> Trim(s) == []
  {
    var r := Trim(s);
    var r2 := Trim(r);
    var i, j :| 0 <= i <= j <= |r| && r2 == r[i..j] && IsBlank(r[..i]) && IsBlank(r[j..]);
    if r != [] {
      if i > 0 { assert r[..i][0] == r[0]; }
      assert r2 == r[0..|r|] == r;
    }
  }

  // ---------------------------------------------------------------------
  // Int.toString() and its inverse

  function DigitChar(d: nat): (c: char)
    requires d < 10
    ensures IsDigit(c)
  {
    (48 + d) as char
  }

  function DigitValue(c: char): (d: nat)
    requires IsDigit(c)
    ensures d < 10
  {
    c as int - 48
  }

  /** The decimal digits of a natural number, without leading zeros. */
  function NatToString(n: nat): (s: string)
    ensures |s| > 0 && AllDigits(s)
    ensures s[0] == '0' ==> n == 0
  {
    if n < 10 then [DigitChar(n)] else NatToString(n / 10) + [DigitChar(n % 10)]
  }

  /** Kotlin `Int.toString()` (and string templates `"$n"`): a minus sign
      for negative numbers, then the decimal digits. */
  function IntToString(n: int): (s: string)
    ensures |s| > 0
    ensures s[0] == '-' <==> n < 0
    ensures n >= 0 ==> AllDigits(s)
  {
    if n < 0 then "-" + NatToString(-n) else NatToString(n)
  }

  /** The value of a string of decimal digits; the empty string is worth 0. */
  function DigitsValue(s: string): nat
    requires AllDigits(s)
  {
    if s == [] then 0 else DigitsValue(s[..|s| - 1]) * 10 + DigitValue(s[|s| - 1])
  }

  /** Reads back what `IntToString` writes: an optional minus sign followed by
      at least one digit. */
  function ParseInt(s: string): Option<int> {
    if |s| > 0 && s[0] == '-' then
      if |s| > 1 && AllDigits(s[1..]) then Some(0 - DigitsValue(s[1..])) else None
    else if |s| > 0 && AllDigits(s) then Some(DigitsValue(s))
    else None
  }

  lemma {:induction false} DigitsOfNat(n: nat)
    ensures DigitsValue(NatToString(n)) == n
  {
    var s := NatToString(n);
    if n >= 10 {
      DigitsOfNat(n / 10);
      assert s[..|s| - 1] == NatToString(n / 10);
    }
  }

  /** Parsing inverts printing, so distinct numbers print differently. */
  lemma ParseIntToString(n: int)
    ensures ParseInt(IntToString(n)) == Some(n)
  {
    if n < 0 {
      assert IntToString(n)[1..] == NatToString(-n);
      DigitsOfNat(-n);
    } else {
      DigitsOfNat(n);
    }
  }

  lemma IntToStringInjective(m: int, n: int)
    ensures IntToString(m) == IntToString(n) ==> m == n
  {
    ParseIntToString(m);
    ParseIntToString(n);
  }
}
