/**
 * The handful of JavaScript string operations the application relies on:
 * `startsWith`, `includes`, `indexOf`/`lastIndexOf` of one character,
 * `toLowerCase`, `trim` and `Array.prototype.join`.
 *
 * Strings are sequences of Unicode scalar values. JavaScript strings are
 * sequences of UTF-16 code units; the difference only shows in lengths of
 * text outside the Basic Multilingual Plane.
 */
module Text {
  import opened Wrappers

  /** `s.startsWith(prefix)` */
  predicate StartsWith(s: string, prefix: string) {
    |prefix| <= |s| && s[..|prefix|] == prefix
  }

  /** `s.includes(sub)`: some position of `s` starts an occurrence of `sub`. */
  predicate Contains(s: string, sub: string)
    decreases |s|
  {
    StartsWith(s, sub) || (|s| > 0 && Contains(s[1..], sub))
  }

  /** `s` occurs inside `prefix + s + suffix`. */
  lemma {:induction false} ContainsInside(prefix: string, s: string, suffix: string)
    ensures Contains(prefix + s + suffix, s)
    decreases |prefix|
  {
    var whole := prefix + s + suffix;
    if |prefix| == 0 {
      assert whole[..|s|] == s;
    } else {
      assert whole[1..] == prefix[1..] + s + suffix;
      ContainsInside(prefix[1..], s, suffix);
    }
  }

  /** `sub` occurs in `s` starting at position `i`. */
  predicate OccursAt(s: string, sub: string, i: nat) {
    i + |sub| <= |s| && s[i..i + |sub|] == sub
  }

  /** A text in which `sub` occurs at no position does not contain it. */
  lemma {:induction false} NoOccurrenceNotContains(s: string, sub: string)
    requires forall i: nat :: !OccursAt(s, sub, i)
    ensures !Contains(s, sub)
    decreases |s|
  {
    assert !OccursAt(s, sub, 0);
    assert |sub| <= |s| ==> s[..|sub|] == s[0..0 + |sub|];
    if |s| > 0 {
      forall i: nat
        ensures !OccursAt(s[1..], sub, i)
      {
        assert !OccursAt(s, sub, i + 1);
        if i + |sub| <= |s[1..]| {
          assert s[1..][i..i + |sub|] == s[i + 1..i + 1 + |sub|];
        }
      }
      NoOccurrenceNotContains(s[1..], sub);
    }
  }

  /**
   * When the character at position `j` of `sub` occurs in `a + [x] + b`
   * only as `x`, the one place `sub` could occur puts that position on `x`;
   * if `sub` does not occur there, it is not contained.
   */
  lemma {:induction false} NotContainsAroundUniqueChar(a: string, x: char, b: string, sub: string, j: nat)
    requires x !in a && x !in b && j < |sub| && sub[j] == x
    requires j <= |a| ==> !OccursAt(a + [x] + b, sub, |a| - j)
    ensures !Contains(a + [x] + b, sub)
  {
    var s := a + [x] + b;
    forall k | 0 <= k < |s| && k != |a|
      ensures s[k] != x
    {
      if k < |a| {
        assert s[k] == a[k];
      } else {
        assert s[k] == b[k - |a| - 1];
      }
    }
    forall i: nat
      ensures !OccursAt(s, sub, i)
    {
      if i + |sub| <= |s| && i + j != |a| {
        assert s[i..i + |sub|][j] == s[i + j];
      }
    }
    NoOccurrenceNotContains(s, sub);
  }

  /** A text lacking one of the characters of `sub` does not contain `sub`. */
  lemma {:induction false} NotContainsMissingChar(s: string, sub: string, j: nat)
    requires j < |sub| && sub[j] !in s
    ensures !Contains(s, sub)
    decreases |s|
  {
    assert |s| < |sub| || s[..|sub|][j] != sub[j];
    if |s| > 0 {
      assert forall c | c in s[1..] :: c in s;
      NotContainsMissingChar(s[1..], sub, j);
    }
  }

  /** `s.indexOf(c)` as an option: the first position holding `c`. */
  function IndexOf(s: string, c: char): (r: Option<nat>)
    ensures r.Some? ==> r.value < |s| && s[r.value] == c && c !in s[..r.value]
    ensures r.None? ==> c !in s
  {
    if |s| == 0 then None
    else if s[0] == c then Some(0)
    else
      match IndexOf(s[1..], c)
      case None => None
      case Some(i) =>
        assert s[..i + 1] == [s[0]] + s[1..][..i];
        Some(i + 1)
  }

  /** `s.lastIndexOf(c)` as an option: the last position holding `c`. */
  function LastIndexOf(s: string, c: char): (r: Option<nat>)
    ensures r.Some? ==> r.value < |s| && s[r.value] == c && c !in s[r.value + 1..]
    ensures r.None? ==> c !in s
  {
    if |s| == 0 then None
    else if s[|s| - 1] == c then Some(|s| - 1)
    else
      match LastIndexOf(s[..|s| - 1], c)
      case None =>
        assert s == s[..|s| - 1] + [s[|s| - 1]];
        None
      case Some(i) =>
        assert s[i + 1..] == s[..|s| - 1][i + 1..] + [s[|s| - 1]];
        Some(i)
  }

  /** Lower-cases the ASCII letters and leaves every other character alone. */
  function LowerAscii(s: string): (r: string)
    ensures |r| == |s|
  {
    seq(|s|, i requires 0 <= i < |s| => if 'A' <= s[i] <= 'Z' then (s[i] as int + 32) as char else s[i])
  }

  /**
   * The characters `String.prototype.trim` removes: ECMAScript WhiteSpace
   * (tab, vertical tab, form feed, space, no-break space, the byte order
   * mark and the Unicode space separators) and LineTerminator.
   */
  predicate IsJsWhitespace(c: char) {
    c == '\t' || c == '\U{000B}' || c == '\U{000C}' || c == ' ' || c == '\U{00A0}' || c == '\U{FEFF}'
    || c == '\U{1680}' || ('\U{2000}' <= c <= '\U{200A}') || c == '\U{202F}' || c == '\U{205F}' || c == '\U{3000}'
    || c == '\n' || c == '\r' || c == '\U{2028}' || c == '\U{2029}'
  }

  /** Drops leading whitespace; the result is a suffix of `s`. */
  function TrimStart(s: string): (r: string)
    ensures |r| <= |s| && r == s[|s| - |r|..]
    ensures r != [] ==> !IsJsWhitespace(r[0])
    ensures forall k | 0 <= k < |s| - |r| :: IsJsWhitespace(s[k])
  {
    if |s| > 0 && IsJsWhitespace(s[0]) then TrimStart(s[1..]) else s
  }

  /** Drops trailing whitespace; the result is a prefix of `s`. */
  function TrimEnd(s: string): (r: string)
    ensures |r| <= |s| && r == s[..|r|]
    ensures r != [] ==> !IsJsWhitespace(r[|r| - 1])
    ensures forall k | |r| <= k < |s| :: IsJsWhitespace(s[k])
  {
    if |s| > 0 && IsJsWhitespace(s[|s| - 1]) then TrimEnd(s[..|s| - 1]) else s
  }

  /**
   * `r` is the slice of `s` starting at `i`, and everything before and after
   * that slice is whitespace.
   */
  predicate TrimmedAt(s: string, r: string, i: nat) {
    && i + |r| <= |s|
    && r == s[i..i + |r|]
    && (forall k | 0 <= k < i :: IsJsWhitespace(s[k]))
    && (forall k | i + |r| <= k < |s| :: IsJsWhitespace(s[k]))
  }

  /**
   * `s.trim()`: a slice of `s` with only whitespace around it. The result is
   * empty exactly when `s` is all whitespace, and otherwise starts and ends
   * with a non-whitespace character.
   */
  function Trim(s: string): (r: string)
    ensures |r| <= |s|
    ensures exists i: nat :: TrimmedAt(s, r, i)
    ensures r == [] <==> forall k | 0 <= k < |s| :: IsJsWhitespace(s[k])
    ensures r != [] ==> !IsJsWhitespace(r[0]) && !IsJsWhitespace(r[|r| - 1])
  {
    var t := TrimStart(s);
    var r := TrimEnd(t);
    TrimOfEnds(s, t, r);
    r
  }

  /**
   * Dropping a whitespace prefix up to a non-whitespace character, then a
   * whitespace suffix down to one, leaves a trimmed slice that is empty
   * exactly when `s` is all whitespace.
   */
  lemma TrimOfEnds(s: string, t: string, r: string)
    requires |t| <= |s| && t == s[|s| - |t|..]
    requires t != [] ==> !IsJsWhitespace(t[0])
    requires forall k | 0 <= k < |s| - |t| :: IsJsWhitespace(s[k])
    requires |r| <= |t| && r == t[..|r|]
    requires forall k | |r| <= k < |t| :: IsJsWhitespace(t[k])
    ensures TrimmedAt(s, r, |s| - |t|)
    ensures r == [] <==> forall k | 0 <= k < |s| :: IsJsWhitespace(s[k])
  {
    var i := |s| - |t|;
    assert r == s[i..i + |r|];
    forall k | i + |r| <= k < |s|
      ensures IsJsWhitespace(s[k])
    {
      assert s[k] == t[k - i];
    }
    if r != [] {
      assert r[0] == s[i];
    }
  }

  /** `parts.join(sep)` */
  function Join(parts: seq<string>, sep: string): string {
    if |parts| == 0 then ""
    else if |parts| == 1 then parts[0]
    else parts[0] + sep + Join(parts[1..], sep)
  }

  // ---------------------------------------------------------------------
  // Decimal digits
  // ---------------------------------------------------------------------

  function Digit(n: nat): (c: char)
    requires n < 10
    ensures '0' <= c <= '9'
  {
    ('0' as int + n) as char
  }

  function DigitValue(c: char): (n: nat)
    requires '0' <= c <= '9'
    ensures n < 10 && Digit(n) == c
  {
    c as int - '0' as int
  }

  function Pow10(k: nat): (p: nat)
    ensures p >= 1
  {
    if k == 0 then 1 else 10 * Pow10(k - 1)
  }

  /** The number a string of decimal digits spells. */
  function DigitsValue(s: string): (n: nat)
    requires forall k | 0 <= k < |s| :: '0' <= s[k] <= '9'
    ensures n < Pow10(|s|)
  {
    if |s| == 0 then 0 else 10 * DigitsValue(s[..|s| - 1]) + DigitValue(s[|s| - 1])
  }
}
