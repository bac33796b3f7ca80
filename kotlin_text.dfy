/**
 * The parts of Kotlin's string library that the per-app settings screen
 * relies on: `isBlank()`, `contains(other, ignoreCase = true)`,
 * `lowercase()` and `String.compareTo`.
 *
 * Case conversion is modelled on ASCII letters only; every other
 * character is its own upper and lower case.
 */
module KotlinText {

  /**
   * `Char.isWhitespace()` on the JVM: Java's `Character.isWhitespace` or
   * `Character.isSpaceChar`, written out as the code points they accept.
   */
  predicate IsWhitespace(c: char) {
    || ('\t' <= c <= '\r')            // U+0009 .. U+000D
    || ('\U{1C}' <= c <= ' ')         // U+001C .. U+0020
    || c == '\U{A0}' || c == '\U{1680}'
    || ('\U{2000}' <= c <= '\U{200A}')
    || c == '\U{2028}' || c == '\U{2029}' || c == '\U{202F}'
    || c == '\U{205F}' || c == '\U{3000}'
  }

  /** `CharSequence.isBlank()`: empty, or whitespace only. */
  predicate IsBlank(s: string) {
    forall i :: 0 <= i < |s| ==> IsWhitespace(s[i])
  }

  function UppercaseChar(c: char): char {
    if 'a' <= c <= 'z' then (c as int - 32) as char else c
  }

  function LowercaseChar(c: char): char {
    if 'A' <= c <= 'Z' then (c as int + 32) as char else c
  }

  /** `Char.equals(other, ignoreCase = true)` as the Kotlin library defines it. */
  predicate CharEqualsIgnoreCase(a: char, b: char) {
    || a == b
    || UppercaseChar(a) == UppercaseChar(b)
    || LowercaseChar(UppercaseChar(a)) == LowercaseChar(UppercaseChar(b))
  }

  /** `String.lowercase()` */
  function Lowercase(s: string): string {
    seq(|s|, i requires 0 <= i < |s| => LowercaseChar(s[i]))
  }

  /** The characters of `s` from offset `i` on match `q`, ignoring case (`regionMatches`). */
  predicate RegionMatchesAt(s: string, i: int, q: string)
    requires 0 <= i && i + |q| <= |s|
  {
    forall k :: 0 <= k < |q| ==> CharEqualsIgnoreCase(s[i + k], q[k])
  }

  /** The scan of `indexOf(q, from, ignoreCase = true)`, reporting only whether it finds `q`. */
  function ContainsFrom(s: string, q: string, from: nat): (found: bool)
    decreases |s| - from
    ensures found <==> exists j :: from <= j && j + |q| <= |s| && RegionMatchesAt(s, j, q)
  {
    if from + |q| > |s| then false
    else RegionMatchesAt(s, from, q) || ContainsFrom(s, q, from + 1)
  }

  /** `s.contains(q, ignoreCase = true)`: some window of `s` matches `q` ignoring case. */
  function ContainsIgnoreCase(s: string, q: string): (found: bool)
    ensures found <==> exists j :: 0 <= j && j + |q| <= |s| && RegionMatchesAt(s, j, q)
  {
    ContainsFrom(s, q, 0)
  }

  /**
   * `a.compareTo(b) <= 0`: lexicographic order by character, a proper
   * prefix coming first.
   */
  predicate LexLe(a: string, b: string)
    decreases |a|
  {
    |a| == 0 || (|b| > 0 && (a[0] < b[0] || (a[0] == b[0] && LexLe(a[1..], b[1..]))))
  }

  lemma {:induction false} LexLeTotal(a: string, b: string)
    ensures LexLe(a, b) || LexLe(b, a)
    decreases |a|
  {
    if |a| > 0 && |b| > 0 && a[0] == b[0] {
      LexLeTotal(a[1..], b[1..]);
    }
  }

  lemma {:induction false} LexLeTransitive(a: string, b: string, c: string)
    requires LexLe(a, b) && LexLe(b, c)
    ensures LexLe(a, c)
    decreases |a|
  {
    if |a| > 0 && a[0] == b[0] && b[0] == c[0] {
      LexLeTransitive(a[1..], b[1..], c[1..]);
    }
  }

  lemma {:induction false} LexLeAntisymmetric(a: string, b: string)
    requires LexLe(a, b) && LexLe(b, a)
    ensures a == b
    decreases |a|
  {
    if |a| > 0 {
      LexLeAntisymmetric(a[1..], b[1..]);
      assert a == [a[0]] + a[1..] && b == [b[0]] + b[1..];
    }
  }
}
