/**
 * The few operations of the Kotlin standard library on characters and
 * strings that the lab view-model relies on: `isBlank`, `lowercase` and
 * `contains`.
 */
module KotlinText {

  /**
   * `Char.isWhitespace()` on the JVM: Java's `Character.isWhitespace` or
   * `Character.isSpaceChar`, i.e. the control characters U+0009..U+000D and
   * U+001C..U+001F together with every Unicode space, line or paragraph
   * separator (categories Zs, Zl and Zp).
   */
  predicate IsWhitespace(c: char) {
    || ('\t' <= c <= '\r')
    || ('\U{1C}' <= c <= '\U{1F}')
    || c == ' '
    || c == '\U{A0}'
    || c == '\U{1680}'
    || ('\U{2000}' <= c <= '\U{200A}')
    || c == '\U{2028}'
    || c == '\U{2029}'
    || c == '\U{202F}'
    || c == '\U{205F}'
    || c == '\U{3000}'
  }

  /** `CharSequence.isBlank()`: empty, or whitespace only. */
  function IsBlank(s: string): (b: bool)
    ensures b <==> forall c :: c in s ==> IsWhitespace(c)
  {
    forall i :: 0 <= i < |s| ==> IsWhitespace(s[i])
  }

  /** Lower-casing of one character, restricted to the ASCII letters. */
  function LowerChar(c: char): char {
    if 'A' <= c <= 'Z' then (c as int - 'A' as int + 'a' as int) as char else c
  }

  /** `String.lowercase()`, character by character (ASCII letters only). */
  function Lower(s: string): (r: string)
    ensures |r| == |s|
    ensures forall i :: 0 <= i < |s| ==> r[i] == LowerChar(s[i])
  {
    if s == [] then [] else [LowerChar(s[0])] + Lower(s[1..])
  }

  predicate StartsWith(s: string, prefix: string) {
    |prefix| <= |s| && s[..|prefix|] == prefix
  }

  /** `CharSequence.contains(other)`: `other` occurs somewhere in `s`. */
  function Contains(s: string, other: string): (b: bool)
    ensures b <==> exists i: nat :: OccursAt(s, other, i)
    decreases |s|
  {
    if StartsWith(s, other) then
      assert OccursAt(s, other, 0);
      true
    else if |s| == 0 then
      false
    else
      OccursInTail(s, other);
      Contains(s[1..], other)
  }

  /** `other` occurs in `s` starting at index `i`. */
  predicate OccursAt(s: string, other: string, i: nat) {
    i + |other| <= |s| && s[i..i + |other|] == other
  }

  /** Lower-casing neither creates nor removes whitespace. */
  lemma {:induction false} BlankIffLowerBlank(s: string)
    ensures IsBlank(Lower(s)) <==> IsBlank(s)
  {
  }

  /** Text without upper-case ASCII letters is its own lower-case form. */
  lemma LowerOfLowercase(s: string)
    requires forall i :: 0 <= i < |s| ==> !('A' <= s[i] <= 'Z')
    ensures Lower(s) == s
  {
  }

  /** A character that no character of `s` lower-cases to is absent from `Lower(s)`. */
  lemma LowerLacks(s: string, c: char)
    requires forall i :: 0 <= i < |s| ==> LowerChar(s[i]) != c
    ensures c !in Lower(s)
  {
  }

  /** Text that contains `other` is at least as long as `other`. */
  lemma ContainsNoLonger(s: string, other: string)
    requires Contains(s, other)
    ensures |other| <= |s|
  {
  }

  /** Every character of a contained text occurs in the containing text. */
  lemma ContainsCharOf(s: string, other: string, j: nat)
    requires Contains(s, other) && j < |other|
    ensures other[j] in s
  {
  }

  /**
   * When `s` does not start with `other`, `other` occurs in `s` exactly when
   * it occurs in the tail of `s`, one index earlier.
   */
  lemma OccursInTail(s: string, other: string)
    requires |s| > 0 && !StartsWith(s, other)
    ensures (exists i: nat :: OccursAt(s, other, i)) <==> (exists i: nat :: OccursAt(s[1..], other, i))
  {
    if exists i: nat :: OccursAt(s[1..], other, i) {
      var i: nat :| OccursAt(s[1..], other, i);
      assert s[i + 1..i + 1 + |other|] == s[1..][i..i + |other|];
      assert OccursAt(s, other, i + 1);
    }
    if exists i: nat :: OccursAt(s, other, i) {
      var i: nat :| OccursAt(s, other, i);
      assert i != 0;
      assert s[1..][i - 1..i - 1 + |other|] == s[i..i + |other|];
      assert OccursAt(s[1..], other, i - 1);
    }
  }
}
