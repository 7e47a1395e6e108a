/**
 * String helpers shared by both coaches: ASCII lower-casing (Python's `str.lower`
 * restricted to ASCII), the substring test behind Python's `in`, and maximal runs of
 * characters as a regular-expression engine consumes them greedily.
 */
module Text {

  /** Lower-cases one ASCII letter; every other character is left alone. */
  function LowerChar(c: char): char {
    if 'A' <= c <= 'Z' then (c as int + 32) as char else c
  }

  /** Upper-cases one ASCII letter; every other character is left alone. */
  function UpperChar(c: char): char {
    if 'a' <= c <= 'z' then (c as int - 32) as char else c
  }

  /** `s.lower()` for ASCII text. */
  function Lower(s: string): string {
    seq(|s|, i requires 0 <= i < |s| => LowerChar(s[i]))
  }

  predicate IsLetter(c: char) {
    'A' <= c <= 'Z' || 'a' <= c <= 'z'
  }

  /** Python's `str.isspace` on the ASCII range, which is also what `\s` matches there. */
  predicate IsSpace(c: char) {
    c == ' ' || 9 <= c as int <= 13 || 28 <= c as int <= 31
  }

  lemma LowerIdempotent(s: string)
    ensures Lower(Lower(s)) == Lower(s)
  {
  }

  lemma LowerAppend(a: string, b: string)
    ensures Lower(a + b) == Lower(a) + Lower(b)
  {
  }

  lemma LowerSlice(s: string, i: int, j: int)
    requires 0 <= i <= j <= |s|
    ensures Lower(s[i..j]) == Lower(s)[i..j]
  {
  }

  /** Text without upper-case ASCII letters is its own lower-cased form. */
  lemma LowerOfLowerCase(s: string)
    requires forall i :: 0 <= i < |s| ==> !('A' <= s[i] <= 'Z')
    ensures Lower(s) == s
  {
  }

  /** `pat` occurs in `text` starting at index `i`. */
  predicate OccursAt(pat: string, text: string, i: int) {
    0 <= i && i + |pat| <= |text| && text[i..i + |pat|] == pat
  }

  /** Reference meaning of Python's `pat in text`. */
  ghost predicate IsSubstring(pat: string, text: string) {
    exists i :: OccursAt(pat, text, i)
  }

  /** Scans `text` left to right from index `i` for an occurrence of `pat`. */
  function ContainsFrom(text: string, pat: string, i: nat): (r: bool)
    ensures r <==> exists j :: i <= j && OccursAt(pat, text, j)
    decreases |text| - i
  {
    if i + |pat| > |text| then false
    else if text[i..i + |pat|] == pat then assert OccursAt(pat, text, i); true
    else ContainsFrom(text, pat, i + 1)
  }

  /** `pat in text`. */
  function Contains(text: string, pat: string): (r: bool)
    ensures r <==> IsSubstring(pat, text)
  {
    ContainsFrom(text, pat, 0)
  }

  /** Some phrase of `phrases` occurs in `text`. */
  ghost predicate MentionsAny(phrases: seq<string>, text: string) {
    exists p :: p in phrases && IsSubstring(p, text)
  }

  /** The `for keyword in keywords: if keyword in text: return True` loop of `detect_safety_level` and `is_asking_about_professional_help`. */
  function ContainsAny(text: string, phrases: seq<string>): (r: bool)
    ensures r <==> MentionsAny(phrases, text)
  {
    if phrases == [] then false
    else if Contains(text, phrases[0]) then true
    else
      var rest := ContainsAny(text, phrases[1..]);
      assert forall p :: p in phrases <==> p == phrases[0] || p in phrases[1..];
      rest
  }

  /** An occurrence in `a` is still an occurrence once more text follows. */
  lemma {:induction false} SubstringOfPrefix(pat: string, a: string, b: string)
    requires IsSubstring(pat, a)
    ensures IsSubstring(pat, a + b)
  {
    var i :| OccursAt(pat, a, i);
    assert (a + b)[i..i + |pat|] == a[i..i + |pat|];
    assert OccursAt(pat, a + b, i);
  }

  /** An occurrence in `b` is still an occurrence once more text precedes it. */
  lemma {:induction false} SubstringOfSuffix(pat: string, a: string, b: string)
    requires IsSubstring(pat, b)
    ensures IsSubstring(pat, a + b)
  {
    var i :| OccursAt(pat, b, i);
    assert (a + b)[|a| + i..|a| + i + |pat|] == b[i..i + |pat|];
    assert OccursAt(pat, a + b, |a| + i);
  }

  /**
   * Length of the maximal run of characters satisfying `p` that starts at `i` --
   * what a greedy `[...]+` or `\s+` consumes before the engine tries the rest.
   */
  function SpanFrom(s: string, i: nat, p: char -> bool): (n: nat)
    ensures i <= |s| ==> i + n <= |s|
    ensures forall k :: i <= k < i + n ==> k < |s| && p(s[k])
    ensures i + n < |s| ==> !p(s[i + n])
    decreases |s| - i
  {
    if i < |s| && p(s[i]) then 1 + SpanFrom(s, i + 1, p) else 0
  }

  /** `lit` (written in lower case) occurs at `p` in `s`, ignoring ASCII case. */
  predicate OccursAtIgnoringCase(s: string, p: nat, lit: string) {
    p + |lit| <= |s| && Lower(s[p..p + |lit|]) == lit
  }
}
