/**
 * The handful of string operations the cleaner and the type detector use:
 * lower-casing, Python's notion of whitespace, `str.split()` with no
 * arguments, substring and suffix tests.
 */
module Text {

  /** Lower-cases an ASCII capital and leaves every other character alone. */
  function LowerChar(c: char): (r: char)
    ensures !('A' <= r <= 'Z')
    ensures !('A' <= c <= 'Z') ==> r == c
  {
    if 'A' <= c <= 'Z' then (c as int + 32) as char else c
  }

  /**
   * `str.lower()`, on ASCII letters. Python also lower-cases other
   * alphabets; only KELVIN SIGN and U+0130 lower-case to text holding an
   * ASCII letter, and neither can complete any of the fixed words and
   * tokens this project compares against, so the comparisons agree.
   */
  function Lower(s: string): (r: string)
    ensures |r| == |s|
    ensures forall i :: 0 <= i < |s| ==> r[i] == LowerChar(s[i])
  {
    seq(|s|, i requires 0 <= i < |s| => LowerChar(s[i]))
  }

  /** `str.replace(old, new)` for single characters. */
  function ReplaceChar(s: string, from: char, to: char): (r: string)
    ensures |r| == |s|
    ensures forall i :: 0 <= i < |s| ==> r[i] == (if s[i] == from then to else s[i])
  {
    seq(|s|, i requires 0 <= i < |s| => if s[i] == from then to else s[i])
  }

  /** The characters `str.isspace()` accepts: `str.split()` and the regex class `\s` split on these. */
  predicate IsSpace(c: char)
  {
    c == ' ' || ('\t' <= c <= '\r') || ('\U{1C}' <= c <= '\U{1F}') ||
    c == '\U{85}' || c == '\U{A0}' || c == '\U{1680}' || ('\U{2000}' <= c <= '\U{200A}') ||
    c == '\U{2028}' || c == '\U{2029}' || c == '\U{202F}' || c == '\U{205F}' || c == '\U{3000}'
  }

  predicate IsDigit(c: char) { '0' <= c <= '9' }
  predicate IsUpper(c: char) { 'A' <= c <= 'Z' }
  predicate IsLower(c: char) { 'a' <= c <= 'z' }
  predicate IsLetter(c: char) { IsUpper(c) || IsLower(c) }
  /** The regex class `\w`, on ASCII. */
  predicate IsWordChar(c: char) { IsLetter(c) || IsDigit(c) || c == '_' }

  predicate NoSpace(s: string)
  {
    forall k :: 0 <= k < |s| ==> !IsSpace(s[k])
  }

  predicate AllSpace(s: string)
  {
    forall k :: 0 <= k < |s| ==> IsSpace(s[k])
  }

  /**
   * `str.split()` with no arguments, continuing a token `cur` already begun:
   * runs of whitespace separate tokens, and no token is empty.
   */
  function SplitFrom(s: string, cur: string): (r: seq<string>)
    requires NoSpace(cur)
    ensures forall k :: 0 <= k < |r| ==> r[k] != [] && NoSpace(r[k])
    decreases |s|
  {
    if |s| == 0 then
      (if cur == [] then [] else [cur])
    else if IsSpace(s[0]) then
      (if cur == [] then [] else [cur]) + SplitFrom(s[1..], [])
    else
      SplitFrom(s[1..], cur + [s[0]])
  }

  function Split(s: string): (r: seq<string>)
    ensures forall k :: 0 <= k < |r| ==> r[k] != [] && NoSpace(r[k])
  {
    SplitFrom(s, [])
  }

  /** Splitting at a whitespace character splits the two sides separately. */
  lemma {:induction false} SplitFromAtSpace(a: string, sp: char, b: string, cur: string)
    requires NoSpace(cur) && IsSpace(sp)
    ensures SplitFrom(a + [sp] + b, cur) == SplitFrom(a, cur) + SplitFrom(b, [])
    decreases |a|
  {
    var s := a + [sp] + b;
    if |a| == 0 {
      assert s[0] == sp && s[1..] == b;
    } else {
      assert s[0] == a[0];
      assert s[1..] == a[1..] + [sp] + b;
      if IsSpace(a[0]) {
        SplitFromAtSpace(a[1..], sp, b, []);
      } else {
        SplitFromAtSpace(a[1..], sp, b, cur + [a[0]]);
      }
    }
  }

  lemma SplitAtSpace(a: string, sp: char, b: string)
    requires IsSpace(sp)
    ensures Split(a + [sp] + b) == Split(a) + Split(b)
  {
    SplitFromAtSpace(a, sp, b, []);
  }

  /** A split yields no token exactly when nothing is pending and the rest is all whitespace. */
  lemma {:induction false} SplitFromEmpty(s: string, cur: string)
    requires NoSpace(cur)
    ensures SplitFrom(s, cur) == [] <==> cur == [] && AllSpace(s)
    decreases |s|
  {
    if |s| > 0 {
      if IsSpace(s[0]) {
        SplitFromEmpty(s[1..], []);
        if cur == [] && AllSpace(s) { assert AllSpace(s[1..]); }
      } else {
        SplitFromEmpty(s[1..], cur + [s[0]]);
      }
    }
  }

  /** `"a b".split()` is empty exactly when the text is all whitespace. */
  lemma SplitEmptyIffBlank(s: string)
    ensures Split(s) == [] <==> AllSpace(s)
  {
    SplitFromEmpty(s, []);
  }

  /** Python's `t in s` for strings. */
  predicate Contains(s: string, t: string)
  {
    exists i | 0 <= i <= |s| :: t <= s[i..]
  }

  /** Python's `s.endswith(t)`. */
  predicate EndsWith(s: string, t: string)
  {
    |t| <= |s| && s[|s| - |t|..] == t
  }

  /** `any(term in s for term in terms)`. */
  predicate ContainsAny(s: string, terms: seq<string>)
  {
    exists k | 0 <= k < |terms| :: Contains(s, terms[k])
  }

}
