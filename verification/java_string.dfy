/** The java.lang.String operations the local-filesystem tap's guard calls:
    `startsWith`, and `matches` for the one pattern shape it uses, `.*` LITERAL
    `.*` (the literal taken verbatim, with no metacharacters). `IndexOf` is this
    model's own substring search, used to decide the match.

    `String.matches` succeeds only when the pattern matches the WHOLE string, and
    `.` (without the DOTALL flag) matches every character except the five line
    terminators of java.util.regex.Pattern. */
module JavaString {

  /** The characters `.` refuses to match: `\n`, `\r`, NEXT LINE (U+0085),
      LINE SEPARATOR (U+2028) and PARAGRAPH SEPARATOR (U+2029). */
  predicate IsLineTerminator(c: char) {
    c == '\n' || c == '\r' || c == '\U{85}' || c == '\U{2028}' || c == '\U{2029}'
  }

  predicate HasLineTerminator(s: string) {
    exists i :: 0 <= i < |s| && IsLineTerminator(s[i])
  }

  /** `.*` matches the whole of `s`: no character of `s` is a line terminator. */
  ghost predicate DotStarMatches(s: string) {
    !HasLineTerminator(s)
  }

  /** `lit` occurs in `s` starting at index `i`. */
  predicate OccursAt(s: string, lit: string, i: int) {
    0 <= i && i + |lit| <= |s| && s[i..i + |lit|] == lit
  }

  ghost predicate Contains(s: string, lit: string) {
    exists i :: OccursAt(s, lit, i)
  }

  /** Reference meaning of `s.matches(".*" + lit + ".*")`: `s` splits as
      `x + lit + y` where `.*` matches all of `x` and all of `y`. */
  ghost predicate WholeMatchDotStarAround(s: string, lit: string) {
    exists i :: OccursAt(s, lit, i) && DotStarMatches(s[..i]) && DotStarMatches(s[i + |lit|..])
  }

  /** Java's `s.startsWith(prefix)`: case-sensitive and anchored at index 0. */
  predicate StartsWith(s: string, prefix: string) {
    |prefix| <= |s| && s[..|prefix|] == prefix
  }

  /** First-occurrence substring search: the first index at or after `from`
      where `lit` occurs, or -1 when there is none. It agrees with Java's
      `s.indexOf(lit, from)` for `0 <= from <= |s|`. */
  function IndexOf(s: string, lit: string, from: nat): (k: int)
    requires from <= |s|
    ensures k == -1 || (from <= k && OccursAt(s, lit, k))
    ensures k == -1 <==> forall j :: from <= j ==> !OccursAt(s, lit, j)
    ensures forall j :: from <= j < k ==> !OccursAt(s, lit, j)
    decreases |s| - from
  {
    if from + |lit| > |s| then -1
    else if s[from..from + |lit|] == lit then from
    else IndexOf(s, lit, from + 1)
  }

  /** `s.matches(".*" + lit + ".*")`, decided directly: `lit` occurs
      somewhere and no character is a line terminator. */
  function MatchesDotStarAround(s: string, lit: string): (b: bool)
    requires DotStarMatches(lit)
    ensures b <==> WholeMatchDotStarAround(s, lit)
  {
    WholeMatchCharacterization(s, lit);
    IndexOf(s, lit, 0) >= 0 && !HasLineTerminator(s)
  }

  /** Whole-string matching of `.*LIT.*` holds exactly when the literal occurs
      somewhere and the string holds no line terminator. */
  lemma WholeMatchCharacterization(s: string, lit: string)
    requires DotStarMatches(lit)
    ensures WholeMatchDotStarAround(s, lit) <==> Contains(s, lit) && !HasLineTerminator(s)
  {
  }
}
