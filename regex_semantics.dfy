/**
 * The pieces of Python's `re` semantics that the two regex validators rely on.
 *
 * Django's `RegexValidator` accepts a value when `re.search(pattern, value)` finds a match.
 * Without the MULTILINE flag:
 *  - `^` matches only at position 0, so `re.search` can only succeed with a match starting there;
 *  - `$` matches at the end of the string, or just before a newline that is the last character;
 *  - `.` matches any character except the newline `'\n'`.
 */
module RegexSemantics {

  /** `s[i..j]` can be consumed by a run of `.`: it holds no newline. */
  predicate DotRun(s: string, i: int, j: int)
    requires 0 <= i <= j <= |s|
  {
    forall k :: i <= k < j ==> s[k] != '\n'
  }

  /** No newline anywhere in `s`. */
  predicate NoNewline(s: string) {
    DotRun(s, 0, |s|)
  }

  /** `$` (without MULTILINE) matches at position `j` of `s`. */
  predicate EndAnchor(s: string, j: int) {
    j == |s| || (0 <= j == |s| - 1 && s[j] == '\n')
  }

  /** `s` without the one trailing newline that `$` tolerates. */
  function DropFinalNewline(s: string): (body: string)
    ensures |s| > 0 && s[|s| - 1] == '\n' ==> s == body + "\n"
    ensures !(|s| > 0 && s[|s| - 1] == '\n') ==> s == body
  {
    if |s| > 0 && s[|s| - 1] == '\n' then s[..|s| - 1] else s
  }

  /** `$` matches at `j` exactly when `s[..j]` is `s` minus at most one final newline. */
  lemma EndAnchorBody(s: string, j: int)
    requires 0 <= j <= |s| && DotRun(s, 0, j)
    ensures EndAnchor(s, j) <==> j == |DropFinalNewline(s)|
  {
  }

  /** ASCII lowercase `[a-z]`. */
  predicate IsLower(c: char) { 'a' <= c <= 'z' }

  /** ASCII uppercase `[A-Z]`. */
  predicate IsUpper(c: char) { 'A' <= c <= 'Z' }

  /** ASCII decimal digit `[0-9]`. */
  predicate IsDigit(c: char) { '0' <= c <= '9' }

  /** Hexadecimal digit `[0-9a-fA-F]`. */
  predicate IsHexDigit(c: char) { IsDigit(c) || 'a' <= c <= 'f' || 'A' <= c <= 'F' }
}
