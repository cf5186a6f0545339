/**
 * `strong_password_validator` of accounts/validators.py: a `RegexValidator` with the
 * pattern `^(?=.*[a-z])(?=.*[A-Z])(?=.*\d).{8,}$`.
 *
 * Three descriptions of the same set of passwords, proved equal:
 *  - `RegexMatches`, the pattern read with Python's `re.search` semantics;
 *  - `MeetsPolicy`, the rule in plain words: at least 8 characters (a single trailing
 *    newline aside), no other newline, a lowercase letter, an uppercase letter, a digit;
 *  - `IsStrongPassword`, a single left-to-right scan, the executable decision.
 */
module PasswordValidator {
  import opened RegexSemantics

  /** The `{8,}` of `.{8,}`. */
  const MinLength: nat := 8

  /** A character class of the pattern. */
  type CharClass = char -> bool

  /** `(?=.*C)` at position 0: a character of class `C` can be reached without crossing a newline. */
  predicate LookaheadFinds(s: string, cls: CharClass) {
    exists i :: 0 <= i < |s| && DotRun(s, 0, i) && cls(s[i])
  }

  /** The pattern matches `s` at position 0, the only place `^` allows. */
  predicate RegexMatches(s: string) {
    && LookaheadFinds(s, IsLower)
    && LookaheadFinds(s, IsUpper)
    && LookaheadFinds(s, IsDigit)
    && exists j :: MinLength <= j <= |s| && DotRun(s, 0, j) && EndAnchor(s, j)
  }

  /** Some character of `s` is in class `cls`. */
  predicate Contains(s: string, cls: CharClass) {
    exists i :: 0 <= i < |s| && cls(s[i])
  }

  /** The password rule in plain words. */
  predicate MeetsPolicy(s: string) {
    var body := DropFinalNewline(s);
    && NoNewline(body)
    && |body| >= MinLength
    && Contains(body, IsLower)
    && Contains(body, IsUpper)
    && Contains(body, IsDigit)
  }

  /**
   * Scans `s` once, remembering which classes have been seen; a newline ends the scan
   * with a refusal, since `.` cannot cross it.
   */
  function Scan(s: string, lower: bool, upper: bool, digit: bool): bool
    decreases |s|
  {
    if s == [] then lower && upper && digit
    else if s[0] == '\n' then false
    else Scan(s[1..], lower || IsLower(s[0]), upper || IsUpper(s[0]), digit || IsDigit(s[0]))
  }

  /** What `Scan` decides. */
  lemma {:induction false} ScanMeaning(s: string, lower: bool, upper: bool, digit: bool)
    ensures Scan(s, lower, upper, digit)
        <==> && NoNewline(s)
             && (lower || Contains(s, IsLower))
             && (upper || Contains(s, IsUpper))
             && (digit || Contains(s, IsDigit))
  {
    if s != [] && s[0] != '\n' {
      var t := s[1..];
      ScanMeaning(t, lower || IsLower(s[0]), upper || IsUpper(s[0]), digit || IsDigit(s[0]));
      forall cls: CharClass ensures Contains(s, cls) <==> cls(s[0]) || Contains(t, cls) {
        if Contains(t, cls) {
          var i :| 0 <= i < |t| && cls(t[i]);
          assert cls(s[i + 1]);
        }
        if Contains(s, cls) && !cls(s[0]) {
          var i :| 0 <= i < |s| && cls(s[i]);
          assert cls(t[i - 1]);
        }
      }
      assert NoNewline(s) <==> NoNewline(t) by {
        if NoNewline(t) {
          forall k | 0 <= k < |s| ensures s[k] != '\n' {
            if k > 0 { assert s[k] == t[k - 1]; }
          }
        }
      }
    }
  }

  /** The pattern, read with `re.search`, says exactly what the plain-words rule says. */
  lemma RegexMatchesPolicy(s: string)
    ensures RegexMatches(s) <==> MeetsPolicy(s)
  {
    var body := DropFinalNewline(s);
    if RegexMatches(s) {
      var j :| MinLength <= j <= |s| && DotRun(s, 0, j) && EndAnchor(s, j);
      EndAnchorBody(s, j);
      assert body == s[..j];
      forall cls: CharClass | !cls('\n') && LookaheadFinds(s, cls) ensures Contains(body, cls) {
        var i :| 0 <= i < |s| && DotRun(s, 0, i) && cls(s[i]);
        assert i != j || j == |s|;
        assert body[i] == s[i];
      }
    }
    if MeetsPolicy(s) {
      var j := |body|;
      assert body == s[..j];
      assert DotRun(s, 0, j);
      EndAnchorBody(s, j);
      forall cls: CharClass | Contains(body, cls) ensures LookaheadFinds(s, cls) {
        var i :| 0 <= i < |body| && cls(body[i]);
        assert DotRun(s, 0, i);
        assert cls(s[i]);
      }
    }
  }

  /**
   * `strong_password_validator(value)` passes: the scan over `value` minus one
   * trailing newline.
   */
  function IsStrongPassword(s: string): (valid: bool)
    ensures valid <==> RegexMatches(s)
    ensures valid <==> MeetsPolicy(s)
  {
    var body := DropFinalNewline(s);
    ScanMeaning(body, false, false, false);
    RegexMatchesPolicy(s);
    |body| >= MinLength && Scan(body, false, false, false)
  }

  /** An accepted password has at least 8 characters and one of each required class. */
  lemma StrongPasswordShape(s: string)
    requires IsStrongPassword(s)
    ensures |s| >= MinLength
    ensures Contains(s, IsLower) && Contains(s, IsUpper) && Contains(s, IsDigit)
  {
    var body := DropFinalNewline(s);
    forall cls: CharClass | Contains(body, cls) ensures Contains(s, cls) {
      var i :| 0 <= i < |body| && cls(body[i]);
      assert s[i] == body[i];
    }
  }

  /** A newline anywhere but at the very end is refused: `.` cannot cross it. */
  lemma EmbeddedNewlineRejected(s: string, i: int)
    requires 0 <= i < |s| - 1 && s[i] == '\n'
    ensures !IsStrongPassword(s)
  {
    var body := DropFinalNewline(s);
    assert body[i] == '\n';
  }

  /**
   * There is no maximum length and no forbidden character other than the newline:
   * appending any newline-free text to an accepted newline-free password keeps it accepted.
   */
  lemma ExtensionStaysStrong(s: string, t: string)
    requires IsStrongPassword(s) && NoNewline(s) && NoNewline(t)
    ensures IsStrongPassword(s + t)
  {
    var u := s + t;
    assert DropFinalNewline(s) == s;
    assert u[|u| - 1] != '\n' by {
      if |t| > 0 { assert u[|u| - 1] == t[|t| - 1]; } else { assert u[|u| - 1] == s[|s| - 1]; }
    }
    assert DropFinalNewline(u) == u;
    ContainsAppend(s, t, IsLower);
    ContainsAppend(s, t, IsUpper);
    ContainsAppend(s, t, IsDigit);
    NoNewlineAppend(s, t);
    assert MeetsPolicy(u);
  }

  /** A character found in `s` is still found in `s + t`. */
  lemma ContainsAppend(s: string, t: string, cls: CharClass)
    requires Contains(s, cls)
    ensures Contains(s + t, cls)
  {
    var i :| 0 <= i < |s| && cls(s[i]);
    assert (s + t)[i] == s[i];
  }

  /** Two newline-free strings make a newline-free concatenation. */
  lemma NoNewlineAppend(s: string, t: string)
    requires NoNewline(s) && NoNewline(t)
    ensures NoNewline(s + t)
  {
    var u := s + t;
    forall k | 0 <= k < |u| ensures u[k] != '\n' {
      if k < |s| { assert u[k] == s[k]; } else { assert u[k] == t[k - |s|]; }
    }
  }

  /** Passwords the validator accepts: symbols, and one trailing newline, are allowed. */
  lemma AcceptedExamples()
    ensures IsStrongPassword("Passw0rd")
    ensures IsStrongPassword("P@ss w0rd!")
    ensures IsStrongPassword("Passw0rd\n")
  {
    assert MeetsPolicy("Passw0rd") by {
      assert IsLower("Passw0rd"[1]) && IsUpper("Passw0rd"[0]) && IsDigit("Passw0rd"[5]);
    }
    assert MeetsPolicy("P@ss w0rd!") by {
      assert IsLower("P@ss w0rd!"[2]) && IsUpper("P@ss w0rd!"[0]) && IsDigit("P@ss w0rd!"[6]);
    }
    assert DropFinalNewline("Passw0rd\n") == "Passw0rd";
  }

  /** Passwords it refuses: no uppercase, too short, two trailing newlines, an inner newline. */
  lemma RejectedExamples()
    ensures !IsStrongPassword("passw0rd")
    ensures !IsStrongPassword("Pas5w0r")
    ensures !IsStrongPassword("Passw0rd\n\n")
    ensures !IsStrongPassword("Pass\nw0rd")
  {
    assert !Contains("passw0rd", IsUpper);
    EmbeddedNewlineRejected("Passw0rd\n\n", 8);
    EmbeddedNewlineRejected("Pass\nw0rd", 4);
  }
}
