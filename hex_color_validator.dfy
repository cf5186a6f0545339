/**
 * `hex_color_validator` of tasks/validators.py: a `RegexValidator` with the pattern
 * `^#(?:[0-9a-fA-F]{6})$`, applied to the `color` of a status.
 *
 * `RegexMatches` reads the pattern with Python's `re.search` semantics; `IsHexColor`
 * is the executable decision, proved equal to it; the lemmas describe the accepted
 * strings directly: `#` and six hexadecimal digits, optionally one trailing newline.
 */
module HexColorValidator {
  import opened RegexSemantics

  /** The `{6}` of the pattern. */
  const HexLength: nat := 6

  /** The pattern matches `s` at position 0, the only place `^` allows. */
  predicate RegexMatches(s: string) {
    && 1 + HexLength <= |s|
    && s[0] == '#'
    && (forall k :: 1 <= k <= HexLength ==> IsHexDigit(s[k]))
    && EndAnchor(s, 1 + HexLength)
  }

  /** Every character of `s` is a hexadecimal digit, checked one by one. */
  function AllHex(s: string): (ok: bool)
    ensures ok <==> forall k :: 0 <= k < |s| ==> IsHexDigit(s[k])
    decreases |s|
  {
    if s == [] then true
    else if !IsHexDigit(s[0]) then false
    else
      var ok := AllHex(s[1..]);
      assert forall k :: 1 <= k < |s| ==> s[k] == s[1..][k - 1];
      ok
  }

  /** `hex_color_validator(value)` passes: `#` and six hex digits, after one trailing newline is set aside. */
  function IsHexColor(s: string): (valid: bool)
    ensures valid <==> RegexMatches(s)
  {
    var body := DropFinalNewline(s);
    var valid := |body| == 1 + HexLength && body[0] == '#' && AllHex(body[1..]);
    assert valid ==> forall k :: 1 <= k <= HexLength ==> s[k] == body[1..][k - 1];
    assert RegexMatches(s) ==> |body| == 1 + HexLength && forall k :: 0 <= k < HexLength ==> body[1..][k] == s[k + 1];
    valid
  }

  /** Every accepted string is `#`, six hex digits, and at most one newline. */
  lemma AcceptedForm(s: string)
    requires IsHexColor(s)
    ensures s[0] == '#'
    ensures |s| == 7 || (|s| == 8 && s[7] == '\n')
    ensures s == "#" + s[1..7] + (if |s| == 8 then "\n" else "")
    ensures forall k :: 0 <= k < 6 ==> IsHexDigit(s[1..7][k])
  {
  }

  /** Conversely, `#` and any six hex digits, with or without a final newline, are accepted. */
  lemma HexDigitsAccepted(digits: string)
    requires |digits| == 6 && forall k :: 0 <= k < 6 ==> IsHexDigit(digits[k])
    ensures IsHexColor("#" + digits)
    ensures IsHexColor("#" + digits + "\n")
  {
    var s, t := "#" + digits, "#" + digits + "\n";
    assert forall k :: 1 <= k <= 6 ==> s[k] == digits[k - 1] && t[k] == digits[k - 1];
  }

  /** Under the serializer's `max_length=7`, an accepted colour is exactly seven characters. */
  lemma AcceptedWithinMaxLength(s: string)
    requires IsHexColor(s) && |s| <= 7
    ensures |s| == 7 && RegexSemantics.NoNewline(s)
  {
  }

  /** Full six-digit colours in any mix of cases are accepted. */
  lemma AcceptedExamples()
    ensures IsHexColor("#FFFFFF")
    ensures IsHexColor("#aBc123")
    ensures IsHexColor("#000000\n")
  {
  }

  /** Shorthand, a missing `#`, non-hex letters, extra digits and leading blanks are refused. */
  lemma RejectedExamples()
    ensures !IsHexColor("#FFF")
    ensures !IsHexColor("FFFFFF")
    ensures !IsHexColor("#GGGGGG")
    ensures !IsHexColor("#FFFFFF0")
    ensures !IsHexColor(" #FFFFFF")
  {
    assert !IsHexDigit("#GGGGGG"[1]);
    assert "#FFFFFF0"[7] != '\n';
  }
}
