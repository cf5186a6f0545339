/**
 * The display-name logic of `Profile` in accounts/models.py: `get_full_name` joins the
 * user's first and last names with a space, and `__str__` shows that name stripped of
 * surrounding whitespace, or the username when nothing is left.
 */
module Profiles {

  /** The fields of the authentication user that the profile reads. */
  datatype User = User(username: string, firstName: string, lastName: string)

  /** A profile, reduced to the user it belongs to (its phone, bio and picture play no part here). */
  datatype Profile = Profile(user: User)

  /**
   * Python's `str.isspace()`, which `str.strip()` with no argument uses: the ASCII
   * controls 0x09-0x0D and 0x1C-0x1F, the space, NEL, NO-BREAK SPACE, OGHAM SPACE MARK,
   * the spaces 0x2000-0x200A, LINE and PARAGRAPH SEPARATOR, NARROW NO-BREAK SPACE,
   * MEDIUM MATHEMATICAL SPACE and IDEOGRAPHIC SPACE.
   */
  predicate IsWhitespace(c: char) {
    var n := c as int;
    || 0x09 <= n <= 0x0D
    || 0x1C <= n <= 0x20
    || n == 0x85 || n == 0xA0 || n == 0x1680
    || 0x2000 <= n <= 0x200A
    || n == 0x2028 || n == 0x2029 || n == 0x202F || n == 0x205F || n == 0x3000
  }

  /** Every character of `s` is whitespace (vacuously so for the empty string). */
  predicate Blank(s: string) {
    BlankRange(s, 0, |s|)
  }

  /** `s` has no whitespace at either end. */
  predicate Trimmed(s: string) {
    s == [] || (!IsWhitespace(s[0]) && !IsWhitespace(s[|s| - 1]))
  }

  /** Every character of `s[lo..hi]` is whitespace. */
  predicate BlankRange(s: string, lo: int, hi: int)
    requires 0 <= lo <= hi <= |s|
  {
    forall k :: lo <= k < hi ==> IsWhitespace(s[k])
  }

  /** The first scan of `strip()`: from `i`, the index of the first non-whitespace character, or `|s|`. */
  function SkipLeading(s: string, i: nat): (n: nat)
    requires i <= |s|
    ensures i <= n <= |s|
    ensures BlankRange(s, i, n)
    ensures n == |s| || !IsWhitespace(s[n])
    decreases |s| - i
  {
    if i < |s| && IsWhitespace(s[i]) then SkipLeading(s, i + 1) else i
  }

  /** The second scan of `strip()`: back from `j`, but not below `lo`, past trailing whitespace. */
  function SkipTrailing(s: string, lo: nat, j: nat): (m: nat)
    requires lo <= j <= |s|
    ensures lo <= m <= j
    ensures BlankRange(s, m, j)
    ensures m == lo || !IsWhitespace(s[m - 1])
    decreases j
  {
    if lo < j && IsWhitespace(s[j - 1]) then SkipTrailing(s, lo, j - 1) else j
  }

  /** `s.strip()`: the slice of `s` between its leading and its trailing whitespace. */
  function Strip(s: string): (r: string)
    ensures Trimmed(r)
    ensures r == [] <==> Blank(s)
  {
    var i := SkipLeading(s, 0);
    var j := SkipTrailing(s, i, |s|);
    assert i < j ==> s[i..j][0] == s[i] && s[i..j][j - i - 1] == s[j - 1];
    assert i == j ==> Blank(s) by {
      if i == j {
        assert i == |s|;
        assert BlankRange(s, 0, i);
      }
    }
    s[i..j]
  }

  /** `Strip(s)` is a slice of `s` whose prefix before it and suffix after it are all whitespace. */
  lemma StripIsSlice(s: string)
    ensures var i := SkipLeading(s, 0); var j := SkipTrailing(s, i, |s|);
      && Strip(s) == s[i..j]
      && BlankRange(s, 0, i)
      && BlankRange(s, j, |s|)
  {
  }

  /** A concatenation is blank exactly when both parts are. */
  lemma BlankConcat(a: string, b: string)
    ensures Blank(a + b) <==> Blank(a) && Blank(b)
  {
    var ab := a + b;
    if Blank(a) && Blank(b) {
      forall k | 0 <= k < |ab| ensures IsWhitespace(ab[k]) {
        if k < |a| { assert ab[k] == a[k]; } else { assert ab[k] == b[k - |a|]; }
      }
    }
    if Blank(ab) {
      forall k | 0 <= k < |a| ensures IsWhitespace(a[k]) { assert a[k] == ab[k]; }
      forall k | 0 <= k < |b| ensures IsWhitespace(b[k]) { assert b[k] == ab[k + |a|]; }
    }
  }

  /** `get_full_name()`: the first name, one space, the last name. */
  function FullName(p: Profile): (name: string)
    ensures |name| == |p.user.firstName| + |p.user.lastName| + 1
    ensures name[|p.user.firstName|] == ' '
    ensures name[..|p.user.firstName|] == p.user.firstName
    ensures name[|p.user.firstName| + 1..] == p.user.lastName
  {
    p.user.firstName + " " + p.user.lastName
  }

  /** `__str__()`. */
  function DisplayName(p: Profile): (name: string)
    ensures Blank(p.user.firstName) && Blank(p.user.lastName) ==> name == p.user.username
    ensures !(Blank(p.user.firstName) && Blank(p.user.lastName)) ==> name == Strip(FullName(p))
    ensures !(Blank(p.user.firstName) && Blank(p.user.lastName)) ==> name != [] && Trimmed(name)
  {
    var fullName := Strip(FullName(p));
    FullNameBlank(p);
    if fullName == [] then p.user.username else fullName
  }

  /** The full name is blank exactly when both names are blank: the space in between is. */
  lemma FullNameBlank(p: Profile)
    ensures Blank(FullName(p)) <==> Blank(p.user.firstName) && Blank(p.user.lastName)
  {
    var first, last := p.user.firstName, p.user.lastName;
    BlankConcat(first, " ");
    BlankConcat(first + " ", last);
    assert Blank(" ");
  }

  /** The full name is never empty: it always holds the separating space. */
  lemma FullNameNeverEmpty(p: Profile)
    ensures FullName(p) != [] && ' ' in FullName(p)
  {
    assert FullName(p)[|p.user.firstName|] == ' ';
  }

  /** Both names present and without surrounding whitespace: the profile shows "First Last". */
  lemma DisplayNameBothNames(p: Profile)
    requires p.user.firstName != [] && Trimmed(p.user.firstName)
    requires p.user.lastName != [] && Trimmed(p.user.lastName)
    ensures DisplayName(p) == p.user.firstName + " " + p.user.lastName
  {
    var full := FullName(p);
    assert full[0] == p.user.firstName[0];
    assert full[|full| - 1] == p.user.lastName[|p.user.lastName| - 1];
    assert SkipLeading(full, 0) == 0;
    assert SkipTrailing(full, 0, |full|) == |full|;
    assert Strip(full) == full[0..|full|] == full;
  }

  /** Only a last name: the leading space is stripped away and the last name alone is shown. */
  lemma DisplayNameLastOnly(p: Profile)
    requires p.user.firstName == []
    requires p.user.lastName != [] && Trimmed(p.user.lastName)
    ensures DisplayName(p) == p.user.lastName
  {
    var full := FullName(p);
    var last := p.user.lastName;
    assert full[0] == ' ' && full[1] == last[0] && full[|full| - 1] == last[|last| - 1];
    assert SkipLeading(full, 0) == SkipLeading(full, 1) == 1;
    assert SkipTrailing(full, 1, |full|) == |full|;
    assert Strip(full) == full[1..] == last;
  }

  /** Only a first name: the trailing space is stripped away and the first name alone is shown. */
  lemma DisplayNameFirstOnly(p: Profile)
    requires p.user.firstName != [] && Trimmed(p.user.firstName)
    requires p.user.lastName == []
    ensures DisplayName(p) == p.user.firstName
  {
    var full := FullName(p);
    var first := p.user.firstName;
    assert full[0] == first[0] && full[|full| - 1] == ' ' && full[|full| - 2] == first[|first| - 1];
    assert SkipLeading(full, 0) == 0;
    assert SkipTrailing(full, 0, |full|) == SkipTrailing(full, 0, |full| - 1) == |full| - 1;
    assert Strip(full) == full[..|full| - 1] == first;
  }

  /** Surrounding blanks on the names go, the separating space stays: "  Ann" and "Lee " show as "Ann Lee". */
  lemma DisplayNameExample()
    ensures DisplayName(Profile(User("ann", "  Ann", "Lee "))) == "Ann Lee"
    ensures DisplayName(Profile(User("ann", " ", "\t"))) == "ann"
  {
    var full := FullName(Profile(User("ann", "  Ann", "Lee ")));
    assert full == "  Ann Lee ";
    assert SkipLeading(full, 0) == 2;
    assert SkipTrailing(full, 2, |full|) == 9;
    assert full[2..9] == "Ann Lee";
    assert Blank(" ") && Blank("\t");
  }
}
