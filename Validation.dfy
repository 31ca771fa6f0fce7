/** ValidationService: stateless input checks for registration and job
    posts. The three regular expressions of the service are written out as
    character predicates; `Matches…` states what the pattern accepts, and
    the `IsValid…` functions compute it the way a matcher scans the text. */
module Validation {
  import opened Streams
  import opened Text

  // ---------------------------------------------------------------------
  // Character classes of java.util.regex and java.lang.String

  predicate IsLower(c: char) { 'a' <= c <= 'z' }
  predicate IsUpper(c: char) { 'A' <= c <= 'Z' }

  /** `[A-Za-z0-9+_.-]`, the characters allowed before the `@` of an email. */
  predicate IsEmailLocalChar(c: char) {
    IsUpper(c) || IsLower(c) || IsDigit(c) || c == '+' || c == '_' || c == '.' || c == '-'
  }

  /** `[@#$%^&+=]`, the special characters a password needs one of. */
  predicate IsPasswordSpecial(c: char) {
    c == '@' || c == '#' || c == '$' || c == '%' || c == '^' || c == '&' || c == '+' || c == '='
  }

  /** The characters that `.` does not match (Java's line terminators). */
  predicate IsLineTerminator(c: char) {
    c == '\n' || c == '\r' || c == '\U{0085}' || c == '\U{2028}' || c == '\U{2029}'
  }

  /** `\s`: the characters that `\S` does not match. */
  predicate IsRegexSpace(c: char) {
    c == ' ' || c == '\t' || c == '\n' || c == '\U{000B}' || c == '\U{000C}' || c == '\r'
  }

  // ---------------------------------------------------------------------
  // String.trim()

  /** `trim()` drops leading characters up to and including U+0020. */
  function TrimStart(s: string): (r: string)
    ensures |r| <= |s| && r == s[|s| - |r|..]
    ensures forall k :: 0 <= k < |s| - |r| ==> s[k] <= ' '
    ensures r != [] ==> r[0] > ' '
  {
    if s != [] && s[0] <= ' ' then
      var r := TrimStart(s[1..]);
      assert s[1..][|s| - 1 - |r|..] == s[|s| - |r|..];
      r
    else s
  }

  /** `trim()` drops trailing characters up to and including U+0020. */
  function TrimEnd(s: string): (r: string)
    ensures |r| <= |s| && r == s[..|r|]
    ensures forall k :: |r| <= k < |s| ==> s[k] <= ' '
    ensures r != [] ==> r[|r| - 1] > ' '
  {
    if s != [] && s[|s| - 1] <= ' ' then
      var r := TrimEnd(s[..|s| - 1]);
      assert s[..|s| - 1][..|r|] == s[..|r|];
      r
    else s
  }

  function Trim(s: string): string {
    TrimEnd(TrimStart(s))
  }

  /** The trimmed text is empty exactly when every character is at most
      U+0020; so `"  "` trims to nothing while `" a "` does not. */
  lemma TrimEmptyIff(s: string)
    ensures Trim(s) == [] <==> forall k :: 0 <= k < |s| ==> s[k] <= ' '
  {
    var t := TrimStart(s);
    if Trim(s) == [] {
      // a non-empty TrimStart begins with a visible character that TrimEnd keeps
      assert t == [];
    } else {
      var e := TrimEnd(t);
      assert e[0] == t[0] > ' ';
      assert s[|s| - |t|] == t[0];
      assert !(s[|s| - |t|] <= ' ');
    }
  }

  /** `!s.trim().isEmpty()`. */
  predicate HasVisibleChar(s: string) {
    Trim(s) != []
  }

  // ---------------------------------------------------------------------
  // ^[A-Za-z0-9+_.-]+@(.+)$

  /** What the email pattern accepts: a non-empty run of local characters,
      an `@`, then at least one character that is not a line terminator. */
  ghost predicate MatchesEmail(s: string) {
    exists i :: 0 < i < |s| - 1 && s[i] == '@'
      && (forall j :: 0 <= j < i ==> IsEmailLocalChar(s[j]))
      && (forall j :: i < j < |s| ==> !IsLineTerminator(s[j]))
  }

  /** Length of the longest prefix of `s` made of local characters (the
      greedy `[A-Za-z0-9+_.-]+`). */
  function LocalRun(s: string): (n: nat)
    ensures n <= |s|
    ensures forall j :: 0 <= j < n ==> IsEmailLocalChar(s[j])
    ensures n < |s| ==> !IsEmailLocalChar(s[n])
  {
    if s != [] && IsEmailLocalChar(s[0]) then 1 + LocalRun(s[1..]) else 0
  }

  function IsValidEmail(email: Option<string>): (b: bool)
    ensures b <==> email.Some? && MatchesEmail(email.value)
  {
    match email
    case None => false
    case Some(s) =>
      var n := LocalRun(s);
      var ok := 0 < n < |s| - 1 && s[n] == '@' && forall j :: n < j < |s| ==> !IsLineTerminator(s[j]);
      assert MatchesEmail(s) ==> ok by {
        if MatchesEmail(s) {
          var i :| 0 < i < |s| - 1 && s[i] == '@'
            && (forall j :: 0 <= j < i ==> IsEmailLocalChar(s[j]))
            && (forall j :: i < j < |s| ==> !IsLineTerminator(s[j]));
          // '@' is not a local character, so the greedy run stops exactly at i
          assert !IsEmailLocalChar(s[i]);
          assert n == i;
        }
      }
      ok
  }

  // ---------------------------------------------------------------------
  // ^[+]?[1-9]\d{1,14}$

  /** `[1-9]\d{1,14}`: a non-zero leading digit followed by 1 to 14 digits. */
  predicate IsPhoneBody(s: string) {
    2 <= |s| <= 15 && '1' <= s[0] <= '9' && forall k :: 1 <= k < |s| ==> IsDigit(s[k])
  }

  /** What the phone pattern accepts: an optional `+` and a phone body. */
  ghost predicate MatchesPhone(s: string) {
    IsPhoneBody(s) || (s != [] && s[0] == '+' && IsPhoneBody(s[1..]))
  }

  function IsValidPhoneNumber(phone: Option<string>): (b: bool)
    ensures b <==> phone.Some? && MatchesPhone(phone.value)
    ensures b ==> 2 <= |phone.value| <= 16
  {
    match phone
    case None => false
    case Some(s) =>
      // the optional '+' is taken when present; a body never starts with '+'
      var body := if s != [] && s[0] == '+' then s[1..] else s;
      IsPhoneBody(body)
  }

  // ---------------------------------------------------------------------
  // ^(?=.*[0-9])(?=.*[a-z])(?=.*[A-Z])(?=.*[@#$%^&+=])(?=\S+$).{8,}$

  /** What the password pattern accepts: at least 8 characters, none of
      them white space or a line terminator, with at least one digit, one
      lower-case letter, one upper-case letter and one special character. */
  ghost predicate MatchesPassword(s: string) {
    && |s| >= 8
    && (forall k :: 0 <= k < |s| ==> !IsRegexSpace(s[k]) && !IsLineTerminator(s[k]))
    && (exists k :: 0 <= k < |s| && IsDigit(s[k]))
    && (exists k :: 0 <= k < |s| && IsLower(s[k]))
    && (exists k :: 0 <= k < |s| && IsUpper(s[k]))
    && (exists k :: 0 <= k < |s| && IsPasswordSpecial(s[k]))
  }

  /** What one pass over a password has seen so far. */
  datatype PasswordScan = PasswordScan(digit: bool, lower: bool, upper: bool, special: bool, blank: bool)

  /** Scans `s` once, recording which required kinds of character occur and
      whether a white-space or line-terminator character occurs. */
  function ScanPassword(s: string): (r: PasswordScan)
    ensures r.digit <==> exists k :: 0 <= k < |s| && IsDigit(s[k])
    ensures r.lower <==> exists k :: 0 <= k < |s| && IsLower(s[k])
    ensures r.upper <==> exists k :: 0 <= k < |s| && IsUpper(s[k])
    ensures r.special <==> exists k :: 0 <= k < |s| && IsPasswordSpecial(s[k])
    ensures r.blank <==> exists k :: 0 <= k < |s| && (IsRegexSpace(s[k]) || IsLineTerminator(s[k]))
  {
    if s == [] then PasswordScan(false, false, false, false, false)
    else
      var rest := ScanPassword(s[1..]);
      var c := s[0];
      assert forall k :: 1 <= k < |s| ==> s[k] == s[1..][k - 1];
      assert forall k :: 0 <= k < |s| - 1 ==> s[1..][k] == s[k + 1];
      PasswordScan(rest.digit || IsDigit(c), rest.lower || IsLower(c), rest.upper || IsUpper(c),
                   rest.special || IsPasswordSpecial(c), rest.blank || IsRegexSpace(c) || IsLineTerminator(c))
  }

  function IsValidPassword(password: Option<string>): (b: bool)
    ensures b <==> password.Some? && MatchesPassword(password.value)
  {
    match password
    case None => false
    case Some(s) =>
      var scan := ScanPassword(s);
      |s| >= 8 && scan.digit && scan.lower && scan.upper && scan.special && !scan.blank
  }

  // ---------------------------------------------------------------------
  // Length and range checks

  /** A name is present, not blank, and 2 to 50 UTF-16 units long (the
      length is that of the untrimmed text). */
  function IsValidName(name: Option<string>): (b: bool)
    ensures b <==> name.Some? && 2 <= Utf16Length(name.value) <= 50
                   && exists k :: 0 <= k < |name.value| && name.value[k] > ' '
  {
    match name
    case None => false
    case Some(s) => TrimEmptyIff(s); HasVisibleChar(s) && 2 <= Utf16Length(s) <= 50
  }

  function IsValidJobTitle(title: Option<string>): (b: bool)
    ensures b <==> title.Some? && 3 <= Utf16Length(title.value) <= 100
                   && exists k :: 0 <= k < |title.value| && title.value[k] > ' '
  {
    match title
    case None => false
    case Some(s) => TrimEmptyIff(s); HasVisibleChar(s) && 3 <= Utf16Length(s) <= 100
  }

  function IsValidCompanyName(company: Option<string>): (b: bool)
    ensures b <==> company.Some? && 2 <= Utf16Length(company.value) <= 100
                   && exists k :: 0 <= k < |company.value| && company.value[k] > ' '
  {
    match company
    case None => false
    case Some(s) => TrimEmptyIff(s); HasVisibleChar(s) && 2 <= Utf16Length(s) <= 100
  }

  function IsValidExperience(experience: Option<int>): bool {
    experience.Some? && 0 <= experience.value <= 50
  }

  // ---------------------------------------------------------------------
  // First-failure-wins validation of whole forms

  const InvalidNameMessage := "Invalid name. Name must be 2-50 characters long."
  const InvalidEmailMessage := "Invalid email format."
  const WeakPasswordMessage := "Password must be at least 8 characters with uppercase, lowercase, number and special character."
  const InvalidTitleMessage := "Job title must be 3-100 characters long."
  const InvalidCompanyMessage := "Company name must be 2-100 characters long."
  const InvalidSalaryMessage := "Invalid salary range. Min salary must be less than max salary."

  /** None (Java's null) when the registration is acceptable, otherwise the
      message of the first failing check in the order name, email, password. */
  function ValidateUserRegistration(name: Option<string>, email: Option<string>, password: Option<string>): (r: Option<string>)
    ensures r.None? <==> IsValidName(name) && IsValidEmail(email) && IsValidPassword(password)
    ensures r == Some(InvalidNameMessage) <==> !IsValidName(name)
    ensures r == Some(InvalidEmailMessage) <==> IsValidName(name) && !IsValidEmail(email)
    ensures r == Some(WeakPasswordMessage) <==> IsValidName(name) && IsValidEmail(email) && !IsValidPassword(password)
  {
    if !IsValidName(name) then Some(InvalidNameMessage)
    else if !IsValidEmail(email) then Some(InvalidEmailMessage)
    else if !IsValidPassword(password) then Some(WeakPasswordMessage)
    else None
  }

  /** None when the job post is acceptable, otherwise the message of the
      first failing check in the order title, company, salary range. The
      salary check works on doubles and enters as its boolean verdict. */
  function ValidateJobPost(title: Option<string>, company: Option<string>, salaryRangeValid: bool): (r: Option<string>)
    ensures r.None? <==> IsValidJobTitle(title) && IsValidCompanyName(company) && salaryRangeValid
    ensures r == Some(InvalidTitleMessage) <==> !IsValidJobTitle(title)
    ensures r == Some(InvalidCompanyMessage) <==> IsValidJobTitle(title) && !IsValidCompanyName(company)
    ensures r == Some(InvalidSalaryMessage) <==> IsValidJobTitle(title) && IsValidCompanyName(company) && !salaryRangeValid
  {
    if !IsValidJobTitle(title) then Some(InvalidTitleMessage)
    else if !IsValidCompanyName(company) then Some(InvalidCompanyMessage)
    else if !salaryRangeValid then Some(InvalidSalaryMessage)
    else None
  }

  /** Boundary cases of the checks: a blank name of legal length is refused,
      experience is accepted exactly on 0..50, and a phone number may not
      start with 0 even after the `+`. */
  lemma ValidationBoundaries()
    ensures !IsValidName(Some("  "))
    ensures IsValidName(Some("Al"))
    ensures !IsValidName(Some("A"))
    ensures IsValidExperience(Some(0)) && IsValidExperience(Some(50))
    ensures !IsValidExperience(Some(-1)) && !IsValidExperience(Some(51)) && !IsValidExperience(None)
    ensures IsValidPhoneNumber(Some("+12")) && !IsValidPhoneNumber(Some("+02")) && !IsValidPhoneNumber(Some("1"))
    ensures IsValidEmail(Some("a@b")) && !IsValidEmail(Some("a@")) && !IsValidEmail(Some("@b"))
  {
    assert "Al"[0] > ' ';
    assert Utf16Length("Al") == 2 && Utf16Length("A") == 1;
    assert MatchesEmail("a@b") by { assert "a@b"[1] == '@'; }
  }

  /** Lengths are counted in UTF-16 units: one character beyond U+FFFF is
      long enough for a name but too short for a job title. */
  lemma LengthCountsUtf16Units()
    ensures IsValidName(Some("\U{1F600}")) && !IsValidJobTitle(Some("\U{1F600}"))
  {
    var smiley := "\U{1F600}";
    assert smiley[0] > '\U{FFFF}' && smiley[1..] == [];
    assert Utf16Length(smiley) == 2;
    assert smiley[0] > ' ';
  }
}
