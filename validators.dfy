/** The three fixed regular expressions of the sign-up and login forms, written as
    character-class predicates. Each pattern is stated twice where its reading is not
    immediate: once as the pattern reads (a ghost predicate), once as the check the
    forms use, with a lemma that the two accept the same strings. */
module Validators {
  import opened Text

  /** `\d` in a JavaScript regular expression: the ASCII digits only. */
  predicate IsDigit(c: char) { '0' <= c <= '9' }

  predicate IsLowerLetter(c: char) { 'a' <= c <= 'z' }

  predicate IsUpperLetter(c: char) { 'A' <= c <= 'Z' }

  /** The class `[@$!%*?&]` of the password pattern. */
  predicate IsSpecial(c: char) {
    c == '@' || c == '$' || c == '!' || c == '%' || c == '*' || c == '?' || c == '&'
  }

  /** The class `[A-Za-z\d@$!%*?&]` every password character must belong to. */
  predicate IsPasswordChar(c: char) {
    IsLowerLetter(c) || IsUpperLetter(c) || IsDigit(c) || IsSpecial(c)
  }

  /** `.` in a pattern without the `s` flag: any code point except a line terminator. */
  predicate IsDotChar(c: char) {
    c != '\n' && c != '\r' && c != '\U{2028}' && c != '\U{2029}'
  }

  // ---------------------------------------------------------------- email
  // /^[^\s@]+@[^\s@]+\.[^\s@]+$/

  /** A run of the class `[^\s@]`. */
  predicate Plain(s: string) {
    forall i | 0 <= i < |s| :: !IsSpace(s[i]) && s[i] != '@'
  }

  /** The email pattern as written: three non-empty runs of `[^\s@]`, the first two
      joined by '@', the last two by '.'. */
  ghost predicate EmailPattern(s: string) {
    exists i, j | 0 < i && i + 1 < j && j + 1 < |s| ::
      s[i] == '@' && s[j] == '.' && Plain(s[..i]) && Plain(s[i + 1..j]) && Plain(s[j + 1..])
  }

  /** The index of the first `c` in `s`, or `|s|` when there is none. */
  function IndexOf(s: string, c: char): (k: nat)
    ensures k <= |s|
    ensures k < |s| ==> s[k] == c
    ensures forall m | 0 <= m < k :: s[m] != c
  {
    if s == [] || s[0] == c then 0 else 1 + IndexOf(s[1..], c)
  }

  /** A '.' that is neither the first nor the last character. */
  predicate HasInnerDot(d: string) {
    exists j | 0 < j < |d| - 1 :: d[j] == '.'
  }

  /** The email check: no white space, exactly one '@' with something before it, and
      after it a '.' that is neither the first nor the last character of the domain. */
  predicate IsEmail(s: string) {
    var k := IndexOf(s, '@');
    && (forall i | 0 <= i < |s| :: !IsSpace(s[i]))
    && 0 < k < |s|
    && (forall i | k < i < |s| :: s[i] != '@')
    && HasInnerDot(s[k + 1..])
  }

  /** `s[a..b]` is a run of `[^\s@]` exactly when each of its characters is. */
  lemma PlainSlice(s: string, a: nat, b: nat)
    requires a <= b <= |s|
    ensures Plain(s[a..b]) <==> forall m | a <= m < b :: !IsSpace(s[m]) && s[m] != '@'
  {
    if forall m | a <= m < b :: !IsSpace(s[m]) && s[m] != '@' {
      forall m | 0 <= m < b - a ensures !IsSpace(s[a..b][m]) && s[a..b][m] != '@' {
        assert s[a..b][m] == s[a + m];
      }
    }
    if Plain(s[a..b]) {
      forall m | a <= m < b ensures !IsSpace(s[m]) && s[m] != '@' {
        assert s[m] == s[a..b][m - a];
      }
    }
  }

  /** A string the email pattern matches passes the email check. */
  lemma EmailPatternIsEmail(s: string)
    requires EmailPattern(s)
    ensures IsEmail(s)
  {
    var i, j :| 0 < i && i + 1 < j && j + 1 < |s| && s[i] == '@' && s[j] == '.'
      && Plain(s[..i]) && Plain(s[i + 1..j]) && Plain(s[j + 1..]);
    assert s[..i] == s[0..i];
    assert s[j + 1..] == s[j + 1..|s|];
    PlainSlice(s, 0, i);
    PlainSlice(s, i + 1, j);
    PlainSlice(s, j + 1, |s|);
    forall m | 0 <= m < |s| ensures !IsSpace(s[m]) {
      if m != i && m != j {
        assert !IsSpace(s[m]) && s[m] != '@';
      }
    }
    forall m | i < m < |s| ensures s[m] != '@' {
      if m != j {
        assert !IsSpace(s[m]) && s[m] != '@';
      }
    }
    var k := IndexOf(s, '@');
    assert k == i;
    assert s[i + 1..][j - i - 1] == '.';
  }

  /** A string that passes the email check is matched by the email pattern. */
  lemma IsEmailMatchesPattern(s: string)
    requires IsEmail(s)
    ensures EmailPattern(s)
  {
    var i := IndexOf(s, '@');
    var d := s[i + 1..];
    var jd :| 0 < jd < |d| - 1 && d[jd] == '.';
    var j := i + 1 + jd;
    assert s[j] == '.';
    PlainSlice(s, 0, i);
    PlainSlice(s, i + 1, j);
    PlainSlice(s, j + 1, |s|);
    assert s[..i] == s[0..i];
    assert s[j + 1..] == s[j + 1..|s|];
  }

  /** The email check accepts exactly the strings the email pattern matches. */
  lemma EmailPatternIff(s: string)
    ensures EmailPattern(s) <==> IsEmail(s)
  {
    if EmailPattern(s) {
      EmailPatternIsEmail(s);
    }
    if IsEmail(s) {
      IsEmailMatchesPattern(s);
    }
  }

  // ---------------------------------------------------------------- phone
  // /^(\+977)?9[78]\d{8}$/

  /** `9[78]\d{8}`: a ten-digit Nepali mobile number. */
  predicate IsMobileNumber(s: string) {
    && |s| == 10
    && s[0] == '9'
    && (s[1] == '7' || s[1] == '8')
    && forall i | 2 <= i < 10 :: IsDigit(s[i])
  }

  /** The phone check: a mobile number, optionally preceded by the country code "+977". */
  predicate IsNepalPhone(s: string)
    ensures IsNepalPhone(s) ==> |s| == 10 || |s| == 14
    ensures IsNepalPhone(s) ==> IsMobileNumber(s[|s| - 10..])
    ensures IsNepalPhone(s) && |s| == 14 ==> s[..4] == "+977"
  {
    || IsMobileNumber(s)
    || (|s| == 14 && s[..4] == "+977" && IsMobileNumber(s[4..]))
  }

  /** The phone pattern as written: the text splits into an optional group `\+977` and
      a `9[78]\d{8}` run that reaches the end. */
  ghost predicate PhonePattern(s: string) {
    exists k | 0 <= k <= |s| :: (s[..k] == "" || s[..k] == "+977") && IsMobileNumber(s[k..])
  }

  /** The phone check accepts exactly the strings the phone pattern matches. */
  lemma PhonePatternIff(s: string)
    ensures PhonePattern(s) <==> IsNepalPhone(s)
  {
    if PhonePattern(s) {
      var k :| 0 <= k <= |s| && (s[..k] == "" || s[..k] == "+977") && IsMobileNumber(s[k..]);
      if s[..k] == "" {
        assert s[k..] == s;
      } else {
        assert |s[..k]| == 4;
      }
    }
    if IsMobileNumber(s) {
      assert s[..0] == "" && s[0..] == s;
    } else if IsNepalPhone(s) {
      assert s[..4] == "+977";
    }
  }

  /** With the country code in front, exactly the mobile numbers are accepted, so the
      code cannot be given twice. */
  lemma CountryCodeOptional(m: string)
    ensures IsNepalPhone("+977" + m) <==> IsMobileNumber(m)
  {
    var s := "+977" + m;
    assert s[0] == '+';
    assert s[4..] == m;
    if |s| == 14 {
      assert s[..4] == "+977";
    }
  }

  // ---------------------------------------------------------------- password
  // /^(?=.*[a-z])(?=.*[A-Z])(?=.*\d)(?=.*[@$!%*?&])[A-Za-z\d@$!%*?&]{8,}$/

  /** `(?=.*C)` at the start of `s`: a character of class `cls` reachable from the start
      over characters that `.` matches. */
  ghost predicate Lookahead(s: string, cls: char -> bool) {
    exists i | 0 <= i < |s| :: cls(s[i]) && forall m | 0 <= m < i :: IsDotChar(s[m])
  }

  /** The password pattern as written: four lookaheads, then eight or more characters
      of the password class up to the end. */
  ghost predicate PasswordPattern(s: string) {
    && Lookahead(s, IsLowerLetter)
    && Lookahead(s, IsUpperLetter)
    && Lookahead(s, IsDigit)
    && Lookahead(s, IsSpecial)
    && |s| >= 8
    && forall i | 0 <= i < |s| :: IsPasswordChar(s[i])
  }

  predicate Contains(s: string, cls: char -> bool) {
    exists i | 0 <= i < |s| :: cls(s[i])
  }

  /** The password policy: at least eight characters, all from the password class, with
      a lower-case letter, an upper-case letter, a digit and a special character. */
  predicate IsStrongPassword(s: string) {
    && |s| >= 8
    && (forall i | 0 <= i < |s| :: IsPasswordChar(s[i]))
    && Contains(s, IsLowerLetter)
    && Contains(s, IsUpperLetter)
    && Contains(s, IsDigit)
    && Contains(s, IsSpecial)
  }

  /** Since no password character is a line terminator, each lookahead reduces to "the
      password contains such a character": the policy is exactly the pattern. */
  lemma PasswordPatternIff(s: string)
    ensures PasswordPattern(s) <==> IsStrongPassword(s)
  {
    if IsStrongPassword(s) {
      forall m | 0 <= m < |s| ensures IsDotChar(s[m]) {
        assert IsPasswordChar(s[m]);
      }
      LookaheadOfContains(s, IsLowerLetter);
      LookaheadOfContains(s, IsUpperLetter);
      LookaheadOfContains(s, IsDigit);
      LookaheadOfContains(s, IsSpecial);
    }
  }

  lemma LookaheadOfContains(s: string, cls: char -> bool)
    requires forall m | 0 <= m < |s| :: IsDotChar(s[m])
    ensures Contains(s, cls) <==> Lookahead(s, cls)
  {
  }
}
