/** The sign-up page (src/app/signup/page.tsx): the password rules, the email
    pattern, the order of the submit checks and the password strength bar. */
module Signup {
  import opened Collections
  import opened Text

  /** Some character of `s` lies in `lo..hi` (`/[lo-hi]/.test(s)`). */
  ghost predicate HasCharIn(s: string, lo: char, hi: char) {
    exists i :: 0 <= i < |s| && lo <= s[i] <= hi
  }

  /** The scan a character-class test performs. */
  function ScanFor(s: string, lo: char, hi: char): (found: bool)
    ensures found <==> HasCharIn(s, lo, hi)
  {
    if s == [] then false
    else if lo <= s[0] <= hi then true
    else
      var rest := ScanFor(s[1..], lo, hi);
      assert HasCharIn(s, lo, hi) ==> HasCharIn(s[1..], lo, hi) by {
        if HasCharIn(s, lo, hi) {
          var i :| 0 <= i < |s| && lo <= s[i] <= hi;
          assert i > 0 && s[1..][i - 1] == s[i];
        }
      }
      assert HasCharIn(s[1..], lo, hi) ==> HasCharIn(s, lo, hi) by {
        if HasCharIn(s[1..], lo, hi) {
          var i :| 0 <= i < |s[1..]| && lo <= s[1..][i] <= hi;
          assert s[i + 1] == s[1..][i];
        }
      }
      rest
  }

  /** `passwordRules` */
  datatype PasswordRules = PasswordRules(length: bool, upper: bool, lower: bool, number: bool)

  function Rules(password: string): PasswordRules {
    PasswordRules(|password| >= 6, ScanFor(password, 'A', 'Z'), ScanFor(password, 'a', 'z'), ScanFor(password, '0', '9'))
  }

  /** `isPasswordValid`: every rule holds. */
  predicate IsPasswordValid(password: string) {
    var r := Rules(password);
    r.length && r.upper && r.lower && r.number
  }

  /** A password is valid exactly when it has six characters or more, an upper
      case letter, a lower case letter and a digit. */
  lemma PasswordValidIff(password: string)
    ensures IsPasswordValid(password) <==>
      && |password| >= 6
      && (exists i :: 0 <= i < |password| && 'A' <= password[i] <= 'Z')
      && (exists i :: 0 <= i < |password| && 'a' <= password[i] <= 'z')
      && (exists i :: 0 <= i < |password| && '0' <= password[i] <= '9')
  {
    assert ScanFor(password, 'A', 'Z') <==> HasCharIn(password, 'A', 'Z');
    assert ScanFor(password, 'a', 'z') <==> HasCharIn(password, 'a', 'z');
    assert ScanFor(password, '0', '9') <==> HasCharIn(password, '0', '9');
  }

  /** No character is whitespace or `@` (`[^\s@]+` without the `+`). */
  predicate NoSpaceOrAt(s: string) {
    forall i :: 0 <= i < |s| ==> !IsJsSpace(s[i]) && s[i] != '@'
  }

  /** `s` splits as local part, `@`, domain label, `.`, rest, each part
      non-empty and free of whitespace and `@`. */
  predicate EmailSplit(s: string, k: int, j: int) {
    && 0 < k && k + 1 < j && j + 1 < |s|
    && s[k] == '@' && s[j] == '.'
    && NoSpaceOrAt(s[..k]) && NoSpaceOrAt(s[k + 1..j]) && NoSpaceOrAt(s[j + 1..])
  }

  /** `/^[^\s@]+@[^\s@]+\.[^\s@]+$/.test(s)`: some split matches. */
  ghost predicate MatchesEmailPattern(s: string) {
    exists k, j :: EmailSplit(s, k, j)
  }

  /** `indexOf(c)`: the first index of `c`, or -1. */
  function IndexOf(s: string, c: char): (i: int)
    ensures -1 <= i < |s|
    ensures i == -1 <==> c !in s
    ensures i >= 0 ==> s[i] == c && c !in s[..i]
  {
    if s == [] then -1
    else if s[0] == c then 0
    else
      var k := IndexOf(s[1..], c);
      assert s == [s[0]] + s[1..];
      if k == -1 then -1
      else
        assert s[..k + 1] == [s[0]] + s[1..][..k];
        k + 1
  }

  /** The email is accepted: no whitespace, exactly one `@`, a non-empty part
      before it, and a `.` in the domain that is neither its first nor its last
      character. */
  predicate IsValidEmail(s: string) {
    && (forall i :: 0 <= i < |s| ==> !IsJsSpace(s[i]))
    && multiset(s)['@'] == 1
    && var k := IndexOf(s, '@');
       k > 0 && exists j :: k + 1 < j < |s| - 1 && s[j] == '.'
  }

  lemma {:induction false} NoAt(s: string)
    requires NoSpaceOrAt(s)
    ensures '@' !in s && multiset(s)['@'] == 0
  {
  }

  lemma SplitParts(s: string, k: int, j: int)
    requires 0 < k < j < |s|
    ensures s == s[..k] + [s[k]] + s[k + 1..j] + [s[j]] + s[j + 1..]
  {
  }

  lemma PatternGivesValid(s: string, k: int, j: int)
    requires EmailSplit(s, k, j)
    ensures IsValidEmail(s)
  {
    SplitParts(s, k, j);
    var a, b, c := s[..k], s[k + 1..j], s[j + 1..];
    NoAt(a);
    NoAt(b);
    NoAt(c);
    assert multiset(s) == multiset(a) + multiset{'@'} + multiset(b) + multiset{'.'} + multiset(c);
    forall i | 0 <= i < |s| ensures !IsJsSpace(s[i]) {
      if i < k {
        assert s[i] == a[i];
      } else if k < i < j {
        assert s[i] == b[i - k - 1];
      } else if i > j {
        assert s[i] == c[i - j - 1];
      }
    }
    assert IndexOf(s, '@') == k by {
      var f := IndexOf(s, '@');
      assert '@' in s;
    }
  }

  lemma {:induction false} TwoAts(s: string, i: int, k: int)
    requires 0 <= i < k < |s| && s[i] == '@' && s[k] == '@'
    ensures multiset(s)['@'] >= 2
  {
    assert s == s[..k] + s[k..];
    assert s[..k][i] == '@';
    assert s[k..][0] == '@';
    assert '@' in s[..k] && '@' in s[k..];
  }

  lemma ValidGivesPattern(s: string) returns (k: int, j: int)
    requires IsValidEmail(s)
    ensures EmailSplit(s, k, j)
  {
    k := IndexOf(s, '@');
    j :| k + 1 < j < |s| - 1 && s[j] == '.';
    forall i | 0 <= i < |s| && i != k ensures s[i] != '@' {
      if s[i] == '@' {
        if i > k {
          TwoAts(s, k, i);
        }
      }
    }
    var a, b, c := s[..k], s[k + 1..j], s[j + 1..];
    forall i | 0 <= i < |a| ensures !IsJsSpace(a[i]) && a[i] != '@' {
      assert a[i] == s[i];
    }
    forall i | 0 <= i < |b| ensures !IsJsSpace(b[i]) && b[i] != '@' {
      assert b[i] == s[i + k + 1];
    }
    forall i | 0 <= i < |c| ensures !IsJsSpace(c[i]) && c[i] != '@' {
      assert c[i] == s[i + j + 1];
    }
  }

  /** The computed check accepts exactly the strings the pattern matches. */
  lemma EmailPatternIff(s: string)
    ensures MatchesEmailPattern(s) <==> IsValidEmail(s)
  {
    if MatchesEmailPattern(s) {
      var k, j :| EmailSplit(s, k, j);
      PatternGivesValid(s, k, j);
    }
    if IsValidEmail(s) {
      var k, j := ValidGivesPattern(s);
    }
  }

  const INVALID_EMAIL: string := "Please enter a valid email"
  const PASSWORDS_DIFFER: string := "Passwords do not match"
  const TERMS_NOT_ACCEPTED: string := "You must accept the terms"
  const FIX_EMAIL: string := "Please fix your email address"
  const SIGN_UP_FAILED: string := "Sign up failed"
  const SIGN_UP_OK: string := "Sign up successful!"
  const UNEXPECTED: string := "An unexpected error occurred"

  /** `hidePasswordHints`; `score` is the strength score, 0 for an empty password. */
  predicate HidePasswordHints(password: string, confirm: string, score: int) {
    password == "" || (score >= 4 && password == confirm)
  }

  /** The hints are hidden for an empty password, and otherwise only for a
      strong password that is confirmed: a weak or unconfirmed password always
      shows them, whatever the rules say. */
  lemma HintsShown(password: string, confirm: string, score: int)
    ensures !HidePasswordHints(password, confirm, score) <==>
      password != "" && (score < 4 || password != confirm)
  {
  }

  /** The hints depend on the score and the confirmation only, not on the
      rules: a confirmed strong password hides them even when a rule fails. */
  lemma HintsHiddenWithUnmetRule()
    ensures HidePasswordHints("correcthorsebattery", "correcthorsebattery", 4)
    ensures !IsPasswordValid("correcthorsebattery")
  {
    var p := "correcthorsebattery";
    assert !HasCharIn(p, 'A', 'Z') by {
      forall i | 0 <= i < |p| ensures !('A' <= p[i] <= 'Z') {
        assert 'a' <= p[i] <= 'z';
      }
    }
  }

  /** The width of the strength bar, in fifths of the track. */
  function StrengthFifths(score: int): (w: nat)
    ensures 1 <= w <= 5
    ensures w == 5 <==> !(0 <= score <= 3)
  {
    if score == 0 then 1
    else if score == 1 then 2
    else if score == 2 then 3
    else if score == 3 then 4
    else 5
  }

  /** A better score never gives a shorter bar over the scores 0 to 4 that the
      scorer produces, and each step of the score adds one fifth up to 4. */
  lemma StrengthMonotone(s: int, t: int)
    requires 0 <= s <= t <= 4
    ensures StrengthFifths(s) <= StrengthFifths(t)
    ensures StrengthFifths(s) == s + 1
  {
  }

  /** `disabled={loading || !isPasswordValid}` */
  predicate SubmitDisabled(loading: bool, password: string) {
    loading || !IsPasswordValid(password)
  }

  /** The button can be pressed exactly when nothing is loading and the
      password has six characters or more, a capital, a small letter and a digit. */
  lemma SubmitEnabledIff(loading: bool, password: string)
    ensures !SubmitDisabled(loading, password) <==>
      && !loading && |password| >= 6
      && (exists i :: 0 <= i < |password| && 'A' <= password[i] <= 'Z')
      && (exists i :: 0 <= i < |password| && 'a' <= password[i] <= 'z')
      && (exists i :: 0 <= i < |password| && '0' <= password[i] <= '9')
  {
    PasswordValidIff(password);
  }

  /** The sign-up request body. */
  datatype SignupRequest = SignupRequest(
    email: string, password: string, termsAccepted: bool, consented: bool, firstName: string, lastName: string)

  /** How the request ended: an exception (also when the body is not JSON), or
      the parsed body with the response's `ok`, and its `message`, `token` and
      `email`. */
  datatype SignupReply = SignupThrew | SignupJson(ok: bool, message: Option<string>, token: string, email: string)

  /** `data.message || fallback` */
  function MessageOr(m: Option<string>, fallback: string): (r: string)
    ensures m.Some? && m.value != "" ==> r == m.value
    ensures m.None? || m.value == "" ==> r == fallback
  {
    if m.Some? && m.value != "" then m.value else fallback
  }

  /** Where a successful sign-up sends the browser: the verification page with
      the token and the address. */
  datatype Redirect = VerifyEmail(token: string, email: string)

  /** The seven inputs a successful sign-up clears. */
  datatype SignupFields = SignupFields(
    firstName: string, lastName: string, email: string, password: string, confirmPassword: string,
    termsAccepted: bool, consented: bool)

  const EMPTY_FIELDS: SignupFields := SignupFields("", "", "", "", "", false, false)

  class SignupForm {
    var fields: SignupFields
    var passwordScore: int
    var loading: bool
    var error: string
    var success: string
    var emailError: string
    /** The requests sent, the token stored, and the redirects, oldest first. */
    var sent: seq<SignupRequest>
    var storedToken: Option<string>
    var redirects: seq<Redirect>
    /** Requests whose reply has not come back yet. */
    ghost var pending: nat

    constructor()
      ensures fields == EMPTY_FIELDS && passwordScore == 0 && !loading
      ensures error == "" && success == "" && emailError == ""
      ensures sent == [] && storedToken == None && redirects == [] && pending == 0
    {
      fields := EMPTY_FIELDS;
      passwordScore, loading := 0, false;
      error, success, emailError := "", "", "";
      sent, storedToken, redirects := [], None, [];
      pending := 0;
    }

    /** The submit button's state. */
    predicate Disabled()
      reads this
    {
      SubmitDisabled(loading, fields.password)
    }

    /** `handleEmailChange`: the field's error is recomputed on every change. */
    method HandleEmailChange(value: string)
      modifies this
      ensures fields == old(fields).(email := value)
      ensures emailError == "" <==> IsValidEmail(value)
      ensures emailError != "" ==> emailError == INVALID_EMAIL
      ensures passwordScore == old(passwordScore) && loading == old(loading)
      ensures error == old(error) && success == old(success) && sent == old(sent)
      ensures storedToken == old(storedToken) && redirects == old(redirects) && pending == old(pending)
    {
      fields := fields.(email := value);
      emailError := if IsValidEmail(value) then "" else INVALID_EMAIL;
    }

    /** A new password with the score the strength estimator gives it; the
        score of an empty password is 0. */
    method SetPassword(value: string, estimate: int)
      modifies this
      ensures fields == old(fields).(password := value)
      ensures passwordScore == (if value == "" then 0 else estimate)
      ensures emailError == old(emailError) && loading == old(loading)
      ensures error == old(error) && success == old(success) && sent == old(sent)
      ensures storedToken == old(storedToken) && redirects == old(redirects) && pending == old(pending)
    {
      fields := fields.(password := value);
      passwordScore := if value == "" then 0 else estimate;
    }

    /** Any other input: names, the confirmation and the two checkboxes. */
    method SetOtherFields(firstName: string, lastName: string, confirm: string, terms: bool, consented: bool)
      modifies this
      ensures fields == old(fields).(firstName := firstName, lastName := lastName, confirmPassword := confirm,
                                     termsAccepted := terms, consented := consented)
      ensures passwordScore == old(passwordScore) && emailError == old(emailError) && loading == old(loading)
      ensures error == old(error) && success == old(success) && sent == old(sent)
      ensures storedToken == old(storedToken) && redirects == old(redirects) && pending == old(pending)
    {
      fields := fields.(firstName := firstName, lastName := lastName, confirmPassword := confirm,
                        termsAccepted := terms, consented := consented);
    }

    /** `handleSubmit` up to its request. The checks run in order, the first
        failing one sets its message and stops; only when all pass is the
        form marked loading and the request sent. */
    method BeginSubmit() returns (submitted: bool)
      modifies this
      ensures success == ""
      ensures submitted <==> fields.password == fields.confirmPassword && fields.termsAccepted && emailError == ""
      ensures fields.password != fields.confirmPassword ==> error == PASSWORDS_DIFFER
      ensures fields.password == fields.confirmPassword && !fields.termsAccepted ==> error == TERMS_NOT_ACCEPTED
      ensures fields.password == fields.confirmPassword && fields.termsAccepted && emailError != "" ==> error == FIX_EMAIL
      ensures submitted ==>
        && error == "" && loading
        && sent == old(sent) + [SignupRequest(fields.email, fields.password, fields.termsAccepted,
                                              fields.consented, fields.firstName, fields.lastName)]
        && pending == old(pending) + 1
      ensures !submitted ==> loading == old(loading) && sent == old(sent) && pending == old(pending)
      ensures fields == old(fields) && emailError == old(emailError) && passwordScore == old(passwordScore)
      ensures storedToken == old(storedToken) && redirects == old(redirects)
    {
      error := "";
      success := "";
      if fields.password != fields.confirmPassword {
        error := PASSWORDS_DIFFER;
        return false;
      }
      if !fields.termsAccepted {
        error := TERMS_NOT_ACCEPTED;
        return false;
      }
      if emailError != "" {
        error := FIX_EMAIL;
        return false;
      }
      loading := true;
      var f := fields;
      sent := sent + [SignupRequest(f.email, f.password, f.termsAccepted, f.consented, f.firstName, f.lastName)];
      pending := pending + 1;
      return true;
    }

    /** The rest of `handleSubmit`. A failure status shows the server's message
        or "Sign up failed"; an exception shows the generic message; success
        shows the server's message or the default one, stores the token,
        redirects to the verification page and clears the seven fields (the
        score of the now empty password is 0). Loading ends on every path. */
    method CompleteSubmit(reply: SignupReply)
      requires pending > 0
      modifies this
      ensures !loading
      ensures reply.SignupThrew? ==> error == UNEXPECTED && success == old(success)
      ensures reply.SignupJson? && !reply.ok ==> error == MessageOr(reply.message, SIGN_UP_FAILED) && success == old(success)
      ensures reply.SignupJson? && reply.ok ==>
        && success == MessageOr(reply.message, SIGN_UP_OK) && error == old(error)
        && storedToken == Some(reply.token)
        && redirects == old(redirects) + [VerifyEmail(reply.token, reply.email)]
        && fields == EMPTY_FIELDS && passwordScore == 0
      ensures !(reply.SignupJson? && reply.ok) ==>
        && storedToken == old(storedToken) && redirects == old(redirects)
        && fields == old(fields) && passwordScore == old(passwordScore)
      ensures emailError == old(emailError) && sent == old(sent) && pending == old(pending) - 1
    {
      if reply.SignupThrew? {
        error := UNEXPECTED;
      } else if !reply.ok {
        error := MessageOr(reply.message, SIGN_UP_FAILED);
      } else {
        success := MessageOr(reply.message, SIGN_UP_OK);
        storedToken := Some(reply.token);
        redirects := redirects + [VerifyEmail(reply.token, reply.email)];
        fields := EMPTY_FIELDS;
        passwordScore := 0;
      }
      loading := false;
      pending := pending - 1;
    }
  }
}
