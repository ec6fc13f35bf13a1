/**
 * The registration screen (screens/Register.jsx): the email shape check,
 * the four independent sign-up rules, the decision to navigate, and the
 * clear-on-edit handlers of its four inputs.
 */
module Register {
  import opened JsString
  import opened FormErrors

  // ---------------------------------------------------------------------
  // The email shape /^[^\s@]+@[^\s@]+\.[^\s@]+$/
  // ---------------------------------------------------------------------

  /** The character class `[^\s@]`. */
  predicate IsEmailChar(c: char) {
    !IsWhitespace(c) && c != '@'
  }

  predicate AllEmailChars(s: string) {
    forall i | 0 <= i < |s| :: IsEmailChar(s[i])
  }

  /** `[^\s@]+`: one or more characters of the class. */
  predicate IsEmailRun(s: string) {
    s != [] && AllEmailChars(s)
  }

  /** What the regular expression accepts: the whole string is a run, an `@`,
      a run, a literal `.`, and a run, for some choice of the two split points. */
  ghost predicate MatchesEmailPattern(s: string) {
    exists at, dot | 0 <= at < dot < |s| ::
      && s[at] == '@' && s[dot] == '.'
      && IsEmailRun(s[..at]) && IsEmailRun(s[at + 1..dot]) && IsEmailRun(s[dot + 1..])
  }

  /** The domain has a `.` that is neither its first nor its last character. */
  predicate HasInnerDot(domain: string) {
    |domain| >= 3 && '.' in domain[1..|domain| - 1]
  }

  /** `isValidEmail`: decides the pattern by splitting at the first `@`. */
  predicate IsValidEmail(email: string) {
    var at := IndexOf(email, '@');
    && at < |email|
    && IsEmailRun(email[..at])
    && AllEmailChars(email[at + 1..])
    && HasInnerDot(email[at + 1..])
  }

  /** The decision procedure accepts exactly the strings the pattern matches. */
  lemma IsValidEmailMatchesPattern(s: string)
    ensures IsValidEmail(s) <==> MatchesEmailPattern(s)
  {
    if IsValidEmail(s) {
      ValidEmailMatches(s);
    }
    if MatchesEmailPattern(s) {
      var at, dot :| && 0 <= at < dot < |s|
                     && s[at] == '@' && s[dot] == '.'
                     && IsEmailRun(s[..at]) && IsEmailRun(s[at + 1..dot]) && IsEmailRun(s[dot + 1..]);
      MatchIsValidEmail(s, at, dot);
    }
  }

  /** Splitting at the first `@` and at the inner dot gives the pattern's three runs. */
  lemma ValidEmailMatches(s: string)
    requires IsValidEmail(s)
    ensures MatchesEmailPattern(s)
  {
    var at := IndexOf(s, '@');
    var d := s[at + 1..];
    var m :| 0 <= m < |d[1..|d| - 1]| && d[1..|d| - 1][m] == '.';
    var dot := at + 2 + m;
    assert s[dot] == '.';
    assert s[at + 1..dot] == d[..m + 1];
    assert s[dot + 1..] == d[m + 2..];
    assert IsEmailRun(s[at + 1..dot]) && IsEmailRun(s[dot + 1..]);
  }

  /** Any match of the pattern splits at the first `@`, so the decision
      procedure accepts it. */
  lemma MatchIsValidEmail(s: string, at: nat, dot: nat)
    requires at < dot < |s| && s[at] == '@' && s[dot] == '.'
    requires IsEmailRun(s[..at]) && IsEmailRun(s[at + 1..dot]) && IsEmailRun(s[dot + 1..])
    ensures IndexOf(s, '@') == at
    ensures IsValidEmail(s)
  {
    var k := IndexOf(s, '@');
    assert k == at;
    var d := s[at + 1..];
    forall i | 0 <= i < |d|
      ensures IsEmailChar(d[i])
    {
      if at + 1 + i < dot {
        assert d[i] == s[at + 1..dot][i];
      } else if at + 1 + i > dot {
        assert d[i] == s[dot + 1..][at + i - dot];
      }
    }
    assert d[1..|d| - 1][dot - at - 2] == '.';
  }

  /** A valid email holds exactly one `@`. */
  lemma ValidEmailHasOneAt(s: string)
    requires IsValidEmail(s)
    ensures multiset(s)['@'] == 1
  {
    var at := IndexOf(s, '@');
    assert s == s[..at] + [s[at]] + s[at + 1..];
    assert '@' !in s[..at] && '@' !in s[at + 1..];
    assert multiset(s) == multiset(s[..at]) + multiset{'@'} + multiset(s[at + 1..]);
  }

  /** An email without `@`, or without a `.` after its `@`, is rejected. */
  lemma EmailLackingAtOrDotRejected(s: string)
    requires '@' !in s || forall i | 0 <= i < |s| && s[i] == '@' :: '.' !in s[i + 1..]
    ensures !IsValidEmail(s)
  {
  }

  // ---------------------------------------------------------------------
  // handleSignUp
  // ---------------------------------------------------------------------

  const NameKey: string := "name"
  const EmailKey: string := "email"
  const PasswordKey: string := "password"
  const ConfirmPasswordKey: string := "confirmPassword"

  /** The keys `handleSignUp` can set. */
  const SignUpKeys: set<string> := {NameKey, EmailKey, PasswordKey, ConfirmPasswordKey}

  const NameMessage: string := "Name cannot be empty."
  const EmailMessage: string := "Please enter a valid email address."
  const PasswordMessage: string := "Password must be at least 6 characters long."
  const ConfirmPasswordMessage: string := "Passwords do not match."

  const MinPasswordLength: nat := 6

  /** Whether the rule guarding `key` fails on the given field values. */
  predicate SignUpRuleFails(name: string, email: string, password: string, confirmPassword: string, key: string) {
    || (key == NameKey && IsBlank(name))
    || (key == EmailKey && !IsValidEmail(email))
    || (key == PasswordKey && Utf16Length(password) < MinPasswordLength)
    || (key == ConfirmPasswordKey && password != confirmPassword)
  }

  function SignUpMessage(key: string): string {
    if key == NameKey then NameMessage
    else if key == EmailKey then EmailMessage
    else if key == PasswordKey then PasswordMessage
    else ConfirmPasswordMessage
  }

  /** The error object `handleSignUp` stores: one entry per failing rule and
      no other key. */
  function SignUpErrors(name: string, email: string, password: string, confirmPassword: string): ErrorMap {
    map k | k in SignUpKeys && SignUpRuleFails(name, email, password, confirmPassword, k) :: SignUpMessage(k)
  }

  /** Each rule is judged on its own: a key is present exactly when its rule
      fails, stated against whitespace and the email pattern directly, and the
      stored message is the rule's own. */
  lemma SignUpErrorsRules(name: string, email: string, password: string, confirmPassword: string)
    ensures var e := SignUpErrors(name, email, password, confirmPassword);
      && (NameKey in e <==> AllWhitespace(name))
      && (EmailKey in e <==> !MatchesEmailPattern(email))
      && (PasswordKey in e <==> Utf16Length(password) < MinPasswordLength)
      && (ConfirmPasswordKey in e <==> password != confirmPassword)
      && e.Keys <= SignUpKeys
      && (forall k | k in e :: e[k] == SignUpMessage(k) && e[k] != "")
  {
    BlankIffAllWhitespace(name);
    IsValidEmailMatchesPattern(email);
  }

  /** The navigation `handleSignUp` performs. */
  function SignUpOutcome(name: string, email: string, password: string, confirmPassword: string): Outcome {
    if |SignUpErrors(name, email, password, confirmPassword)| == 0 then Navigate(CardRoute, NoParams) else Stay
  }

  /** Registration navigates to the card screen, without parameters, exactly
      when every rule passes; otherwise it stays. */
  lemma SignUpNavigatesIffValid(name: string, email: string, password: string, confirmPassword: string)
    ensures var r := SignUpOutcome(name, email, password, confirmPassword);
      && (r.Navigate? <==>
            && !AllWhitespace(name)
            && MatchesEmailPattern(email)
            && Utf16Length(password) >= MinPasswordLength
            && password == confirmPassword)
      && (r.Navigate? ==> r == Navigate(CardRoute, NoParams))
  {
    SignUpErrorsRules(name, email, password, confirmPassword);
    EmptyIffNoKey(SignUpErrors(name, email, password, confirmPassword), SignUpKeys);
  }

  /** The validation half of `handleSignUp`: starts from an empty error
      object and adds one entry per failing rule, in the source's order. */
  method ValidateSignUp(name: string, email: string, password: string, confirmPassword: string)
    returns (currentErrors: ErrorMap)
    ensures currentErrors == SignUpErrors(name, email, password, confirmPassword)
  {
    currentErrors := map[];
    if IsBlank(name) {
      currentErrors := currentErrors[NameKey := NameMessage];
    }
    if !IsValidEmail(email) {
      currentErrors := currentErrors[EmailKey := EmailMessage];
    }
    if Utf16Length(password) < MinPasswordLength {
      currentErrors := currentErrors[PasswordKey := PasswordMessage];
    }
    if password != confirmPassword {
      currentErrors := currentErrors[ConfirmPasswordKey := ConfirmPasswordMessage];
    }
    ghost var spec := SignUpErrors(name, email, password, confirmPassword);
    forall k
      ensures k in currentErrors <==> k in spec
    {
      if k == NameKey {
      } else if k == EmailKey {
      } else if k == PasswordKey {
      } else if k == ConfirmPasswordKey {
      }
    }
  }

  /** Every stored message is rendered: after a submit a field shows an error
      exactly when its rule failed. */
  lemma SignUpErrorsShown(name: string, email: string, password: string, confirmPassword: string, key: string)
    ensures IsShown(SignUpErrors(name, email, password, confirmPassword), key) <==>
            key in SignUpKeys && SignUpRuleFails(name, email, password, confirmPassword, key)
  {
  }

  /** The worked example: an empty name, "a@b" and a short but matching
      password flag name, email and password, and not the confirmation. */
  lemma SignUpExample()
    ensures SignUpErrors("", "a@b", "abc", "abc").Keys == {NameKey, EmailKey, PasswordKey}
    ensures SignUpOutcome("", "a@b", "abc", "abc") == Stay
  {
    IsValidEmailMatchesPattern("a@b");
    assert Utf16Length("abc") == 3;
  }

  /** The password is not trimmed: six spaces satisfy the length rule. */
  lemma SixSpacePasswordAccepted(name: string, email: string, confirmPassword: string)
    ensures PasswordKey !in SignUpErrors(name, email, "      ", confirmPassword)
  {
    Utf16LengthOfBmp("      ");
  }

  // ---------------------------------------------------------------------
  // The screen's state
  // ---------------------------------------------------------------------

  /** The state hooks of the registration screen. Each handler may change
      only the fields its `modifies` clause names. */
  class SignUpScreen {
    var name: string
    var email: string
    var password: string
    var confirmPassword: string
    var errors: ErrorMap

    constructor ()
      ensures name == "" && email == "" && password == "" && confirmPassword == ""
      ensures errors == map[]
    {
      name, email, password, confirmPassword := "", "", "", "";
      errors := map[];
    }

    /** `handleSignUp`: validates the current fields, replaces the stored
        error object by the result, and navigates when it has no keys. */
    method Submit() returns (outcome: Outcome)
      modifies this`errors
      ensures errors == SignUpErrors(name, email, password, confirmPassword)
      ensures outcome == SignUpOutcome(name, email, password, confirmPassword)
    {
      var currentErrors := ValidateSignUp(name, email, password, confirmPassword);
      errors := currentErrors;
      if |currentErrors| == 0 {
        outcome := Navigate(CardRoute, NoParams);
      } else {
        outcome := Stay;
      }
    }

    /** The name input's `onChangeText`. */
    method EditName(text: string)
      modifies this`name, this`errors
      ensures name == text
      ensures errors == ClearError(old(errors), NameKey)
    {
      name := text;
      errors := ClearError(errors, NameKey);
    }

    /** The email input's `onChangeText`. */
    method EditEmail(text: string)
      modifies this`email, this`errors
      ensures email == text
      ensures errors == ClearError(old(errors), EmailKey)
    {
      email := text;
      errors := ClearError(errors, EmailKey);
    }

    /** The password input's `onChangeText`. */
    method EditPassword(text: string)
      modifies this`password, this`errors
      ensures password == text
      ensures errors == ClearError(old(errors), PasswordKey)
    {
      password := text;
      errors := ClearError(errors, PasswordKey);
    }

    /** The confirm-password input's `onChangeText`. */
    method EditConfirmPassword(text: string)
      modifies this`confirmPassword, this`errors
      ensures confirmPassword == text
      ensures errors == ClearError(old(errors), ConfirmPasswordKey)
    {
      confirmPassword := text;
      errors := ClearError(errors, ConfirmPasswordKey);
    }
  }
}
