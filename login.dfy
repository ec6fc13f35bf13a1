/**
 * The login screen (screens/home.jsx): the two required-field rules, the
 * navigation that forwards the username, the clear-on-edit handlers of its
 * two inputs, and the splash flag `isLoading`.
 */
module Login {
  import opened JsString
  import opened FormErrors

  const UsernameKey: string := "username"
  const PasswordKey: string := "password"

  /** The keys `handleLogin` can set. */
  const LoginKeys: set<string> := {UsernameKey, PasswordKey}

  const UsernameMessage: string := "Username is required."
  const PasswordMessage: string := "Password is required."

  /** Whether the rule guarding `key` fails. Unlike registration, the
      password is trimmed before it is tested. */
  predicate LoginRuleFails(username: string, password: string, key: string) {
    || (key == UsernameKey && IsBlank(username))
    || (key == PasswordKey && IsBlank(password))
  }

  function LoginMessage(key: string): string {
    if key == UsernameKey then UsernameMessage else PasswordMessage
  }

  /** The error object `handleLogin` stores: one entry per failing rule and
      no other key. */
  function LoginErrors(username: string, password: string): ErrorMap {
    map k | k in LoginKeys && LoginRuleFails(username, password, k) :: LoginMessage(k)
  }

  /** The two rules are independent: a key is present exactly when its field
      is empty or all whitespace, and the stored message is the rule's own. */
  lemma LoginErrorsRules(username: string, password: string)
    ensures var e := LoginErrors(username, password);
      && (UsernameKey in e <==> AllWhitespace(username))
      && (PasswordKey in e <==> AllWhitespace(password))
      && e.Keys <= LoginKeys
      && (forall k | k in e :: e[k] == LoginMessage(k) && e[k] != "")
  {
    BlankIffAllWhitespace(username);
    BlankIffAllWhitespace(password);
  }

  /** The navigation `handleLogin` performs. */
  function LoginOutcome(username: string, password: string): Outcome {
    if |LoginErrors(username, password)| == 0 then Navigate(CardRoute, UsernameParam(username)) else Stay
  }

  /** Login navigates to the card screen exactly when neither field is blank,
      and then forwards the username as typed, untrimmed. */
  lemma LoginNavigatesIffFilled(username: string, password: string)
    ensures var r := LoginOutcome(username, password);
      && (r.Navigate? <==> !AllWhitespace(username) && !AllWhitespace(password))
      && (r.Navigate? ==> r == Navigate(CardRoute, UsernameParam(username)))
  {
    LoginErrorsRules(username, password);
    EmptyIffNoKey(LoginErrors(username, password), LoginKeys);
  }

  /** After a submit a field shows an error exactly when its rule failed. */
  lemma LoginErrorsShown(username: string, password: string, key: string)
    ensures IsShown(LoginErrors(username, password), key) <==>
            key in LoginKeys && LoginRuleFails(username, password, key)
  {
  }

  /** A password of spaces only is rejected, although it is not empty. */
  lemma SpacesOnlyPasswordRejected(username: string)
    ensures PasswordKey in LoginErrors(username, "   ")
    ensures LoginOutcome(username, "   ") == Stay
  {
    LoginErrorsRules(username, "   ");
  }

  /** The validation half of `handleLogin`: starts from an empty error object
      and adds one entry per failing rule, in the source's order. */
  method ValidateLogin(username: string, password: string) returns (currentErrors: ErrorMap)
    ensures currentErrors == LoginErrors(username, password)
  {
    currentErrors := map[];
    if IsBlank(username) {
      currentErrors := currentErrors[UsernameKey := UsernameMessage];
    }
    if IsBlank(password) {
      currentErrors := currentErrors[PasswordKey := PasswordMessage];
    }
    ghost var spec := LoginErrors(username, password);
    forall k
      ensures k in currentErrors <==> k in spec
    {
      if k == UsernameKey {
      } else if k == PasswordKey {
      }
    }
  }

  /** The state hooks of the login screen. Each handler may change only the
      fields its `modifies` clause names; in particular only `FinishLoading`
      writes `isLoading`, and it writes `false`. */
  class LoginScreen {
    var username: string
    var password: string
    var isLoading: bool
    var errors: ErrorMap

    constructor ()
      ensures username == "" && password == ""
      ensures isLoading
      ensures errors == map[]
    {
      username, password := "", "";
      isLoading := true;
      errors := map[];
    }

    /** The splash timer firing. */
    method FinishLoading()
      modifies this`isLoading
      ensures !isLoading
    {
      isLoading := false;
    }

    /** `handleLogin`: validates the current fields, replaces the stored error
        object by the result (so nothing from an earlier submit or edit
        survives), and navigates with the username when it has no keys. */
    method Submit() returns (outcome: Outcome)
      modifies this`errors
      ensures errors == LoginErrors(username, password)
      ensures outcome == LoginOutcome(username, password)
    {
      var currentErrors := ValidateLogin(username, password);
      errors := currentErrors;
      if |currentErrors| == 0 {
        outcome := Navigate(CardRoute, UsernameParam(username));
      } else {
        outcome := Stay;
      }
    }

    /** The username input's `onChangeText`. */
    method EditUsername(text: string)
      modifies this`username, this`errors
      ensures username == text
      ensures errors == ClearError(old(errors), UsernameKey)
    {
      username := text;
      errors := ClearError(errors, UsernameKey);
    }

    /** The password input's `onChangeText`. */
    method EditPassword(text: string)
      modifies this`password, this`errors
      ensures password == text
      ensures errors == ClearError(old(errors), PasswordKey)
    {
      password := text;
      errors := ClearError(errors, PasswordKey);
    }
  }
}
