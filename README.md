# Form validation of the login and registration screens

The app has two forms. The login screen (`screens/home.jsx`) needs a username
and a password, and forwards the username to the card screen. The
registration screen (`screens/Register.jsx`) checks a name, an email address, a
password and its confirmation. Both screens keep an `errors` object in state.
It maps a field key to a message, and each message is shown under its input.
This project models that validation, the decision to navigate, the
clear-on-edit handlers and the login screen's `isLoading` splash flag.

Layout:

- `js_string.dfy` (module `JsString`): the JavaScript string operations the
  forms use. It defines the whitespace set shared by `trim()` and the regular
  expression class `\s`, `trim()` itself, the test `!s.trim()` (`IsBlank`), and
  `length` counted in UTF-16 code units (`Utf16Length`), and the first-occurrence
  search (`IndexOf`) that the email check uses.
- `form_errors.dfy` (module `FormErrors`): the error object as
  `map<string, string>`. It holds the update `{ ...errors, field: '' }`
  (`ClearError`), the display test `errors.field && …` (`IsShown`), and the
  navigation outcome (`Stay`, or `Navigate` with a route and parameters).
- `register.dfy` (module `Register`): the email pattern and the four
  registration rules, plus the class `SignUpScreen` holding the screen's
  state hooks.
- `login.dfy` (module `Login`): the two login rules, plus the class
  `LoginScreen` holding the screen's state hooks.

Each screen has a reference function (`SignUpErrors`, `LoginErrors`). It
defines the error object as "one entry per failing rule, over the screen's key
set". A method (`ValidateSignUp`, `ValidateLogin`) builds the object the way
the source does: it starts from `{}` and adds one key per failing `if`. The
method is proved equal to the reference function. Lemmas then state what the
reference function means:

- a key is present exactly when its rule fails;
- blank is stated as "all whitespace";
- the email rule is stated against the regular expression's own semantics.

The classes' `Submit` methods store the validated object and return the
navigation outcome. The `Edit…` methods are the `onChangeText` handlers.

The regular expression `/^[^\s@]+@[^\s@]+\.[^\s@]+$/` is modelled twice.
`MatchesEmailPattern` is what the pattern accepts: a run, `@`, a run, `.`, a
run, for some choice of split points. `IsValidEmail` is a decision procedure
that splits at the first `@`. The two are proved equivalent in both
directions.

Notes on the source:

- `handleSignUp` leaves the four fields as they are after a successful
  submit, so `SignUpScreen.Submit` modifies only `errors`.
- `password.length` counts UTF-16 code units. The model therefore uses
  `Utf16Length`, not the number of Dafny characters. For text in the Basic
  Multilingual Plane the two agree (`Utf16LengthOfBmp`).

## Model

| member | source | states |
|---|---|---|
| JsString.TrimStartSpec | screens/Register.jsx:26 | removing leading whitespace leaves a suffix of the input, everything removed is whitespace, and the result does not start with whitespace |
| JsString.TrimEndSpec | screens/home.jsx:21 | removing trailing whitespace leaves a prefix of the input, everything removed is whitespace, and the result does not end with whitespace |
| JsString.TrimSpec | screens/home.jsx:24 | `trim()` returns a contiguous slice of the input that neither starts nor ends with whitespace, and everything outside the slice is whitespace |
| JsString.BlankIffAllWhitespace | screens/home.jsx:21-26 | `!s.trim()` holds exactly when every character of `s` is whitespace, the empty string included |
| JsString.Utf16Length | screens/Register.jsx:34 | `length` counts one or two code units per character, so it lies between the character count and twice that |
| JsString.Utf16LengthOfBmp | screens/Register.jsx:34-36 | for characters of the Basic Multilingual Plane, `length` equals the character count |
| FormErrors.ClearError | screens/Register.jsx:70-73 | an edit sets the field's entry to "" and keeps every other entry and key unchanged |
| FormErrors.ClearErrorDisplay | screens/Register.jsx:76 | after an edit the field shows no message, and every other field shows its message exactly as before |
| FormErrors.EmptyIffNoKey | screens/Register.jsx:44 | `Object.keys(e).length === 0` holds exactly when none of the screen's keys is present |
| JsString.IndexOf | screens/Register.jsx:18-21 | returns the position of the first occurrence of the character, or the length when there is none |
| Register.IsValidEmailMatchesPattern | screens/Register.jsx:18-21 | `isValidEmail` accepts exactly the strings the email pattern matches, in both directions |
| Register.ValidEmailMatches | screens/Register.jsx:19 | splitting an accepted string at its `@` and at an inner dot yields the pattern's three non-empty runs |
| Register.MatchIsValidEmail | screens/Register.jsx:19 | any split that the pattern matches has its `@` at the first `@` of the string, and the decision procedure accepts the string |
| Register.ValidEmailHasOneAt | screens/Register.jsx:18-21 | an accepted email contains exactly one `@` |
| Register.EmailLackingAtOrDotRejected | screens/Register.jsx:30-32 | an email with no `@`, or with no `.` after its `@`, is flagged |
| Register.SignUpErrorsRules | screens/Register.jsx:24-40 | name is flagged iff all whitespace; email iff the pattern does not match; password iff shorter than 6 code units; confirmation iff it differs from the password. No other key occurs, and each message is the rule's own |
| Register.SignUpNavigatesIffValid | screens/Register.jsx:42-47 | registration navigates to 'card' without parameters exactly when all four rules pass, and otherwise stays |
| Register.SignUpErrorsShown | screens/Register.jsx:76-117 | after a submit a field shows a message exactly when its rule failed |
| Register.SignUpExample | screens/Register.jsx:24-42 | name "", email "a@b" and password and confirmation "abc" flag exactly name, email and password, and submission is blocked |
| Register.SixSpacePasswordAccepted | screens/Register.jsx:34-36 | the password is not trimmed: six spaces pass the length rule |
| Register.ValidateSignUp | screens/Register.jsx:24-40 | building the error object one `if` at a time yields the reference error object |
| Register.SignUpScreen.constructor | screens/Register.jsx:12-16 | all four fields start empty and the error object starts as `{}` |
| Register.SignUpScreen.Submit | screens/Register.jsx:23-48 | the stored error object is replaced by the one computed from the current fields. The outcome is the registration navigation decision. The fields are not changed |
| Register.SignUpScreen.EditName | screens/Register.jsx:70-73 | stores the new name and clears only the name entry |
| Register.SignUpScreen.EditEmail | screens/Register.jsx:83-86 | stores the new email and clears only the email entry |
| Register.SignUpScreen.EditPassword | screens/Register.jsx:96-99 | stores the new password and clears only the password entry |
| Register.SignUpScreen.EditConfirmPassword | screens/Register.jsx:109-112 | stores the new confirmation and clears only the confirmPassword entry |
| Login.LoginErrorsRules | screens/home.jsx:19-28 | username is flagged iff all whitespace, and password iff all whitespace (the password is trimmed here). No other key occurs, and each message is the rule's own |
| Login.LoginNavigatesIffFilled | screens/home.jsx:30-32 | login navigates to 'card' exactly when neither field is blank, and forwards the username untrimmed |
| Login.LoginErrorsShown | screens/home.jsx:75-88 | after a submit a field shows a message exactly when its rule failed |
| Login.SpacesOnlyPasswordRejected | screens/home.jsx:24-26 | a password of spaces only is flagged and blocks navigation |
| Login.ValidateLogin | screens/home.jsx:19-27 | building the error object one `if` at a time yields the reference error object |
| Login.LoginScreen.constructor | screens/home.jsx:6-9 | username and password start empty, `isLoading` starts true, and the error object starts as `{}` |
| Login.LoginScreen.FinishLoading | screens/home.jsx:11-16 | the timer callback sets `isLoading` to false and changes nothing else. No other method may write `isLoading` |
| Login.LoginScreen.Submit | screens/home.jsx:18-33 | the whole error object is replaced by the one computed from the current fields, so no stale or cleared entry survives. The outcome is the login navigation decision |
| Login.LoginScreen.EditUsername | screens/home.jsx:70-73 | stores the new username and clears only the username entry |
| Login.LoginScreen.EditPassword | screens/home.jsx:83-86 | stores the new password and clears only the password entry |

## Left out

- `screens/CardScreen.jsx`: it only reads a shared context whose source is not part of this model and forwards `toggleReact(index)`. The reaction counter would have to be invented.
- Rendering: JSX, style sheets, Lottie animations, and the wiring of the input and button components. Only the display test `errors.field && …` is kept (`IsShown`).
- The navigation library: `navigation.navigate` appears only as the returned `Outcome` value.
- The 5-second `setTimeout`, its `clearTimeout` on unmount, and the `useEffect` lifecycle (screens/home.jsx:11-16): timing is left out. Only the `isLoading` transition to false is kept (`FinishLoading`).
- The 'Get Started', 'Register' and 'Login' link navigations (screens/home.jsx:46, screens/home.jsx:94, screens/Register.jsx:129): they are unconditional transitions with nothing to state.
- JavaScript regular expressions in general: only the one email pattern is modelled, as a hand-written predicate.
- The login form is only rendered once `isLoading` is false (screens/home.jsx:35-51). The handlers are modelled without that precondition because their behaviour does not depend on it.
- Strings are sequences of Unicode scalar values. The email pattern, `trim` and `!==` give the same results on UTF-16 code units, because the whitespace characters and `@` are all single code units. Only `length` differs, and it is modelled by `Utf16Length`.
