/**
 * What the two form screens share: the field-to-message error object they
 * keep in state, the clear-on-edit update `{ ...errors, field: '' }`, the
 * display test `errors.field && <Text>…</Text>`, and the navigation a submit
 * may request.
 */
module FormErrors {

  /** The `errors` state object: a field key mapped to a message. A key that
      was never set is absent; a key cleared by an edit maps to "". */
  type ErrorMap = map<string, string>

  /** The route both screens navigate to after a successful submit. */
  const CardRoute: string := "card"

  /** The parameters passed along with a navigation. */
  datatype RouteParams = NoParams | UsernameParam(username: string)

  /** What a submit asks of the navigator. */
  datatype Outcome = Stay | Navigate(route: string, params: RouteParams)

  /** `{ ...errors, [key]: '' }`: the entry for `key` becomes the empty
      message and every other entry is kept as it was. */
  function ClearError(errors: ErrorMap, key: string): (e: ErrorMap)
    ensures e.Keys == errors.Keys + {key}
    ensures e[key] == ""
    ensures forall k | k in errors && k != key :: e[k] == errors[k]
  {
    errors[key := ""]
  }

  /** `errors[key] && …`: a message is rendered under the field exactly when
      its entry is present and is a non-empty (truthy) string. */
  predicate IsShown(errors: ErrorMap, key: string) {
    key in errors && errors[key] != ""
  }

  /** After an edit of `key` its message disappears and whether any other
      field shows its message is unchanged. */
  lemma ClearErrorDisplay(errors: ErrorMap, key: string)
    ensures !IsShown(ClearError(errors, key), key)
    ensures forall k | k != key :: IsShown(ClearError(errors, key), k) <==> IsShown(errors, k)
  {
  }

  /** `Object.keys(errors).length === 0`: when every key lies in `keys`, the
      object is empty exactly when none of `keys` is present. */
  lemma EmptyIffNoKey(e: ErrorMap, keys: set<string>)
    requires e.Keys <= keys
    ensures |e| == 0 <==> forall k | k in keys :: k !in e
  {
    if |e| != 0 {
      assert |e.Keys| != 0;
      var k :| k in e.Keys;
      assert k in keys;
    }
  }

}
