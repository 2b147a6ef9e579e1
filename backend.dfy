/**
 * What the screens see of the authentication and storage backend. The backend
 * itself is not modelled: each call is represented by the reply it gives.
 */
module Backend {
  import opened Wrappers

  /** The signed-in account as the authentication service reports it. */
  datatype User = User(uid: string, displayName: Option<string>, email: Option<string>, photoURL: Option<string>)

  /**
   * The outcome of one awaited backend call: `{ success: true, ... }`,
   * `{ success: false, error }`, or an exception thrown by the call.
   */
  datatype Reply<T> = Success(value: T) | Failure(error: string) | Thrown

  /** JavaScript truthiness of a string that may be missing. */
  predicate Truthy(s: Option<string>) {
    s.Some? && s.value != ""
  }

  /** `email.split('@')[0]`: the text before the first '@' (all of it when there is none). */
  function EmailPrefix(email: string): (p: string)
    ensures '@' !in p
    ensures p <= email
    ensures p == email || email[|p|] == '@'
  {
    if email == [] || email[0] == '@' then [] else [email[0]] + EmailPrefix(email[1..])
  }
}
