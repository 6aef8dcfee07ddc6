/** Vocabulary shared by every part of the storefront model: optional values,
    user roles, the signed-in actor that replaces the ambient session, JavaScript
    truthiness of optional strings, and the reply of a route handler. */
module Common {

  datatype Option<+T> = None | Some(value: T)

  /** The role of a user account (the `Role` enum of the database schema). */
  datatype Role = USER | SELLER | ADMIN

  /** What the session exposes about the signed-in user. */
  datatype Session = Session(role: Role, userId: string)

  /** The session of a request: `None` when nobody is signed in. */
  type Actor = Option<Session>

  predicate IsAdmin(actor: Actor) {
    actor.Some? && actor.value.role == ADMIN
  }

  predicate IsSeller(actor: Actor) {
    actor.Some? && actor.value.role == SELLER
  }

  /** A nullable string field of a request body or query string is truthy in
      JavaScript exactly when it is present and not the empty string. */
  predicate Present(s: Option<string>) {
    s.Some? && s.value != ""
  }

  /** `s || fallback` for a nullable string. */
  function OrElse(s: Option<string>, fallback: string): (r: string)
    ensures Present(s) ==> r == s.value
    ensures !Present(s) ==> r == fallback
  {
    if Present(s) then s.value else fallback
  }

  /** The reply of a route handler: status 200 with a JSON body, or an error
      status with the `error` message the handler sends. */
  datatype Reply<+T> = Ok(body: T) | Fail(status: int, error: string) {
    function Status(): int {
      if Ok? then 200 else status
    }
  }
}
