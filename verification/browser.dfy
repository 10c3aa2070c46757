/** The client-side world the session code acts on: local storage, the
    `accessToken` cookie, the in-memory auth context and the current route. */
module Browser {
  import opened Wrappers
  import opened Storage

  /** The value held by the auth context provider. */
  datatype AuthState = AuthState(isAuthenticated: bool, accessToken: Option<string>, refreshToken: Option<string>)

  /** The provider's initial state: not signed in, no tokens. */
  const SignedOut := AuthState(false, None, None)

  /** The context claims a session exactly when it holds both tokens. */
  predicate Consistent(s: AuthState) {
    s.isAuthenticated <==> s.accessToken.Some? && s.refreshToken.Some?
  }

  /** `cookie` is the value of the `accessToken` cookie, `None` when there is
      none (an expired cookie is gone). */
  datatype World = World(storage: Store, cookie: Option<string>, auth: AuthState, route: string)
}
