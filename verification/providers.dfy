/** The auth context provider: the state it starts in, the effect that
    restores a session from storage when it mounts, and its `login` and
    `logout` callbacks. None of them touches the cookie or the route. */
module Providers {
  import opened Wrappers
  import opened Js
  import opened Storage
  import opened Browser

  /** The initial state satisfies the context invariant and claims no session. */
  lemma SignedOutIsConsistent()
    ensures Consistent(SignedOut) && !SignedOut.isAuthenticated
  {
  }

  /** The mount effect applied to state `s`: both stored tokens must be truthy
      for the session to be restored; otherwise `s` is left as it is. */
  function Bootstrap(st: Store, s: AuthState): (s': AuthState)
    ensures (Truthy(GetItem(st, AccessKey)) && Truthy(GetItem(st, RefreshKey)))
              ==> s' == AuthState(true, GetItem(st, AccessKey), GetItem(st, RefreshKey))
    ensures !(Truthy(GetItem(st, AccessKey)) && Truthy(GetItem(st, RefreshKey))) ==> s' == s
    ensures Consistent(s) ==> Consistent(s')
  {
    var access := GetItem(st, AccessKey);
    var refresh := GetItem(st, RefreshKey);
    if Truthy(access) && Truthy(refresh) then
      AuthState(true, access, refresh)
    else
      s
  }

  /** A page load: the provider starts signed out, then runs its mount effect. */
  function Mount(w: World): (w': World)
    ensures w'.auth.isAuthenticated <==> Truthy(GetItem(w.storage, AccessKey)) && Truthy(GetItem(w.storage, RefreshKey))
    ensures w'.auth.isAuthenticated ==> w'.auth.accessToken == GetItem(w.storage, AccessKey)
                                         && w'.auth.refreshToken == GetItem(w.storage, RefreshKey)
    ensures !w'.auth.isAuthenticated ==> w'.auth == SignedOut
    ensures Consistent(w'.auth)
    ensures w'.storage == w.storage && w'.cookie == w.cookie && w'.route == w.route
  {
    w.(auth := Bootstrap(w.storage, SignedOut))
  }

  /** `login(token, refreshToken)`: stores both tokens and records the session. */
  function Login(w: World, token: string, refreshToken: string): (w': World)
    ensures GetItem(w'.storage, AccessKey) == Some(token)
    ensures GetItem(w'.storage, RefreshKey) == Some(refreshToken)
    ensures AgreeOffTokens(w.storage, w'.storage)
    ensures w'.auth == AuthState(true, Some(token), Some(refreshToken)) && Consistent(w'.auth)
    ensures w'.cookie == w.cookie && w'.route == w.route
  {
    w.(storage := StoreTokens(w.storage, token, refreshToken),
       auth := AuthState(true, Some(token), Some(refreshToken)))
  }

  /** `logout()`: removes exactly the two token keys and forgets the session. */
  function Logout(w: World): (w': World)
    ensures GetItem(w'.storage, AccessKey) == None && GetItem(w'.storage, RefreshKey) == None
    ensures AgreeOffTokens(w.storage, w'.storage)
    ensures w'.storage.Keys == w.storage.Keys - {AccessKey, RefreshKey}
    ensures w'.auth == SignedOut && Consistent(w'.auth)
    ensures w'.cookie == w.cookie && w'.route == w.route
  {
    w.(storage := ClearTokens(w.storage), auth := SignedOut)
  }

  /** Logging in and straight out again leaves storage as it was minus the two
      token keys, and the cookie and route untouched. */
  lemma LoginThenLogout(w: World, token: string, refreshToken: string)
    ensures Logout(Login(w, token, refreshToken)).storage == w.storage - {AccessKey, RefreshKey}
    ensures Logout(Login(w, token, refreshToken)) == Logout(w)
  {
  }

  /** After a page load the context holds a session exactly when the storage
      held two truthy tokens, and it is signed out otherwise. */
  lemma MountRestoresStoredSession(w: World, token: string, refreshToken: string)
    requires token != "" && refreshToken != ""
    ensures Mount(Login(w, token, refreshToken)).auth == AuthState(true, Some(token), Some(refreshToken))
    ensures Mount(Logout(w)).auth == SignedOut
  {
  }
}
