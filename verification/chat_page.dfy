/** The chat page's own logout button. It clears storage and the cookie
    directly and navigates to the login page; it does not call the auth
    context's `logout`, so the in-memory context keeps whatever it held. */
module ChatPage {
  import opened Wrappers
  import opened Storage
  import opened Browser
  import Middleware

  /** `handleLogout`: both token keys removed, the cookie overwritten with an
      empty value that has already expired (so it is gone), then a replace
      navigation to `/login`. */
  function HandleLogout(w: World): (w': World)
    ensures GetItem(w'.storage, AccessKey) == None && GetItem(w'.storage, RefreshKey) == None
    ensures AgreeOffTokens(w.storage, w'.storage)
    ensures w'.storage.Keys == w.storage.Keys - {AccessKey, RefreshKey}
    ensures w'.cookie == None
    ensures w'.route == Middleware.LoginPath
    ensures w'.auth == w.auth
  {
    w.(storage := ClearTokens(w.storage), cookie := None, route := Middleware.LoginPath)
  }
}
