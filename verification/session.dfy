/** Whole sessions: every client-side event the modelled code reacts to, as a
    step on the world, and the invariants that hold along any sequence of them.
    A navigation to a path goes through the route guard (`Middleware.Arrive`).
    Events are not tied to the page they belong to: `ChatLogout` and `OpenHome`
    may fire on any route, a superset of the runs the pages allow, so the
    invariants proved here hold a fortiori for the real ones. No event writes a
    truthy cookie: the login and registration pages, which do, are not part of
    this model. */
module Session {
  import opened Wrappers
  import opened Js
  import opened Storage
  import opened Browser
  import Middleware
  import Providers
  import ChatPage
  import HomePage

  datatype Event =
    | Reload                                  // full page load: the provider remounts
    | ContextLogin(token: string, refresh: string)
    | ContextLogout
    | ChatLogout                              // the chat page's logout button
    | OpenHome                                // the landing page's mount effect
    | Visit(path: string)                     // a navigation requested by the visitor

  /** The world a fresh tab starts in: whatever storage and cookie the browser
      keeps, a signed-out provider, and the root path. */
  function Start(st: Store, cookie: Option<string>): (w: World)
    ensures Invariant(w)
  {
    World(st, cookie, SignedOut, Middleware.Root)
  }

  /** The context is consistent and the guard lets the current route through. */
  predicate Invariant(w: World) {
    Consistent(w.auth) && Middleware.Guard(w.route, w.cookie) == Middleware.Next
  }

  function Step(w: World, e: Event): World {
    match e
    case Reload => Providers.Mount(w)
    case ContextLogin(token, refresh) => Providers.Login(w, token, refresh)
    case ContextLogout => Providers.Logout(w)
    case ChatLogout => ChatPage.HandleLogout(w)
    case OpenHome => w.(route := Middleware.Arrive(HomePage.Destination(w.storage), w.cookie))
    case Visit(path) => w.(route := Middleware.Arrive(path, w.cookie))
  }

  /** The world after the events in order. Only the chat page's logout touches
      the cookie, and it only ever removes it; entries other than the two token
      keys are never written. */
  function Run(w: World, events: seq<Event>): (w': World)
    ensures w'.cookie == w.cookie || w'.cookie == None
    ensures AgreeOffTokens(w.storage, w'.storage)
    decreases |events|
  {
    if |events| == 0 then w else Run(Step(w, events[0]), events[1..])
  }

  lemma StepKeepsInvariant(w: World, e: Event)
    requires Invariant(w)
    ensures Invariant(Step(w, e))
  {
  }

  /** The invariant holds after every sequence of events from a good world. */
  lemma {:induction false} RunKeepsInvariant(w: World, events: seq<Event>)
    requires Invariant(w)
    ensures Invariant(Run(w, events))
    decreases |events|
  {
    if |events| > 0 {
      StepKeepsInvariant(w, events[0]);
      RunKeepsInvariant(Step(w, events[0]), events[1..]);
    }
  }

  /** After the chat page's logout the login page is reachable, every
      protected path leads back to it, and the landing page picks it. */
  lemma ChatLogoutSignsOut(w: World, path: string)
    ensures Middleware.Guard(Middleware.LoginPath, Step(w, ChatLogout).cookie) == Middleware.Next
    ensures !Middleware.IsPublic(path) ==>
              Middleware.Guard(path, Step(w, ChatLogout).cookie) == Middleware.Redirect(Middleware.LoginPath)
    ensures Middleware.Guard(HomePage.ChatPath, Step(w, ChatLogout).cookie) == Middleware.Redirect(Middleware.LoginPath)
    ensures Step(Step(w, ChatLogout), OpenHome).route == Middleware.LoginPath
    ensures Step(Step(w, ChatLogout), Reload).auth == SignedOut
  {
  }

  /** The chat page's logout leaves the context untouched, so a signed-in
      context stays signed in until the next page load. */
  lemma ChatLogoutKeepsContext(w: World)
    ensures Step(w, ChatLogout).auth == w.auth
  {
  }

  /** The context's own logout clears storage but not the cookie: with a
      truthy cookie the guard still treats the visitor as signed in. */
  lemma ContextLogoutKeepsCookie(w: World)
    ensures Step(w, ContextLogout).cookie == w.cookie
    ensures Truthy(w.cookie) ==> Middleware.Guard(Middleware.LoginPath, Step(w, ContextLogout).cookie) == Middleware.Redirect(Middleware.Root)
  {
  }

  /** With a stored access token and a cookie the landing page reaches the chat area. */
  lemma SignedInReachesChat(w: World)
    requires w.route == Middleware.Root
    requires Truthy(GetItem(w.storage, AccessKey)) && Truthy(w.cookie)
    ensures Step(w, OpenHome).route == HomePage.ChatPath
  {
  }

  /** With a stored access token but no cookie the landing page picks the chat
      area and the guard turns it back to the login page. */
  lemma StaleStorageEndsAtLogin(w: World)
    requires w.route == Middleware.Root
    requires Truthy(GetItem(w.storage, AccessKey)) && !Truthy(w.cookie)
    ensures Step(w, OpenHome).route == Middleware.LoginPath
  {
  }

  /** With a cookie but no stored access token the landing page picks the login
      page and the guard sends the visitor back to `/`: storage and cookie
      disagree and neither side reconciles them. Should the landing page's
      effect run again there, it makes the same choice. */
  lemma HomeBounce(w: World)
    requires w.route == Middleware.Root
    requires !Truthy(GetItem(w.storage, AccessKey)) && Truthy(w.cookie)
    ensures HomePage.Destination(w.storage) == Middleware.LoginPath
    ensures Step(w, OpenHome).route == Middleware.Root
    ensures Step(Step(w, OpenHome), OpenHome).route == Middleware.Root
  {
  }
}
