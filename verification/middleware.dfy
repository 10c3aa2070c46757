/** The edge route guard: a pure decision from the request path and the value
    of the `accessToken` cookie (if any) to "continue" or "redirect". */
module Middleware {
  import opened Wrappers
  import opened Js

  const Root := "/"
  const LoginPath := "/login"
  const RegisterPath := "/register"

  /** The guard's verdict: `NextResponse.next()` or `NextResponse.redirect(location)`. */
  datatype Decision = Next | Redirect(location: string)

  /** The pages meant for visitors who are not signed in. */
  predicate IsAuthPage(path: string) {
    path == LoginPath || path == RegisterPath
  }

  /** Paths a visitor without a token may open. */
  predicate IsPublic(path: string) {
    path == Root || IsAuthPage(path)
  }

  /** The middleware: a signed-in visitor is sent away from the auth pages to
      the root, an anonymous one is sent from every non-public path to the login
      page, and everything else passes. */
  function Guard(pathname: string, cookie: Option<string>): (d: Decision)
    ensures d == Redirect(Root) <==> Truthy(cookie) && IsAuthPage(pathname)
    ensures d == Redirect(LoginPath) <==> !Truthy(cookie) && !IsPublic(pathname)
    ensures d.Redirect? ==> d.location == Root || d.location == LoginPath
  {
    if Truthy(cookie) && (pathname == LoginPath || pathname == RegisterPath) then
      Redirect(Root)
    else if !Truthy(cookie) && pathname != Root && pathname != LoginPath && pathname != RegisterPath then
      Redirect(LoginPath)
    else
      Next
  }

  /** The root path passes whatever the cookie holds. */
  lemma RootAlwaysPasses(cookie: Option<string>)
    ensures Guard(Root, cookie) == Next
  {
  }

  /** A signed-in visitor passes everywhere except on the two auth pages. */
  lemma TokenPassesOutsideAuthPages(path: string, cookie: Option<string>)
    requires Truthy(cookie)
    ensures Guard(path, cookie) == Next <==> !IsAuthPage(path)
  {
  }

  /** An anonymous visitor passes exactly on the public paths. */
  lemma AnonymousPassesOnlyPublic(path: string, cookie: Option<string>)
    requires !Truthy(cookie)
    ensures Guard(path, cookie) == Next <==> IsPublic(path)
  {
  }

  /** A cookie holding the empty string is indistinguishable from no cookie. */
  lemma EmptyCookieIsAbsent(path: string)
    ensures Guard(path, Some("")) == Guard(path, None)
  {
  }

  /** The decision depends on the cookie only through its truthiness. */
  lemma GuardDependsOnTruthiness(path: string, c1: Option<string>, c2: Option<string>)
    requires Truthy(c1) == Truthy(c2)
    ensures Guard(path, c1) == Guard(path, c2)
  {
  }

  /** Following a redirect with the same cookie always passes: the guard never
      redirects twice in a row, so it cannot loop. */
  lemma NoRedirectLoop(path: string, cookie: Option<string>)
    ensures Guard(path, cookie).Redirect? ==> Guard(Guard(path, cookie).location, cookie) == Next
  {
  }

  /** The path a browser ends up on when it requests `path`: the path itself if
      the guard passes it, otherwise the redirect target, which by
      `NoRedirectLoop` the guard passes. */
  function Arrive(path: string, cookie: Option<string>): (r: string)
    ensures Guard(r, cookie) == Next
    ensures Guard(path, cookie) == Next ==> r == path
    ensures r != path ==> (r == Root && Truthy(cookie)) || (r == LoginPath && !Truthy(cookie))
  {
    match Guard(path, cookie)
    case Next => path
    case Redirect(location) => location
  }
}
