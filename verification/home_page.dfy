/** The landing page `/`: on mount it looks once at the stored access token
    and replaces the route with the chat area or the login page. */
module HomePage {
  import opened Wrappers
  import opened Js
  import opened Storage
  import Middleware

  const ChatPath := "/chat"

  /** Where the landing page sends the visitor: the chat area when a truthy
      access token is stored, the login page otherwise; never the root itself. */
  function Destination(st: Store): (r: string)
    ensures r == ChatPath <==> Truthy(GetItem(st, AccessKey))
    ensures r == Middleware.LoginPath <==> !Truthy(GetItem(st, AccessKey))
    ensures r != Middleware.Root
  {
    if Truthy(GetItem(st, AccessKey)) then ChatPath else Middleware.LoginPath
  }

  /** Only the `accessToken` entry matters: stores that agree on it, whatever
      their refresh token or other entries, lead to the same place. */
  lemma DestinationReadsOnlyAccessToken(st1: Store, st2: Store)
    requires GetItem(st1, AccessKey) == GetItem(st2, AccessKey)
    ensures Destination(st1) == Destination(st2)
  {
  }
}
