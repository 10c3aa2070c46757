/** The REST authentication client: the requests it builds and how it turns a
    server reply into a resolved value or an `Error` message. The transport is
    abstracted away: a reply is either a success payload or a parsed error body. */
module AuthService {
  import opened Wrappers
  import opened Js

  const LoginFailed := "Ошибка входа"
  const RegisterFailed := "Ошибка регистрации"
  const CreateChatFailed := "Ошибка создания чата"

  const ChatsEndpoint := "/api/v1/chats/"

  const BearerPrefix := "Bearer "
  const JsonContentType := "application/json"

  datatype AuthTokens = AuthTokens(access: string, refresh: string)
  datatype Chat = Chat(id: int)

  /** The fields of a JSON error body the client looks at; `None` stands for a
      field that is absent or `null`. */
  datatype ErrorBody = ErrorBody(
    detail: Option<string>,
    nonFieldErrors: Option<seq<string>>,
    username: Option<seq<string>>,
    email: Option<seq<string>>,
    password: Option<seq<string>>)

  /** A server reply: `response.ok` with its payload, or a failure status with its body. */
  datatype Reply<T> = Ok(payload: T) | NotOk(body: ErrorBody)

  /** The JSON body of a chat-creation request. */
  datatype Payload = ChatPayload(title: string)

  /** A POST request to an endpoint below the API origin. */
  datatype Request = Request(endpoint: string, headers: map<string, string>, payload: Payload)

  /** The `Authorization` header value presenting `accessToken`: the bearer
      scheme, then the token verbatim. */
  function BearerHeader(accessToken: string): (h: string)
    ensures |h| == |BearerPrefix| + |accessToken|
    ensures h[..|BearerPrefix|] == BearerPrefix && h[|BearerPrefix|..] == accessToken
  {
    BearerPrefix + accessToken
  }

  /** The token a bearer header presents, if it is one. */
  function BearerToken(header: string): (t: Option<string>)
    ensures t.Some? ==> BearerHeader(t.value) == header
  {
    if |header| >= |BearerPrefix| && header[..|BearerPrefix|] == BearerPrefix then
      Some(header[|BearerPrefix|..])
    else
      None
  }

  /** The chat-creation request carries the access token as a bearer credential
      and the title as its body. */
  function CreateChatRequest(accessToken: string, title: string): (req: Request)
    ensures "Authorization" in req.headers && BearerToken(req.headers["Authorization"]) == Some(accessToken)
    ensures req.headers.Keys == {"Authorization", "Content-Type"}
    ensures req.headers["Content-Type"] == JsonContentType
    ensures req.endpoint == ChatsEndpoint && req.payload == ChatPayload(title)
  {
    Request(ChatsEndpoint, map["Authorization" := BearerHeader(accessToken), "Content-Type" := JsonContentType],
            ChatPayload(title))
  }

  /** Parsing a bearer header recovers exactly the token it was built from. */
  lemma BearerRoundTrip(accessToken: string)
    ensures BearerToken(BearerHeader(accessToken)) == Some(accessToken)
  {
  }

  /** Distinct tokens give distinct headers. */
  lemma BearerHeaderInjective(a: string, b: string)
    requires BearerHeader(a) == BearerHeader(b)
    ensures a == b
  {
    BearerRoundTrip(a);
    BearerRoundTrip(b);
  }

  /** The message of a failed login: `detail`, else the first of
      `non_field_errors`, else the fixed fallback, each taken only if truthy. */
  function LoginErrorMessage(body: ErrorBody): (m: string)
    ensures Truthy(body.detail) ==> m == body.detail.value
    ensures !Truthy(body.detail) && Truthy(Head(body.nonFieldErrors)) ==> m == body.nonFieldErrors.value[0]
    ensures !Truthy(body.detail) && !Truthy(Head(body.nonFieldErrors)) ==> m == LoginFailed
    ensures m != ""
  {
    var operands := [body.detail, Head(body.nonFieldErrors)];
    assert operands[0] == body.detail;
    assert FalsyBefore(operands, 1) <==> !Truthy(body.detail);
    FirstTruthy(operands, LoginFailed)
  }

  /** The message of a failed registration: the first truthy of `username[0]`,
      `email[0]`, `password[0]`, in that order, else the fixed fallback. */
  function RegisterErrorMessage(body: ErrorBody): (m: string)
    ensures Truthy(Head(body.username)) ==> m == body.username.value[0]
    ensures !Truthy(Head(body.username)) && Truthy(Head(body.email)) ==> m == body.email.value[0]
    ensures (!Truthy(Head(body.username)) && !Truthy(Head(body.email)) && Truthy(Head(body.password)))
              ==> m == body.password.value[0]
    ensures (!Truthy(Head(body.username)) && !Truthy(Head(body.email)) && !Truthy(Head(body.password)))
              ==> m == RegisterFailed
    ensures m != ""
  {
    var operands := [Head(body.username), Head(body.email), Head(body.password)];
    assert FalsyBefore(operands, 2) <==> !Truthy(operands[0]) && !Truthy(operands[1]);
    FirstTruthy(operands, RegisterFailed)
  }

  /** `authService.login` once the reply is in: the tokens pass through on
      success, a failure rejects with the selected message. */
  function Login(reply: Reply<AuthTokens>): (r: Result<AuthTokens, string>)
    ensures reply.Ok? <==> r.Success?
    ensures r.Success? ==> r.value == reply.payload
    ensures r.Failure? ==> r.error != "" && r.error == LoginErrorMessage(reply.body)
  {
    match reply
    case Ok(tokens) => Success(tokens)
    case NotOk(body) => Failure(LoginErrorMessage(body))
  }

  /** `authService.register` once the reply is in: nothing on success, the
      selected message on failure. */
  function Register(reply: Reply<()>): (r: Result<(), string>)
    ensures reply.Ok? <==> r.Success?
    ensures r.Failure? ==> r.error != "" && r.error == RegisterErrorMessage(reply.body)
  {
    match reply
    case Ok(_) => Success(())
    case NotOk(body) => Failure(RegisterErrorMessage(body))
  }

  /** `authService.createChat` once the reply is in: the body of a failed reply
      is never read, so every failure carries the same message. */
  function CreateChat(reply: Reply<Chat>): (r: Result<Chat, string>)
    ensures reply.Ok? <==> r.Success?
    ensures r.Success? ==> r.value == reply.payload
    ensures r.Failure? ==> r.error == CreateChatFailed
  {
    match reply
    case Ok(chat) => Success(chat)
    case NotOk(_) => Failure(CreateChatFailed)
  }

  /** A failed chat creation reports the same error whatever the server said. */
  lemma CreateChatIgnoresErrorBody(b1: ErrorBody, b2: ErrorBody)
    ensures CreateChat(NotOk(b1)) == CreateChat(NotOk(b2))
  {
  }

  /** An empty `non_field_errors` list falls through to the fallback, exactly as
      a missing one does. */
  lemma EmptyNonFieldErrorsFallsBack(detail: Option<string>, rest: ErrorBody)
    requires !Truthy(detail)
    ensures LoginErrorMessage(rest.(detail := detail, nonFieldErrors := Some([]))) == LoginFailed
    ensures LoginErrorMessage(rest.(detail := detail, nonFieldErrors := None)) == LoginFailed
  {
  }
}
