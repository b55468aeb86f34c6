/** The auth endpoints: login and register post their request unchanged and, when
    the backend returns a non-empty token, store it in the client before returning
    the envelope's content; logout only drops the stored token. */
module AuthApi {
  import opened Types
  import opened Client

  const LoginPath: string := "/auth/login"
  const RegisterPath: string := "/auth/register"

  /** The client's storage after a login or register call has settled. */
  function StorageAfterAuth(storage: map<string, string>, hasWindow: bool, reply: Reply<AuthResponse>): (s: map<string, string>)
    // A non-empty returned token is what the client holds afterwards.
    ensures reply.Respond? && reply.envelope.content.token != "" ==>
      TokenIn(s, hasWindow) == if hasWindow then Some(reply.envelope.content.token) else None
    // An empty returned token leaves the storage alone.
    ensures reply.Respond? && reply.envelope.content.token == "" ==> s == storage
    // A rejection goes through the response interceptor only.
    ensures reply.Reject? ==> s == AfterReply(storage, hasWindow, reply)
    // A stored token is never made empty.
    ensures TokenIn(storage, hasWindow) != Some("") ==> TokenIn(s, hasWindow) != Some("")
  {
    match reply
    case Respond(envelope) =>
      if envelope.content.token != "" then Stored(storage, hasWindow, envelope.content.token) else storage
    case Reject(_) => AfterReply(storage, hasWindow, reply)
  }

  /** Posts `body` to `path` and keeps the returned token when it is non-empty. */
  method Authenticate(client: ApiClient, path: string, body: Body, reply: Reply<AuthResponse>)
    returns (sent: Request, r: Result<AuthResponse, HttpError>)
    modifies client
    ensures sent == Request(POST, path, None, body, WithAuthorization(old(client.GetToken()), map[]))
    ensures r == Unwrap(Settle(reply))
    ensures client.storage == StorageAfterAuth(old(client.storage), client.hasWindow, reply)
  {
    var response;
    sent, response := client.Post(path, body, reply);
    match response
    case Success(envelope) =>
      if envelope.content.token != "" {
        client.SetToken(envelope.content.token);
      }
      r := Success(envelope.content);
    case Failure(error) =>
      r := Failure(error);
  }

  method Login(client: ApiClient, credentials: LoginRequest, reply: Reply<AuthResponse>)
    returns (sent: Request, r: Result<AuthResponse, HttpError>)
    modifies client
    ensures sent == Request(POST, LoginPath, None, LoginBody(credentials), WithAuthorization(old(client.GetToken()), map[]))
    ensures r == Unwrap(Settle(reply))
    ensures client.storage == StorageAfterAuth(old(client.storage), client.hasWindow, reply)
  {
    sent, r := Authenticate(client, LoginPath, LoginBody(credentials), reply);
  }

  method Register(client: ApiClient, userData: RegisterRequest, reply: Reply<AuthResponse>)
    returns (sent: Request, r: Result<AuthResponse, HttpError>)
    modifies client
    ensures sent == Request(POST, RegisterPath, None, RegisterBody(userData), WithAuthorization(old(client.GetToken()), map[]))
    ensures r == Unwrap(Settle(reply))
    ensures client.storage == StorageAfterAuth(old(client.storage), client.hasWindow, reply)
  {
    sent, r := Authenticate(client, RegisterPath, RegisterBody(userData), reply);
  }

  /** Client-side only: no request is made. */
  method Logout(client: ApiClient)
    modifies client
    ensures client.storage == Removed(old(client.storage), client.hasWindow)
    ensures client.GetToken() == None
  {
    client.RemoveToken();
  }

  function GetToken(client: ApiClient): (t: Option<string>)
    reads client
    ensures t == TokenIn(client.storage, client.hasWindow)
  {
    client.GetToken()
  }

  /** Token presence, not token validity: an empty stored string counts. */
  function IsAuthenticated(client: ApiClient): (b: bool)
    reads client
    ensures b <==> client.hasWindow && TokenKey in client.storage
  {
    client.GetToken() != None
  }

  /** While every stored token is non-empty, "authenticated" in this module's sense
      and "requests carry a bearer header" coincide. */
  lemma HeaderIffAuthenticated(client: ApiClient)
    requires client.StoredTokenNonEmpty()
    ensures IsAuthenticated(client) <==> AuthorizationHeader in WithAuthorization(client.GetToken(), map[])
  {
  }

  /** Without that invariant they differ: an empty stored token is "authenticated"
      yet sends no header. */
  lemma EmptyTokenSendsNoHeader(storage: map<string, string>)
    requires TokenKey in storage && storage[TokenKey] == ""
    ensures TokenIn(storage, true) == Some("")
    ensures AuthorizationHeader !in WithAuthorization(TokenIn(storage, true), map[])
  {
  }
}
