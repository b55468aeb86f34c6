/** The HTTP client: the stored auth token, the request interceptor that adds a
    bearer header, the response interceptor that drops the token on a 401, and the
    four verbs that hand back the backend's envelope unchanged.

    The browser's `localStorage` is a map field of the client and the presence of
    `window` is a constant flag. The backend is not called: each verb receives the
    backend's answer (`Reply`) as a parameter. */
module Client {
  import opened Types

  /** The localStorage key under which the token is kept. */
  const TokenKey: string := "auth_token"

  const AuthorizationHeader: string := "Authorization"

  const BearerPrefix: string := "Bearer "

  datatype Verb = GET | POST | PUT | DELETE

  /** The request bodies this application sends. */
  datatype Body =
    | NoBody
    | LoginBody(credentials: LoginRequest)
    | RegisterBody(registration: RegisterRequest)
    | TodoBody(todo: CreateTodoRequest)
    | MarkBody(update: UpdateTodoRequest)

  /** A request as it leaves the client, after the request interceptor has run. */
  datatype Request = Request(verb: Verb, url: string, params: Option<TodoQueryParams>,
                             data: Body, headers: map<string, string>)

  /** A rejected call; `status` is absent when no response was received. */
  datatype HttpError = HttpError(status: Option<int>)

  /** What the backend (or the network) answers to one request. */
  datatype Reply<+T> = Respond(envelope: ApiResponse<T>) | Reject(error: HttpError)

  predicate IsUnauthorized(e: HttpError) {
    e.status == Some(401)
  }

  // ---------------------------------------------------------------------------
  // The token in storage, as values

  /** `getToken`: the stored token, read only when a window exists. */
  function TokenIn(storage: map<string, string>, hasWindow: bool): (t: Option<string>)
    ensures !hasWindow ==> t == None
    ensures t.Some? <==> hasWindow && TokenKey in storage
    ensures t.Some? ==> t.value == storage[TokenKey]
  {
    if hasWindow && TokenKey in storage then Some(storage[TokenKey]) else None
  }

  /** The storage after `setToken(token)`. */
  function Stored(storage: map<string, string>, hasWindow: bool, token: string): (s: map<string, string>)
    ensures TokenIn(s, hasWindow) == if hasWindow then Some(token) else None
    ensures !hasWindow ==> s == storage
    ensures forall k :: k in storage && k != TokenKey ==> k in s && s[k] == storage[k]
    ensures forall k :: k in s && k != TokenKey ==> k in storage
  {
    if hasWindow then storage[TokenKey := token] else storage
  }

  /** The storage after `clearToken()` / `removeToken()`. */
  function Removed(storage: map<string, string>, hasWindow: bool): (s: map<string, string>)
    ensures TokenIn(s, hasWindow) == None
    ensures !hasWindow ==> s == storage
    ensures forall k :: k in storage && k != TokenKey ==> k in s && s[k] == storage[k]
    ensures forall k :: k in s && k != TokenKey ==> k in storage
  {
    if hasWindow then storage - {TokenKey} else storage
  }

  /** The storage once the response interceptor has seen `reply`: a 401 clears the
      token, anything else leaves the storage as it was. */
  function AfterReply<T>(storage: map<string, string>, hasWindow: bool, reply: Reply<T>): (s: map<string, string>)
    ensures reply.Reject? && IsUnauthorized(reply.error) ==> TokenIn(s, hasWindow) == None
    ensures reply.Reject? && IsUnauthorized(reply.error) ==> s == Removed(storage, hasWindow)
    ensures !(reply.Reject? && IsUnauthorized(reply.error)) ==> s == storage
  {
    if reply.Reject? && IsUnauthorized(reply.error) then Removed(storage, hasWindow) else storage
  }

  // ---------------------------------------------------------------------------
  // The request interceptor's header rule

  /** JavaScript truthiness of `string | null`. */
  predicate Truthy(token: Option<string>) {
    token.Some? && token.value != ""
  }

  /** Recovers the token from an Authorization value (the inverse of BearerValue). */
  function BearerToken(value: string): Option<string> {
    if |value| >= |BearerPrefix| && value[..|BearerPrefix|] == BearerPrefix
    then Some(value[|BearerPrefix|..])
    else None
  }

  /** The Authorization value for a token; the token can be read back from it. */
  function BearerValue(token: string): (v: string)
    ensures BearerToken(v) == Some(token)
    ensures |v| == |BearerPrefix| + |token|
  {
    var v := BearerPrefix + token;
    assert v[..|BearerPrefix|] == BearerPrefix;
    assert v[|BearerPrefix|..] == token;
    v
  }

  /** The headers after the request interceptor: `Authorization: Bearer <token>` is set
      exactly when the token is truthy; every other header is left as it was. */
  function WithAuthorization(token: Option<string>, headers: map<string, string>): (h: map<string, string>)
    ensures Truthy(token) ==> AuthorizationHeader in h && h[AuthorizationHeader] == BearerPrefix + token.value
    ensures Truthy(token) ==> BearerToken(h[AuthorizationHeader]) == Some(token.value)
    ensures !Truthy(token) ==> h == headers
    ensures forall k :: k != AuthorizationHeader ==> (k in h <==> k in headers)
    ensures forall k :: k in h && k != AuthorizationHeader ==> h[k] == headers[k]
  {
    if Truthy(token) then headers[AuthorizationHeader := BearerValue(token.value)] else headers
  }

  // ---------------------------------------------------------------------------
  // Response handling

  /** A verb's result: the envelope of a response, or the re-rejected error. */
  function Settle<T>(reply: Reply<T>): (r: Result<ApiResponse<T>, HttpError>)
    ensures r.Success? <==> reply.Respond?
    ensures reply.Respond? ==> r.value == reply.envelope
    ensures reply.Reject? ==> r.error == reply.error
  {
    match reply
    case Respond(envelope) => Success(envelope)
    case Reject(error) => Failure(error)
  }

  /** The `.content` projection the domain modules apply to a verb's result. */
  function Unwrap<T>(r: Result<ApiResponse<T>, HttpError>): (u: Result<T, HttpError>)
    ensures u.Success? <==> r.Success?
    ensures r.Success? ==> u.value == r.value.content
    ensures r.Failure? ==> u.error == r.error
  {
    match r
    case Success(envelope) => Success(envelope.content)
    case Failure(error) => Failure(error)
  }

  /** The request configuration handed to the request interceptor, which updates its
      headers in place. */
  class RequestConfig {
    const verb: Verb
    const url: string
    const params: Option<TodoQueryParams>
    const data: Body
    var headers: map<string, string>

    constructor (verb: Verb, url: string, params: Option<TodoQueryParams>, data: Body)
      ensures this.verb == verb && this.url == url && this.params == params && this.data == data
      ensures headers == map[]
    {
      this.verb := verb;
      this.url := url;
      this.params := params;
      this.data := data;
      headers := map[];
    }

    /** The request as sent. */
    function Sent(): Request
      reads this
    {
      Request(verb, url, params, data, headers)
    }
  }

  class ApiClient {
    /** Whether `typeof window !== 'undefined'`. */
    const hasWindow: bool
    /** The browser's localStorage. */
    var storage: map<string, string>

    constructor (hasWindow: bool, storage: map<string, string>)
      ensures this.hasWindow == hasWindow && this.storage == storage
    {
      this.hasWindow := hasWindow;
      this.storage := storage;
    }

    /** Every token this client stores is non-empty. The source keeps it true by
        calling `setToken` only with a truthy token. */
    predicate StoredTokenNonEmpty()
      reads this
    {
      TokenIn(storage, hasWindow) != Some("")
    }

    function GetToken(): (t: Option<string>)
      reads this
      ensures t == TokenIn(storage, hasWindow)
      ensures !hasWindow ==> t == None
    {
      TokenIn(storage, hasWindow)
    }

    method ClearToken()
      modifies this
      ensures storage == Removed(old(storage), hasWindow)
      ensures GetToken() == None
    {
      if hasWindow {
        storage := storage - {TokenKey};
      }
    }

    method SetToken(token: string)
      modifies this
      ensures storage == Stored(old(storage), hasWindow, token)
      ensures GetToken() == if hasWindow then Some(token) else None
    {
      if hasWindow {
        storage := storage[TokenKey := token];
      }
    }

    method RemoveToken()
      modifies this
      ensures storage == Removed(old(storage), hasWindow)
      ensures GetToken() == None
    {
      ClearToken();
    }

    /** The request interceptor: reads the token now and adds the bearer header to
        `config` when the token is truthy. */
    method InterceptRequest(config: RequestConfig)
      modifies config
      ensures config.headers == WithAuthorization(GetToken(), old(config.headers))
    {
      var token := GetToken();
      if Truthy(token) {
        config.headers := config.headers[AuthorizationHeader := BearerValue(token.value)];
      }
    }

    /** The response interceptor's error branch: clears the token on a 401 and
        rejects with the same error. */
    method OnResponseError(error: HttpError) returns (rejected: HttpError)
      modifies this
      ensures rejected == error
      ensures storage == if IsUnauthorized(error) then Removed(old(storage), hasWindow) else old(storage)
    {
      if IsUnauthorized(error) {
        ClearToken();
      }
      rejected := error;
    }

    /** One round trip: the request interceptor, the backend's reply, the response
        interceptor. */
    method Execute<T>(config: RequestConfig, reply: Reply<T>) returns (sent: Request, r: Result<ApiResponse<T>, HttpError>)
      modifies this, config
      ensures sent == old(config.Sent()).(headers := WithAuthorization(old(GetToken()), old(config.headers)))
      ensures r == Settle(reply)
      ensures storage == AfterReply(old(storage), hasWindow, reply)
    {
      InterceptRequest(config);
      sent := config.Sent();
      match reply
      case Respond(envelope) =>
        r := Success(envelope);
      case Reject(error) =>
        var rejected := OnResponseError(error);
        r := Failure(rejected);
    }

    method Get<T>(url: string, params: Option<TodoQueryParams>, reply: Reply<T>)
      returns (sent: Request, r: Result<ApiResponse<T>, HttpError>)
      modifies this
      ensures sent == Request(GET, url, params, NoBody, WithAuthorization(old(GetToken()), map[]))
      ensures r == Settle(reply)
      ensures storage == AfterReply(old(storage), hasWindow, reply)
    {
      var config := new RequestConfig(GET, url, params, NoBody);
      sent, r := Execute(config, reply);
    }

    method Post<T>(url: string, data: Body, reply: Reply<T>)
      returns (sent: Request, r: Result<ApiResponse<T>, HttpError>)
      modifies this
      ensures sent == Request(POST, url, None, data, WithAuthorization(old(GetToken()), map[]))
      ensures r == Settle(reply)
      ensures storage == AfterReply(old(storage), hasWindow, reply)
    {
      var config := new RequestConfig(POST, url, None, data);
      sent, r := Execute(config, reply);
    }

    method Put<T>(url: string, data: Body, reply: Reply<T>)
      returns (sent: Request, r: Result<ApiResponse<T>, HttpError>)
      modifies this
      ensures sent == Request(PUT, url, None, data, WithAuthorization(old(GetToken()), map[]))
      ensures r == Settle(reply)
      ensures storage == AfterReply(old(storage), hasWindow, reply)
    {
      var config := new RequestConfig(PUT, url, None, data);
      sent, r := Execute(config, reply);
    }

    method Delete<T>(url: string, reply: Reply<T>)
      returns (sent: Request, r: Result<ApiResponse<T>, HttpError>)
      modifies this
      ensures sent == Request(DELETE, url, None, NoBody, WithAuthorization(old(GetToken()), map[]))
      ensures r == Settle(reply)
      ensures storage == AfterReply(old(storage), hasWindow, reply)
    {
      var config := new RequestConfig(DELETE, url, None, NoBody);
      sent, r := Execute(config, reply);
    }
  }
}
