/** How the session store's view of authentication relates to the token the HTTP
    client sends. The two are separate state: the store sets `isAuthenticated`
    whenever the auth endpoint succeeds, while the client stores only a non-empty
    token, and a 401 clears the client's token without touching the store. */
module TokenCoherence {
  import opened Types
  import opened Client
  import AuthApi
  import TodosApi
  import Session

  /** A login whose response carries an empty token leaves the store authenticated
      with the empty token, while the client keeps whatever token it held before:
      none on a fresh client, or the previous session's token (which it goes on
      sending) when the login follows another without a logout. */
  method EmptyTokenLogin(hasWindow: bool, storage: map<string, string>, user: User)
    returns (storeAuthenticated: bool, storeToken: Option<string>, clientToken: Option<string>, headerSent: bool)
    ensures storeAuthenticated && storeToken == Some("")
    ensures clientToken == TokenIn(storage, hasWindow)
    ensures headerSent <==> Truthy(TokenIn(storage, hasWindow))
  {
    var client := new ApiClient(hasWindow, storage);
    var store := new Session.AuthStore();
    var reply := Respond(ApiResponse(AuthResponse("", user), "", []));
    var _, _ := store.Login(client, user.email, "", reply);
    storeAuthenticated, storeToken := store.isAuthenticated, store.token;
    clientToken := client.GetToken();
    var sent, _ := TodosApi.GetAll(client, None, Respond(ApiResponse(PaginatedResponse([], 0, 0), "", [])));
    headerSent := AuthorizationHeader in sent.headers;
  }

  /** After a successful login with a real token, a 401 from a todo request drops
      the client's token, yet the store still says authenticated and keeps the
      token it was given. */
  method UnauthorizedAfterLogin(storage: map<string, string>, response: AuthResponse)
    returns (storeAuthenticated: bool, storeToken: Option<string>, clientToken: Option<string>, secondHeaderSent: bool)
    requires response.token != ""
    ensures storeAuthenticated && storeToken == Some(response.token)
    ensures clientToken == None && !secondHeaderSent
  {
    var client := new ApiClient(true, storage);
    var store := new Session.AuthStore();
    var _, _ := store.Login(client, response.user.email, "", Respond(ApiResponse(response, "", [])));
    assert client.GetToken() == Some(response.token);
    var _, _ := TodosApi.GetAll(client, None, Reject(HttpError(Some(401))));
    storeAuthenticated, storeToken := store.isAuthenticated, store.token;
    clientToken := client.GetToken();
    var second, _ := TodosApi.Delete(client, "1", Respond(ApiResponse((), "", [])));
    secondHeaderSent := AuthorizationHeader in second.headers;
  }

  /** From any state: a 401 on a mark request clears the client's token and leaves
      every field of the session store as it was. */
  method UnauthorizedLeavesSession(store: Session.AuthStore, client: ApiClient, id: string)
    returns (sent: Request)
    modifies client
    ensures store.State() == old(store.State())
    ensures client.GetToken() == None
  {
    var result;
    sent, result := TodosApi.Mark(client, id, DONE, Reject(HttpError(Some(401))));
  }

  /** Logging out twice ends where logging out once does. */
  method LogoutTwice(store: Session.AuthStore, client: ApiClient)
    modifies store, client
    ensures store.State() == Session.InitialState && client.GetToken() == None
  {
    store.Logout(client);
    var once := store.State();
    store.Logout(client);
    assert store.State() == once;
  }
}
