/** The persisted session store: four fields changed by login, register, logout and
    setLoading, and the projection that chooses which fields are persisted.

    An asynchronous action is split at its `await`: `BeginAuth` is what happens
    before the call to the auth endpoint, `FinishLogin` / `FinishRegister` the call
    and what happens once it settles. `Login` and `Register` run both phases. */
module Session {
  import opened Types
  import opened Client
  import AuthApi

  /** `user: null, token: null, isAuthenticated: false, isLoading: false`. */
  const InitialState: AuthState := AuthState(None, None, false, false)

  /** The fields written to persistent storage. */
  datatype PersistedAuth = PersistedAuth(user: Option<User>, token: Option<string>, isAuthenticated: bool)

  /** `partialize`: keeps user, token and isAuthenticated; drops isLoading. */
  function Partialize(s: AuthState): (p: PersistedAuth)
    ensures p.user == s.user && p.token == s.token && p.isAuthenticated == s.isAuthenticated
  {
    PersistedAuth(s.user, s.token, s.isAuthenticated)
  }

  /** Two states persist alike exactly when they differ at most in isLoading. */
  lemma PartializeForgetsOnlyLoading(s: AuthState, t: AuthState)
    ensures Partialize(s) == Partialize(t) <==> s.(isLoading := false) == t.(isLoading := false)
  {
  }

  /** A user and a token are held exactly when the session is authenticated. */
  predicate Consistent(s: AuthState) {
    s.isAuthenticated == s.user.Some? && s.isAuthenticated == s.token.Some?
  }

  /** The state a successful login or register settles in. */
  function Authenticated(response: AuthResponse): (s: AuthState)
    ensures Consistent(s) && s.isAuthenticated && !s.isLoading
  {
    AuthState(Some(response.user), Some(response.token), true, false)
  }

  class AuthStore {
    var user: Option<User>
    var token: Option<string>
    var isAuthenticated: bool
    var isLoading: bool

    function State(): AuthState
      reads this
    {
      AuthState(user, token, isAuthenticated, isLoading)
    }

    constructor ()
      ensures State() == InitialState && Consistent(State())
    {
      user, token, isAuthenticated, isLoading := None, None, false, false;
    }

    /** `set({ isLoading: true })` at the start of login and register. */
    method BeginAuth()
      modifies this
      ensures State() == old(State()).(isLoading := true)
      ensures Consistent(old(State())) ==> Consistent(State())
    {
      isLoading := true;
    }

    /** What the store does once the auth endpoint has settled: adopt the response,
        or only clear isLoading and rethrow. */
    method SettleAuth(result: Result<AuthResponse, HttpError>) returns (r: Result<(), HttpError>)
      modifies this
      ensures result.Success? ==> r == Success(()) && State() == Authenticated(result.value)
      ensures result.Failure? ==> r == Failure(result.error) && State() == old(State()).(isLoading := false)
      ensures Consistent(old(State())) ==> Consistent(State())
    {
      match result
      case Success(response) =>
        user, token, isAuthenticated, isLoading := Some(response.user), Some(response.token), true, false;
        r := Success(());
      case Failure(error) =>
        isLoading := false;
        r := Failure(error);
    }

    method FinishLogin(client: ApiClient, email: string, password: string, reply: Reply<AuthResponse>)
      returns (sent: Request, r: Result<(), HttpError>)
      modifies this, client
      ensures sent == Request(POST, AuthApi.LoginPath, None, LoginBody(LoginRequest(email, password)),
                              WithAuthorization(old(client.GetToken()), map[]))
      ensures reply.Respond? ==> r == Success(()) && State() == Authenticated(reply.envelope.content)
      ensures reply.Reject? ==> r == Failure(reply.error) && State() == old(State()).(isLoading := false)
      ensures client.storage == AuthApi.StorageAfterAuth(old(client.storage), client.hasWindow, reply)
      ensures Consistent(old(State())) ==> Consistent(State())
    {
      var response;
      sent, response := AuthApi.Login(client, LoginRequest(email, password), reply);
      r := SettleAuth(response);
    }

    method FinishRegister(client: ApiClient, userData: RegisterRequest, reply: Reply<AuthResponse>)
      returns (sent: Request, r: Result<(), HttpError>)
      modifies this, client
      ensures sent == Request(POST, AuthApi.RegisterPath, None, RegisterBody(userData),
                              WithAuthorization(old(client.GetToken()), map[]))
      ensures reply.Respond? ==> r == Success(()) && State() == Authenticated(reply.envelope.content)
      ensures reply.Reject? ==> r == Failure(reply.error) && State() == old(State()).(isLoading := false)
      ensures client.storage == AuthApi.StorageAfterAuth(old(client.storage), client.hasWindow, reply)
      ensures Consistent(old(State())) ==> Consistent(State())
    {
      var response;
      sent, response := AuthApi.Register(client, userData, reply);
      r := SettleAuth(response);
    }

    /** The whole login: on failure user, token and isAuthenticated keep their
        values from before the call. */
    method Login(client: ApiClient, email: string, password: string, reply: Reply<AuthResponse>)
      returns (sent: Request, r: Result<(), HttpError>)
      modifies this, client
      ensures sent == Request(POST, AuthApi.LoginPath, None, LoginBody(LoginRequest(email, password)),
                              WithAuthorization(old(client.GetToken()), map[]))
      ensures reply.Respond? ==> r == Success(()) && State() == Authenticated(reply.envelope.content)
      ensures reply.Reject? ==> r == Failure(reply.error) && State() == old(State()).(isLoading := false)
      ensures client.storage == AuthApi.StorageAfterAuth(old(client.storage), client.hasWindow, reply)
      ensures Consistent(old(State())) ==> Consistent(State())
    {
      BeginAuth();
      sent, r := FinishLogin(client, email, password, reply);
    }

    method Register(client: ApiClient, userData: RegisterRequest, reply: Reply<AuthResponse>)
      returns (sent: Request, r: Result<(), HttpError>)
      modifies this, client
      ensures sent == Request(POST, AuthApi.RegisterPath, None, RegisterBody(userData),
                              WithAuthorization(old(client.GetToken()), map[]))
      ensures reply.Respond? ==> r == Success(()) && State() == Authenticated(reply.envelope.content)
      ensures reply.Reject? ==> r == Failure(reply.error) && State() == old(State()).(isLoading := false)
      ensures client.storage == AuthApi.StorageAfterAuth(old(client.storage), client.hasWindow, reply)
      ensures Consistent(old(State())) ==> Consistent(State())
    {
      BeginAuth();
      sent, r := FinishRegister(client, userData, reply);
    }

    /** Local only: drops the transport token and returns to the initial state, from
        any state, so a second logout changes nothing. */
    method Logout(client: ApiClient)
      modifies this, client
      ensures State() == InitialState && Consistent(State())
      ensures client.storage == Removed(old(client.storage), client.hasWindow)
      ensures client.GetToken() == None
    {
      AuthApi.Logout(client);
      user, token, isAuthenticated, isLoading := None, None, false, false;
    }

    method SetLoading(loading: bool)
      modifies this
      ensures State() == old(State()).(isLoading := loading)
      ensures Consistent(old(State())) ==> Consistent(State())
    {
      isLoading := loading;
    }
  }
}
