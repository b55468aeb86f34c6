# To-do web client: session, token and request model

A Dafny model of the stateful core of a small to-do web client (Next.js, zustand,
axios, React Query). It covers:

- the persisted **session store** (`user`, `token`, `isAuthenticated`, `isLoading`),
  its login/register/logout/setLoading transitions and the `partialize` projection
  that chooses the persisted fields (`session.dfy`, class `Session.AuthStore`);
- the **HTTP client's token lifecycle**: the token kept in `localStorage` under
  `auth_token` (a map field plus a "window present" flag), the request interceptor
  that adds `Authorization: Bearer <token>` only for a truthy token, the response
  interceptor that drops the token on a 401, and the four verbs that return the
  envelope unchanged (`client.dfy`, class `Client.ApiClient`);
- the **auth and todo endpoints**: which request each builds (verb, path, body,
  params), the conditional storing of a returned token, and the unwrapping of
  `content` (`auth_api.dfy`, `todos_api.dfy`);
- the **todo page's decisions**: the list query derived from the status filter and
  search term, the trim guard on create (with JavaScript's `trim` written out), the
  mark action as the negation of `isDone`, the confirmation guard on delete, what
  each mutation's `onSuccess`/`onError` does to component state and the query cache,
  and the empty-list default (`todos_view.dfy`, class `TodosView.TodosPage`);
- the relation between the session store and the transport token
  (`token_coherence.dfy`). They are separate state. The store says
  "authenticated" after any successful login, even one that returned an empty
  token, which the client does not store. A 401 clears the client's token but leaves
  the store, and its persisted copy, untouched.

The backend is never called. Each operation receives the backend's answer as a
parameter of type `Client.Reply<T>`: either `Respond(envelope)` or
`Reject(HttpError(status))`, where a missing status means no response arrived. Every
asynchronous action runs to completion inside one method. The session store's login
and register are also split at their `await`: `BeginAuth` runs before the call, and
`FinishLogin`/`FinishRegister` make the call and settle.

Three behaviours of the code that the model states outright:

- A 401 only removes `auth_token` from storage (`src/lib/api/client.ts:36-38`); the
  store keeps `user`, `token` and `isAuthenticated`
  (`TokenCoherence.UnauthorizedAfterLogin`).
- A failed login or register only sets `isLoading` to false; the previous `user`,
  `token` and `isAuthenticated` stay (`src/lib/stores/auth-store.ts:41-44`,
  `Session.AuthStore.SettleAuth`).
- The `Authorization` header is sent only for a truthy token
  (`src/lib/api/client.ts:23-26`), so a stored empty string sends none
  (`AuthApi.EmptyTokenSendsNoHeader`).

## Model

| member | source | states |
|---|---|---|
| `Client.TokenIn` | src/lib/api/client.ts:46-51 | the token is read from `auth_token` only when a window exists; without one it is always absent |
| `Client.Stored` | src/lib/api/client.ts:59-63 | after `setToken(t)`, reading back gives `t` with a window and nothing without; no other storage key changes; without a window storage is untouched |
| `Client.Removed` | src/lib/api/client.ts:53-57 | after clearing, reading back gives no token; no other storage key changes; without a window storage is untouched |
| `Client.AfterReply` | src/lib/api/client.ts:33-43 | a rejection with status 401 leaves no token; any other status, a rejection with no response, or a success leaves storage unchanged |
| `Client.BearerValue` | src/lib/api/client.ts:25 | the header value is `"Bearer "` followed by the token, and the token can be read back from it |
| `Client.WithAuthorization` | src/lib/api/client.ts:21-30 | `Authorization` is set to `"Bearer " + token` exactly when the token is truthy (present and non-empty); otherwise the headers are unchanged; no other header is added, removed or changed |
| `Client.Settle` | src/lib/api/client.ts:70-88 | a verb resolves with the response's envelope as is, or rejects with the same error |
| `Client.Unwrap` | src/lib/api/todos.ts:14-33 | the domain modules return exactly the envelope's `content`, and pass a rejection through unchanged |
| `Client.ApiClient.GetToken` | src/lib/api/client.ts:46-51 | the client's token is the stored `auth_token` when a window exists, and absent otherwise |
| `Client.ApiClient.ClearToken` | src/lib/api/client.ts:53-57 | storage loses `auth_token` (only with a window); afterwards no token is read |
| `Client.ApiClient.SetToken` | src/lib/api/client.ts:59-63 | storage gets `auth_token = t` (only with a window); afterwards the token read is `t`, or none without a window |
| `Client.ApiClient.RemoveToken` | src/lib/api/client.ts:65-67 | same effect as clearing |
| `Client.ApiClient.InterceptRequest` | src/lib/api/client.ts:21-30 | the config's headers become the bearer-header rule applied to the token read at that moment; the other config fields are constants |
| `Client.ApiClient.OnResponseError` | src/lib/api/client.ts:35-42 | on 401 the token is cleared, otherwise storage is unchanged; the same error is rejected in every case |
| `Client.ApiClient.Execute` | src/lib/api/client.ts:21-43 | the request is sent with the interceptor's headers; the result is the settled reply; storage afterwards follows the 401 rule |
| `Client.ApiClient.Get` | src/lib/api/client.ts:70-73 | one GET to `url` with `params` unchanged and no body; returns the envelope; 401 rule on storage |
| `Client.ApiClient.Post` | src/lib/api/client.ts:75-78 | one POST to `url` with the body unchanged; returns the envelope; 401 rule on storage |
| `Client.ApiClient.Put` | src/lib/api/client.ts:80-83 | one PUT to `url` with the body unchanged; returns the envelope; 401 rule on storage |
| `Client.ApiClient.Delete` | src/lib/api/client.ts:85-88 | one DELETE to `url` with no body; returns the envelope; 401 rule on storage |
| `AuthApi.StorageAfterAuth` | src/lib/api/auth.ts:8-29 | a non-empty returned token is what the client holds afterwards; an empty one leaves storage unchanged; a rejection only goes through the 401 rule; a non-empty stored token never becomes empty |
| `AuthApi.Authenticate` | src/lib/api/auth.ts:8-16 | the shared body of login and register: one POST of the body unchanged, result is the envelope's content, storage as above |
| `AuthApi.Login` | src/lib/api/auth.ts:8-16 | posts the credentials unchanged to `/auth/login`; returns exactly `content`; stores the token before returning only when it is non-empty |
| `AuthApi.Register` | src/lib/api/auth.ts:21-29 | posts the user data unchanged to `/auth/register`; returns exactly `content`; stores the token only when it is non-empty |
| `AuthApi.Logout` | src/lib/api/auth.ts:34-36 | no request is made; afterwards no token is stored |
| `AuthApi.GetToken` | src/lib/api/auth.ts:48-50 | the client's stored value |
| `AuthApi.IsAuthenticated` | src/lib/api/auth.ts:41-43 | true exactly when a window exists and `auth_token` is stored, whatever its value |
| `AuthApi.HeaderIffAuthenticated` | src/lib/api/auth.ts:11-13 | while every stored token is non-empty, which holds because tokens are stored only when non-empty, being authenticated and sending a bearer header coincide |
| `AuthApi.EmptyTokenSendsNoHeader` | src/lib/api/client.ts:23-26 | an empty stored token counts as authenticated yet sends no header |
| `TodosApi.TodoPath` | src/lib/api/todos.ts:39 | the delete path is `/todos/` followed by the id, and reading the id back from it gives that id |
| `TodosApi.MarkPath` | src/lib/api/todos.ts:31 | the mark path is `/todos/`, the id and `/mark`, and reading the id back from it gives that id |
| `TodosApi.TodoPathRoundTrip` | src/lib/api/todos.ts:38-40 | the id can be read back from the delete path, and only that id gives that path |
| `TodosApi.MarkPathRoundTrip` | src/lib/api/todos.ts:30-33 | the id can be read back from the mark path, and only that id gives that path |
| `TodosApi.GetAll` | src/lib/api/todos.ts:14-17 | one GET `/todos` with the params unchanged; returns `content` |
| `TodosApi.Create` | src/lib/api/todos.ts:22-25 | one POST `/todos` with the body unchanged; returns `content` |
| `TodosApi.Mark` | src/lib/api/todos.ts:30-33 | one PUT to the mark path of `id` with body `{action}`; the id is recoverable from the path; returns `content` |
| `TodosApi.Delete` | src/lib/api/todos.ts:38-40 | one DELETE to `/todos/<id>`; resolves with no value on success and rejects with the error otherwise |
| `Session.Partialize` | src/lib/stores/auth-store.ts:79-83 | keeps `user`, `token` and `isAuthenticated` and drops `isLoading` |
| `Session.PartializeForgetsOnlyLoading` | src/lib/stores/auth-store.ts:79-83 | two states persist alike exactly when they differ at most in `isLoading` |
| `Session.Authenticated` | src/lib/stores/auth-store.ts:35-40 | the state after success is authenticated, not loading, and holds a user and a token |
| `Session.AuthStore.constructor` | src/lib/stores/auth-store.ts:24-28 | the initial state is no user, no token, not authenticated, not loading |
| `Session.AuthStore.BeginAuth` | src/lib/stores/auth-store.ts:32 | sets `isLoading` and changes no other field (line 48 does the same for register) |
| `Session.AuthStore.SettleAuth` | src/lib/stores/auth-store.ts:35-44 | success: user and token are the response's, authenticated, not loading; failure: only `isLoading` becomes false and the error is rethrown |
| `Session.AuthStore.FinishLogin` | src/lib/stores/auth-store.ts:33-44 | calls the login endpoint with `{email, password}` and settles as above; the client's storage follows the endpoint's rule |
| `Session.AuthStore.FinishRegister` | src/lib/stores/auth-store.ts:49-60 | calls the register endpoint with the user data and settles as above |
| `Session.AuthStore.Login` | src/lib/stores/auth-store.ts:31-45 | the whole login: it sends `POST /auth/login` with the credentials and the bearer header of the token held before the call; on failure `user`, `token` and `isAuthenticated` keep their pre-call values and `isLoading` ends false; the user/token pairing with `isAuthenticated` is preserved |
| `Session.AuthStore.Register` | src/lib/stores/auth-store.ts:47-61 | the whole register: it sends `POST /auth/register` with the user data and the bearer header of the token held before the call, with the same outcome as login |
| `Session.AuthStore.Logout` | src/lib/stores/auth-store.ts:63-71 | from any state yields exactly the initial state and leaves no stored transport token |
| `Session.AuthStore.SetLoading` | src/lib/stores/auth-store.ts:73-75 | sets `isLoading` to the argument and leaves the other three fields unchanged |
| `TodosView.TrimStart` | src/app/todos/page.tsx:132 | the leading-whitespace half of `trim`: the result is a suffix, the dropped prefix is all whitespace, and the result does not start with whitespace |
| `TodosView.TrimEnd` | src/app/todos/page.tsx:132 | the trailing-whitespace half of `trim`: the result is a prefix, the dropped suffix is all whitespace, and the result does not end with whitespace |
| `TodosView.Trim` | src/app/todos/page.tsx:133 | a trimmed string neither starts nor ends with whitespace |
| `TodosView.TrimIsSlice` | src/app/todos/page.tsx:133 | the trimmed text is one contiguous slice of the input with only whitespace around it |
| `TodosView.TrimEmptyIff` | src/app/todos/page.tsx:132 | trimming gives the empty string exactly when the text is all whitespace |
| `TodosView.TrimIdempotent` | src/app/todos/page.tsx:132-133 | trimming twice is trimming once |
| `TodosView.QueryParamsFor` | src/app/todos/page.tsx:52-60 | `all` gives no filters, `done` gives `{isDone: true}`, `undone` gives `{isDone: false}`; an empty search term gives no search filter, any other term, whitespace-only included, gives `{item: term}` untrimmed; page 1, 50 rows, `createdAt` descending whatever the input |
| `TodosView.QueryParamsInjective` | src/app/todos/page.tsx:52-60 | different filter inputs give different query parameters |
| `TodosView.ListQueryKey` | src/app/todos/page.tsx:64 | the list query's key starts with `["todos"]`, so invalidating `["todos"]` reaches it for every filter |
| `TodosView.TodosOf` | src/app/todos/page.tsx:148 | no response gives an empty list; a response's entries are shown unchanged |
| `TodosView.CreatePayload` | src/app/todos/page.tsx:131-135 | create is dispatched exactly when the text has a non-whitespace character; the item is the trimmed text |
| `TodosView.MarkActionFor` | src/app/todos/page.tsx:138 | the action asks for the negation of the todo's current `isDone` |
| `TodosView.TodosPage.constructor` | src/app/todos/page.tsx:40-45 | empty search, status `all`, dialog closed, empty new-todo text |
| `TodosView.TodosPage.FetchTodos` | src/app/todos/page.tsx:63-66 | one GET `/todos` with the current query parameters; the list shown is the response's entries, or empty |
| `TodosView.TodosPage.OnCreateSuccess` | src/app/todos/page.tsx:71-79 | invalidates `["todos"]`, clears the new-todo text, closes the dialog and adds one success notice |
| `TodosView.TodosPage.OnUpdateSuccess` | src/app/todos/page.tsx:94-99 | invalidates `["todos"]` and adds one success notice, nothing else (also lines 114-119 for delete) |
| `TodosView.TodosPage.OnMutationError` | src/app/todos/page.tsx:80-87 | adds one failure notice and changes nothing else (also lines 101-108, 121-128) |
| `TodosView.TodosPage.HandleCreateTodo` | src/app/todos/page.tsx:131-135 | no request and no state change when the trimmed text is empty; otherwise one POST of the trimmed item, then the create success or error effects |
| `TodosView.TodosPage.HandleMarkTodo` | src/app/todos/page.tsx:137-140 | one PUT for the row's id whose action negates its `isDone`, then the success or error effects |
| `TodosView.TodosPage.HandleDeleteTodo` | src/app/todos/page.tsx:142-146 | no request and no change unless confirmed; otherwise one DELETE for the given id, then the success or error effects |
| `TokenCoherence.EmptyTokenLogin` | src/lib/stores/auth-store.ts:35-40 | from any stored state, a login answered with an empty token leaves the store authenticated with token `""`, while the client keeps the token it held before (none on a fresh client, the previous session's token otherwise) and the next request carries a bearer header exactly when that earlier token is truthy |
| `TokenCoherence.UnauthorizedAfterLogin` | src/lib/api/client.ts:36-38 | after a login with a real token, a 401 drops the client's token and later requests go without a header, while the store stays authenticated with its token |
| `TokenCoherence.UnauthorizedLeavesSession` | src/lib/api/client.ts:36-38 | from any state, a 401 on a mark request clears the client's token and leaves every field of the session store unchanged |
| `TokenCoherence.LogoutTwice` | src/lib/stores/auth-store.ts:63-71 | logging out twice ends in the initial state with no stored token, as once does |

## Left out

- The axios configuration is not modelled: base URL, the 10-second timeout and the default `Content-Type` header (`src/lib/api/client.ts:8-14`). Requests start with no headers of their own, and HTTP round trips are replaced by the `Reply` parameter.
- zustand's `persist` serialization, the `auth-storage` storage entry and rehydration are library behaviour. Only `partialize` is modelled.
- React Query's cache is modelled only as the log of keys passed to `invalidateQueries`, together with the prefix rule by which `["todos"]` reaches `["todos", params]`. Refetching, `isLoading` and keeping stale data after a failed refetch are not modelled. `TodosOf` is applied to the latest fetch only.
- Toast titles and wording are reduced to one (mutation, succeeded) notice per settled mutation. All JSX rendering, styling, icons and `isPending` button disabling are left out.
- `confirm()` is the boolean `confirmed` input of `HandleDeleteTodo`. `localStorage` is a map field and `typeof window` a constant flag.
- Overlapping mutations and out-of-order fetch resolution are left out because they are concurrency. Each handler dispatches and settles in one call.
- JavaScript numbers are modelled as unbounded integers (`totalData`, `totalPage`, `page`, `rows`, range bounds). The untyped `filters` record holds only boolean, string and integer values.
- Request bodies are one datatype covering the bodies this application sends, not arbitrary JSON.
- Errors carry only their HTTP status. The error message shown in a toast is not modelled.
- Runtime type violations are not modelled, for example a response without `content`, or a token that is `null` instead of a string.
- `src/types/index.ts` supplies datatypes only. `TodoState` and `UpdateTodoRequest` outside the mark body have no behaviour there.
