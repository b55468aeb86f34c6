/** The todo endpoints: each operation issues exactly one request through the client
    and returns the envelope's `content` (nothing for delete), with no filtering or
    transformation of its own. */
module TodosApi {
  import opened Types
  import opened Client

  const TodosPath: string := "/todos"
  const PathSeparator: string := "/"
  const MarkSuffix: string := "/mark"

  /** `/todos/${id}`. */
  function TodoPath(id: string): (p: string)
    ensures |p| == |TodosPath| + 1 + |id|
    ensures IdOfTodoPath(p) == Some(id)
  {
    var p := TodosPath + PathSeparator + id;
    assert p[..|TodosPath| + 1] == TodosPath + PathSeparator;
    assert p[|TodosPath| + 1..] == id;
    p
  }

  /** `/todos/${id}/mark`. */
  function MarkPath(id: string): (p: string)
    ensures |p| == |TodosPath| + 1 + |id| + |MarkSuffix|
    ensures IdOfMarkPath(p) == Some(id)
  {
    var p := TodoPath(id) + MarkSuffix;
    assert p == (TodosPath + PathSeparator) + id + MarkSuffix;
    assert p[..|TodosPath| + 1] == TodosPath + PathSeparator;
    assert p[|p| - |MarkSuffix|..] == MarkSuffix;
    assert p[|TodosPath| + 1..|p| - |MarkSuffix|] == id;
    p
  }

  /** The id a todo path names, as a router would read it back. */
  function IdOfTodoPath(path: string): Option<string> {
    var n := |TodosPath| + 1;
    if |path| >= n && path[..n] == TodosPath + PathSeparator then Some(path[n..]) else None
  }

  /** The id a mark path names. */
  function IdOfMarkPath(path: string): Option<string> {
    var n, m := |TodosPath| + 1, |MarkSuffix|;
    if |path| >= n + m && path[..n] == TodosPath + PathSeparator && path[|path| - m..] == MarkSuffix
    then Some(path[n..|path| - m])
    else None
  }

  /** The delete path carries its id and only it. */
  lemma TodoPathRoundTrip(id: string, path: string)
    ensures IdOfTodoPath(TodoPath(id)) == Some(id)
    ensures IdOfTodoPath(path) == Some(id) ==> TodoPath(id) == path
  {
  }

  /** The mark path carries its id and only it. */
  lemma MarkPathRoundTrip(id: string, path: string)
    ensures IdOfMarkPath(MarkPath(id)) == Some(id)
    ensures IdOfMarkPath(path) == Some(id) ==> MarkPath(id) == path
  {
  }

  method GetAll(client: ApiClient, params: Option<TodoQueryParams>, reply: Reply<PaginatedResponse<Todo>>)
    returns (sent: Request, r: Result<PaginatedResponse<Todo>, HttpError>)
    modifies client
    ensures sent == Request(GET, TodosPath, params, NoBody, WithAuthorization(old(client.GetToken()), map[]))
    ensures r == Unwrap(Settle(reply))
    ensures client.storage == AfterReply(old(client.storage), client.hasWindow, reply)
  {
    var response;
    sent, response := client.Get(TodosPath, params, reply);
    r := Unwrap(response);
  }

  method Create(client: ApiClient, todo: CreateTodoRequest, reply: Reply<Todo>)
    returns (sent: Request, r: Result<Todo, HttpError>)
    modifies client
    ensures sent == Request(POST, TodosPath, None, TodoBody(todo), WithAuthorization(old(client.GetToken()), map[]))
    ensures r == Unwrap(Settle(reply))
    ensures client.storage == AfterReply(old(client.storage), client.hasWindow, reply)
  {
    var response;
    sent, response := client.Post(TodosPath, TodoBody(todo), reply);
    r := Unwrap(response);
  }

  method Mark(client: ApiClient, id: string, action: MarkAction, reply: Reply<Todo>)
    returns (sent: Request, r: Result<Todo, HttpError>)
    modifies client
    ensures sent == Request(PUT, MarkPath(id), None, MarkBody(UpdateTodoRequest(action)),
                            WithAuthorization(old(client.GetToken()), map[]))
    ensures IdOfMarkPath(sent.url) == Some(id)
    ensures r == Unwrap(Settle(reply))
    ensures client.storage == AfterReply(old(client.storage), client.hasWindow, reply)
  {
    var response;
    sent, response := client.Put(MarkPath(id), MarkBody(UpdateTodoRequest(action)), reply);
    MarkPathRoundTrip(id, sent.url);
    r := Unwrap(response);
  }

  /** Resolves with no value: the envelope is dropped. */
  method Delete(client: ApiClient, id: string, reply: Reply<()>)
    returns (sent: Request, r: Result<(), HttpError>)
    modifies client
    ensures sent == Request(DELETE, TodoPath(id), None, NoBody, WithAuthorization(old(client.GetToken()), map[]))
    ensures IdOfTodoPath(sent.url) == Some(id)
    ensures r.Success? <==> reply.Respond?
    ensures reply.Reject? ==> r == Failure(reply.error)
    ensures client.storage == AfterReply(old(client.storage), client.hasWindow, reply)
  {
    var response;
    sent, response := client.Delete(TodoPath(id), reply);
    TodoPathRoundTrip(id, sent.url);
    match response
    case Success(_) => r := Success(());
    case Failure(error) => r := Failure(error);
  }
}
