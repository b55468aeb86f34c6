/** The todo list page: the list query it derives from its filter inputs, the
    guards in front of its three mutations, what each mutation does to the
    component state and the query cache once it settles, and the default list.

    A mutation is dispatched and settled within one handler call; the backend's
    answer is a parameter. The query cache is reduced to the log of keys passed to
    `invalidateQueries`, and toasts to a log of (mutation, succeeded) notices. */
module TodosView {
  import opened Types
  import opened Client
  import TodosApi

  // ---------------------------------------------------------------------------
  // String.prototype.trim

  /** The characters JavaScript's `trim` removes: the ECMAScript WhiteSpace and
      LineTerminator code points (tab, line tab, form feed, space, no-break space,
      zero-width no-break space, the Zs category, LF, CR, LS and PS). */
  predicate IsWhitespace(c: char) {
    || c == '\t' || c == '\n' || c == '\U{B}' || c == '\U{C}' || c == '\r'
    || c == ' ' || c == '\U{A0}' || c == '\U{1680}' || ('\U{2000}' <= c <= '\U{200A}')
    || c == '\U{2028}' || c == '\U{2029}' || c == '\U{202F}' || c == '\U{205F}'
    || c == '\U{3000}' || c == '\U{FEFF}'
  }

  predicate AllWhitespace(s: string) {
    forall i :: 0 <= i < |s| ==> IsWhitespace(s[i])
  }

  /** Drops leading whitespace: what remains is a suffix of `s`, what was dropped is
      all whitespace, and what remains does not start with whitespace. */
  function TrimStart(s: string): (r: string)
    ensures |r| <= |s| && r == s[|s| - |r|..]
    ensures AllWhitespace(s[..|s| - |r|])
    ensures r == [] || !IsWhitespace(r[0])
  {
    if |s| > 0 && IsWhitespace(s[0]) then
      var r := TrimStart(s[1..]);
      assert s[..|s| - |r|] == [s[0]] + s[1..][..|s| - 1 - |r|];
      r
    else s
  }

  /** Drops trailing whitespace: what remains is a prefix of `s`, what was dropped is
      all whitespace, and what remains does not end with whitespace. */
  function TrimEnd(s: string): (r: string)
    ensures |r| <= |s| && r == s[..|r|]
    ensures AllWhitespace(s[|r|..])
    ensures r == [] || !IsWhitespace(r[|r| - 1])
  {
    if |s| > 0 && IsWhitespace(s[|s| - 1]) then
      var r := TrimEnd(s[..|s| - 1]);
      assert s[|r|..] == s[..|s| - 1][|r|..] + [s[|s| - 1]];
      r
    else s
  }

  /** `trim()`: drops whitespace at both ends; what remains neither starts nor ends
      with whitespace. */
  function Trim(s: string): (r: string)
    ensures |r| <= |s|
    ensures r != [] ==> !IsWhitespace(r[0]) && !IsWhitespace(r[|r| - 1])
  {
    TrimEnd(TrimStart(s))
  }

  /** What `Trim` keeps is one slice of `s`, with only whitespace around it. */
  lemma TrimIsSlice(s: string)
    ensures var k, r := |s| - |TrimStart(s)|, Trim(s);
      && k + |r| <= |s| && r == s[k..k + |r|]
      && AllWhitespace(s[..k]) && AllWhitespace(s[k + |r|..])
  {
  }

  /** `trim()` is empty exactly when the string is all whitespace. */
  lemma TrimEmptyIff(s: string)
    ensures Trim(s) == [] <==> AllWhitespace(s)
  {
  }

  /** Trimming twice trims nothing more. */
  lemma TrimIdempotent(s: string)
    ensures Trim(Trim(s)) == Trim(s)
  {
  }

  // ---------------------------------------------------------------------------
  // The list query

  datatype StatusFilter = All | Done | Undone

  /** `queryParams`: status and search inputs become filters; paging and ordering are
      fixed. A search term is passed untrimmed, whitespace included. */
  function QueryParamsFor(status: StatusFilter, searchTerm: string): (q: TodoQueryParams)
    ensures q.filters.None? <==> status == All
    ensures status == Done ==> q.filters == Some(map["isDone" := BoolValue(true)])
    ensures status == Undone ==> q.filters == Some(map["isDone" := BoolValue(false)])
    ensures q.searchFilters.None? <==> searchTerm == ""
    ensures searchTerm != "" ==> q.searchFilters == Some(map["item" := searchTerm])
    ensures q.rangedFilters == None
    ensures q.page == Some(1) && q.rows == Some(50)
    ensures q.orderKey == Some("createdAt") && q.orderRule == Some(Desc)
  {
    TodoQueryParams(
      if status != All then Some(map["isDone" := BoolValue(status == Done)]) else None,
      if searchTerm != "" then Some(map["item" := searchTerm]) else None,
      None, Some(1), Some(50), Some("createdAt"), Some(Desc))
  }

  /** Distinct filter inputs give distinct queries, hence distinct cache entries. */
  lemma {:induction false} QueryParamsInjective(s1: StatusFilter, t1: string, s2: StatusFilter, t2: string)
    requires QueryParamsFor(s1, t1) == QueryParamsFor(s2, t2)
    ensures s1 == s2 && t1 == t2
  {
    var q1, q2 := QueryParamsFor(s1, t1), QueryParamsFor(s2, t2);
    if s1 != All {
      assert q1.filters.value["isDone"] == q2.filters.value["isDone"];
    }
    if t1 != "" {
      assert q1.searchFilters.value["item"] == q2.searchFilters.value["item"];
    }
  }

  /** A query key: a name followed by the query's parameters. */
  datatype KeyPart = Name(name: string) | Params(params: TodoQueryParams)

  /** The key every mutation invalidates. */
  const TodosKey: seq<KeyPart> := [Name("todos")]

  /** `["todos", queryParams]`: the key of the list query. Invalidation matches keys
      by prefix, so invalidating TodosKey reaches the list query whatever its filters. */
  function ListQueryKey(params: TodoQueryParams): (k: seq<KeyPart>)
    ensures TodosKey <= k && |k| == |TodosKey| + 1
    ensures k[|TodosKey|] == Params(params)
  {
    TodosKey + [Params(params)]
  }

  /** `todosResponse?.entries || []`: no response yet (or a failed fetch) shows an
      empty list; otherwise the backend's entries are shown as they are. */
  function TodosOf(response: Option<PaginatedResponse<Todo>>): (todos: seq<Todo>)
    ensures response.None? ==> todos == []
    ensures response.Some? ==> todos == response.value.entries
  {
    match response
    case None => []
    case Some(page) => page.entries
  }

  // ---------------------------------------------------------------------------
  // Mutation guards

  /** The create guard: a request is made exactly when the text holds a
      non-whitespace character, and its item is the trimmed text. */
  function CreatePayload(text: string): (p: Option<CreateTodoRequest>)
    ensures p.Some? <==> !AllWhitespace(text)
    ensures p.Some? ==> p.value.item == Trim(text)
    ensures p.Some? ==> p.value.item != [] && !IsWhitespace(p.value.item[0])
                        && !IsWhitespace(p.value.item[|p.value.item| - 1])
  {
    var item := Trim(text);
    TrimEmptyIff(text);
    if item != "" then Some(CreateTodoRequest(item)) else None
  }

  /** Whether an action asks for the todo to be done. */
  predicate RequestsDone(action: MarkAction) {
    action == DONE
  }

  /** The mark action asks for the opposite of the todo's current state. */
  function MarkActionFor(todo: Todo): (action: MarkAction)
    ensures RequestsDone(action) == !todo.isDone
  {
    if todo.isDone then UNDONE else DONE
  }

  /** The two kinds of notice a mutation produces. */
  datatype Mutation = CreateTodo | MarkTodo | DeleteTodo
  datatype Notice = Notice(mutation: Mutation, succeeded: bool)

  class TodosPage {
    var searchTerm: string
    var statusFilter: StatusFilter
    var isCreateDialogOpen: bool
    var newTodoText: string
    /** The keys passed to `invalidateQueries`, oldest first. */
    var invalidated: seq<seq<KeyPart>>
    /** One entry per settled mutation, oldest first. */
    var notices: seq<Notice>

    constructor ()
      ensures searchTerm == "" && statusFilter == All
      ensures !isCreateDialogOpen && newTodoText == ""
      ensures invalidated == [] && notices == []
    {
      searchTerm, statusFilter := "", All;
      isCreateDialogOpen, newTodoText := false, "";
      invalidated, notices := [], [];
    }

    function QueryParams(): TodoQueryParams
      reads this
    {
      QueryParamsFor(statusFilter, searchTerm)
    }

    /** The list query: one GET with the current parameters, and the list shown. */
    method FetchTodos(client: ApiClient, reply: Reply<PaginatedResponse<Todo>>)
      returns (sent: Request, todos: seq<Todo>)
      modifies client
      ensures sent == Request(GET, TodosApi.TodosPath, Some(QueryParams()), NoBody,
                              WithAuthorization(old(client.GetToken()), map[]))
      ensures reply.Respond? ==> todos == reply.envelope.content.entries
      ensures reply.Reject? ==> todos == []
      ensures client.storage == AfterReply(old(client.storage), client.hasWindow, reply)
    {
      var result;
      sent, result := TodosApi.GetAll(client, Some(QueryParams()), reply);
      todos := TodosOf(if result.Success? then Some(result.value) else None);
    }

    /** Create's `onSuccess`: invalidate, clear the text, close the dialog. */
    method OnCreateSuccess()
      modifies this
      ensures invalidated == old(invalidated) + [TodosKey]
      ensures newTodoText == "" && !isCreateDialogOpen
      ensures notices == old(notices) + [Notice(CreateTodo, true)]
      ensures searchTerm == old(searchTerm) && statusFilter == old(statusFilter)
    {
      invalidated := invalidated + [TodosKey];
      newTodoText := "";
      isCreateDialogOpen := false;
      notices := notices + [Notice(CreateTodo, true)];
    }

    /** Mark's and delete's `onSuccess`: invalidate only. */
    method OnUpdateSuccess(mutation: Mutation)
      modifies this
      ensures invalidated == old(invalidated) + [TodosKey]
      ensures notices == old(notices) + [Notice(mutation, true)]
      ensures searchTerm == old(searchTerm) && statusFilter == old(statusFilter)
      ensures newTodoText == old(newTodoText) && isCreateDialogOpen == old(isCreateDialogOpen)
    {
      invalidated := invalidated + [TodosKey];
      notices := notices + [Notice(mutation, true)];
    }

    /** Every `onError`: a failure notice and nothing else. */
    method OnMutationError(mutation: Mutation)
      modifies this
      ensures notices == old(notices) + [Notice(mutation, false)]
      ensures invalidated == old(invalidated)
      ensures searchTerm == old(searchTerm) && statusFilter == old(statusFilter)
      ensures newTodoText == old(newTodoText) && isCreateDialogOpen == old(isCreateDialogOpen)
    {
      notices := notices + [Notice(mutation, false)];
    }

    method HandleCreateTodo(client: ApiClient, reply: Reply<Todo>) returns (sent: Option<Request>)
      modifies this, client
      ensures CreatePayload(old(newTodoText)).None? ==>
        sent == None && unchanged(this) && client.storage == old(client.storage)
      ensures CreatePayload(old(newTodoText)).Some? ==>
        && sent == Some(Request(POST, TodosApi.TodosPath, None, TodoBody(CreatePayload(old(newTodoText)).value),
                                WithAuthorization(old(client.GetToken()), map[])))
        && client.storage == AfterReply(old(client.storage), client.hasWindow, reply)
      ensures CreatePayload(old(newTodoText)).Some? && reply.Respond? ==>
        && invalidated == old(invalidated) + [TodosKey]
        && newTodoText == "" && !isCreateDialogOpen
        && notices == old(notices) + [Notice(CreateTodo, true)]
      ensures CreatePayload(old(newTodoText)).Some? && reply.Reject? ==>
        && invalidated == old(invalidated)
        && newTodoText == old(newTodoText) && isCreateDialogOpen == old(isCreateDialogOpen)
        && notices == old(notices) + [Notice(CreateTodo, false)]
      ensures searchTerm == old(searchTerm) && statusFilter == old(statusFilter)
    {
      var payload := CreatePayload(newTodoText);
      if payload.Some? {
        var request, result := TodosApi.Create(client, payload.value, reply);
        sent := Some(request);
        if result.Success? {
          OnCreateSuccess();
        } else {
          OnMutationError(CreateTodo);
        }
      } else {
        sent := None;
      }
    }

    method HandleMarkTodo(todo: Todo, client: ApiClient, reply: Reply<Todo>) returns (sent: Request)
      modifies this, client
      ensures sent == Request(PUT, TodosApi.MarkPath(todo.id), None, MarkBody(UpdateTodoRequest(MarkActionFor(todo))),
                              WithAuthorization(old(client.GetToken()), map[]))
      ensures RequestsDone(sent.data.update.action) == !todo.isDone
      ensures client.storage == AfterReply(old(client.storage), client.hasWindow, reply)
      ensures invalidated == if reply.Respond? then old(invalidated) + [TodosKey] else old(invalidated)
      ensures notices == old(notices) + [Notice(MarkTodo, reply.Respond?)]
      ensures searchTerm == old(searchTerm) && statusFilter == old(statusFilter)
      ensures newTodoText == old(newTodoText) && isCreateDialogOpen == old(isCreateDialogOpen)
    {
      var result;
      sent, result := TodosApi.Mark(client, todo.id, MarkActionFor(todo), reply);
      if result.Success? {
        OnUpdateSuccess(MarkTodo);
      } else {
        OnMutationError(MarkTodo);
      }
    }

    /** `confirmed` is the user's answer to the confirmation dialog. */
    method HandleDeleteTodo(id: string, confirmed: bool, client: ApiClient, reply: Reply<()>)
      returns (sent: Option<Request>)
      modifies this, client
      ensures !confirmed ==> sent == None && unchanged(this) && client.storage == old(client.storage)
      ensures confirmed ==>
        && sent == Some(Request(DELETE, TodosApi.TodoPath(id), None, NoBody,
                                WithAuthorization(old(client.GetToken()), map[])))
        && client.storage == AfterReply(old(client.storage), client.hasWindow, reply)
        && invalidated == (if reply.Respond? then old(invalidated) + [TodosKey] else old(invalidated))
        && notices == old(notices) + [Notice(DeleteTodo, reply.Respond?)]
      ensures searchTerm == old(searchTerm) && statusFilter == old(statusFilter)
      ensures newTodoText == old(newTodoText) && isCreateDialogOpen == old(isCreateDialogOpen)
    {
      if confirmed {
        var request, result := TodosApi.Delete(client, id, reply);
        sent := Some(request);
        if result.Success? {
          OnUpdateSuccess(DeleteTodo);
        } else {
          OnMutationError(DeleteTodo);
        }
      } else {
        sent := None;
      }
    }
  }
}
