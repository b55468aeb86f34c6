/** Shared record types of the to-do client: the backend's envelope, todos,
    query parameters and the authentication records. None of them has behaviour. */
module Types {

  /** A value that may be absent (`null` / `undefined` in the source). */
  datatype Option<+T> = None | Some(value: T)

  /** The outcome of an asynchronous call: a resolved value or a rejection. */
  datatype Result<+T, +E> = Success(value: T) | Failure(error: E)

  /** Every backend response: the payload in `content`, plus a message and error strings. */
  datatype ApiResponse<+T> = ApiResponse(content: T, message: string, errors: seq<string>)

  /** The payload of a list endpoint. Numbers are modelled as integers. */
  datatype PaginatedResponse<+T> = PaginatedResponse(entries: seq<T>, totalData: int, totalPage: int)

  datatype Todo = Todo(id: string, item: string, userId: string, isDone: bool,
                       createdAt: string, updatedAt: string)

  datatype CreateTodoRequest = CreateTodoRequest(item: string)

  /** The two actions the mark endpoint accepts. */
  datatype MarkAction = DONE | UNDONE

  datatype UpdateTodoRequest = UpdateTodoRequest(action: MarkAction)

  /** A value of the untyped `filters` record. */
  datatype FilterValue = BoolValue(b: bool) | StringValue(s: string) | NumberValue(n: int)

  datatype RangedFilter = RangedFilter(key: string, start: int, end: int)

  datatype OrderRule = Asc | Desc

  /** The list query descriptor; every field is optional. */
  datatype TodoQueryParams = TodoQueryParams(
    filters: Option<map<string, FilterValue>>,
    searchFilters: Option<map<string, string>>,
    rangedFilters: Option<seq<RangedFilter>>,
    page: Option<int>,
    rows: Option<int>,
    orderKey: Option<string>,
    orderRule: Option<OrderRule>)

  datatype LoginRequest = LoginRequest(email: string, password: string)

  datatype RegisterRequest = RegisterRequest(
    firstName: string, lastName: string, phoneNumber: string, email: string,
    password: string, confirmPassword: string, bio: Option<string>)

  /** The profile the backend returns with a token. */
  datatype User = User(id: string, email: string, firstName: string, lastName: string)

  datatype AuthResponse = AuthResponse(token: string, user: User)

  /** The four fields of the session store. */
  datatype AuthState = AuthState(user: Option<User>, token: Option<string>,
                                 isAuthenticated: bool, isLoading: bool)
}
