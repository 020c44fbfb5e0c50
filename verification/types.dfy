/** The records shared by the views and the session store (types/task.d.ts). */
module Types {
  import opened Wrappers

  datatype User = User(id: int, name: string, email: string)

  /** A task as the API returns it; the two timestamps are opaque strings. */
  datatype Task = Task(
    id: int,
    titulo: string,
    descripcion: Option<string>,
    completada: bool,
    creadaEn: string,
    actualizadaEn: string)

  /** The session record the authentication context publishes. */
  datatype AuthState = AuthState(
    user: Option<User>,
    token: Option<string>,
    isAuthenticated: bool,
    isLoading: bool)

  /** The Laravel-style validation body: a message and, per field, its messages.
      `errors` is kept as (field, messages) pairs in the order `Object.values`
      enumerates them. A body that is not such an object reads as both fields absent. */
  datatype ValidationData = ValidationData(
    message: Option<string>,
    errors: Option<seq<(string, seq<string>)>>)

  /** The HTTP response attached to a rejected request; `data` is None when the
      body is absent or falsy. */
  datatype ErrorResponse = ErrorResponse(status: int, data: Option<ValidationData>)

  /** What a view's `catch` receives: a rejection with or without a response. */
  datatype ApiFailure = ApiFailure(response: Option<ErrorResponse>)
}
