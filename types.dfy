/** The task record the API exchanges, and the shape of the errors the
    client receives from its remote calls. */
module Types {

  datatype Option<+T> = None | Some(value: T)

  /** A to-do item. `completedDate` is an optional field: `None` stands for
      the field being absent (never set, or removed with `delete`). Dates
      are millisecond timestamps. */
  datatype Task = Task(
    id: string,
    text: string,
    completed: bool,
    createdDate: int,
    completedDate: Option<int>)

  /** The data-model invariant: a task carries a completion date exactly
      when it is completed. */
  predicate Consistent(t: Task)
  {
    t.completed <==> t.completedDate.Some?
  }

  predicate AllConsistent(s: seq<Task>)
  {
    forall i :: 0 <= i < |s| ==> Consistent(s[i])
  }

  /** JavaScript truthiness of an optional string field. */
  predicate Present(s: Option<string>)
  {
    s.Some? && s.value != ""
  }

  /** The `status` of a failed request: an HTTP status code, or one of the
      named statuses of the query layer ("FETCH_ERROR", "PARSING_ERROR", ...). */
  datatype Status = Code(code: int) | Named(name: string)

  /** The `data` of a failed request: absent, a plain string body, or an
      object body that may carry a `message`. */
  datatype ErrorData = NoData | Text(text: string) | Body(message: Option<string>)

  /** A rejected remote call, with the three fields the client inspects. */
  datatype ApiError = ApiError(data: ErrorData, status: Option<Status>, message: Option<string>)

  /** The settled result of one remote call. */
  datatype Outcome<+T> = Success(value: T) | Failure(error: ApiError)
}
