/**
 * The remote task API as seen from the client: the requests it is sent and
 * the outcomes it hands back. The network itself is not modelled; an outcome
 * is an input to the operation that awaits it.
 */
module Gateway {
  import opened Wrappers
  import opened Tasks

  /** One entry of a validation failure's `errors` array. */
  datatype FieldError = FieldError(msg: string, path: string)

  /** The `data` of an error response: a validation report or plain text. */
  datatype Payload = ErrorList(errors: seq<FieldError>) | Text(text: string)

  /**
   * A rejected request: either the server answered with a status and a
   * payload (`error.response` is set), or no answer came back at all.
   */
  datatype GatewayError = HttpError(status: int, payload: Payload) | NoResponse

  /** What an awaited request resolves to. */
  datatype Response<T> = Ok(body: T) | Err(error: GatewayError)

  /** The operations of the API. */
  datatype Op =
    | GetTasks                                                         // `GET /tasks`
    | PostTask(titulo: string, descripcion: string, fechaLimite: string) // `POST /tasks`
    | PutTask(target: Option<TaskId>, data: Draft)                     // `PUT /tasks/{id}`, the id possibly undefined
    | DeleteTask(id: TaskId)                                           // `DELETE /tasks/{id}`

  /** A request as it is sent: the operation and the bearer token read from the cookie. */
  datatype Call = Call(bearer: Option<string>, op: Op)
}
