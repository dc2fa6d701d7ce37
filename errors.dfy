/**
 * `handleErrors`: what the client does with a rejected request. The alert
 * dialog, its text and the page reload after the user acknowledges it are
 * the fields of a Disposition; so is the value the handler returns.
 */
module Errors {
  import opened Gateway

  const Unprocessable: int := 422
  const Forbidden: int := 403
  const Unauthorized: int := 401
  const SessionExpired: int := 419

  const NotAuthorizedText: string := "No autorizado para realizar esta accion"
  const SessionExpiredText: string := "Su session expiro por inactividad, vuelva a iniciar sesion"
  const UnexpectedText: string := "Error inesperado recargue la pagina(presione F5), se recargara la pagina"

  /** What the error dialog shows. */
  datatype Alert =
    | ShowMessages(msgs: seq<string>)  // the list of validation messages
    | ShowPayload(payload: Payload)    // the server's own payload, as it came
    | ShowText(text: string)           // a fixed text of the client

  /** The handler's return value: `{}` or `false`. */
  datatype Returned = EmptyObject | False

  /**
   * Either the handler ran to its end, showing `alert` and returning
   * `returned`, and reloading the page once the dialog is acknowledged when
   * `reloadOnAck` holds; or the handler itself threw before showing anything.
   */
  datatype Disposition =
    | Handled(alert: Alert, returned: Returned, reloadOnAck: bool)
    | Threw

  /** `errors.map((item) => item.msg)`. */
  function Messages(errors: seq<FieldError>): (msgs: seq<string>)
    ensures |msgs| == |errors|
    ensures forall i :: 0 <= i < |errors| ==> msgs[i] == errors[i].msg
  {
    if errors == [] then [] else [errors[0].msg] + Messages(errors[1..])
  }

  /**
   * The classification of a rejected request. A request without a response
   * makes the handler throw, because it reads the status of an undefined
   * response; a 422 whose payload has no `errors` array throws likewise.
   */
  function Classify(e: GatewayError): (d: Disposition)
    ensures d.Threw? <==> e.NoResponse? || (e.status == Unprocessable && !e.payload.ErrorList?)
    ensures d.Handled? ==> (d.reloadOnAck <==> e.status == SessionExpired)
    ensures d.Handled? ==> (d.returned == False <==> e.status == Unauthorized)
    ensures d.Handled? && e.status == Unprocessable ==> d.alert == ShowMessages(Messages(e.payload.errors))
    ensures d.Handled? && e.status == Forbidden ==> d.alert == ShowPayload(e.payload)
    ensures d.Handled? && e.status == Unauthorized ==> d.alert == ShowText(NotAuthorizedText)
    ensures d.Handled? && e.status == SessionExpired ==> d.alert == ShowText(SessionExpiredText)
    ensures d.Handled? && e.status !in {Unprocessable, Forbidden, Unauthorized, SessionExpired} ==>
              d.alert == ShowText(UnexpectedText)
  {
    match e
    case NoResponse => Threw
    case HttpError(status, payload) =>
      if status == Unprocessable then
        if payload.ErrorList? then Handled(ShowMessages(Messages(payload.errors)), EmptyObject, false)
        else Threw
      else if status == Forbidden then Handled(ShowPayload(payload), EmptyObject, false)
      else if status == Unauthorized then Handled(ShowText(NotAuthorizedText), False, false)
      else if status == SessionExpired then Handled(ShowText(SessionExpiredText), EmptyObject, true)
      // the reload after the catch-all dialog is commented out in the handler
      else Handled(ShowText(UnexpectedText), EmptyObject, false)
  }

  /** A 422 whose report names one missing field shows exactly that message. */
  lemma ValidationScenario()
    ensures Classify(HttpError(422, ErrorList([FieldError("titulo requerido", "titulo")])))
            == Handled(ShowMessages(["titulo requerido"]), EmptyObject, false)
  {
  }

  /** The validation dialog lists the messages of a concatenated report in order. */
  lemma {:induction false} MessagesAppend(a: seq<FieldError>, b: seq<FieldError>)
    ensures Messages(a + b) == Messages(a) + Messages(b)
  {
    if a != [] {
      assert (a + b)[1..] == a[1..] + b;
      MessagesAppend(a[1..], b);
    }
  }
}
