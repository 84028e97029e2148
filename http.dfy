/** The request and reply shapes the handlers exchange. A request is what the
    handlers read of an http.Request: its URL, the labelSelector query
    parameter, the RequestInfo placed in its context, the content type
    negotiated for it, and whether it asks for a protocol upgrade. A reply is
    what a handler writes back. */
module Http {
  import opened Base
  import opened Kube

  datatype Request = Request(
    url: string,
    selector: string,
    info: Option<RequestInfo>,
    contentType: string,
    isUpgrade: bool)

  /** The Kubernetes API errors the local responder returns, and any other
      error, which is reported as an internal failure. */
  datatype ApiError =
    | BadRequest(message: string)
    | NotFound(group: string, resource: string, name: string)
    | InternalError(cause: Error)
    | Unclassified(cause: Error)

  /** The HTTP status each error is written with. */
  function Code(e: ApiError): (code: int)
    ensures 400 <= code < 600
  {
    match e
    case BadRequest(_) => 400
    case NotFound(_, _, _) => 404
    case InternalError(_) => 500
    case Unclassified(_) => 500
  }

  /** metav1.Status. */
  datatype Status = Status(
    status: string,
    code: int,
    reason: string,
    name: string,
    group: string,
    kind: string,
    message: string)

  /** What a handler writes: an object, a Status, an error, a bare status
      code, or the response of a handler outside the model. */
  datatype Reply =
    | WrittenObject(code: int, obj: Object)
    | WrittenStatus(code: int, status: Status)
    | WrittenError(error: ApiError)
    | HeaderOnly(code: int)
    | Remote(id: nat)
}
