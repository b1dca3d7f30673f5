/** The service's error type `MyError`: its Display text (derived with `derive_more`) and
    the HTTP response actix builds from it. */
module Errors {

  /** `MyError`. The wrapped database and pool errors are represented by their own Display
      text, `detail`; the other three variants carry a static message. */
  datatype MyError =
    | NotFound
    | PGError(detail: string)
    | PGMError(detail: string)
    | PoolError(detail: string)
    | InternalError(message: string)
    | BadRequest(message: string)
    | Timeout(message: string)

  /** An HTTP response with a JSON `MessageResponse { message }` body. */
  datatype HttpResponse = HttpResponse(status: int, contentType: string, message: string)

  const InternalPrefix := "Internal Error: "
  const BadRequestPrefix := "Bad Request: "
  const TimeoutPrefix := "Gateway Timeout: "

  /** The variants whose Display text is a fixed prefix followed by their message. */
  predicate HasMessage(e: MyError)
  {
    e.InternalError? || e.BadRequest? || e.Timeout?
  }

  function Prefix(e: MyError): string
    requires HasMessage(e)
  {
    if e.InternalError? then InternalPrefix else if e.BadRequest? then BadRequestPrefix else TimeoutPrefix
  }

  /** `e.to_string()`: the three message variants show their prefix and message, a wrapped
      error shows its own text, and `NotFound` shows the variant's name. */
  function Display(e: MyError): string
  {
    match e
    case NotFound => "NotFound"
    case PGError(d) => d
    case PGMError(d) => d
    case PoolError(d) => d
    case InternalError(m) => InternalPrefix + m
    case BadRequest(m) => BadRequestPrefix + m
    case Timeout(m) => TimeoutPrefix + m
  }

  /** The Display text of a message variant starts with that variant's prefix, and the message
      is what follows it. */
  lemma DisplayMessage(e: MyError)
    requires HasMessage(e)
    ensures |Display(e)| >= |Prefix(e)|
    ensures Display(e)[..|Prefix(e)|] == Prefix(e)
    ensures Display(e)[|Prefix(e)|..] == e.message
  {
  }

  /** Two message variants with the same Display text are the same error: the first
      character of the prefix tells the variant, and the rest is the message. */
  lemma DisplayInjective(e1: MyError, e2: MyError)
    requires HasMessage(e1) && HasMessage(e2)
    requires Display(e1) == Display(e2)
    ensures e1 == e2
  {
    DisplayMessage(e1);
    DisplayMessage(e2);
    assert Display(e1)[0] == Prefix(e1)[0] && Display(e2)[0] == Prefix(e2)[0];
    assert Prefix(e1) == Prefix(e2);
  }

  /** `status_code()`: 400 for a bad request, 504 for a timeout, 500 for everything else. */
  function StatusCode(e: MyError): (r: int)
    ensures r == 400 <==> e.BadRequest?
    ensures r == 504 <==> e.Timeout?
    ensures r == 500 <==> !e.BadRequest? && !e.Timeout?
  {
    match e
    case BadRequest(_) => 400
    case Timeout(_) => 504
    case _ => 500
  }

  /** `error_response()`: a JSON response whose status is the error's status code and whose
      message is its Display text; it is always a client or server error. */
  function ErrorResponse(e: MyError): (r: HttpResponse)
    ensures r.status == StatusCode(e) && 400 <= r.status < 600
    ensures r.contentType == "application/json"
    ensures r.message == Display(e)
  {
    HttpResponse(StatusCode(e), "application/json", Display(e))
  }
}
