/**
 * Stand-ins for the werkzeug values the core passes around. The core never
 * looks inside a request or a response; it only moves them, so they are
 * plain values here.
 */
module Http {
  import opened Wrappers

  /** The WSGI environ dictionary of one request. */
  type Environ = map<string, string>

  /** werkzeug's Request wrapping one environ. */
  datatype HttpRequest = HttpRequest(environ: Environ)

  /** A werkzeug HTTPException: its status code and name. */
  datatype HttpException = HttpException(code: nat, name: string)

  /** werkzeug's NotFound. */
  const NotFound := HttpException(404, "Not Found")

  /** Anything a hook can raise: HTTP exceptions are told apart from every other fault. */
  datatype Exception = HttpError(error: HttpException) | Fault(kind: string)

  /** What a context manager's `__exit__` receives: nothing, or the exception in flight. */
  type ExcInfo = Option<Exception>

  /** A response class an application or mixin instantiates (BaseResponse, HTMLResponse, ...). */
  datatype ResponseClass = ResponseClass(name: string, defaultMimetype: Option<string>)

  /**
   * A response object: one built by application code, or an HTTPException
   * standing in as a response (werkzeug's HTTP exceptions are WSGI
   * applications themselves).
   */
  datatype Response =
    | Response(responseClass: ResponseClass, status: nat, body: string, mimetype: Option<string>)
    | ExceptionResponse(error: HttpException)
}
