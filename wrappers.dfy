/** Error values, results and the shapes of foreign-call outcomes shared by every module.

    Errors follow the driver's Go conventions: a plain `error` built with fmt.Errorf, a gRPC
    status built with status.Errorf (code plus description), or a runtime panic (nil
    dereference, index or slice out of range, division by zero), which the Go program does not
    recover from. */
module Wrappers {

  /** The gRPC status codes the driver produces or inspects. */
  datatype Code = OK | Unknown | InvalidArgument | NotFound | AlreadyExists
                | FailedPrecondition | Aborted | Unauthenticated | Unimplemented

  datatype Error =
    | Plain(msg: string)               // fmt.Errorf / errors from strconv
    | Status(code: Code, msg: string)  // status.Errorf(code, msg)
    | Panic(reason: string)            // a Go runtime panic

  datatype Option<T> = None | Some(value: T)

  datatype Result<T> = Ok(value: T) | Err(error: Error)

  /** The panic message of a nil pointer dereference. */
  const NilDeref: string := "invalid memory address or nil pointer dereference"

  /** The result of an operation that returns only `error`. */
  datatype Outcome = Pass | Fail(error: Error)

  /** The backend's business error (dsdk.ApiErrorResponse). */
  datatype ApiError = ApiError(name: string, code: int, message: string)

  /** A backend SDK call returns (value, apierr, err); exactly one of the three is meaningful. */
  datatype Call<T> = Done(value: T) | ApiFailure(api: ApiError) | NetFailure(msg: string)

  function CodeName(c: Code): string
  {
    match c
    case OK => "OK"
    case Unknown => "Unknown"
    case InvalidArgument => "InvalidArgument"
    case NotFound => "NotFound"
    case AlreadyExists => "AlreadyExists"
    case FailedPrecondition => "FailedPrecondition"
    case Aborted => "Aborted"
    case Unauthenticated => "Unauthenticated"
    case Unimplemented => "Unimplemented"
  }

  /** err.Error(): the text the driver searches with strings.Contains. */
  function Text(e: Error): string
  {
    match e
    case Plain(m) => m
    case Status(c, m) => "rpc error: code = " + CodeName(c) + " desc = " + m
    case Panic(r) => r
  }

  /** status.Code(err): a plain error reports Unknown. */
  function CodeOf(e: Error): Code
  {
    match e
    case Status(c, _) => c
    case _ => Unknown
  }
}
