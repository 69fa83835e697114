/**
 * The error values that cross the proxy's code: gRPC status errors (with the
 * seventeen codes of google.golang.org/grpc/codes), io.EOF, and every other Go
 * error, which only carries its text.
 */
module Status {

  /** The gRPC status codes, in the order of their numeric values 0..16. */
  datatype Code =
    | OK | Canceled | Unknown | InvalidArgument | DeadlineExceeded | NotFound
    | AlreadyExists | PermissionDenied | ResourceExhausted | FailedPrecondition
    | Aborted | OutOfRange | Unimplemented | Internal | Unavailable | DataLoss
    | Unauthenticated

  /** codes.Code.String(): the name used in log records and error texts. */
  function CodeName(c: Code): string {
    match c
    case OK => "OK"
    case Canceled => "Canceled"
    case Unknown => "Unknown"
    case InvalidArgument => "InvalidArgument"
    case DeadlineExceeded => "DeadlineExceeded"
    case NotFound => "NotFound"
    case AlreadyExists => "AlreadyExists"
    case PermissionDenied => "PermissionDenied"
    case ResourceExhausted => "ResourceExhausted"
    case FailedPrecondition => "FailedPrecondition"
    case Aborted => "Aborted"
    case OutOfRange => "OutOfRange"
    case Unimplemented => "Unimplemented"
    case Internal => "Internal"
    case Unavailable => "Unavailable"
    case DataLoss => "DataLoss"
    case Unauthenticated => "Unauthenticated"
  }

  /** A non-nil Go error. */
  datatype Error =
    | EOF                                 // io.EOF
    | StatusError(code: Code, desc: string) // status.Error(code, desc)
    | Plain(text: string)                 // errors.New / fmt.Errorf / net errors

  /** status.Code(err) for a non-nil err: errors that carry no gRPC status are Unknown. */
  function CodeOf(e: Error): (c: Code)
    ensures c != Unknown ==> e.StatusError?
    ensures e.StatusError? ==> c == e.code
  {
    match e
    case StatusError(c, _) => c
    case _ => Unknown
  }

  /** err.Error(): the text an error prints as. */
  function Message(e: Error): string {
    match e
    case EOF => "EOF"
    case StatusError(c, d) => "rpc error: code = " + CodeName(c) + " desc = " + d
    case Plain(t) => t
  }
}
