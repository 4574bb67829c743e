/** Values shared by the mail gateway, the tool handlers and the server:
    optional values, results, the scalar JSON values a tool call carries,
    and the exceptions that cross the tool boundary. */
module Common {

  datatype Option<+T> = None | Some(value: T)

  datatype Result<+R, +E> = Success(value: R) | Failure(error: E)

  /** A scalar JSON value, as found in a tool call's `arguments` mapping:
      a number with a fraction or an exponent arrives as a Python `float`,
      any other number as an `int`. */
  datatype Json = JNull | JBool(b: bool) | JInt(i: int) | JFloat(f: real) | JStr(s: string)

  /** Python truthiness of a scalar: `None`, `False`, `0`, `0.0` and `''` are falsy. */
  predicate Truthy(v: Json)
  {
    match v
    case JNull => false
    case JBool(b) => b
    case JInt(i) => i != 0
    case JFloat(f) => f != 0.0
    case JStr(s) => s != ""
  }

  /** `arguments.get(key, default)` */
  function Get(args: map<string, Json>, key: string, default: Json): (v: Json)
    ensures key in args ==> v == args[key]
    ensures key !in args ==> v == default
  {
    if key in args then args[key] else default
  }

  /** Python's `type(v).__name__` of a scalar. */
  function TypeName(v: Json): string
  {
    match v
    case JNull => "NoneType"
    case JBool(_) => "bool"
    case JInt(_) => "int"
    case JFloat(_) => "float"
    case JStr(_) => "str"
  }

  /** The exceptions raised on the tool-call path. `Message` is `str(e)`.
      `Raised` is an exception of a provider call that is not an
      `HttpError` (a time-out, a refused connection, a failed token
      refresh), which no `except HttpError` clause catches. `BodyNotText`
      is the `AttributeError` that `MIMEText` raises on a body that is not
      a string, naming the body's type. */
  datatype Error =
    | NotInitialized
    | MissingParameter(name: string)
    | ListFailed(httpError: string)
    | DraftFailed(httpError: string)
    | DecodeFailed(message: string)
    | Raised(message: string)
    | BodyNotText(typeName: string)
    | UnknownTool(name: string)
  {
    function Message(): (m: string)
      ensures NotInitialized? ==> m == "Gmail client not initialized"
      ensures MissingParameter? ==> m == "Missing required parameter: " + name
      ensures ListFailed? ==> m == "Failed to fetch unread emails: " + httpError
      ensures DraftFailed? ==> m == "Failed to create draft reply: " + httpError
      ensures DecodeFailed? || Raised? ==> m == message
      ensures BodyNotText? ==> m == "'" + typeName + "' object has no attribute 'encode'"
      ensures UnknownTool? ==> m == "Unknown tool: " + name
    {
      match this
      case NotInitialized => "Gmail client not initialized"
      case MissingParameter(p) => "Missing required parameter: " + p
      case ListFailed(e) => "Failed to fetch unread emails: " + e
      case DraftFailed(e) => "Failed to create draft reply: " + e
      case DecodeFailed(m) => m
      case Raised(m) => m
      case BodyNotText(t) => "'" + t + "' object has no attribute 'encode'"
      case UnknownTool(n) => "Unknown tool: " + n
    }
  }
}
