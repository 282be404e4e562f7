/** The exceptions the route handlers catch and the HTTP errors they raise. */
module Errors {

  /** FastAPI's HTTPException as seen by the client: a status code and a detail text. */
  datatype HttpError = HttpError(status: int, detail: string)

  /** An exception raised inside a handler's try block. */
  datatype Exception =
    | Http(status: int, detail: string)   // an HTTPException raised by the handler itself
    | Raised(message: string)             // any other exception, with the text str(e) gives

  /** Three decimal digits of a status code in [100, 999]. */
  function StatusDigits(status: int): (r: string)
    requires 100 <= status <= 999
    ensures |r| == 3 && forall k :: 0 <= k < 3 ==> '0' <= r[k] <= '9'
    ensures (r[0] - '0') as int * 100 + (r[1] - '0') as int * 10 + (r[2] - '0') as int == status
  {
    [('0' as int + status / 100) as char,
     ('0' as int + status / 10 % 10) as char,
     ('0' as int + status % 10) as char]
  }

  /** str(e): an HTTPException prints as "<status>: <detail>", any other exception as its message. */
  function Str(e: Exception): (r: string)
  {
    match e
    case Http(status, detail) =>
      if 100 <= status <= 999 then StatusDigits(status) + ": " + detail else detail
    case Raised(message) => message
  }
}
