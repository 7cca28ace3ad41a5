/** The request and response shapes the views of alambic_app/views.py work with. */
module Http {

  /** An incoming request: its HTTP verb and its query parameters (`request.GET`). */
  datatype Request = Request(verb: string, params: map<string, string>)

  /** The two exceptions the views raise for a malformed request. */
  datatype ViewError =
    | BadRequest(message: string)   // BadRequestError
    | Invalid(message: string)      // ValidationError

  /** A JSON scalar, as placed in a `JsonResponse` body. */
  datatype Json = JStr(s: string) | JInt(n: int)

  /** The body of a `JsonResponse`: a dictionary from keys to scalars. */
  type JsonObject = map<string, Json>

  const GET := "GET"
  const INVALID_SERVER_REQUEST := "Invalid server request"
}
