/** Values shared by the retrieval pipeline: optional fields, failures, the
    parts of a JSON document the pipeline reads, HTTP responses and requests. */
module Types {

  datatype Option<+T> = None | Some(value: T) {
    /** `dict.get(key, default)`: the value if present, otherwise the default. */
    function GetOr(default: T): T {
      match this
      case Some(v) => v
      case None => default
    }
  }

  /** The exceptions the pipeline lets escape. */
  datatype Failure =
    | HttpError(status: StatusCode)   // raise_for_status on a 4xx or 5xx response
    | NoResponse                      // the transport raised before any status arrived
    | MissingKey(key: string)         // a search record lacks a key read with `[...]`

  datatype Result<+T> = Ok(value: T) | Err(failure: Failure)

  /** What a whole run ends with: it completes, or an exception escapes it. */
  datatype Outcome = Done | Aborted(failure: Failure)

  /** An HTTP status code; status codes are three-digit numbers 100 to 599
      (section 15 of RFC 9110). */
  type StatusCode = s: int | 100 <= s <= 599 witness 200

  /** One record of a search page. `id` is the text the record's id formats to
      in an f-string; a key absent from the JSON object is `None`. */
  datatype CaseMeta = CaseMeta(id: Option<string>, url: Option<string>, name: Option<string>)

  /** A decoded JSON body, reduced to what the pipeline reads from it:
      `results` (an absent key reads as the empty list), `next` (absent or
      null is `None`), and everything else as an opaque value. */
  datatype Json = Json(results: seq<CaseMeta>, next: Option<string>, rest: nat)

  /** A response: its status, its Retry-After header already read as a number
      of seconds (absent is `None`), and its decoded body. */
  datatype Response = Response(status: StatusCode, retryAfter: Option<nat>, body: Json)

  /** Query parameters: the empty dict, or the first search page's parameters. */
  datatype Params = NoParams | SearchQuery(q: string, resultType: string, pageSize: int)

  /** One invocation of `ApiClient.get`, as its caller wrote it. */
  datatype Call = Call(path: string, params: Params)

  /** One request on the wire, with the authorization header it carries. */
  datatype Request = Request(url: string, params: Params, authorization: string)
}
