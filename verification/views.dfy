/**
  What a view function sees and returns once the web framework is taken away:
  the request (its `Authorization` header and its decoded JSON body), the parts
  of the process it reads at call time, and a `(status, body)` response.
 */
module Views {
  import opened PyValues
  import opened Misc

  /** A JSON response: `jsonify(body)` with its status code. */
  datatype Response = Response(status: int, body: Value)

  /** One inbound request: the `Authorization` header, if sent, and `request.get_json()`. */
  datatype Request = Request(authorization: Option<string>, json: Value)

  /**
    What a view reads besides the request: the application's `API_KEY` setting,
    the configuration's `HF_MODEL_INFO` flag as it stands when the view runs, and
    what the network answers for a URL at that moment.
   */
  datatype Env = Env(apiKey: Option<string>, hfModelInfo: bool, fetch: string -> FetchOutcome)

  /** A view function; a raised exception other than those it catches escapes to the framework. */
  type View = (Env, Request) -> Outcome<Response>

  /** A view decorator, such as `api_key_required`. */
  type Decorator = View -> View

  /** The body `{"error": msg}`. */
  function ErrorBody(msg: string): Value
  {
    Single("error", Str(msg))
  }
}
