/** The Flask side of the proxy: what a route handler reads from a request,
    what it answers, and the upstream calls it hands to `make_api_request`. */
module Http {
  import opened Base
  import opened Json

  /** A request as the handlers read it: whether Flask judged it JSON, the
      decoded JSON object of the body, and the query-string arguments. */
  datatype Request = Request(isJson: bool, data: map<string, JsonValue>, args: map<string, string>)

  datatype Method = Get | Post | Put | Delete

  /** One call of `make_api_request(method, url, data=...)`. */
  datatype ApiCall = ApiCall(verb: Method, url: string, data: Option<JsonValue>)

  /** What an HTTP peer answered: nothing (a connection or request error),
      or a status code with a body that parsed as JSON or did not (None). */
  datatype Reply = Unreachable | Answered(status: int, body: Option<JsonValue>)

  /** The `(body, status)` pair `make_api_request` returns. */
  datatype ApiResult = ApiResult(body: JsonValue, status: int)

  /** A handler's answer: `jsonify(body), status`, or Flask's own 500 page
      when the handler raised an exception it does not catch. */
  datatype HttpResponse = JsonResponse(body: JsonValue, status: int) | InternalServerError

  /** A handler's answer together with the upstream calls it made, in order. */
  datatype Handled = Handled(response: HttpResponse, calls: seq<ApiCall>)

  /** `not request.args.get(key)`: the argument is absent or empty. */
  predicate ArgMissing(args: map<string, string>, key: string)
  {
    key !in args || args[key] == ""
  }

  /** `all(field in data for field in fields)`, evaluated field by field. */
  function AllPresent(fields: seq<string>, data: map<string, JsonValue>): (r: bool)
    ensures r <==> (forall f :: f in fields ==> f in data)
  {
    if fields == [] then true
    else fields[0] in data && AllPresent(fields[1..], data)
  }

  /** An answer made before any upstream call. */
  function Reject(body: JsonValue, status: int): Handled
  {
    Handled(JsonResponse(body, status), [])
  }

  /** Hand `call` to the upstream oracle and answer with its body and status unchanged. */
  function Forward(call: ApiCall, api: ApiCall -> ApiResult): Handled
  {
    Handled(JsonResponse(api(call).body, api(call).status), [call])
  }

  /** The 400 answer naming the required fields, as Python prints the list. */
  function MissingFieldsBody(fields: seq<string>): JsonValue
  {
    ErrorBody("Campos obrigatórios faltando: [" + QuotedList(fields) + "]")
  }

  function QuotedList(fields: seq<string>): string
  {
    if fields == [] then ""
    else "'" + fields[0] + "'" + (if |fields| == 1 then "" else ", " + QuotedList(fields[1..]))
  }

  const NotJsonMessage := "Requisição deve ser JSON"
}
