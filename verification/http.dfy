/** The shape shared by the four serverless handlers: a status code and a
    JSON body, the request body as `JSON.parse` delivers it, and the CORS
    preflight / method gate every handler starts with. Headers are not
    modelled: they are the same constant CORS set on every reply. */
module Http {
  import opened Wrappers

  /** A handler's JSON body. */
  datatype Body<+B> =
    | Empty                                          // ''
    | ErrorJson(error: string)                       // { error }
    | ErrorWithDetails(error: string, details: string) // { error, details }
    | ServerError(message: string)                   // { error: 'Internal server error', message }
    | Json(value: B)                                 // the handler's own success shape

  datatype Reply<+B> = Reply(statusCode: int, body: Body<B>)

  /** `JSON.parse(event.body || '{}')`: the destructured fields, or the
      message of the error the parse (or the destructuring) threw. */
  datatype Parsed<+T> = Parsed(value: T) | Malformed(message: string)

  const MethodNotAllowed := "Method not allowed"

  /** `response.ok` of a fetch: the status is in the 2xx range. */
  predicate OkStatus(status: int) {
    200 <= status <= 299
  }

  /** The answer to a request whose HTTP method is not `allowed`, if any:
      a preflight `OPTIONS` is answered 200 with an empty body, every other
      method but `allowed` is refused with 405, and `allowed` itself passes
      through (None). */
  function Gate<B>(httpMethod: string, allowed: string): (r: Option<Reply<B>>)
    requires allowed != "OPTIONS"
    ensures r.None? <==> httpMethod == allowed
    ensures r.Some? ==> r.value.statusCode in {200, 405}
    ensures r.Some? ==> (r.value.statusCode == 200 <==> httpMethod == "OPTIONS")
    ensures r.Some? && r.value.statusCode == 405 ==> r.value.body == ErrorJson(MethodNotAllowed)
    ensures r.Some? && r.value.statusCode == 200 ==> r.value.body == Empty
  {
    if httpMethod == "OPTIONS" then Some(Reply(200, Empty))
    else if httpMethod != allowed then Some(Reply(405, ErrorJson(MethodNotAllowed)))
    else None
  }
}
