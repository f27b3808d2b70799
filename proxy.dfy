/** The agent endpoint every model call goes through (`POST /api/ai/agent`), seen
    from the client: one prompt out, one reply back. The endpoint itself and the
    language model behind it are not modelled; callers take the endpoint as a
    function from the prompt to the reply. */
module Proxy {

  /** What one request comes back with: an HTTP response, or nothing at all when
      the request could not be made (`fetch` rejects). */
  datatype Reply = Response(status: int, body: string) | Unreachable

  /** `response.ok` */
  predicate IsOk(status: int) {
    200 <= status <= 299
  }

  /** The kinds of error the JavaScript engine raises on the paths modelled here: a
      `SyntaxError` from `JSON.parse`, and a `TypeError` from reading a property of
      `null`/`undefined`, calling a method a value lacks, or a rejected `fetch`. Their
      message texts belong to the engine and are not modelled. */
  datatype EngineError = SyntaxError | TypeError

  /** Why a call failed. `HttpStatus` and `Rejected` carry the application's own
      message material; `Engine` is an error the engine raised. */
  datatype Failure =
    | HttpStatus(status: int, body: string)
    | Rejected(message: string)
    | Engine(kind: EngineError)
}
