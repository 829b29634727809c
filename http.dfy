/** The parts of Express's request, response and `next` that the
    middlewares and controllers touch. */
module Http {
  import opened Wrappers
  import opened Json
  import opened Errors

  /** A body written to the response: JSON via `res.json`, or nothing via `res.send()`. */
  datatype Body = JsonBody(json: Json) | EmptyBody

  /** What `res.status(code).json(body)` / `.send()` writes. */
  datatype Reply = Reply(statusCode: int, body: Body)

  /** How a middleware or handler used `next`: not at all, `next()`, or `next(err)`. */
  datatype NextCall = NoNext | Next | NextWithError(error: ErrorRecord)

  /** The request: lower-cased headers, the three sections the validator
      rewrites, the URL, and what the correlation middleware attaches. */
  class Request {
    var headers: map<string, string>
    var body: Json
    var query: Json
    var params: Json
    var originalUrl: string
    var correlationId: Option<string>
    /** The correlation id bound into `req.log`, when a request logger is attached. */
    var logCorrelationId: Option<string>
  }

  /** The response: its headers and the one reply written to it, if any. */
  class Response {
    var headers: map<string, string>
    var sent: Option<Reply>
  }

  /** The value of a JSON body field, for stating properties of replies. */
  function BodyField(r: Reply, key: string): Option<Json> {
    if r.body.JsonBody? then Field(r.body.json, key) else None
  }
}
