/** src/middlewares/correlationId.js: picks the request's correlation id
    from its headers or a freshly generated id, attaches it to the
    request and its logger, and echoes it in the response. */
module CorrelationId {
  import opened Wrappers
  import opened Http

  const CorrelationHeader := "x-correlation-id"
  const RequestIdHeader := "x-request-id"

  /** A header that is present and non-empty (JavaScript truthiness). */
  predicate HasValue(headers: map<string, string>, name: string) {
    name in headers && headers[name] != ""
  }

  /** `req.headers['x-correlation-id'] || req.headers['x-request-id'] || generated`,
      where `generated` stands for the generated UUID v7. */
  function ChooseCorrelationId(headers: map<string, string>, generated: string): (id: string)
    ensures HasValue(headers, CorrelationHeader) ==> id == headers[CorrelationHeader]
    ensures !HasValue(headers, CorrelationHeader) && HasValue(headers, RequestIdHeader) ==> id == headers[RequestIdHeader]
    ensures !HasValue(headers, CorrelationHeader) && !HasValue(headers, RequestIdHeader) ==> id == generated
  {
    if HasValue(headers, CorrelationHeader) then headers[CorrelationHeader]
    else if HasValue(headers, RequestIdHeader) then headers[RequestIdHeader]
    else generated
  }

  /** The id is never empty as long as a generated id is not: a request
      always gets a usable id. */
  lemma ChosenIdNonEmpty(headers: map<string, string>, generated: string)
    requires generated != ""
    ensures ChooseCorrelationId(headers, generated) != ""
  {
  }

  /** Propagation is stable: a downstream hop that receives the echoed
      header keeps the same id, whatever it would have generated. */
  lemma EchoedIdIsKept(headers: map<string, string>, generated: string, headers2: map<string, string>, generated2: string)
    requires generated != ""
    ensures var id := ChooseCorrelationId(headers, generated);
      ChooseCorrelationId(headers2[CorrelationHeader := id], generated2) == id
  {
  }

  /** A generated id is used only when neither header carries a value. */
  lemma FreshOnlyWithoutHeaders(headers: map<string, string>, generated: string)
    requires ChooseCorrelationId(headers, generated) != generated
    ensures HasValue(headers, CorrelationHeader) || HasValue(headers, RequestIdHeader)
  {
  }

  /** `correlationId(req, res, next)`: the returned value is its one call
      to `next`. */
  method CorrelationId(req: Request, res: Response, generated: string) returns (next: NextCall)
    modifies req`correlationId, req`logCorrelationId, res`headers
    ensures var id := ChooseCorrelationId(old(req.headers), generated);
      req.correlationId == Some(id) && req.logCorrelationId == Some(id)
      && res.headers == old(res.headers)[CorrelationHeader := id]
    ensures next == Next
  {
    var existing := if HasValue(req.headers, CorrelationHeader) then Some(req.headers[CorrelationHeader])
                    else if HasValue(req.headers, RequestIdHeader) then Some(req.headers[RequestIdHeader])
                    else None;
    var id := if existing.Some? then existing.value else generated;
    req.correlationId := Some(id);
    req.logCorrelationId := Some(id);
    res.headers := res.headers[CorrelationHeader := id];
    next := Next;
  }
}
