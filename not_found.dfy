/** src/middlewares/notFound.js: the fallthrough for unmatched routes. */
module NotFound {
  import opened Wrappers
  import opened Json
  import opened Errors
  import opened Http
  import ErrorRules
  import ErrorHandler
  import ErrorMiddleware

  function NotFoundMessage(originalUrl: string): string {
    "Cannot find " + originalUrl + " on this server"
  }

  /** `notFound(req, res, next)`: always `next(new AppError(..., 404))`,
      never a reply. */
  function NotFound(originalUrl: string): (n: NextCall)
    ensures n.NextWithError?
    ensures n.error.statusCode == Some(404) && n.error.status == Some("fail") && n.error.isOperational
    ensures n.error.message == NotFoundMessage(originalUrl)
  {
    NextWithError(NewAppError(NotFoundMessage(originalUrl), 404))
  }

  /** Passed to the error handler outside development, the fallthrough
      answers 404 `{ status: 'fail', message: 'Cannot find <url> on this server' }`. */
  lemma UnmatchedRouteAnswers404(env: string, originalUrl: string)
    requires env != "development"
    ensures ErrorHandler.Respond(env, NotFound(originalUrl).error) ==
      ErrorRules.Outcome(Some(Reply(404, JsonBody(ErrorHandler.ProdBody("fail", NotFoundMessage(originalUrl))))), [])
  {
    var e := ErrorRules.WithDefaults(NotFound(originalUrl).error);
    assert ErrorRules.LastApplying(ErrorHandler.Rules, e).None?;
    assert !ErrorRules.SomeHelperThrows(ErrorHandler.Rules, ErrorHandler.Translate, e);
  }

  /** The richer middleware answers the same, plus the correlation id. */
  lemma UnmatchedRouteAnswers404WithCorrelationId(env: string, originalUrl: string, correlationId: Option<string>)
    requires env != "development"
    ensures ErrorMiddleware.Respond(env, NotFound(originalUrl).error, correlationId).reply ==
      Some(Reply(404, JsonBody(ErrorMiddleware.ProdBody("fail", NotFoundMessage(originalUrl), correlationId))))
  {
    ErrorMiddleware.UnrecognisedErrorAnswer(env, NotFound(originalUrl).error, correlationId);
  }
}
