/** How the two error normalisers differ: both are in the repository,
    and src/app.js wires in errorHandler.js. */
module ErrorVariants {
  import opened Wrappers
  import opened Json
  import opened Errors
  import opened Http
  import opened QuotedValue
  import opened ErrorRules
  import M = ErrorMiddleware
  import H = ErrorHandler

  /** Outside development, for every error that is not a token error and
      whose duplicate-key message (if any) quotes a value, both answer
      the same error: the same code, status and message. */
  lemma SameAnswerOutsideTokensAndMissingQuotes(err: ErrorRecord)
    requires err.name != "JsonWebTokenError" && err.name != "TokenExpiredError"
    requires err.code == Some(11000) ==> err.errmsg.Some? && FirstMatch(err.errmsg.value).Some?
    ensures M.Answered(err) == H.Answered(err)
  {
    M.AnsweredByPriority(err);
    H.AnsweredByPriority(err);
  }

  /** The same agreement at the level of the reply, in every environment:
      the middleware sends what the handler sends, with the correlation id
      added to the body and nothing else changed. */
  lemma SameReplyOutsideTokensAndMissingQuotes(env: string, err: ErrorRecord, correlationId: Option<string>)
    requires err.name != "JsonWebTokenError" && err.name != "TokenExpiredError"
    requires err.code == Some(11000) ==> err.errmsg.Some? && FirstMatch(err.errmsg.value).Some?
    ensures M.Respond(env, err, correlationId).reply.Some? <==> H.Respond(env, err).reply.Some?
    ensures H.Respond(env, err).reply.Some? ==>
      var h := H.Respond(env, err).reply.value;
      h.body.JsonBody? && h.body.json.JObj? &&
      M.Respond(env, err, correlationId).reply ==
        Some(Reply(h.statusCode, JsonBody(JObj(h.body.json.fields + Optional("correlationId", correlationId)))))
  {
    SameAnswerOutsideTokensAndMissingQuotes(err);
    var e := WithDefaults(err);
    if env == "development" {
      assert M.SendErrorDev(e, correlationId).body.json.fields ==
        H.SendErrorDev(e).body.json.fields + Optional("correlationId", correlationId);
    }
  }

  /** A duplicate-key error whose message quotes nothing: the middleware
      answers 400 with 'unknown', the handler throws. */
  lemma MissingQuoteDiverges(env: string, err: ErrorRecord, correlationId: Option<string>)
    requires env != "development" && err.code == Some(11000)
    requires err.name != "ValidationError" && err.name != "JsonWebTokenError" && err.name != "TokenExpiredError"
    requires err.errmsg.None? || FirstMatch(err.errmsg.value).None?
    ensures M.Respond(env, err, correlationId).reply ==
      Some(Reply(400, JsonBody(M.ProdBody(DefaultStatus(err.status), "Duplicate field value: unknown. Please use another value.", correlationId))))
    ensures H.Respond(env, err).reply.None?
  {
    assert M.DuplicateValue(err.errmsg) == "unknown";
    UnknownValueMessage();
    M.DuplicateKeyAnswer(env, err, correlationId);
    H.ThrowsIff(env, err);
  }

  /** The middleware's fallback message, spelled out. */
  lemma UnknownValueMessage()
    ensures M.DuplicateMessage("unknown") == "Duplicate field value: unknown. Please use another value."
  {
  }

  /** A token error: the middleware answers 401, the handler answers the
      error as it is (500 unless it is flagged operational). */
  lemma TokenErrorsDiverge(env: string, err: ErrorRecord, correlationId: Option<string>)
    requires env != "development" && err.code != Some(11000) && !err.isOperational
    requires err.name == "JsonWebTokenError" || err.name == "TokenExpiredError"
    ensures M.Respond(env, err, correlationId).reply.value.statusCode == 401
    ensures H.Respond(env, err).reply.value.statusCode == 500
  {
    M.TokenErrorAnswers(env, err, correlationId);
    H.TokenErrorsUntranslated(env, err);
  }
}
