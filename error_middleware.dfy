/** src/middlewares/error.middleware.js: the richer error normaliser,
    which also recognises token errors, carries the correlation id into
    every envelope, logs every error, and falls back to 'unknown' when a
    duplicate-key message has no quoted value. */
module ErrorMiddleware {
  import opened Wrappers
  import opened Json
  import opened Text
  import opened Errors
  import opened Http
  import opened Logging
  import opened QuotedValue
  import opened ErrorRules

  /** The shape tests in the order the middleware applies them. */
  const Rules: seq<Rule> := [CastRule, DuplicateKeyRule, ValidationRule, InvalidTokenRule, ExpiredTokenRule]

  function HandleCastError(err: ErrorRecord): Translation {
    Translation(400, "Invalid " + Render(err.path) + ": " + Render(err.value))
  }

  /** `match ? match[0] : 'unknown'` over `err.errmsg?.match(...)`. */
  function DuplicateValue(errmsg: Option<string>): (v: string)
    ensures v == "unknown" <==> errmsg.None? || FirstMatch(errmsg.value).None?
    ensures v != "unknown" ==> Some(v) == FirstMatch(errmsg.value)
  {
    if errmsg.Some? && FirstMatch(errmsg.value).Some? then FirstMatch(errmsg.value).value else "unknown"
  }

  function DuplicateMessage(value: string): string {
    "Duplicate field value: " + value + ". Please use another value."
  }

  function HandleDuplicateKeyError(err: ErrorRecord): Translation {
    Translation(400, DuplicateMessage(DuplicateValue(err.errmsg)))
  }

  /** None when `err.errors` is undefined: `Object.values` throws. */
  function HandleValidationError(err: ErrorRecord): Option<Translation> {
    match err.errors
    case None => None
    case Some(messages) => Some(Translation(400, "Invalid input data. " + Join(messages, ". ")))
  }

  function HandleJWTError(): Translation {
    Translation(401, "Invalid token. Please log in again.")
  }

  function HandleJWTExpiredError(): Translation {
    Translation(401, "Your token has expired. Please log in again.")
  }

  /** The helper each rule calls; None when it throws. */
  function Translate(r: Rule, err: ErrorRecord): Option<Translation> {
    match r
    case CastRule => Some(HandleCastError(err))
    case DuplicateKeyRule => Some(HandleDuplicateKeyError(err))
    case ValidationRule => HandleValidationError(err)
    case InvalidTokenRule => Some(HandleJWTError())
    case ExpiredTokenRule => Some(HandleJWTExpiredError())
  }

  function SendErrorDev(err: ErrorRecord, correlationId: Option<string>): Reply {
    Reply(DefaultStatusCode(err.statusCode), JsonBody(JObj(
      map["status" := JStr(DefaultStatus(err.status)), "error" := ErrorJson(err), "message" := JStr(err.message)]
      + Optional("stack", err.stack) + Optional("correlationId", correlationId))))
  }

  /** The production envelope `{ status, message, correlationId }`. */
  function ProdBody(status: string, message: string, correlationId: Option<string>): Json {
    JObj(map["status" := JStr(status), "message" := JStr(message)] + Optional("correlationId", correlationId))
  }

  const UnexpectedLogMessage := "Unexpected error \U{1F4A5}"

  /** The reply, and the extra log entry of a non-operational error. */
  function SendErrorProd(err: ErrorRecord, correlationId: Option<string>): (Reply, seq<LogEntry>) {
    if err.isOperational then
      (Reply(DefaultStatusCode(err.statusCode), JsonBody(ProdBody(DefaultStatus(err.status), err.message, correlationId))), [])
    else
      (Reply(500, JsonBody(ProdBody("error", "Something went wrong!", correlationId))),
       [LogEntry("error", UnexpectedLogMessage, None, correlationId)])
  }

  /** The entry logged for every error, before anything is answered. */
  function ErrorLogEntry(e: ErrorRecord, correlationId: Option<string>): LogEntry {
    LogEntry("error", IntToDecimal(DefaultStatusCode(e.statusCode)) + " - " + e.message, e.stack, correlationId)
  }

  /** The error answered outside development. */
  function Answered(err: ErrorRecord): Option<ErrorRecord> {
    Translated(Rules, Translate, WithDefaults(err))
  }

  /** What the middleware does with `err`, by the rule table. */
  function Respond(env: string, err: ErrorRecord, correlationId: Option<string>): Outcome {
    var e := WithDefaults(err);
    var first := ErrorLogEntry(e, correlationId);
    if env == "development" then Outcome(Some(SendErrorDev(e, correlationId)), [first])
    else match Answered(err)
      case None => Outcome(None, [first])
      case Some(answered) =>
        var (reply, extra) := SendErrorProd(answered, correlationId);
        Outcome(Some(reply), [first] + extra)
  }

  /** `errorMiddleware(err, req, res, next)` with `config.env == env`:
      defaults the code and status, logs, and outside development
      overwrites the copied error one shape test after the other. */
  method ErrorMiddleware(env: string, err: ErrorRecord, req: Request, res: Response) returns (logs: seq<LogEntry>)
    modifies res`sent
    ensures var o := Respond(env, err, req.correlationId);
      logs == o.logs && res.sent == (if o.reply.Some? then o.reply else old(res.sent))
  {
    var e := err.(statusCode := Some(DefaultStatusCode(err.statusCode)), status := Some(DefaultStatus(err.status)));
    logs := [ErrorLogEntry(e, req.correlationId)];
    if env == "development" {
      res.sent := Some(SendErrorDev(e, req.correlationId));
      return;
    }
    var error := e;
    if e.name == "CastError" {
      error := Apply(error, HandleCastError(e));
    }
    if e.code == Some(11000) {
      error := Apply(error, HandleDuplicateKeyError(e));
    }
    if e.name == "ValidationError" {
      var t := HandleValidationError(e);
      if t.None? {
        AnsweredByPriority(err);
        return;
      }
      error := Apply(error, t.value);
    }
    if e.name == "JsonWebTokenError" {
      error := Apply(error, HandleJWTError());
    }
    if e.name == "TokenExpiredError" {
      error := Apply(error, HandleJWTExpiredError());
    }
    AnsweredByPriority(err);
    assert Answered(err) == Some(error);
    var (reply, extra) := SendErrorProd(error, req.correlationId);
    res.sent := Some(reply);
    logs := logs + extra;
  }

  /** The shape tests read backwards, the first that holds deciding:
      since each applying `if` overwrites the code, the message and the
      flag, this is the same as the last test that holds winning. */
  function PriorityAnswer(e: ErrorRecord): Option<ErrorRecord> {
    if e.name == "ValidationError" && e.errors.None? then None
    else if e.name == "TokenExpiredError" then Some(Apply(e, HandleJWTExpiredError()))
    else if e.name == "JsonWebTokenError" then Some(Apply(e, HandleJWTError()))
    else if e.name == "ValidationError" then Some(Apply(e, HandleValidationError(e).value))
    else if e.code == Some(11000) then Some(Apply(e, HandleDuplicateKeyError(e)))
    else if e.name == "CastError" then Some(Apply(e, HandleCastError(e)))
    else Some(e)
  }

  /** Only the validation helper can throw, and only without field errors. */
  lemma HelperThrowsIff(e: ErrorRecord)
    ensures SomeHelperThrows(Rules, Translate, e) <==> e.name == "ValidationError" && e.errors.None?
  {
    if e.name == "ValidationError" && e.errors.None? {
      assert Applies(Rules[2], e) && Translate(Rules[2], e).None?;
    }
  }

  /** The rule table's answer is the backwards reading of the chain. */
  lemma AnsweredByPriority(err: ErrorRecord)
    ensures Answered(err) == PriorityAnswer(WithDefaults(err))
  {
    var e := WithDefaults(err);
    HelperThrowsIff(e);
    if e.name == "ValidationError" && e.errors.None? {
    } else if e.name == "TokenExpiredError" {
      TranslatedAt(Rules, Translate, e, 4);
    } else if e.name == "JsonWebTokenError" {
      TranslatedAt(Rules, Translate, e, 3);
    } else if e.name == "ValidationError" {
      TranslatedAt(Rules, Translate, e, 2);
    } else if e.code == Some(11000) {
      TranslatedAt(Rules, Translate, e, 1);
    } else if e.name == "CastError" {
      TranslatedAt(Rules, Translate, e, 0);
    } else {
      assert LastApplying(Rules, e).None?;
    }
  }

  /** The JSON value a correlation id contributes, if any. */
  function CorrelationField(correlationId: Option<string>): Option<Json> {
    if correlationId.Some? then Some(JStr(correlationId.value)) else None
  }

  /** In development the defaulted code is sent unchanged with the status,
      the original message, the stack and the correlation id: no shape is
      translated, whatever the error's name or code. */
  lemma DevelopmentAnswer(err: ErrorRecord, correlationId: Option<string>)
    ensures var o := Respond("development", err, correlationId);
      o.reply.Some? && o.reply.value.statusCode == DefaultStatusCode(err.statusCode)
      && BodyField(o.reply.value, "status") == Some(JStr(DefaultStatus(err.status)))
      && BodyField(o.reply.value, "message") == Some(JStr(err.message))
      && BodyField(o.reply.value, "stack") == (if err.stack.Some? then Some(JStr(err.stack.value)) else None)
      && BodyField(o.reply.value, "error") == Some(ErrorJson(WithDefaults(err)))
      && BodyField(o.reply.value, "correlationId") == CorrelationField(correlationId)
  {
    var e := WithDefaults(err);
    assert Respond("development", err, correlationId).reply == Some(SendErrorDev(e, correlationId));
    DevelopmentFields(e, correlationId);
  }

  /** The fields of the development envelope, one lookup at a time. */
  lemma DevelopmentFields(e: ErrorRecord, correlationId: Option<string>)
    ensures var r := SendErrorDev(e, correlationId);
      r.statusCode == DefaultStatusCode(e.statusCode)
      && BodyField(r, "status") == Some(JStr(DefaultStatus(e.status)))
      && BodyField(r, "message") == Some(JStr(e.message))
      && BodyField(r, "stack") == (if e.stack.Some? then Some(JStr(e.stack.value)) else None)
      && BodyField(r, "error") == Some(ErrorJson(e))
      && BodyField(r, "correlationId") == CorrelationField(correlationId)
  {
    var base := map["status" := JStr(DefaultStatus(e.status)), "error" := ErrorJson(e), "message" := JStr(e.message)];
    var stack := Optional("stack", e.stack);
    var corr := Optional("correlationId", correlationId);
    var m := base + stack + corr;
    assert SendErrorDev(e, correlationId).body == JsonBody(JObj(m));
    assert "stack" !in base && "correlationId" !in base && "correlationId" !in stack;
    assert "status" !in stack && "status" !in corr && "message" !in stack && "message" !in corr;
    assert "error" !in stack && "error" !in corr && "stack" !in corr;
    assert m["status"] == JStr(DefaultStatus(e.status)) && m["message"] == JStr(e.message);
  }

  /** Every error is logged once as "<statusCode> - <message>" before
      anything else; outside development a non-operational answer adds
      exactly one "Unexpected error" entry. */
  lemma EveryErrorLoggedFirst(env: string, err: ErrorRecord, correlationId: Option<string>)
    ensures var o := Respond(env, err, correlationId);
      1 <= |o.logs| <= 2
      && o.logs[0] == LogEntry("error", IntToDecimal(DefaultStatusCode(err.statusCode)) + " - " + err.message, err.stack, correlationId)
      && (|o.logs| == 2 <==> env != "development" && Answered(err).Some? && !Answered(err).value.isOperational)
      && (|o.logs| == 2 ==> o.logs[1].message == UnexpectedLogMessage)
  {
  }

  /** Whatever is answered carries the request's correlation id. */
  lemma EveryEnvelopeCarriesCorrelationId(env: string, err: ErrorRecord, correlationId: Option<string>)
    ensures var o := Respond(env, err, correlationId);
      o.reply.Some? ==> BodyField(o.reply.value, "correlationId") == CorrelationField(correlationId)
  {
  }

  /** Outside development only a ValidationError without field errors
      makes the middleware throw instead of answering. */
  lemma AnswersUnlessValidationHelperThrows(env: string, err: ErrorRecord, correlationId: Option<string>)
    ensures Respond(env, err, correlationId).reply.None? <==>
      env != "development" && err.name == "ValidationError" && err.errors.None?
  {
    AnsweredByPriority(err);
  }

  /** A CastError (without a duplicate-key code) answers 400 with
      "Invalid <path>: <value>" and its original status. */
  lemma CastErrorAnswer(env: string, err: ErrorRecord, correlationId: Option<string>)
    requires env != "development" && err.name == "CastError" && err.code != Some(11000)
    ensures Respond(env, err, correlationId).reply ==
      Some(Reply(400, JsonBody(ProdBody(DefaultStatus(err.status), "Invalid " + Render(err.path) + ": " + Render(err.value), correlationId))))
  {
    var e := WithDefaults(err);
    AnsweredByPriority(err);
    OperationalReply(env, err, correlationId, Apply(e, HandleCastError(e)));
  }

  /** The translated CastError keeps the status of the original error:
      without one it answers 400 with status 'error'. */
  lemma CastErrorWithoutStatus(err: ErrorRecord, correlationId: Option<string>)
    requires err.name == "CastError" && err.code.None? && err.status.None?
    ensures var r := Respond("production", err, correlationId).reply;
      r.Some? && r.value.statusCode == 400 && BodyField(r.value, "status") == Some(JStr("error"))
  {
    CastErrorAnswer("production", err, correlationId);
  }

  /** The value reported for a duplicate key is the leftmost quoted span
      of `errmsg`, or 'unknown' exactly when there is none. */
  lemma DuplicateValueIsLeftmostSpan(errmsg: Option<string>)
    ensures DuplicateValue(errmsg) == "unknown" <==> errmsg.None? || forall a, b :: !QuotedSpan(errmsg.value, a, b)
    ensures DuplicateValue(errmsg) != "unknown" ==>
      exists a, b :: QuotedSpan(errmsg.value, a, b) && DuplicateValue(errmsg) == errmsg.value[a..b]
                     && forall k, c :: k < a ==> !QuotedSpan(errmsg.value, k, c)
  {
    if errmsg.Some? {
      MatchIsLeftmostSpan(errmsg.value);
    }
  }

  /** A duplicate-key error answers 400 "Duplicate field value: <v>.
      Please use another value." unless a later name test overrides it. */
  lemma DuplicateKeyAnswer(env: string, err: ErrorRecord, correlationId: Option<string>)
    requires env != "development" && err.code == Some(11000)
    requires err.name != "ValidationError" && err.name != "JsonWebTokenError" && err.name != "TokenExpiredError"
    ensures Respond(env, err, correlationId).reply ==
      Some(Reply(400, JsonBody(ProdBody(DefaultStatus(err.status), DuplicateMessage(DuplicateValue(err.errmsg)), correlationId))))
  {
    var e := WithDefaults(err);
    AnsweredByPriority(err);
    OperationalReply(env, err, correlationId, Apply(e, HandleDuplicateKeyError(e)));
  }

  /** The shape tests are independent and the last one that holds wins:
      a CastError that also carries code 11000 is reported as a duplicate. */
  lemma LastRuleWins(env: string, err: ErrorRecord, correlationId: Option<string>)
    requires env != "development" && err.name == "CastError" && err.code == Some(11000)
    ensures Respond(env, err, correlationId).reply ==
      Some(Reply(400, JsonBody(ProdBody(DefaultStatus(err.status), DuplicateMessage(DuplicateValue(err.errmsg)), correlationId))))
  {
    DuplicateKeyAnswer(env, err, correlationId);
  }

  /** A ValidationError answers 400 with every field message, joined by ". ". */
  lemma ValidationErrorAnswer(env: string, err: ErrorRecord, correlationId: Option<string>, messages: seq<string>)
    requires env != "development" && err.name == "ValidationError" && err.errors == Some(messages)
    ensures Respond(env, err, correlationId).reply ==
      Some(Reply(400, JsonBody(ProdBody(DefaultStatus(err.status), "Invalid input data. " + Join(messages, ". "), correlationId))))
  {
    var e := WithDefaults(err);
    AnsweredByPriority(err);
    OperationalReply(env, err, correlationId, Apply(e, HandleValidationError(e).value));
  }

  /** An operational answer is sent with its own code, status and message. */
  lemma OperationalReply(env: string, err: ErrorRecord, correlationId: Option<string>, a: ErrorRecord)
    requires env != "development" && Answered(err) == Some(a) && a.isOperational
    ensures Respond(env, err, correlationId).reply ==
      Some(Reply(DefaultStatusCode(a.statusCode), JsonBody(ProdBody(DefaultStatus(a.status), a.message, correlationId))))
  {
  }

  /** The validation answer names every field message it was given. */
  lemma ValidationMessageNamesEachField(messages: seq<string>, i: int)
    requires 0 <= i < |messages|
    ensures Contains("Invalid input data. " + Join(messages, ". "), messages[i])
  {
    PrefixedJoinContainsEach("Invalid input data. ", messages, ". ", i);
  }

  /** The two token errors answer 401 with their fixed messages. */
  lemma TokenErrorAnswers(env: string, err: ErrorRecord, correlationId: Option<string>)
    requires env != "development"
    ensures err.name == "JsonWebTokenError" ==>
      Respond(env, err, correlationId).reply ==
      Some(Reply(401, JsonBody(ProdBody(DefaultStatus(err.status), "Invalid token. Please log in again.", correlationId))))
    ensures err.name == "TokenExpiredError" ==>
      Respond(env, err, correlationId).reply ==
      Some(Reply(401, JsonBody(ProdBody(DefaultStatus(err.status), "Your token has expired. Please log in again.", correlationId))))
  {
    var e := WithDefaults(err);
    AnsweredByPriority(err);
    if err.name == "JsonWebTokenError" {
      OperationalReply(env, err, correlationId, Apply(e, HandleJWTError()));
    } else if err.name == "TokenExpiredError" {
      OperationalReply(env, err, correlationId, Apply(e, HandleJWTExpiredError()));
    }
  }

  /** An error of no recognised shape answers with its own code, status
      and message when operational, and with a generic 500 otherwise. */
  lemma UnrecognisedErrorAnswer(env: string, err: ErrorRecord, correlationId: Option<string>)
    requires env != "development" && err.code != Some(11000)
    requires err.name != "CastError" && err.name != "ValidationError"
    requires err.name != "JsonWebTokenError" && err.name != "TokenExpiredError"
    ensures err.isOperational ==>
      Respond(env, err, correlationId).reply ==
      Some(Reply(DefaultStatusCode(err.statusCode), JsonBody(ProdBody(DefaultStatus(err.status), err.message, correlationId))))
    ensures !err.isOperational ==>
      Respond(env, err, correlationId).reply ==
      Some(Reply(500, JsonBody(ProdBody("error", "Something went wrong!", correlationId))))
  {
    AnsweredByPriority(err);
  }
}
