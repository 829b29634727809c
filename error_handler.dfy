/** src/middlewares/errorHandler.js: the error normaliser with three
    shape tests, no correlation id, and a duplicate-key helper that
    throws when the message has no quoted value. */
module ErrorHandler {
  import opened Wrappers
  import opened Json
  import opened Text
  import opened Errors
  import opened Http
  import opened Logging
  import opened QuotedValue
  import opened ErrorRules

  /** The shape tests in the order the handler applies them. */
  const Rules: seq<Rule> := [CastRule, DuplicateKeyRule, ValidationRule]

  function HandleCastError(err: ErrorRecord): Translation {
    Translation(400, "Invalid " + Render(err.path) + ": " + Render(err.value))
  }

  /** `err.errmsg.match(...)[0]`: None when `errmsg` is undefined or the
      match is null, both of which throw. */
  function HandleDuplicateKeyError(err: ErrorRecord): (t: Option<Translation>)
    ensures t.None? <==> err.errmsg.None? || FirstMatch(err.errmsg.value).None?
    ensures t.Some? ==> t.value.statusCode == 400
  {
    if err.errmsg.None? then None
    else match FirstMatch(err.errmsg.value)
      case None => None
      case Some(value) => Some(Translation(400, "Duplicate field value: " + value + ". Please use another value."))
  }

  /** None when `err.errors` is undefined: `Object.values` throws. */
  function HandleValidationError(err: ErrorRecord): Option<Translation> {
    match err.errors
    case None => None
    case Some(messages) => Some(Translation(400, "Invalid input data. " + Join(messages, ". ")))
  }

  /** The helper each rule calls; None when it throws. The token rules
      are not tested by this handler and never reach here. */
  function Translate(r: Rule, err: ErrorRecord): Option<Translation> {
    match r
    case CastRule => Some(HandleCastError(err))
    case DuplicateKeyRule => HandleDuplicateKeyError(err)
    case ValidationRule => HandleValidationError(err)
    case InvalidTokenRule => None
    case ExpiredTokenRule => None
  }

  function SendErrorDev(err: ErrorRecord): Reply {
    Reply(DefaultStatusCode(err.statusCode), JsonBody(JObj(
      map["status" := JStr(DefaultStatus(err.status)), "error" := ErrorJson(err), "message" := JStr(err.message)]
      + Optional("stack", err.stack))))
  }

  /** The production envelope `{ status, message }`. */
  function ProdBody(status: string, message: string): Json {
    JObj(map["status" := JStr(status), "message" := JStr(message)])
  }

  const UnexpectedLogMessage := "ERROR \U{1F4A5}"

  /** The reply, and the log entry of a non-operational error. The
      logged object is the `{ ...err }` copy, which has no stack: an
      error's `stack` is not an own enumerable property. */
  function SendErrorProd(err: ErrorRecord): (Reply, seq<LogEntry>) {
    if err.isOperational then
      (Reply(DefaultStatusCode(err.statusCode), JsonBody(ProdBody(DefaultStatus(err.status), err.message))), [])
    else
      (Reply(500, JsonBody(ProdBody("error", "Something went wrong!"))),
       [LogEntry("error", UnexpectedLogMessage, None, None)])
  }

  /** The error answered outside development. */
  function Answered(err: ErrorRecord): Option<ErrorRecord> {
    Translated(Rules, Translate, WithDefaults(err))
  }

  /** What the handler does with `err`, by the rule table. */
  function Respond(env: string, err: ErrorRecord): Outcome {
    var e := WithDefaults(err);
    if env == "development" then Outcome(Some(SendErrorDev(e)), [])
    else match Answered(err)
      case None => Outcome(None, [])
      case Some(answered) =>
        var (reply, logs) := SendErrorProd(answered);
        Outcome(Some(reply), logs)
  }

  /** `errorHandler(err, req, res, next)` with `config.env == env`. */
  method ErrorHandler(env: string, err: ErrorRecord, res: Response) returns (logs: seq<LogEntry>)
    modifies res`sent
    ensures var o := Respond(env, err);
      logs == o.logs && res.sent == (if o.reply.Some? then o.reply else old(res.sent))
  {
    var e := err.(statusCode := Some(DefaultStatusCode(err.statusCode)), status := Some(DefaultStatus(err.status)));
    logs := [];
    if env == "development" {
      res.sent := Some(SendErrorDev(e));
      return;
    }
    var error := e;
    if e.name == "CastError" {
      error := Apply(error, HandleCastError(e));
    }
    if e.code == Some(11000) {
      var t := HandleDuplicateKeyError(e);
      if t.None? {
        AnsweredByPriority(err);
        return;
      }
      error := Apply(error, t.value);
    }
    if e.name == "ValidationError" {
      var t := HandleValidationError(e);
      if t.None? {
        AnsweredByPriority(err);
        return;
      }
      error := Apply(error, t.value);
    }
    AnsweredByPriority(err);
    assert Answered(err) == Some(error);
    var (reply, extra) := SendErrorProd(error);
    res.sent := Some(reply);
    logs := extra;
  }

  /** The shape tests read backwards, the first that holds deciding,
      after the two helpers that can throw. */
  function PriorityAnswer(e: ErrorRecord): Option<ErrorRecord> {
    if (e.name == "ValidationError" && e.errors.None?) || (e.code == Some(11000) && HandleDuplicateKeyError(e).None?) then None
    else if e.name == "ValidationError" then Some(Apply(e, HandleValidationError(e).value))
    else if e.code == Some(11000) then Some(Apply(e, HandleDuplicateKeyError(e).value))
    else if e.name == "CastError" then Some(Apply(e, HandleCastError(e)))
    else Some(e)
  }

  /** The duplicate-key helper throws without a quoted value, the
      validation helper without field errors; no other helper throws. */
  lemma HelperThrowsIff(e: ErrorRecord)
    ensures SomeHelperThrows(Rules, Translate, e) <==>
      (e.name == "ValidationError" && e.errors.None?) || (e.code == Some(11000) && HandleDuplicateKeyError(e).None?)
  {
    if e.name == "ValidationError" && e.errors.None? {
      assert Applies(Rules[2], e) && Translate(Rules[2], e).None?;
    }
    if e.code == Some(11000) && HandleDuplicateKeyError(e).None? {
      assert Applies(Rules[1], e) && Translate(Rules[1], e).None?;
    }
  }

  /** The rule table's answer is the backwards reading of the chain. */
  lemma AnsweredByPriority(err: ErrorRecord)
    ensures Answered(err) == PriorityAnswer(WithDefaults(err))
  {
    var e := WithDefaults(err);
    HelperThrowsIff(e);
    if (e.name == "ValidationError" && e.errors.None?) || (e.code == Some(11000) && HandleDuplicateKeyError(e).None?) {
    } else if e.name == "ValidationError" {
      TranslatedAt(Rules, Translate, e, 2);
    } else if e.code == Some(11000) {
      TranslatedAt(Rules, Translate, e, 1);
    } else if e.name == "CastError" {
      TranslatedAt(Rules, Translate, e, 0);
    } else {
      assert LastApplying(Rules, e).None?;
    }
  }

  /** Outside development the handler throws exactly when a duplicate-key
      error has no quoted value in its message or a ValidationError has
      no field errors. */
  lemma ThrowsIff(env: string, err: ErrorRecord)
    requires env != "development"
    ensures Respond(env, err).reply.None? <==>
      (err.code == Some(11000) && (err.errmsg.None? || FirstMatch(err.errmsg.value).None?))
      || (err.name == "ValidationError" && err.errors.None?)
  {
    AnsweredByPriority(err);
  }

  /** In development the handler answers every error with its defaulted
      code, the serialised error and its stack, logs nothing, and sends
      no correlationId field. */
  lemma DevelopmentAnswer(err: ErrorRecord)
    ensures var o := Respond("development", err);
      o.logs == [] && o.reply.Some? && o.reply.value.statusCode == DefaultStatusCode(err.statusCode)
      && BodyField(o.reply.value, "message") == Some(JStr(err.message))
      && BodyField(o.reply.value, "status") == Some(JStr(DefaultStatus(err.status)))
      && BodyField(o.reply.value, "error") == Some(ErrorJson(WithDefaults(err)))
      && BodyField(o.reply.value, "stack") == (if err.stack.Some? then Some(JStr(err.stack.value)) else None)
      && BodyField(o.reply.value, "correlationId").None?
  {
  }

  /** Outside development an operational answer is sent with its own
      defaulted code, status and message only: nothing is logged and no
      correlationId field is sent. */
  lemma OperationalReply(env: string, err: ErrorRecord, a: ErrorRecord)
    requires env != "development" && Answered(err) == Some(a) && a.isOperational
    ensures Respond(env, err) ==
      Outcome(Some(Reply(DefaultStatusCode(a.statusCode), JsonBody(ProdBody(DefaultStatus(a.status), a.message)))), [])
    ensures BodyField(Respond(env, err).reply.value, "correlationId").None?
  {
  }

  /** Only a non-operational answer is logged, and it answers a generic 500. */
  lemma LoggedIffUnexpected(env: string, err: ErrorRecord)
    ensures var o := Respond(env, err);
      (|o.logs| == 1 <==> env != "development" && Answered(err).Some? && !Answered(err).value.isOperational)
      && |o.logs| <= 1
      && (|o.logs| == 1 ==> o.logs[0].message == UnexpectedLogMessage && o.reply == Some(Reply(500, JsonBody(ProdBody("error", "Something went wrong!")))))
  {
  }

  /** A duplicate-key error whose message quotes a value answers 400
      with that value, unless it is also a ValidationError. */
  lemma DuplicateKeyAnswer(env: string, err: ErrorRecord, value: string)
    requires env != "development" && err.code == Some(11000) && err.name != "ValidationError"
    requires err.errmsg.Some? && FirstMatch(err.errmsg.value) == Some(value)
    ensures Respond(env, err).reply ==
      Some(Reply(400, JsonBody(ProdBody(DefaultStatus(err.status), "Duplicate field value: " + value + ". Please use another value."))))
  {
    AnsweredByPriority(err);
  }

  /** Token errors are not recognised: they are answered as themselves. */
  lemma TokenErrorsUntranslated(env: string, err: ErrorRecord)
    requires env != "development" && err.code != Some(11000)
    requires err.name == "JsonWebTokenError" || err.name == "TokenExpiredError"
    ensures Answered(err) == Some(WithDefaults(err))
    ensures !err.isOperational ==> Respond(env, err).reply == Some(Reply(500, JsonBody(ProdBody("error", "Something went wrong!"))))
  {
    AnsweredByPriority(err);
  }
}
