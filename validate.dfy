/** src/middlewares/validate.js: parses the body, then the query, then
    the route parameters with the schema's parser for each, replacing
    each section by its parsed value, and stops at the first parser that
    throws. */
module Validate {
  import opened Wrappers
  import opened Json
  import opened Text
  import opened Errors
  import opened Http

  /** What a parser throws: its issue list (`error.errors`, absent on a
      non-schema exception) as messages, and its own `message`. */
  datatype ParseFailure = ParseFailure(issues: Option<seq<string>>, message: string)

  /** A parser either returns the parsed value or throws. */
  datatype ParseOutcome = Parsed(value: Json) | Rejected(failure: ParseFailure)

  /** The `parse` of one section schema. */
  type Section = Json -> ParseOutcome

  /** `{ body, query, params }`, each schema optional. */
  datatype Schema = Schema(body: Option<Section>, query: Option<Section>, params: Option<Section>)

  /** The three request sections the middleware rewrites. */
  datatype Sections = Sections(body: Json, query: Json, params: Json)

  /** `error.errors?.map((e) => e.message).join(', ') || error.message` */
  function FailureText(f: ParseFailure): (t: string)
    ensures f.issues.Some? && Join(f.issues.value, ", ") != "" ==> t == Join(f.issues.value, ", ")
    ensures f.issues.None? || Join(f.issues.value, ", ") == "" ==> t == f.message
  {
    if f.issues.Some? && Join(f.issues.value, ", ") != "" then Join(f.issues.value, ", ") else f.message
  }

  /** `new AppError(`Validation error: ${errorMessages}`, 400)` */
  function ValidationFailure(f: ParseFailure): (e: ErrorRecord)
    ensures e.statusCode == Some(400) && e.status == Some("fail") && e.isOperational
    ensures e.message == "Validation error: " + FailureText(f)
  {
    NewAppError("Validation error: " + FailureText(f), 400)
  }

  /** One section: unchanged when it has no schema, else parsed. */
  function Step(section: Option<Section>, v: Json): ParseOutcome {
    if section.None? then Parsed(v) else section.value(v)
  }

  /** The sections after the middleware ran and how it called `next`. */
  function Run(schema: Schema, s: Sections): (Sections, NextCall) {
    match Step(schema.body, s.body)
    case Rejected(f) => (s, NextWithError(ValidationFailure(f)))
    case Parsed(body) =>
      match Step(schema.query, s.query)
      case Rejected(f) => (s.(body := body), NextWithError(ValidationFailure(f)))
      case Parsed(query) =>
        match Step(schema.params, s.params)
        case Rejected(f) => (s.(body := body, query := query), NextWithError(ValidationFailure(f)))
        case Parsed(params) => (Sections(body, query, params), Next)
  }

  /** `validate(schema)(req, res, next)`; the returned value is the one
      call it makes to `next`. */
  method Validate(schema: Schema, req: Request) returns (next: NextCall)
    modifies req`body, req`query, req`params
    ensures var (after, n) := Run(schema, Sections(old(req.body), old(req.query), old(req.params)));
      next == n && req.body == after.body && req.query == after.query && req.params == after.params
  {
    if schema.body.Some? {
      var o := schema.body.value(req.body);
      if o.Rejected? {
        return NextWithError(ValidationFailure(o.failure));
      }
      req.body := o.value;
    }
    if schema.query.Some? {
      var o := schema.query.value(req.query);
      if o.Rejected? {
        return NextWithError(ValidationFailure(o.failure));
      }
      req.query := o.value;
    }
    if schema.params.Some? {
      var o := schema.params.value(req.params);
      if o.Rejected? {
        return NextWithError(ValidationFailure(o.failure));
      }
      req.params := o.value;
    }
    return Next;
  }

  /** Every present section parses: each is replaced by its parsed value,
      absent ones are left alone, and `next()` is called. */
  lemma AllParsed(schema: Schema, s: Sections)
    ensures Run(schema, s).1 == Next <==>
      Step(schema.body, s.body).Parsed? && Step(schema.query, s.query).Parsed? && Step(schema.params, s.params).Parsed?
    ensures Run(schema, s).1 == Next ==>
      Run(schema, s).0 == Sections(Step(schema.body, s.body).value, Step(schema.query, s.query).value, Step(schema.params, s.params).value)
    ensures Run(schema, s).1 != NoNext
  {
  }

  /** The first section whose parser throws, in the order body, query,
      params; 3 when none does. */
  function FirstRejected(schema: Schema, s: Sections): (k: nat)
    ensures k <= 3
  {
    if Step(schema.body, s.body).Rejected? then 0
    else if Step(schema.query, s.query).Rejected? then 1
    else if Step(schema.params, s.params).Rejected? then 2
    else 3
  }

  /** Failure short-circuits: the sections before the failing one are
      already replaced, the failing one and those after it keep their old
      values, and `next` gets a 400 "Validation error: ..." error. */
  lemma FirstFailureStops(schema: Schema, s: Sections)
    requires FirstRejected(schema, s) < 3
    ensures var (after, n) := Run(schema, s);
      var k := FirstRejected(schema, s);
      n.NextWithError? && n.error.statusCode == Some(400) && n.error.status == Some("fail")
      && (after.body == if k > 0 then Step(schema.body, s.body).value else s.body)
      && (after.query == if k > 1 then Step(schema.query, s.query).value else s.query)
      && after.params == s.params
  {
  }

  /** The rejection message names the failure of the first failing
      section: every issue message, or the thrown message when there is
      no issue text. */
  lemma FailureMessage(schema: Schema, s: Sections)
    requires FirstRejected(schema, s) < 3
    ensures var k := FirstRejected(schema, s);
      var f := if k == 0 then Step(schema.body, s.body).failure
               else if k == 1 then Step(schema.query, s.query).failure
               else Step(schema.params, s.params).failure;
      Run(schema, s).1 == NextWithError(ValidationFailure(f))
  {
  }

  /** A section without a schema is never changed. */
  lemma AbsentSectionUntouched(schema: Schema, s: Sections)
    ensures schema.body.None? ==> Run(schema, s).0.body == s.body
    ensures schema.query.None? ==> Run(schema, s).0.query == s.query
    ensures schema.params.None? ==> Run(schema, s).0.params == s.params
  {
  }

  /** With an empty schema the request is untouched and `next()` is called. */
  lemma EmptySchema(s: Sections)
    ensures Run(Schema(None, None, None), s) == (s, Next)
  {
  }

  /** Each issue message of a failure appears in the error's message. */
  lemma FailureNamesEachIssue(f: ParseFailure, i: int)
    requires f.issues.Some? && 0 <= i < |f.issues.value|
    ensures Contains(ValidationFailure(f).message, f.issues.value[i])
  {
    var issues := f.issues.value;
    if Join(issues, ", ") == "" {
      JoinEmptyIff(issues, ", ");
      assert OccursAt(ValidationFailure(f).message, issues[i], 0);
    } else {
      PrefixedJoinContainsEach("Validation error: ", issues, ", ", i);
    }
  }
}
