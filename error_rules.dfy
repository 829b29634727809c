/** What the two error normalisers have in common, stated once: the
    shape tests, the defaulting of `statusCode`/`status`, and the rule
    "outside development, the last applying shape test decides the code
    and the message, but every applying helper runs, and if one of them
    throws, nothing is answered". The normalisers themselves apply their
    tests one `if` after the other; their methods are proved equal to
    `Translated` below. */
module ErrorRules {
  import opened Wrappers
  import opened Errors
  import opened Http
  import opened Logging

  /** The error shapes the normalisers recognise. */
  datatype Rule = CastRule | DuplicateKeyRule | ValidationRule | InvalidTokenRule | ExpiredTokenRule

  /** The shape test of each rule. */
  predicate Applies(r: Rule, e: ErrorRecord) {
    match r
    case CastRule => e.name == "CastError"
    case DuplicateKeyRule => e.code == Some(11000)
    case ValidationRule => e.name == "ValidationError"
    case InvalidTokenRule => e.name == "JsonWebTokenError"
    case ExpiredTokenRule => e.name == "TokenExpiredError"
  }

  /** What a `handle*` helper gives back: the new code and message. */
  datatype Translation = Translation(statusCode: int, message: string)

  /** What a normaliser did: the reply it wrote (None when it threw
      before writing) and the log entries it emitted, in order. */
  datatype Outcome = Outcome(reply: Option<Reply>, logs: seq<LogEntry>)

  /** `err.statusCode = err.statusCode || 500; err.status = err.status || 'error'` */
  function WithDefaults(err: ErrorRecord): (e: ErrorRecord)
    ensures e.statusCode == Some(DefaultStatusCode(err.statusCode))
    ensures e.status == Some(DefaultStatus(err.status))
    ensures e == err.(statusCode := e.statusCode, status := e.status)
  {
    err.(statusCode := Some(DefaultStatusCode(err.statusCode)), status := Some(DefaultStatus(err.status)))
  }

  /** The three assignments each applying `if` makes to the copied error. */
  function Apply(e: ErrorRecord, t: Translation): (r: ErrorRecord)
    ensures r.statusCode == Some(t.statusCode) && r.message == t.message && r.isOperational
    ensures r.status == e.status && r.name == e.name && r.code == e.code && r.stack == e.stack
  {
    e.(statusCode := Some(t.statusCode), message := t.message, isOperational := true)
  }

  /** The last rule of the list whose shape test holds. */
  function LastApplying(rules: seq<Rule>, e: ErrorRecord): (r: Option<Rule>)
    ensures r.None? <==> forall i :: 0 <= i < |rules| ==> !Applies(rules[i], e)
    ensures r.Some? ==> exists i :: 0 <= i < |rules| && rules[i] == r.value && Applies(r.value, e)
                                     && forall j :: i < j < |rules| ==> !Applies(rules[j], e)
  {
    if |rules| == 0 then None
    else
      var later := LastApplying(rules[1..], e);
      if later.Some? then
        ghost var i :| 0 <= i < |rules| - 1 && rules[1..][i] == later.value && Applies(later.value, e)
                       && forall j :: i < j < |rules| - 1 ==> !Applies(rules[1..][j], e);
        assert rules[i + 1] == later.value;
        later
      else if Applies(rules[0], e) then Some(rules[0])
      else None
  }

  /** The rule at `i` applies and none after it does: it is the last. */
  lemma LastApplyingAt(rules: seq<Rule>, e: ErrorRecord, i: int)
    requires 0 <= i < |rules| && Applies(rules[i], e)
    requires forall j :: i < j < |rules| ==> !Applies(rules[j], e)
    ensures LastApplying(rules, e) == Some(rules[i])
  {
    var r := LastApplying(rules, e);
    var k :| 0 <= k < |rules| && rules[k] == r.value && Applies(r.value, e)
             && forall j :: k < j < |rules| ==> !Applies(rules[j], e);
    assert k == i;
  }

  /** Some applying rule's helper throws. */
  predicate SomeHelperThrows(rules: seq<Rule>, translate: (Rule, ErrorRecord) -> Option<Translation>, e: ErrorRecord) {
    exists i :: 0 <= i < |rules| && Applies(rules[i], e) && translate(rules[i], e).None?
  }

  /** The error answered outside development: None when an applying
      helper throws; the error itself when no rule applies; otherwise the
      error with the last applying rule's code and message, marked
      operational. Its `status` is never recomputed. */
  function Translated(rules: seq<Rule>, translate: (Rule, ErrorRecord) -> Option<Translation>, e: ErrorRecord): (r: Option<ErrorRecord>)
    ensures r.None? <==> SomeHelperThrows(rules, translate, e)
    ensures r.Some? ==> r.value.status == e.status && r.value.name == e.name && r.value.stack == e.stack
    ensures r.Some? && LastApplying(rules, e).None? ==> r.value == e
    ensures r.Some? && LastApplying(rules, e).Some? ==>
      translate(LastApplying(rules, e).value, e).Some? &&
      r.value == Apply(e, translate(LastApplying(rules, e).value, e).value)
  {
    if SomeHelperThrows(rules, translate, e) then None
    else match LastApplying(rules, e)
      case None => Some(e)
      case Some(rule) =>
        assert translate(rule, e).Some?;
        Some(Apply(e, translate(rule, e).value))
  }

  /** When no applying helper throws, the rule at `i`, the last whose test
      holds, decides the answered error. */
  lemma TranslatedAt(rules: seq<Rule>, translate: (Rule, ErrorRecord) -> Option<Translation>, e: ErrorRecord, i: int)
    requires 0 <= i < |rules| && Applies(rules[i], e)
    requires forall j :: i < j < |rules| ==> !Applies(rules[j], e)
    requires !SomeHelperThrows(rules, translate, e)
    ensures translate(rules[i], e).Some?
    ensures Translated(rules, translate, e) == Some(Apply(e, translate(rules[i], e).value))
  {
    LastApplyingAt(rules, e, i);
  }
}
