/** The error objects that reach the error normalisers: application
    errors (AppError), driver errors (CastError, duplicate-key errors,
    ValidationError), token errors and arbitrary exceptions, all seen
    through the same record of fields the normalisers inspect. */
module Errors {
  import opened Wrappers
  import opened Json
  import opened Text

  /** The fields of a thrown JavaScript error that the normalisers read.
      A field JavaScript may leave `undefined` is an Option; an absent
      `isOperational` reads as false. */
  datatype ErrorRecord = ErrorRecord(
    name: string,                  // err.name: "Error", "CastError", ...
    message: string,
    stack: Option<string>,
    code: Option<int>,             // driver error code; 11000 = duplicate key
    statusCode: Option<int>,
    status: Option<string>,
    isOperational: bool,
    errmsg: Option<string>,        // driver message of a duplicate-key error
    errors: Option<seq<string>>,   // messages of a ValidationError's field errors, in key order
    path: Option<string>,          // CastError: the path that failed to cast
    value: Option<string>          // CastError: the rejected value, as rendered by a template string
  )

  /** "fail" for a client error, "error" otherwise. */
  function StatusClass(statusCode: int): (s: string)
    ensures s == "fail" <==> 400 <= statusCode < 500
    ensures s == "fail" || s == "error"
  {
    if 400 <= statusCode < 500 then "fail" else "error"
  }

  /** `new AppError(message, statusCode)`: keeps the code, derives the
      status class and marks the error operational. */
  function NewAppError(message: string, statusCode: int): (e: ErrorRecord)
    ensures e.message == message && e.statusCode == Some(statusCode)
    ensures e.isOperational
    ensures 400 <= statusCode < 500 ==> e.status == Some("fail")
    ensures 500 <= statusCode < 600 ==> e.status == Some("error")
    ensures e.code.None?
  {
    ErrorRecord("Error", message, None, None, Some(statusCode), Some(StatusClass(statusCode)),
                true, None, None, None, None)
  }

  /** `err.statusCode || 500`: a missing or zero code becomes 500. */
  function DefaultStatusCode(statusCode: Option<int>): (c: int)
    ensures c != 0
    ensures statusCode.Some? && statusCode.value != 0 ==> c == statusCode.value
    ensures statusCode.None? || statusCode == Some(0) ==> c == 500
  {
    if statusCode.Some? && statusCode.value != 0 then statusCode.value else 500
  }

  /** `err.status || 'error'`: a missing or empty status becomes "error". */
  function DefaultStatus(status: Option<string>): (s: string)
    ensures s != ""
    ensures status.Some? && status.value != "" ==> s == status.value
    ensures status.None? || status == Some("") ==> s == "error"
  {
    if status.Some? && status.value != "" then status.value else "error"
  }

  /** The JSON serialisation of an error object: only its own enumerable
      fields are kept, of which the model tracks the three the
      application sets. */
  function ErrorJson(e: ErrorRecord): Json {
    JObj((if e.statusCode.Some? then map["statusCode" := JNum(e.statusCode.value)] else map[])
       + (if e.status.Some? then map["status" := JStr(e.status.value)] else map[])
       + (if e.isOperational then map["isOperational" := JBool(true)] else map[]))
  }
}
