/** src/utils/apiResponse.js: the success envelopes. Each builder takes
    its optional arguments as Options (None is JavaScript's `undefined`,
    which selects the default) and returns the reply it writes. */
module ApiResponse {
  import opened Wrappers
  import opened Json
  import opened Http

  /** `success(res, statusCode = 200, message = 'Success', data = null)` */
  function Success(statusCode: Option<int>, message: Option<string>, data: Option<Json>): (r: Reply)
    ensures r.statusCode == statusCode.GetOr(200)
    ensures r.body.JsonBody? && r.body.json.JObj?
    ensures BodyField(r, "status") == Some(JStr("success"))
    ensures BodyField(r, "message") == Some(JStr(message.GetOr("Success")))
    ensures BodyField(r, "data").Some? <==> data.Some? && data.value != JNull
    ensures BodyField(r, "data").Some? ==> BodyField(r, "data") == data
    ensures r.body.json.fields.Keys <= {"status", "message", "data"}
  {
    var code := statusCode.GetOr(200);
    var envelope := map["status" := JStr("success"), "message" := JStr(message.GetOr("Success"))];
    var d := data.GetOr(JNull);
    Reply(code, JsonBody(JObj(if d != JNull then envelope["data" := d] else envelope)))
  }

  /** `successWithPagination(res, statusCode = 200, message = 'Success', data = [], pagination = {})` */
  function SuccessWithPagination(statusCode: Option<int>, message: Option<string>, data: Option<seq<Json>>,
                                 pagination: Option<Json>): (r: Reply)
    ensures r.statusCode == statusCode.GetOr(200)
    ensures BodyField(r, "status") == Some(JStr("success"))
    ensures BodyField(r, "message") == Some(JStr(message.GetOr("Success")))
    ensures BodyField(r, "results") == Some(JNum(|data.GetOr([])|))
    ensures BodyField(r, "data") == Some(JArr(data.GetOr([])))
    ensures BodyField(r, "pagination") == Some(pagination.GetOr(JObj(map[])))
  {
    var items := data.GetOr([]);
    Reply(statusCode.GetOr(200), JsonBody(JObj(map[
      "status" := JStr("success"),
      "message" := JStr(message.GetOr("Success")),
      "results" := JNum(|items|),
      "pagination" := pagination.GetOr(JObj(map[])),
      "data" := JArr(items)])))
  }

  /** `created(res, message = 'Resource created successfully', data = null)` */
  function Created(message: Option<string>, data: Option<Json>): Reply {
    Success(Some(201), Some(message.GetOr("Resource created successfully")), data)
  }

  /** `noContent(res)`: 204 and `send()` with no body. */
  function NoContent(): (r: Reply)
    ensures r.statusCode == 204 && r.body == EmptyBody
  {
    Reply(204, EmptyBody)
  }

  /** The defaults: `success(res)` answers 200 `{ status: 'success', message: 'Success' }`. */
  lemma SuccessDefaults()
    ensures Success(None, None, None) ==
      Reply(200, JsonBody(JObj(map["status" := JStr("success"), "message" := JStr("Success")])))
  {
  }

  /** `created` is `success` with code 201 and its own default message. */
  lemma CreatedIsSuccess201(message: Option<string>, data: Option<Json>)
    ensures Created(message, data).statusCode == 201
    ensures BodyField(Created(message, data), "message") == Some(JStr(message.GetOr("Resource created successfully")))
    ensures BodyField(Created(message, data), "data").Some? <==> data.Some? && data.value != JNull
    ensures BodyField(Created(message, data), "status") == Some(JStr("success"))
  {
  }

  /** No success envelope of any builder is an error envelope: its
      status is always 'success'. */
  lemma EnvelopesAreSuccesses(statusCode: Option<int>, message: Option<string>, data: Option<Json>, items: Option<seq<Json>>,
                              pagination: Option<Json>)
    ensures BodyField(Success(statusCode, message, data), "status") == Some(JStr("success"))
    ensures BodyField(SuccessWithPagination(statusCode, message, items, pagination), "status") == Some(JStr("success"))
    ensures BodyField(NoContent(), "status").None?
  {
  }
}
