/** src/controllers/userController.js: the route handlers, which use the
    User collection directly, write the reply, and pass every thrown
    error to `next` without writing anything. */
module UserController {
  import opened Wrappers
  import opened Json
  import opened Errors
  import opened Http
  import opened UserValidation
  import opened UserStore
  import opened UserService
  import opened QuotedValue
  import ErrorRules
  import ErrorHandler

  /** `{ status: 'success', results, data: { users } }` */
  function UsersReply(users: seq<User>): (r: Reply)
    ensures r.statusCode == 200
    ensures BodyField(r, "results") == Some(JNum(|users|))
    ensures BodyField(r, "status") == Some(JStr("success"))
  {
    Reply(200, JsonBody(JObj(map[
      "status" := JStr("success"),
      "results" := JNum(|users|),
      "data" := JObj(map["users" := JArr(seq(|users|, i requires 0 <= i < |users| => UserJson(users[i])))])])))
  }

  /** `{ status: 'success', data: { user } }` with the given code. */
  function UserReply(statusCode: int, u: User): Reply {
    Reply(statusCode, JsonBody(JObj(map["status" := JStr("success"), "data" := JObj(map["user" := UserJson(u)])])))
  }

  /** `res.status(204).json({ status: 'success', data: null })`; HTTP
      drops the body of a 204 on the wire. */
  function DeletedReply(): Reply {
    Reply(204, JsonBody(JObj(map["status" := JStr("success"), "data" := JNull])))
  }

  /** `req.params.id`, a string on every `/:id` route. */
  predicate HasRouteId(req: Request)
    reads req
  {
    Field(req.params, "id").Some? && Field(req.params, "id").value.JStr?
  }

  function RouteId(req: Request): Id
    reads req
    requires HasRouteId(req)
  {
    Field(req.params, "id").value.s
  }

  /** `getAllUsers`: 200 with the active users and their count. */
  method GetAllUsers(model: UserModel, res: Response) returns (next: NextCall)
    requires model.Valid()
    modifies res`sent
    ensures next == NoNext
    ensures res.sent == Some(UsersReply(model.Find()))
    ensures res.sent.value.body.json.fields["results"] == JNum(|ActiveIds(model.docs)|)
  {
    var users := model.Find();
    res.sent := Some(UsersReply(users));
    next := NoNext;
  }

  /** `getUser`: 200 with the record whatever its `active` flag; 404 via
      `next`, with no reply, when no record has the id. */
  method GetUser(model: UserModel, req: Request, res: Response) returns (next: NextCall)
    requires HasRouteId(req)
    modifies res`sent
    ensures var id := RouteId(req);
      match model.FindById(id)
      case Failure(e) => next == NextWithError(e) && res.sent == old(res.sent)
      case Success(None) => next == NextWithError(NoUserError()) && res.sent == old(res.sent)
      case Success(Some(u)) => next == NoNext && res.sent == Some(UserReply(200, u))
  {
    var found := model.FindById(RouteId(req));
    if found.Failure? {
      return NextWithError(found.error);
    }
    if found.value.None? {
      return NextWithError(NoUserError());
    }
    res.sent := Some(UserReply(200, found.value.value));
    next := NoNext;
  }

  /** `createUser`: 201 with the new record, or the thrown error via `next`. */
  method CreateUser(model: UserModel, req: Request, res: Response, newId: Id) returns (next: NextCall)
    requires model.Valid() && newId !in model.docs && IsObjectId(newId) && CanonicalId(newId) == newId
    modifies model, res`sent
    ensures model.Valid()
    ensures var r := CreateResult(old(model.docs), model.collection, model.fieldErrors, DataOf(req.body), newId);
      match r
      case Failure(e) => next == NextWithError(e) && res.sent == old(res.sent) && model.docs == old(model.docs)
      case Success(u) => next == NoNext && res.sent == Some(UserReply(201, u)) && model.docs == old(model.docs)[newId := u]
  {
    var r := model.Create(DataOf(req.body), newId);
    if r.Failure? {
      return NextWithError(r.error);
    }
    res.sent := Some(UserReply(201, r.value));
    next := NoNext;
  }

  /** `updateUser`: 200 with the record after the update; 404 via `next`
      when no record has the id; any thrown error via `next`. */
  method UpdateUser(model: UserModel, req: Request, res: Response) returns (next: NextCall)
    requires model.Valid() && HasRouteId(req)
    modifies model`docs, res`sent
    ensures model.Valid()
    ensures var id := RouteId(req);
      match UpdateResult(old(model.docs), model.collection, model.fieldErrors, id, DataOf(req.body), true, true)
      case Failure(e) => next == NextWithError(e) && res.sent == old(res.sent) && model.docs == old(model.docs)
      case Success(None) => next == NextWithError(NoUserError()) && res.sent == old(res.sent) && model.docs == old(model.docs)
      case Success(Some(u)) =>
        next == NoNext && res.sent == Some(UserReply(200, u)) && u == Merge(old(model.docs)[CanonicalId(id)], DataOf(req.body))
        && model.docs == old(model.docs)[CanonicalId(id) := u]
  {
    var updated := model.FindByIdAndUpdate(RouteId(req), DataOf(req.body), true, true);
    if updated.Failure? {
      return NextWithError(updated.error);
    }
    if updated.value.None? {
      return NextWithError(NoUserError());
    }
    res.sent := Some(UserReply(200, updated.value.value));
    next := NoNext;
  }

  /** `deleteUser`: a soft delete answered 204; 404 via `next` only when
      no record has the id. */
  method DeleteUser(model: UserModel, req: Request, res: Response) returns (next: NextCall)
    requires model.Valid() && HasRouteId(req)
    modifies model`docs, res`sent
    ensures model.Valid()
    ensures var id := RouteId(req);
      if !IsObjectId(id) then next == NextWithError(CastErrorFor(id)) && res.sent == old(res.sent) && model.docs == old(model.docs)
      else if CanonicalId(id) !in old(model.docs) then next == NextWithError(NoUserError()) && res.sent == old(res.sent) && model.docs == old(model.docs)
      else var key := CanonicalId(id);
        next == NoNext && res.sent == Some(DeletedReply()) && model.docs == old(model.docs)[key := old(model.docs)[key].(active := false)]
  {
    var id := RouteId(req);
    var key := CanonicalId(id);
    if IsObjectId(id) && key in model.docs {
      assert !EmailTaken(model.docs, Merge(model.docs[key], Deactivate).email, key);
    }
    var updated := model.FindByIdAndUpdate(id, Deactivate, false, false);
    if updated.Failure? {
      return NextWithError(updated.error);
    }
    if updated.value.None? {
      return NextWithError(NoUserError());
    }
    res.sent := Some(DeletedReply());
    next := NoNext;
  }

  /** A create whose email another record holds reaches the error
      handler as a duplicate key and is answered 400 with the email. */
  lemma DuplicateEmailAnswer(env: string, collection: string, email: string)
    requires env != "development"
    requires NoQuote(collection)
    requires forall k :: 0 <= k < |email| ==> email[k] != '"' && email[k] != '\\' && !IsLineTerminator(email[k])
    ensures ErrorHandler.Respond(env, DuplicateKeyError(collection, email)).reply ==
      Some(Reply(400, JsonBody(ErrorHandler.ProdBody("error",
        "Duplicate field value: " + ("\"" + email + "\"") + ". Please use another value."))))
  {
    DuplicateKeyMessageQuotesEmail(collection, email);
    DuplicateKeyAnswerOf(env, DuplicateKeyError(collection, email), "\"" + email + "\"");
  }

  lemma DuplicateKeyAnswerOf(env: string, err: ErrorRecord, quoted: string)
    requires env != "development" && err.name == "MongoServerError" && err.status.None?
    requires err.code == Some(11000) && err.errmsg.Some? && FirstMatch(err.errmsg.value) == Some(quoted)
    ensures ErrorHandler.Respond(env, err).reply ==
      Some(Reply(400, JsonBody(ErrorHandler.ProdBody("error", "Duplicate field value: " + quoted + ". Please use another value."))))
  {
    ErrorHandler.DuplicateKeyAnswer(env, err, quoted);
  }

  /** A malformed id that reaches the collection is answered 400
      "Invalid _id: <id>", with the status 'error' of the original error. */
  lemma MalformedIdAnswer(env: string, id: Id)
    requires env != "development"
    ensures ErrorHandler.Respond(env, CastErrorFor(id)).reply ==
      Some(Reply(400, JsonBody(ErrorHandler.ProdBody("error", "Invalid _id: " + id))))
  {
    var e := ErrorRules.WithDefaults(CastErrorFor(id));
    assert e.code.None? && e.status == Some("error");
    assert ErrorHandler.HandleCastError(e).message == "Invalid _id: " + id;
    ErrorRules.LastApplyingAt(ErrorHandler.Rules, e, 0);
    assert !ErrorRules.SomeHelperThrows(ErrorHandler.Rules, ErrorHandler.Translate, e);
  }
}
