/** src/services/userService.js: the user operations over the User
    collection. The service never writes a response: it returns the
    records or the error it throws. */
module UserService {
  import opened Wrappers
  import opened Errors
  import opened UserValidation
  import opened UserStore

  /** The error every operation on a missing id throws. */
  function NoUserError(): (e: ErrorRecord)
    ensures e.statusCode == Some(404) && e.status == Some("fail") && e.isOperational
    ensures e.message == "No user found with that ID"
  {
    NewAppError("No user found with that ID", 404)
  }

  class UserService {
    const model: UserModel

    constructor (model: UserModel)
      ensures this.model == model
    {
      this.model := model;
    }

    /** `getAllUsers()`: exactly the active records. */
    method GetAllUsers() returns (users: seq<User>)
      requires model.Valid()
      ensures forall u :: u in users <==> u.id in model.docs && model.docs[u.id] == u && u.active
      ensures |users| == |ActiveIds(model.docs)|
    {
      users := model.Find();
    }

    /** `getUserById(id)`: the record whatever its `active` flag, 404 when
        no record has the id, the cast error of a malformed id. */
    method GetUserById(id: Id) returns (r: Result<User, ErrorRecord>)
      ensures !IsObjectId(id) ==> r == Failure(CastErrorFor(id))
      ensures IsObjectId(id) && CanonicalId(id) !in model.docs ==> r == Failure(NoUserError())
      ensures IsObjectId(id) && CanonicalId(id) in model.docs ==> r == Success(model.docs[CanonicalId(id)])
    {
      var found := model.FindById(id);
      if found.Failure? {
        return Failure(found.error);
      }
      if found.value.None? {
        return Failure(NoUserError());
      }
      return Success(found.value.value);
    }

    /** `createUser(data)`: one record more, the others unchanged. */
    method CreateUser(data: UserData, newId: Id) returns (r: Result<User, ErrorRecord>)
      requires model.Valid() && newId !in model.docs && IsObjectId(newId) && CanonicalId(newId) == newId
      modifies model
      ensures model.Valid()
      ensures r == CreateResult(old(model.docs), model.collection, model.fieldErrors, data, newId)
      ensures r.Success? ==> model.docs == old(model.docs)[newId := r.value]
      ensures r.Failure? ==> model.docs == old(model.docs)
    {
      r := model.Create(data, newId);
    }

    /** `updateUser(id, data)`: merges the supplied fields with the
        validators on and returns the record after the update; 404 when no
        record has the id. */
    method UpdateUser(id: Id, patch: UserData) returns (r: Result<User, ErrorRecord>)
      requires model.Valid()
      modifies model`docs
      ensures model.Valid()
      ensures var u := UpdateResult(old(model.docs), model.collection, model.fieldErrors, id, patch, true, true);
        r == (if u.Failure? then Failure(u.error) else if u.value.None? then Failure(NoUserError()) else Success(u.value.value))
      ensures r.Success? ==> var key := CanonicalId(id);
        r.value == Merge(old(model.docs)[key], patch) && model.docs == old(model.docs)[key := r.value]
      ensures r.Failure? ==> model.docs == old(model.docs)
    {
      var updated := model.FindByIdAndUpdate(id, patch, true, true);
      if updated.Failure? {
        return Failure(updated.error);
      }
      if updated.value.None? {
        return Failure(NoUserError());
      }
      return Success(updated.value.value);
    }

    /** `deleteUser(id)`: sets `active` to false and keeps the record;
        it fails only for a malformed id or one no record has, so
        deleting an inactive user succeeds again. The result is the
        error thrown, if any. */
    method DeleteUser(id: Id) returns (thrown: Option<ErrorRecord>)
      requires model.Valid()
      modifies model`docs
      ensures model.Valid()
      ensures !IsObjectId(id) ==> thrown == Some(CastErrorFor(id)) && model.docs == old(model.docs)
      ensures IsObjectId(id) && CanonicalId(id) !in old(model.docs) ==> thrown == Some(NoUserError()) && model.docs == old(model.docs)
      ensures IsObjectId(id) && CanonicalId(id) in old(model.docs) ==> var key := CanonicalId(id);
        thrown.None? && model.docs == old(model.docs)[key := old(model.docs)[key].(active := false)]
    {
      var key := CanonicalId(id);
      if IsObjectId(id) && key in model.docs {
        assert !EmailTaken(model.docs, Merge(model.docs[key], Deactivate).email, key);
      }
      var updated := model.FindByIdAndUpdate(id, Deactivate, false, false);
      if updated.Failure? {
        return Some(updated.error);
      }
      if updated.value.None? {
        return Some(NoUserError());
      }
      return None;
    }
  }
}
