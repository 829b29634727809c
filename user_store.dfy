/** The User collection the service and controller read and write,
    reduced to what they rely on: documents by id in insertion order,
    the defaults `role: 'user'` and `active: true`, the required `name`
    and `email`, the unique email index, id casting, and the schema's
    other validators as the parameter `fieldErrors` (the model file of
    the User schema is not part of this model). */
module UserStore {
  import opened Wrappers
  import opened Json
  import opened Text
  import opened Errors
  import opened QuotedValue
  import opened UserValidation

  type Id = string

  /** A hex digit as the ObjectId cast reads it: 'A'..'F' stand for 'a'..'f'. */
  function LowerHex(c: char): (d: char)
    ensures 'A' <= c <= 'F' ==> d as int == c as int + 32
    ensures !('A' <= c <= 'F') ==> d == c
  {
    if 'A' <= c <= 'F' then (c as int + 32) as char else c
  }

  /** The id an id string casts to, in the lower-case form the driver
      stores and serialises: the cast reads hex digits in either case. */
  function CanonicalId(id: Id): (c: Id)
    ensures |c| == |id| && forall i :: 0 <= i < |id| ==> c[i] == LowerHex(id[i])
  {
    seq(|id|, i requires 0 <= i < |id| => LowerHex(id[i]))
  }

  /** Casting reads the canonical form alike: it is a fixed point, and
      an id passes the ObjectId check exactly when its canonical form does. */
  lemma CanonicalIdKeepsObjectId(id: Id)
    ensures CanonicalId(CanonicalId(id)) == CanonicalId(id)
    ensures IsObjectId(CanonicalId(id)) <==> IsObjectId(id)
  {
    var c := CanonicalId(id);
    forall i | 0 <= i < |id| ensures IsHexDigit(c[i]) <==> IsHexDigit(id[i]) {
      assert c[i] == LowerHex(id[i]);
    }
  }

  /** The ids the driver generates, the lower-case hex of 12 bytes, are
      already canonical. */
  lemma HexIdIsCanonical(bytes: seq<bv8>)
    ensures CanonicalId(Hex(bytes)) == Hex(bytes)
  {
  }

  /** A stored user document. */
  datatype User = User(id: Id, name: string, email: string, role: string, active: bool)

  /** The fields a create or an update supplies; None where absent. */
  datatype UserData = UserData(name: Option<string>, email: Option<string>, role: Option<string>, active: Option<bool>)

  /** The update the soft delete sends: `{ active: false }`. */
  const Deactivate := UserData(None, None, None, Some(false))

  /** The fields of a parsed request body the schema knows. */
  function DataOf(body: Json): UserData {
    UserData(
      if Field(body, "name").Some? && Field(body, "name").value.JStr? then Some(Field(body, "name").value.s) else None,
      if Field(body, "email").Some? && Field(body, "email").value.JStr? then Some(Field(body, "email").value.s) else None,
      if Field(body, "role").Some? && Field(body, "role").value.JStr? then Some(Field(body, "role").value.s) else None,
      if Field(body, "active").Some? && Field(body, "active").value.JBool? then Some(Field(body, "active").value.b) else None)
  }

  /** A document as serialised in a reply. */
  function UserJson(u: User): Json {
    JObj(map["_id" := JStr(u.id), "name" := JStr(u.name), "email" := JStr(u.email),
             "role" := JStr(u.role), "active" := JBool(u.active)])
  }

  /** The supplied fields overwrite, the others are kept. */
  function Merge(u: User, patch: UserData): User {
    User(u.id, patch.name.GetOr(u.name), patch.email.GetOr(u.email), patch.role.GetOr(u.role), patch.active.GetOr(u.active))
  }

  /** The ids of the documents whose `active` is true. */
  function ActiveIds(docs: map<Id, User>): set<Id> {
    set id | id in docs && docs[id].active
  }

  /** The active documents, in the order of `order`. */
  function ActiveInOrder(order: seq<Id>, docs: map<Id, User>): (users: seq<User>)
    requires forall i :: 0 <= i < |order| ==> order[i] in docs
    ensures forall u :: u in users ==> u.active && exists i :: 0 <= i < |order| && docs[order[i]] == u
  {
    if |order| == 0 then []
    else
      var rest := ActiveInOrder(order[1..], docs);
      assert forall u :: u in rest ==> exists i :: 0 <= i < |order| && docs[order[i]] == u by {
        forall u | u in rest ensures exists i :: 0 <= i < |order| && docs[order[i]] == u {
          var i :| 0 <= i < |order[1..]| && docs[order[1..][i]] == u;
          assert docs[order[i + 1]] == u;
        }
      }
      if docs[order[0]].active then [docs[order[0]]] + rest else rest
  }

  /** Some document other than `except` already holds `email`. */
  predicate EmailTaken(docs: map<Id, User>, email: string, except: Id) {
    exists id :: id in docs && id != except && docs[id].email == email
  }

  /** What a lookup throws when `id` is not an ObjectId. */
  function CastErrorFor(id: Id): (e: ErrorRecord)
    ensures e.name == "CastError" && e.path == Some("_id") && e.value == Some(id)
  {
    ErrorRecord("CastError", "Cast to ObjectId failed for value \"" + id + "\" (type string) at path \"_id\" for model \"User\"",
                None, None, None, None, false, None, None, Some("_id"), Some(id))
  }

  /** The driver's message for a write that breaks the unique email index. */
  function DuplicateKeyMessage(collection: string, email: string): string {
    "E11000 duplicate key error collection: " + collection + " index: email_1 dup key: { email: \"" + email + "\" }"
  }

  /** What a write that breaks the unique email index throws. */
  function DuplicateKeyError(collection: string, email: string): (e: ErrorRecord)
    ensures e.code == Some(11000) && e.errmsg == Some(DuplicateKeyMessage(collection, email))
  {
    var m := DuplicateKeyMessage(collection, email);
    ErrorRecord("MongoServerError", m, None, Some(11000), None, None, false, Some(m), None, None, None)
  }

  /** What a write refused by the schema validators throws. */
  function ValidationErrorOf(messages: seq<string>): (e: ErrorRecord)
    ensures e.name == "ValidationError" && e.errors == Some(messages)
  {
    ErrorRecord("ValidationError", "User validation failed: " + Join(messages, ", "), None, None, None, None, false,
                None, Some(messages), None, None)
  }

  /** The `required` messages of the missing fields, in schema order. */
  function MissingRequired(data: UserData): (messages: seq<string>)
    ensures messages == [] <==> data.name.Some? && data.email.Some?
  {
    (if data.name.None? then ["Path `name` is required."] else [])
    + (if data.email.None? then ["Path `email` is required."] else [])
  }

  /** `User.create(data)` with `newId` for the document id. */
  function CreateResult(docs: map<Id, User>, collection: string, fieldErrors: User -> seq<string>,
                        data: UserData, newId: Id): Result<User, ErrorRecord>
  {
    if MissingRequired(data) != [] then Failure(ValidationErrorOf(MissingRequired(data)))
    else
      var u := User(newId, data.name.value, data.email.value, data.role.GetOr("user"), data.active.GetOr(true));
      if fieldErrors(u) != [] then Failure(ValidationErrorOf(fieldErrors(u)))
      else if EmailTaken(docs, u.email, newId) then Failure(DuplicateKeyError(collection, u.email))
      else Success(u)
  }

  /** `User.findByIdAndUpdate(id, patch, { new: returnNew, runValidators })`:
      None when no document has the id, in any case of its hex digits;
      otherwise the document before or after the update. */
  function UpdateResult(docs: map<Id, User>, collection: string, fieldErrors: User -> seq<string>,
                        id: Id, patch: UserData, returnNew: bool, runValidators: bool): Result<Option<User>, ErrorRecord>
  {
    if !IsObjectId(id) then Failure(CastErrorFor(id))
    else
      var key := CanonicalId(id);
      if key !in docs then Success(None)
      else
        var merged := Merge(docs[key], patch);
        if runValidators && fieldErrors(merged) != [] then Failure(ValidationErrorOf(fieldErrors(merged)))
        else if EmailTaken(docs, merged.email, key) then Failure(DuplicateKeyError(collection, merged.email))
        else Success(Some(if returnNew then merged else docs[key]))
  }

  /** The collection: documents by id and their insertion order, which is
      the order a query returns them in. */
  class UserModel {
    var docs: map<Id, User>
    var order: seq<Id>
    /** The collection's namespace, as the driver names it in messages. */
    const collection: string
    /** The messages of the schema validators other than `required`. */
    const fieldErrors: User -> seq<string>

    /** Every document sits under its own ObjectId, written in lower case,
        the order lists each id once, and no two documents share an email. */
    ghost predicate Valid()
      reads this
    {
      (forall id :: id in docs ==> docs[id].id == id && IsObjectId(id) && CanonicalId(id) == id)
      && (forall i, j :: 0 <= i < j < |order| ==> order[i] != order[j])
      && (forall id :: id in docs <==> id in order)
      && (forall a, b :: a in docs && b in docs && a != b ==> docs[a].email != docs[b].email)
    }

    constructor (collection: string, fieldErrors: User -> seq<string>)
      ensures Valid() && docs == map[] && order == []
      ensures this.collection == collection && this.fieldErrors == fieldErrors
    {
      docs := map[];
      order := [];
      this.collection := collection;
      this.fieldErrors := fieldErrors;
    }

    /** `User.find({ active: true })` */
    function Find(): (users: seq<User>)
      reads this
      requires Valid()
      ensures forall u :: u in users <==> u.id in docs && docs[u.id] == u && u.active
      ensures |users| == |ActiveIds(docs)|
    {
      assert forall i :: 0 <= i < |order| ==> order[i] in docs;
      var users := ActiveInOrder(order, docs);
      ActiveInOrderExact(order, docs);
      ActiveInOrderCount(order, docs);
      users
    }

    /** `User.findById(id)`: a CastError for a malformed id, None when no
        document has it (in any case of its hex digits), the document
        whatever its `active` flag. */
    function FindById(id: Id): (r: Result<Option<User>, ErrorRecord>)
      reads this
      ensures r.Failure? <==> !IsObjectId(id)
      ensures r.Success? ==>
        (r.value.Some? <==> CanonicalId(id) in docs) && (r.value.Some? ==> r.value.value == docs[CanonicalId(id)])
    {
      if !IsObjectId(id) then Failure(CastErrorFor(id))
      else if CanonicalId(id) in docs then Success(Some(docs[CanonicalId(id)]))
      else Success(None)
    }

    /** `User.create(data)`; `newId` is the id the driver generates, in
        lower case. */
    method Create(data: UserData, newId: Id) returns (r: Result<User, ErrorRecord>)
      requires Valid() && newId !in docs && IsObjectId(newId) && CanonicalId(newId) == newId
      modifies this
      ensures Valid()
      ensures r == CreateResult(old(docs), collection, fieldErrors, data, newId)
      ensures r.Success? ==> docs == old(docs)[newId := r.value] && order == old(order) + [newId]
      ensures r.Failure? ==> docs == old(docs) && order == old(order)
    {
      r := CreateResult(docs, collection, fieldErrors, data, newId);
      if r.Success? {
        docs := docs[newId := r.value];
        order := order + [newId];
      }
    }

    /** `User.findByIdAndUpdate(id, patch, { new: returnNew, runValidators })` */
    method FindByIdAndUpdate(id: Id, patch: UserData, returnNew: bool, runValidators: bool)
      returns (r: Result<Option<User>, ErrorRecord>)
      requires Valid()
      modifies this`docs
      ensures Valid()
      ensures r == UpdateResult(old(docs), collection, fieldErrors, id, patch, returnNew, runValidators)
      ensures r.Success? && r.value.Some? ==>
        var key := CanonicalId(id); docs == old(docs)[key := Merge(old(docs)[key], patch)]
      ensures r.Failure? || r.value.None? ==> docs == old(docs)
    {
      r := UpdateResult(docs, collection, fieldErrors, id, patch, returnNew, runValidators);
      if r.Success? && r.value.Some? {
        var key := CanonicalId(id);
        docs := docs[key := Merge(docs[key], patch)];
      }
    }
  }

  /** Two spellings of an id that differ only in the case of their hex
      digits find the same document, or fail alike. */
  lemma SpellingsFindSameDocument(m: UserModel, a: Id, b: Id)
    requires CanonicalId(a) == CanonicalId(b)
    ensures m.FindById(a).Success? <==> m.FindById(b).Success?
    ensures m.FindById(a).Success? ==> m.FindById(a) == m.FindById(b)
  {
    CanonicalIdKeepsObjectId(a);
    CanonicalIdKeepsObjectId(b);
  }

  /** A document stored under its lower-case id is found under the
      upper-case spelling of that id. */
  lemma UpperCaseSpellingFindsStored(m: UserModel)
    requires "64b7f0c2a1d3e4f5a6b7c8d9" in m.docs
    ensures m.FindById("64B7F0C2A1D3E4F5A6B7C8D9") == Success(Some(m.docs["64b7f0c2a1d3e4f5a6b7c8d9"]))
  {
    var upper: Id := "64B7F0C2A1D3E4F5A6B7C8D9";
    var lower: Id := "64b7f0c2a1d3e4f5a6b7c8d9";
    assert CanonicalId(upper) == lower;
    assert IsObjectId(upper);
  }

  /** The active documents of a duplicate-free enumeration of the keys
      are exactly the active documents. */
  lemma {:induction false} ActiveInOrderExact(order: seq<Id>, docs: map<Id, User>)
    requires forall i :: 0 <= i < |order| ==> order[i] in docs
    requires forall id :: id in docs ==> docs[id].id == id
    ensures forall u :: u in ActiveInOrder(order, docs) <==> u.id in order && u.id in docs && docs[u.id] == u && u.active
  {
    if |order| > 0 {
      ActiveInOrderExact(order[1..], docs);
      forall u: User | u.id in order && u.id in docs && docs[u.id] == u && u.active
        ensures u in ActiveInOrder(order, docs)
      {
        if u.id != order[0] {
          assert u.id in order[1..];
        }
      }
    }
  }

  /** The ids in `order` whose documents are active. */
  function ActiveIdsIn(order: seq<Id>, docs: map<Id, User>): set<Id>
    requires forall i :: 0 <= i < |order| ==> order[i] in docs
  {
    set i | 0 <= i < |order| && docs[order[i]].active :: order[i]
  }

  /** Without repeated ids, one listed document per active id. */
  lemma {:induction false} ActiveInOrderCount(order: seq<Id>, docs: map<Id, User>)
    requires forall i :: 0 <= i < |order| ==> order[i] in docs
    requires forall i, j :: 0 <= i < j < |order| ==> order[i] != order[j]
    requires forall id :: id in docs <==> id in order
    ensures |ActiveInOrder(order, docs)| == |ActiveIds(docs)|
  {
    ActiveIdsInCount(order, docs);
    assert ActiveIdsIn(order, docs) == ActiveIds(docs) by {
      forall id | id in ActiveIds(docs) ensures id in ActiveIdsIn(order, docs) {
        var i :| 0 <= i < |order| && order[i] == id;
      }
    }
  }

  lemma {:induction false} ActiveIdsInCount(order: seq<Id>, docs: map<Id, User>)
    requires forall i :: 0 <= i < |order| ==> order[i] in docs
    requires forall i, j :: 0 <= i < j < |order| ==> order[i] != order[j]
    ensures |ActiveInOrder(order, docs)| == |ActiveIdsIn(order, docs)|
  {
    if |order| > 0 {
      var rest := order[1..];
      ActiveIdsInCount(rest, docs);
      var head := if docs[order[0]].active then {order[0]} else {};
      assert ActiveIdsIn(order, docs) == head + ActiveIdsIn(rest, docs) by {
        forall id | id in ActiveIdsIn(order, docs) ensures id in head + ActiveIdsIn(rest, docs) {
          var i :| 0 <= i < |order| && docs[order[i]].active && order[i] == id;
          if i > 0 { assert rest[i - 1] == id; }
        }
        forall id | id in ActiveIdsIn(rest, docs) ensures id in ActiveIdsIn(order, docs) {
          var i :| 0 <= i < |rest| && docs[rest[i]].active && rest[i] == id;
          assert order[i + 1] == id;
        }
      }
      assert order[0] !in ActiveIdsIn(rest, docs) by {
        forall i | 0 <= i < |rest| ensures rest[i] != order[0] {
          assert rest[i] == order[i + 1];
        }
      }
    } else {
      assert ActiveIdsIn(order, docs) == {};
    }
  }

  /** Deleting softly twice is deleting once. */
  lemma SoftDeleteIdempotent(u: User)
    ensures Merge(Merge(u, Deactivate), Deactivate) == Merge(u, Deactivate)
    ensures !Merge(u, Deactivate).active
    ensures Merge(u, Deactivate) == u.(active := false)
  {
  }

  /** A soft delete keeps the document but takes it out of the listing;
      an update with `active: true` puts it back. */
  lemma SoftDeleteHidesFromListing(docs: map<Id, User>, id: Id)
    requires id in docs
    ensures var after := docs[id := Merge(docs[id], Deactivate)];
      id in after && after[id] == docs[id].(active := false)
      && ActiveIds(after) == ActiveIds(docs) - {id}
    ensures var back := docs[id := Merge(docs[id], UserData(None, None, None, Some(true)))];
      ActiveIds(back) == ActiveIds(docs) + {id}
  {
  }

  /** An update supplies only what it names: an empty one changes nothing,
      and fields not supplied keep their values. */
  lemma MergeKeepsUnsupplied(u: User, patch: UserData)
    ensures Merge(u, UserData(None, None, None, None)) == u
    ensures Merge(u, patch).id == u.id
    ensures patch.name.None? ==> Merge(u, patch).name == u.name
    ensures patch.email.None? ==> Merge(u, patch).email == u.email
    ensures patch.role.None? ==> Merge(u, patch).role == u.role
    ensures patch.active.None? ==> Merge(u, patch).active == u.active
    ensures Merge(Merge(u, patch), patch) == Merge(u, patch)
  {
  }

  /** A successful create has the schema defaults and the supplied fields. */
  lemma CreatedUserFields(docs: map<Id, User>, collection: string, fieldErrors: User -> seq<string>, data: UserData, newId: Id)
    requires CreateResult(docs, collection, fieldErrors, data, newId).Success?
    ensures var u := CreateResult(docs, collection, fieldErrors, data, newId).value;
      u.id == newId && Some(u.name) == data.name && Some(u.email) == data.email
      && u.role == data.role.GetOr("user") && u.active == data.active.GetOr(true)
      && !EmailTaken(docs, u.email, newId)
  {
  }

  /** Creating with an email another document holds fails with the
      duplicate-key code, and its message quotes the email first. */
  lemma DuplicateEmailRejected(docs: map<Id, User>, collection: string, fieldErrors: User -> seq<string>,
                               data: UserData, newId: Id, other: Id)
    requires data.name.Some? && data.email.Some?
    requires fieldErrors(User(newId, data.name.value, data.email.value, data.role.GetOr("user"), data.active.GetOr(true))) == []
    requires other in docs && other != newId && docs[other].email == data.email.value
    ensures CreateResult(docs, collection, fieldErrors, data, newId) == Failure(DuplicateKeyError(collection, data.email.value))
  {
  }

  predicate NoQuote(s: string) {
    forall k :: 0 <= k < |s| ==> !IsQuote(s[k])
  }

  lemma NoQuoteConcat(a: string, b: string)
    requires NoQuote(a) && NoQuote(b)
    ensures NoQuote(a + b)
  {
    forall k | 0 <= k < |a + b| ensures !IsQuote((a + b)[k]) {
      if k >= |a| { assert (a + b)[k] == b[k - |a|]; }
    }
  }

  /** A double-quoted text with no quote before it, and no double quote,
      backslash or line break inside it, is the match. */
  lemma {:induction false} QuotedAfterPlainText(before: string, inner: string, after: string)
    requires NoQuote(before)
    requires forall k :: 0 <= k < |inner| ==> inner[k] != '"' && inner[k] != '\\' && !IsLineTerminator(inner[k])
    ensures FirstMatch(before + ("\"" + inner + "\"") + after) == Some("\"" + inner + "\"")
  {
    var quoted := "\"" + inner + "\"";
    var s := before + quoted + after;
    var a := |before|;
    var e := a + |inner| + 2;
    assert s[a..e] == quoted;
    forall k | 0 <= k < a ensures !IsQuote(s[k]) {
      assert s[k] == before[k];
    }
    forall k | a < k < e - 1 ensures s[k] != s[a] && s[k] != '\\' && !IsLineTerminator(s[k]) {
      assert s[k] == inner[k - a - 1];
    }
    MatchWithoutEscapes(s, a, e);
  }

  /** The duplicate-key message quotes the email first, so the error
      normalisers report exactly `"<email>"` (for an email without double
      quotes, backslashes or line breaks, in a namespace without quotes). */
  lemma DuplicateKeyMessageQuotesEmail(collection: string, email: string)
    requires NoQuote(collection)
    requires forall k :: 0 <= k < |email| ==> email[k] != '"' && email[k] != '\\' && !IsLineTerminator(email[k])
    ensures FirstMatch(DuplicateKeyMessage(collection, email)) == Some("\"" + email + "\"")
  {
    var p := "E11000 duplicate key error collection: ";
    var q := " index: email_1 dup key: { email: ";
    assert NoQuote(p) && NoQuote(q);
    NoQuoteConcat(p, collection);
    NoQuoteConcat(p + collection, q);
    assert DuplicateKeyMessage(collection, email) == (p + collection + q) + ("\"" + email + "\"") + " }";
    QuotedAfterPlainText(p + collection + q, email, " }");
  }
}
