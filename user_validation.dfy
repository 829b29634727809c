/** src/validations/user.validation.js: the request schemas of the user
    routes, as the issue messages each field check produces and the
    object parser that strips unknown keys. The email format check is a
    parameter `isEmail`. */
module UserValidation {
  import opened Wrappers
  import opened Json
  import opened Text
  import opened Http
  import opened Validate

  predicate IsHexDigit(c: char) {
    '0' <= c <= '9' || 'a' <= c <= 'f' || 'A' <= c <= 'F'
  }

  /** `/^[0-9a-fA-F]{24}$/` */
  predicate IsObjectId(s: string) {
    |s| == 24 && forall i :: 0 <= i < |s| ==> IsHexDigit(s[i])
  }

  function HexDigit(d: nat): (c: char)
    requires d < 16
    ensures IsHexDigit(c) && !('A' <= c <= 'F')
  {
    if d < 10 then '0' + d as char else 'a' + (d - 10) as char
  }

  /** The lower-case hexadecimal rendering of a byte string. */
  function Hex(bytes: seq<bv8>): (s: string)
    ensures |s| == 2 * |bytes|
    ensures forall i :: 0 <= i < |s| ==> IsHexDigit(s[i]) && !('A' <= s[i] <= 'F')
  {
    if |bytes| == 0 then ""
    else [HexDigit(bytes[0] as nat / 16), HexDigit(bytes[0] as nat % 16)] + Hex(bytes[1..])
  }

  /** The rendering of a 12-byte document id passes the id check. */
  lemma HexIdIsObjectId(bytes: seq<bv8>)
    requires |bytes| == 12
    ensures IsObjectId(Hex(bytes))
  {
  }

  /** The length JavaScript (and so Zod) gives a string: UTF-16 code
      units, two for a character outside the Basic Multilingual Plane. */
  function Utf16Length(s: string): (n: nat)
    ensures n >= |s|
  {
    if |s| == 0 then 0 else (if s[0] as int >= 0x10000 then 2 else 1) + Utf16Length(s[1..])
  }

  predicate InBasicPlane(s: string) {
    forall i :: 0 <= i < |s| ==> (s[i] as int) < 0x10000
  }

  /** Without astral characters the UTF-16 length is the character count. */
  lemma {:induction false} BasicPlaneLength(s: string)
    requires InBasicPlane(s)
    ensures Utf16Length(s) == |s|
  {
    if |s| > 0 {
      assert InBasicPlane(s[1..]) by {
        forall i | 0 <= i < |s[1..]| ensures (s[1..][i] as int) < 0x10000 { assert s[1..][i] == s[i + 1]; }
      }
      BasicPlaneLength(s[1..]);
    }
  }

  /** Zod's invalid-type message for a value that should be a string. */
  function ExpectedString(v: Option<Json>): string {
    "Expected string, received " + TypeName(v)
  }

  /** `.min(1, tooShort).max(100, tooLong)` on a string: both checks run. */
  function LengthIssues(s: string, tooShort: string, tooLong: string): (issues: seq<string>)
    ensures issues == [] <==> 1 <= Utf16Length(s) <= 100
  {
    (if Utf16Length(s) < 1 then [tooShort] else []) + (if Utf16Length(s) > 100 then [tooLong] else [])
  }

  /** Create: `name`, a required string of 1 to 100 characters. */
  function CreateNameIssues(v: Option<Json>): seq<string> {
    match v
    case None => ["Name is required"]
    case Some(JStr(s)) => LengthIssues(s, "Name is required", "Name cannot exceed 100 characters")
    case Some(_) => [ExpectedString(v)]
  }

  /** Create: `email`, a required string in email format. */
  function CreateEmailIssues(isEmail: string -> bool, v: Option<Json>): seq<string> {
    match v
    case None => ["Email is required"]
    case Some(JStr(s)) => if isEmail(s) then [] else ["Invalid email address"]
    case Some(_) => [ExpectedString(v)]
  }

  const Roles: seq<string> := ["user", "admin"]

  /** `z.enum(['user', 'admin']).optional()` */
  function RoleIssues(v: Option<Json>): seq<string> {
    match v
    case None => []
    case Some(JStr(s)) =>
      if s in Roles then [] else ["Invalid enum value. Expected 'user' | 'admin', received '" + s + "'"]
    case Some(_) => ["Expected 'user' | 'admin', received " + TypeName(v)]
  }

  /** Update: `name`, an optional string with Zod's default length messages. */
  function UpdateNameIssues(v: Option<Json>): seq<string> {
    match v
    case None => []
    case Some(JStr(s)) =>
      LengthIssues(s, "String must contain at least 1 character(s)", "String must contain at most 100 character(s)")
    case Some(_) => [ExpectedString(v)]
  }

  /** Update: `email`, an optional string in email format. */
  function UpdateEmailIssues(isEmail: string -> bool, v: Option<Json>): seq<string> {
    match v
    case None => []
    case Some(JStr(s)) => if isEmail(s) then [] else ["Invalid email address"]
    case Some(_) => [ExpectedString(v)]
  }

  /** Update: `active`, an optional boolean. */
  function ActiveIssues(v: Option<Json>): seq<string> {
    match v
    case None => []
    case Some(JBool(_)) => []
    case Some(_) => ["Expected boolean, received " + TypeName(v)]
  }

  /** `objectIdSchema` as the required `id` route parameter. */
  function IdIssues(v: Option<Json>): (issues: seq<string>)
    ensures issues == [] <==> v.Some? && v.value.JStr? && IsObjectId(v.value.s)
  {
    match v
    case None => ["Required"]
    case Some(JStr(s)) => if IsObjectId(s) then [] else ["Invalid MongoDB ObjectId"]
    case Some(_) => [ExpectedString(v)]
  }

  /** One key of a `z.object` shape and the issues its schema reports. */
  datatype FieldRule = FieldRule(key: string, check: Option<Json> -> seq<string>)

  function Lookup(fields: map<string, Json>, key: string): Option<Json> {
    if key in fields then Some(fields[key]) else None
  }

  /** The issues of every key, in shape order. */
  function ShapeIssues(shape: seq<FieldRule>, fields: map<string, Json>): seq<string> {
    if |shape| == 0 then [] else shape[0].check(Lookup(fields, shape[0].key)) + ShapeIssues(shape[1..], fields)
  }

  /** No issue at all exactly when every key's check passes. */
  lemma {:induction false} ShapeIssuesEmptyIff(shape: seq<FieldRule>, fields: map<string, Json>)
    ensures ShapeIssues(shape, fields) == [] <==>
      forall i :: 0 <= i < |shape| ==> shape[i].check(Lookup(fields, shape[i].key)) == []
  {
    if |shape| > 0 {
      ShapeIssuesEmptyIff(shape[1..], fields);
      assert forall i :: 1 <= i < |shape| ==> shape[1..][i - 1] == shape[i];
    }
  }

  /** The issues of each key follow those of the keys before it. */
  lemma {:induction false} ShapeIssuesAppend(a: seq<FieldRule>, b: seq<FieldRule>, fields: map<string, Json>)
    ensures ShapeIssues(a + b, fields) == ShapeIssues(a, fields) + ShapeIssues(b, fields)
  {
    if |a| > 0 {
      assert (a + b)[1..] == a[1..] + b;
      ShapeIssuesAppend(a[1..], b, fields);
    } else {
      assert a + b == b;
    }
  }

  predicate InShape(shape: seq<FieldRule>, key: string) {
    exists i :: 0 <= i < |shape| && shape[i].key == key
  }

  /** `z.object(shape).parse(v)`: an object whose keys all pass is
      returned with its unknown keys stripped; anything else throws
      with every issue. */
  function ParseObject(shape: seq<FieldRule>, v: Json): ParseOutcome {
    if !v.JObj? then
      Rejected(ParseFailure(Some(["Expected object, received " + TypeName(Some(v))]), ""))
    else
      var issues := ShapeIssues(shape, v.fields);
      if issues == [] then Parsed(JObj(map k | k in v.fields && InShape(shape, k) :: v.fields[k]))
      else Rejected(ParseFailure(Some(issues), ""))
  }

  function CreateUserShape(isEmail: string -> bool): seq<FieldRule> {
    [FieldRule("name", CreateNameIssues),
     FieldRule("email", v => CreateEmailIssues(isEmail, v)),
     FieldRule("role", RoleIssues)]
  }

  function UpdateUserShape(isEmail: string -> bool): seq<FieldRule> {
    [FieldRule("name", UpdateNameIssues),
     FieldRule("email", v => UpdateEmailIssues(isEmail, v)),
     FieldRule("role", RoleIssues),
     FieldRule("active", ActiveIssues)]
  }

  const IdShape: seq<FieldRule> := [FieldRule("id", IdIssues)]

  /** `createUserSchema` */
  function CreateUserSchema(isEmail: string -> bool): Schema {
    Schema(Some(v => ParseObject(CreateUserShape(isEmail), v)), None, None)
  }

  /** `updateUserSchema` */
  function UpdateUserSchema(isEmail: string -> bool): Schema {
    Schema(Some(v => ParseObject(UpdateUserShape(isEmail), v)), None, Some(v => ParseObject(IdShape, v)))
  }

  /** `getUserSchema` */
  function GetUserSchema(): Schema {
    Schema(None, None, Some(v => ParseObject(IdShape, v)))
  }

  /** A parsed object keeps exactly the known keys of the input. */
  lemma ParsedStripsUnknownKeys(shape: seq<FieldRule>, v: Json, k: string)
    requires ParseObject(shape, v).Parsed?
    ensures v.JObj? && ParseObject(shape, v).value.JObj?
    ensures k in ParseObject(shape, v).value.fields <==> k in v.fields && InShape(shape, k)
    ensures k in ParseObject(shape, v).value.fields ==> ParseObject(shape, v).value.fields[k] == v.fields[k]
  {
  }

  /** A create body is accepted exactly when its name is a string of 1 to
      100 UTF-16 units, its email a string in email format, and its role,
      if any, "user" or "admin". */
  lemma CreateBodyAcceptedIff(isEmail: string -> bool, fields: map<string, Json>)
    ensures ParseObject(CreateUserShape(isEmail), JObj(fields)).Parsed? <==>
      ("name" in fields && fields["name"].JStr? && 1 <= Utf16Length(fields["name"].s) <= 100)
      && ("email" in fields && fields["email"].JStr? && isEmail(fields["email"].s))
      && ("role" in fields ==> fields["role"] == JStr("user") || fields["role"] == JStr("admin"))
  {
    var shape := CreateUserShape(isEmail);
    ShapeIssuesEmptyIff(shape, fields);
    assert shape[0].key == "name" && shape[1].key == "email" && shape[2].key == "role";
    if "role" in fields && fields["role"].JStr? {
      assert fields["role"].s in Roles <==> fields["role"].s == "user" || fields["role"].s == "admin";
    }
  }

  /** An update body is accepted exactly when each field present has the
      right type and bounds: an empty body is valid. */
  lemma UpdateBodyAcceptedIff(isEmail: string -> bool, fields: map<string, Json>)
    ensures ParseObject(UpdateUserShape(isEmail), JObj(fields)).Parsed? <==>
      ("name" in fields ==> fields["name"].JStr? && 1 <= Utf16Length(fields["name"].s) <= 100)
      && ("email" in fields ==> fields["email"].JStr? && isEmail(fields["email"].s))
      && ("role" in fields ==> fields["role"] == JStr("user") || fields["role"] == JStr("admin"))
      && ("active" in fields ==> fields["active"].JBool?)
    ensures ParseObject(UpdateUserShape(isEmail), JObj(map[])) == Parsed(JObj(map[]))
  {
    var shape := UpdateUserShape(isEmail);
    ShapeIssuesEmptyIff(shape, fields);
    UpdateFieldChecks(isEmail, fields);
    ShapeIssuesEmptyIff(shape, map[]);
    UpdateFieldChecks(isEmail, map[]);
  }

  /** Each key of the update shape passes exactly when it is absent or
      has the right type and bounds. */
  lemma UpdateFieldChecks(isEmail: string -> bool, fields: map<string, Json>)
    ensures var shape := UpdateUserShape(isEmail);
      |shape| == 4
      && (shape[0].check(Lookup(fields, shape[0].key)) == [] <==>
            ("name" in fields ==> fields["name"].JStr? && 1 <= Utf16Length(fields["name"].s) <= 100))
      && (shape[1].check(Lookup(fields, shape[1].key)) == [] <==>
            ("email" in fields ==> fields["email"].JStr? && isEmail(fields["email"].s)))
      && (shape[2].check(Lookup(fields, shape[2].key)) == [] <==>
            ("role" in fields ==> fields["role"] == JStr("user") || fields["role"] == JStr("admin")))
      && (shape[3].check(Lookup(fields, shape[3].key)) == [] <==>
            ("active" in fields ==> fields["active"].JBool?))
  {
    UpdateNamePasses(Lookup(fields, "name"));
    UpdateEmailPasses(isEmail, Lookup(fields, "email"));
    RolePasses(Lookup(fields, "role"));
    ActivePasses(Lookup(fields, "active"));
  }

  lemma UpdateNamePasses(v: Option<Json>)
    ensures UpdateNameIssues(v) == [] <==> (v.Some? ==> v.value.JStr? && 1 <= Utf16Length(v.value.s) <= 100)
  {
  }

  lemma UpdateEmailPasses(isEmail: string -> bool, v: Option<Json>)
    ensures UpdateEmailIssues(isEmail, v) == [] <==> (v.Some? ==> v.value.JStr? && isEmail(v.value.s))
  {
  }

  lemma RolePasses(v: Option<Json>)
    ensures RoleIssues(v) == [] <==> (v.Some? ==> v.value == JStr("user") || v.value == JStr("admin"))
  {
    if v.Some? && v.value.JStr? {
      assert v.value.s in Roles <==> v.value.s == "user" || v.value.s == "admin";
    }
  }

  lemma ActivePasses(v: Option<Json>)
    ensures ActiveIssues(v) == [] <==> (v.Some? ==> v.value.JBool?)
  {
  }

  /** Get and update both let a request through the params check exactly
      when `params.id` is a 24-digit hexadecimal string. */
  lemma IdParamAcceptedIff(params: Json)
    ensures ParseObject(IdShape, params).Parsed? <==>
      params.JObj? && "id" in params.fields && params.fields["id"].JStr? && IsObjectId(params.fields["id"].s)
  {
    if params.JObj? {
      ShapeIssuesEmptyIff(IdShape, params.fields);
    }
  }

  /** The issues of a create body with an empty name and a malformed
      email, in field order. */
  lemma EmptyNameBadEmailIssues(isEmail: string -> bool, email: string)
    requires !isEmail(email)
    ensures ShapeIssues(CreateUserShape(isEmail), map["name" := JStr(""), "email" := JStr(email)])
         == ["Name is required", "Invalid email address"]
  {
    var fields := map["name" := JStr(""), "email" := JStr(email)];
    var shape := CreateUserShape(isEmail);
    assert Lookup(fields, "name") == Some(JStr(""));
    assert Lookup(fields, "email") == Some(JStr(email));
    assert Lookup(fields, "role") == None;
    assert shape[1..][1..] == shape[2..] && shape[2..][1..] == [];
    assert ShapeIssues(shape[2..], fields) == [];
    assert ShapeIssues(shape[1..], fields) == ["Invalid email address"];
  }

  /** A create body with an empty name and a malformed email: the request
      is rejected with both violations, in field order. */
  lemma EveryViolationReported(isEmail: string -> bool, req: Sections, email: string)
    requires req.body == JObj(map["name" := JStr(""), "email" := JStr(email)])
    requires !isEmail(email)
    ensures Run(CreateUserSchema(isEmail), req).1 ==
      NextWithError(ValidationFailure(ParseFailure(Some(["Name is required", "Invalid email address"]), "")))
    ensures ValidationFailure(ParseFailure(Some(["Name is required", "Invalid email address"]), "")).message
         == "Validation error: " + "Name is required, Invalid email address"
  {
    var issues := ["Name is required", "Invalid email address"];
    var schema := CreateUserSchema(isEmail);
    EmptyNameBadEmailIssues(isEmail, email);
    assert ParseObject(CreateUserShape(isEmail), req.body) == Rejected(ParseFailure(Some(issues), ""));
    assert Step(schema.body, req.body) == Rejected(ParseFailure(Some(issues), ""));
    BothViolationsMessage();
  }

  /** The text of the rejection naming both violations. */
  lemma BothViolationsMessage()
    ensures ValidationFailure(ParseFailure(Some(["Name is required", "Invalid email address"]), "")).message
         == "Validation error: " + "Name is required, Invalid email address"
  {
    BothIssuesText();
  }

  lemma BothIssuesText()
    ensures Join(["Name is required", "Invalid email address"], ", ") == "Name is required, Invalid email address"
  {
    JoinPair("Name is required", "Invalid email address", ", ");
  }

  lemma JoinPair(a: string, b: string, sep: string)
    ensures Join([a, b], sep) == a + sep + b
  {
    assert [a, b][1..] == [b];
  }
}
