/**
 * What the server's handlers share: the user store, the services they call without
 * this model seeing inside (password hashing and comparison, token signing and
 * verification as in RFC 7519, the e-mail test, the object-id test), responses and
 * their JSON bodies, and the request validators.
 */
module ServerCommon {
  import opened Wrappers
  import opened JsValues

  /** A user id: the string form of its object id (`user.id`). */
  type Id = string

  /** A stored user; `password` holds the hash, never the plain text. */
  datatype UserRecord = UserRecord(firstName: string, lastName: string, username: string,
                                   email: string, password: string)

  type Users = map<Id, UserRecord>

  /** The user collection, updated in place by register, edit and delete. */
  class UserDb {
    var users: Users

    constructor (users: Users)
      ensures this.users == users
    {
      this.users := users;
    }
  }

  /** The calls into libraries the handlers make. `hash` stands for salting and hashing
      with bcrypt, `compare` for checking a plain password against a hash, `sign(claims,
      expiresIn, issuedAt)` and `verify(token)` for the JSON Web Token library with the
      server's secret. `sign` also takes the issue time in seconds, which the token
      carries as `iat`; `verify` gives the decoded claims, or none when the token is
      rejected. `isEmail` stands for the validator's e-mail test and `isValidId` for
      `ObjectId.isValid`. */
  datatype Services = Services(hash: string -> string, compare: (string, string) -> bool,
                               sign: (Value, int, int) -> string, verify: string -> Option<Value>,
                               isEmail: string -> bool, isValidId: Value -> bool)

  /** Tokens are never empty, and verifying a token the server signed gives back its
      claims, whenever it was issued. */
  ghost predicate SoundCodec(s: Services) {
    (forall claims, expiresIn, issuedAt :: s.sign(claims, expiresIn, issuedAt) != "") &&
    (forall claims, expiresIn, issuedAt :: s.verify(s.sign(claims, expiresIn, issuedAt)) == Some(claims))
  }

  /** A password always matches its own hash. */
  ghost predicate SoundHash(s: Services) {
    forall password :: s.compare(password, s.hash(password))
  }

  /** A request body: JSON fields that are strings. */
  type Body = map<string, string>

  function Field(body: Body, k: string): Option<string> {
    if k in body then Some(body[k]) else None
  }

  /** An HTTP status and the JSON body written with it. */
  datatype Response = Response(status: int, body: Value)

  /** `{errors: [{msg}]}`. */
  function ErrorBody(msg: string): Value {
    Obj(map["errors" := Arr([Obj(map["msg" := Str(msg)])])])
  }

  /** `{msg}`. */
  function MsgBody(msg: string): Value {
    Obj(map["msg" := Str(msg)])
  }

  const ServerError := Response(500, ErrorBody("Server Error"))

  /** The token lifetime in seconds. */
  const ExpiresIn := 3600

  /** The signed payload `{user: {id}}`. */
  function Claims(id: Id): Value {
    Obj(map["user" := Obj(map["id" := Str(id)])])
  }

  function TokenBody(token: string): Value {
    Obj(map["token" := Str(token)])
  }

  /** A user document as JSON, with or without its password hash. */
  function UserJson(id: Id, u: UserRecord, withPassword: bool): (r: Value)
    ensures r.Obj? && "_id" in r.fields && r.fields["_id"] == Str(id)
    ensures "password" in r.fields <==> withPassword
  {
    Obj(map["_id" := Str(id), "firstName" := Str(u.firstName), "lastName" := Str(u.lastName),
            "username" := Str(u.username), "email" := Str(u.email)] +
        (if withPassword then map["password" := Str(u.password)] else map[]))
  }

  /** One validation error: the offending value when there was one, the message, the
      field and where it was read from. */
  datatype FieldError = FieldError(value: Option<string>, msg: string, param: string, location: string)

  function ErrorJson(e: FieldError): Value {
    Obj(map["msg" := Str(e.msg), "param" := Str(e.param), "location" := Str(e.location)] +
        (if e.value.Some? then map["value" := Str(e.value.value)] else map[]))
  }

  /** `{errors: [...]}` for a list of validation errors. */
  function ErrorsJson(errors: seq<FieldError>): (r: Value)
    ensures r.Obj? && "errors" in r.fields && r.fields["errors"].Arr?
    ensures |r.fields["errors"].items| == |errors|
  {
    Obj(map["errors" := Arr(seq(|errors|, i requires 0 <= i < |errors| => ErrorJson(errors[i])))])
  }

  /** `body(k, msg).not().isEmpty()`: a missing field reads as the empty string. */
  function NotEmpty(body: Body, k: string, msg: string): (r: seq<FieldError>)
    ensures r == [] <==> k in body && body[k] != ""
  {
    if k in body && body[k] != "" then [] else [FieldError(Field(body, k), msg, k, "body")]
  }

  /** `body(k, msg).isEmail()`. */
  function IsEmail(s: Services, body: Body, k: string, msg: string): (r: seq<FieldError>)
    ensures r == [] <==> k in body && s.isEmail(body[k])
  {
    if k in body && s.isEmail(body[k]) then [] else [FieldError(Field(body, k), msg, k, "body")]
  }

  /** `query(k, msg).exists()` over the query parameter's value. */
  function QueryExists(k: string, q: Option<string>, msg: string): (r: seq<FieldError>)
    ensures r == [] <==> q.Some?
  {
    if q.Some? then [] else [FieldError(None, msg, k, "query")]
  }

  /** `body(k, msg).exists()`. */
  function Exists(body: Body, k: string, msg: string): (r: seq<FieldError>)
    ensures r == [] <==> k in body
  {
    if k in body then [] else [FieldError(None, msg, k, "body")]
  }

  /** `body(k, msg).isLength({min})`. */
  function MinLength(body: Body, k: string, min: nat, msg: string): (r: seq<FieldError>)
    ensures r == [] <==> k in body && |body[k]| >= min
  {
    if k in body && |body[k]| >= min then [] else [FieldError(Field(body, k), msg, k, "body")]
  }

  /** The `id` query parameter as the handlers see it. */
  function QueryValue(id: Option<string>): Value {
    if id.Some? then Str(id.value) else Undefined
  }

  /** `findById(id)`: the stored user whose id is the given string, if any. An id that
      is not a string matches nothing. */
  function FindById(users: Users, id: Value): (r: Option<Id>)
    ensures r.Some? <==> id.Str? && id.s in users
    ensures r.Some? ==> id == Str(r.value)
  {
    if id.Str? && id.s in users then Some(id.s) else None
  }

  predicate EmailTaken(users: Users, email: string) {
    exists id :: id in users && users[id].email == email
  }

  predicate UsernameTaken(users: Users, username: string) {
    exists id :: id in users && users[id].username == username
  }

  /** No two stored users share an e-mail address. */
  predicate EmailsUnique(users: Users) {
    forall a, b :: a in users && b in users && users[a].email == users[b].email ==> a == b
  }

  /** No two stored users share a username. */
  predicate UsernamesUnique(users: Users) {
    forall a, b :: a in users && b in users && users[a].username == users[b].username ==> a == b
  }
}
