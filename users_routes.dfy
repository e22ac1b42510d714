/**
 * The `/api/users` handlers (backend/routes/users.js): the id check shared by get-user
 * and delete, and the get-user, register, edit and delete handlers over the user store.
 * `fault` says that the first store call throws, which each handler's `catch` answers
 * with 500 before anything is written.
 */
module UserRoutes {
  import opened Wrappers
  import opened JsValues
  import opened ServerCommon

  const InvalidIdError := FieldError(None, "The id provided is invalid.", "id", "query")
  const IdRequired := "A valid user id is required."

  /** `checkIdValid(id, errorArr)`: the list unchanged for a valid object id, otherwise
      the list followed by one invalid-id error. */
  function CheckIdValid(s: Services, id: Value, errs: seq<FieldError>): (r: seq<FieldError>)
    ensures |r| == |errs| + (if s.isValidId(id) then 0 else 1)
    ensures r[..|errs|] == errs
    ensures !s.isValidId(id) ==> r[|errs|] == InvalidIdError
  {
    if !s.isValidId(id) then errs + [InvalidIdError] else errs
  }

  /** The errors of the `id` query parameter: the validator's, then the id check's. A
      missing id gives both. */
  function IdErrors(s: Services, id: Option<string>): (r: seq<FieldError>)
    ensures r == [] <==> id.Some? && s.isValidId(Str(id.value))
    ensures id.None? && !s.isValidId(Undefined) ==> |r| == 2
  {
    CheckIdValid(s, QueryValue(id), QueryExists("id", id, IdRequired))
  }

  /** `{successes: [{data: user}]}`, the whole document with its password hash. */
  function FoundBody(id: Id, u: UserRecord): Value {
    Obj(map["successes" := Arr([Obj(map["data" := UserJson(id, u, true)])])])
  }

  const NoSuchUser := Response(404, MsgBody("Could not find a user with the specified id."))

  /** `/get-user`: the id errors, a failing store, an unknown id, or the user. */
  method GetUser(db: UserDb, s: Services, id: Option<string>, fault: bool) returns (res: Response)
    ensures IdErrors(s, id) != [] ==> res == Response(400, ErrorsJson(IdErrors(s, id)))
    ensures IdErrors(s, id) == [] && fault ==> res == ServerError
    ensures IdErrors(s, id) == [] && !fault ==>
      if id.value in db.users then res == Response(200, FoundBody(id.value, db.users[id.value]))
      else res == NoSuchUser
    ensures res.status == 200 <==> IdErrors(s, id) == [] && !fault && id.value in db.users
  {
    var errors := IdErrors(s, id);
    if errors != [] {
      return Response(400, ErrorsJson(errors));
    }
    if fault {
      return ServerError;
    }
    match FindById(db.users, QueryValue(id))
    case None =>
      return NoSuchUser;
    case Some(found) =>
      return Response(200, FoundBody(found, db.users[found]));
  }

  /** The validation chain of `/register`, in the order its validators are listed (the
      last-name message repeats the first-name one). */
  function RegisterErrors(s: Services, body: Body): (r: seq<FieldError>)
    ensures r == [] <==> ValidRegistration(s, body)
  {
    NotEmpty(body, "firstName", "Please add a first name.") +
    NotEmpty(body, "lastName", "Please add a first name.") +
    NotEmpty(body, "username", "Please add an username.") +
    IsEmail(s, body, "email", "Please include a valid email.") +
    MinLength(body, "password", 6, "Please enter a password with 6 or more characters.")
  }

  /** What a body must carry for registration to reach the store. */
  predicate ValidRegistration(s: Services, body: Body) {
    && "firstName" in body && body["firstName"] != ""
    && "lastName" in body && body["lastName"] != ""
    && "username" in body && body["username"] != ""
    && "email" in body && s.isEmail(body["email"])
    && "password" in body && |body["password"]| >= 6
  }

  /** The record `/register` saves: the body's fields with the password hashed. */
  function NewUser(s: Services, body: Body): (u: UserRecord)
    requires ValidRegistration(s, body)
    ensures u.password == s.hash(body["password"])
    ensures u.email == body["email"] && u.username == body["username"]
  {
    UserRecord(body["firstName"], body["lastName"], body["username"], body["email"],
               s.hash(body["password"]))
  }

  const EmailExists := Response(400, ErrorBody("This user already exists."))
  const UsernameExists := Response(400, ErrorBody("A user with this username already exists"))

  /** Adding a user whose address and username are both unused keeps both unique. */
  lemma AddKeepsUnique(users: Users, id: Id, u: UserRecord)
    requires id !in users && !EmailTaken(users, u.email) && !UsernameTaken(users, u.username)
    ensures EmailsUnique(users) ==> EmailsUnique(users[id := u])
    ensures UsernamesUnique(users) ==> UsernamesUnique(users[id := u])
  {
  }

  /** `/register`: validation, a failing store, a used address, a used username, and
      otherwise the new record saved under a fresh object id with its password hashed,
      answered with a token over `{user: {id}}` valid for an hour, signed at `now`. */
  method Register(db: UserDb, s: Services, body: Body, fault: bool, freshId: Id, now: int) returns (res: Response)
    requires freshId !in db.users
    modifies db
    ensures RegisterErrors(s, body) != [] ==>
      res == Response(400, ErrorsJson(RegisterErrors(s, body))) && db.users == old(db.users)
    ensures ValidRegistration(s, body) && fault ==> res == ServerError && db.users == old(db.users)
    ensures ValidRegistration(s, body) && !fault && EmailTaken(old(db.users), body["email"]) ==>
      res == EmailExists && db.users == old(db.users)
    ensures ValidRegistration(s, body) && !fault && !EmailTaken(old(db.users), body["email"]) &&
            UsernameTaken(old(db.users), body["username"]) ==>
      res == UsernameExists && db.users == old(db.users)
    ensures ValidRegistration(s, body) && !fault && !EmailTaken(old(db.users), body["email"]) &&
            !UsernameTaken(old(db.users), body["username"]) ==>
      && db.users == old(db.users)[freshId := NewUser(s, body)]
      && res == Response(200, TokenBody(s.sign(Claims(freshId), ExpiresIn, now)))
    ensures db.users != old(db.users) <==> res.status == 200
    ensures EmailsUnique(old(db.users)) ==> EmailsUnique(db.users)
    ensures UsernamesUnique(old(db.users)) ==> UsernamesUnique(db.users)
  {
    var errors := RegisterErrors(s, body);
    if errors != [] {
      return Response(400, ErrorsJson(errors));
    }
    if fault {
      return ServerError;
    }
    if EmailTaken(db.users, body["email"]) {
      return EmailExists;
    }
    if UsernameTaken(db.users, body["username"]) {
      return UsernameExists;
    }
    var user := NewUser(s, body);
    AddKeepsUnique(db.users, freshId, user);
    db.users := db.users[freshId := user];
    assert freshId in db.users && freshId !in old(db.users);
    return Response(200, TokenBody(s.sign(Claims(freshId), ExpiresIn, now)));
  }

  /** The four profile fields `/edit` reads from the body. */
  const EditKeys := ["firstName", "lastName", "username", "email"]
  const EditKeySet := {"firstName", "lastName", "username", "email"}

  /** `const {firstName, ...} = req.body`: a missing field is undefined. */
  function Destructured(body: Body, k: string): (v: Value)
    ensures Truthy(v) <==> k in body && body[k] != ""
  {
    if k in body then Str(body[k]) else Undefined
  }

  /** `userFields`, filled by one conditional assignment per field. */
  function UserFields(body: Body): (r: map<string, string>)
    ensures forall k :: k in r <==> k in EditKeySet && k in body && body[k] != ""
    ensures forall k :: k in r ==> r[k] == body[k]
  {
    var f0: map<string, string> := map[];
    var f1 := if Truthy(Destructured(body, "firstName")) then f0["firstName" := body["firstName"]] else f0;
    var f2 := if Truthy(Destructured(body, "lastName")) then f1["lastName" := body["lastName"]] else f1;
    var f3 := if Truthy(Destructured(body, "username")) then f2["username" := body["username"]] else f2;
    if Truthy(Destructured(body, "email")) then f3["email" := body["email"]] else f3
  }

  /** `userFields` as a JavaScript object. */
  function FieldsObject(f: map<string, string>): (o: JsObject)
    ensures o.Keys == f.Keys && forall k :: k in f ==> o[k] == Str(f[k])
  {
    map k | k in f :: Str(f[k])
  }

  /** `vals.every(field => obj[field])`: each value, converted to a property key, reads
      a truthy property of the object literal, inherited ones included. */
  function Every(obj: JsObject, vals: seq<Value>): bool {
    if vals == [] then true
    else Truthy(Lookup(obj, ToJsString(vals[0]))) && Every(obj, vals[1..])
  }

  lemma EveryOfFour(obj: JsObject, a: Value, b: Value, c: Value, d: Value)
    ensures Every(obj, [a, b, c, d]) ==
      (Truthy(Lookup(obj, ToJsString(a))) && Truthy(Lookup(obj, ToJsString(b))) &&
       Truthy(Lookup(obj, ToJsString(c))) && Truthy(Lookup(obj, ToJsString(d))))
  {
    assert [a, b, c, d][1..] == [b, c, d] && [b, c, d][1..] == [c, d];
    assert [c, d][1..] == [d] && [d][1..] == [];
    assert Every(obj, [c, d]) == (Truthy(Lookup(obj, ToJsString(c))) && Every(obj, [d]));
    assert Every(obj, [d]) == Truthy(Lookup(obj, ToJsString(d)));
  }

  /** Field `k` is present, and its value names a supplied field or a member every
      object inherits. */
  predicate IndexesTruthy(body: Body, k: string) {
    k in body && (body[k] in UserFields(body) || body[k] in ObjectPrototypeNames)
  }

  /** `userFields[v]` for one destructured field value `v`. */
  lemma IndexedByValue(body: Body, k: string)
    ensures Truthy(Lookup(FieldsObject(UserFields(body)), ToJsString(Destructured(body, k)))) <==>
      IndexesTruthy(body, k)
  {
    if k !in body {
      assert ToJsString(Destructured(body, k)) == "undefined";
      assert "undefined" !in UserFields(body) && "undefined" !in ObjectPrototypeNames;
    }
  }

  /** The guard before `/edit`'s `try`: it indexes `userFields` by the field VALUES. */
  function GuardFires(body: Body): bool {
    Every(FieldsObject(UserFields(body)),
          [Destructured(body, "firstName"), Destructured(body, "lastName"),
           Destructured(body, "username"), Destructured(body, "email")])
  }

  /** The guard returns without answering exactly when each of the four values is present
      and names a supplied field or an inherited member. */
  lemma GuardFiresIff(body: Body)
    ensures GuardFires(body) <==> forall k :: k in EditKeySet ==> IndexesTruthy(body, k)
  {
    EveryOfFour(FieldsObject(UserFields(body)), Destructured(body, "firstName"), Destructured(body, "lastName"),
                Destructured(body, "username"), Destructured(body, "email"));
    IndexedByValue(body, "firstName");
    IndexedByValue(body, "lastName");
    IndexedByValue(body, "username");
    IndexedByValue(body, "email");
    EveryEditKey(body);
  }

  /** A statement about every edit key is one about each of the four. */
  lemma EveryEditKey(body: Body)
    ensures (forall k :: k in EditKeySet ==> IndexesTruthy(body, k)) <==>
      IndexesTruthy(body, "firstName") && IndexesTruthy(body, "lastName") &&
      IndexesTruthy(body, "username") && IndexesTruthy(body, "email")
  {
    if IndexesTruthy(body, "firstName") && IndexesTruthy(body, "lastName") &&
       IndexesTruthy(body, "username") && IndexesTruthy(body, "email")
    {
      forall k | k in EditKeySet ensures IndexesTruthy(body, k) {
        assert k == "firstName" || k == "lastName" || k == "username" || k == "email";
      }
    }
  }

  /** An ordinary edit, whose values are not field names, passes the guard. */
  lemma OrdinaryEditPassesGuard()
    ensures !GuardFires(map["firstName" := "Ada", "lastName" := "Lovelace",
                            "username" := "ada", "email" := "ada@example.com"])
  {
    var body := map["firstName" := "Ada", "lastName" := "Lovelace",
                    "username" := "ada", "email" := "ada@example.com"];
    assert UserFields(body) == body && "Ada" !in ObjectPrototypeNames;
    GuardFiresIff(body);
    assert !IndexesTruthy(body, "firstName");
  }

  /** A body whose every value is "email" makes the handler return without answering. */
  lemma FieldNameValuesHang()
    ensures GuardFires(map["firstName" := "email", "lastName" := "email",
                           "username" := "email", "email" := "email"])
  {
    var body := map["firstName" := "email", "lastName" := "email",
                    "username" := "email", "email" := "email"];
    GuardFiresIff(body);
    assert "email" in UserFields(body);
  }

  /** So does a body whose every value is "toString": `userFields.toString` is the
      inherited method. */
  lemma PrototypeNameValuesHang()
    ensures GuardFires(map["firstName" := "toString", "lastName" := "toString",
                           "username" := "toString", "email" := "toString"])
  {
    var body := map["firstName" := "toString", "lastName" := "toString",
                    "username" := "toString", "email" := "toString"];
    GuardFiresIff(body);
    assert "toString" in ObjectPrototypeNames;
  }

  /** `$set: userFields` on a stored record: the supplied fields replace the stored ones,
      everything else (the password hash among it) stays. */
  function Patched(u: UserRecord, f: map<string, string>): (r: UserRecord)
    ensures r.password == u.password
    ensures r.firstName == if "firstName" in f then f["firstName"] else u.firstName
    ensures r.lastName == if "lastName" in f then f["lastName"] else u.lastName
    ensures r.email == if "email" in f then f["email"] else u.email
    ensures r.username == if "username" in f then f["username"] else u.username
    ensures f == map[] ==> r == u
  {
    UserRecord(if "firstName" in f then f["firstName"] else u.firstName,
               if "lastName" in f then f["lastName"] else u.lastName,
               if "username" in f then f["username"] else u.username,
               if "email" in f then f["email"] else u.email,
               u.password)
  }

  /** `req.user.id` names this id. */
  predicate Owns(reqUser: Value, id: Id) {
    Member(reqUser, "id") == Ok(Str(id))
  }

  const EditServerError := Response(500, ErrorBody("Server error."))
  const EditNotFound := Response(404, ErrorBody("User not found."))
  const NotAuthorized := Response(401, ErrorBody("Not authorized."))
  const EmailInUse := Response(400, ErrorBody("A user with this email address already exists"))

  /** `user && user.email !== email` after `findOne({email})`. Mongoose drops a filter
      whose value is undefined, so without an address the query finds any stored user,
      and a stored address always differs from undefined. */
  predicate EmailCheckRejects(users: Users, email: Value) {
    exists id :: id in users && (email == Undefined || Str(users[id].email) == email) &&
                 Str(users[id].email) != email
  }

  predicate UsernameCheckRejects(users: Users, username: Value) {
    exists id :: id in users && (username == Undefined || Str(users[id].username) == username) &&
                 Str(users[id].username) != username
  }

  /** The two "already exists" checks of `/edit` reject exactly when their field is
      missing (and some user is stored): a record found by the supplied value always has
      that value. */
  lemma EditChecksRejectOnlyMissing(users: Users, body: Body)
    ensures EmailCheckRejects(users, Destructured(body, "email")) <==> "email" !in body && users != map[]
    ensures UsernameCheckRejects(users, Destructured(body, "username")) <==> "username" !in body && users != map[]
  {
    if users != map[] {
      var id :| id in users;
      assert Str(users[id].email) != Undefined && Str(users[id].username) != Undefined;
    }
  }

  /** `{user}` after `findByIdAndUpdate(..., {new: true})`: the updated document, with its
      password hash. */
  function UpdatedBody(id: Id, u: UserRecord): Value {
    Obj(map["user" := UserJson(id, u, true)])
  }

  /** `/edit` as written. `None` is the guard's return without an answer. */
  method Edit(db: UserDb, body: Body, queryId: Option<string>, reqUser: Value, fault: bool)
    returns (res: Option<Response>)
    modifies db
    ensures GuardFires(body) ==> res == None && db.users == old(db.users)
    ensures !GuardFires(body) && fault ==> res == Some(EditServerError) && db.users == old(db.users)
    ensures !GuardFires(body) && !fault ==>
      match FindById(old(db.users), QueryValue(queryId))
      case None => res == Some(EditNotFound) && db.users == old(db.users)
      case Some(id) =>
        if Member(reqUser, "id").Err? then res == Some(EditServerError) && db.users == old(db.users)
        else if !Owns(reqUser, id) then res == Some(NotAuthorized) && db.users == old(db.users)
        else if "email" !in body then res == Some(EmailInUse) && db.users == old(db.users)
        else if "username" !in body then res == Some(UsernameExists) && db.users == old(db.users)
        else
          && db.users == old(db.users)[id := Patched(old(db.users)[id], UserFields(body))]
          && res == Some(Response(200, UpdatedBody(id, db.users[id])))
    ensures db.users != old(db.users) ==> res.Some? && res.value.status == 200
  {
    var fields := UserFields(body);
    if GuardFires(body) {
      return None;
    }
    if fault {
      return Some(EditServerError);
    }
    match FindById(db.users, QueryValue(queryId))
    case None =>
      return Some(EditNotFound);
    case Some(id) =>
      match Member(reqUser, "id")
      case Err(_) =>
        return Some(EditServerError);
      case Ok(ownerId) =>
        if Str(id) != ownerId {
          return Some(NotAuthorized);
        }
        var email, username := Destructured(body, "email"), Destructured(body, "username");
        EditChecksRejectOnlyMissing(db.users, body);
        if EmailCheckRejects(db.users, email) {
          return Some(EmailInUse);
        }
        if UsernameCheckRejects(db.users, username) {
          return Some(UsernameExists);
        }
        var updated := Patched(db.users[id], fields);
        db.users := db.users[id := updated];
        return Some(Response(200, UpdatedBody(id, updated)));
  }

  /** Another stored user than `id` already has this address. */
  predicate EmailTakenByOther(users: Users, id: Id, email: string) {
    exists other :: other in users && other != id && users[other].email == email
  }

  predicate UsernameTakenByOther(users: Users, id: Id, username: string) {
    exists other :: other in users && other != id && users[other].username == username
  }

  /** Patching the user `id` with an address and username no other user has keeps both
      unique. */
  lemma PatchKeepsUnique(users: Users, id: Id, f: map<string, string>)
    requires id in users
    requires "email" in f ==> !EmailTakenByOther(users, id, f["email"])
    requires "username" in f ==> !UsernameTakenByOther(users, id, f["username"])
    ensures EmailsUnique(users) ==> EmailsUnique(users[id := Patched(users[id], f)])
    ensures UsernamesUnique(users) ==> UsernamesUnique(users[id := Patched(users[id], f)])
  {
  }

  /** `/edit` with the evidently intended uniqueness checks: a supplied address or
      username that another user already has is refused, and nothing is written. */
  method EditChecked(db: UserDb, body: Body, queryId: Option<string>, reqUser: Value, fault: bool)
    returns (res: Option<Response>)
    modifies db
    ensures GuardFires(body) ==> res == None && db.users == old(db.users)
    ensures !GuardFires(body) && fault ==> res == Some(EditServerError) && db.users == old(db.users)
    ensures !GuardFires(body) && !fault ==>
      match FindById(old(db.users), QueryValue(queryId))
      case None => res == Some(EditNotFound) && db.users == old(db.users)
      case Some(id) =>
        if Member(reqUser, "id").Err? then res == Some(EditServerError) && db.users == old(db.users)
        else if !Owns(reqUser, id) then res == Some(NotAuthorized) && db.users == old(db.users)
        else if "email" in UserFields(body) && EmailTakenByOther(old(db.users), id, body["email"]) then
          res == Some(EmailInUse) && db.users == old(db.users)
        else if "username" in UserFields(body) && UsernameTakenByOther(old(db.users), id, body["username"]) then
          res == Some(UsernameExists) && db.users == old(db.users)
        else
          && db.users == old(db.users)[id := Patched(old(db.users)[id], UserFields(body))]
          && res == Some(Response(200, UpdatedBody(id, db.users[id])))
    ensures db.users != old(db.users) ==> res.Some? && res.value.status == 200
    ensures EmailsUnique(old(db.users)) ==> EmailsUnique(db.users)
    ensures UsernamesUnique(old(db.users)) ==> UsernamesUnique(db.users)
  {
    var fields := UserFields(body);
    if GuardFires(body) {
      return None;
    }
    if fault {
      return Some(EditServerError);
    }
    match FindById(db.users, QueryValue(queryId))
    case None =>
      return Some(EditNotFound);
    case Some(id) =>
      match Member(reqUser, "id")
      case Err(_) =>
        return Some(EditServerError);
      case Ok(ownerId) =>
        if Str(id) != ownerId {
          return Some(NotAuthorized);
        }
        if "email" in fields && EmailTakenByOther(db.users, id, fields["email"]) {
          return Some(EmailInUse);
        }
        if "username" in fields && UsernameTakenByOther(db.users, id, fields["username"]) {
          return Some(UsernameExists);
        }
        PatchKeepsUnique(db.users, id, fields);
        var updated := Patched(db.users[id], fields);
        db.users := db.users[id := updated];
        return Some(Response(200, UpdatedBody(id, updated)));
  }

  /** The edit in `EditDuplicatesEmail`: Ada keeps her names and username and asks for
      Bob's address. */
  const TakeBobsEmail := map["firstName" := "Ada", "lastName" := "L", "username" := "ada",
                             "email" := "bob@example.com"]

  lemma TakeBobsEmailPassesGuard()
    ensures !GuardFires(TakeBobsEmail) && UserFields(TakeBobsEmail) == TakeBobsEmail
  {
    assert UserFields(TakeBobsEmail) == TakeBobsEmail;
    assert "Ada" !in ObjectPrototypeNames;
    GuardFiresIff(TakeBobsEmail);
    assert !IndexesTruthy(TakeBobsEmail, "firstName");
  }

  /** As written, `/edit` lets a user take another user's address. */
  method EditDuplicatesEmail() returns (before: Users, after: Users, res: Option<Response>)
    ensures EmailsUnique(before) && !EmailsUnique(after)
    ensures res.Some? && res.value.status == 200
  {
    before := map["a" := UserRecord("Ada", "L", "ada", "ada@example.com", "h1"),
                  "b" := UserRecord("Bob", "M", "bob", "bob@example.com", "h2")];
    var db := new UserDb(before);
    TakeBobsEmailPassesGuard();
    assert FindById(before, QueryValue(Some("a"))) == Some("a");
    var owner := Obj(map["id" := Str("a")]);
    assert Owns(owner, "a");
    res := Edit(db, TakeBobsEmail, Some("a"), owner, false);
    after := db.users;
    assert after["a"].email == after["b"].email;
  }

  /** As written, `/edit` refuses an edit that leaves the address out, claiming that the
      address is in use. */
  method EditWithoutEmailRefused() returns (res: Option<Response>)
    ensures res == Some(EmailInUse)
  {
    var users := map["a" := UserRecord("Ada", "L", "ada", "ada@example.com", "h1")];
    var db := new UserDb(users);
    var body := map["firstName" := "Ann"];
    GuardFiresIff(body);
    assert !IndexesTruthy(body, "lastName");
    res := Edit(db, body, Some("a"), Obj(map["id" := Str("a")]), false);
  }

  /** The corrected handler saves that edit: only supplied fields are checked. */
  method EditCheckedSavesPartialEdit() returns (res: Option<Response>, after: Users)
    ensures res.Some? && res.value.status == 200
    ensures "a" in after && after["a"] == UserRecord("Ann", "L", "ada", "ada@example.com", "h1")
  {
    var users := map["a" := UserRecord("Ada", "L", "ada", "ada@example.com", "h1")];
    var db := new UserDb(users);
    var body := map["firstName" := "Ann"];
    GuardFiresIff(body);
    assert !IndexesTruthy(body, "lastName");
    assert UserFields(body) == map["firstName" := "Ann"];
    res := EditChecked(db, body, Some("a"), Obj(map["id" := Str("a")]), false);
    after := db.users;
  }

  const DeleteNotFound := Response(404, ErrorBody("Could not find a user with provided id."))
  const DeleteUnauthorized := Response(401, ErrorBody("You're unauthorized to delete this account."))
  const Deleted := Response(200, Obj(map["successes" := Arr([MsgBody("User successfully deleted.")])]))

  /** `/delete`: the id errors, a failing store, an unknown id, a caller that is not that
      user; only past all of them is the record removed. */
  method Delete(db: UserDb, s: Services, id: Option<string>, reqUser: Value, fault: bool)
    returns (res: Response)
    modifies db
    ensures IdErrors(s, id) != [] ==>
      res == Response(400, ErrorsJson(IdErrors(s, id))) && db.users == old(db.users)
    ensures IdErrors(s, id) == [] && fault ==> res == ServerError && db.users == old(db.users)
    ensures IdErrors(s, id) == [] && !fault ==>
      if id.value !in old(db.users) then res == DeleteNotFound && db.users == old(db.users)
      else if Member(reqUser, "id").Err? then res == ServerError && db.users == old(db.users)
      else if !Owns(reqUser, id.value) then res == DeleteUnauthorized && db.users == old(db.users)
      else res == Deleted && db.users == old(db.users) - {id.value}
    ensures db.users != old(db.users) <==> res == Deleted
    ensures EmailsUnique(old(db.users)) ==> EmailsUnique(db.users)
    ensures UsernamesUnique(old(db.users)) ==> UsernamesUnique(db.users)
  {
    var errors := IdErrors(s, id);
    if errors != [] {
      return Response(400, ErrorsJson(errors));
    }
    if fault {
      return ServerError;
    }
    match FindById(db.users, QueryValue(id))
    case None =>
      return DeleteNotFound;
    case Some(found) =>
      match Member(reqUser, "id")
      case Err(_) =>
        return ServerError;
      case Ok(ownerId) =>
        if ownerId != Str(found) {
          return DeleteUnauthorized;
        }
        db.users := db.users - {found};
        assert found in old(db.users) && found !in db.users;
        return Deleted;
  }
}
