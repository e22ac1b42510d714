/**
 * The `/api/auth` handlers (backend/routes/auth.js): `/logged-in` answers the profile of
 * the user the token gate attached, `/login` checks credentials and answers a token.
 * Both only read the store. `fault` says that a store or hashing call throws, which the
 * handlers' `catch` answers with 500.
 */
module AuthRoutes {
  import opened Wrappers
  import opened JsValues
  import opened ServerCommon

  const UserNotFound := Response(404, ErrorBody("Could not find a user with provided id."))
  const InvalidCredentials := Response(400, ErrorBody("Invalid credentials"))

  /** `{user}` with the password hash left out (`select('-password')`). */
  function ProfileBody(id: Id, u: UserRecord): (r: Value)
    ensures r.Obj? && "user" in r.fields && r.fields["user"].Obj? && "password" !in r.fields["user"].fields
  {
    Obj(map["user" := UserJson(id, u, false)])
  }

  /** `/logged-in`: reading `req.user.id` of an absent user throws; then the lookup. */
  method LoggedIn(db: UserDb, reqUser: Value, fault: bool) returns (res: Response)
    ensures Member(reqUser, "id").Err? || fault ==> res == ServerError
    ensures Member(reqUser, "id").Ok? && !fault ==>
      match FindById(db.users, Member(reqUser, "id").value)
      case None => res == UserNotFound
      case Some(id) => res == Response(200, ProfileBody(id, db.users[id]))
    ensures res.status == 200 <==>
      !fault && Member(reqUser, "id").Ok? && FindById(db.users, Member(reqUser, "id").value).Some?
  {
    match Member(reqUser, "id")
    case Err(_) =>
      return ServerError;
    case Ok(idValue) =>
      if fault {
        return ServerError;
      }
      match FindById(db.users, idValue)
      case None =>
        return UserNotFound;
      case Some(id) =>
        return Response(200, ProfileBody(id, db.users[id]));
  }

  /** The validation chain of `/login`, in the order its validators are listed. */
  function LoginErrors(s: Services, body: Body): (r: seq<FieldError>)
    ensures r == [] <==> "email" in body && s.isEmail(body["email"]) && "password" in body
  {
    IsEmail(s, body, "email", "Please include a valid email.") +
    Exists(body, "password", "Please include a valid password.")
  }

  /** The stored user `id` has this e-mail address and its hash matches this password. */
  predicate Authenticates(users: Users, s: Services, email: string, password: string, id: Id) {
    id in users && users[id].email == email && s.compare(password, users[id].password)
  }

  /** `/login`. Validation errors come first and need no store; a failing store call
      answers 500; an unknown address and a wrong password give one and the same 400
      answer; a match answers a token over `{user: {id}}` valid for an hour. The store
      is only read. When several users share an address, `findOne` may pick any of
      them. `now` is the time of signing, in seconds. */
  method Login(db: UserDb, s: Services, body: Body, fault: bool, now: int) returns (res: Response)
    ensures LoginErrors(s, body) != [] ==> res == Response(400, ErrorsJson(LoginErrors(s, body)))
    ensures LoginErrors(s, body) == [] && fault ==> res == ServerError
    ensures LoginErrors(s, body) == [] && !fault ==>
      || res == InvalidCredentials
      || exists id :: Authenticates(db.users, s, body["email"], body["password"], id) &&
                     res == Response(200, TokenBody(s.sign(Claims(id), ExpiresIn, now)))
    ensures LoginErrors(s, body) == [] && !fault && !EmailTaken(db.users, body["email"]) ==>
      res == InvalidCredentials
    ensures LoginErrors(s, body) == [] && !fault && EmailsUnique(db.users) ==>
      (res == InvalidCredentials <==>
       !exists id :: Authenticates(db.users, s, body["email"], body["password"], id))
  {
    var errors := LoginErrors(s, body);
    if errors != [] {
      return Response(400, ErrorsJson(errors));
    }
    if fault {
      return ServerError;
    }
    var email, password := body["email"], body["password"];
    if !EmailTaken(db.users, email) {
      return InvalidCredentials;
    }
    var id :| id in db.users && db.users[id].email == email;
    if !s.compare(password, db.users[id].password) {
      assert EmailsUnique(db.users) ==> forall other :: other in db.users && db.users[other].email == email ==> other == id;
      return InvalidCredentials;
    }
    assert Authenticates(db.users, s, email, password, id);
    return Response(200, TokenBody(s.sign(Claims(id), ExpiresIn, now)));
  }
}
