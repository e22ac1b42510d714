/**
 * The server's handlers run one after another over one store: a new user registers,
 * signs in with the same credentials, and presents the token to `/logged-in` through
 * the token gate.
 */
module Session {
  import opened Wrappers
  import opened JsValues
  import opened ServerCommon
  import opened AuthGate
  import opened AuthRoutes
  import opened UserRoutes

  /** A stored user whose password matches signs in with a token over `{user: {id}}`,
      and that token, presented to `/logged-in` through the gate, opens the user's
      profile without its password hash. */
  method SignInThenLoggedIn(db: UserDb, s: Services, email: string, password: string, id: Id, at: int)
    returns (signedIn: Response, profile: Response)
    requires SoundCodec(s) && EmailsUnique(db.users)
    requires LoginErrors(s, map["email" := email, "password" := password]) == []
    requires Authenticates(db.users, s, email, password, id)
    ensures signedIn == Response(200, TokenBody(s.sign(Claims(id), ExpiresIn, at)))
    ensures profile == Response(200, ProfileBody(id, db.users[id]))
  {
    var credentials := map["email" := email, "password" := password];
    assert forall other :: Authenticates(db.users, s, email, password, other) ==> other == id;
    signedIn := Login(db, s, credentials, false, at);
    var token := s.sign(Claims(id), ExpiresIn, at);
    var ex := new Exchange();
    var headers := map[TokenHeader := token];
    var gated := Obj(map["id" := Str(id)]);
    SignedTokenPasses(s, id, at, headers);
    assert Gate(headers, s.verify) == Pass(gated, token);
    Authenticate(ex, headers, s.verify);
    assert ex.user == gated && Member(gated, "id") == Ok(Str(id));
    profile := LoggedIn(db, ex.user, false);
  }

  /** Registering at `registeredAt` and then signing in at `signedInAt` with the same
      credentials give tokens over the same claims `{user: {id}}` (the same token when
      both fall in the same second), and the sign-in token opens the new user's profile,
      without its password hash. */
  method SignUpThenSignIn(users: Users, s: Services, body: Body, freshId: Id,
                          registeredAt: int, signedInAt: int)
    returns (registered: Response, signedIn: Response, profile: Response)
    requires SoundCodec(s) && SoundHash(s) && EmailsUnique(users)
    requires ValidRegistration(s, body) && freshId !in users
    requires !EmailTaken(users, body["email"]) && !UsernameTaken(users, body["username"])
    ensures registered == Response(200, TokenBody(s.sign(Claims(freshId), ExpiresIn, registeredAt)))
    ensures signedIn == Response(200, TokenBody(s.sign(Claims(freshId), ExpiresIn, signedInAt)))
    ensures registeredAt == signedInAt ==> signedIn == registered
    ensures profile == Response(200, ProfileBody(freshId, NewUser(s, body)))
  {
    var db := new UserDb(users);
    registered := Register(db, s, body, false, freshId, registeredAt);
    assert db.users == users[freshId := NewUser(s, body)] && EmailsUnique(db.users);
    var email, password := body["email"], body["password"];
    assert LoginErrors(s, map["email" := email, "password" := password]) == [];
    assert Authenticates(db.users, s, email, password, freshId);
    signedIn, profile := SignInThenLoggedIn(db, s, email, password, freshId, signedInAt);
  }
}
