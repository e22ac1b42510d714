/**
 * The client auth reducer (frontend/src/context/auth/AuthReducer.js): a closed state
 * machine over twelve action types. The state is a plain object, so the spreads and the
 * field names the code writes are modelled key by key; the one persistent storage slot
 * `'token'` is carried beside it.
 */
module AuthReducer {
  import opened Wrappers
  import opened JsValues
  import opened Utils

  /** The action types the reducer imports, plus any other `type` value. The constants
      are taken to hold their own names. */
  datatype ActionType =
    | RegisterSuccess | RegisterFail | UserLoaded | AuthError | LoginSuccess | LoginFail
    | Logout | ClearErrors | EditSuccess | EditFail | DeleteSuccess | DeleteFail
    | Unknown(name: string)
  {
    /** The types that issue or accept a token: the storage slot is overwritten. */
    predicate IsTokenIssue() {
      this == RegisterSuccess || this == LoginSuccess
    }

    /** The types that end the session: the storage slot is cleared. */
    predicate IsSessionEnd() {
      this == RegisterFail || this == LoginFail || this == AuthError || this == Logout || this == DeleteSuccess
    }

    /** The types that only replace one field. */
    predicate IsFieldUpdate() {
      this == EditSuccess || this == EditFail || this == DeleteFail || this == ClearErrors
    }
  }

  /** `{type, payload}`; an absent payload is `Undefined`. */
  datatype Action = Action(kind: ActionType, payload: Value)

  /** What the reducer hands back: the next state, and the storage slot after its
      `setItem`/`removeItem`. */
  datatype Reduced = Reduced(state: JsObject, storage: Option<string>)

  const TokenKey := "token"
  const IsAuthenticatedKey := "isAuthenticated"
  const UserKey := "user"
  const ErrorsKey := "errors"
  const RoutesKey := "routes"
  const LoadingKey := "loading"
  /** The key CLEAR_ERRORS writes. */
  const ErrorKey := "error"

  /** The fields USER_LOADED and the token-issuing branch fix after any spread. */
  predicate SignedIn(s: JsObject) {
    Get(s, IsAuthenticatedKey) == Bool(true) && Get(s, RoutesKey) == AuthenticatedRoutes &&
    Get(s, LoadingKey) == Bool(false)
  }

  /** The fields the session-ending branch fixes after the spread. */
  predicate SignedOut(s: JsObject) {
    Get(s, TokenKey) == Null && Get(s, IsAuthenticatedKey) == Bool(false) && Get(s, UserKey) == Null &&
    Get(s, RoutesKey) == NotAuthenticatedRoutes && Get(s, LoadingKey) == Bool(false)
  }

  /** `...state, ...payload`: what a key holds after spreading `payload` over `s`. */
  function Spreads(s: JsObject, payload: Value, k: string): Value {
    if k in Spread(payload) then Spread(payload)[k] else Get(s, k)
  }

  /** The USER_LOADED branch. */
  function LoadedState(s: JsObject, user: Value): (t: JsObject)
    ensures SignedIn(t) && Get(t, UserKey) == user
    ensures forall k :: k != IsAuthenticatedKey && k != UserKey && k != RoutesKey && k != LoadingKey ==>
      Get(t, k) == Get(s, k)
  {
    s + map[IsAuthenticatedKey := Bool(true), UserKey := user,
            RoutesKey := AuthenticatedRoutes, LoadingKey := Bool(false)]
  }

  /** The REGISTER_SUCCESS/LOGIN_SUCCESS branch: the fixed fields come after the spread. */
  function TokenIssuedState(s: JsObject, payload: Value): (t: JsObject)
    ensures SignedIn(t)
    ensures forall k :: k != IsAuthenticatedKey && k != RoutesKey && k != LoadingKey ==>
      Get(t, k) == Spreads(s, payload, k)
  {
    s + Spread(payload) + map[IsAuthenticatedKey := Bool(true),
                              RoutesKey := AuthenticatedRoutes, LoadingKey := Bool(false)]
  }

  /** The session-ending branch: the fixed fields come after the spread. */
  function SignedOutState(s: JsObject, payload: Value): (t: JsObject)
    ensures SignedOut(t)
    ensures forall k :: k != TokenKey && k != IsAuthenticatedKey && k != UserKey && k != RoutesKey && k != LoadingKey ==>
      Get(t, k) == Spreads(s, payload, k)
  {
    s + Spread(payload) + map[TokenKey := Null, IsAuthenticatedKey := Bool(false),
                              UserKey := Null, RoutesKey := NotAuthenticatedRoutes, LoadingKey := Bool(false)]
  }

  /** The reducer. It throws on an unknown type, and on a token-issuing action whose
      payload is null or undefined (reading `payload.token`). */
  function Reduce(s: JsObject, storage: Option<string>, a: Action): (r: Result<Reduced, Throw>)
    // Which actions throw, and with what.
    ensures r.Err? <==> a.kind.Unknown? || (a.kind.IsTokenIssue() && Nullish(a.payload))
    ensures a.kind.Unknown? ==> r == Err(Error("Unsupported type of: " + a.kind.name))
    // USER_LOADED: signed in with the payload as user; token, errors and storage kept.
    ensures a.kind == UserLoaded ==>
      && r.Ok? && SignedIn(r.value.state) && Get(r.value.state, UserKey) == a.payload
      && r.value.storage == storage
      && forall k :: k != IsAuthenticatedKey && k != UserKey && k != RoutesKey && k != LoadingKey ==>
           Get(r.value.state, k) == Get(s, k)
    // REGISTER_SUCCESS/LOGIN_SUCCESS: payload.token is stored; the payload's own keys
    // are copied, then the signed-in fields win over them.
    ensures a.kind.IsTokenIssue() && !Nullish(a.payload) ==>
      && r.Ok? && SignedIn(r.value.state)
      && r.value.storage == Some(ToJsString(Get(Spread(a.payload), TokenKey)))
      && forall k :: k != IsAuthenticatedKey && k != RoutesKey && k != LoadingKey ==>
           Get(r.value.state, k) == Spreads(s, a.payload, k)
    // The five session-ending types: storage cleared, signed-out fields whatever the payload.
    ensures a.kind.IsSessionEnd() ==>
      && r.Ok? && SignedOut(r.value.state) && r.value.storage == None
      && forall k :: k != TokenKey && k != IsAuthenticatedKey && k != UserKey && k != RoutesKey && k != LoadingKey ==>
           Get(r.value.state, k) == Spreads(s, a.payload, k)
    // EDIT_SUCCESS replaces only user; EDIT_FAIL/DELETE_FAIL only errors; CLEAR_ERRORS only `error`.
    ensures a.kind.IsFieldUpdate() ==>
      var key := if a.kind == EditSuccess then UserKey else if a.kind == ClearErrors then ErrorKey else ErrorsKey;
      && r.Ok? && r.value.storage == storage
      && Get(r.value.state, key) == (if a.kind == ClearErrors then Null else a.payload)
      && forall k :: k != key ==> Get(r.value.state, k) == Get(s, k)
  {
    match a.kind
    case UserLoaded =>
      Ok(Reduced(LoadedState(s, a.payload), storage))
    case RegisterSuccess | LoginSuccess =>
      (match Member(a.payload, TokenKey)
       case Err(e) => Err(e)
       case Ok(token) => Ok(Reduced(TokenIssuedState(s, a.payload), Some(ToJsString(token)))))
    case EditSuccess =>
      Ok(Reduced(s[UserKey := a.payload], storage))
    case EditFail | DeleteFail =>
      Ok(Reduced(s[ErrorsKey := a.payload], storage))
    case RegisterFail | LoginFail | AuthError | Logout | DeleteSuccess =>
      Ok(Reduced(SignedOutState(s, a.payload), None))
    case ClearErrors =>
      Ok(Reduced(s[ErrorKey := Null], storage))
    case Unknown(name) =>
      Err(Error("Unsupported type of: " + name))
  }

  /** LOGOUT and CLEAR_ERRORS carry no payload. */
  const LogoutAction := Action(Logout, Undefined)
  const ClearErrorsAction := Action(ClearErrors, Undefined)

  /** The signed-out fields settle: applying them again with no payload changes nothing. */
  lemma SignedOutStateSettles(s: JsObject)
    ensures SignedOutState(SignedOutState(s, Undefined), Undefined) == SignedOutState(s, Undefined)
  {
    assert Spread(Undefined) == map[];
  }

  /** Logging out twice ends where logging out once does, state and storage alike. */
  lemma LogoutIdempotent(s: JsObject, storage: Option<string>)
    ensures var once := Reduce(s, storage, LogoutAction);
      && once.Ok?
      && Reduce(once.value.state, once.value.storage, LogoutAction) == once
  {
    var once := Reduced(SignedOutState(s, Undefined), None);
    assert Reduce(s, storage, LogoutAction) == Ok(once);
    assert Reduce(once.state, once.storage, LogoutAction) == Ok(Reduced(SignedOutState(once.state, Undefined), None));
    SignedOutStateSettles(s);
  }

  /** The `{token}` payload the store sends on a successful register or login. */
  function TokenPayload(token: Value): Value {
    Obj(map[TokenKey := token])
  }

  /** A successful login followed by LOGOUT leaves no token, stored or held, and the
      public routes. */
  lemma LoginThenLogout(s: JsObject, storage: Option<string>, token: Value)
    ensures var login := Reduce(s, storage, Action(LoginSuccess, TokenPayload(token)));
      && login.Ok?
      && var out := Reduce(login.value.state, login.value.storage, LogoutAction);
      && out.Ok? && out.value.storage == None
      && Get(out.value.state, TokenKey) == Null
      && Get(out.value.state, RoutesKey) == NotAuthenticatedRoutes
  {
  }

  /** REGISTER_SUCCESS/LOGIN_SUCCESS with `{token: t}` stores `t` in both places, keeps
      user and errors, and signs in; the user itself only arrives with the USER_LOADED
      that the follow-up load produces. */
  lemma TokenIssueWithStringToken(s: JsObject, storage: Option<string>, kind: ActionType, t: string)
    requires kind.IsTokenIssue()
    ensures var r := Reduce(s, storage, Action(kind, TokenPayload(Str(t))));
      && r.Ok? && r.value.storage == Some(t)
      && Get(r.value.state, TokenKey) == Str(t)
      && Get(r.value.state, UserKey) == Get(s, UserKey)
      && Get(r.value.state, ErrorsKey) == Get(s, ErrorsKey)
      && SignedIn(r.value.state)
  {
    var r := Reduce(s, storage, Action(kind, TokenPayload(Str(t))));
    assert Spread(TokenPayload(Str(t))) == map[TokenKey := Str(t)];
    assert Spreads(s, TokenPayload(Str(t)), UserKey) == Get(s, UserKey);
    assert Spreads(s, TokenPayload(Str(t)), ErrorsKey) == Get(s, ErrorsKey);
  }

  /** The `{errors}` payload of REGISTER_FAIL and LOGIN_FAIL. */
  function ErrorsPayload(errors: Value): Value {
    Obj(map[ErrorsKey := errors])
  }

  /** REGISTER_FAIL/LOGIN_FAIL with `{errors: e}` sign out and copy `e` into `errors`. */
  lemma FailCopiesErrors(s: JsObject, storage: Option<string>, kind: ActionType, errors: Value)
    requires kind == RegisterFail || kind == LoginFail
    ensures var r := Reduce(s, storage, Action(kind, ErrorsPayload(errors)));
      && r.Ok? && SignedOut(r.value.state) && r.value.storage == None
      && Get(r.value.state, ErrorsKey) == errors
  {
    assert Spread(ErrorsPayload(errors)) == map[ErrorsKey := errors];
  }

  /** AUTH_ERROR with the bare error array signs out but leaves `errors` as it was:
      spreading an array only adds the keys "0", "1", .... */
  lemma AuthErrorKeepsErrors(s: JsObject, storage: Option<string>, items: seq<Value>)
    ensures var r := Reduce(s, storage, Action(AuthError, Arr(items)));
      && r.Ok? && SignedOut(r.value.state) && r.value.storage == None
      && Get(r.value.state, ErrorsKey) == Get(s, ErrorsKey)
  {
    assert NamedKey(ErrorsKey) by { assert !('0' <= ErrorsKey[0] <= '9'); }
    if ErrorsKey in Spread(Arr(items)) {
      SpreadNamedKeyOnlyFromObject(Arr(items), ErrorsKey);
    }
  }

  /** CLEAR_ERRORS leaves `errors` exactly as it was: it writes `error`. */
  lemma ClearErrorsKeepsErrors(s: JsObject, storage: Option<string>, payload: Value)
    ensures var r := Reduce(s, storage, Action(ClearErrors, payload));
      && r.Ok? && r.value.storage == storage
      && Get(r.value.state, ErrorsKey) == Get(s, ErrorsKey)
      && Get(r.value.state, ErrorKey) == Null
  {
  }

  /** Reducing a sequence of actions in order; the first throw ends the run. */
  function ReduceAll(s: JsObject, storage: Option<string>, actions: seq<Action>): (r: Result<Reduced, Throw>)
    decreases |actions|
  {
    if actions == [] then Ok(Reduced(s, storage))
    else
      match Reduce(s, storage, actions[0])
      case Err(e) => Err(e)
      case Ok(next) => ReduceAll(next.state, next.storage, actions[1..])
  }

  /** A run that does not throw starts with a reduction that does not throw. */
  lemma ReduceAllFirst(s: JsObject, storage: Option<string>, actions: seq<Action>)
    requires actions != [] && ReduceAll(s, storage, actions).Ok?
    ensures Reduce(s, storage, actions[0]).Ok?
    ensures var next := Reduce(s, storage, actions[0]).value;
      ReduceAll(s, storage, actions) == ReduceAll(next.state, next.storage, actions[1..])
  {
  }

  /** The routes on offer follow `isAuthenticated`: the authenticated table exactly when
      it is `true`, the public table otherwise. */
  predicate RoutesFollowAuth(s: JsObject) {
    Get(s, RoutesKey) == (if Get(s, IsAuthenticatedKey) == Bool(true) then AuthenticatedRoutes
                          else NotAuthenticatedRoutes)
  }

  /** `state.token` mirrors the storage slot: null when it is empty, the stored string otherwise. */
  predicate TokenMirrorsStorage(s: JsObject, storage: Option<string>) {
    Get(s, TokenKey) == (if storage.Some? then Str(storage.value) else Null)
  }

  /** A token-issuing action whose payload is an object holding a string token, as the
      server's `{token}` responses are; other actions qualify as they are. */
  predicate IssuesStringToken(a: Action) {
    a.kind.IsTokenIssue() ==>
      a.payload.Obj? && TokenKey in a.payload.fields && a.payload.fields[TokenKey].Str?
  }

  lemma ReducePreservesRoutesFollowAuth(s: JsObject, storage: Option<string>, a: Action)
    requires RoutesFollowAuth(s) && Reduce(s, storage, a).Ok?
    ensures RoutesFollowAuth(Reduce(s, storage, a).value.state)
  {
  }

  /** Every prefix of a run that does not throw keeps the routes invariant. */
  lemma {:induction false} ReduceAllPreservesRoutesFollowAuth(s: JsObject, storage: Option<string>, actions: seq<Action>)
    requires RoutesFollowAuth(s) && ReduceAll(s, storage, actions).Ok?
    ensures RoutesFollowAuth(ReduceAll(s, storage, actions).value.state)
    decreases |actions|
  {
    if actions != [] {
      var next := Reduce(s, storage, actions[0]).value;
      ReducePreservesRoutesFollowAuth(s, storage, actions[0]);
      ReduceAllPreservesRoutesFollowAuth(next.state, next.storage, actions[1..]);
    }
  }

  lemma ReducePreservesTokenMirror(s: JsObject, storage: Option<string>, a: Action)
    requires TokenMirrorsStorage(s, storage) && IssuesStringToken(a) && Reduce(s, storage, a).Ok?
    ensures var r := Reduce(s, storage, a).value; TokenMirrorsStorage(r.state, r.storage)
  {
    if a.kind.IsTokenIssue() {
      assert Spreads(s, a.payload, TokenKey) == a.payload.fields[TokenKey];
    }
  }

  lemma {:induction false} ReduceAllPreservesTokenMirror(s: JsObject, storage: Option<string>, actions: seq<Action>)
    requires TokenMirrorsStorage(s, storage) && ReduceAll(s, storage, actions).Ok?
    requires forall i :: 0 <= i < |actions| ==> IssuesStringToken(actions[i])
    ensures var r := ReduceAll(s, storage, actions).value; TokenMirrorsStorage(r.state, r.storage)
    decreases |actions|
  {
    if actions != [] {
      var next := Reduce(s, storage, actions[0]).value;
      ReducePreservesTokenMirror(s, storage, actions[0]);
      assert forall i :: 0 <= i < |actions[1..]| ==> IssuesStringToken(actions[1..][i]) by {
        forall i | 0 <= i < |actions[1..]| ensures IssuesStringToken(actions[1..][i]) {
          assert actions[1..][i] == actions[i + 1];
        }
      }
      ReduceAllPreservesTokenMirror(next.state, next.storage, actions[1..]);
    }
  }

  /** A truthy `loading` flag is cleared only by a type that signs in or out; every
      other type leaves it alone. */
  lemma LoadingClearedOnlyBySessionChange(s: JsObject, storage: Option<string>, a: Action)
    requires Reduce(s, storage, a).Ok?
    ensures var r := Reduce(s, storage, a).value;
      Get(r.state, LoadingKey) != Get(s, LoadingKey) ==>
        a.kind == UserLoaded || a.kind.IsTokenIssue() || a.kind.IsSessionEnd()
    ensures var r := Reduce(s, storage, a).value;
      a.kind == UserLoaded || a.kind.IsTokenIssue() || a.kind.IsSessionEnd() ==>
        Get(r.state, LoadingKey) == Bool(false)
  {
  }
}
