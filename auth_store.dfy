/**
 * The client auth store (frontend/src/context/auth/AuthState.js): the reducer's state
 * and the storage slot, the shared axios headers, and one method per action creator.
 * An awaited request's answer is an input (`Outcome`), and the requests sent are
 * recorded in order; the render-time `if (state.loading) loadUser()` is `Render`.
 */
module AuthStore {
  import opened Wrappers
  import opened JsValues
  import opened Utils
  import opened AuthReducer

  datatype Verb = GET | POST | PUT | DELETE

  /** A request as sent: its verb and path, the form it posts, the `id` query parameter,
      and the `x-auth-token` header it carries. */
  datatype Request = Request(verb: Verb, path: string, body: Option<map<string, string>>,
                             id: Option<Value>, token: Option<string>)

  /** How an awaited request settles: `res.data` on success, `err.response` on failure
      (undefined when no response came back). */
  datatype Outcome = Success(data: Value) | Failure(response: Value)

  const LoggedInPath := "/api/auth/logged-in"
  const RegisterPath := "/api/users/register"
  const LoginPath := "/api/auth/login"
  const EditPath := "/api/users/edit"
  const DeletePath := "/api/users/delete"

  /** The state the store starts from, given what storage holds under `'token'`. */
  function InitialState(stored: Option<string>): (s: JsObject)
    ensures s.Keys == {TokenKey, IsAuthenticatedKey, UserKey, ErrorsKey, RoutesKey, LoadingKey}
    ensures Get(s, IsAuthenticatedKey) == Null && Get(s, UserKey) == Null
    ensures Get(s, ErrorsKey) == Bool(false) && Get(s, LoadingKey) == Bool(true)
    ensures RoutesFollowAuth(s) && Get(s, RoutesKey) == NotAuthenticatedRoutes
    ensures TokenMirrorsStorage(s, stored)
  {
    map[TokenKey := if stored.Some? then Str(stored.value) else Null,
        IsAuthenticatedKey := Null, UserKey := Null, ErrorsKey := Bool(false),
        RoutesKey := NotAuthenticatedRoutes, LoadingKey := Bool(true)]
  }

  /** The header value a request sent now carries. */
  function SentToken(common: map<string, string>): Option<string> {
    if AuthHeader in common then Some(common[AuthHeader]) else None
  }

  /** `err.response.data.errors`; reading it throws when the response or its data is
      null or undefined. */
  function ErrorList(response: Value): (r: Result<Value, Throw>)
    ensures r.Err? <==> Nullish(response) || Nullish(Get(Spread(response), "data"))
    ensures r.Ok? ==> r.value == Get(Spread(Get(Spread(response), "data")), ErrorsKey)
  {
    match Member(response, "data")
    case Err(e) => Err(e)
    case Ok(data) => Member(data, ErrorsKey)
  }

  /** The `catch` block: it dispatches `kind` with the error list (wrapped as `{errors}`
      when `wrap`), or throws itself and dispatches nothing. */
  function Caught(kind: ActionType, response: Value, wrap: bool): (r: seq<Action>)
    requires !kind.Unknown? && !kind.IsTokenIssue()
    ensures |r| <= 1
    ensures forall i :: 0 <= i < |r| ==> Dispatchable(r[i])
    ensures r == [] <==> ErrorList(response).Err?
    ensures r != [] ==>
      r[0] == Action(kind, if wrap then ErrorsPayload(ErrorList(response).value) else ErrorList(response).value)
  {
    match ErrorList(response)
    case Err(_) => []
    case Ok(errors) => [Action(kind, if wrap then ErrorsPayload(errors) else errors)]
  }

  /** What `loadUser` dispatches once the logged-in request settles. A success whose
      data is null or undefined throws inside `try`; that TypeError has no `response`,
      so the `catch` throws too and nothing is dispatched. */
  function LoadUserActions(o: Outcome): (r: seq<Action>)
    ensures |r| <= 1
    ensures forall i :: 0 <= i < |r| ==> Dispatchable(r[i])
    ensures r == [] <==> (o.Success? && Nullish(o.data)) || (o.Failure? && ErrorList(o.response).Err?)
    ensures o.Success? && r != [] ==> r[0] == Action(UserLoaded, Get(Spread(o.data), UserKey))
    ensures o.Failure? && r != [] ==> r[0] == Action(AuthError, ErrorList(o.response).value)
  {
    match o
    case Success(data) =>
      (match Member(data, UserKey)
       case Ok(user) => [Action(UserLoaded, user)]
       case Err(_) => [])
    case Failure(response) => Caught(AuthError, response, false)
  }

  /** What `register` (`success` = REGISTER_SUCCESS) or `login` (LOGIN_SUCCESS) dispatches:
      `{token}` on success, `{errors}` with the failure kind otherwise. */
  function CredentialActions(success: ActionType, failure: ActionType, o: Outcome): (r: seq<Action>)
    requires (success, failure) == (RegisterSuccess, RegisterFail) || (success, failure) == (LoginSuccess, LoginFail)
    ensures |r| <= 1
    ensures forall i :: 0 <= i < |r| ==> Dispatchable(r[i])
    ensures r == [] <==> (o.Success? && Nullish(o.data)) || (o.Failure? && ErrorList(o.response).Err?)
    ensures o.Success? && r != [] ==> r[0] == Action(success, TokenPayload(Get(Spread(o.data), TokenKey)))
    ensures o.Failure? && r != [] ==> r[0] == Action(failure, ErrorsPayload(ErrorList(o.response).value))
  {
    match o
    case Success(data) =>
      (match Member(data, TokenKey)
       case Ok(token) => [Action(success, TokenPayload(token))]
       case Err(_) => [])
    case Failure(response) => Caught(failure, response, true)
  }

  /** What `edit` dispatches: EDIT_SUCCESS with the returned user, or EDIT_FAIL with the
      bare error list. */
  function EditActions(o: Outcome): (r: seq<Action>)
    ensures |r| <= 1
    ensures forall i :: 0 <= i < |r| ==> Dispatchable(r[i])
    ensures r == [] <==> (o.Success? && Nullish(o.data)) || (o.Failure? && ErrorList(o.response).Err?)
    ensures o.Success? && r != [] ==> r[0] == Action(EditSuccess, Get(Spread(o.data), UserKey))
    ensures o.Failure? && r != [] ==> r[0] == Action(EditFail, ErrorList(o.response).value)
  {
    match o
    case Success(data) =>
      (match Member(data, UserKey)
       case Ok(user) => [Action(EditSuccess, user)]
       case Err(_) => [])
    case Failure(response) => Caught(EditFail, response, false)
  }

  /** What `deleteUser` dispatches: DELETE_SUCCESS with no payload whatever the answer
      holds, or DELETE_FAIL with the bare error list. */
  function DeleteActions(o: Outcome): (r: seq<Action>)
    ensures |r| <= 1
    ensures forall i :: 0 <= i < |r| ==> Dispatchable(r[i])
    ensures o.Success? ==> r == [Action(DeleteSuccess, Undefined)]
    ensures o.Failure? ==> (r == [] <==> ErrorList(o.response).Err?)
    ensures o.Failure? && r != [] ==> r[0] == Action(DeleteFail, ErrorList(o.response).value)
  {
    match o
    case Success(_) => [Action(DeleteSuccess, Undefined)]
    case Failure(response) => Caught(DeleteFail, response, false)
  }

  /** An action the reducer accepts: a handled type, and a non-nullish payload when
      the type reads `payload.token`. */
  predicate Dispatchable(a: Action) {
    !a.kind.Unknown? && (a.kind.IsTokenIssue() ==> !Nullish(a.payload))
  }

  /** A run of dispatchable actions never makes the reducer throw. */
  lemma {:induction false} DispatchableRunsReduce(s: JsObject, storage: Option<string>, actions: seq<Action>)
    requires forall i :: 0 <= i < |actions| ==> Dispatchable(actions[i])
    ensures ReduceAll(s, storage, actions).Ok?
    decreases |actions|
  {
    if actions != [] {
      var next := Reduce(s, storage, actions[0]);
      assert Dispatchable(actions[0]);
      assert forall i :: 0 <= i < |actions[1..]| ==> Dispatchable(actions[1..][i]) by {
        forall i | 0 <= i < |actions[1..]| ensures Dispatchable(actions[1..][i]) {
          assert actions[1..][i] == actions[i + 1];
        }
      }
      DispatchableRunsReduce(next.value.state, next.value.storage, actions[1..]);
    }
  }

  class Store {
    var state: JsObject
    var storage: Option<string>
    const axios: AxiosDefaults
    /** Every request sent so far, in order. */
    var requests: seq<Request>
    /** Every action dispatched so far, in order. */
    var dispatched: seq<Action>
    /** Logged-in requests sent and not yet answered. */
    var pendingLoads: nat

    ghost predicate Valid()
      reads this
    {
      RoutesFollowAuth(state)
    }

    constructor (stored: Option<string>, headers: map<string, string>)
      ensures state == InitialState(stored) && storage == stored
      ensures fresh(axios) && axios.common == headers
      ensures requests == [] && dispatched == [] && pendingLoads == 0
      ensures Valid()
    {
      state := InitialState(stored);
      storage := stored;
      axios := new AxiosDefaults(headers);
      requests := [];
      dispatched := [];
      pendingLoads := 0;
    }

    /** `dispatch`, reducing at once. */
    method Dispatch(a: Action)
      requires Valid() && Reduce(state, storage, a).Ok?
      modifies this
      ensures Reduced(state, storage) == Reduce(old(state), old(storage), a).value
      ensures dispatched == old(dispatched) + [a]
      ensures requests == old(requests) && pendingLoads == old(pendingLoads)
      ensures Valid()
    {
      ReducePreservesRoutesFollowAuth(state, storage, a);
      var r := Reduce(state, storage, a).value;
      state, storage := r.state, r.storage;
      dispatched := dispatched + [a];
    }

    /** What a settled request dispatches: nothing, or its one action. */
    method DispatchSettled(actions: seq<Action>)
      requires Valid() && |actions| <= 1 && ReduceAll(state, storage, actions).Ok?
      modifies this
      ensures Reduced(state, storage) == ReduceAll(old(state), old(storage), actions).value
      ensures dispatched == old(dispatched) + actions
      ensures requests == old(requests) && pendingLoads == old(pendingLoads)
      ensures Valid()
    {
      if actions != [] {
        ReduceAllFirst(state, storage, actions);
        assert actions == [actions[0]] && actions[1..] == [];
        Dispatch(actions[0]);
      }
    }

    /** The first half of `loadUser`, up to its `await`: a truthy stored token is
        installed as the header (a falsy one leaves the headers alone), and the
        logged-in request goes out. */
    method LoadUser()
      modifies this, axios
      ensures TruthyToken(storage) ==> axios.common == old(axios.common)[AuthHeader := storage.value]
      ensures !TruthyToken(storage) ==> axios.common == old(axios.common)
      ensures requests == old(requests) + [Request(GET, LoggedInPath, None, None, SentToken(axios.common))]
      ensures pendingLoads == old(pendingLoads) + 1
      ensures state == old(state) && storage == old(storage) && dispatched == old(dispatched)
    {
      if TruthyToken(storage) {
        SetAuthToken(axios, storage);
        assert axios.common == old(axios.common)[AuthHeader := storage.value];
      }
      requests := requests + [Request(GET, LoggedInPath, None, None, SentToken(axios.common))];
      pendingLoads := pendingLoads + 1;
    }

    /** The second half of `loadUser`: one pending logged-in request settles. */
    method LoadUserAnswered(o: Outcome)
      requires Valid() && pendingLoads > 0
      modifies this
      ensures ReduceAll(old(state), old(storage), LoadUserActions(o)).Ok?
        && Reduced(state, storage) == ReduceAll(old(state), old(storage), LoadUserActions(o)).value
      ensures dispatched == old(dispatched) + LoadUserActions(o)
      ensures requests == old(requests) && pendingLoads == old(pendingLoads) - 1
      ensures Valid()
    {
      DispatchableRunsReduce(state, storage, LoadUserActions(o));
      DispatchSettled(LoadUserActions(o));
      pendingLoads := pendingLoads - 1;
    }

    /** `register` and `login` alike: post the form, dispatch what the answer settles
        into, and on success start a load with the storage the success left. */
    method Credentials(path: string, success: ActionType, failure: ActionType,
                       form: map<string, string>, o: Outcome)
      requires Valid()
      requires (success, failure) == (RegisterSuccess, RegisterFail) || (success, failure) == (LoginSuccess, LoginFail)
      modifies this, axios
      ensures var acts := CredentialActions(success, failure, o);
        var post := Request(POST, path, Some(form), None, SentToken(old(axios.common)));
        var loads := acts != [] && o.Success?;
        && dispatched == old(dispatched) + acts
        && ReduceAll(old(state), old(storage), acts).Ok?
        && Reduced(state, storage) == ReduceAll(old(state), old(storage), acts).value
        && requests == old(requests) + [post] +
             (if loads then [Request(GET, LoggedInPath, None, None, SentToken(axios.common))] else [])
        && pendingLoads == old(pendingLoads) + (if loads then 1 else 0)
        && axios.common ==
             (if loads && TruthyToken(storage) then old(axios.common)[AuthHeader := storage.value]
              else old(axios.common))
      ensures Valid()
    {
      requests := requests + [Request(POST, path, Some(form), None, SentToken(axios.common))];
      var acts := CredentialActions(success, failure, o);
      DispatchableRunsReduce(state, storage, acts);
      DispatchSettled(acts);
      if acts != [] && o.Success? {
        LoadUser();
      }
    }

    method Register(form: map<string, string>, o: Outcome)
      requires Valid()
      modifies this, axios
      ensures var acts := CredentialActions(RegisterSuccess, RegisterFail, o);
        var post := Request(POST, RegisterPath, Some(form), None, SentToken(old(axios.common)));
        var loads := acts != [] && o.Success?;
        && dispatched == old(dispatched) + acts
        && ReduceAll(old(state), old(storage), acts).Ok?
        && Reduced(state, storage) == ReduceAll(old(state), old(storage), acts).value
        && requests == old(requests) + [post] +
             (if loads then [Request(GET, LoggedInPath, None, None, SentToken(axios.common))] else [])
        && pendingLoads == old(pendingLoads) + (if loads then 1 else 0)
        && axios.common ==
             (if loads && TruthyToken(storage) then old(axios.common)[AuthHeader := storage.value]
              else old(axios.common))
      ensures Valid()
    {
      Credentials(RegisterPath, RegisterSuccess, RegisterFail, form, o);
    }

    method Login(form: map<string, string>, o: Outcome)
      requires Valid()
      modifies this, axios
      ensures var acts := CredentialActions(LoginSuccess, LoginFail, o);
        var post := Request(POST, LoginPath, Some(form), None, SentToken(old(axios.common)));
        var loads := acts != [] && o.Success?;
        && dispatched == old(dispatched) + acts
        && ReduceAll(old(state), old(storage), acts).Ok?
        && Reduced(state, storage) == ReduceAll(old(state), old(storage), acts).value
        && requests == old(requests) + [post] +
             (if loads then [Request(GET, LoggedInPath, None, None, SentToken(axios.common))] else [])
        && pendingLoads == old(pendingLoads) + (if loads then 1 else 0)
        && axios.common ==
             (if loads && TruthyToken(storage) then old(axios.common)[AuthHeader := storage.value]
              else old(axios.common))
      ensures Valid()
    {
      Credentials(LoginPath, LoginSuccess, LoginFail, form, o);
    }

    /** `edit`: reading `state.user._id` throws when there is no user, before any request
        (`sent` is false and nothing changes); otherwise the form is put with that id. */
    method Edit(form: map<string, string>, o: Outcome) returns (sent: bool)
      requires Valid()
      modifies this
      ensures sent <==> !Nullish(Get(old(state), UserKey))
      ensures sent ==>
        && requests == old(requests) + [Request(PUT, EditPath, Some(form),
                                                Some(Get(Spread(Get(old(state), UserKey)), "_id")),
                                                SentToken(axios.common))]
        && dispatched == old(dispatched) + EditActions(o)
        && ReduceAll(old(state), old(storage), EditActions(o)).Ok?
        && Reduced(state, storage) == ReduceAll(old(state), old(storage), EditActions(o)).value
      ensures !sent ==> unchanged(this)
      ensures pendingLoads == old(pendingLoads) && Valid()
    {
      match Member(Get(state, UserKey), "_id")
      case Err(_) =>
        sent := false;
      case Ok(id) =>
        sent := true;
        requests := requests + [Request(PUT, EditPath, Some(form), Some(id), SentToken(axios.common))];
        DispatchableRunsReduce(state, storage, EditActions(o));
        DispatchSettled(EditActions(o));
    }

    /** `deleteUser`: the same `state.user._id` read, then the delete request. */
    method DeleteUser(o: Outcome) returns (sent: bool)
      requires Valid()
      modifies this
      ensures sent <==> !Nullish(Get(old(state), UserKey))
      ensures sent ==>
        && requests == old(requests) + [Request(DELETE, DeletePath, None,
                                                Some(Get(Spread(Get(old(state), UserKey)), "_id")),
                                                SentToken(axios.common))]
        && dispatched == old(dispatched) + DeleteActions(o)
        && ReduceAll(old(state), old(storage), DeleteActions(o)).Ok?
        && Reduced(state, storage) == ReduceAll(old(state), old(storage), DeleteActions(o)).value
      ensures !sent ==> unchanged(this)
      ensures pendingLoads == old(pendingLoads) && Valid()
    {
      match Member(Get(state, UserKey), "_id")
      case Err(_) =>
        sent := false;
      case Ok(id) =>
        sent := true;
        requests := requests + [Request(DELETE, DeletePath, None, Some(id), SentToken(axios.common))];
        DispatchableRunsReduce(state, storage, DeleteActions(o));
        DispatchSettled(DeleteActions(o));
    }

    /** `logout`: one LOGOUT, no request. */
    method Logout()
      requires Valid()
      modifies this
      ensures Reduced(state, storage) == Reduce(old(state), old(storage), LogoutAction).value
      ensures storage == None && SignedOut(state)
      ensures dispatched == old(dispatched) + [LogoutAction]
      ensures requests == old(requests) && pendingLoads == old(pendingLoads) && Valid()
    {
      Dispatch(LogoutAction);
    }

    /** `clearErrors`: one CLEAR_ERRORS, no request. */
    method ClearErrors()
      requires Valid()
      modifies this
      ensures Reduced(state, storage) == Reduce(old(state), old(storage), ClearErrorsAction).value
      ensures Get(state, ErrorsKey) == Get(old(state), ErrorsKey) && storage == old(storage)
      ensures dispatched == old(dispatched) + [ClearErrorsAction]
      ensures requests == old(requests) && pendingLoads == old(pendingLoads) && Valid()
    {
      Dispatch(ClearErrorsAction);
    }

    /** A render: while `loading` is truthy it starts another load. */
    method Render()
      modifies this, axios
      ensures Truthy(Get(state, LoadingKey)) ==>
        && requests == old(requests) + [Request(GET, LoggedInPath, None, None, SentToken(axios.common))]
        && pendingLoads == old(pendingLoads) + 1
        && axios.common == (if TruthyToken(storage) then old(axios.common)[AuthHeader := storage.value]
                            else old(axios.common))
      ensures !Truthy(Get(state, LoadingKey)) ==>
        requests == old(requests) && pendingLoads == old(pendingLoads) && axios.common == old(axios.common)
      ensures state == old(state) && storage == old(storage) && dispatched == old(dispatched)
    {
      if Truthy(Get(state, LoadingKey)) {
        LoadUser();
      }
    }
  }

  /** Two renders before the first answer arrives send two logged-in requests, and the
      state is still loading. */
  method RendersBeforeAnswer(stored: Option<string>) returns (loads: nat, stillLoading: bool)
    ensures loads == 2 && stillLoading
  {
    var store := new Store(stored, map[]);
    store.Render();
    store.Render();
    loads := store.pendingLoads;
    stillLoading := Truthy(Get(store.state, LoadingKey));
  }

  /** Once a USER_LOADED is reduced, renders stop sending requests: two loads were sent,
      one answer clears `loading`, and the next render sends nothing. */
  method AnswerStopsLoads(stored: Option<string>, user: Value) returns (sent: nat, pending: nat)
    ensures sent == 2 && pending == 1
  {
    var store := new Store(stored, map[]);
    store.Render();
    store.Render();
    assert |store.requests| == 2 && store.pendingLoads == 2;
    store.LoadUserAnswered(Success(Obj(map[UserKey := user])));
    assert !Truthy(Get(store.state, LoadingKey));
    store.Render();
    sent := |store.requests|;
    pending := store.pendingLoads;
  }
}
