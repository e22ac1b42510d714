/**
 * The profile view (frontend/src/views/UserEdit/UserEdit.js): four fields initialised
 * from the signed-in user, the ordered checks of `onSubmit`, the discard, delete and
 * logout buttons, and the effect that sends a signed-out visitor to the login page.
 */
module EditView {
  import opened Wrappers
  import opened JsValues
  import opened Utils
  import opened AuthReducer
  import opened AuthStore
  import opened Forms

  /** The fields in the order the initial object literal writes them. */
  const EditKeys := ["firstName", "lastName", "username", "email"]
  const EditKeySet := {"firstName", "lastName", "username", "email"}

  predicate HasFields(fields: map<string, Value>) {
    "firstName" in fields && "lastName" in fields && "username" in fields && "email" in fields
  }

  predicate AllFilled(fields: map<string, Value>)
    requires HasFields(fields)
  {
    Filled(fields["firstName"]) && Filled(fields["lastName"]) && Filled(fields["username"]) &&
    Filled(fields["email"])
  }

  /** The initial fields, read from `user`; reading them throws when there is no user. */
  function InitialFields(user: Value): (r: Result<map<string, Value>, Throw>)
    ensures r.Err? <==> Nullish(user)
    ensures r.Ok? ==> r.value.Keys == EditKeySet && HasFields(r.value)
    ensures r.Ok? ==> forall k :: k in EditKeySet ==> r.value[k] == Get(Spread(user), k)
  {
    if Nullish(user) then Err(TypeError)
    else
      var fields := Spread(user);
      Ok(map["firstName" := Get(fields, "firstName"), "lastName" := Get(fields, "lastName"),
             "username" := Get(fields, "username"), "email" := Get(fields, "email")])
  }

  /** The fill test over the fields in their order passes exactly when all four are filled. */
  lemma EveryFilledIsAllFilled(fields: map<string, Value>)
    requires HasFields(fields)
    ensures EveryFilled(Values(fields, EditKeys)) == Ok(true) <==> AllFilled(fields)
    ensures AllFilled(fields) ==> forall k :: k in EditKeySet ==> k in fields && fields[k].Str?
  {
    var vals := Values(fields, EditKeys);
    assert vals == [fields["firstName"], fields["lastName"], fields["username"], fields["email"]];
    if AllFilled(fields) {
      assert forall i :: 0 <= i < |vals| ==> Filled(vals[i]) by {
        forall i | 0 <= i < |vals| ensures Filled(vals[i]) {
          assert i == 0 || i == 1 || i == 2 || i == 3;
        }
      }
    } else {
      assert !Filled(vals[0]) || !Filled(vals[1]) || !Filled(vals[2]) || !Filled(vals[3]);
    }
  }

  /** `onSubmit`: blank fields, then the e-mail. A field the user record lacked is not a
      string, and the blank test throws on it unless a blank field comes first. */
  function OnSubmit(fields: map<string, Value>): (r: Result<Submitted, Throw>)
    requires HasFields(fields)
    ensures r.Err? <==> EveryFilled(Values(fields, EditKeys)).Err?
    ensures r == Ok(Alert(FillAllFields)) <==> EveryFilled(Values(fields, EditKeys)) == Ok(false)
    ensures AllFilled(fields) ==> (r == Ok(Alert(InvalidEmail)) <==> !ValidateEmail(fields["email"].s))
    ensures (r.Ok? && r.value.Call?) <==> AllFilled(fields) && ValidateEmail(fields["email"].s)
    ensures r.Ok? && r.value.Call? ==>
      r.value.form.Keys == EditKeySet && forall k :: k in EditKeySet ==> k in fields && Str(r.value.form[k]) == fields[k]
  {
    EveryFilledIsAllFilled(fields);
    match EveryFilled(Values(fields, EditKeys))
    case Err(e) => Err(e)
    case Ok(filled) =>
      if !filled then Ok(Alert(FillAllFields))
      else if !ValidateEmail(fields["email"].s) then Ok(Alert(InvalidEmail))
      else Ok(Call(FormOf(fields, EditKeySet)))
  }

  /** The profile of a user whose four fields are filled strings is sent back unchanged
      when the address is well formed. */
  lemma UnchangedProfileIsSent(user: Value)
    requires InitialFields(user).Ok? && AllFilled(InitialFields(user).value)
    requires ValidateEmail(Get(Spread(user), "email").s)
    ensures var r := OnSubmit(InitialFields(user).value);
      r.Ok? && r.value.Call? && forall k :: k in EditKeySet ==> Str(r.value.form[k]) == Get(Spread(user), k)
  {
  }

  class EditPage {
    var fields: map<string, Value>

    /** The field object holds exactly the inputs the page renders. */
    ghost predicate Valid()
      reads this
    {
      HasFields(fields) && fields.Keys == EditKeySet
    }

    /** The page renders only while the store holds a user: reading `user.firstName` of
        null throws. */
    constructor (store: Store)
      requires !Nullish(Get(store.state, UserKey))
      ensures fields == InitialFields(Get(store.state, UserKey)).value && Valid()
    {
      fields := InitialFields(Get(store.state, UserKey)).value;
    }

    /** `onFieldChange`: one input's new text replaces its field; every input's `name`
        is one of the four inputs. */
    method FieldChange(name: string, value: string)
      requires Valid() && name in fields
      modifies this
      ensures fields == OnChange(old(fields), name, Str(value)) && Valid()
    {
      fields := OnChange(fields, name, Str(value));
    }

    /** `onDiscard`: the fields go back to those read from the store's current `user`. */
    method Discard(store: Store)
      requires !Nullish(Get(store.state, UserKey))
      modifies this
      ensures fields == InitialFields(Get(store.state, UserKey)).value && Valid()
    {
      fields := InitialFields(Get(store.state, UserKey)).value;
    }

    /** The update button: the alert shown, or `edit` called once with the four fields
        and the answer `o`. `sent` is false when no request went out. */
    method Submit(store: Store, o: Outcome) returns (alert: Option<string>, sent: bool)
      requires HasFields(fields) && store.Valid()
      modifies store
      ensures match OnSubmit(fields)
        case Ok(Call(form)) =>
          && alert == None
          && (sent <==> !Nullish(Get(old(store.state), UserKey)))
          && (sent ==>
                && store.requests == old(store.requests) +
                     [Request(PUT, EditPath, Some(form), Some(Get(Spread(Get(old(store.state), UserKey)), "_id")),
                              SentToken(store.axios.common))]
                && store.dispatched == old(store.dispatched) + EditActions(o)
                && ReduceAll(old(store.state), old(store.storage), EditActions(o)).Ok?
                && Reduced(store.state, store.storage) ==
                     ReduceAll(old(store.state), old(store.storage), EditActions(o)).value)
          && (!sent ==> unchanged(store))
        case Ok(Alert(m)) =>
          alert == Some(m) && !sent && unchanged(store)
        case Err(_) =>
          alert == None && !sent && unchanged(store)
      ensures store.axios.common == old(store.axios.common) && store.pendingLoads == old(store.pendingLoads)
      ensures store.Valid()
    {
      var r := OnSubmit(fields);
      match r
      case Ok(Call(form)) =>
        alert := None;
        sent := store.Edit(form, o);
      case Ok(Alert(m)) =>
        alert, sent := Some(m), false;
      case Err(_) =>
        alert, sent := None, false;
    }

    /** The delete button: `deleteUser` with no checks. */
    method Delete(store: Store, o: Outcome) returns (sent: bool)
      requires store.Valid()
      modifies store
      ensures sent <==> !Nullish(Get(old(store.state), UserKey))
      ensures sent ==>
        && store.requests == old(store.requests) +
             [Request(DELETE, DeletePath, None, Some(Get(Spread(Get(old(store.state), UserKey)), "_id")),
                      SentToken(store.axios.common))]
        && store.dispatched == old(store.dispatched) + DeleteActions(o)
        && ReduceAll(old(store.state), old(store.storage), DeleteActions(o)).Ok?
        && Reduced(store.state, store.storage) == ReduceAll(old(store.state), old(store.storage), DeleteActions(o)).value
      ensures !sent ==> unchanged(store)
      ensures store.axios.common == old(store.axios.common) && store.pendingLoads == old(store.pendingLoads)
      ensures store.Valid()
    {
      sent := store.DeleteUser(o);
    }

    /** The logout button: `logout` with no checks. */
    method Logout(store: Store)
      requires store.Valid()
      modifies store
      ensures Reduced(store.state, store.storage) == Reduce(old(store.state), old(store.storage), LogoutAction).value
      ensures store.storage == None && SignedOut(store.state)
      ensures store.dispatched == old(store.dispatched) + [LogoutAction]
      ensures store.requests == old(store.requests) && store.pendingLoads == old(store.pendingLoads)
      ensures store.axios.common == old(store.axios.common) && store.Valid()
    {
      store.Logout();
    }

    /** The effect: a falsy `isAuthenticated`, the initial null included, navigates to
        `/login`; truthy `errors` are alerted and then cleared. */
    method Effect(store: Store) returns (navigate: Option<string>, alerts: seq<Value>)
      requires store.Valid()
      modifies store
      ensures navigate == if Truthy(Get(old(store.state), IsAuthenticatedKey)) then None else Some("/login")
      ensures var errors := Get(old(store.state), ErrorsKey);
        var cleared := errors.Arr? && FirstUnreadable(errors.items) == |errors.items|;
        && (!errors.Arr? ==> alerts == [])
        && (errors.Arr? ==>
              && |alerts| == FirstUnreadable(errors.items)
              && forall i :: 0 <= i < |alerts| ==> alerts[i] == Get(Spread(errors.items[i]), "msg"))
        && store.dispatched == old(store.dispatched) + (if cleared then [ClearErrorsAction] else [])
        && (cleared ==>
              && Reduced(store.state, store.storage) ==
                   Reduce(old(store.state), old(store.storage), ClearErrorsAction).value
              && Get(store.state, ErrorKey) == Null)
        && (!cleared ==> store.state == old(store.state))
      ensures Get(store.state, ErrorsKey) == Get(old(store.state), ErrorsKey)
      ensures store.storage == old(store.storage) && store.requests == old(store.requests)
      ensures store.axios.common == old(store.axios.common)
      ensures store.pendingLoads == old(store.pendingLoads) && store.Valid()
    {
      navigate := if Truthy(Get(store.state, IsAuthenticatedKey)) then None else Some("/login");
      alerts := ShowErrors(store);
    }
  }

  /** A visitor signed in by the logged-in answer sees the profile: the view's fields
      are read from the loaded user, and its first effect leaves the page where it is. */
  method SignedInEffectStaysOnProfile(stored: Option<string>, user: Value)
    returns (fields: map<string, Value>, navigate: Option<string>)
    requires !Nullish(user)
    ensures fields == InitialFields(user).value
    ensures navigate == None
  {
    var store := new Store(stored, map[]);
    store.LoadUser();
    store.LoadUserAnswered(Success(Obj(map[UserKey := user])));
    assert Get(store.state, UserKey) == user && SignedIn(store.state);
    var page := new EditPage(store);
    fields := page.fields;
    var alerts;
    navigate, alerts := page.Effect(store);
  }
}
