/**
 * The login view (frontend/src/views/UserLogin/UserLogin.js): its two form fields, the
 * two ordered checks of `onSubmit`, and the effect that redirects a signed-in user and
 * alerts the store's errors.
 */
module LoginView {
  import opened Wrappers
  import opened JsValues
  import opened Utils
  import opened AuthReducer
  import opened AuthStore
  import opened Forms

  /** The fields in the order the initial object literal writes them. */
  const LoginKeys := ["email", "password"]

  predicate HasFields(fields: map<string, Value>) {
    "email" in fields && "password" in fields
  }

  predicate AllFilled(fields: map<string, Value>)
    requires HasFields(fields)
  {
    Filled(fields["email"]) && Filled(fields["password"])
  }

  /** The fill test over the fields in their order passes exactly when both are filled. */
  lemma EveryFilledIsAllFilled(fields: map<string, Value>)
    requires HasFields(fields)
    ensures EveryFilled(Values(fields, LoginKeys)) == Ok(true) <==> AllFilled(fields)
  {
    var vals := Values(fields, LoginKeys);
    assert vals == [fields["email"], fields["password"]];
    if AllFilled(fields) {
      assert forall i :: 0 <= i < |vals| ==> Filled(vals[i]) by {
        forall i | 0 <= i < |vals| ensures Filled(vals[i]) {
          assert i == 0 || i == 1;
        }
      }
    } else {
      assert !Filled(vals[0]) || !Filled(vals[1]);
    }
  }

  /** `onSubmit`: blank fields, then the e-mail; there is no client-side password rule. */
  function OnSubmit(fields: map<string, Value>): (r: Result<Submitted, Throw>)
    requires HasFields(fields)
    ensures r.Err? <==> EveryFilled(Values(fields, LoginKeys)).Err?
    ensures r == Ok(Alert(FillAllFields)) <==> EveryFilled(Values(fields, LoginKeys)) == Ok(false)
    ensures AllFilled(fields) ==> (r == Ok(Alert(InvalidEmail)) <==> !ValidateEmail(fields["email"].s))
    ensures (r.Ok? && r.value.Call?) <==> AllFilled(fields) && ValidateEmail(fields["email"].s)
    ensures r.Ok? && r.value.Call? ==>
      r.value.form == map["email" := fields["email"].s, "password" := fields["password"].s]
  {
    EveryFilledIsAllFilled(fields);
    match EveryFilled(Values(fields, LoginKeys))
    case Err(e) => Err(e)
    case Ok(filled) =>
      if !filled then Ok(Alert(FillAllFields))
      else if !ValidateEmail(fields["email"].s) then Ok(Alert(InvalidEmail))
      else Ok(Call(FormOf(fields, {"email", "password"})))
  }

  /** Filled fields with a well-formed address are sent however short the password. */
  lemma NoPasswordLengthRule(email: string, password: string)
    requires !IsBlank(email) && !IsBlank(password) && ValidateEmail(email)
    ensures OnSubmit(map["email" := Str(email), "password" := Str(password)]) ==
      Ok(Call(map["email" := email, "password" := password]))
  {
    var fields := map["email" := Str(email), "password" := Str(password)];
    EveryFilledIsAllFilled(fields);
  }

  class LoginPage {
    var fields: map<string, Value>

    /** The field object holds exactly the inputs the page renders. */
    ghost predicate Valid()
      reads this
    {
      HasFields(fields) && fields.Keys == {"email", "password"}
    }

    /** Both fields start empty. */
    constructor ()
      ensures fields == map["email" := Str(""), "password" := Str("")] && Valid()
    {
      fields := map["email" := Str(""), "password" := Str("")];
    }

    /** `onFieldChange`: one input's new text replaces its field; every input's `name`
        is one of the two inputs. */
    method FieldChange(name: string, value: string)
      requires Valid() && name in fields
      modifies this
      ensures fields == OnChange(old(fields), name, Str(value)) && Valid()
    {
      fields := OnChange(fields, name, Str(value));
    }

    /** The submit button: the alert shown, or `login` called once with the form and the
        answer `o`. */
    method Submit(store: Store, o: Outcome) returns (alert: Option<string>)
      requires HasFields(fields) && store.Valid()
      modifies store, store.axios
      ensures match OnSubmit(fields)
        case Ok(Call(form)) =>
          var acts := CredentialActions(LoginSuccess, LoginFail, o);
          var post := Request(POST, LoginPath, Some(form), None, SentToken(old(store.axios.common)));
          var loads := acts != [] && o.Success?;
          && alert == None
          && store.dispatched == old(store.dispatched) + acts
          && ReduceAll(old(store.state), old(store.storage), acts).Ok?
          && Reduced(store.state, store.storage) == ReduceAll(old(store.state), old(store.storage), acts).value
          && store.requests == old(store.requests) + [post] +
               (if loads then [Request(GET, LoggedInPath, None, None, SentToken(store.axios.common))] else [])
          && store.axios.common ==
               (if loads && TruthyToken(store.storage) then old(store.axios.common)[AuthHeader := store.storage.value]
                else old(store.axios.common))
          && store.pendingLoads == old(store.pendingLoads) + (if loads then 1 else 0)
        case Ok(Alert(m)) =>
          alert == Some(m) && unchanged(store, store.axios)
        case Err(_) =>
          alert == None && unchanged(store, store.axios)
      ensures store.Valid()
    {
      var r := OnSubmit(fields);
      match r
      case Ok(Call(form)) =>
        alert := None;
        store.Login(form, o);
      case Ok(Alert(m)) =>
        alert := Some(m);
      case Err(_) =>
        alert := None;
    }

    /** The effect: a truthy `isAuthenticated` navigates to `/edit`; truthy `errors` are
        alerted and then cleared. */
    method Effect(store: Store) returns (navigate: Option<string>, alerts: seq<Value>)
      requires store.Valid()
      modifies store
      ensures navigate == if Truthy(Get(old(store.state), IsAuthenticatedKey)) then Some("/edit") else None
      ensures var errors := Get(old(store.state), ErrorsKey);
        var cleared := errors.Arr? && FirstUnreadable(errors.items) == |errors.items|;
        && (!errors.Arr? ==> alerts == [])
        && (errors.Arr? ==>
              && |alerts| == FirstUnreadable(errors.items)
              && forall i :: 0 <= i < |alerts| ==> alerts[i] == Get(Spread(errors.items[i]), "msg"))
        && store.dispatched == old(store.dispatched) + (if cleared then [ClearErrorsAction] else [])
        && (cleared ==>
              && Reduced(store.state, store.storage) ==
                   Reduce(old(store.state), old(store.storage), ClearErrorsAction).value
              && Get(store.state, ErrorKey) == Null)
        && (!cleared ==> store.state == old(store.state))
      ensures Get(store.state, ErrorsKey) == Get(old(store.state), ErrorsKey)
      ensures store.storage == old(store.storage) && store.requests == old(store.requests)
      ensures store.axios.common == old(store.axios.common)
      ensures store.pendingLoads == old(store.pendingLoads) && store.Valid()
    {
      navigate := if Truthy(Get(store.state, IsAuthenticatedKey)) then Some("/edit") else None;
      alerts := ShowErrors(store);
    }
  }
}
