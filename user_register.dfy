/**
 * The register view (frontend/src/views/UserRegister/UserRegister.js): its six form
 * fields, the ordered checks of `onSubmit`, and the effect that redirects a signed-in
 * user and alerts the store's errors.
 */
module RegisterView {
  import opened Wrappers
  import opened JsValues
  import opened Utils
  import opened AuthReducer
  import opened AuthStore
  import opened Forms

  /** The fields in the order the initial object literal writes them. */
  const RegisterKeys := ["firstName", "lastName", "username", "email", "password", "passwordConfirmation"]
  /** What `register` is sent: every field but the confirmation. */
  const SentKeys := {"firstName", "lastName", "username", "email", "password"}

  const PasswordsDiffer := "Passwords don't match."
  const ShortPassword := "Password must be at least 6 characters."

  predicate HasFields(fields: map<string, Value>) {
    && "firstName" in fields && "lastName" in fields && "username" in fields
    && "email" in fields && "password" in fields && "passwordConfirmation" in fields
  }

  predicate AllFilled(fields: map<string, Value>)
    requires HasFields(fields)
  {
    && Filled(fields["firstName"]) && Filled(fields["lastName"]) && Filled(fields["username"])
    && Filled(fields["email"]) && Filled(fields["password"]) && Filled(fields["passwordConfirmation"])
  }

  /** The fill test over the fields in their order passes exactly when all six are filled. */
  lemma EveryFilledIsAllFilled(fields: map<string, Value>)
    requires HasFields(fields)
    ensures EveryFilled(Values(fields, RegisterKeys)) == Ok(true) <==> AllFilled(fields)
    ensures AllFilled(fields) ==> forall k :: k in SentKeys ==> k in fields && fields[k].Str?
  {
    var vals := Values(fields, RegisterKeys);
    assert vals == [fields["firstName"], fields["lastName"], fields["username"], fields["email"],
                    fields["password"], fields["passwordConfirmation"]];
    if AllFilled(fields) {
      assert forall i :: 0 <= i < |vals| ==> Filled(vals[i]) by {
        forall i | 0 <= i < |vals| ensures Filled(vals[i]) {
          assert i == 0 || i == 1 || i == 2 || i == 3 || i == 4 || i == 5;
        }
      }
    } else {
      assert !Filled(vals[0]) || !Filled(vals[1]) || !Filled(vals[2]) || !Filled(vals[3]) ||
             !Filled(vals[4]) || !Filled(vals[5]);
    }
  }

  /** `onSubmit`: blank fields, then differing passwords, then the e-mail, then the
      trimmed password length in UTF-16 code units; the first failing check alerts and
      nothing is sent. */
  function OnSubmit(fields: map<string, Value>): (r: Result<Submitted, Throw>)
    requires HasFields(fields)
    ensures r.Err? <==> EveryFilled(Values(fields, RegisterKeys)).Err?
    ensures r == Ok(Alert(FillAllFields)) <==> EveryFilled(Values(fields, RegisterKeys)) == Ok(false)
    ensures AllFilled(fields) ==>
      (r == Ok(Alert(PasswordsDiffer)) <==> fields["password"] != fields["passwordConfirmation"])
    ensures AllFilled(fields) && fields["password"] == fields["passwordConfirmation"] ==>
      (r == Ok(Alert(InvalidEmail)) <==> !ValidateEmail(fields["email"].s))
    ensures AllFilled(fields) && fields["password"] == fields["passwordConfirmation"] &&
            ValidateEmail(fields["email"].s) ==>
      (r == Ok(Alert(ShortPassword)) <==> JsLength(Trim(fields["password"].s)) < 6)
    ensures (r.Ok? && r.value.Call?) <==>
      && AllFilled(fields) && fields["password"] == fields["passwordConfirmation"]
      && ValidateEmail(fields["email"].s) && JsLength(Trim(fields["password"].s)) >= 6
    ensures r.Ok? && r.value.Call? ==>
      r.value.form.Keys == SentKeys && forall k :: k in SentKeys ==> k in fields && Str(r.value.form[k]) == fields[k]
  {
    EveryFilledIsAllFilled(fields);
    match EveryFilled(Values(fields, RegisterKeys))
    case Err(e) => Err(e)
    case Ok(filled) =>
      if !filled then Ok(Alert(FillAllFields)) else Ok(FilledChecks(fields))
  }

  /** The checks after the fill test, in order: the passwords agree, the e-mail is
      valid, the trimmed password is long enough. */
  function FilledChecks(fields: map<string, Value>): (r: Submitted)
    requires HasFields(fields) && AllFilled(fields)
    ensures r == Alert(PasswordsDiffer) <==> fields["password"] != fields["passwordConfirmation"]
    ensures fields["password"] == fields["passwordConfirmation"] ==>
      (r == Alert(InvalidEmail) <==> !ValidateEmail(fields["email"].s))
    ensures fields["password"] == fields["passwordConfirmation"] && ValidateEmail(fields["email"].s) ==>
      (r == Alert(ShortPassword) <==> JsLength(Trim(fields["password"].s)) < 6)
    ensures r.Call? <==>
      fields["password"] == fields["passwordConfirmation"] && ValidateEmail(fields["email"].s) &&
      JsLength(Trim(fields["password"].s)) >= 6
    ensures r.Call? ==>
      r.form.Keys == SentKeys && forall k :: k in SentKeys ==> k in fields && Str(r.form[k]) == fields[k]
    ensures r != Alert(FillAllFields)
  {
    EveryFilledIsAllFilled(fields);
    if fields["password"] != fields["passwordConfirmation"] then Alert(PasswordsDiffer)
    else if !ValidateEmail(fields["email"].s) then Alert(InvalidEmail)
    else if JsLength(Trim(fields["password"].s)) < 6 then Alert(ShortPassword)
    else Call(FormOf(fields, SentKeys))
  }

  /** A password of six characters, a space on either side of four letters, passes a
      raw length test but not the trimmed one `onSubmit` applies. */
  lemma PaddedPasswordIsShort()
    ensures JsLength(" abcd ") >= 6 && JsLength(Trim(" abcd ")) < 6
  {
    assert TrimStart(" abcd ") == "abcd " by {
      assert " abcd "[1..] == "abcd ";
    }
    assert TrimEnd("abcd ") == "abcd" by {
      assert "abcd "[..4] == "abcd";
    }
    BmpLengthIsCharCount(" abcd ");
    BmpLengthIsCharCount("abcd");
  }

  /** Three emoji make a long enough password: each is two code units. */
  lemma EmojiPasswordIsLongEnough()
    ensures |"\U{1F600}\U{1F600}\U{1F600}"| == 3
    ensures JsLength(Trim("\U{1F600}\U{1F600}\U{1F600}")) == 6
  {
    var p := "\U{1F600}\U{1F600}\U{1F600}";
    assert TrimStart(p) == p;
    assert TrimEnd(p) == p;
    assert p[1..] == "\U{1F600}\U{1F600}" && p[1..][1..] == "\U{1F600}" && p[1..][1..][1..] == [];
  }

  class RegisterPage {
    var fields: map<string, Value>

    /** The field object holds exactly the inputs the page renders. */
    ghost predicate Valid()
      reads this
    {
      HasFields(fields) && fields.Keys == (set k | k in RegisterKeys)
    }

    /** Every field starts empty. */
    constructor ()
      ensures Valid() && fields.Keys == set k | k in RegisterKeys
      ensures forall k :: k in fields ==> fields[k] == Str("")
    {
      fields := map["firstName" := Str(""), "lastName" := Str(""), "username" := Str(""),
                    "email" := Str(""), "password" := Str(""), "passwordConfirmation" := Str("")];
    }

    /** `onFieldChange`: one input's new text replaces its field; every input's `name`
        is one of the six inputs. */
    method FieldChange(name: string, value: string)
      requires Valid() && name in fields
      modifies this
      ensures fields == OnChange(old(fields), name, Str(value)) && Valid()
    {
      fields := OnChange(fields, name, Str(value));
    }

    /** The submit button: the alert shown, or `register` called once with the form and
        the answer `o`. */
    method Submit(store: Store, o: Outcome) returns (alert: Option<string>)
      requires HasFields(fields) && store.Valid()
      modifies store, store.axios
      ensures match OnSubmit(fields)
        case Ok(Call(form)) =>
          var acts := CredentialActions(RegisterSuccess, RegisterFail, o);
          var post := Request(POST, RegisterPath, Some(form), None, SentToken(old(store.axios.common)));
          var loads := acts != [] && o.Success?;
          && alert == None
          && store.dispatched == old(store.dispatched) + acts
          && ReduceAll(old(store.state), old(store.storage), acts).Ok?
          && Reduced(store.state, store.storage) == ReduceAll(old(store.state), old(store.storage), acts).value
          && store.requests == old(store.requests) + [post] +
               (if loads then [Request(GET, LoggedInPath, None, None, SentToken(store.axios.common))] else [])
          && store.axios.common ==
               (if loads && TruthyToken(store.storage) then old(store.axios.common)[AuthHeader := store.storage.value]
                else old(store.axios.common))
          && store.pendingLoads == old(store.pendingLoads) + (if loads then 1 else 0)
        case Ok(Alert(m)) =>
          alert == Some(m) && unchanged(store, store.axios)
        case Err(_) =>
          alert == None && unchanged(store, store.axios)
      ensures store.Valid()
    {
      var r := OnSubmit(fields);
      match r
      case Ok(Call(form)) =>
        alert := None;
        store.Register(form, o);
      case Ok(Alert(m)) =>
        alert := Some(m);
      case Err(_) =>
        alert := None;
    }

    /** The effect: a truthy `isAuthenticated` navigates to `/edit`; truthy `errors` are
        alerted and then cleared. */
    method Effect(store: Store) returns (navigate: Option<string>, alerts: seq<Value>)
      requires store.Valid()
      modifies store
      ensures navigate == if Truthy(Get(old(store.state), IsAuthenticatedKey)) then Some("/edit") else None
      ensures var errors := Get(old(store.state), ErrorsKey);
        var cleared := errors.Arr? && FirstUnreadable(errors.items) == |errors.items|;
        && (!errors.Arr? ==> alerts == [])
        && (errors.Arr? ==>
              && |alerts| == FirstUnreadable(errors.items)
              && forall i :: 0 <= i < |alerts| ==> alerts[i] == Get(Spread(errors.items[i]), "msg"))
        && store.dispatched == old(store.dispatched) + (if cleared then [ClearErrorsAction] else [])
        && (cleared ==>
              && Reduced(store.state, store.storage) ==
                   Reduce(old(store.state), old(store.storage), ClearErrorsAction).value
              && Get(store.state, ErrorKey) == Null)
        && (!cleared ==> store.state == old(store.state))
      ensures Get(store.state, ErrorsKey) == Get(old(store.state), ErrorsKey)
      ensures store.storage == old(store.storage) && store.requests == old(store.requests)
      ensures store.axios.common == old(store.axios.common)
      ensures store.pendingLoads == old(store.pendingLoads) && store.Valid()
    {
      navigate := if Truthy(Get(store.state, IsAuthenticatedKey)) then Some("/edit") else None;
      alerts := ShowErrors(store);
    }
  }
}
