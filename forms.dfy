/**
 * What the three views share: the alert texts, the "every field filled" test of their
 * `onSubmit` chains (`Object.values(fields).every(field => !isBlank(field))`), the form
 * sent when every check passes, and the `errors.forEach(err => setAlert(err.msg))` loop
 * of their effects.
 */
module Forms {
  import opened Wrappers
  import opened JsValues
  import opened Utils
  import opened AuthReducer
  import opened AuthStore

  const FillAllFields := "Please fill out all of the fields."
  const InvalidEmail := "Please enter a valid email address."

  /** How a submit ends: one alert, or a call of the action creator with a form. */
  datatype Submitted = Alert(message: string) | Call(form: map<string, string>)

  /** The field values of `fields` in the order `keys` lists them, the order
      `Object.values` follows (the order the initial object literal wrote them in). */
  function Values(fields: map<string, Value>, keys: seq<string>): (r: seq<Value>)
    requires forall i :: 0 <= i < |keys| ==> keys[i] in fields
    ensures |r| == |keys| && forall i :: 0 <= i < |keys| ==> r[i] == fields[keys[i]]
  {
    seq(|keys|, i requires 0 <= i < |keys| => fields[keys[i]])
  }

  /** A field passing `!isBlank(field)`. */
  predicate Filled(v: Value) {
    v.Str? && !IsBlank(v.s)
  }

  /** Where `every(field => !isBlank(field))` stops scanning `vals` from `from` on: the
      first field that is not a filled string, or the length when there is none. */
  function FirstUnfilled(vals: seq<Value>, from: nat): (n: nat)
    requires from <= |vals|
    ensures from <= n <= |vals|
    ensures forall i :: from <= i < n ==> Filled(vals[i])
    ensures n < |vals| ==> !Filled(vals[n])
    decreases |vals| - from
  {
    if from == |vals| then from
    else if !Filled(vals[from]) then from
    else FirstUnfilled(vals, from + 1)
  }

  /** `every(field => !isBlank(field))` over `vals`: it stops at the first blank field,
      and throws a TypeError at the first field that is not a string (`trim` is not a
      function of it), whichever comes first. */
  function EveryFilled(vals: seq<Value>): (r: Result<bool, Throw>)
    ensures r == Ok(true) <==> forall i :: 0 <= i < |vals| ==> Filled(vals[i])
    ensures r.Err? ==> r.error == TypeError
  {
    var n := FirstUnfilled(vals, 0);
    if n == |vals| then Ok(true)
    else if !vals[n].Str? then Err(TypeError)
    else Ok(false)
  }

  /** The test throws exactly when a non-string field comes before any blank one. */
  lemma EveryFilledThrowsAtFirstNonString(vals: seq<Value>)
    ensures EveryFilled(vals).Err? <==>
      exists i :: 0 <= i < |vals| && !vals[i].Str? && forall j :: 0 <= j < i ==> Filled(vals[j])
  {
    if EveryFilled(vals).Err? {
      ThrowsAtFirstUnfilled(vals);
    } else {
      forall i | 0 <= i < |vals| && !vals[i].Str?
        ensures exists j :: 0 <= j < i && !Filled(vals[j])
      {
        NoThrowMeansBlankFirst(vals, i);
      }
    }
  }

  lemma ThrowsAtFirstUnfilled(vals: seq<Value>)
    requires EveryFilled(vals).Err?
    ensures var n := FirstUnfilled(vals, 0);
      n < |vals| && !vals[n].Str? && forall j :: 0 <= j < n ==> Filled(vals[j])
  {
  }

  lemma NoThrowMeansBlankFirst(vals: seq<Value>, i: nat)
    requires EveryFilled(vals).Ok? && i < |vals| && !vals[i].Str?
    ensures exists j :: 0 <= j < i && !Filled(vals[j])
  {
    var n := FirstUnfilled(vals, 0);
    assert n <= i;
    assert n != i;
    assert !Filled(vals[n]);
  }

  /** A form whose every value is a string can only pass or fail the test, never throw. */
  lemma StringFieldsNeverThrow(vals: seq<Value>)
    requires forall i :: 0 <= i < |vals| ==> vals[i].Str?
    ensures EveryFilled(vals).Ok?
    ensures EveryFilled(vals) == Ok(false) <==> exists i :: 0 <= i < |vals| && IsBlank(vals[i].s)
  {
  }

  /** The object literal of strings the submit sends: each key of `keys` with its text. */
  function FormOf(fields: map<string, Value>, keys: set<string>): (r: map<string, string>)
    requires forall k :: k in keys ==> k in fields && fields[k].Str?
    ensures r.Keys == keys && forall k :: k in keys ==> Str(r[k]) == fields[k]
  {
    map k | k in keys :: fields[k].s
  }

  /** The position of the first error the alert loop cannot read `msg` from (a null or
      undefined element), or the length when there is none. */
  function FirstUnreadable(items: seq<Value>): (n: nat)
    ensures n <= |items|
    ensures forall i :: 0 <= i < n ==> !Nullish(items[i])
    ensures n < |items| ==> Nullish(items[n])
    decreases |items|
  {
    if items == [] then 0
    else if Nullish(items[0]) then 0
    else
      var n := 1 + FirstUnreadable(items[1..]);
      assert forall i :: 1 <= i < |items| ==> items[i] == items[1..][i - 1];
      n
  }

  /** `items.forEach(err => setAlert(err.msg, 'danger'))`: one alert per element, in
      order, until an element without properties throws. */
  method AlertEach(items: seq<Value>) returns (alerts: seq<Value>, threw: bool)
    ensures threw <==> FirstUnreadable(items) < |items|
    ensures |alerts| == FirstUnreadable(items)
    ensures forall i :: 0 <= i < |alerts| ==> alerts[i] == Get(Spread(items[i]), "msg")
  {
    alerts := [];
    threw := false;
    var i := 0;
    while i < |items|
      invariant 0 <= i <= |items| && i <= FirstUnreadable(items)
      invariant !threw ==> |alerts| == i
      invariant threw ==> i == FirstUnreadable(items) < |items| && |alerts| == i
      invariant forall j :: 0 <= j < |alerts| ==> alerts[j] == Get(Spread(items[j]), "msg")
      decreases |items| - i, !threw
    {
      match Member(items[i], "msg")
      case Err(_) =>
        threw := true;
        break;
      case Ok(msg) =>
        alerts := alerts + [msg];
        i := i + 1;
    }
  }

  /** The alert half of every view's effect: when `errors` is truthy, alert each message
      and then clear errors. An `errors` that is not an array has no `forEach`: the call
      throws, and nothing is alerted or cleared. `clear` says whether `clearErrors` runs. */
  method AlertErrors(errors: Value) returns (alerts: seq<Value>, clear: bool)
    ensures !errors.Arr? ==> alerts == [] && !clear
    ensures errors.Arr? ==>
      && (clear <==> FirstUnreadable(errors.items) == |errors.items|)
      && |alerts| == FirstUnreadable(errors.items)
      && forall i :: 0 <= i < |alerts| ==> alerts[i] == Get(Spread(errors.items[i]), "msg")
  {
    alerts, clear := [], false;
    if Truthy(errors) {
      if errors.Arr? {
        var threw;
        alerts, threw := AlertEach(errors.items);
        clear := !threw;
      }
    }
  }

  /** The alert half of every view's effect, run against the store: the messages it
      alerts, and CLEAR_ERRORS dispatched and reduced exactly when the loop ran to the
      end; when the loop threw, or `errors` was no array, the state is as it was. */
  method ShowErrors(store: Store) returns (alerts: seq<Value>)
    requires store.Valid()
    modifies store
    ensures var errors := Get(old(store.state), ErrorsKey);
      var cleared := errors.Arr? && FirstUnreadable(errors.items) == |errors.items|;
      && (!errors.Arr? ==> alerts == [])
      && (errors.Arr? ==>
            && |alerts| == FirstUnreadable(errors.items)
            && forall i :: 0 <= i < |alerts| ==> alerts[i] == Get(Spread(errors.items[i]), "msg"))
      && store.dispatched == old(store.dispatched) + (if cleared then [ClearErrorsAction] else [])
      && (cleared ==>
            && Reduced(store.state, store.storage) ==
                 Reduce(old(store.state), old(store.storage), ClearErrorsAction).value
            && Get(store.state, ErrorKey) == Null)
      && (!cleared ==> store.state == old(store.state))
    ensures Get(store.state, ErrorsKey) == Get(old(store.state), ErrorsKey)
    ensures store.storage == old(store.storage) && store.requests == old(store.requests)
    ensures store.axios.common == old(store.axios.common)
    ensures store.pendingLoads == old(store.pendingLoads) && store.Valid()
  {
    var clear;
    alerts, clear := AlertErrors(Get(store.state, ErrorsKey));
    if clear {
      store.ClearErrors();
    }
  }
}
