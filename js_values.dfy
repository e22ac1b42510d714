/**
 * The part of JavaScript's value semantics that the client and server code relies on:
 * truthiness, property reads that throw on null/undefined, object spread, and the
 * string conversion `localStorage.setItem` applies to what it stores.
 */
module JsValues {
  import opened Wrappers

  /** A JavaScript value. Numbers are integers here; `Ref` stands for a function or
      component reference (the icons and views in the route tables), known by its name. */
  datatype Value =
    | Undefined
    | Null
    | Bool(b: bool)
    | Num(n: int)
    | Str(s: string)
    | Arr(items: seq<Value>)
    | Obj(fields: map<string, Value>)
    | Ref(name: string)

  /** A plain object, keyed by property name. */
  type JsObject = map<string, Value>

  /** What `throw` carries: a TypeError (property read on null/undefined, calling a
      non-function) or an `Error` built with a message. */
  datatype Throw = TypeError | Error(message: string)

  predicate Nullish(v: Value) {
    v == Undefined || v == Null
  }

  /** The values `if (v)` takes the true branch on. */
  predicate Truthy(v: Value) {
    match v
    case Undefined => false
    case Null => false
    case Bool(b) => b
    case Num(n) => n != 0
    case Str(s) => s != ""
    case _ => true
  }

  /** `o[k]` on a plain object: a missing key reads as undefined. Used for reads of
      fixed keys that no object inherits. */
  function Get(o: JsObject, k: string): Value {
    if k in o then o[k] else Undefined
  }

  /** The properties every object literal inherits from `Object.prototype`. */
  const ObjectPrototypeNames: set<string> :=
    {"constructor", "hasOwnProperty", "isPrototypeOf", "propertyIsEnumerable", "toLocaleString",
     "toString", "valueOf", "__proto__", "__defineGetter__", "__defineSetter__",
     "__lookupGetter__", "__lookupSetter__"}

  /** `o[k]` on an object literal, for a key computed at run time: an own property, else
      an inherited member (a method, or the prototype itself for `__proto__`, both
      objects and so truthy), else undefined. */
  function Lookup(o: JsObject, k: string): (v: Value)
    ensures k in o ==> v == o[k]
    ensures k !in o ==> (Truthy(v) <==> k in ObjectPrototypeNames)
  {
    if k in o then o[k]
    else if k in ObjectPrototypeNames then Ref("Object.prototype." + k)
    else Undefined
  }

  function DigitChar(d: nat): char
    requires d < 10
  {
    "0123456789"[d]
  }

  /** The decimal notation of a natural number, as `String(n)` writes it. */
  function NatToString(n: nat): (r: string)
    decreases n
  {
    if n < 10 then [DigitChar(n)] else NatToString(n / 10) + [DigitChar(n % 10)]
  }

  function IntToString(n: int): string {
    if n < 0 then "-" + NatToString(-n) else NatToString(n)
  }

  predicate AllDigits(s: string) {
    forall i :: 0 <= i < |s| ==> '0' <= s[i] <= '9'
  }

  lemma {:induction false} NatToStringIsDigits(n: nat)
    ensures NatToString(n) != [] && AllDigits(NatToString(n))
    decreases n
  {
    if n >= 10 {
      NatToStringIsDigits(n / 10);
    }
  }

  /** The own enumerable properties of an array: index `i` under the key `String(i)`. */
  function IndexedItems(items: seq<Value>): JsObject
    decreases |items|
  {
    if items == [] then map[]
    else IndexedItems(items[..|items| - 1])[NatToString(|items| - 1) := items[|items| - 1]]
  }

  /** The own enumerable properties of a string: each character under its index. */
  function IndexedChars(s: string): JsObject
    decreases |s|
  {
    if s == [] then map[]
    else IndexedChars(s[..|s| - 1])[NatToString(|s| - 1) := Str([s[|s| - 1]])]
  }

  /** The properties `{...v}` copies: an object's own fields, the indexed elements of
      an array or the characters of a string, and nothing for any other value. */
  function Spread(v: Value): JsObject {
    match v
    case Obj(m) => m
    case Arr(items) => IndexedItems(items)
    case Str(s) => IndexedChars(s)
    case _ => map[]
  }

  /** A property key that is not a decimal numeral (such as "errors", "token", "user"). */
  predicate NamedKey(k: string) {
    exists i :: 0 <= i < |k| && !('0' <= k[i] <= '9')
  }

  lemma {:induction false} IndexedItemsKeys(items: seq<Value>, k: string)
    requires k in IndexedItems(items)
    ensures AllDigits(k)
    decreases |items|
  {
    if items != [] {
      var n := |items| - 1;
      if k == NatToString(n) {
        NatToStringIsDigits(n);
      } else {
        IndexedItemsKeys(items[..n], k);
      }
    }
  }

  lemma {:induction false} IndexedCharsKeys(s: string, k: string)
    requires k in IndexedChars(s)
    ensures AllDigits(k)
    decreases |s|
  {
    if s != [] {
      var n := |s| - 1;
      if k == NatToString(n) {
        NatToStringIsDigits(n);
      } else {
        IndexedCharsKeys(s[..n], k);
      }
    }
  }

  /** Spreading anything other than an object never brings in a named key: an array
      or a string contributes only index keys. */
  lemma SpreadNamedKeyOnlyFromObject(v: Value, k: string)
    requires NamedKey(k) && k in Spread(v)
    ensures v.Obj? && k in v.fields
  {
    match v
    case Arr(items) =>
      IndexedItemsKeys(items, k);
    case Str(s) =>
      IndexedCharsKeys(s, k);
    case _ =>
  }

  /** `v[k]`: reading any property of null or undefined throws a TypeError; otherwise
      the value's own property, or undefined. The `length` of arrays and strings and
      inherited properties are not modelled: the code reads fixed keys (`data`, `user`,
      `token`, `msg`, `id`, `_id`, `errors`) that no value here inherits. */
  function Member(v: Value, k: string): (r: Result<Value, Throw>)
    ensures r.Err? <==> Nullish(v)
    ensures r.Ok? ==> r.value == Get(Spread(v), k)
  {
    if Nullish(v) then Err(TypeError) else Ok(Get(Spread(v), k))
  }

  function JoinWithComma(parts: seq<string>): string
    decreases |parts|
  {
    if parts == [] then ""
    else if |parts| == 1 then parts[0]
    else parts[0] + "," + JoinWithComma(parts[1..])
  }

  /** `String(v)`, which `localStorage.setItem` applies to the value it stores. An array
      joins its elements with commas, null/undefined elements becoming empty; a
      function reference stands for its source text by its name. */
  function ToJsString(v: Value): string
    decreases v
  {
    match v
    case Undefined => "undefined"
    case Null => "null"
    case Bool(b) => if b then "true" else "false"
    case Num(n) => IntToString(n)
    case Str(s) => s
    case Arr(items) =>
      JoinWithComma(seq(|items|, i requires 0 <= i < |items| =>
        if Nullish(items[i]) then "" else ToJsString(items[i])))
    case Obj(_) => "[object Object]"
    case Ref(name) => name
  }
}
