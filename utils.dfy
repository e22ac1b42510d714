/**
 * The client's helpers (frontend/src/utils.js): the request-header setter, the form
 * field updater, the blank test, the e-mail recogniser and the two route tables.
 */
module Utils {
  import opened Wrappers
  import opened JsValues

  /** `axios.defaults.headers.common`: the headers every later request carries. */
  class AxiosDefaults {
    var common: map<string, string>

    constructor (headers: map<string, string>)
      ensures common == headers
    {
      common := headers;
    }
  }

  const AuthHeader := "x-auth-token"

  /** Truthiness of a value read from storage (`localStorage.token`): absent or empty is falsy. */
  predicate TruthyToken(token: Option<string>) {
    token.Some? && token.value != ""
  }

  /** `setAuthToken`: a truthy token is installed under `x-auth-token`; otherwise that
      header is deleted. No other header changes. */
  method SetAuthToken(defaults: AxiosDefaults, token: Option<string>)
    modifies defaults
    ensures TruthyToken(token) ==> AuthHeader in defaults.common && defaults.common[AuthHeader] == token.value
    ensures !TruthyToken(token) ==> AuthHeader !in defaults.common
    ensures forall h :: h != AuthHeader ==>
      (h in defaults.common <==> h in old(defaults.common)) &&
      (h in defaults.common ==> defaults.common[h] == old(defaults.common)[h])
  {
    if TruthyToken(token) {
      defaults.common := defaults.common[AuthHeader := token.value];
    } else {
      defaults.common := defaults.common - {AuthHeader};
    }
  }

  /** `onChange(callback, e, state)`: the object handed to `callback` is a copy of
      `state` in which only the key `name` (e.target.name) now holds `value`. */
  function OnChange<V>(state: map<string, V>, name: string, value: V): (r: map<string, V>)
    ensures r.Keys == state.Keys + {name}
    ensures r[name] == value
    ensures forall k :: k in state && k != name ==> r[k] == state[k]
  {
    state[name := value]
  }

  // ---------------------------------------------------------------- isBlank

  /** The characters `String.prototype.trim` removes, which are also those the regular
      expression class `\s` matches: white space and line terminators. */
  predicate IsWhitespace(c: char) {
    c == '\t' || c == '\n' || c == '\U{B}' || c == '\U{C}' || c == '\r' || c == ' ' ||
    c == '\U{A0}' || c == '\U{1680}' || ('\U{2000}' <= c <= '\U{200A}') ||
    c == '\U{2028}' || c == '\U{2029}' || c == '\U{202F}' || c == '\U{205F}' ||
    c == '\U{3000}' || c == '\U{FEFF}'
  }

  predicate AllWhitespace(s: string) {
    forall i :: 0 <= i < |s| ==> IsWhitespace(s[i])
  }

  /** `trimStart`: drops white space from the front. */
  function TrimStart(s: string): string
    decreases |s|
  {
    if s != [] && IsWhitespace(s[0]) then TrimStart(s[1..]) else s
  }

  /** `trimEnd`: drops white space from the back. */
  function TrimEnd(s: string): string
    decreases |s|
  {
    if s != [] && IsWhitespace(s[|s| - 1]) then TrimEnd(s[..|s| - 1]) else s
  }

  /** Trimming the front leaves the suffix of `s` after its longest all-white-space prefix. */
  lemma {:induction false} TrimStartIsSuffix(s: string)
    ensures var r := TrimStart(s);
      && |r| <= |s| && r == s[|s| - |r|..]
      && AllWhitespace(s[..|s| - |r|])
      && (r != [] ==> !IsWhitespace(r[0]))
    decreases |s|
  {
    if s != [] && IsWhitespace(s[0]) {
      TrimStartIsSuffix(s[1..]);
      var r := TrimStart(s[1..]);
      assert s[..|s| - |r|] == [s[0]] + s[1..][..|s| - 1 - |r|];
    }
  }

  /** Trimming the back leaves the prefix of `s` before its longest all-white-space suffix. */
  lemma {:induction false} TrimEndIsPrefix(s: string)
    ensures var r := TrimEnd(s);
      && |r| <= |s| && r == s[..|r|]
      && AllWhitespace(s[|r|..])
      && (r != [] ==> !IsWhitespace(r[|r| - 1]))
    decreases |s|
  {
    if s != [] && IsWhitespace(s[|s| - 1]) {
      TrimEndIsPrefix(s[..|s| - 1]);
      var r := TrimEnd(s[..|s| - 1]);
      assert s[|r|..] == s[..|s| - 1][|r|..] + [s[|s| - 1]];
    }
  }

  /** `s.trim()` */
  function Trim(s: string): string {
    TrimEnd(TrimStart(s))
  }

  /** `isBlank`: nothing is left once surrounding white space is trimmed. */
  predicate IsBlank(s: string) {
    |Trim(s)| == 0
  }

  /** A string is blank exactly when every one of its characters is white space. */
  lemma BlankIffAllWhitespace(s: string)
    ensures IsBlank(s) <==> AllWhitespace(s)
  {
    TrimStartIsSuffix(s);
    var t := TrimStart(s);
    TrimEndIsPrefix(t);
    if t == [] {
      assert s[..|s|] == s;
    } else {
      assert !IsWhitespace(s[|s| - |t|]);
      assert !IsWhitespace(t[0]);
    }
  }

  /** Trimming keeps the characters between the first and the last non-white-space
      character, both included. */
  lemma TrimIsInfix(s: string)
    ensures exists i, j ::
      (0 <= i <= j <= |s| && Trim(s) == s[i..j] && AllWhitespace(s[..i]) && AllWhitespace(s[j..]))
  {
    TrimStartIsSuffix(s);
    var t := TrimStart(s);
    TrimEndIsPrefix(t);
    var i := |s| - |t|;
    var r := TrimEnd(t);
    assert r == s[i..i + |r|];
    assert s[i + |r|..] == t[|r|..];
  }

  // ---------------------------------------------------------------- validateEmail

  /** `s.length`: JavaScript counts UTF-16 code units, so a character beyond U+FFFF
      (a surrogate pair) counts twice. */
  function JsLength(s: string): (n: nat)
    ensures |s| <= n <= 2 * |s|
    decreases |s|
  {
    if s == [] then 0
    else (if s[0] as int >= 0x1_0000 then 2 else 1) + JsLength(s[1..])
  }

  /** Text within the Basic Multilingual Plane has one code unit per character. */
  lemma {:induction false} BmpLengthIsCharCount(s: string)
    requires forall i :: 0 <= i < |s| ==> s[i] as int < 0x1_0000
    ensures JsLength(s) == |s|
    decreases |s|
  {
    if s != [] {
      assert forall i :: 0 <= i < |s[1..]| ==> s[1..][i] == s[i + 1];
      BmpLengthIsCharCount(s[1..]);
    }
  }

  /** `length` is additive over concatenation. */
  lemma {:induction false} JsLengthAppend(a: string, b: string)
    ensures JsLength(a + b) == JsLength(a) + JsLength(b)
    decreases |a|
  {
    if a == [] {
      assert a + b == b;
    } else {
      assert (a + b)[0] == a[0] && (a + b)[1..] == a[1..] + b;
      JsLengthAppend(a[1..], b);
    }
  }

  /** ASCII lower-casing; other characters are left as they are. */
  function LowerChar(c: char): char {
    if 'A' <= c <= 'Z' then (c as int + 32) as char else c
  }

  function Lower(s: string): (r: string)
    ensures |r| == |s|
  {
    seq(|s|, i requires 0 <= i < |s| => LowerChar(s[i]))
  }

  /** `.` in a regular expression without flags: any character but a line terminator. */
  predicate IsLineTerminator(c: char) {
    c == '\n' || c == '\r' || c == '\U{2028}' || c == '\U{2029}'
  }

  // The sub-patterns of the expression are stated on the range s[lo..hi] of the
  // lower-cased address.

  /** `[^<>()[\]\\.,;:\s@"]` */
  predicate AtomChar(c: char) {
    !IsWhitespace(c) && c !in "<>()[]\\.,;:@\""
  }

  /** `[^<>()[\]\\.,;:\s@"]+` */
  predicate Atom(s: string, lo: int, hi: int)
    requires 0 <= lo <= hi <= |s|
  {
    lo < hi && forall k :: lo <= k < hi ==> AtomChar(s[k])
  }

  /** `atom(\.atom)*`: an atom, or an atom, a dot and again such a sequence. */
  predicate DotAtoms(s: string, lo: int, hi: int)
    requires 0 <= lo <= hi <= |s|
    decreases hi - lo
  {
    Atom(s, lo, hi) ||
    exists i :: lo < i < hi - 1 && s[i] == '.' && Atom(s, lo, i) && DotAtoms(s, i + 1, hi)
  }

  /** `".+"` */
  predicate QuotedString(s: string, lo: int, hi: int)
    requires 0 <= lo <= hi <= |s|
  {
    hi - lo >= 3 && s[lo] == '"' && s[hi - 1] == '"' &&
    forall k :: lo < k < hi - 1 ==> !IsLineTerminator(s[k])
  }

  /** The part before `@`. */
  predicate LocalPart(s: string, lo: int, hi: int)
    requires 0 <= lo <= hi <= |s|
  {
    DotAtoms(s, lo, hi) || QuotedString(s, lo, hi)
  }

  predicate AsciiDigit(c: char) {
    '0' <= c <= '9'
  }

  predicate AsciiLetter(c: char) {
    ('a' <= c <= 'z') || ('A' <= c <= 'Z')
  }

  /** `[0-9]{1,3}` */
  predicate DigitGroup(s: string, lo: int, hi: int)
    requires 0 <= lo <= hi <= |s|
  {
    1 <= hi - lo <= 3 && forall k :: lo <= k < hi ==> AsciiDigit(s[k])
  }

  /** `\[[0-9]{1,3}\.[0-9]{1,3}\.[0-9]{1,3}\.[0-9]{1,3}\]` */
  predicate AddressLiteral(s: string, lo: int, hi: int)
    requires 0 <= lo <= hi <= |s|
  {
    hi - lo >= 2 && s[lo] == '[' && s[hi - 1] == ']' &&
    exists a, b, c :: lo + 1 < a < b < c < hi - 1 &&
      s[a] == '.' && s[b] == '.' && s[c] == '.' &&
      DigitGroup(s, lo + 1, a) && DigitGroup(s, a + 1, b) &&
      DigitGroup(s, b + 1, c) && DigitGroup(s, c + 1, hi - 1)
  }

  /** `[a-zA-Z\-0-9]+` */
  predicate Label(s: string, lo: int, hi: int)
    requires 0 <= lo <= hi <= |s|
  {
    lo < hi && forall k :: lo <= k < hi ==> AsciiLetter(s[k]) || AsciiDigit(s[k]) || s[k] == '-'
  }

  /** `[a-zA-Z]{2,}` */
  predicate TopLabel(s: string, lo: int, hi: int)
    requires 0 <= lo <= hi <= |s|
  {
    hi - lo >= 2 && forall k :: lo <= k < hi ==> AsciiLetter(s[k])
  }

  /** `([a-zA-Z\-0-9]+\.)+[a-zA-Z]{2,}`: a dot-terminated label followed by either the
      top label or again such a sequence. */
  predicate HostName(s: string, lo: int, hi: int)
    requires 0 <= lo <= hi <= |s|
    decreases hi - lo
  {
    exists i :: lo < i < hi && s[i] == '.' && Label(s, lo, i) &&
      (TopLabel(s, i + 1, hi) || HostName(s, i + 1, hi))
  }

  /** The part after `@`. */
  predicate Domain(s: string, lo: int, hi: int)
    requires 0 <= lo <= hi <= |s|
  {
    AddressLiteral(s, lo, hi) || HostName(s, lo, hi)
  }

  /** The whole expression, anchored by `^` and `$`: some `@` splits the input into a
      local part and a domain. */
  predicate EmailPattern(s: string) {
    exists p :: 0 <= p < |s| && SplitsAt(s, p)
  }

  /** The `@` at `p` separates a local part from a domain. */
  predicate SplitsAt(s: string, p: int) {
    0 <= p < |s| && s[p] == '@' && LocalPart(s, 0, p) && Domain(s, p + 1, |s|)
  }

  /** `validateEmail`: the pattern is tested on the lower-cased address. */
  predicate ValidateEmail(email: string) {
    EmailPattern(Lower(email))
  }

  // ---------------------------------------------------------------- route tables

  /** The right-to-left name every route carries. */
  const RtlName := "\U{645}\U{644}\U{641} \U{62A}\U{639}\U{631}\U{64A}\U{641}\U{64A} \U{644}\U{644}\U{645}\U{633}\U{62A}\U{62E}\U{62F}\U{645}"

  /** A route descriptor; the icon and the view component are references. */
  function RouteEntry(path: string, name: string, icon: string, component: string): Value {
    Obj(map[
      "path" := Str(path), "name" := Str(name), "rtlName" := Str(RtlName),
      "icon" := Ref(icon), "component" := Ref(component), "layout" := Str("/admin")])
  }

  /** `notAuthenticatedRoutes` */
  const NotAuthenticatedRoutes: Value :=
    Arr([RouteEntry("/login", "Login", "BubbleChart", "UserLogin"),
         RouteEntry("/register", "Register", "Unarchive", "UserRegister")])

  /** `authenticatedRoutes` */
  const AuthenticatedRoutes: Value :=
    Arr([RouteEntry("/edit", "Edit Profile", "Person", "UserEdit")])

  /** The `path` of each route descriptor in a table. */
  function Paths(routes: Value): seq<string> {
    match routes
    case Arr(items) =>
      seq(|items|, i requires 0 <= i < |items| =>
        match items[i]
        case Obj(m) => if "path" in m && m["path"].Str? then m["path"].s else ""
        case _ => "")
    case _ => []
  }

  /** The public table offers exactly /login and /register, the private one exactly
      /edit; no path is in both. */
  lemma RouteTablesAreDisjoint()
    ensures Paths(NotAuthenticatedRoutes) == ["/login", "/register"]
    ensures Paths(AuthenticatedRoutes) == ["/edit"]
    ensures forall p :: p in Paths(NotAuthenticatedRoutes) ==> p !in Paths(AuthenticatedRoutes)
    ensures NotAuthenticatedRoutes != AuthenticatedRoutes
  {
  }
}

module EmailFacts {
  import opened Utils

  /** The position of the last `c` in `s`, or -1 when there is none. */
  function LastIndexOf(s: string, c: char): (r: int)
    ensures -1 <= r < |s|
    ensures r >= 0 ==> s[r] == c
    ensures forall i :: r < i < |s| ==> s[i] != c
    decreases |s|
  {
    if s == [] then -1
    else if s[|s| - 1] == c then |s| - 1
    else LastIndexOf(s[..|s| - 1], c)
  }

  /** No `c` in s[lo..hi]. */
  predicate Avoids(s: string, lo: int, hi: int, c: char)
    requires 0 <= lo <= hi <= |s|
  {
    forall k :: lo <= k < hi ==> s[k] != c
  }

  /** The shape of a dot-atom local part, stated character by character: non-empty, no
      white space and none of `<>()[]\,;:@"`, dots neither first, last nor doubled. */
  predicate DotAtomShape(s: string, lo: int, hi: int)
    requires 0 <= lo <= hi <= |s|
  {
    && lo < hi
    && (forall k :: lo <= k < hi ==> s[k] == '.' || AtomChar(s[k]))
    && s[lo] != '.' && s[hi - 1] != '.'
    && (forall k :: lo <= k < hi - 1 ==> s[k] == '.' ==> s[k + 1] != '.')
  }

  lemma {:induction false} DotAtomsHaveShape(s: string, lo: int, hi: int)
    requires 0 <= lo <= hi <= |s| && DotAtoms(s, lo, hi)
    ensures DotAtomShape(s, lo, hi)
    decreases hi - lo
  {
    if !Atom(s, lo, hi) {
      var i :| lo < i < hi - 1 && s[i] == '.' && Atom(s, lo, i) && DotAtoms(s, i + 1, hi);
      DotAtomsHaveShape(s, i + 1, hi);
    }
  }

  /** The first dot in s[lo..hi]. */
  function FirstDot(s: string, lo: int, hi: int): (i: int)
    requires 0 <= lo <= hi <= |s|
    requires exists j :: lo <= j < hi && s[j] == '.'
    ensures lo <= i < hi && s[i] == '.' && forall k :: lo <= k < i ==> s[k] != '.'
    decreases hi - lo
  {
    if s[lo] == '.' then lo else FirstDot(s, lo + 1, hi)
  }

  lemma {:induction false} ShapeIsDotAtoms(s: string, lo: int, hi: int)
    requires 0 <= lo <= hi <= |s| && DotAtomShape(s, lo, hi)
    ensures DotAtoms(s, lo, hi)
    decreases hi - lo
  {
    if !Atom(s, lo, hi) {
      var j :| lo <= j < hi && !AtomChar(s[j]);
      var i := FirstDot(s, lo, hi);
      assert Atom(s, lo, i);
      assert s[i + 1] != '.';
      ShapeIsDotAtoms(s, i + 1, hi);
    }
  }

  /** The dot-atom alternative is exactly the character-level shape: leading, trailing
      and doubled dots are rejected, and so are white space and the listed specials. */
  lemma DotAtomsIffShape(s: string, lo: int, hi: int)
    requires 0 <= lo <= hi <= |s|
    ensures DotAtoms(s, lo, hi) <==> DotAtomShape(s, lo, hi)
  {
    if DotAtoms(s, lo, hi) { DotAtomsHaveShape(s, lo, hi); }
    if DotAtomShape(s, lo, hi) { ShapeIsDotAtoms(s, lo, hi); }
  }

  lemma {:induction false} HostNameHasNoAt(s: string, lo: int, hi: int)
    requires 0 <= lo <= hi <= |s| && HostName(s, lo, hi)
    ensures Avoids(s, lo, hi, '@')
    decreases hi - lo
  {
    var i :| lo < i < hi && s[i] == '.' && Label(s, lo, i) && (TopLabel(s, i + 1, hi) || HostName(s, i + 1, hi));
    if !TopLabel(s, i + 1, hi) {
      HostNameHasNoAt(s, i + 1, hi);
    }
  }

  /** Neither domain form contains an `@`. */
  lemma DomainHasNoAt(s: string, lo: int, hi: int)
    requires 0 <= lo <= hi <= |s| && Domain(s, lo, hi)
    ensures Avoids(s, lo, hi, '@')
  {
    if !AddressLiteral(s, lo, hi) {
      HostNameHasNoAt(s, lo, hi);
    }
  }

  /** The recogniser, computed deterministically: split the lower-cased address at its
      LAST `@`. */
  predicate SplitAtLastAt(s: string) {
    SplitsAt(s, LastIndexOf(s, '@'))
  }

  /** The regular expression can only split at the last `@`, because the domain holds
      none; so matching it is the same as splitting there. */
  lemma EmailPatternSplitsAtLastAt(s: string)
    ensures EmailPattern(s) <==> SplitAtLastAt(s)
  {
    if EmailPattern(s) { PatternSplitsAtLastAt(s); }
    if SplitAtLastAt(s) { LastAtSplitIsPattern(s); }
  }

  lemma PatternSplitsAtLastAt(s: string)
    requires EmailPattern(s)
    ensures SplitAtLastAt(s)
  {
    var p :| 0 <= p < |s| && SplitsAt(s, p);
    DomainHasNoAt(s, p + 1, |s|);
    LastIndexOfIsUnique(s, '@', p);
  }

  /** A `c` followed by no other `c` is the last one. */
  lemma LastIndexOfIsUnique(s: string, c: char, p: int)
    requires 0 <= p < |s| && s[p] == c && Avoids(s, p + 1, |s|, c)
    ensures LastIndexOf(s, c) == p
  {
    var q := LastIndexOf(s, c);
    assert !(q < p);
  }

  lemma LastAtSplitIsPattern(s: string)
    requires SplitAtLastAt(s)
    ensures EmailPattern(s)
  {
    assert SplitsAt(s, LastIndexOf(s, '@'));
  }

  /** An accepted address has, after its last `@`, a domain holding no `@` that is a
      bracketed dotted quad or a host name, and before it a dot-atom local part of the
      listed shape or a quoted string. */
  lemma AcceptedAddressParts(email: string)
    requires ValidateEmail(email)
    ensures var s := Lower(email); var p := LastIndexOf(s, '@');
      && p >= 0
      && Avoids(s, p + 1, |s|, '@')
      && (AddressLiteral(s, p + 1, |s|) || HostName(s, p + 1, |s|))
      && (DotAtomShape(s, 0, p) || QuotedString(s, 0, p))
  {
    var s := Lower(email);
    EmailPatternSplitsAtLastAt(s);
    var p := LastIndexOf(s, '@');
    DotAtomsIffShape(s, 0, p);
  }

  /** Two strings that differ only in the case of ASCII letters. */
  predicate SameUpToCase(a: string, b: string) {
    |a| == |b| && forall i :: 0 <= i < |a| ==> LowerChar(a[i]) == LowerChar(b[i])
  }

  /** Letter case does not matter: addresses equal up to case are both accepted or
      both rejected. */
  lemma ValidateEmailIgnoresCase(a: string, b: string)
    requires SameUpToCase(a, b)
    ensures ValidateEmail(a) == ValidateEmail(b)
  {
    assert Lower(a) == Lower(b);
  }

  /** Lower-casing twice is lower-casing once, so an address and its lower-cased form
      are judged alike. */
  lemma ValidateEmailOfLowered(s: string)
    ensures ValidateEmail(Lower(s)) == ValidateEmail(s)
  {
    assert Lower(Lower(s)) == Lower(s);
  }

  lemma AcceptsSimpleAddress()
    ensures ValidateEmail("a@b.com")
  {
    var s := "a@b.com";
    assert Lower(s) == s;
    assert Atom(s, 0, 1) && LocalPart(s, 0, 1);
    assert s[3] == '.' && Label(s, 2, 3) && TopLabel(s, 4, 7);
    assert HostName(s, 2, 7);
    assert SplitsAt(s, 1);
  }

  lemma RejectsDoubledDot()
    ensures !ValidateEmail("a..b@c.com")
  {
    var s := "a..b@c.com";
    assert Lower(s) == s;
    forall p | 0 <= p < |s| && s[p] == '@' ensures !LocalPart(s, 0, p) {
      assert p == 4;
      DotAtomsIffShape(s, 0, 4);
      assert s[1] == '.' && s[2] == '.';
    }
  }
}
