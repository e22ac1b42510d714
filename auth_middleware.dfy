/**
 * The server's token gate (backend/middleware/auth.js): read `x-auth-token`, verify it,
 * and either attach the decoded user and pass the request on, or answer 401.
 */
module AuthGate {
  import opened Wrappers
  import opened JsValues
  import opened ServerCommon

  const TokenHeader := "x-auth-token"
  const NoTokenBody := MsgBody("No token, authorization denied.")
  const InvalidTokenBody := ErrorBody("Token is not valid.")

  /** The gate's decision: answer with a response, or pass on with `req.user` and `req.token`. */
  datatype Verdict = Deny(res: Response) | Pass(user: Value, token: string)

  /** The header's token when it is present and non-empty (a truthy string). */
  predicate HasToken(headers: map<string, string>) {
    TokenHeader in headers && headers[TokenHeader] != ""
  }

  /** The decision, as a function of the headers and the verifier. Reading `decoded.user`
      of a null or undefined payload throws inside the `try`, which answers as for a
      rejected token. */
  function Gate(headers: map<string, string>, verify: string -> Option<Value>): (v: Verdict)
    ensures v.Deny? ==> v.res.status == 401
    ensures v == Deny(Response(401, NoTokenBody)) <==> !HasToken(headers)
    ensures v.Pass? <==>
      HasToken(headers) && verify(headers[TokenHeader]).Some? && !Nullish(verify(headers[TokenHeader]).value)
    ensures v.Pass? ==>
      v.token == headers[TokenHeader] && v.user == Get(Spread(verify(headers[TokenHeader]).value), "user")
    ensures HasToken(headers) && v.Deny? ==> v.res.body == InvalidTokenBody
  {
    if !HasToken(headers) then Deny(Response(401, NoTokenBody))
    else
      var token := headers[TokenHeader];
      assert "errors" in InvalidTokenBody.fields && "errors" !in NoTokenBody.fields;
      match verify(token)
      case None => Deny(Response(401, InvalidTokenBody))
      case Some(decoded) =>
        match Member(decoded, "user")
        case Err(_) => Deny(Response(401, InvalidTokenBody))
        case Ok(user) => Pass(user, token)
  }

  /** Without a token the verifier plays no part in the decision: it is never called. */
  lemma NoTokenIgnoresVerify(headers: map<string, string>, v1: string -> Option<Value>, v2: string -> Option<Value>)
    requires !HasToken(headers)
    ensures Gate(headers, v1) == Gate(headers, v2) == Deny(Response(401, NoTokenBody))
  {
  }

  /** A token the server signed over `{user: {id}}` passes the gate with that user. */
  lemma SignedTokenPasses(s: Services, id: Id, issuedAt: int, headers: map<string, string>)
    requires SoundCodec(s)
    requires TokenHeader in headers && headers[TokenHeader] == s.sign(Claims(id), ExpiresIn, issuedAt)
    ensures Gate(headers, s.verify) == Pass(Obj(map["id" := Str(id)]), headers[TokenHeader])
  {
    assert s.verify(s.sign(Claims(id), ExpiresIn, issuedAt)) == Some(Claims(id));
    assert s.sign(Claims(id), ExpiresIn, issuedAt) != "";
  }

  /** The request and response objects the middleware touches. */
  class Exchange {
    var user: Value
    var token: Option<string>
    var response: Option<Response>
    /** How often `next()` has been called. */
    var nextCalls: nat

    constructor ()
      ensures user == Undefined && token == None && response == None && nextCalls == 0
    {
      user := Undefined;
      token := None;
      response := None;
      nextCalls := 0;
    }
  }

  /** The middleware: exactly one of "a response is written" and "`next` is called once". */
  method Authenticate(ex: Exchange, headers: map<string, string>, verify: string -> Option<Value>)
    requires ex.response == None
    modifies ex
    ensures match Gate(headers, verify)
      case Deny(r) =>
        ex.response == Some(r) && ex.nextCalls == old(ex.nextCalls) &&
        ex.user == old(ex.user) && ex.token == old(ex.token)
      case Pass(u, t) =>
        ex.response == None && ex.nextCalls == old(ex.nextCalls) + 1 &&
        ex.user == u && ex.token == Some(t)
    ensures ex.response.Some? != (ex.nextCalls == old(ex.nextCalls) + 1)
  {
    if !(TokenHeader in headers) || headers[TokenHeader] == "" {
      ex.response := Some(Response(401, NoTokenBody));
      return;
    }
    var token := headers[TokenHeader];
    match verify(token)
    case None =>
      ex.response := Some(Response(401, InvalidTokenBody));
    case Some(decoded) =>
      match Member(decoded, "user")
      case Err(_) =>
        ex.response := Some(Response(401, InvalidTokenBody));
      case Ok(user) =>
        ex.user := user;
        ex.token := Some(token);
        ex.nextCalls := ex.nextCalls + 1;
  }
}
