/**
 * The token check in front of protected routes: the token is the second
 * space-separated word of the `authorization` header; a request without
 * one is refused with 401, one whose token does not verify with 403, and
 * any other gets the token's claims attached and is passed on.
 */
module AuthMiddleware {
  import opened Wrappers
  import opened Text
  import opened AuthService

  const MissingToken: string := "Access token required"
  const BadToken: string := "Invalid or expired token"

  /** `authHeader && authHeader.split(' ')[1]`, kept only when it is a non-empty text. */
  function BearerToken(header: Option<string>): (t: Option<string>)
    ensures t.Some? ==> t.value != "" && ' ' !in t.value
  {
    if !Truthy(header) then None
    else
      var parts := Split(header.value, ' ');
      if |parts| >= 2 && parts[1] != "" then Some(parts[1]) else None
  }

  /** What the check decides for a request. */
  datatype Outcome = Denied(status: nat, error: string) | Authorized(claims: Claims)

  function Decide(header: Option<string>, crypto: Crypto): Outcome
  {
    match BearerToken(header)
    case None => Denied(401, MissingToken)
    case Some(token) =>
      match VerifyToken(crypto, token)
      case None => Denied(403, BadToken)
      case Some(claims) => Authorized(claims)
  }

  /** A header of one word and a token yields the token, whatever the word is: the scheme is not checked. */
  lemma {:induction false} TokenAfterScheme(scheme: string, token: string, rest: Option<string>)
    requires ' ' !in scheme && ' ' !in token && token != ""
    ensures BearerToken(Some(scheme + " " + token)) == Some(token)
    ensures rest.Some? ==> BearerToken(Some(scheme + " " + token + " " + rest.value)) == Some(token)
  {
    SplitAfter(scheme, ' ', token);
    SplitFree(token, ' ');
    assert scheme + " " + token == scheme + [' '] + token;
    if rest.Some? {
      SplitAfter(scheme, ' ', token + " " + rest.value);
      SplitAfter(token, ' ', rest.value);
      assert scheme + " " + token + " " + rest.value == scheme + [' '] + (token + [' '] + rest.value);
    }
  }

  /** A header without a space carries no token. */
  lemma NoSpaceNoToken(header: string)
    requires ' ' !in header
    ensures BearerToken(Some(header)) == None
  {
    SplitFree(header, ' ');
  }

  /** A missing or empty header, or one without a token, is refused with 401; a token that does not verify with 403. */
  lemma DecideRefusals(header: Option<string>, crypto: Crypto)
    ensures !Truthy(header) ==> Decide(header, crypto) == Denied(401, MissingToken)
    ensures Decide(header, crypto).Denied? <==>
      BearerToken(header).None? || VerifyToken(crypto, BearerToken(header).value).None?
    ensures Decide(header, crypto).Authorized? ==>
      VerifyToken(crypto, BearerToken(header).value) == Some(Decide(header, crypto).claims)
  {
  }

  /** The token of a login, sent as `Bearer <token>`, is accepted with the account's claims when the library is sound. */
  lemma SessionAccepted(store: AdminStore, crypto: Crypto, username: string, password: string)
    requires Sound(crypto)
    requires store.AuthenticateAdmin(crypto, username, password).Some?
    requires var t := store.AuthenticateAdmin(crypto, username, password).value.token; ' ' !in t && t != ""
    ensures var s := store.AuthenticateAdmin(crypto, username, password).value;
      Decide(Some("Bearer " + s.token), crypto) == Authorized(Claims(s.user.id, username))
  {
    var s := store.AuthenticateAdmin(crypto, username, password).value;
    TokenAfterScheme("Bearer", s.token, None);
    assert "Bearer " + s.token == "Bearer" + " " + s.token;
    SessionTokenVerifies(store, crypto, username, password);
  }

  /** The parts of the incoming request the check reads and writes. */
  class AuthRequest {
    var authorization: Option<string>
    var user: Option<Claims>

    constructor(authorization: Option<string>)
      ensures this.authorization == authorization && user == None
    {
      this.authorization := authorization;
      user := None;
    }
  }

  /** The response, as far as the check writes it: a status and an error text. */
  class Response {
    var status: Option<nat>
    var error: Option<string>

    constructor()
      ensures status == None && error == None
    {
      status := None;
      error := None;
    }
  }

  /** The rest of the handler chain, counted by how often it is invoked. */
  class Next {
    var calls: nat

    constructor()
      ensures calls == 0
    {
      calls := 0;
    }

    method Call()
      modifies this
      ensures calls == old(calls) + 1
    {
      calls := calls + 1;
    }
  }

  /**
   * `authenticateToken(req, res, next)`: on refusal the response carries the
   * status and error and the chain is not invoked; on acceptance `req.user`
   * holds the claims, the response is untouched and the chain is invoked
   * exactly once.
   */
  method AuthenticateToken(req: AuthRequest, res: Response, next: Next, crypto: Crypto)
    modifies req, res, next
    ensures req.authorization == old(req.authorization)
    ensures Decide(old(req.authorization), crypto).Denied? ==>
      && res.status == Some(Decide(old(req.authorization), crypto).status)
      && res.error == Some(Decide(old(req.authorization), crypto).error)
      && req.user == old(req.user) && next.calls == old(next.calls)
    ensures Decide(old(req.authorization), crypto).Authorized? ==>
      && req.user == Some(Decide(old(req.authorization), crypto).claims)
      && res.status == old(res.status) && res.error == old(res.error)
      && next.calls == old(next.calls) + 1
  {
    var token := BearerToken(req.authorization);
    if token.None? {
      res.status, res.error := Some(401), Some(MissingToken);
      return;
    }
    var user := VerifyToken(crypto, token.value);
    if user.None? {
      res.status, res.error := Some(403), Some(BadToken);
      return;
    }
    req.user := user;
    next.Call();
  }
}
