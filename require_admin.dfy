/**
 * The admin bearer-token middleware (`requireAdmin`). A request is either a CORS
 * preflight, which passes straight through, or it must carry the header
 * `Authorization: Bearer <ADMIN_TOKEN>`. The configured token is a parameter; it
 * may be unset (`undefined`), in which case no header can match it.
 */
module RequireAdmin {
  import opened Js
  import opened Http

  const BearerPrefix: string := "Bearer "
  const AuthForbidden: string := "AUTH_FORBIDDEN"
  const MissingHeaderMessage: string := "缺少授权头或格式错误"
  const InvalidTokenMessage: string := "无效的管理员令牌"

  /** The 401 reply for an absent or malformed header. */
  const MissingHeaderReply: Reply := Reply(401, ErrorBody(AuthForbidden, MissingHeaderMessage))
  /** The 403 reply for a well-formed header carrying the wrong token. */
  const InvalidTokenReply: Reply := Reply(403, ErrorBody(AuthForbidden, InvalidTokenMessage))

  /** How the middleware disposes of one request. */
  datatype Decision =
    | SkipPreflight      // `next()` for an OPTIONS request; `isAdmin` is not touched
    | Reject(reply: Reply)
    | Authorized         // `isAdmin = true`, then `next()`

  /** The header is present, non-empty and begins with exactly "Bearer ". */
  ghost predicate WellFormed(authorization: Option<string>) {
    authorization.Some? && HasPrefix(authorization.value, BearerPrefix)
  }

  /** The one header value that admits a request, if a token is configured. */
  ghost predicate CarriesAdminToken(authorization: Option<string>, adminToken: Option<string>) {
    adminToken.Some? && authorization == Some(BearerPrefix + adminToken.value)
  }

  /** The token is what follows the 7-character prefix. */
  function ExtractToken(header: string): (token: string)
    requires HasPrefix(header, BearerPrefix)
    ensures header == BearerPrefix + token
  {
    Slice(header, 7)
  }

  /** The decision `requireAdmin` takes for a request with this method and header. */
  function Admit(verb: string, authorization: Option<string>, adminToken: Option<string>): (d: Decision)
    ensures d == SkipPreflight <==> verb == "OPTIONS"
    ensures d == Reject(MissingHeaderReply) <==> verb != "OPTIONS" && !WellFormed(authorization)
    ensures d == Reject(InvalidTokenReply) <==>
      verb != "OPTIONS" && WellFormed(authorization) && !CarriesAdminToken(authorization, adminToken)
    ensures d == Authorized <==> verb != "OPTIONS" && CarriesAdminToken(authorization, adminToken)
  {
    if verb == "OPTIONS" then SkipPreflight
    else if authorization.None? || authorization.value == "" || !StartsWith(authorization.value, BearerPrefix) then
      Reject(MissingHeaderReply)
    else
      var token := ExtractToken(authorization.value);
      if adminToken.None? || token != adminToken.value then Reject(InvalidTokenReply)
      else Authorized
  }

  /** What the middleware does: call `next()`, or send one reply and stop. */
  datatype Effect = CallNext | Send(reply: Reply)

  /**
   * The request object as the middleware sees it; `isAdmin` is the field it writes.
   * The field is declared but never set before the middleware, so it starts
   * `undefined`; `false` stands for that falsy value.
   */
  class AdminRequest {
    const verb: string
    const authorization: Option<string>
    var isAdmin: bool

    constructor (verb: string, authorization: Option<string>)
      ensures this.verb == verb && this.authorization == authorization
      ensures !isAdmin
    {
      this.verb := verb;
      this.authorization := authorization;
      isAdmin := false;
    }
  }

  /**
   * `requireAdmin(req, res, next)`: exactly one effect per request, and
   * `isAdmin` is set on the admitted path only.
   */
  method Middleware(req: AdminRequest, adminToken: Option<string>) returns (effect: Effect)
    modifies req
    ensures effect == CallNext <==> Admit(req.verb, req.authorization, adminToken) in {SkipPreflight, Authorized}
    ensures effect.Send? ==> Admit(req.verb, req.authorization, adminToken) == Reject(effect.reply)
    ensures req.isAdmin == (old(req.isAdmin) || Admit(req.verb, req.authorization, adminToken) == Authorized)
  {
    var d := Admit(req.verb, req.authorization, adminToken);
    match d {
      case SkipPreflight =>
        effect := CallNext;
      case Reject(reply) =>
        effect := Send(reply);
      case Authorized =>
        req.isAdmin := true;
        effect := CallNext;
    }
  }

  /** A preflight passes whatever its header and whatever the configured token. */
  lemma PreflightAlwaysPasses(authorization: Option<string>, adminToken: Option<string>)
    ensures Admit("OPTIONS", authorization, adminToken) == SkipPreflight
  {
  }

  /** Removing the prefix recovers exactly the token that was appended to it. */
  lemma TokenRoundTrip(t: string)
    ensures HasPrefix(BearerPrefix + t, BearerPrefix)
    ensures ExtractToken(BearerPrefix + t) == t
  {
  }

  /** With no admin token configured, every request that is not a preflight is refused. */
  lemma UnsetTokenRefusesAll(verb: string, authorization: Option<string>)
    requires verb != "OPTIONS"
    ensures Admit(verb, authorization, None).Reject?
  {
  }

  /**
   * The scheme match is case-sensitive and needs the trailing space: "bearer t",
   * "Bearer" and "Bearer" glued to a token are all 401.
   */
  lemma SchemeIsExact(verb: string, t: string, adminToken: Option<string>)
    requires verb != "OPTIONS"
    ensures Admit(verb, Some("bearer " + t), adminToken) == Reject(MissingHeaderReply)
    ensures Admit(verb, Some("Bearer"), adminToken) == Reject(MissingHeaderReply)
    ensures (|t| == 0 || t[0] != ' ') ==> Admit(verb, Some("Bearer" + t), adminToken) == Reject(MissingHeaderReply)
  {
    assert ("bearer " + t)[0] == 'b';
    if HasPrefix("Bearer" + t, BearerPrefix) {
      assert ("Bearer" + t)[6] == ' ';
    }
  }
}
