/**
 * The request guards of server/src/middleware/auth.js: where the session token is taken
 * from, and which verified token payloads pass `requireAuth`, `requireAdmin` and
 * `requireSuperAdmin`. Verifying and decoding a JWT is a parameter `verify` of the guards:
 * it yields the payload for a valid token and nothing for an invalid or expired one.
 */
module Auth {
  import opened Wrappers
  import opened Text

  /** A user id as a token carries it: the numeric id of a users row, or a text id. */
  datatype Id = Num(n: nat) | Str(s: string)

  /** The environment-configured super admin is not a users row; its id is this text. */
  const SuperAdminId: Id := Str("super-admin")

  /** JavaScript truthiness of an optional id: present, and neither 0 nor the empty string. */
  predicate IdTruthy(id: Option<Id>) {
    id.Some? && (if id.value.Num? then id.value.n != 0 else id.value.s != "")
  }

  /** The fields of a verified token payload that the guards and routes look at. */
  datatype Payload = Payload(id: Option<Id>, role: Option<string>, isSuperAdmin: bool)

  /** The parts of a request where a token can travel: the Authorization header and the `token` cookie. */
  datatype Request = Request(authorization: Option<string>, cookieToken: Option<string>)

  /** A guard's outcome: the request goes on with the verified payload as `req.user`, or is answered with a status. */
  datatype Decision = Pass(user: Payload) | Deny(status: int)

  const Unauthorized: int := 401
  const Forbidden: int := 403

  const Bearer: string := "Bearer "

  predicate IsBearer(authorization: Option<string>) {
    authorization.Some? && StartsWith(authorization.value, Bearer)
  }

  /**
   * `getTokenFromReq`: the remainder of an Authorization header after its `Bearer ` prefix;
   * failing that a non-empty `token` cookie; failing that nothing.
   */
  function GetToken(req: Request): (t: Option<string>)
    ensures IsBearer(req.authorization) ==> t.Some? && req.authorization.value == Bearer + t.value
    ensures !IsBearer(req.authorization) ==> t == (if req.cookieToken.Some? && req.cookieToken.value != "" then req.cookieToken else None)
  {
    if IsBearer(req.authorization) then
      var a := req.authorization.value;
      assert a == a[..7] + a[7..];
      Some(a[7..])
    else if req.cookieToken.Some? && req.cookieToken.value != "" then req.cookieToken
    else None
  }

  /** A bearer header carrying `token` yields exactly `token`, whatever the cookie holds. */
  lemma BearerWins(token: string, cookie: Option<string>)
    ensures GetToken(Request(Some(Bearer + token), cookie)) == Some(token)
  {
    var a := Bearer + token;
    assert a[..7] == Bearer;
    assert a[7..] == token;
  }

  /** A header that is not a bearer header is ignored: the cookie decides. */
  lemma NonBearerIgnored(authorization: Option<string>, cookie: Option<string>)
    requires !IsBearer(authorization)
    ensures GetToken(Request(authorization, cookie)) == GetToken(Request(None, cookie))
  {
  }

  /**
   * `requireAuth`: no token, or an empty one, is 401 "Not authenticated"; a token that does
   * not verify is 401 too; otherwise the request passes with the verified payload.
   */
  function RequireAuth(req: Request, verify: string -> Option<Payload>): (d: Decision)
    ensures d.Pass? <==> GetToken(req).Some? && GetToken(req).value != "" && verify(GetToken(req).value).Some?
    ensures d.Pass? ==> d.user == verify(GetToken(req).value).value
    ensures d.Deny? ==> d.status == Unauthorized
  {
    var token := GetToken(req);
    if token.None? || token.value == "" then Deny(Unauthorized)
    else
      var payload := verify(token.value);
      if payload.None? then Deny(Unauthorized) else Pass(payload.value)
  }

  /** The payloads `requireAdmin` lets through: role admin or super_admin, or a super admin flag. */
  predicate IsAdmin(p: Payload)
    ensures p.isSuperAdmin ==> IsAdmin(p)
  {
    p.role == Some("admin") || p.role == Some("super_admin") || p.isSuperAdmin
  }

  /** The payloads `requireSuperAdmin` lets through: the flag set and the super admin's own id. */
  predicate IsSuperAdmin(p: Payload)
    ensures IsSuperAdmin(p) ==> IsAdmin(p)
  {
    p.isSuperAdmin && p.id == Some(SuperAdminId)
  }

  /** `requireAdmin`: authenticated as `requireAuth`, then 403 unless the payload is an admin's. */
  function RequireAdmin(req: Request, verify: string -> Option<Payload>): (d: Decision)
    ensures d.Pass? <==> RequireAuth(req, verify).Pass? && IsAdmin(RequireAuth(req, verify).user)
    ensures d.Pass? ==> d == RequireAuth(req, verify)
    ensures d == Deny(Unauthorized) <==> RequireAuth(req, verify).Deny?
    ensures d.Deny? ==> d.status == Unauthorized || d.status == Forbidden
  {
    var a := RequireAuth(req, verify);
    if a.Deny? then a
    else if IsAdmin(a.user) then a
    else Deny(Forbidden)
  }

  /** `requireSuperAdmin`: authenticated as `requireAuth`, then 403 unless the payload is the super admin's. */
  function RequireSuperAdmin(req: Request, verify: string -> Option<Payload>): (d: Decision)
    ensures d.Pass? <==> RequireAuth(req, verify).Pass? && IsSuperAdmin(RequireAuth(req, verify).user)
    ensures d.Pass? ==> d == RequireAuth(req, verify)
    ensures d == Deny(Unauthorized) <==> RequireAuth(req, verify).Deny?
    ensures d.Deny? ==> d.status == Unauthorized || d.status == Forbidden
  {
    var a := RequireAuth(req, verify);
    if a.Deny? then a
    else if IsSuperAdmin(a.user) then a
    else Deny(Forbidden)
  }

  /** The guards are nested: whoever passes `requireSuperAdmin` passes `requireAdmin`, with the same payload. */
  lemma SuperAdminPassesAdmin(req: Request, verify: string -> Option<Payload>)
    requires RequireSuperAdmin(req, verify).Pass?
    ensures RequireAdmin(req, verify) == RequireSuperAdmin(req, verify)
  {
  }

  /** A user token with a role other than admin and no super admin flag is refused by both admin guards. */
  lemma PlainUserRefused(req: Request, verify: string -> Option<Payload>)
    requires RequireAuth(req, verify).Pass?
    requires RequireAuth(req, verify).user.role !in {Some("admin"), Some("super_admin")}
    requires !RequireAuth(req, verify).user.isSuperAdmin
    ensures RequireAdmin(req, verify) == Deny(Forbidden)
    ensures RequireSuperAdmin(req, verify) == Deny(Forbidden)
  {
  }
}
