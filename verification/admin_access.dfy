/** How the pieces of authorisation fit together: the access token that
    src/controller/authController.js issues carries no `role`, the access
    middleware copies its payload into `req.user`, and `checkRole` reads
    `req.user.role`. So no token the backend issues ever passes a role check,
    and every route behind `checkRole("admin")` answers 403. */
module AdminAccess {
  import opened Common
  import opened Library
  import opened Database
  import AuthController
  import AuthMiddleware
  import CheckRole

  /** The payload of every issued access token lacks a role. */
  lemma IssuedPayloadHasNoRole(userId: Id, email: string)
    ensures CheckRole.RoleOf(AuthController.AccessClaims(userId, email)).None?
  {
    assert "role" !in AuthController.AccessClaims(userId, email).Keys;
  }

  /** A decoded access token keeps the signed payload plus registered claims
      only, so it still has no role. */
  lemma DecodedPayloadHasNoRole(decoded: Claims, userId: Id, email: string)
    requires DecodesTo(Some(decoded), AuthController.AccessClaims(userId, email))
    ensures CheckRole.RoleOf(decoded).None?
  {
    assert "role" !in AuthController.AccessClaims(userId, email);
    assert "role" !in RegisteredClaims;
  }

  /** Whatever `jwt.verify` makes of an access token the backend signed,
      `checkRole`, for any list of roles, never lets it through: 401 when it
      throws, 403 when it decodes. */
  lemma IssuedTokenFailsEveryRoleCheck(lib: Lib, userId: Id, email: string, roles: seq<string>, now: int)
    requires var token := AuthController.SignedPair(lib, userId, email, now).accessToken;
      DecodesTo(lib.verify(token, AccessSecret, now), AuthController.AccessClaims(userId, email))
    ensures var token := AuthController.SignedPair(lib, userId, email, now).accessToken;
      var decoded := lib.verify(token, AccessSecret, now);
      && CheckRole.Check(roles, decoded) != Next
      && (decoded.Some? ==> CheckRole.Check(roles, decoded) == Respond(403))
  {
    var token := AuthController.SignedPair(lib, userId, email, now).accessToken;
    var decoded := lib.verify(token, AccessSecret, now);
    if decoded.Some? {
      DecodedPayloadHasNoRole(decoded.value, userId, email);
    }
  }

  /** The two middlewares of an admin route, run in order on a request that
      carries an issued access token: the request never reaches its handler. */
  method AdminRoute(lib: Lib, req: AuthMiddleware.Request, userId: Id, email: string, now: int)
    returns (out: Outcome)
    requires var token := AuthController.SignedPair(lib, userId, email, now).accessToken;
      && token != ""
      && AuthMiddleware.TokenFrom(req.Cookie("accessToken"), req.authorization) == Some(token)
      && DecodesTo(lib.verify(token, AccessSecret, now), AuthController.AccessClaims(userId, email))
    modifies req`user
    ensures out == Respond(403)
  {
    out := AuthMiddleware.VerifyAccessToken(lib, req, now);
    if out == Next {
      DecodedPayloadHasNoRole(req.user.value, userId, email);
      out := CheckRole.Check(["admin"], req.user);
    }
  }
}
