/** src/middlewares/authMiddleware.js: `verifyAccessToken` and
    `verifyRefreshToken` take a JWT from a cookie or from the
    `Authorization` header, verify it, and store its payload on the request. */
module AuthMiddleware {
  import opened Common
  import opened Text
  import opened Library

  /** The part of an Express request the middlewares read and write. */
  class Request {
    const cookies: map<string, string>
    const authorization: Option<string>
    var user: Option<Claims>

    constructor(cookies: map<string, string>, authorization: Option<string>)
      ensures this.cookies == cookies && this.authorization == authorization && user.None?
    {
      this.cookies := cookies;
      this.authorization := authorization;
      user := None;
    }

    /** `req.cookies[name]`. */
    function Cookie(name: string): Option<string>
    {
      if name in cookies then Some(cookies[name]) else None
    }
  }

  /** `cookie || (header && header.split(" ")[1])`: the cookie when it is
      non-empty, else the second space-separated piece of the header (absent
      when the header has no space). */
  function TokenFrom(cookie: Option<string>, header: Option<string>): (token: Option<string>)
    ensures Truthy(cookie) ==> token == cookie
    ensures !Truthy(cookie) ==>
      (Truthy(token) <==> Truthy(header) && |Split(header.value)| > 1 && Split(header.value)[1] != "")
    ensures !Truthy(cookie) && Truthy(token) ==> ' ' !in token.value
  {
    if Truthy(cookie) then cookie
    else if !Truthy(header) then None
    else
      var parts := Split(header.value);
      if |parts| > 1 then Some(parts[1]) else None
  }

  /** `Bearer <token>` yields the token when there is no cookie. */
  lemma BearerHeaderGivesToken(cookie: Option<string>, scheme: string, token: string)
    requires !Truthy(cookie)
    requires ' ' !in scheme && ' ' !in token && token != ""
    ensures TokenFrom(cookie, Some(scheme + " " + token)) == Some(token)
  {
    SplitAfterWord(scheme, token);
    SplitNoSpace(token);
  }

  /** A header with no space yields no token, so the request is refused. */
  lemma HeaderWithoutSpaceGivesNothing(cookie: Option<string>, header: string)
    requires !Truthy(cookie) && ' ' !in header
    ensures !Truthy(TokenFrom(cookie, Some(header)))
  {
    SplitNoSpace(header);
  }

  /** The shared body of both middlewares: 401 without a token, 403 when
      `jwt.verify` throws (the payload is `None`), otherwise the payload
      becomes `req.user` and `next()` is called. */
  method VerifyToken(lib: Lib, req: Request, cookieName: string, secret: Secret, now: int)
    returns (out: Outcome)
    modifies req`user
    ensures var token := TokenFrom(req.Cookie(cookieName), req.authorization);
      && (out == Respond(401) <==> !Truthy(token))
      && (out == Respond(403) <==> Truthy(token) && lib.verify(token.value, secret, now).None?)
      && (out == Next <==> Truthy(token) && lib.verify(token.value, secret, now).Some?)
      && (out == Next ==> req.user == lib.verify(token.value, secret, now))
    ensures out != Next ==> req.user == old(req.user)
  {
    var token := TokenFrom(req.Cookie(cookieName), req.authorization);
    if !Truthy(token) {
      return Respond(401);
    }
    var decoded := lib.verify(token.value, secret, now);
    if decoded.None? {
      return Respond(403);
    }
    req.user := decoded;
    out := Next;
  }

  /** `verifyAccessToken`: the `accessToken` cookie and the access secret. */
  method VerifyAccessToken(lib: Lib, req: Request, now: int) returns (out: Outcome)
    modifies req`user
    ensures var token := TokenFrom(req.Cookie("accessToken"), req.authorization);
      && (out == Respond(401) <==> !Truthy(token))
      && (out == Respond(403) <==> Truthy(token) && lib.verify(token.value, AccessSecret, now).None?)
      && (out == Next <==> Truthy(token) && lib.verify(token.value, AccessSecret, now).Some?)
      && (out == Next ==> req.user == lib.verify(token.value, AccessSecret, now))
    ensures out != Next ==> req.user == old(req.user)
  {
    out := VerifyToken(lib, req, "accessToken", AccessSecret, now);
  }

  /** `verifyRefreshToken`: the `refreshToken` cookie and the refresh secret. */
  method VerifyRefreshToken(lib: Lib, req: Request, now: int) returns (out: Outcome)
    modifies req`user
    ensures var token := TokenFrom(req.Cookie("refreshToken"), req.authorization);
      && (out == Respond(401) <==> !Truthy(token))
      && (out == Respond(403) <==> Truthy(token) && lib.verify(token.value, RefreshSecret, now).None?)
      && (out == Next <==> Truthy(token) && lib.verify(token.value, RefreshSecret, now).Some?)
      && (out == Next ==> req.user == lib.verify(token.value, RefreshSecret, now))
    ensures out != Next ==> req.user == old(req.user)
  {
    out := VerifyToken(lib, req, "refreshToken", RefreshSecret, now);
  }
}
