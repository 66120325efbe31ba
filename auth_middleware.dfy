/**
 * The authentication middlewares of the user-panel server
 * (`src/middlewares/auth.middleware.js`). JWT verification and the user lookup
 * are calls into code outside the model; they are passed in as functions.
 */
module AuthMiddleware {
  import opened Wrappers
  import opened Js

  /** The fields of a user record the middlewares read. */
  datatype User = User(id: string, role: string, isActive: bool)

  /** What `jwt.verify` does with a token: decode it to a user id, or throw an error of the given name. */
  datatype Verified = Decoded(userId: string) | VerifyError(name: string)

  /** What `User.findById` does: find a user, find nothing, or reject. */
  datatype Lookup = Found(user: User) | NotFound | LookupFailed

  /** How a middleware ends: it calls `next()`, or it sends a JSON error. */
  datatype Decision = Next | Respond(status: int, message: string)

  /** A request: the `Authorization` header, the `token` cookie, and `req.user`, which the middlewares set. */
  class Request {
    var authorization: Option<string>
    var cookieToken: Option<string>
    var user: Option<User>

    constructor (authorization: Option<string>, cookieToken: Option<string>)
      ensures this.authorization == authorization && this.cookieToken == cookieToken && user == None
    {
      this.authorization := authorization;
      this.cookieToken := cookieToken;
      user := None;
    }
  }

  /** `authHeader && authHeader.startsWith('Bearer ')`. */
  predicate BearerHeader(header: Option<string>) {
    header.Some? && StartsWith(header.value, "Bearer ")
  }

  /**
   * The token both middlewares use: the header after its first 7 characters when
   * it starts with `Bearer `, otherwise (or when that is empty) the cookie when it is
   * non-empty. `None` is a falsy token.
   */
  method SelectToken(header: Option<string>, cookie: Option<string>) returns (token: Option<string>)
    ensures token.Some? ==> token.value != ""
    ensures BearerHeader(header) && |header.value| > 7 ==> token == Some(header.value[7..])
    ensures !(BearerHeader(header) && |header.value| > 7) ==>
      token == (if cookie.Some? && cookie.value != "" then cookie else None)
  {
    var t: Option<string> := None;
    if header.Some? && StartsWith(header.value, "Bearer ") {
      t := Some(header.value[7..]);
    }
    if (t.None? || t.value == "") && cookie.Some? && cookie.value != "" {
      t := cookie;
    }
    token := if t.Some? && t.value != "" then t else None;
  }

  /** `auth`: token, then verification, then lookup, then the active flag; `next` only at the end. */
  method Auth(req: Request, verify: string -> Verified, find: string -> Lookup) returns (d: Decision)
    modifies req`user
    ensures d == AuthDecision(TokenOf(req), verify, find)
    ensures var tok := TokenOf(req);
      && (tok.None? ==> d == Respond(401, "Access denied. No token provided.") && req.user == old(req.user))
      && (d == Next <==> Authenticated(tok, verify, find).Some?)
      && (d == Next ==> req.user == Authenticated(tok, verify, find))
      && (d != Next ==> req.user == old(req.user))
    ensures var tok := TokenOf(req);
      tok.Some? && verify(tok.value).VerifyError? ==>
        d == Respond(if verify(tok.value).name == "JsonWebTokenError" then 401
                     else if verify(tok.value).name == "TokenExpiredError" then 401 else 500,
                     AuthFailure(verify(tok.value).name))
    ensures var tok := TokenOf(req);
      tok.Some? && verify(tok.value).Decoded? ==>
        var l := find(verify(tok.value).userId);
        (l.NotFound? ==> d == Respond(401, "Invalid token. User not found."))
        && (l.LookupFailed? ==> d == Respond(500, "Server error during authentication."))
        && (l.Found? && !l.user.isActive ==> d == Respond(401, "Account is deactivated."))
  {
    var token := SelectToken(req.authorization, req.cookieToken);
    if token.None? {
      return Respond(401, "Access denied. No token provided.");
    }
    var decoded := verify(token.value);
    if decoded.VerifyError? {
      if decoded.name == "JsonWebTokenError" {
        return Respond(401, "Invalid token.");
      } else if decoded.name == "TokenExpiredError" {
        return Respond(401, "Token expired.");
      }
      return Respond(500, "Server error during authentication.");
    }
    var found := find(decoded.userId);
    if found.LookupFailed? {
      return Respond(500, "Server error during authentication.");
    }
    if found.NotFound? {
      return Respond(401, "Invalid token. User not found.");
    }
    if !found.user.isActive {
      return Respond(401, "Account is deactivated.");
    }
    req.user := Some(found.user);
    d := Next;
  }

  /** The token `SelectToken` picks for a request, as a function. */
  function TokenOf(req: Request): (tok: Option<string>)
    reads req
  {
    var header := req.authorization;
    var cookie := req.cookieToken;
    if BearerHeader(header) && |header.value| > 7 then Some(header.value[7..])
    else if cookie.Some? && cookie.value != "" then cookie
    else None
  }

  /** The user a token proves: verified, found and active. */
  function Authenticated(tok: Option<string>, verify: string -> Verified, find: string -> Lookup): Option<User> {
    if tok.None? || verify(tok.value).VerifyError? then None
    else
      var l := find(verify(tok.value).userId);
      if l.Found? && l.user.isActive then Some(l.user) else None
  }

  /**
   * The decision `auth` reaches for a token: the first failing step gives its
   * reply, and a verified, found, active user lets the request through.
   */
  function AuthDecision(tok: Option<string>, verify: string -> Verified, find: string -> Lookup): (d: Decision)
    ensures d == Next <==> Authenticated(tok, verify, find).Some?
    ensures tok.None? ==> d == Respond(401, "Access denied. No token provided.")
    ensures d != Next ==> d.Respond? && d.status in {401, 500}
  {
    if tok.None? then Respond(401, "Access denied. No token provided.")
    else if verify(tok.value).VerifyError? then
      var name := verify(tok.value).name;
      Respond(if name == "JsonWebTokenError" || name == "TokenExpiredError" then 401 else 500, AuthFailure(name))
    else
      var l := find(verify(tok.value).userId);
      if l.LookupFailed? then Respond(500, "Server error during authentication.")
      else if l.NotFound? then Respond(401, "Invalid token. User not found.")
      else if !l.user.isActive then Respond(401, "Account is deactivated.")
      else Next
  }

  /** The message `auth` sends when `jwt.verify` throws an error of the given name. */
  function AuthFailure(name: string): string {
    if name == "JsonWebTokenError" then "Invalid token."
    else if name == "TokenExpiredError" then "Token expired."
    else "Server error during authentication."
  }

  /** `adminAuth`: `auth`, then a 403 for an authenticated user whose role is not `admin`. */
  method AdminAuth(req: Request, verify: string -> Verified, find: string -> Lookup) returns (d: Decision)
    modifies req`user
    ensures d == Next <==> var u := Authenticated(TokenOf(req), verify, find); u.Some? && u.value.role == "admin"
    ensures var u := Authenticated(TokenOf(req), verify, find);
      u.Some? && u.value.role != "admin" ==> d == Respond(403, "Access denied. Admin privileges required.")
    ensures var u := Authenticated(TokenOf(req), verify, find);
      u.None? ==> d == AuthDecision(TokenOf(req), verify, find) && req.user == old(req.user)
    ensures var u := Authenticated(TokenOf(req), verify, find);
      u.Some? ==> req.user == u
  {
    d := Auth(req, verify, find);
    if d == Next && req.user.Some? && req.user.value.role != "admin" {
      d := Respond(403, "Access denied. Admin privileges required.");
    }
  }

  /** `optionalAuth`: always `next`; `req.user` is set only for a verified, found, active user. */
  method OptionalAuth(req: Request, verify: string -> Verified, find: string -> Lookup) returns (d: Decision)
    modifies req`user
    ensures d == Next
    ensures var u := Authenticated(TokenOf(req), verify, find);
      req.user == (if u.Some? then u else old(req.user))
  {
    var token := SelectToken(req.authorization, req.cookieToken);
    if token.Some? {
      var decoded := verify(token.value);
      if decoded.Decoded? {
        var found := find(decoded.userId);
        if found.Found? && found.user.isActive {
          req.user := Some(found.user);
        }
      }
    }
    d := Next;
  }

  /** A request with neither a bearer header nor a cookie is refused whatever the verifier says. */
  lemma NoCredentialsNoUser(req: Request, verify: string -> Verified, find: string -> Lookup)
    requires req.authorization.None? && req.cookieToken.None?
    ensures Authenticated(TokenOf(req), verify, find).None?
  {
  }

  /** `Bearer ` with nothing after it is no token: the cookie is consulted instead. */
  lemma EmptyBearerFallsBack(req: Request)
    requires req.authorization == Some("Bearer ")
    ensures TokenOf(req) == (if req.cookieToken.Some? && req.cookieToken.value != "" then req.cookieToken else None)
  {
  }
}
