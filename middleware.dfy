/** The three Express middlewares of the server and the chains the routes
    build from them.

    A middleware either answers the request (`Halt`) or hands it on
    (`Next`), possibly with `req.user` filled in; the datatype makes "exactly
    one of respond or next" hold of every call. */
module Middleware {
  import opened Wrappers
  import opened Queries
  import opened Tokens

  /** The parts of an Express request the server reads: `req.method`,
      `req.originalUrl`, the `authToken` cookie and `req.user`. */
  datatype Request = Request(verb: string, originalUrl: string, authToken: Option<Token>, user: Option<Payload>)

  /** The JSON bodies the server sends. */
  datatype Body =
    | Message(text: string)
    | LoginSummary(apiCalls: int, isAdmin: bool, username: string)
    | GeneratedText(text: string)
    | UserList(users: set<UserRow>, isAdmin: bool)
    | ResourceList(resources: set<ResourceRow>)
    | Identity(isAdmin: bool, apiCalls: int, id: int, username: string)
    | ApiCalls(apiCalls: int)

  /** A `Set-Cookie` the response carries; `maxAge` in milliseconds. */
  datatype Cookie = Cookie(name: string, value: Token, maxAge: int)

  datatype Response = Response(status: int, body: Body, cookie: Option<Cookie>)

  /** What a middleware does with a request. */
  datatype Step = Next(req: Request) | Halt(resp: Response)

  /** What a route handler does with a request: answer it, or throw
      (`Escaped`): a promise rejects inside an `async` handler or callback and
      the handler itself sends nothing. What happens next is up to the
      framework and the runtime, which are not modelled: Express 5 answers a
      rejected route handler with its default 500 error page; under Express 4
      the rejection is unhandled, and Node 15 or later then ends the process. */
  datatype Outcome = Sent(resp: Response) | Escaped

  /** The name of the session cookie. */
  const AuthCookie := "authToken"

  /** `maxAge: 24 * 60 * 60 * 1000`. */
  const CookieMaxAge := 24 * 60 * 60 * 1000

  /** `if (!token)`: the cookie is absent or the empty string. */
  predicate HasToken(req: Request)
  {
    req.authToken.Some? && req.authToken.value != Opaque("")
  }

  /** The key `incrementRequestCount` counts a request under. */
  function RequestKey(req: Request): ResourceKey
  {
    ResourceKey(req.originalUrl, req.verb)
  }

  /** `authenticate`: 401 without a token, 403 when the token does not
      verify, otherwise `req.user` becomes the decoded payload and the request
      goes on. */
  function Authenticate(req: Request, secret: string, now: int): (s: Step)
    ensures s.Next? <==> HasToken(req) && VerifyToken(req.authToken.value, secret, now).Some?
    ensures s.Next? ==> s.req == req.(user := VerifyToken(req.authToken.value, secret, now)) && s.req.user.Some?
    ensures s.Halt? && !HasToken(req) ==> s.resp == Response(401, Message("Unauthorized"), None)
    ensures s.Halt? && HasToken(req) ==> s.resp == Response(403, Message("Invalid token"), None)
  {
    if !HasToken(req) then
      Halt(Response(401, Message("Unauthorized"), None))
    else
      match VerifyToken(req.authToken.value, secret, now)
      case Some(decoded) => Next(req.(user := Some(decoded)))
      case None => Halt(Response(403, Message("Invalid token"), None))
  }

  /** `checkAdmin`: the request goes on, unchanged, iff `req.user?.isAdmin`
      is true; otherwise, including when there is no `req.user`, 403. */
  function CheckAdmin(req: Request): (s: Step)
    ensures s.Next? <==> req.user.Some? && req.user.value.claims.isAdmin
    ensures s.Next? ==> s.req == req
    ensures s.Halt? ==> s.resp == Response(403, Message("Access denied: Admins only."), None)
  {
    if req.user.Some? && req.user.value.claims.isAdmin then
      Next(req)
    else
      Halt(Response(403, Message("Access denied: Admins only."), None))
  }

  /** The response `incrementRequestCount` sends when the counter fails. */
  const CountFailure := Response(500, Message("Error tracking request count."), None)

  /** `incrementRequestCount`: count the request under (originalUrl, method);
      500 if the counter update fails, otherwise the request goes on. */
  method IncrementRequestCount(db: Database, req: Request, io: Io) returns (s: Step)
    requires db.Valid()
    modifies db
    ensures db.Valid()
    ensures db.users == old(db.users) && db.nextId == old(db.nextId)
    ensures s.Next? <==> io.counterRead && io.counterWrite
    ensures s.Next? ==> s.req == req && db.resource == Counted(old(db.resource), RequestKey(req))
    ensures s.Halt? ==> s.resp == CountFailure && db.resource == old(db.resource)
  {
    var r := db.IncrementCountInDB(req.originalUrl, req.verb, io.counterRead, io.counterWrite);
    if r.Failed? {
      return Halt(CountFailure);
    }
    s := Next(req);
  }

  /** The chain `authenticate, incrementRequestCount` of the signed-in routes:
      a request that fails authentication is answered 401/403 and is not
      counted; an authenticated one is counted before its handler runs. */
  method SignedInChain(db: Database, req: Request, secret: string, now: int, io: Io) returns (s: Step)
    requires db.Valid()
    modifies db
    ensures db.Valid()
    ensures db.users == old(db.users) && db.nextId == old(db.nextId)
    ensures Authenticate(req, secret, now).Halt? ==>
      s == Authenticate(req, secret, now) && db.resource == old(db.resource)
    ensures Authenticate(req, secret, now).Next? ==>
      && (s.Next? <==> io.counterRead && io.counterWrite)
      && (s.Next? ==> s.req == Authenticate(req, secret, now).req
                      && db.resource == Counted(old(db.resource), RequestKey(req)))
      && (s.Halt? ==> s.resp == CountFailure && db.resource == old(db.resource))
    ensures s.Next? ==> s.req.user.Some? && s.req.user == VerifyToken(req.authToken.value, secret, now)
  {
    s := Authenticate(req, secret, now);
    if s.Halt? {
      return;
    }
    s := IncrementRequestCount(db, s.req, io);
  }

  /** The chain `authenticate, checkAdmin, incrementRequestCount` of the admin
      routes: requests rejected by either check are never counted. */
  method AdminChain(db: Database, req: Request, secret: string, now: int, io: Io) returns (s: Step)
    requires db.Valid()
    modifies db
    ensures db.Valid()
    ensures db.users == old(db.users) && db.nextId == old(db.nextId)
    ensures Authenticate(req, secret, now).Halt? ==>
      s == Authenticate(req, secret, now) && db.resource == old(db.resource)
    ensures Authenticate(req, secret, now).Next? && CheckAdmin(Authenticate(req, secret, now).req).Halt? ==>
      s == CheckAdmin(Authenticate(req, secret, now).req) && db.resource == old(db.resource)
    ensures s.Next? <==> AdminToken(req, secret, now) && io.counterRead && io.counterWrite
    ensures s.Next? ==> s.req == Authenticate(req, secret, now).req
                        && db.resource == Counted(old(db.resource), RequestKey(req))
    ensures AdminToken(req, secret, now) && s.Halt? ==> s.resp == CountFailure && db.resource == old(db.resource)
    ensures s.Next? ==> s.req.user.Some? && s.req.user.value.claims.isAdmin
  {
    s := Authenticate(req, secret, now);
    if s.Halt? {
      return;
    }
    s := CheckAdmin(s.req);
    if s.Halt? {
      return;
    }
    s := IncrementRequestCount(db, s.req, io);
  }

  /** The request carries a token that verifies and claims an admin. */
  predicate AdminToken(req: Request, secret: string, now: int)
  {
    HasToken(req)
    && VerifyToken(req.authToken.value, secret, now).Some?
    && VerifyToken(req.authToken.value, secret, now).value.claims.isAdmin
  }

  /** The admin routes answer 401 without a session and 403 for a valid
      session of a non-admin, before anything is counted. */
  lemma AdminGateStatuses(req: Request, secret: string, now: int)
    ensures !HasToken(req) ==> Authenticate(req, secret, now).Halt? && Authenticate(req, secret, now).resp.status == 401
    ensures HasToken(req) && VerifyToken(req.authToken.value, secret, now).Some? && !AdminToken(req, secret, now) ==>
      var a := Authenticate(req, secret, now); a.Next? && CheckAdmin(a.req).Halt? && CheckAdmin(a.req).resp.status == 403
  {
  }

  /** A login cookie outlives the token inside it by 23 hours: between one
      and twenty-four hours after login the browser still sends the cookie,
      and `authenticate` answers 403. */
  lemma CookieOutlivesToken(user: UserRow, secret: string, issued: int, now: int, verb: string, url: string)
    requires issued + TokenLifetime <= now < issued + CookieMaxAge / 1000
    ensures CookieMaxAge / 1000 - TokenLifetime == 23 * 60 * 60
    ensures Authenticate(Request(verb, url, Some(GenerateToken(user, secret, issued)), None), secret, now)
         == Halt(Response(403, Message("Invalid token"), None))
  {
  }
}
