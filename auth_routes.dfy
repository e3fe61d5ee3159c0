/** The account routes: register, login, update/:id, checkUser, getApiCalls
    and the three admin routes, each with the middleware chain it is mounted
    behind. `salt` is what bcrypt draws; `secret` and `now` are the signing
    key and the clock. */
module AuthRoutes {
  import opened Wrappers
  import opened Passwords
  import opened Queries
  import opened Tokens
  import opened Middleware

  /** The session cookie both login and update set. */
  function SessionCookie(user: UserRow, secret: string, now: int): (c: Cookie)
    ensures c.name == AuthCookie && c.maxAge == CookieMaxAge
    ensures VerifyToken(c.value, secret, now) == Some(Payload(ClaimsOf(user), now, now + TokenLifetime))
  {
    Cookie(AuthCookie, GenerateToken(user, secret, now), CookieMaxAge)
  }

  const NotFound := Response(400, Message("User not found."), None)

  /** POST /register, behind `incrementRequestCount`. 201 iff the insert
      succeeds; any insert error, a duplicate email included, is a 500. A
      missing password makes bcrypt reject inside the handler, which then
      sends nothing (`Escaped`). */
  method Register(db: Database, req: Request, username: Option<string>, email: Option<string>,
                  password: Option<string>, salt: string, io: Io)
    returns (out: Outcome)
    requires db.Valid()
    modifies db
    ensures db.Valid()
    ensures !(io.counterRead && io.counterWrite) ==> out == Sent(CountFailure) && db.users == old(db.users) && db.resource == old(db.resource)
    ensures io.counterRead && io.counterWrite ==> db.resource == Counted(old(db.resource), RequestKey(req))
    ensures io.counterRead && io.counterWrite && password.None? ==> out == Escaped && db.users == old(db.users)
    ensures io.counterRead && io.counterWrite && password.Some? ==>
      && out.Sent?
      && (out.resp.status == 201 <==> io.query && username.Some? && email.Some? && !EmailTaken(old(db.users), email.value))
      && (out.resp.status == 201 ==> out.resp == Response(201, Message("User registered successfully."), None))
      && (out.resp.status != 201 ==> out.resp == Response(500, Message("User registration failed."), None))
    ensures out.Sent? && out.resp.status == 201 ==>
      exists id | id !in old(db.users) ::
        db.users == old(db.users)[id := UserRow(id, username.value, email.value, HashPassword(password.value, salt), false, db.defaultApiCalls)]
    ensures !(out.Sent? && out.resp.status == 201) ==> db.users == old(db.users)
  {
    var s := IncrementRequestCount(db, req, io);
    if s.Halt? {
      return Sent(s.resp);
    }
    if password.None? {
      return Escaped;
    }
    var hashed := HashPassword(password.value, salt);
    var r := db.RegisterUser(username, email, hashed, io.query);
    if r.Failed? {
      return Sent(Response(500, Message("User registration failed."), None));
    }
    out := Sent(Response(201, Message("User registered successfully."), None));
  }

  /** POST /login, behind `incrementRequestCount`. A failed lookup or no row
      is 400 "User not found."; a wrong password is 403 "Invalid
      credentials."; success sets the session cookie for the row and returns
      its quota, admin flag and username. Login writes no user row. */
  method Login(db: Database, req: Request, email: Option<string>, password: Option<string>,
               secret: string, now: int, io: Io)
    returns (out: Outcome)
    requires db.Valid()
    modifies db
    ensures db.Valid()
    ensures db.users == old(db.users) && db.nextId == old(db.nextId)
    ensures !(io.counterRead && io.counterWrite) ==> out == Sent(CountFailure) && db.resource == old(db.resource)
    ensures io.counterRead && io.counterWrite ==> db.resource == Counted(old(db.resource), RequestKey(req))
    ensures io.counterRead && io.counterWrite && (!io.query || email.None? || !EmailTaken(db.users, email.value)) ==>
      out == Sent(NotFound)
    ensures io.counterRead && io.counterWrite && io.query ==>
      forall id | id in db.users && Some(db.users[id].email) == email ::
        && (password.None? ==> out == Escaped)
        && (password.Some? && !VerifyPassword(password.value, db.users[id].password) ==>
              out == Sent(Response(403, Message("Invalid credentials."), None)))
        && (password.Some? && VerifyPassword(password.value, db.users[id].password) ==>
              out == Sent(Response(200,
                LoginSummary(db.users[id].apiCalls, db.users[id].isAdmin, db.users[id].username),
                Some(SessionCookie(db.users[id], secret, now)))))
  {
    var s := IncrementRequestCount(db, req, io);
    if s.Halt? {
      return Sent(s.resp);
    }
    var r := db.FindUserByEmail(email, io.query);
    if r.Failed? || |r.results| == 0 {
      return Sent(NotFound);
    }
    var user := r.results[0];
    assert user.id in db.users && Some(db.users[user.id].email) == email;
    if password.None? {
      return Escaped;
    }
    if !VerifyPassword(password.value, user.password) {
      return Sent(Response(403, Message("Invalid credentials.")  , None));
    }
    out := Sent(Response(200, LoginSummary(user.apiCalls, user.isAdmin, user.username),
                         Some(SessionCookie(user, secret, now))));
  }

  /** Signing up and then logging in with the same email and password
      succeeds: register answers 201, and login answers 200 with the new
      row's username, no admin flag and the starting quota, and sets a
      session cookie whose token verifies to those same claims. */
  method RegisterThenLogin(db: Database, signup: Request, signin: Request, username: string, email: string,
                           password: string, salt: string, secret: string, now: int, io: Io)
    returns (registered: Outcome, loggedIn: Outcome)
    requires db.Valid() && !EmailTaken(db.users, email)
    requires io.counterRead && io.counterWrite && io.query
    modifies db
    ensures db.Valid()
    ensures registered == Sent(Response(201, Message("User registered successfully."), None))
    ensures loggedIn.Sent? && loggedIn.resp.status == 200
    ensures loggedIn.resp.body == LoginSummary(db.defaultApiCalls, false, username)
    ensures loggedIn.resp.cookie.Some? && loggedIn.resp.cookie.value.name == AuthCookie
    ensures var p := VerifyToken(loggedIn.resp.cookie.value.value, secret, now);
      && p.Some?
      && p.value.claims.username == username
      && !p.value.claims.isAdmin
      && p.value.claims.apiCalls == db.defaultApiCalls
  {
    var users0 := db.users;
    registered := Register(db, signup, Some(username), Some(email), Some(password), salt, io);
    var row := UserRow(0, username, email, HashPassword(password, salt), false, db.defaultApiCalls);
    var id :| id !in users0 && db.users == users0[id := row.(id := id)];
    assert id in db.users && db.users[id].email == email;
    HashThenVerify(password, salt);
    loggedIn := Login(db, signin, Some(email), Some(password), secret, now, io);
    assert Some(db.users[id].email) == Some(email);
  }

  /** PUT /update/:id, behind `authenticate, incrementRequestCount`. It
      renames the row named by the URL, whoever is signed in, then reissues
      the session cookie for that row. An update error is a 500 with no
      lookup; no row after the update is a 400. */
  method Update(db: Database, req: Request, id: int, username: Option<string>,
                secret: string, now: int, io: Io)
    returns (resp: Response)
    requires db.Valid()
    modifies db
    ensures db.Valid()
    ensures db.nextId == old(db.nextId)
    ensures Authenticate(req, secret, now).Halt? ==>
      resp == Authenticate(req, secret, now).resp && db.users == old(db.users) && db.resource == old(db.resource)
    ensures Authenticate(req, secret, now).Next? && !(io.counterRead && io.counterWrite) ==>
      resp == CountFailure && db.users == old(db.users) && db.resource == old(db.resource)
    ensures Authenticate(req, secret, now).Next? && io.counterRead && io.counterWrite ==>
      && db.resource == Counted(old(db.resource), RequestKey(req))
      && (!io.query || (username.None? && id in old(db.users)) ==>
            resp == Response(500, Message("User update failed."), None) && db.users == old(db.users))
      && (io.query && username.None? && id !in old(db.users) ==> resp == NotFound && db.users == old(db.users))
      && (io.query && username.Some? ==> db.users == Renamed(old(db.users), id, username.value))
      && (io.query && username.Some? && (!io.followUp || id !in db.users) ==> resp == NotFound)
      && (io.query && username.Some? && io.followUp && id in db.users ==>
            && db.users[id].username == username.value
            && resp == Response(200, Message("User updated successfully."), Some(SessionCookie(db.users[id], secret, now))))
    ensures db.users != old(db.users) ==> username.Some? && db.users == Renamed(old(db.users), id, username.value)
  {
    var s := SignedInChain(db, req, secret, now, io);
    if s.Halt? {
      return s.resp;
    }
    var u := db.UpdateUser(id, username, io.query);
    if u.Failed? {
      return Response(500, Message("User update failed."), None);
    }
    var r := db.FindUserById(id, io.followUp);
    if r.Failed? || |r.results| == 0 {
      return NotFound;
    }
    var user := r.results[0];
    resp := Response(200, Message("User updated successfully."), Some(SessionCookie(user, secret, now)));
  }

  /** Update checks only that some session is present, not whose: any
      signed-in non-admin who names an admin's id renames that account and
      is handed a session cookie carrying the admin's claims. */
  method UpdateHandsOutAdminSession(db: Database, req: Request, adminId: int, name: string,
                                    secret: string, now: int, io: Io)
    returns (resp: Response)
    requires db.Valid()
    requires Authenticate(req, secret, now).Next? && !AdminToken(req, secret, now)
    requires adminId in db.users && db.users[adminId].isAdmin
    requires io.counterRead && io.counterWrite && io.query && io.followUp
    modifies db
    ensures db.Valid()
    ensures resp.status == 200 && resp.cookie.Some?
    ensures var p := VerifyToken(resp.cookie.value.value, secret, now);
      && p.Some?
      && p.value.claims.id == adminId
      && p.value.claims.isAdmin
      && p.value.claims.username == name
  {
    resp := Update(db, req, adminId, Some(name), secret, now, io);
  }

  /** GET /admin/data, behind `authenticate, checkAdmin, incrementRequestCount`:
      every row, password hashes included, and the caller's admin flag. */
  method AdminData(db: Database, req: Request, secret: string, now: int, io: Io)
    returns (resp: Response)
    requires db.Valid()
    modifies db
    ensures db.Valid()
    ensures db.users == old(db.users) && db.nextId == old(db.nextId)
    ensures !HasToken(req) ==> resp == Response(401, Message("Unauthorized"), None)
    ensures HasToken(req) && !AdminToken(req, secret, now) ==> resp.status == 403
    ensures !AdminToken(req, secret, now) ==> resp.status in {401, 403} && db.resource == old(db.resource)
    ensures AdminToken(req, secret, now) && !(io.counterRead && io.counterWrite) ==>
      resp == CountFailure && db.users == old(db.users) && db.resource == old(db.resource)
    ensures AdminToken(req, secret, now) && io.counterRead && io.counterWrite ==>
      && db.resource == Counted(old(db.resource), RequestKey(req))
      && (!io.query ==> resp == Response(500, Message("Error fetching data."), None))
      && (io.query ==> resp.status == 200 && resp.body.UserList? && resp.body.isAdmin
                       && resp.body.users == set id | id in db.users :: db.users[id])
  {
    var s := AdminChain(db, req, secret, now, io);
    if s.Halt? {
      return s.resp;
    }
    var r := db.FetchAllUsers(io.query);
    if r.Failed? {
      return Response(500, Message("Error fetching data."), None);
    }
    resp := Response(200, UserList(r.results, s.req.user.value.claims.isAdmin), None);
  }

  /** DELETE /admin/delete/:id, behind the admin chain: removes the row with
      that id, whichever it is, an admin's or the caller's own included. */
  method AdminDelete(db: Database, req: Request, id: int, secret: string, now: int, io: Io)
    returns (resp: Response)
    requires db.Valid()
    modifies db
    ensures db.Valid()
    ensures db.nextId == old(db.nextId)
    ensures !HasToken(req) ==> resp == Response(401, Message("Unauthorized"), None)
    ensures HasToken(req) && !AdminToken(req, secret, now) ==> resp.status == 403
    ensures !AdminToken(req, secret, now) ==>
      resp.status in {401, 403} && db.users == old(db.users) && db.resource == old(db.resource)
    ensures AdminToken(req, secret, now) && !(io.counterRead && io.counterWrite) ==>
      resp == CountFailure && db.users == old(db.users) && db.resource == old(db.resource)
    ensures AdminToken(req, secret, now) && io.counterRead && io.counterWrite ==>
      && db.resource == Counted(old(db.resource), RequestKey(req))
      && (!io.query ==> resp == Response(500, Message("Error deleting user."), None) && db.users == old(db.users))
      && (io.query ==> resp == Response(200, Message("User deleted successfully."), None)
                       && db.users == Removed(old(db.users), id))
    ensures db.users != old(db.users) ==> AdminToken(req, secret, now) && db.users == Removed(old(db.users), id)
  {
    var s := AdminChain(db, req, secret, now, io);
    if s.Halt? {
      return s.resp;
    }
    var r := db.DeleteUser(id, io.query);
    if r.Failed? {
      return Response(500, Message("Error deleting user."), None);
    }
    resp := Response(200, Message("User deleted successfully."), None);
  }

  /** GET /checkUser, behind `authenticate, incrementRequestCount`: the
      claims of the token, as they were when it was issued. (`authenticate`
      always sets `req.user`, so the handler's 401 branch cannot be taken.) */
  method CheckUser(db: Database, req: Request, secret: string, now: int, io: Io)
    returns (resp: Response)
    requires db.Valid()
    modifies db
    ensures db.Valid()
    ensures db.users == old(db.users) && db.nextId == old(db.nextId)
    ensures Authenticate(req, secret, now).Halt? ==>
      resp == Authenticate(req, secret, now).resp && db.resource == old(db.resource)
    ensures Authenticate(req, secret, now).Next? && !(io.counterRead && io.counterWrite) ==>
      resp == CountFailure && db.resource == old(db.resource)
    ensures Authenticate(req, secret, now).Next? && io.counterRead && io.counterWrite ==>
      db.resource == Counted(old(db.resource), RequestKey(req))
    ensures Authenticate(req, secret, now).Next? && io.counterRead && io.counterWrite ==>
      var c := VerifyToken(req.authToken.value, secret, now).value.claims;
      resp == Response(200, Identity(c.isAdmin, c.apiCalls, c.id, c.username), None)
  {
    var s := SignedInChain(db, req, secret, now, io);
    if s.Halt? {
      return s.resp;
    }
    var c := s.req.user.value.claims;
    resp := Response(200, Identity(c.isAdmin, c.apiCalls, c.id, c.username), None);
  }

  /** GET /getApiCalls, behind `authenticate, incrementRequestCount`: the live
      quota of the row the token's id names; 400 when the lookup fails or the
      row is gone. */
  method GetApiCalls(db: Database, req: Request, secret: string, now: int, io: Io)
    returns (resp: Response)
    requires db.Valid()
    modifies db
    ensures db.Valid()
    ensures db.users == old(db.users) && db.nextId == old(db.nextId)
    ensures Authenticate(req, secret, now).Halt? ==>
      resp == Authenticate(req, secret, now).resp && db.resource == old(db.resource)
    ensures Authenticate(req, secret, now).Next? && !(io.counterRead && io.counterWrite) ==>
      resp == CountFailure && db.resource == old(db.resource)
    ensures Authenticate(req, secret, now).Next? && io.counterRead && io.counterWrite ==>
      db.resource == Counted(old(db.resource), RequestKey(req))
    ensures Authenticate(req, secret, now).Next? && io.counterRead && io.counterWrite ==>
      var id := VerifyToken(req.authToken.value, secret, now).value.claims.id;
      && (io.query && id in db.users ==> resp == Response(200, ApiCalls(db.users[id].apiCalls), None))
      && (!io.query || id !in db.users ==> resp == NotFound)
  {
    var s := SignedInChain(db, req, secret, now, io);
    if s.Halt? {
      return s.resp;
    }
    var r := db.FindUserById(s.req.user.value.claims.id, io.query);
    if r.Failed? || |r.results| == 0 {
      return NotFound;
    }
    resp := Response(200, ApiCalls(r.results[0].apiCalls), None);
  }

  /** GET /admin/resource, behind the admin chain: every counter row, the
      count of this very request included. */
  method AdminResource(db: Database, req: Request, secret: string, now: int, io: Io)
    returns (resp: Response)
    requires db.Valid()
    modifies db
    ensures db.Valid()
    ensures db.users == old(db.users) && db.nextId == old(db.nextId)
    ensures !HasToken(req) ==> resp == Response(401, Message("Unauthorized"), None)
    ensures HasToken(req) && !AdminToken(req, secret, now) ==> resp.status == 403
    ensures !AdminToken(req, secret, now) ==> resp.status in {401, 403} && db.resource == old(db.resource)
    ensures AdminToken(req, secret, now) && !(io.counterRead && io.counterWrite) ==>
      resp == CountFailure && db.users == old(db.users) && db.resource == old(db.resource)
    ensures AdminToken(req, secret, now) && io.counterRead && io.counterWrite ==>
      && db.resource == Counted(old(db.resource), RequestKey(req))
      && (!io.query ==> resp == Response(500, Message("Error fetching resources."), None))
      && (io.query ==> resp.status == 200 && resp.body.ResourceList?
                       && resp.body.resources == (set k | k in db.resource :: ResourceRow(k.endpoint, k.verb, db.resource[k]))
                       && ResourceRow(req.originalUrl, req.verb, db.resource[RequestKey(req)]) in resp.body.resources)
  {
    var s := AdminChain(db, req, secret, now, io);
    if s.Halt? {
      return s.resp;
    }
    var r := db.GetAllResources(io.query);
    if r.Failed? {
      return Response(500, Message("Error fetching resources."), None);
    }
    resp := Response(200, ResourceList(r.results), None);
  }
}
