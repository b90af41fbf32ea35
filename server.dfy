/**
 * The request logic of the API server: the `error`/`respond` helpers, the
 * authentication middleware and the register, login and whoami handlers.
 * The HTTP response writer is a `Reply` value; the session store, JSON
 * decoding and bcrypt's comparison are parameters.
 */
module ApiServer {
  import opened Wrappers
  import opened Errors
  import opened Model
  import opened TestStore

  /** Name of the session cookie the session store is asked for. */
  const SessionName: string := "ebweb"
  /** The only session entry the core reads or writes. */
  const UserIdKey: string := "user_id"

  const StatusOK: int := 200
  const StatusCreated: int := 201
  const StatusBadRequest: int := 400
  const StatusUnauthorized: int := 401
  const StatusUnprocessableEntity: int := 422
  const StatusInternalServerError: int := 500

  /** The values of a session (only integer entries are modelled). */
  datatype Session = Session(values: map<string, int>)

  /** What `sessionStore.Get(r, SessionName)` returns: a session, and an error or none. */
  datatype Fetched = Fetched(session: Session, err: Option<Error>)

  /** The decoded `{email, password}` request body. */
  datatype Credentials = Credentials(email: string, password: string)

  /**
   * A JSON document written to the body: `{"error": msg}`, or a user record
   * (whose hash is never serialized).
   */
  datatype Json = ErrorJson(err: Error) | UserJson(id: int, email: string, password: string)

  /**
   * What a handler has written so far: the status of the first `WriteHeader`
   * (later ones are ignored), every JSON document encoded to the body, and
   * the session cookie sent with the headers.
   */
  datatype Reply = Reply(status: Option<int>, bodies: seq<Json>, cookie: Option<Session>)

  /** A response writer nothing has been written to. */
  const Unwritten: Reply := Reply(None, [], None)

  /** A whole response made of one status and one `{"error": msg}` body. */
  function ErrorReply(code: int, err: Error): Reply
  {
    Reply(Some(code), [ErrorJson(err)], None)
  }

  /** The JSON form of a user record. */
  function UserToJson(u: User): Json
    reads u
  {
    UserJson(u.id, u.email, u.password)
  }

  /** The session after a login: `user_id` set to `id`, every other value kept. */
  function LoggedIn(s: Session, id: int): (r: Session)
    ensures UserIdKey in r.values && r.values[UserIdKey] == id
    ensures r.values.Keys == s.values.Keys + {UserIdKey}
    ensures forall k :: k in s.values && k != UserIdKey ==> r.values[k] == s.values[k]
  {
    Session(s.values[UserIdKey := id])
  }

  /** `rw.WriteHeader(code)`: only the first call sets the status. */
  function WriteHeader(w: Reply, code: int): Reply
  {
    if w.status == None then w.(status := Some(code)) else w
  }

  /** A `Set-Cookie` header added by the session store: lost once the headers are written. */
  function SetCookie(w: Reply, s: Session): Reply
  {
    if w.status == None then w.(cookie := Some(s)) else w
  }

  /**
   * `respond`: the status is written (taking effect only if it is the first)
   * and the data is encoded to the body exactly when there is data.
   */
  function Respond(w: Reply, code: int, data: Option<Json>): (r: Reply)
    ensures w.status == None ==> r.status == Some(code)
    ensures w.status != None ==> r.status == w.status
    ensures data == None ==> r.bodies == w.bodies
    ensures data != None ==> r.bodies == w.bodies + [data.value]
    ensures r.cookie == w.cookie
  {
    var headed := WriteHeader(w, code);
    if data == None then headed else headed.(bodies := headed.bodies + [data.value])
  }

  /** `error`: respond with the code and the body `{"error": err}`. */
  function Error(w: Reply, code: int, err: Error): (r: Reply)
    ensures w == Unwritten ==> r == ErrorReply(code, err)
    ensures r.bodies == w.bodies + [ErrorJson(err)]
  {
    Respond(w, code, Some(ErrorJson(err)))
  }

  /** `handleWhoAmI`: the user the middleware attached, with status 200. */
  function WhoAmI(u: User): (r: Reply)
    reads u
    ensures r.status == Some(StatusOK) && r.cookie == None
    ensures r.bodies == [UserJson(u.id, u.email, u.password)]
  {
    Respond(Unwritten, StatusOK, Some(UserToJson(u)))
  }

  /** How the middleware ends for one request. */
  datatype AuthOutcome =
    /** A response was written and `next` was not called. */
    | Aborted(reply: Reply)
    /** A run-time panic ended the handler after `reply` had been written; `next` was not called. */
    | Panicked(reply: Reply)
    /** `next` was called once, with `user` attached to the request context. */
    | Passed(user: User)

  /**
   * `authenticateUser` as written: a session store fault gives 500; a missing
   * `user_id` writes 401 and then falls through to `id.(int)`, a type
   * assertion on the nil interface value, which panics; an unknown id gives
   * 401; otherwise `next` runs with the stored user.
   */
  method AuthenticateUser(repo: UserRepository, fetched: Fetched) returns (out: AuthOutcome)
    ensures fetched.err != None ==> out == Aborted(ErrorReply(StatusInternalServerError, fetched.err.value))
    ensures fetched.err == None && UserIdKey !in fetched.session.values ==>
              out == Panicked(ErrorReply(StatusUnauthorized, NotAuthenticated))
    ensures fetched.err == None && UserIdKey in fetched.session.values ==>
              var id := fetched.session.values[UserIdKey];
              (id !in repo.users ==> out == Aborted(ErrorReply(StatusUnauthorized, NotAuthenticated))) &&
              (id in repo.users ==> out == Passed(repo.users[id]))
    ensures out.Passed? && repo.Valid() ==> out.user.id == fetched.session.values[UserIdKey]
  {
    var rw := Unwritten;
    if fetched.err != None {
      rw := Error(rw, StatusInternalServerError, fetched.err.value);
      return Aborted(rw);
    }
    var id := if UserIdKey in fetched.session.values then Some(fetched.session.values[UserIdKey]) else None;
    if id == None {
      rw := Error(rw, StatusUnauthorized, NotAuthenticated);
    }
    if id == None {
      // `id.(int)` on a missing value
      return Panicked(rw);
    }
    var found := repo.Find(id.value);
    if found.Err? {
      rw := Error(rw, StatusUnauthorized, NotAuthenticated);
      return Aborted(rw);
    }
    return Passed(found.value);
  }

  /**
   * `authenticateUser` returning right after the 401 for a missing `user_id`:
   * it never panics, and `next` runs exactly when the session names a stored
   * user.
   */
  method AuthenticateUserFixed(repo: UserRepository, fetched: Fetched) returns (out: AuthOutcome)
    ensures !out.Panicked?
    ensures fetched.err != None ==> out == Aborted(ErrorReply(StatusInternalServerError, fetched.err.value))
    ensures fetched.err == None && UserIdKey !in fetched.session.values ==>
              out == Aborted(ErrorReply(StatusUnauthorized, NotAuthenticated))
    ensures fetched.err == None && UserIdKey in fetched.session.values ==>
              var id := fetched.session.values[UserIdKey];
              (id !in repo.users ==> out == Aborted(ErrorReply(StatusUnauthorized, NotAuthenticated))) &&
              (id in repo.users ==> out == Passed(repo.users[id]))
    ensures out.Passed? <==> fetched.err == None && UserIdKey in fetched.session.values &&
                             fetched.session.values[UserIdKey] in repo.users
  {
    var rw := Unwritten;
    if fetched.err != None {
      rw := Error(rw, StatusInternalServerError, fetched.err.value);
      return Aborted(rw);
    }
    if UserIdKey !in fetched.session.values {
      rw := Error(rw, StatusUnauthorized, NotAuthenticated);
      return Aborted(rw);
    }
    var found := repo.Find(fetched.session.values[UserIdKey]);
    if found.Err? {
      rw := Error(rw, StatusUnauthorized, NotAuthenticated);
      return Aborted(rw);
    }
    return Passed(found.value);
  }

  /**
   * `GET /private/whoami` as routed: `authenticateUser` as written, then
   * `handleWhoAmI` when it lets the request through. A session without
   * `user_id` ends in the middleware's panic after its 401.
   */
  method ServeWhoAmI(repo: UserRepository, fetched: Fetched) returns (reply: Reply, panicked: bool)
    ensures panicked <==> fetched.err == None && UserIdKey !in fetched.session.values
    ensures fetched.err != None ==> reply == ErrorReply(StatusInternalServerError, fetched.err.value)
    ensures fetched.err == None && UserIdKey !in fetched.session.values ==>
              reply == ErrorReply(StatusUnauthorized, NotAuthenticated)
    ensures fetched.err == None && UserIdKey in fetched.session.values &&
            fetched.session.values[UserIdKey] !in repo.users ==>
              reply == ErrorReply(StatusUnauthorized, NotAuthenticated)
    ensures fetched.err == None && UserIdKey in fetched.session.values &&
            fetched.session.values[UserIdKey] in repo.users ==>
              reply == Reply(Some(StatusOK), [UserToJson(repo.users[fetched.session.values[UserIdKey]])], None)
  {
    var out := AuthenticateUser(repo, fetched);
    panicked := out.Panicked?;
    match out
    case Passed(u) =>
      reply := WhoAmI(u);
    case Aborted(r) =>
      reply := r;
    case Panicked(r) =>
      reply := r;
  }

  /** `GET /private/whoami` with the middleware returning right after its 401: it never panics. */
  method ServeWhoAmIFixed(repo: UserRepository, fetched: Fetched) returns (reply: Reply)
    ensures fetched.err != None ==> reply == ErrorReply(StatusInternalServerError, fetched.err.value)
    ensures fetched.err == None && (UserIdKey !in fetched.session.values ||
                                    fetched.session.values[UserIdKey] !in repo.users) ==>
              reply == ErrorReply(StatusUnauthorized, NotAuthenticated)
    ensures fetched.err == None && UserIdKey in fetched.session.values &&
            fetched.session.values[UserIdKey] in repo.users ==>
              reply == Reply(Some(StatusOK), [UserToJson(repo.users[fetched.session.values[UserIdKey]])], None)
  {
    var out := AuthenticateUserFixed(repo, fetched);
    match out
    case Passed(u) =>
      reply := WhoAmI(u);
    case Aborted(r) =>
      reply := r;
  }

  /**
   * `handleUserCreate`: a body that does not decode gives 400; a `Create`
   * error gives 422 with that error and stores nothing; otherwise the new
   * record is stored under the next id, sanitized (through the pointer the
   * store shares) and returned with 201.
   */
  method HandleUserCreate(repo: UserRepository, req: Result<Credentials, Error>, hash: HashOutcome)
    returns (reply: Reply)
    modifies repo
    ensures req.Err? ==> reply == ErrorReply(StatusBadRequest, req.error) && repo.users == old(repo.users)
    ensures req.Ok? && FieldsFailing(req.value.email, req.value.password, "") != {} ==>
              reply == ErrorReply(StatusUnprocessableEntity, Invalid(FieldsFailing(req.value.email, req.value.password, ""))) &&
              repo.users == old(repo.users)
    ensures req.Ok? && FieldsFailing(req.value.email, req.value.password, "") == {} && hash.HashFailed? ==>
              reply == ErrorReply(StatusUnprocessableEntity, hash.err) && repo.users == old(repo.users)
    ensures req.Ok? && FieldsFailing(req.value.email, req.value.password, "") == {} && hash.Hashed? ==>
              var id := |old(repo.users)| + 1;
              reply == Reply(Some(StatusCreated), [UserJson(id, req.value.email, "")], None) &&
              id in repo.users && fresh(repo.users[id]) && repo.users == old(repo.users)[id := repo.users[id]] &&
              repo.users[id].id == id && repo.users[id].email == req.value.email &&
              repo.users[id].password == "" && repo.users[id].encryptedPassword == hash.digest
    ensures old(repo.Valid()) ==> repo.Valid()
  {
    var rw := Unwritten;
    if req.Err? {
      rw := Error(rw, StatusBadRequest, req.error);
      return rw;
    }
    var u := new User(req.value.email, req.value.password);
    var err := repo.Create(u, hash);
    if err != None {
      rw := Error(rw, StatusUnprocessableEntity, err.value);
      return rw;
    }
    u.Sanitize();
    rw := Respond(rw, StatusCreated, Some(UserToJson(u)));
    return rw;
  }

  /**
   * What `handleSessionCreate` as written ends with once the credentials were
   * accepted for the user with id `id`: a session store `Get` fault writes
   * 500 and the handler carries on, so a failing `Save` adds a second error
   * body and a succeeding one sets a cookie that is never sent.
   */
  function SessionReplyAsWritten(fetched: Fetched, saveErr: Option<Error>, id: int): (r: Reply)
    ensures r.status == Some(StatusOK) <==> fetched.err == None && saveErr == None
    ensures r.status != Some(StatusOK) ==> r.status == Some(StatusInternalServerError) && r.cookie == None
    ensures r.status == Some(StatusOK) ==> r.bodies == [] && r.cookie == Some(LoggedIn(fetched.session, id))
    ensures |r.bodies| == (if fetched.err != None then 1 else 0) + (if saveErr != None then 1 else 0)
    ensures fetched.err != None ==> r.bodies[0] == ErrorJson(fetched.err.value)
    ensures saveErr != None ==> r.bodies[|r.bodies| - 1] == ErrorJson(saveErr.value)
  {
    match (fetched.err, saveErr)
    case (Some(getErr), Some(e)) => Reply(Some(StatusInternalServerError), [ErrorJson(getErr), ErrorJson(e)], None)
    case (Some(getErr), None) => ErrorReply(StatusInternalServerError, getErr)
    case (None, Some(e)) => ErrorReply(StatusInternalServerError, e)
    case (None, None) => Reply(Some(StatusOK), [], Some(LoggedIn(fetched.session, id)))
  }

  /** The same with a return after each 500: one status, one body at most. */
  function SessionReply(fetched: Fetched, saveErr: Option<Error>, id: int): (r: Reply)
    ensures r.status == Some(StatusOK) <==> fetched.err == None && saveErr == None
    ensures r.cookie != None <==> r.status == Some(StatusOK)
    ensures r.status == Some(StatusOK) ==> r.bodies == [] && r.cookie == Some(LoggedIn(fetched.session, id))
    ensures fetched.err != None ==> r == ErrorReply(StatusInternalServerError, fetched.err.value)
    ensures fetched.err == None && saveErr != None ==> r == ErrorReply(StatusInternalServerError, saveErr.value)
    ensures |r.bodies| <= 1
  {
    match (fetched.err, saveErr)
    case (Some(getErr), _) => ErrorReply(StatusInternalServerError, getErr)
    case (None, Some(e)) => ErrorReply(StatusInternalServerError, e)
    case (None, None) => Reply(Some(StatusOK), [], Some(LoggedIn(fetched.session, id)))
  }

  /** A stored user has this e-mail and the hash accepts this password. */
  ghost predicate Accepts(repo: UserRepository, id: int, c: Credentials, comparePassword: (string, string) -> bool)
    reads repo, repo.users.Values
  {
    id in repo.users && repo.users[id].email == c.email &&
    comparePassword(repo.users[id].encryptedPassword, c.password)
  }

  /** Every stored user with this e-mail (possibly none) rejects this password. */
  ghost predicate Refuses(repo: UserRepository, c: Credentials, comparePassword: (string, string) -> bool)
    reads repo, repo.users.Values
  {
    forall id :: id in repo.users && repo.users[id].email == c.email ==>
      !comparePassword(repo.users[id].encryptedPassword, c.password)
  }

  /**
   * `handleSessionCreate` as written: 400 for an undecodable body; the same
   * 401 "incorrect email or password" for an unknown e-mail and for a wrong
   * password; otherwise the session store outcome decides, as
   * `SessionReplyAsWritten` says, with `user_id` the id of a stored user whose
   * e-mail and password match.
   */
  method HandleSessionCreate(repo: UserRepository, req: Result<Credentials, Error>,
                             comparePassword: (string, string) -> bool,
                             fetched: Fetched, saveErr: Option<Error>)
    returns (reply: Reply)
    ensures req.Err? ==> reply == ErrorReply(StatusBadRequest, req.error)
    ensures req.Ok? && Refuses(repo, req.value, comparePassword) ==>
              reply == ErrorReply(StatusUnauthorized, IncorrectEmailOrPassword)
    ensures req.Ok? && reply != ErrorReply(StatusUnauthorized, IncorrectEmailOrPassword) ==>
              exists id :: Accepts(repo, id, req.value, comparePassword) &&
                           reply == SessionReplyAsWritten(fetched, saveErr, repo.users[id].id)
    ensures req.Ok? && !Refuses(repo, req.value, comparePassword) &&
            (forall id :: id in repo.users && repo.users[id].email == req.value.email ==>
                          Accepts(repo, id, req.value, comparePassword)) ==>
              reply != ErrorReply(StatusUnauthorized, IncorrectEmailOrPassword)
  {
    var rw := Unwritten;
    if req.Err? {
      rw := Error(rw, StatusBadRequest, req.error);
      return rw;
    }
    var found := repo.FindByEmail(req.value.email);
    if found.Err? || !comparePassword(found.value.encryptedPassword, req.value.password) {
      rw := Error(rw, StatusUnauthorized, IncorrectEmailOrPassword);
      return rw;
    }
    var u := found.value;
    if fetched.err != None {
      rw := Error(rw, StatusInternalServerError, fetched.err.value);
    }
    var session := LoggedIn(fetched.session, u.id);
    if saveErr != None {
      rw := Error(rw, StatusInternalServerError, saveErr.value);
    } else {
      rw := SetCookie(rw, session);
    }
    rw := Respond(rw, StatusOK, None);
    return rw;
  }

  /**
   * `handleSessionCreate` returning right after each 500: as above, but the
   * session store outcome decides as `SessionReply` says.
   */
  method HandleSessionCreateFixed(repo: UserRepository, req: Result<Credentials, Error>,
                                  comparePassword: (string, string) -> bool,
                                  fetched: Fetched, saveErr: Option<Error>)
    returns (reply: Reply)
    ensures req.Err? ==> reply == ErrorReply(StatusBadRequest, req.error)
    ensures req.Ok? && Refuses(repo, req.value, comparePassword) ==>
              reply == ErrorReply(StatusUnauthorized, IncorrectEmailOrPassword)
    ensures req.Ok? && reply != ErrorReply(StatusUnauthorized, IncorrectEmailOrPassword) ==>
              exists id :: Accepts(repo, id, req.value, comparePassword) &&
                           reply == SessionReply(fetched, saveErr, repo.users[id].id)
    ensures req.Ok? && !Refuses(repo, req.value, comparePassword) &&
            (forall id :: id in repo.users && repo.users[id].email == req.value.email ==>
                          Accepts(repo, id, req.value, comparePassword)) ==>
              reply != ErrorReply(StatusUnauthorized, IncorrectEmailOrPassword)
    ensures |reply.bodies| <= 1
  {
    var rw := Unwritten;
    if req.Err? {
      rw := Error(rw, StatusBadRequest, req.error);
      return rw;
    }
    var found := repo.FindByEmail(req.value.email);
    if found.Err? || !comparePassword(found.value.encryptedPassword, req.value.password) {
      rw := Error(rw, StatusUnauthorized, IncorrectEmailOrPassword);
      return rw;
    }
    var u := found.value;
    if fetched.err != None {
      rw := Error(rw, StatusInternalServerError, fetched.err.value);
      return rw;
    }
    var session := LoggedIn(fetched.session, u.id);
    if saveErr != None {
      rw := Error(rw, StatusInternalServerError, saveErr.value);
      return rw;
    }
    rw := SetCookie(rw, session);
    rw := Respond(rw, StatusOK, None);
    return rw;
  }
}
