/**
 * auth/src/auth/auth.service.ts: registration, account verification, login
 * and token renewal over the user store. Password hashing, JWT signing and
 * verification are parameters; every caught error goes through the auth
 * `logAndHandleError`, which logs one record and always throws.
 */
module Auth {
  import opened Wrappers
  import opened Js
  import opened Errors
  import opened Logs
  import opened LogHelpers
  import opened Redis
  import UsersCache

  const SERVICE_NAME := "auth"
  const USER_REGISTER := "user.register"
  const BAD_REQUEST := 400
  const UNAUTHORIZED := 401
  const NOT_FOUND := 404
  const USER_EXISTS := "User already exists"
  const ALREADY_ACTIVE := "User already active"
  const BAD_CREDENTIALS := "Email or password incorrect"
  const NOT_ACTIVE := "The account is not active"

  /** A stored user; `password` holds the hash, `token` the registration token. */
  datatype User = User(id: string, email: string, password: string, active: bool, role: string, token: Option<string>)

  /** The JWT payload `{ id, email, role }`. */
  datatype Claims = Claims(id: string, email: string, role: string)

  /** The user `login` returns: the stored user without `active`, `password`, `createdAt` and `updatedAt`. */
  datatype PublicUser = PublicUser(id: string, email: string, role: string, token: Option<string>)

  datatype AuthReply =
    | Done(message: string)                        // `{ status: 'success', message }`
    | LoggedIn(user: PublicUser, jwt: string)      // `{ user, token, status: 'success' }`
    | Renewed(jwt: string, claims: Claims)         // `{ status: 'success', token, user }`

  /** Where a database or Redis call fails, if anywhere, and with which error. */
  datatype Fault = NoFault | AtRead(error: Thrown) | AtWrite(error: Thrown) | AtPublish(error: Thrown)

  function ClaimsOf(u: User): (c: Claims)
    // the token's payload: id, email and role, and nothing of the password or the activation state
    ensures c.id == u.id && c.email == u.email && c.role == u.role
  {
    Claims(u.id, u.email, u.role)
  }

  function PublicOf(u: User): (p: PublicUser)
    ensures p.id == u.id && p.email == u.email && p.role == u.role
  {
    PublicUser(u.id, u.email, u.role, u.token)
  }

  /** `crypto.randomBytes(20).toString('hex')`: forty lower-case hex digits. */
  predicate IsRegistrationToken(token: string)
    // two hex digits for each of the twenty random bytes
    ensures IsRegistrationToken(token) ==> |token| == 2 * 20 && token != ""
  {
    |token| == 40 && forall i :: 0 <= i < |token| ==> '0' <= token[i] <= '9' || 'a' <= token[i] <= 'f'
  }

  // ---------------------------------------------------------------- create

  /** The error the `try` block of `create` ends with, if any. */
  function CreateFailure(users: map<string, User>, email: string, fault: Fault): (e: Option<Thrown>)
    ensures e.None? ==> email !in users && fault.NoFault?
    ensures !fault.AtRead? && email in users ==> e == Some(Rpc(USER_EXISTS, BAD_REQUEST))
  {
    if fault.AtRead? then Some(fault.error)
    else if email in users then Some(Rpc(USER_EXISTS, BAD_REQUEST))
    else if fault.AtWrite? || fault.AtPublish? then Some(fault.error)
    else None
  }

  /** `create` writes the user once the email is known to be free and the write itself does not fail. */
  predicate CreateWrites(users: map<string, User>, email: string, fault: Fault)
    // the user is stored exactly when the `try` gets past the write: it succeeds, or only the publish fails
    ensures CreateWrites(users, email, fault) <==> CreateFailure(users, email, fault).None? || (fault.AtPublish? && email !in users)
  {
    !fault.AtRead? && email !in users && !fault.AtWrite?
  }

  /** An existing email is refused with 400 whatever else happens later: nothing is written. */
  lemma DuplicateEmailRefused(users: map<string, User>, email: string, fault: Fault)
    requires email in users && !fault.AtRead?
    ensures CreateFailure(users, email, fault) == Some(Rpc(USER_EXISTS, BAD_REQUEST))
    ensures !CreateWrites(users, email, fault)
    // logged at INFO level: a client error
    ensures !AtLeast(ExtractErrorDetails(CreateFailure(users, email, fault).value).status, 500)
  {
  }

  // ---------------------------------------------------------------- verifyAccount

  /** `findByTokenNotActive(token)`: the inactive users holding the token. */
  function Pending(users: map<string, User>, token: string): (s: set<string>)
    ensures forall e :: e in s <==> e in users && users[e].token == Some(token) && !users[e].active
  {
    set e | e in users && users[e].token == Some(token) && !users[e].active
  }

  /** `activeUser`: the account becomes active; nothing else about it changes. */
  function Activated(users: map<string, User>, email: string): (u: map<string, User>)
    requires email in users
    ensures u.Keys == users.Keys
    ensures u[email] == users[email].(active := true)
    ensures forall e :: e in users && e != email ==> u[e] == users[e]
  {
    users[email := users[email].(active := true)]
  }

  /** The error the `try` block of `verifyAccount` ends with, if any. */
  function VerifyFailure(users: map<string, User>, token: string, fault: Fault): (e: Option<Thrown>)
    ensures !fault.AtRead? && Pending(users, token) == {} ==> e == Some(Rpc(ALREADY_ACTIVE, NOT_FOUND))
    ensures e.None? ==> Pending(users, token) != {} && fault.NoFault?
  {
    if fault.AtRead? then Some(fault.error)
    else if Pending(users, token) == {} then Some(Rpc(ALREADY_ACTIVE, NOT_FOUND))
    else if fault.AtWrite? || fault.AtPublish? then Some(fault.error)
    else None
  }

  /** A registration token works once: after the account it names is active, the same token is refused with 404. */
  lemma TokenWorksOnce(users: map<string, User>, token: string, email: string)
    requires Pending(users, token) == {email}
    ensures VerifyFailure(users, token, NoFault).None?
    ensures VerifyFailure(Activated(users, email), token, NoFault) == Some(Rpc(ALREADY_ACTIVE, NOT_FOUND))
  {
    var after := Activated(users, email);
    assert forall e :: e in Pending(after, token) ==> e in Pending(users, token) && e != email;
  }

  /** `redis.del('AllUsers')` drops the unpaginated list only: every paginated list stays cached. */
  lemma VerifyKeepsPaginatedLists(entries: map<string, Entry>, limit: int, page: int, now: int)
    requires limit != 0
    ensures Stored(entries - {UsersCache.ALL_USERS}, UsersCache.UsersKey(limit, page), now) == Stored(entries, UsersCache.UsersKey(limit, page), now)
    ensures Stored(entries - {UsersCache.ALL_USERS}, UsersCache.UsersKey(0, page), now).None?
  {
    UsersCache.OnlyFirstKeyIsBare(limit, page);
    UsersCache.OnlyFirstKeyIsBare(0, page);
    OtherKeysUntouched(entries, UsersCache.ALL_USERS, UsersCache.UsersKey(limit, page), Entry(Undefined, 0), now);
  }

  // ---------------------------------------------------------------- login

  /** The checks of `login`, in their order: existence, then activation, then the password. */
  function LoginFailure(users: map<string, User>, email: string, password: string, hash: string -> string, fault: Fault): (e: Option<Thrown>)
    ensures e.None? <==> !fault.AtRead? && email in users && users[email].active && hash(password) == users[email].password
  {
    if fault.AtRead? then Some(fault.error)
    else if email !in users then Some(Rpc(BAD_CREDENTIALS, BAD_REQUEST))
    else if !users[email].active then Some(Rpc(NOT_ACTIVE, UNAUTHORIZED))
    else if hash(password) != users[email].password then Some(Rpc(BAD_CREDENTIALS, BAD_REQUEST))
    else None
  }

  /** An unknown email and a wrong password for an active account are refused identically. */
  lemma LoginHidesWhichCredentialFailed(users: map<string, User>, unknown: string, email: string, wrong: string, hash: string -> string)
    requires unknown !in users
    requires email in users && users[email].active && hash(wrong) != users[email].password
    ensures LoginFailure(users, unknown, wrong, hash, NoFault) == LoginFailure(users, email, wrong, hash, NoFault)
    ensures LoginFailure(users, unknown, wrong, hash, NoFault) == Some(Rpc(BAD_CREDENTIALS, BAD_REQUEST))
  {
  }

  /** Activation is checked before the password: an inactive account answers 401 whatever password is given. */
  lemma InactiveCheckedBeforePassword(users: map<string, User>, email: string, password: string, hash: string -> string)
    requires email in users && !users[email].active
    ensures LoginFailure(users, email, password, hash, NoFault) == Some(Rpc(NOT_ACTIVE, UNAUTHORIZED))
  {
  }

  /**
   * Register, then verify with the registration token, then log in with the
   * same password: refused (401) before the verification, accepted after.
   */
  lemma RegisterVerifyLogin(users: map<string, User>, email: string, password: string, id: string, role: string, token: string,
                            hash: string -> string)
    requires email !in users && Pending(users, token) == {}
    ensures var registered := users[email := User(id, email, hash(password), false, role, Some(token))];
      && LoginFailure(registered, email, password, hash, NoFault) == Some(Rpc(NOT_ACTIVE, UNAUTHORIZED))
      && Pending(registered, token) == {email}
      && LoginFailure(Activated(registered, email), email, password, hash, NoFault).None?
  {
    var registered := users[email := User(id, email, hash(password), false, role, Some(token))];
    assert forall e :: e in Pending(registered, token) && e != email ==> e in Pending(users, token);
  }

  // ---------------------------------------------------------------- verifyToken

  /**
   * `verifyToken`. `verify` answers the payload of a valid token and None for
   * an invalid or expired one (or a falsy payload).
   */
  function VerifyToken(token: string, verify: string -> Option<Claims>, sign: Claims -> string): (r: Completion<AuthReply>)
    ensures r.Throw? <==> verify(token).None?
    // every failure, whatever its cause, reaches the caller as the generic 500
    ensures r.Throw? ==> r.error == InternalError()
    ensures r.Normal? ==> r.value == Renewed(sign(verify(token).value), verify(token).value)
  {
    match verify(token)
    case None => Throw(HandleRpcErrorAuth(OtherError(map["name" := Str("UnauthorizedException")])).error)
    case Some(payload) => Normal(Renewed(sign(Claims(payload.id, payload.email, payload.role)), Claims(payload.id, payload.email, payload.role)))
  }

  /** When verification undoes signing, a renewed token names the same user as the token it replaces. */
  lemma RenewedTokenNamesSameUser(token: string, verify: string -> Option<Claims>, sign: Claims -> string)
    requires forall c :: verify(sign(c)) == Some(c)
    requires VerifyToken(token, verify, sign).Normal?
    ensures VerifyToken(VerifyToken(token, verify, sign).value.jwt, verify, sign).Normal?
    ensures VerifyToken(VerifyToken(token, verify, sign).value.jwt, verify, sign).value.claims == VerifyToken(token, verify, sign).value.claims
  {
    var c := verify(token).value;
    assert verify(sign(c)) == Some(c);
  }

  /** The token `login` hands out verifies to the id, email and role of the user who logged in. */
  lemma LoginTokenVerifies(u: User, verify: string -> Option<Claims>, sign: Claims -> string)
    requires forall c :: verify(sign(c)) == Some(c)
    ensures VerifyToken(sign(ClaimsOf(u)), verify, sign) == Normal(Renewed(sign(ClaimsOf(u)), Claims(u.id, u.email, u.role)))
  {
    assert verify(sign(ClaimsOf(u))) == Some(ClaimsOf(u));
  }

  // ---------------------------------------------------------------- the service

  class AuthService {
    /** The users, by email (the schema makes emails unique). */
    var users: map<string, User>
    const redis: RedisClient
    const logger: LoggerService
    /** The role and the `active` flag a new account starts with. */
    const defaultRole: string
    const activeOnCreate: bool
    /** The password hash the schema's save hook applies; `comparePassword(p)` is `hash(p) == password`. */
    const hash: string -> string

    constructor (redis: RedisClient, logger: LoggerService, defaultRole: string, activeOnCreate: bool, hash: string -> string)
      ensures users == map[] && this.redis == redis && this.logger == logger
      ensures this.defaultRole == defaultRole && this.activeOnCreate == activeOnCreate && this.hash == hash
    {
      users := map[];
      this.redis := redis;
      this.logger := logger;
      this.defaultRole := defaultRole;
      this.activeOnCreate := activeOnCreate;
      this.hash := hash;
    }

    function NewUser(id: string, email: string, password: string, token: string): User
      reads this
    {
      User(id, email, hash(password), activeOnCreate, defaultRole, Some(token))
    }

    /** `create`: `token` is the random registration token, `newId` the id the database assigns. */
    method Create(email: string, password: string, requestId: string, token: string, newId: string, fault: Fault)
      returns (r: Completion<AuthReply>)
      requires IsRegistrationToken(token)
      modifies this, redis, logger
      ensures redis.entries == old(redis.entries)
      ensures users == if CreateWrites(old(users), email, fault) then old(users)[email := NewUser(newId, email, password, token)] else old(users)
      // one 'user.register' notice exactly when the whole registration went through
      ensures redis.published == old(redis.published) +
        (if CreateFailure(old(users), email, fault).None? then [Message(USER_REGISTER, Object2("email", Str(email), "token", Str(token)))] else [])
      ensures CreateFailure(old(users), email, fault).None? ==>
        r == Normal(Done("Create user successfully")) &&
        logger.outbox == old(logger.outbox) + [InfoRecord(requestId, SERVICE_NAME, newId, "auth.create", Str("Create user successfully"),
          Obj(map["userId" := Str(newId), "email" := Str(email), "role" := Str(defaultRole)]))]
      ensures CreateFailure(old(users), email, fault).Some? ==>
        r == Throw(HandleRpcErrorAuth(CreateFailure(old(users), email, fault).value).error) &&
        logger.outbox == old(logger.outbox) + [HandlerRecord(CreateFailure(old(users), email, fault).value, Some(requestId), SERVICE_NAME, Some(email), "auth.create")]
    {
      var failure: Thrown;
      if fault.AtRead? {
        failure := fault.error;
      } else if email in users {
        failure := Rpc(USER_EXISTS, BAD_REQUEST);
      } else if fault.AtWrite? {
        failure := fault.error;
      } else {
        users := users[email := NewUser(newId, email, password, token)];
        if fault.AtPublish? {
          failure := fault.error;
        } else {
          redis.Publish(USER_REGISTER, Object2("email", Str(email), "token", Str(token)));
          logger.LogInfo(requestId, SERVICE_NAME, newId, "auth.create", Str("Create user successfully"),
            Obj(map["userId" := Str(newId), "email" := Str(email), "role" := Str(defaultRole)]));
          return Normal(Done("Create user successfully"));
        }
      }
      var handled := LogAndHandleErrorAuth(failure, logger, Some(requestId), SERVICE_NAME, Some(email), "auth.create");
      r := Throw(handled.error);
    }

    /** `verifyAccount`: activates an inactive account holding the token and drops the cached 'AllUsers' list. */
    method VerifyAccount(token: string, requestId: string, fault: Fault) returns (r: Completion<AuthReply>)
      modifies this, redis, logger
      ensures redis.published == old(redis.published)
      // refused (404 unless the lookup failed): nothing changes but the log
      ensures fault.AtRead? || Pending(old(users), token) == {} ==>
        users == old(users) && redis.entries == old(redis.entries) &&
        r == Throw(HandleRpcErrorAuth(VerifyFailure(old(users), token, fault).value).error) &&
        logger.outbox == old(logger.outbox) + [HandlerRecord(VerifyFailure(old(users), token, fault).value, Some(requestId), SERVICE_NAME, Some(token), "auth.verify-account")]
      // otherwise one pending account is picked and activated, unless the write fails; its activation is logged
      // at INFO unless the write fails, and a failing write or `del` adds the handler's record
      ensures !fault.AtRead? && Pending(old(users), token) != {} ==>
        exists e :: e in Pending(old(users), token) &&
          users == (if fault.AtWrite? then old(users) else Activated(old(users), e)) &&
          logger.outbox == old(logger.outbox)
            + (if fault.AtWrite? then [] else
                 [InfoRecord(requestId, SERVICE_NAME, old(users)[e].id, "auth.verify-account", Str("Account verified"),
                             Object2("userId", Str(old(users)[e].id), "token", Str(token)))])
            + (if fault.NoFault? then [] else
                 [HandlerRecord(fault.error, Some(requestId), SERVICE_NAME, Some(token), "auth.verify-account")])
      ensures fault.NoFault? && Pending(old(users), token) != {} ==>
        redis.entries == old(redis.entries) - {UsersCache.ALL_USERS} && r == Normal(Done("Account verified"))
      ensures (fault.AtWrite? || fault.AtPublish?) && Pending(old(users), token) != {} ==>
        redis.entries == old(redis.entries) && r == Throw(HandleRpcErrorAuth(fault.error).error)
    {
      var failure: Thrown;
      if fault.AtRead? {
        failure := fault.error;
      } else if Pending(users, token) == {} {
        failure := Rpc(ALREADY_ACTIVE, NOT_FOUND);
      } else {
        var email :| email in Pending(users, token);
        if fault.AtWrite? {
          failure := fault.error;
        } else {
          var user := users[email];
          users := Activated(users, email);
          logger.LogInfo(requestId, SERVICE_NAME, user.id, "auth.verify-account", Str("Account verified"),
            Object2("userId", Str(user.id), "token", Str(token)));
          if fault.AtPublish? {
            failure := fault.error;
          } else {
            redis.Del(UsersCache.ALL_USERS);
            return Normal(Done("Account verified"));
          }
        }
      }
      var handled := LogAndHandleErrorAuth(failure, logger, Some(requestId), SERVICE_NAME, Some(token), "auth.verify-account");
      r := Throw(handled.error);
    }

    /** `login`; `sign` is `signToken`. Only the log changes. */
    method Login(email: string, password: string, requestId: string, fault: Fault, sign: Claims -> string)
      returns (r: Completion<AuthReply>)
      modifies logger
      ensures LoginFailure(users, email, password, hash, fault).None? ==>
        r == Normal(LoggedIn(PublicOf(users[email]), sign(ClaimsOf(users[email])))) &&
        logger.outbox == old(logger.outbox) + [InfoRecord(requestId, SERVICE_NAME, users[email].id, "auth.login", Str("Login successfully"),
          Obj(map["userId" := Str(users[email].id), "email" := Str(users[email].email), "role" := Str(users[email].role)]))]
      ensures LoginFailure(users, email, password, hash, fault).Some? ==>
        r == Throw(HandleRpcErrorAuth(LoginFailure(users, email, password, hash, fault).value).error) &&
        logger.outbox == old(logger.outbox) + [HandlerRecord(LoginFailure(users, email, password, hash, fault).value, Some(requestId), SERVICE_NAME, Some(email), "auth.login")]
    {
      var failure := LoginFailure(users, email, password, hash, fault);
      if failure.None? {
        var user := users[email];
        logger.LogInfo(requestId, SERVICE_NAME, user.id, "auth.login", Str("Login successfully"),
          Obj(map["userId" := Str(user.id), "email" := Str(user.email), "role" := Str(user.role)]));
        return Normal(LoggedIn(PublicOf(user), sign(ClaimsOf(user))));
      }
      var handled := LogAndHandleErrorAuth(failure.value, logger, Some(requestId), SERVICE_NAME, Some(email), "auth.login");
      r := Throw(handled.error);
    }
  }
}
