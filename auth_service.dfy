/** service/auth.go: registration, login with a session per refresh token,
    and renewal of the access token from a refresh token and its session. */
module AuthService {
  import opened Prelude
  import opened GoStrings
  import opened ServiceError
  import opened Repository
  import Store
  import opened Jwt
  import opened Dto

  type RegisterParams = RegisterRequestBody

  /** The login body with the client's user agent and address. */
  datatype LoginParams = LoginParams(body: LoginRequestBody, userAgent: string, clientIp: string)

  /** The renewal body with the client's user agent and address. */
  datatype RenewAccessTokenParams = RenewAccessTokenParams(body: RenewAccessTokenRequestBody, userAgent: string, clientIp: string)

  /** util/bcrypt, abstracted.
      - `generate(password, salt)`: `HashPassword` with the random salt drawn
        for this call; it may fail;
      - `compare(hashed, password)`: `CheckPassword`, `Nil` when they match. */
  datatype PasswordHasher = PasswordHasher(
    generate: (string, string) -> Result<string, Error>,
    compare: (string, string) -> Error)

  /** A password matches the hash made from it. */
  ghost predicate Sound(h: PasswordHasher)
  {
    forall password, salt :: h.generate(password, salt).Ok? ==> h.compare(h.generate(password, salt).value, password) == Nil
  }

  /** How a refused user insert is reported: a duplicate key naming the phone
      number, or else the opaque internal error. */
  function RegisterFailure(e: DbError): (r: CustomErr)
    ensures r == ErrDuplicatePhoneNumber || r == NewErrInternalServer(AsError(e))
  {
    match e
    case MySqlError(n, m) =>
      if n == DbDuplicateError && Contains(m, "phone_number") then ErrDuplicatePhoneNumber
      else NewErrInternalServer(AsError(e))
    case _ => NewErrInternalServer(AsError(e))
  }

  /** MySQL's duplicate-key message for the phone number names its column. */
  lemma DuplicatePhoneNamesColumn(phoneNumber: string)
    ensures Contains(Store.DuplicateEntryMessage(phoneNumber, "user.phone_number"), "phone_number")
  {
    var a := "Duplicate entry '" + phoneNumber + "' for key 'user.";
    assert "user.phone_number" == "user." + "phone_number";
    assert Store.DuplicateEntryMessage(phoneNumber, "user.phone_number") == a + "phone_number" + "'";
    ContainsMiddle(a, "phone_number", "'");
  }

  /** A taken phone number is reported as such; any other refusal is internal. */
  lemma RegisterRefusal(users: map<string, User>, arg: Store.CreateUserParams, fault: Option<string>)
    requires Store.CreateUserError(users, arg, fault).Some?
    ensures var r := RegisterFailure(Store.CreateUserError(users, arg, fault).value);
      && (r == ErrDuplicatePhoneNumber <==> fault.None?)
      && (fault.Some? ==> r == NewErrInternalServer(Nil))
  {
    DuplicatePhoneNamesColumn(arg.phoneNumber);
  }

  /** The user lookup and password check of `Login`. */
  function Credentials(users: map<string, User>, body: LoginRequestBody, hasher: PasswordHasher,
                       fault: Option<string>): (r: Result<User, CustomErr>)
    ensures r.Ok? <==>
              fault.None? && body.phoneNumber in users
              && hasher.compare(users[body.phoneNumber].hashedPassword, body.password) == Nil
    ensures r.Ok? ==> r.value == users[body.phoneNumber]
    ensures r == Err(ErrNotFoundUser) <==> fault.None? && body.phoneNumber !in users
    ensures r == Err(ErrWrongPassword) <==>
              fault.None? && body.phoneNumber in users
              && hasher.compare(users[body.phoneNumber].hashedPassword, body.password) != Nil
    ensures fault.Some? ==> r == Err(NewErrInternalServer(Msg(fault.value)))
  {
    match Store.LookupRow(users, body.phoneNumber, fault)
    case Err(NoRows) => Err(ErrNotFoundUser)
    case Err(e) => Err(NewErrInternalServer(AsError(e)))
    case Ok(u) => if hasher.compare(u.hashedPassword, body.password) != Nil then Err(ErrWrongPassword) else Ok(u)
  }

  /** A user registered with a password logs in with that password. */
  lemma RegisteredPasswordAccepted(users: map<string, User>, phoneNumber: string, password: string,
                                   hasher: PasswordHasher, salt: string)
    requires Sound(hasher) && hasher.generate(password, salt).Ok?
    requires phoneNumber in users && users[phoneNumber].hashedPassword == hasher.generate(password, salt).value
    ensures Credentials(users, RegisterRequestBody(phoneNumber, password), hasher, None) == Ok(users[phoneNumber])
  {
    assert hasher.compare(hasher.generate(password, salt).value, password) == Nil;
  }

  /** The session `Login` records for a refresh token: keyed by the token's id,
      expiring with it, not blocked. */
  function LoginSession(u: User, refresh: Issued, params: LoginParams): (s: Store.CreateSessionParams)
    ensures s.id == refresh.payload.id && s.userId == u.id && s.refreshToken == refresh.token
    ensures s.userAgent == params.userAgent && s.clientIp == params.clientIp
    ensures !s.isBlocked && s.expiredAt == refresh.payload.expiredAt
  {
    Store.CreateSessionParams(refresh.payload.id, u.id, refresh.token, params.userAgent, params.clientIp,
                              false, refresh.payload.expiredAt)
  }

  /** `RenewAccessToken`: the refresh token must verify, its session must
      exist, be open, belong to the token's user, hold this very token and
      not have expired, checked in that order, each refusal with an error of
      its own; then a new access token is issued for the token's user and the
      refresh token is handed back as it came. The service reads the clock
      three times: `verifiedAt` when the token is verified, `checkedAt` when
      the session's expiry is checked, `issuedAt` when the access token is made. */
  function RenewAccessToken(codec: TokenCodec, config: Config, sessions: map<string, Session>,
                            params: RenewAccessTokenParams, fault: Option<string>,
                            verifiedAt: Time, checkedAt: Time, issuedAt: Time,
                            accessId: Result<string, Error>): (r: Result<RenewAccessTokenResponse, CustomErr>)
    ensures var v := VerifyToken(codec, params.body.refreshToken, config.jwtSecret, verifiedAt);
            v.Err? ==> r == Err(NewErrBadRequest(v.error))
    ensures var v := VerifyToken(codec, params.body.refreshToken, config.jwtSecret, verifiedAt);
            v.Ok? && fault.Some? ==> r == Err(NewErrInternalServer(Msg(fault.value)))
    ensures r == Err(ErrNotFoundSession) <==>
              var v := VerifyToken(codec, params.body.refreshToken, config.jwtSecret, verifiedAt);
              v.Ok? && fault.None? && v.value.id !in sessions
    ensures r == Err(ErrBlockedSession) <==>
              var v := VerifyToken(codec, params.body.refreshToken, config.jwtSecret, verifiedAt);
              && v.Ok? && fault.None? && v.value.id in sessions
              && sessions[v.value.id].isBlocked
    ensures r == Err(ErrIncorrectSessionUser) <==>
              var v := VerifyToken(codec, params.body.refreshToken, config.jwtSecret, verifiedAt);
              && v.Ok? && fault.None? && v.value.id in sessions
              && !sessions[v.value.id].isBlocked
              && sessions[v.value.id].userId != v.value.userId
    ensures r == Err(ErrMismatchedSessionToken) <==>
              var v := VerifyToken(codec, params.body.refreshToken, config.jwtSecret, verifiedAt);
              && v.Ok? && fault.None? && v.value.id in sessions
              && !sessions[v.value.id].isBlocked
              && sessions[v.value.id].userId == v.value.userId
              && sessions[v.value.id].refreshToken != params.body.refreshToken
    ensures r == Err(ErrExpiredSession) <==>
              var v := VerifyToken(codec, params.body.refreshToken, config.jwtSecret, verifiedAt);
              && v.Ok? && fault.None? && v.value.id in sessions
              && !sessions[v.value.id].isBlocked
              && sessions[v.value.id].userId == v.value.userId
              && sessions[v.value.id].refreshToken == params.body.refreshToken
              && After(checkedAt, sessions[v.value.id].expiredAt)
    ensures r.Ok? <==>
              var v := VerifyToken(codec, params.body.refreshToken, config.jwtSecret, verifiedAt);
              && v.Ok? && fault.None? && v.value.id in sessions
              && !sessions[v.value.id].isBlocked
              && sessions[v.value.id].userId == v.value.userId
              && sessions[v.value.id].refreshToken == params.body.refreshToken
              && !After(checkedAt, sessions[v.value.id].expiredAt)
              && accessId.Ok?
    ensures accessId.Err? ==>
              var v := VerifyToken(codec, params.body.refreshToken, config.jwtSecret, verifiedAt);
              && v.Ok? && fault.None? && v.value.id in sessions
              && !sessions[v.value.id].isBlocked
              && sessions[v.value.id].userId == v.value.userId
              && sessions[v.value.id].refreshToken == params.body.refreshToken
              && !After(checkedAt, sessions[v.value.id].expiredAt)
              ==> r == Err(NewErrInternalServer(accessId.error))
    ensures r.Err? && r.error.code == StatusInternalServerError ==>
              var v := VerifyToken(codec, params.body.refreshToken, config.jwtSecret, verifiedAt);
              v.Ok? && (fault.Some? || accessId.Err?)
    ensures r.Ok? ==>
              var p := VerifyToken(codec, params.body.refreshToken, config.jwtSecret, verifiedAt).value;
              && r.value.refreshToken == params.body.refreshToken
              && r.value.accessToken ==
                   CreateToken(codec, p.userId, config.jwtSecret, config.accessTokenDuration, accessId, issuedAt).value.token
  {
    match VerifyToken(codec, params.body.refreshToken, config.jwtSecret, verifiedAt)
    case Err(e) => Err(NewErrBadRequest(e))
    case Ok(p) =>
      match Store.LookupRow(sessions, p.id, fault)
      case Err(NoRows) => Err(ErrNotFoundSession)
      case Err(e) => Err(NewErrInternalServer(AsError(e)))
      case Ok(s) =>
        if s.isBlocked then Err(ErrBlockedSession)
        else if s.userId != p.userId then Err(ErrIncorrectSessionUser)
        else if s.refreshToken != params.body.refreshToken then Err(ErrMismatchedSessionToken)
        else if After(checkedAt, s.expiredAt) then Err(ErrExpiredSession)
        else
          match CreateToken(codec, p.userId, config.jwtSecret, config.accessTokenDuration, accessId, issuedAt)
          case Err(e) => Err(NewErrInternalServer(e))
          case Ok(access) => Ok(LoginResponseBody(access.token, params.body.refreshToken))
  }

  /** The row `CreateSession` stores for the session of a login. */
  function StoredSession(arg: Store.CreateSessionParams, createdAt: Time): Session
  {
    Session(arg.id, arg.userId, arg.refreshToken, arg.userAgent, arg.clientIp, arg.isBlocked, arg.expiredAt, createdAt)
  }

  /** Round trip: the refresh token of a login, sent back while its session
      is stored and before it expires at both clock reads that check it,
      renews to a fresh access token for the same user and returns the same
      refresh token, from any client. */
  lemma RenewAfterLogin(codec: TokenCodec, config: Config, sessions: map<string, Session>, u: User,
                        login: LoginParams, refreshId: Result<string, Error>, loginAt: Time,
                        createdAt: Time, userAgent: string, clientIp: string,
                        verifiedAt: Time, checkedAt: Time, issuedAt: Time, accessId: Result<string, Error>)
    requires RoundTrips(codec) && refreshId.Ok? && accessId.Ok?
    requires !After(verifiedAt, loginAt + config.refreshTokenDuration)
    requires !After(checkedAt, loginAt + config.refreshTokenDuration)
    requires var refresh := CreateToken(codec, u.id, config.jwtSecret, config.refreshTokenDuration, refreshId, loginAt);
             refresh.Ok? ==>
               var arg := LoginSession(u, refresh.value, login);
               arg.id in sessions && sessions[arg.id] == StoredSession(arg, createdAt)
    ensures var refresh := CreateToken(codec, u.id, config.jwtSecret, config.refreshTokenDuration, refreshId, loginAt);
      && refresh.Ok?
      && RenewAccessToken(codec, config, sessions,
                          RenewAccessTokenParams(RenewAccessTokenRequestBody(refresh.value.token), userAgent, clientIp),
                          None, verifiedAt, checkedAt, issuedAt, accessId)
         == Ok(LoginResponseBody(
                 CreateToken(codec, u.id, config.jwtSecret, config.accessTokenDuration, accessId, issuedAt).value.token,
                 refresh.value.token))
  {
    VerifyCreatedToken(codec, u.id, config.jwtSecret, config.refreshTokenDuration, refreshId, loginAt, verifiedAt);
  }

  /** When the refresh token has already expired at the read that verifies it,
      the renewal is refused with the token's own expiry error, whatever the
      sessions and the later reads. */
  lemma RenewAfterExpiry(codec: TokenCodec, config: Config, sessions: map<string, Session>, u: User,
                         refreshId: Result<string, Error>, loginAt: Time, params: RenewAccessTokenParams,
                         fault: Option<string>, verifiedAt: Time, checkedAt: Time, issuedAt: Time,
                         accessId: Result<string, Error>)
    requires RoundTrips(codec) && refreshId.Ok?
    requires After(verifiedAt, loginAt + config.refreshTokenDuration)
    requires var refresh := CreateToken(codec, u.id, config.jwtSecret, config.refreshTokenDuration, refreshId, loginAt);
             refresh.Ok? ==> params.body.refreshToken == refresh.value.token
    ensures RenewAccessToken(codec, config, sessions, params, fault, verifiedAt, checkedAt, issuedAt, accessId)
              == Err(NewErrBadRequest(ErrExpiredToken))
  {
    VerifyCreatedTokenLate(codec, u.id, config.jwtSecret, config.refreshTokenDuration, refreshId, loginAt, verifiedAt);
  }

  /** The session of a login expires with its refresh token, so the session's
      own expiry refuses a renewal only when the clock passes that instant
      between the read that verifies the token and the read that checks the
      session. */
  lemma ExpiredSessionBetweenReads(codec: TokenCodec, config: Config, sessions: map<string, Session>, u: User,
                                   login: LoginParams, refreshId: Result<string, Error>, loginAt: Time,
                                   createdAt: Time, userAgent: string, clientIp: string,
                                   verifiedAt: Time, checkedAt: Time, issuedAt: Time, accessId: Result<string, Error>)
    requires RoundTrips(codec) && refreshId.Ok?
    requires !After(verifiedAt, loginAt + config.refreshTokenDuration)
    requires var refresh := CreateToken(codec, u.id, config.jwtSecret, config.refreshTokenDuration, refreshId, loginAt);
             refresh.Ok? ==>
               var arg := LoginSession(u, refresh.value, login);
               arg.id in sessions && sessions[arg.id] == StoredSession(arg, createdAt)
    ensures var refresh := CreateToken(codec, u.id, config.jwtSecret, config.refreshTokenDuration, refreshId, loginAt);
      && refresh.Ok?
      && (RenewAccessToken(codec, config, sessions,
                           RenewAccessTokenParams(RenewAccessTokenRequestBody(refresh.value.token), userAgent, clientIp),
                           None, verifiedAt, checkedAt, issuedAt, accessId) == Err(ErrExpiredSession)
          <==> After(checkedAt, loginAt + config.refreshTokenDuration))
  {
    VerifyCreatedToken(codec, u.id, config.jwtSecret, config.refreshTokenDuration, refreshId, loginAt, verifiedAt);
  }

  /** The service, over the database it writes. */
  class AuthService {
    const store: Store.Store
    const codec: TokenCodec
    const hasher: PasswordHasher
    const config: Config

    constructor(store: Store.Store, codec: TokenCodec, hasher: PasswordHasher, config: Config)
      ensures this.store == store && this.codec == codec && this.hasher == hasher && this.config == config
    {
      this.store := store;
      this.codec := codec;
      this.hasher := hasher;
      this.config := config;
    }

    /** `Register`: stores the user with the hash of the password, never the
        password itself; a taken phone number is reported as such. */
    method Register(params: RegisterParams, salt: string, fault: Option<string>, now: Time) returns (cErr: CustomErr)
      requires store.Valid()
      modifies store
      ensures store.Valid()
      ensures hasher.generate(params.password, salt).Err? ==>
                cErr == NewErrInternalServer(hasher.generate(params.password, salt).error)
                && store.users == old(store.users)
      ensures hasher.generate(params.password, salt).Ok? ==>
                var arg := Store.CreateUserParams(params.phoneNumber, hasher.generate(params.password, salt).value);
                var refusal := Store.CreateUserError(old(store.users), arg, fault);
                && (refusal.Some? ==> cErr == RegisterFailure(refusal.value) && store.users == old(store.users))
                && (refusal.None? ==>
                      cErr == NoErr
                      && store.users == old(store.users)[params.phoneNumber :=
                           User(old(store.nextUserId), params.phoneNumber, arg.hashedPassword, now)])
      ensures store.sessions == old(store.sessions) && store.products == old(store.products)
    {
      var hashed := hasher.generate(params.password, salt);
      if hashed.Err? {
        return NewErrInternalServer(hashed.error);
      }
      var arg := Store.CreateUserParams(params.phoneNumber, hashed.value);
      var err := store.CreateUser(arg, fault, now);
      if err.Some? {
        return RegisterFailure(err.value);
      }
      cErr := NoErr;
    }

    /** `Login`: checks the credentials, issues an access and a refresh
        token, and records a session for the refresh token; the tokens are
        handed out only once the session is stored. */
    method Login(params: LoginParams, lookupFault: Option<string>, accessId: Result<string, Error>,
                 refreshId: Result<string, Error>, sessionFault: Option<string>, now: Time)
      returns (result: LoginResponseBody, cErr: CustomErr)
      requires store.Valid()
      modifies store
      ensures store.Valid()
      ensures cErr != NoErr ==> result == EmptyLoginResponse && store.sessions == old(store.sessions)
      ensures var cred := Credentials(old(store.users), params.body, hasher, lookupFault);
              && (cred.Err? ==> cErr == cred.error)
              && (cred.Ok? && (accessId.Err? || refreshId.Err?) ==> cErr == NewErrInternalServer(Nil))
              && (cred.Ok? && accessId.Ok? && refreshId.Ok? ==>
                    var access := CreateToken(codec, cred.value.id, config.jwtSecret, config.accessTokenDuration, accessId, now).value;
                    var refresh := CreateToken(codec, cred.value.id, config.jwtSecret, config.refreshTokenDuration, refreshId, now).value;
                    var arg := LoginSession(cred.value, refresh, params);
                    var refusal := Store.CreateSessionError(old(store.users), old(store.sessions), arg, sessionFault);
                    && (refusal.Some? ==> cErr == NewErrInternalServer(Nil))
                    && (refusal.None? ==>
                          cErr == NoErr
                          && result == LoginResponseBody(access.token, refresh.token)
                          && store.sessions == old(store.sessions)[arg.id := StoredSession(arg, now)]))
      ensures store.users == old(store.users) && store.products == old(store.products)
    {
      result := EmptyLoginResponse;
      var cred := Credentials(store.users, params.body, hasher, lookupFault);
      if cred.Err? {
        return result, cred.error;
      }
      var user := cred.value;
      var access := CreateToken(codec, user.id, config.jwtSecret, config.accessTokenDuration, accessId, now);
      if access.Err? {
        return result, NewErrInternalServer(access.error);
      }
      var refresh := CreateToken(codec, user.id, config.jwtSecret, config.refreshTokenDuration, refreshId, now);
      if refresh.Err? {
        return result, NewErrInternalServer(refresh.error);
      }
      var arg := LoginSession(user, refresh.value, params);
      var err := store.CreateSession(arg, sessionFault, now);
      if err.Some? {
        return result, NewErrInternalServer(AsError(err.value));
      }
      result, cErr := LoginResponseBody(access.value.token, refresh.value.token), NoErr;
    }
  }
}
