/** middleware/authorization.go and middleware/error.go: the bearer-token
    check that guards every product route. A request either is aborted with a
    401 error or goes on with the verified token payload stored under `user`. */
module Middleware {
  import opened Prelude
  import opened GoStrings
  import opened ServiceError
  import opened Jwt

  const AuthorizationHeaderKey: string := "authorization"
  const AuthorizationTypeBearer: string := "bearer"
  const AuthorizationPayloadKey: string := "user"

  const ErrEmptyAuthorizationHeader: CustomErr := CustomErr(StatusUnauthorized, Msg("authorization header is not provided"))
  const ErrInvalidAuthorizationHeader: CustomErr := CustomErr(StatusUnauthorized, Msg("invalid authorization header format"))
  const ErrInvalidAuthorizationBearer: CustomErr := CustomErr(StatusUnauthorized, Msg("unsupported authorization type"))

  /** `errToken`: a token error, reported as 401 with the error unchanged. */
  function ErrToken(err: Error): (e: CustomErr)
    ensures e.code == StatusUnauthorized && e.err == err
  {
    CustomErr(StatusUnauthorized, err)
  }

  /** What the handler does with the request: write an error response and
      stop, or store the payload in the context under `key` and call the next
      handler. */
  datatype AuthDecision = Abort(err: CustomErr) | Next(key: string, payload: Payload)

  /** The handler `AuthMiddleware(config)` returns, applied to the value of the
      `authorization` header at instant `now` (the header is empty when absent). */
  function Authorize(c: TokenCodec, config: Config, header: string, now: Time): (d: AuthDecision)
    ensures d.Abort? ==> d.err.code == StatusUnauthorized
    ensures header == [] <==> d == Abort(ErrEmptyAuthorizationHeader)
    ensures d == Abort(ErrInvalidAuthorizationHeader) <==> header != [] && |Fields(header)| < 2
    ensures d == Abort(ErrInvalidAuthorizationBearer) <==>
              |Fields(header)| >= 2 && ToLower(Fields(header)[0]) != AuthorizationTypeBearer
    ensures d.Next? <==>
              |Fields(header)| >= 2 && ToLower(Fields(header)[0]) == AuthorizationTypeBearer
              && VerifyToken(c, Fields(header)[1], config.jwtSecret, now).Ok?
    ensures d.Next? ==>
              d.key == AuthorizationPayloadKey
              && Ok(d.payload) == VerifyToken(c, Fields(header)[1], config.jwtSecret, now)
    ensures d.Abort? && d.err.err in {ErrInvalidToken, ErrExpiredToken} ==>
              |Fields(header)| >= 2 && d.err.err == VerifyToken(c, Fields(header)[1], config.jwtSecret, now).error
    ensures |Fields(header)| >= 2 && ToLower(Fields(header)[0]) == AuthorizationTypeBearer
            && VerifyToken(c, Fields(header)[1], config.jwtSecret, now).Err? ==>
              d == Abort(ErrToken(VerifyToken(c, Fields(header)[1], config.jwtSecret, now).error))
  {
    if |header| == 0 then Abort(ErrEmptyAuthorizationHeader)
    else
      var fields := Fields(header);
      if |fields| < 2 then Abort(ErrInvalidAuthorizationHeader)
      else if ToLower(fields[0]) != AuthorizationTypeBearer then Abort(ErrInvalidAuthorizationBearer)
      else
        match VerifyToken(c, fields[1], config.jwtSecret, now)
        case Err(e) => Abort(ErrToken(e))
        case Ok(p) => Next(AuthorizationPayloadKey, p)
  }

  /** The scheme is matched case-insensitively: each of the six letters may be
      written in either case. */
  predicate SpellsBearer(s: string)
  {
    |s| == 6
    && forall i :: 0 <= i < 6 ==> LowerRune(s[i]) == AuthorizationTypeBearer[i]
  }

  lemma BearerInAnyCase(s: string)
    requires SpellsBearer(s)
    ensures ToLower(s) == AuthorizationTypeBearer
  {
  }

  /** A header `<scheme><space><token>` has exactly the fields scheme and token. */
  lemma BearerHeaderFields(scheme: string, c: char, token: string)
    requires scheme != [] && NoSpace(scheme) && token != [] && NoSpace(token) && IsSpace(c)
    ensures Fields(scheme + [c] + token) == [scheme, token]
  {
    TwoFields(scheme, c, token);
  }

  /** A header that is a single word is malformed, whatever the word. */
  lemma SingleWordHeader(c: TokenCodec, config: Config, w: string, now: Time)
    requires w != [] && NoSpace(w)
    ensures Authorize(c, config, w, now) == Abort(ErrInvalidAuthorizationHeader)
  {
    FieldsOfWord(w);
  }

  /** Anything after the token is ignored: appending a white-space rune and
      more text never changes the decision. */
  lemma TrailingTextIgnored(c: TokenCodec, config: Config, scheme: string, s1: char, token: string,
                            s2: char, rest: string, now: Time)
    requires scheme != [] && NoSpace(scheme) && token != [] && NoSpace(token) && IsSpace(s1) && IsSpace(s2)
    ensures Authorize(c, config, scheme + [s1] + token + [s2] + rest, now)
         == Authorize(c, config, scheme + [s1] + token, now)
  {
    var h := scheme + [s1] + token;
    FieldsAtSpace(h, s2, rest);
    BearerHeaderFields(scheme, s1, token);
    assert Fields(h + [s2] + rest) == [scheme, token] + Fields(rest);
  }

  /** End to end: a token freshly created with the configured secret, sent as
      `<any casing of bearer><space><token>` before it expires, lets the
      request through with the payload it was created with. */
  lemma CreatedTokenPasses(c: TokenCodec, config: Config, scheme: string, sp: char, userId: int,
                           duration: Duration, tokenId: Result<string, Error>, issuedAt: Time, now: Time)
    requires RoundTrips(c) && tokenId.Ok? && SpellsBearer(scheme) && IsSpace(sp)
    requires !After(now, issuedAt + duration)
    requires var t := CreateToken(c, userId, config.jwtSecret, duration, tokenId, issuedAt);
             t.Ok? ==> t.value.token != [] && NoSpace(t.value.token)
    ensures var t := CreateToken(c, userId, config.jwtSecret, duration, tokenId, issuedAt);
      && t.Ok?
      && Authorize(c, config, scheme + [sp] + t.value.token, now) == Next(AuthorizationPayloadKey, t.value.payload)
  {
    var t := CreateToken(c, userId, config.jwtSecret, duration, tokenId, issuedAt);
    VerifyCreatedToken(c, userId, config.jwtSecret, duration, tokenId, issuedAt, now);
    assert NoSpace(scheme) by {
      forall i | 0 <= i < |scheme| ensures !IsSpace(scheme[i]) {
        assert LowerRune(scheme[i]) == AuthorizationTypeBearer[i];
      }
    }
    BearerHeaderFields(scheme, sp, t.value.token);
    BearerInAnyCase(scheme);
  }

  /** The same token past its expiry is rejected with the expired-token error,
      which the client can tell apart from a forged one. */
  lemma ExpiredTokenRejected(c: TokenCodec, config: Config, scheme: string, sp: char, userId: int,
                             duration: Duration, tokenId: Result<string, Error>, issuedAt: Time, now: Time)
    requires RoundTrips(c) && tokenId.Ok? && SpellsBearer(scheme) && IsSpace(sp)
    requires After(now, issuedAt + duration)
    requires var t := CreateToken(c, userId, config.jwtSecret, duration, tokenId, issuedAt);
             t.Ok? ==> t.value.token != [] && NoSpace(t.value.token)
    ensures var t := CreateToken(c, userId, config.jwtSecret, duration, tokenId, issuedAt);
      && t.Ok?
      && Authorize(c, config, scheme + [sp] + t.value.token, now) == Abort(ErrToken(ErrExpiredToken))
  {
    var t := CreateToken(c, userId, config.jwtSecret, duration, tokenId, issuedAt);
    VerifyCreatedTokenLate(c, userId, config.jwtSecret, duration, tokenId, issuedAt, now);
    assert NoSpace(scheme) by {
      forall i | 0 <= i < |scheme| ensures !IsSpace(scheme[i]) {
        assert LowerRune(scheme[i]) == AuthorizationTypeBearer[i];
      }
    }
    BearerHeaderFields(scheme, sp, t.value.token);
    BearerInAnyCase(scheme);
  }
}
