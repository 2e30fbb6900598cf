/** util/jwt/token.go: token payloads, their expiry rule, and token creation
    and verification over HS256 (JSON Web Tokens, RFC 7519, signed as JSON Web
    Signatures, RFC 7515). The HMAC itself, the base64url/JSON encoding and the
    uuid generator are not modelled: the codec is a parameter, and the fresh
    token id and the clock reading are passed in. */
module Jwt {
  import opened Prelude

  const ErrInvalidToken: Error := Msg("token is invalid")
  const ErrExpiredToken: Error := Msg("token has expired")

  /** What golang-jwt reports when an HMAC signature does not verify. */
  const ErrSignatureInvalid: Error := Msg("signature is invalid")

  /** The claims of a token. */
  datatype Payload = Payload(id: string, userId: int, issuedAt: Time, expiredAt: Time)

  /** The `alg` a token declares; only the HMAC family passes `VerifyToken`'s key function. */
  datatype SigningMethod = Hmac(alg: string) | NonHmac(alg: string)

  const HS256: SigningMethod := Hmac("HS256")

  /** What golang-jwt recovers from a structurally well-formed token. */
  datatype Decoded = Decoded(signing: SigningMethod, claims: Payload)

  /** The signing library, abstracted.
      - `sign(m, p, key)`: `jwt.NewWithClaims(m, p).SignedString(key)`;
      - `decode(t)`: splitting `t` at its dots and decoding header and claims,
        `None` when `t` is malformed;
      - `verifies(t, key)`: whether the signature of `t` checks under `key`. */
  datatype TokenCodec = TokenCodec(
    sign: (SigningMethod, Payload, string) -> string,
    decode: string -> Option<Decoded>,
    verifies: (string, string) -> bool)

  /** A signed token decodes to what was signed, and its signature checks
      under the key that signed it. */
  ghost predicate RoundTrips(c: TokenCodec)
  {
    forall m, p, key :: c.decode(c.sign(m, p, key)) == Some(Decoded(m, p)) && c.verifies(c.sign(m, p, key), key)
  }

  /** A signature made with one key never checks under another. */
  ghost predicate KeyBound(c: TokenCodec)
  {
    forall m, p, key, other :: key != other ==> !c.verifies(c.sign(m, p, key), other)
  }

  /** `NewPayload`: a payload for `userId` issued at `now`, lasting `duration`.
      `tokenId` is what `uuid.NewRandom` produced. */
  function NewPayload(userId: int, duration: Duration, tokenId: Result<string, Error>, now: Time): (r: Result<Payload, Error>)
    ensures tokenId.Err? ==> r == Err(tokenId.error)
    ensures tokenId.Ok? ==> r.Ok? && r.value.id == tokenId.value && r.value.userId == userId
    ensures r.Ok? ==> r.value.issuedAt == now && r.value.expiredAt - r.value.issuedAt == duration
  {
    match tokenId
    case Err(e) => Err(e)
    case Ok(id) => Ok(Payload(id, userId, now, now + duration))
  }

  /** `Payload.Valid`: a payload is expired exactly when `now` is strictly
      after its expiry; at the expiry instant itself it is still valid. */
  function Valid(p: Payload, now: Time): (e: Error)
    ensures e == Nil || e == ErrExpiredToken
    ensures e == ErrExpiredToken <==> After(now, p.expiredAt)
  {
    if After(now, p.expiredAt) then ErrExpiredToken else Nil
  }

  /** A token string with the payload it carries. */
  datatype Issued = Issued(token: string, payload: Payload)

  /** `CreateToken`: fails only when no token id could be drawn; otherwise the
      token is the HS256 signature of exactly the payload returned. */
  function CreateToken(c: TokenCodec, userId: int, secret: string, duration: Duration,
                       tokenId: Result<string, Error>, now: Time): (r: Result<Issued, Error>)
    ensures r.Err? <==> tokenId.Err?
    ensures r.Err? ==> r.error == tokenId.error
    ensures r.Ok? ==> r.value.payload == NewPayload(userId, duration, tokenId, now).value
    ensures r.Ok? ==> r.value.token == c.sign(HS256, r.value.payload, secret)
  {
    match NewPayload(userId, duration, tokenId, now)
    case Err(e) => Err(e)
    case Ok(p) => Ok(Issued(c.sign(HS256, p, secret), p))
  }

  /** The error golang-jwt's ParseWithClaims keeps as the cause of a failed
      parse of a decoded HMAC token: the claims are validated first, and a bad
      signature then replaces their error. */
  function ParseCause(c: TokenCodec, token: string, secret: string, d: Decoded, now: Time): Error
  {
    if !c.verifies(token, secret) then ErrSignatureInvalid else Valid(d.claims, now)
  }

  /** `VerifyToken`: every failure collapses to `ErrExpiredToken` (a well-formed,
      correctly signed HMAC token that is past its expiry) or `ErrInvalidToken`
      (everything else, including any non-HMAC signing method). */
  function VerifyToken(c: TokenCodec, token: string, secret: string, now: Time): (r: Result<Payload, Error>)
    ensures r.Err? ==> r.error == ErrInvalidToken || r.error == ErrExpiredToken
    ensures c.decode(token).None? ==> r == Err(ErrInvalidToken)
    ensures c.decode(token).Some? && !c.decode(token).value.signing.Hmac? ==> r == Err(ErrInvalidToken)
    ensures r.Ok? <==> (c.decode(token).Some? && c.decode(token).value.signing.Hmac?
                       && c.verifies(token, secret) && !After(now, c.decode(token).value.claims.expiredAt))
    ensures r.Ok? ==> r.value == c.decode(token).value.claims
    ensures r == Err(ErrExpiredToken) <==> (c.decode(token).Some? && c.decode(token).value.signing.Hmac?
                       && c.verifies(token, secret) && After(now, c.decode(token).value.claims.expiredAt))
  {
    match c.decode(token)
    case None => Err(ErrInvalidToken)
    case Some(d) =>
      if !d.signing.Hmac? then Err(ErrInvalidToken)
      else
        var cause := ParseCause(c, token, secret, d, now);
        if cause == Nil then Ok(d.claims)
        else if cause == ErrExpiredToken then Err(ErrExpiredToken)
        else Err(ErrInvalidToken)
  }

  /** Round trip: a freshly created token verifies, with the same secret and
      before its expiry, to the very payload it was created with. */
  lemma VerifyCreatedToken(c: TokenCodec, userId: int, secret: string, duration: Duration,
                           tokenId: Result<string, Error>, issuedAt: Time, now: Time)
    requires RoundTrips(c) && tokenId.Ok?
    requires !After(now, issuedAt + duration)
    ensures var created := CreateToken(c, userId, secret, duration, tokenId, issuedAt);
      && created.Ok?
      && VerifyToken(c, created.value.token, secret, now) == Ok(created.value.payload)
      && created.value.payload.id == tokenId.value
      && created.value.payload.userId == userId
  {
    var p := Payload(tokenId.value, userId, issuedAt, issuedAt + duration);
    assert c.decode(c.sign(HS256, p, secret)) == Some(Decoded(HS256, p));
  }

  /** The same token verified after its duration has elapsed is expired, not invalid. */
  lemma VerifyCreatedTokenLate(c: TokenCodec, userId: int, secret: string, duration: Duration,
                               tokenId: Result<string, Error>, issuedAt: Time, now: Time)
    requires RoundTrips(c) && tokenId.Ok?
    requires After(now, issuedAt + duration)
    ensures var created := CreateToken(c, userId, secret, duration, tokenId, issuedAt);
      created.Ok? && VerifyToken(c, created.value.token, secret, now) == Err(ErrExpiredToken)
  {
    var p := Payload(tokenId.value, userId, issuedAt, issuedAt + duration);
    assert c.decode(c.sign(HS256, p, secret)) == Some(Decoded(HS256, p));
  }

  /** A token verified against another secret is invalid, expired or not. */
  lemma VerifyWithOtherSecret(c: TokenCodec, userId: int, secret: string, other: string, duration: Duration,
                              tokenId: Result<string, Error>, issuedAt: Time, now: Time)
    requires RoundTrips(c) && KeyBound(c) && tokenId.Ok? && other != secret
    ensures var created := CreateToken(c, userId, secret, duration, tokenId, issuedAt);
      created.Ok? && VerifyToken(c, created.value.token, other, now) == Err(ErrInvalidToken)
  {
    var p := Payload(tokenId.value, userId, issuedAt, issuedAt + duration);
    assert c.decode(c.sign(HS256, p, secret)) == Some(Decoded(HS256, p));
    assert !c.verifies(c.sign(HS256, p, secret), other);
  }

  /** Two tokens signed from payloads with different ids differ: each new
      token id gives a new token string. */
  lemma DistinctIdsDistinctTokens(c: TokenCodec, m: SigningMethod, p: Payload, q: Payload, key: string)
    requires RoundTrips(c) && p.id != q.id
    ensures c.sign(m, p, key) != c.sign(m, q, key)
  {
    assert c.decode(c.sign(m, p, key)) == Some(Decoded(m, p));
    assert c.decode(c.sign(m, q, key)) == Some(Decoded(m, q));
  }
}
