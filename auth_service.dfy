/** `AuthService`: password hashing and access-token claims. The bcrypt context and the JWT
    encoder are libraries the service only calls; they are parameters here. */
module AuthServices {
  import opened Wrappers
  import opened UserEntity

  /** A password hashing scheme: `CryptContext.hash` and `CryptContext.verify`. */
  datatype PasswordHasher = PasswordHasher(hash: string -> string, verify: (string, string) -> bool)

  /** What the service relies on from the scheme: a hash verifies against its own password and
      is never the password itself. */
  ghost predicate Sound(h: PasswordHasher) {
    forall p :: h.verify(p, h.hash(p)) && h.hash(p) != p
  }

  const DefaultAlgorithm := "HS256"
  const DefaultAccessTokenExpireMinutes := 30

  datatype AuthService = AuthService(
    secretKey: string,
    algorithm: string,
    accessTokenExpireMinutes: int,
    hasher: PasswordHasher)

  /** `AuthService.__init__`, with the keyword defaults for the omitted arguments. */
  function NewAuthService(
    secretKey: string, algorithm: Option<string>, accessTokenExpireMinutes: Option<int>, hasher: PasswordHasher)
    : (svc: AuthService)
    ensures svc.secretKey == secretKey && svc.hasher == hasher
    ensures svc.algorithm == if algorithm.Some? then algorithm.value else DefaultAlgorithm
    ensures svc.accessTokenExpireMinutes
            == if accessTokenExpireMinutes.Some? then accessTokenExpireMinutes.value else DefaultAccessTokenExpireMinutes
  {
    AuthService(
      secretKey,
      match algorithm case Some(a) => a case None => DefaultAlgorithm,
      match accessTokenExpireMinutes case Some(m) => m case None => DefaultAccessTokenExpireMinutes,
      hasher)
  }

  function VerifyPassword(svc: AuthService, plainPassword: string, hashedPassword: string): bool {
    svc.hasher.verify(plainPassword, hashedPassword)
  }

  function GetPasswordHash(svc: AuthService, password: string): string {
    svc.hasher.hash(password)
  }

  /** With a sound scheme, a stored hash verifies against its password and differs from it. */
  lemma HashThenVerify(svc: AuthService, password: string)
    requires Sound(svc.hasher)
    ensures VerifyPassword(svc, password, GetPasswordHash(svc, password))
    ensures GetPasswordHash(svc, password) != password
  {
  }

  /** A JWT claim value: a string, or a time (seconds since the epoch). */
  datatype Claim = Text(text: string) | Time(seconds: int) | Null

  type Claims = map<string, Claim>

  /** Seconds in a minute, for `timedelta(minutes=...)`. */
  const SecondsPerMinute := 60

  /** The expiry instant: `now + expires_delta` when a delta is given and is not zero (a zero
      `timedelta` is falsy), otherwise `now` plus the configured lifetime in minutes. Durations
      are in whole seconds. */
  function Expiry(svc: AuthService, expiresDelta: Option<int>, now: Timestamp): (exp: Timestamp) {
    if expiresDelta.Some? && expiresDelta.value != 0 then now + expiresDelta.value
    else now + svc.accessTokenExpireMinutes * SecondsPerMinute
  }

  /** A zero delta and no delta give the same, default, lifetime. */
  lemma ZeroDeltaIsDefault(svc: AuthService, now: Timestamp)
    ensures Expiry(svc, Some(0), now) == Expiry(svc, None, now)
    ensures Expiry(svc, None, now) == now + svc.accessTokenExpireMinutes * SecondsPerMinute
  {
  }

  /** The default service issues tokens that expire thirty minutes after issue. */
  lemma DefaultLifetimeIsThirtyMinutes(secretKey: string, hasher: PasswordHasher, now: Timestamp)
    ensures Expiry(NewAuthService(secretKey, None, None, hasher), None, now) == now + 1800
  {
  }

  /** A non-zero delta is taken as given, whatever the configured lifetime. */
  lemma DeltaOverridesLifetime(svc: AuthService, delta: int, now: Timestamp)
    requires delta != 0
    ensures Expiry(svc, Some(delta), now) - now == delta
  {
  }

  /** The payload `create_access_token` encodes: `{"sub": str(user_id), "role": role}` updated
      with `{"exp": expire}`. */
  function AccessTokenClaims(svc: AuthService, userId: Uuid, role: UserRole, expiresDelta: Option<int>, now: Timestamp)
    : (claims: Claims)
    ensures claims.Keys == {"sub", "role", "exp"}
    ensures claims["sub"] == Text(userId)
    ensures claims["role"] == Text(RoleName(role))
    ensures claims["exp"] == Time(Expiry(svc, expiresDelta, now))
  {
    var toEncode := map["sub" := Text(userId), "role" := Text(RoleName(role))];
    toEncode["exp" := Time(Expiry(svc, expiresDelta, now))]
  }

  /** `create_access_token`: the claims, signed by the encoder with the service's key and algorithm. */
  function CreateAccessToken(
    svc: AuthService, encode: (Claims, string, string) -> string,
    userId: Uuid, role: UserRole, expiresDelta: Option<int>, now: Timestamp)
    : (token: string)
    ensures exists claims: Claims ::
              && claims.Keys == {"sub", "role", "exp"}
              && claims["sub"] == Text(userId)
              && claims["role"] == Text(RoleName(role))
              && claims["exp"] == Time(Expiry(svc, expiresDelta, now))
              && token == encode(claims, svc.secretKey, svc.algorithm)
  {
    var claims := AccessTokenClaims(svc, userId, role, expiresDelta, now);
    encode(claims, svc.secretKey, svc.algorithm)
  }
}
