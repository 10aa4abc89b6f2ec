/** The entities of the identity server and the pure rules on them (pkg/identity). */
module Identity {

  datatype Option<+T> = None | Some(value: T)

  datatype Result<+T, +E> = Ok(value: T) | Err(error: E)

  /** Nanoseconds since 1970-01-01 UTC, and lengths of time in nanoseconds. */
  type Time = int
  type Duration = int

  const MILLISECOND: Duration := 1_000_000
  const SECOND: Duration := 1_000 * MILLISECOND
  const MINUTE: Duration := 60 * SECOND
  const HOUR: Duration := 60 * MINUTE

  const DEFAULT_ACCESS_TOKEN_LIFETIME: Duration := HOUR
  const DEFAULT_AUTHORIZATION_CODE_LIFETIME: Duration := 5 * MINUTE
  const DEFAULT_REFRESH_TOKEN_LIFETIME: Duration := 30 * 24 * HOUR

  /** Token values are stored as SHA-256 digests; a free constructor models the hash as injective. */
  datatype Digest = Digest(preimage: string)

  function HashToken(value: string): Digest {
    Digest(value)
  }

  predicate ExpiredAt(expiresAt: Time, now: Time) {
    !(now < expiresAt)
  }

  // ---------- Clients ----------

  // The string-valued enumerations keep a catch-all for values outside the known constants.
  datatype ClientType = Confidential | Public | OtherType(text: string)
  datatype RefreshUsage = ReUse | OneTime | OtherUsage(text: string)
  datatype RefreshExpiration = Absolute | Sliding | OtherExpiration(text: string)
  datatype GrantType =
    | AuthorizationCodeGrantType
    | ImplicitGrantType
    | ClientCredentialsGrantType
    | PasswordGrantType
    | RefreshTokenGrantType
    | OtherGrantType(text: string)

  datatype Client = Client(
    id: string,
    clientId: string,
    kind: ClientType,
    secretHash: string,
    redirectUris: seq<string>,
    allowedScopes: seq<string>,
    defaultScopes: seq<string>,
    grantTypes: seq<GrantType>,
    requireConsent: bool,
    requirePkce: bool,
    enabled: bool,
    accessTokenLifetime: Duration,
    codeLifetime: Duration,
    refreshUsage: RefreshUsage,
    refreshExpiration: RefreshExpiration,
    refreshTokenLifetime: Duration,
    createdAt: Time,
    updatedAt: Time)
  {
    predicate IsPublic() { kind == Public }

    predicate AllowsGrant(grantType: GrantType) { grantType in grantTypes }

    predicate AllowsScopes(scopes: seq<string>) { forall s :: s in scopes ==> s in allowedScopes }

    predicate AllowsRedirect(uri: string) { uri in redirectUris }
  }

  function OrDefault(lifetime: Duration, default: Duration): Duration {
    if lifetime <= 0 then default else lifetime
  }

  // ---------- Users ----------

  datatype User = User(
    id: string,
    username: string,
    normalizedUsername: string,
    email: string,
    normalizedEmail: string,
    passwordHash: string,
    emailVerified: bool,
    enabled: bool,
    securityStamp: string,
    failedLoginCount: int,
    lockoutEnd: Option<Time>,
    lastLoginAt: Option<Time>,
    createdAt: Time,
    updatedAt: Time)
  {
    predicate IsLockedOut(now: Time) { lockoutEnd.Some? && now < lockoutEnd.value }
  }

  // ---------- Tokens and codes ----------

  datatype AccessToken = AccessToken(
    id: string,
    tokenHash: Digest,
    clientId: string,
    userId: string,
    scopes: seq<string>,
    codeId: string,
    createdAt: Time,
    expiresAt: Time)

  datatype RefreshToken = RefreshToken(
    id: string,
    tokenHash: Digest,
    clientId: string,
    userId: string,
    accessTokenId: string,
    codeId: string,
    scopes: seq<string>,
    expiration: RefreshExpiration,
    usage: RefreshUsage,
    lifetime: Duration,
    createdAt: Time,
    updatedAt: Time,
    expiresAt: Time)
  {
    /** Touch: a use of the token restarts a sliding lifetime. */
    function Touched(now: Time): RefreshToken {
      if expiration == Sliding then this.(updatedAt := now, expiresAt := now + lifetime)
      else this.(updatedAt := now)
    }

    predicate AllowsScopes(requested: seq<string>) { forall s :: s in requested ==> s in scopes }
  }

  datatype AuthorizationCode = AuthorizationCode(
    id: string,
    codeHash: Digest,
    clientId: string,
    userId: string,
    scopes: seq<string>,
    redirectUri: string,
    codeChallenge: string,
    codeChallengeMethod: string,
    createdAt: Time,
    expiresAt: Time,
    consumedAt: Option<Time>)

  datatype Purpose = Activation | PasswordReset

  datatype UserToken = UserToken(
    id: string,
    userId: string,
    purpose: Purpose,
    tokenHash: Digest,
    createdAt: Time,
    expiresAt: Time)

  /** A session cookie, already decoded and authenticated; it expires at a Unix second. */
  datatype Session = Session(userId: string, securityStamp: string, expiresAt: int)

  /** A row matches when it agrees with every field that is set. */
  datatype TokenFilter = TokenFilter(clientId: string, userId: string, codeId: string, expiredBefore: Option<Time>)
  {
    predicate IsEmpty() { clientId == "" && userId == "" && codeId == "" && expiredBefore.None? }
  }

  const NO_FILTER := TokenFilter("", "", "", None)

  function ClientFilter(id: string): TokenFilter { NO_FILTER.(clientId := id) }
  function UserFilter(id: string): TokenFilter { NO_FILTER.(userId := id) }
  function CodeFilter(id: string): TokenFilter { NO_FILTER.(codeId := id) }
  function ExpiredFilter(now: Time): TokenFilter { NO_FILTER.(expiredBefore := Some(now)) }

  predicate MatchToken(f: TokenFilter, clientId: string, userId: string, codeId: string, expiresAt: Time) {
    && (f.clientId != "" ==> f.clientId == clientId)
    && (f.userId != "" ==> f.userId == userId)
    && (f.codeId != "" ==> f.codeId == codeId)
    && (f.expiredBefore.Some? ==> !(expiresAt > f.expiredBefore.value))
  }

  predicate MatchAccess(f: TokenFilter, t: AccessToken) {
    MatchToken(f, t.clientId, t.userId, t.codeId, t.expiresAt)
  }

  predicate MatchRefresh(f: TokenFilter, t: RefreshToken) {
    MatchToken(f, t.clientId, t.userId, t.codeId, t.expiresAt)
  }

  predicate MatchUserToken(userId: string, purpose: Purpose, t: UserToken) {
    t.userId == userId && t.purpose == purpose
  }
}
