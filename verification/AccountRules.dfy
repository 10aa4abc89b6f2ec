/** What the account operations do to the store (pkg/account/account.go), as functions of the
    contents. The methods of Accounts are proved against these functions. */
module AccountRules {
  import opened Identity
  import opened Database

  /** The settings of the account service and the library functions it is given. */
  datatype Env = Env(
    requireActivation: bool,
    maxFailedAttempts: int,
    lockoutDuration: Duration,
    activationLifetime: Duration,
    resetLifetime: Duration,
    sessionLifetime: Duration,
    trim: string -> string,                     // strings.TrimSpace
    lower: string -> string,                    // strings.ToLower
    validProfile: (string, string) -> bool,     // ValidateUsername and ValidateEmail
    passwordAllowed: string -> bool,            // ValidatePassword
    verify: (string, string) -> bool,           // Hasher.Verify(hash, password) == nil
    s256: string -> string,                     // S256Challenge
    absoluteUri: string -> bool)                // url.Parse: absolute and without '#'

  /** account.New: unset durations get their defaults. */
  function NewEnv(env: Env): (r: Env)
    ensures r.lockoutDuration > 0 && r.activationLifetime > 0 && r.resetLifetime > 0
    ensures env.lockoutDuration > 0 ==> r.lockoutDuration == env.lockoutDuration
    ensures env.activationLifetime > 0 ==> r.activationLifetime == env.activationLifetime
    ensures env.resetLifetime > 0 ==> r.resetLifetime == env.resetLifetime
    ensures r.(lockoutDuration := env.lockoutDuration, activationLifetime := env.activationLifetime,
               resetLifetime := env.resetLifetime) == env
  {
    env.(activationLifetime := OrDefault(env.activationLifetime, 48 * HOUR),
         resetLifetime := OrDefault(env.resetLifetime, HOUR),
         lockoutDuration := OrDefault(env.lockoutDuration, 15 * MINUTE))
  }

  datatype AccountError =
    | InvalidCredentials
    | NotActivated
    | LockedOut
    | Disabled
    | InvalidUserToken
    | UserExists
    | UserNotFound
    | InvalidProfile
    | InvalidPassword

  datatype Outcome<+T> = Outcome(db: Db, result: Result<T, AccountError>)

  // ---------- Looking up users ----------

  function Normalize(env: Env, name: string): string {
    env.lower(env.trim(name))
  }

  function NormalizedUser(env: Env, u: User): User {
    u.(username := env.trim(u.username), email := env.trim(u.email),
       normalizedUsername := Normalize(env, env.trim(u.username)), normalizedEmail := Normalize(env, env.trim(u.email)))
  }

  function CanSignIn(env: Env, u: User): Option<AccountError> {
    if !u.enabled then Some(Disabled)
    else if env.requireActivation && !u.emailVerified then Some(NotActivated)
    else None
  }

  /** By username, or by email address when the login contains an '@'. */
  ghost function FindUser(env: Env, db: Db, login: string): (r: Option<User>)
    ensures r.Some? ==> exists k :: k in db.users && db.users[k] == r.value
  {
    match UserByUsername(db, Normalize(env, login))
    case Some(u) => Some(u)
    case None => if '@' in login then UserByEmail(db, Normalize(env, login)) else None
  }

  /** The session rule of the user interface: the stamp of the session must be current. */
  function CurrentUser(env: Env, db: Db, s: Session, now: Time): Option<User> {
    if now / SECOND >= s.expiresAt || s.userId !in db.users then None
    else
      var u := db.users[s.userId];
      if u.securityStamp != s.securityStamp || CanSignIn(env, u).Some? then None else Some(u)
  }

  /** The session that a sign-in at the given time starts. */
  function NewSession(env: Env, u: User, now: Time): Session {
    Session(u.id, u.securityStamp, (now + env.sessionLifetime) / SECOND)
  }

  // ---------- Signing in ----------

  predicate PasswordMatches(env: Env, u: User, password: string) {
    u.passwordHash != "" && env.verify(u.passwordHash, password)
  }

  /** The user after a failed password evaluation. */
  function AfterFailure(env: Env, u: User, now: Time): User {
    if env.maxFailedAttempts <= 0 then u
    else if u.failedLoginCount + 1 >= env.maxFailedAttempts then
      u.(lockoutEnd := Some(now + env.lockoutDuration), failedLoginCount := 0, updatedAt := now)
    else u.(failedLoginCount := u.failedLoginCount + 1, updatedAt := now)
  }

  function AfterLogin(u: User, now: Time): User {
    u.(failedLoginCount := 0, lockoutEnd := None, lastLoginAt := Some(now), updatedAt := now)
  }

  ghost function Authenticate(env: Env, db: Db, login: string, password: string, now: Time): Outcome<User> {
    match FindUser(env, db, login)
    case None => Outcome(db, Err(InvalidCredentials))
    case Some(u) =>
      if u.IsLockedOut(now) then Outcome(db, Err(LockedOut))
      else if !PasswordMatches(env, u, password) then
        Outcome(db.(users := db.users[u.id := AfterFailure(env, u, now)]), Err(InvalidCredentials))
      else match CanSignIn(env, u)
        case Some(e) => Outcome(db, Err(e))
        case None => Outcome(db.(users := db.users[u.id := AfterLogin(u, now)]), Ok(AfterLogin(u, now)))
  }

  // ---------- Creating, changing and deleting users ----------

  datatype NewUser = NewUser(
    username: string, email: string, password: string, emailVerified: bool, enabled: bool, sendActivation: bool)

  /** Freshly drawn ids, values and stamps, and the salted hash of a password. */
  datatype UserDraws = UserDraws(userId: string, stamp: string, hash: string, tokenId: string, tokenValue: string)

  ghost function IssueUserToken(db: Db, userId: string, purpose: Purpose, lifetime: Duration, id: string,
      value: string, now: Time): Written {
    CreateUserToken(DeleteUserTokens(db, userId, purpose),
                    UserToken(id, userId, purpose, HashToken(value), now, now + lifetime))
  }

  ghost function CreateAccount(env: Env, db: Db, input: NewUser, d: UserDraws, now: Time): Outcome<User> {
    var u := NormalizedUser(env, User(d.userId, input.username, "", input.email, "",
                                      if input.password != "" then d.hash else "",
                                      input.emailVerified, input.enabled, d.stamp, 0, None, None, now, now));
    if !env.validProfile(u.username, u.email) then Outcome(db, Err(InvalidProfile))
    else if input.password != "" && !env.passwordAllowed(input.password) then Outcome(db, Err(InvalidPassword))
    else
      var w := CreateUser(db, u);
      if w.error.Some? then Outcome(db, Err(UserExists))
      else if input.sendActivation && !u.emailVerified then
        Outcome(IssueUserToken(w.db, u.id, Activation, env.activationLifetime, d.tokenId, d.tokenValue, now).db, Ok(u))
      else Outcome(w.db, Ok(u))
  }

  /** The record that UpdateUser saves: credentials and creation time are kept, and the stamp is
      renewed when the account gets disabled or its email address changes. */
  function UpdatedRecord(env: Env, current: User, changed: User, stamp: string, now: Time): User {
    var u := NormalizedUser(env, changed).(passwordHash := current.passwordHash, createdAt := current.createdAt,
                                           updatedAt := now);
    if (!u.enabled && current.enabled) || u.normalizedEmail != current.normalizedEmail then u.(securityStamp := stamp)
    else if u.securityStamp == "" then u.(securityStamp := current.securityStamp)
    else u
  }

  ghost function SaveUser(env: Env, db: Db, changed: User, stamp: string, now: Time): Outcome<User> {
    if changed.id !in db.users then Outcome(db, Err(UserNotFound))
    else
      var current := db.users[changed.id];
      var u := UpdatedRecord(env, current, changed, stamp, now);
      if !env.validProfile(u.username, u.email) then Outcome(db, Err(InvalidProfile))
      else if UserTaken(db.users, u, u.id) then Outcome(db, Err(UserExists))
      else
        var saved := db.(users := db.users[u.id := u]);
        Outcome(if !u.enabled && current.enabled then RevokeTokens(saved, UserFilter(u.id)) else saved, Ok(u))
  }

  function RemoveUser(db: Db, id: string): Outcome<()> {
    var w := DeleteUser(db, id);
    if w.error.Some? then Outcome(db, Err(UserNotFound))
    else Outcome(DeleteUserTokens(DeleteUserTokens(RevokeTokens(w.db, UserFilter(id)), id, Activation), id,
                                  PasswordReset), Ok(()))
  }

  // ---------- Passwords ----------

  function WithPassword(u: User, hash: string, stamp: string, now: Time): User {
    u.(passwordHash := hash, securityStamp := stamp, failedLoginCount := 0, lockoutEnd := None, updatedAt := now)
  }

  ghost function SavePassword(env: Env, db: Db, u: User, password: string, d: UserDraws, now: Time): Outcome<()> {
    if !env.passwordAllowed(password) then Outcome(db, Err(InvalidPassword))
    else
      Outcome(RevokeTokens(db.(users := db.users[u.id := WithPassword(u, d.hash, d.stamp, now)]), UserFilter(u.id)),
              Ok(()))
  }

  ghost function SetPassword(env: Env, db: Db, userId: string, password: string, d: UserDraws, now: Time): Outcome<()> {
    if userId !in db.users then Outcome(db, Err(UserNotFound))
    else SavePassword(env, db, db.users[userId], password, d, now)
  }

  // ---------- One-time user tokens ----------

  /** lookupUserToken: the stored, unexpired token with this value whose user exists. */
  ghost function FindUserToken(db: Db, purpose: Purpose, value: string, now: Time): (r: Option<UserToken>)
    ensures r.Some? ==>
              r.value.userId in db.users && r.value.purpose == purpose && r.value.tokenHash == HashToken(value)
    ensures r.Some? ==> exists k :: k in db.userTokens && db.userTokens[k] == r.value
  {
    if value == "" then None
    else match UserTokenByHash(db, purpose, HashToken(value))
      case None => None
      case Some(t) => if ExpiredAt(t.expiresAt, now) || t.userId !in db.users then None else Some(t)
  }

  ghost function Activate(db: Db, value: string, now: Time, savedAt: Time): Outcome<User> {
    match FindUserToken(db, Activation, value, now)
    case None => Outcome(db, Err(InvalidUserToken))
    case Some(t) =>
      var u := db.users[t.userId].(emailVerified := true, updatedAt := savedAt);
      Outcome(DeleteUserToken(db.(users := db.users[t.userId := u]), t.id).db, Ok(u))
  }

  ghost function ResetPassword(env: Env, db: Db, value: string, password: string, d: UserDraws, now: Time,
      savedAt: Time): Outcome<User> {
    if !env.passwordAllowed(password) then Outcome(db, Err(InvalidPassword))
    else match FindUserToken(db, PasswordReset, value, now)
      case None => Outcome(db, Err(InvalidUserToken))
      case Some(t) =>
        var u := db.users[t.userId];
        if !u.enabled then Outcome(db, Err(InvalidUserToken))
        else
          var verified := u.(emailVerified := true);
          var saved := SavePassword(env, db, verified, password, d, savedAt);
          Outcome(DeleteUserTokens(saved.db, u.id, PasswordReset), Ok(WithPassword(verified, d.hash, d.stamp, savedAt)))
  }

  /** SendActivation for the given user, and ResendActivation by email address. */
  ghost function SendActivation(env: Env, db: Db, userId: string, d: UserDraws, now: Time): Written {
    IssueUserToken(db, userId, Activation, env.activationLifetime, d.tokenId, d.tokenValue, now)
  }

  ghost function ResendActivation(env: Env, db: Db, email: string, d: UserDraws, now: Time): Written {
    match UserByEmail(db, Normalize(env, email))
    case None => Written(db, None)
    case Some(u) => if u.emailVerified || !u.enabled then Written(db, None) else SendActivation(env, db, u.id, d, now)
  }

  ghost function RequestPasswordReset(env: Env, db: Db, email: string, d: UserDraws, now: Time): Written {
    match UserByEmail(db, Normalize(env, email))
    case None => Written(db, None)
    case Some(u) =>
      if !u.enabled then Written(db, None)
      else IssueUserToken(db, u.id, PasswordReset, env.resetLifetime, d.tokenId, d.tokenValue, now)
  }
}
