/** What the account operations answer (pkg/account/account.go): who is signed in and why not, what a
    password change leaves, and which one-time tokens are issued and accepted. */
module AccountAnswers {
  import opened Identity
  import opened Database
  import opened AccountRules
  import opened OAuthRules
  import opened Conditions
  import opened Verdicts
  import opened Invariants
  import opened Minting
  import opened Requests
  import opened Management

  // ---------- Names ----------

  /** The user that a login means: the one of that username or, if nobody has it and the login looks
      like an email address, the one of that address. Spelling does not matter. */
  ghost predicate Named(env: Env, users: map<string, User>, login: string, k: string) {
    && k in users
    && (users[k].normalizedUsername == env.lower(env.trim(login))
        || ('@' in login && users[k].normalizedEmail == env.lower(env.trim(login))
            && forall j :: j in users ==> users[j].normalizedUsername != env.lower(env.trim(login))))
  }

  lemma UsersOf(db: Db)
    requires Indexed(db)
    ensures UserTable(db.users)
  {
    hide ClientTable, UserTable, AccessTable, RefreshTable, CodeTable, UserTokenTable;
  }

  lemma NamedIsFound(env: Env, db: Db, login: string, k: string)
    requires Indexed(db) && Named(env, db.users, login, k)
    ensures FindUser(env, db, login) == Some(db.users[k]) && db.users[k].id == k && k != ""
  {
    hide Indexed;
    UsersOf(db);
  }

  lemma NobodyIsFound(env: Env, db: Db, login: string)
    requires forall k :: !Named(env, db.users, login, k)
    ensures FindUser(env, db, login) == None
  {
    match FindUser(env, db, login) {
      case None =>
      case Some(u) =>
        var k :| k in db.users && db.users[k] == u;
        assert Named(env, db.users, login, k);
    }
  }

  // ---------- Signing in ----------

  predicate Locked(u: User, now: Time) { u.lockoutEnd.Some? && now < u.lockoutEnd.value }

  predicate RightPassword(env: Env, u: User, password: string) {
    u.passwordHash != "" && env.verify(u.passwordHash, password)
  }

  /** A failure is counted; the one that reaches the limit locks the account, and the count starts again. */
  predicate Counted(env: Env, u: User, v: User, now: Time) {
    && (env.maxFailedAttempts <= 0 ==> v == u)
    && (0 < env.maxFailedAttempts <= u.failedLoginCount + 1 ==>
          v == u.(failedLoginCount := 0, lockoutEnd := Some(now + env.lockoutDuration), updatedAt := now))
    && (env.maxFailedAttempts > u.failedLoginCount + 1 && env.maxFailedAttempts > 0 ==>
          v == u.(failedLoginCount := u.failedLoginCount + 1, updatedAt := now))
  }

  predicate SignedIn(u: User, v: User, now: Time) {
    v == u.(failedLoginCount := 0, lockoutEnd := None, lastLoginAt := Some(now), updatedAt := now)
  }

  /** Only the row of the user changed. */
  ghost predicate UserChanged(a: Db, b: Db, k: string) {
    b == a.(users := b.users) && k in b.users && b.users == a.users[k := b.users[k]]
  }

  /** What a sign-in as a stored user answers and stores. The state of the account is told only to who
      knows the password, except for the lockout. */
  lemma SignInAnswers(env: Env, db: Db, login: string, password: string, now: Time, k: string)
    requires Indexed(db) && Named(env, db.users, login, k)
    ensures var u, out := db.users[k], Authenticate(env, db, login, password, now);
            if Locked(u, now) then out == Outcome(db, Err(LockedOut))
            else if !RightPassword(env, u, password) then
              out.result == Err(InvalidCredentials) && UserChanged(db, out.db, k)
              && Counted(env, u, out.db.users[k], now)
            else if !u.enabled then out == Outcome(db, Err(Disabled))
            else if env.requireActivation && !u.emailVerified then out == Outcome(db, Err(NotActivated))
            else UserChanged(db, out.db, k) && SignedIn(u, out.db.users[k], now) && out.result == Ok(out.db.users[k])
  {
    hide Indexed, Named, FindUser;
    NamedIsFound(env, db, login, k);
  }

  lemma UnknownLoginsAreRefused(env: Env, db: Db, login: string, password: string, now: Time)
    requires forall k :: !Named(env, db.users, login, k)
    ensures Authenticate(env, db, login, password, now) == Outcome(db, Err(InvalidCredentials))
  {
    hide Named, FindUser;
    NobodyIsFound(env, db, login);
  }

  /** Exactly the named user gets in, exactly with the right password, if the account is neither locked
      nor disabled and was activated where that is required. */
  lemma SignInSucceedsExactly(env: Env, db: Db, login: string, password: string, now: Time)
    requires Indexed(db)
    ensures Authenticate(env, db, login, password, now).result.Ok? <==>
            exists k :: Named(env, db.users, login, k) && !Locked(db.users[k], now)
                        && RightPassword(env, db.users[k], password) && MayAct(env, db.users[k])
  {
    hide Indexed, Named, Authenticate, UserChanged, Counted, SignedIn, RightPassword, Locked;
    NamedAreStored(env, db.users, login);
    forall k | Named(env, db.users, login, k)
      ensures Authenticate(env, db, login, password, now).result.Ok? <==>
              !Locked(db.users[k], now) && RightPassword(env, db.users[k], password) && MayAct(env, db.users[k])
    {
      SignInAnswers(env, db, login, password, now, k);
    }
    if forall k :: !Named(env, db.users, login, k) {
      UnknownLoginsAreRefused(env, db, login, password, now);
    }
  }

  lemma NamedAreStored(env: Env, users: map<string, User>, login: string)
    ensures forall k :: Named(env, users, login, k) ==> k in users
  {
  }

  /** The session that a sign-in starts is current until its time is over. */
  lemma NewSessionsAreCurrent(env: Env, db: Db, login: string, password: string, now: Time, t: Time)
    requires Indexed(db) && Authenticate(env, db, login, password, now).result.Ok?
    ensures var out := Authenticate(env, db, login, password, now);
            CurrentSession(env, out.db.users, NewSession(env, out.result.value, now), t) <==>
            t / SECOND < (now + env.sessionLifetime) / SECOND
  {
    hide Indexed, Named, Authenticate, Counted, RightPassword, Locked;
    SignInSucceedsExactly(env, db, login, password, now);
    NamedAreStored(env, db.users, login);
    var k :| Named(env, db.users, login, k) && !Locked(db.users[k], now)
             && RightPassword(env, db.users[k], password) && MayAct(env, db.users[k]);
    SignInAnswers(env, db, login, password, now, k);
    NamedIsFound(env, db, login, k);
  }

  // ---------- Passwords ----------

  /** Exactly the tokens of the user are gone. */
  ghost predicate TokensGone(a: Db, b: Db, userId: string) {
    && b.accessTokens == (map k | k in a.accessTokens && a.accessTokens[k].userId != userId :: a.accessTokens[k])
    && b.refreshTokens == (map k | k in a.refreshTokens && a.refreshTokens[k].userId != userId :: a.refreshTokens[k])
  }

  /** The user has a new password and a new stamp, is not locked, and holds no tokens. */
  ghost predicate PasswordReplaced(a: Db, b: Db, k: string, verified: bool, hash: string, stamp: string, now: Time) {
    && b == a.(users := b.users, accessTokens := b.accessTokens, refreshTokens := b.refreshTokens,
               userTokens := b.userTokens)
    && TokensGone(a, b, k)
    && k in a.users && k in b.users && b.users == a.users[k := b.users[k]]
    && b.users[k] == a.users[k].(passwordHash := hash, securityStamp := stamp, failedLoginCount := 0,
                                 lockoutEnd := None,
                                 emailVerified := verified, updatedAt := now)
  }

  lemma RevokingByUser(db: Db, id: string)
    requires id != ""
    ensures var b := RevokeTokens(db, UserFilter(id));
            TokensGone(db, b, id) && b == db.(accessTokens := b.accessTokens, refreshTokens := b.refreshTokens)
  {
  }

  lemma PasswordSaved(env: Env, db: Db, u: User, password: string, d: UserDraws, now: Time)
    requires u.id in db.users && u.id != "" && u == db.users[u.id].(emailVerified := u.emailVerified)
    ensures var r := SavePassword(env, db, u, password, d, now);
            if !env.passwordAllowed(password) then r == Outcome(db, Err(InvalidPassword))
            else
              && r.result == Ok(()) && r.db.userTokens == db.userTokens
              && PasswordReplaced(db, r.db, u.id, u.emailVerified, d.hash, d.stamp, now)
  {
    hide RevokeTokens, TokensGone;
    var saved := db.(users := db.users[u.id := WithPassword(u, d.hash, d.stamp, now)]);
    RevokingByUser(saved, u.id);
    TokensOfOthers(db, saved, RevokeTokens(saved, UserFilter(u.id)), u.id);
  }

  lemma TokensOfOthers(a: Db, m: Db, b: Db, id: string)
    requires m.accessTokens == a.accessTokens && m.refreshTokens == a.refreshTokens && TokensGone(m, b, id)
    ensures TokensGone(a, b, id)
  {
  }

  lemma UserKeys(db: Db, k: string)
    requires Indexed(db) && k in db.users
    ensures db.users[k].id == k && k != ""
  {
    hide Indexed;
    UsersOf(db);
  }

  lemma SetPasswordAnswers(env: Env, db: Db, k: string, password: string, d: UserDraws, now: Time)
    requires Indexed(db)
    ensures var r := SetPassword(env, db, k, password, d, now);
            if k !in db.users then r == Outcome(db, Err(UserNotFound))
            else if !env.passwordAllowed(password) then r == Outcome(db, Err(InvalidPassword))
            else
              && r.result == Ok(()) && r.db.userTokens == db.userTokens
              && PasswordReplaced(db, r.db, k, db.users[k].emailVerified, d.hash, d.stamp, now)
  {
    hide Indexed, PasswordReplaced, SavePassword;
    if k in db.users {
      UserKeys(db, k);
      PasswordSaved(env, db, db.users[k], password, d, now);
    }
  }

  /** After the change, by any of the user's names, the new password signs in and nothing else does. */
  lemma NewPasswordSignsIn(env: Env, a: Db, b: Db, k: string, verified: bool, hash: string, stamp: string, now: Time,
      login: string, password: string, t: Time)
    requires Indexed(a) && PasswordReplaced(a, b, k, verified, hash, stamp, now) && Named(env, a.users, login, k)
    ensures Named(env, b.users, login, k)
    ensures Authenticate(env, b, login, password, t).result.Ok? <==>
            hash != "" && env.verify(hash, password) && a.users[k].enabled && (env.requireActivation ==> verified)
  {
    hide Indexed, TokensGone;
    UsersOf(a);
    SameNamesAreFound(env, a.users, b, login, k);
    hide FindUser, UserTable, Named;
  }

  lemma SameNamesAreFound(env: Env, users: map<string, User>, b: Db, login: string, k: string)
    requires UserTable(users) && Named(env, users, login, k) && k in b.users && b.users == users[k := b.users[k]]
    requires b.users[k].normalizedUsername == users[k].normalizedUsername
    requires b.users[k].normalizedEmail == users[k].normalizedEmail
    ensures Named(env, b.users, login, k) && FindUser(env, b, login) == Some(b.users[k])
  {
  }

  // ---------- One-time user tokens ----------

  ghost predicate IsUserToken(db: Db, k: string, purpose: Purpose, value: string) {
    && value != "" && k in db.userTokens && db.userTokens[k].purpose == purpose
    && db.userTokens[k].tokenHash == HashToken(value)
  }

  /** A token that has not expired, of a user who is still there. */
  ghost predicate UserTokenWorks(db: Db, t: UserToken, now: Time) {
    now < t.expiresAt && t.userId in db.users
  }

  lemma UserTokenRows(db: Db)
    requires Indexed(db)
    ensures UserTokenTable(db.userTokens)
  {
    hide ClientTable, UserTable, AccessTable, RefreshTable, CodeTable, UserTokenTable;
  }

  lemma UserTokenLookup(db: Db, k: string, purpose: Purpose, value: string, now: Time)
    requires Indexed(db) && IsUserToken(db, k, purpose, value)
    ensures FindUserToken(db, purpose, value, now)
            == if UserTokenWorks(db, db.userTokens[k], now) then Some(db.userTokens[k]) else None
    ensures db.userTokens[k].id == k
  {
    hide Indexed;
    UserTokenRows(db);
  }

  lemma UnknownUserTokens(db: Db, purpose: Purpose, value: string, now: Time)
    requires forall k :: !IsUserToken(db, k, purpose, value)
    ensures FindUserToken(db, purpose, value, now) == None
  {
    match FindUserToken(db, purpose, value, now) {
      case None =>
      case Some(t) =>
        var k :| k in db.userTokens && db.userTokens[k] == t;
        assert value != "" && IsUserToken(db, k, purpose, value);
    }
  }

  /** An activation token that works verifies the email address of its user, and is used up. */
  lemma ActivateAnswers(db: Db, k: string, value: string, now: Time, savedAt: Time)
    requires Indexed(db) && IsUserToken(db, k, Activation, value)
    ensures var r, t := AccountRules.Activate(db, value, now, savedAt), db.userTokens[k];
            if !UserTokenWorks(db, t, now) then r == Outcome(db, Err(InvalidUserToken))
            else
              var u := db.users[t.userId].(emailVerified := true, updatedAt := savedAt);
              r == Outcome(db.(users := db.users[t.userId := u], userTokens := db.userTokens - {k}), Ok(u))
  {
    hide Indexed, FindUserToken;
    UserTokenLookup(db, k, Activation, value, now);
  }

  /** A reset token that works, of an enabled user, verifies the email address, replaces the password and
      ends all reset tokens of the user. */
  lemma ResetPasswordAnswers(env: Env, db: Db, k: string, value: string, password: string, d: UserDraws, now: Time,
      savedAt: Time)
    requires Indexed(db) && IsUserToken(db, k, PasswordReset, value)
    ensures var r, t := ResetPassword(env, db, value, password, d, now, savedAt), db.userTokens[k];
            if !env.passwordAllowed(password) then r == Outcome(db, Err(InvalidPassword))
            else if !UserTokenWorks(db, t, now) || !db.users[t.userId].enabled then
              r == Outcome(db, Err(InvalidUserToken))
            else
              && PasswordReplaced(db, r.db, t.userId, true, d.hash, d.stamp, savedAt)
              && r.result == Ok(r.db.users[t.userId])
              && UserTokensDropped(db, r.db, t.userId, PasswordReset)
  {
    hide Indexed, FindUserToken, SavePassword, TokensGone;
    UserTokenLookup(db, k, PasswordReset, value, now);
    var t := db.userTokens[k];
    if UserTokenWorks(db, t, now) && env.passwordAllowed(password) {
      UserKeys(db, t.userId);
      PasswordSaved(env, db, db.users[t.userId].(emailVerified := true), password, d, savedAt);
      var saved := SavePassword(env, db, db.users[t.userId].(emailVerified := true), password, d, savedAt).db;
      DroppedLast(db, saved, DeleteUserTokens(saved, t.userId, PasswordReset), t.userId);
    }
  }

  lemma DroppedLast(a: Db, m: Db, b: Db, id: string)
    requires TokensGone(a, m, id) && b == m.(userTokens := b.userTokens)
    ensures TokensGone(a, b, id)
  {
  }

  lemma UnknownTokensChangeNothing(env: Env, db: Db, value: string, password: string, d: UserDraws, now: Time,
      savedAt: Time)
    ensures (forall k :: !IsUserToken(db, k, Activation, value)) ==>
              AccountRules.Activate(db, value, now, savedAt) == Outcome(db, Err(InvalidUserToken))
    ensures (forall k :: !IsUserToken(db, k, PasswordReset, value)) ==>
              ResetPassword(env, db, value, password, d, now, savedAt)
              == Outcome(db, Err(if env.passwordAllowed(password) then InvalidUserToken else InvalidPassword))
  {
    hide IsUserToken, FindUserToken, SavePassword;
    if forall k :: !IsUserToken(db, k, Activation, value) {
      UnknownUserTokens(db, Activation, value, now);
    }
    if forall k :: !IsUserToken(db, k, PasswordReset, value) {
      UnknownUserTokens(db, PasswordReset, value, now);
    }
  }

  /** The tokens of that purpose are gone, and nothing else of this table. */
  ghost predicate UserTokensDropped(a: Db, b: Db, userId: string, purpose: Purpose) {
    b.userTokens
    == map k | k in a.userTokens && !(a.userTokens[k].userId == userId && a.userTokens[k].purpose == purpose)
         :: a.userTokens[k]
  }

  /** One new token in place of all others of the user and the purpose. */
  ghost predicate UserTokenAdded(a: Db, b: Db, userId: string, purpose: Purpose, lifetime: Duration, id: string,
      value: string, now: Time) {
    && b == a.(userTokens := b.userTokens) && id in b.userTokens
    && b.userTokens[id] == UserToken(id, userId, purpose, HashToken(value), now, now + lifetime)
    && UserTokensDropped(a, b.(userTokens := b.userTokens - {id}), userId, purpose)
  }

  lemma TokenIssueAnswers(env: Env, db: Db, book: Book, used: set<string>, userId: string, purpose: Purpose,
      lifetime: Duration, id: string, value: string, now: Time)
    requires Good(env, db, book, used) && id !in used && value !in used
    ensures var w := IssueUserToken(db, userId, purpose, lifetime, id, value, now);
            && w.error == None && w.db == db.(userTokens := w.db.userTokens)
            && UserTokenAdded(db, w.db, userId, purpose, lifetime, id, value, now)
  {
    hide Indexed, TokensOk, RefSafe, PeopleOk, BookOk, CodeHashTaken, AccessHashTaken, RefreshHashTaken;
    FreshHashesAreFree(db, book, used, id);
    FreshHashesAreFree(db, book, used, value);
  }

  ghost predicate HasEmail(env: Env, users: map<string, User>, email: string, k: string) {
    k in users && users[k].normalizedEmail == env.lower(env.trim(email))
  }

  lemma EmailIsFound(env: Env, db: Db, email: string, k: string)
    requires Indexed(db) && HasEmail(env, db.users, email, k)
    ensures UserByEmail(db, Normalize(env, email)) == Some(db.users[k]) && db.users[k].id == k
  {
    hide Indexed;
    UsersOf(db);
  }

  /** Activation is mailed again to enabled users who were not activated, and a reset token to every
      enabled user. Nothing happens otherwise, and the answer is the same. */
  lemma MailedTokensAnswers(env: Env, db: Db, book: Book, used: set<string>, email: string, k: string, d: Draws,
      hash: string, now: Time)
    requires Good(env, db, book, used) && Fresh(d, used) && HasEmail(env, db.users, email, k)
    ensures var w, u := ResendActivation(env, db, email, UserDrawsOf(d, hash), now), db.users[k];
            w.error == None
            && if u.enabled && !u.emailVerified
               then UserTokenAdded(db, w.db, k, Activation, env.activationLifetime, d.refreshId, d.refreshValue, now)
               else w.db == db
    ensures var w, u := RequestPasswordReset(env, db, email, UserDrawsOf(d, hash), now), db.users[k];
            w.error == None
            && if u.enabled
               then UserTokenAdded(db, w.db, k, PasswordReset, env.resetLifetime, d.refreshId, d.refreshValue, now)
               else w.db == db
  {
    hide Good, Indexed, HasEmail, UserTokenAdded, IssueUserToken;
    IndexedIfGood(env, db, book, used);
    EmailIsFound(env, db, email, k);
    TokenIssueAnswers(env, db, book, used, k, Activation, env.activationLifetime, d.refreshId, d.refreshValue, now);
    TokenIssueAnswers(env, db, book, used, k, PasswordReset, env.resetLifetime, d.refreshId, d.refreshValue, now);
  }

  lemma UnknownAddressesGetNothing(env: Env, db: Db, email: string, d: UserDraws, now: Time)
    requires forall k :: !HasEmail(env, db.users, email, k)
    ensures ResendActivation(env, db, email, d, now) == Written(db, None)
    ensures RequestPasswordReset(env, db, email, d, now) == Written(db, None)
  {
    if UserByEmail(db, Normalize(env, email)).Some? {
      var k :| k in db.users && db.users[k] == UserByEmail(db, Normalize(env, email)).value;
      assert HasEmail(env, db.users, email, k);
    }
  }

  // ---------- Creating, changing and deleting users ----------

  /** Spelling: surrounding space is dropped, and names are compared in lower case. */
  predicate Spelled(env: Env, u: User, username: string, email: string) {
    && u.username == env.trim(username) && u.normalizedUsername == env.lower(env.trim(u.username))
    && u.email == env.trim(email) && u.normalizedEmail == env.lower(env.trim(u.email))
  }

  /** No user other than k has one of these names. */
  ghost predicate NamesFree(env: Env, users: map<string, User>, username: string, email: string, k: string) {
    forall j :: j in users && j != k ==>
      && users[j].normalizedUsername != env.lower(env.trim(env.trim(username)))
      && users[j].normalizedEmail != env.lower(env.trim(env.trim(email)))
  }

  predicate RegisteredRow(env: Env, u: User, input: NewUser, d: UserDraws, now: Time) {
    && u.id == d.userId && Spelled(env, u, input.username, input.email)
    && u.passwordHash == (if input.password == "" then "" else d.hash)
    && u.emailVerified == input.emailVerified && u.enabled == input.enabled && u.securityStamp == d.stamp
    && u.failedLoginCount == 0 && u.lockoutEnd == None && u.lastLoginAt == None && u.createdAt == u.updatedAt == now
  }

  lemma FreeMeans(env: Env, db: Db, u: User, username: string, email: string, k: string)
    requires UserTable(db.users) && Spelled(env, u, username, email)
    ensures UserTaken(db.users, u, k) <==> !NamesFree(env, db.users, username, email, k)
  {
  }

  function Registered(env: Env, input: NewUser, d: UserDraws, now: Time): User {
    NormalizedUser(env, User(d.userId, input.username, "", input.email, "", if input.password != "" then d.hash else "",
                             input.emailVerified, input.enabled, d.stamp, 0, None, None, now, now))
  }

  lemma RegisteredFits(env: Env, input: NewUser, d: UserDraws, now: Time)
    ensures var u := Registered(env, input, d, now);
            && RegisteredRow(env, u, input, d, now) && Spelled(env, u, input.username, input.email)
            && u.id == d.userId && u.securityStamp == d.stamp && u.failedLoginCount == 0
            && u.username == env.trim(input.username) && u.email == env.trim(input.email)
            && u.emailVerified == input.emailVerified
  {
  }

  lemma DrawsAreTheUsers(draws: Draws, hash: string)
    ensures UserDrawsOf(draws, hash)
            == UserDraws(draws.accessId, draws.accessValue, hash, draws.refreshId, draws.refreshValue)
  {
  }

  lemma CreationSteps(env: Env, db: Db, input: NewUser, d: UserDraws, now: Time)
    ensures var r, u := CreateAccount(env, db, input, d, now), Registered(env, input, d, now);
            var m := db.(users := db.users[u.id := u]);
            if !env.validProfile(u.username, u.email) then r == Outcome(db, Err(InvalidProfile))
            else if input.password != "" && !env.passwordAllowed(input.password) then
              r == Outcome(db, Err(InvalidPassword))
            else if u.id in db.users || UserTaken(db.users, u, "") then r == Outcome(db, Err(UserExists))
            else if input.sendActivation && !u.emailVerified then
              r == Outcome(IssueUserToken(m, u.id, Activation, env.activationLifetime, d.tokenId, d.tokenValue, now).db,
                           Ok(u))
            else r == Outcome(m, Ok(u))
  {
    hide UserTaken, NormalizedUser, IssueUserToken;
  }

  /** Registration stores exactly the new user, and an activation token if one is asked for and needed. */
  lemma CreateAccountAnswers(env: Env, db: Db, book: Book, used: set<string>, input: NewUser, hash: string, now: Time,
      draws: Draws)
    requires Good(env, db, book, used) && Fresh(draws, used)
    ensures var d := UserDrawsOf(draws, hash);
            var r := CreateAccount(env, db, input, d, now);
            if !env.validProfile(env.trim(input.username), env.trim(input.email)) then
              r == Outcome(db, Err(InvalidProfile))
            else if input.password != "" && !env.passwordAllowed(input.password) then
              r == Outcome(db, Err(InvalidPassword))
            else if !NamesFree(env, db.users, input.username, input.email, "") then r == Outcome(db, Err(UserExists))
            else
              && d.userId !in db.users && d.userId in r.db.users && r.result == Ok(r.db.users[d.userId])
              && RegisteredRow(env, r.db.users[d.userId], input, d, now)
              && var m := db.(users := db.users[d.userId := r.db.users[d.userId]]);
                 if input.sendActivation && !input.emailVerified
                 then UserTokenAdded(m, r.db, d.userId, Activation, env.activationLifetime, d.tokenId, d.tokenValue,
                                     now)
                 else r.db == m
  {
    var d := UserDrawsOf(draws, hash);
    var u := Registered(env, input, d, now);
    var m := db.(users := db.users[d.userId := u]);
    hide *;
    IndexedIfGood(env, db, book, used);
    UsersOf(db);
    RegisteredFits(env, input, d, now);
    DrawsAreTheUsers(draws, hash);
    CreationSteps(env, db, input, d, now);
    FreeMeans(env, db, u, input.username, input.email, "");
    if !UserTaken(db.users, u, "") {
      NewUserRow(env, db, u, book, used, draws);
      NewUserFits(env, db, u, used, draws);
      TokenIssueAnswers(env, m, book, used + {draws.accessId, draws.accessValue}, u.id, Activation,
                        env.activationLifetime, d.tokenId, d.tokenValue, now);
    }
  }

  /** What an update stores: credentials and the time of creation stay, and there is a new stamp exactly
      when the account gets disabled or its address changes. */
  predicate SavedRow(env: Env, u: User, current: User, changed: User, stamp: string, now: Time) {
    && u.id == changed.id && Spelled(env, u, changed.username, changed.email)
    && u.passwordHash == current.passwordHash && u.createdAt == current.createdAt && u.updatedAt == now
    && u.emailVerified == changed.emailVerified && u.enabled == changed.enabled
    && u.failedLoginCount == changed.failedLoginCount && u.lockoutEnd == changed.lockoutEnd
    && u.lastLoginAt == changed.lastLoginAt
    && var moved := (current.enabled && !changed.enabled)
                    || current.normalizedEmail != env.lower(env.trim(env.trim(changed.email)));
       && (moved ==> u.securityStamp == stamp)
       && (!moved ==>
             u.securityStamp == if changed.securityStamp == "" then current.securityStamp else changed.securityStamp)
  }

  lemma UpdatedFits(env: Env, current: User, changed: User, stamp: string, now: Time)
    ensures SavedRow(env, UpdatedRecord(env, current, changed, stamp, now), current, changed, stamp, now)
  {
  }

  /** The row of k was replaced by a saved one, and its tokens are gone if that disabled the account. */
  ghost predicate UserSaved(env: Env, a: Db, b: Db, changed: User, stamp: string, now: Time)
    requires changed.id in a.users
  {
    var k := changed.id;
    && b == a.(users := b.users, accessTokens := b.accessTokens, refreshTokens := b.refreshTokens)
    && k in b.users && b.users == a.users[k := b.users[k]]
    && SavedRow(env, b.users[k], a.users[k], changed, stamp, now)
    && if a.users[k].enabled && !changed.enabled then TokensGone(a, b, k)
       else b.accessTokens == a.accessTokens && b.refreshTokens == a.refreshTokens
  }

  lemma SavingSteps(env: Env, db: Db, changed: User, stamp: string, now: Time)
    requires changed.id in db.users
    ensures var r, u := SaveUser(env, db, changed, stamp, now),
              UpdatedRecord(env, db.users[changed.id], changed, stamp, now);
            var saved := db.(users := db.users[u.id := u]);
            if !env.validProfile(u.username, u.email) then r == Outcome(db, Err(InvalidProfile))
            else if UserTaken(db.users, u, u.id) then r == Outcome(db, Err(UserExists))
            else if db.users[changed.id].enabled && !u.enabled then
              r == Outcome(RevokeTokens(saved, UserFilter(u.id)), Ok(u))
            else r == Outcome(saved, Ok(u))
  {
    hide UserTaken, UpdatedRecord, RevokeTokens;
  }

  lemma SaveUserAnswers(env: Env, db: Db, changed: User, stamp: string, now: Time)
    requires Indexed(db)
    ensures var r := SaveUser(env, db, changed, stamp, now);
            if changed.id !in db.users then r == Outcome(db, Err(UserNotFound))
            else if !env.validProfile(env.trim(changed.username), env.trim(changed.email)) then
              r == Outcome(db, Err(InvalidProfile))
            else if !NamesFree(env, db.users, changed.username, changed.email, changed.id) then
              r == Outcome(db, Err(UserExists))
            else UserSaved(env, db, r.db, changed, stamp, now) && r.result == Ok(r.db.users[changed.id])
  {
    hide Indexed, UserTable, UserTaken, NamesFree, UpdatedRecord, RevokeTokens, TokensGone;
    if changed.id in db.users {
      var u := UpdatedRecord(env, db.users[changed.id], changed, stamp, now);
      var saved := db.(users := db.users[u.id := u]);
      UsersOf(db);
      UserKeys(db, changed.id);
      UpdatedFits(env, db.users[changed.id], changed, stamp, now);
      FreeMeans(env, db, u, changed.username, changed.email, changed.id);
      SavingSteps(env, db, changed, stamp, now);
      RevokingByUser(saved, u.id);
      TokensOfOthers(db, saved, RevokeTokens(saved, UserFilter(u.id)), u.id);
    }
  }

  /** The user is gone, with all tokens of every kind. */
  lemma RemoveUserAnswers(db: Db, id: string)
    requires Indexed(db)
    ensures var r := RemoveUser(db, id);
            if id !in db.users then r == Outcome(db, Err(UserNotFound))
            else
              && r.result == Ok(()) && TokensGone(db, r.db, id)
              && r.db == db.(users := db.users - {id}, accessTokens := r.db.accessTokens,
                             refreshTokens := r.db.refreshTokens, userTokens := r.db.userTokens)
              && r.db.userTokens == map k | k in db.userTokens && db.userTokens[k].userId != id :: db.userTokens[k]
  {
    hide Indexed, RevokeTokens, TokensGone;
    if id in db.users {
      UserKeys(db, id);
      var m := db.(users := db.users - {id});
      RevokingByUser(m, id);
      TokensOfOthers(db, m, RevokeTokens(m, UserFilter(id)), id);
      BothPurposesDropped(RevokeTokens(m, UserFilter(id)), id);
      DroppedLast(db, RevokeTokens(m, UserFilter(id)), RemoveUser(db, id).db, id);
    }
  }

  lemma BothPurposesDropped(db: Db, id: string)
    ensures DeleteUserTokens(DeleteUserTokens(db, id, Activation), id, PasswordReset)
            == db.(userTokens := map k | k in db.userTokens && db.userTokens[k].userId != id :: db.userTokens[k])
  {
  }
}
