/** The account service (pkg/account/account.go): registration, sign-in with lockout, passwords
    and one-time user tokens, step by step on the store. */
module Accounts {
  import opened Identity
  import opened Database
  import opened AccountRules
  import opened MemoryStore

  class Service {
    const env: Env
    const store: Store

    constructor (env: Env, store: Store)
      ensures this.env == NewEnv(env) && this.store == store
    {
      this.env := NewEnv(env);
      this.store := store;
    }

    method Find(login: string) returns (r: Result<User, AccountError>)
      requires store.Valid()
      ensures r == match FindUser(env, store.Contents(), login)
                   case None => Err(UserNotFound)
                   case Some(u) => Ok(u)
    {
      var found := store.GetUserByNormalizedUsername(Normalize(env, login));
      if found == Err(NotFound) && '@' in login {
        found := store.GetUserByNormalizedEmail(Normalize(env, login));
      }
      if found.Err? {
        return Err(UserNotFound);
      }
      return Ok(found.value);
    }

    /** The two lookups find a conflict exactly when the store would refuse the row. */
    method EnsureUnique(user: User) returns (error: Option<AccountError>)
      requires store.Valid()
      ensures error == if UserTaken(store.users, user, user.id) then Some(UserExists) else None
    {
      var existing := store.GetUserByNormalizedUsername(user.normalizedUsername);
      if existing.Ok? && existing.value.id != user.id {
        return Some(UserExists);
      }
      existing := store.GetUserByNormalizedEmail(user.normalizedEmail);
      if existing.Ok? && existing.value.id != user.id {
        return Some(UserExists);
      }
      return None;
    }

    /** store.UpdateUser for a row whose names did not change. No other row has these names, so
        the error branch of the callers is never taken. */
    method SaveRow(user: User)
      requires store.Valid() && user.id in store.users
      requires user.normalizedUsername == store.users[user.id].normalizedUsername
      requires user.normalizedEmail == store.users[user.id].normalizedEmail
      modifies store`users
      ensures store.Valid() && store.users == old(store.users)[user.id := user]
    {
      var error := store.UpdateUser(user);
      assert error.None?;
    }

    /** Counts a failed password evaluation; at the limit the account is locked and the count starts again. */
    method RecordFailure(current: User, now: Time)
      requires store.Valid() && current.id in store.users && store.users[current.id] == current
      modifies store`users
      ensures store.Valid() && store.users == old(store.users)[current.id := AfterFailure(env, current, now)]
    {
      hide Indexed;
      var user := current;
      if env.maxFailedAttempts > 0 {
        user := user.(failedLoginCount := user.failedLoginCount + 1);
        if user.failedLoginCount >= env.maxFailedAttempts {
          user := user.(lockoutEnd := Some(now + env.lockoutDuration));
          user := user.(failedLoginCount := 0);
        }
        user := user.(updatedAt := now);
        SaveRow(user);
      }
    }

    method SignIn(login: string, password: string, now: Time) returns (r: Result<User, AccountError>)
      requires store.Valid()
      modifies store`users
      ensures store.Valid()
      ensures Outcome(store.Contents(), r) == Authenticate(env, old(store.Contents()), login, password, now)
    {
      var found := Find(login);
      if found.Err? {
        return Err(InvalidCredentials);
      }
      var user := found.value;
      if user.IsLockedOut(now) {
        return Err(LockedOut);
      }
      if user.passwordHash == "" || !env.verify(user.passwordHash, password) {
        RecordFailure(user, now);
        return Err(InvalidCredentials);
      }
      if !user.enabled {
        return Err(Disabled);
      }
      if env.requireActivation && !user.emailVerified {
        return Err(NotActivated);
      }
      user := user.(failedLoginCount := 0, lockoutEnd := None, lastLoginAt := Some(now), updatedAt := now);
      SaveRow(user);
      return Ok(user);
    }

    method RevokeUserTokens(userId: string)
      requires store.Valid()
      modifies store`accessTokens, store`refreshTokens
      ensures store.Valid() && store.Contents() == RevokeTokens(old(store.Contents()), UserFilter(userId))
    {
      var n := store.DeleteRefreshTokens(UserFilter(userId));
      n := store.DeleteAccessTokens(UserFilter(userId));
    }

    method CreateToken(user: User, purpose: Purpose, lifetime: Duration, id: string, value: string, now: Time)
      returns (error: Option<StoreError>)
      requires store.Valid()
      modifies store`userTokens
      ensures store.Valid()
      ensures Written(store.Contents(), error)
           == IssueUserToken(old(store.Contents()), user.id, purpose, lifetime, id, value, now)
    {
      var n := store.DeleteUserTokens(user.id, purpose);
      error := store.CreateUserToken(UserToken(id, user.id, purpose, HashToken(value), now, now + lifetime));
    }

    method CreateUser(input: NewUser, d: UserDraws, now: Time) returns (r: Result<User, AccountError>)
      requires store.Valid() && d.userId != ""
      modifies store`users, store`userTokens
      ensures store.Valid()
      ensures Outcome(store.Contents(), r) == CreateAccount(env, old(store.Contents()), input, d, now)
    {
      var user := NormalizedUser(env, User(d.userId, input.username, "", input.email, "", "",
                                           input.emailVerified, input.enabled, d.stamp, 0, None, None, now, now));
      if !env.validProfile(user.username, user.email) {
        return Err(InvalidProfile);
      }
      if input.password != "" {
        if !env.passwordAllowed(input.password) {
          return Err(InvalidPassword);
        }
        user := user.(passwordHash := d.hash);
      }
      var conflict := EnsureUnique(user);
      if conflict.Some? {
        return Err(conflict.value);
      }
      var error := store.CreateUser(user);
      if error.Some? {
        return Err(UserExists);
      }
      if input.sendActivation && !user.emailVerified {
        // A failure to send is only logged
        var ignored := CreateToken(user, Activation, env.activationLifetime, d.tokenId, d.tokenValue, now);
      }
      return Ok(user);
    }

    method UpdateUser(changed: User, stamp: string, now: Time) returns (r: Result<User, AccountError>)
      requires store.Valid()
      modifies store`users, store`accessTokens, store`refreshTokens
      ensures store.Valid()
      ensures Outcome(store.Contents(), r) == SaveUser(env, old(store.Contents()), changed, stamp, now)
    {
      hide Indexed, Normalize, RevokeTokens;
      var found := store.GetUserById(changed.id);
      if found.Err? {
        return Err(UserNotFound);
      }
      var current := found.value;
      var user := NormalizedUser(env, changed);
      if !env.validProfile(user.username, user.email) {
        return Err(InvalidProfile);
      }
      var conflict := EnsureUnique(user);
      if conflict.Some? {
        return Err(conflict.value);
      }
      user := user.(passwordHash := current.passwordHash, createdAt := current.createdAt, updatedAt := now);
      if user.securityStamp == "" {
        user := user.(securityStamp := current.securityStamp);
      }
      if (!user.enabled && current.enabled) || user.normalizedEmail != current.normalizedEmail {
        user := user.(securityStamp := stamp);
      }
      var error := store.UpdateUser(user);
      if error.Some? {
        return Err(if error.value == Duplicate then UserExists else UserNotFound);
      }
      if !user.enabled && current.enabled {
        RevokeUserTokens(user.id);
      }
      return Ok(user);
    }

    method DeleteUser(id: string) returns (r: Result<(), AccountError>)
      requires store.Valid()
      modifies store`users, store`accessTokens, store`refreshTokens, store`userTokens
      ensures store.Valid() && Outcome(store.Contents(), r) == RemoveUser(old(store.Contents()), id)
    {
      var error := store.DeleteUser(id);
      if error.Some? {
        return Err(UserNotFound);
      }
      RevokeUserTokens(id);
      var n := store.DeleteUserTokens(id, Activation);
      n := store.DeleteUserTokens(id, PasswordReset);
      return Ok(());
    }

    /** setPassword: the user is the current row, possibly with its email address confirmed. */
    method ChangePassword(user: User, password: string, d: UserDraws, now: Time) returns (r: Result<(), AccountError>)
      requires store.Valid() && user.id in store.users
      requires user.normalizedUsername == store.users[user.id].normalizedUsername
      requires user.normalizedEmail == store.users[user.id].normalizedEmail
      modifies store`users, store`accessTokens, store`refreshTokens
      ensures store.Valid()
      ensures Outcome(store.Contents(), r) == SavePassword(env, old(store.Contents()), user, password, d, now)
    {
      if !env.passwordAllowed(password) {
        return Err(InvalidPassword);
      }
      var saved := user.(passwordHash := d.hash, securityStamp := d.stamp);
      saved := saved.(failedLoginCount := 0, lockoutEnd := None, updatedAt := now);
      SaveRow(saved);
      RevokeUserTokens(saved.id);
      return Ok(());
    }

    method SetPassword(userId: string, password: string, d: UserDraws, now: Time) returns (r: Result<(), AccountError>)
      requires store.Valid()
      modifies store`users, store`accessTokens, store`refreshTokens
      ensures store.Valid()
      ensures Outcome(store.Contents(), r)
              == AccountRules.SetPassword(env, old(store.Contents()), userId, password, d, now)
    {
      var found := store.GetUserById(userId);
      if found.Err? {
        return Err(UserNotFound);
      }
      r := ChangePassword(found.value, password, d, now);
    }

    method LookupUserToken(purpose: Purpose, value: string, now: Time) returns (r: Result<(UserToken, User),
        AccountError>)
      requires store.Valid()
      ensures r == match FindUserToken(store.Contents(), purpose, value, now)
                   case None => Err(InvalidUserToken)
                   case Some(t) => Ok((t, store.users[t.userId]))
    {
      if value == "" {
        return Err(InvalidUserToken);
      }
      var token := store.GetUserTokenByHash(purpose, HashToken(value));
      if token.Err? || ExpiredAt(token.value.expiresAt, now) {
        return Err(InvalidUserToken);
      }
      var user := store.GetUserById(token.value.userId);
      if user.Err? {
        return Err(InvalidUserToken);
      }
      return Ok((token.value, user.value));
    }

    method Activate(value: string, now: Time, savedAt: Time) returns (r: Result<User, AccountError>)
      requires store.Valid()
      modifies store`users, store`userTokens
      ensures store.Valid()
      ensures Outcome(store.Contents(), r) == AccountRules.Activate(old(store.Contents()), value, now, savedAt)
    {
      var found := LookupUserToken(Activation, value, now);
      if found.Err? {
        return Err(found.error);
      }
      var (token, user) := found.value;
      user := user.(emailVerified := true, updatedAt := savedAt);
      SaveRow(user);
      var error := store.DeleteUserToken(token.id);
      return Ok(user);
    }

    method ResetPassword(value: string, password: string, d: UserDraws, now: Time, savedAt: Time)
      returns (r: Result<User, AccountError>)
      requires store.Valid()
      modifies store`users, store`accessTokens, store`refreshTokens, store`userTokens
      ensures store.Valid()
      ensures Outcome(store.Contents(), r)
           == AccountRules.ResetPassword(env, old(store.Contents()), value, password, d, now, savedAt)
    {
      if !env.passwordAllowed(password) {
        return Err(InvalidPassword);
      }
      var found := LookupUserToken(PasswordReset, value, now);
      if found.Err? {
        return Err(found.error);
      }
      var (token, user) := found.value;
      if !user.enabled {
        return Err(InvalidUserToken);
      }
      user := user.(emailVerified := true);
      var saved := ChangePassword(user, password, d, savedAt);
      assert saved.Ok?;
      var n := store.DeleteUserTokens(user.id, PasswordReset);
      return Ok(WithPassword(user, d.hash, d.stamp, savedAt));
    }

    method ResendActivation(email: string, d: UserDraws, now: Time) returns (error: Option<StoreError>)
      requires store.Valid()
      modifies store`userTokens
      ensures store.Valid()
      ensures Written(store.Contents(), error)
              == AccountRules.ResendActivation(env, old(store.Contents()), email, d, now)
    {
      var found := store.GetUserByNormalizedEmail(Normalize(env, email));
      if found.Err? || found.value.emailVerified || !found.value.enabled {
        return None;
      }
      error := CreateToken(found.value, Activation, env.activationLifetime, d.tokenId, d.tokenValue, now);
    }

    method RequestPasswordReset(email: string, d: UserDraws, now: Time) returns (error: Option<StoreError>)
      requires store.Valid()
      modifies store`userTokens
      ensures store.Valid()
      ensures Written(store.Contents(), error)
              == AccountRules.RequestPasswordReset(env, old(store.Contents()), email, d, now)
    {
      var found := store.GetUserByNormalizedEmail(Normalize(env, email));
      if found.Err? || !found.value.enabled {
        return None;
      }
      error := CreateToken(found.value, PasswordReset, env.resetLifetime, d.tokenId, d.tokenValue, now);
    }
  }
}
