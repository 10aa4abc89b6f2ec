/** The lockout bound: how often the password of one user can be guessed wrong in a span of time. */
module Lockout {
  import opened Identity
  import opened Database
  import opened AccountRules
  import opened OAuthRules
  import opened AdminRules
  import opened Invariants
  import opened Minting
  import opened Evolution
  import opened Requests
  import opened Management
  import opened Runs

  // ---------- Sign-in attempts ----------

  /** The login name and password that a request to the password grant submits to Authenticate. */
  function GrantAttempt(db: Db, op: Op): Option<(string, string)>
    requires op.TokenOp?
  {
    var username, password, scope := RequiredParam(op.form, "username"), RequiredParam(op.form, "password"),
      Param(op.form, "scope");
    if op.grantType == PasswordGrantType && ClientActive(db, op.clientKey)
       && db.clients[op.clientKey].AllowsGrant(PasswordGrantType)
       && username.Ok? && password.Ok? && scope.Ok? && ResolveScopes(db.clients[op.clientKey], scope.value).Ok?
    then Some((username.value, password.value)) else None
  }

  /** What the request submits to Authenticate, if anything: a login form or the password grant. */
  function Attempt(db: Db, op: Op): Option<(string, string)> {
    if op.LoginOp? then Some((op.login, op.password))
    else if op.TokenOp? then GrantAttempt(db, op)
    else None
  }

  /** The password of the user is evaluated, and it is wrong. The user may be named by username or
      by email address. */
  ghost predicate Fails(env: Env, db: Db, s: Step, id: string) {
    var attempt := Attempt(db, s.op);
    attempt.Some? &&
    var u := FindUser(env, db, attempt.value.0);
    u.Some? && u.value.id == id && !u.value.IsLockedOut(s.now)
    && (u.value.passwordHash == "" || !env.verify(u.value.passwordHash, attempt.value.1))
  }

  ghost predicate SignsIn(env: Env, db: Db, s: Step, id: string) {
    var attempt := Attempt(db, s.op);
    attempt.Some? &&
    var r := Authenticate(env, db, attempt.value.0, attempt.value.1, s.now).result;
    r.Ok? && r.value.id == id
  }

  ghost predicate Resets(env: Env, db: Db, s: Step, id: string) {
    s.op.ResetPasswordOp? &&
    var r := ResetPassword(env, db, s.op.value, s.op.password, UserDrawsOf(s.d, s.op.hash), s.now, s.d.accessAt).result;
    r.Ok? && r.value.id == id
  }

  /** The request signs the user in, sets its password, or unlocks it, and succeeds. */
  ghost predicate Clears(env: Env, db: Db, s: Step, id: string) {
    || SignsIn(env, db, s, id)
    || (s.op.SetPasswordOp? && s.op.id == id && env.passwordAllowed(s.op.password))
    || Resets(env, db, s, id)
    || (s.op.UnlockUserOp? && s.op.id == id && UnlockUser(env, db, id, s.d.accessValue, s.now).result.Ok?)
  }

  // ---------- How one request changes the counters ----------

  /** The counters of the user, if it is still there, are those of u. */
  ghost predicate Counters(b: Db, id: string, u: User) {
    id in b.users ==> b.users[id].failedLoginCount == u.failedLoginCount && b.users[id].lockoutEnd == u.lockoutEnd
  }

  lemma AuthenticateCounters(env: Env, db: Db, login: string, password: string, now: Time, id: string)
    requires id in db.users && (forall k :: k in db.users ==> db.users[k].id == k)
    ensures var out, found := Authenticate(env, db, login, password, now), FindUser(env, db, login);
            if found.Some? && found.value.id == id && !found.value.IsLockedOut(now)
               && (found.value.passwordHash == "" || !env.verify(found.value.passwordHash, password))
            then Counters(out.db, id, AfterFailure(env, db.users[id], now))
            else (out.result.Ok? && out.result.value.id == id) || Counters(out.db, id, db.users[id])
  {
    hide FindUser, AfterFailure;
    var found := FindUser(env, db, login);
    if found.Some? {
      SameId(env, found.value, now);
    }
  }

  lemma SameId(env: Env, u: User, now: Time)
    ensures AfterFailure(env, u, now).id == u.id
  {
  }

  lemma IssuingKeepsUsers(db: Db, client: Client, userId: string, scopes: seq<string>, withRefresh: bool,
      codeId: string, d: Draws)
    ensures IssueTokens(db, client, userId, scopes, withRefresh, codeId, d).db.users == db.users
  {
  }

  lemma ExchangeKeepsUsers(env: Env, db: Db, client: Client, value: string, redirectUri: string, verifier: string,
      now: Time, d: Draws)
    ensures ExchangeCode(env, db, client, value, redirectUri, verifier, now, d).db.users == db.users
  {
    hide JudgeCode, IssueTokens, OwnerActive;
    var code := CodeByHash(db, HashToken(value));
    if code.Some? {
      IssuingKeepsUsers(ConsumeCode(db, code.value.id, now).db, client, code.value.userId, code.value.scopes, true,
                        code.value.id, d);
    }
  }

  lemma TokenWritesKeepUsers(db: Db, t: AccessToken, r: RefreshToken, id: string)
    ensures CreateAccessToken(db, t).db.users == db.users && WithoutAccess(db, id).users == db.users
    ensures CreateRefreshToken(db, r).db.users == db.users && UpdateRefreshToken(db, r).db.users == db.users
    ensures DeleteRefreshToken(db, id).db.users == db.users
  {
    hide AccessHashTaken, RefreshHashTaken;
  }

  lemma UseKeepsUsers(db: Db, client: Client, rt: RefreshToken, scopes: seq<string>, now: Time, d: Draws)
    ensures UseRefreshToken(db, client, rt, scopes, now, d).db.users == db.users
  {
    hide NewAccess, Rotated, Reused, CreateAccessToken, WithoutAccess, CreateRefreshToken, UpdateRefreshToken,
      DeleteRefreshToken;
    var access := NewAccess(client, rt.userId, scopes, rt.codeId, d.accessId, d.accessValue, d.accessAt);
    var dropped := WithoutAccess(db, rt.accessTokenId);
    var minted := CreateAccessToken(dropped, access).db;
    var gone := DeleteRefreshToken(minted, rt.id).db;
    TokenWritesKeepUsers(db, access, rt, rt.accessTokenId);
    TokenWritesKeepUsers(dropped, access, rt, "");
    TokenWritesKeepUsers(minted, access, Reused(rt, access.id, now), rt.id);
    TokenWritesKeepUsers(gone, access, Rotated(rt, access.id, d.refreshId, d.refreshValue, now), "");
  }

  lemma RefreshKeepsUsers(env: Env, db: Db, client: Client, value: string, scope: string, now: Time, d: Draws)
    ensures Refresh(env, db, client, value, scope, now, d).db.users == db.users
  {
    hide JudgeRefresh, OwnerActive, UseRefreshToken;
    var rt := RefreshByHash(db, HashToken(value));
    if rt.Some? && JudgeRefresh(client, rt.value, scope, now).Ok? {
      UseKeepsUsers(db, client, rt.value, JudgeRefresh(client, rt.value, scope, now).value, now, d);
    }
  }

  lemma TokenKeepsUsers(env: Env, db: Db, op: Op, now: Time, d: Draws)
    requires op.TokenOp?
    ensures var b := TokenEndpoint(env, db, op.clientKey, op.grantType, op.form, now, d).db;
            var attempt := GrantAttempt(db, op);
            b.users ==
              if attempt.Some? then Authenticate(env, db, attempt.value.0, attempt.value.1, now).db.users else db.users
  {
    hide ExchangeCode, Refresh, Authenticate, IssueTokens, ResolveScopes, Param;
    if ClientActive(db, op.clientKey) {
      var client := db.clients[op.clientKey];
      if op.grantType == AuthorizationCodeGrantType {
        var value, redirectUri, verifier := RequiredParam(op.form, "code"), Param(op.form, "redirect_uri"),
          Param(op.form, "code_verifier");
        if value.Ok? && redirectUri.Ok? && verifier.Ok? {
          ExchangeKeepsUsers(env, db, client, value.value, redirectUri.value, verifier.value, now, d);
        }
      } else if op.grantType == RefreshTokenGrantType {
        var value, scope := RequiredParam(op.form, "refresh_token"), Param(op.form, "scope");
        if value.Ok? && scope.Ok? {
          RefreshKeepsUsers(env, db, client, value.value, scope.value, now, d);
        }
      } else {
        var scope := Param(op.form, "scope");
        if scope.Ok? && ResolveScopes(client, scope.value).Ok? {
          var scopes := ResolveScopes(client, scope.value).value;
          IssuingKeepsUsers(db, client, "", scopes, false, "", d);
          var attempt := GrantAttempt(db, op);
          if attempt.Some? && Authenticate(env, db, attempt.value.0, attempt.value.1, now).result.Ok? {
            var out := Authenticate(env, db, attempt.value.0, attempt.value.1, now);
            IssuingKeepsUsers(out.db, client, out.result.value.id, scopes, true, "", d);
          }
        }
      }
    }
  }

  lemma AuthorizeKeepsUsers(env: Env, db: Db, form: Form, session: Option<Session>, decision: Decision, now: Time,
      d: Draws)
    ensures Authorize(env, db, form, session, decision, now, d).db.users == db.users
  {
    hide ClientAndRedirect, ReadAuthorizeRequest, CurrentUser, IssueTokens, NewCode;
    var target := ClientAndRedirect(db, form);
    if target.Ok? {
      var req := ReadAuthorizeRequest(target.value.0, target.value.1, target.value.2, form);
      var user := if session.None? then None else CurrentUser(env, db, session.value, now);
      if req.Ok? && user.Some? {
        IssuingKeepsUsers(db, req.value.client, user.value.id, req.value.scopes, false, "", d);
      }
    }
  }

  lemma OAuthCounters(env: Env, db: Db, s: Step, id: string)
    requires id in db.users && (forall k :: k in db.users ==> db.users[k].id == k) && IsOAuth(s.op)
    requires !Clears(env, db, s, id)
    ensures Counters(AfterOAuth(env, db, s.op, s.now, s.d), id,
                     if Fails(env, db, s, id) then AfterFailure(env, db.users[id], s.now) else db.users[id])
  {
    hide Authorize, TokenEndpoint, Authenticate, FindUser, Revoke, AfterFailure, GrantAttempt;
    match s.op {
      case AuthorizeOp(form, session, decision) => AuthorizeKeepsUsers(env, db, form, session, decision, s.now, s.d);
      case TokenOp(_, _, _) =>
        TokenKeepsUsers(env, db, s.op, s.now, s.d);
        var attempt := GrantAttempt(db, s.op);
        if attempt.Some? {
          AuthenticateCounters(env, db, attempt.value.0, attempt.value.1, s.now, id);
        }
      case RevokeOp(clientKey, value, hint) =>
        if ClientActive(db, clientKey) {
          RevokeShrinks(db, db.clients[clientKey], value, hint);
        }
      case LoginOp(login, password) => AuthenticateCounters(env, db, login, password, s.now, id);
    }
  }

  lemma RevocationKeepsUsers(db: Db, f: TokenFilter, id: string, purpose: Purpose)
    ensures RevokeTokens(db, f).users == db.users && DeleteUserTokens(db, id, purpose).users == db.users
  {
  }

  lemma SavingKeepsCounters(env: Env, db: Db, changed: User, stamp: string, now: Time, id: string)
    requires id in db.users && changed.id in db.users && (forall k :: k in db.users ==> db.users[k].id == k)
    ensures Counters(SaveUser(env, db, changed, stamp, now).db, id, if changed.id == id then changed else db.users[id])
            || SaveUser(env, db, changed, stamp, now).db == db
  {
    hide Normalize, UserTaken, RevokeTokens;
    var u := UpdatedRecord(env, db.users[changed.id], changed, stamp, now);
    RevocationKeepsUsers(db.(users := db.users[u.id := u]), UserFilter(u.id), "", Activation);
  }

  lemma FailedSavesChangeNothing(env: Env, db: Db, stamp: string, now: Time)
    ensures forall u: User :: SaveUser(env, db, u, stamp, now).result.Err? ==> SaveUser(env, db, u, stamp, now).db == db
  {
    hide Normalize, UserTaken, RevokeTokens, UpdatedRecord;
  }

  lemma ChangeKeepsCounters(env: Env, db: Db, op: Op, stamp: string, now: Time, id: string)
    requires id in db.users && (forall k :: k in db.users ==> db.users[k].id == k)
    ensures op.ChangeUserOp? ==> Counters(ChangeUser(env, db, op.id, op.userRequest, stamp, now).db, id, db.users[id])
    ensures op.UnlockUserOp? && (op.id != id || UnlockUser(env, db, id, stamp, now).result.Err?)
            ==> Counters(UnlockUser(env, db, op.id, stamp, now).db, id, db.users[id])
  {
    FailedSavesChangeNothing(env, db, stamp, now);
    hide SaveUser;
    if op.ChangeUserOp? && op.id in db.users {
      var req := op.userRequest;
      SavingKeepsCounters(env, db, db.users[op.id].(username := req.username, email := req.email,
                                                    emailVerified := req.emailVerified, enabled := req.enabled),
                                                      stamp, now, id);
    }
    if op.UnlockUserOp? && op.id in db.users {
      SavingKeepsCounters(env, db, db.users[op.id].(lockoutEnd := None, failedLoginCount := 0), stamp, now, id);
    }
  }

  lemma PasswordOfAnother(env: Env, db: Db, u: User, password: string, d: UserDraws, now: Time, id: string)
    requires id in db.users && (u.id != id || !env.passwordAllowed(password))
    ensures Counters(SavePassword(env, db, u, password, d, now).db, id, db.users[id])
    ensures SavePassword(env, db, u, password, d, now).db.users == db.users
            || SavePassword(env, db, u, password, d, now).db.users
               == db.users[u.id := WithPassword(u, d.hash, d.stamp, now)]
  {
    hide RevokeTokens;
    RevocationKeepsUsers(db.(users := db.users[u.id := WithPassword(u, d.hash, d.stamp, now)]), UserFilter(u.id), "",
                         Activation);
  }

  lemma IssueKeepsUsers(db: Db, userId: string, purpose: Purpose, lifetime: Duration, id: string, value: string,
      now: Time)
    ensures IssueUserToken(db, userId, purpose, lifetime, id, value, now).db.users == db.users
  {
  }

  lemma CreatingKeepsCounters(env: Env, db: Db, input: NewUser, d: UserDraws, now: Time, id: string)
    requires id in db.users
    ensures Counters(CreateAccount(env, db, input, d, now).db, id, db.users[id])
  {
    hide IssueUserToken, NormalizedUser, UserTaken;
    var u := NormalizedUser(env, User(d.userId, input.username, "", input.email, "",
                                      if input.password != "" then d.hash else "",
                                      input.emailVerified, input.enabled, d.stamp, 0, None, None, now, now));
    IssueKeepsUsers(CreateUser(db, u).db, u.id, Activation, env.activationLifetime, d.tokenId, d.tokenValue, now);
  }

  lemma RemovalKeepsCounters(db: Db, gone: string, id: string)
    requires id in db.users
    ensures Counters(RemoveUser(db, gone).db, id, db.users[id])
  {
    hide RevokeTokens, DeleteUserTokens;
    var a := db.(users := db.users - {gone});
    var b := RevokeTokens(a, UserFilter(gone));
    RevocationKeepsUsers(a, UserFilter(gone), "", Activation);
    RevocationKeepsUsers(b, UserFilter(gone), gone, Activation);
    RevocationKeepsUsers(DeleteUserTokens(b, gone, Activation), UserFilter(gone), gone, PasswordReset);
  }

  lemma ResetKeepsCounters(env: Env, db: Db, value: string, password: string, d: UserDraws, now: Time, savedAt: Time,
      id: string)
    requires id in db.users && (forall k :: k in db.users ==> db.users[k].id == k)
    requires var r := ResetPassword(env, db, value, password, d, now, savedAt).result; r.Ok? ==> r.value.id != id
    ensures Counters(ResetPassword(env, db, value, password, d, now, savedAt).db, id, db.users[id])
  {
    hide SavePassword, FindUserToken, DeleteUserTokens;
    var t := FindUserToken(db, PasswordReset, value, now);
    if ResetPassword(env, db, value, password, d, now, savedAt).result.Ok? {
      var u := db.users[t.value.userId].(emailVerified := true);
      PasswordOfAnother(env, db, u, password, d, savedAt, id);
      RevocationKeepsUsers(SavePassword(env, db, u, password, d, savedAt).db, NO_FILTER, u.id, PasswordReset);
    }
  }

  lemma MailKeepsUsers(env: Env, db: Db, op: Op, now: Time, d: UserDraws)
    ensures op.ResendActivationOp? ==> ResendActivation(env, db, op.email, d, now).db.users == db.users
    ensures op.RequestResetOp? ==> RequestPasswordReset(env, db, op.email, d, now).db.users == db.users
    ensures op.SendActivationOp? ==> SendActivation(env, db, op.id, d, now).db.users == db.users
  {
    hide IssueUserToken, Normalize;
    if op.SendActivationOp? {
      IssueKeepsUsers(db, op.id, Activation, env.activationLifetime, d.tokenId, d.tokenValue, now);
    } else if op.ResendActivationOp? || op.RequestResetOp? {
      var u := UserByEmail(db, Normalize(env, op.email));
      if u.Some? {
        IssueKeepsUsers(db, u.value.id, Activation, env.activationLifetime, d.tokenId, d.tokenValue, now);
        IssueKeepsUsers(db, u.value.id, PasswordReset, env.resetLifetime, d.tokenId, d.tokenValue, now);
      }
    }
  }

  lemma AccountCounters(env: Env, db: Db, s: Step, id: string)
    requires id in db.users && (forall k :: k in db.users ==> db.users[k].id == k) && !IsOAuth(s.op) && !IsAdmin(s.op)
    requires !Clears(env, db, s, id)
    ensures Counters(AfterAccount(env, db, s.op, s.now, s.d), id, db.users[id])
  {
    hide CreateAccount, Activate, ResetPassword, ResendActivation, RequestPasswordReset, SendActivation, ChangeUser,
      UnlockUser,
      RemoveUser, SavePassword, FindUserToken, Authenticate;
    match s.op {
      case CreateUserOp(input, hash) => CreatingKeepsCounters(env, db, input, UserDrawsOf(s.d, hash), s.now, id);
      case ActivateOp(value) => ActivationKeepsCounters(db, value, s.now, s.d.accessAt, id);
      case ResetPasswordOp(value, password, hash) =>
        ResetKeepsCounters(env, db, value, password, UserDrawsOf(s.d, hash), s.now, s.d.accessAt, id);
      case ResendActivationOp(email) => MailKeepsUsers(env, db, s.op, s.now, UserDrawsOf(s.d, ""));
      case RequestResetOp(email) => MailKeepsUsers(env, db, s.op, s.now, UserDrawsOf(s.d, ""));
      case SendActivationOp(_) => MailKeepsUsers(env, db, s.op, s.now, UserDrawsOf(s.d, ""));
      case ChangeUserOp(_, req) => ChangeKeepsCounters(env, db, s.op, s.d.accessValue, s.now, id);
      case UnlockUserOp(_) => ChangeKeepsCounters(env, db, s.op, s.d.accessValue, s.now, id);
      case RemoveUserOp(gone) => RemovalKeepsCounters(db, gone, id);
      case SetPasswordOp(target, password, hash) =>
        if target in db.users {
          PasswordOfAnother(env, db, db.users[target], password, UserDrawsOf(s.d, hash), s.now, id);
        }
    }
  }

  lemma ActivationKeepsCounters(db: Db, value: string, now: Time, savedAt: Time, id: string)
    requires id in db.users && (forall k :: k in db.users ==> db.users[k].id == k)
    ensures Counters(Activate(db, value, now, savedAt).db, id, db.users[id])
  {
    hide FindUserToken;
  }

  lemma AdminKeepsUsers(env: Env, db: Db, op: Op, now: Time, d: Draws)
    requires IsAdmin(op)
    ensures AfterAdmin(env, db, op, now, d).users == db.users
  {
    hide Requested, Acceptable, ClientIdTaken, RevokeTokens, DeleteAccessToken, RemoveRefreshToken,
      RemoveAccessTokens, RemoveRefreshTokens,
      RevokeAllOfUser, DeleteExpired;
    if op.RemoveAccessTokensOp? || op.RemoveRefreshTokensOp? {
      AdminDeletions(db, "", op.filter, now);
    } else if op.ChangeClientOp? || op.RemoveClientOp? {
      ClientChangesKeepUsers(env, db, op, now);
    } else if op.RevokeUserOp? || op.RemoveAccessTokenOp? || op.RemoveRefreshTokenOp? {
      AdminDeletions(db, op.id, NO_FILTER, now);
    } else {
      AdminDeletions(db, "", NO_FILTER, now);
    }
  }

  lemma ClientChangesKeepUsers(env: Env, db: Db, op: Op, now: Time)
    ensures op.ChangeClientOp? ==> ChangeClient(env, db, op.id, op.clientRequest, now).db.users == db.users
    ensures op.RemoveClientOp? ==> RemoveClient(db, op.id).db.users == db.users
  {
    hide Requested, Acceptable, ClientIdTaken;
  }

  /** One request: a failed evaluation counts as RecordFailure says, and unless the request clears
      the counters nothing else changes them. */
  lemma StepCounters(env: Env, db: Db, s: Step, id: string)
    requires id in db.users && (forall k :: k in db.users ==> db.users[k].id == k) && !Clears(env, db, s, id)
    ensures Counters(After(env, db, s), id,
                     if Fails(env, db, s, id) then AfterFailure(env, db.users[id], s.now) else db.users[id])
  {
    hide AfterOAuth, AfterAdmin, AfterAccount, Clears, AfterFailure;
    if IsOAuth(s.op) {
      OAuthCounters(env, db, s, id);
    } else if IsAdmin(s.op) {
      AdminKeepsUsers(env, db, s.op, s.now, s.d);
    } else {
      AccountCounters(env, db, s, id);
    }
  }

  // ---------- The bound ----------

  /** The failed evaluations of the user's password in steps i, ..., j - 1. */
  ghost function Failures(env: Env, ws: seq<World>, steps: seq<Step>, i: nat, j: nat, id: string): nat
    requires i <= j <= |steps| < |ws|
    decreases j
  {
    if i == j then 0
    else Failures(env, ws, steps, i, j - 1, id) + if Fails(env, ws[j - 1].db, steps[j - 1], id) then 1 else 0
  }

  /** The accounting behind the bound, with limit n and lockout duration l: since time start the account was
      locked m times, k failures were on the counter at the beginning, and the last failure was at time now,
        if there was one. */
  ghost predicate Accounted(n: int, l: int, start: Time, now: Time, failures: nat, k: nat, m: nat, u: User) {
    && 0 <= u.failedLoginCount < n && start <= now
    && failures + k == n * m + u.failedLoginCount
    && (m > 0 ==> u.lockoutEnd.Some? && u.lockoutEnd.value >= start + m * l && now >= start + (m - 1) * l)
    && (m > 0 && u.failedLoginCount > 0 ==> now >= start + m * l)
  }

  lemma FailureIsAccounted(env: Env, start: Time, now: Time, t: Time, failures: nat, k: nat, m: nat,
      u: User) returns (m': nat)
    requires Accounted(env.maxFailedAttempts, env.lockoutDuration, start, now, failures, k, m, u)
    requires env.lockoutDuration > 0 && now <= t && !u.IsLockedOut(t)
    ensures Accounted(env.maxFailedAttempts, env.lockoutDuration, start, t, failures + 1, k, m',
                      AfterFailure(env, u, t))
  {
    var n, l := env.maxFailedAttempts, env.lockoutDuration;
    if u.failedLoginCount + 1 < n {
      m' := m;
    } else {
      m' := m + 1;
      assert n * (m + 1) == n * m + n && (m + 1) * l == m * l + l;
    }
  }

  lemma TimePasses(n: int, l: int, start: Time, now: Time, t: Time, failures: nat, k: nat, m: nat, u: User, v: User)
    requires Accounted(n, l, start, now, failures, k, m, u) && now <= t
    requires v.failedLoginCount == u.failedLoginCount && v.lockoutEnd == u.lockoutEnd
    ensures Accounted(n, l, start, t, failures, k, m, v)
  {
  }

  /** With limit n and lockout duration l: how many failures fit a span of time. */
  ghost function Bound(n: int, l: int, span: Duration): int
    requires l > 0
  {
    n * (span / l + 1)
  }

  lemma AccountedIsBounded(n: int, l: int, start: Time, now: Time, span: Duration, failures: nat, k: nat, m: nat,
      u: User)
    requires Accounted(n, l, start, now, failures, k, m, u) && l > 0 && now - start <= span
    ensures failures <= Bound(n, l, span)
  {
    if m == 0 {
      Scaled(n, 1, span / l + 1);
    } else if u.failedLoginCount > 0 {
      Quotient(m, span, l);
      Scaled(n, m + 1, span / l + 1);
    } else {
      Quotient(m - 1, span, l);
      Scaled(n, m, span / l + 1);
    }
  }

  lemma Scaled(n: int, a: int, b: int)
    requires n > 0 && a <= b
    ensures n * a <= n * b
  {
  }

  lemma Quotient(m: nat, span: int, l: int)
    requires l > 0 && m * l <= span
    ensures m <= span / l
  {
    if m > span / l {
      Scaled(l, span / l + 1, m);
    }
  }

  /** The failures since the window began, while the user is there, before it exists, and after it is gone. */
  ghost predicate Tallied(env: Env, w: World, start: Time, now: Time, failures: nat, k: nat, m: nat, id: string)
    requires env.lockoutDuration > 0
  {
    && start <= now
    && failures <= Bound(env.maxFailedAttempts, env.lockoutDuration, now - start)
    && (id in w.db.users ==>
          Accounted(env.maxFailedAttempts, env.lockoutDuration, start, now, failures, k, m, w.db.users[id]))
    && (id !in w.db.users && id !in w.used ==> failures == 0)
  }

  lemma FreshTally(env: Env, w: World, start: Time, now: Time, id: string) returns (k: nat)
    requires Good(env, w.db, w.book, w.used) && env.maxFailedAttempts > 0 && env.lockoutDuration > 0 && start <= now
    ensures Tallied(env, w, start, now, 0, k, 0, id)
  {
    hide Good, Bound;
    CountsAreBounded(env, w.db, w.book, w.used, id);
    NothingIsBounded(env.maxFailedAttempts, env.lockoutDuration, now - start);
    k := if id in w.db.users then w.db.users[id].failedLoginCount else 0;
  }

  lemma NothingIsBounded(n: int, l: int, span: Duration)
    requires n > 0 && l > 0 && span >= 0
    ensures 0 <= Bound(n, l, span)
  {
    Quotient(0, span, l);
    Scaled(n, 0, span / l + 1);
  }

  lemma CountsAreBounded(env: Env, db: Db, book: Book, used: set<string>, id: string)
    requires Good(env, db, book, used)
    ensures id in db.users ==> CountOk(env, db.users[id])
  {
    hide Indexed, RefSafe, TokensOk, BookOk, ValidClient;
  }

  lemma FailureIsHis(env: Env, db: Db, s: Step, id: string)
    requires Indexed(db) && Fails(env, db, s, id)
    ensures id in db.users && !db.users[id].IsLockedOut(s.now)
  {
    hide Indexed, FindUser, GrantAttempt;
    FoundUserIsStored(db, FindUser(env, db, Attempt(db, s.op).value.0).value);
  }

  lemma BoundGrows(n: int, l: int, failures: nat, a: int, b: int)
    requires n > 0 && l > 0 && 0 <= a <= b && failures <= Bound(n, l, a)
    ensures failures <= Bound(n, l, b)
  {
    Quotient(a / l, b, l);
    Scaled(n, a / l + 1, b / l + 1);
  }

  lemma PresentTally(env: Env, w: World, v: World, start: Time, now: Time, t: Time, failures: nat, failed: bool,
      k: nat, m: nat, id: string)
    returns (m': nat)
    requires env.maxFailedAttempts > 0 && env.lockoutDuration > 0
    requires Tallied(env, w, start, now, failures, k, m, id) && now <= t && id in w.db.users && id in v.used
    requires failed ==> !w.db.users[id].IsLockedOut(t)
    requires Counters(v.db, id, if failed then AfterFailure(env, w.db.users[id], t) else w.db.users[id])
    ensures Tallied(env, v, start, t, failures + if failed then 1 else 0, k, m', id)
  {
    hide Accounted, AfterFailure, Bound;
    var n, l, u := env.maxFailedAttempts, env.lockoutDuration, w.db.users[id];
    if failed {
      m' := FailureIsAccounted(env, start, now, t, failures, k, m, u);
      AccountedIsBounded(n, l, start, t, t - start, failures + 1, k, m', AfterFailure(env, u, t));
      AccountedInOrder(n, l, start, t, failures + 1, k, m', AfterFailure(env, u, t));
      if id in v.db.users {
        TimePasses(n, l, start, t, t, failures + 1, k, m', AfterFailure(env, u, t), v.db.users[id]);
      }
    } else {
      m' := m;
      BoundGrows(n, l, failures, now - start, t - start);
      if id in v.db.users {
        TimePasses(n, l, start, now, t, failures, k, m, u, v.db.users[id]);
      }
    }
  }

  lemma AccountedInOrder(n: int, l: int, start: Time, now: Time, failures: nat, k: nat, m: nat, u: User)
    requires Accounted(n, l, start, now, failures, k, m, u)
    ensures start <= now
  {
  }

  lemma AbsentTally(env: Env, w: World, v: World, start: Time, now: Time, t: Time, failures: nat, k: nat, m: nat,
      id: string)
    returns (k': nat, m': nat)
    requires env.maxFailedAttempts > 0 && env.lockoutDuration > 0 && Good(env, v.db, v.book, v.used)
    requires Tallied(env, w, start, now, failures, k, m, id) && now <= t && id !in w.db.users
    requires (id in v.db.users ==> id !in w.used) && w.used <= v.used
    ensures Tallied(env, v, start, t, failures, k', m', id)
  {
    hide Good, Accounted, Bound;
    BoundGrows(env.maxFailedAttempts, env.lockoutDuration, failures, now - start, t - start);
    k', m' := k, m;
    if id in v.db.users {
      k' := FreshTally(env, v, start, t, id);
      m' := 0;
    }
  }

  lemma NoReturn(a: Db, b: Db, used: set<string>, id: string)
    requires Evolves(a, b, used) && id !in a.users && id in b.users
    ensures id !in used
  {
    hide AccessEvolves, RefreshEvolves, CodesEvolve, UserTokensEvolve;
  }

  /** Time advances with the failures. */
  ghost function TallyTime(env: Env, db: Db, s: Step, now: Time, id: string): Time {
    if Fails(env, db, s, id) then s.now else now
  }

  lemma TallyStep(env: Env, w: World, s: Step, start: Time, now: Time, failures: nat, k: nat, m: nat,
      id: string) returns (k': nat, m': nat)
    requires Good(env, w.db, w.book, w.used) && Enabled(w, s) && env.maxFailedAttempts > 0 && env.lockoutDuration > 0
    requires !Clears(env, w.db, s, id) && Tallied(env, w, start, now, failures, k, m, id)
    requires Fails(env, w.db, s, id) ==> now <= s.now
    ensures Tallied(env, Next(env, w, s), start, TallyTime(env, w.db, s, now, id),
                    failures + if Fails(env, w.db, s, id) then 1 else 0, k', m', id)
  {
    hide Good, Clears, Fails, After, BookAfter, StartedSessions, Fresh, AfterFailure, Tallied, Evolves, Counters;
    StepKeepsGood(env, w, s);
    UsersAreKeyed(env, w.db, w.book, w.used, id);
    var v, t := Next(env, w, s), TallyTime(env, w.db, s, now, id);
    if Fails(env, w.db, s, id) {
      FailureIsHis(env, w.db, s, id);
    }
    if id in w.db.users {
      StepCounters(env, w.db, s, id);
      k' := k;
      m' := PresentTally(env, w, v, start, now, t, failures, Fails(env, w.db, s, id), k, m, id);
    } else {
      if id in v.db.users {
        NoReturn(w.db, v.db, w.used, id);
      }
      k', m' := AbsentTally(env, w, v, start, now, t, failures, k, m, id);
    }
  }

  lemma UsersAreKeyed(env: Env, db: Db, book: Book, used: set<string>, id: string)
    requires Good(env, db, book, used)
    ensures Indexed(db) && (forall k :: k in db.users ==> db.users[k].id == k) && (id in db.users ==> id in used)
  {
    hide RefSafe, TokensOk, BookOk, ValidClient, ClientTable, AccessTable, RefreshTable, CodeTable, UserTokenTable;
  }

  lemma ClockOfStep(env: Env, w: World, s: Step, id: string)
    requires Enabled(w, s)
    ensures w.clock <= Next(env, w, s).clock && w.clock <= s.now
    ensures Fails(env, w.db, s, id) ==> s.now <= Next(env, w, s).clock
  {
    hide After, BookAfter, StartedSessions, Presented, Fresh, FindUser;
  }

  lemma {:induction false} TallyOfRun(env: Env, ws: seq<World>, steps: seq<Step>, i: nat, j: nat, start: Time,
      id: string) returns (now: Time, k: nat, m: nat)
    requires Run(env, ws, steps) && i <= j <= |steps| && env.maxFailedAttempts > 0 && env.lockoutDuration > 0
    requires forall n :: i <= n < j ==> !Clears(env, ws[n].db, steps[n], id)
    requires forall n :: i <= n < j && Fails(env, ws[n].db, steps[n], id) ==> start <= steps[n].now
    ensures |steps| < |ws| && Tallied(env, ws[j], start, now, Failures(env, ws, steps, i, j, id), k, m, id)
    ensures now == start
            || (now <= ws[j].clock
                && exists n :: i <= n < j && Fails(env, ws[n].db, steps[n], id) && steps[n].now == now)
    decreases j
  {
    hide Good, Clears, Fails, Tallied, Next, Enabled, Init;
    if j == i {
      ReachableIsGood(env, ws, steps, i);
      now, m := start, 0;
      k := FreshTally(env, ws[i], start, start, id);
    } else {
      StepOfRun(env, ws, steps, j - 1);
      ClockOfStep(env, ws[j - 1], steps[j - 1], id);
      now, k, m := TallyOfRun(env, ws, steps, i, j - 1, start, id);
      k, m := TallyStep(env, ws[j - 1], steps[j - 1], start, now, Failures(env, ws, steps, i, j - 1, id), k, m, id);
      now := TallyTime(env, ws[j - 1].db, steps[j - 1], now, id);
    }
  }

  /** With a limit of n attempts and a lockout of length l: as long as there is no successful sign-in,
      password change or unlock, at most n * (span / l + 1) evaluations of one user's password fail
      within a span of time. */
  lemma GuessesAreBounded(env: Env, ws: seq<World>, steps: seq<Step>, i: nat, j: nat, id: string, start: Time,
        span: Duration)
    requires Run(env, ws, steps) && i <= j <= |steps| && env.maxFailedAttempts > 0 && env.lockoutDuration > 0
             && span >= 0
    requires forall n :: i <= n < j ==> !Clears(env, ws[n].db, steps[n], id)
    requires forall n :: i <= n < j && Fails(env, ws[n].db, steps[n], id) ==> start <= steps[n].now <= start + span
    ensures |steps| < |ws|
            && Failures(env, ws, steps, i, j, id) <= env.maxFailedAttempts * (span / env.lockoutDuration + 1)
  {
    hide Run, Clears, Accounted, Fails;
    var now, k, m := TallyOfRun(env, ws, steps, i, j, start, id);
    BoundGrows(env.maxFailedAttempts, env.lockoutDuration, Failures(env, ws, steps, i, j, id), now - start, span);
  }

  /** The stored count of failures is below the limit in every reachable state. */
  lemma StoredCountStaysBelowTheLimit(env: Env, ws: seq<World>, steps: seq<Step>, i: nat, id: string)
    requires Run(env, ws, steps) && i < |ws| && id in ws[i].db.users && env.maxFailedAttempts > 0
    ensures 0 <= ws[i].db.users[id].failedLoginCount < env.maxFailedAttempts
  {
    hide Good, Run;
    ReachableIsGood(env, ws, steps, i);
    CountsAreBounded(env, ws[i].db, ws[i].book, ws[i].used, id);
  }
}
