/** Account operations and administration keep the global invariant, too. */
module Management {
  import opened Identity
  import opened Database
  import opened AccountRules
  import opened OAuthRules
  import opened AdminRules
  import opened Invariants
  import opened Minting
  import opened Evolution
  import opened Requests

  /** The fresh values of a step, as the account operations use them. */
  function UserDrawsOf(d: Draws, hash: string): UserDraws {
    UserDraws(d.accessId, d.accessValue, hash, d.refreshId, d.refreshValue)
  }

  // ---------- New accounts ----------

  lemma NewUserRow(env: Env, db: Db, u: User, book: Book, used: set<string>, d: Draws)
    requires Good(env, db, book, used) && Fresh(d, used)
    requires u.id == d.accessId && u.securityStamp == d.accessValue && u.failedLoginCount == 0
             && !UserTaken(db.users, u, "")
    ensures var b := db.(users := db.users[u.id := u]);
            Good(env, b, book, used + {d.accessId, d.accessValue}) && UsersEvolve(db, b, used) && u.id !in db.users
  {
    var used1, b := used + {d.accessId, d.accessValue}, db.(users := db.users[u.id := u]);
    hide Indexed, RefSafe, BookOk, TokensOk, PeopleOk, TokensShrink, UserTaken, UserOk, NoTokensOfUser, UsersEvolve,
      Fresh;
    NewUserIsNobody(env, db, u, book, used, d);
    NewUserFits(env, db, u, used, d);
    RowThenDeletions(db, b, b);
    TokensOfNobody(db, b, u.id);
    GoodHasNoEmptyId(env, db, book, used);
    MoreUsedKeepsGood(env, db, book, used, used1);
    UserRowKeepsGood(env, db, b, u, book, used1);
  }

  lemma NewUserFits(env: Env, db: Db, u: User, used: set<string>, d: Draws)
    requires Fresh(d, used) && u.id == d.accessId && u.securityStamp == d.accessValue && u.failedLoginCount == 0
    ensures UserOk(env, u, used + {d.accessId, d.accessValue})
            && UsersEvolve(db, db.(users := db.users[u.id := u]), used)
    ensures u.id != "" && d.accessId != "" && d.accessValue != ""
    ensures d.refreshId !in used + {d.accessId, d.accessValue} && d.refreshValue !in used + {d.accessId, d.accessValue}
    ensures used + {d.accessId, d.accessValue} <= used + Drawn(d) && d.accessId !in used
  {
  }

  lemma NewUserIsNobody(env: Env, db: Db, u: User, book: Book, used: set<string>, d: Draws)
    requires Good(env, db, book, used) && Fresh(d, used) && u.id == d.accessId && !UserTaken(db.users, u, "")
    ensures u.id !in db.users && !UserTaken(db.users, u, u.id) && NoTokensOfUser(db, u.id)
  {
    assert u.id !in db.users && (forall k :: k in db.users ==> db.users[k].id == k && k != "") by {
      hide RefSafe, TokensOk, BookOk, ClientTable;
    }
    hide Indexed, TokensOk, BookOk, PeopleOk, ClientActive;
  }

  lemma NewAccountKept(env: Env, db: Db, u: User, now: Time, book: Book, used: set<string>, d: Draws)
    requires Good(env, db, book, used) && Fresh(d, used)
    requires u.id == d.accessId && u.securityStamp == d.accessValue && u.failedLoginCount == 0
             && !UserTaken(db.users, u, "")
    ensures u.id !in db.users
    ensures var m := db.(users := db.users[u.id := u]);
            && Kept(env, db, book, used, m, None, d)
            && Kept(env, db, book, used, IssueUserToken(m, u.id, Activation, env.activationLifetime, d.refreshId,
                                                        d.refreshValue, now).db, None, d)
  {
    hide Indexed, RefSafe, BookOk, TokensOk, PeopleOk, UserTaken, UserOk, UsersEvolve, Kept, IssueUserToken, Fresh,
      Drawn;
    var used1, m := used + {d.accessId, d.accessValue}, db.(users := db.users[u.id := u]);
    NewUserFits(env, db, u, used, d);
    NewUserRow(env, db, u, book, used, d);
    NewUserKept(env, db, m, book, used, used1, d);
    FreshHashesAreFree(db, book, used, d.accessId);
    UserTokenKept(env, db, m, u.id, Activation, env.activationLifetime, now, book, used, used1, d);
  }

  lemma CreateAccountKept(env: Env, db: Db, input: NewUser, hash: string, now: Time, book: Book, used: set<string>,
      d: Draws)
    requires Good(env, db, book, used) && Fresh(d, used)
    ensures Kept(env, db, book, used, CreateAccount(env, db, input, UserDrawsOf(d, hash), now).db, None, d)
  {
    hide Good, UserTaken, Kept, IssueUserToken, Fresh;
    NothingKept(env, db, book, used, None, d);
    var u := NormalizedUser(env, User(d.accessId, input.username, "", input.email, "",
                                      if input.password != "" then hash else "",
                                      input.emailVerified, input.enabled, d.accessValue, 0, None, None, now, now));
    assert u.id == d.accessId && u.securityStamp == d.accessValue && u.failedLoginCount == 0;
    hide NormalizedUser;
    if !UserTaken(db.users, u, "") {
      NewAccountKept(env, db, u, now, book, used, d);
    }
  }

  lemma NewUserKept(env: Env, a: Db, m: Db, book: Book, used: set<string>, used1: set<string>, d: Draws)
    requires Good(env, a, book, used) && Good(env, m, book, used1) && Fresh(d, used) && used1 <= used + Drawn(d)
    requires m.(users := a.users) == a && UsersEvolve(a, m, used)
    ensures Kept(env, a, book, used, m, None, d)
  {
    hide Indexed, RefSafe, BookOk, TokensOk, PeopleOk, UsersEvolve, CodesEvolve, Fresh, Drawn;
    TablesStay(a, m, book, used, d);
    SameCodesEvolveTrivially(a, m, used);
    DrawnKeepsGood(env, a, book, used, d);
    GoodHasNoEmptyId(env, a, book, used + Drawn(d));
    MoreUsedKeepsGood(env, m, book, used1, used + Drawn(d));
  }

  // ---------- Changing and deleting users ----------

  /** What the callers of UpdateUser pass: a changed copy of the stored record. */
  ghost predicate CopyOfStored(env: Env, db: Db, changed: User) {
    && changed.id in db.users && changed.securityStamp == db.users[changed.id].securityStamp && CountOk(env, changed)
  }

  lemma SavedRowFits(env: Env, db: Db, changed: User, now: Time, book: Book, used: set<string>, d: Draws)
    requires Good(env, db, book, used) && Fresh(d, used) && CopyOfStored(env, db, changed)
    ensures var u := UpdatedRecord(env, db.users[changed.id], changed, d.accessValue, now);
            && u.id == changed.id && u.id != "" && UserOk(env, u, used + Drawn(d)) && StampEvolves(db, u, used)
            && u.enabled == changed.enabled && (!db.users[changed.id].enabled ==> NoTokensOfUser(db, changed.id))
  {
    StoredUserFits(env, db, changed.id, used);
    assert !db.users[changed.id].enabled && changed.id != "" ==> NoTokensOfUser(db, changed.id) by {
      hide Indexed, TokensOk, BookOk, PeopleOk, ClientActive, UserOk;
    }
    hide Indexed, TokensOk, BookOk, PeopleOk, RefSafe;
  }

  lemma SaveUserKept(env: Env, db: Db, changed: User, now: Time, book: Book, used: set<string>, d: Draws)
    requires Good(env, db, book, used) && Fresh(d, used) && CopyOfStored(env, db, changed)
    ensures Kept(env, db, book, used, SaveUser(env, db, changed, d.accessValue, now).db, None, d)
  {
    hide Indexed, RefSafe, BookOk, TokensOk, PeopleOk, TokensShrink, UserTaken, UserOk, StampEvolves, NoTokensOfUser,
      Kept, UpdatedRecord, RevokeTokens, Fresh, Drawn;
    NothingKept(env, db, book, used, None, d);
    var current := db.users[changed.id];
    var u := UpdatedRecord(env, current, changed, d.accessValue, now);
    SavedRowFits(env, db, changed, now, book, used, d);
    if !UserTaken(db.users, u, u.id) {
      var saved := db.(users := db.users[u.id := u]);
      if !u.enabled && current.enabled {
        var b := RevokeTokens(saved, UserFilter(u.id));
        RevocationIsComplete(saved, u.id);
        RevocationShrinks(saved, UserFilter(u.id));
        RowThenDeletions(db, saved, b);
        UserRowKept(env, db, b, u, book, used, None, d);
      } else {
        RowThenDeletions(db, saved, saved);
        TokensOfNobody(db, saved, u.id);
        UserRowKept(env, db, saved, u, book, used, None, d);
      }
    }
  }

  lemma TokensOfNobody(a: Db, b: Db, id: string)
    requires b.accessTokens == a.accessTokens && b.refreshTokens == a.refreshTokens
    ensures NoTokensOfUser(a, id) ==> NoTokensOfUser(b, id)
  {
  }

  lemma ChangeUserKept(env: Env, db: Db, id: string, req: UserRequest, now: Time, book: Book, used: set<string>,
      d: Draws)
    requires Good(env, db, book, used) && Fresh(d, used)
    ensures Kept(env, db, book, used, ChangeUser(env, db, id, req, d.accessValue, now).db, None, d)
    ensures Kept(env, db, book, used, UnlockUser(env, db, id, d.accessValue, now).db, None, d)
  {
    hide Indexed, RefSafe, BookOk, TokensOk, PeopleOk, Kept, SaveUser, Fresh;
    NothingKept(env, db, book, used, None, d);
    if id in db.users {
      var u := db.users[id];
      StoredUserFits(env, db, id, used);
      SaveUserKept(env, db, u.(username := req.username, email := req.email, emailVerified := req.emailVerified,
                               enabled := req.enabled),
                   now, book, used, d);
      SaveUserKept(env, db, u.(lockoutEnd := None, failedLoginCount := 0), now, book, used, d);
    }
  }

  lemma RemoveUserKept(env: Env, db: Db, id: string, book: Book, used: set<string>, d: Draws)
    requires Good(env, db, book, used) && Fresh(d, used)
    ensures Kept(env, db, book, used, RemoveUser(db, id).db, None, d)
  {
    hide Indexed, RefSafe, BookOk, TokensOk, PeopleOk, TokensShrink, NoTokensOfUser, Kept, Fresh, RevokeTokens,
      DeleteUserTokens, UserOk;
    NothingKept(env, db, book, used, None, d);
    if id in db.users {
      StoredUserFits(env, db, id, used);
      var gone := db.(users := db.users - {id});
      var revoked := RevokeTokens(gone, UserFilter(id));
      var one := DeleteUserTokens(revoked, id, Activation);
      var b := DeleteUserTokens(one, id, PasswordReset);
      RevocationIsComplete(gone, id);
      RevocationShrinks(gone, UserFilter(id));
      UserTokenDeletionShrinks(revoked, id, Activation);
      UserTokenDeletionShrinks(one, id, PasswordReset);
      ShrinksThrice(gone, revoked, one, b);
      RowThenDeletions(db, gone, b);
      TokensOfNobody(revoked, b, id);
      UserRemovalKept(env, db, b, id, book, used, None, d);
    }
  }

  lemma ShrinksThrice(a: Db, b: Db, c: Db, e: Db)
    requires TokensShrink(a, b) && TokensShrink(b, c) && TokensShrink(c, e)
    ensures TokensShrink(a, e)
  {
  }

  // ---------- Passwords and one-time tokens ----------

  lemma PasswordRowFits(env: Env, db: Db, u: User, hash: string, now: Time, used: set<string>, d: Draws)
    requires u.id in db.users && SameNames(db, u) && UserOk(env, u, used) && Fresh(d, used)
    ensures var v := WithPassword(u, hash, d.accessValue, now);
            v.id == u.id && SameNames(db, v) && UserOk(env, v, used + Drawn(d)) && StampEvolves(db, v, used)
  {
  }

  lemma PasswordRowKept(env: Env, db: Db, u: User, hash: string, now: Time, book: Book, used: set<string>, d: Draws)
    requires Good(env, db, book, used) && Fresh(d, used) && u.id in db.users && SameNames(db, u) && UserOk(env, u, used)
    ensures var b := RevokeTokens(db.(users := db.users[u.id := WithPassword(u, hash, d.accessValue, now)]),
                                  UserFilter(u.id));
            Kept(env, db, book, used, b, None, d)
            && Kept(env, db, book, used, DeleteUserTokens(b, u.id, PasswordReset), None, d)
  {
    hide Indexed, RefSafe, BookOk, TokensOk, PeopleOk, TokensShrink, UserOk, StampEvolves, SameNames, Kept,
      WithPassword, RevokeTokens, Fresh, Drawn, DeleteUserTokens;
    var v := WithPassword(u, hash, d.accessValue, now);
    PasswordRowFits(env, db, u, hash, now, used, d);
    var saved := db.(users := db.users[v.id := v]);
    var b := RevokeTokens(saved, UserFilter(u.id));
    RevocationShrinks(saved, UserFilter(u.id));
    RowThenDeletions(db, saved, b);
    SameNamesKept(env, db, b, v, book, used, None, d);
    var c := DeleteUserTokens(b, u.id, PasswordReset);
    UserTokenDeletionShrinks(b, u.id, PasswordReset);
    ShrinksTwice(db, b, c);
    SameNamesKept(env, db, c, v, book, used, None, d);
  }

  lemma ShrinksTwice(a: Db, b: Db, c: Db)
    requires TokensShrink(a, b) && TokensShrink(b, c)
    ensures TokensShrink(a, c)
  {
  }

  lemma SavePasswordKept(env: Env, db: Db, u: User, password: string, hash: string, now: Time, book: Book,
      used: set<string>, d: Draws)
    requires Good(env, db, book, used) && Fresh(d, used) && u.id in db.users && SameNames(db, u) && UserOk(env, u, used)
    ensures Kept(env, db, book, used, SavePassword(env, db, u, password, UserDrawsOf(d, hash), now).db, None, d)
    ensures env.passwordAllowed(password) ==>
              Kept(env, db, book, used, DeleteUserTokens(SavePassword(env, db, u, password, UserDrawsOf(d, hash),
                                                                      now).db, u.id, PasswordReset), None, d)
  {
    hide Good, UserOk, SameNames, Kept, WithPassword, RevokeTokens, Fresh, DeleteUserTokens;
    NothingKept(env, db, book, used, None, d);
    PasswordRowKept(env, db, u, hash, now, book, used, d);
  }

  lemma SetPasswordKept(env: Env, db: Db, userId: string, password: string, hash: string, now: Time, book: Book,
      used: set<string>, d: Draws)
    requires Good(env, db, book, used) && Fresh(d, used)
    ensures Kept(env, db, book, used, SetPassword(env, db, userId, password, UserDrawsOf(d, hash), now).db, None, d)
  {
    hide Indexed, RefSafe, BookOk, TokensOk, PeopleOk, UserOk, Kept, Fresh, SavePassword;
    NothingKept(env, db, book, used, None, d);
    if userId in db.users {
      StoredUserFits(env, db, userId, used);
      SavePasswordKept(env, db, db.users[userId], password, hash, now, book, used, d);
    }
  }

  lemma ResetPasswordKept(env: Env, db: Db, value: string, password: string, hash: string, now: Time, savedAt: Time,
                          book: Book, used: set<string>, d: Draws)
    requires Good(env, db, book, used) && Fresh(d, used)
    ensures Kept(env, db, book, used, ResetPassword(env, db, value, password, UserDrawsOf(d, hash), now, savedAt).db,
                 None, d)
  {
    hide Indexed, RefSafe, BookOk, TokensOk, PeopleOk, Kept, Fresh, SavePassword, DeleteUserTokens;
    NothingKept(env, db, book, used, None, d);
    match FindUserToken(db, PasswordReset, value, now) {
      case None =>
      case Some(t) =>
        StoredUserFits(env, db, t.userId, used);
        SavePasswordKept(env, db, db.users[t.userId].(emailVerified := true), password, hash, savedAt, book, used, d);
    }
  }

  lemma ActivateKept(env: Env, db: Db, value: string, now: Time, savedAt: Time, book: Book, used: set<string>, d: Draws)
    requires Good(env, db, book, used) && Fresh(d, used)
    ensures Kept(env, db, book, used, Activate(db, value, now, savedAt).db, None, d)
  {
    hide Indexed, RefSafe, BookOk, TokensOk, PeopleOk, Kept, Fresh, TokensShrink, Drawn;
    NothingKept(env, db, book, used, None, d);
    match FindUserToken(db, Activation, value, now) {
      case None =>
      case Some(t) =>
        StoredUserFits(env, db, t.userId, used);
        var u := db.users[t.userId].(emailVerified := true, updatedAt := savedAt);
        var saved := db.(users := db.users[t.userId := u]);
        UserTokenGone(saved, t.id);
        RowThenDeletions(db, saved, DeleteUserToken(saved, t.id).db);
        SameNamesKept(env, db, DeleteUserToken(saved, t.id).db, u, book, used, None, d);
    }
  }

  lemma UserTokenGone(db: Db, id: string)
    ensures OnlyDeleted(db, DeleteUserToken(db, id).db)
  {
  }

  lemma UserTokenForKept(env: Env, db: Db, userId: string, purpose: Purpose, lifetime: Duration, now: Time,
      book: Book, used: set<string>, d: Draws)
    requires Good(env, db, book, used) && Fresh(d, used)
    ensures var w := IssueUserToken(db, userId, purpose, lifetime, d.refreshId, d.refreshValue, now);
            w.error.None? && Kept(env, db, book, used, w.db, None, d)
  {
    hide Indexed, RefSafe, BookOk, TokensOk, PeopleOk, Kept, UsersEvolve, IssueUserToken;
    SameUsersEvolveTrivially(db, db, used);
    FreshHashesAreFree(db, book, used, d.accessId);
    UserTokenKept(env, db, db, userId, purpose, lifetime, now, book, used, used, d);
  }

  lemma MailedTokensKept(env: Env, db: Db, email: string, hash: string, now: Time, book: Book, used: set<string>,
      d: Draws)
    requires Good(env, db, book, used) && Fresh(d, used)
    ensures Kept(env, db, book, used, ResendActivation(env, db, email, UserDrawsOf(d, hash), now).db, None, d)
    ensures Kept(env, db, book, used, RequestPasswordReset(env, db, email, UserDrawsOf(d, hash), now).db, None, d)
  {
    hide Good, Kept, Fresh, IssueUserToken, Normalize;
    NothingKept(env, db, book, used, None, d);
    match UserByEmail(db, Normalize(env, email)) {
      case None =>
      case Some(u) =>
        UserTokenForKept(env, db, u.id, Activation, env.activationLifetime, now, book, used, d);
        UserTokenForKept(env, db, u.id, PasswordReset, env.resetLifetime, now, book, used, d);
    }
  }

  // ---------- Clients ----------

  lemma AddClientKept(env: Env, db: Db, req: ClientRequest, secretHash: string, now: Time, book: Book,
      used: set<string>, d: Draws)
    requires Good(env, db, book, used) && Fresh(d, used)
    ensures Kept(env, db, book, used, AddClient(env, db, req, d.accessId, secretHash, now).db, None, d)
  {
    hide Indexed, RefSafe, BookOk, TokensOk, PeopleOk, TokensShrink, Kept, NoTokensOfClient, ClientIdTaken;
    NothingKept(env, db, book, used, None, d);
    var c := Requested(req, BlankClient(d.accessId, now));
    if Acceptable(env, c) {
      var saved := if c.IsPublic() then c else c.(secretHash := secretHash);
      assert ValidClient(env, saved) && saved.id == d.accessId;
      hide Acceptable, ValidClient, Requested;
      if !ClientIdTaken(db.clients, saved.clientId, "") {
        NewClientIsNobody(env, db, saved, book, used, d);
        NothingDeleted(db);
        ClientRowKept(env, db, db.(clients := db.clients[saved.id := saved]), saved, book, used, None, d);
      }
    }
  }

  lemma NewClientIsNobody(env: Env, db: Db, c: Client, book: Book, used: set<string>, d: Draws)
    requires Good(env, db, book, used) && Fresh(d, used) && c.id == d.accessId
             && !ClientIdTaken(db.clients, c.clientId, "")
    ensures c.id !in db.clients && !ClientIdTaken(db.clients, c.clientId, c.id)
    ensures TokensShrink(db, db.(clients := db.clients[c.id := c]))
            && NoTokensOfClient(db.(clients := db.clients[c.id := c]), c.id)
  {
    var b := db.(clients := db.clients[c.id := c]);
    assert c.id !in db.clients && (forall k :: k in db.clients ==> db.clients[k].id == k && k != "") by {
      hide RefSafe, TokensOk, BookOk, UserTable, AccessTable, RefreshTable, CodeTable, UserTokenTable, UserOk,
        ValidClient;
    }
    hide Indexed, TokensOk, BookOk, PeopleOk, UserEnabled, Fresh, TokensShrink, NoTokensOfClient, RefSafe;
    RowThenDeletions(db, b, b);
    AbsentClientHasNoTokens(db, b, c.id);
  }

  lemma AbsentClientHasNoTokens(a: Db, m: Db, id: string)
    requires RefSafe(a) && m.accessTokens == a.accessTokens && m.refreshTokens == a.refreshTokens && id !in a.clients
    ensures NoTokensOfClient(m, id)
  {
    hide UserEnabled;
  }

  lemma ChangeClientKept(env: Env, db: Db, id: string, req: ClientRequest, now: Time, book: Book, used: set<string>,
      d: Draws)
    requires Good(env, db, book, used) && Fresh(d, used)
    ensures Kept(env, db, book, used, ChangeClient(env, db, id, req, now).db, None, d)
  {
    hide Indexed, RefSafe, BookOk, TokensOk, PeopleOk, TokensShrink, Kept, NoTokensOfClient, ClientIdTaken,
      RevokeTokens, Fresh, Drawn;
    NothingKept(env, db, book, used, None, d);
    if id in db.clients && Acceptable(env, Requested(req, db.clients[id])) {
      StoredClientFits(env, db, id, used);
      var c := Requested(req, db.clients[id]);
      var saved := c.(updatedAt := now, secretHash := if c.IsPublic() then "" else c.secretHash);
      assert ValidClient(env, saved) && saved.id == id;
      hide Acceptable, ValidClient, Requested;
      if !ClientIdTaken(db.clients, saved.clientId, saved.id) {
        SavedClientKept(env, db, saved, book, used, d);
      }
    }
  }

  lemma SavedClientKept(env: Env, db: Db, c: Client, book: Book, used: set<string>, d: Draws)
    requires Good(env, db, book, used) && Fresh(d, used) && c.id in db.clients
    requires ValidClient(env, c) && !ClientIdTaken(db.clients, c.clientId, c.id)
    ensures var b := db.(clients := db.clients[c.id := c]);
            Kept(env, db, book, used,
                 if db.clients[c.id].enabled && !c.enabled then RevokeTokens(b, ClientFilter(c.id)) else b, None, d)
  {
    hide Indexed, RefSafe, BookOk, TokensOk, PeopleOk, TokensShrink, Kept, NoTokensOfClient, ClientIdTaken,
      ValidClient, RevokeTokens, Fresh, Drawn;
    StoredClientFits(env, db, c.id, used);
    InUsed(c.id, used, d);
    var m := db.(clients := db.clients[c.id := c]);
    if db.clients[c.id].enabled && !c.enabled {
      var b := RevokeTokens(m, ClientFilter(c.id));
      RevocationIsComplete(m, c.id);
      RevocationShrinks(m, ClientFilter(c.id));
      RowThenDeletions(db, m, b);
      ClientRowKept(env, db, b, c, book, used, None, d);
    } else {
      RowThenDeletions(db, m, m);
      DisabledClientHasNoTokens(db, m, c.id);
      ClientRowKept(env, db, m, c, book, used, None, d);
    }
  }

  lemma InUsed(id: string, used: set<string>, d: Draws)
    requires id in used
    ensures id in used + Drawn(d)
  {
  }

  lemma DisabledClientHasNoTokens(a: Db, m: Db, id: string)
    requires RefSafe(a) && m.accessTokens == a.accessTokens && m.refreshTokens == a.refreshTokens && id in a.clients
    ensures !a.clients[id].enabled ==> NoTokensOfClient(m, id)
  {
    hide UserEnabled;
  }

  lemma RemoveClientKept(env: Env, db: Db, id: string, book: Book, used: set<string>, d: Draws)
    requires Good(env, db, book, used) && Fresh(d, used)
    ensures Kept(env, db, book, used, RemoveClient(db, id).db, None, d)
  {
    hide Indexed, RefSafe, BookOk, TokensOk, PeopleOk, TokensShrink, Kept, NoTokensOfClient, RevokeTokens, Fresh,
      ValidClient;
    NothingKept(env, db, book, used, None, d);
    if id in db.clients {
      StoredClientFits(env, db, id, used);
      var gone := db.(clients := db.clients - {id});
      RevocationIsComplete(gone, id);
      RevocationShrinks(gone, ClientFilter(id));
      RowThenDeletions(db, gone, RevokeTokens(gone, ClientFilter(id)));
      ClientRemovalKept(env, db, RevokeTokens(gone, ClientFilter(id)), id, book, used, None, d);
    }
  }

  lemma RenewSecretKept(env: Env, db: Db, id: string, secretHash: string, now: Time, book: Book, used: set<string>,
      d: Draws)
    requires Good(env, db, book, used) && Fresh(d, used)
    ensures Kept(env, db, book, used, RenewSecret(db, id, secretHash, now).db, None, d)
  {
    hide Indexed, RefSafe, BookOk, TokensOk, PeopleOk, Kept, RevokeTokens, Fresh, ClientIdTaken;
    NothingKept(env, db, book, used, None, d);
    if id in db.clients {
      StoredClientFits(env, db, id, used);
      ClientIdIsItsOwn(db, id);
      SavedClientKept(env, db, db.clients[id].(secretHash := secretHash, updatedAt := now), book, used, d);
    }
  }

  lemma ClientIdIsItsOwn(db: Db, id: string)
    requires Indexed(db) && id in db.clients
    ensures !ClientIdTaken(db.clients, db.clients[id].clientId, id)
  {
    hide UserTable, AccessTable, RefreshTable, CodeTable, UserTokenTable;
  }

  // ---------- Deleting tokens ----------

  lemma AdminDeletions(db: Db, id: string, f: TokenFilter, now: Time)
    ensures OnlyDeleted(db, DeleteAccessToken(db, id).db)
    ensures OnlyDeleted(db, RemoveRefreshToken(db, id).db)
    ensures OnlyDeleted(db, RemoveAccessTokens(db, f).db)
    ensures OnlyDeleted(db, RemoveRefreshTokens(db, f).db)
    ensures OnlyDeleted(db, RevokeAllOfUser(db, id).db)
    ensures OnlyDeleted(db, DeleteExpired(db, now))
  {
    hide OnlyDeleted, DeleteAccessToken, DeleteRefreshToken, DeleteAccessTokens, DeleteRefreshTokens, RevokeTokens,
      DeleteExpired;
    NothingDeleted(db);
    AccessDeletion(db, db, id);
    RefreshDeletion(db, db, id);
    if id in db.refreshTokens {
      AccessDeletion(db, DeleteRefreshToken(db, id).db, db.refreshTokens[id].accessTokenId);
    }
    FilteredDeletions(db, f);
    FilteredDeletions(db, UserFilter(id));
    ExpiryDeletion(db, now);
  }

  lemma FilteredDeletions(db: Db, f: TokenFilter)
    ensures OnlyDeleted(db, DeleteAccessTokens(db, f)) && OnlyDeleted(db, DeleteRefreshTokens(db, f))
            && OnlyDeleted(db, RevokeTokens(db, f))
  {
  }

  lemma ExpiryDeletion(db: Db, now: Time)
    ensures OnlyDeleted(db, DeleteExpired(db, now))
  {
  }
}
