/** What the management API answers (pkg/api): which registrations are accepted and what they store, and
    exactly which rows an administrator changes or removes. */
module AdminAnswers {
  import opened Identity
  import opened Database
  import opened AccountRules
  import opened AdminRules
  import opened Scope
  import opened Conditions
  import opened Verdicts
  import opened AccountAnswers

  // ---------- Client registrations ----------

  /** What a registration has to look like. */
  predicate Registrable(env: Env, c: Client) {
    && c.clientId != "" && c.kind in {Confidential, Public}
    && c.refreshUsage in {ReUse, OneTime} && c.refreshExpiration in {Sliding, Absolute}
    && (forall i :: 0 <= i < |c.redirectUris| ==> env.absoluteUri(c.redirectUris[i]))
    && ScopeTokens(c.allowedScopes) && ScopeTokens(c.defaultScopes) && Includes(c.allowedScopes, c.defaultScopes)
    && OtherGrantType("") !in c.grantTypes
    && (c.kind == Public ==> ClientCredentialsGrantType !in c.grantTypes)
    && c.codeLifetime <= 600 * SECOND
  }

  lemma RegistrationMeans(env: Env, c: Client)
    ensures Acceptable(env, c) <==> Registrable(env, c)
  {
    ScopeSyntaxMeans(c.allowedScopes);
    ScopeSyntaxMeans(c.defaultScopes);
    hide IsValidScopeToken, ScopeToken;
  }

  /** The client as it was asked for, with a default for everything that was left open. */
  predicate AsRequested(c: Client, req: ClientRequest, before: Client) {
    && c.id == before.id && c.createdAt == before.createdAt
    && c.clientId == req.clientId && c.redirectUris == req.redirectUris && c.allowedScopes == req.allowedScopes
    && c.defaultScopes == req.defaultScopes && c.grantTypes == req.grantTypes
    && c.requireConsent == req.requireConsent && c.requirePkce == req.requirePkce
    && c.enabled == (if req.enabled == None then before.enabled else req.enabled.value)
    && c.kind == (if req.kind == OtherType("") then Confidential else req.kind)
    && c.refreshUsage == (if req.refreshUsage == OtherUsage("") then ReUse else req.refreshUsage)
    && c.refreshExpiration == (if req.refreshExpiration == OtherExpiration("") then Sliding else req.refreshExpiration)
    && c.accessTokenLifetime == Lifetime(req.accessTokenLifetime, ONE_HOUR)
    && c.codeLifetime == Lifetime(req.codeLifetime, FIVE_MINUTES)
    && c.refreshTokenLifetime == Lifetime(req.refreshTokenLifetime, THIRTY_DAYS)
  }

  lemma RequestIsApplied(req: ClientRequest, before: Client)
    ensures AsRequested(Requested(req, before), req, before)
    ensures var c := Requested(req, before);
            && c.id == before.id && c.clientId == req.clientId && c.secretHash == before.secretHash
            && c.enabled == (if req.enabled == None then before.enabled else req.enabled.value)
            && c.updatedAt == before.updatedAt
  {
  }

  /** No client other than k has this client_id. */
  ghost predicate ClientIdFree(clients: map<string, Client>, clientId: string, k: string) {
    forall j :: j in clients && j != k ==> clients[j].clientId != clientId
  }

  lemma ClientsOf(db: Db)
    requires Indexed(db)
    ensures ClientTable(db.clients)
  {
    hide ClientTable, UserTable, AccessTable, RefreshTable, CodeTable, UserTokenTable;
  }

  lemma FreeClientId(clients: map<string, Client>, clientId: string, k: string)
    requires ClientTable(clients)
    ensures ClientIdTaken(clients, clientId, k) <==> !ClientIdFree(clients, clientId, k)
  {
  }

  /** Only the row of k changed; nothing else did, except for the tables given. */
  ghost predicate ClientChanged(a: Db, b: Db, k: string) {
    && b == a.(clients := b.clients, accessTokens := b.accessTokens, refreshTokens := b.refreshTokens)
    && k in b.clients && b.clients == a.clients[k := b.clients[k]]
  }

  ghost predicate SameTokens(a: Db, b: Db) {
    b.accessTokens == a.accessTokens && b.refreshTokens == a.refreshTokens
  }

  /** Exactly the tokens of the client are gone. */
  ghost predicate ClientTokensGone(a: Db, b: Db, id: string) {
    && b.accessTokens == (map k | k in a.accessTokens && a.accessTokens[k].clientId != id :: a.accessTokens[k])
    && b.refreshTokens == (map k | k in a.refreshTokens && a.refreshTokens[k].clientId != id :: a.refreshTokens[k])
  }

  lemma RevokingByClient(a: Db, m: Db, id: string)
    requires id != "" && SameTokens(a, m)
    ensures var b := RevokeTokens(m, ClientFilter(id));
            ClientTokensGone(a, b, id) && b == m.(accessTokens := b.accessTokens, refreshTokens := b.refreshTokens)
  {
  }

  /** A registration is accepted exactly if it is registrable under a free client_id. Then exactly this
      client is stored, enabled unless asked otherwise; only confidential clients have a secret. */
  lemma AddClientAnswers(env: Env, db: Db, req: ClientRequest, id: string, secretHash: string, now: Time)
    requires Indexed(db) && id != "" && id !in db.clients
    ensures var r, c := AddClient(env, db, req, id, secretHash, now), Requested(req, BlankClient(id, now));
            && AsRequested(c, req, BlankClient(id, now)) && c.enabled == (req.enabled != Some(false))
            && c.updatedAt == now
            && if !Registrable(env, c) then r == Answer(db, Err(ValidationFailed))
               else if !ClientIdFree(db.clients, req.clientId, "") then r == Answer(db, Err(Conflicting))
               else
                 && ClientChanged(db, r.db, id) && SameTokens(db, r.db) && r.result == Ok(r.db.clients[id])
                 && r.db.clients[id] == c.(secretHash := if c.kind == Public then "" else secretHash)
  {
    var c := Requested(req, BlankClient(id, now));
    RequestIsApplied(req, BlankClient(id, now));
    hide Indexed, ClientTable, Acceptable, Registrable, Requested, ClientIdTaken, ClientIdFree, AsRequested, AddClient;
    AdditionSteps(env, db, req, id, secretHash, now);
    RegistrationMeans(env, c);
    ClientsOf(db);
    FreeClientId(db.clients, req.clientId, "");
  }

  lemma AdditionSteps(env: Env, db: Db, req: ClientRequest, id: string, secretHash: string, now: Time)
    ensures var r, c := AddClient(env, db, req, id, secretHash, now), Requested(req, BlankClient(id, now));
            var saved := c.(secretHash := if c.kind == Public then c.secretHash else secretHash);
            if !Acceptable(env, c) then r == Answer(db, Err(ValidationFailed))
            else if c.id in db.clients || ClientIdTaken(db.clients, c.clientId, "") then
              r == Answer(db, Err(Conflicting))
            else r == Answer(db.(clients := db.clients[c.id := saved]), Ok(saved))
  {
    hide Acceptable, Requested, ClientIdTaken;
  }

  /** The same for a change, where the client keeps its secret as long as it is confidential, and loses
      its tokens when it gets disabled. */
  lemma ChangeClientAnswers(env: Env, db: Db, id: string, req: ClientRequest, now: Time)
    requires Indexed(db)
    ensures var r := ChangeClient(env, db, id, req, now);
            if id !in db.clients then r == Answer(db, Err(Missing))
            else
              var before, c := db.clients[id], Requested(req, db.clients[id]);
              && AsRequested(c, req, before) && c.secretHash == before.secretHash
              && if !Registrable(env, c) then r == Answer(db, Err(ValidationFailed))
                 else if !ClientIdFree(db.clients, req.clientId, id) then r == Answer(db, Err(Conflicting))
                 else
                   && ClientChanged(db, r.db, id) && r.result == Ok(r.db.clients[id])
                   && r.db.clients[id] == Changed(req, before, now)
                   && if before.enabled && req.enabled == Some(false) then ClientTokensGone(db, r.db, id)
                      else SameTokens(db, r.db)
  {
    hide *;
    if id in db.clients {
      RequestIsApplied(req, db.clients[id]);
      ClientsOf(db);
      ClientKeys(db, id);
      RegistrationMeans(env, Requested(req, db.clients[id]));
      ChangeSteps(env, db, id, req, now);
      FreeClientId(db.clients, req.clientId, id);
      SavingAClient(db, Changed(req, db.clients[id], now), id);
    } else {
      NoClientToChange(env, db, id, req, now);
    }
  }

  lemma NoClientToChange(env: Env, db: Db, id: string, req: ClientRequest, now: Time)
    requires id !in db.clients
    ensures ChangeClient(env, db, id, req, now) == Answer(db, Err(Missing))
  {
  }

  /** The client as it is stored after a change. */
  function Changed(req: ClientRequest, before: Client, now: Time): Client {
    var c := Requested(req, before);
    c.(updatedAt := now, secretHash := if c.kind == Public then "" else before.secretHash)
  }

  lemma ChangeSteps(env: Env, db: Db, id: string, req: ClientRequest, now: Time)
    requires id in db.clients && db.clients[id].id == id
    ensures var r, before, saved := ChangeClient(env, db, id, req, now), db.clients[id],
              Changed(req, db.clients[id], now);
            var m := db.(clients := db.clients[id := saved]);
            if !Acceptable(env, Requested(req, before)) then r == Answer(db, Err(ValidationFailed))
            else if ClientIdTaken(db.clients, req.clientId, id) then r == Answer(db, Err(Conflicting))
            else if before.enabled && req.enabled == Some(false) then
              r == Answer(RevokeTokens(m, ClientFilter(id)), Ok(saved))
            else r == Answer(m, Ok(saved))
  {
    RequestIsApplied(req, db.clients[id]);
    hide Acceptable, Requested, ClientIdTaken, RevokeTokens, AsRequested;
  }

  lemma SavingAClient(db: Db, c: Client, id: string)
    requires id != ""
    ensures var m := db.(clients := db.clients[id := c]);
            var b := RevokeTokens(m, ClientFilter(id));
            && ClientChanged(db, m, id) && SameTokens(db, m) && m.clients[id] == c
            && ClientChanged(db, b, id) && ClientTokensGone(db, b, id) && b.clients[id] == c
  {
    hide RevokeTokens, ClientTokensGone;
    RevokingByClient(db, db.(clients := db.clients[id := c]), id);
  }

  lemma ClientKeys(db: Db, k: string)
    requires Indexed(db) && k in db.clients
    ensures db.clients[k].id == k && k != ""
  {
    hide Indexed;
    ClientsOf(db);
  }

  lemma RemoveClientAnswers(db: Db, id: string)
    requires Indexed(db)
    ensures var r := RemoveClient(db, id);
            if id !in db.clients then r == Answer(db, Err(Missing))
            else
              && r.result == Ok(()) && ClientTokensGone(db, r.db, id)
              && r.db == db.(clients := db.clients - {id}, accessTokens := r.db.accessTokens,
                             refreshTokens := r.db.refreshTokens)
  {
    hide Indexed, RevokeTokens, ClientTokensGone;
    if id in db.clients {
      ClientKeys(db, id);
      RevokingByClient(db, db.(clients := db.clients - {id}), id);
    }
  }

  /** A new secret replaces the one of a confidential client; public clients have none. */
  lemma RenewSecretAnswers(db: Db, id: string, secretHash: string, now: Time)
    ensures var r := RenewSecret(db, id, secretHash, now);
            if id !in db.clients then r == Answer(db, Err(Missing))
            else if db.clients[id].kind == Public then r == Answer(db, Err(BadRequest))
            else
              && ClientChanged(db, r.db, id) && SameTokens(db, r.db) && r.result == Ok(())
              && r.db.clients[id] == db.clients[id].(secretHash := secretHash, updatedAt := now)
  {
    hide Indexed;
    if id in db.clients {
      assert db.clients[id].IsPublic() <==> db.clients[id].kind == Public;
    }
  }

  // ---------- Users ----------

  /** How errors of the account service are told to administrators. */
  lemma SaveAnswers(env: Env, db: Db, changed: User, stamp: string, now: Time)
    requires Indexed(db) && changed.id in db.users
    ensures var r := Save(env, db, changed, stamp, now);
            if !env.validProfile(env.trim(changed.username), env.trim(changed.email)) then
              r == Answer(db, Err(ValidationFailed))
            else if !NamesFree(env, db.users, changed.username, changed.email, changed.id) then
              r == Answer(db, Err(Conflicting))
            else UserSaved(env, db, r.db, changed, stamp, now) && r.result == Ok(r.db.users[changed.id])
  {
    hide Indexed, NamesFree, SavedRow, TokensGone, SaveUser;
    SaveUserAnswers(env, db, changed, stamp, now);
  }

  /** An administrator changes names, address and status of a user, or ends a lockout; the rest stays. */
  lemma ChangeUserAnswers(env: Env, db: Db, id: string, req: UserRequest, stamp: string, now: Time)
    requires Indexed(db)
    ensures var r := ChangeUser(env, db, id, req, stamp, now);
            if id !in db.users then r == Answer(db, Err(Missing))
            else if !env.validProfile(env.trim(req.username), env.trim(req.email)) then
              r == Answer(db, Err(ValidationFailed))
            else if !NamesFree(env, db.users, req.username, req.email, id) then r == Answer(db, Err(Conflicting))
            else
              var changed := db.users[id].(username := req.username, email := req.email,
                                           emailVerified := req.emailVerified, enabled := req.enabled);
              changed.id == id && UserSaved(env, db, r.db, changed, stamp, now) && r.result == Ok(r.db.users[id])
    ensures var r := UnlockUser(env, db, id, stamp, now);
            if id !in db.users then r == Answer(db, Err(Missing))
            else
              var u := db.users[id];
              if !env.validProfile(env.trim(u.username), env.trim(u.email)) then r == Answer(db, Err(ValidationFailed))
              else if !NamesFree(env, db.users, u.username, u.email, id) then r == Answer(db, Err(Conflicting))
              else
                var changed := u.(lockoutEnd := None, failedLoginCount := 0);
                changed.id == id && UserSaved(env, db, r.db, changed, stamp, now) && r.result == Ok(r.db.users[id])
  {
    hide Indexed, NamesFree, UserSaved, Save;
    if id in db.users {
      UserKeys(db, id);
      var u := db.users[id];
      SaveAnswers(env, db, u.(username := req.username, email := req.email, emailVerified := req.emailVerified,
                              enabled := req.enabled),
                  stamp, now);
      SaveAnswers(env, db, u.(lockoutEnd := None, failedLoginCount := 0), stamp, now);
    }
  }

  // ---------- Tokens ----------

  lemma RevokeUserAnswers(db: Db, id: string)
    requires Indexed(db)
    ensures var r := RevokeAllOfUser(db, id);
            if id !in db.users then r == Answer(db, Err(Missing))
            else
              && r.result == Ok(()) && TokensGone(db, r.db, id)
              && r.db == db.(accessTokens := r.db.accessTokens, refreshTokens := r.db.refreshTokens)
  {
    hide Indexed, RevokeTokens, TokensGone;
    if id in db.users {
      UserKeys(db, id);
      RevokingByUser(db, id);
    }
  }

  /** A refresh token goes together with the access token that it is linked to. */
  lemma RemoveRefreshTokenAnswers(db: Db, id: string)
    ensures var r := RemoveRefreshToken(db, id);
            if id !in db.refreshTokens then r == Answer(db, Err(Missing))
            else
              var linked := db.refreshTokens[id].accessTokenId;
              && r.result == Ok(())
              && r.db == db.(refreshTokens := db.refreshTokens - {id},
                             accessTokens := if linked == "" then db.accessTokens else db.accessTokens - {linked})
  {
    if id in db.refreshTokens {
      var linked := db.refreshTokens[id].accessTokenId;
      assert linked !in db.accessTokens ==> db.accessTokens - {linked} == db.accessTokens;
    }
  }

  /** A row matches a filter when it agrees with all that is set, and has expired by the given time. */
  predicate Selected(f: TokenFilter, clientId: string, userId: string, codeId: string, expiresAt: Time) {
    && (f.clientId == "" || clientId == f.clientId) && (f.userId == "" || userId == f.userId)
    && (f.codeId == "" || codeId == f.codeId)
    && (f.expiredBefore == None || expiresAt <= f.expiredBefore.value)
  }

  /** A filter that asks for nothing is refused; else exactly the selected tokens of one kind go. */
  lemma RemoveTokensAnswers(db: Db, f: TokenFilter)
    ensures f == TokenFilter("", "", "", None) ==>
              RemoveAccessTokens(db, f) == RemoveRefreshTokens(db, f) == Answer(db, Err(BadRequest))
    ensures f != TokenFilter("", "", "", None) ==>
              && RemoveAccessTokens(db, f)
                 == Answer(db.(accessTokens := map k | k in db.accessTokens && var t := db.accessTokens[k];
                                                 !Selected(f, t.clientId, t.userId, t.codeId, t.expiresAt)
                                                 :: db.accessTokens[k]), Ok(()))
              && RemoveRefreshTokens(db, f)
                 == Answer(db.(refreshTokens := map k | k in db.refreshTokens && var t := db.refreshTokens[k];
                                                  !Selected(f, t.clientId, t.userId, t.codeId, t.expiresAt)
                                                  :: db.refreshTokens[k]), Ok(()))
  {
  }
}
