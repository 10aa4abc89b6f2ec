/** The management API (pkg/api) as steps on the store. Decoding requests and checking the
    administrator's bearer token happen before these methods. */
module Admin {
  import opened Identity
  import opened Database
  import opened AccountRules
  import opened AdminRules
  import opened MemoryStore
  import Accounts

  class Api {
    const env: Env
    const store: Store
    const accounts: Accounts.Service

    constructor (accounts: Accounts.Service)
      ensures this.accounts == accounts && Wired()
    {
      this.env := accounts.env;
      this.store := accounts.store;
      this.accounts := accounts;
    }

    ghost predicate Wired() {
      accounts.store == store && accounts.env == env
    }

    method RevokeTokensOf(filter: TokenFilter)
      requires store.Valid()
      modifies store`accessTokens, store`refreshTokens
      ensures store.Valid() && store.Contents() == RevokeTokens(old(store.Contents()), filter)
    {
      var n := store.DeleteRefreshTokens(filter);
      n := store.DeleteAccessTokens(filter);
    }

    /** apply: copies the request field by field and checks the result. */
    method Apply(req: ClientRequest, client: Client) returns (c: Client, ok: bool)
      ensures c == Requested(req, client) && ok == Acceptable(env, c)
    {
      c := client.(clientId := req.clientId, kind := req.kind);
      c := c.(redirectUris := req.redirectUris, allowedScopes := req.allowedScopes, defaultScopes := req.defaultScopes);
      c := c.(grantTypes := req.grantTypes, requireConsent := req.requireConsent, requirePkce := req.requirePkce);
      if req.enabled.Some? {
        c := c.(enabled := req.enabled.value);
      }
      c := c.(accessTokenLifetime := req.accessTokenLifetime, codeLifetime := req.codeLifetime);
      c := c.(refreshTokenLifetime := req.refreshTokenLifetime);
      c := c.(refreshUsage := req.refreshUsage, refreshExpiration := req.refreshExpiration);
      c := EnsureDefaults(c);
      if c.codeLifetime > 10 * MINUTE {
        return c, false;
      }
      return c, ValidClient(env, c);
    }

    method CreateClient(req: ClientRequest, id: string, secretHash: string, now: Time) returns (r: Result<Client,
        AdminError>)
      requires store.Valid() && id != ""
      modifies store`clients
      ensures store.Valid()
              && Answer(store.Contents(), r) == AddClient(env, old(store.Contents()), req, id, secretHash, now)
    {
      var client, ok := Apply(req, BlankClient(id, now));
      if !ok {
        return Err(ValidationFailed);
      }
      if !client.IsPublic() {
        client := client.(secretHash := secretHash);
      }
      var error := store.CreateClient(client);
      if error.Some? {
        return Err(Conflicting);
      }
      return Ok(client);
    }

    method UpdateClient(id: string, req: ClientRequest, now: Time) returns (r: Result<Client, AdminError>)
      requires store.Valid()
      modifies store`clients, store`accessTokens, store`refreshTokens
      ensures store.Valid() && Answer(store.Contents(), r) == ChangeClient(env, old(store.Contents()), id, req, now)
    {
      var found := store.GetClientById(id);
      if found.Err? {
        return Err(Missing);
      }
      var wasEnabled := found.value.enabled;
      var client, ok := Apply(req, found.value);
      if !ok {
        return Err(ValidationFailed);
      }
      if client.IsPublic() {
        client := client.(secretHash := "");
      }
      client := client.(updatedAt := now);
      var error := store.UpdateClient(client);
      if error.Some? {
        return Err(Conflicting);
      }
      if wasEnabled && !client.enabled {
        RevokeTokensOf(ClientFilter(client.id));
      }
      return Ok(client);
    }

    method DeleteClient(id: string) returns (r: Result<(), AdminError>)
      requires store.Valid()
      modifies store`clients, store`accessTokens, store`refreshTokens
      ensures store.Valid() && Answer(store.Contents(), r) == RemoveClient(old(store.Contents()), id)
    {
      var error := store.DeleteClient(id);
      if error.Some? {
        return Err(Missing);
      }
      RevokeTokensOf(ClientFilter(id));
      return Ok(());
    }

    method RegenerateClientSecret(id: string, secretHash: string, now: Time) returns (r: Result<(), AdminError>)
      requires store.Valid()
      modifies store`clients
      ensures store.Valid() && Answer(store.Contents(), r) == RenewSecret(old(store.Contents()), id, secretHash, now)
    {
      var found := store.GetClientById(id);
      if found.Err? {
        return Err(Missing);
      }
      if found.value.IsPublic() {
        return Err(BadRequest);
      }
      var error := store.UpdateClient(found.value.(secretHash := secretHash, updatedAt := now));
      return Ok(());
    }

    method SaveUserRecord(user: User, stamp: string, now: Time) returns (r: Result<User, AdminError>)
      requires Wired() && store.Valid()
      modifies store`users, store`accessTokens, store`refreshTokens
      ensures store.Valid() && Answer(store.Contents(), r) == Save(env, old(store.Contents()), user, stamp, now)
    {
      var saved := accounts.UpdateUser(user, stamp, now);
      if saved.Err? {
        return Err(AdminErrorOf(saved.error));
      }
      return Ok(saved.value);
    }

    method UpdateUser(id: string, req: UserRequest, stamp: string, now: Time) returns (r: Result<User, AdminError>)
      requires Wired() && store.Valid()
      modifies store`users, store`accessTokens, store`refreshTokens
      ensures store.Valid()
              && Answer(store.Contents(), r) == ChangeUser(env, old(store.Contents()), id, req, stamp, now)
    {
      var found := store.GetUserById(id);
      if found.Err? {
        return Err(Missing);
      }
      var user := found.value.(username := req.username, email := req.email);
      user := user.(emailVerified := req.emailVerified, enabled := req.enabled);
      r := SaveUserRecord(user, stamp, now);
    }

    method Unlock(id: string, stamp: string, now: Time) returns (r: Result<User, AdminError>)
      requires Wired() && store.Valid()
      modifies store`users, store`accessTokens, store`refreshTokens
      ensures store.Valid() && Answer(store.Contents(), r) == UnlockUser(env, old(store.Contents()), id, stamp, now)
    {
      var found := store.GetUserById(id);
      if found.Err? {
        return Err(Missing);
      }
      var user := found.value.(lockoutEnd := None);
      user := user.(failedLoginCount := 0);
      r := SaveUserRecord(user, stamp, now);
    }

    /** Answers with the numbers of deleted access and refresh tokens. */
    method RevokeUser(id: string) returns (r: Result<(nat, nat), AdminError>)
      requires store.Valid()
      modifies store`accessTokens, store`refreshTokens
      ensures store.Valid() && store.Contents() == RevokeAllOfUser(old(store.Contents()), id).db
      ensures r == if id !in old(store.users) then Err(Missing)
                   else Ok((|old(store.accessTokens)| - |store.accessTokens|,
                            |old(store.refreshTokens)| - |store.refreshTokens|))
    {
      assert UserTable(store.users);
      hide Indexed, DeleteAccessTokens, DeleteRefreshTokens;
      var found := store.GetUserById(id);
      if found.Err? {
        return Err(Missing);
      }
      assert found.value.id == id;
      hide UserTable;
      var refreshTokens := store.DeleteRefreshTokens(UserFilter(found.value.id));
      var accessTokens := store.DeleteAccessTokens(UserFilter(found.value.id));
      return Ok((accessTokens, refreshTokens));
    }

    method DeleteRefreshToken(id: string) returns (r: Result<(), AdminError>)
      requires store.Valid()
      modifies store`accessTokens, store`refreshTokens
      ensures store.Valid() && Answer(store.Contents(), r) == RemoveRefreshToken(old(store.Contents()), id)
    {
      var found := store.GetRefreshTokenById(id);
      if found.Err? {
        return Err(Missing);
      }
      var error := store.DeleteRefreshToken(found.value.id);
      if found.value.accessTokenId != "" {
        error := store.DeleteAccessToken(found.value.accessTokenId);
      }
      return Ok(());
    }

    method DeleteTokens(access: bool, filter: TokenFilter) returns (r: Result<nat, AdminError>)
      requires store.Valid()
      modifies store`accessTokens, store`refreshTokens
      ensures store.Valid()
      ensures store.Contents() == if access then RemoveAccessTokens(old(store.Contents()), filter).db
                                  else RemoveRefreshTokens(old(store.Contents()), filter).db
      ensures filter.IsEmpty() ==> r == Err(BadRequest)
      ensures !filter.IsEmpty() ==>
                r == Ok(|old(store.accessTokens)| - |store.accessTokens|
                        + |old(store.refreshTokens)| - |store.refreshTokens|)
    {
      hide Indexed;
      if filter.IsEmpty() {
        return Err(BadRequest);
      }
      var n;
      if access {
        n := store.DeleteAccessTokens(filter);
      } else {
        n := store.DeleteRefreshTokens(filter);
      }
      return Ok(n);
    }

    /** The periodic cleanup, store.DeleteExpired (pkg/store/store.go). */
    method Cleanup(now: Time)
      requires store.Valid()
      modifies store`accessTokens, store`refreshTokens, store`codes, store`userTokens
      ensures store.Valid() && store.Contents() == DeleteExpired(old(store.Contents()), now)
    {
      var n := store.DeleteAccessTokens(ExpiredFilter(now));
      n := store.DeleteRefreshTokens(ExpiredFilter(now));
      n := store.DeleteExpiredAuthorizationCodes(now);
      n := store.DeleteExpiredUserTokens(now);
    }
  }
}
