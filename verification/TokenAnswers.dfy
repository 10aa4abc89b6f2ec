/** What the token endpoint answers (pkg/oauth/grants.go, token.go): for each grant, exactly when it
    succeeds, what it stores then, and what a refused request leaves behind. */
module TokenAnswers {
  import opened Identity
  import opened Database
  import opened AccountRules
  import opened OAuthRules
  import opened Scope
  import opened Conditions
  import opened Verdicts
  import opened Invariants
  import opened Minting
  import opened Evolution
  import opened Requests

  // ---------- What is stored ----------

  /** One access token more, and a refresh token if the client may have one. */
  ghost predicate TokensAdded(a: Db, b: Db, d: Draws, client: Client, userId: string, scopes: seq<string>,
        codeId: string, withRefresh: bool) {
    && b == a.(accessTokens := b.accessTokens, refreshTokens := b.refreshTokens)
    && d.accessId !in a.accessTokens && d.accessId in b.accessTokens
    && AccessRow(b.accessTokens[d.accessId], d, client, userId, scopes, codeId)
    && b.accessTokens == a.accessTokens[d.accessId := b.accessTokens[d.accessId]]
    && if withRefresh && RefreshTokenGrantType in client.grantTypes then
         && d.refreshId !in a.refreshTokens && d.refreshId in b.refreshTokens
         && RefreshRow(b.refreshTokens[d.refreshId], d, client, userId, scopes, codeId)
         && b.refreshTokens == a.refreshTokens[d.refreshId := b.refreshTokens[d.refreshId]]
       else b.refreshTokens == a.refreshTokens
  }

  /** The value of the new refresh token is told when there is one. */
  function RefreshValue(client: Client, d: Draws, withRefresh: bool): string {
    if withRefresh && RefreshTokenGrantType in client.grantTypes then d.refreshValue else ""
  }

  lemma NewRows(client: Client, userId: string, scopes: seq<string>, codeId: string, d: Draws)
    ensures var t := NewAccess(client, userId, scopes, codeId, d.accessId, d.accessValue, d.accessAt);
            && AccessRow(t, d, client, userId, scopes, codeId)
            && RefreshRow(NewRefresh(client, t, d.refreshId, d.refreshValue, d.refreshAt), d, client, userId, scopes,
                          codeId)
            && t.expiresAt - t.createdAt == Lifetime(client.accessTokenLifetime, ONE_HOUR) && t.scopes == scopes
            && t.id == d.accessId
    ensures var t := NewAccess(client, userId, scopes, codeId, d.accessId, d.accessValue, d.accessAt);
            NewRefresh(client, t, d.refreshId, d.refreshValue, d.refreshAt).id == d.refreshId
  {
  }

  lemma IssuedRows(db: Db, client: Client, userId: string, scopes: seq<string>, withRefresh: bool, codeId: string,
      d: Draws)
    requires d.accessId !in db.accessTokens && d.refreshId !in db.refreshTokens
    ensures TokensAdded(db, Issued(db, client, userId, scopes, withRefresh, codeId, d), d, client, userId, scopes,
                        codeId, withRefresh)
  {
    hide AccessRow, RefreshRow, NewAccess, NewRefresh;
    NewRows(client, userId, scopes, codeId, d);
  }

  lemma IssuedResponse(db: Db, client: Client, userId: string, scopes: seq<string>, withRefresh: bool, codeId: string,
      d: Draws)
    ensures var r := IssueTokens(db, client, userId, scopes, withRefresh, codeId, d);
            r.result.Ok? ==>
              Tells(r.result.value, d.accessValue, RefreshValue(client, d, withRefresh), FormatScope(scopes), client)
  {
    hide AccessRow, RefreshRow, NewAccess, NewRefresh, FormatScope, CreateAccessToken, CreateRefreshToken;
    NewRows(client, userId, scopes, codeId, d);
  }

  /** From a sound state with fresh draws, issuing always succeeds. */
  lemma IssueAnswers(env: Env, db: Db, book: Book, used: set<string>, client: Client, userId: string,
      scopes: seq<string>, withRefresh: bool, codeId: string, d: Draws)
    requires Good(env, db, book, used) && Fresh(d, used)
    ensures var r := IssueTokens(db, client, userId, scopes, withRefresh, codeId, d);
            && r.result.Ok? && TokensAdded(db, r.db, d, client, userId, scopes, codeId, withRefresh)
            && Tells(r.result.value, d.accessValue, RefreshValue(client, d, withRefresh), FormatScope(scopes), client)
  {
    hide Indexed, RefSafe, TokensOk, PeopleOk, BookOk, Fresh, IssueTokens, Issued, TokensAdded, Tells;
    IssueNeverCollides(db, book, used, client, userId, scopes, withRefresh, codeId, d);
    FreshPairIsFree(db, book, used, d);
    IssuedRows(db, client, userId, scopes, withRefresh, codeId, d);
    IssuedResponse(db, client, userId, scopes, withRefresh, codeId, d);
  }

  // ---------- The authorization code grant ----------

  /** All tokens of the code are gone, and nothing else. */
  ghost predicate CodeRevoked(a: Db, b: Db, codeId: string) {
    && b == a.(accessTokens := b.accessTokens, refreshTokens := b.refreshTokens)
    && b.accessTokens == (map k | k in a.accessTokens && a.accessTokens[k].codeId != codeId :: a.accessTokens[k])
    && b.refreshTokens == (map k | k in a.refreshTokens && a.refreshTokens[k].codeId != codeId :: a.refreshTokens[k])
  }

  function CodeUsed(db: Db, id: string, now: Time): Db
    requires id in db.codes
  {
    db.(codes := db.codes[id := db.codes[id].(consumedAt := Some(now))])
  }

  lemma RevokingByCode(db: Db, id: string)
    requires id != ""
    ensures CodeRevoked(db, RevokeTokens(db, CodeFilter(id)), id)
  {
  }

  lemma CodeLookup(db: Db, id: string, value: string)
    requires Indexed(db) && id in db.codes && db.codes[id].codeHash == HashToken(value)
    ensures CodeByHash(db, HashToken(value)) == Some(db.codes[id]) && db.codes[id].id == id
  {
    hide ClientTable, UserTable, AccessTable, RefreshTable, UserTokenTable;
  }

  lemma ExchangeByVerdict(env: Env, db: Db, book: Book, used: set<string>, client: Client, id: string, value: string,
      redirectUri: string, verifier: string, now: Time, d: Draws)
    requires Good(env, db, book, used) && Fresh(d, used)
    requires id in db.codes && db.codes[id].codeHash == HashToken(value)
    ensures var r, code := ExchangeCode(env, db, client, value, redirectUri, verifier, now, d), db.codes[id];
            match JudgeCode(env, client, code, redirectUri, verifier, now)
            case Rejected => r == Reply(db, Err(InvalidGrant))
            case Replayed => r == Reply(RevokeTokens(db, CodeFilter(id)), Err(InvalidGrant))
            case Exchangeable =>
              code.consumedAt.None?
              && r == if !OwnerMayAct(env, db.users, code.userId) then Reply(CodeUsed(db, id, now), Err(InvalidGrant))
                      else IssueTokens(CodeUsed(db, id, now), client, code.userId, code.scopes, true, id, d)
  {
    var code := db.codes[id];
    hide Good, Indexed, Fresh, CodeByHash, ConsumeCode, CodeUsed, JudgeCode, IssueTokens, RevokeTokens, Entitled,
      OwnerActive, OwnerMayAct;
    NamesAreNotEmpty(env, db, book, used, id);
    IndexedIfGood(env, db, book, used);
    CodeLookup(db, id, value);
    CodeVerdictMeans(env, client, code, redirectUri, verifier, now);
    UsingACode(db, id, now);
    ActiveMeans(env, CodeUsed(db, id, now), code.userId);
  }

  /** The exchange of a stored code succeeds exactly when the code is unused, the request is entitled to
      it and its owner may act; then the code is used and its tokens are stored. A used code presented by
      its client takes its tokens with it. If only the owner may not act, the code is used up. */
  lemma ExchangeAnswers(env: Env, db: Db, book: Book, used: set<string>, client: Client, id: string, value: string,
      redirectUri: string, verifier: string, now: Time, d: Draws)
    requires Good(env, db, book, used) && Fresh(d, used)
    requires id in db.codes && db.codes[id].codeHash == HashToken(value)
    ensures var r, code := ExchangeCode(env, db, client, value, redirectUri, verifier, now, d), db.codes[id];
            if client.id == code.clientId && code.consumedAt.Some? then
              r.result == Err(InvalidGrant) && CodeRevoked(db, r.db, id)
            else if !Entitled(env, code, client, redirectUri, verifier, now) then
              r == Reply(db, Err(InvalidGrant))
            else if !OwnerMayAct(env, db.users, code.userId) then
              r == Reply(CodeUsed(db, id, now), Err(InvalidGrant))
            else
              && r.result.Ok?
              && TokensAdded(CodeUsed(db, id, now), r.db, d, client, code.userId, code.scopes, id, true)
              && Tells(r.result.value, d.accessValue, RefreshValue(client, d, true), FormatScope(code.scopes), client)
  {
    var code := db.codes[id];
    hide *;
    NamesAreNotEmpty(env, db, book, used, id);
    ExchangeByVerdict(env, db, book, used, client, id, value, redirectUri, verifier, now, d);
    CodeVerdictMeans(env, client, code, redirectUri, verifier, now);
    EntitledIsTheClient(env, code, client, redirectUri, verifier, now);
    RevokingByCode(db, id);
    if code.consumedAt.None? {
      GoodWithCodeUsed(env, db, book, used, id, now);
      IssueAnswers(env, CodeUsed(db, id, now), book, used, client, code.userId, code.scopes, true, id, d);
    }
  }

  lemma UsingACode(db: Db, id: string, now: Time)
    requires id in db.codes
    ensures CodeUsed(db, id, now).users == db.users
    ensures db.codes[id].consumedAt.None? ==> ConsumeCode(db, id, now).db == CodeUsed(db, id, now)
  {
  }

  lemma GoodWithCodeUsed(env: Env, db: Db, book: Book, used: set<string>, id: string, now: Time)
    requires Good(env, db, book, used) && id in db.codes && db.codes[id].consumedAt.None?
    ensures Good(env, CodeUsed(db, id, now), book, used)
  {
    hide Good, CodeReady, CodeUsed, ConsumeCode;
    ConsumeKeepsGood(env, db, id, now, book, used);
    UsingACode(db, id, now);
  }

  lemma NamesAreNotEmpty(env: Env, db: Db, book: Book, used: set<string>, id: string)
    requires Good(env, db, book, used) && id in db.codes
    ensures id != "" && db.codes[id].id == id
  {
    assert AuthCodeOk(db.codes[id], book, used) && db.codes[id].id == id by {
      hide RefSafe, PeopleOk, BookOk, AccessOk, RefreshOk, UserTokenOk, ClientTable, UserTable;
    }
    hide Indexed, TokensOk, RefSafe, PeopleOk;
  }

  /** A value that is not that of a stored code is refused. */
  lemma UnknownCodesAreRefused(env: Env, db: Db, client: Client, value: string, redirectUri: string, verifier: string,
      now: Time, d: Draws)
    requires forall k :: k in db.codes ==> db.codes[k].codeHash != HashToken(value)
    ensures ExchangeCode(env, db, client, value, redirectUri, verifier, now, d) == Reply(db, Err(InvalidGrant))
  {
  }

  /** The exchange succeeds exactly for the value of an unused code that the request is entitled to and
      whose owner may act. */
  lemma ExchangeSucceedsExactly(env: Env, db: Db, book: Book, used: set<string>, client: Client, value: string,
      redirectUri: string, verifier: string, now: Time, d: Draws)
    requires Good(env, db, book, used) && Fresh(d, used)
    ensures ExchangeCode(env, db, client, value, redirectUri, verifier, now, d).result.Ok? <==>
            exists k :: k in db.codes && db.codes[k].codeHash == HashToken(value) && db.codes[k].consumedAt.None?
                        && Entitled(env, db.codes[k], client, redirectUri, verifier, now)
                        && OwnerMayAct(env, db.users, db.codes[k].userId)
  {
    hide Good, Fresh, ExchangeCode, Entitled, OwnerMayAct, CodeRevoked, TokensAdded, Tells, CodeUsed;
    forall k | k in db.codes && db.codes[k].codeHash == HashToken(value)
      ensures ExchangeCode(env, db, client, value, redirectUri, verifier, now, d).result.Ok? <==>
              db.codes[k].consumedAt.None? && Entitled(env, db.codes[k], client, redirectUri, verifier, now)
              && OwnerMayAct(env, db.users, db.codes[k].userId)
    {
      ExchangeAnswers(env, db, book, used, client, k, value, redirectUri, verifier, now, d);
      EntitledIsTheClient(env, db.codes[k], client, redirectUri, verifier, now);
    }
    if forall k :: k in db.codes ==> db.codes[k].codeHash != HashToken(value) {
      UnknownCodesAreRefused(env, db, client, value, redirectUri, verifier, now, d);
    }
  }

  lemma EntitledIsTheClient(env: Env, code: AuthorizationCode, client: Client, redirectUri: string, verifier: string,
      now: Time)
    ensures Entitled(env, code, client, redirectUri, verifier, now) ==> client.id == code.clientId
  {
  }

  /** The form of the grant. */
  lemma CodeGrantReadsItsForm(env: Env, db: Db, client: Client, form: Form, now: Time, d: Draws, value: string,
      redirectUri: string, verifier: string)
    ensures Sent(form, "code", value) && value != "" && Sent(form, "redirect_uri", redirectUri)
            && Sent(form, "code_verifier", verifier) ==>
              AuthorizationCodeGrant(env, db, client, form, now, d)
              == ExchangeCode(env, db, client, value, redirectUri, verifier, now, d)
    ensures Sent(form, "code", "") || Repeated(form, "code") || Repeated(form, "redirect_uri")
            || Repeated(form, "code_verifier") ==>
              AuthorizationCodeGrant(env, db, client, form, now, d) == Reply(db, Err(InvalidRequest))
  {
    hide Param, RequiredParam, Sent, Repeated, ExchangeCode;
    ParamMeans(form, "code", value);
    ParamMeans(form, "redirect_uri", redirectUri);
    ParamMeans(form, "code_verifier", verifier);
  }

  // ---------- The refresh token grant ----------

  /** One access token is replaced, and the refresh token by its successor. */
  ghost predicate PairReplaced(a: Db, b: Db, d: Draws, client: Client, rt: RefreshToken, scopes: seq<string>,
        now: Time) {
    var next := if rt.usage == OneTime then d.refreshId else rt.id;
    && b == a.(accessTokens := b.accessTokens, refreshTokens := b.refreshTokens)
    && d.accessId !in a.accessTokens && d.accessId in b.accessTokens
    && AccessRow(b.accessTokens[d.accessId], d, client, rt.userId, scopes, rt.codeId)
    && b.accessTokens == (a.accessTokens - {rt.accessTokenId})[d.accessId := b.accessTokens[d.accessId]]
    && next in b.refreshTokens && SuccessorRow(b.refreshTokens[next], d, rt, now)
    && b.refreshTokens == (a.refreshTokens - {rt.id})[next := b.refreshTokens[next]]
  }

  lemma SuccessorIsRow(rt: RefreshToken, now: Time, d: Draws)
    ensures SuccessorRow(Successor(rt, now, d), d, rt, now)
    ensures Successor(rt, now, d).id == if rt.usage == OneTime then d.refreshId else rt.id
  {
  }

  lemma RefreshedRows(db: Db, client: Client, rt: RefreshToken, scopes: seq<string>, now: Time, d: Draws)
    requires d.accessId !in db.accessTokens
    ensures PairReplaced(db, Refreshed(db, client, rt, scopes, now, d), d, client, rt, scopes, now)
  {
    hide AccessRow, SuccessorRow, NewAccess, Successor, RefreshRow;
    NewRows(client, rt.userId, scopes, rt.codeId, d);
    SuccessorIsRow(rt, now, d);
  }

  lemma UseResponse(db: Db, client: Client, rt: RefreshToken, scopes: seq<string>, now: Time, d: Draws)
    ensures var r := UseRefreshToken(db, client, rt, scopes, now, d);
            r.result.Ok? ==>
              Tells(r.result.value, d.accessValue,
                    if rt.usage == OneTime then d.refreshValue else "", FormatScope(scopes),
                    client)
  {
    hide NewAccess, CreateAccessToken, CreateRefreshToken, UpdateRefreshToken, DeleteRefreshToken, WithoutAccess,
      Rotated, Reused, AccessRow, RefreshRow, FormatScope;
    NewRows(client, rt.userId, scopes, rt.codeId, d);
  }

  lemma UseAnswers(env: Env, db: Db, book: Book, used: set<string>, client: Client, rt: RefreshToken,
      scopes: seq<string>, now: Time, d: Draws)
    requires Good(env, db, book, used) && Fresh(d, used) && rt.id in db.refreshTokens && db.refreshTokens[rt.id] == rt
    ensures var r := UseRefreshToken(db, client, rt, scopes, now, d);
            && r.result.Ok? && PairReplaced(db, r.db, d, client, rt, scopes, now)
            && Tells(r.result.value, d.accessValue,
                     if rt.usage == OneTime then d.refreshValue else "", FormatScope(scopes),
                     client)
  {
    hide Indexed, RefSafe, TokensOk, PeopleOk, BookOk, Fresh, UseRefreshToken, Refreshed, PairReplaced, Tells,
      RefreshOk,
      Anchored;
    RoomInGood(env, db, book, used, rt, d);
    RefreshSteps(db, client, rt, scopes, now, d);
    RefreshedRows(db, client, rt, scopes, now, d);
    UseResponse(db, client, rt, scopes, now, d);
  }

  lemma RefreshTokenLookup(db: Db, id: string, value: string)
    requires Indexed(db) && id in db.refreshTokens && db.refreshTokens[id].tokenHash == HashToken(value)
    ensures RefreshByHash(db, HashToken(value)) == Some(db.refreshTokens[id]) && db.refreshTokens[id].id == id
  {
    hide ClientTable, UserTable, AccessTable, CodeTable, UserTokenTable;
  }

  /** A refresh with the value of a stored token succeeds exactly when the token is usable, the scope is
      within the grant and the owner, if there is one, may act. Then the pair is replaced, and the new
      access token has exactly the scopes asked for. A refused refresh changes nothing. */
  lemma RefreshAnswers(env: Env, db: Db, book: Book, used: set<string>, client: Client, id: string, value: string,
      scope: string, now: Time, d: Draws)
    requires Good(env, db, book, used) && Fresh(d, used)
    requires id in db.refreshTokens && db.refreshTokens[id].tokenHash == HashToken(value)
    ensures var r, rt := Refresh(env, db, client, value, scope, now, d), db.refreshTokens[id];
            if !Usable(client, rt, now) then r == Reply(db, Err(InvalidGrant))
            else if !WithinGrant(client, rt, scope) then r == Reply(db, Err(InvalidScope))
            else if rt.userId != "" && !OwnerMayAct(env, db.users, rt.userId) then r == Reply(db, Err(InvalidGrant))
            else
              && r.result.Ok? && PairReplaced(db, r.db, d, client, rt, Wanted(rt, scope), now)
              && Tells(r.result.value, d.accessValue, if rt.usage == OneTime then d.refreshValue else "",
                       FormatScope(Wanted(rt, scope)), client)
  {
    var rt := db.refreshTokens[id];
    hide Good, Indexed, Fresh, RefreshByHash, JudgeRefresh, UseRefreshToken, OwnerActive, OwnerMayAct, PairReplaced,
      Tells,
      Usable, WithinGrant, Wanted;
    IndexedIfGood(env, db, book, used);
    RefreshTokenLookup(db, id, value);
    RefreshVerdictMeans(client, rt, scope, now);
    ActiveMeans(env, db, rt.userId);
    UseAnswers(env, db, book, used, client, rt, Wanted(rt, scope), now, d);
  }

  lemma UnknownTokensAreRefused(env: Env, db: Db, client: Client, value: string, scope: string, now: Time, d: Draws)
    requires forall k :: k in db.refreshTokens ==> db.refreshTokens[k].tokenHash != HashToken(value)
    ensures Refresh(env, db, client, value, scope, now, d) == Reply(db, Err(InvalidGrant))
  {
  }

  lemma RefreshGrantReadsItsForm(env: Env, db: Db, client: Client, form: Form, now: Time, d: Draws, value: string,
      scope: string)
    ensures Sent(form, "refresh_token", value) && value != "" && Sent(form, "scope", scope) ==>
              RefreshTokenGrant(env, db, client, form, now, d) == Refresh(env, db, client, value, scope, now, d)
    ensures Sent(form, "refresh_token", "") || Repeated(form, "refresh_token") || Repeated(form, "scope") ==>
              RefreshTokenGrant(env, db, client, form, now, d) == Reply(db, Err(InvalidRequest))
  {
    hide Param, RequiredParam, Sent, Repeated, Refresh;
    ParamMeans(form, "refresh_token", value);
    ParamMeans(form, "scope", scope);
  }

  // ---------- The grants without a code ----------

  /** The password grant succeeds exactly when the sign-in does and the scope is allowed; it stores
      tokens of that user, and whatever the sign-in stored. */
  lemma PasswordGrantAnswers(env: Env, db: Db, book: Book, used: set<string>, client: Client, form: Form, now: Time,
      d: Draws, login: string, password: string, scope: string)
    requires Good(env, db, book, used) && Fresh(d, used)
    requires Sent(form, "username", login) && Sent(form, "password", password) && Sent(form, "scope", scope)
    requires login != "" && password != ""
    ensures var r, signIn := PasswordGrant(env, db, client, form, now, d), Authenticate(env, db, login, password, now);
            if !ScopeAllowed(client, scope) then r == Reply(db, Err(InvalidScope))
            else if signIn.result.Err? then r == Reply(signIn.db, Err(InvalidGrant))
            else
              var scopes := ScopesOf(client, scope);
              && r.result.Ok?
              && TokensAdded(signIn.db, r.db, d, client, signIn.result.value.id, scopes, "", true)
              && Tells(r.result.value, d.accessValue, RefreshValue(client, d, true), FormatScope(scopes), client)
  {
    var signIn := Authenticate(env, db, login, password, now);
    hide Good, Fresh, Param, RequiredParam, Sent, ResolveScopes, Authenticate, IssueTokens, TokensAdded, Tells,
      ScopeAllowed, ScopesOf;
    ParamMeans(form, "username", login);
    ParamMeans(form, "password", password);
    ParamMeans(form, "scope", scope);
    ScopesResolve(client, scope);
    AuthenticateRow(env, db, login, password, now, book, used);
    if signIn.result.Ok? && ResolveScopes(client, scope).Ok? {
      IssueAnswers(env, signIn.db, book, used, client, signIn.result.value.id, ResolveScopes(client, scope).value,
                   true, "", d);
    }
  }

  lemma PasswordGrantNeedsItsForm(env: Env, db: Db, client: Client, form: Form, now: Time, d: Draws)
    requires Sent(form, "username", "") || Repeated(form, "username") || Sent(form, "password", "")
             || Repeated(form, "password") || Repeated(form, "scope")
    ensures PasswordGrant(env, db, client, form, now, d) == Reply(db, Err(InvalidRequest))
  {
    hide Param, RequiredParam, Sent, Repeated, ResolveScopes, Authenticate, IssueTokens;
    ParamMeans(form, "username", "");
    ParamMeans(form, "password", "");
    ParamMeans(form, "scope", "");
  }

  /** The client credentials grant is for confidential clients, and issues one access token of nobody. */
  lemma ClientCredentialsAnswers(env: Env, db: Db, book: Book, used: set<string>, client: Client, form: Form, d: Draws,
      scope: string)
    requires Good(env, db, book, used) && Fresh(d, used) && Sent(form, "scope", scope)
    ensures var r := ClientCredentialsGrant(db, client, form, d);
            if client.kind == Public then r == Reply(db, Err(UnauthorizedClient))
            else if !ScopeAllowed(client, scope) then r == Reply(db, Err(InvalidScope))
            else
              var scopes := ScopesOf(client, scope);
              && r.result.Ok? && TokensAdded(db, r.db, d, client, "", scopes, "", false)
              && Tells(r.result.value, d.accessValue, "", FormatScope(scopes), client)
  {
    hide Good, Fresh, Param, Sent, ResolveScopes, IssueTokens, TokensAdded, Tells, ScopeAllowed,
      ScopesOf;
    ParamMeans(form, "scope", scope);
    ScopesResolve(client, scope);
    if ResolveScopes(client, scope).Ok? {
      IssueAnswers(env, db, book, used, client, "", ResolveScopes(client, scope).value, false, "", d);
    }
  }

  // ---------- The endpoint ----------

  /** The endpoint serves enabled clients, by the grant that the form names, if the client may use it. */
  lemma EndpointAnswers(env: Env, db: Db, clientKey: string, form: Form, now: Time, d: Draws, grant: string)
    ensures var r := TokenRequest(env, db, clientKey, form, now, d);
            && (!EnabledClient(db.clients, clientKey) ==> r == Reply(db, Err(InvalidClient)))
            && (EnabledClient(db.clients, clientKey)
                && (Sent(form, "grant_type", "") || Repeated(form, "grant_type")) ==>
                  r == Reply(db, Err(InvalidRequest)))
            && (EnabledClient(db.clients, clientKey) && Sent(form, "grant_type", grant) && grant != "" ==>
                  var client := db.clients[clientKey];
                  && (grant == "authorization_code" && AuthorizationCodeGrantType in client.grantTypes ==>
                        r == AuthorizationCodeGrant(env, db, client, form, now, d))
                  && (grant == "refresh_token" && RefreshTokenGrantType in client.grantTypes ==>
                        r == RefreshTokenGrant(env, db, client, form, now, d))
                  && (grant == "password" && PasswordGrantType in client.grantTypes ==>
                        r == PasswordGrant(env, db, client, form, now, d))
                  && (grant == "client_credentials" && ClientCredentialsGrantType in client.grantTypes ==>
                        r == ClientCredentialsGrant(db, client, form, d))
                  && ((grant == "authorization_code" && AuthorizationCodeGrantType !in client.grantTypes)
                      || (grant == "refresh_token" && RefreshTokenGrantType !in client.grantTypes)
                      || (grant == "password" && PasswordGrantType !in client.grantTypes)
                      || (grant == "client_credentials" && ClientCredentialsGrantType !in client.grantTypes) ==>
                        r == Reply(db, Err(UnauthorizedClient)))
                  && (grant !in {"authorization_code", "refresh_token", "password", "client_credentials"} ==>
                        r == Reply(db, Err(UnsupportedGrantType))))
  {
    hide Param, RequiredParam, Sent, Repeated, AuthorizationCodeGrant, RefreshTokenGrant, PasswordGrant,
      ClientCredentialsGrant;
    ParamMeans(form, "grant_type", grant);
    ParamMeans(form, "grant_type", "");
  }
}
