/** Introspection, revocation and enforcement agree (pkg/oauth/revoke.go, bearer.go, grants.go). */
module Introspection {
  import opened Identity
  import opened Database
  import opened AccountRules
  import opened OAuthRules
  import opened Scope
  import opened Invariants
  import opened Evolution
  import opened Runs

  /** The value is not that of an access token and of a refresh token at once. */
  ghost predicate OneKind(db: Db, value: string) {
    AccessByHash(db, HashToken(value)).None? || RefreshByHash(db, HashToken(value)).None?
  }

  /** Token values name one kind of token in every reachable state. */
  lemma ReachableValuesHaveOneKind(env: Env, ws: seq<World>, steps: seq<Step>, i: nat, value: string)
    requires Run(env, ws, steps) && i < |ws|
    ensures OneKind(ws[i].db, value)
  {
    hide Run, Good, OneKind;
    ReachableIsGood(env, ws, steps, i);
    GoodValuesHaveOneKind(env, ws[i].db, ws[i].book, ws[i].used, value);
  }

  lemma GoodValuesHaveOneKind(env: Env, db: Db, book: Book, used: set<string>, value: string)
    requires Good(env, db, book, used)
    ensures OneKind(db, value)
  {
    hide Indexed, RefSafe, BookOk, PeopleOk, AuthCodeOk, UserTokenOk;
    var a, r := AccessByHash(db, HashToken(value)), RefreshByHash(db, HashToken(value));
    assert a.Some? ==> AccessOk(a.value, book, used);
    assert r.Some? ==> RefreshOk(r.value, book, used);
  }

  /** The hint changes what is found exactly when the value names both kinds. */
  lemma HintsOnlyMatterForBothKinds(db: Db, value: string)
    ensures FindToken(db, value, "") == FindToken(db, value, REFRESH_HINT) <==> OneKind(db, value)
  {
  }

  /** In a reachable state neither revocation nor introspection depends on the hint. */
  lemma HintsDoNotMatter(env: Env, ws: seq<World>, steps: seq<Step>, i: nat, client: Client, value: string,
      hint: string, other: string, now: Time)
    requires Run(env, ws, steps) && i < |ws|
    ensures Revoke(ws[i].db, client, value, hint) == Revoke(ws[i].db, client, value, other)
    ensures Introspect(env, ws[i].db, value, hint, now) == Introspect(env, ws[i].db, value, other, now)
  {
    ReachableValuesHaveOneKind(env, ws, steps, i, value);
    hide Run;
    RevokeIgnoresHint(ws[i].db, client, value, hint, other);
    FindIgnoresHint(ws[i].db, value, hint, other);
  }

  lemma RevokeIgnoresHint(db: Db, client: Client, value: string, hint: string, other: string)
    requires OneKind(db, value)
    ensures Revoke(db, client, value, hint) == Revoke(db, client, value, other)
  {
    hide AccessByHash, RefreshByHash, DeleteAccessToken, DeleteRefreshToken, WithoutAccess;
  }

  lemma FindIgnoresHint(db: Db, value: string, hint: string, other: string)
    requires OneKind(db, value)
    ensures FindToken(db, value, hint) == FindToken(db, value, other)
  {
    hide AccessByHash, RefreshByHash;
  }

  /** An access token passes bearer validation exactly when introspection, whatever the hint, calls
      the value an active bearer token; and the two agree on what the token says. */
  lemma BearerValidationAgrees(env: Env, db: Db, value: string, hint: string, now: Time)
    requires OneKind(db, value)
    ensures var v, i := ValidateAccessToken(env, db, value, now), Introspect(env, db, value, hint, now);
            && (v.Ok? <==> i.Active? && i.tokenType == Bearer)
            && (v.Ok? ==>
                  && i.scope == FormatScope(v.value.token.scopes) && i.clientId == v.value.client.clientId
                  && i.expiresAt == v.value.token.expiresAt / SECOND && i.issuedAt == v.value.token.createdAt / SECOND
                  && (if v.value.user.None? then v.value.token.userId == "" && i.username == i.subject == ""
                      else i.username == v.value.user.value.username && i.subject == v.value.user.value.id))
  {
    hide AccessByHash, RefreshByHash, FormatScope, CanSignIn;
  }

  /** Without that, validation still implies an active token under the access token hint only: if the
      value also names a refresh token, the refresh hint reports that one instead. */
  lemma BearerValidationNeedsOneKind(env: Env, db: Db, value: string, now: Time)
    requires !OneKind(db, value) && ValidateAccessToken(env, db, value, now).Ok?
    ensures var i := Introspect(env, db, value, REFRESH_HINT, now); !(i.Active? && i.tokenType == Bearer)
  {
    hide AccessByHash, RefreshByHash, FormatScope, CanSignIn;
  }

  /** A refresh that succeeds for an authenticated client was reported active just before. */
  lemma RefreshedTokensWereActive(env: Env, db: Db, client: Client, value: string, scope: string, hint: string,
      now: Time, d: Draws)
    requires OneKind(db, value) && client.id in db.clients && db.clients[client.id] == client && client.enabled
    requires Refresh(env, db, client, value, scope, now, d).result.Ok?
    ensures var i := Introspect(env, db, value, hint, now);
            i.Active? && i.tokenType == RefreshType && i.clientId == client.clientId
  {
    var rt := RefreshByHash(db, HashToken(value)).value;
    UsableRefresh(client, rt, scope, now);
    hide AccessByHash, RefreshByHash, FormatScope, CanSignIn, JudgeRefresh, UseRefreshToken;
  }

  lemma UsableRefresh(client: Client, rt: RefreshToken, scope: string, now: Time)
    requires JudgeRefresh(client, rt, scope, now).Ok?
    ensures rt.clientId == client.id && !ExpiredAt(rt.expiresAt, now)
  {
  }

  /** In every reachable state, for every value and hint: enforcement and introspection agree. */
  lemma EnforcementAgreesInEveryRun(env: Env, ws: seq<World>, steps: seq<Step>, i: nat, value: string, hint: string,
      now: Time)
    requires Run(env, ws, steps) && i < |ws|
    ensures ValidateAccessToken(env, ws[i].db, value, now).Ok? <==>
            Introspect(env, ws[i].db, value, hint, now).Active?
            && Introspect(env, ws[i].db, value, hint, now).tokenType == Bearer
  {
    hide Run, OneKind, ValidateAccessToken, Introspect;
    ReachableValuesHaveOneKind(env, ws, steps, i, value);
    BearerValidationAgrees(env, ws[i].db, value, hint, now);
  }

  /** In every run, a refresh that succeeds presents a token that introspection, with any hint, would
      have called an active refresh token of the same client at that time. */
  lemma RefreshesWereActiveInEveryRun(env: Env, ws: seq<World>, steps: seq<Step>, i: nat, hint: string)
    requires Run(env, ws, steps) && i < |steps| && steps[i].op.TokenOp?
             && steps[i].op.grantType == RefreshTokenGrantType
    requires var s := steps[i];
             TokenEndpoint(env, ws[i].db, s.op.clientKey, s.op.grantType, s.op.form, s.now, s.d).result.Ok?
    ensures i < |ws| && RequiredParam(steps[i].op.form, "refresh_token").Ok?
            && steps[i].op.clientKey in ws[i].db.clients
    ensures var a := Introspect(env, ws[i].db, RequiredParam(steps[i].op.form, "refresh_token").value, hint,
                                steps[i].now);
            a.Active? && a.tokenType == RefreshType && a.clientId == ws[i].db.clients[steps[i].op.clientKey].clientId
  {
    var s, db := steps[i], ws[i].db;
    EndpointRefreshes(env, db, s.op.clientKey, s.op.form, s.now, s.d);
    var value := RequiredParam(s.op.form, "refresh_token").value;
    hide Run, OneKind, TokenEndpoint, Introspect, Refresh, Param, Good;
    ReachableValuesHaveOneKind(env, ws, steps, i, value);
    ReachableIsGood(env, ws, steps, i);
    ClientKeyIsId(env, db, ws[i].book, ws[i].used, s.op.clientKey);
    RefreshedTokensWereActive(env, db, db.clients[s.op.clientKey], value, Param(s.op.form, "scope").value, hint,
                              s.now, s.d);
  }

  lemma ClientKeyIsId(env: Env, db: Db, book: Book, used: set<string>, key: string)
    requires Good(env, db, book, used) && key in db.clients
    ensures db.clients[key].id == key
  {
    hide RefSafe, TokensOk, BookOk, PeopleOk, UserTable, AccessTable, RefreshTable, CodeTable, UserTokenTable;
  }

  lemma EndpointRefreshes(env: Env, db: Db, clientKey: string, form: Form, now: Time, d: Draws)
    requires TokenEndpoint(env, db, clientKey, RefreshTokenGrantType, form, now, d).result.Ok?
    ensures ClientActive(db, clientKey) && RequiredParam(form, "refresh_token").Ok? && Param(form, "scope").Ok?
    ensures Refresh(env, db, db.clients[clientKey], RequiredParam(form, "refresh_token").value,
                    Param(form, "scope").value, now, d).result.Ok?
  {
    hide Refresh, Param;
  }
}
