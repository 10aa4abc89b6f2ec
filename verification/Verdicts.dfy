/** What the rules that decide requests mean, in the terms of Conditions. */
module Verdicts {
  import opened Identity
  import opened Database
  import opened AccountRules
  import opened OAuthRules
  import opened Scope
  import opened Conditions

  // ---------- Parameters and scopes ----------

  /** A parameter has the value that was sent, the empty one if none was, and an error if it was repeated. */
  lemma ParamMeans(form: Form, name: string, value: string)
    ensures Param(form, name) == Ok(value) <==> Sent(form, name, value)
    ensures RequiredParam(form, name) == Ok(value) <==> Sent(form, name, value) && value != ""
    ensures Param(form, name).Err? <==> Repeated(form, name)
    ensures RequiredParam(form, name).Err? <==> Repeated(form, name) || Sent(form, name, "")
    ensures RequiredParam(form, name).Err? ==> RequiredParam(form, name).error == InvalidRequest
    ensures Param(form, name).Err? ==> Param(form, name).error == InvalidRequest
    ensures !Repeated(form, name) ==> Sent(form, name, Value(form, name)) && Param(form, name) == Ok(Value(form, name))
  {
  }

  lemma ScopeTokenMeans(s: string)
    ensures IsValidScopeToken(s) <==> ScopeToken(s)
  {
  }

  lemma ScopeSyntaxMeans(scopes: seq<string>)
    ensures ValidateScopeSyntax(scopes) <==> ScopeTokens(scopes)
  {
    hide IsValidScopeToken, ScopeToken;
    forall s | s in scopes ensures IsValidScopeToken(s) <==> ScopeToken(s) {
      ScopeTokenMeans(s);
    }
  }

  /** No scope means the default scopes; else all that are asked for must be well-formed and allowed. */
  lemma ScopesResolve(client: Client, scope: string)
    ensures ResolveScopes(client, scope)
            == if ScopeAllowed(client, scope) then Ok(ScopesOf(client, scope)) else Err(InvalidScope)
  {
    ScopeSyntaxMeans(ParsedScopes(scope));
    hide ValidateScopeSyntax, ScopeTokens;
  }

  // ---------- People and clients ----------

  lemma MayActMeans(env: Env, u: User)
    ensures CanSignIn(env, u).None? <==> MayAct(env, u)
    ensures CanSignIn(env, u) == Some(Disabled) <==> !u.enabled
    ensures CanSignIn(env, u) == Some(NotActivated) <==> u.enabled && env.requireActivation && !u.emailVerified
  {
  }

  lemma SessionMeans(env: Env, db: Db, s: Session, now: Time)
    ensures CurrentUser(env, db, s, now)
            == if CurrentSession(env, db.users, s, now) then Some(db.users[s.userId]) else None
  {
  }

  lemma ActiveMeans(env: Env, db: Db, id: string)
    ensures OwnerActive(env, db, id) <==> OwnerMayAct(env, db.users, id)
    ensures ClientActive(db, id) <==> EnabledClient(db.clients, id)
  {
  }

  // ---------- Codes ----------

  lemma VerifierMeans(v: string)
    ensures IsValidCodeVerifier(v) <==> Verifier(v)
  {
    forall c: char
      ensures c in "-._~" <==> c == '-' || c == '.' || c == '_' || c == '~'
    {
    }
  }

  /** The proof key of RFC 7636: S256 compares the hash of the verifier, plain the verifier itself,
      and there is no other method. */
  lemma ProofKeyMeans(env: Env, code: AuthorizationCode, verifier: string)
    requires code.codeChallenge != ""
    ensures verifier != "" && VerifyCodeChallenge(env, code.codeChallenge, code.codeChallengeMethod, verifier)
            <==> ProofKeyFits(env, code, verifier)
  {
    VerifierMeans(verifier);
  }

  /** A code is exchanged exactly when it is unused and the request is entitled to it, and a replay is
      answered as such exactly when its own client presents a used code. */
  lemma CodeVerdictMeans(env: Env, client: Client, code: AuthorizationCode, redirectUri: string, verifier: string,
      now: Time)
    ensures JudgeCode(env, client, code, redirectUri, verifier, now) == Exchangeable <==>
            code.consumedAt.None? && Entitled(env, code, client, redirectUri, verifier, now)
    ensures JudgeCode(env, client, code, redirectUri, verifier, now) == Replayed <==>
            code.consumedAt.Some? && client.id == code.clientId
  {
    if code.codeChallenge != "" {
      ProofKeyMeans(env, code, verifier);
      hide ProofKeyFits, VerifyCodeChallenge;
    }
  }

  // ---------- Refresh tokens ----------

  /** A refresh grants exactly the scopes asked for. */
  lemma RefreshVerdictMeans(client: Client, rt: RefreshToken, scope: string, now: Time)
    ensures var r := JudgeRefresh(client, rt, scope, now);
            && (r.Ok? <==> Usable(client, rt, now) && WithinGrant(client, rt, scope))
            && (r.Ok? ==> r.value == Wanted(rt, scope))
            && (r.Err? ==> r.error == if Usable(client, rt, now) then InvalidScope else InvalidGrant)
  {
    ScopeSyntaxMeans(ParsedScopes(scope));
    hide ValidateScopeSyntax, ScopeTokens;
  }
}
