/** What the authorization endpoint answers (pkg/oauth/authorize.go), in terms of the form, the stored
    clients, the session and the decision of the user. */
module AuthorizeAnswers {
  import opened Identity
  import opened Database
  import opened AccountRules
  import opened OAuthRules
  import opened Scope
  import opened Conditions
  import opened Verdicts
  import opened Invariants
  import opened Minting
  import opened Evolution
  import opened Requests
  import opened TokenAnswers

  // ---------- What a request has to look like ----------

  /** The client that the form names: enabled, under its client_id. */
  predicate Names(form: Form, client: Client) {
    !Repeated(form, "client_id") && client.clientId == Value(form, "client_id") != "" && client.enabled
  }

  /** A redirection URI of the form is registered; without one, the client has exactly one. */
  predicate RedirectFits(form: Form, client: Client) {
    && !Repeated(form, "redirect_uri")
    && (Value(form, "redirect_uri") == "" ==> |client.redirectUris| == 1)
    && (Value(form, "redirect_uri") != "" ==> Value(form, "redirect_uri") in client.redirectUris)
  }

  function RedirectOf(form: Form, client: Client): string
    requires RedirectFits(form, client)
  {
    if Value(form, "redirect_uri") == "" then client.redirectUris[0] else Value(form, "redirect_uri")
  }

  /** The proof key of a code request: public clients, and those that ask for it, have to send one. */
  predicate ChallengeFits(form: Form, client: Client) {
    && !Repeated(form, "code_challenge") && !Repeated(form, "code_challenge_method")
    && (Value(form, "code_challenge") == "" ==> !client.requirePkce && client.kind != Public)
    && (Value(form, "code_challenge") != "" ==>
          Verifier(Value(form, "code_challenge")) && Value(form, "code_challenge_method") in {"", "plain", "S256"})
  }

  function MethodOf(form: Form): string {
    if Value(form, "code_challenge") == "" then ""
    else if Value(form, "code_challenge_method") == "" then "plain"
    else Value(form, "code_challenge_method")
  }

  predicate ResponseFits(form: Form, client: Client) {
    && !Repeated(form, "response_type")
    && (Value(form, "response_type") == "code" || Value(form, "response_type") == "token")
    && (Value(form, "response_type") == "code" ==> AuthorizationCodeGrantType in client.grantTypes)
    && (Value(form, "response_type") == "token" ==> ImplicitGrantType in client.grantTypes)
  }

  predicate ScopeFits(form: Form, client: Client) {
    !Repeated(form, "scope") && ScopeAllowed(client, Value(form, "scope"))
  }

  predicate RequestFits(form: Form, client: Client) {
    && !Repeated(form, "state") && ResponseFits(form, client) && ScopeFits(form, client)
    && (Value(form, "response_type") == "code" ==> ChallengeFits(form, client))
  }

  // ---------- The client and the redirection URI ----------

  lemma ClientLookup(db: Db, k: string, name: string)
    requires Indexed(db) && k in db.clients && db.clients[k].clientId == name
    ensures ClientByClientId(db, name) == Some(db.clients[k])
  {
    hide UserTable, AccessTable, RefreshTable, CodeTable, UserTokenTable;
  }

  /** The target is the stored, enabled client of that client_id with a registered URI, and nothing else. */
  lemma TargetAnswers(db: Db, form: Form, k: string)
    requires Indexed(db) && k in db.clients && Names(form, db.clients[k])
    ensures var c := db.clients[k];
            ClientAndRedirect(db, form)
            == if RedirectFits(form, c) then Ok((c, RedirectOf(form, c), Value(form, "redirect_uri")))
              else Err(InvalidRequest)
  {
    hide Param, RequiredParam, Repeated, Value, Sent, Indexed;
    ParamMeans(form, "client_id", Value(form, "client_id"));
    ParamMeans(form, "redirect_uri", Value(form, "redirect_uri"));
    ClientLookup(db, k, Value(form, "client_id"));
  }

  lemma UnknownTargetsAreRefused(db: Db, form: Form)
    requires forall k :: k in db.clients ==> !Names(form, db.clients[k])
    ensures ClientAndRedirect(db, form)
            == Err(if Repeated(form, "client_id") || Value(form, "client_id") == "" then InvalidRequest
                   else InvalidClient)
  {
    hide Param, RequiredParam, Repeated, Value, Sent;
    ParamMeans(form, "client_id", Value(form, "client_id"));
    ParamMeans(form, "client_id", "");
  }

  // ---------- The request ----------

  lemma ChallengeAnswers(client: Client, form: Form)
    ensures ChallengeOf(client, form)
            == if ChallengeFits(form, client) then Ok((Value(form, "code_challenge"), MethodOf(form)))
              else Err(InvalidRequest)
  {
    hide Param, Repeated, Value, Sent, IsValidCodeVerifier, Verifier;
    ParamMeans(form, "code_challenge", "");
    ParamMeans(form, "code_challenge_method", "");
    VerifierMeans(Value(form, "code_challenge"));
  }

  /** The request as it was sent: the client, the URI, the scopes and the proof key of the form. */
  predicate ReadsForm(req: AuthorizeRequest, form: Form, client: Client, redirectUri: string,
        redirectUriParam: string) {
    && req.client == client && req.redirectUri == redirectUri && req.redirectUriParam == redirectUriParam
    && req.scopes == ScopesOf(client, Value(form, "scope"))
    && (req.responseType.CodeResponse? <==> Value(form, "response_type") == "code")
    && (Value(form, "response_type") == "code" ==>
          req.codeChallenge == Value(form, "code_challenge") && req.codeChallengeMethod == MethodOf(form))
  }

  lemma RequestAnswers(client: Client, redirectUri: string, redirectUriParam: string, form: Form)
    ensures var r := ReadAuthorizeRequest(client, redirectUri, redirectUriParam, form);
            && (r.Ok? <==> RequestFits(form, client))
            && (r.Ok? ==> ReadsForm(r.value, form, client, redirectUri, redirectUriParam))
  {
    hide Param, Repeated, Value, Sent, ChallengeOf, ChallengeFits, ResolveScopes, ScopeAllowed, ScopesOf, MethodOf;
    ParamMeans(form, "state", "");
    ParamMeans(form, "response_type", "");
    ParamMeans(form, "scope", "");
    ScopesResolve(client, Value(form, "scope"));
    ChallengeAnswers(client, form);
  }

  /** Which error a request gets that does not fit. */
  lemma RequestErrors(client: Client, redirectUri: string, redirectUriParam: string, form: Form)
    requires !RequestFits(form, client)
    ensures ReadAuthorizeRequest(client, redirectUri, redirectUriParam, form)
            == Err(if Repeated(form, "state") || Repeated(form, "response_type") || Value(form, "response_type") == ""
                   then InvalidRequest
                   else if Value(form, "response_type") != "code" && Value(form, "response_type") != "token"
                   then UnsupportedResponseType
                   else if !ResponseFits(form, client) then UnauthorizedClient
                   else if !Repeated(form, "scope") && !ScopeFits(form, client) then InvalidScope
                   else InvalidRequest)
  {
    hide Param, Repeated, Value, Sent, ChallengeOf, ChallengeFits, ResolveScopes, ScopeAllowed, ScopesOf, MethodOf;
    ParamMeans(form, "state", "");
    ParamMeans(form, "response_type", "");
    ParamMeans(form, "scope", "");
    ScopesResolve(client, Value(form, "scope"));
    ChallengeAnswers(client, form);
  }

  // ---------- What is granted ----------

  /** One code more, which carries what the form asked for. */
  ghost predicate CodeAdded(a: Db, b: Db, d: Draws, client: Client, userId: string, form: Form, now: Time) {
    && b == a.(codes := b.codes) && d.refreshId !in a.codes && d.refreshId in b.codes
    && b.codes == a.codes[d.refreshId := b.codes[d.refreshId]]
    && var c := b.codes[d.refreshId];
       && c.id == d.refreshId && c.codeHash == HashToken(d.refreshValue) && c.clientId == client.id
       && c.userId == userId
       && c.scopes == ScopesOf(client, Value(form, "scope")) && c.redirectUri == Value(form, "redirect_uri")
       && c.codeChallenge == Value(form, "code_challenge") && c.codeChallengeMethod == MethodOf(form)
       && c.createdAt == now && c.expiresAt == now + Lifetime(client.codeLifetime, FIVE_MINUTES) && c.consumedAt == None
  }

  /** What the endpoint grants: a code, or an access token for the implicit grant and no refresh token. */
  ghost predicate Granted(a: Db, r: Authorized, d: Draws, client: Client, userId: string, form: Form, now: Time) {
    if Value(form, "response_type") == "code" then
      r.answer == CodeIssued(d.refreshValue) && CodeAdded(a, r.db, d, client, userId, form, now)
    else
      var scopes := ScopesOf(client, Value(form, "scope"));
      && r.answer.TokenIssued? && TokensAdded(a, r.db, d, client, userId, scopes, "", false)
      && Tells(r.answer.response, d.accessValue, "", FormatScope(scopes), client)
  }

  lemma NewCodeRow(db: Db, req: AuthorizeRequest, d: Draws, client: Client, userId: string, form: Form,
      redirectUri: string, now: Time)
    requires ReadsForm(req, form, client, redirectUri, Value(form, "redirect_uri"))
    requires Value(form, "response_type") == "code" && d.refreshId !in db.codes
    ensures var c := NewCode(req, userId, d.refreshId, d.refreshValue, now);
            c.id == d.refreshId && CodeAdded(db, db.(codes := db.codes[c.id := c]), d, client, userId, form, now)
  {
    hide Value, MethodOf, ScopesOf;
  }

  lemma FreshCodes(env: Env, db: Db, book: Book, used: set<string>, d: Draws)
    requires Good(env, db, book, used) && Fresh(d, used)
    ensures d.refreshId !in db.codes && !CodeHashTaken(db.codes, HashToken(d.refreshValue))
  {
    hide Indexed, RefSafe, BookOk, TokensOk, PeopleOk, CodeHashTaken;
    FreshHashesAreFree(db, book, used, d.refreshId);
    FreshHashesAreFree(db, book, used, d.refreshValue);
  }

  lemma GrantAnswers(env: Env, db: Db, book: Book, used: set<string>, req: AuthorizeRequest, d: Draws, client: Client,
      userId: string, form: Form, redirectUri: string, now: Time)
    requires Good(env, db, book, used) && Fresh(d, used)
    requires ReadsForm(req, form, client, redirectUri, Value(form, "redirect_uri"))
    ensures Granted(db, Grant(db, req, userId, now, d), d, client, userId, form, now)
  {
    hide Good, Fresh, Value, MethodOf, ScopesOf, NewCode, CodeAdded, TokensAdded, Tells, IssueTokens, CodeHashTaken;
    FreshCodes(env, db, book, used, d);
    if Value(form, "response_type") == "code" {
      NewCodeRow(db, req, d, client, userId, form, redirectUri, now);
      NewCodeHash(req, userId, d.refreshId, d.refreshValue, now);
    } else {
      IssueAnswers(env, db, book, used, client, userId, req.scopes, false, "", d);
    }
  }

  lemma NewCodeHash(req: AuthorizeRequest, userId: string, id: string, value: string, now: Time)
    ensures NewCode(req, userId, id, value, now).codeHash == HashToken(value)
  {
  }

  // ---------- The endpoint ----------

  /** The steps after the request was read. */
  lemma AnswerByConsent(env: Env, db: Db, form: Form, session: Option<Session>, decision: Decision, now: Time, d: Draws,
      target: (Client, string, string), req: AuthorizeRequest)
    requires ClientAndRedirect(db, form) == Ok(target) && req.client == target.0
    requires ReadAuthorizeRequest(target.0, target.1, target.2, form) == Ok(req)
    ensures var r, c := Authorize(env, db, form, session, decision, now, d), req.client;
            if session.None? || CurrentUser(env, db, session.value, now).None? then r == Authorized(db, ShowLogin)
            else if c.requireConsent && decision == Undecided then r == Authorized(db, AskConsent)
            else if c.requireConsent && decision == Unverified then r == Authorized(db, PageError(InvalidRequest))
            else if c.requireConsent && decision == Denied then r == Authorized(db, RedirectError(AccessDenied))
            else r == Grant(db, req, CurrentUser(env, db, session.value, now).value.id, now, d)
  {
    hide ClientAndRedirect, ReadAuthorizeRequest, CurrentUser, Grant;
  }

  /** A request that fits, of a stored client: without a current session the user has to sign in; a
      client that asks for consent gets nothing before it is given; then the grant is made. */
  lemma FittingRequestsAreAnswered(env: Env, db: Db, book: Book, used: set<string>, form: Form, k: string,
      session: Option<Session>, decision: Decision, now: Time, d: Draws)
    requires Good(env, db, book, used) && Fresh(d, used)
    requires k in db.clients && Names(form, db.clients[k]) && RedirectFits(form, db.clients[k])
             && RequestFits(form, db.clients[k])
    ensures var r, c := Authorize(env, db, form, session, decision, now, d), db.clients[k];
            if session.None? || !CurrentSession(env, db.users, session.value, now) then r == Authorized(db, ShowLogin)
            else if c.requireConsent && decision == Undecided then r == Authorized(db, AskConsent)
            else if c.requireConsent && decision == Unverified then r == Authorized(db, PageError(InvalidRequest))
            else if c.requireConsent && decision == Denied then r == Authorized(db, RedirectError(AccessDenied))
            else Granted(db, r, d, c, session.value.userId, form, now)
  {
    var c, uri, param := db.clients[k], RedirectOf(form, db.clients[k]), Value(form, "redirect_uri");
    hide *;
    IndexedIfGood(env, db, book, used);
    TargetAnswers(db, form, k);
    RequestAnswers(c, uri, param, form);
    RequestNamesItsClient(c, uri, param, form);
    var req := ReadAuthorizeRequest(c, uri, param, form).value;
    AnswerByConsent(env, db, form, session, decision, now, d, (c, uri, param), req);
    if session.Some? {
      SessionMeans(env, db, session.value, now);
      SessionUserIsStored(env, db, book, used, session.value, now);
      GrantAnswers(env, db, book, used, req, d, c, session.value.userId, form, uri, now);
    }
  }

  lemma SessionUserIsStored(env: Env, db: Db, book: Book, used: set<string>, s: Session, now: Time)
    requires Good(env, db, book, used)
    ensures CurrentSession(env, db.users, s, now) ==> s.userId in db.users && db.users[s.userId].id == s.userId
  {
    hide RefSafe, BookOk, TokensOk, PeopleOk, ClientTable, AccessTable, RefreshTable, CodeTable, UserTokenTable, MayAct;
  }

  /** A request that does not fit changes nothing. A client or redirection URI that is not right is
      reported on a page of the server, and the browser is not sent anywhere. */
  lemma OtherRequestsAreRefused(env: Env, db: Db, form: Form, session: Option<Session>, decision: Decision, now: Time,
      d: Draws)
    requires Indexed(db)
    ensures (forall k :: k in db.clients ==> !Names(form, db.clients[k]) || !RedirectFits(form, db.clients[k])) ==>
              var r := Authorize(env, db, form, session, decision, now, d);
              r.db == db && r.answer.PageError?
    ensures (exists k :: k in db.clients && Names(form, db.clients[k]) && RedirectFits(form, db.clients[k])
                         && !RequestFits(form, db.clients[k])) ==>
              var r := Authorize(env, db, form, session, decision, now, d);
              r.db == db && r.answer.RedirectError?
  {
    hide Indexed, Value, Names, RedirectFits, RequestFits, RedirectOf, Grant, ClientAndRedirect, ReadAuthorizeRequest,
      CurrentUser, ReadsForm;
    forall k | k in db.clients && Names(form, db.clients[k])
      ensures ClientAndRedirect(db, form).Ok? <==> RedirectFits(form, db.clients[k])
      ensures RedirectFits(form, db.clients[k]) && !RequestFits(form, db.clients[k]) ==>
                var r := Authorize(env, db, form, session, decision, now, d);
                r.db == db && r.answer.RedirectError?
    {
      TargetAnswers(db, form, k);
      if RedirectFits(form, db.clients[k]) {
        RequestAnswers(db.clients[k], RedirectOf(form, db.clients[k]), Value(form, "redirect_uri"), form);
      }
    }
    if forall k :: k in db.clients ==> !Names(form, db.clients[k]) {
      UnknownTargetsAreRefused(db, form);
    }
  }

  /** Whenever the endpoint issues something, or changes the store at all: the form names a stored and
      enabled client and fits it, the session is current, and the client needs no consent or the user
      allowed it. Then exactly the grant was made. */
  lemma NothingWithoutConsent(env: Env, db: Db, book: Book, used: set<string>, form: Form, session: Option<Session>,
      decision: Decision, now: Time, d: Draws) returns (k: string)
    requires Good(env, db, book, used) && Fresh(d, used)
    ensures var r := Authorize(env, db, form, session, decision, now, d);
            r.answer.CodeIssued? || r.answer.TokenIssued? || r.db != db ==>
              && k in db.clients && Names(form, db.clients[k]) && RedirectFits(form, db.clients[k])
              && RequestFits(form, db.clients[k])
              && session.Some? && CurrentSession(env, db.users, session.value, now)
              && (db.clients[k].requireConsent ==> decision == Allowed)
              && Granted(db, r, d, db.clients[k], session.value.userId, form, now)
  {
    hide Good, Fresh, Indexed, Names, RedirectFits, RequestFits, CurrentSession, Granted, Authorize;
    IndexedIfGood(env, db, book, used);
    OtherRequestsAreRefused(env, db, form, session, decision, now, d);
    k := "";
    if exists j :: j in db.clients && Names(form, db.clients[j]) && RedirectFits(form, db.clients[j]) {
      k :| k in db.clients && Names(form, db.clients[k]) && RedirectFits(form, db.clients[k]);
      if RequestFits(form, db.clients[k]) {
        FittingRequestsAreAnswered(env, db, book, used, form, k, session, decision, now, d);
      }
    }
  }
}
