/** Whole runs of the server: any number of requests of any kind, one after the other. */
module Runs {
  import opened Identity
  import opened Database
  import opened AccountRules
  import opened OAuthRules
  import opened AdminRules
  import opened Invariants
  import opened Minting
  import opened Evolution
  import opened Requests
  import opened Management

  /** Every request that changes the store. Hashes of new passwords and secrets are parameters. */
  datatype Op =
    | AuthorizeOp(form: Form, session: Option<Session>, decision: Decision)
    | TokenOp(clientKey: string, grantType: GrantType, form: Form)
    | RevokeOp(clientKey: string, value: string, hint: string)
    | LoginOp(login: string, password: string)
    | CreateUserOp(input: NewUser, hash: string)
    | ActivateOp(value: string)
    | ResetPasswordOp(value: string, password: string, hash: string)
    | ResendActivationOp(email: string)
    | RequestResetOp(email: string)
    | SendActivationOp(id: string)
    | ChangeUserOp(id: string, userRequest: UserRequest)
    | UnlockUserOp(id: string)
    | RemoveUserOp(id: string)
    | SetPasswordOp(id: string, password: string, hash: string)
    | AddClientOp(clientRequest: ClientRequest, secretHash: string)
    | ChangeClientOp(id: string, clientRequest: ClientRequest)
    | RemoveClientOp(id: string)
    | RenewSecretOp(id: string, secretHash: string)
    | RevokeUserOp(id: string)
    | RemoveAccessTokenOp(id: string)
    | RemoveRefreshTokenOp(id: string)
    | RemoveAccessTokensOp(filter: TokenFilter)
    | RemoveRefreshTokensOp(filter: TokenFilter)
    | CleanupOp

  /** A request, the time at which it runs, and the four fresh values it may draw. */
  datatype Step = Step(op: Op, now: Time, d: Draws)

  /** The state between two requests: the store, the last clock reading of a request, every value drawn so far,
      the sessions that were started, and the bookkeeping of token families. */
  datatype World = World(db: Db, clock: Time, used: set<string>, sessions: set<Session>, book: Book)

  ghost function AfterOAuth(env: Env, db: Db, op: Op, now: Time, d: Draws): Db
    requires op.AuthorizeOp? || op.TokenOp? || op.RevokeOp? || op.LoginOp?
  {
    match op
    case AuthorizeOp(form, session, decision) => Authorize(env, db, form, session, decision, now, d).db
    case TokenOp(clientKey, grantType, form) => TokenEndpoint(env, db, clientKey, grantType, form, now, d).db
    case RevokeOp(clientKey, value, hint) =>
      if ClientActive(db, clientKey) then Revoke(db, db.clients[clientKey], value, hint) else db
    case LoginOp(login, password) => Authenticate(env, db, login, password, now).db
  }

  ghost function AfterAccount(env: Env, db: Db, op: Op, now: Time, d: Draws): Db
    requires op.CreateUserOp? || op.ActivateOp? || op.ResetPasswordOp? || op.ResendActivationOp? || op.RequestResetOp?
             || op.SendActivationOp? || op.ChangeUserOp? || op.UnlockUserOp? || op.RemoveUserOp? || op.SetPasswordOp?
  {
    match op
    case CreateUserOp(input, hash) => CreateAccount(env, db, input, UserDrawsOf(d, hash), now).db
    case ActivateOp(value) => Activate(db, value, now, d.accessAt).db
    case ResetPasswordOp(value, password, hash) =>
      ResetPassword(env, db, value, password, UserDrawsOf(d, hash), now, d.accessAt).db
    case ResendActivationOp(email) => ResendActivation(env, db, email, UserDrawsOf(d, ""), now).db
    case RequestResetOp(email) => RequestPasswordReset(env, db, email, UserDrawsOf(d, ""), now).db
    case SendActivationOp(id) =>
      if id in db.users && !db.users[id].emailVerified then SendActivation(env, db, id, UserDrawsOf(d, ""), now).db
      else db
    case ChangeUserOp(id, req) => ChangeUser(env, db, id, req, d.accessValue, now).db
    case UnlockUserOp(id) => UnlockUser(env, db, id, d.accessValue, now).db
    case RemoveUserOp(id) => RemoveUser(db, id).db
    case SetPasswordOp(id, password, hash) => SetPassword(env, db, id, password, UserDrawsOf(d, hash), now).db
  }

  ghost function AfterAdmin(env: Env, db: Db, op: Op, now: Time, d: Draws): Db
    requires op.AddClientOp? || op.ChangeClientOp? || op.RemoveClientOp? || op.RenewSecretOp? || op.RevokeUserOp?
             || op.RemoveAccessTokenOp? || op.RemoveRefreshTokenOp? || op.RemoveAccessTokensOp?
             || op.RemoveRefreshTokensOp? || op.CleanupOp?
  {
    match op
    case AddClientOp(req, secretHash) => AddClient(env, db, req, d.accessId, secretHash, now).db
    case ChangeClientOp(id, req) => ChangeClient(env, db, id, req, now).db
    case RemoveClientOp(id) => RemoveClient(db, id).db
    case RenewSecretOp(id, secretHash) => RenewSecret(db, id, secretHash, now).db
    case RevokeUserOp(id) => RevokeAllOfUser(db, id).db
    case RemoveAccessTokenOp(id) => DeleteAccessToken(db, id).db
    case RemoveRefreshTokenOp(id) => RemoveRefreshToken(db, id).db
    case RemoveAccessTokensOp(f) => RemoveAccessTokens(db, f).db
    case RemoveRefreshTokensOp(f) => RemoveRefreshTokens(db, f).db
    case CleanupOp => DeleteExpired(db, now)
  }

  predicate IsOAuth(op: Op) { op.AuthorizeOp? || op.TokenOp? || op.RevokeOp? || op.LoginOp? }

  predicate IsAdmin(op: Op) {
    op.AddClientOp? || op.ChangeClientOp? || op.RemoveClientOp? || op.RenewSecretOp? || op.RevokeUserOp?
    || op.RemoveAccessTokenOp? || op.RemoveRefreshTokenOp? || op.RemoveAccessTokensOp? || op.RemoveRefreshTokensOp?
    || op.CleanupOp?
  }

  ghost function After(env: Env, db: Db, s: Step): Db {
    if IsOAuth(s.op) then AfterOAuth(env, db, s.op, s.now, s.d)
    else if IsAdmin(s.op) then AfterAdmin(env, db, s.op, s.now, s.d)
    else AfterAccount(env, db, s.op, s.now, s.d)
  }

  /** The refresh token that the request presents, if any. */
  ghost function Presented(db: Db, op: Op): Option<RefreshToken> {
    if op.TokenOp? then PresentedRefreshToken(db, op.grantType, op.form) else None
  }

  ghost function StartedSessions(env: Env, db: Db, s: Step): set<Session> {
    if s.op.LoginOp? && Authenticate(env, db, s.op.login, s.op.password, s.now).result.Ok?
    then {NewSession(env, Authenticate(env, db, s.op.login, s.op.password, s.now).result.value, s.now)} else {}
  }

  ghost function Next(env: Env, w: World, s: Step): World {
    var db := After(env, w.db, s);
    World(db, if s.op.CleanupOp? then w.clock else s.d.refreshAt, w.used + Drawn(s.d),
          w.sessions + StartedSessions(env, w.db, s), BookAfter(w.book, db, Presented(w.db, s.op), s.d))
  }

  /** The clock of the requests never goes backwards, and drawn values were never drawn before. The
      cleanup reads a finer clock, so that a request after it may show an earlier time. */
  ghost predicate Enabled(w: World, s: Step) {
    w.clock <= s.now <= s.d.accessAt <= s.d.refreshAt && Fresh(s.d, w.used)
  }

  /** Nobody has signed up yet; clients may have been provisioned. */
  ghost predicate Init(env: Env, w: World) {
    && w.db == EMPTY.(clients := w.db.clients) && w.book == BLANK_BOOK && w.sessions == {} && "" !in w.used
    && ClientTable(w.db.clients) && (forall k :: k in w.db.clients ==> k in w.used && ValidClient(env, w.db.clients[k]))
  }

  ghost predicate Run(env: Env, ws: seq<World>, steps: seq<Step>) {
    && |ws| == |steps| + 1
    && Init(env, ws[0])
    && forall i :: 0 <= i < |steps| ==> Enabled(ws[i], steps[i]) && ws[i + 1] == Next(env, ws[i], steps[i])
  }

  // ---------- Every step keeps the invariant ----------

  lemma OAuthStepKept(env: Env, db: Db, op: Op, now: Time, book: Book, used: set<string>, d: Draws)
    requires Good(env, db, book, used) && Fresh(d, used) && IsOAuth(op)
    ensures Kept(env, db, book, used, AfterOAuth(env, db, op, now, d), Presented(db, op), d)
  {
    hide Good, Fresh, Kept, Authorize, TokenEndpoint, Revoke, Authenticate, PresentedRefreshToken;
    match op {
      case AuthorizeOp(form, session, decision) => AuthorizeKept(env, db, form, session, decision, now, book, used, d);
      case TokenOp(clientKey, grantType, form) =>
        TokenEndpointKept(env, db, clientKey, grantType, form, now, book, used, d);
      case RevokeOp(clientKey, value, hint) =>
        NothingKept(env, db, book, used, None, d);
        if ClientActive(db, clientKey) {
          RevokeKept(env, db, db.clients[clientKey], value, hint, book, used, d);
        }
      case LoginOp(login, password) => LoginKept(env, db, login, password, now, book, used, d);
    }
  }

  lemma AccountStepKept(env: Env, db: Db, op: Op, now: Time, book: Book, used: set<string>, d: Draws)
    requires Good(env, db, book, used) && Fresh(d, used) && !IsOAuth(op) && !IsAdmin(op)
    ensures Kept(env, db, book, used, AfterAccount(env, db, op, now, d), None, d)
  {
    hide Good, Fresh, Kept, CreateAccount, Activate, ResetPassword, ResendActivation, RequestPasswordReset,
      IssueUserToken,
      ChangeUser, UnlockUser, RemoveUser, SetPassword;
    match op {
      case CreateUserOp(input, hash) => CreateAccountKept(env, db, input, hash, now, book, used, d);
      case ActivateOp(value) => ActivateKept(env, db, value, now, d.accessAt, book, used, d);
      case ResetPasswordOp(value, password, hash) =>
        ResetPasswordKept(env, db, value, password, hash, now, d.accessAt, book, used, d);
      case ResendActivationOp(email) => MailedTokensKept(env, db, email, "", now, book, used, d);
      case RequestResetOp(email) => MailedTokensKept(env, db, email, "", now, book, used, d);
      case SendActivationOp(id) =>
        NothingKept(env, db, book, used, None, d);
        UserTokenForKept(env, db, id, Activation, env.activationLifetime, now, book, used, d);
      case ChangeUserOp(id, req) => ChangeUserKept(env, db, id, req, now, book, used, d);
      case UnlockUserOp(id) => ChangeUserKept(env, db, id, UserRequest("", "", false, false), now, book, used, d);
      case RemoveUserOp(id) => RemoveUserKept(env, db, id, book, used, d);
      case SetPasswordOp(id, password, hash) => SetPasswordKept(env, db, id, password, hash, now, book, used, d);
    }
  }

  lemma AdminStepKept(env: Env, db: Db, op: Op, now: Time, book: Book, used: set<string>, d: Draws)
    requires Good(env, db, book, used) && Fresh(d, used) && IsAdmin(op)
    ensures Kept(env, db, book, used, AfterAdmin(env, db, op, now, d), None, d)
  {
    hide Good, Fresh, Kept, AddClient, ChangeClient, RemoveClient, RenewSecret, RevokeAllOfUser, DeleteAccessToken,
      RemoveRefreshToken,
      RemoveAccessTokens, RemoveRefreshTokens, DeleteExpired, OnlyDeleted;
    match op {
      case AddClientOp(req, secretHash) => AddClientKept(env, db, req, secretHash, now, book, used, d);
      case ChangeClientOp(id, req) => ChangeClientKept(env, db, id, req, now, book, used, d);
      case RemoveClientOp(id) => RemoveClientKept(env, db, id, book, used, d);
      case RenewSecretOp(id, secretHash) => RenewSecretKept(env, db, id, secretHash, now, book, used, d);
      case RevokeUserOp(id) =>
        AdminDeletions(db, id, NO_FILTER, now);
        DeletedKept(env, db, RevokeAllOfUser(db, id).db, book, used, d);
      case RemoveAccessTokenOp(id) =>
        AdminDeletions(db, id, NO_FILTER, now);
        DeletedKept(env, db, DeleteAccessToken(db, id).db, book, used, d);
      case RemoveRefreshTokenOp(id) =>
        AdminDeletions(db, id, NO_FILTER, now);
        DeletedKept(env, db, RemoveRefreshToken(db, id).db, book, used, d);
      case RemoveAccessTokensOp(f) =>
        AdminDeletions(db, "", f, now);
        DeletedKept(env, db, RemoveAccessTokens(db, f).db, book, used, d);
      case RemoveRefreshTokensOp(f) =>
        AdminDeletions(db, "", f, now);
        DeletedKept(env, db, RemoveRefreshTokens(db, f).db, book, used, d);
      case CleanupOp =>
        AdminDeletions(db, "", NO_FILTER, now);
        DeletedKept(env, db, DeleteExpired(db, now), book, used, d);
    }
  }

  /** Whatever the request, the invariant holds afterwards and the contents evolve soundly. */
  lemma StepKeepsGood(env: Env, w: World, s: Step)
    requires Good(env, w.db, w.book, w.used) && Enabled(w, s)
    ensures var v := Next(env, w, s);
            Good(env, v.db, v.book, v.used) && Evolves(w.db, v.db, w.used)
  {
    hide Good, Fresh, Evolves, AfterOAuth, AfterAccount, AfterAdmin, BookAfter, Drawn;
    if IsOAuth(s.op) {
      OAuthStepKept(env, w.db, s.op, s.now, w.book, w.used, s.d);
    } else if IsAdmin(s.op) {
      AdminStepKept(env, w.db, s.op, s.now, w.book, w.used, s.d);
    } else {
      AccountStepKept(env, w.db, s.op, s.now, w.book, w.used, s.d);
    }
  }

  lemma InitIsGood(env: Env, w: World)
    requires Init(env, w)
    ensures Good(env, w.db, w.book, w.used)
  {
    hide ValidClient;
  }

  lemma {:induction false} ReachableIsGood(env: Env, ws: seq<World>, steps: seq<Step>, i: nat)
    requires Run(env, ws, steps) && i < |ws|
    ensures Good(env, ws[i].db, ws[i].book, ws[i].used)
  {
    hide Good, Next, Enabled, Init;
    if i == 0 {
      InitIsGood(env, ws[0]);
    } else {
      ReachableIsGood(env, ws, steps, i - 1);
      StepKeepsGood(env, ws[i - 1], steps[i - 1]);
    }
  }

  /** The same for one step of a run, together with how the contents evolve. */
  lemma StepOfRun(env: Env, ws: seq<World>, steps: seq<Step>, i: nat)
    requires Run(env, ws, steps) && i < |steps|
    ensures Good(env, ws[i].db, ws[i].book, ws[i].used) && Good(env, ws[i + 1].db, ws[i + 1].book, ws[i + 1].used)
    ensures Enabled(ws[i], steps[i]) && ws[i + 1] == Next(env, ws[i], steps[i])
    ensures Evolves(ws[i].db, ws[i + 1].db, ws[i].used) && ws[i].used <= ws[i + 1].used
  {
    hide Good, Enabled, Init, After, Evolves, BookAfter;
    ReachableIsGood(env, ws, steps, i);
    StepKeepsGood(env, ws[i], steps[i]);
  }
}
