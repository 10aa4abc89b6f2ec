# The token lifecycle, verified

This project models the part of the identity server that decides who may hold a token, and proves
what it promises: the OAuth 2.0 grants, revocation and introspection (`pkg/oauth`), the account state
machine (`pkg/account`), the management API (`pkg/api`), the memory store they run on
(`pkg/store/memory`), and two self-contained cores, the scope syntax (`pkg/identity/scope.go`) and the
SQL text layer (`store/sql`).

Check it with `dafny verify dfyconfig.toml` (Dafny 4.11). The long flags that keep single proofs
small are `--resource-limit 2000000 --verification-time-limit 0`.

## How it is built

| level | files | what is there |
|---|---|---|
| values | Identity, Scope | entities, time, scope lists |
| the store | Database, MemoryStore, Paging | what each store operation does to the contents; the `Store` class whose loops and unique indexes are proved against that |
| its copies | Aliasing, Copies | tables of row objects with slices and pointers, which clone what goes in and out; the six tables of the store as such tables, with the same effect on the values |
| requests | AccountRules and Accounts, OAuthRules and OAuth, AdminRules and Admin | each request as a function of the contents, and the class whose methods are proved to do exactly that, store call by store call |
| what they answer | Conditions, Verdicts, TokenAnswers, AuthorizeAnswers, RevocationAnswers, AccountAnswers, AdminAnswers | exactly when each request succeeds, and exactly what it stores and leaves, in terms of single fields and none of the rules that decide it |
| one at a time | Invariants, Minting, Evolution, Requests, Management, Runs, RunTheorems, Lockout, Introspection, Cleanup, WholeTimes | any number of requests of every kind, one after the other: the global invariant and what follows for every run |
| interleaved | Interleaving, Concurrency, ConcurrencyInvariant, ConcurrencySteps, ConcurrencyWrites, ConcurrencyRotations, ConcurrencyTheorems, ConcurrencyAgreement, ConcurrencyReplay, PileUp, ReplayRace | the same requests with one store call per step, any number of them at once, with deletions and management changes in between |
| text | SqlLike, Rebind, TokenWhere | LIKE patterns, placeholders and where clauses against the direct predicates |

The two levels meet in `Interleaving.ExchangeAlone` and `Interleaving.RefreshAlone`: a request whose
store calls nobody interrupts does what its one-at-a-time specification says.

## Assumptions

- Ids, token values and security stamps are fresh and not empty. Each step of a run draws them.
- SHA-256 is a free constructor (`HashToken`), so it is injective. S256 of RFC 7636, the password
  hasher and the string functions of the standard library are parameters (`Env`).
- Clients that exist at the start passed `Validate`.
- When requests run one at a time their clock never goes backwards; the cleanup may read a later
  time. When they interleave the clock is not restricted at all.
- The store fails only with NotFound, Duplicate and Conflict.

## What turned out differently than one might expect

- Changing the email address renews the security stamp only when the normalized address changes
  (`RespelledEmailKeepsSessions`, `CaseChangeKeepsASession`).
- Cleanup of a consumed code ends the detection of its replay (`CleanupEndsReplayDetection`).
- A page limit above 500 is cut, so stepping by the requested limit skips items
  (`PagesByRequestedLimit`, `LastItemIsNeverShown`).
- A placeholder directly followed by a digit is misread by PostgreSQL (`PostgresReadsPlaceholders`,
  `DigitsRunTogether`); the queries of the repository have none.
- The epoch cannot be stored as a time, because zero stands for the zero time (`TimeRoundTrip`).
- Access tokens of a reusable refresh token pile up when its uses interleave (`AccessTokensPileUp`).
- A replayed code whose first exchange is still under way is noticed, but its revocation can come too
  early to remove the tokens (`RevocationComesTooEarly`); `RevocationIsFinal` says when it does not.
- `ScopesEqual` is not symmetric on lists with duplicates (`ScopesEqualNeedsParsedLists`).
- The cleanup reads the clock to the nanosecond and requests to the millisecond. Nobody notices as
  long as lifetimes are whole milliseconds (`TruncatedClocksAgree`,
  `CleanupIsUnnoticedByTruncatedClocks`).

## Model

| member | source | states |
|---|---|---|
| ConcurrencyTheorems.AtMostOneRefreshToken | pkg/oauth/grants.go:211-238 | in every state of every interleaving, a family and a non-empty code id have at most one stored refresh token |
| ConcurrencyTheorems.AtMostOneAccessToken | pkg/oauth/grants.go:194-220 | whenever no request is in flight, a code id whose family is one-time, or has no refresh token, has at most one access token |
| PileUp.AccessTokensPileUp | pkg/oauth/grants.go:194-247 | why one-time: an interleaving of two uses of one reusable refresh token ends with no request in flight and two stored access tokens of one code |
| ConcurrencyTheorems.UnsettledTokensHaveOwners | pkg/oauth/grants.go:211-220 | in any state, an access token of such a family that is not the settled one belongs to a request still in the middle of a refresh, which will settle or delete it |
| ConcurrencyAgreement.ConsumedOnce | pkg/store/memory/memory.go:516-528 | the atomic consume succeeds at most once per code in any interleaving |
| ConcurrencyAgreement.AtMostOneExchange | pkg/oauth/grants.go:14-89 | each authorization code yields at most one successful exchange in any interleaving |
| ConcurrencyReplay.RevocationIsFinal | pkg/oauth/token.go:186-193 | replays are final in every interleaving: if no other request still carries the grant when the revocation deletes the refresh tokens, no token of the code is stored when it is through, or ever after |
| ReplayRace.RevocationComesTooEarly | pkg/oauth/grants.go:71-83 | why that condition: of two requests that present one code the late one can be through with its revocation before the other mints, and then both tokens of the code stay |
| ConcurrencyReplay.LateRequestsRevoke | pkg/oauth/grants.go:39-45 | in every interleaving a request that finds its code used, by the lookup or by the atomic consume, deletes the refresh tokens and then the access tokens of the code with its next store calls |
| ConcurrencyAgreement.WinnerWasEntitled | pkg/oauth/grants.go:42-76 | injective agreement: a successful exchange has one earlier event that issued the code and one that began the winning request, which brought the value of this code, its client, its redirection URI and the verifier that its challenge was made of (S256 or plain), and looked before it expired |
| ConcurrencyAgreement.IssuedOnce | pkg/oauth/authorize.go:212-241 | no two events issue a code with the same id |
| ConcurrencyAgreement.AccessTokensTraceToTheCode | pkg/oauth/token.go:126-150 | an access token that carries a code id traces to an earlier issued, consumed code with the same client and user and a superset of its scopes |
| ConcurrencyAgreement.RefreshTokensTraceToTheCode | pkg/oauth/token.go:154-174 | a refresh token that carries a code id traces to an earlier issued code with the same client, user and scopes |
| ConcurrencyAgreement.FamiliesNeverChange | pkg/oauth/grants.go:211-247 | along touches and rotations client, user, scopes, code, usage, expiration policy and lifetime stay; an absolute expiration stays first issue time plus lifetime, a sliding one is last use plus lifetime |
| ConcurrencyAgreement.AccessStaysWithinTheGrant | pkg/oauth/grants.go:169-184 | access tokens of a family never have a scope that its refresh tokens do not have, whichever is looked at first |
| ConcurrencyTheorems.ReachableIsSound | pkg/store/memory/memory.go:435-473 | the invariant behind all of these holds after any sequence of atomic store calls, deletions and management changes |
| ConcurrencyRotations.RotatingOutStep | pkg/oauth/grants.go:211-220 | the step keeps the invariant: deleting the old one-time token hands the one right of its family to this request and settles its access token |
| ConcurrencyRotations.RotatingInStep | pkg/oauth/grants.go:221-238 | the step keeps the invariant: storing the rotated token hands the right back to a stored row |
| ConcurrencyRotations.TouchingStep | pkg/oauth/grants.go:240-247 | the step keeps the invariant although it may write back a stale copy |
| ConcurrencyWrites.ConsumingStep | pkg/oauth/grants.go:71-82 | the step keeps the invariant: a code has one consumer, whose presented values passed the checks |
| ConcurrencyWrites.MintingAccessStep | pkg/oauth/token.go:102-150 | the step keeps the invariant: the first access token starts a family with the terms of the code |
| Interleaving.ExchangeAlone | pkg/oauth/grants.go:28-89 | the code exchange taken apart into store calls, run without interruption, does what ExchangeCode says |
| Interleaving.RefreshAlone | pkg/oauth/grants.go:154-249 | the refresh taken apart into store calls, run without interruption, does what Refresh says |
| Runs.StepKeepsGood | pkg/oauth/grants.go:14-249 | every request of every kind keeps the global invariant, and the contents evolve soundly: new tokens come from live grants, consumed codes stay consumed, stamps and user ids never return |
| Runs.ReachableIsGood | pkg/oauth/grants.go:14-249 | the global invariant holds in every reachable state: this is the sound state that the answers of the requests start from |
| RunTheorems.TokensNameEnabledOwners | pkg/account/account.go:252-285 | in every reachable state each token names an existing enabled client and, if it has a user, an existing enabled user |
| RunTheorems.StoreStaysIndexed | pkg/store/memory/memory.go:165-186 | in every reachable state keys match ids, and hashes, client_ids, usernames and emails are unique |
| RunTheorems.LookupsAreUnambiguous | pkg/store/memory/memory.go:145-173 | in every reachable state a scan by hash, client_id, username or email has one right answer |
| RunTheorems.ReplayIsFinal | pkg/oauth/grants.go:39-45 | after the owning client presents a consumed code, no token carries that code id in this or any later state, cleanup included |
| RunTheorems.OnlyTheLinkedAccessToken | pkg/oauth/grants.go:194-247 | while a refresh token is stored, the only access token of its family that can be stored is the one it links to, and it is the only refresh token |
| RunTheorems.OneAccessTokenPerFamily | pkg/oauth/grants.go:194-247 | one at a time, a family and a code id have at most one stored access token, for both usages |
| RunTheorems.RevocationEndsTheFamily | pkg/oauth/revoke.go:67-84 | revoking a refresh token removes exactly it and its access token, whatever the hint, and leaves no token of the family |
| RunTheorems.SessionsEndForGood | pkg/ui/ui.go:227-245 | after a password is set, the account is disabled, its email changes or it is removed, no earlier session is ever accepted again |
| RunTheorems.StampFollowsTheChange | pkg/account/account.go:236-242 | a changed account gets a new stamp exactly when it was disabled or its normalized email changed |
| RunTheorems.RespelledEmailKeepsSessions | pkg/account/account.go:239-242 | an email change in letter case only keeps sessions: where the claim that any email change ends sessions is false |
| RunTheorems.CaseChangeKeepsASession | pkg/account/account.go:236-242 | for instance: ann@x.io becomes ANN@x.io, and a session from before goes on |
| RunTheorems.OneUserTokenPerPurpose | pkg/account/account.go:386-402 | at most one stored token per user and purpose in every reachable state |
| RunTheorems.OnlyTheNewestUserTokenWorks | pkg/account/account.go:404-426 | once a newer token for the same user and purpose was stored, the older value is never found again |
| RunTheorems.UserTokensWorkOnce | pkg/account/account.go:454-520 | an activation or reset token is accepted at most once in a run |
| Lockout.GuessesAreBounded | pkg/account/account.go:319-366 | with limit n and lockout l, and no sign-in, password change or unlock, at most n * (span / l + 1) wrong passwords of one user are evaluated within a span, by username or email, by form or grant |
| Lockout.StoredCountStaysBelowTheLimit | pkg/account/account.go:337-349 | the stored failure count is below the limit in every reachable state |
| Lockout.StepCounters | pkg/account/account.go:333-365 | only failed evaluations and clearing requests change the counters of a user, in all requests of the server |
| Invariants.RevocationIsComplete | pkg/account/account.go:278-285 | a revocation by user, client or code leaves no matching token and only deletes |
| Minting.PairIsTheFamily | pkg/oauth/grants.go:194-199 | a stored refresh token and the access token it links to are all there is of their family |
| Minting.RefreshedKeepsGood | pkg/oauth/grants.go:194-247 | replacing the pair by its successors keeps the global invariant |
| Minting.ConsumeKeepsGood | pkg/store/memory/memory.go:516-528 | consuming keeps the invariant and makes the code ready for one issue of tokens |
| Requests.CountStaysBounded | pkg/account/account.go:337-361 | failed and successful sign-ins keep the failure count within the limit |
| Requests.RefreshRequestKept | pkg/oauth/grants.go:154-249 | a refresh request, successful or not, keeps the invariant and continues the family of the presented token |
| Management.SaveUserKept | pkg/account/account.go:220-256 | saving a user keeps referential safety: disabling revokes first |
| Management.RemoveClientKept | pkg/api/clients.go:212-223 | deleting a client leaves no token that names it |
| TokenAnswers.ExchangeSucceedsExactly | pkg/oauth/grants.go:28-89 | from a sound state with fresh draws, an exchange succeeds exactly for the value of an unused code of this client, in time, with its redirection URI and proof key, whose owner may act: S256 compares the hash of the verifier, plain or no method the verifier itself, no other method passes |
| TokenAnswers.ExchangeAnswers | pkg/oauth/grants.go:28-89 | what each exchange of a stored code leaves: a replay takes exactly the tokens of the code, a refused request changes nothing, an inactive owner uses the code up, and success stores exactly one access token, and a refresh token if allowed, with the terms of the code |
| TokenAnswers.UnknownCodesAreRefused | pkg/oauth/grants.go:28-31 | a value that is not that of a stored code is invalid_grant and changes nothing |
| TokenAnswers.CodeGrantReadsItsForm | pkg/oauth/grants.go:15-26 | which parameters the code grant reads, and that missing or repeated ones are refused |
| TokenAnswers.RefreshAnswers | pkg/oauth/grants.go:154-249 | a refresh succeeds exactly for a usable token, a scope within the grant and an active owner; the access token it stores and reports has exactly the scopes asked for, all of the grant if none was; the pair is replaced and only a sliding expiration starts again; refusals change nothing |
| TokenAnswers.UnknownTokensAreRefused | pkg/oauth/grants.go:154-157 | a value that is not that of a stored refresh token is invalid_grant and changes nothing |
| TokenAnswers.RefreshGrantReadsItsForm | pkg/oauth/grants.go:145-152 | which parameters the refresh grant reads, and that missing or repeated ones are refused |
| ConcurrencyAgreement.RefreshMintsWhatWasAsked | pkg/oauth/grants.go:169-209 | in any interleaving, what a refresh mints has the scopes that its request asked for, of a token of its client that had not expired when it was looked up |
| TokenAnswers.PasswordGrantAnswers | pkg/oauth/grants.go:93-124 | tokens of exactly the user that signed in, with the default scopes or the ones asked for; failures are invalid_grant and keep what the sign-in stored |
| TokenAnswers.PasswordGrantNeedsItsForm | pkg/oauth/grants.go:94-105 | missing or repeated parameters are refused before the password is looked at |
| TokenAnswers.ClientCredentialsAnswers | pkg/oauth/grants.go:128-141 | one access token of nobody and no refresh token, for confidential clients and allowed scopes only |
| TokenAnswers.EndpointAnswers | pkg/oauth/token.go:60-89 | which grant serves a form, and the error of each form that none does |
| TokenAnswers.IssueAnswers | pkg/oauth/token.go:102-174 | from a sound state issuing never fails: exactly the new rows are stored, with the lifetimes of the client or the defaults, and the response tells them |
| AuthorizeAnswers.NothingWithoutConsent | pkg/oauth/authorize.go:64-111 | when the endpoint issues anything or changes the store at all, the form fits a stored enabled client, the session is current, and the client needs no consent or the user allowed it; then exactly the grant was made |
| AuthorizeAnswers.FittingRequestsAreAnswered | pkg/oauth/authorize.go:64-111 | a fitting request without a current session is sent to the login, an undecided one of a client with consent asks for it, a denied one is refused, and every other one is granted |
| AuthorizeAnswers.OtherRequestsAreRefused | pkg/oauth/authorize.go:50-62 | requests that do not fit change nothing; a wrong client or redirection URI is told on a page, everything else by redirect |
| AuthorizeAnswers.GrantAnswers | pkg/oauth/authorize.go:212-263 | the stored code carries the client, user, scopes, redirection URI and proof key of the form and expires after the lifetime of the client; the implicit grant stores one access token and no refresh token |
| AuthorizeAnswers.RequestAnswers | pkg/oauth/authorize.go:146-209 | exactly which forms are requests of a client, and what is read from them |
| AuthorizeAnswers.RequestErrors | pkg/oauth/authorize.go:146-209 | which error each other form gets |
| AuthorizeAnswers.TargetAnswers | pkg/oauth/authorize.go:113-144 | a named client is accepted exactly with a registered URI, or without one if it has only one |
| AuthorizeAnswers.UnknownTargetsAreRefused | pkg/oauth/authorize.go:113-121 | unknown and disabled clients are invalid_client |
| AuthorizeAnswers.ChallengeAnswers | pkg/oauth/authorize.go:182-207 | exactly which proof keys are accepted: public clients and those that ask for it must send one, with a supported method |
| RevocationAnswers.RevocationAnswersInEveryRun | pkg/oauth/revoke.go:51-96 | in every reachable state and for any hint, a client removes exactly its own access token, or its refresh token with the linked access token; tokens of others and unknown values change nothing |
| RevocationAnswers.RevokedValuesAreRefused | pkg/oauth/revoke.go:51-96 | after a client revoked its token of either kind, bearer validation, introspection and refresh refuse the value |
| RevocationAnswers.IntrospectionAnswers | pkg/oauth/revoke.go:154-238 | a stored token of either kind is reported active exactly when it has not expired, its client is enabled and its user, if any, may act, with the scopes, names and times of the rows; everything else is inactive, for any hint |
| RevocationAnswers.ValidationAnswers | pkg/oauth/bearer.go:31-61 | bearer validation accepts a stored access token exactly under the same conditions and hands out this token, its client and its user |
| RevocationAnswers.OthersAreInvalid | pkg/oauth/bearer.go:32-35 | any other value is invalid_token |
| AccountAnswers.SignInSucceedsExactly | pkg/account/account.go:319-366 | a sign-in succeeds exactly if the named user exists, is not locked, has a password hash that the password verifies, is enabled, and was activated where required |
| AccountAnswers.SignInAnswers | pkg/account/account.go:319-366 | the outcome of every sign-in as a stored user and exactly what it stores: the status is told only to who knows the password, a failure is counted or locks the account, a success clears the counters |
| AccountAnswers.NamedIsFound | pkg/account/account.go:125-134 | the login names the user of that username, else the one of that address if it contains an @ |
| AccountAnswers.NobodyIsFound | pkg/account/account.go:125-134 | and nobody otherwise |
| AccountAnswers.UnknownLoginsAreRefused | pkg/account/account.go:319-326 | a login of nobody is invalid credentials and changes nothing |
| AccountAnswers.NewSessionsAreCurrent | pkg/ui/ui.go:227-245 | the session of a sign-in is accepted exactly until its time is over |
| AccountAnswers.SetPasswordAnswers | pkg/account/account.go:288-313 | setting a password stores the new hash and stamp, unlocks the account, and removes exactly the tokens of the user |
| AccountAnswers.NewPasswordSignsIn | pkg/account/account.go:296-366 | afterwards, by any of the names of the user, exactly the passwords that the new hash verifies sign in, if the user may act |
| AccountAnswers.ResetPasswordAnswers | pkg/account/account.go:501-520 | an unexpired reset token of an enabled user replaces the password, verifies the address and ends all reset tokens of the user; anything else changes nothing |
| AccountAnswers.ActivateAnswers | pkg/account/account.go:454-468 | an unexpired activation token verifies the address of its user and is used up; an expired one changes nothing |
| AccountAnswers.UnknownTokensChangeNothing | pkg/account/account.go:404-426 | values of no such token are refused |
| AccountAnswers.TokenIssueAnswers | pkg/account/account.go:386-402 | a new one-time token takes the place of exactly those of the same user and purpose |
| AccountAnswers.MailedTokensAnswers | pkg/account/account.go:439-488 | activation is mailed again exactly to enabled users who were not activated, a reset token exactly to enabled users |
| AccountAnswers.UnknownAddressesGetNothing | pkg/account/account.go:439-488 | an unknown address gets the same answer, and nothing is stored |
| AccountAnswers.CreateAccountAnswers | pkg/account/account.go:160-200 | a registration is refused for its profile, its password or taken names, and else stores exactly the new user, and an activation token when one is asked for and needed |
| AccountAnswers.SaveUserAnswers | pkg/account/account.go:220-256 | an update keeps credentials and creation time, renews the stamp exactly when it must, and removes the tokens of the user exactly when it disables the account |
| AccountAnswers.RemoveUserAnswers | pkg/account/account.go:259-276 | exactly the user, its tokens and its one-time tokens are gone |
| AdminAnswers.RegistrationMeans | pkg/identity/client.go:109-148 | exactly which client registrations are accepted |
| AdminAnswers.RequestIsApplied | pkg/api/clients.go:101-126 | the fields of the request are taken over, with a default for each that was left open |
| AdminAnswers.AddClientAnswers | pkg/api/clients.go:150-177 | an acceptable registration under a free client_id stores exactly this client; only confidential clients get a secret |
| AdminAnswers.ChangeClientAnswers | pkg/api/clients.go:179-210 | an acceptable change stores exactly this client, drops the secret of a public one, and removes the tokens of the client exactly when it disables it |
| AdminAnswers.RemoveClientAnswers | pkg/api/clients.go:212-223 | exactly the client and its tokens are gone |
| AdminAnswers.RenewSecretAnswers | pkg/api/clients.go:225-248 | only the secret of a confidential client changes |
| AdminAnswers.ChangeUserAnswers | pkg/api/users.go:123-177 | exactly which fields of a user an administrator changes, by an update and by an unlock, and which error each refused one gets |
| AdminAnswers.RevokeUserAnswers | pkg/api/users.go:213-231 | exactly the tokens of the user are gone |
| AdminAnswers.RemoveRefreshTokenAnswers | pkg/api/tokens.go:156-174 | exactly the refresh token and the access token it links to are gone |
| AdminAnswers.RemoveTokensAnswers | pkg/store/memory/memory.go:299-313 | an empty filter is refused; else exactly the rows go that agree with every field that is set |
| Verdicts.CodeVerdictMeans | pkg/oauth/grants.go:35-69 | the ordered checks on a code accept exactly an unused code that the request is entitled to, and report a replay exactly when its client presents a used one |
| Verdicts.ProofKeyMeans | pkg/security/pkce.go:41-53 | S256 compares the hash of a well-formed verifier, plain or no method the verifier itself, nothing else passes |
| Verdicts.RefreshVerdictMeans | pkg/oauth/grants.go:161-183 | the checks on a refresh token accept exactly the token of this client in time, and scopes within the grant; what is granted is what was asked for |
| Verdicts.ScopesResolve | pkg/oauth/params.go:57-69 | no scope means the defaults; else everything asked for has to be well-formed and allowed |
| Verdicts.ScopeTokenMeans | pkg/identity/scope.go:29-41 | the characters of a scope token |
| Verdicts.VerifierMeans | pkg/security/pkce.go:16-27 | the alphabet and length of a verifier |
| Verdicts.ParamMeans | pkg/oauth/params.go:15-36 | a parameter has its one value, none reads as empty, and a repeated one is an error |
| Verdicts.MayActMeans | pkg/account/account.go:369-377 | who may sign in and get tokens, and which error others get |
| Verdicts.SessionMeans | pkg/ui/ui.go:227-245 | a session is accepted exactly in its time, with the current stamp of a user who may act |
| Introspection.HintsOnlyMatterForBothKinds | pkg/oauth/revoke.go:154-199 | the hint changes what is found exactly when the value names both kinds of token |
| Introspection.HintsDoNotMatter | pkg/oauth/revoke.go:51-96 | in reachable states neither revocation nor introspection depends on token_type_hint |
| Introspection.BearerValidationAgrees | pkg/oauth/bearer.go:31-61 | bearer validation succeeds exactly when introspection reports an active Bearer token, with the same details |
| Introspection.EnforcementAgreesInEveryRun | pkg/oauth/bearer.go:31-61 | in every reachable state, for every value and hint, bearer validation succeeds exactly when introspection reports an active Bearer token |
| Introspection.RefreshesWereActiveInEveryRun | pkg/oauth/grants.go:154-192 | in every run a successful refresh presents a token that introspection would have called active just before |
| Introspection.BearerValidationNeedsOneKind | pkg/oauth/revoke.go:154-238 | for a value of both kinds the two would disagree under the refresh hint |
| Introspection.RefreshedTokensWereActive | pkg/oauth/grants.go:154-192 | a refresh token that is refreshed successfully was reported active just before |
| Cleanup.RemovesExactlyTheExpired | pkg/store/store.go:143-157 | cleanup removes exactly the rows expired by then, in all four tables |
| Cleanup.CleanupKeepsValidation | pkg/oauth/bearer.go:31-61 | bearer validation at any later time answers as before the cleanup |
| Cleanup.CleanupKeepsIntrospection | pkg/oauth/revoke.go:154-238 | introspection at any later time answers as before the cleanup |
| Cleanup.CleanupKeepsRefresh | pkg/oauth/grants.go:144-249 | a refresh at any later time has the same response or error as before the cleanup |
| Cleanup.CleanupKeepsExchange | pkg/oauth/grants.go:28-89 | a code exchange at any later time has the same response or error as before the cleanup |
| Cleanup.CleanupIsUnnoticed | pkg/store/store.go:143-157 | in every reachable state bearer validation, introspection, refresh and code exchange answer alike with and without the cleanup, at its time or later |
| Cleanup.CleanupEndsReplayDetection | pkg/oauth/grants.go:39-45 | presenting a consumed code after its cleanup is still an error but revokes nothing any more |
| Cleanup.TruncatedClocksAgree | pkg/oauth/server.go:159-161 | rows that the cleanup removes are expired for every later request clock exactly when rows expire at whole milliseconds |
| WholeTimes.RunsStayWhole | pkg/oauth/server.go:159-161 | whole lifetimes and truncated request clocks give whole expiry times in every state of every run |
| WholeTimes.CleanupByEitherClock | pkg/server/server.go:249-252 | on whole rows a cleanup by the nanosecond clock removes what one by the truncated clock would |
| WholeTimes.CleanupIsUnnoticedByTruncatedClocks | pkg/server/server.go:249-252 | in every run with whole lifetimes a later request cannot tell the difference, although its truncated clock may show a time before the cleanup |
| SqlLike.SearchPatternIsSubstringTest | store/sql/store.go:326-334 | x LIKE % escapeLike(s) % ESCAPE ! holds exactly when s occurs in x |
| SqlLike.UnescapedPatternIsWrong | store/sql/store.go:327-334 | without escaping the pattern accepts other values |
| SqlLike.UserSearchWhere | store/sql/users.go:46-55 | the clause and arguments of ListUsers accept exactly the users that the memory store lists |
| Rebind.RebindQuery | store/sql/store.go:93-119 | the loop over bytes writes the pieces: the i-th ? outside quotes becomes $i, all else is unchanged |
| Rebind.NothingToBind | store/sql/store.go:94-119 | a query without placeholders is unchanged |
| Rebind.RebindIsInvertible | store/sql/store.go:93-119 | mapping the numbers back recovers the query when it has no unquoted $ |
| Rebind.PostgresReadsPlaceholders | store/sql/store.go:93-119 | a server that reads all digits sees the placeholders exactly when none is directly followed by a digit |
| TokenWhere.TimeRoundTrip | store/sql/store.go:274-287 | the stored form of a time leads back to it exactly when it is not the epoch |
| TokenWhere.StoredOrderAgrees | store/sql/store.go:274-280 | comparing stored times agrees with comparing the times exactly under the condition on the zero time |
| TokenWhere.TokenWhereClause | store/sql/tokens.go:21-44 | conditions and arguments stay aligned and the clause accepts a row exactly when the filter does |
| TokenWhere.StoredFilterAgrees | pkg/store/memory/memory.go:299-313 | on stored rows of both kinds of token the clause decides what matchToken decides on the tokens |
| Rebind.DigitsRunTogether | store/sql/store.go:93-119 | for instance: the query ?1 becomes $11, which reads as one parameter |
| Scope.ParseScope | pkg/identity/scope.go:9-21 | the loop returns the first occurrences of the fields, in order |
| Scope.KeepsExactlyFirstOccurrences | pkg/identity/scope.go:9-21 | parsing keeps exactly the first occurrences |
| Scope.RoundTripExactly | pkg/identity/scope.go:9-26 | printing then parsing gives a list back exactly when it has no duplicates and only non-empty entries without spaces |
| Scope.ScopeRoundTrip | pkg/identity/scope.go:9-26 | every duplicate-free list of valid scope tokens survives printing and parsing |
| Scope.ParseFormatParse | pkg/identity/scope.go:9-26 | parse, print, parse equals parse for every string |
| Scope.ScopesEqual | pkg/identity/scope.go:53-67 | the loops decide equal length and containment of the second list in the first |
| Scope.ScopesEqualDecidesSetEquality | pkg/identity/scope.go:53-67 | on parsed lists this decides equality of the sets |
| Scope.ScopesEqualNeedsParsedLists | pkg/identity/scope.go:53-67 | with duplicates the answer depends on the order of the arguments |
| Paging.Page | pkg/store/memory/memory.go:98-118 | the page is a slice of the sorted items, with the total count |
| Paging.SortedIsAscending | pkg/store/memory/memory.go:100-107 | the sorted items are a permutation, strictly ascending by creation time and id |
| Paging.PageIgnoresCollectionOrder | pkg/store/memory/memory.go:97-118 | the order in which a map was walked does not show |
| Paging.PagesCoverEverything | pkg/store/store.go:39-50 | pages at offsets 0, L, 2L, ... give every item exactly once when L is the limit in effect |
| Paging.PagesByRequestedLimit | pkg/store/store.go:39-50 | stepping by the requested limit covers the list exactly when it is at most 500 or the list fits the first page |
| Paging.LastItemIsNeverShown | pkg/store/store.go:39-50 | for instance: of 501 items asked for by 501, the last one is never shown |
| MemoryStore.Store.GetClientById | pkg/store/memory/memory.go:135-143 | the client with this id, or NotFound |
| MemoryStore.Store.GetClientByClientId | pkg/store/memory/memory.go:145-154 | the scan finds the client with this client_id, or NotFound |
| MemoryStore.Store.CreateClient | pkg/store/memory/memory.go:165-173 | Duplicate exactly when the id or client_id is taken, else the row is added and the indexes hold |
| MemoryStore.Store.UpdateClient | pkg/store/memory/memory.go:175-186 | NotFound, Duplicate, or the row is replaced and the indexes hold |
| MemoryStore.Store.DeleteClient | pkg/store/memory/memory.go:188-196 | NotFound, or exactly this row is gone |
| MemoryStore.Store.GetUserById | pkg/store/memory/memory.go:218-226 | the user with this id, or NotFound |
| MemoryStore.Store.GetUserByNormalizedUsername | pkg/store/memory/memory.go:228-237 | the scan finds the user, or NotFound |
| MemoryStore.Store.GetUserByNormalizedEmail | pkg/store/memory/memory.go:239-248 | the scan finds the user, or NotFound |
| MemoryStore.Store.CreateUser | pkg/store/memory/memory.go:259-267 | Duplicate exactly when id, username or email is taken, else the row is added |
| MemoryStore.Store.UpdateUser | pkg/store/memory/memory.go:269-280 | NotFound, Duplicate, or the row is replaced |
| MemoryStore.Store.DeleteUser | pkg/store/memory/memory.go:282-290 | NotFound, or exactly this row is gone |
| MemoryStore.Store.GetAccessTokenById | pkg/store/memory/memory.go:339-347 | the token with this id, or NotFound |
| MemoryStore.Store.GetAccessTokenByHash | pkg/store/memory/memory.go:349-358 | the scan finds the token with this hash, or NotFound |
| MemoryStore.Store.CreateAccessToken | pkg/store/memory/memory.go:360-373 | Duplicate exactly when id or hash is taken, else the row is added |
| MemoryStore.Store.DeleteAccessToken | pkg/store/memory/memory.go:375-383 | NotFound, or exactly this row is gone |
| MemoryStore.Store.DeleteAccessTokens | pkg/store/memory/memory.go:385-396 | exactly the matching rows are gone, and the count is the drop in table size |
| MemoryStore.Store.ListAccessTokens | pkg/store/memory/memory.go:323-337 | the page of the matching tokens, each once, in creation order, and their number |
| MemoryStore.Store.GetRefreshTokenById | pkg/store/memory/memory.go:414-422 | the token with this id, or NotFound |
| MemoryStore.Store.GetRefreshTokenByHash | pkg/store/memory/memory.go:424-433 | the scan finds the token with this hash, or NotFound |
| MemoryStore.Store.CreateRefreshToken | pkg/store/memory/memory.go:435-448 | Duplicate exactly when id or hash is taken, else the row is added |
| MemoryStore.Store.UpdateRefreshToken | pkg/store/memory/memory.go:450-463 | NotFound, Duplicate, or the row is replaced |
| MemoryStore.Store.DeleteRefreshToken | pkg/store/memory/memory.go:465-473 | NotFound, or exactly this row is gone |
| MemoryStore.Store.DeleteRefreshTokens | pkg/store/memory/memory.go:475-486 | exactly the matching rows are gone, and the count is the drop in table size |
| MemoryStore.Store.GetAuthorizationCodeByHash | pkg/store/memory/memory.go:490-499 | the scan finds the code with this hash, or NotFound |
| MemoryStore.Store.CreateAuthorizationCode | pkg/store/memory/memory.go:501-514 | Duplicate exactly when id or hash is taken, else the row is added |
| MemoryStore.Store.ConsumeAuthorizationCode | pkg/store/memory/memory.go:516-528 | NotFound, Conflict when already consumed, else exactly consumedAt of this row is set |
| MemoryStore.Store.DeleteExpiredAuthorizationCodes | pkg/store/memory/memory.go:540-551 | exactly the expired codes are gone, and the count is the drop |
| MemoryStore.Store.GetUserTokenByHash | pkg/store/memory/memory.go:555-564 | the scan finds the token with this hash and purpose, or NotFound |
| MemoryStore.Store.CreateUserToken | pkg/store/memory/memory.go:566-579 | Duplicate exactly when id or hash is taken, else the row is added |
| MemoryStore.Store.DeleteUserToken | pkg/store/memory/memory.go:581-589 | NotFound, or exactly this row is gone |
| MemoryStore.Store.DeleteUserTokens | pkg/store/memory/memory.go:591-602 | exactly the tokens of this user and purpose are gone, and the count is the drop |
| MemoryStore.Store.DeleteExpiredUserTokens | pkg/store/memory/memory.go:604-615 | exactly the expired tokens are gone, and the count is the drop |
| Database.EmptyIdDefeatsUniqueness | pkg/store/memory/memory.go:156-173 | why ids must not be empty: a row with an empty id is skipped by the uniqueness test |
| MemoryStore.WalkShowsEveryTokenOnce | pkg/store/memory/memory.go:323-337 | calls at offsets 0, L, 2L, ... on a fixed store show every matching token exactly once, in creation order, however each call collected its rows |
| MemoryStore.CollectionsAgree | pkg/store/memory/memory.go:323-337 | two collections of the matching tokens have equal multisets and distinct keys |
| Aliasing.RowObject.Clone | pkg/store/memory/memory.go:39-95 | the six clone functions: a copy shows the same value and shares no slice or pointer with the row |
| Aliasing.Table.Get | pkg/store/memory/memory.go:135-143 | what is handed out by id is new memory that shows the stored value |
| Aliasing.Table.Find | pkg/store/memory/memory.go:145-154 | what a scan hands out is new memory that shows the stored value |
| Aliasing.Table.List | pkg/store/memory/memory.go:97-133 | the rows of a page are new memory, and show the values of the matching stored rows in their order |
| Aliasing.Table.Create | pkg/store/memory/memory.go:156-173 | the table keeps a copy in memory of its own, or answers Duplicate |
| Aliasing.Table.Update | pkg/store/memory/memory.go:175-186 | NotFound, Duplicate, or the row is replaced by a copy in memory of its own |
| Aliasing.Table.SetPointer | pkg/store/memory/memory.go:516-528 | redirecting a pointer of a stored row changes this one row |
| Aliasing.ChangesToAResultStayOutside | pkg/store/memory/memory.go:39-95 | no change to a returned row, its fields, slices and pointers, changes the store |
| Aliasing.ChangesToAPageStayOutside | pkg/store/memory/memory.go:97-133 | nor does a change to all the rows of a page |
| Aliasing.ChangesToAnArgumentStayOutside | pkg/store/memory/memory.go:156-173 | nor a change to an argument after the store took it |
| Aliasing.EditAndSave | pkg/oauth/grants.go:240-246 | look up, change the copy in place, save: the store changes with the save and not before |
| Copies.OperationsAgree | pkg/store/memory/memory.go:39-95 | for every kind of row: creating and updating in memory does to the values what a table of plain values with the same unique fields does |
| Copies.ClientsAreTheStores | pkg/store/memory/memory.go:55-64 | rows with four slices: creating and updating them does to the values what the store does |
| Copies.UsersAreTheStores | pkg/store/memory/memory.go:66-71 | rows with two time pointers: creating and updating them does to the values what the store does |
| Copies.AccessTokensAreTheStores | pkg/store/memory/memory.go:73-77 | rows with one slice: creating them does to the values what the store does |
| Copies.RefreshTokensAreTheStores | pkg/store/memory/memory.go:79-83 | rows with one slice: creating and updating them does to the values what the store does |
| Copies.CodesAreTheStores | pkg/store/memory/memory.go:85-90 | rows with a slice and a time pointer: creating them does to the values what the store does |
| Copies.UserTokensAreTheStores | pkg/store/memory/memory.go:92-95 | rows without slices and pointers: creating them does to the values what the store does |
| Copies.ClientLookupIsTheStores | pkg/store/memory/memory.go:145-154 | the client that a scan finds in memory is the one that the store finds |
| Copies.UsernameLookupIsTheStores | pkg/store/memory/memory.go:228-237 | the user that a scan finds in memory is the one that the store finds |
| Copies.EmailLookupIsTheStores | pkg/store/memory/memory.go:239-248 | the user that a scan finds in memory is the one that the store finds |
| Copies.AccessLookupIsTheStores | pkg/store/memory/memory.go:349-358 | the token that a scan finds in memory is the one that the store finds |
| Copies.RefreshLookupIsTheStores | pkg/store/memory/memory.go:424-433 | the token that a scan finds in memory is the one that the store finds |
| Copies.CodeLookupIsTheStores | pkg/store/memory/memory.go:490-499 | the code that a scan finds in memory is the one that the store finds |
| Copies.UserTokenLookupIsTheStores | pkg/store/memory/memory.go:555-564 | the token that a scan finds in memory is the one that the store finds |
| Copies.ReuseInPlace | pkg/oauth/grants.go:240-246 | touching a looked-up refresh token in place and saving it stores the touched token, as on values |
| Copies.RecordFailureInPlace | pkg/account/account.go:337-350 | counting a failure in a looked-up user in place and saving it stores what AfterFailure says, as on values |
| Copies.ConsumeInPlace | pkg/store/memory/memory.go:516-528 | consuming a code in place sets consumedAt of this one row, as on values |
| AccountRules.NewEnv | pkg/account/account.go:74-87 | unset durations get positive defaults, set ones and all other settings are kept |
| Accounts.Service.Find | pkg/account/account.go:125-134 | by username, or by email when the login has an @ |
| Accounts.Service.EnsureUnique | pkg/account/account.go:203-217 | the two lookups find a conflict exactly when the store would refuse the row |
| Accounts.Service.RecordFailure | pkg/account/account.go:337-350 | a failure is counted, and at the limit the account is locked and the count restarts |
| Accounts.Service.SignIn | pkg/account/account.go:319-366 | the outcome and the new contents of a sign-in, in the order of its checks |
| Accounts.Service.CreateUser | pkg/account/account.go:160-200 | the outcome and the new contents of a registration |
| Accounts.Service.UpdateUser | pkg/account/account.go:220-256 | the saved record, its stamp, and the revocation when it gets disabled |
| Accounts.Service.DeleteUser | pkg/account/account.go:259-276 | the user, its tokens and its one-time tokens are gone |
| Accounts.Service.ChangePassword | pkg/account/account.go:296-313 | password, stamp and counters are replaced and all tokens of the user revoked |
| Accounts.Service.CreateToken | pkg/account/account.go:386-402 | older tokens of the purpose are deleted before the new one is stored |
| Accounts.Service.LookupUserToken | pkg/account/account.go:404-426 | the stored unexpired token with this value whose user exists |
| Accounts.Service.Activate | pkg/account/account.go:454-468 | the email is verified and the token used up |
| Accounts.Service.ResetPassword | pkg/account/account.go:501-520 | the password is set, the email verified, and the reset tokens used up |
| Accounts.Service.ResendActivation | pkg/account/account.go:439-451 | a token is issued only for an enabled account that is not activated |
| Accounts.Service.RequestPasswordReset | pkg/account/account.go:472-488 | a token is issued only for an enabled account |
| OAuth.Server.Issue | pkg/oauth/token.go:102-124 | the contents and the response after tokens are issued, with or without a refresh token |
| OAuth.Server.RevokeGrant | pkg/oauth/token.go:186-193 | exactly the tokens with the code id are gone |
| OAuth.Server.LookupOwner | pkg/oauth/token.go:196-208 | the owner exists and may sign in |
| OAuth.Server.ExchangeAuthorizationCode | pkg/oauth/grants.go:14-89 | the outcome and the new contents of a code exchange, replay included |
| OAuth.Server.UsePassword | pkg/oauth/grants.go:93-124 | the outcome and the new contents of the password grant |
| OAuth.Server.UseClientCredentials | pkg/oauth/grants.go:128-141 | the outcome and the new contents of the client credentials grant |
| OAuth.Server.UseRefresh | pkg/oauth/grants.go:144-249 | the outcome and the new contents of a refresh |
| OAuth.Server.HandleToken | pkg/oauth/token.go:55-91 | the client, then the grant type read from the form, and which grant serves the request |
| OAuth.Server.Token | pkg/oauth/token.go:70-91 | which grant serves a grant type, and the errors before any does |
| OAuth.Server.ReadClientAndRedirect | pkg/oauth/authorize.go:113-144 | the client and the registered redirection URI, or the error that must not be redirected |
| OAuth.Server.ReadRequest | pkg/oauth/authorize.go:146-209 | the validated authorization request, or the error |
| OAuth.Server.HandleAuthorize | pkg/oauth/authorize.go:38-111 | the answer and the new contents for a browser with or without a session and consent |
| OAuth.Server.BrowserUser | pkg/ui/ui.go:227-245 | the user of a session whose stamp is current and who may sign in |
| OAuth.Server.RevokeToken | pkg/oauth/revoke.go:51-96 | the new contents after a revocation, in the order of the hint |
| OAuth.Server.IntrospectToken | pkg/oauth/revoke.go:154-238 | the introspection response |
| OAuth.Server.ValidateBearer | pkg/oauth/bearer.go:31-61 | the token with its client and user, or invalid_token |
| Admin.Api.Apply | pkg/api/clients.go:101-126 | the requested registration with defaults, and whether it is acceptable |
| Admin.Api.CreateClient | pkg/api/clients.go:150-177 | the outcome and the new contents |
| Admin.Api.UpdateClient | pkg/api/clients.go:179-210 | the saved registration, and the revocation when it gets disabled |
| Admin.Api.DeleteClient | pkg/api/clients.go:212-223 | the client and its tokens are gone |
| Admin.Api.RegenerateClientSecret | pkg/api/clients.go:225-248 | a new secret for a confidential client only |
| Admin.Api.UpdateUser | pkg/api/users.go:123-142 | a changed copy of the stored user is saved |
| Admin.Api.Unlock | pkg/api/users.go:164-177 | lockout and count are cleared |
| Admin.Api.RevokeUser | pkg/api/users.go:213-232 | exactly the tokens of the user are gone, and the response counts both kinds |
| Admin.Api.DeleteRefreshToken | pkg/api/tokens.go:156-174 | the refresh token and the access token it links to are gone |
| Admin.Api.DeleteTokens | pkg/api/tokens.go:119-131 | exactly the matching tokens are gone, counted; an empty filter is refused |
| Admin.Api.Cleanup | pkg/store/store.go:144-157 | the four deletes of the periodic cleanup |

## Left out

- HTTP, JSON, form decoding, headers, cookies, redirects and templates: requests come with parsed parameters, and a session is a user id, a stamp and an expiry.
- Cryptography: hashes are injective or parameters, and comparing a client secret is left to the caller, who passes the id of the client that authenticated.
- Dummy password hashes that only equalize timing.
- SQL execution, migrations and the Mongo store; only the functions that build SQL text are modelled.
- Rounding of `expires_in` to seconds in responses; the model keeps the duration.
- Names, descriptions and other fields that no rule reads.
- `ListClients`, `ListUsers`, `ListRefreshTokens` and `DeleteAuthorizationCode` of the memory store: the same loops as `ListAccessTokens` and the other deletes.
- `EnsureClient`, the provisioning of clients at startup.
- `VerifyPasswordResetToken`, which only calls the lookup that is modelled.
- Mail: the value of a one-time token is drawn and stored, sending it is not modelled.
- Custom token generators and extension grants.
- Crashes in the middle of a request, and store failures other than NotFound, Duplicate and Conflict.
- Store errors in places where the current row was just read (`SaveRow` of Accounts, the update of a reusable token in OAuth): shown unreachable when requests run one at a time; when they interleave, the failing branches are modelled.
- A nil slice and an empty one: the clone functions tell them apart, and so does Aliasing; on the values of Database both are the empty list.
- AccountRules.NewEnv: the defaults of the hasher, the mailer, the application name, the minimum password length, the logger and the clock are not modelled; those settings are parameters.
- OAuth.Server.HandleToken: comparing the client credentials is left to the caller, as for every request of a client.
- OAuth.Server.Token: takes the grant type that HandleToken reads.
- Introspection.BearerValidationAgrees: needs that the value does not name both kinds of token; EnforcementAgreesInEveryRun shows the same for every reachable state without that condition.
- ConcurrencyTheorems.AtMostOneAccessToken: says nothing about reusable refresh tokens, whose access tokens may pile up when refreshes of one token interleave (PileUp.AccessTokensPileUp); one at a time they do not (RunTheorems.OneAccessTokenPerFamily).
- RunTheorems.ReplayIsFinal: is for requests one at a time; ConcurrencyReplay.RevocationIsFinal and ReplayRace.RevocationComesTooEarly say what becomes of it when requests interleave.
- Lockout.GuessesAreBounded: is for requests one at a time; the source reads and saves the failure count in two store calls, so interleaved attempts may be counted once.
- RunTheorems.UserTokensWorkOnce: is for requests one at a time; the source looks a one-time token up and deletes it in two store calls.
