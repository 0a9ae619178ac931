# Verified model of mini-keycloak's state machines

mini-keycloak is an OpenID Connect server: realms, clients and users, browser
sessions, authorization codes, rotating refresh tokens, a resumable login flow,
a login throttle, realm import and a garbage collector, all over one SQL
database. This Dafny 4.11 project models what its requests do to that database
and proves what should hold over every run. `dafny verify dfyconfig.toml` checks
all of it.

## How the server is modelled

* **Rows and identifiers.** Each table is a map from primary key to row. Random
  identifiers and secrets come from a supply of numbers that never repeats. A
  stored hash is the value it was computed from, so hashing is injective. A
  session id and its primary key, a refresh row and its `jti`, a code and its
  row, a signing key and its `kid` are unique columns one to one and are kept as
  one number.
* **Time** is a count of microseconds, so that `int(timestamp())` is a real floor
  (`Prelude`). An atomic request reads the clock once. A lifetime of zero or null in
  a realm yields to the configured default, as `or` does.
* **A JWT** is a record of header, signer and claims. It decodes if the signer is
  the public part of the key that its `kid` names; `exp` and `iat` are compared
  with the unfloored clock by the library and with the floored one by
  `_refresh_matches` (section 4.1.4 of RFC 7519). Scopes are sequences of words.
* **Whole-system grain** (`Protocol`, `Server`). One request is one transaction.
  A refusal leaves the database as it was, with one exception that the code makes
  on purpose: the reuse of a refresh token is refused *and* its revocation is
  committed (section 4.14.2 of RFC 9700). `Server.Request` lists every request;
  a run is any sequence of them with a clock that does not go back. A cleanup is a
  sequence of batches, each its own request, so other requests come in between.
* **Imperative grain** (`Services`, `Cleanup`, `AdminManagement`, `LoginActions`,
  `FlowEngine`, `RequiredActions`, `RealmImportService`, `DocumentStructure`).
  The services are methods on a unit of work (`UnitOfWork.Session`) that holds
  the pending tables, the committed tables and the trail of states after each
  statement, or on the engine's and the importer's own objects. Each method is
  proved equal to a function of the specification.
* **Small-step grain** (`RefreshRace`, `LoginRace`). Refresh, revocation and code
  exchange interleave at their reads, the session-row lock, the compare-and-set, the
  sweep, both eligibility checks of an exchange and the commits; login requests
  interleave at reading and committing a versioned row.

## Structure

| files | content |
|---|---|
| Prelude, Tables, Throttle, Protocol | rows, foreign keys, and what each request does |
| Invariants, Steps, IdentitySteps, Retention, Removal, RealmRemoval | the invariant and its preservation, request by request |
| Server, Lifetimes, Finality, Completeness, RoundTrips, Persistence | runs: safety, single use, lifetimes, when a refresh must succeed, and that what is handed out is taken back, at once and at every later state |
| Replies, Effects | column by column: which reply each request gets, and the tables it leaves |
| Disabled, Idle | over runs: nobody is served for a disabled row, and an unused session ends on time |
| Observation, Invisibility | cleanup cannot be observed |
| ClientDeletion, DeletionVisibility, SettledOwners, SettledDeletions, StaleOwners | exactly when the deletion of a client can see a cleanup |
| UnitOfWork, Services, AdminManagement, Cleanup | the imperative services against the specification |
| RefreshRace, RefreshAlone | refresh, revocation and exchange, interleaved, and each undisturbed |
| FlowEngine, FlowOrder, RequiredActions, ResetCredentials, ResetScript, MailGate, LoginActions, LoginRace, ProofRuns, PasswordRuns, FlowCatalog, ActionTokens | login: the engine for arbitrary authenticators, the reset flow and the script it refines, the versioned row, mailed tokens |
| ThrottleBound | what the throttle counts, its bound over any span, and its digest input |
| RealmImport, RealmImportService | preflight and the two-phase write |
| DocumentStructure, DocumentNodes, DiagnosticPaths, JsonStrings, ClientDocument | JSON limits, diagnostic paths, the client document |

## Where the code is not what one might expect

* **Client deletion can see a cleanup.** `delete_client` re-homes a session to the
  client of any token of it that another client has, or else of any code, stale rows
  included: one matching row, with no order asked for. A cleanup removes such rows, so
  a live session may be deleted that would have survived
  (`StaleOwners.DeletionSeesCleanup`), or go to another owner, whose being enabled
  decides whether the session is eligible: because the possible owners change
  (`StaleOwners.OwnerSeesCleanup`), or because another matching row comes first although
  they do not (`StaleOwners.RowSeesCleanup`). If the same matching rows give the same
  row, the replies agree exactly if each session has the same matching rows, or rows of
  one client only (`DeletionVisibility.UnseenIff`), and so for every cleanup exactly if
  its rows are settled (`SettledDeletions.CleanupHiddenIff`). If not even that is known
  of the database, they agree exactly if no session has more than one possible owner
  and it stays (`UnseenByAnyIff`, `CleanupHiddenByAnyIff`). For every other request
  cleanup is unobservable.
* **Code exchange takes no session lock.** It checks the session twice and commits
  later. An exchange that commits between the sweep and the commit of a logout, or
  one between whose checks and commit a whole logout runs, leaves an unrevoked token
  row of a revoked session (`RefreshRace.ExchangeInsideRevocation`,
  `RefreshRace.RevocationInsideExchange`). `ExchangeCompleteIff` says exactly when at
  the commit, `ExchangeIntervalIff` over the interval. No refresh accepts such a
  token (`NoRefreshAfterRevocation`).
* **The e-mail execution of the reset flow accepts its own form.** While it waits for
  the message, posting its empty form succeeds for any selected user who is enabled,
  and the flow goes on to the new password and a code without any message
  (`ProofRuns.CodeWithoutMessage`). `MailGate.MailSucceedsIff` says exactly when the
  execution succeeds; without such a form every code of the flow follows a consumed
  message for the user (`ProofRuns.CodeNeedsMessage`).
* **A copied flow keeps its order only with distinct priorities**, because ties are
  broken by random ids (`FlowCatalog.CopyKeepsOrderIff`). The built-in flow has
  distinct ones.
* **GET then PUT of a client is the identity under conditions**: scopes without
  repetition, logout URIs that fit one attribute once joined, and a secret exactly
  for confidential clients (`ClientDocument.GetThenPutIff`).
* **Paths are ambiguous for surrogate pairs.** A key with a high surrogate directly
  before a low one renders like the key with the character they encode, and nothing
  else collides (`DiagnosticPaths.RenderIff`, `UniquelyDecodableIff`, with the instance
  `SurrogatePairsCollide`); the structure
  check rejects surrogates beforehand.
* Cleanup keeps revoked sessions until they expire, so that a logout can be
  retried, while their codes and tokens go at once.
* `expires_in` can be 0, and the expiry of an authorization code is not capped by
  the session maximum.

## Model

| member | source | states |
|---|---|---|
| Server.ApplyKeepsInv | mini-keycloak/mini_keycloak/models/authentication.py:111-208 | Whatever the request (refresh, exchange, password grant, authorize, login, verification, both logouts, throttle, keys, administration, a cleanup batch, a client or realm deletion), the state after it has every foreign key intact, linear refresh families, idle and token expiries within the session maximum, and one active key at most per realm |
| Server.RunKeepsInv | mini-keycloak/mini_keycloak/models/authentication.py:111-208 | The same over a run of any length with a clock that does not go back |
| Server.FamiliesStayLinear | mini-keycloak/mini_keycloak/services/tokens.py:168-186 | From an empty database and over every run: in a family the generations are distinct, all rows share session, client and user, at most one row is unused and it has the highest generation, `replaced_by_id` is null or names the next generation, and scope only shrinks from any ancestor to any descendant |
| Lifetimes.ApplyForward | mini-keycloak/mini_keycloak/repositories/protocol.py:18-33 | No request moves a row back: used, consumed and revoked marks stay set, session maximum, user and realm never change, a row that is gone stays gone, a key keeps its public part |
| Finality.EndedSessionsServeNothing | mini-keycloak/mini_keycloak/repositories/sessions.py:34-52 | Once a session is expired, revoked or removed, no request at any later state of any run yields a token, a code or a successful verification for it |
| Finality.ServedSessionsLive | mini-keycloak/mini_keycloak/services/tokens.py:135-140 | Every reply that hands out or confirms something serves a session that is live at that moment or was just created |
| Finality.RevocationEnds | mini-keycloak/mini_keycloak/repositories/sessions.py:18-32 | A reused refresh token and both kinds of logout end the session at once and leave no unrevoked token of it |
| Finality.CodesWorkOnce | mini-keycloak/mini_keycloak/repositories/protocol.py:49-61 | A code that has yielded tokens is refused for every later exchange, whatever client, URI and verifier are presented and whatever ran in between |
| Finality.RefreshTokensWorkOnce | mini-keycloak/mini_keycloak/repositories/protocol.py:28-33 | A refresh token that was redeemed is never redeemed again in any later state |
| Finality.LifetimesBounded | mini-keycloak/mini_keycloak/services/sessions.py:28-50 | Over any run the maximum of a session is the one set at login, idle expiry never exceeds it, and no stored refresh token outlives it |
| Finality.ResponsesBounded | mini-keycloak/mini_keycloak/services/tokens.py:149-183 | No token of a response outlives the session maximum, the refresh token not even the idle expiry; `expires_in` is the difference of floored times, never negative, at most the configured lifetime and equal to it if the session lasts that long |
| Finality.KeysNeverLost | mini-keycloak/mini_keycloak/services/keys.py:46-71 | While its realm exists a key row is never lost, its public part never changes, an inactive key never changes at all, active is equivalent to having no deactivation time, and the realm has exactly one active key |
| Finality.EnsureKeyIdempotent | mini-keycloak/mini_keycloak/services/keys.py:46-52 | Provisioning leaves exactly one active key, and provisioning again changes nothing |
| Finality.RotationKeepsVerifying | mini-keycloak/mini_keycloak/services/keys.py:61-71 | After a rotation the replacement is the only active key and every token that decoded before still decodes |
| Replies.EligibleIff | mini-keycloak/mini_keycloak/repositories/sessions.py:34-52 | In a sound database a session of the realm is served if and only if the rows of its realm, its user and its owning client are enabled, it is not revoked, and both expiries lie in the future |
| Replies.RefreshReplies | mini-keycloak/mini_keycloak/services/tokens.py:189-233 | The reply to a stored refresh token, case by case: invalid client if realm or client is disabled; invalid grant if a row of its session is disabled, the session revoked or expired, or the token revoked or past its floored expiry; reuse if it was used; invalid scope if a word is added; tokens otherwise |
| Replies.ForeignRefreshRefused | mini-keycloak/mini_keycloak/services/tokens.py:189-200 | Any other token, or one of another client, is refused without a trace |
| Replies.ExchangeReplies | mini-keycloak/mini_keycloak/services/authorization.py:58-97 | The reply to a code exchange: tokens if and only if client and realm are open, the stored code is of this realm, client and URI, unconsumed and unexpired, the client has the standard flow, its session is served, the proof fits, and the realm has a key |
| Replies.PasswordReplies | mini-keycloak/mini_keycloak/services/tokens.py:118-133 | A password grant whose credentials were accepted yields tokens if and only if realm, client and user are enabled and belong together and the realm has a key |
| Replies.AuthorizeReplies | mini-keycloak/mini_keycloak/authentication/browser.py:130-160 | An authorization request is refused unless its client and challenge are in order; it yields a code at once if and only if the cookie names a session of the realm that is served, otherwise a login page |
| Replies.LoginReplies | mini-keycloak/mini_keycloak/authentication/login_actions.py:215-248 | A completed login yields a code if and only if its authentication session is unfinished and unexpired, selects nobody else, and its client, its challenge and the user are in order |
| Replies.VerificationReplies | mini-keycloak/mini_keycloak/services/tokens.py:269-283 | An access or ID token verifies if and only if it is signed by a key of the realm for this type and audience, unexpired, not from the future, the audience names an enabled client, and it names the user and login time of a session that is served |
| Replies.StoredTokenVerifies | mini-keycloak/mini_keycloak/services/tokens.py:278-282 | A stored refresh token passes verification if and only if its client could redeem it now: unused, unrevoked, unexpired, of a session that is served |
| Replies.RefreshLogoutReplies | mini-keycloak/mini_keycloak/oidc/logout.py:78-86 | A logout with a stored refresh token is done if and only if the token could be redeemed by this client now; each refusal is named |
| Replies.ForeignLogoutRefused | mini-keycloak/mini_keycloak/oidc/logout.py:78-86 | A token that is not stored for that client logs nobody out |
| Replies.HintLogoutReplies | mini-keycloak/mini_keycloak/services/tokens.py:74-105 | A logout by hint is done if and only if the ID token is genuine for an enabled audience, and its session is unexpired and its rows enabled; its own expiry and a revocation do not count |
| Effects.IssueEffect | mini-keycloak/mini_keycloak/services/tokens.py:135-187 | Issuing adds one row with these columns, links its parent, and touches nothing else; every expiry is the whole second of the smaller of lifetime and session bound |
| Effects.RefreshEffect | mini-keycloak/mini_keycloak/services/tokens.py:221-231 | The tables after a refresh: the token used now and linked, the successor one generation on, the session used now and its idle expiry one idle lifetime away or at its maximum, one event, and nothing else |
| Effects.ReuseEffect | mini-keycloak/mini_keycloak/services/tokens.py:210-220 | The tables after a reuse: the session revoked now, each of its unrevoked tokens at the same time, one event, and nothing else |
| Effects.RefreshLogoutEffect | mini-keycloak/mini_keycloak/oidc/logout.py:78-86 | The same after a logout by refresh token |
| Effects.HintLogoutEffect | mini-keycloak/mini_keycloak/oidc/logout.py:78-86 | And by hint: a session revoked before keeps its time; the event names the client of the hint if the realm has exactly one of that name |
| Effects.ExchangeEffect | mini-keycloak/mini_keycloak/services/authorization.py:58-97 | The tables after an exchange: the code consumed now, a first token of a new family, one event, and nothing else |
| Effects.PasswordEffect | mini-keycloak/mini_keycloak/services/tokens.py:118-133 | The tables after a password grant: a session begun now with both lifetimes, a first token with the words asked for, each once, for that user and client, one event, and nothing else |
| Effects.ReuseSessionEffect | mini-keycloak/mini_keycloak/authentication/browser.py:130-155 | The whole database after an authorization with a browser session: the session used now, a finished authentication session of its user, a code with its lifetime, one event |
| Effects.LoginPageEffect | mini-keycloak/mini_keycloak/authentication/browser.py:137-160 | The whole database after a login page: one authentication session for half an hour |
| Effects.LoginEffect | mini-keycloak/mini_keycloak/authentication/login_actions.py:215-248 | The whole database after a completed login: a session begun now, the authentication session finished for the user, a code and one event |
| Effects.RotationEffect | mini-keycloak/mini_keycloak/services/keys.py:61-71 | A rotation closes every active key of the realm now, adds one, and changes no other |
| Effects.RotationReplies | mini-keycloak/mini_keycloak/services/keys.py:61-71 | It is refused exactly for a missing or disabled realm, and then nothing changes |
| Effects.ProvisioningEffect | mini-keycloak/mini_keycloak/services/keys.py:46-52 | Provisioning adds a key exactly to a realm that has none |
| Effects.UpdateEffect | mini-keycloak/mini_keycloak/admin.py:215-231 | An administrative update changes one row and never its name, realm, issuer or reset flow |
| Effects.UpdateReplies | mini-keycloak/mini_keycloak/admin.py:345-352 | It is refused exactly if the row is missing |
| Effects.CreationEffect | mini-keycloak/mini_keycloak/admin.py:322-330 | A creation adds one row under a new identifier and is refused exactly without its realm or, for a client, if the realm has one of that name |
| Effects.DeletionReplies | mini-keycloak/mini_keycloak/admin.py:214-222 | A deletion of a client or realm is refused exactly if the row is missing, and takes it otherwise |
| Effects.ThrottleEffects | mini-keycloak/mini_keycloak/security/login_throttling.py:61-94 | A failure, a question and a clearing touch one bucket, which the question only reads |
| Effects.RefusalsRollBack | mini-keycloak/mini_keycloak/oidc/token.py:75-126 | A refused request leaves the database as it was, whatever it is; the reuse of a refresh token is the one exception |
| Disabled.ServedInOrder | mini-keycloak/mini_keycloak/repositories/sessions.py:34-52 | Whatever is handed out or confirmed belongs to a session whose rows are enabled, which is unrevoked and unexpired in the state after the reply, and goes to an enabled client of an enabled realm |
| Disabled.DisabledServeNobody | mini-keycloak/mini_keycloak/repositories/sessions.py:34-52 | Once a user, client or realm is disabled or deleted, no request at any later state of any run is served for its sessions or for that client or realm, until a step enables the row again |
| Idle.ServedIdle | mini-keycloak/mini_keycloak/services/sessions.py:28-50 | Whoever is served a refresh, a login or a reused browser session leaves an idle expiry of exactly the idle lifetime of the realm from now on, or the maximum of the session if that comes first |
| Idle.UnusedSessionsEnd | mini-keycloak/mini_keycloak/services/sessions.py:41-50 | Only a refresh of the session or a login with its cookie moves its idle expiry: over any other run it ends then |
| Idle.IdleSessionsEnd | mini-keycloak/mini_keycloak/services/sessions.py:41-50 | A session that nobody uses for the idle lifetime after its last use is ended at that moment, over every run |
| Completeness.UnusedTokensWork | mini-keycloak/mini_keycloak/services/tokens.py:189-243 | A stored token that was not used since is accepted at every later time before its floored expiry while its session and client stay in order, across any run, including rotations, cleanups and deletions |
| Completeness.IssuedIsStored | mini-keycloak/mini_keycloak/services/tokens.py:167-187 | The refresh token of a response is exactly the hash of a new, unused, unrevoked row with the scope of the response, and its parent points at that row |
| Completeness.ExpiryChecksAgree | mini-keycloak/mini_keycloak/services/tokens.py:235-243 | The signed claim and the floored clock agree, and both imply the check of the stored expiry |
| Completeness.ExtensionStaysEligible | mini-keycloak/mini_keycloak/services/tokens.py:227-231 | The idle time that a refresh writes leaves the session eligible for the issuing that follows |
| RoundTrips.IssuedTokensVerify | mini-keycloak/mini_keycloak/services/tokens.py:245-283 | In the state a response leaves, its access and ID tokens verify for exactly their own type and client until they expire or their session ends; as a logout hint the ID token outlives its own expiry but not that of the session |
| Persistence.TokensKeepVerifying | mini-keycloak/mini_keycloak/services/tokens.py:245-283 | At every state of every later run a signed access or ID token verifies if and only if type and client are its own, it is unexpired and its client and session are in order, whatever rotations, cleanups and deletions came between; as a logout hint an ID token needs an unexpired session of enabled identities only |
| Persistence.IssuedTokensKeepVerifying | mini-keycloak/mini_keycloak/services/tokens.py:135-187 | The same of the tokens of every response |
| RoundTrips.ResponseIsSigned | mini-keycloak/mini_keycloak/services/tokens.py:147-184 | Every token of a response is signed by the active key and carries the issuer, user, client, session, time and scope asked for; an ID token exists exactly for openid and alone carries the nonce |
| RoundTrips.IssuedCodesWork | mini-keycloak/mini_keycloak/services/authorization.py:58-94 | A code that a login has added is accepted from exactly its realm and client, with its redirect URI and a proof, until it or its session ends |
| RoundTrips.ProofIsTheVerifier | mini-keycloak/mini_keycloak/services/authorization.py:80-89 | For an allowed request with a challenge exactly the verifier it was made from, if well-formed, is a proof (S256, section 4.6 of RFC 7636); without one no verifier may be sent |
| Persistence.CodesKeepWorking | mini-keycloak/mini_keycloak/services/authorization.py:58-94 | At every state of every later run a code of a sound database is accepted if and only if realm, client, redirect URI and proof are its own, it is unexpired and unconsumed and its client and session are in order; cleanups and deletions take only codes that would be refused |
| RoundTrips.LoginCodeIsTheUsers | mini-keycloak/mini_keycloak/authentication/login_actions.py:215-248 | The code of a completed login belongs to a new session of the user who logged in and has the parameters of the stored request |
| RoundTrips.ReusedCodeIsTheSessions | mini-keycloak/mini_keycloak/authentication/browser.py:130-155 | The code of a reused browser session belongs to its user; of the session only the last use and the idle expiry change |
| RoundTrips.LoginThenExchange | mini-keycloak/mini_keycloak/services/authorization.py:31-97 | From login to tokens: the code can be exchanged at once if and only if URI and proof fit the request and the realm has its key |
| RoundTrips.ExchangeCarriesCode | mini-keycloak/mini_keycloak/oidc/token.py:60-72 | A successful exchange yields tokens of exactly the session, user, scope and nonce of the code |
| RoundTrips.RefreshCarriesScope | mini-keycloak/mini_keycloak/services/tokens.py:221-231 | A successful refresh stays in the session, yields exactly the requested words without repetition, and never a word the old scope did not have (section 6 of RFC 6749) |
| RoundTrips.FirstLoginWorks | mini-keycloak/mini_keycloak/services/keys.py:46-52 | From an empty database, for every configuration, creating a realm, its key, a client and a user is enough: the first password grant succeeds and its refresh token can be redeemed |
| Invisibility.CleanupUnobservable | mini-keycloak/mini_keycloak/services/cleanup.py:17-52 | For every run, with batches of any size and cutoff interleaved anywhere between requests, the replies equal those of the run without any cleanup, provided that each client deletion finds, for the unexpired sessions of its client, the same matching rows as without cleanup, or rows that all belong to one client |
| SettledDeletions.SettledRunsHideCleanup | mini-keycloak/mini_keycloak/services/cleanup.py:17-52 | The same under a condition on the run without cleanup alone, to be read off the rows: each client deletion in it finds no stale row among those that name the new owners, or one owner who stays |
| SettledDeletions.FixedRunsHideCleanup | mini-keycloak/mini_keycloak/services/cleanup.py:17-52 | If each client deletion in the run without cleanup finds at most one possible owner, who stays, the replies are the same even if the database lets its choice of a row depend on anything, the cleanup included |
| Invisibility.RequestsAgree | mini-keycloak/mini_keycloak/services/cleanup.py:17-29 | One request, whatever it is, gives the same reply on a database and on one that lacks only inert rows, and leaves the two related the same way; a client deletion does if the matching rows are the same or all belong to one client, and in the latter case whatever the queries return on either side |
| Invisibility.CleanupIsBatches | mini-keycloak/mini_keycloak/services/cleanup.py:32-51 | One batch request per table composes to the filter that the loops are proved to compute |
| Invisibility.LimitedBatchesRun | mini-keycloak/mini_keycloak/services/cleanup.py:32-51 | The batches that the loops commit, each of at least one row and at most the batch size, are a run of batch requests that ends where the loops end |
| Invisibility.ExpiredBucketInert | mini-keycloak/mini_keycloak/security/login_throttling.py:61-90 | An expired bucket blocks nobody, and a failure counts on it as on no bucket at all |
| ClientDeletion.DeletionKeepsSimIff | mini-keycloak/mini_keycloak/services/admin_management.py:11-24 | After the deletion of a client a database and one that lacks inert rows cannot be told apart if and only if the rows that the queries returned on the two give each unexpired session the same new owner |
| DeletionVisibility.AlikeIff | mini-keycloak/mini_keycloak/services/admin_management.py:11-24 | The same of replies: every later run without client deletions is answered alike if and only if the new owners are the same, so that a reply can always tell an owner |
| DeletionVisibility.UnseenIff | mini-keycloak/mini_keycloak/services/admin_management.py:13-21 | Whichever of its matching rows a query with a limit of one returns, as long as the same rows give the same one, later replies agree if and only if for each unexpired session the matching rows are the same in both databases, or all of them belong to one client |
| DeletionVisibility.UnseenByAnyIff | mini-keycloak/mini_keycloak/services/admin_management.py:13-21 | If nothing at all is known about which row is returned, later replies agree if and only if each unexpired session has the same possible owners in both databases, one at most |
| DeletionVisibility.SamePossibilitiesIff | mini-keycloak/mini_keycloak/services/admin_management.py:13-21 | As sets of possibilities: each choice on one database is matched by a choice on the other with the same later replies if and only if each unexpired session has the same possible owners |
| SettledOwners.SettledIff | mini-keycloak/mini_keycloak/services/admin_management.py:11-24 | No sequence of batches before the deletion changes the matching rows or, where they belong to one client, the owner, if and only if, per session, none of the matching rows is stale; or all belong to one client, which keeps a row, or has all the codes as well and keeps one |
| SettledOwners.FixedIff | mini-keycloak/mini_keycloak/services/admin_management.py:11-24 | Before and after every sequence of batches each session has the same single possible owner or none, if and only if all matching rows belong to one client that stays, or nobody else has a row |
| SettledOwners.CandidatesSettledIff | mini-keycloak/mini_keycloak/services/admin_management.py:11-24 | No sequence of batches changes the set of possible owners if and only if, per session, no other client loses its last token and, without tokens, none its last code; or the one client whose tokens all go is also the one with a code, and keeps it |
| SettledDeletions.CleanupHiddenIff | mini-keycloak/mini_keycloak/services/admin_management.py:11-24 | Whichever of its matching rows a query returns, no cleanup before the deletion can change a reply of any later run without client deletions if and only if the rows of the sessions are settled, which can be read off before the deletion |
| SettledDeletions.CleanupHiddenByAnyIff | mini-keycloak/mini_keycloak/services/admin_management.py:11-24 | The same for queries that may return different rows with and without the cleanup: if and only if each session has one possible owner at most, who stays |
| SettledDeletions.CleanupKeepsPossibilitiesIff | mini-keycloak/mini_keycloak/services/admin_management.py:11-24 | No cleanup before the deletion changes what may follow it, each outcome of the queries taken as possible, if and only if no set of possible owners can change |
| SettledDeletions.DeletionSeesCleanupIff | mini-keycloak/mini_keycloak/services/admin_management.py:11-24 | For the cleanup at a given cutoff: unseen if and only if, per unexpired session, it keeps all matching rows, or those before and after it belong to the same one client |
| Removal.OwnersAreAll | mini-keycloak/mini_keycloak/services/admin_management.py:13-21 | Every result the re-homing loop may have is a choice of one matching row per session: a token of another client, or if there is none, a code |
| StaleOwners.SurvivalSeesCleanupIff | mini-keycloak/mini_keycloak/services/admin_management.py:11-24 | Whether a session survives the deletion depends on a cleanup before it if and only if other clients share it through stale rows only |
| StaleOwners.DeletionSeesCleanup | mini-keycloak/mini_keycloak/services/admin_management.py:11-24 | A concrete sound database on which a live session survives the deletion of its client without a cleanup and is deleted after one |
| StaleOwners.OwnerSeesCleanup | mini-keycloak/mini_keycloak/services/admin_management.py:13-21 | A concrete sound database on which the session survives both ways, but whatever the queries return under a disabled client without the cleanup, so its code is refused, and under an enabled one after it, so the same code is accepted |
| StaleOwners.RowSeesCleanup | mini-keycloak/mini_keycloak/services/admin_management.py:13-21 | A concrete sound database on which the cleanup leaves the possible owners as they are, and yet a database that returns the first stored match gives the session to a disabled client without it and to an enabled one after it |
| Observation.BatchSim | mini-keycloak/mini_keycloak/services/cleanup.py:34-50 | A batch removes only rows that no later request can tell from absent ones |
| Observation.VerificationAgrees | mini-keycloak/mini_keycloak/services/tokens.py:269-283 | Token verification gives the same verdict with and without the inert rows |
| Observation.CodeAcceptedAgrees | mini-keycloak/mini_keycloak/services/authorization.py:67-89 | A code is accepted with the inert rows exactly when it is without, and then its row is the same |
| Observation.MatchingRowKept | mini-keycloak/mini_keycloak/services/tokens.py:235-243 | The row of a refresh token that would still match is never inert |
| Observation.IssueSim | mini-keycloak/mini_keycloak/services/tokens.py:135-187 | Issuing gives the same response or the same refusal on both databases |
| Observation.RefreshAgrees | mini-keycloak/mini_keycloak/services/tokens.py:189-233 | Refresh replies the same on both databases and keeps them related |
| Observation.ExchangeAgrees | mini-keycloak/mini_keycloak/services/authorization.py:58-97 | Code exchange replies the same on both databases and keeps them related |
| Observation.PasswordAgrees | mini-keycloak/mini_keycloak/services/tokens.py:127-133 | A password grant replies the same on both databases and keeps them related |
| Observation.AuthorizeAgrees | mini-keycloak/mini_keycloak/authentication/browser.py:130-160 | Authorize with or without an SSO session replies the same on both databases and keeps them related |
| Observation.CompleteLoginAgrees | mini-keycloak/mini_keycloak/authentication/login_actions.py:215-248 | Completing a login replies the same on both databases and keeps them related |
| Observation.HintLogoutAgrees | mini-keycloak/mini_keycloak/services/tokens.py:74-105 | Logout by an ID token hint, also the retry for a revoked session replies the same on both databases and keeps them related |
| Observation.RefreshLogoutAgrees | mini-keycloak/mini_keycloak/oidc/logout.py:35-43 | Logout by a refresh token replies the same on both databases and keeps them related |
| Cleanup.CleanupRun | mini-keycloak/mini_keycloak/services/cleanup.py:7-55 | For every batch size from 1 to 1000 the loops terminate, the committed state is the one-shot filter of the state before and is reached by batches of at least one row and at most the batch size, the counts are the exact numbers of stale rows, and every foreign key holds after each statement; any other size is refused and changes nothing |
| Cleanup.CleanAuths | mini-keycloak/mini_keycloak/services/cleanup.py:32-51 | The batch loop over authentication sessions, unlinking reset messages first: ends with exactly the stale rows removed, counted exactly, committed, every statement sound |
| Cleanup.CleanCodes | mini-keycloak/mini_keycloak/services/cleanup.py:32-51 | The batch loop over codes: ends with exactly the stale rows removed, counted exactly, committed, every statement sound |
| Cleanup.CleanTokens | mini-keycloak/mini_keycloak/services/cleanup.py:32-51 | The batch loop over refresh tokens, unlinking replacement links first: ends with exactly the stale rows removed, counted exactly, committed, every statement sound |
| Cleanup.CleanSessions | mini-keycloak/mini_keycloak/services/cleanup.py:32-51 | The batch loop over user sessions, unlinking events first: ends with exactly the stale rows removed, counted exactly, committed, every statement sound |
| Cleanup.CleanBuckets | mini-keycloak/mini_keycloak/services/cleanup.py:32-51 | The batch loop over failure buckets: ends with exactly the stale rows removed, counted exactly, committed, every statement sound |
| Cleanup.CleanupKeepsExactly | mini-keycloak/mini_keycloak/services/cleanup.py:18-29 | Exactly the rows matching the predicates go; audit and outbox rows stay, and a surviving token changes at most by losing a link to a row that went |
| Cleanup.SurvivesIff | mini-keycloak/mini_keycloak/services/cleanup.py:18-29 | Row by row and exactly: sessions stay unless expired; codes and tokens stay if and only if unexpired (tokens also unrevoked) and of a live session; authentication sessions and buckets stay unless expired |
| Cleanup.CleanupIdempotent | mini-keycloak/mini_keycloak/services/cleanup.py:17-29 | A second run at the same cutoff finds nothing stale and changes nothing |
| Retention.BatchKeepsInv | mini-keycloak/mini_keycloak/services/cleanup.py:34-50 | One batch of any size of any of the five tables keeps the whole invariant |
| Retention.StaleLeavesChildless | mini-keycloak/mini_keycloak/services/cleanup.py:21-28 | Once stale codes and tokens are gone the expired sessions have no children left, so their deletion violates no foreign key |
| AdminManagement.DeleteClientRows | mini-keycloak/mini_keycloak/services/admin_management.py:10-54 | The re-homing loop and nine ordered statements compute the plain filter "drop what belongs to this client", and every foreign key holds after each statement |
| AdminManagement.RehomeSessions | mini-keycloak/mini_keycloak/services/admin_management.py:11-24 | Each owned session that another client uses by a token, or else by a code, moves to such a client; no other session changes |
| AdminManagement.OtherClient | mini-keycloak/mini_keycloak/services/admin_management.py:13-21 | A client is found exactly if another client has a token or a code of the session, tokens preferred |
| AdminManagement.DeleteRealmRows | mini-keycloak/mini_keycloak/services/admin_management.py:57-80 | Sixteen ordered statements compute the plain filter by realm, and every foreign key holds after each statement |
| Removal.SharedSessionsSurvive | mini-keycloak/mini_keycloak/services/admin_management.py:11-24 | A session shared with another client survives with every other column intact under a client that still has a token or code of it |
| Removal.SessionSurvivesIff | mini-keycloak/mini_keycloak/services/admin_management.py:11-27 | A session is gone after the deletion if and only if the client owned it and no other client shares it |
| Removal.NoLinkCrossesClients | mini-keycloak/mini_keycloak/services/admin_management.py:44-50 | Unlinking before deleting touches no row of another client, because replacement links stay in a family and a family in one client |
| Removal.OtherClientsUntouched | mini-keycloak/mini_keycloak/services/admin_management.py:10-54 | No code, token or authentication session of another client is removed or altered, and none of the client is left |
| Removal.EventsForgetOnlyTheClient | mini-keycloak/mini_keycloak/services/admin_management.py:25-54 | Events stay and forget no more than the client and the sessions that go; reset messages go if and only if they, or the login they belong to, name the client |
| Removal.StatementsFilter | mini-keycloak/mini_keycloak/services/admin_management.py:25-54 | From the re-homed state the statements compute the filter |
| RealmRemoval.DeleteClientKeepsInv | mini-keycloak/mini_keycloak/services/admin_management.py:10-54 | A client deletion keeps the whole invariant |
| RealmRemoval.RealmStatementsFilter | mini-keycloak/mini_keycloak/services/admin_management.py:57-80 | The ordered statements compute exactly the filter "drop what belongs to this realm", since replacement links never cross realms |
| RealmRemoval.DeleteRealmKeepsInv | mini-keycloak/mini_keycloak/services/admin_management.py:57-80 | A realm deletion keeps the whole invariant |
| RealmRemoval.OtherRealmsUntouched | mini-keycloak/mini_keycloak/services/admin_management.py:57-80 | Table by table, exactly the rows of the realm are gone and every other row is as it was |
| RealmRemoval.OtherPeopleUntouched | mini-keycloak/mini_keycloak/services/admin_management.py:57-80 | So are the clients, users, credentials and flows of other realms |
| Services.LockSession | mini-keycloak/mini_keycloak/repositories/protocol.py:18-26 | The lock succeeds exactly for a live session and changes no column |
| Services.ConsumeToken | mini-keycloak/mini_keycloak/repositories/protocol.py:28-33 | Succeeds exactly for an unused, unrevoked, unexpired token and then only marks it used |
| Services.ConsumeCode | mini-keycloak/mini_keycloak/repositories/protocol.py:49-61 | Succeeds exactly for an unconsumed, unexpired code of that realm, client and redirect URI and then only marks it consumed |
| Services.RevokeSession | mini-keycloak/mini_keycloak/repositories/sessions.py:18-32 | Writes the revocation time once and gives it to every unrevoked token of the session in its realm; false exactly if there is no such session |
| Services.Issue | mini-keycloak/mini_keycloak/services/tokens.py:135-187 | Adds exactly the specified row and link and returns the specified response; a refusal changes nothing |
| Services.Refresh | mini-keycloak/mini_keycloak/services/tokens.py:189-233 | Two reads around the lock, the compare-and-set and issuing come to the atomic refresh; only the revocation after a reuse is committed with a refusal |
| Services.Exchange | mini-keycloak/mini_keycloak/services/authorization.py:58-97 | The checks, the compare-and-set and issuing come to the atomic exchange; every refusal rolls back |
| Services.Logout | mini-keycloak/mini_keycloak/oidc/logout.py:78-86 | Revokes the session and its families and records the event in one commit |
| Services.CreateSession | mini-keycloak/mini_keycloak/services/sessions.py:28-39 | Adds a session whose idle expiry is capped by its maximum, exactly if realm, client and user are enabled and belong together |
| Services.Reuse | mini-keycloak/mini_keycloak/services/sessions.py:41-50 | Extends the idle time, capped by the maximum, exactly if the session is eligible; otherwise changes nothing |
| Services.EnsureActiveKey | mini-keycloak/mini_keycloak/services/keys.py:46-52 | Keeps an active key, generates a missing one, refuses an unknown realm |
| Services.RotateActiveKey | mini-keycloak/mini_keycloak/services/keys.py:61-71 | Deactivates the active key and adds an active replacement in one transaction; refused for a missing or disabled realm |
| Services.CountLoginFailure | mini-keycloak/mini_keycloak/security/login_throttling.py:67-90 | The upsert: insert, or update unless still blocked, equals the throttle automaton |
| RefreshRace.OneWinnerPerToken | mini-keycloak/mini_keycloak/repositories/protocol.py:28-33 | In every interleaving of any number of refreshes, revocations and exchanges each token has at most one committed winner |
| RefreshRace.RefreshCommitsAtomically | mini-keycloak/mini_keycloak/services/tokens.py:195-231 | When a refresh commits, its token is still unused and unrevoked and its session live, and the commit equals the atomic refresh |
| RefreshRace.NoRefreshAfterRevocation | mini-keycloak/mini_keycloak/repositories/sessions.py:18-32 | Once a revocation has committed, no refresh of a token of that session commits in any continuation |
| RefreshRace.RevocationCommitsAtomically | mini-keycloak/mini_keycloak/repositories/sessions.py:18-32 | When a revocation commits it reaches every token of the session, with no descendant left behind |
| RefreshRace.RevocationStaysComplete | mini-keycloak/mini_keycloak/repositories/sessions.py:19-31 | In every interleaving in which each exchange commits while its session is live and not swept, no committed state has an unrevoked token of a revoked session |
| RefreshRace.ExchangeCompleteIff | mini-keycloak/mini_keycloak/oidc/token.py:60-72 | The commit of an exchange, which takes no session lock, keeps revocation complete if and only if at that moment its session is not revoked and no revocation of it has swept without having committed |
| RefreshRace.ExchangeIntervalIff | mini-keycloak/mini_keycloak/services/tokens.py:135-187 | Over the interval from the check in issuing to the commit: complete if and only if no revocation of the session commits in between and none has swept without having committed |
| RefreshRace.IncompleteLeaks | mini-keycloak/mini_keycloak/repositories/sessions.py:19-31 | Incomplete means just that: a committed state has an unrevoked token of a revoked session, now or after the next commit of a revocation |
| RefreshRace.LockTakersStayComplete | mini-keycloak/mini_keycloak/repositories/protocol.py:18-26 | Refreshes and revocations alone, in whatever number and order, never leave an unrevoked token of a revoked session |
| RefreshAlone.WinnersExact | mini-keycloak/mini_keycloak/repositories/protocol.py:28-33 | Over every interleaving a token has been used if and only if it was before or it is the token of a committed winner |
| RefreshAlone.RefreshUndisturbed | mini-keycloak/mini_keycloak/services/tokens.py:189-233 | At whatever point other requests stand, a refresh that no one disturbs commits the atomic refresh if and only if its token is stored, unused and unrevoked, its session live and every other check passes; otherwise it leaves no trace |
| RefreshAlone.ReuseUndisturbed | mini-keycloak/mini_keycloak/services/tokens.py:210-220 | Of a used token it commits the atomic revocation of the session instead |
| RefreshAlone.RevocationUndisturbed | mini-keycloak/mini_keycloak/repositories/sessions.py:18-32 | A revocation that no one disturbs is the atomic one |
| RefreshAlone.ExchangeUndisturbed | mini-keycloak/mini_keycloak/services/authorization.py:67-97 | An exchange that no one disturbs adds one token of its session if and only if both checks pass and the session is live |
| RefreshAlone.LockWaits | mini-keycloak/mini_keycloak/repositories/protocol.py:18-26 | Whoever needs the lock of a session that another request holds waits and changes nothing |
| RefreshAlone.RollbackEffect | mini-keycloak/mini_keycloak/oidc/token.py:125-126 | A request that ends without a commit leaves nothing: its writes, locks and place are gone, and nothing of any other request is |
| RefreshRace.ExchangeInsideRevocation | mini-keycloak/mini_keycloak/oidc/token.py:60-72 | A concrete run, from a state that `RefreshRace.RacesStartSound` shows sound: sweep, then a whole exchange, then the commit of the logout leave an unrevoked token of a revoked session |
| RefreshRace.RevocationInsideExchange | mini-keycloak/mini_keycloak/services/tokens.py:135-140 | A concrete run from the same state of `RefreshRace.RacesStartSound`: both checks of an exchange, then a whole logout, then the commit of the exchange leave the same token |
| FlowEngine.ProcessFlowGood | mini-keycloak/mini_keycloak/authentication/engine.py:212-229 | For arbitrary authenticators: no success is lost, each execution runs at most once, the completed note implies every execution succeeded, a current-execution note names an execution that has not succeeded and equals the column, and completion happens exactly when every execution has succeeded |
| FlowEngine.ProcessActionGood | mini-keycloak/mini_keycloak/authentication/engine.py:231-266 | The same for a form, for the selector detour and for "try another way" |
| FlowEngine.RunsStayCoherent | mini-keycloak/mini_keycloak/authentication/engine.py:147-266 | Over any sequence of requests with authenticators that differ from request to request |
| FlowOrder.TraversalInOrder | mini-keycloak/mini_keycloak/authentication/engine.py:212-219 | A traversal runs the executions left to do in the order of the listing up to the first that does not succeed, all of them exactly if it completes; no other status changes |
| FlowOrder.ActionsInOrder | mini-keycloak/mini_keycloak/authentication/engine.py:231-266 | A form runs the execution it addresses first unless that has succeeded, then what is left, in order; "try another way" runs nothing |
| FlowOrder.ActionsRefused | mini-keycloak/mini_keycloak/authentication/engine.py:231-266 | What a form cannot do is refused before anything is written: an unknown or stale execution, a choice without the selector, a succeeded execution; another way opens the selector at the current one |
| FlowOrder.SelectorShown | mini-keycloak/mini_keycloak/authentication/engine.py:221-229 | A flow that stands at the selector shows it again and changes nothing |
| FlowOrder.CompletionClears | mini-keycloak/mini_keycloak/authentication/engine.py:201-210 | A completed flow keeps no note of a current execution and no selector |
| FlowEngine.CompletionAbsorbs | mini-keycloak/mini_keycloak/authentication/engine.py:201-238 | A completed session completes again without running anything, and every action on it is refused |
| FlowEngine.AuthenticationFlow.Find | mini-keycloak/mini_keycloak/authentication/engine.py:130-134 | The first execution with that id, or the refusal |
| FlowEngine.AuthenticationFlow.ProcessResult | mini-keycloak/mini_keycloak/authentication/engine.py:147-179 | Records the one result and both notes; a context with no result or two is refused before anything is written |
| FlowEngine.AuthenticationFlow.Authenticate | mini-keycloak/mini_keycloak/authentication/engine.py:181-187 | Runs one authenticator and records its result |
| FlowEngine.AuthenticationFlow.TraverseAll | mini-keycloak/mini_keycloak/authentication/engine.py:212-219 | The loop equals the recursive traversal, with the same trace of executions |
| FlowEngine.AuthenticationFlow.Process | mini-keycloak/mini_keycloak/authentication/engine.py:221-229 | The selector page if it is displayed for a current execution, the traversal otherwise |
| FlowEngine.AuthenticationFlow.Select | mini-keycloak/mini_keycloak/authentication/engine.py:238-247 | Leaves the selector, runs the chosen execution unless it has succeeded, and traverses |
| FlowEngine.AuthenticationFlow.Act | mini-keycloak/mini_keycloak/authentication/engine.py:231-266 | All branches of an action, with the refusals before any write |
| FlowEngine.AuthenticationSession.Report | mini-keycloak/mini_keycloak/authentication/engine.py:152-160 | Status, column and notes after one result |
| FlowEngine.AuthenticationSession.Finish | mini-keycloak/mini_keycloak/authentication/engine.py:201-210 | The completed note replaces the current and the selector note |
| RequiredActions.ChallengeAdvances | mini-keycloak/mini_keycloak/authentication/manager.py:54-82 | Whatever the actions do, the current action stays null or the head of the queue and the queue is consumed from its front only |
| RequiredActions.ProcessAdvances | mini-keycloak/mini_keycloak/authentication/manager.py:84-97 | The same after a submitted form |
| RequiredActions.AuthenticationManager.RequiredActionChallenge | mini-keycloak/mini_keycloak/authentication/manager.py:72-82 | Equals its specification; the mutual recursion ends because each call has a shorter queue |
| RequiredActions.AuthenticationManager.Outcome | mini-keycloak/mini_keycloak/authentication/manager.py:54-70 | Pops the finished action and asks for the next, or reports the challenge or the failure |
| RequiredActions.AuthenticationManager.Process | mini-keycloak/mini_keycloak/authentication/manager.py:84-97 | Only the current action is processed |
| ResetCredentials.HandleGood | mini-keycloak/mini_keycloak/authentication/login_actions.py:138-348 | Every request to a login keeps: a successful reset-password execution has its password update still queued or the selected user's password replaced; a code is issued only when the whole flow succeeded and the password of the selected user was replaced, or by the login form when nothing had succeeded |
| ResetCredentials.FlowKeepsProgress | mini-keycloak/mini_keycloak/reset_credentials/authenticators.py:36-103 | The three reset authenticators keep it through any traversal |
| ResetCredentials.ActionKeepsProgress | mini-keycloak/mini_keycloak/reset_credentials/authenticators.py:43-103 | They keep it through any submitted form |
| ResetCredentials.ProcessKeepsProgress | mini-keycloak/mini_keycloak/reset_credentials/update_password.py:27-100 | So does the password update: it leaves the queue only after the password was replaced |
| ResetCredentials.AnswerReplies | mini-keycloak/mini_keycloak/reset_credentials/update_password.py:65-100 | The reply to a submitted action, case by case: refused unless it is current, the selected user is enabled and verified and the update pending; the form again and the row unchanged if the password is rejected; the password replaced, the queue empty and the code issued otherwise |
| ResetScript.ScriptRefined | mini-keycloak/mini_keycloak/reset_credentials/authenticators.py:36-103 | On every sound row each of the five kinds of request does exactly what a short script of the conversation says: the engine, the queue and the three authenticators put together refine it, mails, notes and statuses included |
| MailGate.MailSucceedsIff | mini-keycloak/mini_keycloak/reset_credentials/authenticators.py:59-87 | In terms of the row before: a committed request makes the e-mail execution succeed if and only if it is the form of that execution and the selected user is present and enabled, or it comes to the execution and the user is enabled and named by a consumed message of this session |
| ProofRuns.CodeNeedsMessage | mini-keycloak/mini_keycloak/reset_credentials/authenticators.py:59-62 | In every interleaving, a code that came through the reset flow follows a committed request that consumed a message for the selected user, unless a form of the e-mail execution itself was committed |
| ProofRuns.CodeWithoutMessage | mini-keycloak/mini_keycloak/reset_credentials/authenticators.py:80-87 | A concrete run for the other case: asking for a reset, naming a user, posting the empty form of the e-mail execution and choosing a password yield a code, and no message was ever consumed |
| ResetCredentials.TokenRefusedAfterCode | mini-keycloak/mini_keycloak/services/authorization.py:34-39 | A reset message of a session that already has its code gets no second code |
| LoginActions.IssueCode | mini-keycloak/mini_keycloak/services/authorization.py:31-44 | Issues exactly for a completed, not yet authenticated session of the same user with nothing queued, while it and the user session are in order, and then clears the notes |
| LoginActions.RespondToFlow | mini-keycloak/mini_keycloak/authentication/login_actions.py:111-136 | Required actions first, then the code for an enabled selected user, a page, or a refusal |
| LoginActions.ResetStep | mini-keycloak/mini_keycloak/authentication/login_actions.py:270-300 | GET resumes the flow, POST submits to the current execution |
| LoginActions.ActionStep | mini-keycloak/mini_keycloak/authentication/login_actions.py:330-348 | A form for the current required action, then the flow response |
| LoginActions.TokenStep | mini-keycloak/mini_keycloak/authentication/login_actions.py:302-328 | A consumed message marks the mail execution and resumes the flow |
| LoginActions.PasswordStep | mini-keycloak/mini_keycloak/authentication/login_actions.py:138-213 | The login form is refused once any execution has succeeded; a wrong password leaves all but the session code as it was |
| LoginRace.AtMostOneCode | mini-keycloak/mini_keycloak/models/authentication.py:74-84 | Across every interleaving of requests that read a version and commit only if it is unchanged, at most one code is committed per authentication session; one that came through the reset flow follows the replacement of the selected user's password |
| PasswordRuns.CommittedAnswers | mini-keycloak/mini_keycloak/reset_credentials/update_password.py:65-100 | In every state of every run the commit of a submitted password either leaves row and codes as they are, because the password was rejected, or stores it for the selected, enabled and verified user and yields the code |
| PasswordRuns.CodeNeedsPassword | mini-keycloak/mini_keycloak/reset_credentials/update_password.py:65-100 | In every interleaving a code that came through the reset flow follows the commit of a password that passed, for the user of the code |
| LoginRace.ScheduledUpdateIsNotLost | mini-keycloak/mini_keycloak/reset_credentials/authenticators.py:89-103 | In every committed state a successful reset-password execution has its update queued or done, and the current action is null or the queue head |
| LoginRace.SessionCodesWorkOnce | mini-keycloak/mini_keycloak/authentication/session_codes.py:36-40 | A one-time session code admits at most one committed request |
| LoginRace.StepEffects | mini-keycloak/mini_keycloak/authentication/session_codes.py:36-40 | In every reachable state a posted form without the current session code is not begun; a commit spends the code it was posted with and brings a new one; a stale commit and a rollback leave everything committed as it is |
| LoginRace.CodeIsFinal | mini-keycloak/mini_keycloak/services/authorization.py:34-44 | After the code is committed nothing changes the authentication session |
| FlowCatalog.Executions | mini-keycloak/mini_keycloak/repositories/authentication.py:25-28 | Lists exactly the executions of a flow, ordered by priority, then id |
| FlowCatalog.EnsureResetFlow | mini-keycloak/mini_keycloak/services/authentication_flows.py:15-36 | Three executions with priorities 10, 20 and 30, listed in that order whatever ids they get |
| FlowCatalog.CopyFlow | mini-keycloak/mini_keycloak/services/authentication_flows.py:41-55 | One new execution for each listed one, with the same authenticator and priority |
| FlowCatalog.CopyKeepsOrder | mini-keycloak/mini_keycloak/services/authentication_flows.py:41-55 | With distinct priorities a copy is listed in the order of its source, is again a reset flow, and can be copied again |
| FlowCatalog.CopyKeepsOrderIff | mini-keycloak/mini_keycloak/services/authentication_flows.py:41-55 | A copy keeps the order for every choice of ids if and only if the priorities are distinct |
| FlowCatalog.ListingUnique | mini-keycloak/mini_keycloak/repositories/authentication.py:25-28 | The listing of a flow is unique |
| ActionTokens.ConsumeToken | mini-keycloak/mini_keycloak/services/action_tokens.py:73-109 | Claims, row, session and conditional update in order; a refusal changes nothing |
| ActionTokens.ConsumeMessage | mini-keycloak/mini_keycloak/repositories/authentication.py:95-108 | Marks the message exactly if it is unconsumed and unexpired |
| ActionTokens.MailedTokenAcceptedIff | mini-keycloak/mini_keycloak/services/action_tokens.py:73-109 | A mailed token is accepted if and only if its message is unconsumed and unexpired and its session still selects the same user, realm, client and flow |
| ActionTokens.IssueReplies | mini-keycloak/mini_keycloak/services/action_tokens.py:50-71 | A message is issued exactly while its session stands for the user for another whole second, with these claims and columns |
| ActionTokens.ConsumeReplies | mini-keycloak/mini_keycloak/services/action_tokens.py:73-109 | Exactly the token of a stored, unconsumed, unexpired message is consumed, in its own realm, while its session stands; nothing else changes |
| ActionTokens.MessagesWorkOnce | mini-keycloak/mini_keycloak/repositories/authentication.py:95-108 | A consumed message is refused at every later state of any run |
| ActionTokens.StepEffects | mini-keycloak/mini_keycloak/services/action_tokens.py:50-109 | Every step keeps the records sound; an issue and a consumption do what their replies say and nothing when refused; a change elsewhere touches one authentication session |
| ActionTokens.ConsumedIffAccepted | mini-keycloak/mini_keycloak/repositories/authentication.py:95-108 | Over every run a message keeps its columns, and it is consumed if and only if it was before or its token was accepted on the way |
| ActionTokens.MessageBounded | mini-keycloak/mini_keycloak/services/action_tokens.py:50-60 | A message outlives neither its session nor the configured lifetime, and its claims are in order |
| ThrottleBound.FailuresBounded | mini-keycloak/mini_keycloak/security/login_throttling.py:67-90 | From an absent bucket, with non-decreasing times and no clear, at most threshold * (1 + floor(span / min(window, lock))) failures are recorded in any span, also when cleanups remove expired buckets meanwhile |
| ThrottleBound.RunsStaySound | mini-keycloak/mini_keycloak/security/login_throttling.py:75-89 | The count never exceeds the threshold and a block is set exactly at the threshold, over all runs |
| ThrottleBound.CountIsExact | mini-keycloak/mini_keycloak/security/login_throttling.py:75-89 | At every point of a run the count is the number of failures recorded at or after the first failure of the bucket, all of them within one window of it |
| ThrottleBound.FailureEffect | mini-keycloak/mini_keycloak/security/login_throttling.py:67-90 | One failure on a sound bucket, column by column: at or after the end of the window or of the block it begins a new count of one at this moment, during a block nothing changes, otherwise it counts one more; the block comes with the threshold |
| ThrottleBound.BurstBlocks | mini-keycloak/mini_keycloak/security/login_throttling.py:75-89 | A burst of failures within the window is counted in full, and blocks after the last exactly if there were threshold of them, for exactly the lock time |
| ThrottleBound.FromBucket | mini-keycloak/mini_keycloak/security/login_throttling.py:75-89 | The bound from any reachable bucket: the rest of the running count and one full count per remaining period |
| ThrottleBound.DigestInput | mini-keycloak/mini_keycloak/security/login_throttling.py:48-59 | The digest loop feeds the concatenation of the length-prefixed values |
| ThrottleBound.FramedInjective | mini-keycloak/mini_keycloak/security/login_throttling.py:54-58 | Different triples never feed the digest the same bytes, wherever the boundaries between the values fall |
| RealmImport.EmailsStayUnique | mini-keycloak/mini_keycloak/services/realm_import.py:95-108 | If the preflight passes, e-mail addresses are unique after the release phase and after every assigned user, for any permutation, transfer or creation |
| RealmImport.NamesStayUnique | mini-keycloak/mini_keycloak/services/realm_import.py:95-108 | So are user names |
| RealmImport.NoConflictIff | mini-keycloak/mini_keycloak/services/realm_import.py:181-196 | The preflight condition holds if and only if no address has two owners once the document is applied |
| RealmImport.FinalOwnership | mini-keycloak/mini_keycloak/services/realm_import.py:218-231 | An old user ends with the address and fields the document names and otherwise the old ones, with a new password only if one is given and credentials are not preserved; unlisted users are unchanged |
| RealmImport.CreatedFinally | mini-keycloak/mini_keycloak/services/realm_import.py:218-231 | A created user ends with the document's address, fields and initial password |
| RealmImport.ImportIsIdempotent | mini-keycloak/mini_keycloak/services/realm_import.py:36-40 | Importing the same users again changes nothing but password salts |
| RealmImportService.RealmImporter.Import | mini-keycloak/mini_keycloak/services/realm_import.py:62-137 | Refused imports change nothing; accepted ones are exactly the acceptable documents, end in the specified users and clients, and every flush on the way satisfies all unique constraints |
| RealmImportService.RealmImporter.CheckClients | mini-keycloak/mini_keycloak/services/realm_import.py:139-199 | Create-only imports are refused exactly if a client exists; otherwise exactly the documents with consistent secrets pass |
| RealmImportService.RealmImporter.StayingEmails | mini-keycloak/mini_keycloak/services/realm_import.py:181-190 | The addresses that stay, each with its owner |
| RealmImportService.RealmImporter.CheckEmails | mini-keycloak/mini_keycloak/services/realm_import.py:181-196 | True exactly if no assigned address conflicts |
| RealmImportService.RealmImporter.ReleaseEmails | mini-keycloak/mini_keycloak/services/realm_import.py:95-103 | One flush sets every changing address to null and touches nothing else |
| RealmImportService.RealmImporter.ApplyUsers | mini-keycloak/mini_keycloak/services/realm_import.py:104-108 | One user and one flush at a time, each flush unique |
| RealmImportService.RealmImporter.ApplyClients | mini-keycloak/mini_keycloak/services/realm_import.py:201-216 | The clients of the document in order, others untouched |
| RealmImportService.ClientFinally | mini-keycloak/mini_keycloak/services/realm_import.py:201-216 | An old client ends with the fields the document names and its other fields as they were; its secret is kept, replaced or dropped by the rules of preservation and publicity; unlisted clients are unchanged |
| RealmImportService.CreatedClientFinally | mini-keycloak/mini_keycloak/services/realm_import.py:201-216 | A client of the document that did not exist ends with the document's key, every field, its publicity, and a secret made from the document's exactly if it is confidential and one is given |
| RealmImportService.OnlyListedClients | mini-keycloak/mini_keycloak/services/realm_import.py:201-216 | Every other row was there before |
| RealmImportService.AcceptableIff | mini-keycloak/mini_keycloak/services/realm_import.py:139-199 | The preflight accepts exactly the documents whose result is in order: addresses with one owner, a passing password wherever one is set, and secrets that fit the publicity of the clients |
| RealmImportService.SecretsConsistent | mini-keycloak/mini_keycloak/services/realm_import.py:201-216 | After an import that does not preserve credentials a listed client has a secret exactly if it is confidential |
| RealmImportService.ClientsStayUnique | mini-keycloak/mini_keycloak/services/realm_import.py:201-216 | Client ids stay unique after every client |
| RealmImportService.ClientImportIsIdempotent | mini-keycloak/mini_keycloak/services/realm_import.py:36-40 | Importing the same clients again changes nothing but salts; unlisted clients are untouched |
| DocumentStructure.CheckDocumentStructure | mini-keycloak/mini_keycloak/import_export/validation.py:84-115 | Accepts exactly the trees whose recursively defined node count, depth and size are within the limits and whose keys and strings are clean, after at most MAX_NODES + 1 pops |
| DocumentStructure.Turn | mini-keycloak/mini_keycloak/import_export/validation.py:88-113 | One turn of the loop refuses only what cannot fit, and otherwise leaves exactly the rest to be judged |
| DocumentStructure.Visit | mini-keycloak/mini_keycloak/import_export/validation.py:93-112 | The checks of one node and its children on the stack |
| DocumentStructure.PushMembers | mini-keycloak/mini_keycloak/import_export/validation.py:96-105 | Exactly clean keys pass, and their bytes are counted |
| DocumentStructure.PushItems | mini-keycloak/mini_keycloak/import_export/validation.py:106-108 | The items of a list are pushed with their depth, in any order of later visits |
| DocumentNodes.WithinLimitsIff | mini-keycloak/mini_keycloak/import_export/validation.py:84-115 | A document is accepted if and only if it has at most 50000 nodes, none deeper than 16, together at most two mebibytes, and each in order on its own: keys of 1 to 255 characters, and no control character or surrogate anywhere |
| DocumentNodes.LengthIsBytes | mini-keycloak/mini_keycloak/import_export/validation.py:102-111 | The bytes counted for a string are those of its UTF-8 form (section 3 of RFC 3629) |
| DocumentNodes.BytesDetermine | mini-keycloak/mini_keycloak/import_export/validation.py:102-111 | That form is one: it determines the text |
| DiagnosticPaths.RenderIff | mini-keycloak/mini_keycloak/import_export/validation.py:118-123 | Two paths render alike if and only if they are the same in UTF-16, step by step |
| DiagnosticPaths.PathsDecodable | mini-keycloak/mini_keycloak/import_export/validation.py:118-123 | Different sequences of object keys and list indexes render to different strings, whatever dots, brackets, quotes, backslashes, non-ASCII characters or lone surrogates the keys contain, if no key has a high surrogate directly before a low one |
| DiagnosticPaths.UniquelyDecodableIff | mini-keycloak/mini_keycloak/import_export/validation.py:118-123 | Among all keys Python can hold, a path is the only one with its rendering if and only if no key has a surrogate pair or a character that one encodes |
| DiagnosticPaths.EscapeSplit | mini-keycloak/mini_keycloak/import_export/validation.py:118-123 | No escape of a UTF-16 unit, surrogates included, is a prefix of another |
| JsonStrings.KeysReadBack | mini-keycloak/mini_keycloak/import_export/validation.py:118-123 | A key in brackets is a JSON string (section 7 of RFC 8259) that a reader takes back to the UTF-16 form of the key |
| JsonStrings.EscapesAreShortest | mini-keycloak/mini_keycloak/import_export/validation.py:118-123 | No shorter printable text stands for a UTF-16 unit than the one that is written |
| JsonStrings.DottedIff | mini-keycloak/mini_keycloak/import_export/validation.py:118-123 | A dot stands before exactly the keys of ASCII letters, digits and underscores that do not begin with a digit |
| JsonStrings.IndexReadsBack | mini-keycloak/mini_keycloak/import_export/validation.py:191-193 | An index is written in decimal without leading zeros |
| JsonStrings.PathsPrint | mini-keycloak/mini_keycloak/import_export/validation.py:118-123 | Whatever the keys contain, a path is printable ASCII |
| ClientDocument.CodecIff | mini-keycloak/mini_keycloak/admin.py:69-72 | Joining with `##` and splitting is the identity exactly on the lists whose pieces cannot be confused with the separator, the single empty URI aside |
| ClientDocument.CodecOnUris | mini-keycloak/mini_keycloak/import_export/validation.py:337-338 | In particular on every list of non-empty URIs without a fragment |
| ClientDocument.GetThenPutIff | mini-keycloak/mini_keycloak/admin.py:334-352 | Getting a client and putting the result back is the identity if and only if the joined URIs fit the attribute limit, no scope is listed twice and a secret is present exactly if the client is confidential |
| ClientDocument.PutIdempotent | mini-keycloak/mini_keycloak/admin.py:345-352 | An accepted update put again changes nothing |
| ClientDocument.PutLeavesTheRest | mini-keycloak/mini_keycloak/services/realm_import.py:201-216 | A body that names some fields leaves the others, the ids and an untouched secret as they were |
| ClientDocument.PutTakesTheNamed | mini-keycloak/mini_keycloak/admin.py:345-352 | Every field that an accepted body names takes the body's value |
| ClientDocument.PutRefuses | mini-keycloak/mini_keycloak/admin.py:345-352 | A body is refused exactly if it names something that validation rejects, another identifier, a secret for a public client, or leaves a confidential one without |
| ClientDocument.RepresentationSaysAll | mini-keycloak/mini_keycloak/admin.py:334-343 | What is read from a client brings back every column but the secret, put on whatever other state of the client |
| ClientDocument.RepresentationIsItsOwn | mini-keycloak/mini_keycloak/admin.py:334-343 | It is refused for another client and never shows a secret |
| ClientDocument.DistinctIff | mini-keycloak/mini_keycloak/import_export/validation.py:225-230 | A scope list is its own distinct form exactly if nothing repeats, and the distinct form never repeats |
| ClientDocument.DistinctKeepsOrder | mini-keycloak/mini_keycloak/import_export/validation.py:225-230 | What is said first stays first in the distinct form |

## Left out

- Password, bearer and client-secret checks, redirect-URI policy, cookies, headers, templates and redirects: request plumbing. A password grant or login starts where the credentials and the requested scopes have been accepted; clearing the throttle bucket is its own request.
- Argon2, RSA, Fernet, HMAC, SHA-256, JWT parsing and randomness: assumed injective, sound for a known key, and never repeating.
- `profile` and `email` claims and the userinfo response: content without state.
- Security events: only the rows of successful grants, logins, logouts and reuse are kept, for their foreign keys. Failure events, written after a rollback in a transaction of their own, and the savepoint around the reuse event are not modelled.
- Administrative guards by name, on the realm `master` and the client `admin-cli`: read off one condition.
- Realm-level fields of an import, SMTP settings, password-policy counting, aliases of the reset flow and the refusal of an existing realm without `update`: read off one expression. Renaming a realm, and so its issuer, is not modelled.
- GET then PUT of a realm: null lifetimes are rejected on the way back, so no round trip is claimed.
- Case folding and trimming: the normalized name is one abstract key.
- Validators of single URIs, names and strings: oracles in ClientDocument; `canonical_origin`, `urlsplit` and IDNA behaviour are not part of this model.
- The choice among several rows of a query without ORDER BY in `delete_client`: a run carries it as an arbitrary function of the session and the matching rows, and `UnseenByAnyIff`, `CleanupHiddenByAnyIff` and `FixedRunsHideCleanup` allow any two choices instead; storage order and query plans are not part of this model. A batch of the cleanup is any set of matching rows within the limit, which covers the order by primary key.
- Flows, credentials and reset messages are created by no request of `Server`, so runs from the empty database have none; the other results about runs start from any sound database, which may have them. FlowCatalog models the creation of flows, ActionTokens that of messages.
- `client_session_count`: cleanup changes it, so it is not among the observed replies.
- Provisioning of the reset flow inside `authorize`: the flow exists beforehand in Protocol; FlowCatalog models its creation.
- Expiry and identity checks inside the interleaving of RefreshRace: an oracle at each step decides them, and rows are not deleted there; the atomic grain has both.
- What an authenticator outside the three reset ones writes: it may change anything but the engine's own notes and statuses, and may differ at each request.
- The selector note is kept as a Boolean, because "true" is the only value ever written to it.
- Mail delivery, logging, migrations, the in-memory store, discovery and the CLI: I/O and deployment.
