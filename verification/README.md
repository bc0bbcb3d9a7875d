# A verified model of the auth service

This project models the state, the commands and the arithmetic of a multi-tenant identity service and
proves what they promise. `dafny verify dfyconfig.toml` checks all of it.

## What is modelled

**State.** One users table (primary key, one email per tenant, an `UPDATE` that writes some columns only) and
one Redis keyspace: a single flat map from strings to values with an expiry, shared by refresh tokens, MFA
challenges, email confirmations, password resets, OAuth states and rate-limit counters. Time is counted in
milliseconds, and every store reads one clock. Beside them the model keeps a history: the tokens drawn or
presented so far, every row as it was first inserted, the lineage of every refresh token, and a log of what was
issued, opened, consumed, written and removed.

**The state machine** (`Machine.dfy`). A call is a sequence of single storage commands in the order of the
code. `Next` executes one command of one call. An `Io` value decides what chance and the network decide about
it: how much time passes before it, whether it is acknowledged, executed with its reply lost, or refused, and
the token, id and secret that are drawn. Two kinds of run are built from `Next`:

- runs of calls that do not overlap, in which any call may stop after any command (`Run`, `Do`, `WorldAfter`);
- free interleavings of the commands of any number of calls (`Interleaving.At`).

**The imperative code** (`AuthUseCase.dfy`, `Users.dfy`, `Keyspace.dfy`, `RateLimit.dfy`, `Totp.dfy`). The use
cases, the repositories and the rate limiter are classes that assign fields and call the stores one command at
a time. Each use-case method is proved to leave in the stores, and to answer, exactly what its run in the state
machine does, so every theorem about runs is about these methods too.

**Assumptions**, stated as `Fair`: drawn tokens and ids are new, also among the tokens that callers have made up,
and the `DEL` that spends a token is executed (the code discards its error; `Overlap.DiscardedDelError` shows why
this matters). bcrypt is ideal: a hash is matched by exactly one password, and the hash of discarded random bytes
by none. HMAC, email cleaning, login URLs and binary64 rounding are arbitrary functions, the last one with the properties of
section 4.3 of IEEE 754-2008 that the proof needs.

**Where the code and its documentation differ**, the model follows the code, and says exactly when the promise
holds.

- The rate limiter is described as a sliding token bucket. It is a fixed window opened by the first request that
  finds no counter. `RateLimiting.RefusalAfterMoreThanLimit` shows the difference, `RefusalMeansFull` says exactly
  when a refusal follows exactly `limit` admissions in the last minute.
- Refresh tokens are described as single-use. When a token is gone, a further call succeeds with it if and only if
  it had read the token before and its own later commands meet no obstacle
  (`Reuse.SucceedsExactlyWhenReadBefore`); so two successes always overlap (`Reuse.SuccessesOverlap`).
  `Overlap.OverlappingRefreshesBothSucceed` is a schedule in which two refreshes do succeed.
- No index makes an OAuth identity unique. It stays unique under an interleaving if and only if no INSERT finds
  a row of its identity and its email free (`Identities.UniqueExactlyUnlessDoubled`), which takes a race of two
  callbacks (`Identities.DoublingIsARace`) and cannot happen when the email of each identity is fixed
  (`Identities.OAuthUniqueIfEmailsFixed`) or when calls do not overlap (`Effects.OAuthIdentityUnique`).
  `Overlap.OverlappingCallbacksCanDuplicate` is a schedule in which it happens.
- `ValidateCode` accepts three time steps from the second step of the Unix epoch on; before that the counter
  truncates and wraps (`Totp.WindowAtTheEpoch`).
- Pages past the last are empty unless the offset wraps around 64 bits (`Paging.PagesPastTheEnd`).
- A listing whose cursor breaks off is answered as if it were whole, because the loop does not look at the
  cursor's error (`Users.UserRepository.List`).

## Files

| file | content |
|---|---|
| Domain.dfy | users, roles, permissions, replies |
| Keyspace.dfy | the flat keyspace, its view as six maps, the session repository |
| RateLimit.dfy | the Lua script, the middleware, traces of requests |
| Arithmetic.dfy, Digits.dfy, Base32.dfy, Totp.dfy | products and remainders, positional notation and bit masks, secrets, codes, the drift window |
| Paging.dfy, Users.dfy | pages and page counts, the users table, its repository, listings |
| Machine.dfy | calls as sequences of commands |
| Commands.dfy, Answers.dfy | what each command does, and how each call ends for every outcome of its commands, stated without the machine's own functions |
| Invariants.dfy, Runs.dfy | what every command keeps, and what holds over runs |
| Calls.dfy | how far along a call is, whatever the others do |
| Sequential.dfy, Effects.dfy, Completeness.dfy | runs without overlap: safety, effects, and when calls succeed |
| EndToEnd.dfy | calls that belong together: requests and confirmations, challenges and codes, login URLs and callbacks |
| Throttling.dfy | what the rate limiter answers over whole runs of the service |
| Interleaving.dfy, Reuse.dfy, Identities.dfy, Overlap.dfy | runs with overlap: what always holds, exactly when tokens are single-use and identities unique, and schedules where they are not |
| Tenancy.dfy, Isolation.dfy | tenant independence, of whole calls and under every interleaving |
| AuthUseCase.dfy | the use cases as imperative code, proved to follow the machine |

## Model

| member | source | states |
|---|---|---|
| Reuse.SucceedsExactlyWhenReadBefore | auth-service/internal/usecase/auth_usecase.go:349-376 | under every interleaving, once a token is gone a call with it succeeds if and only if its GET found the token before and none of its later commands meets an obstacle: no answer, owner gone or refused, email taken |
| Reuse.SuccessesOverlap | auth-service/internal/usecase/auth_usecase.go:349-381 | so two calls that succeed with one token overlap in time: after a completed refresh, logout or other use, no call that arrives later succeeds with it, at any later point |
| Reuse.AfterTheRead | auth-service/internal/usecase/auth_usecase.go:358-376 | once a call has read its token only its own remaining commands decide whether it fails; whether the token is still stored is not asked again |
| Interleaving.NoneSpendsLater | auth-service/internal/usecase/auth_usecase.go:349-376 | once a presented token is gone it never comes back, and no call that has not read it by then gets to hold or spend it |
| Interleaving.SafeAt | auth-service/internal/usecase/auth_usecase.go:73-403 | the invariant of all interleavings: consistent table, known tokens and owners, every call in flight where its own commands have brought it |
| Interleaving.GoodIsSafe | auth-service/internal/usecase/auth_usecase.go:73-403 | every good world, so every initial one, starts interleavings that the invariant covers |
| Interleaving.IdentityNeverChanges | auth-service/internal/repository/postgres/user_repo.go:113-121 | id, tenant, OAuth pair, creation time and role of a row never change, under every interleaving |
| Interleaving.AdminsNeverGrow | auth-service/internal/usecase/auth_usecase.go:325-337 | no interleaving of calls makes anybody an administrator |
| Interleaving.SessionClaims | auth-service/pkg/utils/jwt.go:89-107 | the role claim of every issued session is the role of the user as long as the row exists; from a state with no privileged row none carries manage:system |
| Identities.UniqueExactlyUnlessDoubled | auth-service/internal/usecase/auth_usecase.go:317-344 | identities stay unique under an interleaving if and only if no INSERT of it finds a row of the identity stored and its own email free in the tenant |
| Identities.DoublingIsARace | auth-service/internal/usecase/auth_usecase.go:317-344 | such an INSERT comes after its callback has found no row, and after another call has inserted the first row in between |
| Identities.OAuthUniqueIfEmailsFixed | auth-service/internal/usecase/auth_usecase.go:317-344 | if each identity has one email that no SCIM edit changes, the email index keeps identities unique under every interleaving |
| Overlap.OverlappingRefreshesBothSucceed | auth-service/internal/usecase/auth_usecase.go:349-376 | a schedule of two overlapping refreshes that both succeed and leave two live tokens in one lineage |
| Overlap.DiscardedDelError | auth-service/internal/usecase/auth_usecase.go:368-372 | a refresh of a usable token whose DEL is refused answers with a session all the same, so two tokens of one lineage are stored without any overlap |
| Overlap.OverlappingCallbacksCanDuplicate | auth-service/internal/usecase/auth_usecase.go:295-347 | from a safe state, two callbacks that arrive and run command by command in turn create two users of one new identity with different emails |
| Runs.RunsKeep | auth-service/internal/usecase/auth_usecase.go:73-403 | every point of every run of non-overlapping calls, also one where a call has stopped part-way, satisfies the invariant and evolves from every earlier point as each command allows |
| Runs.InitialGood | auth-service/migrations/000002_enterprise_features.up.sql:26-28 | a consistent table with unique identities and an empty Redis satisfies the invariant |
| Effects.OneRefreshPerLineage | auth-service/internal/usecase/auth_usecase.go:349-403 | at every point of every run each lineage has at most one refresh token in force |
| Effects.RotationConservesLineages | auth-service/internal/usecase/auth_usecase.go:349-376 | a successful refresh revokes its token, puts a new one of the same lineage in force, touches no other key and conserves the set and the number of live lineages |
| Effects.ConfirmationTakesEffect | auth-service/internal/usecase/auth_usecase.go:220-270 | a successful email or password confirmation was for a stored token and has set the flag, or the password, of its owner |
| Effects.PasswordFrame | auth-service/internal/usecase/auth_usecase.go:247-270 | after a reset to p, through any later calls but another reset or deletion, the user's hash is matched by p and nothing else |
| Effects.LoginTestsPassword | auth-service/internal/usecase/auth_usecase.go:112-146 | for an active user login is refused if and only if the password does not match; with MFA on it never opens a session |
| Effects.EditsOneUser | auth-service/internal/usecase/auth_usecase.go:175-208 | MFA set-up, MFA activation and SCIM update, when they succeed, change one row in the fields they are for and no token, and answer with the secret and its URI, or the SCIM view of the row; activation needs a code valid for the stored secret |
| Effects.CallbackSignsInOwner | auth-service/internal/usecase/auth_usecase.go:295-347 | a callback that answers with a session answers for the row of that tenant, provider and subject |
| Effects.CallbacksAgree | auth-service/internal/usecase/auth_usecase.go:317-346 | repeated callbacks for one identity give the same user until that user is deleted |
| Effects.OAuthIdentityUnique | auth-service/internal/usecase/auth_usecase.go:317-344 | in every state of every run (tenant, provider, subject) identifies at most one user, though no unique index says so |
| Sequential.MfaStaysOn | auth-service/internal/usecase/auth_usecase.go:130-208 | MFA never goes off; while it is on every new session comes from a code valid for the secret then stored, from a provider or from rotation, never from a password alone |
| Sequential.VerifiedStays | auth-service/internal/usecase/auth_usecase.go:220-235 | a verified email flag never goes back to false |
| Sequential.DeadUsersStayDead | auth-service/internal/repository/postgres/user_repo.go:59-75 | an id that was born and is not in the table never comes back, and no session is opened for it |
| Effects.DeletedForGood | auth-service/internal/usecase/scim_usecase.go:90-92 | a deletion that succeeds leaves every token in place, and at every later point the id is absent and no session has been opened for it |
| Effects.DeletionKeepsTokens | auth-service/internal/repository/postgres/user_repo.go:123-127 | a deletion that succeeds removes that row only, and no token |
| Sequential.DeactivatedSignsInByProviderOnly | auth-service/internal/usecase/auth_usecase.go:119-123 | until a SCIM update reactivates it, a deactivated user gets no session by login, challenge or refresh; the OAuth path has no such test |
| Sequential.SessionsAreLogged | auth-service/internal/usecase/auth_usecase.go:383-403 | a call that answers with a session has opened one for that user and role |
| Sequential.PasswordStays | auth-service/internal/repository/postgres/user_repo.go:113-121 | no call but a password reset changes a stored password |
| Sequential.ConsumptionsMatchIssues | auth-service/internal/repository/redis/session_repo.go:41-101 | there is an injection from the consumptions in the log to earlier issues of the same token and kind, to the same user or provider, each within its time: 5 min for a challenge, 24 h, 1 h, 10 min, or the configured life of a refresh token |
| Sequential.SuccessConsumes | auth-service/internal/usecase/auth_usecase.go:148-173 | a call that succeeds with a token has consumed it in the log |
| Sequential.FailedChecksChangeNothing | auth-service/internal/usecase/auth_usecase.go:148-163 | a call stopped by a check, such as a wrong code or a state of another provider, has changed no row and no token |
| Completeness.SucceedsExactlyWhenUsable | auth-service/internal/usecase/auth_usecase.go:148-376 | with every command acknowledged, challenge, confirmation, reset and refresh succeed if and only if the token is in force, its owner exists and the call's checks pass; a session is the owner's |
| Completeness.CallbackSucceedsExactlyWhen | auth-service/internal/usecase/auth_usecase.go:295-347 | with every command acknowledged, a callback signs in if and only if the state is in force for that provider, the exchange answers, and the identity is known or its email free in the tenant |
| Completeness.RegisterThenLogin | auth-service/internal/usecase/auth_usecase.go:73-146 | who registers a free address logs in with the same password and with no other |
| Completeness.RegisterAnswers | auth-service/internal/usecase/auth_usecase.go:73-110 | registration adds one plain, unverified member and a confirmation token of its own, or answers with a conflict and changes nothing |
| EndToEnd.MfaSignIn | auth-service/internal/usecase/auth_usecase.go:112-173 | an enrolled user logs in with the right password and gets a challenge; answered within 300,000 ms it signs in if and only if the code is that of the previous, current or next half minute of the second it is checked in; later it is refused |
| EndToEnd.ChallengeByWindow | auth-service/internal/usecase/auth_usecase.go:148-173 | a challenge in force of an active user signs in if and only if the code is in that window of the millisecond clock divided by 1000, and is answered with an invalid code otherwise |
| EndToEnd.ChallengeWithShownCode | auth-service/internal/usecase/auth_usecase.go:148-173 | so the code an authenticator shows at any second within 30 s of the check signs in |
| EndToEnd.ActivationByWindow | auth-service/internal/usecase/auth_usecase.go:195-208 | MFA activation sets the flag of that row and nothing else if and only if the code is in the window, else it changes no row |
| EndToEnd.LoginByPassword | auth-service/internal/usecase/auth_usecase.go:112-146 | login of an active user: the password alone decides between refusal and, by the MFA flag, a challenge or a session |
| EndToEnd.RequestThenReset | auth-service/internal/usecase/auth_usecase.go:237-270 | a reset requested for a stored address and confirmed with the token drawn: read within 3,600,000 ms it sets the password and nothing else, later it is refused and changes no row |
| EndToEnd.ResetThenLogin | auth-service/internal/usecase/auth_usecase.go:112-270 | after such a reset an active owner logs in with the new password and with no other |
| EndToEnd.RequestThenVerify | auth-service/internal/usecase/auth_usecase.go:210-235 | a verification requested for a stored address and confirmed with the token drawn: read within 86,400,000 ms it sets the flag and nothing else, later it is refused |
| EndToEnd.RegisterThenVerify | auth-service/internal/usecase/auth_usecase.go:73-235 | the same with the token mailed at registration |
| EndToEnd.UnknownRequest | auth-service/internal/usecase/auth_usecase.go:210-245 | a request for an address that is not stored is answered as one that is, and changes no row and no token |
| EndToEnd.UrlThenCallback | auth-service/internal/usecase/auth_usecase.go:272-347 | the state answered with a provider's login URL passes a callback of the same provider read within 600,000 ms, where exchange and identity decide who is signed in; with the other provider, or later, the state is refused and nothing changes |
| EndToEnd.FittingCallback | auth-service/internal/usecase/auth_usecase.go:301-346 | past the state check: no exchange, the owner of the identity, a conflict if the email is taken, or a new member |
| EndToEnd.ScimRoundTrip | auth-service/internal/usecase/scim_usecase.go:70-131 | writing back what the SCIM view of a user shows changes nothing but the time of the update |
| Answers.RegisterEnds | auth-service/internal/usecase/auth_usecase.go:73-110 | rows, keyspace and answer of a registration for every way its two commands can end; the token is good for 86,400,000 ms |
| Answers.LoginEnds | auth-service/internal/usecase/auth_usecase.go:112-146 | the same for a login to a stored address; a challenge is good for 300,000 ms, and its failed SET goes unnoticed |
| Answers.UnknownLoginEnds | auth-service/internal/usecase/auth_usecase.go:112-123 | a login to an address that is malformed or not stored is refused and changes nothing |
| Answers.RequestEnds | auth-service/internal/usecase/auth_usecase.go:210-245 | a request for a stored address stores a token of its own kind, 3,600,000 or 86,400,000 ms, and is accepted whatever Redis answers |
| Answers.UnknownRequestEnds | auth-service/internal/usecase/auth_usecase.go:210-214 | a request for another address is accepted too, and changes nothing |
| Answers.RejectedEnds | auth-service/internal/usecase/auth_usecase.go:247-250 | a reset with a password outside 8 to 72 is rejected before anything is read |
| Answers.LapsedEnds | auth-service/internal/usecase/auth_usecase.go:148-259 | a token that is not stored, or has lapsed when it is read, is refused with every row and token as before |
| Answers.UnreadEnds | auth-service/internal/usecase/auth_usecase.go:149-356 | so is one whose GET is not answered; only a refresh tells it from an absent one |
| Answers.VerifyMfaEnds | auth-service/internal/usecase/auth_usecase.go:148-173 | a challenge in force: owner, activity and the code at the Unix second of the check decide, then the token goes and a refresh token comes |
| Answers.RefreshEnds | auth-service/internal/usecase/auth_usecase.go:349-376 | a refresh token in force: the owner's activity decides, then it is exchanged |
| Answers.ConfirmEmailEnds | auth-service/internal/usecase/auth_usecase.go:220-235 | a confirmation in force sets the flag of its owner, or finds no owner |
| Answers.ConfirmResetEnds | auth-service/internal/usecase/auth_usecase.go:247-270 | a reset in force sets the password of its owner, or finds no owner |
| Answers.LogoutEnds | auth-service/internal/usecase/auth_usecase.go:378-381 | a logout removes that refresh token and no other key |
| Answers.NoRowEnds | auth-service/internal/usecase/auth_usecase.go:175-199 | an edit of a row that is absent or cannot be read changes nothing; only SCIM tells the two apart |
| Answers.SetupMfaEnds | auth-service/internal/usecase/auth_usecase.go:175-193 | MFA set-up stores the secret drawn and answers with it and its otpauth URI, written out |
| Answers.ConfirmMfaEnds | auth-service/internal/usecase/auth_usecase.go:195-208 | MFA activation sets the flag if the code is valid at the Unix second of the check |
| Answers.ScimUpdateEnds | auth-service/internal/usecase/scim_usecase.go:70-88 | a SCIM update writes the first email if there is one, the active flag and the external id; a taken email is an error |
| Answers.ScimCreateEnds | auth-service/internal/usecase/scim_usecase.go:31-60 | SCIM creation adds a verified member with the first email or the user name, no usable password and no provider, and answers with its view |
| Answers.ScimDeleteEnds | auth-service/internal/usecase/scim_usecase.go:90-92 | SCIM deletion removes that row only |
| Answers.OAuthUrlEnds | auth-service/internal/usecase/auth_usecase.go:272-293 | the state is stored for the provider asked for, for 600,000 ms, and answered with that provider's URL |
| Answers.BadStateEnds | auth-service/internal/usecase/auth_usecase.go:295-299 | a callback whose state is absent, lapsed, unread or of another provider is refused and changes nothing |
| Answers.NoExchangeEnds | auth-service/internal/usecase/auth_usecase.go:301-315 | past the state check the state is spent, even if the provider is unknown or the exchange fails |
| Answers.KnownCallbackEnds | auth-service/internal/usecase/auth_usecase.go:317-346 | a known identity gets a session of its row |
| Answers.NewCallbackEnds | auth-service/internal/usecase/auth_usecase.go:317-346 | a new identity gets a verified member and its session, or a conflict if its email is taken |
| Answers.UnreadIdentityEnds | auth-service/internal/usecase/auth_usecase.go:341-343 | a failed lookup is an error, not an unknown identity |
| Commands.UpdatesNothing | auth-service/internal/repository/postgres/user_repo.go:113-121 | an UPDATE of a row that is gone changes nothing and is no error |
| Commands.GetsOther | auth-service/internal/usecase/auth_usecase.go:154-361 | stored text that is no id: a refresh rejects it, any other call goes on with the nil id |
| Commands.Counts | auth-service/internal/delivery/http/middleware/ratelimit_middleware.go:15-61 | the script on the shared store: a live counter grows up to the limit and keeps its expiry, else a new one is 1 for 60,000 ms; only an acknowledged refusal turns a request away |
| Commands.CountsNothing | auth-service/internal/delivery/http/middleware/ratelimit_middleware.go:15-58 | a counter that is no number is a script error, and lets the request through |
| Isolation.TenantsAreIsolated | auth-service/internal/repository/postgres/user_repo.go:41-121 | under every interleaving, leaving out the commands that concern other tenants gives an interleaving again that ends with the same users and tokens of the tenant; its calls, and every call that opens a session for one of its users, are answered the same |
| Isolation.MoveFollows | auth-service/internal/repository/postgres/user_repo.go:41-121 | one move of any tenant, kept or left out, keeps the two systems following one another |
| Isolation.ViewFollows | auth-service/internal/repository/postgres/user_repo.go:41-93 | the system cut down to one tenant's users and tokens is one to compare with |
| Tenancy.TenantsAreIndependent | auth-service/internal/repository/postgres/user_repo.go:41-121 | for whole calls: dropping every other tenant's calls, save what callbacks do to the shared OAuth states, leaves a fair run that ends with the same users and tokens of the tenant and gives its calls the same answers |
| Tenancy.ProjectsOneCall | auth-service/internal/usecase/auth_usecase.go:73-403 | one call of any tenant, run in the full world and in the tenant's world, keeps the second the tenant's view of the first |
| Tenancy.OwnRun | auth-service/internal/usecase/auth_usecase.go:73-403 | a call of the tenant does and answers the same whether or not other tenants' users and tokens are there |
| Tenancy.ForeignRun | auth-service/internal/usecase/auth_usecase.go:73-403 | a call of another tenant changes nothing the tenant can see |
| Tenancy.ViewOfSim | auth-service/internal/repository/postgres/user_repo.go:41-93 | the world cut down to one tenant's users and tokens is a view to start from |
| Keyspace.KeyFormats | auth-service/internal/repository/redis/session_repo.go:41-101 | the six key formats of the one keyspace |
| Keyspace.FlattenInjective | auth-service/internal/repository/redis/session_repo.go:41-101 | for arbitrary token and IP text, no two (kind, token) pairs share a Redis key |
| Keyspace.SetRefinesSubmaps | auth-service/internal/repository/redis/session_repo.go:41-91 | a SET on the flat map is a SET on the map of its kind and leaves the other five alone |
| Keyspace.DelRefinesSubmaps | auth-service/internal/repository/redis/session_repo.go:49-99 | a DEL on the flat map is a DEL on the map of its kind and leaves the other five alone |
| Keyspace.SessionRepository.Store | auth-service/internal/repository/redis/session_repo.go:41-91 | storing in the flat map is Set on the typed keyspace |
| Keyspace.SessionRepository.Read | auth-service/internal/repository/redis/session_repo.go:45-79 | reading tells a live value, an absent or expired one, and a failed command apart |
| Keyspace.SessionRepository.Revoke | auth-service/internal/repository/redis/session_repo.go:49-87 | revoking in the flat map is Del on the typed keyspace |
| Keyspace.SessionRepository.ValidateAndConsumeOAuthState | auth-service/internal/repository/redis/session_repo.go:93-101 | a state is valid, and then deleted, only for the provider it was stored for; a mismatch deletes nothing |
| Throttling.ThrottleAnswers | auth-service/internal/delivery/http/middleware/ratelimit_middleware.go:45-61 | in every run from a store without counters, whatever other calls run between, a throttle call is turned away if and only if it is acknowledged and the trace of its own address refuses it |
| Throttling.ServedBound | auth-service/internal/delivery/http/middleware/ratelimit_middleware.go:15-61 | in every such run and every interval of at most k minutes, at most (k + 1) * limit throttle calls of an address are acknowledged and let through |
| Throttling.NeverTurnedAway | auth-service/internal/delivery/http/middleware/ratelimit_middleware.go:15-61 | a client with at most limit calls in the 60 s up to a call is let through |
| Throttling.CounterFollows | auth-service/internal/delivery/http/middleware/ratelimit_middleware.go:15-29 | the stored counter of each address is the one its own trace leaves, through any calls of the service |
| Throttling.TimesAreSorted | auth-service/internal/delivery/http/middleware/ratelimit_middleware.go:45-53 | the times of an address form a trace in order |
| RateLimiting.RateLimiter.RunScript | auth-service/internal/delivery/http/middleware/ratelimit_middleware.go:15-29 | the script on the flat store does what Script does on the typed keyspace |
| RateLimiting.RateLimiter.Middleware | auth-service/internal/delivery/http/middleware/ratelimit_middleware.go:45-61 | leaves and answers what Throttled says: what that is for every store, and over runs, is Commands.Counts, CountsNothing and Throttling.ThrottleAnswers |
| RateLimiting.ScriptKeepsSessions | auth-service/internal/delivery/http/middleware/ratelimit_middleware.go:45-53 | the limiter never touches the five kinds of session tokens |
| RateLimiting.UpperBound | auth-service/internal/delivery/http/middleware/ratelimit_middleware.go:15-29 | in every half-open interval of at most k windows at most (k + 1) * limit requests of a key are admitted |
| RateLimiting.CounterCounts | auth-service/internal/delivery/http/middleware/ratelimit_middleware.go:15-29 | the counter is the number of admissions since its window opened |
| RateLimiting.CounterInRange | auth-service/internal/delivery/http/middleware/ratelimit_middleware.go:15-29 | a stored counter lies between 1 and limit, its window opened no later than the last request, and refusals extend no window |
| RateLimiting.RefusalMeansFull | auth-service/internal/delivery/http/middleware/ratelimit_middleware.go:20-21 | a refusal means exactly limit admissions since the window opened, so at least limit in the last 60 s, and exactly limit if and only if the window before has none in them |
| RateLimiting.RefusalAfterMoreThanLimit | auth-service/internal/delivery/http/middleware/ratelimit_middleware.go:15-29 | a trace with a refusal after more than limit admissions in the last 60 s |
| RateLimiting.NeverOverThrottles | auth-service/internal/delivery/http/middleware/ratelimit_middleware.go:15-29 | a client with at most limit requests in the 60 s up to a request is admitted |
| RateLimiting.NoneBelowOne | auth-service/internal/delivery/http/middleware/ratelimit_middleware.go:20-21 | a limit below 1 admits nothing |
| RateLimiting.AddressesAreIndependent | auth-service/internal/delivery/http/middleware/ratelimit_middleware.go:47-53 | over one shared store, each address is answered as if its requests were the only ones |
| Base32.KeyExactlyWhenLetters | auth-service/pkg/utils/totp.go:38-42 | a secret with spaces around it is a key if and only if each character left is a letter of the alphabet, in either case, or a line break |
| Base32.LastGroupAppends | auth-service/pkg/utils/totp.go:39-39 | after whole groups the rest of the letters is read as a group of its own |
| Base32.LastGroup | auth-service/pkg/utils/totp.go:39-39 | one to four last bytes, padded with zero bits to 2, 4, 5 or 7 letters, are read back (section 6 of RFC 4648) |
| Base32.ShortGroup | auth-service/pkg/utils/totp.go:39-39 | 1, 3 or 6 last letters are read as no byte |
| Base32.GroupIsRfc4648 | auth-service/pkg/utils/totp.go:34-34 | five bytes and their eight letters are the same 40-bit number |
| Base32.LetterIsRfc4648 | auth-service/pkg/utils/totp.go:34-39 | the letters are those of table 3 of RFC 4648 |
| Base32.SecretSurvivesTyping | auth-service/pkg/utils/totp.go:34-42 | a 20-byte secret typed in any ASCII case with spaces around it decodes to the same key |
| Base32.RoundTrip | auth-service/pkg/utils/totp.go:34-39 | unpadded base32 decodes to what was encoded, for whole five-byte groups |
| Totp.CodeOfSecret | auth-service/pkg/utils/totp.go:37-57 | for every 20-byte key, every way of typing its secret and every 64-bit counter: the code is six digits, worth the value of section 5.3 of RFC 4226 of the MAC of the eight-byte counter field, modulo 10^6 |
| Totp.CodeAtTime | auth-service/pkg/utils/totp.go:37-57 | the same at a Unix time, for the number of half minutes since the epoch |
| Totp.GenerateSecret | auth-service/pkg/utils/totp.go:29-35 | the secret has 32 letters and decodes to the random bytes |
| Totp.GenerateCode | auth-service/pkg/utils/totp.go:37-57 | filling the counter buffer and truncating the MAC gives Code, which Totp.CodeAtTime ties to the MAC of the counter field |
| Totp.ValidateCode | auth-service/pkg/utils/totp.go:60-70 | the drift loop accepts what Accepts accepts: the three codes of AcceptanceWindow, each the one of CodeOfSecret |
| Totp.TruncateIsRfc4226 | auth-service/pkg/utils/totp.go:52-53 | the truncation is the 31-bit value of section 5.3 of RFC 4226, byte by byte, and reads in bounds for every MAC |
| Totp.Truncate | auth-service/pkg/utils/totp.go:52-53 | masking with 0x0f and 0x7fffffff reads in bounds and gives a 31-bit value |
| Digits.MaskIsRemainder | auth-service/pkg/utils/totp.go:52-53 | bitwise and with k ones is the remainder by 2^k |
| Totp.CodeIsSixDigits | auth-service/pkg/utils/totp.go:54-56 | a code is exactly six decimal digits that read back as the truncated value modulo 10^6 |
| Totp.CounterRoundTrip | auth-service/pkg/utils/totp.go:44-46 | the big-endian counter field reads back as the counter |
| Totp.AcceptanceWindow | auth-service/pkg/utils/totp.go:60-70 | from second 30 on exactly the codes of the previous, current and next step are accepted (sections 4.2 and 5.2 of RFC 6238) |
| Totp.DriftTolerated | auth-service/pkg/utils/totp.go:59-70 | a code made at t is accepted at every time within 30 s of t |
| Totp.WindowLasts90Seconds | auth-service/pkg/utils/totp.go:59-70 | the seconds at which a step is in the window are 90 in a row |
| Totp.WindowAtTheEpoch | auth-service/pkg/utils/totp.go:44-44 | before second 30 two steps are accepted, and at second 0 also the largest 64-bit counter |
| Paging.Clamps | auth-service/internal/usecase/user_usecase.go:29-37 | page sizes are clamped to 1 to 100 with 10 for none, once and for all; the repository has only the floor |
| Paging.PagesPartition | auth-service/internal/repository/postgres/user_repo.go:129-166 | pages 1 to the page count, one after another, are the list, each row once and in order |
| Paging.PageContents | auth-service/internal/repository/postgres/user_repo.go:136-146 | pages before the last are full, the last is not empty, and each holds the rows from (page - 1) * limit on |
| Paging.OffsetFits | auth-service/internal/repository/postgres/user_repo.go:136-136 | the offset of every page that has rows does not overflow; that of the page after the last does if and only if it reaches 2^63 |
| Paging.PagesPastTheEnd | auth-service/internal/repository/postgres/user_repo.go:136-146 | a page past the last is empty if and only if its wrapped offset does not fall inside the list |
| Paging.HugePageWrapsAround | auth-service/internal/repository/postgres/user_repo.go:136-136 | a page number whose offset wraps to 0 and returns page 1 again |
| Paging.FloatPagesExact | auth-service/internal/usecase/user_usecase.go:44-47 | for fewer than 2^53 rows the floating-point page count is the integer ceiling, for any monotone rounding that fixes integers and has relative error at most 2^-53 |
| Paging.RoundsAbove | auth-service/internal/usecase/user_usecase.go:46-46 | an inexact quotient is not rounded down to the integer below it |
| Paging.FloatPagesInexactAbove | auth-service/internal/usecase/user_usecase.go:46-46 | at 2^53 + 1 rows the count can be one short |
| Users.ArrivesInOrder | auth-service/internal/repository/postgres/user_repo.go:145-165 | a page arrives whole if and only if enough rows do, and otherwise is cut short |
| Users.EachUserOnOnePage | auth-service/internal/repository/postgres/user_repo.go:129-166 | a user is on some page of a tenant's listing if and only if it is the tenant's, and then on one page only |
| Users.InsertConsistent | auth-service/internal/repository/postgres/user_repo.go:23-39 | an INSERT keeps keys, one email per tenant and every row's born identity |
| Users.UpdateConsistent | auth-service/internal/repository/postgres/user_repo.go:113-121 | so does an UPDATE that writes the row's own role |
| Users.DeleteConsistent | auth-service/internal/repository/postgres/user_repo.go:123-127 | so does a DELETE |
| Users.PickByEmail | auth-service/migrations/000002_enterprise_features.up.sql:27-27 | with one email per tenant the row the query picks is the row with that email |
| Users.UserRepository.Create | auth-service/internal/repository/postgres/user_repo.go:23-39 | inserts the row unless the id or the tenant's email is taken, and tells a conflict from another error |
| Users.UserRepository.Save | auth-service/internal/repository/postgres/user_repo.go:113-121 | writes nine columns of the row, never tenant, OAuth pair or creation time; an absent id changes nothing and a taken email is an error |
| Users.UserRepository.Remove | auth-service/internal/repository/postgres/user_repo.go:123-127 | removes exactly the row of that id |
| Users.UserRepository.GetByEmail | auth-service/internal/repository/postgres/user_repo.go:41-57 | answers a row of that tenant and email, or none if there is none |
| Users.UserRepository.GetByOAuth | auth-service/internal/repository/postgres/user_repo.go:77-93 | answers a row of that tenant, provider and subject, or none if there is none |
| Users.UserRepository.List | auth-service/internal/repository/postgres/user_repo.go:129-166 | the clamped page of the tenant's listing, as far as rows arrived, and its size; an error when a query fails or the wrapped offset is negative |
| Users.UserUseCase.ListUsers | auth-service/internal/usecase/user_usecase.go:29-56 | the clamped page, and below 2^53 rows a page count that is the number of pages that make up the list, from there on the rounded quotient |
| Users.UserUseCase.ListScim | auth-service/internal/usecase/scim_usecase.go:94-112 | the SCIM view of that page; the startIndex answered is the one-based position of its first row |
| Users.StartIndexOfPage | auth-service/internal/usecase/scim_usecase.go:109-109 | the first row of a page is row (page - 1) * limit + 1 of the list, without overflow |
| Domain.Permissions | auth-service/internal/domain/permission.go:12-36 | an admin has all four permissions, a member the two on profiles, an unknown role none |
| AuthUseCases.AuthUseCase.constructor | auth-service/internal/usecase/auth_usecase.go:52-71 | over a consistent table and an empty Redis the stores are the machine's initial world |
| AuthUseCases.AuthUseCase.Throttle | auth-service/internal/delivery/http/middleware/ratelimit_middleware.go:45-61 | the limiter in front of every call leaves and answers what the machine's throttle call does, on the same Redis; Throttling.ThrottleOnce and ThrottleAnswers say what that is |
| AuthUseCases.AuthUseCase.Register | auth-service/internal/usecase/auth_usecase.go:73-110 | leaves and answers what the machine's run of the call does, which is that of Answers.RegisterEnds |
| AuthUseCases.AuthUseCase.Login | auth-service/internal/usecase/auth_usecase.go:112-146 | the same for login, with LoginEnds and UnknownLoginEnds |
| AuthUseCases.AuthUseCase.VerifyMFAChallenge | auth-service/internal/usecase/auth_usecase.go:148-173 | the same for an MFA challenge, with VerifyMfaEnds, LapsedEnds and UnreadEnds |
| AuthUseCases.AuthUseCase.SetupMFA | auth-service/internal/usecase/auth_usecase.go:175-193 | the same for MFA set-up, with SetupMfaEnds and NoRowEnds |
| AuthUseCases.AuthUseCase.ConfirmMFASetup | auth-service/internal/usecase/auth_usecase.go:195-208 | the same for MFA activation, with ConfirmMfaEnds and NoRowEnds |
| AuthUseCases.AuthUseCase.RequestEmailVerification | auth-service/internal/usecase/auth_usecase.go:210-218 | the same for a request to verify an email, with RequestEnds and UnknownRequestEnds |
| AuthUseCases.AuthUseCase.ConfirmEmailVerification | auth-service/internal/usecase/auth_usecase.go:220-235 | the same for its confirmation, with ConfirmEmailEnds, LapsedEnds and UnreadEnds |
| AuthUseCases.AuthUseCase.RequestPasswordReset | auth-service/internal/usecase/auth_usecase.go:237-245 | the same for a request to reset a password, with RequestEnds and UnknownRequestEnds |
| AuthUseCases.AuthUseCase.ConfirmPasswordReset | auth-service/internal/usecase/auth_usecase.go:247-270 | the same for its confirmation, with ConfirmResetEnds, RejectedEnds, LapsedEnds and UnreadEnds |
| AuthUseCases.AuthUseCase.OAuthLoginURL | auth-service/internal/usecase/auth_usecase.go:272-293 | the same for issuing an OAuth state, with OAuthUrlEnds |
| AuthUseCases.AuthUseCase.HandleOAuthCallback | auth-service/internal/usecase/auth_usecase.go:295-347 | the same for an OAuth callback, with BadStateEnds, NoExchangeEnds, KnownCallbackEnds, NewCallbackEnds and UnreadIdentityEnds |
| AuthUseCases.AuthUseCase.RefreshToken | auth-service/internal/usecase/auth_usecase.go:349-376 | the same for a refresh, with RefreshEnds, LapsedEnds and UnreadEnds |
| AuthUseCases.AuthUseCase.Logout | auth-service/internal/usecase/auth_usecase.go:378-381 | the same for a logout, with LogoutEnds |
| AuthUseCases.AuthUseCase.GenerateSession | auth-service/internal/usecase/auth_usecase.go:383-403 | stores a refresh token of the user for the configured time and answers with the claims, their lifetime and the token, as the machine's last command does |
| AuthUseCases.AuthUseCase.ScimCreateUser | auth-service/internal/usecase/scim_usecase.go:31-60 | the same for SCIM creation, with ScimCreateEnds |
| AuthUseCases.AuthUseCase.ScimUpdateUser | auth-service/internal/usecase/scim_usecase.go:70-88 | the same for a SCIM update, with ScimUpdateEnds and NoRowEnds |
| AuthUseCases.AuthUseCase.ScimDeleteUser | auth-service/internal/usecase/scim_usecase.go:90-92 | the same for a SCIM deletion, with ScimDeleteEnds |

## Left out

- HTTP decoding, routing, envelopes, CORS, logging, metrics, tracing, health probes, audit log text and email delivery: no state of their own. The error of a failed email delivery is not modelled.
- Postgres and Redis themselves: foreign. When a query matches several rows the model picks a fixed but unspecified one; the tenant foreign key and column lengths are not modelled.
- Redis expiry: an entry is live until the millisecond of its expiry; eviction and persistence are not modelled.
- bcrypt, SHA-1, HMAC, RSA, JWT text, PEM, JWKS and randomness: ideal or arbitrary. An access token is the id, email, role and lifetime in the reply. Lengths of passwords are counted in characters, not in UTF-8 bytes.
- The code exchange with a provider: its result is a parameter of the callback. The providers' login URLs are an arbitrary function in `Config`.
- Email cleaning: an arbitrary partial function in `Config`.
- Trimming and upper-casing a TOTP secret outside ASCII.
- Stored Redis values: the text of an id, a provider name or a counter is a datatype, so text that parses as more than one of them is not modelled. Text that is no id becomes the nil id, except in a refresh, which rejects it.
- `extractClientIP`: the address is a parameter of the limiter.
- `GetProfile`, SCIM `GetUser` and `GetByExternalID`: lookups that forward one row and that no modelled call depends on.
- The schema names, resource type and location in a SCIM answer: constants and the id again.
- Interleaved writes of one user row: `UPDATE` writes whole rows, so monotone flags and the password frame are stated for calls that do not overlap.
- Users.UserRepository.List: the database's selection and order are a parameter, `rows`, required to hold each row of the tenant once, newest first, ties in some order.
- Users.UserUseCase.ListScim: assumes fewer than 2^63 rows, the range of the code's count.
- Paging.PagesPartition: assumes fewer than 2^63 rows, the range of the code's count.
- Totp.AcceptanceWindow: states which counters are tried; two counters may have the same code by collision.
- Tenancy.TenantsAreIndependent: other tenants' callbacks are kept as callbacks whose exchange fails, since the OAuth states are shared by all tenants; the time other tenants' calls took is waited out. A call that names a user id or a token is dropped if that row, or the token's owner, is another tenant's.
- Isolation.TenantsAreIsolated: a call of another tenant is kept up to its first command that is left out, where it stops.
