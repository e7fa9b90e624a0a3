# bauth, modelled and proved in Dafny

bauth is an email login service: magic links and six-digit codes, OAuth authorization codes with PKCE,
rotating refresh tokens with reuse detection, and signed access tokens that other services verify on
their own. This project models its tables, its handlers, its background jobs, the verifier of
`bauth_client` and the session object of `bauth_sdk`, and proves what they promise for every run.

`dafny verify dfyconfig.toml` checks everything.

## How it is built

Time is in microseconds on one clock. Rows are numbered from one counter, and the secret of a row (link
token, authorization code, refresh token) is its number: fresh and never reused. S256 and
HMAC are injective constructors. Configuration, random codes and what an operator does are parameters.

| Module | What it holds |
|---|---|
| `Base`, `Tables` | Constants, the tables (`Db`), a record of everything that ever happened (`Ledger`, never read by the server), the clock |
| `Refresh`, `EmailedCodes`, `Login`, `Account`, `Purge` | The committed effect of each handler and of the purge, as functions |
| `Server`, `CandidateQuery`, `PurgeJob` | The same handlers, the code queries and the batched purge as classes and loops that change rows step by step and roll back, proved equal to those functions |
| `System` | Sixteen kinds of step (`Action`) and runs of them |
| `TokenForest`, `TokenRuns`, `TokenTheorems`, `Detection`, `HonestClient`, `LateCopies` | The token tree, reuse detection, the honest client, and what a delayed copy of its requests costs it |
| `Sdk`, `SdkRounds` | The session object as a class: the shared promise, the running bodies and the store, composed with the server; what each answer leaves in the store |
| `SigningKeys`, `KeyWindows`, `RotationDates`, `Verifier`, `EndToEnd` | Key rotation, its dates, loaded key sets, the verifier's cache with its two locks, and their composition |
| `References`, `FlowBounds`, `Budget`, `CodeBudgets`, `Accounts`, `Chain`, `Soundness`, `Owners` | The invariants of the login side, kept by every step |
| `Guarantees`, `Pacing` | What follows for every run |
| `Logins`, `AccountAnswers`, `DisabledAccounts`, `SessionLife` | Exactly when each request succeeds, with every bound as a number: logins from the first step to the session, confirmations, address changes, deletion, logout, refreshes, and what a disabled or deleted account gets |
| `PurgeEffects`, `PurgeInvisible`, `PurgeDates`, `PurgeExactly`, `PurgeReplays`, `PurgeRuns` | What a purge deletes, and exactly which answers it changes |
| `MagicCode` | Drawing and printing codes |
| `RefreshStatements`, `RefreshRecords`, `RefreshConservation`, `RefreshRaces`, `RefreshRevocation`, `RefreshRuns` | The refresh grant one SQL statement at a time, at READ COMMITTED with row locks and snapshots: its tree, what each token's issue is recorded with, its fresh tokens, the theorems, revocation, and runs written down |
| `RefreshAlone` | Ties those statements to the one-step grant |
| `LoginRaces`, `ExchangeRaces`, `AddressRaces` | Login completion, on top of it the code exchange, and the account's address, one statement at a time |

A run starts from an empty database (`Init`, `Boot`, `Start`) and is any sequence of steps, with `Tick`,
`Wait` moving the clock. Invariants are predicates over only the tables they need; each has one lemma per
kind of step, and `Soundness.Always` puts them together.

## Where the code does less than it says

- The fork bound and conservation hold for whole transactions. Between statements they do not
  (`RefreshRuns.ForkEscapes`): a child refreshed after a late retry looked for used successors and before
  it supersedes them leaves two usable lines. `RefreshRaces.FreshUnderConcurrency` counts one more fresh
  token for each such child, and `RefreshRaces.EscapesAreRaces` says exactly which children those are.
- A child can be dated before its parent's rotation when the later of two concurrent refreshes began first
  (`RefreshRuns.ChildDatedBeforeRotation`), exactly if the row it locked showed a rotation later than its
  own start (`RefreshRaces.DateIsDecidedAtTheLock`).
- A refresh in flight can commit a token after its session was revoked (`RefreshRuns.IssuedAfterRevocation`):
  the session is read from the snapshot of the locking read. It gets past its lock exactly if the session was
  neither revoked nor over when that read started (`RefreshRevocation.DecidedAtTheRead`), and a revocation
  after that changes nothing for it (`RefreshRevocation.RevocationComesTooLate`,
  `RefreshRevocation.PastTheLockItCommits`).
- `record_code_failure` writes NULL below the limit. Next to a concurrent link confirmation it makes a used
  link pending again (`LoginRaces.RecordingAFailureReopensTheLink`; `LoginRaces.ReopensIff` says exactly
  when). The flow is still completed only once.
- A login reads the account's address without a lock and does not look at the row count of the update that
  marks it verified, so it can commit on an account that has just moved (`AddressRaces.LoginAfterTheMove`).
  That count is zero exactly if the last move committed between the read and the update went elsewhere; the
  account is off the mailed address at the commit exactly if the last move committed between the read and the
  commit did, and never if the count was one (`AddressRaces.OwnershipUnderConcurrency`).
- A retry after a lost answer is meant to be safe while nobody used what the server sent. A delayed copy of an
  app's own request, of a token it has replaced since and more than 30 s after that token's rotation, costs the
  app its session
  (`LateCopies.ADelayedCopyThrowsOut`); `LateCopies.LateCopyCostsTheSessionIff` says exactly which copies do.
- The purge's own comment says nothing will use an unverified account after a week. One that was just sent
  a login link can (`PurgeRuns.PurgeTakesAnImportedAccountsLink`), and deleting its link brings back the
  older code of the same flow (`PurgeRuns.PurgeRevivesAnOlderCode`). `PurgeExactly.PurgeShowsExactly` and
  `PurgeExactly.CodeVerdictIff` say exactly which answers change.
- A replayed authorization code ends the session it opened only while the row of the code exists: after a
  purge, exactly until a day after its flow ended (`PurgeReplays.ReplayAfterPurgeIff`).
- The session object shares one request so that no rotated token is replayed. If the write of the new
  tokens fails, the replaced one is sent again (`Sdk.FailedWriteResends`), and only then
  (`Sdk.SdkIsHonest`); the server takes it for a retry.

## Model

| member | source | states |
|---|---|---|
| TokenTheorems.ForestAlways | bauth_server/src/routes/oauth.rs:225-266 | After every run: one root per session, children share their parent's session and are no older than its rotation, a superseded token was never rotated and has no child |
| TokenTheorems.ForkBound | bauth_server/src/routes/oauth.rs:237-247 | After every run: once any child was issued over 30 s after its parent's rotation, every child but the newest is superseded |
| TokenTheorems.SiblingsComeFromGrace | bauth_server/src/routes/oauth.rs:234-247 | Two unsuperseded children of one token were both issued within its grace period |
| TokenTheorems.Conservation | bauth_server/src/routes/oauth.rs:229-265 | After every run: a session that is not revoked has at least one fresh token and at most one more per accepted in-grace reuse; exactly one without such reuse |
| TokenTheorems.LeadsToFresh | bauth_server/src/queries/refresh_tokens.rs:102-119 | From any unsuperseded token of an unrevoked session, a path of unsuperseded children leads to a fresh one |
| HonestClient.NeverThrownOut | bauth_server/src/routes/oauth.rs:225-275 | After any login and any mix of lost answers, retries and foreign steps, each request being handled when it is sent or never: the held token is never refused as reused, and is exchanged while the session lives, the account is enabled and a key can sign |
| LateCopies.CopiesInTimeAreHarmless | bauth_server/src/routes/oauth.rs:225-275 | The same with any number of delayed copies of tokens the app holds or held, each of the held token or handled within 30 s of its token's rotation |
| LateCopies.LateCopyCostsTheSessionIff | bauth_server/src/routes/oauth.rs:229-255 | After any such run, one more copy leaves the next refresh accepted exactly if it is in time too; if not, the copy ends the session where a child of its token was used, and otherwise supersedes the held token, whose next refresh is refused as reused |
| LateCopies.ADelayedCopyThrowsOut | bauth_server/src/routes/oauth.rs:239-255 | After any login, one refresh and a copy of it 31 s later: the app is refused as a thief |
| HonestClient.SendKeepsHold | bauth_server/src/routes/oauth.rs:229-261 | Presenting the held token, answered or not, leaves the held one unsuperseded and without a used child |
| Detection.TaintedIsCaught | bauth_server/src/routes/oauth.rs:229-255 | In a live session a token is refused as reused, and the session revoked, exactly if it is superseded or past grace with a used child |
| Detection.TaintIsPermanent | bauth_server/src/routes/oauth.rs:225-255 | Such a token stays so over every run for as long as its row exists |
| Detection.DetectionIsPermanent | bauth_server/src/routes/oauth.rs:248-255 | Presented after any further run it kills the session; after any run from there nothing is issued for it, every token of its tree is refused and no `/me` lookup succeeds |
| Detection.AccessIsBounded | bauth_server/src/access_token.rs:28-55 | Every access token ever issued expires at most 15 minutes after the 30-day limit fixed when its session opened |
| Sdk.AuthSession.OnRead | bauth_sdk/src/session.ts:82-85 | Sends the stored token, or settles without one |
| Sdk.AuthSession.OnDelivered | bauth_sdk/src/session.ts:85-94 | Stores a new token, clears on `invalid_grant` only, keeps the session on any other error |
| Sdk.AuthSession.OnWritten | bauth_sdk/src/session.ts:86-91 | A write that fails leaves the store as it was |
| Sdk.AuthSession.OnLost | bauth_sdk/src/session.ts:88-93 | A request without an answer rejects and changes no store |
| SigningKeys.KeyTable.ListPublished | bauth_server/src/queries/signing_keys.rs:43-64 | Exactly the published keys, newest first |
| SigningKeys.KeyTable.Load | bauth_server/src/signing_keys.rs:104-139 | Exactly the unretired keys, newest first, and the public half of every published key |
| SigningKeys.KeyTable.EnsureAndLoad | bauth_server/src/signing_keys.rs:144-163 | Adds a key signing at once exactly if none can sign, and loads the result |
| SigningKeys.KeyTable.RotateIfDue | bauth_server/src/signing_keys.rs:167-208 | With the lock, schedules one key a day ahead and retires the others then, exactly if none is pending and the newest signer is 30 days old |
| SigningKeys.SigningKeyIsFirst | bauth_server/src/signing_keys.rs:94-96 | The first listed key that can sign, and none exactly if none can |
| SigningKeys.LoadedSignsWithTheNewest | bauth_server/src/signing_keys.rs:92-139 | At any later instant a loaded set signs with the newest key of its table that can sign then |
| SigningKeys.DueIsDecidedByTheFirst | bauth_server/src/signing_keys.rs:182-196 | Looking at the first listed signer decides whether rotation is due for the whole table |
| KeyWindows.WindowsTileTime | bauth_server/src/signing_keys.rs:144-208 | After every run of the key jobs from an empty table: exactly one key signs at every instant from then on, at most one is pending, handovers are at least 31 days apart, at most two keys are published |
| KeyWindows.CacheRefinesTable | bauth_server/src/signing_keys.rs:92-139 | A set loaded at L picks, for all of [L, L + 24 h), the key a fresh read would pick, across rotations and purges |
| KeyWindows.PurgeKeepsWindows | bauth_server/src/jobs/purge.rs:143-148 | Purging keys retired for 30 days keeps the windows tiling time |
| Verifier.KeyCache.Replace | bauth_client/src/verifier.rs:138-145 | The cache becomes the fetched set, dated now |
| Budget.RecordKeeps | bauth_server/src/queries/magic_links.rs:137-158 | A failure recorded on a candidate keeps five per code, five meaning used up, and ten per key and day |
| Budget.RecordAccounted | bauth_server/src/queries/magic_links.rs:81-158 | With that failure, no span of 23 h 45 min has more than ten attempts |
| Guarantees.EveryWrongCodeIsRecorded | bauth_server/src/routes/magic_link.rs:243-260 | The record of attempts has one entry for each code that was compared and differed, and no other |
| Guarantees.DailyCodeBudget | bauth_server/src/magic_code.rs:17-23 | After every run: at most five failures per mail with five meaning consumed, at most ten over an address's links of the last day, likewise an account's confirmations |
| Guarantees.AttemptsArePaced | bauth_server/src/queries/confirmations.rs:48-113 | While no account row is deleted, no period of 23 h 45 min holds more than ten wrong codes for an address or an account, by the time they were typed |
| Pacing.TenGuessesInAnySpan | bauth_server/src/queries/magic_links.rs:81-158 | The same for every run of sign-ups without account deletion, purges included |
| CodeBudgets.PurgeFlowsForgetsOld | bauth_server/src/jobs/purge.rs:67-79 | Purging flows never removes a failure still inside the daily window |
| Guarantees.FlowIsBounded | bauth_server/src/queries/login_flows.rs:83-111 | After every run, for every flow: links <= counted requests <= 3, wrong codes <= 15, no link outlives its flow, and the flow ends within 15 min x (1 + requests), so within the hour |
| MagicCode.ZoneIsLargestMultiple | bauth_server/src/magic_code.rs:91-91 | For every range: zone + 1 is the largest multiple not above 2^32, nothing overflows, and more than half of all draws are accepted |
| MagicCode.RandomBelowIsUniform | bauth_server/src/magic_code.rs:89-100 | Each value below the range has exactly (zone + 1) / range accepted draws |
| MagicCode.RandomBelow | bauth_server/src/magic_code.rs:90-100 | Returns the residue of the first accepted draw, and none only while all were rejected |
| MagicCode.DrawIsABijection | bauth_server/src/magic_code.rs:93-95 | Four bytes and their little-endian value determine each other |
| MagicCode.PrintingIsABijection | bauth_server/src/magic_code.rs:58-83 | Zero-padded printing maps the values below 10^6 one to one onto the well-formed codes |
| MagicCode.EveryCodeIsEquallyLikely | bauth_server/src/magic_code.rs:58-64 | Each well-formed code comes from exactly 4294 accepted draws |
| Guarantees.OneFlowOneSession | bauth_server/src/login_flow.rs:19-41 | After every run: a flow was completed at most once, a code opened at most one session, for its flow's client and verifier, and each session belongs to the account that confirmed the mail |
| Guarantees.ExchangeOpensIff | bauth_server/src/routes/oauth.rs:145-171 | A session opens exactly if code, client, redirect, verifier, account and key all fit; a refused exchange of an unused code changes nothing |
| Guarantees.ReplayEndsTheSession | bauth_server/src/routes/oauth.rs:190-204 | While the code row exists, presenting it again ends the session it opened for good, and touches no other |
| Guarantees.AccessTokensNameTheirLogin | bauth_server/src/access_token.rs:36-46 | Every access token ever issued names the account whose mail completed the flow and the client that started it |
| LoginRaces.RecordingAFailureReopensTheLink | bauth_server/src/queries/magic_links.rs:137-158 | A run of statements in which counting a failure makes a link that meanwhile logged in pending again |
| LoginRaces.ReopensIff | bauth_server/src/queries/magic_links.rs:145-151 | Counting a failure reopens its link exactly if the link was used meanwhile and this is not the fifth failure; no flow or code changes |
| Guarantees.AddressOwnership | bauth_server/src/queries/users.rs:58-106 | After every run: addresses are unique, and the current address of each verified account was proved by a mail sent to exactly that address and used up once |
| Guarantees.LoginsAreAtTheSentAddress | bauth_server/src/routes/magic_link.rs:278-309 | No link and no code logs in an account whose address differs from the one the mail went to |
| PurgeJob.Job.PurgeLoginFlows | bauth_server/src/jobs/purge.rs:67-79 | Batches of at most 1000 until one comes back short delete all due flows |
| PurgeJob.Job.PurgeEmailChanges | bauth_server/src/jobs/purge.rs:81-94 | The same for email changes expired or used for 7 days |
| PurgeJob.Job.PurgeSpentConfirmations | bauth_server/src/jobs/purge.rs:96-109 | The same for confirmations |
| PurgeJob.Job.PurgeEndedSessions | bauth_server/src/jobs/purge.rs:111-124 | The same for sessions, with their tokens and confirmations |
| PurgeJob.Job.PurgeUnverifiedUsers | bauth_server/src/jobs/purge.rs:127-140 | The same for users, with everything of theirs |
| PurgeInvisible.PurgeSparesSessions | bauth_server/src/jobs/purge.rs:66-158 | In every run a purge leaves the reply to the next refresh, exchange and confirmation code as before, and every token of a live session in place |
| PurgeReplays.ReplayAfterPurgeIff | bauth_server/src/routes/oauth.rs:190-204 | In every run, replaying the code of a live session after a purge ends that session exactly if the row of the code was there and its flow had not ended more than a day ago; otherwise the replay changes nothing |
| PurgeReplays.ReplayRevokesIff | bauth_server/src/queries/authorization_codes.rs:68-85 | Presenting the code of a live session again is refused, and ends the session exactly if the row of the code exists |
| PurgeInvisible.SameCandidate | bauth_server/src/queries/confirmations.rs:65-89 | Deleting rows more than a day old never changes which code may be typed |
| RefreshStatements.StepKeeps | bauth_server/src/queries/refresh_tokens.rs:44-119 | Every single statement of concurrent refreshes and logouts, with row locks, snapshot reads of revocation and expiry, and re-checked updates, keeps the tree and what each open transaction relies on |
| RefreshAlone.AloneIsAtomic | bauth_server/src/routes/oauth.rs:215-275 | For every schedule of one transaction's statements from a quiet state to its commit, time passing between them: the session was alive, and there are exactly the rows of the one-step model and one new token, or for a stolen token no row changed and the session revoked, or for a disabled account the rows and a revoked session |
| RefreshAlone.OverAlone | bauth_server/src/routes/oauth.rs:225-227 | For every such schedule on a session revoked or run out when the request came, nothing is ever committed |
| RefreshAlone.SupersedesInAnyOrder | bauth_server/src/queries/refresh_tokens.rs:104-119 | In whatever order the superseding update takes the rows, it has superseded exactly the unused children once it is done |
| RefreshRaces.ForestUnderConcurrency | bauth_server/src/queries/refresh_tokens.rs:44-119 | Under any interleaving: one root per session, child and parent share it, the parent is rotated before the child is committed, a superseded token is never rotated nor a parent, and an older sibling of a late token is superseded exactly if it was not used |
| RefreshRaces.FreshUnderConcurrency | bauth_server/src/routes/oauth.rs:229-265 | Under any interleaving: fresh tokens are at most one, plus one per in-grace reuse, plus one per child that escaped a late retry, and an unrevoked session has at least one |
| RefreshRaces.EscapesAreRaces | bauth_server/src/routes/oauth.rs:237-247 | A child escapes a late retry exactly if it was rotated between that retry's look for used successors and its superseding update reaching the child; a child that does not escape is superseded |
| RefreshRuns.ForkEscapes | bauth_server/src/routes/oauth.rs:239-246 | A run of statements in which the fork bound and conservation both fail: an unrevoked session with two fresh tokens, no in-grace reuse, and one escaped child |
| RefreshRaces.DateIsDecidedAtTheLock | bauth_server/src/queries/refresh_tokens.rs:48-82 | In any run in which a transaction gets its row lock and later commits, its child is dated before its parent's rotation exactly if the locked row showed a rotation later than the transaction's start |
| RefreshRaces.DatedBeforeRotationIff | bauth_server/src/queries/refresh_tokens.rs:48-82 | The same for every committed child, by the rotation its transaction is recorded to have seen |
| RefreshRuns.ChildDatedBeforeRotation | bauth_server/src/queries/refresh_tokens.rs:69-82 | A run of statements in which a child is dated before its parent's rotation, as `now()` is the start of the transaction |
| RefreshRevocation.DecidedAtTheRead | bauth_server/src/queries/refresh_tokens.rs:44-66 | In any run, a locking read that starts there and gets its row after anything else goes on exactly if, when it started, its session was neither revoked nor over; otherwise it ends and writes nothing |
| RefreshRevocation.RevocationComesTooLate | bauth_server/src/queries/refresh_tokens.rs:44-66 | From any state and for any schedule in which no new locking read of the session starts, the same tokens are committed, rotated and superseded whether or not the session is revoked first |
| RefreshRevocation.PastTheLockItCommits | bauth_server/src/routes/oauth.rs:257-275 | In any run a refresh past its lock whose account is enabled commits its token with its own three statements, whether or not its session was revoked meanwhile |
| RefreshRevocation.RefusedItRevokes | bauth_server/src/routes/oauth.rs:248-262 | In any run a refresh refused for reuse or for a disabled account ends its session and keeps the rows it wrote |
| RefreshRaces.RevocationIsSeen | bauth_server/src/queries/refresh_tokens.rs:44-66 | So a token of a revoked session always went to a refresh whose locking read had started before the revocation was committed |
| RefreshRuns.IssuedAfterRevocation | bauth_server/src/queries/refresh_tokens.rs:48-66 | A run of statements in which a refresh commits a new token after its session was revoked, the session having been read from the snapshot |
| ExchangeRaces.OneSessionUnderConcurrency | bauth_server/src/routes/oauth.rs:135-204 | Under any interleaving of logins, exchanges, replays and logouts: one committed session per code and per flow, a code row consumed exactly if its session is committed, each session opened with its flow's client, redirect and verifier, every caught replay's session revoked |
| ExchangeRaces.RollbackLeavesNoTrace | bauth_server/src/routes/oauth.rs:151-171 | No statement but a commit uses up a code, and none but a commit, a revocation or a logout changes a session |
| ExchangeRaces.RefusedLeavesNoTrace | bauth_server/src/routes/oauth.rs:145-171 | In every run, an exchange that ended without a session opened none and used up no code |
| ExchangeRaces.MismatchFreesTheCode | bauth_server/src/routes/oauth.rs:151-166 | An exchange refused for a mismatch leaves every row as it was, and the next one waiting for the row gets it |
| ExchangeRaces.DuplicateEndsTheSession | bauth_server/src/routes/oauth.rs:145-149 | An exchange that waited and found its code used: after anything that follows it is still on its way, has crashed, or has ended as a replay with the session of its code revoked |
| LoginRaces.OneCompletionUnderConcurrency | bauth_server/src/queries/magic_links.rs:81-158 | Under any interleaving of statements of link and code confirmations, with row and advisory locks: at most one code per flow, at most five failures per link, five meaning consumed, and at most ten over the links of the last day to an address |
| AddressRaces.OwnershipUnderConcurrency | bauth_server/src/queries/users.rs:5-106 | Under any interleaving of logins, sign-ups and email changes: addresses are unique, a verified one was shown by a committed mail; a login's guarded update has no row exactly if the last move committed between its read and that update went elsewhere, and its account is off the mailed address at the commit exactly if the last move committed between its read and the commit did, which cannot be if the update had its row |
| AddressRaces.LoginAfterTheMove | bauth_server/src/routes/magic_link.rs:278-309 | A run of statements in which a login mailed to one address commits on an account that has moved to another |
| Sdk.SdkIsHonest | bauth_sdk/src/session.ts:80-111 | For any interleaving of callers, losses, failed writes and server steps: at most one body runs, the token on the wire is the stored one, it was answered before exactly if that answer could not be stored, tokens go out in issue order, the server never sees reuse, and the store is emptied only once the session is over |
| Sdk.NextKeepsFlight | bauth_sdk/src/session.ts:80-99 | Every event keeps single flight: the variable holds the one promise whose body runs or whose `finally` is due, and is empty when there is none |
| Sdk.OneBody | bauth_sdk/src/session.ts:80-99 | Single flight leaves room for one running body, or one due `finally`, and not both |
| Sdk.FailedWriteResends | bauth_sdk/src/session.ts:86-97 | From any idle state, an answer that cannot be stored makes the next refresh send the replaced token again |
| Sdk.AuthSession.Refresh | bauth_sdk/src/session.ts:80-99 | A caller gets the promise in the variable, a new one exactly if it was empty; single flight is kept |
| Sdk.AuthSession.OnFinally | bauth_sdk/src/session.ts:95-97 | `finally` clears the variable without looking, and what it clears is its own promise |
| EndToEnd.TokensVerify | bauth_server/src/signing_keys.rs:40-46 | A token signed from a set under an hour old is verified, under either lock, by every cache under an hour old, read from a set under an hour old, until expiry plus 30 s, whichever was loaded first and across any rotations |
| EndToEnd.AServerCanSign | bauth_server/src/signing_keys.rs:92-96 | From its load on, a key set has a key to sign with at every instant, in every run of the key jobs |
| EndToEnd.HonestClientsAreServed | bauth_server/src/routes/oauth.rs:262-275 | An honest client of a server that signs with any set loaded earlier gets its next refresh while its session lives and its account is enabled |
| Verifier.KeyCache.ReadLocked | bauth_client/src/verifier.rs:212-219 | Under the read lock a key is given exactly if it is cached and the cache is not stale |
| Verifier.KeyCache.WriteLocked | bauth_client/src/verifier.rs:221-234 | Under the write lock the answer, the new cache and whether a fetch was made are those of the lookup the theorems are about, on what the cache is by then |
| Verifier.CacheIsFaithful | bauth_client/src/verifier.rs:121-146 | For any lookups interleaved between their two locks and any fetch outcomes: fetches at least 30 s apart, and every key answered was read off the set fetched last, under an hour old unless its replacement could not be fetched |
| Verifier.WriteLockDecides | bauth_client/src/verifier.rs:221-234 | A lookup that waited while its key was fetched does not fetch again; a published key is found 30 s after the last fetch; no key of the last fetched set is unknown |
| CandidateQuery.FindNewest | bauth_server/src/queries/magic_links.rs:111-116 | A loop over the rows finds the one of the scope that comes first by date and then by identifier |
| CandidateQuery.SumFailures | bauth_server/src/queries/magic_links.rs:119-122 | A loop over the rows in any order adds up exactly the failures of the key inside the window |
| CandidateQuery.FindCandidate | bauth_server/src/queries/confirmations.rs:65-89 | The newest row of the scope exactly if it is unused, unexpired, under five failures and its key under ten for the day |
| CandidateQuery.FindLinkCandidate | bauth_server/src/queries/magic_links.rs:87-133 | The same for a flow's newest link, the day's failures counted by the address of that link |
| Guarantees.EveryReferenceHolds | bauth_server/migrations/20260913210316_create_sessions.up.sql:1-32 | After every run every foreign key holds: links, codes, sessions, changes, confirmations, and refresh tokens to session and parent |
| PurgeJob.Job.Run | bauth_server/src/jobs/purge.rs:66-158 | However the batches fall, exactly the due rows of all six tables go, with what hangs on them, and each count is the number of rows due at the start |
| PurgeJob.Job.PurgeSigningKeys | bauth_server/src/jobs/purge.rs:143-148 | Deletes and counts exactly the keys retired for more than 30 days |
| PurgeInvisible.PurgeIsInvisible | bauth_server/src/jobs/purge.rs:66-158 | Where no unverified account is a week old, so wherever accounts come from sign-ups, the next link and the next code are answered as before |
| PurgeExactly.PurgeShowsExactly | bauth_server/src/jobs/purge.rs:127-140 | In every run: a link is answered after the purge as before, except that one pending for an account the purge deletes is gone; a typed code logs in afterwards exactly if it opens the newest link not mailed to such an account; an email change is answered as before |
| PurgeExactly.CodeVerdictIff | bauth_server/src/jobs/purge.rs:127-140 | In every run the purge leaves whether a typed code logs in as it was if the newest link of the flow was not mailed to an account it deletes; otherwise the code logs in exactly if it opens the newest link that was not |
| PurgeExactly.CompletesIff | bauth_server/src/routes/magic_link.rs:221-271 | A typed code logs in exactly if it fits the newest link of its pending flow, unused, unexpired and within both limits, and the account is fit |
| PurgeRuns.PurgeTakesAnImportedAccountsLink | bauth_server/src/jobs/purge.rs:15-16 | A run in which a purge takes a link that would log in: an imported account, eight days old, with a link just mailed |
| PurgeRuns.PurgeRevivesAnOlderCode | bauth_server/src/jobs/purge.rs:127-140 | A run in which a purge makes a refused code work: it deletes the account with the flow's newer link, and the older code logs in |
| Owners.OwnersAlways | bauth_server/src/queries/users.rs:58-106 | After every run: a link names the unverified account that used its address when it was mailed, and no unverified account older than an email change holds the address the change asks for |
| DisabledAccounts.RefreshAnswers | bauth_server/src/routes/oauth.rs:225-283 | In a session that is neither revoked nor over: reuse is refused and ends it; otherwise an account that is gone or disabled is refused and ends it; otherwise the refresh is served exactly if a key can sign, with an access token for 15 minutes; no other answer touches the session |
| DisabledAccounts.RefreshStrangers | bauth_server/src/routes/oauth.rs:206-224 | An undeclared client, an unknown token and another client's token are refused, each exactly then, and nothing changes |
| DisabledAccounts.DisabledGetsNothing | bauth_server/src/routes/oauth.rs:256-262 | From the moment an account is disabled, after any run in which nobody enables it: no refresh token and no access token was issued to it, no session of it finds it, and no refresh of any of them is served |
| DisabledAccounts.DeletedGetsNothing | bauth_server/src/routes/me.rs:394-415 | After an account is deleted, whatever happens: nothing is issued to it, it does not come back, and it has no session |
| SessionLife.ServedExactly | bauth_server/src/routes/oauth.rs:206-284 | After any login and any mix of lost answers, retries and foreign steps, the next refresh succeeds exactly if the session is not revoked, under 30 days have passed since the login, the account is there and not disabled, and a key can sign |
| Logins.LinkCompletesIff | bauth_server/src/queries/magic_links.rs:47-66 | A link logs in exactly if it is unused and unexpired, its flow pending, and its account there, enabled and still at the address, or for a sign-up no disabled account at it; wrong codes typed for the same mail do not matter |
| Logins.LinkRefusals | bauth_server/src/routes/magic_link.rs:278-309 | Which of the three refusals a link gets, each exactly when |
| Logins.LinkLogsIn | bauth_server/src/login_flow.rs:23-41 | A login leaves the account verified, keeping an earlier verification, the mail and the flow used up, and one code for a minute |
| Logins.RequestMailsIff | bauth_server/src/routes/magic_link.rs:74-130 | A request is accepted exactly for a pending flow with under three requests and a declared client; it mails a link, for 15 minutes, exactly if an enabled account has the address, or nobody has and sign-ups are allowed |
| Logins.LoginGoesThrough | bauth_server/src/pkce.rs:19-30 | For every verifier of 43 to 128 unreserved characters: a flow started with its digest, a login on it by link or code after anything, and an exchange after anything that leaves the flow, the code and the enabled account there; it opens a session exactly with the client, redirect and verifier of the start, under 60 s after the login, if a key can sign |
| Logins.LoginInTime | bauth_server/src/routes/magic_link.rs:63-271 | From any reachable state: a mail asked for within 15 minutes of the flow's start is accepted, and its link or its code logs in exactly within 15 minutes of that, if the mail reached anybody and, for the code, fewer than ten wrong ones were typed for the address that day |
| AccountAnswers.LogoutEnds | bauth_server/src/routes/oauth.rs:306-324 | A refresh token presented by its own client ends its session, keeping an earlier revocation; any other changes nothing |
| AccountAnswers.RevokeOwnIff | bauth_server/src/routes/me.rs:120-130 | A signed-in user ends any session of their own and no other |
| AccountAnswers.EndedIsForGood | bauth_server/src/queries/sessions.rs:54-100 | A session ended by its client or by its user is over for good: after any further run nothing is issued for it, none of its tokens is served, and it finds no account |
| AccountAnswers.CodeConfirmsIff | bauth_server/src/routes/me.rs:227-273 | A code confirms exactly if its session is signed in and it is the newest of six digits mailed for that session and action, unused, unexpired, to the address still in use, with under five failures and under ten on the account that day |
| AccountAnswers.ConfirmInTime | bauth_server/src/routes/me.rs:190-273 | From any reachable state, a code asked for confirms exactly within 15 minutes, if the session lasts that long and fewer than ten wrong ones were typed for the account that day |
| AccountAnswers.ChangeMailsIff | bauth_server/src/routes/me.rs:309-371 | A link to the new address is mailed, for one hour, exactly if the code confirms and nobody uses the address |
| AccountAnswers.ChangeMovesIff | bauth_server/src/routes/email_change.rs:41-85 | The account moves exactly if the link is unused and unexpired, the account enabled and still at the old address, and nobody else at the new one |
| AccountAnswers.MovesInTime | bauth_server/src/queries/users.rs:82-106 | From any reachable state and after any run that leaves the link unused: it moves the account exactly within the hour, if that is enabled and still where it was and nobody else has the new address, and changes nothing else of any account |
| AccountAnswers.DeletionIsTotal | bauth_server/src/routes/me.rs:394-415 | A right code deletes the account and exactly the rows that are its own; everybody else's stay as they were, but for the link from a session to a deleted code |
| SdkRounds.AnswerIsStored | bauth_sdk/src/session.ts:85-94 | From any state, an answer that is delivered and written leaves in the store the new token if one was issued, nothing for each of the five answers that mean `invalid_grant`, and what was there for any other or if the write fails |
| SdkRounds.RoundLeaves | bauth_sdk/src/session.ts:80-99 | A whole refresh from an idle app sends the stored token, leaves the store as the answer says, and the app idle |
| SdkRounds.LostLeaves | bauth_sdk/src/session.ts:85-99 | A refresh whose request gets no answer leaves the store as it was and the app idle |
| SdkRounds.EmptyStoreSendsNothing | bauth_sdk/src/session.ts:82-84 | With nothing stored, a refresh sends nothing and returns |
| RotationDates.RotatesIff | bauth_server/src/signing_keys.rs:167-208 | In any reachable state, a run with the lock schedules a key exactly if none is waiting to start and the signing one is 30 days old; it starts in 24 hours, when the old one stops; without the lock nothing changes |
| RotationDates.KeysAreReplaced | bauth_server/src/signing_keys.rs:167-208 | If never more than a gap passes between runs of the job that have the lock, the signing key is always under 31 days and that gap old |
| RotationDates.PublishedUntil | bauth_server/src/queries/signing_keys.rs:43-64 | Across any run, a key is in a loaded set exactly until 24 hours after it stops, under the same public half |
| RotationDates.PurgedIff | bauth_server/src/jobs/purge.rs:143-148 | A purge takes exactly the keys that stopped more than 30 days ago |
| Verifier.ReadLockAnswers | bauth_client/src/verifier.rs:211-219 | In any run, a lookup ends under the read lock exactly if the last fetched set has its key and is under an hour old |
| Verifier.WriteLockAnswers | bauth_client/src/verifier.rs:221-235 | In any run, a lookup under the write lock fetches exactly if the last set is an hour old or lacks the key and nothing was fetched for 30 s; without a fetched answer it goes on with the last set, and is out of reach exactly if a fetch failed and there is none |
| PurgeDates.PurgeTakesExactly | bauth_server/src/jobs/purge.rs:66-158 | In every run: flows a day after they end, mails seven days after, sessions thirty, unverified accounts after seven days, each with what hangs on them, and no other row |
| ExchangeRaces.FreeExchangeOpensIff | bauth_server/src/routes/oauth.rs:144-177 | Statement by statement, with nobody in the way: a session exactly if the code came in time, the account is enabled and everything fits, otherwise every row as it was |
| ExchangeRaces.FreeReplayRevokes | bauth_server/src/routes/oauth.rs:192-204 | Statement by statement, a replay nobody is in the way of ends every session of its code and no other |
| LoginRaces.FreeLinkLogsInIff | bauth_server/src/routes/magic_link.rs:171-195 | Statement by statement, with nobody in the way, a link logs in exactly if unused, in time and its flow not completed |
| LoginRaces.FreeCodeLogsInIff | bauth_server/src/routes/magic_link.rs:221-271 | The same for a right code, exactly if its link is the candidate |
| LoginRaces.FreeWrongCodeCountsIff | bauth_server/src/queries/magic_links.rs:137-158 | A wrong code counts exactly if its link is the candidate, and the fifth uses it up |
| AddressRaces.FreeChangeMovesIff | bauth_server/src/queries/users.rs:82-106 | Statement by statement, with nobody in the way, a change moves its account exactly if that is where it was and nobody else has the new address |
| AddressRaces.FreeLoginVerifiesIff | bauth_server/src/routes/magic_link.rs:278-309 | A login verifies its account exactly if that is at the mailed address |
| AddressRaces.FreeSignUpFinds | bauth_server/src/routes/magic_link.rs:285-294 | A sign-up that came too late logs in the account that took its address, or ends if nobody has it any more |
| AddressRaces.FreeSignUpCreatesIff | bauth_server/src/queries/users.rs:7-23 | A sign-up creates a verified account exactly if nobody has the address |
| Server.Server.RefreshToken | bauth_server/src/routes/oauth.rs:206-284 | Step by step through the four-way branch, this leaves exactly the tables, record and reply of the grant the theorems are about, on every path, refusals and rollbacks included |
| Server.Server.AuthorizationCode | bauth_server/src/routes/oauth.rs:135-188 | Consume first, roll back on any mismatch: the outcome is that of the exchange the theorems are about |
| Server.Server.LogIn | bauth_server/src/routes/magic_link.rs:278-309 | Refuses disabled, moved and missing accounts; otherwise verifies the address and completes the flow |
| Server.Server.ConfirmLink | bauth_server/src/routes/magic_link.rs:171-195 | A link is used up only together with the login it gives; every refusal leaves it pending |
| Server.Server.ConfirmCode | bauth_server/src/routes/magic_link.rs:221-271 | A wrong code is counted and kept, a right one is used up only together with its login |
| Server.Server.ConfirmChange | bauth_server/src/routes/email_change.rs:41-85 | Moves the account to the mailed address, verified, unless stale, disabled or taken, and then rolls back |
| Refresh.GrantCases | bauth_server/src/routes/oauth.rs:229-283 | What each answer did: one new child and one access token for the session's user; a revocation; or nothing at all |
| Refresh.GrantRefusals | bauth_server/src/routes/oauth.rs:215-227 | Why a token is turned away before its history is looked at |
| Login.RequestCases | bauth_server/src/routes/magic_link.rs:74-130 | An accepted request counts once and adds at most one link, of 15 minutes, for an account using that very address |
| Login.ConfirmLinkCases | bauth_server/src/routes/magic_link.rs:171-195 | A login used a pending link and completed its pending flow, or nothing changed |
| Login.ConfirmCodeCases | bauth_server/src/routes/magic_link.rs:221-271 | A login used the candidate link with the right code, or one failure was counted on it, or nothing changed |
| Login.ExchangeCases | bauth_server/src/routes/oauth.rs:135-204 | A session opened with everything matching, or a replay rejected, or nothing changed |
| Account.CheckCases | bauth_server/src/routes/me.rs:237-272 | A right code used up its candidate, a wrong one cost one attempt, or nothing changed |
| Account.ConfirmChangeCases | bauth_server/src/routes/email_change.rs:41-85 | The account moved to the mailed address, verified, and the change was used up, or nothing changed |
## Left out

- Cryptography and encodings: SHA-256, HMAC, Ed25519, AES, JWT, base64 and PKCS#8 are taken as ideal; decryption of stored keys never fails.
- HTTP, error bodies, CORS, OpenAPI and the generated SDK schema.
- Email texts and SMTP: a mail is an entry in the record, and its arrival is not modelled.
- Rate limiters: a refusal by one changes no table, so it is no step.
- Normalisation and validation of addresses, clients and redirect URIs: addresses are already trimmed and lower case.
- The schedule of the background jobs: that a key set is under an hour old is an assumption of the theorems that need it.
- Clock skew between app, database and verifiers, and two instances creating the first key at once.
- Manual retirement of keys, and operators editing rows other than importing, disabling and enabling accounts.
- `logout` and `save` during a refresh of the same session object, several tabs on one store, stores, middleware and `fetcher` of the SDK; the expiry margin of `accessToken`, which only decides when to refresh.
- Listing sessions, `last_used_at`, `updated_at`, the `state` and `jti` values, and the warning mails after a change.
- Requesting a link, changing the address and deleting the account are one step each, though the source commits the counted request or the checked code first and the rest after it.
- Confirmations, requests for mails, the purge and the deletion of accounts at statement level: rows are only added and changed there.
- Server.Server.AuthorizationCode: a refused exchange and the search for a replayed code are one step; `ExchangeRaces` has them as two transactions.
- PurgeJob.Job.Run: all deletes at one instant with no other step between batches; the purge lock is not modelled.
- SigningKeys.KeyTable.ListPublished: sorts in a loop what the source leaves to the database.
- CandidateQuery.FindLinkCandidate: the advisory lock is in `LoginRaces`; here the two statements read one state.
- LoginRaces.OneCompletionUnderConcurrency: the expiry of flows is left out of the statement-level model, which only admits more interleavings.
- Sdk.SdkIsHonest: a request is handled when it is sent or never; a copy handled later is in `LateCopies`, for the app without the session object.
- AddressRaces.OwnershipUnderConcurrency: disabled accounts are left out of the statement-level model: a refusal is an abort there.
