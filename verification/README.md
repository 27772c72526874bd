# Verified model of Baytna's session, data-migration and evidence logic

This project models the stateful core of the Baytna platform in Dafny and proves what it keeps:

* **Token refresh** of the admin dashboard: any number of requests, logins and logouts interleave at their
  `await` points, share one token store and one in-flight refresh, and talk to a server that rotates refresh
  tokens. `TokenRefresh.dfy` is the transition system (one event per stretch of code between two awaits, plus
  one per server transaction, with every network outcome left open); `TokenRefreshSafety.dfy` holds the
  invariant, `TokenRefreshTheorems.dfy` and `TokenRefreshProgress.dfy` the results over whole runs,
  `TokenRefreshScenario.dfy` runs that show how far a claim can go, and `HttpClient.dfy` with
  `ClientView.dfy` the client code on the state it really holds, with a simulation into the transition system.
  `TokenRefreshSends.dfy` says what is really sent over whole runs.
  `TokenRefreshServer.dfy` shows that the server's table goes through a run of the session operations.
* **Sessions and one-time codes** (`Sessions.dfy`, `OtpChallenges.dfy`, `OtpRepository.dfy`, `Deletion.dfy`): the two
  tables, the repository calls, the service operations and the scheduled clean-up, over every run. The code table
  refines a plain map from phone to challenge.
* **Comma-list settings** (`Text.dfy`, `CommaLists.dfy`): parsing, validation and printing, with round trips.
* **The request-body limiter** (`BodyLimit.dfy`): the counting closure over any message stream, and its
  agreement with the Content-Length fast path (section 8.6 of RFC 9110).
* **Migrations 0023 to 0025** (`Schema.dfy`, `Migrations.dfy`, `Database.dfy`): validity of the migrated data, exact
  reversal, and exactly when a downgrade is still possible after the system has been used.
* **Evidence decisions**: the post-launch collector and the independent gate script over arbitrary JSON
  (`Json.dfy`, `Stabilization.dfy`, `ReviewGate.dfy`); the governance collector on a freshly migrated database
  (`Governance.dfy`); evidence packs over every later run of generating and pruning (`EvidenceRetention.dfy`,
  `EvidencePacks.dfy`); and delivery lateness (`DeliveryTiming.dfy`).

`dafny verify dfyconfig.toml` checks everything.

Conventions. A keyed hash is taken to be injective, so a secret and its hash are one identifier; random tokens
and keys are parameters that may clash unless a client step says they are fresh. Clock readings are parameters
with no assumed order. A service call is one transaction, and transactions are serial. In the protocol the n-th
session row the server creates carries the n-th token pair. JavaScript continuations that are ready all run before
the next network answer is delivered, as the event loop guarantees; new calls may start among them. A script that
ends in an uncaught exception yields `None`.

Four statements one might expect are false, and are replaced by their exact conditions:

* A rotated token is not answered "revoked" for ever, and a revoked row does not stay for ever: the scheduled clean-up
  deletes it (`Sessions.DeletionShows`; exactly until when is `RotatesAtMostOnce`, `RevokedUntilDeleted`).
* A retried request can carry a pair that the server issued *before* the rejected one, when a login overlaps the
  refresh (`TokenRefreshScenario.RetryMayCarryOlderPair`). It carries a later one exactly when the rejected pair was
  issued before the server answered the refresh (`TokenRefreshTheorems.RetryIsNewerExactlyWhen`).
* An upgraded database cannot always be taken back (`Migrations.TrafficBlocksDowngrade`,
  `Migrations.SystemCloseBlocksDowngrade`); exactly when it can is `Down23ValidExactlyWhen`, `Down25ValidExactlyWhen`
  and, for all three revisions together, `AllTheWayDown`.
* The reported late minutes are not always the number of started minutes
  (`DeliveryTiming.HalfASecondIsDropped`); exactly when they are is `MinutesAreCeilingExactlyWhen`.

Two consequences worth knowing: a session that had an incomplete evidence pack when 0025 ran never passes the
retention check afterwards, because that pack has no end date and is therefore neither accepted nor ever pruned
(`EvidenceRetention.RetentionAfterMigration`); and 0023 records the person who applied an old import as its
approver, so such imports count as independently approved whenever that person did not also create them
(`Governance.JustMigrated`).

## Model

| member | source | states |
|---|---|---|
| TokenRefreshTheorems.SingleFlight | apps/admin_dashboard/src/api/http.ts:37-54 | In every run at most one refresh is unsettled, and `refreshing` is set exactly while one request stands between assigning and clearing it, that request being the initiator |
| TokenRefreshTheorems.OnlyTheInitiatorClears | apps/admin_dashboard/src/api/http.ts:38-53 | Only the initiator of the current refresh clears the variable, only after it settled, and it is assigned only by a rejected request that found it empty |
| TokenRefreshTheorems.SharedOutcome | apps/admin_dashboard/src/api/http.ts:39-53 | All requests that waited for one refresh resume with the outcome it settled with |
| TokenRefreshTheorems.SettledForGood | apps/admin_dashboard/src/api/http.ts:40-53 | A refresh's token, the server's decision on it and its outcome never change in any continuation of the run |
| TokenRefreshTheorems.StoredAtMostOnce | apps/admin_dashboard/src/api/http.ts:49-50 | No issued pair is written to the store twice |
| TokenRefreshSends.FirstSend | apps/admin_dashboard/src/api/http.ts:12-21 | In every run a request that takes a bearer is first sent with the pair in the store at that moment, if any, and any other request without one; the protocol remembers exactly that as its first header for the rest of the run |
| TokenRefreshSends.RetrySendsAnotherPair | apps/admin_dashboard/src/api/http.ts:16-24 | In every run a request that is sent again takes a bearer and may retry; what is then really sent carries a pair, and not what was sent the first time |
| TokenRefreshTheorems.WhoChangesTheStore | apps/admin_dashboard/src/api/http.ts:41-51 | In every run the stored pair is replaced only by a refresh whose body was read and by an administrator's login, each time by the pair the server issued to it; it is removed exactly by a refused refresh, a refused login, the end of a logout and a failed profile request; nothing else touches it |
| TokenRefreshTheorems.PairStays | apps/admin_dashboard/src/api/http.ts:43-51 | The stored pair outlives everything else, failed requests, refreshes and logins included |
| TokenRefreshTheorems.RefreshesExactlyWhen | apps/admin_dashboard/src/api/http.ts:21-41 | A rejected request waits for a refresh exactly when it takes a bearer and has not retried yet; it joins the one under way or else starts one |
| TokenRefreshTheorems.RetriesExactlyWhen | apps/admin_dashboard/src/api/http.ts:22-24 | A request is sent a second time exactly when the refresh it waited for delivered a pair |
| TokenRefreshTheorems.WhatARefreshRemembers | apps/admin_dashboard/src/api/http.ts:40-47 | A refresh that starts presents the stored pair, if any; the moments and circumstances that the other results speak of are those of its start |
| TokenRefreshTheorems.RetryNeverResends | apps/admin_dashboard/src/api/http.ts:16-24 | A request retries at most once, only after a successful refresh, and always with the very pair that refresh delivered: a different pair, stored after the rejected one, also when it joined a refresh older than itself |
| TokenRefreshTheorems.OlderExactlyWhen | backend/app/modules/auth/service.py:153-166 | A pair is older than the one a refresh was answered with exactly when at some point of the run it had been issued and that refresh had not been answered |
| TokenRefreshTheorems.RetryIsNewerExactlyWhen | apps/admin_dashboard/src/api/http.ts:16-24 | A retry carries a later issue than the rejected one exactly when the rejected pair was issued before the server answered the refresh; hence always for a request sent before the refresh began, and always when nothing was stored while the refresh was open |
| TokenRefreshTheorems.PresentedTwiceOnlyIfLost | apps/admin_dashboard/src/api/http.ts:41-50 | A refresh token is presented again only if the earlier presentation ended in a failed fetch or unreadable body |
| TokenRefreshTheorems.NoFailureNoThrow | apps/admin_dashboard/src/api/http.ts:43-49 | Without failing refresh fetches or bodies no refresh ends by throwing |
| TokenRefreshTheorems.NeverPresentedTwice | apps/admin_dashboard/src/api/http.ts:40-51 | On runs without failing refresh fetches or bodies no refresh token is presented twice, with logins and logouts anywhere |
| TokenRefreshTheorems.RotatedTokenWasLost | apps/admin_dashboard/src/api/http.ts:37-53 | With logins, logouts, reloads and clean-ups anywhere, the token of a rotated session, deleted since or not, is presented only after an earlier call that was answered with exactly that rotation and whose answer was lost |
| TokenRefreshTheorems.RevokedTokenWasLost | apps/admin_dashboard/src/api/http.ts:37-53 | Outside a processed logout still in flight, a revoked session's token is presented only after an earlier call whose answer was lost and which rotated the session, or else found it expired |
| TokenRefreshServer.ServerTableIsARun | backend/app/modules/auth/service.py:126-216 | The server's table inside every protocol run, clean-ups included, is the result of a run of the session operations |
| TokenRefreshServer.OneLiveSessionPerLogin | backend/app/modules/auth/service.py:153-166 | In every interleaving, clean-ups included, each login has at most one live session |
| TokenRefreshSafety.StepKeepsInv | apps/admin_dashboard/src/api/http.ts:8-54 | Every event of the protocol keeps the joint invariant of store, module variable, refreshes, calls and session table |
| TokenRefreshSafety.RunKeepsInv | apps/admin_dashboard/src/api/http.ts:8-54 | The invariant holds at the end of every run from a fresh tab |
| TokenRefreshProgress.AtMostThreeFetchesPerCall | apps/admin_dashboard/src/api/http.ts:21-24 | In any interleaving n requests, logins and logouts make at most 3n fetches and no request sends more than twice |
| TokenRefreshProgress.OneRefreshPerRequest | apps/admin_dashboard/src/api/http.ts:22-24 | No request starts two refreshes |
| TokenRefreshProgress.StepWorks | apps/admin_dashboard/src/api/http.ts:12-24 | A start adds at most eight to an explicit measure, a clean-up adds nothing, and every other event strictly decreases it |
| TokenRefreshProgress.RunsEnd | apps/admin_dashboard/src/api/http.ts:8-54 | A run with n calls has at most 9n events besides the scheduled clean-ups |
| TokenRefreshProgress.OneMoreStep | apps/admin_dashboard/src/api/http.ts:38-53 | While a call is unfinished some step that starts no call is possible, and it uses up work |
| TokenRefreshProgress.EveryRunCanFinish | apps/admin_dashboard/src/api/http.ts:8-54 | Every run can be continued, without starting a call, until all its calls are over |
| TokenRefreshProgress.IdleIsClean | apps/admin_dashboard/src/api/http.ts:37-53 | Once all calls are over `refreshing` is clear and no refresh is open |
| TokenRefreshProgress.EveryOutcomeIsOpen | apps/admin_dashboard/src/api/http.ts:21-51 | While no continuation is ready, every request, refresh, login, logout and profile request under way may succeed, be refused or fail; new calls and clean-ups may come at any time |
| TokenRefreshProgress.EveryServerStepIsOpen | backend/app/modules/auth/service.py:58-216 | The server may process any call that has reached it, whether the client still waits or not |
| TokenRefreshScenario.RetryMayCarryOlderPair | apps/admin_dashboard/src/api/http.ts:22-24 | A reachable run in which a request sent after the refresh began is retried with a pair issued before the rejected one |
| TokenRefreshScenario.RetryMayCarryYoungerPair | apps/admin_dashboard/src/api/http.ts:22-24 | A reachable run in which such a request is retried with a pair issued after it, so what the client can see itself decides the order only for requests sent before the refresh began |
| TokenRefreshScenario.LostTokenIsPresentedAgain | apps/admin_dashboard/src/api/http.ts:43-51 | A reachable run in which the answer to a rotation is lost and the token is presented again, and refused as revoked |
| HttpClient.Dashboard.Begin | apps/admin_dashboard/src/api/http.ts:12-21 | What a request is sent with: the stored pair if it takes a bearer and nothing otherwise, which is what the protocol records as its header; the client's state stays its view of the protocol's world, after the start step |
| HttpClient.Dashboard.OnAnswer | apps/admin_dashboard/src/api/http.ts:22-47 | The same for an answer: a refresh token is sent exactly when a request that takes a bearer and has not retried was rejected, no refresh is under way and a pair is stored, and it is that pair's; `retry:false` after the first attempt is the protocol's bound on sends |
| HttpClient.Dashboard.OnRefreshAnswer | apps/admin_dashboard/src/api/http.ts:48-49 | The same for the refresh answer: a refusal clears the store and settles, a good answer waits for its body |
| HttpClient.Dashboard.OnRefreshBody | apps/admin_dashboard/src/api/http.ts:49-51 | The same for the refresh body, given that it is the pair the server issued to this refresh |
| HttpClient.Dashboard.OnRefreshFailure | apps/admin_dashboard/src/api/http.ts:43-53 | A failed refresh fetch or body settles the promise and leaves the stored pair where it was |
| HttpClient.Dashboard.Continue | apps/admin_dashboard/src/api/http.ts:22-24 | The same for a request resuming after the refresh: it is sent again exactly when the refresh delivered a pair, with the stored pair, which is what the protocol records as its header and never the pair that was rejected |
| HttpClient.Dashboard.OnLogin | apps/admin_dashboard/src/api/admin.ts:27-31 | The same for a verified code: an administrator's pair is kept, anyone else clears the store |
| HttpClient.Dashboard.BeginLogout | apps/admin_dashboard/src/api/admin.ts:32-35 | The same for a logout, which sends the stored refresh token or ends at once without one |
| HttpClient.Dashboard.EndReload | apps/admin_dashboard/src/auth/AuthProvider.tsx:14-19 | The same for a profile request at start-up that succeeded or failed: failure clears the store |
| HttpClient.Dashboard.OnServer | backend/app/modules/auth/service.py:126-216 | Whatever the server does between two client steps, the client's state stays its view of the world |
| HttpClient.Dashboard.RefreshingIsOwned | apps/admin_dashboard/src/api/http.ts:37-54 | In every state of the client the module variable is set exactly while one request stands at its own refresh, namely that one, and at most one promise is unsettled |
| ClientView.EverySendIsCounted | apps/admin_dashboard/src/api/http.ts:21-47 | The client calls `fetch` exactly when the protocol counts a fetch, and presents a refresh token exactly when the protocol records a refresh with it |
| ClientView.BearerIsRecorded | apps/admin_dashboard/src/api/http.ts:16-21 | Whenever any event sends a request, the bearer it carries is the pair the protocol records as its header |
| ClientView.OnlyTheHeldPairIsSent | apps/admin_dashboard/src/api/http.ts:16-47 | Every bearer, refresh token and logout token sent is the one in the store at that moment, and a bearer is left out only by a login, a request that takes none, or an empty store |
| ClientView.StoredMirrors | apps/admin_dashboard/src/auth/tokenStore.ts:4-13 | Storing a pair makes it the one read back and leaves the bearers of all calls under way as they were |
| Sessions.ApplyKeepsInv | backend/app/modules/auth/service.py:126-216 | Login, refresh, logout and clean-up keep keys and hashes unique, replaced sessions revoked, and links pointing to younger rows or to deleted ones |
| Sessions.RunKeepsInv | backend/app/modules/auth/service.py:126-216 | The table invariant holds after every run |
| Sessions.RevokedUntilDeleted | backend/app/modules/reliability/jobs.py:213-231 | In every continuation of a run a revoked row stays exactly as it was, link included, until a clean-up finds it expired or revoked for seven days; from then on no row holds its token, unless the token is drawn again |
| Sessions.RotatesAtMostOnce | backend/app/modules/auth/service.py:135-166 | A token that was rotated once is never rotated again: at every later point it is answered "revoked" exactly until a clean-up has deleted its row and "invalid" afterwards, unless the random token is drawn again |
| Sessions.ReplyExactlyWhen | backend/app/modules/auth/service.py:126-166 | What a refresh is answered after every run, from the row of its token: unknown, revoked, expired, owner gone or inactive, identifier taken, or else rotated, each exactly when |
| Sessions.RefreshChangesOneRow | backend/app/modules/auth/service.py:140-166 | In every run a rotation adds one live session of the same user and revokes the presented row in its favour, an expired one is revoked, and nothing else changes |
| Sessions.LogoutChangesOneRow | backend/app/modules/auth/service.py:192-216 | In every run a logout revokes the live row of its token and changes no other row and no other column |
| Sessions.LogoutIsFinal | backend/app/modules/auth/service.py:203-216 | After a logout, in every continuation of the run, its token is answered "revoked" exactly until a clean-up has deleted its row and "invalid" afterwards or when it was unknown, never with a new session, unless it is drawn again |
| Sessions.LiveUntilEnded | backend/app/modules/auth/service.py:126-216 | In every continuation of a run a live session stays unchanged exactly until a logout, a rotation, a late refresh with its token, or a clean-up after its expiry; after that its token never belongs to a live session, unless it is drawn again |
| Sessions.DeletionShows | backend/app/modules/reliability/jobs.py:213-231 | A run in which a clean-up leaves a link to a deleted session, and a later one turns the answer to the rotated token from "revoked" into "invalid" |
| Sessions.OriginSharesEnd | backend/app/core/repositories.py:118-126 | Following replacement links from any row, or from the oldest row still there that it descends from, ends at the same row; links never form a cycle |
| Sessions.LinksFollowLogins | backend/app/modules/auth/service.py:153-166 | In every run that draws no identifier twice, a link leads to a younger session of the same user and the same login or to a deleted one, and no session replaces two |
| Sessions.OneLiveSessionPerLogin | backend/app/core/repositories.py:95-126 | In every run two live sessions never descend from the same login, also through sessions that have been deleted |
| Sessions.AuthRepository.CreateSession | backend/app/core/repositories.py:95-109 | Inserting appends one live row and is refused on a key or hash clash |
| Sessions.AuthRepository.RevokeSession | backend/app/core/repositories.py:118-126 | Revoking changes exactly one row's revocation time and link |
| Sessions.AuthRepository.Refresh | backend/app/modules/auth/service.py:126-190 | The refresh endpoint answers and changes the table as the specification step does, expiry and replay included |
| Sessions.AuthRepository.Logout | backend/app/modules/auth/service.py:192-216 | The live row of the token, if there is one, is revoked now; every other row stays as it was, and an unknown token is silent |
| Sessions.AuthRepository.CleanupAuth | backend/app/modules/reliability/jobs.py:213-231 | Deleting row by row keeps, in order, exactly the unexpired rows that were not revoked a week ago or earlier, and counts the deleted ones |
| OtpChallenges.RunRefines | backend/app/core/repositories.py:52-93 | After every run, clean-ups included, the table represents the map from phone to its last created challenge that is neither used up nor cleaned up |
| OtpChallenges.CleanupRefines | backend/app/modules/reliability/jobs.py:213-217 | Deleting the expired challenges drops exactly the expired entries of the map and of the taken identifiers |
| OtpChallenges.CleanupOnlyHidesExpired | backend/app/modules/reliability/jobs.py:213-217 | A clean-up never changes who can log in: later verdicts differ only by "missing" in place of "expired" for what it deleted |
| OtpChallenges.ScanIsLookup | backend/app/core/repositories.py:80-89 | The ordered, limited query and the map lookup agree whatever the creation times are |
| OtpChallenges.LatestOpenIsTheBook | backend/app/core/repositories.py:52-89 | In every run each phone has at most one open challenge, and the query answers with the last created one unless it was used up or cleaned up |
| OtpChallenges.VerdictIsTheBooks | backend/app/modules/auth/service.py:58-90 | After every run checking a code gives the verdict that the map alone gives |
| OtpChallenges.VerdictOnTheOpenRow | backend/app/modules/auth/service.py:58-90 | After every run, the verdict on a code read off the phone's open row: missing, expired, too many, wrong or a login, each exactly when |
| OtpChallenges.OperationsWorkRowByRow | backend/app/core/repositories.py:52-93 | In every run each operation but the clean-up changes every row by itself, whatever the order of the rows, and only a creation under a free identifier adds one: open and untried |
| OtpChallenges.ClosedUntilDeleted | backend/app/core/repositories.py:91-93 | In every continuation of a run a closed challenge stays closed with its attempts, and its row is there exactly until a clean-up finds it expired, unless its identifier is drawn again |
| OtpChallenges.OneLoginPerChallenge | backend/app/modules/auth/service.py:90-118 | A challenge that logged in once never logs in again, cleaned up or not, unless its identifier is drawn for a new one |
| OtpChallenges.WrongCodesAreCounted | backend/app/modules/auth/service.py:75-88 | The attempts column of an open challenge is the number of wrong codes entered against it |
| OtpChallenges.EveryCheckIsCounted | backend/app/modules/auth/service.py:75-90 | The attempts column is the number of checks made in time against the challenge, the one that logs in and the one past the limit included |
| OtpChallenges.WrongCodesAreBounded | backend/app/modules/auth/service.py:75-84 | No challenge ever takes more wrong codes than the configured maximum |
| OtpRepository.Repository.InvalidateOpenOtps | backend/app/core/repositories.py:52-61 | The bulk update closes exactly the open rows of the phone |
| OtpRepository.Repository.CreateOtp | backend/app/core/repositories.py:63-78 | Creating is the specification step: close the open ones, then add one |
| OtpRepository.Repository.LatestOpenOtp | backend/app/core/repositories.py:80-89 | The answer is an open row of the phone with the greatest creation time, or none exists |
| OtpChallenges.ConsumeRefines | backend/app/core/repositories.py:91-93 | Consuming a row takes its challenge out of the map if it was there, and no other |
| OtpRepository.Repository.VerifyOtp | backend/app/modules/auth/service.py:58-90 | The code check gives the specified verdict and changes the table as specified |
| OtpRepository.Repository.CleanupAuth | backend/app/modules/reliability/jobs.py:213-217 | Deleting row by row keeps, in order, exactly the unexpired rows and counts the deleted ones |
| Text.JoinOfSplit | backend/app/core/config.py:349-357 | Joining at commas undoes splitting, for every string |
| Text.SplitOfJoin | backend/app/core/config.py:349-357 | Splitting undoes joining, for comma-free pieces |
| Text.StripIsTheMiddle | backend/app/core/config.py:206-207 | Stripping keeps one stretch with no white space at its ends and drops only white space |
| Text.LowerIsAscii | backend/app/core/config.py:349 | Lower case turns the k-th capital into the k-th small letter, leaves other characters alone, and leaves no capital |
| Text.SpacesAreExactly | backend/app/core/config.py:206-207 | Exactly the twelve white-space characters of Latin-1 are trimmed |
| CommaLists.ListRoundTrip | backend/app/core/config.py:205-211 | Printing a parsed origin or host list and parsing it again gives the same list |
| CommaLists.AcceptanceIsExact | backend/app/core/config.py:349-357 | A list is accepted exactly when its trimmed, lower-cased, non-empty tokens form a non-empty subset of the allowed set; otherwise the error names the failing case and tokens |
| CommaLists.AcceptedOutput | backend/app/core/config.py:349-357 | The stored list has distinct tokens, exactly those of the input, in order of first occurrence |
| CommaLists.DedupeOrder | backend/app/core/config.py:357 | Deduplication keeps tokens in the order of their first occurrences |
| CommaLists.CaseDoesNotMatter | backend/app/core/config.py:349-357 | Two values that differ only in the case of ASCII letters are validated alike, for every allowed set |
| CommaLists.AllowedListsAreKept | backend/app/core/config.py:337-382 | Every list of allowed tokens without repetition is accepted by its setting and kept as it is written |
| CommaLists.DefaultsAreAccepted | backend/app/core/config.py:94-100 | Both settings accept their own default value and keep it |
| CommaLists.ValidateTwice | backend/app/core/config.py:337-382 | Validating an accepted output returns it unchanged, for every allowed set |
| CommaLists.SettingsAreStable | backend/app/core/config.py:337-382 | Both validators accept what they store and store it again |
| CommaLists.MethodsAreTokens | backend/app/core/config.py:213-221 | Digit tokens become the number they denote, others stay, and the list fails exactly when a digit string is too long to convert |
| CommaLists.PaymentMethodList | backend/app/core/config.py:213-221 | The loop computes the specified list or its first unreadable number |
| CommaLists.PaymentMethodsRoundTrip | backend/app/core/config.py:213-221 | Printing a parsed payment-method list and parsing it again gives the same list |
| BodyLimit.Limiter.LimitedReceive | backend/app/core/middleware.py:94-103 | One read counts the body, passes the message unchanged, or raises exactly when the count passes the limit |
| BodyLimit.ReadThrough | backend/app/core/middleware.py:92-103 | Reading a whole stream yields at each position what the running total dictates |
| BodyLimit.DeliversLongestPrefix | backend/app/core/middleware.py:92-103 | Delivered request messages are the longest prefix within the limit; others always pass; later request reads raise |
| BodyLimit.FitsIsLongest | backend/app/core/middleware.py:98-102 | That prefix is within the limit and every longer one is not |
| BodyLimit.WhatIsDelivered | backend/app/core/middleware.py:67-119 | A served application gets exactly the messages it took; one turned away by its header gets none; one turned away by counting gets the messages before the request that takes the total over the limit |
| BodyLimit.Handle | backend/app/core/middleware.py:62-119 | A request is served exactly when its header is no number over the limit and what the application takes is within it, and the application has then seen just those messages; a rejection says what it had seen; other traffic is passed on |
| BodyLimit.NeverMoreThanTheLimit | backend/app/core/middleware.py:62-119 | Whatever the headers say, the application never sees more than the limit |
| BodyLimit.CountingIsExact | backend/app/core/middleware.py:92-119 | Counting rejects exactly when the messages taken are over the limit |
| BodyLimit.RejectsExactlyWhen | backend/app/core/middleware.py:62-119 | For every header, honest or not, a request is rejected exactly when its header is a number over the limit or the application takes more than the limit; any other header gives the response of no header |
| BodyLimit.LastContentLengthCounts | backend/app/core/middleware.py:68-72 | The header believed is the last one named "content-length" in any mixture of cases, and there is none exactly when no header has that name |
| BodyLimit.DecimalHeaderIsRead | backend/app/core/middleware.py:75 | A length written in decimal is read back unless it has too many digits to convert |
| Text.SignIsRead | backend/app/core/middleware.py:75 | A sign before the digits is read as the sign of the number |
| Text.OnlyNumbersAreRead | backend/app/core/middleware.py:75-88 | Whatever is read as a number is, white space aside, an optional sign and digits with single underscores between them, and has that value |
| BodyLimit.HonestLengthAgrees | backend/app/core/middleware.py:67-103 | With a true Content-Length, leading zeros included, and a fully read body, header and counting reject the same requests |
| BodyLimit.HonestLengthAndPartialReads | backend/app/core/middleware.py:67-103 | An application that stops early is treated differently exactly when the header is short enough to convert, the body is over the limit and the part it takes is not |
| Migrations.Up23Valid | backend/alembic/versions/0023_sprint48_launch_traffic_vendor_accounting.py:15-388 | Every valid 0022 database becomes a valid 0023 database with exactly one traffic policy per zone |
| Migrations.Up24Valid | backend/alembic/versions/0024_sprint49_launch_command_center.py:16-323 | Every valid 0023 database becomes a valid 0024 database |
| Migrations.Up25Valid | backend/alembic/versions/0025_sprint50_post_launch_stabilization.py:15-192 | Every valid 0024 database becomes a valid 0025 database |
| Migrations.WhatRevision23Writes | backend/alembic/versions/0023_sprint48_launch_traffic_vendor_accounting.py:15-204 | What every new column and every new policy holds after 0023: applied imports approved by their applier and others pending, reconciled settlements up for review and others open, the default policy in the zone creator's name |
| Migrations.WhatRevision25Writes | backend/alembic/versions/0025_sprint50_post_launch_stabilization.py:15-151 | What every new column holds after 0025: complete packs final and others working, none with an end, closes out of the cadence, no automatic pause, rollouts by administrators |
| Migrations.UpgradesTouchOnlyTheirTables | backend/alembic/versions/0025_sprint50_post_launch_stabilization.py:15-192 | Neither revision touches a table it does not name |
| Migrations.Down23Undoes | backend/alembic/versions/0023_sprint48_launch_traffic_vendor_accounting.py:391-471 | Downgrading right after 0023 restores every row |
| Migrations.Down25Undoes | backend/alembic/versions/0025_sprint50_post_launch_stabilization.py:195-233 | Downgrading right after 0025 restores every row |
| Migrations.ThereAndBack | backend/alembic/versions/0025_sprint50_post_launch_stabilization.py:15-233 | All three upgrades give a valid database with one policy per zone, and the three downgrades bring the original back |
| Migrations.Down23ValidExactlyWhen | backend/alembic/versions/0023_sprint48_launch_traffic_vendor_accounting.py:391-400 | After any use, undoing 0023 gives a valid database exactly when no traffic incident exists |
| Migrations.Down25ValidExactlyWhen | backend/alembic/versions/0025_sprint50_post_launch_stabilization.py:209-214 | After any use, undoing 0025 gives a valid database exactly when every close has a human preparer |
| Migrations.TrafficBlocksDowngrade | backend/alembic/versions/0023_sprint48_launch_traffic_vendor_accounting.py:391-400 | A valid 0023 database, with one traffic incident, that is not valid after undoing 0023 |
| Migrations.SystemCloseBlocksDowngrade | backend/alembic/versions/0025_sprint50_post_launch_stabilization.py:209-214 | A valid 0025 database, with one close the system prepared, that is not valid after undoing 0025 |
| Migrations.AllTheWayDown | backend/alembic/versions/0025_sprint50_post_launch_stabilization.py:195-233 | From any valid 0025 database the three downgrades succeed one after the other exactly when every close has a preparer and no traffic incident exists; the database left at the end is valid exactly when no traffic incident exists |
| Migrations.DowngradesLoseOnlyTheNew | backend/alembic/versions/0025_sprint50_post_launch_stabilization.py:195-233 | However the database was used, the three downgrades lose only what the three revisions brought: every other row and column is still there |
| Database.BackfillReviews | backend/alembic/versions/0023_sprint48_launch_traffic_vendor_accounting.py:63-87 | Updating row by row, in any order, gives the backfilled table |
| Database.QueueSettlements | backend/alembic/versions/0023_sprint48_launch_traffic_vendor_accounting.py:128-138 | Updating row by row, in any order, gives the queued table |
| Database.InsertPolicies | backend/alembic/versions/0023_sprint48_launch_traffic_vendor_accounting.py:156-204 | Inserting from the zones, in any order, gives one default policy per zone |
| Database.ClassifyPacks | backend/alembic/versions/0025_sprint50_post_launch_stabilization.py:147-151 | The retention update touches exactly the complete packs |
| Database.Connection.Upgrade23 | backend/alembic/versions/0023_sprint48_launch_traffic_vendor_accounting.py:15-388 | The ordered operations succeed on every valid database and then equal the specified upgrade; a failure leaves no trace |
| Database.Connection.Downgrade23 | backend/alembic/versions/0023_sprint48_launch_traffic_vendor_accounting.py:391-471 | The downgrade fails exactly when the narrowed category check does, and leaves no trace |
| Database.Connection.Upgrade25 | backend/alembic/versions/0025_sprint50_post_launch_stabilization.py:15-192 | The ordered operations succeed on every valid 0024 database and then equal the specified upgrade; a failure leaves no trace |
| Database.Connection.Downgrade25 | backend/alembic/versions/0025_sprint50_post_launch_stabilization.py:195-233 | The downgrade fails exactly when a close has no preparer, and leaves no trace |
| Stabilization.JudgeService | scripts/pilot_post_launch_stabilization_evidence.py:43-75 | The first steps survive, judge and record as specified |
| Stabilization.Judge | scripts/pilot_post_launch_stabilization_evidence.py:43-124 | The steps in order survive exactly the readable answers and record the specified findings and failures |
| Stabilization.Collect | scripts/pilot_post_launch_stabilization_evidence.py:43-157 | The collector writes the specified file and ends with the specified status, or dies; what the file says is the subject of the next four rows |
| Stabilization.WrittenVerdict | scripts/pilot_post_launch_stabilization_evidence.py:126-157 | In every written file "verified" says whether every requirement is met, "failures" lists the message of each unmet one, once, in the order of the checks, and the exit status is 0 or 2 accordingly |
| Stabilization.WrittenFlags | scripts/pilot_post_launch_stabilization_evidence.py:126-134 | Each of the five flags in the written file says whether the requirement of that name is met |
| Stabilization.WrittenAnswers | scripts/pilot_post_launch_stabilization_evidence.py:127-137 | The file keeps the answers it judged |
| Stabilization.WrittenCounts | scripts/pilot_post_launch_stabilization_evidence.py:98-148 | The counts in the file are counts over the rows of the answers |
| Json.FalseValues | scripts/pilot_post_launch_stabilization_evidence.py:59-122 | The seven kinds of values that count as false, and no others |
| Json.IntMeans | scripts/pilot_post_launch_stabilization_evidence.py:59 | What `int` makes of each kind of decoded value, and when it fails |
| Json.RowsMean | scripts/pilot_post_launch_stabilization_evidence.py:98-122 | Which decoded values can be iterated as rows, and the rows they give |
| Stabilization.CadenceMeans | scripts/pilot_post_launch_stabilization_evidence.py:98-105 | The cadence filters accept exactly when some system-prepared cadence close is closed and no overdue one is open |
| Stabilization.RetentionMeans | scripts/pilot_post_launch_stabilization_evidence.py:114-122 | The pack filters accept exactly when some pack is complete, complete ones are final for ever, and all others are working with an end |
| Stabilization.FailuresAreExact | scripts/pilot_post_launch_stabilization_evidence.py:43-124 | For all answers the collector survives, each failure is reported exactly when its requirement on the answers is not met |
| Stabilization.VerifiedMeans | scripts/pilot_post_launch_stabilization_evidence.py:43-150 | The collector survives and writes "verified": true exactly when every requirement is met |
| ReviewGate.CheckFlags | scripts/expansion_review_gate.py:26-35 | The loop complains about exactly the required flags that are not literally true, in order |
| ReviewGate.Decide | scripts/expansion_review_gate.py:15-63 | The gate's steps give the specified decision on any decoded file |
| ReviewGate.GateLists | scripts/expansion_review_gate.py:18-49 | On any file it survives, the gate lists a complaint exactly when there is a finding behind it |
| ReviewGate.GateOnEvidence | scripts/expansion_review_gate.py:15-63 | The gate survives every file the collector writes, for any expectations, and complains exactly about what the collector found |
| ReviewGate.EveryFailureIsEchoed | scripts/expansion_review_gate.py:18-49 | Each failure the collector reports makes the gate repeat it |
| ReviewGate.EveryComplaintHasACause | scripts/expansion_review_gate.py:18-49 | Each complaint of the gate traces to a failure the collector reported |
| ReviewGate.CollectorAndGateAgree | scripts/expansion_review_gate.py:51-63 | For all API answers: the gate passes the written file exactly when the file says "verified": true, which is when the collector reported no failure |
| Governance.ClosedAreMatched | scripts/pilot_launch_governance_evidence.py:116-124 | The settlement filter keeps exactly the program's reconciled, closed rows with a closer and every line matched |
| Governance.ApprovedAreReviewed | scripts/pilot_launch_governance_evidence.py:100-108 | The import filter keeps exactly the program's applied rows with an approved review by a known person other than the known creator |
| Governance.RenderedImport | scripts/pilot_launch_governance_evidence.py:100-108 | On any table the filter accepts a rendered import exactly when its row meets those conditions |
| Governance.RenderedSettlement | scripts/pilot_launch_governance_evidence.py:116-124 | On any table the filter accepts a rendered settlement exactly when its row was reconciled in the program with every line matched and closed by a known person |
| Governance.MigratedImports | scripts/pilot_launch_governance_evidence.py:100-108 | On migrated rows the import filter keeps, in order, exactly those applied by a known person other than the known creator |
| Governance.JustMigrated | backend/alembic/versions/0023_sprint48_launch_traffic_vendor_accounting.py:63-138 | Right after 0023 to 0025 on any valid database, that is what counts as independently reviewed, and no settlement counts as closed |
| Governance.EvidenceJustMigrated | scripts/pilot_launch_governance_evidence.py:100-110 | Import evidence is missing exactly when the program has no such import |
| EvidenceRetention.PruningKeepsTheNewest | backend/app/modules/launch_command/service.py:1748-1781 | Pruning leaves every session that has a pack one of its newest |
| EvidenceRetention.PackStays | backend/app/modules/launch_command/service.py:1748-1781 | In every run a pack never changes, and one that is deleted was an incomplete working pack whose end had come by the time of some pruning; complete packs are never deleted |
| EvidenceRetention.GeneratedPackStays | backend/app/modules/launch_command/service.py:1459-1477 | In every run a pack generated without blockers is complete and final for good; one with blockers is incomplete and working, with its end, until a pruning after that end |
| EvidenceRetention.RunKeepsInv | backend/app/modules/launch_command/service.py:1460-1477 | In every run after 0025 the migrated packs stay as the migration left them, and all others have matching class and end |
| EvidenceRetention.RetentionAfterMigration | backend/alembic/versions/0025_sprint50_post_launch_stabilization.py:131-151 | After every run of generating and pruning, a session passes the retention check exactly when it has a complete pack and had no incomplete one when 0025 ran |
| EvidenceRetention.RetentionJustMigrated | scripts/pilot_post_launch_stabilization_evidence.py:114-122 | Right after 0025 a session passes exactly when it has a complete pack and no incomplete one |
| EvidenceRetention.CollectorAfterMigration | scripts/pilot_post_launch_stabilization_evidence.py:109-124 | Given the session's packs as the API lists them, the collector reports the retention failure on exactly those grounds |
| EvidencePacks.LaunchCommandService.GenerateEvidencePack | backend/app/modules/launch_command/service.py:1459-1477 | One pack is added: incomplete and working with an end when blocked, complete and final without one otherwise |
| EvidencePacks.LaunchCommandService.PruneExpiredWorkingEvidence | backend/app/modules/launch_command/service.py:1748-1781 | Exactly the incomplete working packs whose end has come and whose session has a newer pack are removed, and counted |
| EvidencePacks.FindDoomed | backend/app/modules/launch_command/service.py:1755-1778 | The loop picks, in any order, exactly the expired working packs with a newer pack in their session |
| DeliveryTiming.MinutesAreClose | scripts/pilot_delivery_timing_evidence.py:88-92 | For s seconds late the minutes m are at least 1 with 60(m-1) < s < 60m+1 |
| DeliveryTiming.MinutesAreCeilingExactlyWhen | scripts/pilot_delivery_timing_evidence.py:88-92 | They are the started minutes exactly when under a minute late, or not within the first second of a further minute; always for whole seconds |
| DeliveryTiming.HalfASecondIsDropped | scripts/pilot_delivery_timing_evidence.py:88-92 | Sixty and a half seconds late is the second started minute but is reported as one minute |
| DeliveryTiming.LaterIsNeverLess | backend/app/modules/delivery_timing/service.py:115-119 | A later delivery is never reported as fewer minutes late |
| DeliveryTiming.StampMeans | backend/app/modules/delivery_timing/service.py:94-119 | A delivery is unmeasurable exactly without a deadline, on time by no minutes exactly at or before it, and late by at least one otherwise |
| DeliveryTiming.CheckTiming | scripts/pilot_delivery_timing_evidence.py:59-104 | Each timing failure is reported exactly when its condition on the order holds |
| DeliveryTiming.CheckStamped | backend/app/modules/delivery_timing/service.py:94-119 | The script, computing on its own, accepts exactly the service's status and, when late, its minutes |

## Left out

- Token refresh: the run starts in a fresh tab with an empty store; a reload that keeps session storage is not modelled.
- Token refresh: a JSON body without the two token fields, a store entry that is not JSON (read as absent), request bodies and headers other than Authorization, and what a request returns.
- Token refresh: two tabs, which share nothing, since session storage is per tab.
- TokenRefreshTheorems.RevokedTokenWasLost: its hypothesis leaves out a session revoked by a logout that the server has processed and whose answer is under way, when the client rightly still holds the token; for rotated sessions TokenRefreshTheorems.RotatedTokenWasLost needs no hypothesis.
- HttpClient.Dashboard.OnRefreshBody: the bodies of answers are the pairs the server issued; fetch and body failures carry no data.
- Two database transactions at the same time: the model runs transactions one after the other. Two concurrent code requests for one phone may both insert under READ COMMITTED.
- Sessions.OneLiveSessionPerLogin: nor does it cover two refresh transactions of one token at the same time, which is possible when the client presents the token again after a failed fetch while the first transaction is still running: `session_by_refresh_hash` takes no lock, so both may rotate.
- Sessions.RotatesAtMostOnce: after a clean-up the deleted row's random token could be drawn again; the result says what holds as long as it is not.
- Sessions.RevokedUntilDeleted: the same, for the token of the deleted row.
- Sessions.LogoutIsFinal: the same, for the token that was logged out.
- Sessions.LiveUntilEnded: the same, for the token of the session.
- EvidenceRetention.PackStays: the same, for the identifier of a deleted pack.
- EvidenceRetention.GeneratedPackStays: the same, for the identifier of a deleted pack.
- Sessions.LinksFollowLogins: the same, for the identifiers of sessions.
- OtpChallenges.ClosedUntilDeleted: the same, for the identifier of the challenge.
- OtpChallenges.OneLoginPerChallenge: the same, for the identifier of the challenge.
- TokenRefreshServer.OneLiveSessionPerLogin: two refresh transactions of one token at the same time are left out, as for Sessions.OneLiveSessionPerLogin.
- HttpClient.Dashboard.EndReload: the profile request is one of the requests, and its failure may come whenever no other request is about to retry; which request it is, is not tracked.
- Other jobs of the worker, and deleting users, whose sessions would go with them.
- Rows are passed by row number or key instead of as ORM objects; user lookup, audit rows, JWT and HMAC internals and token expiry times returned to the client are not modelled.
- UserRepository.get_or_create_customer and the other repositories: single lookups and inserts with no deeper property.
- Settings: white space outside Latin-1, case folding outside ASCII, and characters such as '²' that count as digits but do not convert; the sorted order of names inside an error message (it is a set here); all other settings.
- BodyLimit.Handle: a 413 after a response has already started, applications that catch the limiter's exception, and header names or values outside Latin-1.
- Migrations: indexes, column types and lengths, columns no migration reads or writes, and how Alembic rebuilds tables; tables that are created and whose rows no migration touches are kept as names; 0024 only creates tables.
- Database.Connection.Upgrade25: has no counterpart for 0024, whose only effect is new empty tables; a failing migration is rolled back as a whole, as on a database with transactional DDL.
- Evidence files: HTTPS, argument parsing, printing, and writing the file; reading the file back gives the written value; NaN and Infinity, which the Python parser also accepts.
- Governance.ClosedAreMatched: the other checks of that script (release, policy, monitoring, admissions) are single comparisons and are not modelled.
- Governance.JustMigrated: only the fields the filters read are rendered; a list of more rows than the API's limit of 1000 is not cut; the two administrators are compared as strings or nulls, so Python's equality of 1, 1.0 and true plays no part.
- EvidenceRetention.RetentionAfterMigration: the blockers that decide whether a pack is complete are an input; deleting a launch session, which would delete its packs, is not an event; the text of a time stamp is only known not to be empty.
- DeliveryTiming.CheckTiming: floating-point rounding of seconds (instants are whole microseconds), unreadable time stamps, and the script's KPI and incident checks.
- Everything else in the repository: orders, payments, rollout, auto-pause, capacity, budgets, dashboards and mobile screens, deployment checks.
