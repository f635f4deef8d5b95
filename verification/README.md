# Postal: verified models of the backend's state machines

These modules model the parts of Postal whose guarantees rest on several functions working together, and
prove those guarantees over every run. Each module follows one component.

| module | component |
|---|---|
| `Common`, `Text` | result types; the few string functions of Go that the other modules need |
| `Ledger`, `Billing` | wallets, the append-only credit ledger, pricing, and the billing service's transactions |
| `Retry` | the publish pipeline's retry loop and its backoff |
| `JobProtocol`, `JobSafety`, `Worker` | the publish-job protocol: claims, charges, posts, records, refunds, status writes |
| `RateLimit` | the Redis token bucket |
| `Slots` | queueing into a channel's recurring posting slots |
| `Sessions`, `MobileClient` | refresh-token rotation, and the mobile client's shared refresh against it |
| `MediaQuota` | the storage quota under a row lock |
| `Capabilities` | what workspace members may grant each other |
| `Envelope`, `Keyring` | envelope encryption under rotating master keys, and the key spec |

## How the models are built

* What the source changes in place is a class (`BillingService`, `Backend`, `Limiter`, `Queue`, `SessionStore`,
  `ApiClient`, `MediaService`, `WorkspaceService`, `Encryptor`), and what it loops over is a loop. Each such method
  is proved against a function of the old state or against what the source promises; the lemmas are about those
  functions.
* Where processes run side by side, every statement another process can observe is one event, and a theorem about a
  run speaks of every sequence of events. A worker may stop between any two events, deliveries of a task may repeat,
  and a call may fail with or without having taken effect. `Worker.Backend.ProcessPublish` is the worker's code
  itself, with arbitrary events of everyone else between any two of its statements; it keeps its history a run of
  `JobProtocol`. `Worker.Backend.Others` stands for those processes: its contract allows any of their events, and its
  body is the one case in which there are none.
* Clocks, random tokens, UUIDs, keys and nonces, the platform's answers and the failures of Postgres, Redis, storage
  and the Keystore are parameters. Drawn tokens are new, and clocks do not go back.
* Credits, byte counts and times are unbounded integers, token counts and rates exact reals. The 64-bit shift of
  `backoff` and 32-bit key versions are modelled at their width.

## What the proofs found

* A job has as many platform posts as failed attempts to store a result, or one more
  (`JobSafety.PostsMatchLostRecords`), and that bound is reached for every number of failures
  (`JobSafety.LostRecordsRepost`). The idempotency table alone does not rule out double posts.
* `internal/worker/handler.go:125` says of a terminal failure that the publish definitively did not happen. After an
  attempt whose post could not be recorded, it did, and the charge is still refunded
  (`JobSafety.RefundAfterLostPost`); `JobSafety.RefundedWasPostedIff` says exactly when.
* Prices come from configuration unchecked. A job charged at a negative price cannot be refunded, because a credit
  must be positive; the terminal branch settles a job exactly when its charge was no credit
  (`JobSafety.TerminalBranchSettlesIff`), and for every negative price there is a run that leaves the workspace with
  it (`JobSafety.CreditIsKept`).
* A publishing job never gets on again exactly when its worker stopped between the claim and the last status write:
  nothing claims it, a cancel does not reach it, and a charge stays taken (`JobSafety.AbandonedIff`).
* `scheduleOne` marks a job as failed when enqueueing is reported as failing, whatever the row says by then
  (`internal/schedule/service.go:211-217`). If the task was enqueued all the same, that write can put "failed" over a
  canceled, publishing or published job (`JobSafety.LateFailure`). `JobSafety.StatusIsFinalIff` says for every job and
  every status exactly when it is final; where enqueueing was reported as a success, settled jobs always are
  (`JobSafety.SettledStays`).
* `backoff` overflows at attempt 35 and turns negative; all waits are positive exactly when the configured number of
  attempts is at most 35 (`Retry.WaitsArePositiveIff`).
* The limiter announces a finite retry time also for a cost above the capacity, which is never admitted
  (`RateLimit.RetryAfterIsExact`). Dropping idle keys is invisible exactly with a positive refill rate, or with no
  refill and no capacity (`RateLimit.ExpiryIsInvisibleIff`).
* Comparing slot times with truncated job times would lose a clash exactly in zones whose offset is not a whole number
  of minutes (`Slots.NoClashIsLostIff`). No zone in present use has such an offset, so this is a limit of the comparison
  and not an input the service meets.
* The check of the absolute expiry in `Rotate` never decides: no entry outlives it (`Sessions.RotateAcceptsIffLive`).
* A refresh reply or a Keystore write that is lost makes the server see a reused token, and nothing else does
  (`MobileClient.RefreshRefusedIff`). It ends the client's session, and so does a rotation that Redis interrupts after
  its delete: the old token is gone and the client never learns of a new one
  (`MobileClient.InterruptedRotationEndsTheSession`). Both can happen to every client with a live token
  (`MobileClient.ATokenCanBeMissed`, `MobileClient.ARotationCanBeInterrupted`), and both are for good
  (`MobileClient.EndIsFinal`).
* `NormalizeCapabilities` reports its first unknown capability by name, so an empty name reads as "none": a request is
  reported as invalid exactly when its first unknown name is not empty (`Capabilities.AcceptedRequestStores`). The
  others go on with a nil list and fail only at the table, whose column is not nullable
  (`db/migrations/00003_auth.sql:41`).
* The label "owner" is reserved to members who hold everything only in a request without capabilities. Next to a list
  it is not checked, and whoever holds what the list names may give it, to a member or to someone he adds
  (`Capabilities.OwnerLabelIff`); who carries it is then out of reach of every later call
  (`Capabilities.AnyoneMayFreeze`).
* That owners never change holds for overlapping requests exactly when no update checked before is still to be written
  (`Capabilities.OwnerNeverChangesIff`), and the race is there for every member (`Capabilities.OwnerIsOverwritten`).

## Model

| member | source | states |
|---|---|---|
| Billing.CostForItem | internal/billing/types.go:85-98 | the price is the highest of the tiers an item qualifies for: the platform's base price, its media price, its URL price |
| Billing.CostIs | internal/billing/types.go:85-98 | the price read off the configuration: at least the base, media and link prices that apply, and one of them; a price not configured is zero |
| Billing.HasURLIff | internal/billing/types.go:79-81 | a body is priced as a link exactly when "http://" or "https://" is somewhere in it |
| Billing.KeptAreUploaded | internal/schedule/service.go:329-344 | of the stored references exactly those with an uploaded id are kept |
| Billing.WorkerCostAtMostScheduled | internal/worker/handler.go:144-159 | the price at publish time never exceeds the price the scheduler checked, since the worker's media are among the references the scheduler saw |
| Billing.SameItemIff | internal/schedule/service.go:96-108 | scheduler and worker price the same item exactly when the stored references are one of the three empty forms or some reference has an uploaded id |
| Billing.ScheduledBatchIsPayable | internal/schedule/service.go:90-115 | if the scheduler found a batch affordable and nothing else is debited, every job of it can be charged, in any order |
| Billing.BillingService.Credit | internal/billing/service.go:102-131 | one transaction credits once per key: ledger row and wallet move together, a repeat changes nothing, an error rolls both back |
| Billing.BillingService.ChargePublish | internal/billing/service.go:157-196 | one transaction charges a job once; a shortfall takes the ledger row back |
| Billing.BillingService.RefundPublish | internal/billing/service.go:202-218 | credits back what the ledger recorded for the job, through Credit |
| Billing.BillingService.CheckAffordable | internal/billing/service.go:136-152 | passes exactly when the batch is free or the balance can be read and covers its total, and changes nothing |
| Billing.BillingService.InsertLedgerEntry | internal/platform/db/sqlc/billing.sql.go:96-101 | adds a row exactly when its workspace, kind and reference are not in the ledger yet |
| Billing.BillingService.DebitWalletIfEnough | internal/platform/db/sqlc/billing.sql.go:35-40 | debits exactly when the wallet exists and covers the amount |
| Ledger.ChargeIsSound | internal/billing/service.go:157-196 | whatever fails, a charge keeps every balance the nonnegative sum of its ledger with unique keys, and posts at most one row |
| Ledger.RefundIsSound | internal/billing/service.go:202-218 | whatever fails, a refund keeps the tables sound and posts at most the negation of the recorded charge |
| Ledger.ChargeOutcome | internal/billing/service.go:157-196 | a healthy charge succeeds exactly when the job is free, was charged before or is covered; the price is taken once; a shortfall changes nothing |
| Ledger.SecondDeliveryIsFree | internal/platform/db/sqlc/billing.sql.go:96-101 | charging or crediting the same reference again changes nothing, whatever the new amount |
| Ledger.CreditOutcome | internal/billing/service.go:102-131 | what each answer of a credit says about ledger and wallet, and that a healthy positive credit is answered by whether its key was taken |
| Ledger.RefundOutcome | internal/billing/service.go:202-218 | a refund brings the job to net zero exactly when its charge was a debit |
| Ledger.SoftGateIffHardGate | internal/billing/service.go:136-196 | the affordability check passes exactly when charging the whole batch succeeds, and then in every order |
| Retry.BackoffAsDocumented | internal/publish/pipeline.go:202-214 | up to attempt 34 the int64 shift is exact: every wait is in (0, 30s] and, without a hint, the doubling or 30s |
| Retry.BackoffOverflows | internal/publish/pipeline.go:202-214 | at attempt 35 the shift overflows to a negative wait |
| Retry.WithRetry | internal/publish/pipeline.go:137-173 | the loop ends for every adapter; its calls, waits and result are those of the specified run |
| Retry.RunIsBounded | internal/publish/pipeline.go:137-173 | at most maxAttempts + 1 calls, the extra one only by a refresh, and at most one refresh, and every call after it carries the new token |
| Retry.RunStopsOnlyFor | internal/publish/pipeline.go:137-173 | a run goes on after every retryable error it slept for and the first refreshed expiry, and stops for nothing else before the attempts are used up |
| Retry.VerdictIs | internal/publish/pipeline.go:137-173 | the result is the last call's success, and the failure is terminal exactly when the platform said so or the refresh failed so |
| Retry.WaitsDouble | internal/publish/pipeline.go:202-214 | without hints the waits of a run are 1s, 2s, 4s and so on, capped at 30s |
| Retry.RunIsDetermined | internal/publish/pipeline.go:137-173 | the run conditions determine the calls: two runs against the same world are the same |
| Retry.TotalWaitIsBounded | internal/publish/pipeline.go:202-214 | at most maxAttempts - 1 waits, together at most 30s times that |
| Retry.WaitsArePositiveIff | internal/publish/pipeline.go:202-214 | every wait of every run is positive exactly when maxAttempts is at most 35 |
| JobProtocol.StepKeepsInv | internal/worker/handler.go:84-138 | every statement of every process keeps the invariant that ties claims, statuses, results, posts, charges and refunds together |
| JobProtocol.RunKeepsInv | internal/worker/handler.go:84-159 | so does every run |
| JobSafety.ClaimIsExclusive | internal/schedule/service.go:351-360 | in every run at most one worker is between the claim and the mark of a job, which is then publishing, or failed if its scheduler was told that enqueueing failed |
| JobSafety.StatusChangesAreLegal | internal/schedule/service.go:388-392 | although marks are unconditional, the only status changes are claim, cancel and mark of a publishing job, and, where enqueueing was reported as failing, the write that says so and a mark over it |
| JobSafety.SettledStays | internal/schedule/service.go:366-392 | published, failed and canceled are final: row, posts, result, charge and refund never change again; where enqueueing was reported as failing, once nobody is about to write |
| JobSafety.StatusIsFinalIff | internal/schedule/service.go:203-220 | for every job and status, exactly when no run changes it |
| JobSafety.LateFailure | internal/schedule/service.go:211-217 | a run in which a published job is marked as failed by its scheduler |
| JobSafety.CancelPreventsPublish | internal/schedule/service.go:228-245 | after a cancel that took effect no adapter call is ever made for the job; it stays canceled, unless its scheduler is yet to mark it as failed |
| JobSafety.PostsMatchLostRecords | internal/publish/pipeline.go:89-130 | posts are the failed attempts to store a result, or one more; a published job's stored result is one of its posts |
| JobSafety.LostRecordsRepost | internal/publish/store.go:48-68 | for every n, n lost results do leave n posts, and another delivery makes one more |
| JobSafety.WalletsMatchLedger | internal/billing/service.go:102-218 | in every run each balance is the sum of its ledger and never negative, and no ledger key repeats |
| JobSafety.MoneyPerJob | internal/worker/handler.go:110-137 | a job's money is nothing, its one charge, or zero after the refund; only unpublished jobs are refunded; a published one was charged if its last price was not zero |
| JobSafety.ChargeIsFinal | internal/billing/service.go:157-196 | once charged, no retry and no price change touches a job's charge |
| JobSafety.ResultIsFinal | internal/platform/db/sqlc/publish.sql.go:35-39 | the result recorded first is the one every later delivery finds, in every run |
| JobSafety.RefundedWasPostedIff | internal/worker/handler.go:123-130 | a refunded job is on the platform exactly when one of its results could not be stored |
| JobSafety.RefundAfterLostPost | internal/worker/handler.go:123-130 | a concrete run that posts, loses the record, is refused later and refunds |
| JobSafety.CreditIsKept | internal/worker/handler.go:123-134 | for every negative price a run that fails unposted and keeps the credit |
| JobSafety.AbandonedIff | internal/worker/handler.go:84-138 | nothing about a publishing job ever changes, in any run, exactly when no worker is on it and its scheduler has nothing to write |
| JobSafety.CrashAbandons | internal/worker/handler.go:84-138 | a worker that stops leaves its job so, unless its scheduler marks it as failed |
| JobSafety.TerminalBranchSettlesIff | internal/worker/handler.go:123-134 | a healthy terminal branch ends at net zero exactly when the charge was no credit |
| Worker.OthersKeepAct | internal/worker/handler.go:84-138 | whatever the other processes do, a worker stays where it is in its own delivery |
| Worker.Backend.Claim | internal/schedule/service.go:351-360 | succeeds exactly from scheduled and counts the attempt |
| Worker.Backend.ChargePublish | internal/worker/handler.go:144-159 | charges the channel's workspace the price of body and media for this job, and goes on, fails or retries by the answer |
| Worker.Backend.Publish | internal/publish/pipeline.go:89-130 | its answer, by the result found, the pre-flight verdict, the last call of the run and the record; an Ok value is the post now stored for the job |
| Worker.Backend.LoadAndCharge | internal/worker/handler.go:98-116 | which status a failed load or charge leads to, the charge being answered by the ledger as it then was |
| Worker.StatusIff | internal/worker/handler.go:84-138 | when a delivery ends published and when failed: a healthy one publishes, and only final failures are marked as failed |
| Worker.Backend.SetStatus | internal/schedule/service.go:366-392 | the unconditional status write, heard, unheard or lost, allowed only where the worker stands at it |
| Worker.Backend.ProcessPublish | internal/worker/handler.go:84-138 | one delivery with every other process interleaved: it is a run of the protocol, leaves nothing claimed, writes the status its load, charge, lookup and calls lead to, answers the queue to match, and succeeds exactly when it was heard to publish |
| RateLimit.ScriptMatchesReference | internal/ratelimit/limiter.go:138-150 | the Lua script and the Go reference agree on verdict, tokens and wait |
| RateLimit.TokensAreSmallestSlack | internal/ratelimit/limiter.go:52-66 | the bucket holds exactly the smallest of its capacity and what every earlier request left of capacity plus refill |
| RateLimit.AdmittedIff | internal/ratelimit/limiter.go:44-81 | a request is admitted exactly when, counted from every earlier request, the admitted cost with it fits capacity plus refill |
| RateLimit.NeverNegative | internal/ratelimit/limiter.go:64-74 | the token count never goes below zero |
| RateLimit.WindowIsBounded | internal/ratelimit/limiter.go:44-81 | over any history, the cost admitted in a window is at most the capacity plus the refill of its length |
| RateLimit.RetryAfterIsExact | internal/ratelimit/limiter.go:138-150 | after a denial the same request is admitted at every later whole millisecond from the announced one on and at none before, if its cost fits the capacity, and otherwise never |
| RateLimit.NoRefillNeverRecovers | internal/ratelimit/limiter.go:138-150 | without refill the answer is "never", and it is true |
| RateLimit.TtlCoversRefill | internal/ratelimit/limiter.go:126-133 | the truncated time to live lasts at least until the bucket is full |
| RateLimit.TtlIsAMinuteMore | internal/ratelimit/limiter.go:126-133 | a minute, and with refill a minute more than a full refill, to the second below |
| RateLimit.ExpiryIsInvisible | internal/ratelimit/limiter.go:105-133 | where idle buckets end up full, dropping idle keys changes no answer of any history |
| RateLimit.ExpiryIsInvisibleIff | internal/ratelimit/limiter.go:105-133 | no history and no dropping of idle keys shows in the answers exactly when the rule refills, or neither refills nor has a capacity |
| RateLimit.Limiter.Allow | internal/ratelimit/limiter.go:105-122 | one call runs the script on its own key and no other; a failing script call, run or not, and a malformed reply are errors |
| RateLimit.CallIsAnswered | internal/ratelimit/limiter.go:44-81 | over any calls from an empty store, on any keys, a call is answered from the earlier requests on its own key, dropped when their time to live is over |
| RateLimit.CallIsAllowedIff | internal/ratelimit/limiter.go:44-81 | where the rule refills, a call is let through exactly when, counted from every earlier call on its key, the admitted cost with it fits capacity plus refill |
| RateLimit.DeniedCallIsLetThroughIff | internal/ratelimit/limiter.go:105-122 | a denied caller that calls again, with only other keys called in between, is let through exactly when its cost is within the capacity and the wait it was told is over |
| RateLimit.WaitIsToldIff | internal/ratelimit/limiter.go:105-122 | a caller is told to wait exactly when it is denied and the rule refills |
| Slots.ParseReadsBack | internal/schedule/slots.go:147-161 | every 24-hour time written as HH:MM is read back |
| Slots.SignsAreRead | internal/schedule/slots.go:153-160 | an hour or minute is read with or without a sign, as strconv.Atoi does |
| Slots.SlotCandidates | internal/schedule/slots.go:116-144 | the sorted list of exactly the times after `after` within the horizon that fall on some slot |
| Slots.CandidateIff | internal/schedule/slots.go:116-144 | a time is a candidate exactly when its own local weekday, counted from Thursday, 1 January 1970, and time of day are some slot's, and it is later than `after` and within 14 local days |
| Slots.WeekGoesOn | internal/schedule/slots.go:133 | the week of the calendar, Sunday being 0 |
| Slots.OpenIff | internal/schedule/slots.go:76-112 | an open time reads as some slot's and shares no minute with a scheduled job from `after` on |
| Slots.OccupiedSlots | internal/schedule/slots.go:100-112 | exactly the minutes of the channel's scheduled jobs from `after` on |
| Slots.NextOpenSlot | internal/schedule/slots.go:76-97 | the least open time; no slots and no open slot are reported exactly when that is so |
| Slots.NoClashIsLostIff | internal/schedule/slots.go:100-112 | looking only at jobs from `after` on loses no clash exactly in zones of whole minutes |
| Slots.NextOpenIsFree | internal/schedule/slots.go:76-97 | the time found is later than `after` and shares no minute with any scheduled job |
| Slots.EverySlotComesUpTwice | internal/schedule/slots.go:116-144 | every usable slot has two candidates in the scan, a week apart |
| Slots.RoomWhenOutnumbered | internal/schedule/slots.go:85-97 | queueing succeeds whenever candidates outnumber occupied minutes |
| Slots.QueueNeverClashes | internal/schedule/service.go:152-178 | queueing one after another, with publishing, retries and cancels between, never puts two pending jobs into one minute |
| Slots.Queue.Enqueue | internal/schedule/service.go:203-223 | queues at the next open slot, or reports the check, the search or the call that failed; whatever row is left, the channel stays clear |
| Slots.ScheduleToSlots | internal/schedule/service.go:152-185 | every variant goes to its own channel's next open slot; it stops only at a channel that fails, those before stay queued and those after are untouched |
| Sessions.Ttl | internal/auth/session.go:125-128 | before the absolute expiry the TTL is positive, at most the sliding one, and ends by the absolute expiry |
| Sessions.SessionStore.Rotate | internal/auth/session.go:72-102 | read, delete, check, store: the new entries and answer, whichever Redis command fails |
| Sessions.StepKeepsInv | internal/auth/session.go:64-133 | every command, failing or not, keeps entries, tickets and the fate of every token consistent |
| Sessions.OneLiveTokenPerSession | internal/auth/session.go:72-102 | in every run a session has at most one token in the store |
| Sessions.NoTokenOutlivesItsSession | internal/auth/session.go:113-133 | however often it slid, no live token outlasts its login by more than the maximum |
| Sessions.WrittenEntriesAreLive | internal/auth/session.go:125-131 | every entry is written with a positive time to live |
| Sessions.RotateAcceptsIffLive | internal/auth/session.go:72-102 | with Redis healthy a token is accepted exactly when it is alive; the absolute-expiry branch never decides |
| Sessions.RotateAcceptsIff | internal/auth/session.go:72-102 | the same in terms of what happened to the token: not accepted, revoked, lost to a failing command or expired |
| Sessions.RotateAcceptsIffInRuns | internal/auth/session.go:69-102 | in every run an issued token is accepted exactly when it was never accepted, not revoked, not lost to a failing command and not past its expiry |
| Sessions.TokensAreSingleUse | internal/auth/session.go:69-102 | no run accepts a token twice |
| Sessions.RotationKeepsTheSession | internal/auth/session.go:92-101 | a rotation answers with the user who logged in, keeps the session's age and swaps the old token for a live one |
| Sessions.LoginAnswers | internal/auth/session.go:64-67 | a login is answered with the drawn token, alive, the user's, and capped by the maximum |
| Sessions.LogoutAnswers | internal/auth/session.go:106-111 | a logout leaves no entry for its token and touches no other |
| Sessions.RotationAnswers | internal/auth/session.go:72-102 | which failing command or dead token gives which answer, exactly |
| MobileClient.ApiClient.RefreshSession | mobile/src/api/client.ts:36-58 | joins the refresh in flight or starts one |
| MobileClient.ApiClient.OnResponse | mobile/src/api/client.ts:72-74 | a first 401 outside the auth flow waits for the shared refresh; anything else is the answer |
| MobileClient.WorldKeepsInv | mobile/src/api/client.ts:33-86 | every stretch between two awaits, every server answer and every loss keeps the client and the store in step |
| MobileClient.OneRefreshInFlight | mobile/src/api/client.ts:33-58 | in every interleaving at most one refresh is in flight, and all waiting requests wait for it |
| MobileClient.UnauthorizedJoins | mobile/src/api/client.ts:72-74 | in every run a first 401 outside the auth flow waits for the refresh in flight, or a new one if there is none; any other answer goes to the caller |
| MobileClient.RefetchedIff | mobile/src/api/client.ts:72-77 | over any run after its first 401, a request that ends was fetched again exactly when the refresh it waited for brought new tokens |
| MobileClient.RetryCarriesTheToken | mobile/src/api/client.ts:74-77 | the retry carries the client's access token, which is the latest unless one is on its way or was missed |
| MobileClient.RefreshGoesThrough | mobile/src/api/client.ts:37-57 | while nothing fails, a refresh exchanges the Keystore's token for a new one, keeps both new tokens and succeeds |
| MobileClient.FetchedAtMostTwice | mobile/src/api/client.ts:61-86 | a request is fetched once or twice, an auth request once, and none waits for a refresh that is gone |
| MobileClient.RefreshRefusedIff | mobile/src/lib/secure-session.ts:27-52 | a refresh presents the latest token and is refused exactly if a Redis command fails it, the token was revoked, lost to a half-done rotation or logout, or expired, or a token was missed on the way, and for reuse exactly then |
| MobileClient.EndIsFinal | mobile/src/api/client.ts:36-58 | once the latest token was missed, revoked, lost or ran out, every later refresh is refused |
| MobileClient.MissedTokenEndsTheSession | mobile/src/api/client.ts:36-58 | after a lost reply or a refused Keystore write every later refresh is refused |
| MobileClient.InterruptedRotationEndsTheSession | internal/auth/session.go:87-97 | a refresh of a live token loses it exactly if the rotation fails after its delete, and that ends the session |
| MobileClient.ARotationCanBeInterrupted | internal/auth/session.go:87-97 | from every login with a live token each such failure leads there |
| MobileClient.ATokenCanBeMissed | mobile/src/lib/secure-session.ts:27-46 | from every login with a live token, a lost reply and a refused Keystore write each lead there |
| MediaQuota.StepKeepsInv | internal/media/service.go:118-135 | a total read under the lock stays an upper bound while others delete, and a checked row still fits when it is committed |
| MediaQuota.QuotaHolds | internal/media/service.go:113-135 | whatever interleaves and fails, a workspace within its quota stays within, and one above it never grows |
| MediaQuota.EmptyStaysWithinQuota | internal/media/service.go:113-135 | from an empty table no interleaving takes a workspace over the quota |
| MediaQuota.UndisturbedUploadIff | internal/media/service.go:118-135 | an upload nothing comes between is stored exactly when it fits |
| MediaQuota.TypesAndLimits | internal/media/types.go:26-73 | the accepted content types and the size limit of each kind |
| MediaQuota.LockIsExclusive | internal/media/service.go:121-123 | two uploads of one workspace are never both past the lock |
| MediaQuota.MediaService.InsertWithinQuota | internal/media/service.go:118-135 | inserts exactly when the row fits and the transaction goes through |
| MediaQuota.MediaService.Upload | internal/media/service.go:55-95 | which input and which failing call gives which answer, exactly; a failure leaves rows and, unless cleaning up fails, objects as they were |
| MediaQuota.MediaService.Delete | internal/media/service.go:166-178 | refuses exactly what the workspace does not own, takes exactly the row's object unless storage fails, and removes exactly that row |
| Capabilities.NormalizeCapabilities | internal/workspace/capability.go:107-123 | the requested set in the order of first mention without repetition, or the first unknown name |
| Capabilities.Clean | internal/workspace/capability.go:110-123 | the same capabilities, each once, in the order in which the request first names them |
| Capabilities.FirstMissing | internal/workspace/capability.go:125-135 | none is missing exactly when the actor holds everything requested |
| Capabilities.WorkspaceService.AddMember | internal/workspace/service.go:90-127 | the new table and answer on every path, whichever query fails |
| Capabilities.WorkspaceService.UpdateCapabilities | internal/workspace/service.go:133-170 | the new table and answer on every path, whichever query fails |
| Capabilities.AcceptedRequestStores | internal/workspace/service.go:172-197 | an accepted request stores what was asked for, each held by the actor; a refused one changes nothing; it is reported as invalid exactly when its first unknown name is not empty |
| Capabilities.PresetsAre | internal/workspace/capability.go:57-66 | the capabilities of each role |
| Capabilities.RolesGrow | internal/workspace/capability.go:57-66 | each role holds strictly more than the one before; members are managed from admin on, the workspace by the owner alone |
| Capabilities.RoleIsStored | internal/workspace/service.go:188-195 | an accepted request without a list is for one of the four roles and stores exactly its capabilities |
| Capabilities.FaultsOnlyLoseTheAnswer | internal/workspace/service.go:90-170 | whichever query fails, the caller gets an error and the table is as it was or as the call meant it |
| Capabilities.NobodyGains | internal/workspace/service.go:90-170 | however the reads, checks and writes of requests overlap, nobody gains a capability that no acting member held at the start |
| Capabilities.OwnerNeverChangesIff | internal/workspace/service.go:142-144 | a member labelled owner never changes again, in any run of overlapping requests, exactly when no earlier update of him is pending |
| Capabilities.OwnerIsOverwritten | internal/workspace/service.go:138-162 | for every member and every actor holding everything, a run that makes him an owner and then writes an earlier update over him |
| Capabilities.CallsAreARun | internal/workspace/service.go:90-170 | requests that do not overlap are a run of their single steps |
| Capabilities.OwnerLabelIff | internal/workspace/service.go:176-194 | who may give the owner label, to a member or a new one: with a list, whoever holds what it names; without one, whoever holds everything |
| Capabilities.OwnerSurvivesCalls | internal/workspace/service.go:129-170 | calls that do not overlap never change an owner |
| Capabilities.AnyoneMayFreeze | internal/workspace/service.go:176-188 | the owner label may be given with any one capability held, and fixes it for ever |
| Envelope.Uint32RoundTrip | internal/security/crypto.go:111-127 | version encode and decode are inverse both ways |
| Envelope.Uint16RoundTrip | internal/security/crypto.go:113-128 | length encode and decode are inverse both ways |
| Envelope.BlobReadsBack | internal/security/crypto.go:110-135 | version, wrapped key and data of a blob are read back for every version and length |
| Envelope.SealedOpens | internal/security/crypto.go:89-150 | a seal fails only for want of random bytes and opens under every ring that has its key |
| Envelope.OpensIffSealed | internal/security/crypto.go:119-150 | a blob opens to a plaintext exactly when it is a seal of it under a key of the ring |
| Envelope.RotationLosesNothing | internal/security/crypto.go:46-49 | over any history that only adds versions, whatever was sealed at any time opens at any later time |
| Envelope.OpensWhileVersionIsKept | internal/security/crypto.go:137-140 | where versions are only added or retired, a blob opens exactly while its version is kept |
| Envelope.Encryptor.Seal | internal/security/crypto.go:89-118 | appends the blob as specified, and fails exactly when there are no random bytes |
| Envelope.Encryptor.Open | internal/security/crypto.go:122-150 | opens as specified, with each error |
| Envelope.NewEncryptor | internal/security/crypto.go:54-74 | accepts exactly 32-byte keys with a current one, and keeps copies of its own |
| Keyring.Entry | internal/security/keyring.go:41-51 | a well-formed entry names a version of at least 1 and a 32-byte key |
| Keyring.ParseKeyring | internal/security/keyring.go:33-61 | accepted exactly when every entry is well formed and new; the keys are theirs, the current version the highest; otherwise the first bad entry's error |
| Keyring.AcceptedIffAllFine | internal/security/keyring.go:33-61 | the accepted lists are exactly those whose entries are all well formed and name distinct versions |
| Keyring.SpecReadsBack | internal/security/keyring.go:16-22 | distinct versions written as a spec are read back, the highest current |
| Keyring.BareKeyIsVersionOne | internal/security/keyring.go:20-21 | a bare key is version 1 |
| Keyring.PaddingDoesNotMatter | internal/security/keyring.go:34-41 | white space around an entry does not matter |

## Left out

- HTTP handlers, routing, mail, metrics, web and mobile screens, storage client: plumbing around the modelled functions.
- Platform adapters and OAuth: an adapter answers with a post or a classed error, and an error means nothing was posted.
- AES-GCM, base64, SHA-256: pairs of functions that undo each other (sections 7.1 and 7.2 of NIST SP 800-38D, section 4 of RFC 4648); distinct tokens have distinct hashes.
- The time zone database: a zone is a fixed offset, so daylight-saving gaps are not modelled.
- Slots.SlotCandidates: a slot's zone keeps one offset, so the days on which clocks change are not modelled.
- Floating-point rounding in the limiter, a refill time beyond 64-bit nanoseconds, and 64-bit overflow of credit and byte totals.
- Ledger notes, row ids and timestamps, the wallet listing and checkout, USDCents: they add no branch to the transactions.
- The post's own status, updated when a job is published, and audit records: nothing modelled reads them.
- SchedulePost, the pending-job cap, channel permissions and FetchMetrics: the cap is not safe under concurrency, and the rest adds no state to the protocol.
- Interleaved commands of two rotations: `Get` and `Del` are two Redis commands, and single use is stated for commands that do not overlap.
- Rounding of a TTL below a millisecond, and JSON that does not decode: the store writes every entry itself.
- Login and logout of the mobile client while a refresh is under way.
- The route checks that let only members with manage_members reach AddMember and UpdateCapabilities: the service itself does not make them.
- Deleted workspaces: the row that LockWorkspaceForUpdate locks exists.
- Worker.Backend.Claim: answered claims; one that is not heard of, with or without effect, is `ClaimUnheard` and the early return of ProcessPublish.
- Billing.ScheduledBatchIsPayable: the batch's jobs are new to the ledger, prices are not negative, and no other debit comes between, as the check is a snapshot.
- Slots.ScheduleToSlots: the permission, quota and billing checks are one given answer.
- Slots.QueueNeverClashes: the calls to queue follow one another; two at once may choose the same minute, since choosing and inserting are separate statements.
- MobileClient.RefreshRefusedIff: nobody else presents this client's tokens for rotation; an access token that cannot be issued after a rotation counts as a lost reply.
- MediaQuota.MediaService.Upload: image dimensions are not decoded; the source does not let a failure to decode them matter.
- Keyring.ParseKeyring: text is a sequence of characters, so invalid UTF-8 is not modelled.
