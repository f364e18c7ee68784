# NexaPay ledger and payout model

A Dafny model of the wallet service: its double-entry ledger, the payout worker with the webhook
and admin routes that share its rows, request admission (idempotency, velocity, rate limits), and
keyset pagination. `dafny verify dfyconfig.toml` checks all of it.

## What is modelled

| modules | part of the service |
|---|---|
| `Calendar`, `Fees`, `Ledger` | tables and posting procedures of `db/schema_v1.sql` as functions on database values |
| `LedgerSteps`, `LedgerProofs`, `Conservation`, `Limits`, `Dedup` | what one call can do, and theorems over every history |
| `Postings` | when each posting happens, with the error of each refusal, and what it writes, on the rows of the tables |
| `LedgerProcedures` | the same procedures as they run, row by row with rollback, proved equal to `Ledger` |
| `Paging`, `PagingRuns` | the two wallet listings and the cursors of `routes/wallet.py`; how many requests they take |
| `RateLimit` | both limiters of `rate_limit.py` |
| `Payouts`, `PayoutLife` | one payout row, its handlers and updates, and its life under any sequence of events |
| `Webhooks`, `Workers`, `WorkerSends`, `Queue` | the payout table: references, concurrent workers with row locks, their submissions, the claim order |
| `PayoutProcedures` | repository, worker and routes as they run, proved equal to the functions above |
| `Admission`, `Velocity`, `ExactlyOnce` | the payment routes with the crash window between commit and stored response |
| `RouteAnswers`, `RouteLaws` | whose transaction an answer names, which payout rows are paid for; every answer of the payment routes with its condition on the request and the rows, whose reference a posting carries |
| `AdmissionRuns` | runs in which a promise of the payment routes fails |
| `AdmissionProcedures` | the payment routes and their helpers as they run |

Procedures that change rows are methods of classes whose fields are the tables; each is proved to do
exactly what a function on table values says. The theorems are about those functions, for every
history, run or interleaving. What each function itself means is stated without it: on the words of a
provider, the fields of a reply or of a request, and the rows of the tables (`Webhooks.FirstEndingWordWins`,
`PayoutLife.PassIsOfOneKind` and the lemmas above it, `Postings`, `RouteLaws`).

## Modelling choices

- Each ledger posting is one atomic step. The code takes no lock on a balance before it checks it, so
  solvency and the limits are statements about serial postings.
- Every step reads the clock once; readings do not decrease along a run where a theorem asks for it.
  Instants are seconds, calendar days and months are UTC.
- Money is `int`, ids are `nat` and only compared, a JSON object is a map, text is compared as is.
  A posting's new ids are inputs; reusing one is a unique violation like any other.
- Raising inside a posting, including its `unique_violation` handler, restores the state before it.
- A transaction value holds its entries, which share its creation time.
- A provider may answer anything or raise, at every call; the result is an input of the step.
- In `Workers` a claim is one atomic step that skips rows held by others, a worker's writes are
  private until it commits, and outside updates wait for the rows they need. In `Queue` no other
  transaction holds PENDING rows while the one worker claims.
- In `Webhooks` the result of `order by updated_at desc limit 1` is any latest matching row of the table
  as it is when that lookup runs.
- In `Admission` a request body stands for its hash, and the country and provider it resolves to are
  part of it. `PayoutRow` holds the payout columns that no update touches; `Payouts.Payout` holds the
  ones that change.

## Where the code is not what its text says

- `app/payouts/state_machine.py` is used by neither worker nor routes. PENDING goes straight to
  CONFIRMED when a provider confirms at once, and a SENT row may have no reference.
- A MOMO transfer whose result is CONFIRMED is written FAILED (app/workers/payout_worker.py:317-343), one of
  the cases of `FailsAccepted` in `EntersFailed`.
- The comment that SEND is the only place where attempt_count grows
  (app/workers/payout_worker.py:346) does not hold for rows rejected for a missing phone, amount or
  currency: `RejectCountsAsAttempt`, exactly as in `AttemptsCountExactly`.
- Polling is said not to touch last_attempt_at (app/workers/payout_worker.py:447-448); a poll that raises
  does, through `_mark_internal_error`, while attempts are left. At the attempt limit it does not, and
  fails the payout: `PollWritesVerdict`, `AcceptedThenFailed`.
- The claim queries select neither status nor response, so handlers use the defaults PENDING and SENT.
- A conflicting cash-in stores a 200 response with a null transaction and then answers 500
  (routes/payments.py:265-284): `ConflictingCashInIsAnsweredTwice`, exactly as in `CashInAnswers` and
  `FailedCashInThenNull`.

## Properties that fail, and when

- Sends per entry into PENDING: `BlankReplyBreaksBound`; the exact step is in `RefGoesMissing`, the bound
  without it in `SendsUntilRefLost`, its failure after it in `LossBreaksBound`.
- CONFIRMED: `LateRetryUndoesConfirmed`, with the exact steps in `LeavesConfirmed`.
- Reported webhook updates: `SharedRefIsMisreported`, exact conditions in `ReportIsOneHit` and
  `UnreportedChange`.
- A crashed cash-out can always be retried: `CrashedCashOutIsRefused`, exact condition in `RetryAfterCrash`.
- Paging ends in as many requests as the final table needs: `LateRowsCostRequests`, the exact number in
  `RequestsNeededExactly`.
- A key answers its caller's own cash-out: `SharedKeyPaysWithoutDebit`, exact condition in
  `AnswerIsOwnCashOut`.
- Every payout row has a debit behind it: the same run, exact conditions in `RowWithoutDebit` for a call and
  in `EveryRowHasItsDebit` for a run.

## Model

| member | source | states |
|---|---|---|
| Calendar.MonthWindowsPartition | db/schema_v1.sql:1338-1356 | calendar months partition time: two instants are in one monthly window exactly as `date_trunc` puts them there |
| Calendar.MonthWindowIsCivil | db/schema_v1.sql:1139-1140 | the monthly window of an instant runs from the first of a Gregorian month to the first of the next, leap years included |
| Fees.PickRule | db/schema_v1.sql:1283-1314 | the rule picked is active, applies, and prefers the rule of the country to the general one |
| Fees.PickedRule | db/schema_v1.sql:1293-1302 | the rule picked is the first active one of the country, and the first active general one only where the country has none; none is picked only when there is neither |
| Fees.PickedCharge | db/schema_v1.sql:1304-1314 | the fixed part plus the percentage, cut off toward zero, is q with 10000 (q - fixed) <= amount * bps < 10000 (q - fixed) + 10000 for a share that is not negative; the fee is q where no bound bites, else the bound that bites, the cap before the floor and zero before both |
| Fees.ComputeFee | db/schema_v1.sql:1283-1314 | the fee is never negative, for any rule set, and 0 when no rule applies; what it is otherwise is in `PickedRule` and `PickedCharge` |
| Fees.FeeIgnoresRowOrder | db/schema_v1.sql:1283-1314 | the fee does not depend on the order in which rules are stored |
| Fees.FeeClamp | db/schema_v1.sql:1296-1314 | cap and floor bound the fee, and with a non-negative percentage a larger amount never costs less |
| LedgerSteps.StepShape | db/schema_v1.sql:679-887 | every ledger call leaves the database alone, adds one account, or makes one complete two- or three-legged movement |
| LedgerSteps.CashInMoves | db/schema_v1.sql:679-756 | a cash-in that changes anything moves exactly its amount from the settlement account to the wallet, under its own key, author and instant |
| LedgerSteps.CashOutMoves | db/schema_v1.sql:763-887 | a cash-out that changes anything moves amount to settlement and fee to fee revenue, from a wallet that holds both |
| LedgerSteps.TransferMoves | db/schema_v1.sql:1129-1276 | a transfer that changes anything moves amount to the receiver and fee to fee revenue, from a wallet that holds both |
| LedgerProofs.StepKeepsInv | db/schema_v1.sql:679-887 | each call keeps cache agreement, solvency, unique keys and balanced entries together |
| LedgerProofs.CacheRefinesLog | db/schema_v1.sql:400-429 | after any history the cached balance read by callers is the signed entry sum of every account, cached or not |
| LedgerProofs.NeverOverdrawn | db/schema_v1.sql:799-804 | after any serial history no wallet and no fee account is negative |
| LedgerProofs.TriggerNeverRejects | db/schema_v1.sql:370-393 | every posted transaction balances, so the deferred trigger never rejects one |
| Postings.SumDebitsIsJoin | db/schema_v1.sql:1338-1356 | the limit checks sum exactly the debit rows of the account whose transactions have the kinds and fall into the window |
| Postings.TransferPostsExactly | db/schema_v1.sql:1129-1276 | a transfer posts exactly when: amount positive, session user owns the sending user wallet, receiver is a wallet, key unused, signed entries of the sender cover amount and fee, the tier has limits with room in day and month, no drawn id taken; it answers NULL exactly when only the last fails |
| Postings.TransferRefusals | db/schema_v1.sql:1150-1206 | each error of a transfer has its exact condition on the rows; a posted key answers its transaction and changes nothing |
| Postings.TransferRows | db/schema_v1.sql:1214-1245 | a posted transfer writes one transaction with its own fields and two or three entries, and opens at most the fee account of its owner and country |
| Postings.CashOutPostsExactly | db/schema_v1.sql:763-887 | a cash-out posts exactly when: amount positive, session user owns the wallet, key unused, signed entries cover amount and fee, the tier has limits with room in the day, no drawn id taken |
| Postings.CashOutRefusals | db/schema_v1.sql:777-830 | each error of a cash-out has its exact condition on the rows; a posted key answers its transaction and changes nothing |
| Postings.CashOutRows | db/schema_v1.sql:832-887 | a posted cash-out writes one transaction with the request's reference and its entries, and opens at most the settlement and fee accounts of its owner and country |
| Postings.CashInPostsExactly | db/schema_v1.sql:679-756 | a cash-in posts exactly when: amount positive, user owns the wallet, key and reference unused, no drawn id taken; it answers NULL exactly when only the last two fail; each error has its condition |
| Postings.CashInRows | db/schema_v1.sql:704-746 | a posted cash-in writes one transaction with the request's reference and two entries, and opens at most the settlement account of its owner and country |
| Postings.RegisterExactly | db/schema_v1.sql:1362-1428 | a registration opens the wallet with a zero cache row exactly when nothing it names is taken |
| Conservation.MoneyIsConserved | db/schema_v1.sql:836-853 | all balances total zero; wallets plus fee revenue are cash-ins minus cash-out principal |
| Limits.LimitsHold | db/schema_v1.sql:1179-1206 | in every calendar day and month principal stays within the tier limit and debits exceed it by at most the last fee, for cash-outs and for sends |
| Dedup.RepeatChangesNothing | db/schema_v1.sql:694-702 | a call whose key has posted changes no row and answers that posting or an error of its own checks |
| Dedup.DedupPreservesMeaning | db/schema_v1.sql:1162-1170 | removing all repeated calls from any history leaves the same accounts, entries and balances |
| Dedup.OnePostingPerKeyAndReference | db/schema_v1.sql:2040 | no two transactions share a key, no two cash-ins a non-null external reference |
| Dedup.ConflictingCashIn | db/schema_v1.sql:748-755 | a cash-in that reuses another's reference changes nothing and answers NULL |
| LedgerProcedures.LedgerStore.ApplyBalanceDelta | db/schema_v1.sql:173-184 | inserts or adds to one cache row and no other |
| LedgerProcedures.LedgerStore.GetSystemAccount | db/schema_v1.sql:492-517 | finds the system account or adds it |
| LedgerProcedures.LedgerStore.PostCashIn | db/schema_v1.sql:679-756 | row-by-row posting with rollback equals the cash-in of the specification, which posts and refuses as `CashInPostsExactly` and `CashInRows` say |
| LedgerProcedures.LedgerStore.PostCashOut | db/schema_v1.sql:763-887 | row-by-row posting with rollback equals the cash-out of the specification, which posts and refuses as `CashOutPostsExactly`, `CashOutRefusals` and `CashOutRows` say |
| LedgerProcedures.LedgerStore.PostP2P | db/schema_v1.sql:1129-1276 | row-by-row posting with rollback equals the transfer of the specification, which posts and refuses as `TransferPostsExactly`, `TransferRefusals` and `TransferRows` say |
| LedgerProcedures.LedgerStore.RegisterUser | db/schema_v1.sql:1362-1428 | a new user gets one wallet with a zero cache row, or nothing changes |
| LedgerProcedures.LedgerStore.ListWalletBalanceInvariants | services/ledger_invariants.py:66-79 | one check per wallet, and every one reports difference 0 in a database that keeps the ledger invariant |
| Paging.ListingNewestFirst | db/schema_v1.sql:640-643 | a listing goes from later to earlier, and within one instant from higher to lower ids |
| Paging.ListingIsUnique | db/schema_v1.sql:613-647 | the descending (created_at, id) listing is the only one of its rows |
| Paging.LivePaging | routes/wallet.py:59-93 | following next_cursor over a table that grows in any way between requests collects no row twice or out of order, and on reaching the empty page each row of the first request exactly once; one request for each late row besides the full pages is enough to reach it |
| PagingRuns.LateRowsCostRequests | db/schema_v1.sql:613-647 | for any numbers of first and late entries and any smaller number of requests, a ledger run, all at one instant, in which the client never reaches the end |
| PagingRuns.RequestsNeededExactly | routes/wallet.py:59-93 | a number of requests reaches the end of every ledger history exactly when it has one for each late entry besides the pages of the first ones and the empty page |
| Paging.PagingIsListing | routes/wallet.py:59-93 | when late rows all sort above the first request's, nothing else is collected, for any limit |
| Paging.TransactionPagesHoldEachEntry | db/schema_v1.sql:613-647 | in any reachable ledger, with any calls and clock readings between the requests, the pages hold each entry of the wallet that the first request could see exactly once |
| Paging.ActivityTotalsLedger | db/schema_v1.sql:524-580 | the net_cents of a wallet's activity total its ledger sum |
| Paging.ActivityPagesTotalBalance | routes/wallet.py:96-130 | in any reachable ledger, with any calls between the requests, the activity rows of the first request are collected once each and total the balance of that moment, in the amounts shown then and later |
| Paging.LaterPostingsAreNewer | db/schema_v1.sql:524-580 | ledger calls that read later clocks than all that is posted add only rows above it to both listings |
| Paging.LaterPostingsAreNotCollected | db/schema_v1.sql:524-580 | calls that read later clocks than all that was posted before the first request leave both collections exactly that request's listings |
| RateLimit.RateLimiter.Allow | rate_limit.py:14-22 | the popping loop and the test leave the queue and answer of the specification |
| RateLimit.RateLimiter.AllowTokenBucket | rate_limit.py:25-37 | refill, test and spend leave the bucket and answer of the specification |
| RateLimit.QueueIsWindow | rate_limit.py:17-21 | after every call the deque is exactly the admitted times still inside the window |
| RateLimit.QueueRefinesNaive | rate_limit.py:14-22 | the deque admits the same calls as a limiter that forgets nothing |
| RateLimit.WindowBound | rate_limit.py:19-22 | no closed window holds more than limit admissions |
| RateLimit.TokensInRange | rate_limit.py:27-36 | stored tokens stay in [0, capacity] |
| RateLimit.BucketBound | rate_limit.py:25-37 | admissions in any interval [s, t] are at most capacity + refill * (t - s) |
| RateLimit.BucketAdmitsExactly | rate_limit.py:25-37 | a call is admitted exactly when the capacity is at least 1 and every interval it ends would, with it, still hold at most capacity + refill * length admissions |
| RateLimit.InterleavedWindowBound | rate_limit.py:14-22 | however calls for other keys are interleaved, no closed window holds more than limit calls of a key answered true |
| RateLimit.InterleavedBucketBound | middleware.py:118-121 | however calls for other keys are interleaved, at most capacity + refill * (t - s) calls of a key in [s, t] are answered true |
| PayoutLife.SubmissionsAreBounded | app/workers/payout_worker.py:346-439 | in any run attempt_count never falls, and recorded submissions <= attempt_count <= 5 |
| PayoutLife.AttemptsCountExactly | app/workers/payout_worker.py:202-287 | a step raises attempt_count, by one, exactly when it records a submission or rejects a row below the limit for its phone, or a MOMO row for its amount or currency |
| PayoutLife.AttemptsCountRun | app/workers/payout_worker.py:184-652 | over any run attempt_count is the recorded submissions plus those rejections |
| PayoutLife.RejectCountsAsAttempt | app/workers/payout_worker.py:202-218 | a payout without a phone is never submitted and counts one attempt |
| PayoutLife.OneSendPerPending | app/workers/payout_worker.py:184-344 | with a non-blank initial reference and no blank reference in replies, sends, even raising ones, are at most 1 + applied admin retries |
| PayoutLife.RefGoesMissing | app/workers/payout_worker.py:293-344 | a present reference goes missing in a step exactly when the step records a reply whose blank reference overwrites it |
| PayoutLife.SendsUntilRefLost | app/workers/payout_worker.py:346-439 | in any run without such a step nothing is resubmitted from SENT, and sends are at most one if the row is PENDING plus the applied retries |
| PayoutLife.LossBreaksBound | app/workers/payout_worker.py:488-491 | after such a step the next pass over the due SENT row sends again: two sends out of one entry into PENDING |
| PayoutLife.BlankReplyBreaksBound | app/workers/payout_worker.py:361-424 | a blank reference in a reply makes two sends out of one entry into PENDING |
| PayoutLife.CallsAreCounted | app/workers/payout_worker.py:488-493 | no call is made where the counts do not say so, and no row without a reference is polled |
| PayoutLife.ReadsReply | app/workers/payout_worker.py:59-92 | what the worker reads is what the reply says: its own status, reference, response, error and flag, or, of the older shape, CONFIRMED iff ok, reference else tx id, retryable iff not ok with one of seven HTTP statuses |
| PayoutLife.PassIsOfOneKind | app/workers/payout_worker.py:110-135 | every pass over a claimed row is exactly one of: a recorded send, a poll that returns, an exception, a row failed unsent |
| PayoutLife.RecordedSendWrites | app/workers/payout_worker.py:289-439 | every column after a recorded send, in the words of the reply: count, instants, reference, response, error, flag, and the next try after 30, 60, 120, 240 or 480 seconds exactly while SENT |
| PayoutLife.RaisedPassWrites | app/workers/payout_worker.py:154-181 | every column after a pass that raises: SENT with the exception and a delayed retry, or FAILED with five attempts spent |
| PayoutLife.RejectedRowWrites | app/workers/payout_worker.py:190-287 | every column of a row failed unsent, and its error: the first check it did not pass |
| PayoutLife.OwnColumnsFirst | app/payouts/repository.py:52-68 | a payout is handled under its own provider and phone where it has them, else under its transaction's |
| PayoutLife.NoLivePayoutIsLost | app/payouts/repository.py:81-87 | a live payout is retryable and becomes claimable at once, or within max(480, stale) seconds of its last write; FAILED has no next_retry_at |
| PayoutLife.BackoffAtMost | app/workers/payout_worker.py:42-45 | the backoff lies between 30 and 480 seconds for every count up to 5 |
| PayoutLife.BackoffDoubles | app/workers/payout_worker.py:42-45 | the backoff is 30 seconds after the first submission and doubles with each one after it |
| PayoutLife.NoCallBeforeStale | app/payouts/repository.py:75-112 | over any run a poll or resend comes at least `stale` seconds after every recorded submission before it, and as the next step not before its backoff is over |
| PayoutLife.MissingRefResolves | app/workers/payout_worker.py:555-652 | while calls return, a SENT payout without a reference gains one or ends within max(1, 5 - attempt_count) handlings |
| PayoutLife.EntersConfirmed | app/workers/payout_worker.py:363-376 | a payout becomes CONFIRMED in a step exactly when a reply of that step says CONFIRMED (its own status, or ok in the older shape), or a notice or an admin does |
| PayoutLife.ConfirmedWasTold | app/workers/payout_worker.py:507-521 | no run confirms a payout without a step that was told so on the row as it then was |
| PayoutLife.PollWritesVerdict | app/workers/payout_worker.py:442-552 | every column after a poll: reference and count stay; a returning one writes what the reply says, its response and error, and while in flight the next poll in 60 seconds; a raising one moves last_attempt_at and keeps SENT, or at the attempt limit moves nothing and writes FAILED |
| PayoutLife.AcceptedThenFailed | app/workers/payout_worker.py:154-181 | a fifth MOMO transfer answered SENT stays SENT, and one raising poll then fails the accepted payout |
| PayoutLife.EntersFailed | app/workers/payout_worker.py:184-652 | a payout becomes FAILED in a step exactly when a check fails it unsent, a reply says neither SENT nor CONFIRMED and allows no retry, a poll or notice says FAILED, or it is given up after an acceptance: a fifth SENT reply, a confirmed MOMO transfer, a raising poll or lookup with the attempts spent |
| PayoutLife.RefComesFromReply | app/workers/payout_worker.py:359-424 | a reference changes only to the one that a recorded reply says, or to the one a MOMO transfer was created under |
| PayoutLife.NoticeWrites | app/payouts/repository.py:196-297 | a notice writes a live row, or any row when it overrides: its status, error and flag, its payload over the response, no retry; the other columns stay |
| PayoutLife.AdminWrites | routes/admin_mobile_money.py:61-155 | a retry needs a FAILED row that is retryable or forced, makes it claimable at once and keeps what the provider told it; a confirmation changes only the status and its instant |
| PayoutLife.LeavesConfirmed | routes/admin_webhooks.py:185-195 | CONFIRMED is left exactly by an override replay of another status or by a retry write whose status check is out of date |
| PayoutLife.ConfirmedIsPermanent | routes/admin_mobile_money.py:129-155 | without those two CONFIRMED is permanent in every run |
| PayoutLife.LateRetryUndoesConfirmed | routes/admin_mobile_money.py:111-152 | the read and the write of admin_retry_payout are separate: a confirmation between them is undone |
| Webhooks.EventsAreRowSteps | app/payouts/repository.py:299-348 | an event merges each row at most once, as that row's own step, and touches no row its references do not name |
| Webhooks.AnyRefMergesExactly | app/payouts/repository.py:299-348 | exactly which rows an event or an override replay merges: those with its provider reference, and, unless exactly one such row was written, the one found by the external reference |
| Webhooks.FirstTerminalWins | routes/webhooks.py:509-532 | for events naming one live payout: status of the first terminal event (SENT if none), response merged up to it, all other rows unchanged |
| Webhooks.FirstEndingWordWins | routes/webhooks.py:47-60 | in the providers' words: CONFIRMED exactly when some word is SUCCESS, SUCCESSFUL, CONFIRMED, COMPLETED or THUNES' PAID and all before are in flight; FAILED exactly when some word is FAILED, CANCELLED, CANCELED, REJECTED, or for THUNES begins with DECLINED or REJECTED, and all before are in flight; SENT when all are; the error is the failing word |
| Webhooks.RepliesAreTrue | routes/webhooks.py:522-532 | events up to the first terminal one are reported applied, later ones as ALREADY_ its status |
| Webhooks.ReportIsOneHit | app/payouts/repository.py:299-348 | any event is reported as applied exactly when one live row has its provider reference, or the row found by its external reference is still live after that update |
| Webhooks.UnreportedChange | app/payouts/repository.py:226-249 | rows change unreported exactly when two or more live rows have the provider reference and the fallback finds none that is live; then exactly those rows are merged |
| Webhooks.SharedRefIsMisreported | app/payouts/repository.py:249 | two payouts sharing a reference are both confirmed while the answer is NOT_UPDATED |
| Workers.RunKeepsInv | app/payouts/repository.py:38-112 | in every reachable state claims of different workers are disjoint and claimed rows are as the claim returned them |
| Workers.ConcurrentIsSerial | app/workers/payout_worker.py:110-135 | any interleaving of workers, webhooks, admins and new payouts leaves the table of a serial run in commit order |
| Workers.ConcurrentRow | app/workers/payout_worker.py:110-135 | under any interleaving each row lives the life of its own committed events, with the submission bound |
| Workers.ConcurrentNewRow | app/workers/payout_worker.py:110-135 | a payout inserted during the run lives, from its inserted row, the life of its own committed events |
| WorkerSends.SendsAreAccounted | app/workers/payout_worker.py:110-135 | every submission of a concurrent run is committed, rolled back with its transaction, or still open |
| WorkerSends.AllSendsBounded | app/workers/payout_worker.py:184-439 | all submissions of a payout, those of rolled back transactions included, are at most one if it starts PENDING plus applied retries plus those rolled back |
| Queue.HandledLeavesPending | app/workers/payout_worker.py:184-439 | every handled PENDING payout leaves PENDING, whatever the provider does |
| Queue.NoStarvation | app/payouts/repository.py:42-50 | a payout with k PENDING ones not younger stays PENDING through at most k / batch_size rounds, however many younger ones arrive |
| PayoutProcedures.PayoutStore.UpdateByAnyRef | app/payouts/repository.py:299-348 | provider reference first, then the external reference, as specified for events; also the update of a replay |
| PayoutProcedures.PayoutStore.Webhook | routes/webhooks.py:460-532 | lookup, update and answer equal the event specification |
| PayoutProcedures.PayoutStore.AdminRetry | routes/admin_mobile_money.py:102-166 | only a FAILED and retryable or forced row goes back to PENDING; each refusal is named |
| PayoutProcedures.PayoutStore.AdminConfirm | routes/admin_mobile_money.py:61-99 | any existing row becomes CONFIRMED |
| PayoutProcedures.PayoutStore.HandlePending | app/workers/payout_worker.py:184-439 | one PENDING row: the outcome and the exception of the specification, whose writes are given column by column in `PassIsOfOneKind` and the lemmas it names |
| PayoutProcedures.PayoutStore.HandleSent | app/workers/payout_worker.py:442-552 | one SENT row: the outcome and the exception of the specification, whose writes are given column by column in `PassIsOfOneKind` and `PollWritesVerdict` |
| PayoutProcedures.PayoutStore.ProcessOnce | app/workers/payout_worker.py:110-135 | both loops, with claims read before any write, leave the serial run of the rows' own events |
| PayoutProcedures.ClaimsSuffice | app/payouts/repository.py:38-112 | what process_once needs of its claims is what the two claim queries give, for any batch size |
| Admission.AcceptedKeyIsStable | routes/payments.py:151-162 | an accepted key has 1 to 128 characters and is its own trimmed form |
| Admission.PaddedHeaderSameKey | routes/payments.py:151-162 | a header padded with blanks gives the key of the unpadded one, so the same postings, responses and open requests |
| Admission.HeaderTakenExactly | routes/payments.py:151-162 | an absent or blank header is answered 409; otherwise the text between the blanks is the key when it has at most 128 characters, and else the answer is 400 |
| Velocity.RollingBounds | services/velocity.py:26-117 | in every history every closed 24 hour window of a user keeps the count, amount, receiver and cash-in caps |
| RouteLaws.VelocityAdmitsExactly | services/velocity.py:26-117 | the checks admit a request exactly when counting it in keeps every cap that is on: number, amount and distinct phones of the user's last 24 hours of cash-outs, amount of cash-ins |
| Velocity.CashOutStep | routes/payments.py:421-502 | a cash-out call that changes the ledger posts once, with its payout row, after the velocity check; otherwise it repeats the key's transaction |
| ExactlyOnce.CashOutExactlyOnce | routes/payments.py:400-524 | for a key nobody else has used: at most one transaction, one debit of amount plus fee, one payout row with its first quote, one transaction id in all 200 answers, crashes included |
| ExactlyOnce.StoredAnswersForever | services/idempotency.py:15-96 | once stored, the same body gets the stored response and another body 409, with no change, for ever |
| ExactlyOnce.RetryAfterCrash | routes/payments.py:421-524 | a retry after crashes is answered with the first transaction exactly when the velocity check admits it; it quotes the current rate while the row keeps the first |
| ExactlyOnce.RetryCountsItself | services/velocity.py:33-46 | with one cash-out a day a retry is refused because of its own first posting |
| AdmissionRuns.CrashedCashOutIsRefused | routes/payments.py:421-524 | a run from an empty site in which a crashed cash-out's retry is refused so |
| ExactlyOnce.AcceptedDebitsIffKeyFresh | db/schema_v1.sql:789-797 | an accepted cash-out debits exactly when its key has not posted before, under any user or route |
| RouteAnswers.RunKeepsSiteOk | routes/payments.py:203-538 | every run of the routes keeps all ledger invariants and pairs each cash-out with a payout row of its instant |
| RouteAnswers.AnswerIsOwnCashOut | db/schema_v1.sql:789-797 | the answer of an accepted cash-out names the caller's own cash-out exactly when nobody has posted the key, or the caller has, as a cash-out |
| RouteAnswers.RowWithoutDebit | routes/payments.py:474-502 | an accepted cash-out makes a payout row without a debit exactly when its key is held by a transaction that is no cash-out and has no payout row |
| RouteAnswers.EveryRowHasItsDebit | routes/payments.py:421-502 | after any run every payout row has a cash-out of its id and amount with that much debited, exactly when no accepted call of the run met such a key |
| RouteLaws.CashOutAnswers | routes/payments.py:400-504 | every answer of the cash-out route before its commit with its exact condition on the request and the rows: recalled, 409, 429, each refusal, 500, accepted |
| RouteLaws.CashOutLeaves | routes/payments.py:474-504 | an accepted cash-out leaves the ledger's posting, the first payout row with the request's own provider, phone, amount, quote and instant, and the response to store; any other answer leaves nothing |
| RouteLaws.CashInAnswers | routes/payments.py:203-284 | every answer of the cash-in route with its exact condition; 500 exactly when its checks pass and another cash-in has the body's provider_ref, or the drawn uuid without one, or a drawn id is taken |
| RouteLaws.CashInLeaves | routes/payments.py:228-284 | a cash-in leaves its posting and its stored response; one answered 500 posts nothing and stores a 200 without a transaction |
| RouteLaws.EveryPaymentIsRequested | routes/payments.py:357-502 | over any run every posted cash-in and cash-out is one of the run's requests, with its id, key, user, instant and amount, and as reference the body's provider_ref when given and not empty, else the drawn uuid |
| RouteLaws.OneCashInPerReference | db/schema_v1.sql:2040 | in any run at most one of the cash-ins whose bodies give the same non-empty provider_ref posts |
| RouteLaws.FailedCashInThenNull | routes/payments.py:216-226 | the same request afterwards, however much later, is answered 200 without a transaction |
| AdmissionRuns.ConflictingCashInIsAnsweredTwice | routes/payments.py:265-284 | a run with a reused provider reference: 500 first, 200 without a transaction the second time |
| AdmissionRuns.SharedKeyPaysWithoutDebit | routes/payments.py:474-502 | one run: user 2's cash-in has the key and no payout row; user 1's cash-out under it is answered 200 with that transaction, debits nothing, and makes its payout row |
| AdmissionProcedures.PaymentDesk.StoreIdempotency | services/idempotency.py:62-96 | the first stored response stays and is returned |
| AdmissionProcedures.PaymentDesk.CashOutMobileMoney | routes/payments.py:400-504 | the route up to its commit equals the specified step, which answers and writes as `CashOutAnswers` and `CashOutLeaves` say |
| AdmissionProcedures.PaymentDesk.StoreAndAnswer | routes/payments.py:506-524 | storing and answering equals the specified step |
| AdmissionProcedures.PaymentDesk.CashInMobileMoney | routes/payments.py:214-284 | the route equals the specified step, which answers and writes as `CashInAnswers` and `CashInLeaves` say |

## Left out

- LedgerProcedures.LedgerStore.RegisterUser: has no users table; it is told whether a unique column is
  taken, and gives one error for both of the source's.
- PayoutProcedures.PayoutStore.Webhook: the read of the payout and the update are one step, and lookups are
  inputs, constrained by `Webhooks.TrueLookups`.
- PayoutProcedures.PayoutStore.ProcessOnce: takes what the claims returned as input, constrained as in
  `ClaimsSuffice`; `Workers` and `Queue` model the claims themselves.
- AdmissionProcedures.PaymentDesk.CashOutMobileMoney: starts after the checks of country, delivery method
  and provider, and does not write provider and phone into the transaction.
- The UPDATE of provider and phone on ledger_transactions in the `post_*_mobile_money` wrappers, audit and
  webhook event logs, metrics.
- `post_merchant_pay`, FX quoting and conversion, reconciliation, catalogs, corridors, exports, support search.
- HTTP, signatures, sessions and sign-in, provider adapters, request parsing, and the checks of country,
  delivery method and provider that come before a cash-out touches the database.
- A transfer's own idempotency route: `Admission` takes transfers and other routes as steps that may
  store rows under their own route names.
- Admin routes find a payout by transaction id, the model by payout id; the two are one to one.
- White space other than blank, tab, newline and carriage return; upper-casing; Unicode.
- Integer overflow, float rounding, SHA-256, and JSON encoding.
- Currencies other than XOF, the transaction status REVERSED, and changes of tiers, rules or limits during a run.
- Fairness between several workers: `Queue` has one, and `Workers` proves safety only.
