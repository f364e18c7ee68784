/**
 One payout row and everything that writes it: the worker's handlers, webhooks,
 replays and admin actions.
 */
module Payouts {
  import opened Wrappers
  import opened Fees

  // A JSON object; `||` on jsonb is the right-biased union.
  type Json = map<string, string>

  datatype Status = PENDING | SENT | CONFIRMED | FAILED

  // A row of app.mobile_money_payouts; instants are seconds.
  datatype Payout = Payout(txn: Id, provider: string, phone: Option<string>, ref: Option<string>, status: Status,
                           attempts: nat, lastAttempt: Option<int>, nextRetry: Option<int>, retryable: bool,
                           response: Option<Json>, lastError: Option<string>, createdAt: int, updatedAt: int)

  // The table, by payout id.
  type Table = map<Id, Payout>

  // The columns a claim joins from ledger_transactions, all NULL without a match.
  datatype TxInfo = TxInfo(provider: Option<string>, phone: Option<string>, amount: Option<int>,
                           currency: Option<string>)

  // What the claim queries hand to a handler; they select neither status nor response.
  datatype Job = Job(provider: string, phone: Option<string>, ref: Option<string>, attempts: nat,
                     amount: Option<int>, currency: Option<string>)

  const MAX_ATTEMPTS := 5
  const BASE_BACKOFF := 30
  const POLL_BACKOFF := 60
  const DEFAULT_BACKOFF := 60
  const SUPPORTED := {"TMONEY", "FLOOZ", "MTN", "MTN_MOMO", "MOMO", "THUNES"}

  /* ---- text ---- */

  predicate Space(c: char) { c == ' ' || c == '\t' || c == '\n' || c == '\r' }

  predicate Blank(s: string) { forall c :: c in s ==> Space(c) }

  function TrimLeft(s: string): string {
    if s != "" && Space(s[0]) then TrimLeft(s[1..]) else s
  }

  function TrimRight(s: string): string {
    if s != "" && Space(s[|s| - 1]) then TrimRight(s[..|s| - 1]) else s
  }

  function Strip(s: string): string { TrimRight(TrimLeft(s)) }

  // `not (value or "").strip()`
  predicate Missing(value: Option<string>) { value.None? || Blank(value.value) }

  // Python's `a or b` on optional strings.
  function Or(a: Option<string>, b: Option<string>): Option<string> {
    if a.Some? && a.value != "" then a else b
  }

  /* ---- provider answers ---- */

  datatype ResultStatus = R_SENT | R_CONFIRMED | R_FAILED | R_OTHER
  datatype ProviderResult = ProviderResult(status: ResultStatus, ref: Option<string>, response: Option<Json>,
                                           error: Option<string>, retryable: Option<bool>)

  // A ProviderResult, or the older shape with ok / provider_tx_id and an http_status.
  datatype Raw =
    | NewStyle(result: ProviderResult)
    | OldStyle(ok: bool, ref: Option<string>, txId: Option<string>, response: Option<Json>,
               httpStatus: Option<int>, error: Option<string>)

  predicate RetryableHttpStatus(status: Option<int>) {
    status.Some? && status.value in {408, 425, 429, 500, 502, 503, 504}
  }

  function Normalize(raw: Raw): ProviderResult {
    match raw
    case NewStyle(r) => r
    case OldStyle(ok, ref, txId, response, http, error) =>
      if ok then ProviderResult(R_CONFIRMED, Or(ref, txId), response, None, Some(false))
      else ProviderResult(R_FAILED, Or(ref, txId), response, error, Some(RetryableHttpStatus(http)))
  }

  // What a provider call does, and what the adapter lookup finds: an adapter with the
  // behaviour of its submission call (send_cashout or create_transfer) and of its poll.
  datatype Call = CallRaises(error: string) | Replies(raw: Raw)
  datatype Answer = NotConfigured | LookupRaises(error: string) | Adapter(send: Call, poll: Call)

  /* ---- update_status ---- */

  datatype Write = Write(status: Status, ref: Option<string>, response: Option<Json>, error: Option<string>,
                         retryable: Option<bool>, attempts: Option<nat>, nextRetry: Option<int>, touch: bool)

  function UpdateRow(row: Payout, from: Option<Status>, w: Write, now: int): Payout {
    if from.Some? && row.status != from.value then row
    else
      row.(status := w.status,
           ref := Coalesce(w.ref, row.ref),
           response := Coalesce(w.response, row.response),
           lastError := w.error,
           retryable := if w.retryable.Some? then w.retryable.value else row.retryable,
           attempts := if w.attempts.Some? then w.attempts.value else row.attempts,
           lastAttempt := if w.touch then Some(now) else row.lastAttempt,
           nextRetry := if w.nextRetry.None? && w.status == SENT && w.retryable == Some(true)
                        then Some(now + DEFAULT_BACKOFF) else w.nextRetry,
           updatedAt := now)
  }

  function Pow2(n: nat): nat { if n == 0 then 1 else 2 * Pow2(n - 1) }

  function NextRetryAt(now: int, attempts: nat): int {
    now + BASE_BACKOFF * Pow2(if attempts >= 1 then attempts - 1 else 0)
  }

  /* ---- worker ---- */

  function JobOf(row: Payout, tx: TxInfo): Job {
    Job(if row.provider != "" then row.provider else if tx.provider.Some? then tx.provider.value else "",
        Coalesce(row.phone, tx.phone), row.ref, row.attempts, tx.amount, tx.currency)
  }

  // A failure found without submitting anything.
  function Reject(job: Job, error: string, attempts: nat): Write {
    Write(FAILED, job.ref, None, Some(error), Some(false), Some(attempts), None, false)
  }

  function OutOfAttempts(ref: Option<string>, attempts: nat): Write {
    Write(FAILED, ref, None, Some("MAX_ATTEMPTS_EXCEEDED"), Some(false), Some(attempts), None, false)
  }

  // What a handler does: one write, or an exception for process_once to catch.
  datatype Outcome = Wrote(write: Write) | Raised(error: string)

  function InternalError(job: Job, error: string, now: int): Write {
    if job.attempts >= MAX_ATTEMPTS then OutOfAttempts(job.ref, job.attempts)
    else Write(SENT, None, None, Some("Worker exception: " + error), Some(true), Some(job.attempts),
               Some(NextRetryAt(now, if job.attempts >= 1 then job.attempts else 1)), true)
  }

  // The write after a send_cashout reply, from PENDING or from SENT without a reference.
  function AfterSend(attempts: nat, res: ProviderResult, retryText: string, failText: string, now: int): Write {
    var attempt := attempts + 1;
    if res.status == R_CONFIRMED then
      Write(CONFIRMED, res.ref, res.response, None, Some(false), Some(attempt), None, true)
    else if res.status == R_SENT then
      if attempt >= MAX_ATTEMPTS then
        Write(FAILED, res.ref, res.response, Some("MAX_ATTEMPTS_EXCEEDED"), Some(false), Some(attempt), None, true)
      else
        Write(SENT, res.ref, res.response, None, Some(true), Some(attempt), Some(NextRetryAt(now, attempt)), true)
    else if res.retryable == Some(true) && attempt < MAX_ATTEMPTS then
      Write(SENT, None, res.response, Or(res.error, Some(retryText)), Some(true), Some(attempt),
            Some(NextRetryAt(now, attempt)), true)
    else
      Write(FAILED, None, res.response,
            if attempt >= MAX_ATTEMPTS then Some("MAX_ATTEMPTS_EXCEEDED") else Or(res.error, Some(failText)),
            Some(false), Some(attempt), None, true)
  }

  // The reference a MOMO transfer is created under: the row's own, else a new uuid.
  function MomoRef(job: Job, uuid: string): string {
    Strip(if job.ref.Some? && job.ref.value != "" then job.ref.value else uuid)
  }

  function AfterMomoTransfer(job: Job, res: ProviderResult, now: int, uuid: string): Write {
    var attempt := job.attempts + 1;
    var ref := Or(res.ref, Some(MomoRef(job, uuid)));
    if res.status == R_SENT then
      Write(SENT, ref, res.response, None, Some(true), Some(attempt), Some(NextRetryAt(now, attempt)), true)
    else
      Write(FAILED, ref, res.response, Or(res.error, Some("MOMO_CREATE_FAILED")),
            Some(res.retryable == Some(true)), Some(attempt), None, true)
  }

  // _handle_pending up to, and not including, the provider call.
  function PendingCheck(job: Job): Option<Write> {
    if job.attempts >= MAX_ATTEMPTS then Some(OutOfAttempts(job.ref, job.attempts))
    else if Missing(job.phone) then Some(Reject(job, "Missing phone_e164", job.attempts + 1))
    else if job.provider !in SUPPORTED then Some(Reject(job, "Unsupported provider: " + job.provider, job.attempts))
    else None
  }

  // The additional checks of a MOMO transfer, made once its adapter is known.
  function MomoCheck(job: Job): Option<Write> {
    if job.provider != "MOMO" then None
    else if job.amount.None? || job.amount.value <= 0 then
      Some(Reject(job, "Missing/invalid amount_cents", job.attempts + 1))
    else if Missing(job.currency) then Some(Reject(job, "Missing currency", job.attempts + 1))
    else None
  }

  function PendingOutcome(job: Job, answer: Answer, now: int, uuid: string): Outcome {
    var check, momo := PendingCheck(job), MomoCheck(job);
    if check.Some? then Wrote(check.value)
    else if answer.LookupRaises? then Raised(answer.error)
    else if answer.NotConfigured? then
      Wrote(Reject(job, "Provider adapter not configured: " + job.provider, job.attempts))
    else if momo.Some? then Wrote(momo.value)
    else if answer.send.CallRaises? then Raised(answer.send.error)
    else
      var res := Normalize(answer.send.raw);
      if job.provider == "MOMO" then Wrote(AfterMomoTransfer(job, res, now, uuid))
      else Wrote(AfterSend(job.attempts, res, "Retryable failure", "Non-retryable failure", now))
  }

  function ResendOutcome(job: Job, send: Call, now: int): Outcome {
    if job.attempts >= MAX_ATTEMPTS then Wrote(OutOfAttempts(None, job.attempts))
    else if send.CallRaises? then Raised(send.error)
    else Wrote(AfterSend(job.attempts, Normalize(send.raw), "Retryable resend failure",
                         "Non-retryable resend failure", now))
  }

  function AfterPoll(job: Job, res: ProviderResult, now: int): Write {
    match res.status
    case R_CONFIRMED => Write(CONFIRMED, job.ref, res.response, None, Some(false), Some(job.attempts), None, false)
    case R_FAILED =>
      Write(FAILED, job.ref, res.response, Or(res.error, Some("FAILED")), Some(false), Some(job.attempts), None, false)
    case _ =>
      Write(SENT, job.ref, res.response, res.error, Some(true), Some(job.attempts), Some(now + POLL_BACKOFF), false)
  }

  function SentOutcome(job: Job, answer: Answer, now: int): Outcome {
    if job.provider !in SUPPORTED then Wrote(Reject(job, "Unsupported provider: " + job.provider, job.attempts))
    else if answer.LookupRaises? then Raised(answer.error)
    else if answer.NotConfigured? then
      Wrote(Reject(job, "Provider adapter not configured: " + job.provider, job.attempts))
    else if Missing(job.ref) then ResendOutcome(job, answer.send, now)
    else if answer.poll.CallRaises? then Raised(answer.poll.error)
    else Wrote(AfterPoll(job, Normalize(answer.poll.raw), now))
  }

  // process_once catches whatever a handler raises.
  function Settled(outcome: Outcome, job: Job, now: int): Write {
    if outcome.Wrote? then outcome.write else InternalError(job, outcome.error, now)
  }

  function HandlePending(row: Payout, tx: TxInfo, answer: Answer, now: int, uuid: string): Payout {
    var job := JobOf(row, tx);
    UpdateRow(row, Some(PENDING), Settled(PendingOutcome(job, answer, now, uuid), job, now), now)
  }

  function HandleSent(row: Payout, tx: TxInfo, answer: Answer, now: int): Payout {
    var job := JobOf(row, tx);
    UpdateRow(row, Some(SENT), Settled(SentOutcome(job, answer, now), job, now), now)
  }

  predicate Due(row: Payout, now: int) { row.nextRetry.None? || row.nextRetry.value <= now }

  // WHERE of claim_pending_payouts and of claim_stale_sent_payouts.
  predicate ClaimablePending(row: Payout, now: int) { row.status == PENDING && Due(row, now) }

  predicate ClaimableSent(row: Payout, now: int, stale: nat) {
    && row.status == SENT && Due(row, now)
    && (if row.lastAttempt.Some? then row.lastAttempt.value <= now - stale else row.updatedAt <= now - stale)
  }

  /* ---- webhooks, replays, admins ---- */

  // What a provider event asks for, with the payload to merge.
  datatype RawNotice = Notice(status: Status, retryable: bool, error: Option<string>, payload: Json)

  // Everything _map_provider_status can answer: never PENDING, retryable exactly when SENT.
  type Notice = n: RawNotice | n.status != PENDING && (n.retryable <==> n.status == SENT)
    witness RawNotice.Notice(SENT, true, None, map[])

  predicate StartsWith(s: string, prefix: string) { prefix <= s }

  // _map_provider_status; `raw` is already trimmed and upper case.
  function MapStatus(raw: string, thunes: bool): (Status, bool, Option<string>) {
    if raw in {"SUCCESS", "SUCCESSFUL", "CONFIRMED", "COMPLETED"} || (thunes && raw == "PAID")
    then (CONFIRMED, false, None)
    else if raw in {"FAILED", "CANCELLED", "CANCELED"}
         || (if thunes then StartsWith(raw, "DECLINED") || StartsWith(raw, "REJECTED") else raw == "REJECTED")
    then (FAILED, false, Some(raw))
    else (SENT, true, None)
  }

  function NoticeOf(raw: string, provider: string, payload: Json): Notice {
    var (status, retryable, error) := MapStatus(raw, provider == "THUNES");
    RawNotice.Notice(status, retryable, error, payload["_provider" := provider])
  }

  predicate Terminal(status: Status) { status == CONFIRMED || status == FAILED }

  // update_status_by_provider_ref / update_status_by_payout_id_merge on one row.
  function MergeRow(row: Payout, n: Notice, override: bool, now: int): Payout {
    if Terminal(row.status) && !override then row
    else
      row.(status := n.status,
           response := Some((if row.response.Some? then row.response.value else map[]) + n.payload),
           lastError := n.error, retryable := n.retryable, nextRetry := None, updatedAt := now)
  }

  // The UPDATE of admin_retry_payout, which does not look at the status again.
  function RetryRow(row: Payout, now: int): Payout {
    row.(status := PENDING, nextRetry := Some(now), lastError := None, retryable := true, updatedAt := now)
  }

  // The status check that admin_retry_payout makes on the row it has read.
  predicate RetryAllowed(row: Payout, force: bool) {
    row.status == FAILED && (row.retryable || force)
  }

  function ConfirmRow(row: Payout, now: int): Payout {
    row.(status := CONFIRMED, updatedAt := now)
  }

  // The row that cash_out_mobile_money inserts.
  function Created(txn: Id, provider: string, phone: Option<string>, ref: string, now: int): Payout {
    Payout(txn, provider, phone, Some(ref), PENDING, 0, None, None, true, None, None, now, now)
  }
}
