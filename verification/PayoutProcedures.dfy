/**
 The payout code as it runs: the repository's updates, the worker's handlers and loops, the
 webhook and admin routes.  Each is proved to do to the table exactly what Payouts, Workers
 and Webhooks say.
 */
module PayoutProcedures {
  import opened Wrappers
  import opened Fees
  import opened Payouts
  import opened Workers
  import PayoutLife
  import Webhooks

  // A claimed row: its ledger columns, and how the provider and the clock behave when it is handled.
  datatype Task = Task(id: Id, tx: TxInfo, answer: Answer, now: int, uuid: string)

  datatype RetryReply = NoPayout | Confirmed409 | NotRetryable409 | StillPending | Requeued

  function Updated(rows: Table, id: Id, from: Option<Status>, w: Write, now: int): Table {
    if id in rows then rows[id := UpdateRow(rows[id], from, w, now)] else rows
  }

  // What a handler does to the table, and the exception it leaves with.
  function AfterOutcome(rows: Table, id: Id, from: Status, outcome: Outcome, now: int): Table {
    if outcome.Wrote? then Updated(rows, id, Some(from), outcome.write, now) else rows
  }

  function ErrorOf(outcome: Outcome): Option<string> {
    if outcome.Raised? then Some(outcome.error) else None
  }

  function PendingAct(t: Task): Act { On({t.id}, PayoutLife.WorkPending(t.now, t.tx, t.answer, t.uuid)) }

  function SentAct(t: Task, stale: nat): Act { On({t.id}, PayoutLife.WorkSent(t.now, stale, t.tx, t.answer)) }

  function PendingActs(ts: seq<Task>): seq<Act> { seq(|ts|, i requires 0 <= i < |ts| => PendingAct(ts[i])) }

  function SentActs(ts: seq<Task>, stale: nat): seq<Act> {
    seq(|ts|, i requires 0 <= i < |ts| => SentAct(ts[i], stale))
  }

  predicate DistinctTasks(ts: seq<Task>) { forall i, j :: 0 <= i < j < |ts| ==> ts[i].id != ts[j].id }

  // What the claim queries guarantee of the rows they return.
  predicate ClaimedPending(rows: Table, ts: seq<Task>, at: int) {
    && DistinctTasks(ts)
    && forall i :: 0 <= i < |ts| ==> ts[i].id in rows && ClaimablePending(rows[ts[i].id], at) && at <= ts[i].now
  }

  predicate ClaimedSent(rows: Table, ts: seq<Task>, at: int, stale: nat) {
    && DistinctTasks(ts)
    && forall i :: 0 <= i < |ts| ==> ts[i].id in rows && ClaimableSent(rows[ts[i].id], at, stale) && at <= ts[i].now
  }

  // Tasks over claimed ids, handled at or after the claim.
  predicate TasksOver(ts: seq<Task>, ids: seq<Id>, at: int) {
    |ts| == |ids| && forall i :: 0 <= i < |ts| ==> ts[i].id == ids[i] && at <= ts[i].now
  }

  /** What process_once needs of its claims is what the two claim queries give, for any batch size. */
  lemma ClaimsSuffice(rows: Table, young: seq<Id>, aged: seq<Id>, limit: nat, at: int, stale: nat,
                      pending: seq<Task>, sent: seq<Task>)
    requires PickedPending(World(rows, map[]), 0, young, limit, at) && TasksOver(pending, young, at)
    requires PickedSent(World(rows, map[]), 0, aged, limit, at, stale) && TasksOver(sent, aged, at)
    ensures ClaimedPending(rows, pending, at) && ClaimedSent(rows, sent, at, stale)
  {
  }

  function Jobs(rows: Table, ts: seq<Task>): (jobs: seq<Job>)
    requires forall i :: 0 <= i < |ts| ==> ts[i].id in rows
  {
    seq(|ts|, i requires 0 <= i < |ts| => JobOf(rows[ts[i].id], ts[i].tx))
  }

  lemma SerialNone(rows: Table, acts: seq<Act>)
    requires acts == []
    ensures Serial(rows, acts) == rows
  {
  }

  lemma SerialUpTo(rows: Table, acts: seq<Act>, n: nat)
    requires n < |acts|
    ensures Serial(rows, acts[..n + 1]) == Do(Serial(rows, acts[..n]), acts[n])
  {
    assert acts[..n + 1] == acts[..n] + [acts[n]];
    Workers.SerialNext(rows, acts[..n], acts[n]);
  }

  // A handler's writes, with whatever it raises settled, are the serial act of its row.
  lemma PendingSettles(rows: Table, t: Task, at: int)
    requires t.id in rows && ClaimablePending(rows[t.id], at) && at <= t.now
    ensures var job := JobOf(rows[t.id], t.tx);
            Updated(rows, t.id, Some(PENDING), Settled(PendingOutcome(job, t.answer, t.now, t.uuid), job, t.now), t.now)
            == Do(rows, PendingAct(t))
  {
  }

  lemma SentSettles(rows: Table, t: Task, at: int, stale: nat)
    requires t.id in rows && ClaimableSent(rows[t.id], at, stale) && at <= t.now
    ensures var job := JobOf(rows[t.id], t.tx);
            Updated(rows, t.id, Some(SENT), Settled(SentOutcome(job, t.answer, t.now), job, t.now), t.now)
            == Do(rows, SentAct(t, stale))
  {
  }

  class PayoutStore {
    var rows: Table

    constructor ()
      ensures rows == map[]
    {
      rows := map[];
    }

    /* ---- app/payouts/repository.py ---- */

    method UpdateStatus(id: Id, from: Option<Status>, w: Write, now: int) returns (ok: bool)
      modifies this
      ensures rows == Updated(old(rows), id, from, w, now)
      ensures ok <==> id in old(rows) && (from.None? || old(rows)[id].status == from.value)
    {
      var effective := w.nextRetry;
      if effective.None? && w.status == SENT && w.retryable == Some(true) {
        effective := Some(now + DEFAULT_BACKOFF);
      }
      if id !in rows { return false; }
      var row := rows[id];
      if from.Some? && row.status != from.value { return false; }
      var retryable, attempts, lastAttempt := row.retryable, row.attempts, row.lastAttempt;
      if w.retryable.Some? { retryable := w.retryable.value; }
      if w.attempts.Some? { attempts := w.attempts.value; }
      if w.touch { lastAttempt := Some(now); }
      rows := rows[id := row.(status := w.status, ref := Coalesce(w.ref, row.ref),
                              response := Coalesce(w.response, row.response), lastError := w.error,
                              retryable := retryable, attempts := attempts, lastAttempt := lastAttempt,
                              nextRetry := effective, updatedAt := now)];
      ok := true;
    }

    method UpdateByProviderRef(pref: string, n: Notice, override: bool, now: int) returns (ok: bool)
      modifies this
      ensures rows == Webhooks.UpdateByProviderRef(old(rows), pref, n, override, now)
      ensures ok <==> |Webhooks.Hit(old(rows), pref, override)| == 1
    {
      var table := rows;
      var hit := set id | id in table && table[id].ref == Some(pref) && (override || !Terminal(table[id].status));
      rows := map id | id in table ::
        if id !in hit then table[id]
        else
          var row := table[id];
          row.(status := n.status, lastError := n.error, retryable := n.retryable, nextRetry := None, updatedAt := now,
               response := Some((if row.response.Some? then row.response.value else map[]) + n.payload));
      assert hit == Webhooks.Hit(table, pref, override);
      ok := |hit| == 1;
    }

    method MergeById(id: Id, n: Notice, override: bool, now: int) returns (ok: bool)
      modifies this
      ensures rows == Webhooks.MergeById(old(rows), id, n, override, now)
      ensures ok <==> Webhooks.WritesById(old(rows), id, override)
    {
      if id !in rows || (!override && Terminal(rows[id].status)) { return false; }
      var row := rows[id];
      var response := (if row.response.Some? then row.response.value else map[]) + n.payload;
      rows := rows[id := row.(status := n.status, response := Some(response), lastError := n.error,
                              retryable := n.retryable, nextRetry := None, updatedAt := now)];
      ok := true;
    }

    method UpdateByAnyRef(ev: Webhooks.Event, override: bool) returns (ok: bool)
      modifies this
      ensures rows == Webhooks.AfterAnyRef(old(rows), ev, override)
      ensures ok <==> Webhooks.ReportsOk(old(rows), ev, override)
    {
      if ev.pref.Some? {
        ok := UpdateByProviderRef(ev.pref.value, ev.notice, override, ev.now);
        if ok { return; }
      }
      if ev.eref.Some? {
        if ev.fallback.None? { return false; }
        ok := MergeById(ev.fallback.value, ev.notice, override, ev.now);
        return;
      }
      ok := false;
    }

    /* ---- routes/webhooks.py, routes/admin_mobile_money.py ---- */

    method Webhook(ev: Webhooks.Event) returns (reply: Webhooks.Reply)
      modifies this
      ensures rows == if reply == Webhooks.NotFound then old(rows) else Webhooks.Handle(old(rows), ev)
      ensures reply == Webhooks.ReplyTo(old(rows), ev)
    {
      var existing := Webhooks.Existing(ev);
      if existing.None? || existing.value !in rows { return Webhooks.NotFound; }
      var before := rows[existing.value].status;
      var ok := UpdateByAnyRef(ev, false);
      if ok {
        reply := Webhooks.Updated;
      } else if before == CONFIRMED {
        reply := Webhooks.AlreadyConfirmed;
      } else if before == FAILED {
        reply := Webhooks.AlreadyFailed;
      } else {
        reply := Webhooks.NotUpdated;
      }
    }

    method AdminRetry(id: Id, force: bool, now: int) returns (reply: RetryReply)
      modifies this
      ensures rows == if id in old(rows) then
                        old(rows)[id := PayoutLife.Apply(old(rows)[id], PayoutLife.Retry(now, force))] else old(rows)
      ensures reply == NoPayout <==> id !in old(rows)
      ensures reply == Requeued <==> id in old(rows) && RetryAllowed(old(rows)[id], force)
      ensures reply == StillPending <==> id in old(rows) && old(rows)[id].status == PENDING
      ensures reply == Confirmed409 <==> id in old(rows) && old(rows)[id].status == CONFIRMED
    {
      if id !in rows { return NoPayout; }
      var row := rows[id];
      match row.status
      case CONFIRMED => reply := Confirmed409;
      case PENDING => reply := StillPending;
      case FAILED =>
        if !row.retryable && !force { return NotRetryable409; }
        rows := rows[id := row.(status := PENDING, nextRetry := Some(now), lastError := None,
                                retryable := true, updatedAt := now)];
        reply := Requeued;
      case SENT => reply := NotRetryable409;
    }

    method AdminConfirm(id: Id, now: int) returns (found: bool)
      modifies this
      ensures found <==> id in old(rows)
      ensures rows == if id in old(rows) then
                        old(rows)[id := PayoutLife.Apply(old(rows)[id], PayoutLife.Confirm(now))] else old(rows)
    {
      if id !in rows { return false; }
      rows := rows[id := rows[id].(status := CONFIRMED, updatedAt := now)];
      found := true;
    }

    /* ---- app/workers/payout_worker.py ---- */

    method MarkTerminalMaxAttempts(id: Id, from: Status, ref: Option<string>, attempts: nat, now: int)
      modifies this
      ensures rows == Updated(old(rows), id, Some(from), OutOfAttempts(ref, attempts), now)
    {
      var _ := UpdateStatus(id, Some(from),
        Write(FAILED, ref, None, Some("MAX_ATTEMPTS_EXCEEDED"), Some(false), Some(attempts), None, false), now);
    }

    method MarkInternalError(id: Id, job: Job, error: string, from: Status, now: int)
      modifies this
      ensures rows == Updated(old(rows), id, Some(from), InternalError(job, error, now), now)
    {
      if job.attempts >= MAX_ATTEMPTS {
        MarkTerminalMaxAttempts(id, from, job.ref, job.attempts, now);
        return;
      }
      var _ := UpdateStatus(id, Some(from),
        Write(SENT, None, None, Some("Worker exception: " + error), Some(true), Some(job.attempts),
              Some(NextRetryAt(now, if job.attempts >= 1 then job.attempts else 1)), true), now);
    }

    // The tail shared by _handle_pending and _resend_sent_missing_ref, after the reply.
    method RecordSend(id: Id, from: Status, attempts: nat, res: ProviderResult, retryText: string,
                      failText: string, now: int)
      modifies this
      ensures rows == Updated(old(rows), id, Some(from), AfterSend(attempts, res, retryText, failText, now), now)
    {
      var attempt := attempts + 1;
      var w: Write;
      if res.status == R_CONFIRMED {
        w := Write(CONFIRMED, res.ref, res.response, None, Some(false), Some(attempt), None, true);
      } else if res.status == R_SENT {
        if attempt >= MAX_ATTEMPTS {
          w := Write(FAILED, res.ref, res.response, Some("MAX_ATTEMPTS_EXCEEDED"), Some(false), Some(attempt), None,
                     true);
        } else {
          w := Write(SENT, res.ref, res.response, None, Some(true), Some(attempt), Some(NextRetryAt(now, attempt)),
                     true);
        }
      } else if res.retryable == Some(true) && attempt < MAX_ATTEMPTS {
        w := Write(SENT, None, res.response, Or(res.error, Some(retryText)), Some(true), Some(attempt),
                   Some(NextRetryAt(now, attempt)), true);
      } else {
        var terminal :=
          if attempt >= MAX_ATTEMPTS then Some("MAX_ATTEMPTS_EXCEEDED") else Or(res.error, Some(failText));
        w := Write(FAILED, None, res.response, terminal, Some(false), Some(attempt), None, true);
      }
      var _ := UpdateStatus(id, Some(from), w, now);
    }

    method Fail(id: Id, job: Job, from: Status, error: string, attempts: nat, now: int)
      modifies this
      ensures rows == Updated(old(rows), id, Some(from), Reject(job, error, attempts), now)
    {
      var _ := UpdateStatus(id, Some(from),
        Write(FAILED, job.ref, None, Some(error), Some(false), Some(attempts), None, false), now);
    }

    method CreateMomoTransfer(id: Id, job: Job, send: Call, now: int, uuid: string) returns (error: Option<string>)
      modifies this
      ensures var outcome := if send.CallRaises? then Raised(send.error)
                             else Wrote(AfterMomoTransfer(job, Normalize(send.raw), now, uuid));
              error == ErrorOf(outcome) && rows == AfterOutcome(old(rows), id, PENDING, outcome, now)
    {
      var ref := Strip(if job.ref.Some? && job.ref.value != "" then job.ref.value else uuid);
      var attempt := job.attempts + 1;
      if send.CallRaises? { return Some(send.error); }
      var res := Normalize(send.raw);
      var returned := if res.ref.Some? && res.ref.value != "" then res.ref else Some(ref);
      var w: Write;
      if res.status == R_SENT {
        w := Write(SENT, returned, res.response, None, Some(true), Some(attempt), Some(NextRetryAt(now, attempt)),
                   true);
      } else {
        w := Write(FAILED, returned, res.response, Or(res.error, Some("MOMO_CREATE_FAILED")),
                   Some(res.retryable == Some(true)), Some(attempt), None, true);
      }
      var _ := UpdateStatus(id, Some(PENDING), w, now);
      error := None;
    }

    // Submission, once the checks have passed and the adapter is known.
    method SubmitPending(id: Id, job: Job, answer: Answer, now: int, uuid: string) returns (error: Option<string>)
      requires answer.Adapter? && PendingCheck(job).None?
      modifies this
      ensures error == ErrorOf(PendingOutcome(job, answer, now, uuid))
      ensures rows == AfterOutcome(old(rows), id, PENDING, PendingOutcome(job, answer, now, uuid), now)
    {
      if job.provider == "MOMO" {
        if job.amount.None? || job.amount.value <= 0 {
          Fail(id, job, PENDING, "Missing/invalid amount_cents", job.attempts + 1, now);
          return None;
        }
        if Missing(job.currency) {
          Fail(id, job, PENDING, "Missing currency", job.attempts + 1, now);
          return None;
        }
        error := CreateMomoTransfer(id, job, answer.send, now, uuid);
        return;
      }
      if answer.send.CallRaises? { return Some(answer.send.error); }
      RecordSend(id, PENDING, job.attempts, Normalize(answer.send.raw), "Retryable failure",
                 "Non-retryable failure", now);
      error := None;
    }

    method HandlePending(id: Id, job: Job, answer: Answer, now: int, uuid: string) returns (error: Option<string>)
      modifies this
      ensures error == ErrorOf(PendingOutcome(job, answer, now, uuid))
      ensures rows == AfterOutcome(old(rows), id, PENDING, PendingOutcome(job, answer, now, uuid), now)
    {
      if job.attempts >= MAX_ATTEMPTS {
        MarkTerminalMaxAttempts(id, PENDING, job.ref, job.attempts, now);
        return None;
      }
      if Missing(job.phone) {
        Fail(id, job, PENDING, "Missing phone_e164", job.attempts + 1, now);
        return None;
      }
      if job.provider !in SUPPORTED {
        Fail(id, job, PENDING, "Unsupported provider: " + job.provider, job.attempts, now);
        return None;
      }
      if answer.LookupRaises? { return Some(answer.error); }
      if answer.NotConfigured? {
        Fail(id, job, PENDING, "Provider adapter not configured: " + job.provider, job.attempts, now);
        return None;
      }
      error := SubmitPending(id, job, answer, now, uuid);
    }

    method ResendMissingRef(id: Id, job: Job, send: Call, now: int) returns (error: Option<string>)
      modifies this
      ensures error == ErrorOf(ResendOutcome(job, send, now))
      ensures rows == AfterOutcome(old(rows), id, SENT, ResendOutcome(job, send, now), now)
    {
      if job.attempts >= MAX_ATTEMPTS {
        MarkTerminalMaxAttempts(id, SENT, None, job.attempts, now);
        return None;
      }
      if send.CallRaises? { return Some(send.error); }
      RecordSend(id, SENT, job.attempts, Normalize(send.raw), "Retryable resend failure",
                 "Non-retryable resend failure", now);
      error := None;
    }

    method HandleSent(id: Id, job: Job, answer: Answer, now: int) returns (error: Option<string>)
      modifies this
      ensures error == ErrorOf(SentOutcome(job, answer, now))
      ensures rows == AfterOutcome(old(rows), id, SENT, SentOutcome(job, answer, now), now)
    {
      if job.provider !in SUPPORTED {
        Fail(id, job, SENT, "Unsupported provider: " + job.provider, job.attempts, now);
        return None;
      }
      if answer.LookupRaises? { return Some(answer.error); }
      if answer.NotConfigured? {
        Fail(id, job, SENT, "Provider adapter not configured: " + job.provider, job.attempts, now);
        return None;
      }
      if Missing(job.ref) {
        error := ResendMissingRef(id, job, answer.send, now);
        return;
      }
      if answer.poll.CallRaises? { return Some(answer.poll.error); }
      var res := Normalize(answer.poll.raw);
      var w: Write;
      match res.status {
        case R_CONFIRMED =>
          w := Write(CONFIRMED, job.ref, res.response, None, Some(false), Some(job.attempts), None, false);
        case R_FAILED =>
          w := Write(FAILED, job.ref, res.response, Or(res.error, Some("FAILED")), Some(false), Some(job.attempts),
                     None, false);
        case _ =>
          w := Write(SENT, job.ref, res.response, res.error, Some(true), Some(job.attempts),
                     Some(now + POLL_BACKOFF), false);
      }
      var _ := UpdateStatus(id, Some(SENT), w, now);
      error := None;
    }

    // One row of the first loop of process_once, with its try and except.
    method WorkPending(t: Task, job: Job, ghost at: int)
      requires t.id in rows && ClaimablePending(rows[t.id], at) && at <= t.now && job == JobOf(rows[t.id], t.tx)
      modifies this
      ensures rows == Do(old(rows), PendingAct(t))
      ensures forall id :: id in old(rows) && id != t.id ==> id in rows && rows[id] == old(rows)[id]
    {
      PendingSettles(rows, t, at);
      hide PendingOutcome, UpdateRow, InternalError;
      var error := HandlePending(t.id, job, t.answer, t.now, t.uuid);
      if error.Some? { MarkInternalError(t.id, job, error.value, PENDING, t.now); }
    }

    method WorkSent(t: Task, job: Job, ghost at: int, ghost stale: nat)
      requires t.id in rows && ClaimableSent(rows[t.id], at, stale) && at <= t.now && job == JobOf(rows[t.id], t.tx)
      modifies this
      ensures rows == Do(old(rows), SentAct(t, stale))
      ensures forall id :: id in old(rows) && id != t.id ==> id in rows && rows[id] == old(rows)[id]
    {
      SentSettles(rows, t, at, stale);
      hide SentOutcome, UpdateRow, InternalError;
      var error := HandleSent(t.id, job, t.answer, t.now);
      if error.Some? { MarkInternalError(t.id, job, error.value, SENT, t.now); }
    }

    /** process_once: both claims are read before anything is written, yet the result is the serial
        run of the rows' own events, one after another, on the table as it then stands. */
    method ProcessOnce(pending: seq<Task>, sent: seq<Task>, at: int, stale: nat) returns (processed: nat)
      requires ClaimedPending(rows, pending, at) && ClaimedSent(rows, sent, at, stale)
      modifies this
      ensures processed == |pending| + |sent|
      ensures rows == Serial(Serial(old(rows), PendingActs(pending)), SentActs(sent, stale))
    {
      assert forall i, j :: 0 <= i < |pending| && 0 <= j < |sent| ==> pending[i].id != sent[j].id;
      hide Do, Serial, OnRows, ClaimablePending, ClaimableSent, PendingAct, SentAct;
      processed := 0;
      var pendingJobs, sentJobs := Jobs(rows, pending), Jobs(rows, sent);
      ghost var acts := PendingActs(pending);
      SerialNone(rows, acts[..0]);
      var i := 0;
      while i < |pending|
        invariant 0 <= i <= |pending| && processed == i
        invariant rows == Serial(old(rows), acts[..i])
        invariant forall id :: id in old(rows) && (forall j :: 0 <= j < i ==> pending[j].id != id) ==>
                    id in rows && rows[id] == old(rows)[id]
      {
        processed := processed + 1;
        assert pending[i].id in rows && rows[pending[i].id] == old(rows)[pending[i].id];
        WorkPending(pending[i], pendingJobs[i], at);
        SerialUpTo(old(rows), acts, i);
        i := i + 1;
      }
      assert acts[..i] == acts;
      ghost var middle := rows;
      ghost var later := SentActs(sent, stale);
      SerialNone(middle, later[..0]);
      i := 0;
      while i < |sent|
        invariant 0 <= i <= |sent| && processed == |pending| + i
        invariant rows == Serial(middle, later[..i])
        invariant forall j :: i <= j < |sent| ==>
                    sent[j].id in rows && rows[sent[j].id] == old(rows)[sent[j].id]
      {
        processed := processed + 1;
        WorkSent(sent[i], sentJobs[i], at, stale);
        SerialUpTo(middle, later, i);
        i := i + 1;
      }
      assert later[..i] == later;
    }
  }
}
