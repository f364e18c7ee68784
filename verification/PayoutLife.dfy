/**
 The life of one payout under any sequence of worker passes, webhooks, replays and
 admin actions: bounded submissions, no lost payout, permanence of CONFIRMED.
 */
module PayoutLife {
  import opened Wrappers
  import opened Fees
  import opened Payouts

  datatype Event =
    | WorkPending(now: int, tx: TxInfo, answer: Answer, uuid: string)
    | WorkSent(now: int, stale: nat, tx: TxInfo, answer: Answer)
    | Webhook(now: int, notice: Notice)
    | Replay(now: int, notice: Notice, override: bool)
    | Retry(now: int, force: bool)
    // The UPDATE of an admin retry whose SELECT ran before other steps changed the row.
    | LateRetryWrite(now: int)
    | Confirm(now: int)

  function Apply(row: Payout, ev: Event): Payout {
    match ev
    case WorkPending(now, tx, answer, uuid) =>
      if ClaimablePending(row, now) then HandlePending(row, tx, answer, now, uuid) else row
    case WorkSent(now, stale, tx, answer) =>
      if ClaimableSent(row, now, stale) then HandleSent(row, tx, answer, now) else row
    case Webhook(now, n) => MergeRow(row, n, false, now)
    case Replay(now, n, override) => MergeRow(row, n, override, now)
    case Retry(now, force) => if RetryAllowed(row, force) then RetryRow(row, now) else row
    case LateRetryWrite(now) => RetryRow(row, now)
    case Confirm(now) => ConfirmRow(row, now)
  }

  function Run(row: Payout, evs: seq<Event>): Payout
    decreases |evs|
  {
    if evs == [] then row else Run(Apply(row, evs[0]), evs[1..])
  }

  /* ---- what a reply says, of either shape ---- */

  // The older shape confirms when it is ok and fails otherwise.
  predicate Says(raw: Raw, status: ResultStatus) {
    match raw
    case NewStyle(r) => r.status == status
    case OldStyle(ok, _, _, _, _, _) => status == (if ok then R_CONFIRMED else R_FAILED)
  }

  // The older shape's reference is its provider_ref, or its provider_tx_id when that is absent or empty.
  function SaidRef(raw: Raw): Option<string> {
    match raw
    case NewStyle(r) => r.ref
    case OldStyle(_, None, txId, _, _, _) => txId
    case OldStyle(_, Some(ref), txId, _, _, _) => if ref == "" then txId else Some(ref)
  }

  function SaidResponse(raw: Raw): Option<Json> {
    match raw
    case NewStyle(r) => r.response
    case OldStyle(_, _, _, response, _, _) => response
  }

  // An older reply that is ok has no error.
  function SaidError(raw: Raw): Option<string> {
    match raw
    case NewStyle(r) => r.error
    case OldStyle(ok, _, _, _, _, error) => if ok then None else error
  }

  // An older reply may be retried when it is not ok and its HTTP status is one of seven.
  predicate SaysRetry(raw: Raw) {
    match raw
    case NewStyle(r) => r.retryable == Some(true)
    case OldStyle(ok, _, _, _, http, _) =>
      && !ok && http.Some?
      && (http.value == 408 || http.value == 425 || http.value == 429 || http.value == 500
          || http.value == 502 || http.value == 503 || http.value == 504)
  }

  // What the worker reads is what the reply says.
  lemma ReadsReply(raw: Raw)
    ensures var res := Normalize(raw);
            && Says(raw, res.status) && res.ref == SaidRef(raw) && res.response == SaidResponse(raw)
            && res.error == SaidError(raw) && (res.retryable == Some(true) <==> SaysRetry(raw))
    ensures forall status :: Says(raw, status) ==> status == Normalize(raw).status
  {
  }

  /* ---- what a step does at the provider ---- */

  // What a job needs before it is submitted, and a MOMO job besides.
  predicate Deliverable(job: Job) {
    job.attempts < MAX_ATTEMPTS && !Missing(job.phone) && job.provider in SUPPORTED
  }

  predicate MomoReady(job: Job) {
    job.provider == "MOMO" ==> job.amount.Some? && job.amount.value > 0 && !Missing(job.currency)
  }

  lemma ChecksPass(job: Job)
    ensures PendingCheck(job).None? <==> Deliverable(job)
    ensures MomoCheck(job).None? <==> MomoReady(job)
  {
  }

  // A send (send_cashout or create_transfer) from PENDING, a resend from SENT, a poll.
  predicate SendsPending(row: Payout, ev: Event) {
    && ev.WorkPending? && ClaimablePending(row, ev.now) && ev.answer.Adapter?
    && Deliverable(JobOf(row, ev.tx)) && MomoReady(JobOf(row, ev.tx))
  }

  predicate Resends(row: Payout, ev: Event) {
    && ev.WorkSent? && ClaimableSent(row, ev.now, ev.stale) && ev.answer.Adapter?
    && JobOf(row, ev.tx).provider in SUPPORTED && Missing(row.ref) && row.attempts < MAX_ATTEMPTS
  }

  predicate Polls(row: Payout, ev: Event) {
    && ev.WorkSent? && ClaimableSent(row, ev.now, ev.stale) && ev.answer.Adapter?
    && JobOf(row, ev.tx).provider in SUPPORTED && !Missing(row.ref)
  }

  predicate Sends(row: Payout, ev: Event) { SendsPending(row, ev) || Resends(row, ev) }

  // A send whose reply was recorded.
  predicate Records(row: Payout, ev: Event) { Sends(row, ev) && ev.answer.send.Replies? }

  predicate AppliesRetry(row: Payout, ev: Event) {
    ev.LateRetryWrite? || (ev.Retry? && RetryAllowed(row, ev.force))
  }

  function One(b: bool): nat { if b then 1 else 0 }

  function SendCount(row: Payout, evs: seq<Event>): nat
    decreases |evs|
  {
    if evs == [] then 0 else One(Sends(row, evs[0])) + SendCount(Apply(row, evs[0]), evs[1..])
  }

  function ResendCount(row: Payout, evs: seq<Event>): nat
    decreases |evs|
  {
    if evs == [] then 0 else One(Resends(row, evs[0])) + ResendCount(Apply(row, evs[0]), evs[1..])
  }

  function RecordCount(row: Payout, evs: seq<Event>): nat
    decreases |evs|
  {
    if evs == [] then 0 else One(Records(row, evs[0])) + RecordCount(Apply(row, evs[0]), evs[1..])
  }

  function RetryCount(row: Payout, evs: seq<Event>): nat
    decreases |evs|
  {
    if evs == [] then 0 else One(AppliesRetry(row, evs[0])) + RetryCount(Apply(row, evs[0]), evs[1..])
  }

  /* ---- what one handler writes ---- */

  predicate ReplyIs(call: Call, status: ResultStatus) { call.Replies? && Says(call.raw, status) }

  predicate Submits(job: Job, answer: Answer) { answer.Adapter? && Deliverable(job) && MomoReady(job) }

  predicate Resubmits(job: Job, answer: Answer) {
    answer.Adapter? && job.provider in SUPPORTED && Missing(job.ref) && job.attempts < MAX_ATTEMPTS
  }

  lemma PendingVerdict(job: Job, answer: Answer, now: int, uuid: string)
    ensures var w := Settled(PendingOutcome(job, answer, now, uuid), job, now);
            && (w.status == CONFIRMED <==>
                  Submits(job, answer) && job.provider != "MOMO" && ReplyIs(answer.send, R_CONFIRMED))
            && (w.ref.Some? && w.ref != job.ref ==>
                  && Submits(job, answer) && answer.send.Replies?
                  && (w.ref == SaidRef(answer.send.raw)
                      || (job.provider == "MOMO" && w.ref == Some(MomoRef(job, uuid)))))
  {
  }

  lemma SentVerdict(job: Job, answer: Answer, now: int)
    ensures var w := Settled(SentOutcome(job, answer, now), job, now);
            && (w.status == CONFIRMED <==>
                  || (Resubmits(job, answer) && ReplyIs(answer.send, R_CONFIRMED))
                  || (answer.Adapter? && job.provider in SUPPORTED && !Missing(job.ref)
                      && ReplyIs(answer.poll, R_CONFIRMED)))
            && (w.ref.Some? && w.ref != job.ref ==>
                  Resubmits(job, answer) && answer.send.Replies? && w.ref == SaidRef(answer.send.raw))
  {
  }

  /* ---- lifetime submission bound ---- */

  lemma PendingAttempts(job: Job, answer: Answer, now: int, uuid: string)
    requires job.attempts <= MAX_ATTEMPTS
    ensures var w := Settled(PendingOutcome(job, answer, now, uuid), job, now);
            && w.attempts.Some? && job.attempts <= w.attempts.value <= MAX_ATTEMPTS && w.status != PENDING
            && (Submits(job, answer) && answer.send.Replies? ==> w.attempts.value == job.attempts + 1)
  {
  }

  lemma SentAttempts(job: Job, answer: Answer, now: int)
    requires job.attempts <= MAX_ATTEMPTS
    ensures var w := Settled(SentOutcome(job, answer, now), job, now);
            && w.attempts.Some? && job.attempts <= w.attempts.value <= MAX_ATTEMPTS && w.status != PENDING
            && ((answer.Adapter? && answer.send.Replies? && job.provider in SUPPORTED && Missing(job.ref)
                 && job.attempts < MAX_ATTEMPTS) ==> w.attempts.value == job.attempts + 1)
  {
  }

  lemma AttemptsStep(row: Payout, ev: Event)
    requires row.attempts <= MAX_ATTEMPTS
    ensures row.attempts + One(Records(row, ev)) <= Apply(row, ev).attempts <= MAX_ATTEMPTS
  {
    hide PendingOutcome, SentOutcome, Settled;
    match ev
    case WorkPending(now, tx, answer, uuid) => PendingAttempts(JobOf(row, tx), answer, now, uuid);
    case WorkSent(now, _, tx, answer) => SentAttempts(JobOf(row, tx), answer, now);
    case _ =>
  }

  lemma {:induction false} AttemptsRun(row: Payout, evs: seq<Event>)
    requires row.attempts <= MAX_ATTEMPTS
    ensures row.attempts + RecordCount(row, evs) <= Run(row, evs).attempts <= MAX_ATTEMPTS
    decreases |evs|
  {
    if evs != [] {
      AttemptsStep(row, evs[0]);
      AttemptsRun(Apply(row, evs[0]), evs[1..]);
    }
  }

  // A row that the worker rejects without submitting it, and whose count it raises all the same.
  predicate CountedReject(row: Payout, ev: Event) {
    ev.WorkPending? && ClaimablePending(row, ev.now) && row.attempts < MAX_ATTEMPTS &&
    var job := JobOf(row, ev.tx);
    Missing(job.phone) || (ev.answer.Adapter? && !MomoReady(job))
  }

  lemma PendingCounts(job: Job, answer: Answer, now: int, uuid: string)
    ensures var w := Settled(PendingOutcome(job, answer, now, uuid), job, now);
            var rejects := job.attempts < MAX_ATTEMPTS
                           && (Missing(job.phone) || (answer.Adapter? && !MomoReady(job)));
            w.attempts == Some(job.attempts + One((Submits(job, answer) && answer.send.Replies?) || rejects))
  {
  }

  lemma SentCounts(job: Job, answer: Answer, now: int)
    ensures var w := Settled(SentOutcome(job, answer, now), job, now);
            w.attempts == Some(job.attempts + One(Resubmits(job, answer) && answer.send.Replies?))
  {
  }

  /** A step raises attempt_count, by one, exactly when it records a submission or rejects a row below the
      limit for its missing phone, or a MOMO row with an adapter for its amount or currency. */
  lemma AttemptsCountExactly(row: Payout, ev: Event)
    ensures Apply(row, ev).attempts == row.attempts + One(Records(row, ev) || CountedReject(row, ev))
  {
    hide PendingOutcome, SentOutcome, Settled, Deliverable, MomoReady;
    match ev
    case WorkPending(now, tx, answer, uuid) => PendingCounts(JobOf(row, tx), answer, now, uuid);
    case WorkSent(now, _, tx, answer) => SentCounts(JobOf(row, tx), answer, now);
    case _ =>
  }

  function RejectCount(row: Payout, evs: seq<Event>): nat
    decreases |evs|
  {
    if evs == [] then 0 else One(CountedReject(row, evs[0])) + RejectCount(Apply(row, evs[0]), evs[1..])
  }

  lemma RecordIsNoReject(row: Payout, ev: Event)
    ensures !(Records(row, ev) && CountedReject(row, ev))
  {
  }

  /** Over any run attempt_count is the recorded submissions plus those rejections. */
  lemma {:induction false} AttemptsCountRun(row: Payout, evs: seq<Event>)
    ensures Run(row, evs).attempts == row.attempts + RecordCount(row, evs) + RejectCount(row, evs)
    decreases |evs|
  {
    if evs != [] {
      AttemptsCountExactly(row, evs[0]);
      RecordIsNoReject(row, evs[0]);
      hide Apply, Records, CountedReject;
      AttemptsCountRun(Apply(row, evs[0]), evs[1..]);
    }
  }

  /** The smallest input: a payout without a phone is never submitted, and counts one attempt. */
  lemma RejectCountsAsAttempt(txn: Id, ref: string, now: int, answer: Answer, uuid: string)
    ensures var row := Created(txn, "TMONEY", None, ref, now);
            var ev := WorkPending(now, TxInfo(None, None, None, None), answer, uuid);
            !Sends(row, ev) && Apply(row, ev).attempts == 1 && Apply(row, ev).status == FAILED
  {
  }

  /** In any run attempt_count never falls, and bounds the recorded submissions, five at most. */
  lemma SubmissionsAreBounded(txn: Id, provider: string, phone: Option<string>, ref: string, now: int,
                              evs: seq<Event>, more: seq<Event>)
    ensures var row := Created(txn, provider, phone, ref, now);
            && RecordCount(row, evs) <= Run(row, evs).attempts <= 5
            && Run(row, evs).attempts <= Run(Run(row, evs), more).attempts
  {
    var row := Created(txn, provider, phone, ref, now);
    AttemptsRun(row, evs);
    AttemptsRun(Run(row, evs), more);
  }

  /** A reference changes only when a submission's reply is recorded, and then to the reference in
      the reply, or for a MOMO transfer to the one it was created under. */
  lemma RefComesFromReply(row: Payout, ev: Event)
    requires Apply(row, ev).ref != row.ref
    ensures Records(row, ev)
    ensures Apply(row, ev).ref == SaidRef(ev.answer.send.raw)
            || (ev.WorkPending? && JobOf(row, ev.tx).provider == "MOMO"
                && Apply(row, ev).ref == Some(MomoRef(JobOf(row, ev.tx), ev.uuid)))
  {
    hide PendingOutcome, SentOutcome, Settled, Deliverable, MomoReady;
    match ev
    case WorkPending(now, tx, answer, uuid) => PendingVerdict(JobOf(row, tx), answer, now, uuid);
    case WorkSent(now, _, tx, answer) => SentVerdict(JobOf(row, tx), answer, now);
    case _ =>
  }

  /* ---- at most one submission per entry into PENDING ---- */

  // Every send beyond the first pending one was bought by a retry or by a missing reference.
  lemma SendStep(row: Payout, ev: Event)
    ensures One(Sends(row, ev)) + One(Apply(row, ev).status == PENDING)
            <= One(row.status == PENDING) + One(AppliesRetry(row, ev)) + One(Resends(row, ev))
  {
  }

  lemma {:induction false} SendRun(row: Payout, evs: seq<Event>)
    ensures SendCount(row, evs) + One(Run(row, evs).status == PENDING)
            <= One(row.status == PENDING) + RetryCount(row, evs) + ResendCount(row, evs)
    decreases |evs|
  {
    if evs != [] {
      SendStep(row, evs[0]);
      SendRun(Apply(row, evs[0]), evs[1..]);
    }
  }

  // A reply whose reference is absent or not blank.
  predicate CleanAnswer(answer: Answer) {
    answer.Adapter? && answer.send.Replies? && SaidRef(answer.send.raw).Some? ==> !Missing(SaidRef(answer.send.raw))
  }

  predicate Clean(ev: Event) {
    match ev
    case WorkPending(_, _, answer, _) => CleanAnswer(answer)
    case WorkSent(_, _, _, answer) => CleanAnswer(answer)
    case _ => true
  }

  lemma {:induction false} TrimLeftKeeps(s: string)
    ensures Blank(TrimLeft(s)) <==> Blank(s)
  {
    if s != "" && Space(s[0]) {
      TrimLeftKeeps(s[1..]);
      assert s == [s[0]] + s[1..];
    }
  }

  lemma {:induction false} TrimRightKeeps(s: string)
    ensures Blank(TrimRight(s)) <==> Blank(s)
  {
    if s != "" && Space(s[|s| - 1]) {
      TrimRightKeeps(s[..|s| - 1]);
      assert s == s[..|s| - 1] + [s[|s| - 1]];
    }
  }

  lemma StripKeeps(s: string)
    ensures Blank(Strip(s)) <==> Blank(s)
  {
    TrimLeftKeeps(s);
    TrimRightKeeps(TrimLeft(s));
  }

  // A recorded reply whose blank reference overwrites the row's: any but "" for a MOMO transfer,
  // else one that comes with SENT or CONFIRMED.
  predicate LosesRef(row: Payout, ev: Event) {
    Records(row, ev) &&
    var raw := ev.answer.send.raw;
    && SaidRef(raw).Some? && Blank(SaidRef(raw).value)
    && (if ev.WorkPending? && JobOf(row, ev.tx).provider == "MOMO" then SaidRef(raw) != Some("")
        else Says(raw, R_SENT) || Says(raw, R_CONFIRMED))
  }

  lemma PendingLosesRef(job: Job, answer: Answer, now: int, uuid: string)
    requires !Missing(job.ref)
    ensures var w := Settled(PendingOutcome(job, answer, now, uuid), job, now);
            (w.ref.Some? && Blank(w.ref.value)) <==>
              (Submits(job, answer) && answer.send.Replies? &&
               var raw := answer.send.raw;
               && SaidRef(raw).Some? && Blank(SaidRef(raw).value)
               && (if job.provider == "MOMO" then SaidRef(raw) != Some("")
                   else Says(raw, R_SENT) || Says(raw, R_CONFIRMED)))
  {
    if answer.Adapter? && answer.send.Replies? { ReadsReply(answer.send.raw); }
    StripKeeps(job.ref.value);
    assert Blank("");
    hide Strip, Blank, Normalize, Says, SaidRef;
  }

  lemma SentKeepsRef(job: Job, answer: Answer, now: int)
    requires !Missing(job.ref)
    ensures var w := Settled(SentOutcome(job, answer, now), job, now);
            !(w.ref.Some? && Blank(w.ref.value))
  {
    hide Blank, Normalize;
  }

  /** A reference that is present goes missing in a step exactly when that step records such a reply. */
  lemma RefGoesMissing(row: Payout, ev: Event)
    requires !Missing(row.ref)
    ensures Missing(Apply(row, ev).ref) <==> LosesRef(row, ev)
  {
    hide PendingOutcome, SentOutcome, Settled, Blank, SaidRef, Says, Deliverable, MomoReady;
    match ev
    case WorkPending(now, tx, answer, uuid) => PendingLosesRef(JobOf(row, tx), answer, now, uuid);
    case WorkSent(now, _, tx, answer) => SentKeepsRef(JobOf(row, tx), answer, now);
    case _ =>
  }

  // No step of the run overwrites the reference with a blank one.
  predicate KeepsRef(row: Payout, evs: seq<Event>)
    decreases |evs|
  {
    evs != [] ==> !LosesRef(row, evs[0]) && KeepsRef(Apply(row, evs[0]), evs[1..])
  }

  lemma {:induction false} RefRun(row: Payout, evs: seq<Event>)
    requires !Missing(row.ref) && KeepsRef(row, evs)
    ensures !Missing(Run(row, evs).ref) && ResendCount(row, evs) == 0
    decreases |evs|
  {
    if evs != [] {
      RefGoesMissing(row, evs[0]);
      hide LosesRef;
      RefRun(Apply(row, evs[0]), evs[1..]);
    }
  }

  /** From a row with a reference, no SENT row is submitted again, and sends are at most one if it is
      PENDING plus the applied retries, unless a step of the run loses the reference. */
  lemma SendsUntilRefLost(row: Payout, evs: seq<Event>)
    requires !Missing(row.ref) && KeepsRef(row, evs)
    ensures ResendCount(row, evs) == 0
    ensures SendCount(row, evs) <= One(row.status == PENDING) + RetryCount(row, evs)
  {
    SendRun(row, evs);
    RefRun(row, evs);
  }

  lemma {:induction false} CleanKeepsRef(row: Payout, evs: seq<Event>)
    requires forall i :: 0 <= i < |evs| ==> Clean(evs[i])
    ensures KeepsRef(row, evs)
    decreases |evs|
  {
    if evs != [] { CleanKeepsRef(Apply(row, evs[0]), evs[1..]); }
  }

  /** Sends, including ones that raise, never exceed one plus the applied admin retries, for a
      payout created with a reference and replies that carry no blank reference. */
  lemma OneSendPerPending(txn: Id, provider: string, phone: Option<string>, ref: string, now: int, evs: seq<Event>)
    requires !Blank(ref) && forall i :: 0 <= i < |evs| ==> Clean(evs[i])
    ensures var row := Created(txn, provider, phone, ref, now);
            SendCount(row, evs) <= 1 + RetryCount(row, evs)
  {
    var row := Created(txn, provider, phone, ref, now);
    CleanKeepsRef(row, evs);
    SendsUntilRefLost(row, evs);
  }

  /** Conversely the loss breaks the bound: once the row it leaves SENT below the attempt limit is
      due, the next pass sends again, which makes two sends out of one entry into PENDING. */
  lemma LossBreaksBound(row: Payout, ev: Event, tx: TxInfo, answer: Answer, now: int, stale: nat)
    requires row.status == PENDING && !Missing(row.ref) && LosesRef(row, ev) && answer.Adapter?
    requires var after := Apply(row, ev);
             ClaimableSent(after, now, stale) && JobOf(after, tx).provider in SUPPORTED && after.attempts < MAX_ATTEMPTS
    ensures var evs := [ev, WorkSent(now, stale, tx, answer)];
            SendCount(row, evs) == 2 && RetryCount(row, evs) == 0
  {
    RefGoesMissing(row, ev);
    var after, next := Apply(row, ev), WorkSent(now, stale, tx, answer);
    var evs := [ev, next];
    assert Sends(row, ev) && Sends(after, next) && !AppliesRetry(row, ev) && !AppliesRetry(after, next);
    hide Apply, Sends, AppliesRetry, LosesRef;
    assert evs[1..] == [next] && evs[1..][1..] == [];
    assert SendCount(after, [next]) == 1 + SendCount(Apply(after, next), []);
    assert RetryCount(after, [next]) == RetryCount(Apply(after, next), []);
  }

  /** The bound is false for a reply with a blank reference: one pending entry, two sends. */
  lemma BlankReplyBreaksBound()
    ensures var row := Created(1, "TMONEY", Some("+22890"), "ref", 0);
            var reply := Replies(NewStyle(ProviderResult(R_SENT, Some(" "), None, None, None)));
            var blank := Adapter(reply, reply);
            var tx := TxInfo(None, None, None, None);
            var evs := [WorkPending(0, tx, blank, "u"), WorkSent(100, 60, tx, blank)];
            SendCount(row, evs) == 2 && RetryCount(row, evs) == 0
  {
    var row := Created(1, "TMONEY", Some("+22890"), "ref", 0);
    var reply := Replies(NewStyle(ProviderResult(R_SENT, Some(" "), None, None, None)));
    var blank := Adapter(reply, reply);
    var tx := TxInfo(None, None, None, None);
    var first, second := WorkPending(0, tx, blank, "u"), WorkSent(100, 60, tx, blank);
    assert '+' in "+22890" by { assert "+22890"[0] == '+'; }
    assert Sends(row, first) && !AppliesRetry(row, first);
    var sent := Apply(row, first);
    assert Pow2(0) == 1 && sent.status == SENT && sent.ref == Some(" ") && sent.nextRetry == Some(30);
    assert Sends(sent, second) && !AppliesRetry(sent, second);
    var last := Apply(sent, second);
    assert SendCount(row, [first, second]) == 1 + SendCount(sent, [second]);
    assert SendCount(sent, [second]) == 1 + SendCount(last, []);
    assert RetryCount(row, [first, second]) == RetryCount(sent, [second]);
    assert RetryCount(sent, [second]) == RetryCount(last, []);
  }

  /** The provider is called where the counts say and nowhere else: a step that sends nothing
      does the same whatever a submission would answer, and a step on a row without a reference
      does the same whatever a poll would answer. */
  lemma CallsAreCounted(row: Payout, ev: Event, other: Call)
    requires (ev.WorkPending? || ev.WorkSent?) && ev.answer.Adapter?
    ensures !Sends(row, ev) ==> Apply(row, ev) == Apply(row, ev.(answer := ev.answer.(send := other)))
    ensures !Polls(row, ev) ==> Apply(row, ev) == Apply(row, ev.(answer := ev.answer.(poll := other)))
    ensures Missing(row.ref) ==> !Polls(row, ev)
  {
  }

  /* ---- the row says what it was told ---- */

  // A provider, a webhook, a replay or an admin reports the payout as confirmed.
  predicate SaysConfirmed(row: Payout, ev: Event) {
    match ev
    case WorkPending(_, tx, answer, _) =>
      SendsPending(row, ev) && JobOf(row, tx).provider != "MOMO" && ReplyIs(answer.send, R_CONFIRMED)
    case WorkSent(_, _, _, answer) =>
      (Resends(row, ev) && ReplyIs(answer.send, R_CONFIRMED)) || (Polls(row, ev) && ReplyIs(answer.poll, R_CONFIRMED))
    case Webhook(_, n) => n.status == CONFIRMED && !Terminal(row.status)
    case Replay(_, n, override) => n.status == CONFIRMED && (override || !Terminal(row.status))
    case Confirm(_) => true
    case _ => false
  }

  /** A payout becomes CONFIRMED in a step exactly when that step was told so. */
  lemma EntersConfirmed(row: Payout, ev: Event)
    requires row.status != CONFIRMED
    ensures Apply(row, ev).status == CONFIRMED <==> SaysConfirmed(row, ev)
  {
    hide PendingOutcome, SentOutcome, Settled, Deliverable, MomoReady;
    match ev
    case WorkPending(now, tx, answer, uuid) => PendingVerdict(JobOf(row, tx), answer, now, uuid);
    case WorkSent(now, _, tx, answer) => SentVerdict(JobOf(row, tx), answer, now);
    case _ =>
  }

  /** No payout is confirmed in any run without a step that was told so, on the row as it then was. */
  lemma {:induction false} ConfirmedWasTold(row: Payout, evs: seq<Event>) returns (i: nat)
    requires row.status != CONFIRMED && Run(row, evs).status == CONFIRMED
    ensures i < |evs| && SaysConfirmed(Run(row, evs[..i]), evs[i])
    decreases |evs|
  {
    var next := Apply(row, evs[0]);
    if next.status == CONFIRMED {
      EntersConfirmed(row, evs[0]);
      i := 0;
      assert evs[..0] == [];
    } else {
      var j := ConfirmedWasTold(next, evs[1..]);
      i := j + 1;
      assert evs[..i][1..] == evs[1..][..j] && evs[1..][j] == evs[i];
    }
  }

  /** A poll leaves the reference and the count alone.  One that returns writes its verdict and its
      response and does not move last_attempt_at; one that raises moves it and keeps the row SENT, except
      at the attempt limit, where it fails the payout and moves nothing. */
  lemma PollWritesVerdict(row: Payout, ev: Event)
    requires Polls(row, ev)
    ensures var after, poll, spent := Apply(row, ev), ev.answer.poll, row.attempts >= MAX_ATTEMPTS;
            && after.ref == row.ref && after.attempts == row.attempts
            && after.lastAttempt == (if poll.Replies? || spent then row.lastAttempt else Some(ev.now))
            && (after.status == CONFIRMED <==> ReplyIs(poll, R_CONFIRMED))
            && (after.status == FAILED <==> ReplyIs(poll, R_FAILED) || (poll.CallRaises? && spent))
            && after.response == (if poll.Replies? then Coalesce(SaidResponse(poll.raw), row.response)
                                  else row.response)
            && (after.retryable <==> after.status == SENT)
            && (poll.Replies? ==>
                  && after.nextRetry == (if after.status == SENT then Some(ev.now + 60) else None)
                  && after.lastError == (if Says(poll.raw, R_CONFIRMED) then None
                                         else if Says(poll.raw, R_FAILED) then Or(SaidError(poll.raw), Some("FAILED"))
                                         else SaidError(poll.raw)))
  {
  }

  // The worker fails a row before it calls the provider.
  predicate FailsUnsent(row: Payout, ev: Event) {
    match ev
    case WorkPending(now, tx, answer, _) =>
      var job := JobOf(row, tx);
      && ClaimablePending(row, now)
      && (!Deliverable(job) || answer.NotConfigured? || (answer.Adapter? && !MomoReady(job)))
    case WorkSent(now, stale, tx, answer) =>
      && ClaimableSent(row, now, stale)
      && (JobOf(row, tx).provider !in SUPPORTED || answer.NotConfigured?
          || (answer.Adapter? && Missing(row.ref) && row.attempts >= MAX_ATTEMPTS))
    case _ => false
  }

  // A reply that is neither SENT nor CONFIRMED and leaves no retry.
  predicate Declines(send: Call, attempts: nat, momo: bool) {
    && send.Replies? && !Says(send.raw, R_SENT) && !Says(send.raw, R_CONFIRMED)
    && (momo || !SaysRetry(send.raw) || attempts + 1 >= MAX_ATTEMPTS)
  }

  // A provider, a webhook or a replay reports the payout as failed.
  predicate SaysFailed(row: Payout, ev: Event) {
    match ev
    case WorkPending(_, tx, answer, _) =>
      SendsPending(row, ev) && Declines(answer.send, row.attempts, JobOf(row, tx).provider == "MOMO")
    case WorkSent(_, _, _, answer) =>
      || (Resends(row, ev) && Declines(answer.send, row.attempts, false))
      || (Polls(row, ev) && ReplyIs(answer.poll, R_FAILED))
    case Webhook(_, n) => n.status == FAILED && !Terminal(row.status)
    case Replay(_, n, override) => n.status == FAILED && (override || !Terminal(row.status))
    case _ => false
  }

  // A provider has accepted, or may have, and the worker fails the row: a fifth SENT reply, a confirmed
  // MOMO transfer, or a poll or adapter lookup that raises when the attempts are spent.
  predicate FailsAccepted(row: Payout, ev: Event) {
    match ev
    case WorkPending(_, tx, answer, _) =>
      && SendsPending(row, ev)
      && (if JobOf(row, tx).provider == "MOMO" then ReplyIs(answer.send, R_CONFIRMED)
          else ReplyIs(answer.send, R_SENT) && row.attempts + 1 >= MAX_ATTEMPTS)
    case WorkSent(now, stale, tx, answer) =>
      || (Resends(row, ev) && ReplyIs(answer.send, R_SENT) && row.attempts + 1 >= MAX_ATTEMPTS)
      || (row.attempts >= MAX_ATTEMPTS && ClaimableSent(row, now, stale) && JobOf(row, tx).provider in SUPPORTED
          && (answer.LookupRaises? || (Polls(row, ev) && answer.poll.CallRaises?)))
    case _ => false
  }

  lemma PendingFails(job: Job, answer: Answer, now: int, uuid: string)
    ensures var momo := job.provider == "MOMO";
            Settled(PendingOutcome(job, answer, now, uuid), job, now).status == FAILED <==>
              || !Deliverable(job) || answer.NotConfigured? || (answer.Adapter? && !MomoReady(job))
              || (Submits(job, answer) && Declines(answer.send, job.attempts, momo))
              || (Submits(job, answer)
                  && (if momo then ReplyIs(answer.send, R_CONFIRMED)
                      else ReplyIs(answer.send, R_SENT) && job.attempts + 1 >= MAX_ATTEMPTS))
  {
  }

  lemma SentFails(job: Job, answer: Answer, now: int)
    ensures var spent, found := job.attempts >= MAX_ATTEMPTS, answer.Adapter? && !Missing(job.ref);
            Settled(SentOutcome(job, answer, now), job, now).status == FAILED <==>
              || job.provider !in SUPPORTED || answer.NotConfigured? || (answer.LookupRaises? && spent)
              || (answer.Adapter? && Missing(job.ref) && spent)
              || (Resubmits(job, answer) && Declines(answer.send, job.attempts, false))
              || (Resubmits(job, answer) && ReplyIs(answer.send, R_SENT) && job.attempts + 1 >= MAX_ATTEMPTS)
              || (found && (ReplyIs(answer.poll, R_FAILED) || (answer.poll.CallRaises? && spent)))
  {
  }

  /** A payout becomes FAILED in a step exactly when the worker rejects it unsent, it is reported as
      failed, or it is given up although a provider accepted it or may have. */
  lemma EntersFailed(row: Payout, ev: Event)
    requires row.status != FAILED
    ensures Apply(row, ev).status == FAILED <==> FailsUnsent(row, ev) || SaysFailed(row, ev) || FailsAccepted(row, ev)
  {
    hide PendingOutcome, SentOutcome, Settled, Deliverable, MomoReady, Declines, ReplyIs;
    match ev
    case WorkPending(now, tx, answer, uuid) => PendingFails(JobOf(row, tx), answer, now, uuid);
    case WorkSent(now, _, tx, answer) => SentFails(JobOf(row, tx), answer, now);
    case _ =>
  }

  /** An accepted payout that fails on one raising poll: a fifth MOMO transfer is answered SENT, which
      unlike other providers' keeps the row SENT, and the next poll raises. */
  lemma AcceptedThenFailed(row: Payout, tx: TxInfo, reply: Raw, poll: Call, error: string, now: int, later: int,
                           stale: nat, uuid: string)
    requires row.attempts == MAX_ATTEMPTS - 1 && !Missing(row.ref)
    requires var sent := WorkPending(now, tx, Adapter(Replies(reply), poll), uuid);
             SendsPending(row, sent) && JobOf(row, tx).provider == "MOMO"
    requires Says(reply, R_SENT) && SaidRef(reply).None?
    requires later >= now + LONGEST_BACKOFF && later >= now + stale
    ensures var accepted := Apply(row, WorkPending(now, tx, Adapter(Replies(reply), poll), uuid));
            var failed := Apply(accepted, WorkSent(later, stale, tx, Adapter(Replies(reply), CallRaises(error))));
            && accepted.status == SENT && accepted.attempts == MAX_ATTEMPTS && !Missing(accepted.ref)
            && failed.status == FAILED && failed.attempts == MAX_ATTEMPTS && failed.lastAttempt == accepted.lastAttempt
  {
    var job := JobOf(row, tx);
    var accepted := Apply(row, WorkPending(now, tx, Adapter(Replies(reply), poll), uuid));
    NextRetryAtMost(now, MAX_ATTEMPTS);
    StripKeeps(row.ref.value);
    assert accepted == UpdateRow(row, Some(PENDING), AfterMomoTransfer(job, Normalize(reply), now, uuid), now);
    assert JobOf(accepted, tx).provider == "MOMO" && "MOMO" in SUPPORTED;
    var ev := WorkSent(later, stale, tx, Adapter(Replies(reply), CallRaises(error)));
    assert Polls(accepted, ev);
    PollWritesVerdict(accepted, ev);
  }

  /* ---- every column a worker pass writes ---- */

  // Seconds until the next try after the first, second, ... submission.
  const DELAYS: seq<int> := [30, 60, 120, 240, 480]

  lemma DelaysAreBackoff(now: int, n: nat)
    requires 1 <= n <= 5
    ensures NextRetryAt(now, n) == now + DELAYS[n - 1]
  {
    assert Pow2(1) == 2 && Pow2(2) == 4 && Pow2(3) == 8 && Pow2(4) == 16;
  }

  /** The backoff starts at 30 seconds and doubles with every submission after the first. */
  lemma BackoffDoubles(now: int, n: nat)
    ensures NextRetryAt(now, 0) == NextRetryAt(now, 1) == now + 30
    ensures n >= 1 ==> NextRetryAt(now, n + 1) - now == 2 * (NextRetryAt(now, n) - now)
  {
    if n >= 1 { assert Pow2(n) == 2 * Pow2(n - 1); }
  }

  // A claimed row whose pass ends in an exception: at the adapter lookup or at a provider call.
  predicate Raises(row: Payout, ev: Event) {
    match ev
    case WorkPending(now, tx, answer, _) =>
      || (ClaimablePending(row, now) && Deliverable(JobOf(row, tx)) && answer.LookupRaises?)
      || (SendsPending(row, ev) && answer.send.CallRaises?)
    case WorkSent(now, stale, tx, answer) =>
      || (ClaimableSent(row, now, stale) && JobOf(row, tx).provider in SUPPORTED && answer.LookupRaises?)
      || (Resends(row, ev) && answer.send.CallRaises?) || (Polls(row, ev) && answer.poll.CallRaises?)
    case _ => false
  }

  function RaisedText(row: Payout, ev: Event): string
    requires Raises(row, ev)
  {
    if ev.answer.LookupRaises? then ev.answer.error
    else if Polls(row, ev) then ev.answer.poll.error
    else ev.answer.send.error
  }

  predicate ByMomo(row: Payout, ev: Event) { ev.WorkPending? && JobOf(row, ev.tx).provider == "MOMO" }

  // The columns of no interest to the worker.
  predicate SameOwner(row: Payout, after: Payout) {
    && after.txn == row.txn && after.provider == row.provider && after.phone == row.phone
    && after.createdAt == row.createdAt
  }

  function OrText(error: Option<string>, text: string): Option<string> {
    if error.None? || error.value == "" then Some(text) else error
  }

  // The reference after a recorded send.
  predicate RefAfterSend(row: Payout, ev: Event, after: Payout)
    requires Records(row, ev)
  {
    var raw := ev.answer.send.raw;
    if ByMomo(row, ev) then
      var own := if row.ref.Some? && row.ref.value != "" then row.ref.value else ev.uuid;
      after.ref == if SaidRef(raw).Some? && SaidRef(raw).value != "" then SaidRef(raw) else Some(Strip(own))
    else if (Says(raw, R_SENT) || Says(raw, R_CONFIRMED)) && SaidRef(raw).Some? then after.ref == SaidRef(raw)
    else after.ref == row.ref
  }

  // Its error: none after an acceptance, else what the reply says or the worker's own words.
  predicate ErrorAfterSend(row: Payout, ev: Event, after: Payout)
    requires Records(row, ev)
  {
    var raw, fifth := ev.answer.send.raw, row.attempts + 1 == 5;
    if ByMomo(row, ev) then
      after.lastError == if Says(raw, R_SENT) then None else OrText(SaidError(raw), "MOMO_CREATE_FAILED")
    else if Says(raw, R_CONFIRMED) then after.lastError == None
    else if fifth then after.lastError == Some("MAX_ATTEMPTS_EXCEEDED")
    else if Says(raw, R_SENT) then after.lastError == None
    else
      after.lastError == OrText(SaidError(raw),
        if ev.WorkPending? then (if SaysRetry(raw) then "Retryable failure" else "Non-retryable failure")
        else (if SaysRetry(raw) then "Retryable resend failure" else "Non-retryable resend failure"))
  }

  predicate AsRecorded(row: Payout, ev: Event, after: Payout)
    requires Records(row, ev) && row.attempts < 5
  {
    var raw, n := ev.answer.send.raw, row.attempts + 1;
    && after.attempts == n && after.lastAttempt == Some(ev.now) && after.updatedAt == ev.now
    && after.response == (if SaidResponse(raw).Some? then SaidResponse(raw) else row.response)
    && after.nextRetry == (if after.status == SENT then Some(ev.now + DELAYS[n - 1]) else None)
    && (after.retryable <==> after.status == SENT || (ByMomo(row, ev) && SaysRetry(raw)))
    && RefAfterSend(row, ev, after) && ErrorAfterSend(row, ev, after) && SameOwner(row, after)
  }

  lemma MomoColumns(row: Payout, ev: Event)
    requires Records(row, ev) && row.attempts < 5 && ByMomo(row, ev)
    ensures AsRecorded(row, ev, UpdateRow(row, Some(row.status), SentWrite(row, ev), ev.now))
  {
    ReadsReply(ev.answer.send.raw);
    DelaysAreBackoff(ev.now, row.attempts + 1);
    hide Normalize, Says, SaidRef, SaidResponse, SaidError, SaysRetry, NextRetryAt, Strip, Records;
  }

  lemma SendColumns(row: Payout, ev: Event)
    requires Records(row, ev) && row.attempts < 5 && !ByMomo(row, ev)
    ensures AsRecorded(row, ev, UpdateRow(row, Some(row.status), SentWrite(row, ev), ev.now))
  {
    assert Sends(row, ev) && ev.answer.send.Replies?;
    hide Normalize, Says, SaidRef, SaidResponse, SaidError, SaysRetry, NextRetryAt, Strip, Records, ByMomo, JobOf,
         Sends;
    ReadsReply(ev.answer.send.raw);
    DelaysAreBackoff(ev.now, row.attempts + 1);
    var w := SentWrite(row, ev);
    if Says(ev.answer.send.raw, R_CONFIRMED) {
      assert w.status == CONFIRMED;
    } else if Says(ev.answer.send.raw, R_SENT) {
      assert w.ref == SaidRef(ev.answer.send.raw);
    } else {
      assert w.ref.None?;
    }
  }

  function SentWrite(row: Payout, ev: Event): Write
    requires Records(row, ev)
  {
    var job, res := JobOf(row, ev.tx), Normalize(ev.answer.send.raw);
    if ByMomo(row, ev) then AfterMomoTransfer(job, res, ev.now, ev.uuid)
    else if ev.WorkPending? then
      AfterSend(row.attempts, res, "Retryable failure", "Non-retryable failure", ev.now)
    else AfterSend(row.attempts, res, "Retryable resend failure", "Non-retryable resend failure", ev.now)
  }

  lemma RecordWrites(row: Payout, ev: Event)
    requires Records(row, ev)
    ensures Apply(row, ev) == UpdateRow(row, Some(row.status), SentWrite(row, ev), ev.now) && row.attempts < 5
  {
    ChecksPass(JobOf(row, ev.tx));
    hide Missing, Normalize, AfterSend, AfterMomoTransfer, UpdateRow, Deliverable, MomoReady, PendingCheck, MomoCheck;
    if ev.WorkSent? { ResendIsLive(row, ev); } else { SendIsLive(row, ev); }
  }

  lemma SendIsLive(row: Payout, ev: Event)
    requires SendsPending(row, ev)
    ensures row.status == PENDING && row.attempts < 5
  {
  }

  lemma ResendIsLive(row: Payout, ev: Event)
    requires Resends(row, ev)
    ensures row.status == SENT && row.attempts < 5
  {
  }

  /** A recorded send counts, stamps the row with its instant, merges nothing but the reply's own reference
      and response, and schedules the next try after 30, 60, 120, 240 or 480 seconds, and only if the row
      stays SENT; a row that ends keeps no retry, but for a failed MOMO transfer whose reply allows one. */
  lemma RecordedSendWrites(row: Payout, ev: Event)
    requires Records(row, ev)
    ensures row.attempts < 5 && AsRecorded(row, ev, Apply(row, ev))
  {
    RecordWrites(row, ev);
    hide Records, Apply, AsRecorded, SentWrite;
    if ByMomo(row, ev) { MomoColumns(row, ev); } else { SendColumns(row, ev); }
  }

  /** A pass that raises keeps the row SENT with the exception in its error and tries again after the delay
      of its submissions so far; with five spent it fails the row and touches neither attempt nor schedule. */
  lemma RaisedPassWrites(row: Payout, ev: Event)
    requires Raises(row, ev)
    ensures var after, spent := Apply(row, ev), row.attempts >= 5;
            && after.status == (if spent then FAILED else SENT) && after.attempts == row.attempts
            && after.ref == row.ref && after.response == row.response && after.updatedAt == ev.now
            && after.lastAttempt == (if spent then row.lastAttempt else Some(ev.now))
            && after.nextRetry == (if spent then None else Some(ev.now + DELAYS[Max(row.attempts, 1) - 1]))
            && (after.retryable <==> !spent)
            && after.lastError == Some(if spent then "MAX_ATTEMPTS_EXCEEDED"
                                       else "Worker exception: " + RaisedText(row, ev))
            && SameOwner(row, after)
  {
    RaisedWrite(row, ev);
    if row.attempts < 5 { DelaysAreBackoff(ev.now, Max(row.attempts, 1)); }
    hide Apply, Raises, RaisedText, NextRetryAt;
  }

  lemma RaisedWrite(row: Payout, ev: Event)
    requires Raises(row, ev)
    ensures Apply(row, ev) == UpdateRow(row, Some(row.status),
                                        InternalError(JobOf(row, ev.tx), RaisedText(row, ev), ev.now), ev.now)
  {
    ChecksPass(JobOf(row, ev.tx));
    hide Missing, Deliverable, Normalize, MomoReady, UpdateRow, InternalError;
  }

  // Why the worker fails a row unsent, in the order of its checks.
  predicate RejectText(row: Payout, ev: Event, text: string)
    requires ev.WorkPending? || ev.WorkSent?
  {
    var job := JobOf(row, ev.tx);
    var phoneless, unknown := Missing(job.phone), job.provider !in SUPPORTED;
    if ev.WorkPending? && row.attempts >= 5 then text == "MAX_ATTEMPTS_EXCEEDED"
    else if ev.WorkPending? && phoneless then text == "Missing phone_e164"
    else if unknown then text == "Unsupported provider: " + job.provider
    else if ev.answer.NotConfigured? then text == "Provider adapter not configured: " + job.provider
    else if ev.WorkSent? then text == "MAX_ATTEMPTS_EXCEEDED"
    else if job.amount.None? || job.amount.value <= 0 then text == "Missing/invalid amount_cents"
    else text == "Missing currency"
  }

  /** A row failed unsent keeps its reference, response and last attempt, has no retry, and names the first
      check that it did not pass. */
  lemma RejectedRowWrites(row: Payout, ev: Event)
    requires FailsUnsent(row, ev)
    ensures var after := Apply(row, ev);
            && after.status == FAILED && after.ref == row.ref && after.response == row.response
            && after.lastAttempt == row.lastAttempt && after.nextRetry == None && !after.retryable
            && after.updatedAt == ev.now && SameOwner(row, after)
            && after.lastError.Some? && RejectText(row, ev, after.lastError.value)
  {
    var w := RejectWrites(row, ev);
    hide FailsUnsent, Apply, Missing;
  }

  // The write of a row failed unsent, by the text of its error.
  lemma RejectWrites(row: Payout, ev: Event) returns (w: Write)
    requires FailsUnsent(row, ev)
    ensures Apply(row, ev) == UpdateRow(row, Some(row.status), w, ev.now)
    ensures w == Write(FAILED, w.ref, None, w.error, Some(false), w.attempts, None, false)
    ensures (w.ref == row.ref || w.ref.None?) && w.error.Some? && RejectText(row, ev, w.error.value)
  {
    ChecksPass(JobOf(row, ev.tx));
    var job := JobOf(row, ev.tx);
    w := Settled(if ev.WorkPending? then PendingOutcome(job, ev.answer, ev.now, ev.uuid)
                     else SentOutcome(job, ev.answer, ev.now), job, ev.now);
    hide Pow2, NextRetryAt, Missing, Normalize, UpdateRow;
  }

  /** Every pass over a claimed row is of exactly one of the four kinds whose writes are given: a recorded
      send, a poll that returns, an exception, a row failed unsent. */
  lemma PassIsOfOneKind(row: Payout, ev: Event)
    requires ev.WorkPending? || ev.WorkSent?
    ensures var polled := Polls(row, ev) && ev.answer.poll.Replies?;
            One(Records(row, ev)) + One(polled) + One(Raises(row, ev)) + One(FailsUnsent(row, ev))
            == One(if ev.WorkPending? then ClaimablePending(row, ev.now) else ClaimableSent(row, ev.now, ev.stale))
    ensures !Records(row, ev) && !Polls(row, ev) && !Raises(row, ev) && !FailsUnsent(row, ev) ==> Apply(row, ev) == row
  {
    hide Missing;
  }

  /** The provider and the phone of a payout are its own where it has them, else its ledger transaction's. */
  lemma OwnColumnsFirst(row: Payout, tx: TxInfo, answer: Answer, now: int, uuid: string, stale: nat)
    ensures var filled := row.(provider := if row.provider == "" && tx.provider.Some? then tx.provider.value
                                           else row.provider,
                               phone := if row.phone.None? then tx.phone else row.phone);
            var bare := TxInfo(None, None, tx.amount, tx.currency);
            var sends := Apply(row, WorkPending(now, tx, answer, uuid));
            var polls := Apply(row, WorkSent(now, stale, tx, answer));
            && sends.(provider := filled.provider, phone := filled.phone)
               == Apply(filled, WorkPending(now, bare, answer, uuid))
            && polls.(provider := filled.provider, phone := filled.phone)
               == Apply(filled, WorkSent(now, stale, bare, answer))
  {
    var filled := row.(provider := if row.provider == "" && tx.provider.Some? then tx.provider.value else row.provider,
                       phone := if row.phone.None? then tx.phone else row.phone);
    assert JobOf(filled, TxInfo(None, None, tx.amount, tx.currency)) == JobOf(row, tx);
    hide *;
    PassByJob(row, tx, filled, TxInfo(None, None, tx.amount, tx.currency), answer, now, uuid, stale);
  }

  lemma PassByJob(row: Payout, tx: TxInfo, filled: Payout, bare: TxInfo, answer: Answer, now: int, uuid: string,
                  stale: nat)
    requires JobOf(row, tx) == JobOf(filled, bare) && filled == row.(provider := filled.provider, phone := filled.phone)
    ensures Apply(row, WorkPending(now, tx, answer, uuid)).(provider := filled.provider, phone := filled.phone)
            == Apply(filled, WorkPending(now, bare, answer, uuid))
    ensures Apply(row, WorkSent(now, stale, tx, answer)).(provider := filled.provider, phone := filled.phone)
            == Apply(filled, WorkSent(now, stale, bare, answer))
  {
    hide JobOf, PendingOutcome, SentOutcome, Settled;
  }

  /* ---- what the other writers write ---- */

  /** A notice writes a live row, or any row when it overrides: its status, error and flag, its payload over the
      response, no retry.  The reference, the count and the last attempt stay. */
  lemma NoticeWrites(row: Payout, ev: Event)
    requires ev.Webhook? || ev.Replay?
    ensures var after, n := Apply(row, ev), ev.notice;
            var kept := if row.response.Some? then row.response.value else map[];
            if (row.status == CONFIRMED || row.status == FAILED) && (ev.Webhook? || !ev.override) then after == row
            else
              && after.status == n.status && after.lastError == n.error && after.retryable == n.retryable
              && after.nextRetry == None && after.updatedAt == ev.now && after.response.Some?
              && after.response.value.Keys == kept.Keys + n.payload.Keys
              && (forall name :: name in n.payload ==> after.response.value[name] == n.payload[name])
              && (forall name :: name in kept && name !in n.payload ==> after.response.value[name] == kept[name])
              && after.ref == row.ref && after.attempts == row.attempts && after.lastAttempt == row.lastAttempt
              && SameOwner(row, after)
  {
  }

  /** A retry needs a FAILED row that is retryable or a forced request; it makes the row claimable at once and
      keeps what the provider told it.  A confirmation changes nothing but the status and its instant. */
  lemma AdminWrites(row: Payout, now: int, force: bool, later: int)
    requires later >= now
    ensures var after, late := Apply(row, Retry(now, force)), Apply(row, LateRetryWrite(now));
            && (after == if row.status == FAILED && (row.retryable || force) then late else row)
            && ClaimablePending(late, later) && late.nextRetry == Some(now) && late.lastError == None
            && late.retryable && late.updatedAt == now && late.ref == row.ref && late.response == row.response
            && late.attempts == row.attempts && late.lastAttempt == row.lastAttempt && SameOwner(row, late)
    ensures Apply(row, Confirm(now)).(status := row.status, updatedAt := row.updatedAt) == row
    ensures Apply(row, Confirm(now)).status == CONFIRMED && Apply(row, Confirm(now)).updatedAt == now
  {
  }

  /** A new payout waits for its first submission: PENDING, due at every instant, without an attempt, under the
      reference that its request gave. */
  lemma CreatedIsDue(txn: Id, provider: string, phone: Option<string>, ref: string, created: int, now: int)
    ensures var row := Created(txn, provider, phone, ref, created);
            && ClaimablePending(row, now) && row.attempts == 0 && row.lastAttempt == None && row.retryable
            && row.ref == Some(ref) && row.txn == txn && row.provider == provider && row.phone == phone
            && row.response == None && row.lastError == None && row.createdAt == row.updatedAt == created
  {
  }

  /* ---- no live payout is lost ---- */

  const LONGEST_BACKOFF := 480

  lemma BackoffAtMost(n: nat)
    requires n <= MAX_ATTEMPTS
    ensures BASE_BACKOFF <= NextRetryAt(0, n) <= LONGEST_BACKOFF
  {
    assert Pow2(1) == 2 && Pow2(2) == 4 && Pow2(3) == 8 && Pow2(4) == 16;
  }

  predicate Scheduled(row: Payout) {
    && row.attempts <= MAX_ATTEMPTS
    && (row.status == PENDING || row.status == SENT ==> row.retryable)
    && (row.status == FAILED ==> row.nextRetry.None?)
    && (row.status == PENDING && row.nextRetry.Some? ==> row.nextRetry.value <= row.updatedAt)
    && (row.status == SENT && row.nextRetry.Some? ==> row.nextRetry.value <= row.updatedAt + LONGEST_BACKOFF)
    && (row.lastAttempt.Some? ==> row.lastAttempt.value <= row.updatedAt)
  }

  // Events happen at or after the row's last write.
  predicate Timely(row: Payout, ev: Event) { row.updatedAt <= ev.now }

  // A worker write schedules at most 480 seconds ahead, and clears the schedule of FAILED rows.
  predicate WriteScheduled(w: Write, now: int) {
    && w.retryable.Some? && w.attempts.Some? && w.attempts.value <= MAX_ATTEMPTS && w.status != PENDING
    && (w.status == SENT ==> w.retryable.value && w.nextRetry.Some? && w.nextRetry.value <= now + LONGEST_BACKOFF)
    && (w.status == FAILED ==> w.nextRetry.None?)
  }

  lemma NextRetryAtMost(now: int, n: nat)
    requires n <= MAX_ATTEMPTS
    ensures NextRetryAt(now, n) <= now + LONGEST_BACKOFF
  {
    BackoffAtMost(n);
  }

  lemma PendingWriteScheduled(job: Job, answer: Answer, now: int, uuid: string)
    requires job.attempts <= MAX_ATTEMPTS
    ensures WriteScheduled(Settled(PendingOutcome(job, answer, now, uuid), job, now), now)
  {
    forall n: nat | n <= MAX_ATTEMPTS
      ensures NextRetryAt(now, n) <= now + LONGEST_BACKOFF
    {
      NextRetryAtMost(now, n);
    }
  }

  lemma SentWriteScheduled(job: Job, answer: Answer, now: int)
    requires job.attempts <= MAX_ATTEMPTS
    ensures WriteScheduled(Settled(SentOutcome(job, answer, now), job, now), now)
  {
    forall n: nat | n <= MAX_ATTEMPTS
      ensures NextRetryAt(now, n) <= now + LONGEST_BACKOFF
    {
      NextRetryAtMost(now, n);
    }
  }

  lemma ScheduledStep(row: Payout, ev: Event)
    requires Scheduled(row) && Timely(row, ev)
    ensures Scheduled(Apply(row, ev)) && Apply(row, ev).updatedAt <= ev.now
    ensures row.updatedAt <= Apply(row, ev).updatedAt
  {
    match ev
    case WorkPending(now, tx, answer, uuid) => PendingWriteScheduled(JobOf(row, tx), answer, now, uuid);
    case WorkSent(now, _, tx, answer) => SentWriteScheduled(JobOf(row, tx), answer, now);
    case _ =>
  }

  // One clock, never running backwards.
  predicate TimelyRun(row: Payout, evs: seq<Event>)
    decreases |evs|
  {
    evs != [] ==> Timely(row, evs[0]) && TimelyRun(Apply(row, evs[0]), evs[1..])
  }

  lemma {:induction false} ScheduledRun(row: Payout, evs: seq<Event>)
    requires Scheduled(row) && TimelyRun(row, evs)
    ensures Scheduled(Run(row, evs))
    decreases |evs|
  {
    if evs != [] {
      ScheduledStep(row, evs[0]);
      ScheduledRun(Apply(row, evs[0]), evs[1..]);
    }
  }

  lemma LastAttemptStep(row: Payout, ev: Event)
    requires Scheduled(row) && Timely(row, ev) && row.lastAttempt.Some?
    ensures Apply(row, ev).lastAttempt.Some? && Apply(row, ev).lastAttempt.value >= row.lastAttempt.value
  {
    hide PendingOutcome, SentOutcome, Settled;
  }

  lemma {:induction false} LastAttemptStays(row: Payout, evs: seq<Event>)
    requires Scheduled(row) && TimelyRun(row, evs) && row.lastAttempt.Some?
    ensures var after := Run(row, evs).lastAttempt; after.Some? && after.value >= row.lastAttempt.value
    decreases |evs|
  {
    if evs != [] {
      ScheduledStep(row, evs[0]);
      LastAttemptStep(row, evs[0]);
      hide Apply, Scheduled;
      LastAttemptStays(Apply(row, evs[0]), evs[1..]);
    }
  }

  /** However many passes, events and retries lie between them, a poll or a resend is made at least
      `stale` seconds after every submission recorded before it, and, as the very next step, not before its
      backoff is over. */
  lemma NoCallBeforeStale(row: Payout, ev: Event, evs: seq<Event>, later: Event)
    requires Scheduled(row) && Timely(row, ev) && Records(row, ev) && TimelyRun(Apply(row, ev), evs)
    requires Resends(Run(Apply(row, ev), evs), later) || Polls(Run(Apply(row, ev), evs), later)
    ensures later.now >= ev.now + later.stale
    ensures row.attempts < 5 && (evs == [] ==> later.now >= ev.now + DELAYS[row.attempts])
  {
    ScheduledStep(row, ev);
    RecordedSendWrites(row, ev);
    LastAttemptStays(Apply(row, ev), evs);
    if evs == [] { assert Run(Apply(row, ev), evs) == Apply(row, ev); }
    hide Apply, Run, Records, Scheduled;
  }

  /** In every reachable state a live payout is retryable and becomes claimable by itself:
      a PENDING one at once, a SENT one at most max(480, stale) seconds after its last write. */
  lemma NoLivePayoutIsLost(txn: Id, provider: string, phone: Option<string>, ref: string, created: int,
                           evs: seq<Event>, stale: nat, now: int)
    requires TimelyRun(Created(txn, provider, phone, ref, created), evs)
    ensures var row := Run(Created(txn, provider, phone, ref, created), evs);
            && (!Terminal(row.status) ==> row.retryable)
            && (row.status == FAILED ==> row.nextRetry.None?)
            && (row.status == PENDING && now >= row.updatedAt ==> ClaimablePending(row, now))
            && (row.status == SENT && now >= row.updatedAt + Max(LONGEST_BACKOFF, stale) ==>
                  ClaimableSent(row, now, stale))
  {
    ScheduledRun(Created(txn, provider, phone, ref, created), evs);
  }

  /* ---- a SENT payout without a reference resolves ---- */

  predicate Unresolved(row: Payout) { row.status == SENT && Missing(row.ref) }

  // A worker pass over the row whose provider call, if made, returned.
  predicate Handles(row: Payout, ev: Event) {
    ev.WorkSent? && ClaimableSent(row, ev.now, ev.stale) && (ev.answer.Adapter? ==> ev.answer.send.Replies?)
    && !ev.answer.LookupRaises?
  }

  function HandleCount(row: Payout, evs: seq<Event>): nat
    decreases |evs|
  {
    if evs == [] then 0 else One(Handles(row, evs[0])) + HandleCount(Apply(row, evs[0]), evs[1..])
  }

  predicate StaysUnresolved(row: Payout, evs: seq<Event>)
    decreases |evs|
  {
    Unresolved(row) && (evs != [] ==> StaysUnresolved(Apply(row, evs[0]), evs[1..]))
  }

  lemma UnresolvedStep(row: Payout, ev: Event)
    requires Unresolved(row) && Unresolved(Apply(row, ev)) && row.attempts <= MAX_ATTEMPTS
    ensures Apply(row, ev).attempts >= row.attempts + One(Handles(row, ev))
    ensures Handles(row, ev) ==> Apply(row, ev).attempts < MAX_ATTEMPTS
  {
  }

  lemma {:induction false} UnresolvedRun(row: Payout, evs: seq<Event>)
    requires StaysUnresolved(row, evs) && row.attempts <= MAX_ATTEMPTS
    ensures HandleCount(row, evs) == 0 || row.attempts + HandleCount(row, evs) < MAX_ATTEMPTS
    decreases |evs|
  {
    if evs != [] {
      UnresolvedStep(row, evs[0]);
      AttemptsStep(row, evs[0]);
      UnresolvedRun(Apply(row, evs[0]), evs[1..]);
    }
  }

  /** While provider calls return, a SENT payout without a reference is handled fewer than
      max(1, 5 - attempt_count) times before it gains a reference or ends. */
  lemma MissingRefResolves(row: Payout, evs: seq<Event>)
    requires StaysUnresolved(row, evs) && row.attempts <= MAX_ATTEMPTS
    ensures HandleCount(row, evs) < Max(1, MAX_ATTEMPTS - row.attempts)
  {
    UnresolvedRun(row, evs);
  }

  /* ---- CONFIRMED ---- */

  /** The only steps that leave CONFIRMED: an override replay of another status, and an admin
      retry whose status check was made before the payout was confirmed. */
  lemma LeavesConfirmed(row: Payout, ev: Event)
    requires row.status == CONFIRMED
    ensures Apply(row, ev).status != CONFIRMED <==>
            (ev.Replay? && ev.override && ev.notice.status != CONFIRMED) || ev.LateRetryWrite?
  {
  }

  predicate KeepsConfirmed(ev: Event) { !(ev.Replay? && ev.override) && !ev.LateRetryWrite? }

  /** Without override replays and late retry writes CONFIRMED is permanent. */
  lemma {:induction false} ConfirmedIsPermanent(row: Payout, evs: seq<Event>)
    requires row.status == CONFIRMED && forall i :: 0 <= i < |evs| ==> KeepsConfirmed(evs[i])
    ensures Run(row, evs).status == CONFIRMED
    decreases |evs|
  {
    if evs != [] {
      LeavesConfirmed(row, evs[0]);
      ConfirmedIsPermanent(Apply(row, evs[0]), evs[1..]);
    }
  }

  /** Two admins who both read a FAILED payout: the second write undoes a confirmation. */
  lemma LateRetryUndoesConfirmed(failed: Payout, now: int)
    requires RetryAllowed(failed, false)
    ensures var confirmed := Run(failed, [Retry(now, false), Confirm(now + 1)]);
            confirmed.status == CONFIRMED && Apply(confirmed, LateRetryWrite(now + 2)).status == PENDING
  {
    var evs := [Retry(now, false), Confirm(now + 1)];
    assert evs[1..] == [Confirm(now + 1)];
    assert evs[1..][1..] == [];
    var retried := Apply(failed, evs[0]);
    assert Run(failed, evs) == Run(retried, evs[1..]);
    assert Run(retried, evs[1..]) == Run(Apply(retried, Confirm(now + 1)), []);
  }
}
