/**
 Many workers on one payout table: each process_once is a transaction that claims rows with
 FOR UPDATE SKIP LOCKED, writes them privately and commits, while webhook and admin updates
 wait for the rows it holds.
 */
module Workers {
  import opened Wrappers
  import opened Fees
  import opened Payouts
  import PayoutLife

  type Worker = nat

  // An open process_once transaction: what its two claims returned (the first `pendings`
  // entries of the queue were PENDING), and the events of the rows handled so far with their private writes.
  datatype Batch = Batch(queue: seq<Id>, pendings: nat, sentClaimed: bool, snapshot: map<Id, Payout>,
                         claimedAt: int, stale: nat, acts: seq<PayoutLife.Event>, writes: seq<Payout>)

  datatype World = World(rows: Table, batches: map<Worker, Batch>)

  datatype Step =
    | ClaimPending(worker: Worker, ids: seq<Id>, limit: nat, stale: nat, now: int)
    | ClaimSent(worker: Worker, ids: seq<Id>, limit: nat)
    | HandleNext(worker: Worker, act: PayoutLife.Event)
    | Commit(worker: Worker)
    // The transaction is rolled back.
    | Abort(worker: Worker)
    // A webhook, replay or admin update of some rows; it waits until they are unlocked.
    | Outside(targets: set<Id>, ev: PayoutLife.Event)
    | Insert(id: Id, row: Payout)

  /* ---- claims ---- */

  predicate LockedByOther(w: World, me: Worker, id: Id) {
    exists o :: o in w.batches && o != me && id in w.batches[o].queue
  }

  predicate Locked(w: World, id: Id) {
    exists o :: o in w.batches && id in w.batches[o].queue
  }

  predicate Distinct(ids: seq<Id>) { forall i, j :: 0 <= i < j < |ids| ==> ids[i] != ids[j] }

  // ORDER BY next_retry_at NULLS FIRST, updated_at: `a` may come before `b`.
  predicate SentBefore(a: Payout, b: Payout) {
    a.nextRetry.None?
    || (b.nextRetry.Some? && (a.nextRetry.value < b.nextRetry.value
                              || (a.nextRetry == b.nextRetry && a.updatedAt <= b.updatedAt)))
  }

  // ORDER BY ... LIMIT ... over the candidates; the outer SELECT returns them in any order.
  ghost predicate Picked(rows: Table, ids: seq<Id>, limit: nat, candidate: Id -> bool,
                         before: (Payout, Payout) -> bool) {
    && Distinct(ids) && |ids| <= limit
    && (forall i :: 0 <= i < |ids| ==> ids[i] in rows && candidate(ids[i]))
    && (forall left :: left in rows && candidate(left) && left !in ids ==>
          |ids| == limit && forall i :: 0 <= i < |ids| ==> before(rows[ids[i]], rows[left]))
  }

  ghost predicate PickedPending(w: World, me: Worker, ids: seq<Id>, limit: nat, now: int) {
    Picked(w.rows, ids, limit,
           id => id in w.rows && ClaimablePending(w.rows[id], now) && !LockedByOther(w, me, id),
           (a: Payout, b: Payout) => a.createdAt <= b.createdAt)
  }

  ghost predicate PickedSent(w: World, me: Worker, ids: seq<Id>, limit: nat, now: int, stale: nat) {
    Picked(w.rows, ids, limit,
           id => id in w.rows && ClaimableSent(w.rows[id], now, stale) && !LockedByOther(w, me, id),
           (a, b) => SentBefore(a, b))
  }

  /* ---- steps ---- */

  function Snapshot(rows: Table, ids: seq<Id>): map<Id, Payout>
    requires forall i :: 0 <= i < |ids| ==> ids[i] in rows
  {
    map id | id in ids :: rows[id]
  }

  // A handler works on the row as it was claimed and updates the row as it is.
  function Handled(claimed: Payout, row: Payout, act: PayoutLife.Event): Payout
    requires act.WorkPending? || act.WorkSent?
  {
    var job := JobOf(claimed, act.tx);
    if act.WorkPending? then
      UpdateRow(row, Some(PENDING), Settled(PendingOutcome(job, act.answer, act.now, act.uuid), job, act.now), act.now)
    else
      UpdateRow(row, Some(SENT), Settled(SentOutcome(job, act.answer, act.now), job, act.now), act.now)
  }

  // A worker event of the right kind for the next row, at or after the claim.
  predicate FitsNext(b: Batch, act: PayoutLife.Event) {
    && |b.acts| < |b.queue|
    && (if |b.acts| < b.pendings then act.WorkPending? else act.WorkSent? && act.stale == b.stale)
    && b.claimedAt <= act.now
  }

  // The private writes of the first n rows of a batch, made public.
  function Publish(rows: Table, b: Batch, n: nat): Table {
    if n == 0 || n > |b.queue| || n > |b.writes| then rows
    else Publish(rows, b, n - 1)[b.queue[n - 1] := b.writes[n - 1]]
  }

  ghost predicate Enabled(w: World, s: Step) {
    match s
    case ClaimPending(me, ids, limit, _, now) =>
      me !in w.batches && PickedPending(w, me, ids, limit, now)
    case ClaimSent(me, ids, limit) =>
      me in w.batches && !w.batches[me].sentClaimed
      && PickedSent(w, me, ids, limit, w.batches[me].claimedAt, w.batches[me].stale)
    case HandleNext(me, act) =>
      me in w.batches && w.batches[me].sentClaimed && FitsNext(w.batches[me], act)
    case Commit(me) =>
      me in w.batches && w.batches[me].sentClaimed && |w.batches[me].acts| == |w.batches[me].queue|
    case Abort(me) => me in w.batches
    case Outside(ids, ev) =>
      !ev.WorkPending? && !ev.WorkSent? && forall id :: id in ids ==> id in w.rows && !Locked(w, id)
    case Insert(id, _) => id !in w.rows
  }

  function OnRows(rows: Table, ids: set<Id>, ev: PayoutLife.Event): Table {
    map id | id in rows :: if id in ids then PayoutLife.Apply(rows[id], ev) else rows[id]
  }

  ghost function Next(w: World, s: Step): World
    requires Enabled(w, s)
  {
    match s
    case ClaimPending(me, ids, _, stale, now) =>
      World(w.rows, w.batches[me := Batch(ids, |ids|, false, Snapshot(w.rows, ids), now, stale, [], [])])
    case ClaimSent(me, ids, _) =>
      var b := w.batches[me];
      World(w.rows, w.batches[me := b.(queue := b.queue + ids, sentClaimed := true,
                                       snapshot := b.snapshot + Snapshot(w.rows, ids))])
    case HandleNext(me, act) =>
      var b := w.batches[me];
      var id := b.queue[|b.acts|];
      if id in b.snapshot && id in w.rows then
        World(w.rows, w.batches[me := b.(acts := b.acts + [act],
                                         writes := b.writes + [Handled(b.snapshot[id], w.rows[id], act)])])
      else w
    case Commit(me) => World(Publish(w.rows, w.batches[me], |w.batches[me].writes|), w.batches - {me})
    case Abort(me) => World(w.rows, w.batches - {me})
    case Outside(ids, ev) => World(OnRows(w.rows, ids, ev), w.batches)
    case Insert(id, row) => World(w.rows[id := row], w.batches)
  }

  ghost predicate EnabledRun(w: World, steps: seq<Step>)
    decreases |steps|
  {
    steps != [] ==> Enabled(w, steps[0]) && EnabledRun(Next(w, steps[0]), steps[1..])
  }

  ghost function Run(w: World, steps: seq<Step>): World
    requires EnabledRun(w, steps)
    decreases |steps|
  {
    if steps == [] then w else Run(Next(w, steps[0]), steps[1..])
  }

  /* ---- the serial run ---- */

  // One act at a time on the bare table, no locks and no private writes.
  datatype Act = On(ids: set<Id>, ev: PayoutLife.Event) | New(id: Id, row: Payout)

  function Do(rows: Table, act: Act): Table {
    match act
    case On(ids, ev) => OnRows(rows, ids, ev)
    case New(id, row) => rows[id := row]
  }

  function Serial(rows: Table, acts: seq<Act>): Table
    decreases |acts|
  {
    if acts == [] then rows else Serial(Do(rows, acts[0]), acts[1..])
  }

  function BatchActs(b: Batch, n: nat): seq<Act>
    requires n <= |b.acts| && n <= |b.queue|
  {
    seq(n, i requires 0 <= i < n => On({b.queue[i]}, b.acts[i]))
  }

  // What a step adds to the serial run: a batch joins it, whole, when it commits.
  ghost function Logged(w: World, s: Step): seq<Act>
    requires Enabled(w, s)
  {
    match s
    case Commit(me) => BatchActs(w.batches[me], |w.batches[me].queue|)
    case Outside(ids, ev) => [On(ids, ev)]
    case Insert(id, row) => [New(id, row)]
    case _ => []
  }

  ghost function CommitLog(w: World, steps: seq<Step>): seq<Act>
    requires EnabledRun(w, steps)
    decreases |steps|
  {
    if steps == [] then [] else Logged(w, steps[0]) + CommitLog(Next(w, steps[0]), steps[1..])
  }

  /* ---- invariant ---- */

  predicate ClaimHolds(b: Batch, i: nat, row: Payout)
    requires i < |b.queue|
  {
    if i < b.pendings then ClaimablePending(row, b.claimedAt) else ClaimableSent(row, b.claimedAt, b.stale)
  }

  ghost predicate QueueOk(rows: Table, b: Batch) {
    && Distinct(b.queue) && b.pendings <= |b.queue| && (!b.sentClaimed ==> b.pendings == |b.queue|)
    && forall i :: 0 <= i < |b.queue| ==>
         && b.queue[i] in rows && b.queue[i] in b.snapshot && b.snapshot[b.queue[i]] == rows[b.queue[i]]
         && ClaimHolds(b, i, rows[b.queue[i]])
  }

  ghost predicate WritesOk(rows: Table, b: Batch) {
    && |b.acts| == |b.writes| <= |b.queue| && (!b.sentClaimed ==> b.acts == [])
    && forall i :: 0 <= i < |b.acts| ==>
         b.queue[i] in rows && b.writes[i] == PayoutLife.Apply(rows[b.queue[i]], b.acts[i])
  }

  ghost predicate BatchOk(rows: Table, b: Batch) { QueueOk(rows, b) && WritesOk(rows, b) }

  // No row is claimed by two open transactions.
  ghost predicate Apart(a: Batch, b: Batch) { forall id :: id in a.queue ==> id !in b.queue }

  ghost predicate Inv(w: World) {
    && (forall o :: o in w.batches ==> BatchOk(w.rows, w.batches[o]))
    && (forall o, p :: o in w.batches && p in w.batches && o != p ==> Apart(w.batches[o], w.batches[p]))
  }

  // A row that is claimable when locked is still claimable when handled.
  lemma HandledIsApply(b: Batch, row: Payout, act: PayoutLife.Event)
    requires FitsNext(b, act) && ClaimHolds(b, |b.acts|, row)
    ensures Handled(row, row, act) == PayoutLife.Apply(row, act)
  {
  }

  lemma ClaimPendingKeeps(w: World, s: Step)
    requires s.ClaimPending? && Inv(w) && Enabled(w, s)
    ensures Inv(Next(w, s))
  {
    hide ClaimablePending, ClaimableSent, Handled;
    assert BatchOk(w.rows, Next(w, s).batches[s.worker]);
    hide BatchOk;
  }

  lemma ClaimSentBatch(w: World, s: Step)
    requires s.ClaimSent? && Inv(w) && Enabled(w, s)
    ensures BatchOk(w.rows, Next(w, s).batches[s.worker])
  {
  }

  lemma ClaimSentKeeps(w: World, s: Step)
    requires s.ClaimSent? && Inv(w) && Enabled(w, s)
    ensures Inv(Next(w, s))
  {
    ClaimSentBatch(w, s);
    hide BatchOk;
  }

  lemma HandleBatch(rows: Table, b: Batch, act: PayoutLife.Event)
    requires BatchOk(rows, b) && b.sentClaimed && FitsNext(b, act)
    ensures var id := b.queue[|b.acts|];
            && id in b.snapshot && id in rows
            && BatchOk(rows, b.(acts := b.acts + [act], writes := b.writes + [Handled(b.snapshot[id], rows[id], act)]))
  {
    var id := b.queue[|b.acts|];
    assert ClaimHolds(b, |b.acts|, rows[id]);
    HandledIsApply(b, rows[id], act);
    var after := b.(acts := b.acts + [act], writes := b.writes + [Handled(b.snapshot[id], rows[id], act)]);
    forall i | 0 <= i < |after.queue|
      ensures ClaimHolds(after, i, rows[after.queue[i]])
    {
      assert ClaimHolds(b, i, rows[b.queue[i]]);
    }
    hide Handled, ClaimHolds, PayoutLife.Apply;
  }

  lemma HandleKeeps(w: World, s: Step)
    requires s.HandleNext? && Inv(w) && Enabled(w, s)
    ensures Inv(Next(w, s))
  {
    HandleBatch(w.rows, w.batches[s.worker], s.act);
    hide BatchOk, Handled;
  }

  predicate Clear(b: Batch, mine: set<Id>) { forall id :: id in mine ==> id !in b.queue }

  lemma OthersUntouched(w: World, after: Table, mine: set<Id>)
    requires Inv(w) && w.rows.Keys <= after.Keys
    requires forall id :: id in w.rows && id !in mine ==> after[id] == w.rows[id]
    ensures forall o :: o in w.batches && Clear(w.batches[o], mine) ==> BatchOk(after, w.batches[o])
  {
  }

  lemma {:induction false} PublishElsewhere(rows: Table, b: Batch, n: nat, id: Id)
    requires n <= |b.writes| && n <= |b.queue| && id in rows
    ensures id in Publish(rows, b, n)
    ensures id !in b.queue[..n] ==> Publish(rows, b, n)[id] == rows[id]
  {
    if n > 0 {
      PublishElsewhere(rows, b, n - 1, id);
      assert b.queue[..n] == b.queue[..n - 1] + [b.queue[n - 1]];
    }
  }

  lemma CommitKeeps(w: World, s: Step)
    requires s.Commit? && Inv(w) && Enabled(w, s)
    ensures Inv(Next(w, s))
  {
    var b := w.batches[s.worker];
    forall id | id in w.rows
      ensures id in Next(w, s).rows && (id !in b.queue[..|b.writes|] ==> Next(w, s).rows[id] == w.rows[id])
    {
      PublishElsewhere(w.rows, b, |b.writes|, id);
    }
    var mine := set id | id in b.queue;
    assert b.queue[..|b.writes|] == b.queue;
    OthersUntouched(w, Next(w, s).rows, mine);
    forall o | o in w.batches && o != s.worker
      ensures Clear(w.batches[o], mine)
    {
      assert Apart(b, w.batches[o]);
    }
    hide BatchOk;
  }

  lemma StepKeepsInv(w: World, s: Step)
    requires Inv(w) && Enabled(w, s)
    ensures Inv(Next(w, s))
  {
    match s
    case ClaimPending(_, _, _, _, _) => ClaimPendingKeeps(w, s);
    case ClaimSent(_, _, _) => ClaimSentKeeps(w, s);
    case HandleNext(_, _) => HandleKeeps(w, s);
    case Commit(me) => CommitKeeps(w, s);
    case Abort(me) =>
    case Outside(ids, ev) =>
      OthersUntouched(w, OnRows(w.rows, ids, ev), ids);
      forall o | o in w.batches
        ensures Clear(w.batches[o], ids)
      {
        assert forall id :: id in w.batches[o].queue ==> Locked(w, id);
      }
    case Insert(id, row) => OthersUntouched(w, w.rows[id := row], {});
  }

  /** In every reachable state, claims held by different workers are disjoint, and every claimed
      row still is, in the table, what the claim returned. */
  lemma {:induction false} RunKeepsInv(w: World, steps: seq<Step>)
    requires Inv(w) && EnabledRun(w, steps)
    ensures Inv(Run(w, steps))
    decreases |steps|
  {
    if steps != [] {
      StepKeepsInv(w, steps[0]);
      RunKeepsInv(Next(w, steps[0]), steps[1..]);
    }
  }

  /* ---- serialisation ---- */

  lemma {:induction false} SerialSplit(rows: Table, acts: seq<Act>, more: seq<Act>)
    ensures Serial(rows, acts + more) == Serial(Serial(rows, acts), more)
    decreases |acts|
  {
    if acts == [] {
      assert acts + more == more;
    } else {
      assert (acts + more)[1..] == acts[1..] + more;
      SerialSplit(Do(rows, acts[0]), acts[1..], more);
    }
  }

  lemma SerialNext(rows: Table, acts: seq<Act>, act: Act)
    ensures Serial(rows, acts + [act]) == Do(Serial(rows, acts), act)
  {
    SerialSplit(rows, acts, [act]);
    OneAct(Serial(rows, acts), act);
  }

  lemma ActsNext(b: Batch, n: nat)
    requires 0 < n <= |b.acts| && n <= |b.queue|
    ensures BatchActs(b, n) == BatchActs(b, n - 1) + [On({b.queue[n - 1]}, b.acts[n - 1])]
  {
  }

  lemma {:induction false} BatchIsSerial(rows: Table, b: Batch, n: nat)
    requires BatchOk(rows, b) && n <= |b.acts|
    ensures Serial(rows, BatchActs(b, n)) == Publish(rows, b, n)
  {
    if n > 0 {
      assert n <= |b.queue|;
      hide BatchOk, Publish, Do, Serial, BatchActs;
      BatchIsSerial(rows, b, n - 1);
      PublishIsAct(rows, b, n);
      ActsNext(b, n);
      SerialNext(rows, BatchActs(b, n - 1), On({b.queue[n - 1]}, b.acts[n - 1]));
    }
  }

  lemma PublishIsAct(rows: Table, b: Batch, n: nat)
    requires BatchOk(rows, b) && 0 < n <= |b.acts|
    ensures Publish(rows, b, n) == Do(Publish(rows, b, n - 1), On({b.queue[n - 1]}, b.acts[n - 1]))
  {
    WrittenOnce(rows, b, n - 1);
    var id := b.queue[n - 1];
    hide BatchOk, Publish, PayoutLife.Apply;
    PublishElsewhere(rows, b, n - 1, id);
    PublishNext(rows, b, n);
  }

  lemma WrittenOnce(rows: Table, b: Batch, i: nat)
    requires BatchOk(rows, b) && i < |b.acts|
    ensures i < |b.queue| && i < |b.writes| && b.queue[i] in rows && b.queue[i] !in b.queue[..i]
    ensures b.writes[i] == PayoutLife.Apply(rows[b.queue[i]], b.acts[i])
  {
    hide PayoutLife.Apply, ClaimHolds;
  }

  lemma PublishNext(rows: Table, b: Batch, n: nat)
    requires 0 < n <= |b.writes| && n <= |b.queue|
    ensures Publish(rows, b, n) == Publish(rows, b, n - 1)[b.queue[n - 1] := b.writes[n - 1]]
  {
  }
  lemma OneAct(rows: Table, act: Act)
    ensures Serial(rows, [act]) == Do(rows, act)
  {
  }

  lemma StepIsSerial(w: World, s: Step)
    requires Inv(w) && Enabled(w, s)
    ensures Next(w, s).rows == Serial(w.rows, Logged(w, s))
  {
    match s
    case Commit(me) =>
      var b := w.batches[me];
      BatchIsSerial(w.rows, b, |b.queue|);
    case Outside(ids, ev) => OneAct(w.rows, On(ids, ev));
    case Insert(id, row) => OneAct(w.rows, New(id, row));
    case _ =>
  }

  /** Any interleaving of workers, webhooks, admins and new payouts leaves the table that one
      process would by handling the same rows one after another in commit order. */
  lemma {:induction false} ConcurrentIsSerial(w: World, steps: seq<Step>)
    requires Inv(w) && EnabledRun(w, steps)
    ensures Run(w, steps).rows == Serial(w.rows, CommitLog(w, steps))
    decreases |steps|
  {
    if steps != [] {
      StepIsSerial(w, steps[0]);
      StepKeepsInv(w, steps[0]);
      var next := Next(w, steps[0]);
      ConcurrentIsSerial(next, steps[1..]);
      SerialSplit(w.rows, Logged(w, steps[0]), CommitLog(next, steps[1..]));
    }
  }

  /* ---- back to one row ---- */

  // The events of a serial run that touch one row.
  function EventsOf(acts: seq<Act>, id: Id): seq<PayoutLife.Event> {
    if acts == [] then []
    else
      var rest := EventsOf(acts[1..], id);
      if acts[0].On? && id in acts[0].ids then [acts[0].ev] + rest else rest
  }

  // The row is not created anew along the way.
  predicate NotCreated(acts: seq<Act>, id: Id) {
    forall i :: 0 <= i < |acts| ==> acts[i].On? || acts[i].id != id
  }

  lemma {:induction false} RowOfSerial(rows: Table, acts: seq<Act>, id: Id)
    requires id in rows && NotCreated(acts, id)
    ensures id in Serial(rows, acts) && Serial(rows, acts)[id] == PayoutLife.Run(rows[id], EventsOf(acts, id))
    decreases |acts|
  {
    if acts != [] {
      RowOfSerial(Do(rows, acts[0]), acts[1..], id);
      var evs := EventsOf(acts[1..], id);
      if acts[0].On? && id in acts[0].ids {
        assert ([acts[0].ev] + evs)[1..] == evs;
      }
    }
  }

  lemma RowsStay(w: World, s: Step, id: Id)
    requires Inv(w) && Enabled(w, s) && id in w.rows
    ensures id in Next(w, s).rows
  {
    if s.Commit? { PublishElsewhere(w.rows, w.batches[s.worker], |w.batches[s.worker].writes|, id); }
  }

  lemma {:induction false} LogCreatesNoKnownRow(w: World, steps: seq<Step>, id: Id)
    requires Inv(w) && EnabledRun(w, steps) && id in w.rows
    ensures NotCreated(CommitLog(w, steps), id)
    decreases |steps|
  {
    if steps != [] {
      RowsStay(w, steps[0], id);
      StepKeepsInv(w, steps[0]);
      LogCreatesNoKnownRow(Next(w, steps[0]), steps[1..], id);
    }
  }

  /** Under any interleaving a payout lives exactly the life of its own committed events, so all
      that PayoutLife proves of one row holds with many workers; in particular attempt_count. */
  lemma ConcurrentRow(w: World, steps: seq<Step>, id: Id)
    requires Inv(w) && EnabledRun(w, steps) && id in w.rows
    ensures var after, evs := Run(w, steps).rows, EventsOf(CommitLog(w, steps), id);
            && id in after && after[id] == PayoutLife.Run(w.rows[id], evs)
            && (w.rows[id].attempts <= MAX_ATTEMPTS ==>
                  w.rows[id].attempts + PayoutLife.RecordCount(w.rows[id], evs) <= after[id].attempts <= MAX_ATTEMPTS)
  {
    var log := CommitLog(w, steps);
    ConcurrentIsSerial(w, steps);
    LogCreatesNoKnownRow(w, steps, id);
    RowOfSerial(w.rows, log, id);
    if w.rows[id].attempts <= MAX_ATTEMPTS {
      PayoutLife.AttemptsRun(w.rows[id], EventsOf(log, id));
    }
  }

  // The row a serial run creates under an id, and the events that touch it from then on.
  function BirthRow(acts: seq<Act>, id: Id): Option<Payout> {
    if acts == [] then None
    else if acts[0].New? && acts[0].id == id then Some(acts[0].row)
    else BirthRow(acts[1..], id)
  }

  function EventsSinceBirth(acts: seq<Act>, id: Id): seq<PayoutLife.Event> {
    if acts == [] then []
    else if acts[0].New? && acts[0].id == id then EventsOf(acts[1..], id)
    else EventsSinceBirth(acts[1..], id)
  }

  lemma {:induction false} NotBornYet(acts: seq<Act>, more: seq<Act>, id: Id)
    requires NotCreated(acts, id)
    ensures BirthRow(acts + more, id) == BirthRow(more, id)
    ensures EventsSinceBirth(acts + more, id) == EventsSinceBirth(more, id)
  {
    if acts == [] {
      assert acts + more == more;
    } else {
      assert (acts + more)[1..] == acts[1..] + more;
      NotBornYet(acts[1..], more, id);
    }
  }

  lemma {:induction false} PublishAddsNothing(rows: Table, b: Batch, n: nat, id: Id)
    requires n <= |b.writes| && n <= |b.queue| && id !in rows && id !in b.queue
    ensures id !in Publish(rows, b, n)
  {
    if n > 0 {
      PublishNext(rows, b, n);
      assert b.queue[n - 1] in b.queue;
      hide Publish;
      PublishAddsNothing(rows, b, n - 1, id);
    }
  }

  lemma QueueInRows(rows: Table, b: Batch, id: Id)
    requires BatchOk(rows, b) && id in b.queue
    ensures id in rows
  {
    hide ClaimHolds;
  }

  // Only an insert brings in a row.
  lemma OnlyInsertCreates(w: World, s: Step, id: Id)
    requires Inv(w) && Enabled(w, s) && id !in w.rows && !(s.Insert? && s.id == id)
    ensures id !in Next(w, s).rows && NotCreated(Logged(w, s), id)
  {
    if s.Commit? {
      var b := w.batches[s.worker];
      assert BatchOk(w.rows, b) && |b.writes| <= |b.queue|;
      if id in b.queue { QueueInRows(w.rows, b, id); }
      PublishAddsNothing(w.rows, b, |b.writes|, id);
    }
  }

  /** A payout added during the run lives, from the row that was inserted, exactly the life of its own
      committed events. */
  lemma {:induction false} ConcurrentNewRow(w: World, steps: seq<Step>, id: Id)
    requires Inv(w) && EnabledRun(w, steps) && id !in w.rows && id in Run(w, steps).rows
    ensures var log := CommitLog(w, steps);
            BirthRow(log, id).Some?
            && Run(w, steps).rows[id] == PayoutLife.Run(BirthRow(log, id).value, EventsSinceBirth(log, id))
    decreases |steps|
  {
    var s, next := steps[0], Next(w, steps[0]);
    var rest := CommitLog(next, steps[1..]);
    StepKeepsInv(w, s);
    assert Run(w, steps) == Run(next, steps[1..]) && CommitLog(w, steps) == Logged(w, s) + rest;
    if s.Insert? && s.id == id {
      var log := [New(id, s.row)] + rest;
      assert log[1..] == rest && CommitLog(w, steps) == log;
      hide Inv, Run, CommitLog, EventsOf, PayoutLife.Run;
      ConcurrentRow(next, steps[1..], id);
    } else {
      OnlyInsertCreates(w, s, id);
      NotBornYet(Logged(w, s), rest, id);
      hide Inv, Run, CommitLog, Next, Logged;
      ConcurrentNewRow(next, steps[1..], id);
    }
  }
}
