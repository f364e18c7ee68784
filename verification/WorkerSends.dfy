/**
 Submissions at the provider under concurrency: also those of transactions that are rolled
 back, which no row records.
 */
module WorkerSends {
  import opened Fees
  import opened Payouts
  import opened Workers
  import PayoutLife

  // A row's submission by the batch that holds it, if the batch has got to it.
  ghost function BatchSends(rows: Table, b: Batch, id: Id): nat {
    if id in rows && exists i :: 0 <= i < |b.acts| && i < |b.queue| && b.queue[i] == id then
      var i :| 0 <= i < |b.acts| && i < |b.queue| && b.queue[i] == id;
      PayoutLife.One(PayoutLife.Sends(rows[id], b.acts[i]))
    else 0
  }

  ghost predicate Holds(w: World, me: Worker, id: Id) { me in w.batches && id in w.batches[me].queue }

  // Submissions of a row that are neither committed nor rolled back.
  ghost function OpenSends(w: World, id: Id): nat {
    if o: Worker :| Holds(w, o, id) then BatchSends(w.rows, w.batches[o], id) else 0
  }

  // Submissions of a row that a step makes, rolls back, or commits.
  ghost function StepSends(w: World, s: Step, id: Id): nat
    requires Enabled(w, s)
  {
    if s.HandleNext? && id in w.rows && w.batches[s.worker].queue[|w.batches[s.worker].acts|] == id
    then PayoutLife.One(PayoutLife.Sends(w.rows[id], s.act)) else 0
  }

  ghost function StepAborts(w: World, s: Step, id: Id): nat
    requires Enabled(w, s)
  {
    if s.Abort? && Holds(w, s.worker, id) then BatchSends(w.rows, w.batches[s.worker], id) else 0
  }

  ghost function StepCommits(w: World, s: Step, id: Id): nat
    requires Enabled(w, s) && id in w.rows
  {
    PayoutLife.SendCount(w.rows[id], EventsOf(Logged(w, s), id))
  }

  // All submissions of a row in a run, and those of them that were rolled back.
  ghost function AllSends(w: World, steps: seq<Step>, id: Id): nat
    requires EnabledRun(w, steps)
    decreases |steps|
  {
    if steps == [] then 0 else StepSends(w, steps[0], id) + AllSends(Next(w, steps[0]), steps[1..], id)
  }

  ghost function AbortedSends(w: World, steps: seq<Step>, id: Id): nat
    requires EnabledRun(w, steps)
    decreases |steps|
  {
    if steps == [] then 0 else StepAborts(w, steps[0], id) + AbortedSends(Next(w, steps[0]), steps[1..], id)
  }

  /* ---- open submissions ---- */

  lemma BatchSendsAt(rows: Table, b: Batch, id: Id, i: nat)
    requires BatchOk(rows, b) && id in rows && i < |b.acts| && b.queue[i] == id
    ensures BatchSends(rows, b, id) == PayoutLife.One(PayoutLife.Sends(rows[id], b.acts[i]))
  {
    hide PayoutLife.Sends;
  }

  lemma HeldByOne(w: World, o: Worker, id: Id)
    requires Inv(w) && Holds(w, o, id)
    ensures OpenSends(w, id) == BatchSends(w.rows, w.batches[o], id)
  {
    forall p: Worker | Holds(w, p, id)
      ensures p == o
    {
      assert p != o ==> Apart(w.batches[o], w.batches[p]);
    }
    hide Inv, BatchSends;
  }

  lemma HeldByNone(w: World, id: Id)
    requires !Locked(w, id)
    ensures OpenSends(w, id) == 0
  {
    assert forall o: Worker :: !Holds(w, o, id);
    hide BatchSends;
  }

  lemma NothingHandled(rows: Table, b: Batch, id: Id)
    requires b.acts == []
    ensures BatchSends(rows, b, id) == 0
  {
  }

  // The holder of the row, the row and what the holder has done to it are the same.
  ghost predicate SameHolder(w: World, next: World, id: Id) {
    forall o: Worker ::
      && (Holds(w, o, id) <==> Holds(next, o, id))
      && (Holds(w, o, id) && Holds(next, o, id) ==>
            BatchSends(next.rows, next.batches[o], id) == BatchSends(w.rows, w.batches[o], id))
  }

  lemma SameHolderSends(w: World, next: World, id: Id)
    requires Inv(w) && Inv(next) && SameHolder(w, next, id)
    ensures OpenSends(next, id) == OpenSends(w, id)
  {
    hide Inv, BatchSends;
    if Locked(w, id) {
      var o: Worker :| o in w.batches && id in w.batches[o].queue;
      assert Holds(w, o, id);
      HeldByOne(w, o, id);
      HeldByOne(next, o, id);
    } else {
      HeldByNone(w, id);
      assert forall o: Worker :: !Holds(next, o, id) by {
        assert forall o: Worker :: !Holds(w, o, id);
      }
    }
  }

  /* ---- each step balances ---- */

  ghost predicate Balanced(w: World, s: Step, id: Id)
    requires Enabled(w, s) && id in w.rows
  {
    StepSends(w, s, id) + OpenSends(w, id) == StepCommits(w, s, id) + StepAborts(w, s, id) + OpenSends(Next(w, s), id)
  }

  lemma NoEventsNoSends(row: Payout)
    ensures PayoutLife.SendCount(row, []) == 0
  {
  }

  lemma OneEventSends(row: Payout, ev: PayoutLife.Event)
    ensures PayoutLife.SendCount(row, [ev]) == PayoutLife.One(PayoutLife.Sends(row, ev))
  {
    assert PayoutLife.SendCount(row, [ev])
           == PayoutLife.One(PayoutLife.Sends(row, ev)) + PayoutLife.SendCount(PayoutLife.Apply(row, ev), []);
    hide PayoutLife.Sends, PayoutLife.Apply;
  }

  // What the first claim does: a new batch, nothing handled, over rows that nobody held.
  lemma NewBatch(w: World, s: Step, id: Id)
    requires s.ClaimPending? && Inv(w) && Enabled(w, s)
    ensures var after := Next(w, s).batches;
            && s.worker !in w.batches && after.Keys == w.batches.Keys + {s.worker} && Next(w, s).rows == w.rows
            && after[s.worker].acts == [] && after[s.worker].queue == s.ids
            && forall o :: o in w.batches ==> after[o] == w.batches[o]
    ensures id in s.ids && id in w.rows ==> !Locked(w, id)
  {
    hide ClaimablePending;
    if id in s.ids && id in w.rows { assert !LockedByOther(w, s.worker, id); }
  }

  lemma ClaimPendingOpens(w: World, s: Step, id: Id)
    requires s.ClaimPending? && Inv(w) && Enabled(w, s) && id in w.rows
    ensures OpenSends(Next(w, s), id) == OpenSends(w, id)
  {
    var next := Next(w, s);
    NewBatch(w, s, id);
    StepKeepsInv(w, s);
    NothingHandled(next.rows, next.batches[s.worker], id);
    hide Inv, Next, Enabled, BatchSends, OpenSends, Locked;
    if id in s.ids {
      HeldByNone(w, id);
      HeldByOne(next, s.worker, id);
    } else {
      SameHolderSends(w, next, id);
    }
  }

  lemma ClaimPendingBalances(w: World, s: Step, id: Id)
    requires s.ClaimPending? && Inv(w) && Enabled(w, s) && id in w.rows
    ensures Balanced(w, s, id)
  {
    ClaimPendingOpens(w, s, id);
    NoEventsNoSends(w.rows[id]);
    hide Inv, Next, Enabled, OpenSends, PayoutLife.SendCount;
  }

  // What the second claim does to the worker's batch, in which nothing has been handled.
  lemma ClaimedBatch(w: World, s: Step, id: Id)
    requires s.ClaimSent? && Inv(w) && Enabled(w, s)
    ensures var b, after := w.batches[s.worker], Next(w, s).batches;
            && b.acts == [] && after.Keys == w.batches.Keys && Next(w, s).rows == w.rows
            && after[s.worker].acts == [] && after[s.worker].queue == b.queue + s.ids
            && forall o :: o in w.batches && o != s.worker ==> after[o] == w.batches[o]
    ensures id in s.ids && id in w.rows ==> Holds(w, s.worker, id) || !Locked(w, id)
  {
    assert BatchOk(w.rows, w.batches[s.worker]);
    hide QueueOk, ClaimableSent;
    if id in s.ids && id in w.rows { assert !LockedByOther(w, s.worker, id); }
  }

  lemma ClaimSentOpens(w: World, s: Step, id: Id)
    requires s.ClaimSent? && Inv(w) && Enabled(w, s) && id in w.rows
    ensures OpenSends(Next(w, s), id) == OpenSends(w, id)
  {
    var next, me := Next(w, s), s.worker;
    ClaimedBatch(w, s, id);
    StepKeepsInv(w, s);
    NothingHandled(w.rows, w.batches[me], id);
    NothingHandled(next.rows, next.batches[me], id);
    hide Inv, Next, Enabled, BatchSends, OpenSends, Locked;
    if id in s.ids {
      if Holds(w, me, id) { HeldByOne(w, me, id); } else { HeldByNone(w, id); }
      HeldByOne(next, me, id);
    } else {
      SameHolderSends(w, next, id);
    }
  }

  lemma ClaimSentBalances(w: World, s: Step, id: Id)
    requires s.ClaimSent? && Inv(w) && Enabled(w, s) && id in w.rows
    ensures Balanced(w, s, id)
  {
    ClaimSentOpens(w, s, id);
    NoEventsNoSends(w.rows[id]);
    hide Inv, Next, Enabled, OpenSends, PayoutLife.SendCount;
  }

  lemma NotYetSent(rows: Table, b: Batch, id: Id)
    requires BatchOk(rows, b) && |b.acts| < |b.queue| && b.queue[|b.acts|] == id
    ensures BatchSends(rows, b, id) == 0
  {
    hide PayoutLife.Sends;
  }

  // What handling the next row does to the worker's batch.
  lemma HandledBatch(w: World, s: Step)
    requires s.HandleNext? && Inv(w) && Enabled(w, s)
    ensures var b, after := w.batches[s.worker], Next(w, s).batches;
            && BatchOk(w.rows, b) && after.Keys == w.batches.Keys && Next(w, s).rows == w.rows
            && BatchOk(w.rows, after[s.worker]) && after[s.worker].queue == b.queue
            && after[s.worker].acts == b.acts + [s.act]
            && forall o :: o in w.batches && o != s.worker ==> after[o] == w.batches[o]
  {
    StepKeepsInv(w, s);
    assert BatchOk(w.rows, w.batches[s.worker]);
    hide Handled, ClaimHolds;
  }

  lemma HandleOwn(w: World, s: Step, id: Id)
    requires s.HandleNext? && Inv(w) && Enabled(w, s) && id in w.rows
    requires w.batches[s.worker].queue[|w.batches[s.worker].acts|] == id
    ensures OpenSends(w, id) == 0
    ensures OpenSends(Next(w, s), id) == PayoutLife.One(PayoutLife.Sends(w.rows[id], s.act))
  {
    var next, me, b := Next(w, s), s.worker, w.batches[s.worker];
    HandledBatch(w, s);
    StepKeepsInv(w, s);
    hide Inv, Next, Enabled, BatchSends, OpenSends, PayoutLife.Sends, QueueOk, WritesOk;
    assert id in b.queue && Holds(w, me, id) && Holds(next, me, id);
    HeldByOne(w, me, id);
    HeldByOne(next, me, id);
    hide Holds;
    BatchSendsAt(next.rows, next.batches[me], id, |b.acts|);
    NotYetSent(w.rows, b, id);
  }

  lemma HandleOther(w: World, s: Step, id: Id)
    requires s.HandleNext? && Inv(w) && Enabled(w, s) && id in w.rows
    requires w.batches[s.worker].queue[|w.batches[s.worker].acts|] != id
    ensures OpenSends(Next(w, s), id) == OpenSends(w, id)
  {
    var next, me, b := Next(w, s), s.worker, w.batches[s.worker];
    HandledBatch(w, s);
    StepKeepsInv(w, s);
    hide Inv, Next, Enabled, BatchSends, OpenSends, PayoutLife.Sends, QueueOk, WritesOk;
    OneMoreAct(w.rows, b, next.batches[me], id);
    OneBatchDiffers(w, next, me, id);
    hide SameHolder, Holds;
    SameHolderSends(w, next, id);
  }

  lemma OneBatchDiffers(w: World, next: World, me: Worker, id: Id)
    requires me in w.batches && next.rows == w.rows && next.batches.Keys == w.batches.Keys
    requires forall o :: o in w.batches && o != me ==> next.batches[o] == w.batches[o]
    requires next.batches[me].queue == w.batches[me].queue
    requires BatchSends(w.rows, next.batches[me], id) == BatchSends(w.rows, w.batches[me], id)
    ensures SameHolder(w, next, id)
  {
    hide BatchSends;
  }

  lemma HandleOpens(w: World, s: Step, id: Id)
    requires s.HandleNext? && Inv(w) && Enabled(w, s) && id in w.rows
    ensures OpenSends(Next(w, s), id) == OpenSends(w, id) + StepSends(w, s, id)
  {
    hide Inv, Next, OpenSends, PayoutLife.Sends;
    if w.batches[s.worker].queue[|w.batches[s.worker].acts|] == id {
      HandleOwn(w, s, id);
    } else {
      HandleOther(w, s, id);
    }
  }

  lemma HandleBalances(w: World, s: Step, id: Id)
    requires s.HandleNext? && Inv(w) && Enabled(w, s) && id in w.rows
    ensures Balanced(w, s, id)
  {
    HandleOpens(w, s, id);
    NoEventsNoSends(w.rows[id]);
    hide Inv, Next, Enabled, OpenSends, StepSends, PayoutLife.SendCount;
  }

  lemma OneMoreAct(rows: Table, b: Batch, after: Batch, id: Id)
    requires BatchOk(rows, b) && BatchOk(rows, after) && after.queue == b.queue && |after.acts| == |b.acts| + 1
    requires after.acts[..|b.acts|] == b.acts && b.queue[|b.acts|] != id && id in rows
    ensures BatchSends(rows, after, id) == BatchSends(rows, b, id)
  {
    assert |b.acts| < |b.queue|;
    hide BatchOk, PayoutLife.Sends, BatchSends;
    if i :| 0 <= i < |b.acts| && b.queue[i] == id {
      assert after.acts[i] == after.acts[..|b.acts|][i];
      BatchSendsAt(rows, b, id, i);
      BatchSendsAt(rows, after, id, i);
    } else {
      NoneSent(rows, b, id);
      NoneSent(rows, after, id);
    }
  }

  lemma NoneSent(rows: Table, b: Batch, id: Id)
    requires forall i :: 0 <= i < |b.acts| && i < |b.queue| ==> b.queue[i] != id
    ensures BatchSends(rows, b, id) == 0
  {
  }

  lemma {:induction false} EventsOfSplit(acts: seq<Act>, more: seq<Act>, id: Id)
    ensures EventsOf(acts + more, id) == EventsOf(acts, id) + EventsOf(more, id)
  {
    if acts == [] {
      assert acts + more == more;
    } else {
      assert (acts + more)[1..] == acts[1..] + more;
      EventsOfSplit(acts[1..], more, id);
    }
  }

  // A batch holds each row once.
  lemma {:induction false} EventsOfBatch(b: Batch, n: nat, id: Id)
    requires n <= |b.acts| && n <= |b.queue| && Distinct(b.queue)
    ensures (forall i :: 0 <= i < n ==> b.queue[i] != id) ==> EventsOf(BatchActs(b, n), id) == []
    ensures forall i :: 0 <= i < n && b.queue[i] == id ==> EventsOf(BatchActs(b, n), id) == [b.acts[i]]
  {
    if n > 0 {
      var act := On({b.queue[n - 1]}, b.acts[n - 1]);
      EventsOfBatch(b, n - 1, id);
      ActsNext(b, n);
      EventsOfSplit(BatchActs(b, n - 1), [act], id);
      assert EventsOf([act], id) == (if b.queue[n - 1] == id then [b.acts[n - 1]] else []) + EventsOf([], id);
      hide BatchActs;
    }
  }

  // What a commit does to the row: the held one's event is logged, others stay.
  lemma CommittedRow(w: World, s: Step, id: Id)
    requires s.Commit? && Inv(w) && Enabled(w, s) && id in w.rows
    ensures var next, b := Next(w, s), w.batches[s.worker];
            && next.batches == w.batches - {s.worker} && id in next.rows && BatchOk(w.rows, b)
            && |b.acts| == |b.queue|
            && (if id in b.queue then
                  exists i :: 0 <= i < |b.queue| && b.queue[i] == id && EventsOf(Logged(w, s), id) == [b.acts[i]]
                else EventsOf(Logged(w, s), id) == [] && next.rows[id] == w.rows[id])
  {
    var b := w.batches[s.worker];
    assert BatchOk(w.rows, b) && |b.acts| == |b.queue| == |b.writes|;
    EventsOfBatch(b, |b.queue|, id);
    PublishElsewhere(w.rows, b, |b.writes|, id);
    assert b.queue[..|b.writes|] == b.queue;
    hide Inv, BatchOk, BatchActs, EventsOf, Publish;
    if id in b.queue {
      var i :| 0 <= i < |b.queue| && b.queue[i] == id;
      assert EventsOf(Logged(w, s), id) == [b.acts[i]];
    }
  }

  lemma CommitBalances(w: World, s: Step, id: Id)
    requires s.Commit? && Inv(w) && Enabled(w, s) && id in w.rows
    ensures Balanced(w, s, id)
  {
    var next, me, b := Next(w, s), s.worker, w.batches[s.worker];
    StepKeepsInv(w, s);
    CommittedRow(w, s, id);
    hide Inv, Next, Enabled, Logged, EventsOf, BatchSends, OpenSends, BatchOk, PayoutLife.Sends, PayoutLife.SendCount;
    if id in b.queue {
      var i :| 0 <= i < |b.queue| && b.queue[i] == id && EventsOf(Logged(w, s), id) == [b.acts[i]];
      HeldByOne(w, me, id);
      BatchSendsAt(w.rows, b, id, i);
      OneEventSends(w.rows[id], b.acts[i]);
      FreedHolder(w, next, me, id);
    } else {
      NoEventsNoSends(w.rows[id]);
      OtherRowsSame(w, next, me, id);
      hide SameHolder;
      SameHolderSends(w, next, id);
    }
  }

  // A batch that ends frees its rows.
  lemma FreedHolder(w: World, next: World, me: Worker, id: Id)
    requires Inv(w) && Holds(w, me, id) && next.batches == w.batches - {me}
    ensures OpenSends(next, id) == 0
  {
    forall o: Worker | o in next.batches
      ensures id !in next.batches[o].queue
    {
      assert Apart(w.batches[me], w.batches[o]);
    }
    hide Inv;
    HeldByNone(next, id);
  }

  lemma OtherRowsSame(w: World, next: World, me: Worker, id: Id)
    requires next.batches == w.batches - {me} && !Holds(w, me, id) && id in w.rows && id in next.rows
    requires next.rows[id] == w.rows[id]
    ensures SameHolder(w, next, id)
  {
    forall o: Worker
      ensures Holds(w, o, id) <==> Holds(next, o, id)
    {
    }
    RowDecides(w, next, id);
  }

  lemma RowDecides(w: World, next: World, id: Id)
    requires id in w.rows && id in next.rows && next.rows[id] == w.rows[id]
    ensures forall b :: BatchSends(next.rows, b, id) == BatchSends(w.rows, b, id)
  {
    forall b
      ensures BatchSends(next.rows, b, id) == BatchSends(w.rows, b, id)
    {
      SameRowSends(w.rows, next.rows, b, id);
    }
  }

  lemma SameRowSends(rows: Table, after: Table, b: Batch, id: Id)
    requires id in rows && id in after && after[id] == rows[id]
    ensures BatchSends(after, b, id) == BatchSends(rows, b, id)
  {
    hide PayoutLife.Sends;
  }

  lemma OutsideBalances(w: World, s: Step, id: Id)
    requires (s.Outside? || s.Insert?) && Inv(w) && Enabled(w, s) && id in w.rows
    ensures Balanced(w, s, id)
  {
    var next := Next(w, s);
    StepKeepsInv(w, s);
    NoEventsNoSends(w.rows[id]);
    if s.Outside? && id in s.targets {
      OneEventSends(w.rows[id], s.ev);
      assert EventsOf([On(s.targets, s.ev)], id) == [s.ev] + EventsOf([], id);
      assert !PayoutLife.Sends(w.rows[id], s.ev);
      assert !Locked(w, id) && !Locked(next, id);
      hide Inv;
      HeldByNone(w, id);
      HeldByNone(next, id);
    } else {
      assert EventsOf(Logged(w, s), id) == [];
      assert next.rows[id] == w.rows[id];
      hide Inv, BatchSends;
      RowDecides(w, next, id);
      SameHolderSends(w, next, id);
    }
  }

  lemma AbortBalances(w: World, s: Step, id: Id)
    requires s.Abort? && Inv(w) && Enabled(w, s) && id in w.rows
    ensures Balanced(w, s, id)
  {
    var next, me := Next(w, s), s.worker;
    StepKeepsInv(w, s);
    NoEventsNoSends(w.rows[id]);
    if Holds(w, me, id) {
      HeldByOne(w, me, id);
      FreedHolder(w, next, me, id);
    } else {
      hide Inv, BatchSends;
      OtherRowsSame(w, next, me, id);
      SameHolderSends(w, next, id);
    }
  }

  lemma StepBalances(w: World, s: Step, id: Id)
    requires Inv(w) && Enabled(w, s) && id in w.rows
    ensures Balanced(w, s, id)
  {
    hide Inv, Enabled, Balanced;
    match s
    case ClaimPending(_, _, _, _, _) => ClaimPendingBalances(w, s, id);
    case ClaimSent(_, _, _) => ClaimSentBalances(w, s, id);
    case HandleNext(_, _) => HandleBalances(w, s, id);
    case Commit(_) => CommitBalances(w, s, id);
    case Abort(_) => AbortBalances(w, s, id);
    case Outside(_, _) => OutsideBalances(w, s, id);
    case Insert(_, _) => OutsideBalances(w, s, id);
  }

  /* ---- whole runs ---- */

  lemma {:induction false} SendCountSplit(row: Payout, evs: seq<PayoutLife.Event>, more: seq<PayoutLife.Event>)
    ensures PayoutLife.SendCount(row, evs + more)
            == PayoutLife.SendCount(row, evs) + PayoutLife.SendCount(PayoutLife.Run(row, evs), more)
    decreases |evs|
  {
    hide PayoutLife.Apply, PayoutLife.Sends;
    if evs == [] {
      assert evs + more == more;
    } else {
      assert (evs + more)[1..] == evs[1..] + more;
      SendCountSplit(PayoutLife.Apply(row, evs[0]), evs[1..], more);
    }
  }

  // The row after a step, by the events the step commits.
  lemma StepRow(w: World, s: Step, id: Id)
    requires Inv(w) && Enabled(w, s) && id in w.rows
    ensures id in Next(w, s).rows && Next(w, s).rows[id] == PayoutLife.Run(w.rows[id], EventsOf(Logged(w, s), id))
  {
    StepIsSerial(w, s);
    assert NotCreated(Logged(w, s), id);
    hide Inv, Next, Logged, PayoutLife.Run;
    RowOfSerial(w.rows, Logged(w, s), id);
  }

  /** Every submission of a run is committed, rolled back, or still open at its end. */
  lemma {:induction false} SendsAreAccounted(w: World, steps: seq<Step>, id: Id)
    requires Inv(w) && EnabledRun(w, steps) && id in w.rows
    ensures id in Run(w, steps).rows
    ensures AllSends(w, steps, id) + OpenSends(w, id)
            == PayoutLife.SendCount(w.rows[id], EventsOf(CommitLog(w, steps), id))
               + AbortedSends(w, steps, id) + OpenSends(Run(w, steps), id)
    decreases |steps|
  {
    if steps == [] {
      NoEventsNoSends(w.rows[id]);
    } else {
      var s, next := steps[0], Next(w, steps[0]);
      StepBalances(w, s, id);
      StepRow(w, s, id);
      StepKeepsInv(w, s);
      var evs, rest := EventsOf(Logged(w, s), id), CommitLog(next, steps[1..]);
      assert CommitLog(w, steps) == Logged(w, s) + rest && Run(w, steps) == Run(next, steps[1..]);
      assert AllSends(w, steps, id) == StepSends(w, s, id) + AllSends(next, steps[1..], id);
      assert AbortedSends(w, steps, id) == StepAborts(w, s, id) + AbortedSends(next, steps[1..], id);
      hide Inv, Next, Logged, CommitLog, Run, StepSends, StepAborts, AllSends, AbortedSends, OpenSends, EventsOf;
      SendsAreAccounted(next, steps[1..], id);
      EventsOfSplit(Logged(w, s), rest, id);
      SendCountSplit(w.rows[id], evs, EventsOf(rest, id));
    }
  }

  // A row with a reference has an open submission only while it is PENDING.
  lemma OpenSendIsPending(w: World, id: Id)
    requires Inv(w) && id in w.rows && !Missing(w.rows[id].ref)
    ensures OpenSends(w, id) <= PayoutLife.One(w.rows[id].status == PENDING)
  {
    if Locked(w, id) {
      var o: Worker :| o in w.batches && id in w.batches[o].queue;
      assert Holds(w, o, id);
      HeldByOne(w, o, id);
    } else {
      HeldByNone(w, id);
    }
  }

  /** With many workers, and transactions that may be rolled back after they have submitted: as long as
      no committed reply loses the reference, all submissions of a payout are at most one if it starts
      PENDING, plus the applied admin retries, plus the submissions rolled back. */
  lemma AllSendsBounded(w: World, steps: seq<Step>, id: Id)
    requires Inv(w) && EnabledRun(w, steps) && id in w.rows && !Missing(w.rows[id].ref)
    requires PayoutLife.KeepsRef(w.rows[id], EventsOf(CommitLog(w, steps), id))
    ensures var row, evs := w.rows[id], EventsOf(CommitLog(w, steps), id);
            AllSends(w, steps, id) <= PayoutLife.One(row.status == PENDING) + PayoutLife.RetryCount(row, evs)
                                      + AbortedSends(w, steps, id)
  {
    var row, evs, last := w.rows[id], EventsOf(CommitLog(w, steps), id), Run(w, steps);
    SendsAreAccounted(w, steps, id);
    ConcurrentRow(w, steps, id);
    RunKeepsInv(w, steps);
    PayoutLife.SendRun(row, evs);
    PayoutLife.RefRun(row, evs);
    OpenSendIsPending(last, id);
    hide Inv, Run, CommitLog, AllSends, AbortedSends, OpenSends, EventsOf;
  }
}
