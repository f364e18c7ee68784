/**
 No starvation: with one worker and no admin retries, a PENDING payout leaves PENDING within
 a number of rounds set by the older PENDING payouts and the batch size.
 */
module Queue {
  import opened Wrappers
  import opened Fees
  import opened Payouts
  import opened Workers
  import PayoutLife

  datatype Move =
    // A process_once: the PENDING claim and, row by row, what happened to it.
    | Round(ids: seq<Id>, limit: nat, now: int, acts: seq<PayoutLife.Event>)
    // Anything else that is not an admin retry: webhooks, replays, confirmations, polls.
    | Other(targets: set<Id>, ev: PayoutLife.Event)
    | Arrive(id: Id, row: Payout)

  predicate NoRetry(ev: PayoutLife.Event) { !ev.Retry? && !ev.LateRetryWrite? }

  // The rows of a round, handled one after another.
  function HandleRound(rows: Table, ids: seq<Id>, acts: seq<PayoutLife.Event>): Table
    decreases |ids|
  {
    if ids == [] || acts == [] then rows
    else HandleRound(OnRows(rows, {ids[0]}, acts[0]), ids[1..], acts[1..])
  }

  function Moved(rows: Table, m: Move): Table {
    match m
    case Round(ids, _, _, acts) => HandleRound(rows, ids, acts)
    case Other(targets, ev) => OnRows(rows, targets, ev)
    case Arrive(id, row) => rows[id := row]
  }

  // A move around payout p: arrivals are younger than p, and a round claims at a time when p is due,
  // which by PayoutLife.NoLivePayoutIsLost is any time from p's last write on.
  ghost predicate Fits(rows: Table, m: Move, p: Id)
    requires p in rows
  {
    match m
    case Round(ids, limit, now, acts) =>
      && PickedPending(World(rows, map[]), 0, ids, limit, now) && Due(rows[p], now)
      && |acts| == |ids| && forall i :: 0 <= i < |acts| ==> acts[i].WorkPending? && acts[i].now >= now
    case Other(_, ev) => NoRetry(ev)
    case Arrive(id, row) => id !in rows && row.createdAt > rows[p].createdAt
  }

  // PENDING payouts that are not younger than p, p included.
  function Ahead(rows: Table, p: Id): set<Id>
    requires p in rows
  {
    set id | id in rows && rows[id].status == PENDING && rows[id].createdAt <= rows[p].createdAt
  }

  /** Every handled PENDING payout leaves PENDING, whatever the provider does, even when the
      handler raises. */
  lemma HandledLeavesPending(row: Payout, tx: TxInfo, answer: Answer, now: int, uuid: string)
    requires row.status == PENDING
    ensures HandlePending(row, tx, answer, now, uuid).status != PENDING
  {
  }

  // Without admin retries nothing enters PENDING, and a row that stays PENDING is untouched.
  lemma PendingOnlyKept(row: Payout, ev: PayoutLife.Event)
    requires NoRetry(ev)
    ensures PayoutLife.Apply(row, ev).status == PENDING ==> PayoutLife.Apply(row, ev) == row
    ensures PayoutLife.Apply(row, ev).createdAt == row.createdAt
  {
    if ev.WorkPending? && row.status == PENDING {
      HandledLeavesPending(row, ev.tx, ev.answer, ev.now, ev.uuid);
    }
    if ev.WorkSent? {
      SentStaysOut(row, ev.tx, ev.answer, ev.now);
    }
    hide PendingOutcome, SentOutcome, Settled;
  }

  lemma SentStaysOut(row: Payout, tx: TxInfo, answer: Answer, now: int)
    ensures HandleSent(row, tx, answer, now).status == PENDING ==> HandleSent(row, tx, answer, now) == row
  {
  }

  // What a move without retries may do to the table.
  ghost predicate Drains(rows: Table, after: Table) {
    forall id :: id in rows ==>
      && id in after && after[id].createdAt == rows[id].createdAt
      && (after[id].status == PENDING ==> after[id] == rows[id])
  }

  lemma OnRowsDrains(rows: Table, ids: set<Id>, ev: PayoutLife.Event)
    requires NoRetry(ev)
    ensures Drains(rows, OnRows(rows, ids, ev)) && OnRows(rows, ids, ev).Keys == rows.Keys
  {
    forall id | id in rows
      ensures PayoutLife.Apply(rows[id], ev).status == PENDING ==> PayoutLife.Apply(rows[id], ev) == rows[id]
      ensures PayoutLife.Apply(rows[id], ev).createdAt == rows[id].createdAt
    {
      PendingOnlyKept(rows[id], ev);
    }
    hide PayoutLife.Apply;
  }

  // A claimed row handled at or after its claim.
  lemma ClaimedLeaves(row: Payout, act: PayoutLife.Event, now: int)
    requires act.WorkPending? && act.now >= now && ClaimablePending(row, now)
    ensures PayoutLife.Apply(row, act).status != PENDING
  {
    HandledLeavesPending(row, act.tx, act.answer, act.now, act.uuid);
  }

  lemma {:induction false} RoundDrains(rows: Table, ids: seq<Id>, acts: seq<PayoutLife.Event>, now: int)
    requires |acts| == |ids| && Distinct(ids)
    requires forall i :: 0 <= i < |acts| ==> acts[i].WorkPending? && acts[i].now >= now
    requires forall i :: 0 <= i < |ids| ==> ids[i] in rows && ClaimablePending(rows[ids[i]], now)
    ensures var after := HandleRound(rows, ids, acts);
            && Drains(rows, after) && after.Keys == rows.Keys
            && forall i :: 0 <= i < |ids| ==> after[ids[i]].status != PENDING
    decreases |ids|
  {
    if ids != [] {
      var next := OnRows(rows, {ids[0]}, acts[0]);
      OnRowsDrains(rows, {ids[0]}, acts[0]);
      ClaimedLeaves(rows[ids[0]], acts[0], now);
      forall i | 0 <= i < |ids[1..]|
        ensures ids[1..][i] in next && next[ids[1..][i]] == rows[ids[1..][i]]
      {
        assert ids[i + 1] != ids[0];
      }
      RoundDrains(next, ids[1..], acts[1..], now);
      hide PayoutLife.Apply, OnRows;
      var after := HandleRound(next, ids[1..], acts[1..]);
      assert after == HandleRound(rows, ids, acts);
      forall i | 0 <= i < |ids|
        ensures after[ids[i]].status != PENDING
      {
        if i > 0 { assert ids[i] == ids[1..][i - 1]; }
      }
    }
  }

  function Ids(ids: seq<Id>): set<Id> { set id | id in ids }

  lemma {:induction false} DistinctCount(ids: seq<Id>)
    requires Distinct(ids)
    ensures |Ids(ids)| == |ids|
  {
    if ids == [] {
      assert Ids(ids) == {};
    } else {
      DistinctCount(ids[1..]);
      assert ids == [ids[0]] + ids[1..] && ids[0] !in ids[1..];
      assert Ids(ids) == Ids(ids[1..]) + {ids[0]};
    }
  }

  // If p is left out of a claim, the claim is a full batch of rows not younger than p.
  lemma LeftOut(rows: Table, m: Move, p: Id)
    requires m.Round? && p in rows && rows[p].status == PENDING && Fits(rows, m, p) && p !in m.ids
    ensures |m.ids| == m.limit
    ensures forall i :: 0 <= i < |m.ids| ==> m.ids[i] in Ahead(rows, p)
  {
  }

  lemma AheadShrinks(rows: Table, after: Table, p: Id, ids: seq<Id>)
    requires p in rows && p in after && after[p] == rows[p] && Drains(rows, after) && after.Keys == rows.Keys
    requires Distinct(ids)
    requires forall i :: 0 <= i < |ids| ==>
               ids[i] in Ahead(rows, p) && ids[i] in after && after[ids[i]].status != PENDING
    ensures |Ahead(after, p)| + |ids| <= |Ahead(rows, p)|
  {
    var taken := Ids(ids);
    DistinctCount(ids);
    assert Ahead(after, p) <= Ahead(rows, p) - taken;
    SubsetSize(Ahead(after, p), Ahead(rows, p) - taken);
    assert taken <= Ahead(rows, p);
  }

  lemma RoundDrainsAll(rows: Table, m: Move, p: Id)
    requires m.Round? && p in rows && Fits(rows, m, p)
    ensures Drains(rows, Moved(rows, m)) && Moved(rows, m).Keys == rows.Keys
    ensures forall i :: 0 <= i < |m.ids| ==> m.ids[i] in Moved(rows, m) && Moved(rows, m)[m.ids[i]].status != PENDING
  {
    RoundDrains(rows, m.ids, m.acts, m.now);
  }

  /** A round that leaves p PENDING has taken a full batch of payouts not younger than p. */
  lemma RoundShrinks(rows: Table, m: Move, p: Id)
    requires m.Round? && p in rows && rows[p].status == PENDING && Fits(rows, m, p)
    ensures p in Moved(rows, m)
    ensures Moved(rows, m)[p].status == PENDING ==>
              Moved(rows, m)[p] == rows[p] && |Ahead(Moved(rows, m), p)| + m.limit <= |Ahead(rows, p)|
  {
    RoundDrainsAll(rows, m, p);
    var after := Moved(rows, m);
    if after[p].status == PENDING {
      assert Distinct(m.ids);
      LeftOut(rows, m, p);
      hide Moved, Fits, Ahead;
      AheadShrinks(rows, after, p, m.ids);
    }
  }

  // Nothing else lets a payout in ahead of p.
  lemma OtherMoves(rows: Table, m: Move, p: Id)
    requires !m.Round? && p in rows && rows[p].status == PENDING && Fits(rows, m, p)
    ensures p in Moved(rows, m)
    ensures Moved(rows, m)[p].status == PENDING ==>
              Moved(rows, m)[p] == rows[p] && |Ahead(Moved(rows, m), p)| <= |Ahead(rows, p)|
  {
    if m.Other? { OnRowsDrains(rows, m.targets, m.ev); }
    hide OnRows;
    if Moved(rows, m)[p].status == PENDING {
      assert Ahead(Moved(rows, m), p) <= Ahead(rows, p);
      SubsetSize(Ahead(Moved(rows, m), p), Ahead(rows, p));
    }
  }

  // p is PENDING before and after every move.
  ghost predicate StaysPending(rows: Table, moves: seq<Move>, p: Id, limit: nat)
    decreases |moves|
  {
    && p in rows && rows[p].status == PENDING
    && (moves != [] ==> Fits(rows, moves[0], p) && (moves[0].Round? ==> moves[0].limit == limit)
                        && StaysPending(Moved(rows, moves[0]), moves[1..], p, limit))
  }

  function Rounds(moves: seq<Move>): nat {
    if moves == [] then 0 else (if moves[0].Round? then 1 else 0) + Rounds(moves[1..])
  }

  lemma OneMore(n: nat, limit: nat, before: nat, now: nat)
    requires n * limit < before && before + limit <= now
    ensures (1 + n) * limit < now
  {
    assert (1 + n) * limit == n * limit + limit;
  }

  lemma {:induction false} RoundsAreBounded(rows: Table, moves: seq<Move>, p: Id, limit: nat)
    requires StaysPending(rows, moves, p, limit)
    ensures Rounds(moves) * limit < |Ahead(rows, p)|
    decreases |moves|
  {
    if moves == [] {
      assert p in Ahead(rows, p);
    } else {
      RoundsAreBounded(Moved(rows, moves[0]), moves[1..], p, limit);
      var rest := Rounds(moves[1..]);
      assert Rounds(moves) == (if moves[0].Round? then 1 + rest else rest);
      assert Moved(rows, moves[0])[p].status == PENDING;
      hide Moved, Fits, Ahead, Rounds;
      var after := Moved(rows, moves[0]);
      if moves[0].Round? {
        RoundShrinks(rows, moves[0], p);
        hide *;
        OneMore(rest, limit, |Ahead(after, p)|, |Ahead(rows, p)|);
      } else {
        OtherMoves(rows, moves[0], p);
        hide *;
      }
    }
  }

  /** A PENDING payout with k PENDING ones not younger than it sits through at most k / batch_size
      rounds, however many younger payouts arrive: it leaves PENDING within k / batch_size + 1. */
  lemma NoStarvation(rows: Table, moves: seq<Move>, p: Id, limit: nat)
    requires limit >= 1 && StaysPending(rows, moves, p, limit)
    ensures Rounds(moves) <= |Ahead(rows, p) - {p}| / limit
  {
    RoundsAreBounded(rows, moves, p, limit);
    assert p in Ahead(rows, p);
    var k, n := |Ahead(rows, p) - {p}|, Rounds(moves);
    assert n * limit <= k;
    DivideBound(n, k, limit);
  }

  lemma DivideBound(n: nat, k: nat, d: nat)
    requires d >= 1 && n * d <= k
    ensures n <= k / d
  {
    var q := k / d;
    assert k < (q + 1) * d;
    if q + 1 <= n { TimesMonotone(q + 1, n, d); }
  }
}
