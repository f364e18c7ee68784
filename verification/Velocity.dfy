/**
 Rolling bounds over whole histories: the checks look back from each request, the theorem is
 about every closed 24 hour window.
 */
module Velocity {
  import opened Wrappers
  import opened Calendar
  import opened Fees
  import opened Ledger
  import opened LedgerSteps
  import opened Admission

  /* ---- windows ---- */

  // Transactions of one user and kind inside the closed window [lo, lo + DAY].
  predicate InDay(t: Txn, user: Id, kind: Kind, lo: int) { By(t, user, kind) && lo <= t.createdAt <= lo + DAY }

  function DayCount(log: seq<Txn>, user: Id, kind: Kind, lo: int): nat {
    if log == [] then 0
    else DayCount(log[..|log| - 1], user, kind, lo) + (if InDay(log[|log| - 1], user, kind, lo) then 1 else 0)
  }

  function DayAmount(log: seq<Txn>, user: Id, kind: Kind, lo: int): int {
    if log == [] then 0
    else
      var t := log[|log| - 1];
      DayAmount(log[..|log| - 1], user, kind, lo) + (if InDay(t, user, kind, lo) then t.amount else 0)
  }

  predicate ReceivesInDay(t: Txn, payouts: map<Id, PayoutRow>, user: Id, lo: int) {
    InDay(t, user, CASHOUT, lo) && t.id in payouts && HasPhone(payouts[t.id])
  }

  // Distinct non-empty phones that the user's cash-outs in the window paid.
  function DayReceivers(log: seq<Txn>, payouts: map<Id, PayoutRow>, user: Id, lo: int): set<string> {
    set i | 0 <= i < |log| && ReceivesInDay(log[i], payouts, user, lo) :: payouts[log[i].id].phone.value
  }

  /* ---- what a step adds to the log ---- */

  ghost predicate Appends(s: Site, after: Site, t: Txn) { after.db.log == s.db.log + [t] && t.amount > 0 }

  // A cash-out adds its transaction together with its payout row.
  ghost predicate AddsCashOut(s: Site, after: Site, r: Request, t: Txn)
    requires IsPayment(r)
  {
    && Appends(s, after, t) && Describes(t, CASHOUT, r.ids.txn, r.user, r.now, r.key) && t.amount == r.body.amount
    && !TxnIdUsed(s.db.log, t.id)
    && after.payouts == AddPayout(s.payouts, t.id, RowOf(r))
  }

  // Each payout row belongs to a posted transaction, each cash-out has one of its own instant.
  ghost predicate Paired(s: Site) {
    && Distinct(s.db.accounts)
    && (forall id :: id in s.payouts ==> TxnIdUsed(s.db.log, id))
    && (forall i, j :: 0 <= i < j < |s.db.log| ==> s.db.log[i].id != s.db.log[j].id)
    && (forall t :: t in s.db.log && t.kind == CASHOUT ==>
          t.id in s.payouts && s.payouts[t.id].createdAt == t.createdAt)
    && (forall t :: t in s.db.log ==> t.amount > 0)
  }

  lemma FoundIsUsed(log: seq<Txn>, key: string)
    requires FindKey(log, key).Some?
    ensures TxnIdUsed(log, FindKey(log, key).value)
  {
  }

  // A cash-out call is recalled, refused, or accepted after the velocity check.
  lemma BeginShape(cfg: Config, caps: Caps, s: Site, number: nat, r: Request)
    requires IsPayment(r)
    ensures var taken := BeginCashOut(cfg, caps, s, number, r);
            var recalled := Recalled(s, r.user, r.key, CASH_OUT_ROUTE, r.body);
            var posted := CashOut(cfg, s.db, CashOutReqOf(r));
            && taken.0.idem == s.idem
            && (if recalled.Some? then taken == (s, recalled.value)
                else
                  || (taken.0 == s && !taken.1.Answered? && taken.1 != Conflict409)
                  || (&& posted.1.Returned? && posted.1.id.Some? && taken.1 == Silent && taken.0.db == posted.0
                      && CashOutVelocityOk(caps, s, r.user, r.body.amount, r.body.phone, r.now)
                      && taken.0.payouts == AddPayout(s.payouts, posted.1.id.value, RowOf(r))
                      && taken.0.open
                         == s.open[number := Open(r.user, r.key, r.body, Response(posted.1.id, Some(r.quote)))]))
  {
  }

  // A cash-out that changes no row answers with the transaction that holds its key.
  lemma UnchangedAnswersKey(cfg: Config, db: Db, r: CashOutReq)
    requires CashOut(cfg, db, r).0 == db && CashOut(cfg, db, r).1.Returned?
    ensures CashOut(cfg, db, r).1.id == FindKey(db.log, r.key)
  {
  }

  lemma MovePosts(db: Db, after: Db, t: Txn, ids: FreshIds, m: Move)
    requires Moved(db, after, t, ids, m)
    ensures after.log == db.log + [t] && t.amount == m.amount > 0 && Distinct(after.accounts)
    ensures !TxnIdUsed(db.log, t.id) && FindKey(db.log, t.key).None?
  {
    hide DistinctEntryIds, EntryIdUsed;
  }

  // An accepted cash-out either repeats a posted key or posts once, with its payout row.
  lemma CashOutStep(cfg: Config, caps: Caps, s: Site, number: nat, r: Request) returns (t: Txn, m: Move)
    requires Distinct(s.db.accounts) && IsPayment(r)
    ensures var after := BeginCashOut(cfg, caps, s, number, r).0;
            if after.db == s.db then
              after.payouts == s.payouts
              || (FindKey(s.db.log, r.key).Some?
                  && after.payouts == AddPayout(s.payouts, FindKey(s.db.log, r.key).value, RowOf(r)))
            else
              && AddsCashOut(s, after, r, t) && Moved(s.db, after.db, t, r.ids, m)
              && FindKey(s.db.log, r.key).None?
              && m.payer == r.body.wallet && m.amount == r.body.amount && m.fee == CashOutFee(cfg, CashOutReqOf(r))
              && CashOutVelocityOk(caps, s, r.user, r.body.amount, r.body.phone, r.now)
  {
    t, m := *, *;
    hide BeginCashOut, CashOut, CashOutVelocityOk, Recalled, FindKey, Distinct;
    BeginShape(cfg, caps, s, number, r);
    var after, posted := BeginCashOut(cfg, caps, s, number, r).0, CashOut(cfg, s.db, CashOutReqOf(r));
    if after.db != s.db {
      t, m := CashOutMoves(cfg, s.db, CashOutReqOf(r));
      MovePosts(s.db, after.db, t, r.ids, m);
      hide Moved;
    } else if posted.0 == s.db && posted.1.Returned? {
      UnchangedAnswersKey(cfg, s.db, CashOutReqOf(r));
    }
  }

  lemma CashInStep(cfg: Config, caps: Caps, s: Site, r: Request) returns (t: Txn)
    requires Distinct(s.db.accounts) && IsPayment(r)
    ensures var after := CashInRoute(cfg, caps, s, r).0;
            && after.payouts == s.payouts && after.open == s.open
            && (after.db != s.db ==>
                  && Appends(s, after, t) && Describes(t, CASHIN, r.ids.txn, r.user, r.now, r.key)
                  && t.amount == r.body.amount && !TxnIdUsed(s.db.log, t.id) && Distinct(after.db.accounts)
                  && CashInVelocityOk(caps, s, r.user, r.body.amount, r.now))
  {
    t := *;
    var after := CashInRoute(cfg, caps, s, r).0;
    if after.db != s.db {
      var m;
      t, m := CashInMoves(s.db, CashInReqOf(r));
    }
  }

  lemma OtherStep(cfg: Config, caps: Caps, s: Site, step: Step) returns (t: Txn)
    requires Distinct(s.db.accounts) && step.Other? && Enabled(s, step)
    ensures var after := Take(cfg, caps, s, step).0;
            && after.payouts == s.payouts && after.open == s.open && Distinct(after.db.accounts)
            && (after.db.log == s.db.log
                || (Appends(s, after, t) && t.kind == P2P && !TxnIdUsed(s.db.log, t.id) && step.op.OpP2P?
                    && t.key == step.op.p2p.key))
  {
    var ids, m;
    t, ids, m := StepShape(cfg, s.db, step.op);
    hide CashIn, CashOut, UniqueViolation, DistinctEntryIds;
    if step.op.OpP2P? && Ledger.Apply(cfg, s.db, step.op).0 != s.db {
      t, m := TransferMoves(cfg, s.db, step.op.p2p);
    }
  }

  /* ---- pairing of cash-outs and payout rows ---- */

  lemma AppendPairs(s: Site, after: Site, t: Txn)
    requires Paired(s) && Appends(s, after, t) && !TxnIdUsed(s.db.log, t.id) && Distinct(after.db.accounts)
    requires if t.kind == CASHOUT
             then exists row :: after.payouts == AddPayout(s.payouts, t.id, row) && row.createdAt == t.createdAt
             else after.payouts == s.payouts
    ensures Paired(after)
  {
  }

  lemma ReplayPairs(s: Site, after: Site, id: Id, row: PayoutRow)
    requires Paired(s) && after.db == s.db && TxnIdUsed(s.db.log, id)
    requires after.payouts == AddPayout(s.payouts, id, row)
    ensures Paired(after)
    ensures forall t :: t in s.db.log && t.kind == CASHOUT ==>
              t.id in s.payouts && t.id in after.payouts && after.payouts[t.id] == s.payouts[t.id]
  {
  }

  /* ---- the bounds ---- */

  ghost predicate CountBound(caps: Caps, s: Site) {
    caps.count > 0 ==> forall u, lo :: DayCount(s.db.log, u, CASHOUT, lo) <= caps.count
  }

  ghost predicate AmountBound(caps: Caps, s: Site) {
    caps.amount > 0 ==> forall u, lo :: DayAmount(s.db.log, u, CASHOUT, lo) <= caps.amount
  }

  ghost predicate CashInBound(caps: Caps, s: Site) {
    caps.cashIn > 0 ==> forall u, lo :: DayAmount(s.db.log, u, CASHIN, lo) <= caps.cashIn
  }

  ghost predicate ReceiverBound(caps: Caps, s: Site) {
    caps.receivers > 0 ==> forall u, lo :: |DayReceivers(s.db.log, s.payouts, u, lo)| <= caps.receivers
  }

  ghost predicate Bounded(caps: Caps, s: Site) {
    CountBound(caps, s) && AmountBound(caps, s) && CashInBound(caps, s) && ReceiverBound(caps, s)
  }

  lemma {:induction false} CountLooksBack(log: seq<Txn>, u: Id, kind: Kind, lo: int, since: int)
    requires since <= lo
    ensures DayCount(log, u, kind, lo) <= CountFrom(log, u, kind, since)
  {
    if log != [] { CountLooksBack(log[..|log| - 1], u, kind, lo, since); }
  }

  lemma {:induction false} AmountLooksBack(log: seq<Txn>, u: Id, kind: Kind, lo: int, since: int)
    requires since <= lo && forall t :: t in log ==> t.amount > 0
    ensures DayAmount(log, u, kind, lo) <= AmountFrom(log, u, kind, since)
  {
    if log != [] { AmountLooksBack(log[..|log| - 1], u, kind, lo, since); }
  }

  lemma Appended(log: seq<Txn>, t: Txn, u: Id, kind: Kind, lo: int)
    ensures DayCount(log + [t], u, kind, lo) == DayCount(log, u, kind, lo) + (if InDay(t, u, kind, lo) then 1 else 0)
    ensures DayAmount(log + [t], u, kind, lo)
            == DayAmount(log, u, kind, lo) + (if InDay(t, u, kind, lo) then t.amount else 0)
  {
  }

  lemma SumsStayBounded(caps: Caps, s: Site, after: Site, t: Txn, now: nat)
    requires Paired(s) && CountBound(caps, s) && AmountBound(caps, s) && CashInBound(caps, s) && Appends(s, after, t)
    requires t.kind == CASHOUT ==>
               t.createdAt == now && CashOutVelocityOk(caps, s, t.createdBy, t.amount, None, now)
    requires t.kind == CASHIN ==> t.createdAt == now && CashInVelocityOk(caps, s, t.createdBy, t.amount, now)
    ensures CountBound(caps, after) && AmountBound(caps, after) && CashInBound(caps, after)
  {
    var log := s.db.log;
    forall u, lo
      ensures caps.count > 0 ==> DayCount(after.db.log, u, CASHOUT, lo) <= caps.count
      ensures caps.amount > 0 ==> DayAmount(after.db.log, u, CASHOUT, lo) <= caps.amount
      ensures caps.cashIn > 0 ==> DayAmount(after.db.log, u, CASHIN, lo) <= caps.cashIn
    {
      Appended(log, t, u, CASHOUT, lo);
      Appended(log, t, u, CASHIN, lo);
      if InDay(t, u, CASHOUT, lo) {
        CountLooksBack(log, u, CASHOUT, lo, now - DAY);
        AmountLooksBack(log, u, CASHOUT, lo, now - DAY);
      }
      if InDay(t, u, CASHIN, lo) {
        AmountLooksBack(log, u, CASHIN, lo, now - DAY);
      }
    }
  }

  // Nothing is recorded after the present.
  ghost predicate Before(s: Site, now: int) { forall t :: t in s.db.log ==> t.createdAt <= now }

  lemma InReceivers(log: seq<Txn>, payouts: map<Id, PayoutRow>, u: Id, lo: int, i: nat)
    requires i < |log| && ReceivesInDay(log[i], payouts, u, lo)
    ensures payouts[log[i].id].phone.value in DayReceivers(log, payouts, u, lo)
  {
  }

  // A window that ends at or after now holds no receiver that the look-back does not see.
  lemma ReceiversLookBack(s: Site, u: Id, lo: int, now: int)
    requires Paired(s) && Before(s, now) && now - DAY <= lo
    ensures DayReceivers(s.db.log, s.payouts, u, lo) <= ReceiversFrom(s.db.log, s.payouts, u, now - DAY)
    ensures ReceiversFrom(s.db.log, s.payouts, u, now - DAY) == DayReceivers(s.db.log, s.payouts, u, now - DAY)
  {
  }

  // Only the new transaction can bring a new phone.
  lemma ReceiversGrow(s: Site, after: Site, r: Request, t: Txn, u: Id, lo: int)
    requires Paired(s) && IsPayment(r) && AddsCashOut(s, after, r, t)
    ensures var before := DayReceivers(s.db.log, s.payouts, u, lo);
            var grown := DayReceivers(after.db.log, after.payouts, u, lo);
            if InDay(t, u, CASHOUT, lo) && HasPhone(RowOf(r)) then grown <= before + {r.body.phone.value}
            else grown <= before
  {
  }

  // The look-back leaves room for this request's phone.
  ghost predicate RoomFor(caps: Caps, s: Site, r: Request)
    requires IsPayment(r)
  {
    var known := DayReceivers(s.db.log, s.payouts, r.user, r.now - DAY);
    HasPhone(RowOf(r)) ==> |known + {RowOf(r).phone.value}| <= caps.receivers
  }

  lemma CheckLeavesRoom(caps: Caps, s: Site, r: Request)
    requires caps.receivers > 0 && Paired(s) && ReceiverBound(caps, s) && Before(s, r.now) && IsPayment(r)
    requires CashOutVelocityOk(caps, s, r.user, r.body.amount, r.body.phone, r.now)
    ensures RoomFor(caps, s, r)
  {
    hide CashOutVelocityOk, Paired, Before, DayReceivers, ReceiversFrom;
    var since := r.now - DAY;
    var known := DayReceivers(s.db.log, s.payouts, r.user, since);
    assert |known| <= caps.receivers;
    ReceiversLookBack(s, r.user, since, r.now);
    if HasPhone(RowOf(r)) {
      var phone := r.body.phone.value;
      ReceiverCheck(caps, s, r.user, r.body.amount, phone, r.now);
      assert known == ReceiversFrom(s.db.log, s.payouts, r.user, since);
      AddOne(known, phone, caps.receivers);
    }
  }

  lemma ReceiverCheck(caps: Caps, s: Site, user: Id, amount: int, phone: string, now: nat)
    requires caps.receivers > 0 && phone != "" && CashOutVelocityOk(caps, s, user, amount, Some(phone), now)
    ensures var known := ReceiversFrom(s.db.log, s.payouts, user, now - DAY);
            phone in known || |known| < caps.receivers
  {
  }

  lemma ReceiversStayBounded(caps: Caps, s: Site, after: Site, r: Request, t: Txn)
    requires Paired(s) && ReceiverBound(caps, s) && Before(s, r.now) && IsPayment(r) && AddsCashOut(s, after, r, t)
    requires CashOutVelocityOk(caps, s, r.user, r.body.amount, r.body.phone, r.now)
    ensures ReceiverBound(caps, after)
  {
    if caps.receivers > 0 {
      CheckLeavesRoom(caps, s, r);
      forall u, lo
        ensures |DayReceivers(after.db.log, after.payouts, u, lo)| <= caps.receivers
      {
        assert |DayReceivers(s.db.log, s.payouts, u, lo)| <= caps.receivers;
        OneUserReceivers(caps, s, after, r, t, u, lo);
      }
    }
  }

  lemma OneUserReceivers(caps: Caps, s: Site, after: Site, r: Request, t: Txn, u: Id, lo: int)
    requires Paired(s) && Before(s, r.now) && IsPayment(r) && AddsCashOut(s, after, r, t) && RoomFor(caps, s, r)
    requires |DayReceivers(s.db.log, s.payouts, u, lo)| <= caps.receivers
    ensures |DayReceivers(after.db.log, after.payouts, u, lo)| <= caps.receivers
  {
    hide Paired, Before, DayReceivers, AddPayout, ReceiversFrom;
    var phone := RowOf(r).phone;
    var grown := DayReceivers(after.db.log, after.payouts, u, lo);
    var known := DayReceivers(s.db.log, s.payouts, u, r.now - DAY);
    ReceiversGrow(s, after, r, t, u, lo);
    if InDay(t, u, CASHOUT, lo) && HasPhone(RowOf(r)) {
      ReceiversLookBack(s, u, lo, r.now);
      assert grown <= known + {phone.value} && |known + {phone.value}| <= caps.receivers;
      hide *;
      SubsetSize(grown, known + {phone.value});
    } else {
      SubsetSize(grown, DayReceivers(s.db.log, s.payouts, u, lo));
    }
  }

  lemma AddOne(known: set<string>, phone: string, cap: int)
    requires |known| <= cap && (phone in known || |known| < cap)
    ensures |known + {phone}| <= cap
  {
  }

  lemma SameReceivers(s: Site, after: Site, u: Id, lo: int)
    requires after.db.log == s.db.log
    requires forall t :: t in s.db.log && t.kind == CASHOUT ==>
               t.id in s.payouts && t.id in after.payouts && after.payouts[t.id] == s.payouts[t.id]
    ensures DayReceivers(after.db.log, after.payouts, u, lo) == DayReceivers(s.db.log, s.payouts, u, lo)
  {
  }

  // A posting that is not a cash-out adds no receiver.
  lemma NoNewReceivers(caps: Caps, s: Site, after: Site, t: Txn)
    requires Paired(s) && ReceiverBound(caps, s) && Appends(s, after, t) && t.kind != CASHOUT
    requires after.payouts == s.payouts
    ensures ReceiverBound(caps, after)
  {
    forall u, lo
      ensures DayReceivers(after.db.log, after.payouts, u, lo) == DayReceivers(s.db.log, s.payouts, u, lo)
    {
      forall i | 0 <= i < |s.db.log| && ReceivesInDay(s.db.log[i], s.payouts, u, lo)
        ensures s.payouts[s.db.log[i].id].phone.value in DayReceivers(after.db.log, after.payouts, u, lo)
      {
        assert after.db.log[i] == s.db.log[i];
        InReceivers(after.db.log, after.payouts, u, lo, i);
      }
      forall i | 0 <= i < |after.db.log| && ReceivesInDay(after.db.log[i], after.payouts, u, lo)
        ensures after.payouts[after.db.log[i].id].phone.value in DayReceivers(s.db.log, s.payouts, u, lo)
      {
        assert i < |s.db.log| && after.db.log[i] == s.db.log[i];
        InReceivers(s.db.log, s.payouts, u, lo, i);
      }
    }
  }

  /* ---- whole runs ---- */

  // One clock, never behind a recorded posting.
  ghost predicate Timely(s: Site, step: Step) {
    match step
    case CashOutCall(_, r) => Before(s, r.now)
    case CashInCall(r) => Before(s, r.now)
    case _ => true
  }

  ghost predicate TimelyRun(cfg: Config, caps: Caps, s: Site, steps: seq<Step>)
    requires EnabledRun(cfg, caps, s, steps)
    decreases |steps|
  {
    steps != [] ==> Timely(s, steps[0]) && TimelyRun(cfg, caps, Take(cfg, caps, s, steps[0]).0, steps[1..])
  }

  ghost predicate Good(caps: Caps, s: Site) { Paired(s) && Bounded(caps, s) }

  lemma CashOutKeeps(cfg: Config, caps: Caps, s: Site, number: nat, r: Request)
    requires Good(caps, s) && IsPayment(r) && Before(s, r.now)
    ensures Good(caps, BeginCashOut(cfg, caps, s, number, r).0)
  {
    assert Distinct(s.db.accounts);
    hide BeginCashOut, CashOutVelocityOk, Good, Moved, FindKey, AddPayout, AddsCashOut, Before, Distinct;
    var after := BeginCashOut(cfg, caps, s, number, r).0;
    var t, m := CashOutStep(cfg, caps, s, number, r);
    if after.db == s.db {
      if after.payouts == s.payouts {
        SameTables(caps, s, after);
      } else {
        FoundIsUsed(s.db.log, r.key);
        ReplayKeeps(caps, s, after, FindKey(s.db.log, r.key).value, RowOf(r));
      }
    } else {
      MovePosts(s.db, after.db, t, r.ids, m);
      PostKeeps(caps, s, after, r, t);
    }
  }

  lemma SameTables(caps: Caps, s: Site, after: Site)
    requires Good(caps, s) && after.db == s.db && after.payouts == s.payouts
    ensures Good(caps, after)
  {
  }

  lemma ReplayKeeps(caps: Caps, s: Site, after: Site, id: Id, row: PayoutRow)
    requires Good(caps, s) && after.db == s.db && TxnIdUsed(s.db.log, id)
    requires after.payouts == AddPayout(s.payouts, id, row)
    ensures Good(caps, after)
  {
    ReplayPairs(s, after, id, row);
    forall u, lo
      ensures DayReceivers(after.db.log, after.payouts, u, lo) == DayReceivers(s.db.log, s.payouts, u, lo)
    {
      SameReceivers(s, after, u, lo);
    }
  }

  lemma PostKeeps(caps: Caps, s: Site, after: Site, r: Request, t: Txn)
    requires Good(caps, s) && IsPayment(r) && Before(s, r.now) && AddsCashOut(s, after, r, t)
    requires CashOutVelocityOk(caps, s, r.user, r.body.amount, r.body.phone, r.now) && Distinct(after.db.accounts)
    ensures Good(caps, after)
  {
    AppendPairs(s, after, t);
    NoPhoneStillOk(caps, s, r.user, r.body.amount, r.body.phone, r.now);
    hide CashOutVelocityOk;
    SumsStayBounded(caps, s, after, t, r.now);
    ReceiversStayBounded(caps, s, after, r, t);
  }

  lemma NoPhoneStillOk(caps: Caps, s: Site, user: Id, amount: int, phone: Option<string>, now: nat)
    requires CashOutVelocityOk(caps, s, user, amount, phone, now)
    ensures CashOutVelocityOk(caps, s, user, amount, None, now)
  {
  }

  lemma CashInKeeps(cfg: Config, caps: Caps, s: Site, r: Request)
    requires Good(caps, s) && IsPayment(r)
    ensures Good(caps, CashInRoute(cfg, caps, s, r).0)
  {
    var after := CashInRoute(cfg, caps, s, r).0;
    var t := CashInStep(cfg, caps, s, r);
    hide CashInRoute;
    if after.db != s.db {
      AppendPairs(s, after, t);
      SumsStayBounded(caps, s, after, t, r.now);
      NoNewReceivers(caps, s, after, t);
    }
  }

  lemma OtherKeeps(cfg: Config, caps: Caps, s: Site, step: Step)
    requires Good(caps, s) && step.Other? && Enabled(s, step)
    ensures Good(caps, Take(cfg, caps, s, step).0)
  {
    var after := Take(cfg, caps, s, step).0;
    var t := OtherStep(cfg, caps, s, step);
    hide Take;
    if after.db.log != s.db.log {
      AppendPairs(s, after, t);
      SumsStayBounded(caps, s, after, t, 0);
      NoNewReceivers(caps, s, after, t);
    }
  }

  lemma StepKeepsGood(cfg: Config, caps: Caps, s: Site, step: Step)
    requires Good(caps, s) && Enabled(s, step) && Timely(s, step)
    ensures Good(caps, Take(cfg, caps, s, step).0)
  {
    match step
    case CashOutCall(number, r) => CashOutKeeps(cfg, caps, s, number, r);
    case CashInCall(r) => CashInKeeps(cfg, caps, s, r);
    case Other(_, _) => OtherKeeps(cfg, caps, s, step);
    case _ =>
  }

  lemma {:induction false} RunKeepsGood(cfg: Config, caps: Caps, s: Site, steps: seq<Step>)
    requires Good(caps, s) && EnabledRun(cfg, caps, s, steps) && TimelyRun(cfg, caps, s, steps)
    ensures Good(caps, RunSite(cfg, caps, s, steps))
    decreases |steps|
  {
    if steps != [] {
      StepKeepsGood(cfg, caps, s, steps[0]);
      RunKeepsGood(cfg, caps, Take(cfg, caps, s, steps[0]).0, steps[1..]);
    }
  }

  /** In every history, crashes and retries included, every closed 24 hour window of one user's
      cash-outs holds at most the allowed number, total and distinct receivers, and every window of
      their cash-ins at most the allowed total. */
  lemma RollingBounds(cfg: Config, caps: Caps, steps: seq<Step>, user: Id, lo: int)
    requires EnabledRun(cfg, caps, NEW_SITE, steps) && TimelyRun(cfg, caps, NEW_SITE, steps)
    ensures var s := RunSite(cfg, caps, NEW_SITE, steps);
            && (caps.count > 0 ==> DayCount(s.db.log, user, CASHOUT, lo) <= caps.count)
            && (caps.amount > 0 ==> DayAmount(s.db.log, user, CASHOUT, lo) <= caps.amount)
            && (caps.receivers > 0 ==> |DayReceivers(s.db.log, s.payouts, user, lo)| <= caps.receivers)
            && (caps.cashIn > 0 ==> DayAmount(s.db.log, user, CASHIN, lo) <= caps.cashIn)
  {
    EmptyIsGood(caps);
    RunKeepsGood(cfg, caps, NEW_SITE, steps);
  }

  lemma EmptyIsGood(caps: Caps)
    ensures Good(caps, NEW_SITE)
  {
  }
}
