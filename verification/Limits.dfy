/**
 Daily and monthly limits over every history.
 */
module Limits {
  import opened Wrappers
  import opened Calendar
  import opened Fees
  import opened Ledger
  import opened LedgerSteps
  import opened LedgerProofs

  // The principal that account `a` paid in a window, fees excluded.
  function Principal(log: seq<Txn>, a: Id, kinds: set<Kind>, w: Window): int {
    if log == [] then 0
    else
      var t := log[|log| - 1];
      Principal(log[..|log| - 1], a, kinds, w)
      + (if Counts(t, kinds, w) && DebitsOf(t.entries, a) > 0 then t.amount else 0)
  }

  // The fee of the last transaction that account `a` paid in a window.
  function LastFee(log: seq<Txn>, a: Id, kinds: set<Kind>, w: Window): int {
    if log == [] then 0
    else
      var t := log[|log| - 1];
      if Counts(t, kinds, w) && DebitsOf(t.entries, a) > 0 then DebitsOf(t.entries, a) - t.amount
      else LastFee(log[..|log| - 1], a, kinds, w)
  }

  // Debits without the last fee stay within the limit, and so does the principal.
  ghost predicate Capped(log: seq<Txn>, a: Id, kinds: set<Kind>, w: Window, limit: int) {
    var debits := SumDebits(log, a, kinds, w);
    var last := LastFee(log, a, kinds, w);
    && 0 <= Principal(log, a, kinds, w)
    && 0 <= last
    && Principal(log, a, kinds, w) + last <= debits
    && (debits > 0 ==> debits - last <= limit)
  }

  lemma LegsDebits(ids: FreshIds, m: Move, a: Id)
    ensures DebitsOf(Legs(ids, m.payer, m.payee, m.feeAccount, m.amount, m.fee), a)
            == if a == m.payer then m.amount + m.fee else 0
  {
    var es := Legs(ids, m.payer, m.payee, m.feeAccount, m.amount, m.fee);
    assert es[1..][0] == es[1];
    assert DebitsOf(es[1..], a) == DebitsOf(es[1..][1..], a);
    if m.fee > 0 {
      assert es[1..][1..] == [es[2]];
      assert DebitsOf([es[2]], a) == 0;
    } else {
      assert es[1..][1..] == [];
    }
  }

  lemma CappedStep(log: seq<Txn>, t: Txn, ids: FreshIds, m: Move, a: Id, kinds: set<Kind>, w: Window, limit: int)
    requires Capped(log, a, kinds, w, limit)
    requires t.entries == Legs(ids, m.payer, m.payee, m.feeAccount, m.amount, m.fee)
    requires t.amount == m.amount > 0 && m.fee >= 0
    requires Counts(t, kinds, w) && a == m.payer ==> SumDebits(log, a, kinds, w) + m.amount <= limit
    ensures Capped(log + [t], a, kinds, w, limit)
  {
    LegsDebits(ids, m, a);
    assert (log + [t])[..|log|] == log;
  }

  lemma {:induction false} UnusedIsCapped(log: seq<Txn>, a: Id, kinds: set<Kind>, w: Window, limit: int)
    requires forall t, e :: t in log && e in t.entries ==> e.account != a
    ensures SumDebits(log, a, kinds, w) == 0 && Capped(log, a, kinds, w, limit)
  {
    if log != [] {
      UnusedIsCapped(log[..|log| - 1], a, kinds, w, limit);
      NoDebits(log[|log| - 1].entries, a);
    }
  }

  lemma {:induction false} NoDebits(es: seq<Entry>, a: Id)
    requires forall e :: e in es ==> e.account != a
    ensures DebitsOf(es, a) == 0
  {
    if es != [] {
      NoDebits(es[1..], a);
    }
  }

  ghost predicate CashOutCapped(cfg: Config, db: Db, acc: Account, at: nat) {
    var lim := LimitsOf(cfg, acc.ownerId);
    lim.Some? ==> Capped(db.log, acc.id, {CASHOUT}, DayWindow(at), lim.value.dailyCashout)
  }

  ghost predicate SendCapped(cfg: Config, db: Db, acc: Account, at: nat) {
    var lim := LimitsOf(cfg, acc.ownerId);
    lim.Some? ==>
      && Capped(db.log, acc.id, SEND_KINDS, DayWindow(at), lim.value.dailySend)
      && Capped(db.log, acc.id, SEND_KINDS, MonthWindow(at), lim.value.monthlySend)
  }

  ghost predicate WithinLimits(cfg: Config, db: Db) {
    forall acc, at: nat :: acc in db.accounts && acc.kind == WALLET ==>
      CashOutCapped(cfg, db, acc, at) && SendCapped(cfg, db, acc, at)
  }

  // The owner's limit was checked against the window of the posting's own instant.
  lemma CashOutChecked(cfg: Config, db: Db, r: CashOutReq, acc: Account)
    requires Distinct(db.accounts) && acc in db.accounts && acc.id == r.wallet
    requires CashOutVerdict(cfg, db, r) == Go
    ensures var lim := LimitsOf(cfg, acc.ownerId);
            lim.Some? && SumDebits(db.log, acc.id, {CASHOUT}, DayWindow(r.now)) + r.amount <= lim.value.dailyCashout
  {
  }

  lemma P2PChecked(cfg: Config, db: Db, r: P2PReq, acc: Account)
    requires Distinct(db.accounts) && acc in db.accounts && acc.id == r.sender
    requires P2PVerdict(cfg, db, r) == Go
    ensures var lim := LimitsOf(cfg, acc.ownerId);
            && lim.Some?
            && SumDebits(db.log, acc.id, SEND_KINDS, DayWindow(r.now)) + r.amount <= lim.value.dailySend
            && SumDebits(db.log, acc.id, SEND_KINDS, MonthWindow(r.now)) + r.amount <= lim.value.monthlySend
  {
  }

  // A movement whose own checks passed keeps every window of an existing wallet capped.
  ghost predicate Checked(cfg: Config, db: Db, t: Txn, m: Move) {
    forall acc :: acc in db.accounts && acc.id == m.payer && acc.kind == WALLET ==>
      var lim := LimitsOf(cfg, acc.ownerId);
      && (t.kind == CASHOUT ==>
            lim.Some?
            && SumDebits(db.log, acc.id, {CASHOUT}, DayWindow(t.createdAt)) + m.amount <= lim.value.dailyCashout)
      && (t.kind == P2P ==>
            lim.Some?
            && SumDebits(db.log, acc.id, SEND_KINDS, DayWindow(t.createdAt)) + m.amount <= lim.value.dailySend
            && SumDebits(db.log, acc.id, SEND_KINDS, MonthWindow(t.createdAt)) + m.amount <= lim.value.monthlySend)
  }

  lemma MoveKeepsCashOut(cfg: Config, db: Db, db': Db, t: Txn, ids: FreshIds, m: Move, acc: Account, at: nat)
    requires Moved(db, db', t, ids, m) && Checked(cfg, db, t, m)
    requires acc in db.accounts && acc.kind == WALLET && CashOutCapped(cfg, db, acc, at)
    ensures CashOutCapped(cfg, db', acc, at)
  {
    var lim := LimitsOf(cfg, acc.ownerId);
    if lim.Some? {
      if DayWindow(at).Has(t.createdAt) {
        DayWindowsPartition(at, t.createdAt);
      }
      CappedStep(db.log, t, ids, m, acc.id, {CASHOUT}, DayWindow(at), lim.value.dailyCashout);
    }
  }

  lemma MoveKeepsSend(cfg: Config, db: Db, db': Db, t: Txn, ids: FreshIds, m: Move, acc: Account, at: nat)
    requires Moved(db, db', t, ids, m) && Checked(cfg, db, t, m)
    requires acc in db.accounts && acc.kind == WALLET && SendCapped(cfg, db, acc, at)
    ensures SendCapped(cfg, db', acc, at)
  {
    var lim := LimitsOf(cfg, acc.ownerId);
    if lim.Some? {
      if DayWindow(at).Has(t.createdAt) {
        DayWindowsPartition(at, t.createdAt);
      }
      CappedStep(db.log, t, ids, m, acc.id, SEND_KINDS, DayWindow(at), lim.value.dailySend);
      if MonthWindow(at).Has(t.createdAt) {
        MonthWindowsPartition(at, t.createdAt);
      }
      CappedStep(db.log, t, ids, m, acc.id, SEND_KINDS, MonthWindow(at), lim.value.monthlySend);
    }
  }

  lemma NewAccountCapped(cfg: Config, log: seq<Txn>, acc: Account, at: nat, db: Db)
    requires db.log == log && forall t, e :: t in log && e in t.entries ==> e.account != acc.id
    ensures CashOutCapped(cfg, db, acc, at) && SendCapped(cfg, db, acc, at)
  {
    var lim := LimitsOf(cfg, acc.ownerId);
    if lim.Some? {
      UnusedIsCapped(log, acc.id, {CASHOUT}, DayWindow(at), lim.value.dailyCashout);
      UnusedIsCapped(log, acc.id, SEND_KINDS, DayWindow(at), lim.value.dailySend);
      UnusedIsCapped(log, acc.id, SEND_KINDS, MonthWindow(at), lim.value.monthlySend);
    }
  }

  // An account that is new after a step has no wallet debits: it is a system account,
  // or it was opened without entries.
  lemma OldOrNew(accounts: seq<Account>, accounts': seq<Account>, acc: Account)
    requires Extends(accounts, accounts') && Distinct(accounts') && acc in accounts'
    ensures acc in accounts || !AccountIdUsed(accounts, acc.id)
  {
  }

  lemma OpIsChecked(cfg: Config, db: Db, op: Op) returns (t: Txn, ids: FreshIds, m: Move)
    requires Distinct(db.accounts)
    ensures var db' := Apply(cfg, db, op).0;
            db' == db || Grown(db, db') ||
            (Moved(db, db', t, ids, m) && Checked(cfg, db, t, m) && NewWallets(db, db'))
  {
    t, ids, m := *, *, *;
    var db' := Apply(cfg, db, op).0;
    if db' != db {
      match op
      case OpOpen(_) => t, ids, m := StepShape(cfg, db, op);
      case OpRegister(_, _, _, _) => t, ids, m := StepShape(cfg, db, op);
      case OpCashIn(r) =>
        t, m := CashInMoves(db, r); ids := r.ids;
        CashInAddsNoWallet(db, r);
      case OpCashOut(r) => t, m := CashOutIsChecked(cfg, db, r); ids := r.ids;
      case OpP2P(r) => t, m := TransferIsChecked(cfg, db, r); ids := r.ids;
    }
  }

  lemma CashOutIsChecked(cfg: Config, db: Db, r: CashOutReq) returns (t: Txn, m: Move)
    requires Distinct(db.accounts) && CashOut(cfg, db, r).0 != db
    ensures var db' := CashOut(cfg, db, r).0;
            Moved(db, db', t, r.ids, m) && Checked(cfg, db, t, m) && NewWallets(db, db')
  {
    t, m := CashOutMoves(cfg, db, r);
    CashOutAddsNoWallet(cfg, db, r);
    forall acc | acc in db.accounts && acc.id == m.payer { CashOutChecked(cfg, db, r, acc); }
    hide CashOut, Moved, NewWallets, SumDebits;
  }

  lemma TransferIsChecked(cfg: Config, db: Db, r: P2PReq) returns (t: Txn, m: Move)
    requires Distinct(db.accounts) && Transfer(cfg, db, r).0 != db
    ensures var db' := Transfer(cfg, db, r).0;
            Moved(db, db', t, r.ids, m) && Checked(cfg, db, t, m) && NewWallets(db, db')
  {
    t, m := TransferMoves(cfg, db, r);
    TransferAddsNoWallet(cfg, db, r);
    forall acc | acc in db.accounts && acc.id == m.payer { P2PChecked(cfg, db, r, acc); }
    hide Transfer, Moved, NewWallets, SumDebits;
  }

  // Postings add system accounts only.
  ghost predicate NewWallets(db: Db, db': Db) {
    forall acc :: acc in db'.accounts && acc.kind == WALLET ==> acc in db.accounts
  }

  lemma CashInAddsNoWallet(db: Db, r: CashInReq)
    ensures NewWallets(db, CashIn(db, r).0)
  {
  }

  lemma CashOutAddsNoWallet(cfg: Config, db: Db, r: CashOutReq)
    ensures NewWallets(db, CashOut(cfg, db, r).0)
  {
  }

  lemma TransferAddsNoWallet(cfg: Config, db: Db, r: P2PReq)
    ensures NewWallets(db, Transfer(cfg, db, r).0)
  {
  }

  lemma GrowthKeepsLimits(cfg: Config, db: Db, db': Db)
    requires Structured(db) && WithinLimits(cfg, db) && Grown(db, db')
    ensures WithinLimits(cfg, db')
  {
    forall acc, at: nat | acc in db'.accounts && acc.kind == WALLET
      ensures CashOutCapped(cfg, db', acc, at) && SendCapped(cfg, db', acc, at)
    {
      OldOrNew(db.accounts, db'.accounts, acc);
      if acc in db.accounts {
        assert CashOutCapped(cfg, db, acc, at) && SendCapped(cfg, db, acc, at);
      } else {
        NewAccountCapped(cfg, db.log, acc, at, db');
      }
    }
  }

  lemma MoveKeepsLimits(cfg: Config, db: Db, db': Db, t: Txn, ids: FreshIds, m: Move)
    requires WithinLimits(cfg, db) && Moved(db, db', t, ids, m) && Checked(cfg, db, t, m) && NewWallets(db, db')
    ensures WithinLimits(cfg, db')
  {
    forall acc, at: nat | acc in db'.accounts && acc.kind == WALLET
      ensures CashOutCapped(cfg, db', acc, at) && SendCapped(cfg, db', acc, at)
    {
      assert CashOutCapped(cfg, db, acc, at) && SendCapped(cfg, db, acc, at);
      MoveKeepsCashOut(cfg, db, db', t, ids, m, acc, at);
      MoveKeepsSend(cfg, db, db', t, ids, m, acc, at);
    }
  }

  lemma StepKeepsLimits(cfg: Config, db: Db, op: Op)
    requires Structured(db) && WithinLimits(cfg, db)
    ensures WithinLimits(cfg, Apply(cfg, db, op).0)
  {
    var db' := Apply(cfg, db, op).0;
    var t, ids, m := OpIsChecked(cfg, db, op);
    if db' == db {
    } else if Grown(db, db') {
      GrowthKeepsLimits(cfg, db, db');
    } else {
      MoveKeepsLimits(cfg, db, db', t, ids, m);
    }
  }

  lemma {:induction false} RunKeepsLimits(cfg: Config, db: Db, ops: seq<Op>)
    requires Inv(db) && WithinLimits(cfg, db)
    ensures WithinLimits(cfg, Run(cfg, db, ops))
    decreases |ops|
  {
    if ops != [] {
      StepKeepsInv(cfg, db, ops[0]);
      StepKeepsLimits(cfg, db, ops[0]);
      RunKeepsLimits(cfg, Apply(cfg, db, ops[0]).0, ops[1..]);
    }
  }

  // `spent` principal and `debits` including fees, of which `last` is the latest fee.
  predicate Respects(spent: int, debits: int, last: int, limit: int) {
    debits > 0 ==> spent <= limit && debits <= limit + last
  }

  /** In every calendar day and month of every history, each wallet keeps its owner's limits. */
  lemma LimitsHold(cfg: Config, ops: seq<Op>, acc: Account, lim: TierLimits, at: nat)
    requires acc in Run(cfg, EMPTY, ops).accounts && acc.kind == WALLET && LimitsOf(cfg, acc.ownerId) == Some(lim)
    ensures var log := Run(cfg, EMPTY, ops).log;
            var day, month := DayWindow(at), MonthWindow(at);
            && Respects(Principal(log, acc.id, {CASHOUT}, day), SumDebits(log, acc.id, {CASHOUT}, day),
                        LastFee(log, acc.id, {CASHOUT}, day), lim.dailyCashout)
            && Respects(Principal(log, acc.id, SEND_KINDS, day), SumDebits(log, acc.id, SEND_KINDS, day),
                        LastFee(log, acc.id, SEND_KINDS, day), lim.dailySend)
            && Respects(Principal(log, acc.id, SEND_KINDS, month), SumDebits(log, acc.id, SEND_KINDS, month),
                        LastFee(log, acc.id, SEND_KINDS, month), lim.monthlySend)
  {
    EmptyInv();
    RunKeepsLimits(cfg, EMPTY, ops);
    assert CashOutCapped(cfg, Run(cfg, EMPTY, ops), acc, at);
    assert SendCapped(cfg, Run(cfg, EMPTY, ops), acc, at);
  }
}
