/**
 When a posting happens, and what it writes, read off the rows of the tables alone: the accounts, the
 transactions with their entries, the rule and limit tables, and the ids that were drawn.
 */
module Postings {
  import opened Wrappers
  import opened Calendar
  import opened Fees
  import opened Ledger
  import opened LedgerSteps
  import opened LedgerProofs

  /* ---- rows ---- */

  ghost predicate AccountTaken(accounts: seq<Account>, id: Id) { exists acc :: acc in accounts && acc.id == id }

  ghost predicate HasWallet(accounts: seq<Account>, id: Id) {
    exists acc :: acc in accounts && acc.id == id && acc.kind == WALLET
  }

  // The wallet is the user's own.
  ghost predicate Owns(accounts: seq<Account>, user: Id, id: Id) {
    exists acc :: acc in accounts && acc.id == id && acc.kind == WALLET && acc.owner == USER && acc.ownerId == user
  }

  predicate SystemRow(acc: Account, owner: Id, country: Country, kind: AccountKind) {
    acc == Account(acc.id, SYSTEM, owner, country, kind)
  }

  ghost predicate HasSystem(accounts: seq<Account>, owner: Id, country: Country, kind: AccountKind) {
    exists acc :: acc in accounts && SystemRow(acc, owner, country, kind)
  }

  ghost predicate KeyTaken(log: seq<Txn>, key: string) { exists t :: t in log && t.key == key }

  ghost predicate TxnTaken(log: seq<Txn>, id: Id) { exists t :: t in log && t.id == id }

  ghost predicate EntryTaken(log: seq<Txn>, id: Id) { exists t, e :: t in log && e in t.entries && e.id == id }

  // Another cash-in has the reference.
  ghost predicate ReferenceTaken(log: seq<Txn>, ref: Option<string>) {
    ref.Some? && exists t :: t in log && t.kind == CASHIN && t.externalRef == ref
  }

  // The ids of the two entries, and of the fee entry when there is a fee, are new and different.
  ghost predicate EntryIdsFree(log: seq<Txn>, ids: FreshIds, fee: int) {
    && ids.e0 != ids.e1 && !EntryTaken(log, ids.e0) && !EntryTaken(log, ids.e1)
    && (fee > 0 ==> ids.e2 != ids.e0 && ids.e2 != ids.e1 && !EntryTaken(log, ids.e2))
  }

  // An account id is needed only where the system account does not exist yet.
  ghost predicate NewAccountFree(accounts: seq<Account>, owner: Id, country: Country, kind: AccountKind, id: Id) {
    HasSystem(accounts, owner, country, kind) || !AccountTaken(accounts, id)
  }

  // A row of ledger_entries joined with its transaction.
  datatype Joined = Joined(kind: Kind, at: nat, entry: Entry)

  function JoinedTo(t: Txn, es: seq<Entry>): seq<Joined> {
    if es == [] then [] else [Joined(t.kind, t.createdAt, es[0])] + JoinedTo(t, es[1..])
  }

  function JoinedRows(log: seq<Txn>): seq<Joined> {
    if log == [] then [] else JoinedTo(log[0], log[0].entries) + JoinedRows(log[1..])
  }

  // The sum of an account's debits of some kinds with start <= created_at < end.
  function Debited(rows: seq<Joined>, a: Id, kinds: set<Kind>, start: nat, end: nat): int {
    if rows == [] then 0
    else
      var row := rows[0];
      (if row.entry.account == a && row.entry.dc == DEBIT && row.kind in kinds && start <= row.at < end
       then row.entry.amount else 0) + Debited(rows[1..], a, kinds, start, end)
  }

  lemma {:induction false} DebitedAppend(x: seq<Joined>, y: seq<Joined>, a: Id, kinds: set<Kind>, start: nat, end: nat)
    ensures Debited(x + y, a, kinds, start, end) == Debited(x, a, kinds, start, end) + Debited(y, a, kinds, start, end)
  {
    if x == [] {
      assert x + y == y;
    } else {
      assert (x + y)[1..] == x[1..] + y && (x + y)[0] == x[0];
      DebitedAppend(x[1..], y, a, kinds, start, end);
    }
  }

  lemma {:induction false} DebitedOfTxn(t: Txn, es: seq<Entry>, a: Id, kinds: set<Kind>, w: Window)
    ensures Debited(JoinedTo(t, es), a, kinds, w.start, w.end) == if Counts(t, kinds, w) then DebitsOf(es, a) else 0
  {
    if es != [] {
      DebitedOfTxn(t, es[1..], a, kinds, w);
      assert JoinedTo(t, es)[1..] == JoinedTo(t, es[1..]);
    }
  }

  lemma {:induction false} JoinedAppend(log: seq<Txn>, t: Txn)
    ensures JoinedRows(log + [t]) == JoinedRows(log) + JoinedTo(t, t.entries)
  {
    if log == [] {
      assert JoinedRows([t]) == JoinedTo(t, t.entries) + JoinedRows([t][1..]);
    } else {
      assert (log + [t])[1..] == log[1..] + [t] && (log + [t])[0] == log[0];
      JoinedAppend(log[1..], t);
    }
  }

  /** The limit checks sum the joined rows of the account, the kinds and the window. */
  lemma {:induction false} SumDebitsIsJoin(log: seq<Txn>, a: Id, kinds: set<Kind>, w: Window)
    ensures SumDebits(log, a, kinds, w) == Debited(JoinedRows(log), a, kinds, w.start, w.end)
  {
    if log != [] {
      var n := |log| - 1;
      SumDebitsIsJoin(log[..n], a, kinds, w);
      assert log[..n] + [log[n]] == log;
      JoinedAppend(log[..n], log[n]);
      DebitedAppend(JoinedRows(log[..n]), JoinedTo(log[n], log[n].entries), a, kinds, w.start, w.end);
      DebitedOfTxn(log[n], log[n].entries, a, kinds, w);
    }
  }

  // The active limits of the user's tier, tier 1 for a user without one.
  predicate TierAllows(cfg: Config, user: Id, lim: TierLimits) {
    var tier := if user in cfg.tiers then cfg.tiers[user] else 1;
    tier in cfg.limits && cfg.limits[tier] == lim
  }

  ghost predicate HasLimits(cfg: Config, user: Id) { exists lim :: TierAllows(cfg, user, lim) }

  // Debits of the calendar day, and of the calendar month, of an instant.
  function DebitedThatDay(log: seq<Txn>, a: Id, kinds: set<Kind>, now: nat): int {
    Debited(JoinedRows(log), a, kinds, now / 86400 * 86400, now / 86400 * 86400 + 86400)
  }

  function DebitedThatMonth(log: seq<Txn>, a: Id, kinds: set<Kind>, now: nat): int {
    Debited(JoinedRows(log), a, kinds, MonthWindow(now).start, MonthWindow(now).end)
  }

  /* ---- the lookups are about the rows ---- */

  lemma LookupsReadRows(accounts: seq<Account>, id: Id, user: Id)
    requires Distinct(accounts)
    ensures OwnershipError(accounts, id, user)
            == if !HasWallet(accounts, id) then Some(WALLET_NOT_FOUND)
               else if !Owns(accounts, user, id) then Some(WALLET_NOT_OWNED)
               else None
    ensures IsWallet(accounts, id) <==> HasWallet(accounts, id)
    ensures AccountIdUsed(accounts, id) <==> AccountTaken(accounts, id)
  {
    forall acc | acc in accounts && acc.id == id
      ensures FindAccount(accounts, id) == Some(acc)
    {
      FindMember(accounts, acc);
    }
  }

  lemma KeyReadsRows(log: seq<Txn>, key: string)
    ensures FindKey(log, key).Some? <==> KeyTaken(log, key)
    ensures FindKey(log, key).Some? ==> exists t :: t in log && t.key == key && FindKey(log, key) == Some(t.id)
  {
  }

  lemma SystemReadsRows(accounts: seq<Account>, owner: Id, country: Country, kind: AccountKind, id: Id)
    requires Distinct(accounts)
    ensures var found := SystemAccount(accounts, owner, country, kind, id);
            && (found.2 <==> !NewAccountFree(accounts, owner, country, kind, id))
            && found.0 == (if HasSystem(accounts, owner, country, kind) then accounts
                           else accounts + [Account(id, SYSTEM, owner, country, kind)])
            && (exists acc :: acc in found.0 && acc.id == found.1 && SystemRow(acc, owner, country, kind))
  {
    LookupsReadRows(accounts, id, owner);
    var found := FindSystem(accounts, owner, country, kind);
    if found.Some? {
      assert SystemRow(found.value, owner, country, kind);
    } else {
      assert forall acc :: acc in accounts && SystemRow(acc, owner, country, kind) ==>
          IsSystem(acc, owner, country, kind);
      var added := Account(id, SYSTEM, owner, country, kind);
      assert added in accounts + [added] && SystemRow(added, owner, country, kind);
    }
  }

  lemma EntriesReadRows(log: seq<Txn>, ids: FreshIds, payer: Id, payee: Id, feeAccount: Id, amount: int, fee: int)
    ensures var es := Legs(ids, payer, payee, feeAccount, amount, fee);
            EntryIdsFree(log, ids, fee) <==> DistinctEntryIds(es) && forall e :: e in es ==> !EntryIdUsed(log, e.id)
  {
    var es := Legs(ids, payer, payee, feeAccount, amount, fee);
    assert forall id :: EntryIdUsed(log, id) <==> EntryTaken(log, id);
    hide EntryIdUsed, EntryTaken;
    assert es[0] in es && es[1] in es && es[0].id == ids.e0 && es[1].id == ids.e1;
    assert fee > 0 ==> |es| == 3 && es[2] in es && es[2].id == ids.e2;
    assert fee <= 0 ==> |es| == 2;
  }

  /* ---- transfers ---- */

  // The checks that come before the key is looked at.
  ghost predicate TransferAsked(db: Db, r: P2PReq) {
    && r.amount > 0 && r.actor.Some? && Owns(db.accounts, r.actor.value, r.sender)
    && HasWallet(db.accounts, r.receiver)
  }

  function TransferCost(cfg: Config, r: P2PReq): int { r.amount + ComputeFee(cfg.rules, P2P, r.country, r.amount) }

  ghost predicate TransferNew(db: Db, r: P2PReq) { TransferAsked(db, r) && !KeyTaken(db.log, r.key) }

  ghost predicate TransferFunded(cfg: Config, db: Db, r: P2PReq) {
    TransferNew(db, r) && LedgerSum(db.log, r.sender) >= TransferCost(cfg, r)
  }

  // The tier's limits leave room for the amount in the calendar day, and in the calendar month.
  ghost predicate SendDayRoom(cfg: Config, db: Db, r: P2PReq) {
    exists lim :: r.actor.Some? && TierAllows(cfg, r.actor.value, lim)
                  && DebitedThatDay(db.log, r.sender, {P2P, MERCHANT_PAY}, r.now) + r.amount <= lim.dailySend
  }

  ghost predicate SendMonthRoom(cfg: Config, db: Db, r: P2PReq) {
    exists lim :: r.actor.Some? && TierAllows(cfg, r.actor.value, lim)
                  && DebitedThatMonth(db.log, r.sender, {P2P, MERCHANT_PAY}, r.now) + r.amount <= lim.monthlySend
  }

  ghost predicate TransferGranted(cfg: Config, db: Db, r: P2PReq) {
    TransferFunded(cfg, db, r) && SendDayRoom(cfg, db, r) && SendMonthRoom(cfg, db, r)
  }

  ghost predicate TransferIdsFree(db: Db, r: P2PReq, fee: int) {
    && !TxnTaken(db.log, r.ids.txn) && EntryIdsFree(db.log, r.ids, fee)
    && (fee > 0 ==> NewAccountFree(db.accounts, r.systemOwner, r.country, FEE_REVENUE, r.ids.feeAccount))
  }

  // The first check that the request does not pass, by its error.
  ghost predicate TransferFails(cfg: Config, db: Db, r: P2PReq, error: Error) {
    match error
    case AMOUNT_NOT_POSITIVE => r.amount <= 0
    case UNAUTHORIZED => r.amount > 0 && r.actor.None?
    case WALLET_NOT_FOUND =>
      r.amount > 0 && r.actor.Some?
      && (!HasWallet(db.accounts, r.sender)
          || (Owns(db.accounts, r.actor.value, r.sender) && !HasWallet(db.accounts, r.receiver)))
    case WALLET_NOT_OWNED =>
      r.amount > 0 && r.actor.Some? && HasWallet(db.accounts, r.sender) && !Owns(db.accounts, r.actor.value, r.sender)
    case INSUFFICIENT_FUNDS => TransferNew(db, r) && !TransferFunded(cfg, db, r)
    case NO_LIMITS => TransferFunded(cfg, db, r) && !HasLimits(cfg, r.actor.value)
    case DAILY_LIMIT =>
      TransferFunded(cfg, db, r) && HasLimits(cfg, r.actor.value) && !SendDayRoom(cfg, db, r)
    case MONTHLY_LIMIT =>
      TransferFunded(cfg, db, r) && SendDayRoom(cfg, db, r) && !SendMonthRoom(cfg, db, r)
    case ALREADY_EXISTS => false
  }

  // The decision of a transfer, check by check, in row terms.
  lemma TransferChecks(cfg: Config, db: Db, r: P2PReq)
    requires Inv(db)
    ensures P2PVerdict(cfg, db, r)
            == if r.amount <= 0 then Refuse(AMOUNT_NOT_POSITIVE)
               else if r.actor.None? then Refuse(UNAUTHORIZED)
               else if !HasWallet(db.accounts, r.sender) then Refuse(WALLET_NOT_FOUND)
               else if !Owns(db.accounts, r.actor.value, r.sender) then Refuse(WALLET_NOT_OWNED)
               else if !HasWallet(db.accounts, r.receiver) then Refuse(WALLET_NOT_FOUND)
               else if FindKey(db.log, r.key).Some? then Replay(FindKey(db.log, r.key).value)
               else if LedgerSum(db.log, r.sender) < TransferCost(cfg, r) then Refuse(INSUFFICIENT_FUNDS)
               else if !HasLimits(cfg, r.actor.value) then Refuse(NO_LIMITS)
               else if !SendDayRoom(cfg, db, r) then Refuse(DAILY_LIMIT)
               else if !SendMonthRoom(cfg, db, r) then Refuse(MONTHLY_LIMIT)
               else Go
  {
    if r.actor.Some? { LookupsReadRows(db.accounts, r.sender, r.actor.value); }
    LookupsReadRows(db.accounts, r.receiver, 0);
    BalanceIsSum(db, r.sender);
    if r.actor.Some? { SendRoom(cfg, db, r); }
    hide Inv, FindKey, SumDebits, OwnershipError, IsWallet, HasWallet, Owns, LimitsOf, AvailableBalance,
         LedgerSum, SendDayRoom, SendMonthRoom, HasLimits, ComputeFee, DayWindow, MonthWindow;
  }

  // A wallet that somebody owns is a wallet.
  lemma OwnedIsWallet(accounts: seq<Account>, user: Id, id: Id)
    requires Owns(accounts, user, id)
    ensures HasWallet(accounts, id)
  {
  }

  lemma TransferVerdict(cfg: Config, db: Db, r: P2PReq)
    requires Inv(db)
    ensures var v := P2PVerdict(cfg, db, r);
            && (v == Go <==> TransferGranted(cfg, db, r))
            && (v.Replay? <==> TransferAsked(db, r) && KeyTaken(db.log, r.key))
            && (v.Replay? ==> FindKey(db.log, r.key) == Some(v.id))
  {
    TransferChecks(cfg, db, r);
    KeyReadsRows(db.log, r.key);
    hide P2PVerdict, Inv, FindKey, HasWallet, Owns, KeyTaken, LedgerSum, SendDayRoom, SendMonthRoom, HasLimits,
         TransferCost;
    if r.actor.Some? { SendNeedsLimits(cfg, db, r); }
    if TransferAsked(db, r) { OwnedIsWallet(db.accounts, r.actor.value, r.sender); }
  }

  lemma SendNeedsLimits(cfg: Config, db: Db, r: P2PReq)
    requires r.actor.Some?
    ensures SendDayRoom(cfg, db, r) || SendMonthRoom(cfg, db, r) ==> HasLimits(cfg, r.actor.value)
  {
  }

  lemma TransferRefused(cfg: Config, db: Db, r: P2PReq, error: Error)
    requires Inv(db)
    ensures P2PVerdict(cfg, db, r) == Refuse(error) <==> TransferFails(cfg, db, r, error)
  {
    hide P2PVerdict, Inv, FindKey, HasWallet, Owns, KeyTaken, LedgerSum, SendDayRoom, SendMonthRoom, HasLimits,
         TransferCost, P2PFee;
    TransferChecks(cfg, db, r);
    KeyReadsRows(db.log, r.key);
    if r.actor.Some? {
      SendNeedsLimits(cfg, db, r);
      if Owns(db.accounts, r.actor.value, r.sender) { OwnedIsWallet(db.accounts, r.actor.value, r.sender); }
    }
  }

  // What the limit checks find, of the one row of limits that a user can have.
  lemma SendRoom(cfg: Config, db: Db, r: P2PReq)
    requires r.actor.Some?
    ensures var lim := LimitsOf(cfg, r.actor.value);
            var day := lim.Some? && SumDebits(db.log, r.sender, SEND_KINDS, DayWindow(r.now)) + r.amount
                                    <= lim.value.dailySend;
            var month := lim.Some? && SumDebits(db.log, r.sender, SEND_KINDS, MonthWindow(r.now)) + r.amount
                                      <= lim.value.monthlySend;
            && (HasLimits(cfg, r.actor.value) <==> lim.Some?)
            && (day <==> SendDayRoom(cfg, db, r)) && (month <==> SendMonthRoom(cfg, db, r))
  {
    LimitsAreRows(cfg, r.actor.value);
    SumDebitsIsJoin(db.log, r.sender, SEND_KINDS, DayWindow(r.now));
    SumDebitsIsJoin(db.log, r.sender, SEND_KINDS, MonthWindow(r.now));
    hide SumDebits, Debited, JoinedRows, MonthWindow, TierAllows, LimitsOf, HasLimits;
    var lim := LimitsOf(cfg, r.actor.value);
    assert lim.Some? ==> TierAllows(cfg, r.actor.value, lim.value);
  }

  lemma LimitsAreRows(cfg: Config, user: Id)
    ensures forall lim :: TierAllows(cfg, user, lim) <==> LimitsOf(cfg, user) == Some(lim)
    ensures HasLimits(cfg, user) <==> LimitsOf(cfg, user).Some?
  {
    if LimitsOf(cfg, user).Some? { assert TierAllows(cfg, user, LimitsOf(cfg, user).value); }
  }

  // The posting goes through unless a drawn id is taken.
  lemma TransferClash(db: Db, r: P2PReq, fee: int)
    requires Distinct(db.accounts) && r.actor.Some? && !KeyTaken(db.log, r.key) && fee >= 0
    ensures P2PPost(db, r, fee).0 != db <==> TransferIdsFree(db, r, fee)
    ensures !TransferIdsFree(db, r, fee) ==> P2PPost(db, r, fee).1 == Returned(None)
  {
    var found := FeeAccount(db.accounts, r.systemOwner, r.country, fee, r.ids.feeAccount);
    SystemReadsRows(db.accounts, r.systemOwner, r.country, FEE_REVENUE, r.ids.feeAccount);
    EntriesReadRows(db.log, r.ids, r.sender, r.receiver, found.1, r.amount, fee);
    KeyReadsRows(db.log, r.key);
    var t := P2PTxn(r, found.1, fee);
    assert TxnIdUsed(db.log, t.id) <==> TxnTaken(db.log, t.id);
    assert |db.log + [t]| > |db.log|;
    hide SystemAccount, NewAccountFree, EntryIdsFree, DistinctEntryIds, EntryIdUsed, TxnIdUsed, TxnTaken, FindKey,
         KeyTaken, Legs, HasSystem, ApplyDelta;
  }

  /** A transfer posts exactly when the amount is positive, the session user owns the sending wallet, the
      receiver is a wallet, no transaction has the key, the sender's entries cover amount and fee, the day's
      and the month's debits leave room for the amount, and no drawn id is taken. */
  lemma TransferPostsExactly(cfg: Config, db: Db, r: P2PReq)
    requires Inv(db)
    ensures var fee := ComputeFee(cfg.rules, P2P, r.country, r.amount);
            && (Transfer(cfg, db, r).0 != db <==> TransferGranted(cfg, db, r) && TransferIdsFree(db, r, fee))
            && (Transfer(cfg, db, r).1 == Returned(None) <==>
                  TransferGranted(cfg, db, r) && !TransferIdsFree(db, r, fee))
  {
    TransferVerdict(cfg, db, r);
    var fee := ComputeFee(cfg.rules, P2P, r.country, r.amount);
    if TransferGranted(cfg, db, r) { TransferClash(db, r, fee); }
    if Transfer(cfg, db, r).0 != db { var t, m := TransferMoves(cfg, db, r); }
    hide P2PVerdict, P2PPost, Inv, TransferIdsFree, HasLimits, SendDayRoom, SendMonthRoom, HasWallet, Owns, KeyTaken,
         LedgerSum, ComputeFee, TransferFunded, Moved;
  }

  /** Each refusal of a transfer has its own error, and a key that has posted answers its transaction. */
  lemma TransferRefusals(cfg: Config, db: Db, r: P2PReq)
    requires Inv(db)
    ensures forall e :: Transfer(cfg, db, r).1 == Raised(e) <==> TransferFails(cfg, db, r, e)
    ensures TransferAsked(db, r) && KeyTaken(db.log, r.key) ==>
              exists t :: t in db.log && t.key == r.key && Transfer(cfg, db, r) == (db, Returned(Some(t.id)))
  {
    TransferVerdict(cfg, db, r);
    KeyReadsRows(db.log, r.key);
    hide P2PVerdict, P2PPost, Inv, KeyTaken, FindKey, TransferAsked, TransferGranted, TransferFails;
    forall e
      ensures Transfer(cfg, db, r).1 == Raised(e) <==> TransferFails(cfg, db, r, e)
    {
      TransferRefused(cfg, db, r, e);
      if P2PVerdict(cfg, db, r) == Go { PostingReturns(db, r, P2PFee(cfg, r)); }
    }
  }

  lemma PostingReturns(db: Db, r: P2PReq, fee: int)
    requires r.actor.Some?
    ensures P2PPost(db, r, fee).1.Returned?
  {
  }

  // The entries of a movement: the payer's debit with the fee, the payee's credit, the fee's credit.
  predicate EntriesAre(es: seq<Entry>, ids: FreshIds, payer: Id, payee: Id, feeAccount: Id, amount: int, fee: int) {
    && |es| == (if fee > 0 then 3 else 2)
    && es[0] == Entry(ids.e0, payer, DEBIT, amount + fee)
    && es[1] == Entry(ids.e1, payee, CREDIT, amount)
    && (fee > 0 ==> es[2] == Entry(ids.e2, feeAccount, CREDIT, fee))
  }

  // The account found or opened for a system owner, country and kind.
  ghost predicate SystemAccountIs(accounts: seq<Account>, id: Id, owner: Id, country: Country, kind: AccountKind) {
    exists acc :: acc in accounts && acc.id == id && SystemRow(acc, owner, country, kind)
  }

  function WithSystem(accounts: seq<Account>, missing: bool, acc: Account): seq<Account> {
    if missing then accounts + [acc] else accounts
  }

  lemma SystemIsKept(accounts: seq<Account>, accounts': seq<Account>, id: Id, owner: Id, country: Country,
                     kind: AccountKind)
    requires SystemAccountIs(accounts, id, owner, country, kind) && Extends(accounts, accounts')
    ensures SystemAccountIs(accounts', id, owner, country, kind)
  {
    var acc :| acc in accounts && acc.id == id && SystemRow(acc, owner, country, kind);
    assert acc in accounts'[..|accounts|];
  }

  /** What a transfer writes: one transaction between the two wallets, and at most the fee account of its
      owner and country. */
  lemma TransferRows(cfg: Config, db: Db, r: P2PReq) returns (feeAccount: Id, es: seq<Entry>)
    requires Inv(db) && Transfer(cfg, db, r).0 != db
    ensures var after, fee := Transfer(cfg, db, r).0, ComputeFee(cfg.rules, P2P, r.country, r.amount);
            var opens := fee > 0 && !HasSystem(db.accounts, r.systemOwner, r.country, FEE_REVENUE);
            && r.actor.Some? && EntriesAre(es, r.ids, r.sender, r.receiver, feeAccount, r.amount, fee)
            && after.log == db.log + [Txn(r.ids.txn, P2P, r.amount, r.key, None, r.actor.value, r.now, es)]
            && after.accounts == WithSystem(db.accounts, opens,
                                            Account(r.ids.feeAccount, SYSTEM, r.systemOwner, r.country, FEE_REVENUE))
            && (fee > 0 ==> SystemAccountIs(after.accounts, feeAccount, r.systemOwner, r.country, FEE_REVENUE))
  {
    var fee := P2PFee(cfg, r);
    var found := FeeAccount(db.accounts, r.systemOwner, r.country, fee, r.ids.feeAccount);
    feeAccount, es := found.1, Legs(r.ids, r.sender, r.receiver, found.1, r.amount, fee);
    SystemReadsRows(db.accounts, r.systemOwner, r.country, FEE_REVENUE, r.ids.feeAccount);
    hide Inv, SystemAccount, UniqueViolation, ComputeFee, HasSystem, ApplyDelta;
  }

  /* ---- cash-outs ---- */

  ghost predicate CashOutAsked(db: Db, r: CashOutReq) {
    r.amount > 0 && r.actor.Some? && Owns(db.accounts, r.actor.value, r.wallet)
  }

  ghost predicate CashOutNew(db: Db, r: CashOutReq) { CashOutAsked(db, r) && !KeyTaken(db.log, r.key) }

  function CashOutCost(cfg: Config, r: CashOutReq): int {
    r.amount + ComputeFee(cfg.rules, CASHOUT, r.country, r.amount)
  }

  ghost predicate CashOutFunded(cfg: Config, db: Db, r: CashOutReq) {
    CashOutNew(db, r) && LedgerSum(db.log, r.wallet) >= CashOutCost(cfg, r)
  }

  ghost predicate CashOutDayRoom(cfg: Config, db: Db, r: CashOutReq) {
    exists lim :: r.actor.Some? && TierAllows(cfg, r.actor.value, lim)
                  && DebitedThatDay(db.log, r.wallet, {CASHOUT}, r.now) + r.amount <= lim.dailyCashout
  }

  ghost predicate CashOutGranted(cfg: Config, db: Db, r: CashOutReq) {
    CashOutFunded(cfg, db, r) && CashOutDayRoom(cfg, db, r)
  }

  // Whether each of the two system accounts would have to be opened.
  ghost predicate OpensSettlement(db: Db, r: CashOutReq) {
    !HasSystem(db.accounts, r.systemOwner, r.country, SETTLEMENT)
  }

  ghost predicate OpensFee(db: Db, r: CashOutReq, fee: int) {
    fee > 0 && !HasSystem(db.accounts, r.systemOwner, r.country, FEE_REVENUE)
  }

  ghost predicate CashOutIdsFree(db: Db, r: CashOutReq, fee: int) {
    && !TxnTaken(db.log, r.ids.txn) && EntryIdsFree(db.log, r.ids, fee)
    && (OpensSettlement(db, r) ==> !AccountTaken(db.accounts, r.ids.settlement))
    && (OpensFee(db, r, fee) ==> !AccountTaken(db.accounts, r.ids.feeAccount))
    && (OpensSettlement(db, r) && OpensFee(db, r, fee) ==> r.ids.feeAccount != r.ids.settlement)
  }

  ghost predicate CashOutFails(cfg: Config, db: Db, r: CashOutReq, error: Error) {
    match error
    case AMOUNT_NOT_POSITIVE => r.amount <= 0
    case UNAUTHORIZED => r.amount > 0 && r.actor.None?
    case WALLET_NOT_FOUND => r.amount > 0 && r.actor.Some? && !HasWallet(db.accounts, r.wallet)
    case WALLET_NOT_OWNED =>
      r.amount > 0 && r.actor.Some? && HasWallet(db.accounts, r.wallet) && !Owns(db.accounts, r.actor.value, r.wallet)
    case INSUFFICIENT_FUNDS => CashOutNew(db, r) && !CashOutFunded(cfg, db, r)
    case NO_LIMITS => CashOutFunded(cfg, db, r) && !HasLimits(cfg, r.actor.value)
    case DAILY_LIMIT =>
      CashOutFunded(cfg, db, r) && HasLimits(cfg, r.actor.value) && !CashOutDayRoom(cfg, db, r)
    case MONTHLY_LIMIT => false
    case ALREADY_EXISTS => false
  }

  lemma CashOutRoom(cfg: Config, db: Db, r: CashOutReq)
    requires r.actor.Some?
    ensures var lim := LimitsOf(cfg, r.actor.value);
            && (HasLimits(cfg, r.actor.value) <==> lim.Some?)
            && ((lim.Some? && SumDebits(db.log, r.wallet, {CASHOUT}, DayWindow(r.now)) + r.amount
                              <= lim.value.dailyCashout)
                <==> CashOutDayRoom(cfg, db, r))
  {
    LimitsAreRows(cfg, r.actor.value);
    SumDebitsIsJoin(db.log, r.wallet, {CASHOUT}, DayWindow(r.now));
    hide SumDebits, Debited, JoinedRows, TierAllows, LimitsOf, HasLimits;
    var lim := LimitsOf(cfg, r.actor.value);
    assert lim.Some? ==> TierAllows(cfg, r.actor.value, lim.value);
  }

  // The decision of a cash-out, check by check, in row terms.
  lemma CashOutChecks(cfg: Config, db: Db, r: CashOutReq)
    requires Inv(db)
    ensures CashOutVerdict(cfg, db, r)
            == if r.amount <= 0 then Refuse(AMOUNT_NOT_POSITIVE)
               else if r.actor.None? then Refuse(UNAUTHORIZED)
               else if !HasWallet(db.accounts, r.wallet) then Refuse(WALLET_NOT_FOUND)
               else if !Owns(db.accounts, r.actor.value, r.wallet) then Refuse(WALLET_NOT_OWNED)
               else if FindKey(db.log, r.key).Some? then Replay(FindKey(db.log, r.key).value)
               else if LedgerSum(db.log, r.wallet) < CashOutCost(cfg, r) then Refuse(INSUFFICIENT_FUNDS)
               else if !HasLimits(cfg, r.actor.value) then Refuse(NO_LIMITS)
               else if !CashOutDayRoom(cfg, db, r) then Refuse(DAILY_LIMIT)
               else Go
  {
    if r.actor.Some? {
      LookupsReadRows(db.accounts, r.wallet, r.actor.value);
      CashOutRoom(cfg, db, r);
    }
    BalanceIsSum(db, r.wallet);
    hide Inv, FindKey, SumDebits, OwnershipError, HasWallet, Owns, LimitsOf, AvailableBalance, LedgerSum,
         CashOutDayRoom, HasLimits, ComputeFee, DayWindow;
  }

  lemma CashOutNeedsLimits(cfg: Config, db: Db, r: CashOutReq)
    requires r.actor.Some?
    ensures CashOutDayRoom(cfg, db, r) ==> HasLimits(cfg, r.actor.value)
  {
  }

  lemma CashOutVerdictRows(cfg: Config, db: Db, r: CashOutReq)
    requires Inv(db)
    ensures var v := CashOutVerdict(cfg, db, r);
            && (v == Go <==> CashOutGranted(cfg, db, r))
            && (v.Replay? <==> CashOutAsked(db, r) && KeyTaken(db.log, r.key))
            && (v.Replay? ==> FindKey(db.log, r.key) == Some(v.id))
  {
    hide CashOutVerdict, Inv, FindKey, HasWallet, Owns, KeyTaken, LedgerSum, CashOutDayRoom, HasLimits, CashOutCost;
    CashOutChecks(cfg, db, r);
    KeyReadsRows(db.log, r.key);
    if r.actor.Some? { CashOutNeedsLimits(cfg, db, r); }
    if CashOutAsked(db, r) { OwnedIsWallet(db.accounts, r.actor.value, r.wallet); }
  }

  lemma CashOutRefused(cfg: Config, db: Db, r: CashOutReq, error: Error)
    requires Inv(db)
    ensures CashOutVerdict(cfg, db, r) == Refuse(error) <==> CashOutFails(cfg, db, r, error)
  {
    hide CashOutVerdict, Inv, FindKey, HasWallet, Owns, KeyTaken, LedgerSum, CashOutDayRoom, HasLimits, CashOutCost;
    CashOutChecks(cfg, db, r);
    KeyReadsRows(db.log, r.key);
    if r.actor.Some? {
      CashOutNeedsLimits(cfg, db, r);
      if Owns(db.accounts, r.actor.value, r.wallet) { OwnedIsWallet(db.accounts, r.actor.value, r.wallet); }
    }
  }

  // The two account lookups, the second on the table that the first leaves.
  lemma CashOutAccountRows(db: Db, r: CashOutReq, fee: int)
    requires Distinct(db.accounts)
    ensures var found := CashOutAccounts(db.accounts, r, fee);
            var settlement := Account(r.ids.settlement, SYSTEM, r.systemOwner, r.country, SETTLEMENT);
            var feeRow := Account(r.ids.feeAccount, SYSTEM, r.systemOwner, r.country, FEE_REVENUE);
            var clash := (OpensSettlement(db, r) && AccountTaken(db.accounts, r.ids.settlement))
                         || (OpensFee(db, r, fee)
                             && (AccountTaken(db.accounts, r.ids.feeAccount)
                                 || (OpensSettlement(db, r) && r.ids.feeAccount == r.ids.settlement)));
            && (found.3 <==> clash)
            && (!clash ==>
                  && found.0 == WithSystem(WithSystem(db.accounts, OpensSettlement(db, r), settlement),
                                           OpensFee(db, r, fee), feeRow)
                  && SystemAccountIs(found.0, found.1, r.systemOwner, r.country, SETTLEMENT)
                  && (fee > 0 ==> SystemAccountIs(found.0, found.2, r.systemOwner, r.country, FEE_REVENUE)))
  {
    var settlement := Account(r.ids.settlement, SYSTEM, r.systemOwner, r.country, SETTLEMENT);
    hide SystemAccount, FeeAccount, HasSystem, AccountTaken, Distinct, SystemAccountIs;
    SystemFound(db.accounts, r.systemOwner, r.country, SETTLEMENT, r.ids.settlement);
    var first := SystemAccount(db.accounts, r.systemOwner, r.country, SETTLEMENT, r.ids.settlement);
    if !first.2 {
      WithSettlement(db.accounts, OpensSettlement(db, r), settlement, r.ids.feeAccount);
      FeeReadsRows(first.0, r.systemOwner, r.country, fee, r.ids.feeAccount);
      var second := FeeAccount(first.0, r.systemOwner, r.country, fee, r.ids.feeAccount);
      SystemIsKept(first.0, second.0, first.1, r.systemOwner, r.country, SETTLEMENT);
    }
  }

  lemma SystemFound(accounts: seq<Account>, owner: Id, country: Country, kind: AccountKind, id: Id)
    requires Distinct(accounts)
    ensures var found := SystemAccount(accounts, owner, country, kind, id);
            var opens := !HasSystem(accounts, owner, country, kind);
            && (found.2 <==> opens && AccountTaken(accounts, id))
            && found.0 == WithSystem(accounts, opens, Account(id, SYSTEM, owner, country, kind))
            && SystemAccountIs(found.0, found.1, owner, country, kind)
            && (!found.2 ==> Distinct(found.0))
  {
    SystemReadsRows(accounts, owner, country, kind, id);
    SystemAccountKind(accounts, owner, country, kind, id);
    hide SystemAccount, HasSystem, AccountTaken, Distinct;
  }

  lemma FeeReadsRows(accounts: seq<Account>, owner: Id, country: Country, fee: int, id: Id)
    requires Distinct(accounts)
    ensures var found := FeeAccount(accounts, owner, country, fee, id);
            var opens := fee > 0 && !HasSystem(accounts, owner, country, FEE_REVENUE);
            && (found.2 <==> opens && AccountTaken(accounts, id))
            && found.0 == WithSystem(accounts, opens, Account(id, SYSTEM, owner, country, FEE_REVENUE))
            && (fee > 0 ==> SystemAccountIs(found.0, found.1, owner, country, FEE_REVENUE))
            && Extends(accounts, found.0)
  {
    SystemFound(accounts, owner, country, FEE_REVENUE, id);
    hide SystemAccount, HasSystem, AccountTaken, Distinct, SystemAccountIs;
  }

  lemma WithSettlement(accounts: seq<Account>, missing: bool, acc: Account, id: Id)
    requires acc.kind == SETTLEMENT && acc.owner == SYSTEM
    ensures var more := WithSystem(accounts, missing, acc);
            && (HasSystem(more, acc.ownerId, acc.country, FEE_REVENUE)
                <==> HasSystem(accounts, acc.ownerId, acc.country, FEE_REVENUE))
            && (AccountTaken(more, id) <==> AccountTaken(accounts, id) || (missing && acc.id == id))
  {
    if missing { assert acc in accounts + [acc]; }
    assert forall other :: other in accounts ==> other in WithSystem(accounts, missing, acc);
  }

  lemma CashOutClash(db: Db, r: CashOutReq, fee: int)
    requires Distinct(db.accounts) && r.actor.Some? && !KeyTaken(db.log, r.key)
    ensures CashOutPost(db, r, fee).0 != db <==> CashOutIdsFree(db, r, fee)
    ensures CashOutPost(db, r, fee).1 == Returned(if CashOutIdsFree(db, r, fee) then Some(r.ids.txn) else None)
  {
    var found := CashOutAccounts(db.accounts, r, fee);
    CashOutAccountRows(db, r, fee);
    EntriesReadRows(db.log, r.ids, r.wallet, found.1, found.2, r.amount, fee);
    KeyReadsRows(db.log, r.key);
    var t := CashOutTxn(r, found.1, found.2, fee);
    assert TxnIdUsed(db.log, t.id) <==> TxnTaken(db.log, t.id);
    assert |db.log + [t]| > |db.log|;
    hide CashOutAccounts, EntryIdsFree, DistinctEntryIds, EntryIdUsed, TxnIdUsed, TxnTaken, FindKey, AccountTaken,
         KeyTaken, Legs, HasSystem, ApplyDelta, SystemAccountIs, OpensSettlement, OpensFee;
  }

  /** A cash-out posts exactly when the amount is positive, the session user owns the wallet, no transaction has
      the key, the wallet's entries cover amount and fee, the day's cash-outs leave room for the amount, and no
      drawn id is taken. */
  lemma CashOutPostsExactly(cfg: Config, db: Db, r: CashOutReq)
    requires Inv(db)
    ensures var fee := ComputeFee(cfg.rules, CASHOUT, r.country, r.amount);
            && (CashOut(cfg, db, r).0 != db <==> CashOutGranted(cfg, db, r) && CashOutIdsFree(db, r, fee))
            && (CashOut(cfg, db, r).0 != db ==> CashOut(cfg, db, r).1 == Returned(Some(r.ids.txn)))
            && (CashOut(cfg, db, r).1 == Returned(None) <==>
                  CashOutGranted(cfg, db, r) && !CashOutIdsFree(db, r, fee))
  {
    CashOutVerdictRows(cfg, db, r);
    if CashOutGranted(cfg, db, r) { CashOutClash(db, r, ComputeFee(cfg.rules, CASHOUT, r.country, r.amount)); }
    hide CashOutVerdict, CashOutPost, Inv, CashOutIdsFree, CashOutDayRoom, Owns, KeyTaken, LedgerSum, ComputeFee,
         CashOutFails;
  }

  /** Each refusal of a cash-out has its own error, and a key that has posted answers its transaction. */
  lemma CashOutRefusals(cfg: Config, db: Db, r: CashOutReq)
    requires Inv(db)
    ensures forall e :: CashOut(cfg, db, r).1 == Raised(e) <==> CashOutFails(cfg, db, r, e)
    ensures CashOutAsked(db, r) && KeyTaken(db.log, r.key) ==>
              exists t :: t in db.log && t.key == r.key && CashOut(cfg, db, r) == (db, Returned(Some(t.id)))
  {
    CashOutVerdictRows(cfg, db, r);
    KeyReadsRows(db.log, r.key);
    var fee := ComputeFee(cfg.rules, CASHOUT, r.country, r.amount);
    if CashOutGranted(cfg, db, r) { CashOutClash(db, r, fee); }
    hide CashOutVerdict, CashOutPost, Inv, KeyTaken, FindKey, CashOutAsked, CashOutFails, CashOutDayRoom, ComputeFee;
    forall e
      ensures CashOut(cfg, db, r).1 == Raised(e) <==> CashOutFails(cfg, db, r, e)
    {
      CashOutRefused(cfg, db, r, e);
    }
  }

  // A transaction is answered when the call posts, or when its key has posted before.
  ghost predicate CashOutCommits(cfg: Config, db: Db, r: CashOutReq) {
    || (CashOutGranted(cfg, db, r) && CashOutIdsFree(db, r, ComputeFee(cfg.rules, CASHOUT, r.country, r.amount)))
    || (CashOutAsked(db, r) && KeyTaken(db.log, r.key))
  }

  lemma CashOutAnswersTxn(cfg: Config, db: Db, r: CashOutReq)
    requires Inv(db)
    ensures var answer := CashOut(cfg, db, r).1;
            answer.Returned? && answer.id.Some? <==> CashOutCommits(cfg, db, r)
  {
    CashOutVerdictRows(cfg, db, r);
    if CashOutGranted(cfg, db, r) { CashOutClash(db, r, ComputeFee(cfg.rules, CASHOUT, r.country, r.amount)); }
    hide CashOutVerdict, CashOutPost, Inv, CashOutIdsFree, CashOutDayRoom, Owns, KeyTaken, LedgerSum, ComputeFee;
  }

  lemma CashOutIsPost(cfg: Config, db: Db, r: CashOutReq)
    requires CashOut(cfg, db, r).0 != db
    ensures CashOutVerdict(cfg, db, r) == Go && CashOut(cfg, db, r) == CashOutPost(db, r, CashOutFee(cfg, r))
  {
    hide CashOutPost, CashOutVerdict;
  }

  /** What a cash-out writes: one transaction from the wallet, and at most the settlement and fee accounts of
      its owner and country. */
  lemma CashOutRows(cfg: Config, db: Db, r: CashOutReq) returns (settlement: Id, feeAccount: Id, es: seq<Entry>)
    requires Inv(db) && CashOut(cfg, db, r).0 != db
    ensures var after, fee := CashOut(cfg, db, r).0, ComputeFee(cfg.rules, CASHOUT, r.country, r.amount);
            && r.actor.Some? && EntriesAre(es, r.ids, r.wallet, settlement, feeAccount, r.amount, fee)
            && after.log == db.log + [Txn(r.ids.txn, CASHOUT, r.amount, r.key, r.providerRef, r.actor.value, r.now, es)]
            && after.accounts
               == WithSystem(WithSystem(db.accounts, OpensSettlement(db, r),
                                        Account(r.ids.settlement, SYSTEM, r.systemOwner, r.country, SETTLEMENT)),
                             OpensFee(db, r, fee),
                             Account(r.ids.feeAccount, SYSTEM, r.systemOwner, r.country, FEE_REVENUE))
            && SystemAccountIs(after.accounts, settlement, r.systemOwner, r.country, SETTLEMENT)
            && (fee > 0 ==> SystemAccountIs(after.accounts, feeAccount, r.systemOwner, r.country, FEE_REVENUE))
  {
    var fee := CashOutFee(cfg, r);
    var found := CashOutAccounts(db.accounts, r, fee);
    settlement, feeAccount, es := found.1, found.2, Legs(r.ids, r.wallet, found.1, found.2, r.amount, fee);
    CashOutIsPost(cfg, db, r);
    CashOutGo(cfg, db, r);
    CashOutAccountRows(db, r, fee);
    CashOutPostIs(db, r, fee);
    hide *;
    PostKeepsRows(db, found.0, found.3, MoveCache(db.cache, CashOutMove(db, r, fee)),
                  CashOutTxn(r, settlement, feeAccount, fee));
    LegsAre(r.ids, r.wallet, settlement, feeAccount, r.amount, fee);
  }

  lemma PostKeepsRows(db: Db, accounts: seq<Account>, clash: bool, cache: map<Id, int>, t: Txn)
    requires Post(db, accounts, clash, cache, t).0 != db
    ensures !clash && Post(db, accounts, clash, cache, t).0 == Db(accounts, db.log + [t], cache)
  {
  }

  lemma LegsAre(ids: FreshIds, payer: Id, payee: Id, feeAccount: Id, amount: int, fee: int)
    ensures EntriesAre(Legs(ids, payer, payee, feeAccount, amount, fee), ids, payer, payee, feeAccount, amount, fee)
  {
  }

  /* ---- cash-ins ---- */

  ghost predicate CashInAsked(db: Db, r: CashInReq) { r.amount > 0 && Owns(db.accounts, r.user, r.wallet) }

  ghost predicate CashInGranted(db: Db, r: CashInReq) { CashInAsked(db, r) && !KeyTaken(db.log, r.key) }

  // The reference is unused and so is every drawn id.
  ghost predicate CashInFree(db: Db, r: CashInReq) {
    && !ReferenceTaken(db.log, r.providerRef) && !TxnTaken(db.log, r.ids.txn) && EntryIdsFree(db.log, r.ids, 0)
    && NewAccountFree(db.accounts, r.systemOwner, r.country, SETTLEMENT, r.ids.settlement)
  }

  ghost predicate CashInFails(db: Db, r: CashInReq, error: Error) {
    match error
    case AMOUNT_NOT_POSITIVE => r.amount <= 0
    case WALLET_NOT_FOUND => r.amount > 0 && !HasWallet(db.accounts, r.wallet)
    case WALLET_NOT_OWNED =>
      r.amount > 0 && HasWallet(db.accounts, r.wallet) && !Owns(db.accounts, r.user, r.wallet)
    case _ => false
  }

  lemma CashInVerdictRows(db: Db, r: CashInReq)
    requires Distinct(db.accounts)
    ensures var v := CashInVerdict(db, r);
            && (v == Go <==> CashInGranted(db, r))
            && (v.Replay? <==> CashInAsked(db, r) && KeyTaken(db.log, r.key))
            && (v.Replay? ==> FindKey(db.log, r.key) == Some(v.id))
            && forall e :: v == Refuse(e) <==> CashInFails(db, r, e)
  {
    LookupsReadRows(db.accounts, r.wallet, r.user);
    KeyReadsRows(db.log, r.key);
    hide FindKey, OwnershipError, HasWallet, Owns, KeyTaken;
  }

  /** A cash-in posts exactly when the amount is positive, the user owns the wallet, no transaction has the key
      and no cash-in the reference, and no drawn id is taken.  When only the last two fail it answers NULL. */
  lemma CashInPostsExactly(db: Db, r: CashInReq)
    requires Distinct(db.accounts)
    ensures CashIn(db, r).0 != db <==> CashInGranted(db, r) && CashInFree(db, r)
    ensures CashIn(db, r).0 != db ==> CashIn(db, r).1 == Returned(Some(r.ids.txn))
    ensures CashIn(db, r).1 == Returned(None) <==> CashInGranted(db, r) && !CashInFree(db, r)
    ensures forall e :: CashIn(db, r).1 == Raised(e) <==> CashInFails(db, r, e)
    ensures CashInAsked(db, r) && KeyTaken(db.log, r.key) ==>
              exists t :: t in db.log && t.key == r.key && CashIn(db, r) == (db, Returned(Some(t.id)))
  {
    CashInVerdictRows(db, r);
    KeyReadsRows(db.log, r.key);
    var found := SystemAccount(db.accounts, r.systemOwner, r.country, SETTLEMENT, r.ids.settlement);
    SystemReadsRows(db.accounts, r.systemOwner, r.country, SETTLEMENT, r.ids.settlement);
    EntriesReadRows(db.log, r.ids, found.1, r.wallet, 0, r.amount, 0);
    var t := CashInTxn(r, found.1);
    assert TxnIdUsed(db.log, t.id) <==> TxnTaken(db.log, t.id);
    assert CashInRefUsed(db.log, r.providerRef) <==> ReferenceTaken(db.log, r.providerRef);
    assert |db.log + [t]| > |db.log|;
    hide CashInVerdict, SystemAccount, NewAccountFree, EntryIdsFree, DistinctEntryIds, EntryIdUsed, TxnIdUsed,
         TxnTaken, FindKey, KeyTaken, Legs, HasSystem, ApplyDelta, CashInRefUsed, ReferenceTaken, CashInFails, Owns;
  }

  /** What a cash-in writes: one transaction into the wallet without a fee, and at most the settlement account of
      its owner and country. */
  lemma CashInRows(db: Db, r: CashInReq) returns (settlement: Id, es: seq<Entry>)
    requires Distinct(db.accounts) && CashIn(db, r).0 != db
    ensures var after := CashIn(db, r).0;
            var opens := !HasSystem(db.accounts, r.systemOwner, r.country, SETTLEMENT);
            && EntriesAre(es, r.ids, settlement, r.wallet, 0, r.amount, 0)
            && after.log == db.log + [Txn(r.ids.txn, CASHIN, r.amount, r.key, r.providerRef, r.user, r.now, es)]
            && after.accounts == WithSystem(db.accounts, opens,
                                            Account(r.ids.settlement, SYSTEM, r.systemOwner, r.country, SETTLEMENT))
            && SystemAccountIs(after.accounts, settlement, r.systemOwner, r.country, SETTLEMENT)
  {
    var found := SystemAccount(db.accounts, r.systemOwner, r.country, SETTLEMENT, r.ids.settlement);
    settlement, es := found.1, Legs(r.ids, found.1, r.wallet, 0, r.amount, 0);
    SystemReadsRows(db.accounts, r.systemOwner, r.country, SETTLEMENT, r.ids.settlement);
    hide SystemAccount, UniqueViolation, HasSystem, ApplyDelta, Distinct;
  }

  /* ---- accounts ---- */

  ghost predicate OwnerHas(accounts: seq<Account>, acc: Account) {
    exists other :: other in accounts && other.owner == acc.owner && other.ownerId == acc.ownerId
                    && other.country == acc.country && other.kind == acc.kind
  }

  /** A registration opens the user's wallet exactly when nothing it names is taken, and changes nothing
      otherwise; it never touches a posted transaction or another balance. */
  lemma RegisterExactly(db: Db, taken: bool, user: Id, wallet: Id, country: Country)
    requires Inv(db)
    ensures var acc := Account(wallet, USER, user, country, WALLET);
            var after := Register(db, taken, user, wallet, country);
            if taken || AccountTaken(db.accounts, wallet) || OwnerHas(db.accounts, acc)
            then after == (db, Raised(ALREADY_EXISTS))
            else
              && after.1 == Returned(Some(user)) && after.0.accounts == db.accounts + [acc]
              && after.0.log == db.log && after.0.cache == db.cache[wallet := 0]
  {
    var acc := Account(wallet, USER, user, country, WALLET);
    LookupsReadRows(db.accounts, wallet, user);
    assert NaturalKeyUsed(db.accounts, acc) <==> OwnerHas(db.accounts, acc);
    hide NaturalKeyUsed, OwnerHas, Inv, AccountTaken;
    assert Structured(db) by { InvIsStructured(db); }
  }

  /** An account opened outside the postings needs a new id and a new owner, country and kind, and gets no cache
      row. */
  lemma OpenExactly(db: Db, acc: Account)
    requires Distinct(db.accounts)
    ensures OpenAccount(db, acc)
            == if AccountTaken(db.accounts, acc.id) || OwnerHas(db.accounts, acc) then (db, Raised(ALREADY_EXISTS))
               else (Db(db.accounts + [acc], db.log, db.cache), Returned(Some(acc.id)))
  {
    LookupsReadRows(db.accounts, acc.id, 0);
    assert NaturalKeyUsed(db.accounts, acc) <==> OwnerHas(db.accounts, acc);
  }

  lemma InvIsStructured(db: Db)
    requires Inv(db)
    ensures Structured(db)
  {
  }
}
