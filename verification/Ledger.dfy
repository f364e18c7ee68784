/**
 The double-entry ledger as database values: accounts, posted transactions with
 their entries, the cached balances, and what each posting procedure does to them.
 */
module Ledger {
  import opened Wrappers
  import opened Calendar
  import opened Fees

  datatype Party = USER | MERCHANT | SYSTEM
  datatype AccountKind = WALLET | SETTLEMENT | FEE_REVENUE
  datatype Account = Account(id: Id, owner: Party, ownerId: Id, country: Country, kind: AccountKind)

  datatype Dc = DEBIT | CREDIT
  datatype Entry = Entry(id: Id, account: Id, dc: Dc, amount: int)

  // A row of ledger_transactions together with the ledger_entries that reference it.
  // Every posting writes status POSTED, and its entries share the transaction's now().
  datatype Txn = Txn(id: Id, kind: Kind, amount: int, key: string, externalRef: Option<string>,
                     createdBy: Id, createdAt: nat, entries: seq<Entry>)

  datatype Db = Db(accounts: seq<Account>, log: seq<Txn>, cache: map<Id, int>)

  const EMPTY := Db([], [], map[])

  datatype TierLimits = TierLimits(dailySend: int, monthlySend: int, dailyCashout: int)

  // Tables that postings only read; `limits` holds the active rows of account_limits.
  datatype Config = Config(rules: seq<FeeRule>, tiers: map<Id, int>, limits: map<int, TierLimits>)

  datatype Error = AMOUNT_NOT_POSITIVE | UNAUTHORIZED | WALLET_NOT_FOUND | WALLET_NOT_OWNED
                 | INSUFFICIENT_FUNDS | NO_LIMITS | DAILY_LIMIT | MONTHLY_LIMIT | ALREADY_EXISTS

  // A procedure raises, or returns a transaction id that may be NULL.
  datatype Answer = Returned(id: Option<Id>) | Raised(error: Error)

  // Ids drawn by gen_random_uuid() during one posting.
  datatype FreshIds = FreshIds(txn: Id, settlement: Id, feeAccount: Id, e0: Id, e1: Id, e2: Id)

  datatype CashInReq = CashInReq(wallet: Id, user: Id, amount: int, country: Country, key: string,
                                 providerRef: Option<string>, systemOwner: Id, now: nat, ids: FreshIds)
  // `actor` is the session user, absent when none is set.
  datatype CashOutReq = CashOutReq(actor: Option<Id>, wallet: Id, amount: int, country: Country, key: string,
                                   providerRef: Option<string>, systemOwner: Id, now: nat, ids: FreshIds)
  datatype P2PReq = P2PReq(actor: Option<Id>, sender: Id, receiver: Id, amount: int, country: Country,
                           key: string, systemOwner: Id, now: nat, ids: FreshIds)

  /* ---- reads ---- */

  function Signed(e: Entry): int {
    if e.dc == CREDIT then e.amount else -e.amount
  }

  function NetOf(es: seq<Entry>, a: Id): int {
    if es == [] then 0
    else (if es[0].account == a then Signed(es[0]) else 0) + NetOf(es[1..], a)
  }

  // The signed entry sum of one account.
  function LedgerSum(log: seq<Txn>, a: Id): int {
    if log == [] then 0 else LedgerSum(log[..|log| - 1], a) + NetOf(log[|log| - 1].entries, a)
  }

  function AvailableBalance(db: Db, a: Id): int {
    if a in db.cache then db.cache[a] else LedgerSum(db.log, a)
  }

  function FindAccount(accounts: seq<Account>, id: Id): (found: Option<Account>)
    ensures found.Some? ==> found.value in accounts && found.value.id == id
    ensures found.None? ==> forall acc :: acc in accounts ==> acc.id != id
  {
    if accounts == [] then None
    else if accounts[0].id == id then Some(accounts[0])
    else FindAccount(accounts[1..], id)
  }

  predicate IsSystem(acc: Account, owner: Id, country: Country, kind: AccountKind) {
    acc.owner == SYSTEM && acc.ownerId == owner && acc.country == country && acc.kind == kind
  }

  function FindSystem(accounts: seq<Account>, owner: Id, country: Country, kind: AccountKind): (found: Option<Account>)
    ensures found.Some? ==> found.value in accounts && IsSystem(found.value, owner, country, kind)
    ensures found.None? ==> forall acc :: acc in accounts ==> !IsSystem(acc, owner, country, kind)
  {
    if accounts == [] then None
    else if IsSystem(accounts[0], owner, country, kind) then Some(accounts[0])
    else FindSystem(accounts[1..], owner, country, kind)
  }

  function FindKey(log: seq<Txn>, key: string): (found: Option<Id>)
    ensures found.None? <==> forall t :: t in log ==> t.key != key
    ensures found.Some? ==> exists t :: t in log && t.key == key && t.id == found.value
  {
    if log == [] then None
    else if log[0].key == key then Some(log[0].id)
    else FindKey(log[1..], key)
  }

  function DebitsOf(es: seq<Entry>, a: Id): int {
    if es == [] then 0
    else (if es[0].account == a && es[0].dc == DEBIT then es[0].amount else 0) + DebitsOf(es[1..], a)
  }

  predicate Counts(t: Txn, kinds: set<Kind>, w: Window) {
    t.kind in kinds && w.Has(t.createdAt)
  }

  function SumDebits(log: seq<Txn>, a: Id, kinds: set<Kind>, w: Window): int {
    if log == [] then 0
    else
      var t := log[|log| - 1];
      SumDebits(log[..|log| - 1], a, kinds, w) + (if Counts(t, kinds, w) then DebitsOf(t.entries, a) else 0)
  }

  function UserTier(cfg: Config, user: Id): int {
    if user in cfg.tiers then cfg.tiers[user] else 1
  }

  function LimitsOf(cfg: Config, user: Id): Option<TierLimits> {
    var tier := UserTier(cfg, user);
    if tier in cfg.limits then Some(cfg.limits[tier]) else None
  }

  // ledger.assert_wallet_owned_by_user
  function OwnershipError(accounts: seq<Account>, wallet: Id, user: Id): Option<Error> {
    var found := FindAccount(accounts, wallet);
    if found.None? || found.value.kind != WALLET then Some(WALLET_NOT_FOUND)
    else if found.value.owner != USER || found.value.ownerId != user then Some(WALLET_NOT_OWNED)
    else None
  }

  // ledger.assert_wallet_owned_by_session_user
  function SessionError(accounts: seq<Account>, wallet: Id, actor: Option<Id>): Option<Error> {
    if actor.None? then Some(UNAUTHORIZED) else OwnershipError(accounts, wallet, actor.value)
  }

  predicate IsWallet(accounts: seq<Account>, id: Id) {
    var found := FindAccount(accounts, id);
    found.Some? && found.value.kind == WALLET
  }

  /* ---- writes ---- */

  function ApplyDelta(cache: map<Id, int>, a: Id, delta: int): map<Id, int> {
    cache[a := (if a in cache then cache[a] else 0) + delta]
  }

  predicate AccountIdUsed(accounts: seq<Account>, id: Id) {
    FindAccount(accounts, id).Some?
  }

  // The account table after ledger.get_system_account, the account's id, and
  // whether the insert broke the primary key.
  function SystemAccount(accounts: seq<Account>, owner: Id, country: Country, kind: AccountKind, newId: Id)
    : (seq<Account>, Id, bool)
  {
    var found := FindSystem(accounts, owner, country, kind);
    if found.Some? then (accounts, found.value.id, false)
    else (accounts + [Account(newId, SYSTEM, owner, country, kind)], newId, AccountIdUsed(accounts, newId))
  }

  predicate EntryIdUsed(log: seq<Txn>, id: Id) {
    exists t, e :: t in log && e in t.entries && e.id == id
  }

  predicate TxnIdUsed(log: seq<Txn>, id: Id) {
    exists t :: t in log && t.id == id
  }

  predicate DistinctEntryIds(es: seq<Entry>) {
    forall i, j :: 0 <= i < j < |es| ==> es[i].id != es[j].id
  }

  // uq_cash_in_provider_ref: unique over CASHIN rows with a reference.
  predicate CashInRefUsed(log: seq<Txn>, ref: Option<string>) {
    ref.Some? && exists t :: t in log && t.kind == CASHIN && t.externalRef == ref
  }

  predicate UniqueViolation(log: seq<Txn>, t: Txn) {
    || TxnIdUsed(log, t.id)
    || FindKey(log, t.key).Some?
    || !DistinctEntryIds(t.entries)
    || (exists e :: e in t.entries && EntryIdUsed(log, e.id))
    || (t.kind == CASHIN && CashInRefUsed(log, t.externalRef))
  }

  // Both sides of a movement of `amount` from payer to payee, the payer also bearing the fee.
  function Legs(f: FreshIds, payer: Id, payee: Id, feeAccount: Id, amount: int, fee: int): seq<Entry> {
    [Entry(f.e0, payer, DEBIT, amount + fee), Entry(f.e1, payee, CREDIT, amount)] +
    (if fee > 0 then [Entry(f.e2, feeAccount, CREDIT, fee)] else [])
  }

  // One posting: the rows are written together, or a unique violation rolls all of
  // them back and the key is looked up again.
  function Post(db: Db, accounts: seq<Account>, clash: bool, cache: map<Id, int>, t: Txn): (Db, Answer) {
    if clash || UniqueViolation(db.log, t) then (db, Returned(FindKey(db.log, t.key)))
    else (Db(accounts, db.log + [t], cache), Returned(Some(t.id)))
  }

  // Decision of a posting before it writes anything.
  datatype Verdict = Refuse(error: Error) | Replay(id: Id) | Go

  function CashInVerdict(db: Db, r: CashInReq): Verdict {
    var ownership := OwnershipError(db.accounts, r.wallet, r.user);
    var seen := FindKey(db.log, r.key);
    if r.amount <= 0 then Refuse(AMOUNT_NOT_POSITIVE)
    else if ownership.Some? then Refuse(ownership.value)
    else if seen.Some? then Replay(seen.value)
    else Go
  }

  function CashInTxn(r: CashInReq, settlement: Id): Txn {
    Txn(r.ids.txn, CASHIN, r.amount, r.key, r.providerRef, r.user, r.now,
        Legs(r.ids, settlement, r.wallet, 0, r.amount, 0))
  }

  function CashIn(db: Db, r: CashInReq): (Db, Answer) {
    match CashInVerdict(db, r)
    case Refuse(e) => (db, Raised(e))
    case Replay(id) => (db, Returned(Some(id)))
    case Go =>
      var (accounts, settlement, clash) :=
        SystemAccount(db.accounts, r.systemOwner, r.country, SETTLEMENT, r.ids.settlement);
      Post(db, accounts, clash, ApplyDelta(db.cache, r.wallet, r.amount), CashInTxn(r, settlement))
  }

  function CashOutFee(cfg: Config, r: CashOutReq): (fee: int)
    ensures fee >= 0
  {
    ComputeFee(cfg.rules, CASHOUT, r.country, r.amount)
  }

  function CashOutVerdict(cfg: Config, db: Db, r: CashOutReq): Verdict {
    var session := SessionError(db.accounts, r.wallet, r.actor);
    var seen := FindKey(db.log, r.key);
    if r.amount <= 0 then Refuse(AMOUNT_NOT_POSITIVE)
    else if session.Some? then Refuse(session.value)
    else if seen.Some? then Replay(seen.value)
    else if AvailableBalance(db, r.wallet) < r.amount + CashOutFee(cfg, r) then Refuse(INSUFFICIENT_FUNDS)
    else
      var lim := LimitsOf(cfg, r.actor.value);
      if lim.None? then Refuse(NO_LIMITS)
      else if SumDebits(db.log, r.wallet, {CASHOUT}, DayWindow(r.now)) + r.amount > lim.value.dailyCashout
      then Refuse(DAILY_LIMIT)
      else Go
  }

  function CashOutTxn(r: CashOutReq, settlement: Id, feeAccount: Id, fee: int): Txn
    requires r.actor.Some?
  {
    Txn(r.ids.txn, CASHOUT, r.amount, r.key, r.providerRef, r.actor.value, r.now,
        Legs(r.ids, r.wallet, settlement, feeAccount, r.amount, fee))
  }

  function FeeAccount(accounts: seq<Account>, owner: Id, country: Country, fee: int, newId: Id)
    : (seq<Account>, Id, bool)
  {
    if fee > 0 then SystemAccount(accounts, owner, country, FEE_REVENUE, newId) else (accounts, 0, false)
  }

  // The accounts after both lookups, the settlement and fee account ids, and a key clash.
  function CashOutAccounts(accounts: seq<Account>, r: CashOutReq, fee: int): (seq<Account>, Id, Id, bool) {
    var (accounts', settlement, clash) :=
      SystemAccount(accounts, r.systemOwner, r.country, SETTLEMENT, r.ids.settlement);
    var (accounts'', feeAccount, clash') :=
      FeeAccount(accounts', r.systemOwner, r.country, fee, r.ids.feeAccount);
    (accounts'', settlement, feeAccount, clash || clash')
  }

  function CashOutPost(db: Db, r: CashOutReq, fee: int): (Db, Answer)
    requires r.actor.Some?
  {
    var (accounts, settlement, feeAccount, clash) := CashOutAccounts(db.accounts, r, fee);
    var cache := if fee > 0 then ApplyDelta(db.cache, feeAccount, fee) else db.cache;
    Post(db, accounts, clash, ApplyDelta(cache, r.wallet, -(r.amount + fee)),
         CashOutTxn(r, settlement, feeAccount, fee))
  }

  function CashOut(cfg: Config, db: Db, r: CashOutReq): (Db, Answer) {
    match CashOutVerdict(cfg, db, r)
    case Refuse(e) => (db, Raised(e))
    case Replay(id) => (db, Returned(Some(id)))
    case Go => CashOutPost(db, r, CashOutFee(cfg, r))
  }

  function P2PFee(cfg: Config, r: P2PReq): (fee: int)
    ensures fee >= 0
  {
    ComputeFee(cfg.rules, P2P, r.country, r.amount)
  }

  const SEND_KINDS: set<Kind> := {P2P, MERCHANT_PAY}

  function P2PVerdict(cfg: Config, db: Db, r: P2PReq): Verdict {
    var session := SessionError(db.accounts, r.sender, r.actor);
    var seen := FindKey(db.log, r.key);
    if r.amount <= 0 then Refuse(AMOUNT_NOT_POSITIVE)
    else if session.Some? then Refuse(session.value)
    else if !IsWallet(db.accounts, r.receiver) then Refuse(WALLET_NOT_FOUND)
    else if seen.Some? then Replay(seen.value)
    else if AvailableBalance(db, r.sender) < r.amount + P2PFee(cfg, r) then Refuse(INSUFFICIENT_FUNDS)
    else
      var lim := LimitsOf(cfg, r.actor.value);
      if lim.None? then Refuse(NO_LIMITS)
      else if SumDebits(db.log, r.sender, SEND_KINDS, DayWindow(r.now)) + r.amount > lim.value.dailySend
      then Refuse(DAILY_LIMIT)
      else if SumDebits(db.log, r.sender, SEND_KINDS, MonthWindow(r.now)) + r.amount > lim.value.monthlySend
      then Refuse(MONTHLY_LIMIT)
      else Go
  }

  function P2PTxn(r: P2PReq, feeAccount: Id, fee: int): Txn
    requires r.actor.Some?
  {
    Txn(r.ids.txn, P2P, r.amount, r.key, None, r.actor.value, r.now,
        Legs(r.ids, r.sender, r.receiver, feeAccount, r.amount, fee))
  }

  function P2PPost(db: Db, r: P2PReq, fee: int): (Db, Answer)
    requires r.actor.Some?
  {
    var (accounts, feeAccount, clash) :=
      FeeAccount(db.accounts, r.systemOwner, r.country, fee, r.ids.feeAccount);
    var cache := if fee > 0 then ApplyDelta(db.cache, feeAccount, fee) else db.cache;
    Post(db, accounts, clash,
         ApplyDelta(ApplyDelta(cache, r.sender, -(r.amount + fee)), r.receiver, r.amount),
         P2PTxn(r, feeAccount, fee))
  }

  function Transfer(cfg: Config, db: Db, r: P2PReq): (Db, Answer) {
    match P2PVerdict(cfg, db, r)
    case Refuse(e) => (db, Raised(e))
    case Replay(id) => (db, Returned(Some(id)))
    case Go => P2PPost(db, r, P2PFee(cfg, r))
  }

  predicate NaturalKeyUsed(accounts: seq<Account>, acc: Account) {
    exists other :: other in accounts && other.(id := acc.id) == acc
  }

  // An account inserted outside the posting procedures, without a cache row.
  function OpenAccount(db: Db, acc: Account): (Db, Answer) {
    if AccountIdUsed(db.accounts, acc.id) || NaturalKeyUsed(db.accounts, acc) then (db, Raised(ALREADY_EXISTS))
    else (db.(accounts := db.accounts + [acc]), Returned(Some(acc.id)))
  }

  // users.register_user_secure: a user wallet with a zero cache row.  `taken` says that
  // the users table already holds the e-mail address, the phone number or the id.
  function Register(db: Db, taken: bool, user: Id, wallet: Id, country: Country): (Db, Answer) {
    var acc := Account(wallet, USER, user, country, WALLET);
    if taken || AccountIdUsed(db.accounts, wallet) || NaturalKeyUsed(db.accounts, acc)
    then (db, Raised(ALREADY_EXISTS))
    else
      (Db(db.accounts + [acc], db.log, if wallet in db.cache then db.cache else db.cache[wallet := 0]),
       Returned(Some(user)))
  }

  /* ---- histories ---- */

  datatype Op =
    | OpOpen(account: Account)
    | OpRegister(taken: bool, user: Id, wallet: Id, country: Country)
    | OpCashIn(cashIn: CashInReq)
    | OpCashOut(cashOut: CashOutReq)
    | OpP2P(p2p: P2PReq)

  function Apply(cfg: Config, db: Db, op: Op): (Db, Answer) {
    match op
    case OpOpen(acc) => OpenAccount(db, acc)
    case OpRegister(taken, user, wallet, country) => Register(db, taken, user, wallet, country)
    case OpCashIn(r) => CashIn(db, r)
    case OpCashOut(r) => CashOut(cfg, db, r)
    case OpP2P(r) => Transfer(cfg, db, r)
  }

  // The database after a serial history of calls.
  function Run(cfg: Config, db: Db, ops: seq<Op>): Db
    decreases |ops|
  {
    if ops == [] then db else Run(cfg, Apply(cfg, db, ops[0]).0, ops[1..])
  }
}
