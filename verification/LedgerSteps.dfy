/**
 What one ledger call can do to the database: nothing, a new account, or one
 complete movement of money.  Every invariant of the ledger is proved from this.
 */
module LedgerSteps {
  import opened Wrappers
  import opened Fees
  import opened Ledger

  ghost predicate Distinct(accounts: seq<Account>) {
    forall i, j :: 0 <= i < j < |accounts| ==> accounts[i].id != accounts[j].id
  }

  function KindOf(accounts: seq<Account>, id: Id): Option<AccountKind> {
    var found := FindAccount(accounts, id);
    if found.Some? then Some(found.value.kind) else None
  }

  // Every entry is positive and names an account; so does every cache row.
  ghost predicate Structured(db: Db) {
    && Distinct(db.accounts)
    && (forall t, e :: t in db.log && e in t.entries ==> e.amount > 0 && AccountIdUsed(db.accounts, e.account))
    && (forall a :: a in db.cache ==> AccountIdUsed(db.accounts, a))
  }

  datatype Move = Move(payer: Id, payerKind: AccountKind, payee: Id, payeeKind: AccountKind,
                       feeAccount: Id, amount: int, fee: int)

  // Only wallets and fee accounts are cached; the settlement side never is.
  function MoveCache(cache: map<Id, int>, m: Move): map<Id, int> {
    var c1 := if m.fee > 0 then ApplyDelta(cache, m.feeAccount, m.fee) else cache;
    var c2 := if m.payerKind == WALLET then ApplyDelta(c1, m.payer, -(m.amount + m.fee)) else c1;
    if m.payeeKind == WALLET then ApplyDelta(c2, m.payee, m.amount) else c2
  }

  predicate KindsFit(kind: Kind, m: Move) {
    match kind
    case CASHIN => m.payerKind == SETTLEMENT && m.payeeKind == WALLET && m.fee == 0
    case CASHOUT => m.payerKind == WALLET && m.payeeKind == SETTLEMENT
    case P2P => m.payerKind == WALLET && m.payeeKind == WALLET
    case MERCHANT_PAY => false
  }

  predicate Extends(accounts: seq<Account>, accounts': seq<Account>) {
    |accounts| <= |accounts'| && accounts'[..|accounts|] == accounts
  }

  // The accounts a movement touches exist after it with the right kinds.
  ghost predicate AccountsFit(accounts: seq<Account>, accounts': seq<Account>, m: Move) {
    && Extends(accounts, accounts')
    && Distinct(accounts')
    && KindOf(accounts', m.payer) == Some(m.payerKind)
    && KindOf(accounts', m.payee) == Some(m.payeeKind)
    && (m.fee > 0 ==> KindOf(accounts', m.feeAccount) == Some(FEE_REVENUE))
  }

  ghost predicate Sound(db: Db, accounts: seq<Account>, t: Txn, ids: FreshIds, m: Move) {
    && t.entries == Legs(ids, m.payer, m.payee, m.feeAccount, m.amount, m.fee)
    && t.amount == m.amount > 0
    && m.fee >= 0
    && KindsFit(t.kind, m)
    && AccountsFit(db.accounts, accounts, m)
    && (m.payerKind == WALLET ==> AvailableBalance(db, m.payer) >= m.amount + m.fee)
  }

  ghost predicate Moved(db: Db, db': Db, t: Txn, ids: FreshIds, m: Move) {
    && db'.log == db.log + [t]
    && !UniqueViolation(db.log, t)
    && Sound(db, db'.accounts, t, ids, m)
    && db'.cache == MoveCache(db.cache, m)
  }

  // One account was added, cached at zero or not at all.
  ghost predicate Grown(db: Db, db': Db) {
    && db'.log == db.log
    && |db'.accounts| == |db.accounts| + 1
    && Extends(db.accounts, db'.accounts)
    && Distinct(db'.accounts)
    && var id := db'.accounts[|db.accounts|].id;
       && !AccountIdUsed(db.accounts, id)
       && (db'.cache == db.cache || db'.cache == db.cache[id := 0])
  }

  lemma FindMember(accounts: seq<Account>, acc: Account)
    requires Distinct(accounts) && acc in accounts
    ensures FindAccount(accounts, acc.id) == Some(acc)
  {
  }

  lemma {:induction false} FindInLonger(accounts: seq<Account>, more: seq<Account>, id: Id)
    ensures FindAccount(accounts + more, id) ==
            (if AccountIdUsed(accounts, id) then FindAccount(accounts, id) else FindAccount(more, id))
  {
    if accounts == [] {
      assert accounts + more == more;
    } else {
      assert (accounts + more)[1..] == accounts[1..] + more;
      FindInLonger(accounts[1..], more, id);
    }
  }

  lemma KindKept(accounts: seq<Account>, accounts': seq<Account>, id: Id)
    requires Extends(accounts, accounts') && AccountIdUsed(accounts, id)
    ensures FindAccount(accounts', id) == FindAccount(accounts, id)
  {
  }

  lemma SystemAccountKind(accounts: seq<Account>, owner: Id, country: Country, kind: AccountKind, newId: Id)
    requires Distinct(accounts)
    ensures var (accounts', id, clash) := SystemAccount(accounts, owner, country, kind, newId);
            !clash ==> Extends(accounts, accounts') && Distinct(accounts') && KindOf(accounts', id) == Some(kind)
  {
  }

  lemma ExtendsTransitive(a: seq<Account>, b: seq<Account>, c: seq<Account>)
    requires Extends(a, b) && Extends(b, c)
    ensures Extends(a, c)
  {
  }

  lemma KeepsKind(accounts: seq<Account>, accounts': seq<Account>, id: Id, kind: AccountKind)
    requires Extends(accounts, accounts') && KindOf(accounts, id) == Some(kind)
    ensures KindOf(accounts', id) == Some(kind)
  {
    KindKept(accounts, accounts', id);
  }

  lemma FeeAccountOpens(accounts: seq<Account>, owner: Id, country: Country, fee: int, newId: Id)
    requires Distinct(accounts)
    ensures var (accounts', id, clash) := FeeAccount(accounts, owner, country, fee, newId);
            !clash ==> Extends(accounts, accounts') && Distinct(accounts')
                       && (fee > 0 ==> KindOf(accounts', id) == Some(FEE_REVENUE))
  {
    SystemAccountKind(accounts, owner, country, FEE_REVENUE, newId);
  }

  lemma PostMoves(db: Db, accounts: seq<Account>, clash: bool, t: Txn, ids: FreshIds, m: Move)
    requires Post(db, accounts, clash, MoveCache(db.cache, m), t).0 != db
    requires !clash ==> Sound(db, accounts, t, ids, m)
    ensures Moved(db, Post(db, accounts, clash, MoveCache(db.cache, m), t).0, t, ids, m)
    ensures Post(db, accounts, clash, MoveCache(db.cache, m), t).1 == Returned(Some(t.id))
  {
  }

  predicate Describes(t: Txn, kind: Kind, id: Id, author: Id, at: nat, key: string) {
    t.kind == kind && t.id == id && t.createdBy == author && t.createdAt == at && t.key == key
  }

  lemma CashInMoves(db: Db, r: CashInReq) returns (t: Txn, m: Move)
    requires Distinct(db.accounts)
    requires CashIn(db, r).0 != db
    ensures Moved(db, CashIn(db, r).0, t, r.ids, m)
    ensures Describes(t, CASHIN, r.ids.txn, r.user, r.now, r.key) && t.externalRef == r.providerRef
    ensures m.payee == r.wallet && m.amount == r.amount
    ensures CashIn(db, r).1 == Returned(Some(t.id)) && CashInVerdict(db, r) == Go
  {
    var (accounts, settlement, clash) :=
      SystemAccount(db.accounts, r.systemOwner, r.country, SETTLEMENT, r.ids.settlement);
    t := CashInTxn(r, settlement);
    m := Move(settlement, SETTLEMENT, r.wallet, WALLET, 0, r.amount, 0);
    SystemAccountKind(db.accounts, r.systemOwner, r.country, SETTLEMENT, r.ids.settlement);
    KeepsKind(db.accounts, accounts, r.wallet, WALLET);
    PostMoves(db, accounts, clash, t, r.ids, m);
  }

  lemma CashOutGo(cfg: Config, db: Db, r: CashOutReq)
    requires CashOutVerdict(cfg, db, r) == Go
    ensures r.actor.Some? && r.amount > 0
    ensures KindOf(db.accounts, r.wallet) == Some(WALLET)
    ensures AvailableBalance(db, r.wallet) >= r.amount + CashOutFee(cfg, r)
  {
  }

  lemma CashOutAccountsFit(accounts: seq<Account>, r: CashOutReq, fee: int)
    requires Distinct(accounts) && KindOf(accounts, r.wallet) == Some(WALLET)
    ensures var (accounts', settlement, feeAccount, clash) := CashOutAccounts(accounts, r, fee);
            !clash ==>
              AccountsFit(accounts, accounts',
                          Move(r.wallet, WALLET, settlement, SETTLEMENT, feeAccount, r.amount, fee))
  {
    var (accounts', settlement, clash) :=
      SystemAccount(accounts, r.systemOwner, r.country, SETTLEMENT, r.ids.settlement);
    SystemAccountKind(accounts, r.systemOwner, r.country, SETTLEMENT, r.ids.settlement);
    if !clash {
      FeeAccountOpens(accounts', r.systemOwner, r.country, fee, r.ids.feeAccount);
      var (accounts'', feeAccount, clash') :=
        FeeAccount(accounts', r.systemOwner, r.country, fee, r.ids.feeAccount);
      if !clash' {
        ExtendsTransitive(accounts, accounts', accounts'');
        KeepsKind(accounts', accounts'', settlement, SETTLEMENT);
        KeepsKind(accounts, accounts'', r.wallet, WALLET);
      }
    }
  }

  // The posting itself, whatever accounts the lookups found.
  lemma CashOutWrites(db: Db, r: CashOutReq, fee: int, accounts: seq<Account>, clash: bool, t: Txn, m: Move)
    requires r.actor.Some? && r.amount > 0 && fee >= 0
    requires AvailableBalance(db, r.wallet) >= r.amount + fee
    requires m == Move(r.wallet, WALLET, m.payee, SETTLEMENT, m.feeAccount, r.amount, fee)
    requires t == CashOutTxn(r, m.payee, m.feeAccount, fee)
    requires !clash ==> AccountsFit(db.accounts, accounts, m)
    requires Post(db, accounts, clash, MoveCache(db.cache, m), t).0 != db
    ensures Moved(db, Post(db, accounts, clash, MoveCache(db.cache, m), t).0, t, r.ids, m)
    ensures Post(db, accounts, clash, MoveCache(db.cache, m), t).1 == Returned(Some(t.id))
    ensures Describes(t, CASHOUT, r.ids.txn, r.actor.value, r.now, r.key) && t.externalRef == r.providerRef
  {
  }

  function CashOutMove(db: Db, r: CashOutReq, fee: int): Move {
    var (accounts, settlement, feeAccount, clash) := CashOutAccounts(db.accounts, r, fee);
    Move(r.wallet, WALLET, settlement, SETTLEMENT, feeAccount, r.amount, fee)
  }

  lemma CashOutPostIs(db: Db, r: CashOutReq, fee: int)
    requires r.actor.Some?
    ensures var m := CashOutMove(db, r, fee);
            var found := CashOutAccounts(db.accounts, r, fee);
            CashOutPost(db, r, fee) ==
            Post(db, found.0, found.3, MoveCache(db.cache, m), CashOutTxn(r, m.payee, m.feeAccount, fee))
  {
  }

  lemma CashOutPostMoves(db: Db, r: CashOutReq, fee: int) returns (db': Db, t: Txn, m: Move)
    requires Distinct(db.accounts) && r.actor.Some? && r.amount > 0 && fee >= 0
    requires KindOf(db.accounts, r.wallet) == Some(WALLET) && AvailableBalance(db, r.wallet) >= r.amount + fee
    requires CashOutPost(db, r, fee).0 != db
    ensures CashOutPost(db, r, fee) == (db', Returned(Some(t.id)))
    ensures Moved(db, db', t, r.ids, m)
    ensures Describes(t, CASHOUT, r.ids.txn, r.actor.value, r.now, r.key) && t.externalRef == r.providerRef
    ensures m.payer == r.wallet && m.amount == r.amount && m.fee == fee
  {
    CashOutAccountsFit(db.accounts, r, fee);
    CashOutPostIs(db, r, fee);
    m := CashOutMove(db, r, fee);
    t := CashOutTxn(r, m.payee, m.feeAccount, fee);
    db' := CashOutPost(db, r, fee).0;
    var found := CashOutAccounts(db.accounts, r, fee);
    CashOutWrites(db, r, fee, found.0, found.3, t, m);
  }

  lemma CashOutMoves(cfg: Config, db: Db, r: CashOutReq) returns (t: Txn, m: Move)
    requires Distinct(db.accounts)
    requires CashOut(cfg, db, r).0 != db
    ensures r.actor.Some?
    ensures Moved(db, CashOut(cfg, db, r).0, t, r.ids, m)
    ensures Describes(t, CASHOUT, r.ids.txn, r.actor.value, r.now, r.key) && t.externalRef == r.providerRef
    ensures m.payer == r.wallet && m.amount == r.amount && m.fee == CashOutFee(cfg, r)
    ensures CashOut(cfg, db, r).1 == Returned(Some(t.id)) && CashOutVerdict(cfg, db, r) == Go
  {
    CashOutGo(cfg, db, r);
    var db';
    db', t, m := CashOutPostMoves(db, r, CashOutFee(cfg, r));
  }

  lemma P2PGo(cfg: Config, db: Db, r: P2PReq)
    requires P2PVerdict(cfg, db, r) == Go
    ensures r.actor.Some? && r.amount > 0
    ensures KindOf(db.accounts, r.sender) == Some(WALLET) && KindOf(db.accounts, r.receiver) == Some(WALLET)
    ensures AvailableBalance(db, r.sender) >= r.amount + P2PFee(cfg, r)
  {
  }

  lemma P2PAccountsFit(accounts: seq<Account>, r: P2PReq, fee: int)
    requires Distinct(accounts)
    requires KindOf(accounts, r.sender) == Some(WALLET) && KindOf(accounts, r.receiver) == Some(WALLET)
    ensures var (accounts', feeAccount, clash) :=
              FeeAccount(accounts, r.systemOwner, r.country, fee, r.ids.feeAccount);
            !clash ==>
              AccountsFit(accounts, accounts', Move(r.sender, WALLET, r.receiver, WALLET, feeAccount, r.amount, fee))
  {
    var (accounts', feeAccount, clash) := FeeAccount(accounts, r.systemOwner, r.country, fee, r.ids.feeAccount);
    FeeAccountOpens(accounts, r.systemOwner, r.country, fee, r.ids.feeAccount);
    if !clash {
      KeepsKind(accounts, accounts', r.sender, WALLET);
      KeepsKind(accounts, accounts', r.receiver, WALLET);
    }
  }

  // The posting itself, whatever fee account the lookup found.
  lemma P2PWrites(db: Db, r: P2PReq, fee: int, accounts: seq<Account>, clash: bool, t: Txn, m: Move)
    requires r.actor.Some? && r.amount > 0 && fee >= 0 && AvailableBalance(db, r.sender) >= r.amount + fee
    requires m == Move(r.sender, WALLET, r.receiver, WALLET, m.feeAccount, r.amount, fee)
    requires t == P2PTxn(r, m.feeAccount, fee)
    requires !clash ==> AccountsFit(db.accounts, accounts, m)
    requires Post(db, accounts, clash, MoveCache(db.cache, m), t).0 != db
    ensures Moved(db, Post(db, accounts, clash, MoveCache(db.cache, m), t).0, t, r.ids, m)
    ensures Post(db, accounts, clash, MoveCache(db.cache, m), t).1 == Returned(Some(t.id))
  {
  }

  lemma P2PPostIs(db: Db, r: P2PReq, fee: int, m: Move)
    requires r.actor.Some?
    requires var found := FeeAccount(db.accounts, r.systemOwner, r.country, fee, r.ids.feeAccount);
             m == Move(r.sender, WALLET, r.receiver, WALLET, found.1, r.amount, fee)
    ensures var found := FeeAccount(db.accounts, r.systemOwner, r.country, fee, r.ids.feeAccount);
            P2PPost(db, r, fee) == Post(db, found.0, found.2, MoveCache(db.cache, m), P2PTxn(r, m.feeAccount, fee))
  {
  }

  lemma P2PPostMoves(db: Db, r: P2PReq, fee: int) returns (t: Txn, m: Move)
    requires Distinct(db.accounts) && r.actor.Some? && r.amount > 0 && fee >= 0
    requires KindOf(db.accounts, r.sender) == Some(WALLET) && KindOf(db.accounts, r.receiver) == Some(WALLET)
    requires AvailableBalance(db, r.sender) >= r.amount + fee
    requires P2PPost(db, r, fee).0 != db
    ensures Moved(db, P2PPost(db, r, fee).0, t, r.ids, m)
    ensures Describes(t, P2P, r.ids.txn, r.actor.value, r.now, r.key)
    ensures m.payer == r.sender && m.payee == r.receiver && m.amount == r.amount && m.fee == fee
    ensures P2PPost(db, r, fee).1 == Returned(Some(t.id))
  {
    P2PAccountsFit(db.accounts, r, fee);
    var found := FeeAccount(db.accounts, r.systemOwner, r.country, fee, r.ids.feeAccount);
    t := P2PTxn(r, found.1, fee);
    m := Move(r.sender, WALLET, r.receiver, WALLET, found.1, r.amount, fee);
    P2PPostIs(db, r, fee, m);
    hide FeeAccount, Post, MoveCache, P2PPost, Moved, AccountsFit, AvailableBalance, KindOf, Legs;
    P2PWrites(db, r, fee, found.0, found.2, t, m);
  }

  lemma TransferMoves(cfg: Config, db: Db, r: P2PReq) returns (t: Txn, m: Move)
    requires Distinct(db.accounts)
    requires Transfer(cfg, db, r).0 != db
    ensures r.actor.Some?
    ensures Moved(db, Transfer(cfg, db, r).0, t, r.ids, m)
    ensures Describes(t, P2P, r.ids.txn, r.actor.value, r.now, r.key)
    ensures m.payer == r.sender && m.payee == r.receiver && m.amount == r.amount && m.fee == P2PFee(cfg, r)
    ensures Transfer(cfg, db, r).1 == Returned(Some(t.id)) && P2PVerdict(cfg, db, r) == Go
  {
    P2PGo(cfg, db, r);
    t, m := P2PPostMoves(db, r, P2PFee(cfg, r));
  }

  lemma AccountsGrow(db: Db, acc: Account, db': Db)
    requires Distinct(db.accounts) && !AccountIdUsed(db.accounts, acc.id)
    requires db'.accounts == db.accounts + [acc] && db'.log == db.log
    requires db'.cache == db.cache || db'.cache == db.cache[acc.id := 0]
    ensures Grown(db, db')
  {
  }

  /** Every ledger call leaves the database alone, adds one account, or makes one movement. */
  lemma StepShape(cfg: Config, db: Db, op: Op) returns (t: Txn, ids: FreshIds, m: Move)
    requires Distinct(db.accounts)
    ensures var db' := Apply(cfg, db, op).0;
            db' == db || Grown(db, db') || Moved(db, db', t, ids, m)
    ensures var db' := Apply(cfg, db, op).0;
            op.OpOpen? || op.OpRegister? ==> db' == db || Grown(db, db')
  {
    t, ids, m := *, *, *;
    var db' := Apply(cfg, db, op).0;
    if db' != db {
      match op
      case OpOpen(acc) => AccountsGrow(db, acc, db');
      case OpRegister(taken, user, wallet, country) =>
        AccountsGrow(db, Account(wallet, USER, user, country, WALLET), db');
      case OpCashIn(r) => t, m := CashInMoves(db, r); ids := r.ids;
      case OpCashOut(r) => t, m := CashOutMoves(cfg, db, r); ids := r.ids;
      case OpP2P(r) => t, m := TransferMoves(cfg, db, r); ids := r.ids;
    }
  }
}
