/**
 Ledger theorems over every serial history: the cache agrees with the entry log,
 money is conserved, wallets stay solvent, unique keys hold.
 */
module LedgerProofs {
  import opened Wrappers
  import opened Fees
  import opened Ledger
  import opened LedgerSteps

  /* ---- entry sums ---- */

  // What one movement does to the signed sum of account `a`.
  function Delta(m: Move, a: Id): int {
    (if a == m.payer then -(m.amount + m.fee) else 0) +
    (if a == m.payee then m.amount else 0) +
    (if m.fee > 0 && a == m.feeAccount then m.fee else 0)
  }

  lemma LegsNet(ids: FreshIds, m: Move, a: Id)
    ensures NetOf(Legs(ids, m.payer, m.payee, m.feeAccount, m.amount, m.fee), a) == Delta(m, a)
  {
    var es := Legs(ids, m.payer, m.payee, m.feeAccount, m.amount, m.fee);
    assert NetOf(es, a) == (if es[0].account == a then Signed(es[0]) else 0) + NetOf(es[1..], a);
    assert NetOf(es[1..], a) == (if es[1].account == a then Signed(es[1]) else 0) + NetOf(es[1..][1..], a);
    if m.fee > 0 {
      assert es[1..][1..] == [es[2]];
    } else {
      assert es[1..][1..] == [];
    }
  }

  lemma SumAppend(log: seq<Txn>, t: Txn, a: Id)
    ensures LedgerSum(log + [t], a) == LedgerSum(log, a) + NetOf(t.entries, a)
  {
  }

  lemma {:induction false} UntouchedNet(es: seq<Entry>, a: Id)
    requires forall e :: e in es ==> e.account != a
    ensures NetOf(es, a) == 0
  {
    if es != [] {
      UntouchedNet(es[1..], a);
    }
  }

  lemma {:induction false} UntouchedSum(log: seq<Txn>, a: Id)
    requires forall t, e :: t in log && e in t.entries ==> e.account != a
    ensures LedgerSum(log, a) == 0
  {
    if log != [] {
      UntouchedSum(log[..|log| - 1], a);
      UntouchedNet(log[|log| - 1].entries, a);
    }
  }

  lemma UnknownAccountSum(db: Db, a: Id)
    requires Structured(db) && !AccountIdUsed(db.accounts, a)
    ensures LedgerSum(db.log, a) == 0
  {
    UntouchedSum(db.log, a);
  }

  lemma MoveSums(db: Db, db': Db, t: Txn, ids: FreshIds, m: Move, a: Id)
    requires Moved(db, db', t, ids, m)
    ensures LedgerSum(db'.log, a) == LedgerSum(db.log, a) + Delta(m, a)
  {
    SumAppend(db.log, t, a);
    LegsNet(ids, m, a);
  }

  /* ---- structure ---- */

  lemma MoveKeepsEntries(db: Db, db': Db, t: Txn, ids: FreshIds, m: Move)
    requires Structured(db) && Moved(db, db', t, ids, m)
    ensures forall t', e :: t' in db'.log && e in t'.entries ==> e.amount > 0 && AccountIdUsed(db'.accounts, e.account)
  {
  }

  lemma MoveKeepsStructure(db: Db, db': Db, t: Txn, ids: FreshIds, m: Move)
    requires Structured(db) && Moved(db, db', t, ids, m)
    ensures Structured(db')
  {
    MoveKeepsEntries(db, db', t, ids, m);
    forall a | a in db'.cache
      ensures AccountIdUsed(db'.accounts, a)
    {
      MoveCacheValue(db.cache, m, a);
      SideKinds(db, db', t, ids, m, a);
      if a in db.cache {
        KindKept(db.accounts, db'.accounts, a);
      }
    }
  }

  lemma GrowthKeepsStructure(db: Db, db': Db)
    requires Structured(db) && Grown(db, db')
    ensures Structured(db')
  {
  }

  /* ---- the cache refines the log ---- */

  // Cached accounts are not settlement accounts and hold their entry sum; an account
  // that is neither cached nor a settlement account has no net entries.
  ghost predicate CacheAgrees(db: Db) {
    && (forall a :: a in db.cache ==>
          db.cache[a] == LedgerSum(db.log, a) && KindOf(db.accounts, a) != Some(SETTLEMENT))
    && (forall a :: AccountIdUsed(db.accounts, a) && a !in db.cache && KindOf(db.accounts, a) != Some(SETTLEMENT)
          ==> LedgerSum(db.log, a) == 0)
  }

  function CachedPart(m: Move, a: Id): int {
    (if m.payerKind == WALLET && a == m.payer then -(m.amount + m.fee) else 0) +
    (if m.payeeKind == WALLET && a == m.payee then m.amount else 0) +
    (if m.fee > 0 && a == m.feeAccount then m.fee else 0)
  }

  predicate CachedSide(m: Move, a: Id) {
    || (m.payerKind == WALLET && a == m.payer)
    || (m.payeeKind == WALLET && a == m.payee)
    || (m.fee > 0 && a == m.feeAccount)
  }

  lemma MoveCacheValue(cache: map<Id, int>, m: Move, a: Id)
    ensures a in MoveCache(cache, m) <==> a in cache || CachedSide(m, a)
    ensures a in MoveCache(cache, m) ==>
              MoveCache(cache, m)[a] == (if a in cache then cache[a] else 0) + CachedPart(m, a)
  {
  }

  lemma SideKinds(db: Db, db': Db, t: Txn, ids: FreshIds, m: Move, a: Id)
    requires Moved(db, db', t, ids, m)
    ensures CachedSide(m, a) ==> KindOf(db'.accounts, a) != Some(SETTLEMENT) && AccountIdUsed(db'.accounts, a)
    ensures KindOf(db'.accounts, a) != Some(SETTLEMENT) ==> CachedPart(m, a) == Delta(m, a)
    ensures KindOf(db'.accounts, a) != Some(SETTLEMENT) && !CachedSide(m, a) ==> Delta(m, a) == 0
  {
  }

  lemma MoveKeepsCache(db: Db, db': Db, t: Txn, ids: FreshIds, m: Move)
    requires Structured(db) && CacheAgrees(db) && Moved(db, db', t, ids, m)
    ensures CacheAgrees(db')
  {
    forall a
      ensures a in db'.cache ==>
                db'.cache[a] == LedgerSum(db'.log, a) && KindOf(db'.accounts, a) != Some(SETTLEMENT)
      ensures (AccountIdUsed(db'.accounts, a) && a !in db'.cache && KindOf(db'.accounts, a) != Some(SETTLEMENT)) ==>
                LedgerSum(db'.log, a) == 0
    {
      MoveKeepsCacheAt(db, db', t, ids, m, a);
    }
  }

  lemma MoveKeepsCacheAt(db: Db, db': Db, t: Txn, ids: FreshIds, m: Move, a: Id)
    requires Structured(db) && CacheAgrees(db) && Moved(db, db', t, ids, m)
    ensures a in db'.cache ==>
              db'.cache[a] == LedgerSum(db'.log, a) && KindOf(db'.accounts, a) != Some(SETTLEMENT)
    ensures (AccountIdUsed(db'.accounts, a) && a !in db'.cache && KindOf(db'.accounts, a) != Some(SETTLEMENT)) ==>
              LedgerSum(db'.log, a) == 0
  {
    MoveCacheValue(db.cache, m, a);
    SideKinds(db, db', t, ids, m, a);
    MoveSums(db, db', t, ids, m, a);
    if AccountIdUsed(db.accounts, a) {
      KindKept(db.accounts, db'.accounts, a);
    } else {
      UnknownAccountSum(db, a);
    }
  }

  lemma GrownAccount(db: Db, db': Db, a: Id)
    requires Grown(db, db')
    ensures var acc := db'.accounts[|db.accounts|];
            KindOf(db'.accounts, a) == if a == acc.id then Some(acc.kind) else KindOf(db.accounts, a)
  {
  }

  lemma GrowthKeepsCache(db: Db, db': Db)
    requires Structured(db) && CacheAgrees(db) && Grown(db, db')
    requires db'.cache != db.cache ==> db'.accounts[|db.accounts|].kind == WALLET
    ensures CacheAgrees(db')
  {
    var acc := db'.accounts[|db.accounts|];
    UnknownAccountSum(db, acc.id);
    forall a
      ensures a in db'.cache ==>
                db'.cache[a] == LedgerSum(db'.log, a) && KindOf(db'.accounts, a) != Some(SETTLEMENT)
      ensures (AccountIdUsed(db'.accounts, a) && a !in db'.cache && KindOf(db'.accounts, a) != Some(SETTLEMENT)) ==>
                LedgerSum(db'.log, a) == 0
    {
      GrownAccount(db, db', a);
    }
  }

  /* ---- solvency ---- */

  ghost predicate Solvent(db: Db) {
    forall a :: KindOf(db.accounts, a) in {Some(WALLET), Some(FEE_REVENUE)} ==> LedgerSum(db.log, a) >= 0
  }

  lemma BalanceIsSum(db: Db, a: Id)
    requires CacheAgrees(db)
    ensures AvailableBalance(db, a) == LedgerSum(db.log, a)
  {
  }

  lemma MoveKeepsSolvent(db: Db, db': Db, t: Txn, ids: FreshIds, m: Move)
    requires Structured(db) && CacheAgrees(db) && Solvent(db) && Moved(db, db', t, ids, m)
    ensures Solvent(db')
  {
    forall a | KindOf(db'.accounts, a) in {Some(WALLET), Some(FEE_REVENUE)}
      ensures LedgerSum(db'.log, a) >= 0
    {
      MoveSums(db, db', t, ids, m, a);
      BalanceIsSum(db, m.payer);
      if AccountIdUsed(db.accounts, a) {
        KindKept(db.accounts, db'.accounts, a);
      } else {
        UnknownAccountSum(db, a);
      }
    }
  }

  lemma GrowthKeepsSolvent(db: Db, db': Db)
    requires Structured(db) && Solvent(db) && Grown(db, db')
    ensures Solvent(db')
  {
    forall a | KindOf(db'.accounts, a) in {Some(WALLET), Some(FEE_REVENUE)}
      ensures LedgerSum(db'.log, a) >= 0
    {
      if AccountIdUsed(db.accounts, a) {
        KindKept(db.accounts, db'.accounts, a);
      } else {
        UnknownAccountSum(db, a);
      }
    }
  }

  /* ---- unique rows ---- */

  ghost predicate UniqueTxns(log: seq<Txn>) {
    forall i, j :: 0 <= i < j < |log| ==>
      log[i].id != log[j].id && log[i].key != log[j].key &&
      (log[i].kind == log[j].kind == CASHIN && log[i].externalRef.Some? ==> log[i].externalRef != log[j].externalRef)
  }

  ghost predicate UniqueEntries(log: seq<Txn>) {
    && (forall i :: 0 <= i < |log| ==> DistinctEntryIds(log[i].entries))
    && (forall i, j, e, f :: 0 <= i < j < |log| && e in log[i].entries && f in log[j].entries ==> e.id != f.id)
  }

  lemma AppendKeepsUnique(log: seq<Txn>, t: Txn)
    requires UniqueTxns(log) && UniqueEntries(log) && !UniqueViolation(log, t)
    ensures UniqueTxns(log + [t]) && UniqueEntries(log + [t])
  {
    AppendKeepsUniqueTxns(log, t);
    AppendKeepsUniqueEntries(log, t);
    hide *;
  }

  lemma AppendKeepsUniqueTxns(log: seq<Txn>, t: Txn)
    requires UniqueTxns(log) && !UniqueViolation(log, t)
    ensures UniqueTxns(log + [t])
  {
  }

  lemma AppendKeepsUniqueEntries(log: seq<Txn>, t: Txn)
    requires UniqueEntries(log) && !UniqueViolation(log, t)
    ensures UniqueEntries(log + [t])
  {
    assert DistinctEntryIds(t.entries) && forall f :: f in t.entries ==> !EntryIdUsed(log, f.id);
    hide UniqueViolation, DistinctEntryIds, EntryIdUsed;
    var longer := log + [t];
    forall i, j, e, f | 0 <= i < j < |longer| && e in longer[i].entries && f in longer[j].entries
      ensures e.id != f.id
    {
      assert longer[i] == log[i];
      if j == |log| {
        assert longer[j] == t;
        EntryIsUsed(log, i, e);
      } else {
        assert longer[j] == log[j];
      }
    }
  }

  lemma EntryIsUsed(log: seq<Txn>, i: nat, e: Entry)
    requires i < |log| && e in log[i].entries
    ensures EntryIdUsed(log, e.id)
  {
    assert log[i] in log;
  }

  /* ---- double entry: every posting balances ---- */

  function CreditsOf(es: seq<Entry>): int {
    if es == [] then 0 else (if es[0].dc == CREDIT then es[0].amount else 0) + CreditsOf(es[1..])
  }

  function DebitTotal(es: seq<Entry>): int {
    if es == [] then 0 else (if es[0].dc == DEBIT then es[0].amount else 0) + DebitTotal(es[1..])
  }

  // The condition the deferred trigger trg_balance_check demands of a transaction.
  predicate Balanced(t: Txn) {
    DebitTotal(t.entries) == CreditsOf(t.entries)
  }

  lemma LegsBalance(ids: FreshIds, m: Move, t: Txn)
    requires t.entries == Legs(ids, m.payer, m.payee, m.feeAccount, m.amount, m.fee) && m.fee >= 0
    ensures Balanced(t)
  {
    var es := t.entries;
    assert es[1..][0] == es[1];
    assert DebitTotal(es[1..]) == DebitTotal(es[1..][1..]);
    assert CreditsOf(es[1..]) == m.amount + CreditsOf(es[1..][1..]);
    if m.fee > 0 {
      assert es[1..][1..] == [es[2]];
      assert CreditsOf([es[2]]) == m.fee;
    } else {
      assert es[1..][1..] == [];
    }
  }

  /* ---- the invariant of every history ---- */

  ghost predicate Inv(db: Db) {
    && Structured(db)
    && CacheAgrees(db)
    && Solvent(db)
    && UniqueTxns(db.log)
    && UniqueEntries(db.log)
    && (forall t :: t in db.log ==> Balanced(t))
  }

  lemma RegisterCachesWallet(cfg: Config, db: Db, op: Op)
    requires op.OpOpen? || op.OpRegister?
    ensures var db' := Apply(cfg, db, op).0;
            |db'.accounts| > |db.accounts| && db'.cache != db.cache ==> db'.accounts[|db.accounts|].kind == WALLET
  {
  }

  lemma MoveKeepsInv(db: Db, db': Db, t: Txn, ids: FreshIds, m: Move)
    requires Inv(db) && Moved(db, db', t, ids, m)
    ensures Inv(db')
  {
    MoveKeepsStructure(db, db', t, ids, m);
    MoveKeepsCache(db, db', t, ids, m);
    MoveKeepsSolvent(db, db', t, ids, m);
    AppendKeepsUnique(db.log, t);
    LegsBalance(ids, m, t);
  }

  lemma GrowthKeepsInv(db: Db, db': Db)
    requires Inv(db) && Grown(db, db')
    requires db'.cache != db.cache ==> db'.accounts[|db.accounts|].kind == WALLET
    ensures Inv(db')
  {
    GrowthKeepsStructure(db, db');
    GrowthKeepsCache(db, db');
    GrowthKeepsSolvent(db, db');
  }

  /** Each ledger call keeps every ledger invariant. */
  lemma StepKeepsInv(cfg: Config, db: Db, op: Op)
    requires Inv(db)
    ensures Inv(Apply(cfg, db, op).0)
  {
    var db' := Apply(cfg, db, op).0;
    var t, ids, m := StepShape(cfg, db, op);
    if db' == db {
    } else if Grown(db, db') {
      MovesOnlyFromPostings(cfg, db, op, t, ids, m);
      RegisterCachesWallet(cfg, db, op);
      GrowthKeepsInv(db, db');
    } else {
      MoveKeepsInv(db, db', t, ids, m);
    }
  }

  lemma MovesOnlyFromPostings(cfg: Config, db: Db, op: Op, t: Txn, ids: FreshIds, m: Move)
    requires Distinct(db.accounts) && Grown(db, Apply(cfg, db, op).0)
    ensures op.OpOpen? || op.OpRegister?
  {
    if !op.OpOpen? && !op.OpRegister? {
      var db' := Apply(cfg, db, op).0;
      assert db' != db;
      match op
      case OpCashIn(r) => var _, _ := CashInMoves(db, r);
      case OpCashOut(r) => var _, _ := CashOutMoves(cfg, db, r);
      case OpP2P(r) => var _, _ := TransferMoves(cfg, db, r);
    }
  }

  lemma {:induction false} RunKeepsInv(cfg: Config, db: Db, ops: seq<Op>)
    requires Inv(db)
    ensures Inv(Run(cfg, db, ops))
    decreases |ops|
  {
    if ops != [] {
      StepKeepsInv(cfg, db, ops[0]);
      RunKeepsInv(cfg, Apply(cfg, db, ops[0]).0, ops[1..]);
    }
  }

  lemma EmptyInv()
    ensures Inv(EMPTY)
  {
  }

  /** After any history the balance that callers read is the entry sum of every account. */
  lemma CacheRefinesLog(cfg: Config, ops: seq<Op>, a: Id)
    ensures var db := Run(cfg, EMPTY, ops);
            AvailableBalance(db, a) == LedgerSum(db.log, a)
  {
    EmptyInv();
    RunKeepsInv(cfg, EMPTY, ops);
    BalanceIsSum(Run(cfg, EMPTY, ops), a);
  }

  /** After any history no wallet and no fee account is overdrawn. */
  lemma NeverOverdrawn(cfg: Config, ops: seq<Op>, acc: Account)
    requires acc in Run(cfg, EMPTY, ops).accounts && acc.kind in {WALLET, FEE_REVENUE}
    ensures AvailableBalance(Run(cfg, EMPTY, ops), acc.id) >= 0
  {
    EmptyInv();
    RunKeepsInv(cfg, EMPTY, ops);
    BalanceIsSum(Run(cfg, EMPTY, ops), acc.id);
    FindMember(Run(cfg, EMPTY, ops).accounts, acc);
  }

  /** The deferred balance trigger never rejects a posting of any history. */
  lemma TriggerNeverRejects(cfg: Config, ops: seq<Op>, t: Txn)
    requires t in Run(cfg, EMPTY, ops).log
    ensures Balanced(t)
  {
    EmptyInv();
    RunKeepsInv(cfg, EMPTY, ops);
  }
}
