/**
 Conservation of money over every history: the balances of all accounts total zero,
 and what wallets and fee revenue hold is what was cashed in and not cashed out.
 */
module Conservation {
  import opened Wrappers
  import opened Fees
  import opened Ledger
  import opened LedgerSteps
  import opened LedgerProofs

  // The balances of all accounts of one kind.
  function KindTotal(accounts: seq<Account>, log: seq<Txn>, kind: AccountKind): int {
    if accounts == [] then 0
    else (if accounts[0].kind == kind then LedgerSum(log, accounts[0].id) else 0) + KindTotal(accounts[1..], log, kind)
  }

  // The principal posted under one transaction type.
  function Posted(log: seq<Txn>, kind: Kind): int {
    if log == [] then 0
    else Posted(log[..|log| - 1], kind) + (if log[|log| - 1].kind == kind then log[|log| - 1].amount else 0)
  }

  lemma {:induction false} KindTotalSplit(accounts: seq<Account>, more: seq<Account>, log: seq<Txn>, kind: AccountKind)
    ensures KindTotal(accounts + more, log, kind) == KindTotal(accounts, log, kind) + KindTotal(more, log, kind)
  {
    if accounts == [] {
      assert accounts + more == more;
    } else {
      assert (accounts + more)[1..] == accounts[1..] + more;
      KindTotalSplit(accounts[1..], more, log, kind);
    }
  }

  lemma {:induction false} EmptyAccountsTotal(accounts: seq<Account>, log: seq<Txn>, kind: AccountKind)
    requires forall acc :: acc in accounts ==> LedgerSum(log, acc.id) == 0
    ensures KindTotal(accounts, log, kind) == 0
  {
    if accounts != [] {
      EmptyAccountsTotal(accounts[1..], log, kind);
    }
  }

  // The amount `c` counted once for every account of the kind that is `x`.
  function Hits(accounts: seq<Account>, kind: AccountKind, x: Id, c: int): int {
    if accounts == [] then 0
    else (if accounts[0].kind == kind && accounts[0].id == x then c else 0) + Hits(accounts[1..], kind, x, c)
  }

  lemma {:induction false} HitsOnce(accounts: seq<Account>, kind: AccountKind, x: Id, c: int)
    requires Distinct(accounts)
    ensures Hits(accounts, kind, x, c) == if KindOf(accounts, x) == Some(kind) then c else 0
  {
    if accounts != [] {
      HitsOnce(accounts[1..], kind, x, c);
    }
  }

  lemma {:induction false} KindTotalMoves(accounts: seq<Account>, log: seq<Txn>, log': seq<Txn>, m: Move,
                                          kind: AccountKind)
    requires forall a :: LedgerSum(log', a) == LedgerSum(log, a) + Delta(m, a)
    ensures KindTotal(accounts, log', kind) ==
            KindTotal(accounts, log, kind) + Hits(accounts, kind, m.payer, -(m.amount + m.fee))
            + Hits(accounts, kind, m.payee, m.amount)
            + Hits(accounts, kind, m.feeAccount, if m.fee > 0 then m.fee else 0)
  {
    if accounts != [] {
      KindTotalMoves(accounts[1..], log, log', m, kind);
    }
  }

  lemma OldAccountsTotal(db: Db, accounts': seq<Account>, kind: AccountKind)
    requires Structured(db) && Extends(db.accounts, accounts') && Distinct(accounts')
    ensures KindTotal(accounts', db.log, kind) == KindTotal(db.accounts, db.log, kind)
  {
    var more := accounts'[|db.accounts|..];
    assert accounts' == db.accounts + more;
    KindTotalSplit(db.accounts, more, db.log, kind);
    forall acc | acc in more
      ensures LedgerSum(db.log, acc.id) == 0
    {
      UnknownAccountSum(db, acc.id);
    }
    EmptyAccountsTotal(more, db.log, kind);
  }

  // What one movement adds to the total of a kind of account.
  function KindDelta(m: Move, kind: AccountKind): int {
    (if m.payerKind == kind then -(m.amount + m.fee) else 0) +
    (if m.payeeKind == kind then m.amount else 0) +
    (if m.fee > 0 && kind == FEE_REVENUE then m.fee else 0)
  }

  lemma MoveKindTotal(db: Db, db': Db, t: Txn, ids: FreshIds, m: Move, kind: AccountKind)
    requires Structured(db) && Moved(db, db', t, ids, m)
    ensures KindTotal(db'.accounts, db'.log, kind) == KindTotal(db.accounts, db.log, kind) + KindDelta(m, kind)
  {
    OldAccountsTotal(db, db'.accounts, kind);
    forall a
      ensures LedgerSum(db'.log, a) == LedgerSum(db.log, a) + Delta(m, a)
    {
      MoveSums(db, db', t, ids, m, a);
    }
    KindTotalMoves(db'.accounts, db.log, db'.log, m, kind);
    assert AccountsFit(db.accounts, db'.accounts, m) && m.fee >= 0;
    hide Structured, Moved, KindTotal, Hits, LedgerSum, Delta, AccountsFit;
    MoveHits(db.accounts, db'.accounts, m, kind);
  }

  // What the three accounts of a movement add to the total of a kind.
  lemma MoveHits(before: seq<Account>, accounts: seq<Account>, m: Move, kind: AccountKind)
    requires AccountsFit(before, accounts, m) && m.fee >= 0
    ensures Hits(accounts, kind, m.payer, -(m.amount + m.fee)) + Hits(accounts, kind, m.payee, m.amount)
            + Hits(accounts, kind, m.feeAccount, if m.fee > 0 then m.fee else 0) == KindDelta(m, kind)
  {
    HitsOnce(accounts, kind, m.payer, -(m.amount + m.fee));
    HitsOnce(accounts, kind, m.payee, m.amount);
    HitsOnce(accounts, kind, m.feeAccount, if m.fee > 0 then m.fee else 0);
  }

  // The settlement accounts mirror exactly what entered and left the system.
  ghost predicate Conserved(db: Db) {
    && KindTotal(db.accounts, db.log, WALLET) + KindTotal(db.accounts, db.log, FEE_REVENUE)
       == Posted(db.log, CASHIN) - Posted(db.log, CASHOUT)
    && KindTotal(db.accounts, db.log, SETTLEMENT) == Posted(db.log, CASHOUT) - Posted(db.log, CASHIN)
  }

  lemma MoveConserves(db: Db, db': Db, t: Txn, ids: FreshIds, m: Move)
    requires Structured(db) && Conserved(db) && Moved(db, db', t, ids, m)
    ensures Conserved(db')
  {
    MoveKindTotal(db, db', t, ids, m, WALLET);
    MoveKindTotal(db, db', t, ids, m, FEE_REVENUE);
    MoveKindTotal(db, db', t, ids, m, SETTLEMENT);
    assert (db.log + [t])[..|db.log|] == db.log;
  }

  lemma StepConserves(cfg: Config, db: Db, op: Op)
    requires Structured(db) && Conserved(db)
    ensures Conserved(Apply(cfg, db, op).0)
  {
    var db' := Apply(cfg, db, op).0;
    var t, ids, m := StepShape(cfg, db, op);
    if db' == db {
    } else if Grown(db, db') {
      OldAccountsTotal(db, db'.accounts, WALLET);
      OldAccountsTotal(db, db'.accounts, FEE_REVENUE);
      OldAccountsTotal(db, db'.accounts, SETTLEMENT);
    } else {
      MoveConserves(db, db', t, ids, m);
    }
  }

  lemma {:induction false} RunConserves(cfg: Config, db: Db, ops: seq<Op>)
    requires Inv(db) && Conserved(db)
    ensures Conserved(Run(cfg, db, ops))
    decreases |ops|
  {
    if ops != [] {
      StepKeepsInv(cfg, db, ops[0]);
      StepConserves(cfg, db, ops[0]);
      RunConserves(cfg, Apply(cfg, db, ops[0]).0, ops[1..]);
    }
  }

  /** No history creates or destroys money. */
  lemma MoneyIsConserved(cfg: Config, ops: seq<Op>)
    ensures var db := Run(cfg, EMPTY, ops);
            var wallets := KindTotal(db.accounts, db.log, WALLET);
            var fees := KindTotal(db.accounts, db.log, FEE_REVENUE);
            && wallets + fees + KindTotal(db.accounts, db.log, SETTLEMENT) == 0
            && wallets + fees == Posted(db.log, CASHIN) - Posted(db.log, CASHOUT)
  {
    EmptyInv();
    RunConserves(cfg, EMPTY, ops);
  }
}
