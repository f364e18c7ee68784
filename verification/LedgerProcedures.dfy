/**
 The posting procedures as they run: row by row inside a block whose unique_violation
 handler rolls the rows back.  Each is proved to do exactly what module Ledger says.
 */
module LedgerProcedures {
  import opened Wrappers
  import opened Calendar
  import opened Fees
  import opened Ledger
  import opened LedgerSteps
  import opened LedgerProofs

  // One result of services/ledger_invariants.py.
  datatype BalanceCheck = BalanceCheck(wallet: Id, balance: int, ledger: int, diff: int, ok: bool, cached: bool)

  function WalletIds(accounts: seq<Account>): seq<Id> {
    if accounts == [] then []
    else WalletIds(accounts[..|accounts| - 1]) +
         (if accounts[|accounts| - 1].kind == WALLET then [accounts[|accounts| - 1].id] else [])
  }

  predicate HeaderViolation(log: seq<Txn>, t: Txn) {
    TxnIdUsed(log, t.id) || FindKey(log, t.key).Some? || (t.kind == CASHIN && CashInRefUsed(log, t.externalRef))
  }

  predicate EntriesViolation(log: seq<Txn>, es: seq<Entry>) {
    !DistinctEntryIds(es) || exists e :: e in es && EntryIdUsed(log, e.id)
  }

  // The transaction row carries the entries written so far.
  function WithEntries(t: Txn, es: seq<Entry>): Txn {
    t.(entries := es)
  }

  lemma HeaderThenEntries(log: seq<Txn>, t: Txn, es: seq<Entry>)
    ensures UniqueViolation(log, WithEntries(t, es)) <==> HeaderViolation(log, t) || EntriesViolation(log, es)
  {
  }

  lemma UsedWith(log: seq<Txn>, t: Txn, id: Id)
    ensures EntryIdUsed(log + [t], id) <==> EntryIdUsed(log, id) || exists e :: e in t.entries && e.id == id
  {
  }

  // Checking the later entries against a log that already holds the earlier ones is
  // checking them all at once.
  lemma EntriesInTwoInserts(log: seq<Txn>, t: Txn, es: seq<Entry>, more: seq<Entry>)
    requires t.entries == es && !EntriesViolation(log, es)
    ensures EntriesViolation(log, es + more) <==> EntriesViolation(log + [t], more)
  {
    forall id
      ensures EntryIdUsed(log + [t], id) <==> EntryIdUsed(log, id) || exists e :: e in es && e.id == id
    {
      UsedWith(log, t, id);
    }
    if EntriesViolation(log + [t], more) {
      if !DistinctEntryIds(more) {
        var i, j :| 0 <= i < j < |more| && more[i].id == more[j].id;
        assert (es + more)[|es| + i].id == (es + more)[|es| + j].id;
      } else {
        var e :| e in more && EntryIdUsed(log + [t], e.id);
        if f :| f in es && f.id == e.id {
          var i :| 0 <= i < |es| && es[i] == f;
          var j :| 0 <= j < |more| && more[j] == e;
          assert (es + more)[i].id == (es + more)[|es| + j].id;
        } else {
          assert e in es + more;
        }
      }
    }
  }

  lemma NoEntriesYet(log: seq<Txn>, t: Txn, es: seq<Entry>)
    requires t.entries == []
    ensures EntriesViolation(log, es) <==> EntriesViolation(log + [t], es)
  {
  }

  class LedgerStore {
    var accounts: seq<Account>
    var log: seq<Txn>
    var cache: map<Id, int>

    function Snapshot(): Db
      reads this
    {
      Db(accounts, log, cache)
    }

    constructor ()
      ensures Snapshot() == EMPTY
    {
      accounts, log, cache := [], [], map[];
    }

    method Restore(saved: Db)
      modifies this
      ensures Snapshot() == saved
    {
      accounts, log, cache := saved.accounts, saved.log, saved.cache;
    }

    method ApplyBalanceDelta(account: Id, delta: int)
      modifies this`cache
      ensures cache == ApplyDelta(old(cache), account, delta)
    {
      if account in cache {
        cache := cache[account := cache[account] + delta];
      } else {
        cache := cache[account := delta];
      }
    }

    method GetSystemAccount(owner: Id, country: Country, kind: AccountKind, newId: Id) returns (id: Id, violation: bool)
      modifies this`accounts
      ensures (accounts, id, violation) == SystemAccount(old(accounts), owner, country, kind, newId)
    {
      var found := FindSystem(accounts, owner, country, kind);
      if found.Some? {
        return found.value.id, false;
      }
      violation := AccountIdUsed(accounts, newId);
      accounts := accounts + [Account(newId, SYSTEM, owner, country, kind)];
      id := newId;
    }

    method InsertTransaction(t: Txn) returns (violation: bool)
      requires t.entries == []
      modifies this`log
      ensures violation == HeaderViolation(old(log), t)
      ensures log == if violation then old(log) else old(log) + [t]
    {
      violation := HeaderViolation(log, t);
      if !violation {
        log := log + [t];
      }
    }

    // INSERT INTO ledger_entries for the transaction just inserted.
    method InsertEntries(es: seq<Entry>) returns (violation: bool)
      requires |log| > 0
      modifies this`log
      ensures violation == EntriesViolation(old(log), es)
      ensures var n := |old(log)| - 1;
              log == if violation then old(log)
                     else old(log)[..n] + [WithEntries(old(log)[n], old(log)[n].entries + es)]
    {
      violation := EntriesViolation(log, es);
      if !violation {
        var n := |log| - 1;
        log := log[..n] + [WithEntries(log[n], log[n].entries + es)];
      }
    }

    // The two principal legs of the transaction `t`.
    method InsertPosting(t: Txn, first: Entry, second: Entry) returns (violation: bool)
      requires t.entries == []
      modifies this`log
      ensures violation == UniqueViolation(old(log), WithEntries(t, [first, second]))
      ensures !violation ==> log == old(log) + [WithEntries(t, [first, second])]
    {
      ghost var before := log;
      HeaderThenEntries(log, t, [first, second]);
      violation := InsertTransaction(t);
      if !violation {
        NoEntriesYet(before, t, [first, second]);
        violation := InsertEntries([first, second]);
        assert (before + [t])[..|before|] == before;
        assert t.entries + [first, second] == [first, second];
      }
    }

    method PostCashIn(r: CashInReq) returns (answer: Answer)
      modifies this
      ensures (Snapshot(), answer) == CashIn(old(Snapshot()), r)
    {
      if r.amount <= 0 {
        return Raised(AMOUNT_NOT_POSITIVE);
      }
      var ownership := OwnershipError(accounts, r.wallet, r.user);
      if ownership.Some? {
        return Raised(ownership.value);
      }
      var seen := FindKey(log, r.key);
      if seen.Some? {
        return Returned(seen);
      }
      var saved := Snapshot();
      var settlement, clash := GetSystemAccount(r.systemOwner, r.country, SETTLEMENT, r.ids.settlement);
      var header := Txn(r.ids.txn, CASHIN, r.amount, r.key, r.providerRef, r.user, r.now, []);
      var debit := Entry(r.ids.e0, settlement, DEBIT, r.amount);
      var credit := Entry(r.ids.e1, r.wallet, CREDIT, r.amount);
      assert [debit, credit] == Legs(r.ids, settlement, r.wallet, 0, r.amount, 0);
      var violation := InsertPosting(header, debit, credit);
      if clash || violation {
        Restore(saved);
        return Returned(FindKey(log, r.key));
      }
      ApplyBalanceDelta(r.wallet, r.amount);
      answer := Returned(Some(r.ids.txn));
    }

    // The fee leg of the last posting, when there is a fee.
    method PostFee(owner: Id, country: Country, fee: int, newAccount: Id, entryId: Id)
      returns (feeAccount: Id, violation: bool)
      requires |log| > 0
      modifies this
      ensures var (accounts', id, clash) := FeeAccount(old(accounts), owner, country, fee, newAccount);
              var es := if fee > 0 then [Entry(entryId, id, CREDIT, fee)] else [];
              var n := |old(log)| - 1;
              && feeAccount == id
              && violation == (clash || EntriesViolation(old(log), es))
              && (!violation ==>
                    && accounts == accounts'
                    && log == old(log)[..n] + [WithEntries(old(log)[n], old(log)[n].entries + es)]
                    && cache == if fee > 0 then ApplyDelta(old(cache), id, fee) else old(cache))
    {
      if fee <= 0 {
        ghost var n := |log| - 1;
        assert log[n].entries + [] == log[n].entries;
        return 0, false;
      }
      var clash, duplicate;
      feeAccount, clash := GetSystemAccount(owner, country, FEE_REVENUE, newAccount);
      duplicate := InsertEntries([Entry(entryId, feeAccount, CREDIT, fee)]);
      violation := clash || duplicate;
      ApplyBalanceDelta(feeAccount, fee);
    }

    // Both principal legs and the fee leg of a posting whose header is `t`.
    method PostLegs(t: Txn, payer: Id, payee: Id, amount: int, fee: int, owner: Id, country: Country, ids: FreshIds)
      returns (violation: bool)
      requires t.entries == []
      modifies this
      ensures var (accounts', id, clash) := FeeAccount(old(accounts), owner, country, fee, ids.feeAccount);
              var posted := WithEntries(t, Legs(ids, payer, payee, id, amount, fee));
              && violation == (clash || UniqueViolation(old(log), posted))
              && (!violation ==>
                    && accounts == accounts'
                    && log == old(log) + [posted]
                    && cache == if fee > 0 then ApplyDelta(old(cache), id, fee) else old(cache))
    {
      ghost var before := log;
      ghost var found := FeeAccount(accounts, owner, country, fee, ids.feeAccount);
      var debit := Entry(ids.e0, payer, DEBIT, amount + fee);
      var credit := Entry(ids.e1, payee, CREDIT, amount);
      ghost var more := if fee > 0 then [Entry(ids.e2, found.1, CREDIT, fee)] else [];
      LegsSplit(before, t, [debit, credit], more);
      assert Legs(ids, payer, payee, found.1, amount, fee) == [debit, credit] + more;
      violation := InsertPosting(t, debit, credit);
      if !violation {
        var feeAccount;
        feeAccount, violation := PostFee(owner, country, fee, ids.feeAccount, ids.e2);
        assert (before + [WithEntries(t, [debit, credit])])[..|before|] == before;
      }
    }

    method PostCashOut(cfg: Config, r: CashOutReq) returns (answer: Answer)
      modifies this
      ensures (Snapshot(), answer) == CashOut(cfg, old(Snapshot()), r)
    {
      if r.amount <= 0 {
        return Raised(AMOUNT_NOT_POSITIVE);
      }
      var session := SessionError(accounts, r.wallet, r.actor);
      if session.Some? {
        return Raised(session.value);
      }
      var seen := FindKey(log, r.key);
      if seen.Some? {
        return Returned(seen);
      }
      var fee := ComputeFee(cfg.rules, CASHOUT, r.country, r.amount);
      var balance := AvailableBalance(Snapshot(), r.wallet);
      if balance < r.amount + fee {
        return Raised(INSUFFICIENT_FUNDS);
      }
      var lim := LimitsOf(cfg, r.actor.value);
      if lim.None? {
        return Raised(NO_LIMITS);
      }
      var usedToday := SumDebits(log, r.wallet, {CASHOUT}, DayWindow(r.now));
      if usedToday + r.amount > lim.value.dailyCashout {
        return Raised(DAILY_LIMIT);
      }
      answer := WriteCashOut(r, fee);
    }

    method WriteCashOut(r: CashOutReq, fee: int) returns (answer: Answer)
      requires r.actor.Some?
      modifies this
      ensures (Snapshot(), answer) == CashOutPost(old(Snapshot()), r, fee)
    {
      var saved := Snapshot();
      var settlement, clash := GetSystemAccount(r.systemOwner, r.country, SETTLEMENT, r.ids.settlement);
      var header := Txn(r.ids.txn, CASHOUT, r.amount, r.key, r.providerRef, r.actor.value, r.now, []);
      var violation := PostLegs(header, r.wallet, settlement, r.amount, fee, r.systemOwner, r.country, r.ids);
      if clash || violation {
        Restore(saved);
        return Returned(FindKey(log, r.key));
      }
      ApplyBalanceDelta(r.wallet, -(r.amount + fee));
      answer := Returned(Some(r.ids.txn));
    }

    method PostP2P(cfg: Config, r: P2PReq) returns (answer: Answer)
      modifies this
      ensures (Snapshot(), answer) == Transfer(cfg, old(Snapshot()), r)
    {
      if r.amount <= 0 {
        return Raised(AMOUNT_NOT_POSITIVE);
      }
      var session := SessionError(accounts, r.sender, r.actor);
      if session.Some? {
        return Raised(session.value);
      }
      if !IsWallet(accounts, r.receiver) {
        return Raised(WALLET_NOT_FOUND);
      }
      var seen := FindKey(log, r.key);
      if seen.Some? {
        return Returned(seen);
      }
      var fee := ComputeFee(cfg.rules, P2P, r.country, r.amount);
      var balance := AvailableBalance(Snapshot(), r.sender);
      if balance < r.amount + fee {
        return Raised(INSUFFICIENT_FUNDS);
      }
      var lim := LimitsOf(cfg, r.actor.value);
      if lim.None? {
        return Raised(NO_LIMITS);
      }
      var usedToday := SumDebits(log, r.sender, SEND_KINDS, DayWindow(r.now));
      var usedMonth := SumDebits(log, r.sender, SEND_KINDS, MonthWindow(r.now));
      if usedToday + r.amount > lim.value.dailySend {
        return Raised(DAILY_LIMIT);
      }
      if usedMonth + r.amount > lim.value.monthlySend {
        return Raised(MONTHLY_LIMIT);
      }
      answer := WriteP2P(r, fee);
    }

    method WriteP2P(r: P2PReq, fee: int) returns (answer: Answer)
      requires r.actor.Some?
      modifies this
      ensures (Snapshot(), answer) == P2PPost(old(Snapshot()), r, fee)
    {
      var saved := Snapshot();
      var header := Txn(r.ids.txn, P2P, r.amount, r.key, None, r.actor.value, r.now, []);
      var violation := PostLegs(header, r.sender, r.receiver, r.amount, fee, r.systemOwner, r.country, r.ids);
      if violation {
        Restore(saved);
        return Returned(FindKey(log, r.key));
      }
      ApplyBalanceDelta(r.sender, -(r.amount + fee));
      ApplyBalanceDelta(r.receiver, r.amount);
      answer := Returned(Some(r.ids.txn));
    }

    method RegisterUser(taken: bool, user: Id, wallet: Id, country: Country) returns (answer: Answer)
      modifies this
      ensures (Snapshot(), answer) == Register(old(Snapshot()), taken, user, wallet, country)
    {
      var acc := Account(wallet, USER, user, country, WALLET);
      if taken || AccountIdUsed(accounts, wallet) || NaturalKeyUsed(accounts, acc) {
        return Raised(ALREADY_EXISTS);
      }
      accounts := accounts + [acc];
      if wallet !in cache {
        cache := cache[wallet := 0];
      }
      answer := Returned(Some(user));
    }

    function Check(wallet: Id): BalanceCheck
      reads this
    {
      var ledger := LedgerSum(log, wallet);
      var balance := if wallet in cache then cache[wallet] else ledger;
      BalanceCheck(wallet, balance, ledger, balance - ledger, balance == ledger, wallet in cache)
    }

    // services/ledger_invariants.py, list_wallet_balance_invariants: one check per
    // wallet, and all of them pass in a database that keeps the ledger invariant.
    method ListWalletBalanceInvariants() returns (items: seq<BalanceCheck>)
      ensures |items| == |WalletIds(accounts)|
      ensures forall i :: 0 <= i < |items| ==> items[i] == Check(WalletIds(accounts)[i])
      ensures Inv(Snapshot()) ==> forall item :: item in items ==> item.ok && item.diff == 0
    {
      items := [];
      var k := 0;
      while k < |accounts|
        invariant 0 <= k <= |accounts|
        invariant |items| == |WalletIds(accounts[..k])|
        invariant forall i :: 0 <= i < |items| ==> items[i] == Check(WalletIds(accounts[..k])[i])
      {
        assert accounts[..k + 1][..k] == accounts[..k];
        if accounts[k].kind == WALLET {
          items := items + [Check(accounts[k].id)];
        }
        k := k + 1;
      }
      assert accounts[..k] == accounts;
    }
  }

  lemma LegsSplit(log: seq<Txn>, t: Txn, es: seq<Entry>, more: seq<Entry>)
    requires t.entries == []
    ensures UniqueViolation(log, WithEntries(t, es + more)) <==>
            (UniqueViolation(log, WithEntries(t, es)) || EntriesViolation(log + [WithEntries(t, es)], more))
  {
    HeaderThenEntries(log, t, es + more);
    HeaderThenEntries(log, t, es);
    if !EntriesViolation(log, es) {
      EntriesInTwoInserts(log, WithEntries(t, es), es, more);
    } else {
      PrefixViolation(log, es, more);
    }
  }

  lemma PrefixViolation(log: seq<Txn>, es: seq<Entry>, more: seq<Entry>)
    requires EntriesViolation(log, es)
    ensures EntriesViolation(log, es + more)
  {
    if !DistinctEntryIds(es) {
      var i, j :| 0 <= i < j < |es| && es[i].id == es[j].id;
      assert (es + more)[i].id == (es + more)[j].id;
    } else {
      var e :| e in es && EntryIdUsed(log, e.id);
      assert e in es + more;
    }
  }
}
