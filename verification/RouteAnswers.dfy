/**
 What the payment routes answer for, exactly: whose transaction a cash-out answer names, and when a
 payout row has a debit behind it.
 */
module RouteAnswers {
  import opened Wrappers
  import opened Fees
  import opened Ledger
  import opened LedgerSteps
  import opened LedgerProofs
  import opened Admission
  import opened Velocity
  import opened ExactlyOnce
  import Limits

  // The facts of every reachable site that the answers rest on.
  ghost predicate SiteOk(s: Site) { Paired(s) && Inv(s.db) }

  // To the ledger every route step is one ledger call, or none.
  lemma StepIsLedgerCall(cfg: Config, caps: Caps, s: Site, step: Step)
    requires Enabled(s, step)
    ensures var db := Take(cfg, caps, s, step).0.db;
            db == s.db || exists op :: db == Ledger.Apply(cfg, s.db, op).0
  {
    match step
    case CashOutCall(number, r) =>
      BeginShape(cfg, caps, s, number, r);
      hide BeginCashOut, CashOut, Recalled, CashOutVelocityOk;
      assert Ledger.Apply(cfg, s.db, OpCashOut(CashOutReqOf(r))) == CashOut(cfg, s.db, CashOutReqOf(r));
    case CashInCall(r) =>
      hide CashIn, Recalled, CashInVelocityOk;
      assert Ledger.Apply(cfg, s.db, OpCashIn(CashInReqOf(r))) == CashIn(s.db, CashInReqOf(r));
    case Other(op, _) =>
      hide Ledger.Apply;
    case _ =>
  }

  lemma StepKeepsSiteOk(cfg: Config, caps: Caps, s: Site, step: Step)
    requires SiteOk(s) && Enabled(s, step)
    ensures SiteOk(Take(cfg, caps, s, step).0)
  {
    hide Inv, Paired, Take, Enabled, Ledger.Apply;
    StepKeepsPaired(cfg, caps, s, step);
    StepIsLedgerCall(cfg, caps, s, step);
    var db := Take(cfg, caps, s, step).0.db;
    if db != s.db {
      var op :| db == Ledger.Apply(cfg, s.db, op).0;
      StepKeepsInv(cfg, s.db, op);
    }
  }

  /** Every run of the routes keeps all ledger invariants, so the ledger theorems hold for it. */
  lemma {:induction false} RunKeepsSiteOk(cfg: Config, caps: Caps, s: Site, steps: seq<Step>)
    requires SiteOk(s) && EnabledRun(cfg, caps, s, steps)
    ensures SiteOk(RunSite(cfg, caps, s, steps))
    decreases |steps|
  {
    if steps != [] {
      StepKeepsSiteOk(cfg, caps, s, steps[0]);
      hide SiteOk, Take;
      RunKeepsSiteOk(cfg, caps, Take(cfg, caps, s, steps[0]).0, steps[1..]);
    }
  }

  lemma NewSiteOk()
    ensures SiteOk(NEW_SITE)
  {
    EmptyInv();
  }

  /* ---- whose transaction an accepted cash-out names ---- */

  // The call commits.
  predicate Accepted(cfg: Config, caps: Caps, s: Site, number: nat, r: Request)
    requires IsPayment(r)
  {
    number !in s.open && number in BeginCashOut(cfg, caps, s, number, r).0.open
  }

  ghost predicate Posted(log: seq<Txn>, key: string, t: Txn) { t in log && t.key == key }

  ghost predicate OwnCashOutHolds(log: seq<Txn>, user: Id, key: string) {
    exists t :: Posted(log, key, t) && By(t, user, CASHOUT)
  }

  // The answered transaction is a cash-out of this user under this key.
  ghost predicate NamesOwnCashOut(s: Site, id: Option<Id>, user: Id, key: string) {
    exists t :: Posted(s.db.log, key, t) && id == Some(t.id) && By(t, user, CASHOUT)
  }

  lemma OneTxnPerKey(log: seq<Txn>, t: Txn, u: Txn)
    requires UniqueTxns(log) && t in log && u in log && t.key == u.key
    ensures t == u
  {
  }

  lemma OneTxnPerId(log: seq<Txn>, t: Txn, u: Txn)
    requires (forall i, j :: 0 <= i < j < |log| ==> log[i].id != log[j].id) && t in log && u in log && t.id == u.id
    ensures t == u
  {
  }

  lemma KeyHolder(log: seq<Txn>, key: string, t: Txn)
    requires UniqueTxns(log) && Posted(log, key, t)
    ensures FindKey(log, key) == Some(t.id)
    ensures forall u :: Posted(log, key, u) ==> u == t
  {
    forall u | Posted(log, key, u)
      ensures u == t
    {
      OneTxnPerKey(log, t, u);
    }
    assert FindKey(log, key).Some? by { assert t in log; }
    var u :| u in log && u.key == key && u.id == FindKey(log, key).value;
    assert Posted(log, key, u);
  }

  /** The answer of an accepted cash-out names the caller's own cash-out exactly when nobody has posted
      its key, or the caller has posted it as a cash-out: a retry of its own. */
  lemma AnswerIsOwnCashOut(cfg: Config, caps: Caps, s: Site, number: nat, r: Request)
    requires SiteOk(s) && IsPayment(r) && Accepted(cfg, caps, s, number, r)
    ensures var after := BeginCashOut(cfg, caps, s, number, r).0;
            NamesOwnCashOut(after, after.open[number].response.txn, r.user, r.key)
            <==> FindKey(s.db.log, r.key).None? || OwnCashOutHolds(s.db.log, r.user, r.key)
  {
    var after := BeginCashOut(cfg, caps, s, number, r).0;
    var t, m := CashOutStep(cfg, caps, s, number, r);
    AcceptedDebitsIffKeyFresh(cfg, caps, s, number, r);
    assert UniqueTxns(s.db.log);
    hide BeginCashOut, Inv, Paired, Moved, FindKey, UniqueTxns, CashOutVelocityOk;
    if after.db != s.db {
      assert Posted(after.db.log, r.key, t) && By(t, r.user, CASHOUT);
    } else {
      var u := HolderOf(s.db.log, r.key);
      KeyHolder(s.db.log, r.key, u);
    }
  }

  lemma HolderOf(log: seq<Txn>, key: string) returns (t: Txn)
    requires FindKey(log, key).Some?
    ensures Posted(log, key, t) && FindKey(log, key) == Some(t.id)
  {
    t :| t in log && t.key == key && t.id == FindKey(log, key).value;
  }

  /* ---- payout rows and debits ---- */

  // The key is held by a transaction that is no cash-out and has no payout row yet.
  ghost predicate HeldUnpaid(s: Site, key: string) {
    exists t :: Posted(s.db.log, key, t) && t.kind != CASHOUT && t.id !in s.payouts
  }

  /** An accepted cash-out that debits nothing makes a payout row exactly when its key is so held; under
      the key of anybody's cash-out it makes none. */
  lemma RowWithoutDebit(cfg: Config, caps: Caps, s: Site, number: nat, r: Request)
    requires SiteOk(s) && IsPayment(r) && Accepted(cfg, caps, s, number, r)
    ensures var after := BeginCashOut(cfg, caps, s, number, r).0;
            after.db == s.db && after.payouts != s.payouts <==> HeldUnpaid(s, r.key)
  {
    var after := BeginCashOut(cfg, caps, s, number, r).0;
    var t, m := CashOutStep(cfg, caps, s, number, r);
    AcceptedRow(cfg, caps, s, number, r);
    AcceptedDebitsIffKeyFresh(cfg, caps, s, number, r);
    assert UniqueTxns(s.db.log) && forall u :: u in s.db.log && u.kind == CASHOUT ==> u.id in s.payouts;
    hide BeginCashOut, Inv, Paired, Moved, UniqueTxns, CashOutVelocityOk;
    if FindKey(s.db.log, r.key).Some? {
      var u := HolderOf(s.db.log, r.key);
      KeyHolder(s.db.log, r.key, u);
    }
  }

  lemma AcceptedRow(cfg: Config, caps: Caps, s: Site, number: nat, r: Request)
    requires IsPayment(r) && Accepted(cfg, caps, s, number, r)
    ensures var after := BeginCashOut(cfg, caps, s, number, r).0;
            && after.open[number].response.txn.Some?
            && after.payouts == AddPayout(s.payouts, after.open[number].response.txn.value, RowOf(r))
  {
    BeginShape(cfg, caps, s, number, r);
    hide BeginCashOut, CashOut, Recalled, CashOutVelocityOk;
  }

  // The row is paid for: a cash-out of its amount, with a debit of at least that.
  ghost predicate PaidFor(t: Txn, id: Id, row: PayoutRow) {
    t.id == id && t.kind == CASHOUT && t.amount == row.amount && exists a :: DebitsOf(t.entries, a) >= row.amount
  }

  ghost predicate RowBacked(s: Site, id: Id)
    requires id in s.payouts
  {
    exists t :: t in s.db.log && PaidFor(t, id, s.payouts[id])
  }

  ghost predicate Backed(s: Site) { forall id :: id in s.payouts ==> RowBacked(s, id) }

  // A step that makes a row without a debit.
  ghost predicate Unbacks(cfg: Config, caps: Caps, s: Site, step: Step)
    requires Enabled(s, step)
  {
    step.CashOutCall? && Accepted(cfg, caps, s, step.number, step.request) && HeldUnpaid(s, step.request.key)
  }

  ghost predicate NeverUnbacks(cfg: Config, caps: Caps, s: Site, steps: seq<Step>)
    requires EnabledRun(cfg, caps, s, steps)
    decreases |steps|
  {
    steps != [] ==>
      !Unbacks(cfg, caps, s, steps[0]) && NeverUnbacks(cfg, caps, Take(cfg, caps, s, steps[0]).0, steps[1..])
  }

  // A payout row of a transaction that is no cash-out; nothing later can back it.
  ghost predicate Orphan(s: Site, id: Id) {
    id in s.payouts && exists t :: t in s.db.log && t.id == id && t.kind != CASHOUT
  }

  lemma OrphanIsUnbacked(s: Site, id: Id)
    requires Paired(s) && Orphan(s, id)
    ensures !Backed(s)
  {
    var t :| t in s.db.log && t.id == id && t.kind != CASHOUT;
    forall u | u in s.db.log && u.id == id
      ensures u.kind != CASHOUT
    {
      OneTxnPerId(s.db.log, t, u);
    }
    assert !RowBacked(s, id);
  }

  // Postings and payout rows are never taken back.
  lemma StepGrows(cfg: Config, caps: Caps, s: Site, step: Step)
    requires Distinct(s.db.accounts) && Enabled(s, step)
    ensures s.db.log <= Take(cfg, caps, s, step).0.db.log && PayoutsKept(s, Take(cfg, caps, s, step).0)
  {
    StepKeepsPayouts(cfg, caps, s, step);
    match step
    case CashOutCall(number, r) => var t, m := CashOutStep(cfg, caps, s, number, r); hide BeginCashOut;
    case CashInCall(r) => var t := CashInStep(cfg, caps, s, r); hide CashInRoute;
    case Other(_, _) => var t := OtherStep(cfg, caps, s, step); hide Take;
    case _ =>
  }

  lemma OrphanStays(s: Site, after: Site, id: Id)
    requires Orphan(s, id) && s.db.log <= after.db.log && PayoutsKept(s, after)
    ensures Orphan(after, id)
  {
    var t :| t in s.db.log && t.id == id && t.kind != CASHOUT;
    var i :| 0 <= i < |s.db.log| && s.db.log[i] == t;
    assert after.db.log[i] == t;
  }

  lemma BackedStays(s: Site, after: Site)
    requires Backed(s) && s.db.log <= after.db.log && after.payouts == s.payouts
    ensures Backed(after)
  {
    forall id | id in after.payouts
      ensures RowBacked(after, id)
    {
      assert RowBacked(s, id);
      var t :| t in s.db.log && PaidFor(t, id, s.payouts[id]);
      var i :| 0 <= i < |s.db.log| && s.db.log[i] == t;
      assert after.db.log[i] == t;
    }
  }

  lemma OtherStepsAddNoRow(cfg: Config, caps: Caps, s: Site, step: Step)
    requires Enabled(s, step) && !step.CashOutCall?
    ensures Take(cfg, caps, s, step).0.payouts == s.payouts
  {
    hide CashIn, Recalled, CashInVelocityOk, Ledger.Apply;
  }

  lemma RefusedAddsNoRow(cfg: Config, caps: Caps, s: Site, number: nat, r: Request)
    requires IsPayment(r) && number !in s.open && !Accepted(cfg, caps, s, number, r)
    ensures BeginCashOut(cfg, caps, s, number, r).0 == s
  {
    BeginShape(cfg, caps, s, number, r);
    hide BeginCashOut, CashOut, Recalled, CashOutVelocityOk;
  }

  // The row of a cash-out that posts is backed by its own transaction.
  lemma PostingBacks(s: Site, after: Site, r: Request, t: Txn, m: Move)
    requires Paired(s) && Backed(s) && IsPayment(r) && AddsCashOut(s, after, r, t)
    requires Moved(s.db, after.db, t, r.ids, m) && m.amount == r.body.amount && m.fee >= 0
    ensures Backed(after)
  {
    assert t.id !in s.payouts;
    assert t.entries == Legs(r.ids, m.payer, m.payee, m.feeAccount, m.amount, m.fee);
    Limits.LegsDebits(r.ids, m, m.payer);
    assert DebitsOf(t.entries, m.payer) >= r.body.amount;
    hide Paired, Moved, Legs;
    forall id | id in after.payouts
      ensures RowBacked(after, id)
    {
      if id == t.id {
        assert t in after.db.log && PaidFor(t, id, after.payouts[id]);
      } else {
        assert RowBacked(s, id);
        var u :| u in s.db.log && PaidFor(u, id, s.payouts[id]);
        assert u in after.db.log;
      }
    }
  }

  lemma CashOutBacks(cfg: Config, caps: Caps, s: Site, number: nat, r: Request)
    requires SiteOk(s) && Backed(s) && IsPayment(r) && number !in s.open
    requires !(Accepted(cfg, caps, s, number, r) && HeldUnpaid(s, r.key))
    ensures Backed(BeginCashOut(cfg, caps, s, number, r).0)
  {
    var after := BeginCashOut(cfg, caps, s, number, r).0;
    if !Accepted(cfg, caps, s, number, r) {
      RefusedAddsNoRow(cfg, caps, s, number, r);
    } else if after.db == s.db {
      RowWithoutDebit(cfg, caps, s, number, r);
      hide BeginCashOut, SiteOk;
      BackedStays(s, after);
    } else {
      var t, m := CashOutStep(cfg, caps, s, number, r);
      assert m.fee >= 0;
      hide BeginCashOut, CashOutVelocityOk;
      PostingBacks(s, after, r, t, m);
    }
  }

  lemma UnbackedNow(cfg: Config, caps: Caps, s: Site, number: nat, r: Request) returns (id: Id)
    requires SiteOk(s) && IsPayment(r) && Accepted(cfg, caps, s, number, r) && HeldUnpaid(s, r.key)
    ensures Orphan(BeginCashOut(cfg, caps, s, number, r).0, id)
  {
    RowWithoutDebit(cfg, caps, s, number, r);
    AcceptedRow(cfg, caps, s, number, r);
    AcceptedDebitsIffKeyFresh(cfg, caps, s, number, r);
    var after := BeginCashOut(cfg, caps, s, number, r).0;
    hide BeginCashOut, Paired;
    var t :| Posted(s.db.log, r.key, t) && t.kind != CASHOUT && t.id !in s.payouts;
    KeyHolder(s.db.log, r.key, t);
    id := t.id;
  }

  lemma {:induction false} OrphanStaysRun(cfg: Config, caps: Caps, s: Site, steps: seq<Step>, id: Id)
    requires SiteOk(s) && EnabledRun(cfg, caps, s, steps) && Orphan(s, id)
    ensures !Backed(RunSite(cfg, caps, s, steps))
    decreases |steps|
  {
    if steps == [] {
      OrphanIsUnbacked(s, id);
    } else {
      var next := Take(cfg, caps, s, steps[0]).0;
      assert Distinct(s.db.accounts);
      StepKeepsSiteOk(cfg, caps, s, steps[0]);
      StepGrows(cfg, caps, s, steps[0]);
      OrphanStays(s, next, id);
      hide Take, SiteOk, Orphan, Backed;
      OrphanStaysRun(cfg, caps, next, steps[1..], id);
    }
  }

  lemma StepBacks(cfg: Config, caps: Caps, s: Site, step: Step)
    requires SiteOk(s) && Backed(s) && Enabled(s, step) && !Unbacks(cfg, caps, s, step)
    ensures Backed(Take(cfg, caps, s, step).0)
  {
    if step.CashOutCall? {
      hide SiteOk, Backed, BeginCashOut;
      CashOutBacks(cfg, caps, s, step.number, step.request);
    } else {
      assert Distinct(s.db.accounts);
      OtherStepsAddNoRow(cfg, caps, s, step);
      StepGrows(cfg, caps, s, step);
      hide Take, SiteOk, Backed;
      BackedStays(s, Take(cfg, caps, s, step).0);
    }
  }

  lemma {:induction false} BackedRun(cfg: Config, caps: Caps, s: Site, steps: seq<Step>)
    requires SiteOk(s) && Backed(s) && EnabledRun(cfg, caps, s, steps)
    ensures Backed(RunSite(cfg, caps, s, steps)) <==> NeverUnbacks(cfg, caps, s, steps)
    decreases |steps|
  {
    if steps != [] {
      var next := Take(cfg, caps, s, steps[0]).0;
      StepKeepsSiteOk(cfg, caps, s, steps[0]);
      if Unbacks(cfg, caps, s, steps[0]) {
        var id := UnbackedNow(cfg, caps, s, steps[0].number, steps[0].request);
        hide SiteOk, Orphan, BeginCashOut, HeldUnpaid, Accepted;
        OrphanStaysRun(cfg, caps, next, steps[1..], id);
      } else {
        StepBacks(cfg, caps, s, steps[0]);
        hide SiteOk, Backed, Take, Unbacks;
        BackedRun(cfg, caps, next, steps[1..]);
      }
    }
  }

  /** After any run of the routes every payout row has a cash-out transaction of its id and amount, with
      that much debited, exactly when no accepted cash-out of the run met a key that was posted by
      something else than a cash-out and had no payout row yet. */
  lemma EveryRowHasItsDebit(cfg: Config, caps: Caps, steps: seq<Step>)
    requires EnabledRun(cfg, caps, NEW_SITE, steps)
    ensures Backed(RunSite(cfg, caps, NEW_SITE, steps)) <==> NeverUnbacks(cfg, caps, NEW_SITE, steps)
  {
    NewSiteOk();
    BackedRun(cfg, caps, NEW_SITE, steps);
  }
}
