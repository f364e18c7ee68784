/**
 The payment routes as they run, on the ledger procedures, the payout table and the
 idempotency table.  Each is proved to do exactly what module Admission says.
 */
module AdmissionProcedures {
  import opened Wrappers
  import opened Calendar
  import opened Fees
  import opened Ledger
  import opened LedgerProcedures
  import opened Admission

  class PaymentDesk {
    const ledger: LedgerStore
    var payouts: map<Id, PayoutRow>
    var idem: map<IdemKey, Stored>
    var open: map<nat, Open>

    function State(): Site
      reads this, ledger
    {
      Site(ledger.Snapshot(), payouts, idem, open)
    }

    constructor ()
      ensures fresh(ledger) && State() == NEW_SITE
    {
      ledger := new LedgerStore();
      payouts, idem, open := map[], map[], map[];
    }

    /* ---- services/idempotency.py ---- */

    method GetIdempotency(user: Id, key: string, route: Route) returns (row: Option<Stored>)
      ensures row.Some? <==> IdemKey(user, key, route) in idem
      ensures row.Some? ==> row.value == idem[IdemKey(user, key, route)]
    {
      var ik := IdemKey(user, key, route);
      if ik !in idem { return None; }
      row := Some(idem[ik]);
    }

    method IdempotencyConflict(user: Id, key: string, route: Route) returns (conflict: bool)
      ensures conflict <==> OtherRouteUsed(idem, user, key, route)
    {
      var table := idem;
      conflict := exists ik :: ik in table && ik.user == user && ik.key == key && ik.route != route;
    }

    // The first response stored under a key is the one that stays, and the one returned.
    method StoreIdempotency(user: Id, key: string, route: Route, body: Body, response: Response, code: nat)
      returns (row: Stored)
      modifies this`idem
      ensures idem == StoreOnce(old(idem), IdemKey(user, key, route), Stored(body, response, code))
      ensures IdemKey(user, key, route) in idem && row == idem[IdemKey(user, key, route)]
    {
      var ik := IdemKey(user, key, route);
      if ik !in idem { idem := idem[ik := Stored(body, response, code)]; }
      var stored := GetIdempotency(user, key, route);
      row := stored.value;
    }

    /* ---- services/velocity.py ---- */

    method CheckCashOutVelocity(caps: Caps, user: Id, amount: int, phone: Option<string>, now: nat) returns (ok: bool)
      ensures ok <==> CashOutVelocityOk(caps, State(), user, amount, phone, now)
    {
      var since := now - DAY;
      if caps.count > 0 {
        var count := CountFrom(ledger.log, user, CASHOUT, since);
        if count >= caps.count { return false; }
      }
      if caps.amount > 0 {
        var total := AmountFrom(ledger.log, user, CASHOUT, since);
        if total + amount > caps.amount { return false; }
      }
      if caps.receivers > 0 && phone.Some? && phone.value != "" {
        var known := ReceiversFrom(ledger.log, payouts, user, since);
        if phone.value !in known && |known| >= caps.receivers { return false; }
      }
      ok := true;
    }

    method CheckCashInVelocity(caps: Caps, user: Id, amount: int, now: nat) returns (ok: bool)
      ensures ok <==> CashInVelocityOk(caps, State(), user, amount, now)
    {
      if caps.cashIn <= 0 { return true; }
      var total := AmountFrom(ledger.log, user, CASHIN, now - DAY);
      ok := total + amount <= caps.cashIn;
    }

    /* ---- routes/payments.py ---- */

    // The idempotency prologue of both routes.
    method Recall(user: Id, key: string, route: Route, body: Body) returns (http: Option<Http>)
      ensures http == Recalled(State(), user, key, route, body)
    {
      var cached := GetIdempotency(user, key, route);
      if cached.Some? {
        if cached.value.body != body { return Some(Conflict409); }
        return Some(Answered(cached.value.code, cached.value.response));
      }
      var conflict := IdempotencyConflict(user, key, route);
      if conflict { return Some(Conflict409); }
      http := None;
    }

    method AddPayoutRow(txn: Id, row: PayoutRow)
      modifies this`payouts
      ensures payouts == AddPayout(old(payouts), txn, row)
    {
      if txn !in payouts { payouts := payouts[txn := row]; }
    }

    // cash_out_mobile_money up to its commit.
    method CashOutMobileMoney(cfg: Config, caps: Caps, number: nat, request: Request) returns (http: Http)
      requires IsPayment(request)
      modifies this, ledger
      ensures var check := RequireIdempotency(request.header);
              (State(), http) == if check.GoodKey? then
                                   BeginCashOut(cfg, caps, old(State()), number, request.(key := check.key))
                                 else (old(State()), KeyError(check))
    {
      var check := RequireIdempotency(request.header);
      if check.MissingKey409? { return Conflict409; }
      if check.LongKey400? { return BadKey400; }
      var r := request.(key := check.key);
      var recalled := Recall(r.user, r.key, CASH_OUT_ROUTE, r.body);
      if recalled.Some? { return recalled.value; }
      var ok := CheckCashOutVelocity(caps, r.user, r.body.amount, r.body.phone, r.now);
      if !ok { return Velocity429; }
      hide CashOut, CashOutVelocityOk, Recalled;
      ghost var before := ledger.Snapshot();
      var answer := ledger.PostCashOut(cfg, CashOutReqOf(r));
      if answer.Raised? {
        UnpostedIsUnchanged(cfg, before, CashOutReqOf(r));
        return Refused(answer.error);
      }
      if answer.id.None? {
        UnpostedIsUnchanged(cfg, before, CashOutReqOf(r));
        return Failed500;
      }
      AddPayoutRow(answer.id.value, RowOf(r));
      open := open[number := Open(r.user, r.key, r.body, Response(answer.id, Some(r.quote)))];
      http := Silent;
    }

    // The rest of it: store the response, answer.
    method StoreAndAnswer(number: nat) returns (http: Http)
      modifies this
      ensures (State(), http) == FinishCashOut(old(State()), number)
    {
      if number !in open { return Silent; }
      var o := open[number];
      var _ := StoreIdempotency(o.user, o.key, CASH_OUT_ROUTE, o.body, o.response, 200);
      open := open - {number};
      http := Answered(200, o.response);
    }

    method CashInMobileMoney(cfg: Config, caps: Caps, request: Request) returns (http: Http)
      requires IsPayment(request)
      modifies this, ledger
      ensures var check := RequireIdempotency(request.header);
              (State(), http) == if check.GoodKey? then
                                   CashInRoute(cfg, caps, old(State()), request.(key := check.key))
                                 else (old(State()), KeyError(check))
    {
      var check := RequireIdempotency(request.header);
      if check.MissingKey409? { return Conflict409; }
      if check.LongKey400? { return BadKey400; }
      var r := request.(key := check.key);
      var recalled := Recall(r.user, r.key, CASH_IN_ROUTE, r.body);
      if recalled.Some? { return recalled.value; }
      var ok := CheckCashInVelocity(caps, r.user, r.body.amount, r.now);
      if !ok { return Velocity429; }
      hide CashInVelocityOk, Recalled;
      var answer := ledger.PostCashIn(CashInReqOf(r));
      if answer.Raised? { return Refused(answer.error); }
      var response := Response(answer.id, None);
      var _ := StoreIdempotency(r.user, r.key, CASH_IN_ROUTE, r.body, response, 200);
      http := if answer.id.None? then Failed500 else Answered(200, response);
    }
  }

  // Raising and answering NULL both leave the ledger as it was: the route has nothing to undo.
  lemma UnpostedIsUnchanged(cfg: Config, db: Db, r: CashOutReq)
    requires CashOut(cfg, db, r).1.Raised? || CashOut(cfg, db, r).1.id.None?
    ensures CashOut(cfg, db, r).0 == db
  {
  }
}
