/**
 Payment requests: the per-route idempotency table, the rolling velocity checks, the posting,
 the payout row, and the commit that comes before the stored response.
 */
module Admission {
  import opened Wrappers
  import opened Calendar
  import opened Fees
  import opened Ledger
  import Payouts

  datatype Route = CASH_IN_ROUTE | CASH_OUT_ROUTE | OTHER_ROUTE(name: string)

  // A request body stands for its hash, which tells any two bodies apart.
  datatype Body = PaymentBody(wallet: Id, amount: int, country: Country, provider: string,
                              phone: Option<string>, providerRef: Option<string>)
                | OtherBody(text: string)

  // An exchange quote, opaque here.
  type Quote = string

  datatype Response = Response(txn: Option<Id>, quote: Option<Quote>)

  // Rows of app.idempotency_keys.
  datatype IdemKey = IdemKey(user: Id, key: string, route: Route)
  datatype Stored = Stored(body: Body, response: Response, code: nat)

  // The columns of a payout row that no later update touches, by transaction.
  datatype PayoutRow = PayoutRow(provider: string, phone: Option<string>, amount: int, quote: Quote, createdAt: nat)

  // A cash-out request between its commit and its stored response.
  datatype Open = Open(user: Id, key: string, body: Body, response: Response)

  datatype Site = Site(db: Db, payouts: map<Id, PayoutRow>, idem: map<IdemKey, Stored>, open: map<nat, Open>)

  const NEW_SITE := Site(EMPTY, map[], map[], map[])

  // The four settings; a limit that is not positive is off.
  datatype Caps = Caps(count: int, amount: int, receivers: int, cashIn: int)

  datatype Http = Answered(code: nat, response: Response) | Conflict409 | Velocity429 | Refused(error: Error)
                | Failed500 | BadKey400 | Silent

  // `key` is what the route takes from the header; `uuid` is drawn when the body has no provider_ref;
  // `quote` is what FX would say now.
  datatype Request = Request(user: Id, header: Option<string>, key: string, body: Body, uuid: string, quote: Quote,
                             systemOwner: Id, now: nat, ids: FreshIds)

  datatype Step =
    // The request up to its commit; it stays open under a request number.
    | CashOutCall(number: nat, request: Request)
    | StoreResponse(number: nat)
    // The process dies, or the store fails, between commit and stored response.
    | Crash(number: nat)
    | CashInCall(request: Request)
    // Either route with a header that it does not accept.
    | BadKeyCall(header: Option<string>)
    // Registrations, transfers and whatever other routes store.
    | Other(op: Op, stored: Option<(IdemKey, Stored)>)

  /* ---- require_idempotency ---- */

  datatype KeyCheck = GoodKey(key: string) | MissingKey409 | LongKey400

  function RequireIdempotency(header: Option<string>): KeyCheck {
    if header.None? || header.value == "" || Payouts.Blank(header.value) then MissingKey409
    else if |Payouts.Strip(header.value)| > 128 then LongKey400
    else GoodKey(Payouts.Strip(header.value))
  }

  function KeyError(check: KeyCheck): Http {
    if check.LongKey400? then BadKey400 else Conflict409
  }

  // The key of the request is the one its header passes.
  predicate KeyChecked(r: Request) { RequireIdempotency(r.header) == GoodKey(r.key) }

  /* ---- services/velocity.py ---- */

  predicate By(t: Txn, user: Id, kind: Kind) { t.createdBy == user && t.kind == kind }

  function CountFrom(log: seq<Txn>, user: Id, kind: Kind, since: int): nat {
    if log == [] then 0
    else
      var t := log[|log| - 1];
      CountFrom(log[..|log| - 1], user, kind, since) + (if By(t, user, kind) && since <= t.createdAt then 1 else 0)
  }

  function AmountFrom(log: seq<Txn>, user: Id, kind: Kind, since: int): int {
    if log == [] then 0
    else
      var t := log[|log| - 1];
      AmountFrom(log[..|log| - 1], user, kind, since)
      + (if By(t, user, kind) && since <= t.createdAt then t.amount else 0)
  }

  predicate HasPhone(row: PayoutRow) { row.phone.Some? && row.phone.value != "" }

  // The payout row of a cash-out of this user names a receiver, since an instant.
  predicate Receives(t: Txn, payouts: map<Id, PayoutRow>, user: Id, since: int) {
    By(t, user, CASHOUT) && t.id in payouts && HasPhone(payouts[t.id]) && since <= payouts[t.id].createdAt
  }

  function ReceiversFrom(log: seq<Txn>, payouts: map<Id, PayoutRow>, user: Id, since: int): set<string> {
    set i | 0 <= i < |log| && Receives(log[i], payouts, user, since) :: payouts[log[i].id].phone.value
  }

  predicate CashOutVelocityOk(caps: Caps, s: Site, user: Id, amount: int, phone: Option<string>, now: nat) {
    var since := now - DAY;
    && (caps.count > 0 ==> CountFrom(s.db.log, user, CASHOUT, since) < caps.count)
    && (caps.amount > 0 ==> AmountFrom(s.db.log, user, CASHOUT, since) + amount <= caps.amount)
    && ((caps.receivers > 0 && phone.Some? && phone.value != "") ==>
          var known := ReceiversFrom(s.db.log, s.payouts, user, since);
          phone.value in known || |known| < caps.receivers)
  }

  predicate CashInVelocityOk(caps: Caps, s: Site, user: Id, amount: int, now: nat) {
    caps.cashIn > 0 ==> AmountFrom(s.db.log, user, CASHIN, now - DAY) + amount <= caps.cashIn
  }

  /* ---- services/idempotency.py ---- */

  predicate OtherRouteUsed(idem: map<IdemKey, Stored>, user: Id, key: string, route: Route) {
    exists ik :: ik in idem && ik.user == user && ik.key == key && ik.route != route
  }

  // INSERT ... ON CONFLICT DO NOTHING.
  function StoreOnce(idem: map<IdemKey, Stored>, ik: IdemKey, row: Stored): map<IdemKey, Stored> {
    if ik in idem then idem else idem[ik := row]
  }

  // What a route answers before it looks at velocity or posts anything.
  function Recalled(s: Site, user: Id, key: string, route: Route, body: Body): Option<Http> {
    var ik := IdemKey(user, key, route);
    if ik in s.idem then
      Some(if s.idem[ik].body == body then Answered(s.idem[ik].code, s.idem[ik].response) else Conflict409)
    else if OtherRouteUsed(s.idem, user, key, route) then Some(Conflict409)
    else None
  }

  /* ---- routes/payments.py ---- */

  function RefOf(r: Request): Option<string> {
    if r.body.PaymentBody? && r.body.providerRef.Some? && r.body.providerRef.value != "" then r.body.providerRef
    else Some(r.uuid)
  }

  predicate IsPayment(r: Request) { r.body.PaymentBody? }

  function CashOutReqOf(r: Request): CashOutReq
    requires IsPayment(r)
  {
    CashOutReq(Some(r.user), r.body.wallet, r.body.amount, r.body.country, r.key, RefOf(r), r.systemOwner, r.now, r.ids)
  }

  function CashInReqOf(r: Request): CashInReq
    requires IsPayment(r)
  {
    CashInReq(r.body.wallet, r.user, r.body.amount, r.body.country, r.key, RefOf(r), r.systemOwner, r.now, r.ids)
  }

  function RowOf(r: Request): PayoutRow
    requires IsPayment(r)
  {
    PayoutRow(r.body.provider, r.body.phone, r.body.amount, r.quote, r.now)
  }

  // INSERT ... ON CONFLICT (transaction_id), which keeps the row and its first quote.
  function AddPayout(payouts: map<Id, PayoutRow>, txn: Id, row: PayoutRow): map<Id, PayoutRow> {
    if txn in payouts then payouts else payouts[txn := row]
  }

  // cash_out_mobile_money up to conn.commit().
  function BeginCashOut(cfg: Config, caps: Caps, s: Site, number: nat, r: Request): (Site, Http)
    requires IsPayment(r)
  {
    var recalled := Recalled(s, r.user, r.key, CASH_OUT_ROUTE, r.body);
    if recalled.Some? then (s, recalled.value)
    else if !CashOutVelocityOk(caps, s, r.user, r.body.amount, r.body.phone, r.now) then (s, Velocity429)
    else
      var (db, answer) := CashOut(cfg, s.db, CashOutReqOf(r));
      if answer.Raised? then (s, Refused(answer.error))
      else if answer.id.None? then (s, Failed500)
      else
        (Site(db, AddPayout(s.payouts, answer.id.value, RowOf(r)), s.idem,
              s.open[number := Open(r.user, r.key, r.body, Response(answer.id, Some(r.quote)))]), Silent)
  }

  // store_idempotency and the answer, for a request that has committed.
  function FinishCashOut(s: Site, number: nat): (Site, Http) {
    if number !in s.open then (s, Silent)
    else
      var o := s.open[number];
      (s.(idem := StoreOnce(s.idem, IdemKey(o.user, o.key, CASH_OUT_ROUTE), Stored(o.body, o.response, 200)),
          open := s.open - {number}), Answered(200, o.response))
  }

  // cash_in_mobile_money, one database transaction.  A NULL transaction id is stored, then
  // fails the response model.
  function CashInRoute(cfg: Config, caps: Caps, s: Site, r: Request): (Site, Http)
    requires IsPayment(r)
  {
    var recalled := Recalled(s, r.user, r.key, CASH_IN_ROUTE, r.body);
    if recalled.Some? then (s, recalled.value)
    else if !CashInVelocityOk(caps, s, r.user, r.body.amount, r.now) then (s, Velocity429)
    else
      var (db, answer) := CashIn(s.db, CashInReqOf(r));
      if answer.Raised? then (s, Refused(answer.error))
      else
        var response := Response(answer.id, None);
        (s.(db := db,
            idem := StoreOnce(s.idem, IdemKey(r.user, r.key, CASH_IN_ROUTE), Stored(r.body, response, 200))),
         if answer.id.None? then Failed500 else Answered(200, response))
  }

  // Cash-outs and cash-ins come only through their routes, and only they store under those routes.
  predicate Enabled(s: Site, step: Step) {
    match step
    case CashOutCall(number, r) => number !in s.open && IsPayment(r) && KeyChecked(r)
    case CashInCall(r) => IsPayment(r) && KeyChecked(r)
    case BadKeyCall(header) => !RequireIdempotency(header).GoodKey?
    case Other(op, stored) =>
      && !op.OpCashOut? && !op.OpCashIn?
      && (stored.Some? ==> stored.value.0.route.OTHER_ROUTE?)
    case _ => true
  }

  function Take(cfg: Config, caps: Caps, s: Site, step: Step): (Site, Http)
    requires Enabled(s, step)
  {
    match step
    case CashOutCall(number, r) => BeginCashOut(cfg, caps, s, number, r)
    case StoreResponse(number) => FinishCashOut(s, number)
    case Crash(number) => (s.(open := s.open - {number}), Silent)
    case CashInCall(r) => CashInRoute(cfg, caps, s, r)
    case BadKeyCall(header) => (s, KeyError(RequireIdempotency(header)))
    case Other(op, stored) =>
      (s.(db := Ledger.Apply(cfg, s.db, op).0,
          idem := if stored.Some? then StoreOnce(s.idem, stored.value.0, stored.value.1) else s.idem), Silent)
  }

  predicate EnabledRun(cfg: Config, caps: Caps, s: Site, steps: seq<Step>)
    decreases |steps|
  {
    steps != [] ==> Enabled(s, steps[0]) && EnabledRun(cfg, caps, Take(cfg, caps, s, steps[0]).0, steps[1..])
  }

  function RunSite(cfg: Config, caps: Caps, s: Site, steps: seq<Step>): Site
    requires EnabledRun(cfg, caps, s, steps)
    decreases |steps|
  {
    if steps == [] then s else RunSite(cfg, caps, Take(cfg, caps, s, steps[0]).0, steps[1..])
  }

  /* ---- the shape of a step ---- */

  lemma {:induction false} TrimLeftStable(s: string)
    ensures var t := Payouts.TrimLeft(s); t == "" || !Payouts.Space(t[0])
  {
    if s != "" && Payouts.Space(s[0]) { TrimLeftStable(s[1..]); }
  }

  lemma {:induction false} TrimRightKeepsFirst(s: string)
    requires s != "" && !Payouts.Space(s[0])
    ensures var t := Payouts.TrimRight(s);
            t != "" && t[0] == s[0] && !Payouts.Space(t[|t| - 1])
  {
    if Payouts.Space(s[|s| - 1]) { TrimRightKeepsFirst(s[..|s| - 1]); }
  }

  /** An accepted key has between 1 and 128 characters, no surrounding blanks, and means itself
      when it is sent again, so a padded and a trimmed header are the same key. */
  lemma AcceptedKeyIsStable(header: Option<string>)
    requires RequireIdempotency(header).GoodKey?
    ensures var key := RequireIdempotency(header).key;
            1 <= |key| <= 128 && RequireIdempotency(Some(key)) == GoodKey(key)
  {
    var left := Payouts.TrimLeft(header.value);
    TrimLeftStable(header.value);
    NotBlankLeft(header.value);
    TrimRightKeepsFirst(left);
    var key := Payouts.TrimRight(left);
    assert key[0] in key;
  }

  lemma {:induction false} NotBlankLeft(s: string)
    requires !Payouts.Blank(s)
    ensures Payouts.TrimLeft(s) != ""
  {
    if s != "" && Payouts.Space(s[0]) {
      assert s == [s[0]] + s[1..];
      NotBlankLeft(s[1..]);
    }
  }

  /** A request's key is its own header: padding it with blanks, or sending it trimmed, reaches the same
      postings, stored responses and open requests. */
  lemma PaddedHeaderSameKey(s: string, before: string, after: string)
    requires RequireIdempotency(Some(s)).GoodKey? && Payouts.Blank(before) && Payouts.Blank(after)
    ensures RequireIdempotency(Some(before + s + after)) == RequireIdempotency(Some(s))
  {
    var padded := before + s + after;
    var c :| c in s && !Payouts.Space(c);
    assert c in padded;
    TrimLeftSkips(before, s + after);
    assert before + (s + after) == padded;
    TrimLeftInside(s, after);
    NotBlankLeft(s);
    TrimRightSkips(Payouts.TrimLeft(s), after);
  }

  lemma {:induction false} TrimLeftSkips(blank: string, s: string)
    requires Payouts.Blank(blank)
    ensures Payouts.TrimLeft(blank + s) == Payouts.TrimLeft(s)
  {
    if blank == "" {
      assert blank + s == s;
    } else {
      assert blank[0] in blank && (blank + s)[1..] == blank[1..] + s && (blank + s)[0] == blank[0];
      assert forall c :: c in blank[1..] ==> c in blank;
      TrimLeftSkips(blank[1..], s);
    }
  }

  lemma {:induction false} TrimLeftInside(s: string, after: string)
    requires !Payouts.Blank(s)
    ensures Payouts.TrimLeft(s + after) == Payouts.TrimLeft(s) + after
  {
    assert s != "";
    if Payouts.Space(s[0]) {
      assert s == [s[0]] + s[1..] && (s + after)[1..] == s[1..] + after && (s + after)[0] == s[0];
      TrimLeftInside(s[1..], after);
    } else {
      assert (s + after)[0] == s[0];
    }
  }

  lemma {:induction false} TrimRightSkips(s: string, blank: string)
    requires Payouts.Blank(blank)
    ensures Payouts.TrimRight(s + blank) == Payouts.TrimRight(s)
  {
    if blank == "" {
      assert s + blank == s;
    } else {
      var n := |blank| - 1;
      assert blank[n] in blank && (s + blank)[..|s + blank| - 1] == s + blank[..n];
      assert forall c :: c in blank[..n] ==> c in blank;
      TrimRightSkips(s, blank[..n]);
    }
  }

  /** A header is taken exactly as follows: absent or blank it is answered 409; otherwise, of blanks around a text
      that neither begins nor ends with one, the text is the key if it has at most 128 characters, and else the
      answer is 400. */
  lemma HeaderTakenExactly(before: string, text: string, after: string)
    requires Payouts.Blank(before) && Payouts.Blank(after)
    requires text == "" || (!Payouts.Space(text[0]) && !Payouts.Space(text[|text| - 1]))
    ensures RequireIdempotency(None) == MissingKey409 && KeyError(MissingKey409) == Conflict409
    ensures RequireIdempotency(Some(before + text + after))
            == if text == "" then MissingKey409 else if |text| <= 128 then GoodKey(text) else LongKey400
    ensures KeyError(LongKey400) == BadKey400
  {
    var header := before + text + after;
    if text == "" {
      assert header == before + after;
    } else {
      assert text[0] in header;
      TrimLeftSkips(before, text + after);
      assert before + (text + after) == header;
      assert text[0] in text;
      TrimLeftInside(text, after);
      TrimRightSkips(text, after);
    }
  }
}
