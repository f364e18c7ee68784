/**
 What the payment routes do, read off the request's own fields and the rows of the tables: every answer with
 its exact condition, what an accepted request leaves behind, and whose reference a posting carries.
 */
module RouteLaws {
  import opened Wrappers
  import opened Fees
  import opened Ledger
  import opened LedgerSteps
  import opened LedgerProofs
  import opened Postings
  import opened Admission
  import opened Velocity
  import opened ExactlyOnce
  import opened RouteAnswers

  /* ---- what a request asks the ledger for ---- */

  // The body's provider_ref when it is given and not empty, else the uuid drawn for the request.
  predicate ReferenceFrom(r: Request, ref: Option<string>)
    requires IsPayment(r)
  {
    match r.body.providerRef
    case None => ref == Some(r.uuid)
    case Some(given) => if given == "" then ref == Some(r.uuid) else ref == Some(given)
  }

  predicate AsksCashIn(r: Request, c: CashInReq)
    requires IsPayment(r)
  {
    && c.wallet == r.body.wallet && c.user == r.user && c.amount == r.body.amount && c.country == r.body.country
    && c.key == r.key && c.systemOwner == r.systemOwner && c.now == r.now && c.ids == r.ids
    && ReferenceFrom(r, c.providerRef)
  }

  predicate AsksCashOut(r: Request, c: CashOutReq)
    requires IsPayment(r)
  {
    && c.actor == Some(r.user) && c.wallet == r.body.wallet && c.amount == r.body.amount
    && c.country == r.body.country && c.key == r.key && c.systemOwner == r.systemOwner && c.now == r.now
    && c.ids == r.ids && ReferenceFrom(r, c.providerRef)
  }

  lemma RouteAsks(r: Request)
    requires IsPayment(r)
    ensures AsksCashIn(r, CashInReqOf(r)) && AsksCashOut(r, CashOutReqOf(r))
    ensures forall c :: AsksCashIn(r, c) ==> c == CashInReqOf(r)
    ensures forall c :: AsksCashOut(r, c) ==> c == CashOutReqOf(r)
  {
  }

  /* ---- what is stored under a key ---- */

  // Nothing is stored under the user's key, by any route.
  ghost predicate KeyUnused(s: Site, user: Id, key: string) {
    forall ik :: ik in s.idem ==> !(ik.user == user && ik.key == key)
  }

  // The route's own row answers for the same body.
  ghost predicate Repeats(s: Site, r: Request, route: Route) {
    IdemKey(r.user, r.key, route) in s.idem && s.idem[IdemKey(r.user, r.key, route)].body == r.body
  }

  lemma RecalledReadsRows(s: Site, r: Request, route: Route)
    ensures var recalled := Recalled(s, r.user, r.key, route, r.body);
            && (recalled.None? <==> KeyUnused(s, r.user, r.key))
            && (Repeats(s, r, route) ==>
                  var row := s.idem[IdemKey(r.user, r.key, route)];
                  recalled == Some(Answered(row.code, row.response)))
            && (!Repeats(s, r, route) && !KeyUnused(s, r.user, r.key) ==> recalled == Some(Conflict409))
  {
  }

  /* ---- velocity ---- */

  predicate PaidSince(t: Txn, user: Id, kind: Kind, since: int) {
    t.createdBy == user && t.kind == kind && since <= t.createdAt
  }

  function PaymentsSince(log: seq<Txn>, user: Id, kind: Kind, since: int): set<nat> {
    set i: nat | 0 <= i < |log| && PaidSince(log[i], user, kind, since)
  }

  function AmountSince(log: seq<Txn>, user: Id, kind: Kind, since: int): int {
    if log == [] then 0
    else (if PaidSince(log[0], user, kind, since) then log[0].amount else 0) + AmountSince(log[1..], user, kind, since)
  }

  // A cash-out of the user, whose payout row was made since, paid the phone.
  ghost predicate PaidPhone(s: Site, user: Id, since: int, phone: string) {
    exists t :: t in s.db.log && t.createdBy == user && t.kind == CASHOUT && t.id in s.payouts
                && since <= s.payouts[t.id].createdAt && s.payouts[t.id].phone == Some(phone) && phone != ""
  }

  lemma PaymentsOfLonger(log: seq<Txn>, user: Id, kind: Kind, since: int)
    requires log != []
    ensures var n := |log| - 1;
            var before := PaymentsSince(log[..n], user, kind, since);
            && n !in before
            && PaymentsSince(log, user, kind, since)
               == if PaidSince(log[n], user, kind, since) then before + {n} else before
  {
  }

  lemma {:induction false} CountIsSize(log: seq<Txn>, user: Id, kind: Kind, since: int)
    ensures CountFrom(log, user, kind, since) == |PaymentsSince(log, user, kind, since)|
  {
    if log == [] {
      assert PaymentsSince(log, user, kind, since) == {};
    } else {
      var n := |log| - 1;
      CountIsSize(log[..n], user, kind, since);
      PaymentsOfLonger(log, user, kind, since);
      hide PaymentsSince;
    }
  }

  lemma {:induction false} AmountSinceAppend(log: seq<Txn>, t: Txn, user: Id, kind: Kind, since: int)
    ensures AmountSince(log + [t], user, kind, since)
            == AmountSince(log, user, kind, since) + (if PaidSince(t, user, kind, since) then t.amount else 0)
  {
    if log == [] {
      assert (log + [t])[1..] == [];
    } else {
      assert (log + [t])[1..] == log[1..] + [t] && (log + [t])[0] == log[0];
      AmountSinceAppend(log[1..], t, user, kind, since);
    }
  }

  lemma {:induction false} AmountFromIsSum(log: seq<Txn>, user: Id, kind: Kind, since: int)
    ensures AmountFrom(log, user, kind, since) == AmountSince(log, user, kind, since)
  {
    if log != [] {
      var n := |log| - 1;
      AmountFromIsSum(log[..n], user, kind, since);
      assert log[..n] + [log[n]] == log;
      AmountSinceAppend(log[..n], log[n], user, kind, since);
    }
  }

  lemma ReceiversArePhones(s: Site, user: Id, since: int, phone: string)
    ensures phone in ReceiversFrom(s.db.log, s.payouts, user, since) <==> PaidPhone(s, user, since, phone)
  {
    if PaidPhone(s, user, since, phone) {
      var t :| t in s.db.log && t.createdBy == user && t.kind == CASHOUT && t.id in s.payouts
               && since <= s.payouts[t.id].createdAt && s.payouts[t.id].phone == Some(phone) && phone != "";
      var i :| 0 <= i < |s.db.log| && s.db.log[i] == t;
      assert Receives(s.db.log[i], s.payouts, user, since);
    }
  }

  // One more cash-out of this amount to this phone stays within the caps that are on, `known` being the
  // phones paid in the last 24 hours.
  predicate WithinCashOutCaps(caps: Caps, s: Site, r: Request, known: set<string>)
    requires IsPayment(r)
  {
    var since := r.now - 86400;
    && (caps.count > 0 ==> |PaymentsSince(s.db.log, r.user, CASHOUT, since)| + 1 <= caps.count)
    && (caps.amount > 0 ==> AmountSince(s.db.log, r.user, CASHOUT, since) + r.body.amount <= caps.amount)
    && (caps.receivers > 0 && r.body.phone.Some? && r.body.phone.value != "" && r.body.phone.value !in known ==>
          |known| + 1 <= caps.receivers)
  }

  predicate WithinCashInCaps(caps: Caps, s: Site, r: Request)
    requires IsPayment(r)
  {
    caps.cashIn > 0 ==> AmountSince(s.db.log, r.user, CASHIN, r.now - 86400) + r.body.amount <= caps.cashIn
  }

  ghost predicate PhonesPaid(s: Site, r: Request, known: set<string>) {
    forall phone :: phone in known <==> PaidPhone(s, r.user, r.now - 86400, phone)
  }

  /** The velocity checks admit a request exactly when counting it in keeps every cap that is on. */
  lemma VelocityAdmitsExactly(caps: Caps, s: Site, r: Request, known: set<string>)
    requires IsPayment(r) && PhonesPaid(s, r, known)
    ensures CashOutVelocityOk(caps, s, r.user, r.body.amount, r.body.phone, r.now)
            <==> WithinCashOutCaps(caps, s, r, known)
    ensures CashInVelocityOk(caps, s, r.user, r.body.amount, r.now) <==> WithinCashInCaps(caps, s, r)
  {
    var since := r.now - 86400;
    CountIsSize(s.db.log, r.user, CASHOUT, since);
    AmountFromIsSum(s.db.log, r.user, CASHOUT, since);
    AmountFromIsSum(s.db.log, r.user, CASHIN, since);
    forall phone { ReceiversArePhones(s, r.user, since, phone); }
    assert known == ReceiversFrom(s.db.log, s.payouts, r.user, since);
  }

  /* ---- the cash-out route ---- */

  // Past the stored keys and the velocity checks.
  ghost predicate ReachesCashOut(caps: Caps, s: Site, r: Request, known: set<string>)
    requires IsPayment(r)
  {
    KeyUnused(s, r.user, r.key) && WithinCashOutCaps(caps, s, r, known)
  }

  /** Every answer of the cash-out route, with its exact condition on the request and the rows. */
  lemma CashOutAnswers(cfg: Config, caps: Caps, s: Site, number: nat, r: Request, c: CashOutReq, known: set<string>)
    requires SiteOk(s) && IsPayment(r) && AsksCashOut(r, c) && PhonesPaid(s, r, known) && number !in s.open
    ensures var http := BeginCashOut(cfg, caps, s, number, r).1;
            var reaches := ReachesCashOut(caps, s, r, known);
            var fee := ComputeFee(cfg.rules, CASHOUT, c.country, c.amount);
            && (Repeats(s, r, CASH_OUT_ROUTE) ==>
                  var row := s.idem[IdemKey(r.user, r.key, CASH_OUT_ROUTE)]; http == Answered(row.code, row.response))
            && (http == Conflict409 <==> !KeyUnused(s, r.user, r.key) && !Repeats(s, r, CASH_OUT_ROUTE))
            && (http == Velocity429 <==> KeyUnused(s, r.user, r.key) && !WithinCashOutCaps(caps, s, r, known))
            && (http == Failed500 <==> reaches && CashOutGranted(cfg, s.db, c) && !CashOutIdsFree(s.db, c, fee))
            && (http == Silent <==> reaches && CashOutCommits(cfg, s.db, c))
            && (http == Silent <==> Accepted(cfg, caps, s, number, r))
            && forall e :: http == Refused(e) <==> reaches && CashOutFails(cfg, s.db, c, e)
  {
    RecalledReadsRows(s, r, CASH_OUT_ROUTE);
    VelocityAdmitsExactly(caps, s, r, known);
    RouteAsks(r);
    assert Inv(s.db);
    hide KeyUnused, WithinCashOutCaps, CashOutVelocityOk, SiteOk, Inv, Repeats, AsksCashOut, AsksCashIn, PhonesPaid;
    CashOutPostsExactly(cfg, s.db, c);
    CashOutRefusals(cfg, s.db, c);
    CashOutAnswersTxn(cfg, s.db, c);
    hide CashOut, CashOutCommits, CashOutGranted, CashOutIdsFree, CashOutAsked, CashOutFails, ComputeFee;
  }

  /** What an accepted cash-out leaves behind: the ledger's posting, the first payout row of its transaction with
      the request's own provider, phone, amount, quote and instant, and the response to be stored.  Any other
      answer leaves nothing. */
  lemma CashOutLeaves(cfg: Config, caps: Caps, s: Site, number: nat, r: Request, c: CashOutReq)
    requires IsPayment(r) && AsksCashOut(r, c) && number !in s.open
    ensures var taken, posted := BeginCashOut(cfg, caps, s, number, r), CashOut(cfg, s.db, c);
            && taken.0.idem == s.idem && (taken.1 != Silent ==> taken.0 == s)
            && (taken.1 == Silent ==>
                  && posted.1.Returned? && posted.1.id.Some? && taken.0.db == posted.0
                  && taken.0.open == s.open[number := Open(r.user, r.key, r.body, Response(posted.1.id, Some(r.quote)))]
                  && var id, row := posted.1.id.value,
                       PayoutRow(r.body.provider, r.body.phone, r.body.amount, r.quote, r.now);
                     taken.0.payouts == (if id in s.payouts then s.payouts else s.payouts[id := row]))
  {
    RouteAsks(r);
    hide AsksCashOut, AsksCashIn, Recalled, CashOut, CashOutVelocityOk, CashOutReqOf;
  }

  /* ---- the cash-in route ---- */

  ghost predicate ReachesCashIn(caps: Caps, s: Site, r: Request)
    requires IsPayment(r)
  {
    KeyUnused(s, r.user, r.key) && WithinCashInCaps(caps, s, r)
  }

  /** Every answer of the cash-in route, with its exact condition on the request and the rows.  It answers 500
      exactly when its checks pass and another cash-in has the reference or a drawn id is taken. */
  lemma CashInAnswers(cfg: Config, caps: Caps, s: Site, r: Request, c: CashInReq)
    requires Distinct(s.db.accounts) && IsPayment(r) && AsksCashIn(r, c)
    ensures var http, reaches := CashInRoute(cfg, caps, s, r).1, ReachesCashIn(caps, s, r);
            && (Repeats(s, r, CASH_IN_ROUTE) ==>
                  var row := s.idem[IdemKey(r.user, r.key, CASH_IN_ROUTE)]; http == Answered(row.code, row.response))
            && (http == Conflict409 <==> !KeyUnused(s, r.user, r.key) && !Repeats(s, r, CASH_IN_ROUTE))
            && (http == Velocity429 <==> KeyUnused(s, r.user, r.key) && !WithinCashInCaps(caps, s, r))
            && (http == Failed500 <==> reaches && CashInGranted(s.db, c) && !CashInFree(s.db, c))
            && (reaches && CashInGranted(s.db, c) && CashInFree(s.db, c) ==>
                  http == Answered(200, Response(Some(r.ids.txn), None)))
            && (reaches && CashInAsked(s.db, c) && KeyTaken(s.db.log, r.key) ==>
                  exists t :: t in s.db.log && t.key == r.key && http == Answered(200, Response(Some(t.id), None)))
            && forall e :: http == Refused(e) <==> reaches && CashInFails(s.db, c, e)
  {
    RecalledReadsRows(s, r, CASH_IN_ROUTE);
    CashInCapReadsRows(caps, s, r);
    RouteAsks(r);
    CashInPostsExactly(s.db, c);
    hide KeyUnused, WithinCashInCaps, CashInVelocityOk, Repeats, AsksCashOut, AsksCashIn, CashIn, CashInGranted,
         CashInFree, CashInAsked, CashInFails, Distinct, KeyTaken, Recalled;
  }

  lemma CashInCapReadsRows(caps: Caps, s: Site, r: Request)
    requires IsPayment(r)
    ensures CashInVelocityOk(caps, s, r.user, r.body.amount, r.now) <==> WithinCashInCaps(caps, s, r)
  {
    AmountFromIsSum(s.db.log, r.user, CASHIN, r.now - 86400);
  }

  /** What a cash-in leaves behind: the ledger's posting and the stored response, even when it answers 500. */
  lemma CashInLeaves(cfg: Config, caps: Caps, s: Site, r: Request, c: CashInReq)
    requires Distinct(s.db.accounts) && IsPayment(r) && AsksCashIn(r, c)
    ensures var taken, ik := CashInRoute(cfg, caps, s, r), IdemKey(r.user, r.key, CASH_IN_ROUTE);
            && taken.0.payouts == s.payouts && taken.0.open == s.open
            && (taken.1.Failed500? ==>
                  taken.0 == s.(idem := s.idem[ik := Stored(r.body, Response(None, None), 200)]) && ik !in s.idem)
            && (ReachesCashIn(caps, s, r) && taken.1.Answered? ==>
                  && taken.0.db == CashIn(s.db, c).0
                  && taken.0.idem == s.idem[ik := Stored(r.body, taken.1.response, 200)])
            && (!ReachesCashIn(caps, s, r) || taken.1.Refused? ==> taken.0 == s)
  {
    RecalledReadsRows(s, r, CASH_IN_ROUTE);
    CashInCapReadsRows(caps, s, r);
    RouteAsks(r);
    CashInPostsExactly(s.db, c);
    hide WithinCashInCaps, CashInVelocityOk, Repeats, AsksCashOut, AsksCashIn, CashIn, CashInGranted, CashInFree,
         CashInAsked, CashInFails, Distinct, KeyTaken, Recalled;
  }

  /** From then on the same request, however much later, is answered 200 without a transaction. */
  lemma FailedCashInThenNull(cfg: Config, caps: Caps, s: Site, r: Request, steps: seq<Step>, again: Request)
    requires IsPayment(r) && CashInRoute(cfg, caps, s, r).1 == Failed500
    requires EnabledRun(cfg, caps, CashInRoute(cfg, caps, s, r).0, steps)
    requires IsPayment(again) && again.user == r.user && again.key == r.key && again.body == r.body
    ensures var after := RunSite(cfg, caps, CashInRoute(cfg, caps, s, r).0, steps);
            CashInRoute(cfg, caps, after, again) == (after, Answered(200, Response(None, None)))
  {
    var ik := IdemKey(r.user, r.key, CASH_IN_ROUTE);
    var failed := CashInRoute(cfg, caps, s, r).0;
    assert ik in failed.idem && failed.idem[ik] == Stored(r.body, Response(None, None), 200);
    hide CashIn;
    StoredRowsStay(cfg, caps, failed, steps, ik);
  }

  /* ---- whose reference a posting carries ---- */

  predicate SameCall(t: Txn, r: Request, kind: Kind)
    requires IsPayment(r)
  {
    && t.kind == kind && t.id == r.ids.txn && t.key == r.key && t.createdBy == r.user && t.createdAt == r.now
    && t.amount == r.body.amount && ReferenceFrom(r, t.externalRef)
  }

  // The step is the payment request that the transaction posts.
  predicate Requested(step: Step, t: Txn) {
    match step
    case CashInCall(r) => IsPayment(r) && SameCall(t, r, CASHIN)
    case CashOutCall(_, r) => IsPayment(r) && SameCall(t, r, CASHOUT)
    case _ => false
  }

  // A step adds nothing to the log, a transfer, or the payment that it requests.
  lemma StepPosts(cfg: Config, caps: Caps, s: Site, step: Step, t: Txn)
    requires SiteOk(s) && Enabled(s, step)
    requires t in Take(cfg, caps, s, step).0.db.log && t !in s.db.log && t.kind in {CASHIN, CASHOUT}
    ensures Requested(step, t)
  {
    assert Inv(s.db) && Distinct(s.db.accounts);
    hide SiteOk, Inv;
    match step
    case CashOutCall(number, r) => CashOutPostsIts(cfg, caps, s, number, r, t);
    case CashInCall(r) => CashInPostsIts(cfg, caps, s, r, t);
    case Other(_, _) =>
      var u := OtherStep(cfg, caps, s, step);
      hide Take;
    case _ =>
  }

  lemma CashOutPostsIts(cfg: Config, caps: Caps, s: Site, number: nat, r: Request, t: Txn)
    requires Inv(s.db) && IsPayment(r)
    requires t in BeginCashOut(cfg, caps, s, number, r).0.db.log && t !in s.db.log
    ensures SameCall(t, r, CASHOUT)
  {
    BeginShape(cfg, caps, s, number, r);
    hide BeginCashOut, CashOut, Recalled, CashOutVelocityOk, Inv;
    RouteAsks(r);
    var settlement, feeAccount, es := CashOutRows(cfg, s.db, CashOutReqOf(r));
  }

  lemma CashInPostsIts(cfg: Config, caps: Caps, s: Site, r: Request, t: Txn)
    requires Distinct(s.db.accounts) && IsPayment(r)
    requires t in CashInRoute(cfg, caps, s, r).0.db.log && t !in s.db.log
    ensures SameCall(t, r, CASHIN)
  {
    hide CashIn, Recalled, CashInVelocityOk;
    RouteAsks(r);
    var settlement, es := CashInRows(s.db, CashInReqOf(r));
  }

  lemma {:induction false} PaymentIsRequested(cfg: Config, caps: Caps, s: Site, steps: seq<Step>, t: Txn)
    returns (i: nat)
    requires SiteOk(s) && EnabledRun(cfg, caps, s, steps)
    requires t in RunSite(cfg, caps, s, steps).db.log && t !in s.db.log && t.kind in {CASHIN, CASHOUT}
    ensures i < |steps| && Requested(steps[i], t)
    decreases |steps|
  {
    hide SiteOk, Take, Enabled, Requested;
    i := 0;
    var next := Take(cfg, caps, s, steps[0]).0;
    if t in next.db.log {
      StepPosts(cfg, caps, s, steps[0], t);
    } else {
      StepKeepsSiteOk(cfg, caps, s, steps[0]);
      var j := PaymentIsRequested(cfg, caps, next, steps[1..], t);
      i := j + 1;
      assert steps[1..][j] == steps[i];
    }
  }

  /** Over any run every cash-in and cash-out posted is one of the run's requests: it has that request's id, key,
      user, instant and amount, and as its reference the body's provider_ref when that is given and not empty,
      and the request's own uuid otherwise. */
  lemma EveryPaymentIsRequested(cfg: Config, caps: Caps, steps: seq<Step>, t: Txn)
    requires EnabledRun(cfg, caps, NEW_SITE, steps)
    requires t in RunSite(cfg, caps, NEW_SITE, steps).db.log && t.kind in {CASHIN, CASHOUT}
    ensures exists i :: 0 <= i < |steps| && Requested(steps[i], t)
  {
    NewSiteOk();
    var i := PaymentIsRequested(cfg, caps, NEW_SITE, steps, t);
  }

  // The site before the k-th step of a run.
  function SiteAt(cfg: Config, caps: Caps, s: Site, steps: seq<Step>, k: nat): Site
    requires EnabledRun(cfg, caps, s, steps) && k <= |steps|
    decreases k
  {
    if k == 0 then s else SiteAt(cfg, caps, Take(cfg, caps, s, steps[0]).0, steps[1..], k - 1)
  }

  // The k-th step changes the ledger.
  predicate PostsAt(cfg: Config, caps: Caps, s: Site, steps: seq<Step>, k: nat)
    requires EnabledRun(cfg, caps, s, steps) && k < |steps|
  {
    SiteAt(cfg, caps, s, steps, k + 1).db != SiteAt(cfg, caps, s, steps, k).db
  }

  // The step is a cash-in whose body gives this reference.
  predicate GivesReference(step: Step, ref: string) {
    step.CashInCall? && IsPayment(step.request) && step.request.body.providerRef == Some(ref) && ref != ""
  }

  lemma PostingTakesReference(cfg: Config, caps: Caps, s: Site, step: Step, ref: string)
    requires SiteOk(s) && Enabled(s, step) && GivesReference(step, ref) && Take(cfg, caps, s, step).0.db != s.db
    ensures ReferenceTaken(Take(cfg, caps, s, step).0.db.log, Some(ref))
  {
    var r := step.request;
    RouteAsks(r);
    assert Inv(s.db) && Distinct(s.db.accounts);
    hide CashIn, Recalled, CashInVelocityOk, SiteOk, Inv;
    var settlement, es := CashInRows(s.db, CashInReqOf(r));
    var log := Take(cfg, caps, s, step).0.db.log;
    assert log[|s.db.log|] in log;
  }

  lemma GivenReferenceIsAsked(r: Request, ref: string)
    requires IsPayment(r) && r.body.providerRef == Some(ref) && ref != ""
    ensures CashInReqOf(r).providerRef == Some(ref)
  {
    assert |ref| > 0;
  }

  lemma TakenReferenceRefuses(cfg: Config, caps: Caps, s: Site, step: Step, ref: string)
    requires SiteOk(s) && Enabled(s, step) && GivesReference(step, ref) && ReferenceTaken(s.db.log, Some(ref))
    ensures Take(cfg, caps, s, step).0.db == s.db
  {
    assert Distinct(s.db.accounts);
    hide CashIn, CashInReqOf, Take, SiteOk, CashInGranted, ReferenceTaken, Distinct, KeyTaken, CashInAsked, CashInFails;
    GivenReferenceIsAsked(step.request, ref);
    CashInPostsExactly(s.db, CashInReqOf(step.request));
    CashInStepKeeps(cfg, caps, s, step);
  }

  lemma CashInStepKeeps(cfg: Config, caps: Caps, s: Site, step: Step)
    requires Enabled(s, step) && step.CashInCall? && CashIn(s.db, CashInReqOf(step.request)).0 == s.db
    ensures Take(cfg, caps, s, step).0.db == s.db
  {
    hide CashIn, CashInReqOf, Recalled, CashInVelocityOk, RequireIdempotency;
  }

  lemma PostsFirst(cfg: Config, caps: Caps, s: Site, steps: seq<Step>)
    requires EnabledRun(cfg, caps, s, steps) && steps != []
    ensures PostsAt(cfg, caps, s, steps, 0) <==> Take(cfg, caps, s, steps[0]).0.db != s.db
  {
    hide Take, Enabled;
    assert SiteAt(cfg, caps, s, steps, 1) == SiteAt(cfg, caps, Take(cfg, caps, s, steps[0]).0, steps[1..], 0);
  }

  lemma PostsLater(cfg: Config, caps: Caps, s: Site, steps: seq<Step>, k: nat)
    requires EnabledRun(cfg, caps, s, steps) && 0 < k < |steps|
    ensures PostsAt(cfg, caps, s, steps, k)
            <==> PostsAt(cfg, caps, Take(cfg, caps, s, steps[0]).0, steps[1..], k - 1)
    ensures steps[1..][k - 1] == steps[k]
  {
    hide Take, Enabled;
  }

  lemma ReferenceStaysTaken(cfg: Config, caps: Caps, s: Site, step: Step, ref: string)
    requires SiteOk(s) && Enabled(s, step) && ReferenceTaken(s.db.log, Some(ref))
    ensures ReferenceTaken(Take(cfg, caps, s, step).0.db.log, Some(ref))
  {
    assert Distinct(s.db.accounts);
    StepGrows(cfg, caps, s, step);
    hide Take, SiteOk;
    ReferenceStays(s.db.log, Take(cfg, caps, s, step).0.db.log, Some(ref));
  }

  lemma {:induction false} TakenReferenceStays(cfg: Config, caps: Caps, s: Site, steps: seq<Step>, ref: string, j: nat)
    requires SiteOk(s) && EnabledRun(cfg, caps, s, steps) && j < |steps| && GivesReference(steps[j], ref)
    requires ReferenceTaken(s.db.log, Some(ref))
    ensures !PostsAt(cfg, caps, s, steps, j)
    decreases |steps|
  {
    hide SiteOk, Take, Enabled, ReferenceTaken, GivesReference, PostsAt;
    if j == 0 {
      PostsFirst(cfg, caps, s, steps);
      TakenReferenceRefuses(cfg, caps, s, steps[0], ref);
    } else {
      PostsLater(cfg, caps, s, steps, j);
      StepKeepsSiteOk(cfg, caps, s, steps[0]);
      ReferenceStaysTaken(cfg, caps, s, steps[0], ref);
      TakenReferenceStays(cfg, caps, Take(cfg, caps, s, steps[0]).0, steps[1..], ref, j - 1);
    }
  }

  lemma ReferenceStays(log: seq<Txn>, longer: seq<Txn>, ref: Option<string>)
    requires log <= longer && ReferenceTaken(log, ref)
    ensures ReferenceTaken(longer, ref)
  {
    var t :| t in log && t.kind == CASHIN && t.externalRef == ref;
    assert t in longer[..|log|];
  }

  /** In any run at most one of the cash-ins whose bodies give the same non-empty provider_ref posts. */
  lemma {:induction false} OneCashInPerReference(cfg: Config, caps: Caps, s: Site, steps: seq<Step>, ref: string,
                                                 i: nat, j: nat)
    requires SiteOk(s) && EnabledRun(cfg, caps, s, steps) && i < j < |steps|
    requires GivesReference(steps[i], ref) && GivesReference(steps[j], ref)
    ensures !(PostsAt(cfg, caps, s, steps, i) && PostsAt(cfg, caps, s, steps, j))
    decreases |steps|
  {
    hide SiteOk, Take, Enabled, ReferenceTaken, GivesReference, PostsAt;
    var next := Take(cfg, caps, s, steps[0]).0;
    StepKeepsSiteOk(cfg, caps, s, steps[0]);
    PostsLater(cfg, caps, s, steps, j);
    if i > 0 {
      PostsLater(cfg, caps, s, steps, i);
      OneCashInPerReference(cfg, caps, next, steps[1..], ref, i - 1, j - 1);
    } else {
      PostsFirst(cfg, caps, s, steps);
      if next.db != s.db {
        PostingTakesReference(cfg, caps, s, steps[0], ref);
        TakenReferenceStays(cfg, caps, next, steps[1..], ref, j - 1);
      }
    }
  }
}
