/**
 Cash-out requests under one idempotency key: whatever crashes and retries happen between the
 commit and the stored response, the key debits once and every answer names one transaction.
 */
module ExactlyOnce {
  import opened Wrappers
  import opened Calendar
  import opened Fees
  import opened Ledger
  import opened LedgerSteps
  import opened Admission
  import opened Velocity
  import Dedup
  import Limits

  function KeyCount(log: seq<Txn>, key: string): nat {
    if log == [] then 0 else KeyCount(log[..|log| - 1], key) + (if log[|log| - 1].key == key then 1 else 0)
  }

  // Everything debited from an account by transactions under the key.
  function KeyDebits(log: seq<Txn>, key: string, a: Id): int {
    if log == [] then 0
    else
      var t := log[|log| - 1];
      KeyDebits(log[..|log| - 1], key, a) + (if t.key == key then DebitsOf(t.entries, a) else 0)
  }

  // The key is used by cash-outs of one user with one body, and by nobody else.
  predicate OnlyOurs(step: Step, user: Id, key: string, body: Body) {
    match step
    case CashOutCall(_, r) => r.key == key ==> r.user == user && r.body == body
    case CashInCall(r) => r.key != key
    case Other(op, stored) => Dedup.KeyOf(op) != Some(key) && (stored.Some? ==> stored.value.0.key != key)
    case _ => true
  }

  predicate Ours(s: Site, step: Step, user: Id, key: string) {
    match step
    case CashOutCall(_, r) => r.user == user && r.key == key
    case StoreResponse(n) => n in s.open && s.open[n].user == user && s.open[n].key == key
    case _ => false
  }

  // The responses answered with 200 under the key.
  function Confirmations(cfg: Config, caps: Caps, s: Site, steps: seq<Step>, user: Id, key: string): seq<Response>
    requires EnabledRun(cfg, caps, s, steps)
    decreases |steps|
  {
    if steps == [] then []
    else
      var taken := Take(cfg, caps, s, steps[0]);
      (if Ours(s, steps[0], user, key) && taken.1.Answered? then [taken.1.response] else [])
      + Confirmations(cfg, caps, taken.0, steps[1..], user, key)
  }

  // The request whose call posted the key.
  function FirstPosting(cfg: Config, caps: Caps, s: Site, steps: seq<Step>, key: string): Option<Request>
    requires EnabledRun(cfg, caps, s, steps)
    decreases |steps|
  {
    if steps == [] then None
    else
      var after := Take(cfg, caps, s, steps[0]).0;
      if steps[0].CashOutCall? && FindKey(s.db.log, key).None? && FindKey(after.db.log, key).Some?
      then Some(steps[0].request)
      else FirstPosting(cfg, caps, after, steps[1..], key)
  }

  // The key has not been seen by the ledger, the idempotency table or an open request.
  ghost predicate Unseen(s: Site, user: Id, key: string) {
    Paired(s) && FindKey(s.db.log, key).None? && NothingRecorded(s.idem, s.open, user, key)
  }

  ghost predicate NothingRecorded(idem: map<IdemKey, Stored>, open: map<nat, Open>, user: Id, key: string) {
    && (forall ik :: ik in idem ==> !(ik.user == user && ik.key == key))
    && (forall n :: n in open ==> !(open[n].user == user && open[n].key == key))
  }

  // What the idempotency table and the open requests record under the key.
  ghost predicate IdemSays(idem: map<IdemKey, Stored>, user: Id, key: string, body: Body, id: Id) {
    forall ik :: ik in idem && ik.user == user && ik.key == key ==>
      ik.route == CASH_OUT_ROUTE && idem[ik].body == body && idem[ik].response.txn == Some(id) && idem[ik].code == 200
  }

  ghost predicate OpenSays(open: map<nat, Open>, user: Id, key: string, body: Body, id: Id) {
    forall n :: n in open && open[n].user == user && open[n].key == key ==>
      open[n].body == body && open[n].response.txn == Some(id)
  }

  // The key has posted as `id`, and all that is recorded for it says so.
  ghost predicate Known(s: Site, user: Id, key: string, body: Body, id: Id) {
    && Paired(s)
    && FindKey(s.db.log, key) == Some(id) && id in s.payouts
    && IdemSays(s.idem, user, key, body, id) && OpenSays(s.open, user, key, body, id)
  }

  /* ---- appending ---- */

  lemma {:induction false} FindKeyAppend(log: seq<Txn>, t: Txn, key: string)
    ensures FindKey(log + [t], key)
            == if FindKey(log, key).Some? then FindKey(log, key) else if t.key == key then Some(t.id) else None
  {
    if log == [] {
      assert FindKey([t], key) == if t.key == key then Some(t.id) else FindKey([], key);
    } else {
      assert (log + [t])[1..] == log[1..] + [t];
      FindKeyAppend(log[1..], t, key);
    }
  }

  lemma KeyAppend(log: seq<Txn>, t: Txn, key: string, a: Id)
    ensures KeyCount(log + [t], key) == KeyCount(log, key) + (if t.key == key then 1 else 0)
    ensures KeyDebits(log + [t], key, a)
            == KeyDebits(log, key, a) + (if t.key == key then DebitsOf(t.entries, a) else 0)
  {
  }

  lemma {:induction false} UnseenKeyIsEmpty(log: seq<Txn>, key: string, a: Id)
    requires forall t :: t in log ==> t.key != key
    ensures KeyCount(log, key) == 0 && KeyDebits(log, key, a) == 0
  {
    if log != [] { UnseenKeyIsEmpty(log[..|log| - 1], key, a); }
  }

  // What a step may do to a key's rows in the ledger: nothing.
  ghost predicate SameKey(s: Site, after: Site, key: string, a: Id) {
    && FindKey(after.db.log, key) == FindKey(s.db.log, key)
    && KeyCount(after.db.log, key) == KeyCount(s.db.log, key)
    && KeyDebits(after.db.log, key, a) == KeyDebits(s.db.log, key, a)
  }

  lemma OtherKeyAppended(s: Site, after: Site, t: Txn, key: string, a: Id)
    requires after.db.log == s.db.log + [t] && t.key != key
    ensures SameKey(s, after, key, a)
  {
    FindKeyAppend(s.db.log, t, key);
    KeyAppend(s.db.log, t, key, a);
  }

  /* ---- steps ---- */

  // Payout rows are never rewritten.
  ghost predicate PayoutsKept(s: Site, after: Site) {
    forall id :: id in s.payouts ==> id in after.payouts && after.payouts[id] == s.payouts[id]
  }

  lemma BeginKeepsPayouts(cfg: Config, caps: Caps, s: Site, number: nat, r: Request)
    requires IsPayment(r)
    ensures PayoutsKept(s, BeginCashOut(cfg, caps, s, number, r).0)
  {
    BeginShape(cfg, caps, s, number, r);
    hide BeginCashOut, CashOut, Recalled, CashOutVelocityOk;
  }

  lemma StepKeepsPayouts(cfg: Config, caps: Caps, s: Site, step: Step)
    requires Enabled(s, step)
    ensures PayoutsKept(s, Take(cfg, caps, s, step).0)
  {
  }

  lemma CashOutKeepsPaired(cfg: Config, caps: Caps, s: Site, number: nat, r: Request)
    requires Paired(s) && IsPayment(r)
    ensures Paired(BeginCashOut(cfg, caps, s, number, r).0)
  {
    var after := BeginCashOut(cfg, caps, s, number, r).0;
    var t, m := CashOutStep(cfg, caps, s, number, r);
    hide BeginCashOut;
    if after.db != s.db {
      assert Distinct(after.db.accounts);
      hide Moved, CashOutVelocityOk;
      AppendPairs(s, after, t);
    } else if after.payouts != s.payouts {
      FoundIsUsed(s.db.log, r.key);
      ReplayPairs(s, after, FindKey(s.db.log, r.key).value, RowOf(r));
    }
  }

  lemma StepKeepsPaired(cfg: Config, caps: Caps, s: Site, step: Step)
    requires Paired(s) && Enabled(s, step)
    ensures Paired(Take(cfg, caps, s, step).0)
  {
    var after := Take(cfg, caps, s, step).0;
    match step
    case CashOutCall(number, r) => CashOutKeepsPaired(cfg, caps, s, number, r);
    case CashInCall(r) =>
      var t := CashInStep(cfg, caps, s, r);
      hide CashInRoute;
      if after.db != s.db { AppendPairs(s, after, t); }
    case Other(_, _) =>
      var t := OtherStep(cfg, caps, s, step);
      hide Take;
      if after.db.log != s.db.log { AppendPairs(s, after, t); }
    case _ =>
  }

  // A step that is not a call under the key leaves the key's ledger rows alone.
  lemma ForeignStep(cfg: Config, caps: Caps, s: Site, step: Step, user: Id, key: string, body: Body, a: Id)
    requires Paired(s) && Enabled(s, step) && OnlyOurs(step, user, key, body)
    requires step.CashOutCall? ==> step.request.key != key
    ensures SameKey(s, Take(cfg, caps, s, step).0, key, a)
  {
    var after := Take(cfg, caps, s, step).0;
    match step
    case CashOutCall(number, r) =>
      var t, m := CashOutStep(cfg, caps, s, number, r);
      hide BeginCashOut;
      if after.db != s.db { OtherKeyAppended(s, after, t, key, a); }
    case CashInCall(r) =>
      var t := CashInStep(cfg, caps, s, r);
      hide CashInRoute;
      if after.db != s.db { OtherKeyAppended(s, after, t, key, a); }
    case Other(_, _) =>
      var t := OtherStep(cfg, caps, s, step);
      hide Take;
      if after.db.log != s.db.log { OtherKeyAppended(s, after, t, key, a); }
    case _ =>
  }

  lemma RecalledKnown(s: Site, user: Id, key: string, body: Body, id: Id)
    requires IdemSays(s.idem, user, key, body, id)
    ensures var recalled := Recalled(s, user, key, CASH_OUT_ROUTE, body);
            recalled.Some? ==>
              recalled.value.Answered? && recalled.value.code == 200 && recalled.value.response.txn == Some(id)
  {
  }

  lemma OurCallRecord(cfg: Config, caps: Caps, s: Site, number: nat, r: Request, id: Id)
    requires IdemSays(s.idem, r.user, r.key, r.body, id) && OpenSays(s.open, r.user, r.key, r.body, id)
    requires IsPayment(r) && FindKey(s.db.log, r.key) == Some(id) && BeginCashOut(cfg, caps, s, number, r).0.db == s.db
    ensures var taken := BeginCashOut(cfg, caps, s, number, r);
            && IdemSays(taken.0.idem, r.user, r.key, r.body, id) && OpenSays(taken.0.open, r.user, r.key, r.body, id)
            && (taken.1.Answered? ==> taken.1.code == 200 && taken.1.response.txn == Some(id))
            && taken.1 != Conflict409
  {
    BeginShape(cfg, caps, s, number, r);
    RecalledKnown(s, r.user, r.key, r.body, id);
    hide CashOut, CashOutVelocityOk, BeginCashOut, Recalled, FindKey, IdemSays;
    var posted := CashOut(cfg, s.db, CashOutReqOf(r));
    if posted.0 == s.db && posted.1.Returned? { UnchangedAnswersKey(cfg, s.db, CashOutReqOf(r)); }
  }

  lemma OurCallKeepsDb(cfg: Config, caps: Caps, s: Site, number: nat, r: Request)
    requires Paired(s) && IsPayment(r) && FindKey(s.db.log, r.key).Some?
    ensures BeginCashOut(cfg, caps, s, number, r).0.db == s.db
  {
    var t, m := CashOutStep(cfg, caps, s, number, r);
  }

  lemma OurCallKnown(cfg: Config, caps: Caps, s: Site, number: nat, r: Request, id: Id)
    requires Known(s, r.user, r.key, r.body, id) && IsPayment(r) && number !in s.open
    ensures var taken := BeginCashOut(cfg, caps, s, number, r);
            && taken.0.db == s.db && Known(taken.0, r.user, r.key, r.body, id)
            && (taken.1.Answered? ==> taken.1.code == 200 && taken.1.response.txn == Some(id))
            && taken.1 != Conflict409
  {
    hide Paired, BeginCashOut, FindKey, IdemSays, OpenSays;
    OurCallKeepsDb(cfg, caps, s, number, r);
    BeginKeepsPayouts(cfg, caps, s, number, r);
    CashOutKeepsPaired(cfg, caps, s, number, r);
    OurCallRecord(cfg, caps, s, number, r, id);
  }

  // Storing the response of an open request.
  lemma FinishRecord(s: Site, number: nat, user: Id, key: string, body: Body, id: Id)
    requires IdemSays(s.idem, user, key, body, id) && OpenSays(s.open, user, key, body, id)
    ensures var taken := FinishCashOut(s, number);
            && IdemSays(taken.0.idem, user, key, body, id) && OpenSays(taken.0.open, user, key, body, id)
            && ((Ours(s, StoreResponse(number), user, key) && taken.1.Answered?) ==>
                  taken.1.code == 200 && taken.1.response.txn == Some(id))
  {
  }

  // A call under another key, or of another route.
  lemma ForeignRecord(cfg: Config, caps: Caps, s: Site, step: Step, user: Id, key: string, body: Body, id: Id)
    requires IdemSays(s.idem, user, key, body, id) && OpenSays(s.open, user, key, body, id)
    requires Enabled(s, step) && OnlyOurs(step, user, key, body)
    requires !step.StoreResponse? && (step.CashOutCall? ==> step.request.key != key)
    ensures var taken := Take(cfg, caps, s, step);
            IdemSays(taken.0.idem, user, key, body, id) && OpenSays(taken.0.open, user, key, body, id)
  {
    if step.CashOutCall? { BeginShape(cfg, caps, s, step.number, step.request); }
    hide CashOut, CashIn, BeginCashOut, CashOutVelocityOk, CashInVelocityOk, Ledger.Apply, Recalled;
  }

  // The rows that the other steps record are not the key's, or repeat an open request of it.
  lemma OtherStepsRecord(cfg: Config, caps: Caps, s: Site, step: Step, user: Id, key: string, body: Body, id: Id)
    requires IdemSays(s.idem, user, key, body, id) && OpenSays(s.open, user, key, body, id)
    requires Enabled(s, step) && OnlyOurs(step, user, key, body)
    requires step.CashOutCall? ==> step.request.key != key
    ensures var taken := Take(cfg, caps, s, step);
            && IdemSays(taken.0.idem, user, key, body, id) && OpenSays(taken.0.open, user, key, body, id)
            && ((Ours(s, step, user, key) && taken.1.Answered?) ==>
                  taken.1.code == 200 && taken.1.response.txn == Some(id))
  {
    hide IdemSays, OpenSays;
    if step.StoreResponse? {
      FinishRecord(s, step.number, user, key, body, id);
      hide FinishCashOut;
    } else {
      ForeignRecord(cfg, caps, s, step, user, key, body, id);
      hide Take;
    }
  }

  // The other steps: nothing recorded for the key changes.
  lemma OtherStepsKnown(cfg: Config, caps: Caps, s: Site, step: Step, user: Id, key: string, body: Body, id: Id, a: Id)
    requires Known(s, user, key, body, id) && Enabled(s, step) && OnlyOurs(step, user, key, body)
    requires step.CashOutCall? ==> step.request.key != key
    ensures var taken := Take(cfg, caps, s, step);
            && Known(taken.0, user, key, body, id) && SameKey(s, taken.0, key, a)
            && ((Ours(s, step, user, key) && taken.1.Answered?) ==>
                  taken.1.code == 200 && taken.1.response.txn == Some(id))
  {
    ForeignStep(cfg, caps, s, step, user, key, body, a);
    StepKeepsPaired(cfg, caps, s, step);
    StepKeepsPayouts(cfg, caps, s, step);
    OtherStepsRecord(cfg, caps, s, step, user, key, body, id);
    hide Paired, Take, IdemSays, OpenSays, OnlyOurs;
  }

  lemma KnownStep(cfg: Config, caps: Caps, s: Site, step: Step, user: Id, key: string, body: Body, id: Id, a: Id)
    requires Known(s, user, key, body, id) && Enabled(s, step) && OnlyOurs(step, user, key, body)
    ensures var taken := Take(cfg, caps, s, step);
            && Known(taken.0, user, key, body, id) && SameKey(s, taken.0, key, a)
            && FindKey(s.db.log, key) == Some(id)
            && id in s.payouts && id in taken.0.payouts && taken.0.payouts[id] == s.payouts[id]
            && ((Ours(s, step, user, key) && taken.1.Answered?) ==>
                  taken.1.code == 200 && taken.1.response.txn == Some(id))
  {
    StepKeepsPayouts(cfg, caps, s, step);
    if step.CashOutCall? && step.request.key == key {
      OurCallKnown(cfg, caps, s, step.number, step.request, id);
      hide BeginCashOut;
    } else {
      OtherStepsKnown(cfg, caps, s, step, user, key, body, id, a);
      hide Take;
    }
  }

  ghost predicate AllOnlyOurs(steps: seq<Step>, user: Id, key: string, body: Body) {
    forall i :: 0 <= i < |steps| ==> OnlyOurs(steps[i], user, key, body)
  }

  ghost predicate AllNamed(responses: seq<Response>, id: Id) {
    forall i :: 0 <= i < |responses| ==> responses[i].txn == Some(id)
  }

  // Once the key has posted, its debit, its payout row and its answers are fixed.
  lemma {:induction false} KnownRun(cfg: Config, caps: Caps, s: Site, steps: seq<Step>, user: Id, key: string,
                                    body: Body, id: Id, a: Id)
    requires Known(s, user, key, body, id) && EnabledRun(cfg, caps, s, steps) && AllOnlyOurs(steps, user, key, body)
    ensures var after := RunSite(cfg, caps, s, steps);
            && Known(after, user, key, body, id) && SameKey(s, after, key, a)
            && after.payouts[id] == s.payouts[id]
            && AllNamed(Confirmations(cfg, caps, s, steps, user, key), id)
            && FirstPosting(cfg, caps, s, steps, key).None?
    decreases |steps|
  {
    if steps != [] {
      assert AllOnlyOurs(steps[1..], user, key, body) && OnlyOurs(steps[0], user, key, body);
      hide Take, Known, OnlyOurs, Ours, SameKey, FindKey, AllNamed, AllOnlyOurs;
      KnownStep(cfg, caps, s, steps[0], user, key, body, id, a);
      var taken := Take(cfg, caps, s, steps[0]);
      assert RunSite(cfg, caps, s, steps) == RunSite(cfg, caps, taken.0, steps[1..]);
      assert FirstPosting(cfg, caps, s, steps, key) == FirstPosting(cfg, caps, taken.0, steps[1..], key);
      var head := if Ours(s, steps[0], user, key) && taken.1.Answered? then [taken.1.response] else [];
      var tail := Confirmations(cfg, caps, taken.0, steps[1..], user, key);
      assert Confirmations(cfg, caps, s, steps, user, key) == head + tail;
      hide *;
      KnownRun(cfg, caps, taken.0, steps[1..], user, key, body, id, a);
      NamedTogether(head, tail, id);
      SameKeyTwice(s, taken.0, RunSite(cfg, caps, taken.0, steps[1..]), key, a);
    }
  }

  lemma NamedTogether(head: seq<Response>, tail: seq<Response>, id: Id)
    requires |head| <= 1 && (head != [] ==> head[0].txn == Some(id)) && AllNamed(tail, id)
    ensures AllNamed(head + tail, id)
  {
  }

  lemma SameKeyTwice(s: Site, mid: Site, after: Site, key: string, a: Id)
    requires SameKey(s, mid, key, a) && SameKey(mid, after, key, a)
    ensures SameKey(s, after, key, a)
  {
  }

  /* ---- before the key is seen ---- */

  lemma UnseenCount(s: Site, user: Id, key: string, a: Id)
    requires Unseen(s, user, key)
    ensures KeyCount(s.db.log, key) == 0 && KeyDebits(s.db.log, key, a) == 0
  {
    UnseenKeyIsEmpty(s.db.log, key, a);
  }

  // Our call either leaves the key unseen and gives no 200, or posts it.
  ghost predicate JustPosted(cfg: Config, after: Site, r: Request)
    requires IsPayment(r)
  {
    && Known(after, r.user, r.key, r.body, r.ids.txn)
    && KeyCount(after.db.log, r.key) == 1
    && KeyDebits(after.db.log, r.key, r.body.wallet) == r.body.amount + CashOutFee(cfg, CashOutReqOf(r))
    && after.payouts[r.ids.txn] == RowOf(r)
  }

  lemma RecalledUnseen(s: Site, user: Id, key: string, body: Body)
    requires Unseen(s, user, key)
    ensures Recalled(s, user, key, CASH_OUT_ROUTE, body).None?
  {
  }

  lemma OurCallRefused(cfg: Config, caps: Caps, s: Site, number: nat, r: Request)
    requires Unseen(s, r.user, r.key) && IsPayment(r) && BeginCashOut(cfg, caps, s, number, r).0.db == s.db
    ensures BeginCashOut(cfg, caps, s, number, r).0 == s && !BeginCashOut(cfg, caps, s, number, r).1.Answered?
  {
    assert FindKey(s.db.log, r.key).None?;
    RecalledUnseen(s, r.user, r.key, r.body);
    BeginShape(cfg, caps, s, number, r);
    hide CashOut, BeginCashOut, Unseen, Recalled, FindKey;
    var posted := CashOut(cfg, s.db, CashOutReqOf(r));
    if posted.0 == s.db && posted.1.Returned? { UnchangedAnswersKey(cfg, s.db, CashOutReqOf(r)); }
  }

  lemma OurCallUnseen(cfg: Config, caps: Caps, s: Site, number: nat, r: Request)
    requires Unseen(s, r.user, r.key) && IsPayment(r) && number !in s.open
    ensures var taken := BeginCashOut(cfg, caps, s, number, r);
            && !taken.1.Answered?
            && (Unseen(taken.0, r.user, r.key) || JustPosted(cfg, taken.0, r))
  {
    var after := BeginCashOut(cfg, caps, s, number, r).0;
    assert Paired(s) && Distinct(s.db.accounts);
    hide BeginCashOut, Unseen, Paired, Moved, JustPosted, CashOutVelocityOk;
    if after.db == s.db {
      OurCallRefused(cfg, caps, s, number, r);
    } else {
      var t, m := CashOutStep(cfg, caps, s, number, r);
      CashOutKeepsPaired(cfg, caps, s, number, r);
      BeginShape(cfg, caps, s, number, r);
      RecalledUnseen(s, r.user, r.key, r.body);
      PostedKnown(cfg, caps, s, number, r, t, m);
    }
  }

  lemma PostedKnown(cfg: Config, caps: Caps, s: Site, number: nat, r: Request, t: Txn, m: Move)
    requires Unseen(s, r.user, r.key) && Paired(s) && Distinct(s.db.accounts) && IsPayment(r) && number !in s.open
    requires var after := BeginCashOut(cfg, caps, s, number, r).0;
             && after.db != s.db && AddsCashOut(s, after, r, t) && Moved(s.db, after.db, t, r.ids, m) && Paired(after)
             && m.payer == r.body.wallet && m.amount == r.body.amount && m.fee == CashOutFee(cfg, CashOutReqOf(r))
    ensures JustPosted(cfg, BeginCashOut(cfg, caps, s, number, r).0, r)
  {
    hide Paired, Moved, Unseen, IdemSays, OpenSays, FindKey, KeyCount, KeyDebits, TxnIdUsed, BeginCashOut;
    var after := BeginCashOut(cfg, caps, s, number, r).0;
    PostedAnswer(cfg, caps, s, number, r);
    UnseenSays(s, r.user, r.key, r.body, r.ids.txn);
    PostedEntries(s, after, r, t, m);
    NewPayout(s, t.id);
    OpensOne(s.open, number, r, r.ids.txn);
  }

  lemma PostedEntries(s: Site, after: Site, r: Request, t: Txn, m: Move)
    requires Unseen(s, r.user, r.key) && IsPayment(r) && AddsCashOut(s, after, r, t)
             && Moved(s.db, after.db, t, r.ids, m)
    requires m.payer == r.body.wallet
    ensures FindKey(after.db.log, r.key) == Some(r.ids.txn) && KeyCount(after.db.log, r.key) == 1
    ensures KeyDebits(after.db.log, r.key, r.body.wallet) == m.amount + m.fee
  {
    PostedLedger(s, after, r, t, m);
  }

  lemma NewPayout(s: Site, id: Id)
    requires Paired(s) && !TxnIdUsed(s.db.log, id)
    ensures id !in s.payouts
  {
  }

  lemma OpensOne(open: map<nat, Open>, number: nat, r: Request, id: Id)
    requires OpenSays(open, r.user, r.key, r.body, id)
    ensures OpenSays(open[number := Open(r.user, r.key, r.body, Response(Some(id), Some(r.quote)))],
                     r.user, r.key, r.body, id)
  {
  }

  lemma PostedLedger(s: Site, after: Site, r: Request, t: Txn, m: Move)
    requires Unseen(s, r.user, r.key) && IsPayment(r) && after.db.log == s.db.log + [t] && t.key == r.key
    requires t.entries == Legs(r.ids, m.payer, m.payee, m.feeAccount, m.amount, m.fee) && m.payer == r.body.wallet
    ensures FindKey(after.db.log, r.key) == Some(t.id) && KeyCount(after.db.log, r.key) == 1
    ensures KeyDebits(after.db.log, r.key, r.body.wallet) == m.amount + m.fee
  {
    hide Paired, NothingRecorded, FindKey, KeyCount, KeyDebits, Legs, DebitsOf;
    FindKeyAppend(s.db.log, t, r.key);
    KeyAppend(s.db.log, t, r.key, r.body.wallet);
    UnseenCount(s, r.user, r.key, r.body.wallet);
    Limits.LegsDebits(r.ids, m, r.body.wallet);
  }

  lemma UnseenSays(s: Site, user: Id, key: string, body: Body, id: Id)
    requires Unseen(s, user, key)
    ensures IdemSays(s.idem, user, key, body, id) && OpenSays(s.open, user, key, body, id)
  {
  }

  // What a posting call leaves open.
  lemma PostedAnswer(cfg: Config, caps: Caps, s: Site, number: nat, r: Request)
    requires IsPayment(r) && Distinct(s.db.accounts) && BeginCashOut(cfg, caps, s, number, r).0.db != s.db
    ensures var after := BeginCashOut(cfg, caps, s, number, r).0;
            && after.idem == s.idem
            && after.open == s.open[number := Open(r.user, r.key, r.body, Response(Some(r.ids.txn), Some(r.quote)))]
  {
  }

  lemma OtherStepsRecordNothing(cfg: Config, caps: Caps, s: Site, step: Step, user: Id, key: string, body: Body)
    requires NothingRecorded(s.idem, s.open, user, key) && Enabled(s, step) && OnlyOurs(step, user, key, body)
    requires step.CashOutCall? ==> step.request.key != key
    ensures NothingRecorded(Take(cfg, caps, s, step).0.idem, Take(cfg, caps, s, step).0.open, user, key)
    ensures !Ours(s, step, user, key)
  {
    if step.CashOutCall? { BeginShape(cfg, caps, s, step.number, step.request); }
    hide CashOut, CashIn, BeginCashOut, CashOutVelocityOk, CashInVelocityOk, Ledger.Apply, Recalled;
  }

  lemma OtherStepsUnseen(cfg: Config, caps: Caps, s: Site, step: Step, user: Id, key: string, body: Body)
    requires Unseen(s, user, key) && Enabled(s, step) && OnlyOurs(step, user, key, body)
    requires step.CashOutCall? ==> step.request.key != key
    ensures Unseen(Take(cfg, caps, s, step).0, user, key)
    ensures !(Ours(s, step, user, key) && Take(cfg, caps, s, step).1.Answered?)
  {
    hide Paired, Take, Enabled, OnlyOurs, NothingRecorded, FindKey, KeyCount, KeyDebits;
    ForeignStep(cfg, caps, s, step, user, key, body, 0);
    StepKeepsPaired(cfg, caps, s, step);
    OtherStepsRecordNothing(cfg, caps, s, step, user, key, body);
  }

  // What is left of the key: nothing, or one posting that all records and answers name.
  ghost predicate OnceOnly(cfg: Config, after: Site, first: Option<Request>, confirmed: seq<Response>, user: Id,
                           key: string, body: Body) {
    if first.None? then
      KeyCount(after.db.log, key) == 0 && confirmed == []
      && (body.PaymentBody? ==> KeyDebits(after.db.log, key, body.wallet) == 0)
    else
      var r := first.value;
      && r.user == user && r.key == key && r.body == body && IsPayment(r)
      && KeyCount(after.db.log, key) == 1 && FindKey(after.db.log, key) == Some(r.ids.txn)
      && KeyDebits(after.db.log, key, r.body.wallet) == r.body.amount + CashOutFee(cfg, CashOutReqOf(r))
      && r.ids.txn in after.payouts && after.payouts[r.ids.txn] == RowOf(r)
      && AllNamed(confirmed, r.ids.txn)
  }

  // A step that leaves the key unseen answers no 200 under it and posts nothing under it.
  lemma UnseenNext(cfg: Config, caps: Caps, s: Site, steps: seq<Step>, user: Id, key: string)
    requires steps != [] && EnabledRun(cfg, caps, s, steps)
    requires var taken := Take(cfg, caps, s, steps[0]);
             Unseen(taken.0, user, key) && !(Ours(s, steps[0], user, key) && taken.1.Answered?)
    ensures var next := Take(cfg, caps, s, steps[0]).0;
            && RunSite(cfg, caps, s, steps) == RunSite(cfg, caps, next, steps[1..])
            && FirstPosting(cfg, caps, s, steps, key) == FirstPosting(cfg, caps, next, steps[1..], key)
            && Confirmations(cfg, caps, s, steps, user, key) == Confirmations(cfg, caps, next, steps[1..], user, key)
  {
    assert FindKey(Take(cfg, caps, s, steps[0]).0.db.log, key).None?;
    hide Take, Ours, Unseen;
  }

  lemma PostedOnce(cfg: Config, caps: Caps, s: Site, steps: seq<Step>, user: Id, key: string, body: Body)
    requires steps != [] && EnabledRun(cfg, caps, s, steps) && AllOnlyOurs(steps[1..], user, key, body)
    requires steps[0].CashOutCall? && FindKey(s.db.log, key).None?
    requires var r, taken := steps[0].request, Take(cfg, caps, s, steps[0]);
             && r.user == user && r.key == key && r.body == body && IsPayment(r)
             && !taken.1.Answered? && JustPosted(cfg, taken.0, r)
    ensures OnceOnly(cfg, RunSite(cfg, caps, s, steps), FirstPosting(cfg, caps, s, steps, key),
                     Confirmations(cfg, caps, s, steps, user, key), user, key, body)
  {
    hide Take, RunSite, Confirmations, FirstPosting, KeyCount, KeyDebits, FindKey;
    hide AllOnlyOurs, AllNamed, Paired, IdemSays, OpenSays, Enabled;
    var r, next := steps[0].request, Take(cfg, caps, s, steps[0]).0;
    PostedNext(cfg, caps, s, steps, user, key);
    KnownRun(cfg, caps, next, steps[1..], user, key, body, r.ids.txn, body.wallet);
  }

  // The run after the call that posts the key.
  lemma PostedNext(cfg: Config, caps: Caps, s: Site, steps: seq<Step>, user: Id, key: string)
    requires steps != [] && EnabledRun(cfg, caps, s, steps) && steps[0].CashOutCall?
    requires FindKey(s.db.log, key).None? && FindKey(Take(cfg, caps, s, steps[0]).0.db.log, key).Some?
    requires !Take(cfg, caps, s, steps[0]).1.Answered?
    ensures var next := Take(cfg, caps, s, steps[0]).0;
            && RunSite(cfg, caps, s, steps) == RunSite(cfg, caps, next, steps[1..])
            && FirstPosting(cfg, caps, s, steps, key) == Some(steps[0].request)
            && Confirmations(cfg, caps, s, steps, user, key) == Confirmations(cfg, caps, next, steps[1..], user, key)
  {
    hide Take, Ours, FindKey, Enabled;
  }

  lemma {:induction false} OnceOnlyRun(cfg: Config, caps: Caps, s: Site, steps: seq<Step>, user: Id, key: string,
                                       body: Body)
    requires Unseen(s, user, key) && EnabledRun(cfg, caps, s, steps) && AllOnlyOurs(steps, user, key, body)
    ensures OnceOnly(cfg, RunSite(cfg, caps, s, steps), FirstPosting(cfg, caps, s, steps, key),
                     Confirmations(cfg, caps, s, steps, user, key), user, key, body)
    decreases |steps|
  {
    if steps == [] {
      if body.PaymentBody? { UnseenCount(s, user, key, body.wallet); } else { UnseenCount(s, user, key, 0); }
    } else {
      var step, taken := steps[0], Take(cfg, caps, s, steps[0]);
      assert AllOnlyOurs(steps[1..], user, key, body) && OnlyOurs(step, user, key, body);
      assert FindKey(s.db.log, key).None?;
      if step.CashOutCall? && step.request.key == key {
        OurCallUnseen(cfg, caps, s, step.number, step.request);
        assert taken == BeginCashOut(cfg, caps, s, step.number, step.request);
      } else {
        OtherStepsUnseen(cfg, caps, s, step, user, key, body);
      }
      hide Take, BeginCashOut, Unseen, JustPosted, OnceOnly, RunSite, FirstPosting, Confirmations, Ours, AllOnlyOurs;
      if Unseen(taken.0, user, key) {
        UnseenNext(cfg, caps, s, steps, user, key);
        OnceOnlyRun(cfg, caps, taken.0, steps[1..], user, key, body);
      } else {
        PostedOnce(cfg, caps, s, steps, user, key, body);
      }
    }
  }

  /** For a key that no other user or route has used, any number of requests with one body, with
      crashes anywhere between commit and stored response: at most one transaction and one debit,
      one payout row that keeps its first quote, and every 200 names that transaction. */
  lemma CashOutExactlyOnce(cfg: Config, caps: Caps, s: Site, steps: seq<Step>, user: Id, key: string, body: Body)
    requires Unseen(s, user, key) && body.PaymentBody?
    requires EnabledRun(cfg, caps, s, steps) && AllOnlyOurs(steps, user, key, body)
    ensures var after, first := RunSite(cfg, caps, s, steps), FirstPosting(cfg, caps, s, steps, key);
            var confirmed := Confirmations(cfg, caps, s, steps, user, key);
            if first.None? then
              KeyCount(after.db.log, key) == 0 && KeyDebits(after.db.log, key, body.wallet) == 0 && confirmed == []
            else
              var r := first.value;
              && r.user == user && r.key == key && r.body == body
              && KeyCount(after.db.log, key) == 1 && FindKey(after.db.log, key) == Some(r.ids.txn)
              && KeyDebits(after.db.log, key, body.wallet) == body.amount + CashOutFee(cfg, CashOutReqOf(r))
              && r.ids.txn in after.payouts && after.payouts[r.ids.txn] == RowOf(r)
              && AllNamed(confirmed, r.ids.txn)
  {
    OnceOnlyRun(cfg, caps, s, steps, user, key, body);
    hide RunSite, FirstPosting, Confirmations, KeyCount, KeyDebits, FindKey, AllNamed, Unseen;
  }

  /* ---- once a response is stored ---- */

  lemma {:induction false} StoredRowsStay(cfg: Config, caps: Caps, s: Site, steps: seq<Step>, ik: IdemKey)
    requires EnabledRun(cfg, caps, s, steps) && ik in s.idem
    ensures ik in RunSite(cfg, caps, s, steps).idem && RunSite(cfg, caps, s, steps).idem[ik] == s.idem[ik]
    decreases |steps|
  {
    if steps != [] {
      var after := Take(cfg, caps, s, steps[0]).0;
      assert ik in after.idem && after.idem[ik] == s.idem[ik] by {
        if steps[0].CashOutCall? { BeginShape(cfg, caps, s, steps[0].number, steps[0].request); }
        hide CashOut, CashIn, BeginCashOut, Recalled;
      }
      StoredRowsStay(cfg, caps, after, steps[1..], ik);
    }
  }

  /** Once a response is stored, every later call under its key, however much later, changes
      nothing: the same body gets that response again, any other body gets 409. */
  lemma StoredAnswersForever(cfg: Config, caps: Caps, s: Site, steps: seq<Step>, number: nat, r: Request)
    requires EnabledRun(cfg, caps, s, steps) && IsPayment(r) && IdemKey(r.user, r.key, CASH_OUT_ROUTE) in s.idem
    ensures var after, row := RunSite(cfg, caps, s, steps), s.idem[IdemKey(r.user, r.key, CASH_OUT_ROUTE)];
            BeginCashOut(cfg, caps, after, number, r)
            == (after, if row.body == r.body then Answered(row.code, row.response) else Conflict409)
  {
    StoredRowsStay(cfg, caps, s, steps, IdemKey(r.user, r.key, CASH_OUT_ROUTE));
  }

  /* ---- a retry after a crash ---- */

  lemma OwnershipStays(accounts: seq<Account>, more: seq<Account>, wallet: Id, actor: Option<Id>)
    requires Extends(accounts, more) && SessionError(accounts, wallet, actor).None?
    ensures SessionError(more, wallet, actor).None?
  {
    KindKept(accounts, more, wallet);
  }

  lemma AccountsExtend(cfg: Config, caps: Caps, s: Site, step: Step)
    requires Distinct(s.db.accounts) && Enabled(s, step)
    ensures Extends(s.db.accounts, Take(cfg, caps, s, step).0.db.accounts)
  {
    var after := Take(cfg, caps, s, step).0;
    match step
    case CashOutCall(number, r) =>
      var t, m := CashOutStep(cfg, caps, s, number, r);
      hide BeginCashOut;
    case CashInCall(r) =>
      if after.db != s.db { var t, m := CashInMoves(s.db, CashInReqOf(r)); }
      hide CashIn;
    case Other(op, _) =>
      var t, ids, m := StepShape(cfg, s.db, op);
      hide Ledger.Apply;
    case _ =>
  }

  lemma {:induction false} OwnershipStaysRun(cfg: Config, caps: Caps, s: Site, steps: seq<Step>,
                                             wallet: Id, actor: Option<Id>)
    requires Paired(s) && EnabledRun(cfg, caps, s, steps) && SessionError(s.db.accounts, wallet, actor).None?
    ensures SessionError(RunSite(cfg, caps, s, steps).db.accounts, wallet, actor).None?
    decreases |steps|
  {
    if steps != [] {
      var after := Take(cfg, caps, s, steps[0]).0;
      AccountsExtend(cfg, caps, s, steps[0]);
      OwnershipStays(s.db.accounts, after.db.accounts, wallet, actor);
      StepKeepsPaired(cfg, caps, s, steps[0]);
      hide Take, Paired, SessionError;
      OwnershipStaysRun(cfg, caps, after, steps[1..], wallet, actor);
    }
  }

  lemma PostingIsOwned(cfg: Config, caps: Caps, s: Site, number: nat, r: Request)
    requires IsPayment(r) && Distinct(s.db.accounts) && BeginCashOut(cfg, caps, s, number, r).0.db != s.db
    ensures r.body.amount > 0 && SessionError(s.db.accounts, r.body.wallet, Some(r.user)).None?
  {
  }

  lemma {:induction false} FirstPostingIsOwned(cfg: Config, caps: Caps, s: Site, steps: seq<Step>, key: string)
    requires Paired(s) && EnabledRun(cfg, caps, s, steps) && FirstPosting(cfg, caps, s, steps, key).Some?
    ensures var r := FirstPosting(cfg, caps, s, steps, key).value;
            IsPayment(r) && r.body.amount > 0
            && SessionError(RunSite(cfg, caps, s, steps).db.accounts, r.body.wallet, Some(r.user)).None?
    decreases |steps|
  {
    var step, after := steps[0], Take(cfg, caps, s, steps[0]).0;
    StepKeepsPaired(cfg, caps, s, step);
    if step.CashOutCall? && FindKey(s.db.log, key).None? && FindKey(after.db.log, key).Some? {
      PostingIsOwned(cfg, caps, s, step.number, step.request);
      AccountsExtend(cfg, caps, s, step);
      hide Take, Paired, SessionError;
      OwnershipStays(s.db.accounts, after.db.accounts, step.request.body.wallet, Some(step.request.user));
      OwnershipStaysRun(cfg, caps, after, steps[1..], step.request.body.wallet, Some(step.request.user));
    } else {
      hide Take, Paired, SessionError;
      FirstPostingIsOwned(cfg, caps, after, steps[1..], key);
    }
  }

  // A repeated call whose key has posted, when nothing is stored for it.
  lemma RepeatOutcome(cfg: Config, caps: Caps, s: Site, number: nat, r: Request, id: Id)
    requires Known(s, r.user, r.key, r.body, id) && IsPayment(r) && number !in s.open
    requires IdemKey(r.user, r.key, CASH_OUT_ROUTE) !in s.idem && r.body.amount > 0
    requires SessionError(s.db.accounts, r.body.wallet, Some(r.user)).None?
    ensures BeginCashOut(cfg, caps, s, number, r)
            == if CashOutVelocityOk(caps, s, r.user, r.body.amount, r.body.phone, r.now)
               then
                 var begun := Open(r.user, r.key, r.body, Response(Some(id), Some(r.quote)));
                 (s.(open := s.open[number := begun]), Silent)
               else (s, Velocity429)
  {
  }

  /** A retry after crashes is answered, with the first transaction, exactly when the velocity check
      admits it, though it would debit nothing.  Its answer quotes the rate of the retry while the
      payout row keeps the first one. */
  lemma RetryAfterCrash(cfg: Config, caps: Caps, s: Site, steps: seq<Step>, number: nat, r: Request)
    requires Unseen(s, r.user, r.key) && IsPayment(r) && EnabledRun(cfg, caps, s, steps)
    requires AllOnlyOurs(steps, r.user, r.key, r.body) && FirstPosting(cfg, caps, s, steps, r.key).Some?
    requires var after := RunSite(cfg, caps, s, steps);
             number !in after.open && IdemKey(r.user, r.key, CASH_OUT_ROUTE) !in after.idem
    ensures var after, first := RunSite(cfg, caps, s, steps), FirstPosting(cfg, caps, s, steps, r.key).value;
            var taken := BeginCashOut(cfg, caps, after, number, r);
            if CashOutVelocityOk(caps, after, r.user, r.body.amount, r.body.phone, r.now)
            then && taken.0.db == after.db && taken.0.payouts == after.payouts
                 && FinishCashOut(taken.0, number).1 == Answered(200, Response(Some(first.ids.txn), Some(r.quote)))
                 && first.ids.txn in taken.0.payouts && taken.0.payouts[first.ids.txn].quote == first.quote
            else taken == (after, Velocity429)
  {
    var after, first := RunSite(cfg, caps, s, steps), FirstPosting(cfg, caps, s, steps, r.key).value;
    CashOutExactlyOnce(cfg, caps, s, steps, r.user, r.key, r.body);
    FirstPostingIsOwned(cfg, caps, s, steps, r.key);
    KnownAfter(cfg, caps, s, steps, r.user, r.key, r.body);
    hide BeginCashOut, CashOutVelocityOk, Known, KeyCount, KeyDebits, FindKey;
    RepeatOutcome(cfg, caps, after, number, r, first.ids.txn);
  }

  lemma {:induction false} KnownAfter(cfg: Config, caps: Caps, s: Site, steps: seq<Step>, user: Id, key: string,
                                      body: Body)
    requires Unseen(s, user, key) && EnabledRun(cfg, caps, s, steps) && AllOnlyOurs(steps, user, key, body)
    requires FirstPosting(cfg, caps, s, steps, key).Some?
    ensures Known(RunSite(cfg, caps, s, steps), user, key, body, FirstPosting(cfg, caps, s, steps, key).value.ids.txn)
    decreases |steps|
  {
    var step, taken := steps[0], Take(cfg, caps, s, steps[0]);
    assert AllOnlyOurs(steps[1..], user, key, body) && OnlyOurs(step, user, key, body);
    if step.CashOutCall? && step.request.key == key {
      var r := step.request;
      OurCallUnseen(cfg, caps, s, step.number, r);
      assert taken == BeginCashOut(cfg, caps, s, step.number, r);
      hide Take, OnlyOurs, BeginCashOut;
      if Unseen(taken.0, user, key) {
        KnownAfter(cfg, caps, taken.0, steps[1..], user, key, body);
      } else {
        KnownRun(cfg, caps, taken.0, steps[1..], user, key, body, r.ids.txn, 0);
      }
    } else {
      OtherStepsUnseen(cfg, caps, s, step, user, key, body);
      hide Take, OnlyOurs;
      KnownAfter(cfg, caps, taken.0, steps[1..], user, key, body);
    }
  }

  lemma {:induction false} CountsAtLeastOne(log: seq<Txn>, t: Txn, user: Id, since: int)
    requires t in log && By(t, user, CASHOUT) && since <= t.createdAt
    ensures CountFrom(log, user, CASHOUT, since) >= 1
  {
    if log[|log| - 1] != t {
      CountsAtLeastOne(log[..|log| - 1], t, user, since);
    }
  }

  /** The retry is refused, for one, whenever the limit is one a day and the first call of the same
      key is not yet a day old: a request competes with its own earlier posting. */
  lemma RetryCountsItself(cfg: Config, caps: Caps, s: Site, number: nat, r: Request, t: Txn)
    requires t in s.db.log && By(t, r.user, CASHOUT) && t.key == r.key && r.now - DAY <= t.createdAt
    requires caps.count == 1 && IsPayment(r) && Recalled(s, r.user, r.key, CASH_OUT_ROUTE, r.body).None?
    ensures BeginCashOut(cfg, caps, s, number, r) == (s, Velocity429)
  {
    CountsAtLeastOne(s.db.log, t, r.user, r.now - DAY);
  }

  /* ---- a key that is not the caller's own ---- */

  /** An accepted cash-out call debits exactly when its key has not posted before, under any user
      and any route; otherwise it answers the transaction that holds the key and debits nothing. */
  lemma AcceptedDebitsIffKeyFresh(cfg: Config, caps: Caps, s: Site, number: nat, r: Request)
    requires Paired(s) && IsPayment(r) && number !in s.open && number in BeginCashOut(cfg, caps, s, number, r).0.open
    ensures var after, seen := BeginCashOut(cfg, caps, s, number, r).0, FindKey(s.db.log, r.key);
            && (after.db != s.db <==> seen.None?)
            && after.open[number].response.txn == if seen.None? then Some(r.ids.txn) else seen
  {
    var t, m := CashOutStep(cfg, caps, s, number, r);
    BeginShape(cfg, caps, s, number, r);
    var after := BeginCashOut(cfg, caps, s, number, r).0;
    if after.db == s.db {
      UnchangedAnswersKey(cfg, s.db, CashOutReqOf(r));
    } else {
      PostedAnswer(cfg, caps, s, number, r);
    }
    hide BeginCashOut, CashOut, CashOutVelocityOk, Paired, Moved;
  }
}
