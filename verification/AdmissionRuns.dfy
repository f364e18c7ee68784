/**
 Concrete runs, from an empty site, in which a promise of the payment routes fails.
 */
module AdmissionRuns {
  import opened Wrappers
  import opened Calendar
  import opened Fees
  import opened Ledger
  import opened LedgerSteps
  import opened Admission
  import opened ExactlyOnce
  import opened RouteAnswers
  import opened Postings
  import opened RouteLaws
  import Payouts

  lemma PlainKey(key: string)
    requires 1 <= |key| <= 128 && !Payouts.Space(key[0]) && !Payouts.Space(key[|key| - 1])
    ensures RequireIdempotency(Some(key)) == GoodKey(key)
  {
    assert key[0] in key;
  }

  /* ---- a retry that is refused ---- */

  function Registered(country: Country): Site {
    Site(Db([Account(10, USER, 1, country, WALLET)], [], map[10 := 0]), map[], map[], map[])
  }

  lemma RegisterFirst(cfg: Config, caps: Caps, country: Country)
    ensures var step := Other(OpRegister(false, 1, 10, country), None);
            Enabled(NEW_SITE, step) && Take(cfg, caps, NEW_SITE, step).0 == Registered(country)
  {
    hide CashInRoute, BeginCashOut, CashIn, CashOut, Transfer;
  }

  lemma OwnCallEnabled(s: Site, key: string, amount: int, country: Country, first: Id, number: nat)
    requires 1 <= |key| <= 128 && !Payouts.Space(key[0]) && !Payouts.Space(key[|key| - 1])
    ensures var r := OwnRequest(key, amount, country, first);
            Enabled(s, CashInCall(r)) && (number !in s.open ==> Enabled(s, CashOutCall(number, r)))
  {
    PlainKey(key);
    hide RequireIdempotency;
  }

  lemma CashInTaken(cfg: Config, caps: Caps, s: Site, r: Request)
    requires Enabled(s, CashInCall(r))
    ensures Take(cfg, caps, s, CashInCall(r)) == CashInRoute(cfg, caps, s, r)
  {
    hide CashInRoute;
  }

  function OwnRequest(key: string, amount: int, country: Country, first: Id): Request {
    Request(1, Some(key), key, PaymentBody(10, amount, country, "TMONEY", Some("+228"), Some("u")), key, "quote", 1, 0,
            FreshIds(first, first + 1, first + 2, first + 3, first + 4, first + 5))
  }

  // Register, cash in 1000, cash out 700, die before the response is stored.
  function CrashedSteps(country: Country): seq<Step> {
    [Other(OpRegister(false, 1, 10, country), None),
     CashInCall(OwnRequest("in", 1000, country, 100)),
     CashOutCall(0, OwnRequest("k", 700, country, 200)),
     Crash(0)]
  }

  /** A run in which that happens: with one cash-out a day, the retry of a crashed cash-out is refused. */
  lemma CrashedCashOutIsRefused(country: Country)
    ensures var cfg, caps := Config([], map[], map[1 := TierLimits(1000, 1000, 1000)]), Caps(1, 0, 0, 0);
            var steps := CrashedSteps(country);
            EnabledRun(cfg, caps, NEW_SITE, steps) &&
            var s := RunSite(cfg, caps, NEW_SITE, steps);
            && FindKey(s.db.log, "k") == Some(200)
            && BeginCashOut(cfg, caps, s, 1, OwnRequest("k", 700, country, 300)) == (s, Velocity429)
  {
    hide BeginCashOut, CashIn, CashOut, RunSite, EnabledRun, Recalled, CashedInOwn, CashOutVelocityOk;
    var cfg, caps := Config([], map[], map[1 := TierLimits(1000, 1000, 1000)]), Caps(1, 0, 0, 0);
    var steps := CrashedSteps(country);
    PlainKey("in");
    PlainKey("k");
    hide RequireIdempotency;
    var s1 := Registered(country);
    RegisterFirst(cfg, caps, country);
    var s2 := Take(cfg, caps, s1, steps[1]).0;
    OwnCashIn(cfg, caps, country, s1);
    var s3 := Take(cfg, caps, s2, steps[2]).0;
    var t := OwnCashOut(cfg, caps, country, s2);
    var s4 := Take(cfg, caps, s3, Crash(0)).0;
    FourSteps(cfg, caps, steps, s1, s2, s3);
    NothingRecalled(s4, country);
    hide CashInRoute, Take;
    RetryCountsItself(cfg, caps, s4, 1, OwnRequest("k", 700, country, 300), t);
  }

  lemma NothingRecalled(s: Site, country: Country)
    requires forall ik :: ik in s.idem ==> ik.key == "in"
    ensures var r := OwnRequest("k", 700, country, 300); Recalled(s, 1, "k", CASH_OUT_ROUTE, r.body).None?
  {
  }

  ghost predicate CashedInOwn(s: Site, country: Country) {
    && s.db == Db([Account(10, USER, 1, country, WALLET), Account(101, SYSTEM, 1, country, SETTLEMENT)],
                  [Txn(100, CASHIN, 1000, "in", Some("u"), 1, 0,
                       [Entry(103, 101, DEBIT, 1000), Entry(104, 10, CREDIT, 1000)])],
                  map[10 := 1000])
    && s.payouts == map[] && s.open == map[] && (forall ik :: ik in s.idem ==> ik.key == "in")
  }

  lemma OwnCashIn(cfg: Config, caps: Caps, country: Country, s: Site)
    requires caps == Caps(1, 0, 0, 0)
    requires s == Site(Db([Account(10, USER, 1, country, WALLET)], [], map[10 := 0]), map[], map[], map[])
    ensures CashedInOwn(CashInRoute(cfg, caps, s, OwnRequest("in", 1000, country, 100)).0, country)
  {
    var c := CashInReqOf(OwnRequest("in", 1000, country, 100));
    assert FindAccount(s.db.accounts, 10) == Some(s.db.accounts[0]);
    assert FindSystem(s.db.accounts, 1, country, SETTLEMENT).None? && FindAccount(s.db.accounts, 101).None?;
    var t := CashInTxn(c, 101);
    assert t.entries == [Entry(103, 101, DEBIT, 1000), Entry(104, 10, CREDIT, 1000)];
    assert !UniqueViolation([], t);
    assert CashIn(s.db, c).0.log == [t];
  }

  lemma OwnCashOutGoes(cfg: Config, country: Country, db: Db, r: CashOutReq)
    requires cfg == Config([], map[], map[1 := TierLimits(1000, 1000, 1000)])
    requires r == CashOutReqOf(OwnRequest("k", 700, country, 200))
    requires |db.accounts| == 2 && db.accounts[0] == Account(10, USER, 1, country, WALLET)
    requires |db.log| == 1 && db.log[0].kind == CASHIN && db.log[0].key == "in" && db.cache == map[10 := 1000]
    ensures CashOutVerdict(cfg, db, r) == Go && CashOutFee(cfg, r) == 0
  {
    assert FindAccount(db.accounts, 10) == Some(db.accounts[0]);
    assert FindKey(db.log, "k").None? by { assert db.log[1..] == []; }
    assert SumDebits(db.log, 10, {CASHOUT}, DayWindow(0)) == SumDebits(db.log[..0], 10, {CASHOUT}, DayWindow(0));
  }

  lemma OwnCashOutPosts(country: Country, db: Db, r: CashOutReq)
    requires r == CashOutReqOf(OwnRequest("k", 700, country, 200))
    requires db.accounts == [Account(10, USER, 1, country, WALLET), Account(101, SYSTEM, 1, country, SETTLEMENT)]
    requires |db.log| == 1 && db.log[0].id == 100 && db.log[0].key == "in"
    requires forall e :: e in db.log[0].entries ==> e.id == 103 || e.id == 104
    ensures CashOutPost(db, r, 0).0 != db
  {
    var found := Account(101, SYSTEM, 1, country, SETTLEMENT);
    assert db.accounts[1..][0] == found;
    assert FindSystem(db.accounts, 1, country, SETTLEMENT) == Some(found);
    var t := CashOutTxn(r, 101, 0, 0);
    assert t.entries == [Entry(203, 10, DEBIT, 700), Entry(204, 101, CREDIT, 700)];
    assert FindKey(db.log, "k").None? by { assert db.log[1..] == []; }
    assert !UniqueViolation(db.log, t);
    assert CashOutAccounts(db.accounts, r, 0) == (db.accounts, 101, 0, false);
    assert CashOutPost(db, r, 0).0.log == db.log + [t];
  }

  // Nothing stands in the way of the first call.
  lemma OwnCallAdmitted(caps: Caps, country: Country, s: Site)
    requires caps == Caps(1, 0, 0, 0) && CashedInOwn(s, country)
    ensures CashOutVelocityOk(caps, s, 1, 700, Some("+228"), 0)
    ensures Recalled(s, 1, "k", CASH_OUT_ROUTE, OwnRequest("k", 700, country, 200).body).None?
    ensures Distinct(s.db.accounts) && forall ik :: ik in s.idem ==> ik.key == "in"
  {
    assert CountFrom(s.db.log, 1, CASHOUT, -DAY) == CountFrom(s.db.log[..0], 1, CASHOUT, -DAY);
  }

  lemma OwnCashOutMoves(cfg: Config, country: Country, s: Site) returns (t: Txn)
    requires cfg == Config([], map[], map[1 := TierLimits(1000, 1000, 1000)])
    requires CashedInOwn(s, country) && Distinct(s.db.accounts)
    ensures var c := CashOutReqOf(OwnRequest("k", 700, country, 200));
            && CashOut(cfg, s.db, c).1 == Returned(Some(200)) && CashOut(cfg, s.db, c).0.log == s.db.log + [t]
            && t.id == 200 && By(t, 1, CASHOUT) && t.key == "k" && t.createdAt == 0 && FindKey(s.db.log, "k").None?
  {
    var c := CashOutReqOf(OwnRequest("k", 700, country, 200));
    OwnCashOutGoes(cfg, country, s.db, c);
    OwnCashOutPosts(country, s.db, c);
    hide CashOutPost, CashedInOwn, FindKey, Moved, CashOutVerdict;
    assert CashOut(cfg, s.db, c) == CashOutPost(s.db, c, 0);
    hide CashOut;
    PostedTxn(cfg, s.db, c);
    var m;
    t, m := CashOutMoves(cfg, s.db, c);
    MovedLog(s.db, CashOut(cfg, s.db, c).0, t, c.ids, m);
  }

  lemma OwnCashOut(cfg: Config, caps: Caps, country: Country, s: Site) returns (t: Txn)
    requires cfg == Config([], map[], map[1 := TierLimits(1000, 1000, 1000)]) && caps == Caps(1, 0, 0, 0)
    requires CashedInOwn(s, country)
    ensures var r := OwnRequest("k", 700, country, 200);
            var after := BeginCashOut(cfg, caps, s, 0, r).0;
            && t in after.db.log && By(t, 1, CASHOUT) && t.key == "k" && t.createdAt == 0
            && FindKey(after.db.log, "k") == Some(200) && after.idem == s.idem
            && forall ik :: ik in s.idem ==> ik.key == "in"
  {
    OwnCallAdmitted(caps, country, s);
    hide CashOut, CashOutVelocityOk, CashedInOwn, Recalled, FindKey, Distinct;
    t := OwnCashOutMoves(cfg, country, s);
    FindKeyAppend(s.db.log, t, "k");
  }

  lemma MovedLog(db: Db, after: Db, t: Txn, ids: FreshIds, m: Move)
    requires Moved(db, after, t, ids, m)
    ensures after.log == db.log + [t]
  {
  }

  // A call that posts answers the id it drew.
  lemma PostedTxn(cfg: Config, db: Db, r: CashOutReq)
    requires Distinct(db.accounts) && CashOut(cfg, db, r).0 != db
    ensures CashOut(cfg, db, r).1 == Returned(Some(r.ids.txn)) && FindKey(db.log, r.key).None?
  {
    var t, m := CashOutMoves(cfg, db, r);
  }

  lemma FourSteps(cfg: Config, caps: Caps, steps: seq<Step>, s1: Site, s2: Site, s3: Site)
    requires |steps| == 4 && Enabled(NEW_SITE, steps[0]) && Take(cfg, caps, NEW_SITE, steps[0]).0 == s1
    requires Enabled(s1, steps[1]) && Take(cfg, caps, s1, steps[1]).0 == s2
    requires Enabled(s2, steps[2]) && Take(cfg, caps, s2, steps[2]).0 == s3 && Enabled(s3, steps[3])
    ensures EnabledRun(cfg, caps, NEW_SITE, steps)
    ensures RunSite(cfg, caps, NEW_SITE, steps) == Take(cfg, caps, s3, steps[3]).0
  {
    hide Take, Enabled;
    var last := Take(cfg, caps, s3, steps[3]).0;
    assert steps[1..][1..] == steps[2..] && steps[2..][1..] == [steps[3]] && [steps[3]][1..] == [];
    assert EnabledRun(cfg, caps, last, []) && RunSite(cfg, caps, last, []) == last;
    assert EnabledRun(cfg, caps, s3, [steps[3]]) && RunSite(cfg, caps, s3, [steps[3]]) == last;
    assert EnabledRun(cfg, caps, s2, steps[2..]) && RunSite(cfg, caps, s2, steps[2..]) == last;
    assert EnabledRun(cfg, caps, s1, steps[1..]) && RunSite(cfg, caps, s1, steps[1..]) == last;
  }

  /* ---- a key that another user has posted ---- */

  function SharedKeyRequest(user: Id, wallet: Id, amount: int, country: Country, uuid: string, first: Id): Request {
    Request(user, Some("k"), "k", PaymentBody(wallet, amount, country, "TMONEY", Some("+228"), None), uuid, "quote",
            1, 0,
            FreshIds(first, first + 1, first + 2, first + 3, first + 4, first + 5))
  }

  function SharedKeySteps(country: Country): seq<Step> {
    [Other(OpRegister(false, 2, 20, country), None),
     Other(OpRegister(false, 1, 10, country), None),
     CashInCall(SharedKeyRequest(2, 20, 100, country, "a", 100))]
  }

  /** So exactly-once fails for shared keys: user 2 has cashed in under "k"; user 1, who has no money
      at all, cashes out 700 under "k" and is told 200 with that transaction, is debited nothing, and
      a payout row of 700 is made. */
  lemma SharedKeyPaysWithoutDebit(cfg: Config, country: Country)
    ensures var caps, steps := Caps(0, 0, 0, 0), SharedKeySteps(country);
            var r := SharedKeyRequest(1, 10, 700, country, "b", 200);
            EnabledRun(cfg, caps, NEW_SITE, steps) &&
            var s := RunSite(cfg, caps, NEW_SITE, steps);
            var begun := BeginCashOut(cfg, caps, s, 0, r);
            && FinishCashOut(begun.0, 0).1 == Answered(200, Response(Some(100), Some("quote")))
            && begun.0.db == s.db && begun.0.payouts == map[100 := RowOf(r)]
            && AvailableBalance(s.db, 10) == 0
  {
    SharedKeyRun(cfg, country);
    var caps, steps := Caps(0, 0, 0, 0), SharedKeySteps(country);
    hide EnabledRun, RunSite, SharedKeySteps;
    SharedKeyCashOut(cfg, caps, country, RunSite(cfg, caps, NEW_SITE, steps));
  }

  ghost predicate CashedIn(s: Site, country: Country) {
    && FindKey(s.db.log, "k") == Some(100) && s.payouts == map[] && s.open == map[]
    && s.db.cache == map[20 := 100, 10 := 0]
    && s.db.accounts == [Account(20, USER, 2, country, WALLET), Account(10, USER, 1, country, WALLET),
                         Account(101, SYSTEM, 1, country, SETTLEMENT)]
    && (forall ik :: ik in s.idem ==> ik.user == 2)
  }

  lemma SharedKeyCashOut(cfg: Config, caps: Caps, country: Country, s: Site)
    requires caps == Caps(0, 0, 0, 0) && CashedIn(s, country)
    ensures var r := SharedKeyRequest(1, 10, 700, country, "b", 200);
            var begun := BeginCashOut(cfg, caps, s, 0, r);
            && FinishCashOut(begun.0, 0).1 == Answered(200, Response(Some(100), Some("quote")))
            && begun.0.db == s.db && begun.0.payouts == map[100 := RowOf(r)]
            && AvailableBalance(s.db, 10) == 0
  {
  }

  lemma SharedKeyRun(cfg: Config, country: Country)
    ensures var caps, steps := Caps(0, 0, 0, 0), SharedKeySteps(country);
            EnabledRun(cfg, caps, NEW_SITE, steps) && CashedIn(RunSite(cfg, caps, NEW_SITE, steps), country)
  {
    hide CashIn, BeginCashOut, EnabledRun, RunSite, Recalled, CashedIn, CashInRoute, Ledger.Apply, RequireIdempotency;
    var caps, steps := Caps(0, 0, 0, 0), SharedKeySteps(country);
    var two, one := Account(20, USER, 2, country, WALLET), Account(10, USER, 1, country, WALLET);
    var s1 := Site(Db([two], [], map[20 := 0]), map[], map[], map[]);
    var s2 := Site(Db([two, one], [], map[20 := 0, 10 := 0]), map[], map[], map[]);
    PlainKey("k");
    TwoRegister(cfg, country);
    SharedKeyCashIn(cfg, caps, country, s2);
    ThreeSteps(cfg, caps, steps, s1, s2);
  }

  lemma TwoRegister(cfg: Config, country: Country)
    ensures var two, one := Account(20, USER, 2, country, WALLET), Account(10, USER, 1, country, WALLET);
            && Ledger.Apply(cfg, EMPTY, OpRegister(false, 2, 20, country)).0 == Db([two], [], map[20 := 0])
            && Ledger.Apply(cfg, Db([two], [], map[20 := 0]), OpRegister(false, 1, 10, country)).0
               == Db([two, one], [], map[20 := 0, 10 := 0])
  {
    hide CashIn, CashOut, Transfer;
    assert FindAccount([Account(20, USER, 2, country, WALLET)], 10).None?;
  }

  lemma ThreeSteps(cfg: Config, caps: Caps, steps: seq<Step>, s1: Site, s2: Site)
    requires |steps| == 3 && Enabled(NEW_SITE, steps[0]) && Take(cfg, caps, NEW_SITE, steps[0]).0 == s1
    requires Enabled(s1, steps[1]) && Take(cfg, caps, s1, steps[1]).0 == s2 && Enabled(s2, steps[2])
    ensures EnabledRun(cfg, caps, NEW_SITE, steps)
    ensures RunSite(cfg, caps, NEW_SITE, steps) == Take(cfg, caps, s2, steps[2]).0
  {
    hide Take, Enabled;
    var last := Take(cfg, caps, s2, steps[2]).0;
    assert steps[1..][1..] == [steps[2]] && steps[1..][1..][1..] == [];
    assert EnabledRun(cfg, caps, last, []) && RunSite(cfg, caps, last, []) == last;
    assert EnabledRun(cfg, caps, s2, [steps[2]]) && RunSite(cfg, caps, s2, [steps[2]]) == last;
    assert EnabledRun(cfg, caps, s1, steps[1..]) && RunSite(cfg, caps, s1, steps[1..]) == last;
  }

  lemma SharedKeyCashIn(cfg: Config, caps: Caps, country: Country, s: Site)
    requires caps == Caps(0, 0, 0, 0)
    requires s == Site(Db([Account(20, USER, 2, country, WALLET), Account(10, USER, 1, country, WALLET)], [],
                          map[20 := 0, 10 := 0]), map[], map[], map[])
    ensures var after := CashInRoute(cfg, caps, s, SharedKeyRequest(2, 20, 100, country, "a", 100)).0;
            CashedIn(after, country)
  {
    var r := SharedKeyRequest(2, 20, 100, country, "a", 100);
    var c := CashInReqOf(r);
    assert FindAccount(s.db.accounts, 20) == Some(s.db.accounts[0]);
    assert s.db.accounts[1..] == [s.db.accounts[1]];
    assert FindSystem(s.db.accounts, 1, country, SETTLEMENT).None? && FindAccount(s.db.accounts, 101).None?;
    var t := CashInTxn(c, 101);
    assert t.entries == [Entry(103, 101, DEBIT, 100), Entry(104, 20, CREDIT, 100)];
    assert !UniqueViolation([], t);
    assert CashIn(s.db, c).0.log == [t];
  }

  /* ---- a cash-in that reuses a provider reference ---- */

  /** User 1 cashes in 1000 under key "in", then 500 under "in2" with the same provider reference: the
      second is answered 500 and posts nothing, and when it is sent again it is answered 200 without a
      transaction. */
  lemma ConflictingCashInIsAnsweredTwice(cfg: Config, country: Country)
    ensures var caps := Caps(1, 0, 0, 0);
            var steps := [Other(OpRegister(false, 1, 10, country), None),
                          CashInCall(OwnRequest("in", 1000, country, 100))];
            var r := OwnRequest("in2", 500, country, 200);
            EnabledRun(cfg, caps, NEW_SITE, steps) &&
            var s := RunSite(cfg, caps, NEW_SITE, steps);
            var failed := CashInRoute(cfg, caps, s, r);
            && Enabled(s, CashInCall(r)) && failed.1 == Failed500 && failed.0.db == s.db
            && CashInRoute(cfg, caps, failed.0, r) == (failed.0, Answered(200, Response(None, None)))
  {
    var caps := Caps(1, 0, 0, 0);
    var steps := [Other(OpRegister(false, 1, 10, country), None), CashInCall(OwnRequest("in", 1000, country, 100))];
    var r := OwnRequest("in2", 500, country, 200);
    var s1 := Registered(country);
    hide CashIn, BeginCashOut, RunSite, EnabledRun, Recalled, CashedInOwn, Take, Enabled;
    hide CashInRoute, RequireIdempotency;
    RegisterFirst(cfg, caps, country);
    OwnCallEnabled(s1, "in", 1000, country, 100, 0);
    CashInTaken(cfg, caps, s1, OwnRequest("in", 1000, country, 100));
    OwnCashIn(cfg, caps, country, s1);
    TwoSteps(cfg, caps, steps, s1);
    var s := CashInRoute(cfg, caps, s1, OwnRequest("in", 1000, country, 100)).0;
    OwnCallEnabled(s, "in2", 500, country, 200, 0);
    SecondCashInConflicts(caps, country, s);
    hide ReferenceTaken, CashInGranted, KeyUnused, WithinCashInCaps, Distinct;
    CashInAnswers(cfg, caps, s, r, CashInReqOf(r));
    CashInLeaves(cfg, caps, s, r, CashInReqOf(r));
    var failed := CashInRoute(cfg, caps, s, r).0;
    NoSteps(cfg, caps, failed);
    FailedCashInThenNull(cfg, caps, s, r, [], r);
  }

  lemma NoSteps(cfg: Config, caps: Caps, s: Site)
    ensures EnabledRun(cfg, caps, s, []) && RunSite(cfg, caps, s, []) == s
  {
  }

  lemma TwoSteps(cfg: Config, caps: Caps, steps: seq<Step>, s1: Site)
    requires |steps| == 2 && Enabled(NEW_SITE, steps[0]) && Take(cfg, caps, NEW_SITE, steps[0]).0 == s1
    requires Enabled(s1, steps[1])
    ensures EnabledRun(cfg, caps, NEW_SITE, steps)
    ensures RunSite(cfg, caps, NEW_SITE, steps) == Take(cfg, caps, s1, steps[1]).0
  {
    hide Take, Enabled;
    var last := Take(cfg, caps, s1, steps[1]).0;
    assert steps[1..] == [steps[1]] && steps[1..][1..] == [];
    assert EnabledRun(cfg, caps, last, []) && RunSite(cfg, caps, last, []) == last;
    assert EnabledRun(cfg, caps, s1, steps[1..]) && RunSite(cfg, caps, s1, steps[1..]) == last;
  }

  // The second request passes every check but the unique reference.
  lemma SecondCashInConflicts(caps: Caps, country: Country, s: Site)
    requires caps == Caps(1, 0, 0, 0) && CashedInOwn(s, country)
    ensures var r := OwnRequest("in2", 500, country, 200);
            && AsksCashIn(r, CashInReqOf(r)) && CashInReqOf(r).providerRef == Some("u")
            && KeyUnused(s, 1, "in2") && WithinCashInCaps(caps, s, r) && Distinct(s.db.accounts)
            && CashInGranted(s.db, CashInReqOf(r)) && ReferenceTaken(s.db.log, Some("u"))
  {
    var r := OwnRequest("in2", 500, country, 200);
    RouteAsks(r);
    assert s.db.accounts[0] in s.db.accounts && Owns(s.db.accounts, 1, 10);
    var t := s.db.log[0];
    assert t in s.db.log && t.kind == CASHIN && t.externalRef == Some("u");
    assert |t.key| == 2 && |"in2"| == 3;
  }
}
