/**
 How many requests paging can take: ledger runs that make every late row cost one, so that the
 number that serves every history is known exactly.
 */
module PagingRuns {
  import opened Wrappers
  import opened Fees
  import opened Ledger
  import opened LedgerProofs
  import opened Paging

  /* ---- rows numbered downwards ---- */

  // The rows t, t + 1, ..., n of one instant.
  function Rows(t: nat, n: nat): set<Key> { set a: nat | t <= a <= n :: Key(0, a) }

  // The rows below c and not below t, newest first.
  function Down(c: nat, t: nat): (s: seq<Key>)
    requires t <= c
    ensures |s| == c - t
  {
    seq(c - t, i requires 0 <= i < c - t => Key(0, c - 1 - i))
  }

  lemma DownListsRows(t: nat, c: nat, n: nat)
    requires t <= c <= n + 1
    ensures Listing(Below(Rows(t, n), Some(Key(0, c)))) == Down(c, t)
  {
    var down, rows := Down(c, t), Below(Rows(t, n), Some(Key(0, c)));
    forall k
      ensures k in down <==> k in rows
    {
      if k in rows { assert down[c - 1 - k.id] == k; }
    }
    hide Below, Rows;
    ListingIsUnique(down, rows);
  }

  // What one request leaves as cursor, when it finds the rows from t on.
  function NextRow(c: nat, t: nat, limit: int): nat
    requires t <= c
  {
    if c - t <= PageSize(limit) then t else c - PageSize(limit)
  }

  lemma PageOfRows(t: nat, c: nat, n: nat, limit: int)
    requires t < c <= n + 1
    ensures var page := Page(Rows(t, n), limit, Some(Key(0, c)));
            page != [] && NextCursor(page) == Some(Key(0, NextRow(c, t, limit)))
  {
    hide Page, Below, Rows, Listing, Take, PageSize, Down;
    DownListsRows(t, c, n);
    PageBelow(Rows(t, n), limit, Some(Key(0, c)));
    TakeIsPrefix(Down(c, t), PageSize(limit));
    var k := |Take(Down(c, t), PageSize(limit))|;
    DownAt(c, t, k);
    assert Take(Down(c, t), PageSize(limit))[k - 1] == Down(c, t)[..k][k - 1];
  }

  lemma DownAt(c: nat, t: nat, k: nat)
    requires t <= c && 0 < k <= c - t
    ensures Down(c, t)[k - 1] == Key(0, c - k)
  {
  }

  lemma NoCursorIsAbove(t: nat, n: nat)
    ensures Below(Rows(t, n), Some(Key(0, n + 1))) == Below(Rows(t, n), None)
  {
  }

  /* ---- the adversary ---- */

  // Where the rows start at each of the coming requests: a row is added, just below the cursor, whenever
  // the client would otherwise find nothing; the last request sees all rows from 1 on.
  function Starts(c: nat, t: nat, requests: nat, limit: int): (starts: seq<nat>)
    requires 1 <= t <= c
    ensures |starts| == requests
    decreases requests
  {
    if requests == 0 then []
    else if requests == 1 then [1]
    else if c > t then [t] + Starts(NextRow(c, t, limit), t, requests - 1, limit)
    else if t > 1 then [t - 1] + Starts(t - 1, t - 1, requests - 1, limit)
    else [t] + Starts(c, t, requests - 1, limit)
  }

  lemma {:induction false} StartsFall(c: nat, t: nat, requests: nat, limit: int)
    requires 1 <= t <= c
    ensures var starts := Starts(c, t, requests, limit);
            && (forall i :: 0 <= i < requests ==> 1 <= starts[i] <= t)
            && (forall i, j :: 0 <= i < j < requests ==> starts[j] <= starts[i])
            && (requests > 0 ==> starts[requests - 1] == 1)
            && (requests > 1 && c > t ==> starts[0] == t)
    decreases requests
  {
    if requests > 1 {
      if c > t {
        StartsFall(NextRow(c, t, limit), t, requests - 1, limit);
      } else if t > 1 {
        StartsFall(t - 1, t - 1, requests - 1, limit);
      } else {
        StartsFall(c, t, requests - 1, limit);
      }
    }
  }

  // Too few requests for `left` rows below the cursor and `late` rows to come.
  predicate TooFew(requests: nat, left: nat, late: nat, limit: int) {
    !(requests >= late && Enough(requests - late, left, limit))
  }

  lemma TooFewAfterPage(requests: nat, left: nat, late: nat, limit: int)
    requires TooFew(requests, left, late, limit) && requests > 1 && left > 0
    ensures TooFew(requests - 1, if left <= PageSize(limit) then 0 else left - PageSize(limit), late, limit)
  {
    if requests > late + 1 {
      var spare, size := requests - late - 1, PageSize(limit);
      assert spare * size == (spare - 1) * size + size;
    }
  }

  function SnapsOf(starts: seq<nat>, n: nat): seq<set<Key>> {
    seq(|starts|, i requires 0 <= i < |starts| => Rows(starts[i], n))
  }

  lemma SnapsNext(starts: seq<nat>, n: nat)
    requires starts != []
    ensures SnapsOf(starts, n)[0] == Rows(starts[0], n) && SnapsOf(starts, n)[1..] == SnapsOf(starts[1..], n)
  {
    hide Rows;
  }

  // A request that finds rows ends as the rest of the requests end.
  lemma RequestGoesOn(starts: seq<nat>, n: nat, limit: int, c: nat)
    requires starts != [] && starts[0] < c <= n + 1
    ensures Follow(SnapsOf(starts, n), limit, Some(Key(0, c))).1
            == Follow(SnapsOf(starts[1..], n), limit, Some(Key(0, NextRow(c, starts[0], limit)))).1
  {
    SnapsNext(starts, n);
    PageOfRows(starts[0], c, n, limit);
    hide Page, Follow, SnapsOf, Rows;
    FollowSteps(SnapsOf(starts, n), limit, Some(Key(0, c)));
  }

  lemma LastRequest(starts: seq<nat>, n: nat, limit: int, cursor: Option<Key>)
    requires starts == []
    ensures !Follow(SnapsOf(starts, n), limit, cursor).1
  {
    NoRequests(SnapsOf(starts, n), limit, cursor);
  }

  lemma OneIsTooFew(left: nat, late: nat, limit: int)
    requires TooFew(1, left, late, limit)
    ensures left + late > 0
  {
  }

  lemma TooFewForLate(requests: nat, late: nat, limit: int)
    requires TooFew(requests, 0, late, limit) && requests > 1
    ensures late > 0 && TooFew(requests - 1, 0, late - 1, limit)
  {
    if requests > late { TimesMonotone(0, requests - late - 1, PageSize(limit)); }
    hide PageSize;
  }

  lemma {:induction false} AdversaryWins(c: nat, t: nat, n: nat, requests: nat, limit: int)
    requires 1 <= t <= c <= n + 1 && requests > 0 && TooFew(requests, c - t, t - 1, limit)
    ensures !Follow(SnapsOf(Starts(c, t, requests, limit), n), limit, Some(Key(0, c))).1
    decreases requests
  {
    hide Follow, SnapsOf, PageSize, TooFew;
    var starts := Starts(c, t, requests, limit);
    if requests == 1 {
      OneIsTooFew(c - t, t - 1, limit);
      RequestGoesOn(starts, n, limit, c);
      LastRequest(starts[1..], n, limit, Some(Key(0, NextRow(c, 1, limit))));
    } else if c > t {
      var rest := Starts(NextRow(c, t, limit), t, requests - 1, limit);
      assert starts == [t] + rest && starts[1..] == rest;
      hide Starts;
      RequestGoesOn(starts, n, limit, c);
      TooFewAfterPage(requests, c - t, t - 1, limit);
      AdversaryWins(NextRow(c, t, limit), t, n, requests - 1, limit);
    } else {
      TooFewForLate(requests, t - 1, limit);
      var rest := Starts(t - 1, t - 1, requests - 1, limit);
      assert starts == [t - 1] + rest && starts[1..] == rest;
      hide Starts;
      RequestGoesOn(starts, n, limit, c);
      AdversaryWins(t - 1, t - 1, n, requests - 1, limit);
    }
  }

  /* ---- the same rows as ledger postings ---- */

  const WALLET_ID: Id := 1
  const SETTLEMENT_ID: Id := 2

  function KeyName(a: nat): string { seq(a, _ => 'k') }

  // Cash-in number a: one unit at instant zero, whose wallet entry has id a.
  function CashInNumber(a: nat, n: nat): CashInReq {
    CashInReq(WALLET_ID, 1, 1, TG, KeyName(a), None, 1, 0, FreshIds(a, SETTLEMENT_ID, 0, n + a, a, 0))
  }

  function TxnNumber(a: nat, n: nat): Txn {
    Txn(a, CASHIN, 1, KeyName(a), None, 1, 0,
        [Entry(n + a, SETTLEMENT_ID, DEBIT, 1), Entry(a, WALLET_ID, CREDIT, 1)])
  }

  // The database after cash-ins n down to t.
  function DbAt(t: nat, n: nat): Db
    requires 1 <= t <= n + 1
  {
    Db([Account(WALLET_ID, USER, 1, TG, WALLET)]
       + (if t <= n then [Account(SETTLEMENT_ID, SYSTEM, 1, TG, SETTLEMENT)] else []),
       seq(n + 1 - t, i requires 0 <= i < n + 1 - t => TxnNumber(n - i, n)),
       map[WALLET_ID := n + 1 - t])
  }

  lemma NumberedTxns(t: nat, n: nat)
    requires 1 <= t <= n + 1
    ensures forall u :: u in DbAt(t, n).log <==> exists a: nat :: t <= a <= n && u == TxnNumber(a, n)
  {
    var log := DbAt(t, n).log;
    forall a: nat | t <= a <= n
      ensures TxnNumber(a, n) in log
    {
      assert log[n - a] == TxnNumber(a, n);
    }
  }

  lemma NoViolation(t: nat, n: nat)
    requires 2 <= t <= n + 1
    ensures FindKey(DbAt(t, n).log, KeyName(t - 1)).None? && !UniqueViolation(DbAt(t, n).log, TxnNumber(t - 1, n))
  {
    var log, u := DbAt(t, n).log, TxnNumber(t - 1, n);
    NumberedTxns(t, n);
    forall v | v in log
      ensures v.key != u.key && v.id != u.id && forall e, f :: e in v.entries && f in u.entries ==> e.id != f.id
    {
      var a: nat :| t <= a <= n && v == TxnNumber(a, n);
      assert |v.key| == a && |u.key| == t - 1;
    }
    hide DbAt, TxnNumber;
    assert DistinctEntryIds(u.entries) by { assert u == TxnNumber(t - 1, n); TwoIds(t - 1, n); }
  }

  lemma TwoIds(a: nat, n: nat)
    requires n > 0
    ensures DistinctEntryIds(TxnNumber(a, n).entries)
  {
  }

  lemma CashInAccounts(t: nat, n: nat)
    requires 2 <= t <= n + 1
    ensures var db := DbAt(t, n);
            && FindAccount(db.accounts, WALLET_ID) == Some(Account(WALLET_ID, USER, 1, TG, WALLET))
            && SystemAccount(db.accounts, 1, TG, SETTLEMENT, SETTLEMENT_ID)
               == (DbAt(t - 1, n).accounts, SETTLEMENT_ID, false)
  {
    var wallet := Account(WALLET_ID, USER, 1, TG, WALLET);
    var settlement := Account(SETTLEMENT_ID, SYSTEM, 1, TG, SETTLEMENT);
    if t <= n {
      assert DbAt(t, n).accounts == [wallet, settlement] && [wallet, settlement][1..] == [settlement];
      assert FindSystem([settlement], 1, TG, SETTLEMENT) == Some(settlement);
      assert FindSystem([wallet, settlement], 1, TG, SETTLEMENT) == Some(settlement);
    } else {
      assert DbAt(t, n).accounts == [wallet] && [wallet][1..] == [];
      assert FindSystem([wallet], 1, TG, SETTLEMENT).None? && FindAccount([wallet], SETTLEMENT_ID).None?;
    }
  }

  lemma CashInStep(cfg: Config, t: nat, n: nat)
    requires 2 <= t <= n + 1
    ensures Ledger.Apply(cfg, DbAt(t, n), OpCashIn(CashInNumber(t - 1, n))).0 == DbAt(t - 1, n)
  {
    hide UniqueViolation, FindKey, DbAt, SystemAccount, CashInVerdict, TxnNumber, KeyName, Legs;
    var db, r := DbAt(t, n), CashInNumber(t - 1, n);
    NoViolation(t, n);
    CashInAccounts(t, n);
    NumberPosts(t - 1, n);
    CashInGoes(t, n);
    DbNext(t, n);
  }

  lemma NumberPosts(a: nat, n: nat)
    ensures CashInTxn(CashInNumber(a, n), SETTLEMENT_ID) == TxnNumber(a, n)
  {
    hide KeyName;
    assert Legs(CashInNumber(a, n).ids, SETTLEMENT_ID, WALLET_ID, 0, 1, 0) == TxnNumber(a, n).entries;
  }

  lemma CashInGoes(t: nat, n: nat)
    requires 2 <= t <= n + 1
    ensures CashInVerdict(DbAt(t, n), CashInNumber(t - 1, n)) == Go
  {
    hide FindKey, DbAt, SystemAccount, KeyName;
    NoViolation(t, n);
    CashInAccounts(t, n);
  }

  lemma DbNext(t: nat, n: nat)
    requires 2 <= t <= n + 1
    ensures var db, next := DbAt(t, n), DbAt(t - 1, n);
            && next.log == db.log + [TxnNumber(t - 1, n)]
            && next.cache == ApplyDelta(db.cache, WALLET_ID, 1)
  {
    hide TxnNumber;
  }

  // Cash-ins from - 1 down to to.
  function CashIns(from: nat, to: nat, n: nat): seq<Op>
    requires 1 <= to <= from
  {
    seq(from - to, i requires 0 <= i < from - to => OpCashIn(CashInNumber(from - 1 - i, n)))
  }

  lemma {:induction false} CashInRun(cfg: Config, from: nat, to: nat, n: nat)
    requires 1 <= to <= from <= n + 1
    ensures Ledger.Run(cfg, DbAt(from, n), CashIns(from, to, n)) == DbAt(to, n)
    decreases from
  {
    hide DbAt, CashInNumber, Ledger.Apply, CashIns;
    if from > to {
      CashInStep(cfg, from, n);
      CashInRun(cfg, from - 1, to, n);
      CashInsNext(from, to, n);
      RunNext(cfg, DbAt(from, n), OpCashIn(CashInNumber(from - 1, n)), CashIns(from - 1, to, n));
    } else {
      NoCashIns(from, n);
    }
  }

  lemma NoCashIns(from: nat, n: nat)
    requires 1 <= from
    ensures CashIns(from, from, n) == []
  {
  }

  lemma CashInsNext(from: nat, to: nat, n: nat)
    requires 1 <= to < from
    ensures CashIns(from, to, n) == [OpCashIn(CashInNumber(from - 1, n))] + CashIns(from - 1, to, n)
  {
    hide CashInNumber;
  }

  lemma RunNext(cfg: Config, db: Db, op: Op, rest: seq<Op>)
    ensures Ledger.Run(cfg, db, [op] + rest) == Ledger.Run(cfg, Ledger.Apply(cfg, db, op).0, rest)
  {
    hide Ledger.Apply;
    assert ([op] + rest)[1..] == rest;
  }

  lemma KeysOfRows(t: nat, n: nat)
    requires 1 <= t <= n + 1
    ensures EntryKeys(DbAt(t, n).log, WALLET_ID) == Rows(t, n)
  {
    var log := DbAt(t, n).log;
    NumberedTxns(t, n);
    forall k
      ensures k in EntryKeys(log, WALLET_ID) <==> k in Rows(t, n)
    {
      if k in Rows(t, n) {
        var u := TxnNumber(k.id, n);
        assert u in log && u.entries[1] in u.entries;
      }
    }
  }

  // What is posted before the first request and between the requests.
  function FirstOps(t: nat, n: nat): seq<Op>
    requires 1 <= t <= n + 1
  {
    [OpRegister(false, 1, WALLET_ID, TG)] + CashIns(n + 1, t, n)
  }

  function Between(starts: seq<nat>, n: nat): seq<seq<Op>>
    requires starts != [] && forall i :: 0 <= i < |starts| ==> 1 <= starts[i]
    requires forall i, j :: 0 <= i < j < |starts| ==> starts[j] <= starts[i]
  {
    seq(|starts| - 1, i requires 0 <= i < |starts| - 1 => CashIns(starts[i], starts[i + 1], n))
  }

  function DbsAt(starts: seq<nat>, n: nat): seq<Db>
    requires forall i :: 0 <= i < |starts| ==> 1 <= starts[i] <= n + 1
  {
    seq(|starts|, i requires 0 <= i < |starts| => DbAt(starts[i], n))
  }

  lemma FirstRun(cfg: Config, t: nat, n: nat)
    requires 1 <= t <= n + 1
    ensures Ledger.Run(cfg, EMPTY, FirstOps(t, n)) == DbAt(t, n)
  {
    var ops := FirstOps(t, n);
    assert Ledger.Apply(cfg, EMPTY, ops[0]).0 == DbAt(n + 1, n);
    assert ops[1..] == CashIns(n + 1, t, n);
    CashInRun(cfg, n + 1, t, n);
    hide DbAt, Ledger.Apply, CashIns;
  }

  lemma {:induction false} StatesAt(cfg: Config, starts: seq<nat>, n: nat)
    requires starts != [] && forall i :: 0 <= i < |starts| ==> 1 <= starts[i] <= n + 1
    requires forall i, j :: 0 <= i < j < |starts| ==> starts[j] <= starts[i]
    ensures States(cfg, DbAt(starts[0], n), Between(starts, n)) == DbsAt(starts, n)
    decreases |starts|
  {
    hide DbAt, CashIns, Ledger.Run;
    if |starts| == 1 {
      assert Between(starts, n) == [];
    } else {
      CashInRun(cfg, starts[0], starts[1], n);
      StatesAt(cfg, starts[1..], n);
      BetweenNext(starts, n);
      StatesNext(cfg, DbAt(starts[0], n), CashIns(starts[0], starts[1], n), Between(starts[1..], n));
      assert DbsAt(starts, n) == [DbAt(starts[0], n)] + DbsAt(starts[1..], n);
    }
  }

  lemma BetweenNext(starts: seq<nat>, n: nat)
    requires |starts| > 1 && forall i :: 0 <= i < |starts| ==> 1 <= starts[i]
    requires forall i, j :: 0 <= i < j < |starts| ==> starts[j] <= starts[i]
    ensures Between(starts, n) == [CashIns(starts[0], starts[1], n)] + Between(starts[1..], n)
  {
    hide CashIns;
  }

  lemma StatesNext(cfg: Config, db: Db, batch: seq<Op>, rest: seq<seq<Op>>)
    ensures States(cfg, db, [batch] + rest) == [db] + States(cfg, Ledger.Run(cfg, db, batch), rest)
  {
    hide Ledger.Run;
    assert ([batch] + rest)[1..] == rest;
  }

  lemma SnapsAt(starts: seq<nat>, n: nat)
    requires forall i :: 0 <= i < |starts| ==> 1 <= starts[i] <= n + 1
    ensures EntrySnaps(DbsAt(starts, n), WALLET_ID) == SnapsOf(starts, n)
  {
    forall i | 0 <= i < |starts|
      ensures EntryKeys(DbAt(starts[i], n).log, WALLET_ID) == Rows(starts[i], n)
    {
      KeysOfRows(starts[i], n);
    }
    hide EntryKeys, DbAt, Rows;
  }

  lemma {:induction false} RowCount(t: nat, n: nat)
    requires t <= n + 1
    ensures |Rows(t, n)| == n + 1 - t
    decreases n + 1 - t
  {
    if t == n + 1 {
      assert Rows(t, n) == {};
    } else {
      RowCount(t + 1, n);
      assert Rows(t, n) == Rows(t + 1, n) + {Key(0, t)};
    }
  }

  lemma LateCount(t: nat, n: nat)
    requires 1 <= t <= n + 1
    ensures |Rows(1, n) - Rows(t, n)| == t - 1
  {
    assert Rows(1, n) - Rows(t, n) == Rows(1, t - 1);
    RowCount(1, t - 1);
  }

  /* ---- how many requests serve every history ---- */

  // A ledger that is posted to between that many requests: `first` entries of account a before them,
  // `late` more by the last one.
  ghost predicate History(cfg: Config, ops: seq<Op>, batches: seq<seq<Op>>, a: Id, first: nat, late: nat,
                          requests: nat) {
    var db := Ledger.Run(cfg, EMPTY, ops);
    var before, after := EntryKeys(db.log, a), EntryKeys(States(cfg, db, batches)[|batches|].log, a);
    |batches| + 1 == requests && |before| == first && |after - before| == late
  }

  ghost predicate Ends(cfg: Config, ops: seq<Op>, batches: seq<seq<Op>>, a: Id, limit: int) {
    Follow(EntrySnaps(States(cfg, Ledger.Run(cfg, EMPTY, ops), batches), a), limit, None).1
  }

  // The adversary's run.
  lemma AdversaryRun(cfg: Config, n: nat, t: nat, starts: seq<nat>)
    requires 1 <= t <= n + 1 && |starts| > 1 && starts[0] == t && starts[|starts| - 1] == 1
    requires forall i :: 0 <= i < |starts| ==> 1 <= starts[i] <= t
    requires forall i, j :: 0 <= i < j < |starts| ==> starts[j] <= starts[i]
    ensures var ops, batches := FirstOps(t, n), Between(starts, n);
            && History(cfg, ops, batches, WALLET_ID, n + 1 - t, t - 1, |starts|)
            && EntrySnaps(States(cfg, Ledger.Run(cfg, EMPTY, ops), batches), WALLET_ID) == SnapsOf(starts, n)
  {
    hide DbAt, Rows, Follow, States, Ledger.Run, EntryKeys, EntrySnaps, FirstOps, SnapsOf;
    FirstRun(cfg, t, n);
    StatesAt(cfg, starts, n);
    SnapsAt(starts, n);
    KeysOfRows(t, n);
    KeysOfRows(1, n);
    RowCount(t, n);
    LateCount(t, n);
  }

  lemma InstantZero(t: nat, n: nat, starts: seq<nat>)
    requires 1 <= t <= n + 1 && |starts| > 1
    requires forall i :: 0 <= i < |starts| ==> 1 <= starts[i] <= t
    requires forall i, j :: 0 <= i < j < |starts| ==> starts[j] <= starts[i]
    ensures forall op :: op in FirstOps(t, n) ==> InstantOf(op) in {None, Some(0)}
    ensures forall batch, op :: batch in Between(starts, n) && op in batch ==> InstantOf(op) == Some(0)
  {
    forall op | op in FirstOps(t, n)
      ensures InstantOf(op) in {None, Some(0)}
    {
      if op in CashIns(n + 1, t, n) { CashInsAtZero(n + 1, t, n, op); }
    }
    forall batch, op | batch in Between(starts, n) && op in batch
      ensures InstantOf(op) == Some(0)
    {
      var i :| 0 <= i < |starts| - 1 && batch == CashIns(starts[i], starts[i + 1], n);
      CashInsAtZero(starts[i], starts[i + 1], n, op);
    }
  }

  lemma CashInsAtZero(from: nat, to: nat, n: nat, op: Op)
    requires 1 <= to <= from && op in CashIns(from, to, n)
    ensures InstantOf(op) == Some(0)
  {
    var ops := CashIns(from, to, n);
    CashInCount(from, to, n);
    var i :| 0 <= i < |ops| && ops[i] == op;
    CashInAt(from, to, n, i);
    hide CashIns, KeyName;
  }

  lemma CashInAt(from: nat, to: nat, n: nat, i: nat)
    requires 1 <= to <= from && i < from - to
    ensures |CashIns(from, to, n)| == from - to
    ensures CashIns(from, to, n)[i] == OpCashIn(CashInNumber(from - 1 - i, n))
  {
    hide CashInNumber;
  }

  lemma CashInCount(from: nat, to: nat, n: nat)
    requires 1 <= to <= from
    ensures |CashIns(from, to, n)| == from - to
  {
    hide CashInNumber;
  }

  /** The input: a ledger run, all at one instant, in which each late entry draws an id just below the
      cursor, and which too few requests never reach the end of. */
  lemma LateRowsCostRequests(cfg: Config, first: nat, late: nat, requests: nat, limit: int)
      returns (ops: seq<Op>, batches: seq<seq<Op>>)
    requires first > 0 && requests > 1 && TooFew(requests, first, late, limit)
    ensures History(cfg, ops, batches, WALLET_ID, first, late, requests) && !Ends(cfg, ops, batches, WALLET_ID, limit)
    ensures forall op :: op in ops ==> InstantOf(op) in {None, Some(0)}
    ensures forall batch, op :: batch in batches && op in batch ==> InstantOf(op) == Some(0)
  {
    hide Starts, Follow, States, Ledger.Run, TooFew, EntrySnaps, FirstOps, Between, SnapsOf, History, InstantOf;
    var n, t := first + late, late + 1;
    var starts := Starts(n + 1, t, requests, limit);
    StartsFall(n + 1, t, requests, limit);
    ops, batches := FirstOps(t, n), Between(starts, n);
    AdversaryRun(cfg, n, t, starts);
    InstantZero(t, n, starts);
    AdversaryWins(n + 1, t, n, requests, limit);
    CursorFromNone(starts, n, limit);
  }

  lemma CursorFromNone(starts: seq<nat>, n: nat, limit: int)
    requires starts != []
    ensures Follow(SnapsOf(starts, n), limit, None) == Follow(SnapsOf(starts, n), limit, Some(Key(0, n + 1)))
  {
    NoCursorIsAbove(starts[0], n);
    SnapsNext(starts, n);
    PageBelow(Rows(starts[0], n), limit, None);
    PageBelow(Rows(starts[0], n), limit, Some(Key(0, n + 1)));
    hide Page, Rows, Below, SnapsOf, Take, Listing, PageSize;
  }

  ghost predicate AlwaysEnds(first: nat, late: nat, requests: nat, limit: int) {
    forall cfg, ops, batches, a :: History(cfg, ops, batches, a, first, late, requests) ==>
      Ends(cfg, ops, batches, a, limit)
  }

  /** A number of requests reaches the end of every ledger history with so many first and so many late
      entries exactly when it has one for each late entry besides the pages of the first ones and the
      empty page. */
  lemma RequestsNeededExactly(first: nat, late: nat, requests: nat, limit: int)
    requires first > 0 && requests > 1
    ensures AlwaysEnds(first, late, requests, limit) <==> requests >= late && Enough(requests - late, first, limit)
  {
    hide History, Ends, Enough;
    if TooFew(requests, first, late, limit) {
      var cfg := Config([], map[], map[]);
      var ops, batches := LateRowsCostRequests(cfg, first, late, requests, limit);
      assert !AlwaysEnds(first, late, requests, limit);
    } else {
      forall cfg, ops, batches, a | History(cfg, ops, batches, a, first, late, requests)
        ensures Ends(cfg, ops, batches, a, limit)
      {
        EnoughEnds(cfg, ops, batches, a, first, late, requests, limit);
      }
    }
  }

  lemma EnoughEnds(cfg: Config, ops: seq<Op>, batches: seq<seq<Op>>, a: Id, first: nat, late: nat, requests: nat,
                   limit: int)
    requires History(cfg, ops, batches, a, first, late, requests)
    requires requests >= late && Enough(requests - late, first, limit)
    ensures Ends(cfg, ops, batches, a, limit)
  {
    hide Ledger.Run, States, Follow, EntrySnaps, EntryKeys, Enough, ListsEntries, Only;
    TransactionPagesHoldEachEntry(cfg, ops, batches, a, limit);
  }
}
