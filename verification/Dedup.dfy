/**
 Retries change nothing: a history and the same history without the calls whose
 idempotency key has already posted end in the same ledger.
 */
module Dedup {
  import opened Wrappers
  import opened Fees
  import opened Ledger
  import opened LedgerProofs

  function KeyOf(op: Op): Option<string> {
    match op
    case OpCashIn(r) => Some(r.key)
    case OpCashOut(r) => Some(r.key)
    case OpP2P(r) => Some(r.key)
    case _ => None
  }

  // The call reuses a key that has already posted.
  predicate Repeats(db: Db, op: Op) {
    KeyOf(op).Some? && FindKey(db.log, KeyOf(op).value).Some?
  }

  // The history without its repeated calls.
  function Deduplicated(cfg: Config, db: Db, ops: seq<Op>): seq<Op>
    decreases |ops|
  {
    if ops == [] then []
    else if Repeats(db, ops[0]) then Deduplicated(cfg, db, ops[1..])
    else [ops[0]] + Deduplicated(cfg, Apply(cfg, db, ops[0]).0, ops[1..])
  }

  /** A repeated call changes no row, whatever else its request says; it returns the
      transaction that holds the key, or raises for a request that fails its own checks. */
  lemma RepeatChangesNothing(cfg: Config, db: Db, op: Op)
    requires Repeats(db, op)
    ensures Apply(cfg, db, op).0 == db
    ensures Apply(cfg, db, op).1 == Returned(FindKey(db.log, KeyOf(op).value)) || Apply(cfg, db, op).1.Raised?
  {
  }

  lemma {:induction false} DedupSameFrom(cfg: Config, db: Db, ops: seq<Op>)
    ensures Run(cfg, db, Deduplicated(cfg, db, ops)) == Run(cfg, db, ops)
    decreases |ops|
  {
    if ops != [] {
      if Repeats(db, ops[0]) {
        RepeatChangesNothing(cfg, db, ops[0]);
        DedupSameFrom(cfg, db, ops[1..]);
      } else {
        var rest := Deduplicated(cfg, Apply(cfg, db, ops[0]).0, ops[1..]);
        DedupSameFrom(cfg, Apply(cfg, db, ops[0]).0, ops[1..]);
        assert ([ops[0]] + rest)[1..] == rest;
      }
    }
  }

  /** Deleting the repeats from any history leaves the same accounts, entries and balances. */
  lemma DedupPreservesMeaning(cfg: Config, ops: seq<Op>)
    ensures Run(cfg, EMPTY, Deduplicated(cfg, EMPTY, ops)) == Run(cfg, EMPTY, ops)
  {
    DedupSameFrom(cfg, EMPTY, ops);
  }

  /** Every history posts each key at most once and each cash-in reference at most once. */
  lemma OnePostingPerKeyAndReference(cfg: Config, ops: seq<Op>, i: nat, j: nat)
    requires i < j < |Run(cfg, EMPTY, ops).log|
    ensures var log := Run(cfg, EMPTY, ops).log;
            log[i].key != log[j].key &&
            (log[i].kind == CASHIN && log[j].kind == CASHIN && log[i].externalRef.Some? ==>
               log[i].externalRef != log[j].externalRef)
  {
    EmptyInv();
    RunKeepsInv(cfg, EMPTY, ops);
  }

  /** A cash-in that would reuse another cash-in's reference leaves the ledger alone and
      answers NULL, although its own key was never posted. */
  lemma ConflictingCashIn(db: Db, r: CashInReq)
    requires CashInVerdict(db, r) == Go && CashInRefUsed(db.log, r.providerRef)
    ensures CashIn(db, r) == (db, Returned(None))
  {
  }
}
