/**
 Fee rules: which rule `limits.compute_fee` picks and what it charges.
 */
module Fees {
  import opened Wrappers

  type Id = nat
  datatype Country = TG | BJ | BF | ML | GH
  datatype Kind = CASHIN | CASHOUT | P2P | MERCHANT_PAY

  // A row of limits.fee_rules; a rule without a country applies everywhere.
  datatype FeeRule = FeeRule(id: Id, appliesTo: Kind, country: Option<Country>, fixedCents: int,
                             pctBps: int, minCents: int, maxCents: Option<int>, active: bool)

  function Min(a: int, b: int): int { if a <= b then a else b }

  function Max(a: int, b: int): int { if a >= b then a else b }

  // SQL integer division truncates toward zero.
  function TruncDiv(a: int, b: int): int
    requires b > 0
  {
    if a >= 0 then a / b else -((-a) / b)
  }

  predicate Applies(r: FeeRule, kind: Kind, country: Country) {
    r.active && r.appliesTo == kind && (r.country == Some(country) || r.country == None)
  }

  // ORDER BY (country IS NULL) ASC, id ASC
  predicate Before(r: FeeRule, s: FeeRule) {
    (r.country.Some? && s.country.None?) ||
    (r.country.Some? == s.country.Some? && r.id <= s.id)
  }

  // ORDER BY ... LIMIT 1 over the rules that apply.
  function PickRule(rules: seq<FeeRule>, kind: Kind, country: Country): (picked: Option<FeeRule>)
    ensures picked.Some? ==> picked.value in rules && Applies(picked.value, kind, country)
    ensures picked.Some? ==> forall r :: r in rules && Applies(r, kind, country) ==> Before(picked.value, r)
    ensures picked.None? ==> forall r :: r in rules ==> !Applies(r, kind, country)
  {
    if rules == [] then None
    else
      var rest := PickRule(rules[1..], kind, country);
      if !Applies(rules[0], kind, country) then rest
      else if rest.None? || Before(rules[0], rest.value) then Some(rules[0])
      else rest
  }

  // An active rule for the kind, of the country or of every country.
  predicate OfCountry(r: FeeRule, kind: Kind, country: Country) {
    r.active && r.appliesTo == kind && r.country == Some(country)
  }

  predicate OfEveryCountry(r: FeeRule, kind: Kind) { r.active && r.appliesTo == kind && r.country.None? }

  /** The rule picked is the first active one of the country, and the first active general one only when the
      country has none; none is picked only when there is neither. */
  lemma PickedRule(rules: seq<FeeRule>, kind: Kind, country: Country)
    ensures match PickRule(rules, kind, country)
            case None => forall r :: r in rules ==> !OfCountry(r, kind, country) && !OfEveryCountry(r, kind)
            case Some(p) =>
              && p in rules && (OfCountry(p, kind, country) || OfEveryCountry(p, kind))
              && (forall r :: r in rules && OfCountry(r, kind, country) ==> OfCountry(p, kind, country) && p.id <= r.id)
              && (OfEveryCountry(p, kind) ==> forall r :: r in rules && OfEveryCountry(r, kind) ==> p.id <= r.id)
  {
    var picked := PickRule(rules, kind, country);
    if picked.Some? {
      forall r | r in rules && (OfCountry(r, kind, country) || OfEveryCountry(r, kind))
        ensures Before(picked.value, r)
      {
        assert Applies(r, kind, country);
      }
    } else {
      forall r | r in rules
        ensures !OfCountry(r, kind, country) && !OfEveryCountry(r, kind)
      {
        assert !Applies(r, kind, country);
      }
    }
  }

  function Charge(r: FeeRule, amount: int): int {
    var raw := r.fixedCents + TruncDiv(amount * r.pctBps, 10000);
    var floored := Max(raw, r.minCents);
    var capped := if r.maxCents.Some? then Min(floored, r.maxCents.value) else floored;
    Max(capped, 0)
  }

  function ComputeFee(rules: seq<FeeRule>, kind: Kind, country: Country, amount: int): (fee: int)
    ensures fee >= 0
    ensures (forall r :: r in rules ==> !Applies(r, kind, country)) ==> fee == 0
  {
    var picked := PickRule(rules, kind, country);
    if picked.None? then 0 else Charge(picked.value, amount)
  }

  predicate UniqueIds(rules: seq<FeeRule>) {
    forall r, s :: r in rules && s in rules && r.id == s.id ==> r == s
  }

  /** A table has no row order: any two listings of the same rules charge the same. */
  lemma FeeIgnoresRowOrder(a: seq<FeeRule>, b: seq<FeeRule>, kind: Kind, country: Country, amount: int)
    requires UniqueIds(a)
    requires forall r :: r in a <==> r in b
    ensures ComputeFee(a, kind, country, amount) == ComputeFee(b, kind, country, amount)
  {
  }

  lemma ScaledUp(a: int, b: int, bps: int)
    requires a <= b && bps >= 0
    ensures a * bps <= b * bps
  {
  }

  /** The clamp: a rule's cap and floor bound the fee, and a larger amount never costs less. */
  lemma FeeClamp(rules: seq<FeeRule>, kind: Kind, country: Country, amount: int, larger: int)
    requires PickRule(rules, kind, country).Some?
    requires 0 < amount <= larger
    ensures var r := PickRule(rules, kind, country).value;
            var fee := ComputeFee(rules, kind, country, amount);
            && (r.maxCents.Some? && 0 <= r.maxCents.value ==> fee <= r.maxCents.value)
            && (r.maxCents.None? || r.minCents <= r.maxCents.value ==> r.minCents <= fee)
            && (r.pctBps >= 0 ==> fee <= ComputeFee(rules, kind, country, larger))
  {
    var r := PickRule(rules, kind, country).value;
    if r.pctBps >= 0 {
      ScaledUp(amount, larger, r.pctBps);
      assert TruncDiv(amount * r.pctBps, 10000) <= TruncDiv(larger * r.pctBps, 10000);
    }
  }

  /** What the picked rule charges: its fixed part plus the percentage, cut off toward zero, is `q`; the fee is
      `q` unless a bound bites, and then that bound: the cap before the floor, and zero before both. */
  lemma PickedCharge(rules: seq<FeeRule>, kind: Kind, country: Country, amount: int) returns (q: int)
    requires PickRule(rules, kind, country).Some?
    ensures var r := PickRule(rules, kind, country).value;
            var share := amount * r.pctBps;
            && (share >= 0 ==> 10000 * (q - r.fixedCents) <= share < 10000 * (q - r.fixedCents) + 10000)
            && (share <= 0 ==> 10000 * (q - r.fixedCents) - 10000 < share <= 10000 * (q - r.fixedCents))
    ensures var r, fee := PickRule(rules, kind, country).value, ComputeFee(rules, kind, country, amount);
            && (0 <= q && r.minCents <= q && (r.maxCents.Some? ==> q <= r.maxCents.value) ==> fee == q)
            && (0 <= r.minCents && q <= r.minCents && (r.maxCents.Some? ==> r.minCents <= r.maxCents.value) ==>
                  fee == r.minCents)
            && (r.maxCents.Some? && 0 <= r.maxCents.value && (r.maxCents.value <= q || r.maxCents.value <= r.minCents)
                ==> fee == r.maxCents.value)
            && ((q <= 0 && r.minCents <= 0) || (r.maxCents.Some? && r.maxCents.value <= 0) ==> fee == 0)
  {
    var r := PickRule(rules, kind, country).value;
    q := r.fixedCents + TruncDiv(amount * r.pctBps, 10000);
  }
}
