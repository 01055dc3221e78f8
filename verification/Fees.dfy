/**
 Fee rates and fee amounts in base units: rates are whole base units per kB, every fee is
 rounded up. How a build settles the rate it charges and the ceilings it answers to.
 */
module Fees {
  import opened Common

  const BURN_BACKSTOP_MULTIPLIER: nat := 100
  const SUGGESTED_RELAY_MULTIPLIER: nat := 10

  /** The fee for `size` bytes at `rate` base units per kB, rounded up. */
  function Fee(size: nat, rate: nat): nat {
    (size * rate + 999) / 1000
  }

  lemma FeeIsCeil(size: nat, rate: nat)
    ensures size * rate <= 1000 * Fee(size, rate) < size * rate + 1000
  {
  }

  /** Two parts priced apart never cost less than the whole: the rounding only adds. */
  lemma FeeSubadditive(a: nat, b: nat, rate: nat)
    ensures Fee(a + b, rate) <= Fee(a, rate) + Fee(b, rate) <= Fee(a + b, rate) + 1
  {
    assert (a + b) * rate == a * rate + b * rate;
  }

  lemma FeeMonotone(a: nat, b: nat, r: nat, q: nat)
    requires a <= b && r <= q
    ensures Fee(a, r) <= Fee(b, q)
  {
    MulMonotone(a, b, r, q);
  }

  lemma MulMonotone(a: nat, b: nat, r: nat, q: nat)
    requires a <= b && r <= q
    ensures a * r <= b * q
  {
    assert b * q - a * r == (b - a) * q + a * (q - r);
    assert (b - a) * q >= 0 && a * (q - r) >= 0;
  }

  /** A rate `k` times higher costs at most `k` times as much. */
  lemma FeeScales(size: nat, rate: nat, k: nat)
    ensures Fee(size, rate * k) <= Fee(size, rate) * k
  {
    var f := Fee(size, rate);
    assert size * (rate * k) == (size * rate) * k;
    MulMonotone(size * rate, 1000 * f, k, k);
    assert (1000 * f) * k == 1000 * (f * k);
  }

  // ---------- the rate a build charges ----------

  /** `maxRate` and `multiplier` are the operator's caps, None when off. */
  datatype Operator = Operator(maxRate: Option<nat>, multiplier: Option<nat>, suggestedCap: Option<nat>)

  datatype Rates = Rates(rate: nat, node: nat, relay: nat, cap: Option<nat>)

  /** The rate chosen when the caller left it to the node: clamped on a test chain, never under the relay floor. */
  function NodeRate(estimate: nat, relay: nat, suggestedCap: Option<nat>): nat {
    var ceiling := if suggestedCap.Some? && estimate > suggestedCap.value
                   then Some(Max(suggestedCap.value, relay * SUGGESTED_RELAY_MULTIPLIER)) else suggestedCap;
    var clamped := if ceiling.Some? && estimate > ceiling.value then ceiling.value else estimate;
    Max(clamped, relay)
  }

  /** The operator cap alone: the tighter of the absolute and the relative one. */
  function OperatorCap(anchor: nat, op: Operator): Option<nat> {
    if op.multiplier == None then op.maxRate
    else
      var relative := anchor * op.multiplier.value;
      if op.maxRate.Some? then Some(Min(op.maxRate.value, relative)) else Some(relative)
  }

  /** The tighter of the operator cap and the burn backstop. */
  function RateCeiling(anchor: nat, cap: Option<nat>): nat {
    if cap.Some? && cap.value <= anchor * BURN_BACKSTOP_MULTIPLIER then cap.value else anchor * BURN_BACKSTOP_MULTIPLIER
  }

  /**
   The rates of a build. `relay` is the node's relay floor, refused unless positive; `estimate`
   is the node's own rate, which only a build that names its own rate can do without.
   */
  function ResolveRates(caller: Option<nat>, estimate: Option<nat>, relay: int, op: Operator): Result<Rates, string> {
    if relay <= 0 then Err("no positive relayfee")
    else if (caller == None || caller.value == 0) && estimate == None then Err("no fee estimate")
    else
      var wanted := if caller.Some? && caller.value > 0 then caller.value else NodeRate(estimate.value, relay, op.suggestedCap);
      var node := if estimate.Some? then estimate.value else relay;
      var cap := OperatorCap(node, op);
      Ok(Rates(Min(wanted, RateCeiling(node, cap)), node, relay, cap))
  }

  /** No caller rate and no operator cap lifts the charged rate above the caps or 100 times the node's own rate. */
  lemma RatesAreBounded(caller: Option<nat>, estimate: Option<nat>, relay: int, op: Operator)
    ensures var r := ResolveRates(caller, estimate, relay, op);
            r.Ok? ==> RatesOk(r.value) && (r.value.cap.Some? ==> r.value.rate <= r.value.cap.value)
                      && (caller.Some? && caller.value > 0 ==> r.value.rate <= caller.value)
  {
  }

  /** What a build priced by the node may be given: at least the relay floor, at most the cap or ten times that floor. */
  predicate MaySuggest(rate: nat, relay: nat, suggestedCap: Option<nat>) {
    relay <= rate && (suggestedCap.Some? ==> rate <= suggestedCap.value || rate <= 10 * relay)
  }

  /** The rate suggested is the one of these nearest to the node's estimate. */
  lemma NodeRateIsTheNearest(estimate: nat, relay: nat, suggestedCap: Option<nat>, other: nat)
    requires MaySuggest(other, relay, suggestedCap)
    ensures var rate := NodeRate(estimate, relay, suggestedCap);
            && MaySuggest(rate, relay, suggestedCap)
            && Max(rate - estimate, estimate - rate) <= Max(other - estimate, estimate - other)
  {
  }

  /** A rate no higher than the one wanted, the operator's caps, and 100 times the node's rate. */
  predicate MayCharge(rate: nat, wanted: nat, node: nat, op: Operator) {
    && rate <= wanted && rate <= 100 * node
    && (op.maxRate.Some? ==> rate <= op.maxRate.value) && (op.multiplier.Some? ==> rate <= op.multiplier.value * node)
  }

  /**
   The rate charged is the highest such rate, and the cap kept for absolute fees allows what the
   operator's caps do. The node's rate is its estimate, or the relay floor where it has none; a
   build is refused without a relay floor, or without an estimate when the caller named no rate.
   */
  lemma ChargedRateIsTheHighestAllowed(caller: Option<nat>, estimate: Option<nat>, relay: int, op: Operator, other: nat)
    ensures var r := ResolveRates(caller, estimate, relay, op);
            var named := caller.Some? && caller.value > 0;
            && (r.Ok? <==> relay > 0 && (named || estimate.Some?))
            && (r.Ok? ==>
                  var wanted := if named then caller.value else NodeRate(estimate.value, relay, op.suggestedCap);
                  && r.value.relay == relay && r.value.node == (if estimate.Some? then estimate.value else relay)
                  && MayCharge(r.value.rate, wanted, r.value.node, op)
                  && (MayCharge(other, wanted, r.value.node, op) ==> other <= r.value.rate)
                  && (r.value.cap.Some? && other > r.value.cap.value <==>
                        || (op.maxRate.Some? && other > op.maxRate.value)
                        || (op.multiplier.Some? && other > op.multiplier.value * r.value.node)))
  {
    if estimate.Some? && op.multiplier.Some? { assert estimate.value * op.multiplier.value == op.multiplier.value * estimate.value; }
    if relay > 0 && op.multiplier.Some? { assert relay * op.multiplier.value == op.multiplier.value * relay; }
  }

  /** A build priced by the node is priced under the relay floor exactly when a ceiling lies under that floor. */
  lemma NodePricedUnderRelayIff(estimate: nat, relay: nat, op: Operator)
    requires relay > 0
    ensures ResolveRates(None, Some(estimate), relay, op).value.rate < relay <==> RateCeiling(estimate, OperatorCap(estimate, op)) < relay
  {
  }

  predicate RatesOk(r: Rates) {
    r.relay > 0 && r.rate <= r.node * BURN_BACKSTOP_MULTIPLIER
  }

  /** A rate-priced fee never exceeds 100 times the fair fee at the node's rate. */
  lemma RatePricedFeeIsFair(size: nat, r: Rates)
    requires RatesOk(r)
    ensures Fee(size, r.rate) <= Fee(size, r.node) * BURN_BACKSTOP_MULTIPLIER
  {
    FeeMonotone(size, size, r.rate, r.node * BURN_BACKSTOP_MULTIPLIER);
    FeeScales(size, r.node, BURN_BACKSTOP_MULTIPLIER);
  }

  // ---------- package pricing ----------

  /** The size and total fee of what a transaction inherits in the mempool. */
  datatype Package = Package(size: int, fee: int)

  /** The extra fee that brings the whole package to `rate`; never negative. */
  function PackageUplift(currentFee: int, size: nat, inherited: Package, rate: nat): nat {
    if rate == 0 || size == 0 || inherited.size <= 0 || inherited.fee < 0 then 0
    else
      var uplift := Fee(inherited.size + size, rate) - inherited.fee - currentFee;
      if uplift > 0 then uplift else 0
  }

  /** Paid in full, the uplift brings the package to exactly the rounded-up target, or the package was there already. */
  lemma UpliftReachesTarget(currentFee: int, size: nat, inherited: Package, rate: nat)
    requires rate > 0 && size > 0 && inherited.size > 0 && inherited.fee >= 0
    ensures var uplift := PackageUplift(currentFee, size, inherited, rate);
            var paid := inherited.fee + currentFee + uplift;
            && 1000 * paid >= (inherited.size + size) * rate
            && (uplift > 0 ==> 1000 * (paid - 1) < (inherited.size + size) * rate)
  {
    FeeIsCeil(inherited.size + size, rate);
  }

  // ---------- the soft dust rule ----------

  function Sum(values: seq<int>): int {
    if values == [] then 0 else Sum(values[..|values| - 1]) + values[|values| - 1]
  }

  lemma SumAppend(values: seq<int>, v: int)
    ensures Sum(values + [v]) == Sum(values) + v
  {
    assert (values + [v])[..|values|] == values;
  }

  lemma {:induction false} SumConcat(a: seq<int>, b: seq<int>)
    ensures Sum(a + b) == Sum(a) + Sum(b)
  {
    if b == [] {
      assert a + b == a;
    } else {
      var n := |b| - 1;
      assert a + b == (a + b[..n]) + [b[n]];
      SumConcat(a, b[..n]);
      SumAppend(a + b[..n], b[n]);
    }
  }

  lemma {:induction false} SumUpdate(values: seq<int>, i: nat, v: int)
    requires i < |values|
    ensures Sum(values[i := v]) == Sum(values) - values[i] + v
  {
    var n := |values| - 1;
    if i < n {
      assert values[i := v][..n] == values[..n][i := v];
      SumUpdate(values[..n], i, v);
    } else {
      assert values[i := v][..n] == values[..n];
    }
  }

  predicate UnderSoftLimit(v: int, floor: nat) {
    0 < v < floor
  }

  /** The whole soft limit once for every value output under it. */
  function SoftDustSurcharge(values: seq<int>, floor: nat): (r: nat)
    ensures floor == 0 ==> r == 0
  {
    if values == [] then 0
    else
      var n := |values| - 1;
      SoftDustSurcharge(values[..n], floor) + if UnderSoftLimit(values[n], floor) then floor else 0
  }

  method SoftDustSurchargeFor(values: seq<int>, floor: nat) returns (surcharge: nat)
    ensures surcharge == SoftDustSurcharge(values, floor)
  {
    surcharge := 0;
    if floor == 0 { return; }
    for i := 0 to |values|
      invariant surcharge == SoftDustSurcharge(values[..i], floor)
    {
      assert values[..i + 1][..i] == values[..i];
      if 0 < values[i] < floor { surcharge := surcharge + floor; }
    }
    assert values[..|values|] == values;
  }

  lemma {:induction false} SurchargeConcat(a: seq<int>, b: seq<int>, floor: nat)
    ensures SoftDustSurcharge(a + b, floor) == SoftDustSurcharge(a, floor) + SoftDustSurcharge(b, floor)
  {
    if b == [] {
      assert a + b == a;
    } else {
      var n := |b| - 1;
      assert (a + b)[..|a + b| - 1] == a + b[..n];
      SurchargeConcat(a, b[..n], floor);
    }
  }

  /** Where the value outputs under the soft limit stand. */
  function LowOutputs(values: seq<int>, floor: nat): set<nat> {
    set i: nat | i < |values| && 0 < values[i] < floor
  }

  lemma LowOutputsOfMore(values: seq<int>, floor: nat)
    requires values != []
    ensures var n := |values| - 1;
            |LowOutputs(values, floor)| == |LowOutputs(values[..n], floor)| + if 0 < values[n] < floor then 1 else 0
  {
    var n := |values| - 1;
    assert LowOutputs(values, floor) == LowOutputs(values[..n], floor) + if 0 < values[n] < floor then {n} else {};
  }

  /** The surcharge counts them, a whole soft limit each. */
  lemma {:induction false} SurchargeCounts(values: seq<int>, floor: nat)
    ensures SoftDustSurcharge(values, floor) == |LowOutputs(values, floor)| * floor
  {
    if values == [] {
      assert LowOutputs(values, floor) == {};
    } else {
      var before := |LowOutputs(values[..|values| - 1], floor)|;
      SurchargeCounts(values[..|values| - 1], floor);
      LowOutputsOfMore(values, floor);
      hide LowOutputs;
      assert (before + 1) * floor == before * floor + floor;
    }
  }

  /** A data carrier has no value, and an output at or over the soft limit costs nothing extra. */
  lemma {:induction false} NoSurcharge(values: seq<int>, floor: nat)
    requires forall i | 0 <= i < |values| :: values[i] == 0 || values[i] >= floor
    ensures SoftDustSurcharge(values, floor) == 0
  {
    if values != [] {
      var n := |values| - 1;
      NoSurcharge(values[..n], floor);
    }
  }
}
