/** The key-path cancel of an unrevealed envelope commit: its fee, and the sweep that remains. */
module CancelSweep {
  import opened Common
  import opened Fees
  import opened RevealSizes
  import opened TransactionSize
  import opened Settlement

  /** A cancel request against a chain; `callerRate` None or 0 leaves the rate to the node. */
  datatype Cancel = Cancel(chain: Chain, value: nat, destinationBytes: nat, callerRate: Option<nat>)

  datatype Sweep = Sweep(padNeeded: bool, fee: nat, value: int)

  datatype SweepRefusal = NoRelayFee | NoEstimate | BelowRelay | BelowDust

  /** The rate a cancel charges: capped as a build's is, but never lifted to the relay floor. */
  function CancelRate(c: Cancel, estimate: Option<nat>, relay: int, op: Operator): Result<nat, SweepRefusal> {
    if relay <= 0 then Err(NoRelayFee)
    else if (c.callerRate == None || c.callerRate.value == 0) && estimate == None then Err(NoEstimate)
    else
      var wanted := if c.callerRate.Some? && c.callerRate.value > 0 then c.callerRate.value else estimate.value;
      var node := if estimate.Some? then estimate.value else relay;
      Ok(Min(wanted, RateCeiling(node, OperatorCap(node, op))))
  }

  /** The highest rate the operator and the burn backstop allow up to the one wanted, the caller's or the node's, and no floor. */
  lemma CancelRateIsTheHighestAllowed(c: Cancel, estimate: Option<nat>, relay: int, op: Operator, other: nat)
    ensures var r := CancelRate(c, estimate, relay, op);
            var named := c.callerRate.Some? && c.callerRate.value > 0;
            && (r == Err(NoRelayFee) <==> relay <= 0) && (r == Err(NoEstimate) <==> relay > 0 && !named && estimate == None)
            && (r.Ok? <==> relay > 0 && (named || estimate.Some?))
            && (r.Ok? ==>
                  var wanted := if named then c.callerRate.value else estimate.value;
                  var node := if estimate.Some? then estimate.value else relay;
                  MayCharge(r.value, wanted, node, op) && (MayCharge(other, wanted, node, op) ==> other <= r.value))
  {
    if estimate.Some? && op.multiplier.Some? { assert estimate.value * op.multiplier.value == op.multiplier.value * estimate.value; }
    if relay > 0 && op.multiplier.Some? { assert relay * op.multiplier.value == op.multiplier.value * relay; }
  }

  predicate PadNeeded(c: Cancel) {
    c.chain.strippedFloor != 0 && 51 + c.destinationBytes < c.chain.strippedFloor
  }

  function CancelSize(c: Cancel): nat {
    Max(51 + c.destinationBytes + (if PadNeeded(c) then c.destinationBytes else 0), c.chain.strippedFloor) + CeilQuarter(69) + 2
  }

  /** What a built cancel pays: its size's fee, or one dust where that is more. */
  function CancelFee(c: Cancel, rate: nat): nat {
    Max(Fee(CancelSize(c), rate), c.chain.dust)
  }

  /** The cancel as it is finished: the sweep to a script of `out` bytes, and another for the pad where there is one. */
  function CancelTx(c: Cancel, signature: nat, out: nat): Tx {
    KeyPathTx(signature, [out] + if PadNeeded(c) then [out] else [])
  }

  /**
   The size a cancel is priced at covers its real virtual size, and is within 2 bytes of it when
   that is over the floor. The pad rides exactly when the sweep alone would be under the floor.
   */
  lemma CancelIsCovered(c: Cancel, signature: nat, out: nat)
    requires signature <= SCHNORR && OutputBytes(out) == c.destinationBytes
    ensures VirtualSize(CancelTx(c, signature, out)) <= CancelSize(c)
    ensures PadNeeded(c) <==> StrippedBytes(KeyPathTx(signature, [out])) < c.chain.strippedFloor
    ensures signature == SCHNORR && StrippedBytes(CancelTx(c, signature, out)) >= c.chain.strippedFloor ==>
              CancelSize(c) <= VirtualSize(CancelTx(c, signature, out)) + 2
  {
    var one := [out];
    assert one[..0] == [] && OutputsBytes(one) == OutputBytes(out) && one + [] == one;
    OutputsBytesAppend(one, out);
    var outs := one + if PadNeeded(c) then one else [];
    KeyPathSize(signature, outs);
    KeyPathSize(signature, one);
    hide Weight; hide StrippedBytes; hide OutputsBytes; hide OutputBytes;
  }

  method SizeCancelSweep(c: Cancel, rate: nat, relay: nat) returns (r: Result<Sweep, SweepRefusal>)
    ensures r.Err? && r.error == BelowRelay <==> c.callerRate.Some? && Fee(CancelSize(c), rate) < Fee(CancelSize(c), relay)
    ensures r.Ok? ==>
              && r.value.fee == CancelFee(c, rate) && r.value.padNeeded == PadNeeded(c)
              && Sum(SweepOutputs(c, r.value)) + r.value.fee == c.value
              && r.value.value >= c.chain.dust
    ensures r.Err? && r.error == BelowDust ==>
              c.value < CancelFee(c, rate) + c.chain.dust + if PadNeeded(c) then c.chain.dust else 0
    ensures r.Err? ==> r.error == BelowRelay || r.error == BelowDust
  {
    var padNeeded := c.chain.strippedFloor != 0 && 10 + 41 + c.destinationBytes < c.chain.strippedFloor;
    var stripped := 10 + 41 + c.destinationBytes + if padNeeded then c.destinationBytes else 0;
    if c.chain.strippedFloor != 0 && stripped < c.chain.strippedFloor { stripped := c.chain.strippedFloor; }
    var size := stripped + CeilQuarter(2 + 1 + 1 + 65) + 2;
    var fee: nat := Fee(size, rate);
    if c.callerRate.Some? {
      if fee < Fee(size, relay) { return Err(BelowRelay); }
    }
    if fee < c.chain.dust { fee := c.chain.dust; }
    var value := c.value - fee - if padNeeded then c.chain.dust else 0;
    if value < c.chain.dust { return Err(BelowDust); }
    r := Ok(Sweep(padNeeded, fee, value));
    SumSweep(c, r.value);
  }

  /** The sweep, and the floor pad where the chain wants one. */
  function SweepOutputs(c: Cancel, s: Sweep): seq<int> {
    [s.value] + if s.padNeeded then [c.chain.dust] else []
  }

  lemma SumSweep(c: Cancel, s: Sweep)
    ensures Sum(SweepOutputs(c, s)) == s.value + if s.padNeeded then c.chain.dust else 0
  {
    assert [s.value][..0] == [] && Sum([s.value]) == s.value;
    if s.padNeeded { SumAppend([s.value], c.chain.dust); }
  }

  predicate Relays(c: Cancel, rate: nat, relay: nat) {
    CancelFee(c, rate) >= Fee(CancelSize(c), relay)
  }

  /** For one cancel: the relay minimum is within the dust floor, or the rate reaches its last unit. */
  lemma CancelRelaysIff(c: Cancel, rate: nat, relay: nat)
    ensures Relays(c, rate, relay)
            <==> c.chain.dust >= Fee(CancelSize(c), relay) || CancelSize(c) * rate > 1000 * (Fee(CancelSize(c), relay) - 1)
  {
    FeeIsCeil(CancelSize(c), rate);
  }

  /**
   The relay minimum is checked only against a rate the caller named. Left to the node, a cancel
   relays exactly when dust covers its relay minimum, or the node's estimate and the ceiling
   both reach the minimum's last unit.
   */
  lemma NodeRatedCancelRelaysIff(c: Cancel, estimate: nat, relay: nat, op: Operator)
    requires relay > 0 && c.callerRate == None
    ensures var minimum := Fee(CancelSize(c), relay);
            Relays(c, CancelRate(c, Some(estimate), relay, op).value, relay)
            <==> || c.chain.dust >= minimum
                 || (CancelSize(c) * estimate > 1000 * (minimum - 1)
                     && CancelSize(c) * RateCeiling(estimate, OperatorCap(estimate, op)) > 1000 * (minimum - 1))
  {
    var rate := CancelRate(c, Some(estimate), relay, op).value;
    assert rate == Min(estimate, RateCeiling(estimate, OperatorCap(estimate, op)));
    hide CancelSize; hide RateCeiling; hide OperatorCap; hide CancelRate;
    MulMonotone(CancelSize(c), CancelSize(c), rate, estimate);
    MulMonotone(CancelSize(c), CancelSize(c), rate, RateCeiling(estimate, OperatorCap(estimate, op)));
    CancelRelaysIff(c, rate, relay);
    hide Relays; hide Fee;
  }

  /** An estimate and a ceiling at the relay floor suffice, wherever the cancel is sent. */
  lemma RateAtTheFloorRelays(c: Cancel, estimate: nat, relay: nat, op: Operator)
    requires relay > 0 && c.callerRate == None
    requires estimate >= relay && RateCeiling(estimate, OperatorCap(estimate, op)) >= relay
    ensures Relays(c, CancelRate(c, Some(estimate), relay, op).value, relay)
  {
    FeeMonotone(CancelSize(c), CancelSize(c), relay, CancelRate(c, Some(estimate), relay, op).value);
  }

  /** No rate at all is too low exactly when one dust already covers the relay minimum. */
  lemma EveryRateRelaysIff(c: Cancel, relay: nat)
    ensures (forall rate: nat :: Relays(c, rate, relay)) <==> c.chain.dust >= Fee(CancelSize(c), relay)
  {
    assert Fee(CancelSize(c), 0) == 0;
    if forall rate: nat :: Relays(c, rate, relay) { assert Relays(c, 0, relay); }
  }

  /** A node estimate under its own relay floor is charged as it stands: the cancel is built, and will not relay. */
  lemma CancelUnderRelay()
    ensures var c := Cancel(Chain(546, 546, 0, 82, 65), 10000, 43, None);
            var rate := CancelRate(c, Some(1000), 6000, Operator(None, Some(100), None));
            rate == Ok(1000) && CancelSize(c) == 114 && CancelFee(c, 1000) == 546 < Fee(CancelSize(c), 6000) && !Relays(c, 1000, 6000)
  {
  }
}
