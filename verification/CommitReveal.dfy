/**
 The two-phase carriers: a commit whose outputs are the only money a later reveal has.
 Both halves change their state step by step; `LegValues` and `RevealOutputs` say what
 they come to, and the theorem is that the commit always funds the reveal.
 */
module CommitReveal {
  import opened Common
  import opened Fees
  import opened RevealSizes
  import opened TransactionSize

  /** A caller's output: its amount and the length of its script. */
  datatype CustomOutput = CustomOutput(value: nat, script: nat)

  /** Everything a commit is priced from. `strippedFloor` is 0 on a chain without one. */
  datatype Terms = Terms(
    carrier: Carrier,
    scripts: seq<nat>,
    customs: seq<CustomOutput>,
    rate: nat,
    dust: nat,
    outputFloor: nat,
    softFloor: nat,
    finalDust: nat,
    strippedFloor: nat,
    padBytes: nat)

  predicate TermsOk(t: Terms) {
    t.scripts != [] && 0 < t.dust <= t.outputFloor <= t.finalDust && t.padBytes > 0 && t.strippedFloor <= 1000
  }

  function Values(customs: seq<CustomOutput>): (r: seq<int>)
    ensures |r| == |customs| && forall i | 0 <= i < |r| :: r[i] == customs[i].value
  {
    seq(|customs|, i requires 0 <= i < |customs| => customs[i].value)
  }

  function BytesOf(customs: seq<CustomOutput>): nat {
    if customs == [] then 0 else BytesOf(customs[..|customs| - 1]) + OutputBytes(customs[|customs| - 1].script)
  }

  function Scripts(customs: seq<CustomOutput>): (r: seq<nat>)
    ensures |r| == |customs|
  {
    seq(|customs|, i requires 0 <= i < |customs| => customs[i].script)
  }

  lemma {:induction false} BytesOfScripts(customs: seq<CustomOutput>)
    ensures BytesOf(customs) == OutputsBytes(Scripts(customs))
  {
    if customs != [] {
      var n := |customs| - 1;
      assert Scripts(customs)[..n] == Scripts(customs[..n]);
      BytesOfScripts(customs[..n]);
    }
  }

  predicate NeedsPad(t: Terms) {
    t.carrier == P2wsh && NeedsFloorPad(|t.scripts|, BytesOf(t.customs), t.strippedFloor)
  }

  // ---------- what the commit's legs are worth ----------

  function BaseLeg(t: Terms, i: nat): nat
    requires i < |t.scripts|
  {
    var pad := if NeedsPad(t) then t.padBytes else 0;
    Max(Fee(LegSize(t.carrier, t.scripts[i], pad, t.strippedFloor), t.rate), t.finalDust) + if NeedsPad(t) then t.dust else 0
  }

  function BaseLegs(t: Terms): (r: seq<int>)
    ensures |r| == |t.scripts|
  {
    seq(|t.scripts|, i requires 0 <= i < |t.scripts| => BaseLeg(t, i))
  }

  /** The fee for the caller outputs' bytes, and the soft-dust surcharge they bring. */
  function CustomsFee(t: Terms): nat {
    if BytesOf(t.customs) == 0 then 0 else Fee(BytesOf(t.customs), t.rate) + SoftDustSurcharge(Values(t.customs), t.softFloor)
  }

  function RevealFeeNeeded(t: Terms): nat {
    Max(Fee(RevealSize(t.carrier, t.scripts, WORST_CHANGE_BYTES, t.strippedFloor), t.rate), t.dust)
  }

  /** What the first leg carries beyond its own share. */
  function FirstLegExtra(t: Terms): int {
    Sum(Values(t.customs)) + CustomsFee(t)
    + if NeedsPad(t) then 0
      else Max(0, RevealFeeNeeded(t) - Sum(BaseLegs(t))) + if BytesOf(t.customs) == 0 then t.outputFloor else 0
  }

  function LegValues(t: Terms): seq<int>
    requires t.scripts != []
  {
    BaseLegs(t)[0 := BaseLegs(t)[0] + FirstLegExtra(t)]
  }

  datatype Prefund = Prefund(outputIndex: nat, revealSize: nat, revealFee: int)

  /** The first leg as the money a package prefund raises; a padded reveal has none. */
  function PrefundFor(t: Terms): Option<Prefund> {
    if NeedsPad(t) then None
    else Some(Prefund(0, RevealSize(t.carrier, t.scripts, WORST_CHANGE_BYTES, t.strippedFloor), RevealFeeNeeded(t)))
  }

  class CommitBuild {
    const t: Terms
    var outputs: seq<int>
    var outputSatoshis: int
    var revealCustomOutputsValue: int
    var revealCustomOutputsBytes: nat
    var revealCustomOutputsFee: int
    var headroomFunded: bool
    var revealPrefund: Option<Prefund>

    constructor (t: Terms)
      ensures this.t == t && outputs == [] && outputSatoshis == 0 && !headroomFunded && revealPrefund == None
    {
      this.t := t;
      outputs, outputSatoshis, headroomFunded, revealPrefund := [], 0, false, None;
      revealCustomOutputsValue, revealCustomOutputsBytes, revealCustomOutputsFee := 0, 0, 0;
    }

    ghost predicate Priced()
      reads this
    {
      && revealCustomOutputsValue == Sum(Values(t.customs)) && revealCustomOutputsBytes == BytesOf(t.customs)
      && revealCustomOutputsFee == CustomsFee(t)
    }

    method PriceRevealCustomOutputs()
      modifies this`revealCustomOutputsValue, this`revealCustomOutputsBytes, this`revealCustomOutputsFee
      ensures Priced()
    {
      revealCustomOutputsValue, revealCustomOutputsBytes := 0, 0;
      var values: seq<int> := [];
      for i := 0 to |t.customs|
        invariant values == Values(t.customs)[..i]
        invariant revealCustomOutputsValue == Sum(values) && revealCustomOutputsBytes == BytesOf(t.customs[..i])
      {
        SumAppend(values, t.customs[i].value);
        assert t.customs[..i + 1][..i] == t.customs[..i];
        revealCustomOutputsValue := revealCustomOutputsValue + t.customs[i].value;
        revealCustomOutputsBytes := revealCustomOutputsBytes + OutputBytes(t.customs[i].script);
        values := values + [t.customs[i].value];
      }
      assert t.customs[..|t.customs|] == t.customs && values == Values(t.customs);
      revealCustomOutputsFee := if revealCustomOutputsBytes > 0 then Fee(revealCustomOutputsBytes, t.rate) else 0;
      if revealCustomOutputsBytes > 0 {
        var surcharge := SoftDustSurchargeFor(values, t.softFloor);
        revealCustomOutputsFee := revealCustomOutputsFee + surcharge;
      }
    }

    /** What the legs fund at their own sizing, and what the whole reveal needs. */
    method SumRevealLegs() returns (baseLegsTotal: int, revealFeeNeeded: nat, revealSize: nat)
      requires !NeedsPad(t)
      ensures baseLegsTotal == Sum(BaseLegs(t)) && revealFeeNeeded == RevealFeeNeeded(t)
      ensures revealSize == RevealSize(t.carrier, t.scripts, WORST_CHANGE_BYTES, t.strippedFloor)
    {
      baseLegsTotal := 0;
      for i := 0 to |t.scripts|
        invariant baseLegsTotal == Sum(BaseLegs(t)[..i])
      {
        assert BaseLegs(t)[..i + 1][..i] == BaseLegs(t)[..i];
        baseLegsTotal := baseLegsTotal + Max(Fee(LegSize(t.carrier, t.scripts[i], 0, t.strippedFloor), t.rate), t.finalDust);
      }
      assert BaseLegs(t)[..|t.scripts|] == BaseLegs(t);
      if t.carrier == P2sh {
        revealSize := EstimateP2shRevealTx(t.scripts, WORST_CHANGE_BYTES);
      } else {
        revealSize := EstimateP2wshRevealTx(t.scripts, WORST_CHANGE_BYTES, t.strippedFloor);
      }
      revealFeeNeeded := Fee(revealSize, t.rate);
      if revealFeeNeeded < t.dust { revealFeeNeeded := t.dust; }
    }

    /** The one-time first-leg top-up. */
    method TopUpFirstLeg(leg: int) returns (r: int)
      requires !NeedsPad(t) && revealCustomOutputsBytes == BytesOf(t.customs)
      modifies this`headroomFunded, this`revealPrefund
      ensures headroomFunded
      ensures r == leg + if old(headroomFunded) then 0
                         else Max(0, RevealFeeNeeded(t) - Sum(BaseLegs(t))) + if BytesOf(t.customs) == 0 then t.outputFloor else 0
      ensures old(headroomFunded) ==> revealPrefund == old(revealPrefund)
      ensures !old(headroomFunded) ==>
                revealPrefund == Some(Prefund(|outputs|, RevealSize(t.carrier, t.scripts, WORST_CHANGE_BYTES, t.strippedFloor),
                                              RevealFeeNeeded(t)))
    {
      r := leg;
      if !headroomFunded {
        headroomFunded := true;
        var needsChangeOutput := revealCustomOutputsBytes == 0;
        var baseLegsTotal, revealFeeNeeded, revealSize := SumRevealLegs();
        r := r + Max(0, revealFeeNeeded - baseLegsTotal) + if needsChangeOutput then t.outputFloor else 0;
        revealPrefund := Some(Prefund(|outputs|, revealSize, revealFeeNeeded));
      }
    }

    /** One funding leg, of either carrier. */
    method FundLeg(script: nat)
      requires |outputs| < |t.scripts| && script == t.scripts[|outputs|]
      requires if |outputs| == 0 then Priced() && !headroomFunded
               else revealCustomOutputsValue == 0 && revealCustomOutputsFee == 0 && revealCustomOutputsBytes == BytesOf(t.customs)
                    && (!NeedsPad(t) ==> headroomFunded)
      modifies this
      ensures outputs == old(outputs) + [LegValues(t)[|old(outputs)|]]
      ensures outputSatoshis == old(outputSatoshis) + LegValues(t)[|old(outputs)|]
      ensures revealCustomOutputsValue == 0 && revealCustomOutputsFee == 0 && revealCustomOutputsBytes == BytesOf(t.customs)
      ensures !NeedsPad(t) ==> headroomFunded
      ensures |old(outputs)| == 0 && !NeedsPad(t) ==>
                revealPrefund == Some(Prefund(0, RevealSize(t.carrier, t.scripts, WORST_CHANGE_BYTES, t.strippedFloor), RevealFeeNeeded(t)))
      ensures |old(outputs)| > 0 || NeedsPad(t) ==> revealPrefund == old(revealPrefund)
    {
      ghost var n := |outputs|;
      SumOfNaturals(t.customs);
      var needsPad := NeedsPad(t);
      var fee: int := Fee(LegSize(t.carrier, script, if needsPad then t.padBytes else 0, t.strippedFloor), t.rate);
      if fee < t.finalDust { fee := t.finalDust; }
      if needsPad { fee := fee + t.dust; }
      assert fee == BaseLegs(t)[n];
      if revealCustomOutputsValue > 0 || revealCustomOutputsFee > 0 {
        fee := fee + revealCustomOutputsValue + revealCustomOutputsFee;
        revealCustomOutputsValue, revealCustomOutputsFee := 0, 0;
      }
      if !needsPad { fee := TopUpFirstLeg(fee); }
      outputs := outputs + [fee];
      outputSatoshis := outputSatoshis + fee;
    }

    /** The commit's data outputs, one leg a chunk. */
    method EmitLegs()
      requires outputs == [] && outputSatoshis == 0 && !headroomFunded && Priced() && t.scripts != [] && revealPrefund == None
      modifies this
      ensures outputs == LegValues(t) && outputSatoshis == Sum(outputs) && revealPrefund == PrefundFor(t)
    {
      assert NeedsPad(t) ==> PrefundFor(t) == None;
      assert !NeedsPad(t) ==> PrefundFor(t) == Some(Prefund(0, RevealSize(t.carrier, t.scripts, WORST_CHANGE_BYTES, t.strippedFloor),
                                                            RevealFeeNeeded(t)));
      hide LegValues; hide Sum; hide RevealFeeNeeded; hide NeedsPad; hide Priced; hide RevealSize; hide PrefundFor;
      assert |LegValues(t)| == |t.scripts| by { LegCount(t); }
      assert Sum([]) == 0 by { EmptySum(); }
      for i := 0 to |t.scripts|
        invariant outputs == LegValues(t)[..i] && outputSatoshis == Sum(outputs)
        invariant if i == 0 then Priced() && !headroomFunded && revealPrefund == None
                  else revealCustomOutputsValue == 0 && revealCustomOutputsFee == 0 && revealCustomOutputsBytes == BytesOf(t.customs)
                       && (!NeedsPad(t) ==> headroomFunded) && revealPrefund == PrefundFor(t)
      {
        SumAppend(outputs, LegValues(t)[i]);
        assert LegValues(t)[..i + 1] == LegValues(t)[..i] + [LegValues(t)[i]];
        FundLeg(t.scripts[i]);
      }
      assert LegValues(t)[..|t.scripts|] == LegValues(t);
    }
  }

  lemma LegCount(t: Terms)
    requires t.scripts != []
    ensures |LegValues(t)| == |t.scripts|
  {
  }

  lemma EmptySum()
    ensures Sum([]) == 0
  {
  }

  lemma {:induction false} SumOfNaturals(customs: seq<CustomOutput>)
    ensures Sum(Values(customs)) >= 0
  {
    if customs != [] {
      var n := |customs| - 1;
      assert Values(customs)[..n] == Values(customs[..n]);
      SumOfNaturals(customs[..n]);
    }
  }

  // ---------- the reveal ----------

  /** A reveal of the same chunks and caller outputs, at its own rate; `package` is what the node says of the commit. */
  datatype Reveal = Reveal(t: Terms, rate: nat, fee: Option<nat>, legs: int, package: Option<Package>, upliftBound: nat)

  function RevealSurcharge(r: Reveal): nat {
    SoftDustSurcharge([0] + Values(r.t.customs), r.t.softFloor)
  }

  /** The fee after the dust floor, surcharge included. */
  function RevealBaseFee(r: Reveal): nat {
    Max(if r.fee.Some? then r.fee.value + RevealSurcharge(r) else 0, r.t.dust + RevealSurcharge(r))
  }

  function PricedSize(r: Reveal): nat {
    RevealSize(r.t.carrier, r.t.scripts, WORST_CHANGE_BYTES + BytesOf(r.t.customs), r.t.strippedFloor)
  }

  /** The fee a swept reveal keeps before it considers the commit's package. */
  function FeeKept(r: Reveal): nat {
    Max(Fee(PricedSize(r), r.rate), RevealBaseFee(r) - RevealSurcharge(r)) + RevealSurcharge(r)
  }

  /** What an uplift may not touch: the sweep's own floor, where no caller output leaves value. */
  function Reserve(r: Reveal): nat {
    if r.t.customs != [] then 0 else r.t.outputFloor
  }

  /** The package uplift, never spending what the outputs need. */
  function AllowedUplift(r: Reveal): nat {
    if r.package == None || r.upliftBound == 0 || r.rate == 0 then 0
    else
      var wanted := PackageUplift(FeeKept(r), PricedSize(r), r.package.value, r.rate);
      var spendable := r.legs - Sum(Values(r.t.customs)) - FeeKept(r) - Reserve(r);
      if spendable <= 0 then 0 else Min(Min(wanted, r.upliftBound), spendable)
  }

  /** An uplift the package asks for, within the bound, that leaves the outputs and the sweep's floor their money. */
  predicate MayKeep(r: Reveal, x: int) {
    && 0 <= x <= r.upliftBound
    && (x > 0 ==> && r.package.Some? && x <= PackageUplift(FeeKept(r), PricedSize(r), r.package.value, r.rate)
                  && r.legs >= Sum(Values(r.t.customs)) + FeeKept(r) + x + Reserve(r))
  }

  /** The reveal keeps the largest such uplift. */
  lemma RevealUpliftIsTheLargestAllowed(r: Reveal, x: int)
    requires MayKeep(r, x)
    ensures x <= AllowedUplift(r) && MayKeep(r, AllowedUplift(r))
  {
  }

  function Surplus(r: Reveal): int {
    r.legs - Sum(Values(r.t.customs)) - (FeeKept(r) + AllowedUplift(r))
  }

  /** The marker, the caller's outputs, then the floor pad or the sweep. */
  function RevealOutputs(r: Reveal): seq<int> {
    [0] + Values(r.t.customs)
    + if NeedsPad(r.t) then [r.t.dust] else if r.legs > 0 && Surplus(r) >= r.t.outputFloor then [Surplus(r)] else []
  }

  lemma MarkerAddsNothing(values: seq<int>)
    ensures Sum([0] + values) == Sum(values)
  {
    SumConcat([0], values);
    assert [0][..0] == [];
  }

  class RevealBuild {
    const r: Reveal
    var outputs: seq<int>
    var outputSatoshis: int
    var phaseLegInputSatoshis: int
    var softDustSurcharge: nat
    var estimatedFee: int

    constructor (r: Reveal)
      ensures this.r == r && outputs == [] && outputSatoshis == 0 && phaseLegInputSatoshis == 0
    {
      this.r := r;
      outputs, outputSatoshis, phaseLegInputSatoshis, softDustSurcharge, estimatedFee := [], 0, 0, 0, 0;
    }

    /** Spends the commit's legs by index, marker first. */
    method SpendLegs(legs: seq<int>)
      requires outputs == [] && phaseLegInputSatoshis == 0
      modifies this`outputs, this`phaseLegInputSatoshis
      ensures outputs == [0] && phaseLegInputSatoshis == Sum(legs)
    {
      outputs := [0];
      for i := 0 to |legs|
        invariant phaseLegInputSatoshis == Sum(legs[..i]) && outputs == [0]
      {
        assert legs[..i + 1][..i] == legs[..i];
        phaseLegInputSatoshis := phaseLegInputSatoshis + legs[i];
      }
      assert legs[..|legs|] == legs;
    }

    method EmitCustomOutputs()
      requires outputs == [0] && outputSatoshis == 0
      modifies this`outputs, this`outputSatoshis, this`softDustSurcharge
      ensures outputs == [0] + Values(r.t.customs) && outputSatoshis == Sum(Values(r.t.customs)) == Sum(outputs)
      ensures softDustSurcharge == RevealSurcharge(r)
    {
      ghost var values := Values(r.t.customs);
      for i := 0 to |r.t.customs|
        invariant outputs == [0] + values[..i] && outputSatoshis == Sum(values[..i])
      {
        assert values[..i + 1] == values[..i] + [values[i]];
        SumAppend(values[..i], values[i]);
        outputs := outputs + [r.t.customs[i].value];
        outputSatoshis := outputSatoshis + r.t.customs[i].value;
      }
      assert values[..|r.t.customs|] == values;
      MarkerAddsNothing(values);
      softDustSurcharge := SoftDustSurchargeFor(outputs, r.t.softFloor);
    }

    method FloorEstimatedFee()
      requires softDustSurcharge == RevealSurcharge(r)
      modifies this`estimatedFee
      ensures estimatedFee == RevealBaseFee(r)
    {
      estimatedFee := if r.fee.Some? then r.fee.value + softDustSurcharge else 0;
      var floor := r.t.dust + softDustSurcharge;
      if estimatedFee < floor { estimatedFee := floor; }
    }

    /** Pads by the reveal's real stripped size, which is what the commit forecast. */
    method EmitPad()
      requires r.t.strippedFloor <= 1000
      modifies this`outputs
      ensures outputs == old(outputs) + if NeedsPad(r.t) then [r.t.dust] else []
    {
      if r.t.carrier == P2wsh && r.t.strippedFloor != 0 {
        PadIsPredicted(|r.t.scripts|, Scripts(r.t.customs), r.t.strippedFloor);
        BytesOfScripts(r.t.customs);
        if StrippedTxSize(|r.t.scripts|, [MarkerScript(P2wsh)] + Scripts(r.t.customs)) < r.t.strippedFloor {
          outputs := outputs + [r.t.dust];
        }
      }
    }

    method ClampRevealUplift(wanted: nat, kept: nat) returns (k: nat)
      requires kept == FeeKept(r) && wanted > 0 && phaseLegInputSatoshis == r.legs && outputSatoshis == Sum(Values(r.t.customs))
      requires r.package.Some? && r.upliftBound > 0 && r.rate > 0
      requires wanted == PackageUplift(kept, PricedSize(r), r.package.value, r.rate)
      ensures k == kept + AllowedUplift(r)
      ensures k > kept ==> phaseLegInputSatoshis - outputSatoshis - k >= Reserve(r)
    {
      var sweepReserve := if r.t.customs != [] then 0 else r.t.outputFloor;
      var spendable := phaseLegInputSatoshis - outputSatoshis - kept - sweepReserve;
      var allowed := Min(wanted, r.upliftBound);
      if spendable <= 0 { allowed := 0; } else if spendable < allowed { allowed := spendable; }
      k := kept;
      if allowed > 0 { k := k + allowed; }
    }

    method SweepReveal()
      requires phaseLegInputSatoshis == r.legs && outputSatoshis == Sum(Values(r.t.customs))
      requires softDustSurcharge == RevealSurcharge(r) && estimatedFee == RevealBaseFee(r)
      modifies this`outputs
      ensures outputs == old(outputs) + if !NeedsPad(r.t) && r.legs > 0 && Surplus(r) >= r.t.outputFloor then [Surplus(r)] else []
    {
      if !NeedsPad(r.t) && phaseLegInputSatoshis > 0 {
        var extra := WORST_CHANGE_BYTES;
        for i := 0 to |r.t.customs|
          invariant extra == WORST_CHANGE_BYTES + BytesOf(r.t.customs[..i])
        {
          assert r.t.customs[..i + 1][..i] == r.t.customs[..i];
          extra := extra + OutputBytes(r.t.customs[i].script);
        }
        assert r.t.customs[..|r.t.customs|] == r.t.customs;
        var size;
        if r.t.carrier == P2sh {
          size := EstimateP2shRevealTx(r.t.scripts, extra);
        } else {
          size := EstimateP2wshRevealTx(r.t.scripts, extra, r.t.strippedFloor);
        }
        var kept: nat := Fee(size, r.rate);
        var base := estimatedFee - softDustSurcharge;
        if kept < base { kept := base; }
        kept := kept + softDustSurcharge;
        assert kept == FeeKept(r);
        if r.upliftBound > 0 && r.rate > 0 && r.package.Some? {
          var wanted := PackageUplift(kept, size, r.package.value, r.rate);
          if wanted > 0 { kept := ClampRevealUplift(wanted, kept); }
        }
        assert kept == FeeKept(r) + AllowedUplift(r);
        var surplus := phaseLegInputSatoshis - outputSatoshis - kept;
        if surplus >= r.t.outputFloor { outputs := outputs + [surplus]; }
      }
    }

    /** The whole reveal, from the legs it spends. */
    method Build(legs: seq<int>)
      requires outputs == [] && outputSatoshis == 0 && phaseLegInputSatoshis == 0 && r.legs == Sum(legs)
      requires r.t.strippedFloor <= 1000
      modifies this
      ensures outputs == RevealOutputs(r)
    {
      SpendLegs(legs);
      EmitCustomOutputs();
      FloorEstimatedFee();
      EmitPad();
      SweepReveal();
    }
  }

  // ---------- the commit always funds the reveal ----------

  /** The size of the reveal that is actually emitted: the pad's bytes, or the worst-case change slot. */
  function EmittedSize(r: Reveal): nat {
    var last := if NeedsPad(r.t) then r.t.padBytes else WORST_CHANGE_BYTES;
    RevealSize(r.t.carrier, r.t.scripts, last + BytesOf(r.t.customs), r.t.strippedFloor)
  }

  lemma SumLegValues(t: Terms)
    requires t.scripts != []
    ensures Sum(LegValues(t)) == Sum(BaseLegs(t)) + FirstLegExtra(t)
  {
    SumUpdate(BaseLegs(t), 0, BaseLegs(t)[0] + FirstLegExtra(t));
  }

  lemma MarkerAddsNoSurcharge(r: Reveal)
    ensures RevealSurcharge(r) == SoftDustSurcharge(Values(r.t.customs), r.t.softFloor)
  {
    SurchargeConcat([0], Values(r.t.customs), r.t.softFloor);
    NoSurcharge([0], r.t.softFloor);
  }

  lemma NoBytesNoCustoms(customs: seq<CustomOutput>)
    ensures BytesOf(customs) == 0 <==> customs == []
  {
  }

  /** At the same or a lower rate the reveal's fee is at most what the commit set aside for it. */
  lemma KeptIsFunded(r: Reveal)
    requires TermsOk(r.t) && r.rate <= r.t.rate && r.fee == None
    ensures FeeKept(r) <= RevealFeeNeeded(r.t) + CustomsFee(r.t)
  {
    var t := r.t;
    var size := RevealSize(t.carrier, t.scripts, WORST_CHANGE_BYTES, t.strippedFloor);
    MarkerAddsNoSurcharge(r);
    NoBytesNoCustoms(t.customs);
    ExtraBytesCostAtMostThemselves(t.carrier, t.scripts, WORST_CHANGE_BYTES, BytesOf(t.customs), t.strippedFloor);
    FeeMonotone(PricedSize(r), size + BytesOf(t.customs), r.rate, t.rate);
    FeeSubadditive(size, BytesOf(t.customs), t.rate);
  }

  /** Without a floor pad, the legs cover the caller outputs, the fee, and the sweep when nothing else leaves value. */
  lemma LegsCoverTheReveal(r: Reveal)
    requires TermsOk(r.t) && r.rate <= r.t.rate && r.fee == None && !NeedsPad(r.t)
    ensures Sum(LegValues(r.t)) >= Sum(Values(r.t.customs)) + FeeKept(r) + if r.t.customs == [] then r.t.outputFloor else 0
  {
    SumLegValues(r.t);
    KeptIsFunded(r);
    NoBytesNoCustoms(r.t.customs);
  }

  // With a floor pad each leg is priced with the pad's bytes, so the legs together price the padded reveal.

  function PaddedLegSizes(t: Terms, n: nat): nat
    requires n <= |t.scripts|
  {
    if n == 0 then 0 else PaddedLegSizes(t, n - 1) + LegSize(P2wsh, t.scripts[n - 1], t.padBytes, t.strippedFloor)
  }

  lemma {:induction false} LegSizesCoverTheReveal(t: Terms, n: nat)
    requires NeedsPad(t) && 0 < n <= |t.scripts|
    ensures PaddedLegSizes(t, n) >= RevealSize(P2wsh, t.scripts[..n], t.padBytes, t.strippedFloor)
  {
    var before, upTo := t.scripts[..n - 1], t.scripts[..n];
    var item := WitnessItem(t.scripts[n - 1]);
    assert upTo[..n - 1] == before && upTo[n - 1] == t.scripts[n - 1];
    assert WitnessBytes(upTo) == WitnessBytes(before) + item;
    assert OpReturnOutput(MarkerLength(P2wsh)) == 20;
    if n == 1 {
      assert before == [] && PaddedLegSizes(t, 0) == 0;
    } else {
      LegSizesCoverTheReveal(t, n - 1);
      assert CeilQuarter(WitnessBytes(before)) + CeilQuarter(2 + item) >= CeilQuarter(WitnessBytes(before) + item);
    }
  }

  lemma {:induction false} PaddedLegsPay(t: Terms, n: nat)
    requires NeedsPad(t) && n <= |t.scripts|
    ensures Sum(BaseLegs(t)[..n]) >= Fee(PaddedLegSizes(t, n), t.rate) + n * t.dust
  {
    if n > 0 {
      PaddedLegsPay(t, n - 1);
      assert BaseLegs(t)[..n][..n - 1] == BaseLegs(t)[..n - 1];
      FeeSubadditive(PaddedLegSizes(t, n - 1), LegSize(P2wsh, t.scripts[n - 1], t.padBytes, t.strippedFloor), t.rate);
      assert n * t.dust == (n - 1) * t.dust + t.dust;
    }
  }

  /** The padded legs' own shares and the caller outputs' fee together reach the emitted size's fee. */
  lemma PaddedFee(r: Reveal)
    requires TermsOk(r.t) && r.rate <= r.t.rate && NeedsPad(r.t)
    ensures Fee(PaddedLegSizes(r.t, |r.t.scripts|), r.t.rate) + Fee(BytesOf(r.t.customs), r.t.rate) >= Fee(EmittedSize(r), r.rate)
  {
    var t := r.t;
    var n := |t.scripts|;
    var size := RevealSize(P2wsh, t.scripts, t.padBytes, t.strippedFloor);
    assert t.scripts[..n] == t.scripts;
    LegSizesCoverTheReveal(t, n);
    ExtraBytesCostAtMostThemselves(P2wsh, t.scripts, t.padBytes, BytesOf(t.customs), t.strippedFloor);
    hide RevealSize; hide PaddedLegSizes; hide BytesOf; hide Fee;
    FeeMonotone(size, PaddedLegSizes(t, n), t.rate, t.rate);
    FeeMonotone(EmittedSize(r), size + BytesOf(t.customs), r.rate, t.rate);
    FeeSubadditive(size, BytesOf(t.customs), t.rate);
  }

  lemma PaddedLegsCoverTheReveal(r: Reveal)
    requires TermsOk(r.t) && r.rate <= r.t.rate && NeedsPad(r.t)
    ensures Sum(LegValues(r.t)) >= Sum(Values(r.t.customs)) + r.t.dust + Fee(EmittedSize(r), r.rate) + RevealSurcharge(r)
  {
    var t := r.t;
    var n := |t.scripts|;
    assert BaseLegs(t)[..n] == BaseLegs(t);
    SumLegValues(t);
    PaddedLegsPay(t, n);
    PaddedFee(r);
    MarkerAddsNoSurcharge(r);
    NoBytesNoCustoms(t.customs);
    assert t.customs == [] ==> RevealSurcharge(r) == 0;
    assert Fee(0, t.rate) == 0;
    hide EmittedSize; hide PaddedLegSizes; hide NeedsPad; hide RevealSurcharge; hide BaseLegs; hide LegValues;
    AtLeastOne(n, t.dust);
  }

  lemma AtLeastOne(n: nat, d: nat)
    requires n > 0
    ensures n * d >= d
  {
    assert n * d == d + (n - 1) * d;
  }

  lemma SumOfOutputs(r: Reveal)
    ensures Sum(RevealOutputs(r)) == Sum(Values(r.t.customs))
      + if NeedsPad(r.t) then r.t.dust else if r.legs > 0 && Surplus(r) >= r.t.outputFloor then Surplus(r) else 0
  {
    var last: seq<int> := if NeedsPad(r.t) then [r.t.dust] else if r.legs > 0 && Surplus(r) >= r.t.outputFloor then [Surplus(r)] else [];
    SumConcat([0] + Values(r.t.customs), last);
    SumConcat([0], Values(r.t.customs));
    assert last == [] || last[..0] == [];
  }

  /** The fee the reveal pays: what its inputs leave over its outputs. */
  function FeePaid(r: Reveal): int {
    r.legs - Sum(RevealOutputs(r))
  }

  /** The scripts of the reveal's value outputs; `last` is the pad's or the change's. */
  function ValueScripts(r: Reveal, last: nat): seq<nat> {
    Scripts(r.t.customs) + if |RevealOutputs(r)| > 1 + |r.t.customs| then [last] else []
  }

  /** Signatures and a last output this reveal may be finished with. */
  predicate MayFinish(r: Reveal, signatures: seq<nat>, last: nat) {
    && Signed(r.t.carrier, r.t.scripts, signatures) && |r.t.customs| < 0xffffffff - 1
    && OutputBytes(last) <= if NeedsPad(r.t) then r.t.padBytes else WORST_CHANGE_BYTES
  }

  /** What low caller outputs cost the reveal. */
  function LowOutputsFee(r: Reveal): nat {
    |LowOutputs(Values(r.t.customs), r.t.softFloor)| * r.t.softFloor
  }

  lemma SurchargeIsTheirs(r: Reveal)
    ensures RevealSurcharge(r) == LowOutputsFee(r)
  {
    MarkerAddsNoSurcharge(r);
    SurchargeCounts(Values(r.t.customs), r.t.softFloor);
  }

  /** The fee reaches the rate on the virtual size the reveal really has, however it is signed. */
  ghost predicate PaysItsSize(r: Reveal) {
    forall signatures, last | MayFinish(r, signatures, last) ::
      FeePaid(r) >= Fee(VirtualSize(RevealTx(r.t.carrier, r.t.scripts, signatures, ValueScripts(r, last))), r.rate) + LowOutputsFee(r)
  }

  lemma PricedSizePaysItsSize(r: Reveal)
    requires r.t.scripts != [] && FeePaid(r) >= Fee(EmittedSize(r), r.rate) + RevealSurcharge(r)
    ensures PaysItsSize(r)
  {
    forall signatures, last | MayFinish(r, signatures, last)
      ensures FeePaid(r) >= Fee(VirtualSize(RevealTx(r.t.carrier, r.t.scripts, signatures, ValueScripts(r, last))), r.rate)
                            + LowOutputsFee(r)
    {
      SurchargeIsTheirs(r);
      var outs := ValueScripts(r, last);
      var slot := if NeedsPad(r.t) then r.t.padBytes else WORST_CHANGE_BYTES;
      BytesOfScripts(r.t.customs);
      OutputsBytesAppend(Scripts(r.t.customs), last);
      assert Scripts(r.t.customs) + [] == Scripts(r.t.customs);
      hide FeePaid; hide RevealOutputs; hide RevealSurcharge; hide LowOutputsFee; hide RevealTx; hide VirtualSize; hide RevealSize;
      hide OutputBytes; hide OutputsBytes; hide BytesOf; hide NeedsPad;
      RevealIsCovered(r.t.carrier, r.t.scripts, signatures, outs, slot + BytesOf(r.t.customs), r.t.strippedFloor);
      FeeMonotone(VirtualSize(RevealTx(r.t.carrier, r.t.scripts, signatures, outs)), EmittedSize(r), r.rate, r.rate);
    }
  }

  /** The reveal pays its caller outputs in order and a relayable fee, and leaves a value output of its own when there are none. */
  ghost predicate RevealFunded(r: Reveal) {
    && [0] + Values(r.t.customs) <= RevealOutputs(r) && |RevealOutputs(r)| <= |r.t.customs| + 2
    && PaysItsSize(r) && FeePaid(r) >= Fee(EmittedSize(r), r.rate) + LowOutputsFee(r)
    && (!NeedsPad(r.t) ==> FeePaid(r) >= r.t.dust + LowOutputsFee(r))
    && (r.t.customs == [] ==> |RevealOutputs(r)| == 2 && RevealOutputs(r)[1] >= if NeedsPad(r.t) then r.t.dust else r.t.outputFloor)
    && (NeedsPad(r.t) ==> RevealOutputs(r) == [0] + Values(r.t.customs) + [r.t.dust])
  }

  /**
   The commit always funds its reveal. For any chunks, caller outputs, dust and rates, a
   reveal at the same or a lower rate, spending at least what the commit wrote, pays every
   caller output and a relayable fee; with no caller output it still leaves one value
   output of its own, whatever the node says of the commit's package.
   */
  lemma CommitFundsReveal(r: Reveal)
    requires TermsOk(r.t) && r.rate <= r.t.rate && r.fee == None && r.legs >= Sum(LegValues(r.t))
    ensures RevealFunded(r)
  {
    SumOfOutputs(r);
    SumOfNaturals(r.t.customs);
    if NeedsPad(r.t) {
      PaddedLegsCoverTheReveal(r);
    } else {
      LegsCoverTheReveal(r);
      assert EmittedSize(r) == PricedSize(r);
      assert FeeKept(r) >= Fee(PricedSize(r), r.rate) + RevealSurcharge(r);
    }
    SurchargeIsTheirs(r);
    hide PaysItsSize; hide LowOutputsFee;
    PricedSizePaysItsSize(r);
  }

  /**
   A reveal that sweeps pays the largest of its rate's fee, one dust and the fee its caller named,
   what its low outputs cost, and the commit's shortfall as far as its legs allow; no more.
   */
  lemma SweptRevealPaysExactly(r: Reveal)
    requires TermsOk(r.t) && !NeedsPad(r.t) && r.legs > 0 && Surplus(r) >= r.t.outputFloor
    ensures FeePaid(r) == FeeKept(r) + AllowedUplift(r)
    ensures var base := FeePaid(r) - AllowedUplift(r) - LowOutputsFee(r);
            && base >= Fee(PricedSize(r), r.rate) && base >= r.t.dust && (r.fee.Some? ==> base >= r.fee.value)
            && (base == Fee(PricedSize(r), r.rate) || base == r.t.dust || r.fee == Some(base))
  {
    SumOfOutputs(r);
    SurchargeIsTheirs(r);
  }

  /** What one leg costs as a reveal of its own, no less than the build's dust, and one dust for its share of a pad. */
  function OwnReveal(t: Terms, i: nat): nat
    requires i < |t.scripts|
  {
    Max(Fee(RevealSize(t.carrier, [t.scripts[i]], if NeedsPad(t) then t.padBytes else 0, t.strippedFloor), t.rate), t.finalDust)
    + if NeedsPad(t) then t.dust else 0
  }

  function OwnReveals(t: Terms): (r: seq<int>)
    ensures |r| == |t.scripts|
  {
    seq(|t.scripts|, i requires 0 <= i < |t.scripts| => OwnReveal(t, i))
  }

  lemma LegsAreOwnReveals(t: Terms)
    ensures BaseLegs(t) == OwnReveals(t)
  {
    forall i | 0 <= i < |t.scripts| ensures BaseLegs(t)[i] == OwnReveals(t)[i] {
      LegIsItsOwnReveal(t.carrier, t.scripts[i], if NeedsPad(t) then t.padBytes else 0, t.strippedFloor);
      hide LegSize; hide RevealSize; hide Fee;
    }
  }

  /**
   Nor does the commit ask for more. Each leg but the first costs what it would as a reveal of
   its own. The first adds the caller outputs with their fee, and, unless the reveal is padded,
   what the whole reveal's fee is over the legs' sum, and the floor of its one value output.
   */
  lemma LegsAskNoMore(t: Terms)
    requires TermsOk(t)
    ensures |LegValues(t)| == |OwnReveals(t)| && forall i | 0 < i < |LegValues(t)| :: LegValues(t)[i] == OwnReveals(t)[i]
    ensures var whole := Max(Fee(RevealSize(t.carrier, t.scripts, 43, t.strippedFloor), t.rate), t.dust);
            var customs := Sum(Values(t.customs)) + Fee(BytesOf(t.customs), t.rate)
                           + |LowOutputs(Values(t.customs), t.softFloor)| * t.softFloor;
            Sum(LegValues(t)) == customs + if NeedsPad(t) then Sum(OwnReveals(t))
                                           else Max(Sum(OwnReveals(t)), whole) + if t.customs == [] then t.outputFloor else 0
  {
    LegsAreOwnReveals(t);
    SumLegValues(t);
    NoBytesNoCustoms(t.customs);
    SurchargeCounts(Values(t.customs), t.softFloor);
    assert t.customs == [] ==> SoftDustSurcharge(Values(t.customs), t.softFloor) == 0;
    assert Fee(0, t.rate) == 0;
    hide RevealSize; hide OwnReveals; hide BaseLegs; hide SoftDustSurcharge; hide NeedsPad;
  }

  /** Kept as fee, the uplift brings the pair's package to its rate and no more, or a bound or the spendable surplus ran out. */
  lemma UpliftReachesTheRate(r: Reveal)
    requires r.package.Some? && r.package.value.size > 0 && r.package.value.fee >= 0 && r.rate > 0 && r.upliftBound > 0 && PricedSize(r) > 0
    ensures var paid := r.package.value.fee + FeeKept(r) + AllowedUplift(r);
            var spendable := r.legs - Sum(Values(r.t.customs)) - FeeKept(r) - Reserve(r);
            && (|| 1000 * paid >= (r.package.value.size + PricedSize(r)) * r.rate
                || AllowedUplift(r) == r.upliftBound || AllowedUplift(r) == Max(0, spendable))
            && (AllowedUplift(r) > 0 ==> 1000 * (paid - 1) < (r.package.value.size + PricedSize(r)) * r.rate)
  {
    UpliftReachesTarget(FeeKept(r), PricedSize(r), r.package.value, r.rate);
  }
}
