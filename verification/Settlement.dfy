/**
 The money of one funding transaction, from its first output to its change. `FundingBuild`
 changes its fields in place, a method a step; the functions on `Money` say what each step
 comes to, and `Settle` what they come to together.
 */
module Settlement {
  import opened Common
  import opened Fees
  import opened RevealSizes
  import opened CommitReveal

  /**
   A chain's floors: `dust` is the pinned threshold, `outputFloor` bounds every output the encoder
   authors, `strippedFloor` is what a reveal pads itself to, `nodeFloor` what the coin's node
   relays (65 on Bitcoin, 82 on Litecoin, 0 where it has none).
   */
  datatype Chain = Chain(dust: nat, outputFloor: nat, softFloor: nat, strippedFloor: nat, nodeFloor: nat)

  /** What the caller asked: an exact fee, a rate, a change address, as the length of its script. */
  datatype Caller = Caller(fee: Option<nat>, namedRate: bool, change: Option<nat>)

  /** Everything the settlement steps read that no step changes. */
  datatype BuildTerms = BuildTerms(chain: Chain, caller: Caller, rates: Rates, upliftBound: nat)

  datatype Envelope = Envelope(commitValue: int, revealFee: int, padNeeded: bool)

  datatype Money = Money(
    inputs: int,
    outputs: seq<int>,
    outputSatoshis: int,
    size: nat,
    fee: int,
    surcharge: nat,
    prefund: Option<Prefund>,
    envelope: Option<Envelope>,
    ancestors: Package)

  datatype Refusal =
    | BadOutput | TooManyInputs | NoConfirmedInputs | InsufficientFunds | BelowRelayMinimum | AboveRateCap | AboveBackstop
    | ChangeAddressRequired | UnderStrippedFloor

  predicate ChainOk(c: Chain) {
    0 < c.dust <= c.outputFloor && c.softFloor <= c.outputFloor
  }

  predicate BuildTermsOk(t: BuildTerms) {
    ChainOk(t.chain) && RatesOk(t.rates)
  }

  // ---------- the books ----------

  /** The running total is the sum of the real output list. */
  predicate Balanced(m: Money) {
    m.outputSatoshis == Sum(m.outputs)
  }

  /** The envelope's record agrees with the commit output it describes. */
  predicate EnvelopeOk(m: Money, dust: nat) {
    m.envelope.Some? ==>
      && m.prefund.Some? && m.prefund.value.outputIndex < |m.outputs|
      && m.outputs[m.prefund.value.outputIndex] == m.envelope.value.commitValue
      && m.prefund.value.revealFee == m.envelope.value.revealFee
      && m.envelope.value.commitValue == m.envelope.value.revealFee + dust + if m.envelope.value.padNeeded then dust else 0
  }

  predicate PrefundOk(m: Money) {
    m.prefund.Some? ==> m.prefund.value.outputIndex < |m.outputs|
  }

  predicate BooksOk(m: Money, dust: nat) {
    Balanced(m) && EnvelopeOk(m, dust) && PrefundOk(m)
  }

  /** The envelope's reveal: change to the caller, and the floor pad where the chain wants one. */
  function EnvelopeRevealOutputs(e: Envelope, dust: nat): seq<int> {
    [e.commitValue - e.revealFee - if e.padNeeded then dust else 0] + if e.padNeeded then [dust] else []
  }

  /** The Taproot reveal spends its commit output exactly: outputs plus the recorded fee, its change one dust. */
  lemma EnvelopeRevealConserves(m: Money, dust: nat)
    requires EnvelopeOk(m, dust) && m.envelope.Some?
    ensures var e := m.envelope.value;
            && Sum(EnvelopeRevealOutputs(e, dust)) + e.revealFee == m.outputs[m.prefund.value.outputIndex]
            && EnvelopeRevealOutputs(e, dust)[0] == dust
  {
    var e := m.envelope.value;
    if e.padNeeded {
      assert EnvelopeRevealOutputs(e, dust) == [dust] + [dust];
      SumAppend([dust], dust);
    }
    assert Sum([dust]) == dust by { assert [dust][..0] == []; }
  }

  // ---------- the steps as functions ----------

  function Ceiling(t: BuildTerms, size: nat): nat {
    Max(t.chain.dust, Fee(size, t.rates.node) * BURN_BACKSTOP_MULTIPLIER)
  }

  function CapCeiling(t: BuildTerms, size: nat): Option<nat> {
    if t.rates.cap.Some? then Some(Max(t.chain.dust, Fee(size, t.rates.cap.value))) else None
  }

  predicate NodePath(t: BuildTerms) {
    t.caller.fee == None && !t.caller.namedRate
  }

  predicate RelayOk(t: BuildTerms, m: Money) {
    (if NodePath(t) then Max(m.fee - m.surcharge, t.chain.dust) else m.fee - m.surcharge) >= Fee(m.size, t.rates.relay)
  }

  predicate UnderCap(t: BuildTerms, m: Money) {
    t.caller.fee.Some? && t.rates.cap.Some? ==> m.fee - m.surcharge <= CapCeiling(t, m.size).value
  }

  predicate UnderBackstop(t: BuildTerms, m: Money) {
    t.caller.fee.Some? ==> m.fee - m.surcharge <= Ceiling(t, m.size)
  }

  /** The uplift the ancestors want, within every ceiling and the inputs. */
  function AllowedAncestorUplift(t: BuildTerms, m: Money, wanted: nat): nat {
    var a := Min(wanted, t.upliftBound);
    var b := if t.rates.cap.Some? then Min(a, CapCeiling(t, m.size).value - m.fee) else a;
    var c := Min(b, Ceiling(t, m.size) - m.fee);
    var headroom := m.inputs - m.outputSatoshis - m.fee;
    if headroom <= 0 then 0 else Max(0, Min(c, headroom))
  }

  /** The inherited package as far as it is usable. */
  function Usable(p: Option<Package>): Package {
    if p.Some? && p.value.size > 0 && p.value.fee >= 0 then p.value else Package(0, 0)
  }

  /** The uplift granted for an inherited package. */
  function GrantedUplift(t: BuildTerms, m: Money, p: Option<Package>): nat {
    if t.rates.rate == 0 || t.upliftBound == 0 || p == None then 0
    else
      var wanted := PackageUplift(m.fee, m.size, p.value, t.rates.rate);
      if wanted == 0 then 0 else AllowedAncestorUplift(t, m, wanted)
  }

  function Uplifted(t: BuildTerms, m: Money, p: Option<Package>): Money {
    if t.rates.rate == 0 || t.upliftBound == 0 || p == None then m.(ancestors := Package(0, 0))
    else
      var wanted := PackageUplift(m.fee, m.size, p.value, t.rates.rate);
      m.(ancestors := Usable(p), fee := m.fee + if wanted > 0 then AllowedAncestorUplift(t, m, wanted) else 0)
  }

  function Floored(t: BuildTerms, m: Money): Money {
    m.(fee := Max(m.fee, t.chain.dust + m.surcharge))
  }

  function EnvelopeRaised(e: Envelope, amount: nat): Envelope {
    e.(commitValue := e.commitValue + amount, revealFee := e.revealFee + amount)
  }

  /** Moves `amount` into the commit output that carries the reveal's fee, and into every record of it. */
  function Raised(m: Money, amount: nat): Money
    requires m.prefund.Some? && m.prefund.value.outputIndex < |m.outputs|
  {
    var p := m.prefund.value;
    m.(outputs := m.outputs[p.outputIndex := m.outputs[p.outputIndex] + amount],
       outputSatoshis := m.outputSatoshis + amount,
       prefund := Some(p.(revealFee := p.revealFee + amount)),
       envelope := if m.envelope.Some? then Some(EnvelopeRaised(m.envelope.value, amount)) else None)
  }

  /** What the reveal's package still wants, within the bound and the change there is. */
  function PrefundAmount(t: BuildTerms, m: Money): nat {
    if m.prefund == None || t.rates.rate == 0 || t.upliftBound == 0 then 0
    else
      var p := m.prefund.value;
      var wanted := PackageUplift(p.revealFee, p.revealSize, Package(m.size + m.ancestors.size, m.fee + m.ancestors.fee), t.rates.rate);
      var headroom := m.inputs - m.outputSatoshis - m.fee;
      if headroom <= 0 then 0 else Min(Min(wanted, t.upliftBound), headroom)
  }

  function Prefunded(t: BuildTerms, m: Money): Money
    requires PrefundOk(m)
  {
    if PrefundAmount(t, m) > 0 then Raised(m, PrefundAmount(t, m)) else m
  }

  function ChangeOf(t: BuildTerms, m: Money): Result<int, Refusal> {
    var change := m.inputs - m.outputSatoshis - m.fee;
    if change < 0 then Err(InsufficientFunds)
    else if change > t.chain.dust && t.caller.change == None then Err(ChangeAddressRequired)
    else Ok(change)
  }

  function WithChange(t: BuildTerms, m: Money, change: int): Money {
    if t.caller.change.Some? && change >= t.chain.outputFloor && change > 0 then m.(outputs := m.outputs + [change]) else m
  }

  /** Settlement up to the change computation. */
  function Priced(t: BuildTerms, m: Money, p: Option<Package>): Money
    requires PrefundOk(m)
  {
    Prefunded(t, Floored(t, Uplifted(t, m, p)))
  }

  function Settle(t: BuildTerms, m: Money, p: Option<Package>): Result<Money, Refusal>
    requires PrefundOk(m)
  {
    if !RelayOk(t, m) then Err(BelowRelayMinimum)
    else if !UnderCap(t, m) then Err(AboveRateCap)
    else if !UnderBackstop(t, m) then Err(AboveBackstop)
    else
      var priced := Priced(t, m, p);
      match ChangeOf(t, priced)
      case Err(e) => Err(e)
      case Ok(change) => Ok(WithChange(t, priced, change))
  }

  // ---------- what settlement guarantees ----------

  /** The fee selection left: the caller's exact fee or the rate's, with the surcharge on top. */
  predicate SelectedFee(t: BuildTerms, m: Money) {
    m.fee == (if t.caller.fee.Some? then t.caller.fee.value else Fee(m.size, t.rates.rate)) + m.surcharge
  }

  /** An uplift no larger than wanted and bounded, within every ceiling, and paid by inputs that are there. */
  predicate MayUplift(t: BuildTerms, m: Money, wanted: nat, x: int) {
    && 0 <= x <= wanted && x <= t.upliftBound
    && (t.rates.cap.Some? ==> m.fee + x <= CapCeiling(t, m.size).value) && m.fee + x <= Ceiling(t, m.size)
    && m.outputSatoshis + m.fee + x <= m.inputs
  }

  /** The uplift granted is the largest one every bound allows, and nothing when they allow nothing. */
  lemma UpliftIsTheLargestAllowed(t: BuildTerms, m: Money, wanted: nat, x: int)
    requires MayUplift(t, m, wanted, x)
    ensures x <= AllowedAncestorUplift(t, m, wanted) && MayUplift(t, m, wanted, AllowedAncestorUplift(t, m, wanted))
  {
  }

  /** With the granted uplift the ancestors' package reaches its rate and no more, or a bound, a ceiling or the inputs ran out. */
  lemma GrantReachesTheRate(t: BuildTerms, m: Money, p: Package)
    requires t.rates.rate > 0 && t.upliftBound > 0 && m.size > 0 && p.size > 0 && p.fee >= 0
    ensures var x := GrantedUplift(t, m, Some(p));
            var paid := p.fee + m.fee + x;
            && (1000 * paid >= (p.size + m.size) * t.rates.rate || !MayUplift(t, m, x + 1, x + 1))
            && (x > 0 ==> 1000 * (paid - 1) < (p.size + m.size) * t.rates.rate)
  {
    UpliftReachesTarget(m.fee, m.size, p, t.rates.rate);
    var wanted := PackageUplift(m.fee, m.size, p, t.rates.rate);
    hide PackageUplift; hide Ceiling; hide CapCeiling;
  }

  /** The fee finally charged: the selected one with the uplift granted, at least dust and the surcharge. */
  function ChargedFee(t: BuildTerms, m: Money, p: Option<Package>): int {
    Max(m.fee + GrantedUplift(t, m, p), t.chain.dust + m.surcharge)
  }

  /** With the prefund, the pair's package reaches its rate and no more, or a bound or the change ran out. */
  lemma PrefundReachesTheRate(t: BuildTerms, m: Money)
    requires m.prefund.Some? && t.rates.rate > 0 && t.upliftBound > 0 && m.prefund.value.revealSize > 0
    requires m.fee >= 0 && m.size > 0 && m.ancestors.size >= 0 && m.ancestors.fee >= 0
    requires m.inputs - m.outputSatoshis - m.fee >= 0
    ensures var p := m.prefund.value;
            var paid := m.fee + m.ancestors.fee + p.revealFee + PrefundAmount(t, m);
            && (|| 1000 * paid >= (m.size + m.ancestors.size + p.revealSize) * t.rates.rate
                || PrefundAmount(t, m) == t.upliftBound || PrefundAmount(t, m) == m.inputs - m.outputSatoshis - m.fee)
            && (PrefundAmount(t, m) > 0 ==> 1000 * (paid - 1) < (m.size + m.ancestors.size + p.revealSize) * t.rates.rate)
  {
    var p := m.prefund.value;
    UpliftReachesTarget(p.revealFee, p.revealSize, Package(m.size + m.ancestors.size, m.fee + m.ancestors.fee), t.rates.rate);
  }

  lemma UpliftWithinCeiling(t: BuildTerms, m: Money, p: Option<Package>)
    requires BuildTermsOk(t) && SelectedFee(t, m) && UnderBackstop(t, m)
    ensures var u := Uplifted(t, m, p);
            && m.fee <= u.fee <= Max(m.fee, Ceiling(t, m.size)) <= Ceiling(t, m.size) + m.surcharge
            && u == m.(fee := u.fee, ancestors := u.ancestors)
  {
    RatePricedFeeIsFair(m.size, t.rates);
  }

  lemma RaisedKeepsBooks(m: Money, amount: nat, dust: nat)
    requires BooksOk(m, dust) && m.prefund.Some?
    ensures BooksOk(Raised(m, amount), dust) && Sum(Raised(m, amount).outputs) == Sum(m.outputs) + amount
  {
    SumUpdate(m.outputs, m.prefund.value.outputIndex, m.outputs[m.prefund.value.outputIndex] + amount);
  }

  /** The prefund keeps the books and never spends change that is not there. */
  lemma PrefundNeverOverspends(t: BuildTerms, m: Money)
    requires BooksOk(m, t.chain.dust)
    ensures var q := Prefunded(t, m);
            && BooksOk(q, t.chain.dust) && q.fee == m.fee && q.inputs == m.inputs && q.surcharge == m.surcharge && q.size == m.size
            && (q.inputs - q.outputSatoshis - q.fee >= 0 <==> m.inputs - m.outputSatoshis - m.fee >= 0)
            && q.outputSatoshis >= m.outputSatoshis && q.outputSatoshis - m.outputSatoshis <= t.upliftBound
  {
    if PrefundAmount(t, m) > 0 { RaisedKeepsBooks(m, PrefundAmount(t, m), t.chain.dust); }
  }

  /** What is left of the inputs over the outputs and the fee charged. */
  function LeftOver(t: BuildTerms, m: Money, p: Option<Package>): int
    requires PrefundOk(m)
  {
    m.inputs - Sum(OutputsRaised(m, RaisedBy(t, m, p))) - ChargedFee(t, m, p)
  }

  /**
   Where every unit goes. Of a settled build's inputs, what is left over the outputs and the
   fee charged is the change output, in full, when there is an address for it and it reaches
   the output floor. Otherwise there is none, the rest goes to the fee, and without an address
   it is at most dust.
   */
  predicate Accounted(t: BuildTerms, m: Money, p: Option<Package>, settled: Money) {
    PrefundOk(m) &&
    var left := LeftOver(t, m, p);
    var raised := OutputsRaised(m, RaisedBy(t, m, p));
    var kept := t.caller.change.Some? && left >= t.chain.outputFloor;
    && left >= 0 && (t.caller.change == None ==> left <= t.chain.dust)
    && settled.outputs == (if kept then raised + [left] else raised)
    && FeePaidBy(settled) == ChargedFee(t, m, p) + if kept then 0 else left
  }

  /** Settlement accounts for every unit. */
  lemma ChangeIsExact(t: BuildTerms, m: Money, p: Option<Package>)
    requires ChainOk(t.chain) && BooksOk(m, t.chain.dust)
    ensures var r := Settle(t, m, p); r.Ok? ==> Accounted(t, m, p, r.value)
  {
    PricedFacts(t, m, p);
    hide Priced; hide Fee; hide Sum; hide BooksOk; hide OutputsRaised; hide RaisedBy; hide ChargedFee;
    if Settle(t, m, p).Ok? { ChangeOfPriced(t, Priced(t, m, p)); }
  }

  lemma PricedFacts(t: BuildTerms, m: Money, p: Option<Package>)
    requires BooksOk(m, t.chain.dust)
    ensures var q := Priced(t, m, p);
            && Balanced(q) && q.inputs == m.inputs && q.fee == ChargedFee(t, m, p) && q.outputs == OutputsRaised(m, RaisedBy(t, m, p))
  {
    UpliftedFrame(t, m, p);
    ChargedIsFloored(t, m, p);
    PrefundNeverOverspends(t, Floored(t, Uplifted(t, m, p)));
    PricedOutputs(t, Floored(t, Uplifted(t, m, p)));
    hide Uplifted; hide ChargedFee; hide Fee; hide Sum; hide PrefundAmount; hide Prefunded; hide EnvelopeOk;
  }

  lemma ChangeOfPriced(t: BuildTerms, q: Money)
    requires ChainOk(t.chain) && Balanced(q) && ChangeOf(t, q).Ok?
    ensures var left := q.inputs - Sum(q.outputs) - q.fee;
            var m := WithChange(t, q, ChangeOf(t, q).value);
            var kept := t.caller.change.Some? && left >= t.chain.outputFloor;
            && left >= 0 && (t.caller.change == None ==> left <= t.chain.dust)
            && m.outputs == (if kept then q.outputs + [left] else q.outputs)
            && FeePaidBy(m) == q.fee + if kept then 0 else left
  {
    SumAppend(q.outputs, q.inputs - Sum(q.outputs) - q.fee);
  }

  lemma ChargedIsFloored(t: BuildTerms, m: Money, p: Option<Package>)
    ensures Floored(t, Uplifted(t, m, p)).fee == ChargedFee(t, m, p)
  {
    hide PackageUplift; hide AllowedAncestorUplift;
  }

  lemma PricedOutputs(t: BuildTerms, m: Money)
    requires PrefundOk(m)
    ensures Prefunded(t, m).outputs == OutputsRaised(m, PrefundAmount(t, m))
  {
    hide PackageUplift;
    assert OutputsRaised(m, 0) == m.outputs;
  }

  lemma SumRaised(t: BuildTerms, m: Money, p: Option<Package>)
    requires PrefundOk(m)
    ensures Sum(OutputsRaised(m, RaisedBy(t, m, p))) == Sum(m.outputs) + if m.prefund.Some? then RaisedBy(t, m, p) else 0
    ensures t.upliftBound == 0 ==> RaisedBy(t, m, p) == 0 && GrantedUplift(t, m, p) == 0
  {
    if m.prefund.Some? {
      SumUpdate(m.outputs, m.prefund.value.outputIndex, m.outputs[m.prefund.value.outputIndex] + RaisedBy(t, m, p));
    }
    hide Sum; hide PackageUplift; hide AllowedAncestorUplift;
  }

  /** A settled build with no more outputs than it emitted had less than the output floor left for change. */
  lemma NoChangeNoMore(t: BuildTerms, m: Money, p: Option<Package>, settled: Money)
    requires Accounted(t, m, p, settled) && t.caller.change.Some?
    ensures |settled.outputs| >= |m.outputs| && (|settled.outputs| == |m.outputs| ==> LeftOver(t, m, p) < t.chain.outputFloor)
  {
    hide LeftOver; hide RaisedBy; hide ChargedFee;
  }

  /** Where nothing is granted and no output is low, what is left is what the stop test counted on. */
  lemma NoUpliftLeavesIt(t: BuildTerms, m: Money, p: Option<Package>)
    requires BooksOk(m, t.chain.dust) && t.upliftBound == 0 && m.surcharge == 0
    ensures LeftOver(t, m, p) == m.inputs - m.outputSatoshis - Max(m.fee, t.chain.dust)
  {
    SumRaised(t, m, p);
    hide RaisedBy; hide GrantedUplift; hide Sum; hide OutputsRaised;
  }

  /** What the node's report of the inputs' ancestors is worth: nothing without a report, or one that makes no sense. */
  predicate Inherits(p: Option<Package>, a: Package) {
    if p.Some? && p.value.size > 0 && p.value.fee >= 0 then p == Some(a) else a == Package(0, 0)
  }

  /**
   The reveal's package. A settled commit with its reveal and the ancestors it inherits pays the
   rate on all their bytes and no more, or the bound was met or nothing is left for change.
   */
  lemma PairReachesTheRate(t: BuildTerms, m: Money, p: Option<Package>, a: Package)
    requires BooksOk(m, t.chain.dust) && t.rates.rate > 0 && t.upliftBound > 0 && m.prefund.Some? && m.prefund.value.revealSize > 0
    requires m.size > 0 && m.fee >= 0 && Inherits(p, a) && LeftOver(t, m, p) >= 0
    ensures var raised := RaisedBy(t, m, p);
            var paid := a.fee + ChargedFee(t, m, p) + m.prefund.value.revealFee + raised;
            var bytes := a.size + m.size + m.prefund.value.revealSize;
            && (1000 * paid >= bytes * t.rates.rate || raised == t.upliftBound || LeftOver(t, m, p) == 0)
            && (raised > 0 ==> 1000 * (paid - 1) < bytes * t.rates.rate)
  {
    var q := Floored(t, Uplifted(t, m, p));
    UpliftedFrame(t, m, p);
    ChargedIsFloored(t, m, p);
    assert q.ancestors == a by { hide PackageUplift; hide AllowedAncestorUplift; }
    SumUpdate(m.outputs, m.prefund.value.outputIndex, m.outputs[m.prefund.value.outputIndex] + RaisedBy(t, m, p));
    hide Uplifted; hide PackageUplift; hide Sum; hide Fee;
    assert q.inputs - q.outputSatoshis - q.fee == LeftOver(t, m, p) + RaisedBy(t, m, p);
    hide ChargedFee; hide LeftOver; hide Floored; hide OutputsRaised;
    PrefundReachesTheRate(t, q);
  }

  /** The money is there for what settlement charges. */
  lemma SettledLeavesNoHole(t: BuildTerms, m: Money, p: Option<Package>)
    requires ChainOk(t.chain) && BooksOk(m, t.chain.dust) && Settle(t, m, p).Ok?
    ensures LeftOver(t, m, p) >= 0
  {
    ChangeIsExact(t, m, p);
    hide Settle; hide LeftOver; hide BooksOk;
  }

  function FeePaidBy(m: Money): int {
    m.inputs - Sum(m.outputs)
  }

  /**
   The fee sandwich. Whatever the caller asked, the node said and the operator capped, a
   funding build that returns pays at least the relay minimum plus the soft-dust surcharge,
   and at most the burn ceiling plus that surcharge plus a change too small to emit.
   */
  lemma FeeSandwich(t: BuildTerms, m: Money, p: Option<Package>)
    requires BuildTermsOk(t) && BooksOk(m, t.chain.dust) && SelectedFee(t, m)
    ensures var r := Settle(t, m, p);
            r.Ok? ==> && Fee(m.size, t.rates.relay) + m.surcharge <= FeePaidBy(r.value)
                      && t.chain.dust + m.surcharge <= FeePaidBy(r.value)
                      && FeePaidBy(r.value) <= Max(t.chain.dust, Fee(m.size, t.rates.node) * BURN_BACKSTOP_MULTIPLIER)
                                               + m.surcharge + t.chain.outputFloor
  {
    if RelayOk(t, m) && UnderCap(t, m) && UnderBackstop(t, m) {
      UpliftWithinCeiling(t, m, p);
      var floored := Floored(t, Uplifted(t, m, p));
      PrefundNeverOverspends(t, floored);
      FinalFee(t, Priced(t, m, p));
      hide Uplifted; hide Prefunded; hide Fee; hide Sum; hide BooksOk;
    }
  }

  /** What pays for size: the caller's exact fee, or the rate's. */
  function SizeFee(t: BuildTerms, m: Money): nat {
    if t.caller.fee.Some? then t.caller.fee.value else Fee(m.size, t.rates.rate)
  }

  /**
   Every refusal of settlement, and when: a size fee under the relay minimum, where dust may
   help only a fee left to the node; an exact fee over the operator's cap or 100 times the fair
   one; inputs that do not cover outputs and charged fee; and more than dust left with no
   address for it.
   */
  lemma SettleRefusals(t: BuildTerms, m: Money, p: Option<Package>)
    requires BuildTermsOk(t) && BooksOk(m, t.chain.dust) && SelectedFee(t, m)
    ensures var r := Settle(t, m, p);
            var fee := SizeFee(t, m);
            var left := LeftOver(t, m, p);
            var low := Fee(m.size, t.rates.relay) > if t.caller.fee == None && !t.caller.namedRate then Max(fee, t.chain.dust) else fee;
            var overCap := t.caller.fee.Some? && t.rates.cap.Some? && fee > t.chain.dust && fee > Fee(m.size, t.rates.cap.value);
            var burns := t.caller.fee.Some? && fee > t.chain.dust && fee > Fee(m.size, t.rates.node) * 100;
            && (r == Err(BelowRelayMinimum) <==> low)
            && (r == Err(AboveRateCap) <==> !low && overCap)
            && (r == Err(AboveBackstop) <==> !low && !overCap && burns)
            && (r == Err(InsufficientFunds) <==> !low && !overCap && !burns && left < 0)
            && (r == Err(ChangeAddressRequired) <==> !low && !overCap && !burns && left > t.chain.dust && t.caller.change == None)
            && (r.Ok? <==> !low && !overCap && !burns && left >= 0 && (t.caller.change == None ==> left <= t.chain.dust))
  {
    PricedFacts(t, m, p);
    hide Priced; hide Fee; hide Sum; hide BooksOk; hide OutputsRaised; hide RaisedBy; hide ChargedFee;
  }

  /** The fee a priced build ends up paying: its own, and a change too small to emit. */
  lemma FinalFee(t: BuildTerms, q: Money)
    requires ChainOk(t.chain) && Balanced(q)
    ensures var change := ChangeOf(t, q);
            change.Ok? ==> q.fee <= FeePaidBy(WithChange(t, q, change.value)) <= q.fee + t.chain.outputFloor
  {
    SumAppend(q.outputs, q.inputs - q.outputSatoshis - q.fee);
  }

  /** A settled build's envelope still agrees with its commit output, so the reveal built from it conserves value. */
  lemma SettledEnvelope(t: BuildTerms, m: Money, p: Option<Package>)
    requires BuildTermsOk(t) && BooksOk(m, t.chain.dust) && SelectedFee(t, m)
    ensures var r := Settle(t, m, p); r.Ok? ==> EnvelopeOk(r.value, t.chain.dust)
  {
    if RelayOk(t, m) && UnderCap(t, m) && UnderBackstop(t, m) {
      UpliftWithinCeiling(t, m, p);
      PrefundNeverOverspends(t, Floored(t, Uplifted(t, m, p)));
      hide Uplifted; hide Prefunded; hide Fee; hide Sum;
    }
  }

  // ---------- does stopping early leave enough? ----------

  /** The total the selection loop is willing to stop at. */
  predicate StopsAt(t: BuildTerms, m: Money) {
    m.inputs > m.outputSatoshis + Max(m.fee, t.chain.dust)
  }

  /** The fee finally charged is still covered. */
  predicate Covered(t: BuildTerms, m: Money, p: Option<Package>)
    requires PrefundOk(m)
  {
    var q := Priced(t, m, p);
    q.inputs - q.outputSatoshis - q.fee >= 0
  }

  predicate StopIsEnough(t: BuildTerms, m: Money, p: Option<Package>, total: int)
    requires PrefundOk(m)
  {
    StopsAt(t, m.(inputs := total)) ==> Covered(t, m.(inputs := total), p)
  }

  lemma CoveredWhen(t: BuildTerms, m: Money, p: Option<Package>)
    requires BuildTermsOk(t) && BooksOk(m, t.chain.dust) && StopsAt(t, m)
    ensures Covered(t, m, p) <==> m.inputs - m.outputSatoshis >= t.chain.dust + m.surcharge
  {
    var u := Uplifted(t, m, p);
    assert m.fee <= u.fee <= m.inputs - m.outputSatoshis && u == m.(fee := u.fee, ancestors := u.ancestors) by { hide Fee; }
    hide Uplifted;
    PrefundNeverOverspends(t, Floored(t, u));
  }

  /**
   Exactly when stopping early is safe: at every total the loop may stop at the final fee is
   covered just when the surcharge is at most one base unit or the size-based fee comes
   within one of the dust floor. The stop test compares with the larger of fee and dust,
   while the floor charged later is dust plus surcharge.
   */
  lemma StoppingIsEnoughIff(t: BuildTerms, m: Money, p: Option<Package>)
    requires BuildTermsOk(t) && BooksOk(m, t.chain.dust)
    ensures (forall total :: StopIsEnough(t, m, p, total)) <==> m.surcharge <= 1 || m.fee - m.surcharge + 1 >= t.chain.dust
  {
    hide Covered;
    if m.surcharge <= 1 || m.fee - m.surcharge + 1 >= t.chain.dust {
      forall total ensures StopIsEnough(t, m, p, total) {
        if StopsAt(t, m.(inputs := total)) { CoveredWhen(t, m.(inputs := total), p); }
      }
    } else {
      var total := m.outputSatoshis + Max(m.fee, t.chain.dust) + 1;
      CoveredWhen(t, m.(inputs := total), p);
      assert !StopIsEnough(t, m, p, total);
    }
  }

  /** So a build that meets the stop test with at most one base unit of surcharge is never refused for want of funds. */
  lemma EnoughIsNotRefused(t: BuildTerms, m: Money, p: Option<Package>)
    requires BuildTermsOk(t) && BooksOk(m, t.chain.dust) && m.surcharge <= 1 && StopsAt(t, m)
    ensures Settle(t, m, p) != Err(InsufficientFunds)
  {
    StoppingIsEnoughIff(t, m, p);
    assert m.(inputs := m.inputs) == m && StopIsEnough(t, m, p, m.inputs);
    hide Priced; hide StopsAt; hide RelayOk; hide UnderCap; hide UnderBackstop;
  }

  /**
   Dogecoin's own floors reach it: one payment under the soft limit, a fee rate at the relay
   floor, and the build is refused for want of funds though it stopped with candidates left.
   */
  lemma DogecoinStopsShort()
    ensures var chain := Chain(100000, 1000000, 1000000, 0, 0);
            var t := BuildTerms(chain, Caller(None, false, Some(25)), Rates(100000, 100000, 100000, None), 0);
            var m := Money(1250000, [200000], 200000, 276, Fee(276, 100000) + 1000000, 1000000, None, None, Package(0, 0));
            && BuildTermsOk(t) && BooksOk(m, chain.dust) && SelectedFee(t, m)
            && m.surcharge == SoftDustSurcharge(m.outputs, chain.softFloor)
            && StopsAt(t, m) && Settle(t, m, None) == Err(InsufficientFunds)
  {
    var outs: seq<int> := [200000];
    assert outs[..0] == [];
  }

  // ---------- the build, in place ----------

  /** A caller's payment and the length of its script; the protocol-fee output is priced by the hub and keeps only the positive rule. */
  datatype Payment = Payment(value: int, protocolFee: bool, script: nat)

  function Amounts(payments: seq<Payment>): (r: seq<int>)
    ensures |r| == |payments|
  {
    seq(|payments|, i requires 0 <= i < |payments| => payments[i].value)
  }

  predicate PaymentOk(p: Payment, dust: nat) {
    p.value > 0 && (p.protocolFee || p.value >= dust)
  }

  /** The most inputs one transaction may have. */
  const MAX_UTXO_COUNT: nat := 500

  /**
   A candidate input: its amount, the bytes it adds, the fewest bytes its signed scriptSig has,
   and whether another build holds its outpoint.
   */
  datatype Candidate = Candidate(value: nat, bytes: nat, scriptSig: nat, held: bool)

  /** The candidates the loop may take, in order: an exact set is claimed already, else the held ones are skipped. */
  function Available(candidates: seq<Candidate>, exactInputs: bool): seq<Candidate> {
    if candidates == [] then []
    else
      var n := |candidates| - 1;
      Available(candidates[..n], exactInputs) + if !exactInputs && candidates[n].held then [] else [candidates[n]]
  }

  lemma AvailableAppend(candidates: seq<Candidate>, c: Candidate, exactInputs: bool)
    ensures Available(candidates + [c], exactInputs)
            == Available(candidates, exactInputs) + if !exactInputs && c.held then [] else [c]
  {
    assert (candidates + [c])[..|candidates|] == candidates;
  }

  /** A build may take what nobody else holds, as often as it is listed; an exact set is taken whole. */
  lemma {:induction false} AvailableMeans(candidates: seq<Candidate>, exactInputs: bool, c: Candidate)
    ensures multiset(Available(candidates, exactInputs))[c] == if c.held && !exactInputs then 0 else multiset(candidates)[c]
  {
    if candidates != [] {
      var n := |candidates| - 1;
      AvailableMeans(candidates[..n], exactInputs, c);
      assert candidates == candidates[..n] + [candidates[n]];
    }
  }

  lemma {:induction false} AvailableSplit(candidates: seq<Candidate>, i: nat, exactInputs: bool)
    requires i <= |candidates|
    ensures Available(candidates, exactInputs) == Available(candidates[..i], exactInputs) + Available(candidates[i..], exactInputs)
  {
    var n := |candidates| - 1;
    if i > n {
      assert candidates[..i] == candidates && candidates[i..] == [];
    } else {
      assert candidates[..n][..i] == candidates[..i];
      assert candidates[i..] == candidates[..n][i..] + [candidates[n]];
      AvailableAppend(candidates[..n][i..], candidates[n], exactInputs);
      AvailableSplit(candidates[..n], i, exactInputs);
    }
  }

  /** The bytes some candidates add, as each is estimated. */
  function TotalBytes(candidates: seq<Candidate>): nat {
    if candidates == [] then 0 else TotalBytes(candidates[..|candidates| - 1]) + candidates[|candidates| - 1].bytes
  }

  function Worth(candidates: seq<Candidate>): nat {
    if candidates == [] then 0 else Worth(candidates[..|candidates| - 1]) + candidates[|candidates| - 1].value
  }

  lemma NextAvailable(candidates: seq<Candidate>, next: nat, i: nat, exactInputs: bool)
    requires next <= i < |candidates|
    ensures var before, upTo := Available(candidates[next..i], exactInputs), Available(candidates[next..i + 1], exactInputs);
            if !exactInputs && candidates[i].held then upTo == before
            else upTo == before + [candidates[i]] && Worth(upTo) == Worth(before) + candidates[i].value
    ensures Worth(Available(candidates[next..i + 1], exactInputs)) <= Worth(Available(candidates[next..], exactInputs))
    ensures Available(candidates[next..i + 1], exactInputs) != [] ==> Available(candidates[next..], exactInputs) != []
  {
    assert candidates[next..i + 1] == candidates[next..i] + [candidates[i]];
    AvailableAppend(candidates[next..i], candidates[i], exactInputs);
    AvailableSplit(candidates[next..], i + 1 - next, exactInputs);
    assert candidates[next..][..i + 1 - next] == candidates[next..i + 1];
    WorthOfMore(Available(candidates[next..i + 1], exactInputs), Available(candidates[next..][i + 1 - next..], exactInputs));
  }

  lemma {:induction false} WorthOfMore(a: seq<Candidate>, b: seq<Candidate>)
    ensures Worth(a) <= Worth(a + b)
  {
    if b == [] {
      assert a + b == a;
    } else {
      var n := |b| - 1;
      assert (a + b)[..|a + b| - 1] == a + b[..n];
      WorthOfMore(a, b[..n]);
    }
  }

  /** Where the candidate at `i` stands among the available ones. */
  lemma AvailableAt(candidates: seq<Candidate>, i: nat, exactInputs: bool)
    requires i < |candidates|
    ensures var all, before := Available(candidates, exactInputs), Available(candidates[..i], exactInputs);
            var upTo := Available(candidates[..i + 1], exactInputs);
            && |before| <= |all| && all[|before|..] == Available(candidates[i..], exactInputs)
            && |before| <= |Available(candidates[..|candidates| - 1], exactInputs)|
            && (if !exactInputs && candidates[i].held then upTo == before
                else |upTo| == |before| + 1 <= |all| && all[|before|] == candidates[i])
  {
    hide Available;
    AvailableSplit(candidates, i, exactInputs);
    AvailableSplit(candidates, i + 1, exactInputs);
    assert candidates[..i + 1] == candidates[..i] + [candidates[i]];
    AvailableAppend(candidates[..i], candidates[i], exactInputs);
    var short := candidates[..|candidates| - 1];
    AvailableSplit(short, i, exactInputs);
    assert short[..i] == candidates[..i];
  }

  lemma {:induction false} ExactIsAll(candidates: seq<Candidate>)
    ensures Available(candidates, true) == candidates
  {
    if candidates != [] { ExactIsAll(candidates[..|candidates| - 1]); }
  }

  /** Over the node's floor on the stripped size, with the change output there would be; `scripts` are the emitted outputs'. */
  predicate ClearsFloor(t: BuildTerms, scripts: seq<nat>, inputs: nat, sigBytes: nat, change: int) {
    t.chain.nodeFloor == 0 || t.caller.change == None
    || StrippedTxSize(inputs, scripts) + (if change >= t.chain.outputFloor then OutputBytes(t.caller.change.value) else 0) + sigBytes
       >= t.chain.nodeFloor
  }

  /** The money as selection starts. */
  function Opened(t: BuildTerms, m: Money): Money {
    m.(size := m.size + 43 + (if |m.outputs| + 1 > 252 then 2 else 0),
       fee := if t.caller.fee.Some? then t.caller.fee.value + m.surcharge else 0)
  }

  predicate EnvelopePadNeeded(chain: Chain, changeBytes: nat) {
    chain.strippedFloor != 0 && 51 + changeBytes < chain.strippedFloor
  }

  function EnvelopeSizeFor(chain: Chain, script: nat, changeBytes: nat): nat {
    EnvelopeRevealSize(script, changeBytes + if EnvelopePadNeeded(chain, changeBytes) then changeBytes else 0, chain.strippedFloor)
  }

  /** What a Taproot commit output is to hold: its reveal's fee, one dust of change and the pad. */
  function EnvelopeFor(t: BuildTerms, script: nat, changeBytes: nat, finalDust: nat): Envelope {
    var pad := EnvelopePadNeeded(t.chain, changeBytes);
    var fee := Max(Fee(EnvelopeSizeFor(t.chain, script, changeBytes), t.rates.rate), finalDust);
    Envelope(fee + t.chain.dust + if pad then t.chain.dust else 0, fee, pad)
  }

  /** A script-hash commit's terms on this build's chain, at the rate it charges. */
  function TermsOf(t: BuildTerms, carrier: Carrier, scripts: seq<nat>, customs: seq<CustomOutput>, finalDust: nat, padBytes: nat): Terms {
    Terms(carrier, scripts, customs, t.rates.rate, t.chain.dust, t.chain.outputFloor, t.chain.softFloor, finalDust,
          t.chain.strippedFloor, padBytes)
  }

  function SigBytes(candidates: seq<Candidate>, n: nat): nat
    requires n <= |candidates|
  {
    if n == 0 then 0 else SigBytes(candidates, n - 1) + candidates[n - 1].scriptSig
  }

  /** The money after the first `n` candidates. */
  function Selected(t: BuildTerms, candidates: seq<Candidate>, n: nat, start: Money): Money
    requires n <= |candidates|
  {
    if n == 0 then start
    else Added(t, Selected(t, candidates, n - 1, start), candidates[n - 1])
  }

  function Added(t: BuildTerms, m: Money, c: Candidate): Money {
    var size := m.size + c.bytes;
    m.(inputs := m.inputs + c.value, size := size,
       fee := if t.caller.fee.Some? then m.fee else Fee(size, t.rates.rate) + m.surcharge)
  }

  /** Enough money, and over the node's floor on the stripped size. */
  predicate MayStop(t: BuildTerms, candidates: seq<Candidate>, n: nat, start: Money, scripts: seq<nat>)
    requires n <= |candidates|
  {
    var m := Selected(t, candidates, n, start);
    StopsAt(t, m) && ClearsFloor(t, scripts, n, SigBytes(candidates, n), m.inputs - m.outputSatoshis - Max(m.fee, t.chain.dust))
  }

  /** Nothing sufficed within the most inputs allowed, and candidates were left to look at. */
  predicate Capped(t: BuildTerms, candidates: seq<Candidate>, exactInputs: bool, start: Money, scripts: seq<nat>) {
    && candidates != [] && |Available(candidates[..|candidates| - 1], exactInputs)| >= MAX_UTXO_COUNT
    && (exactInputs || forall k | 0 < k <= MAX_UTXO_COUNT && k <= |Available(candidates, exactInputs)| ::
                         !MayStop(t, Available(candidates, exactInputs), k, start, scripts))
  }

  /** Selection changes the inputs, the size and the fee; the first two are sums over what was taken. */
  lemma {:induction false} SelectedSums(t: BuildTerms, all: seq<Candidate>, n: nat, start: Money)
    requires n <= |all|
    ensures var m := Selected(t, all, n, start);
            && m.inputs == start.inputs + Worth(all[..n]) && m.size == start.size + TotalBytes(all[..n])
            && m == start.(inputs := m.inputs, size := m.size, fee := m.fee)
  {
    if n == 0 {
      assert all[..0] == [];
    } else {
      SelectedSums(t, all, n - 1, start);
      assert all[..n][..n - 1] == all[..n - 1];
    }
  }

  lemma SelectedNext(t: BuildTerms, all: seq<Candidate>, n: nat, start: Money, scripts: seq<nat>)
    requires n < |all|
    ensures Selected(t, all, n + 1, start) == Added(t, Selected(t, all, n, start), all[n])
    ensures SigBytes(all, n + 1) == SigBytes(all, n) + all[n].scriptSig
    ensures var m := Selected(t, all, n + 1, start);
            var target := Max(m.fee, t.chain.dust);
            MayStop(t, all, n + 1, start, scripts)
            <==> m.inputs > m.outputSatoshis + target
                 && ClearsFloor(t, scripts, n + 1, SigBytes(all, n + 1), m.inputs - m.outputSatoshis - target)
  {
    hide ClearsFloor;
  }

  /** The first `n` of `all` are selected: the fewest that suffice, or all of them. */
  ghost predicate SelectedInputs(t: BuildTerms, all: seq<Candidate>, exactInputs: bool, start: Money, scripts: seq<nat>, m: Money, n: nat) {
    && n <= |all| && n <= MAX_UTXO_COUNT && m == Selected(t, all, n, start) && (n > 0 ==> SelectedFee(t, m))
    && m.inputs == start.inputs + Worth(all[..n]) && m.size == start.size + TotalBytes(all[..n])
    && (!exactInputs ==> forall k | 0 < k < n :: !MayStop(t, all, k, start, scripts))
    && (n < |all| ==> n > 0 && !exactInputs && MayStop(t, all, n, start, scripts))
  }

  /** The most inputs are selected and do not suffice; the error says whether the others nobody holds would have helped. */
  ghost predicate RefusedAtCap(t: BuildTerms, all: seq<Candidate>, start: Money, m: Money, e: Refusal) {
    && |all| >= MAX_UTXO_COUNT && m == Selected(t, all, MAX_UTXO_COUNT, start)
    && var rest := all[MAX_UTXO_COUNT..];
       e == if rest != [] && m.inputs + Worth(rest) > m.outputSatoshis + Max(m.fee, t.chain.dust) then TooManyInputs
            else NoConfirmedInputs
  }

  /** The loop has looked at `i` candidates and taken `n`, never having had enough before. */
  ghost predicate LookedAt(t: BuildTerms, candidates: seq<Candidate>, exactInputs: bool, start: Money, scripts: seq<nat>, i: nat, n: nat) {
    var all := Available(candidates, exactInputs);
    && i <= |candidates| && n == |Available(candidates[..i], exactInputs)| <= MAX_UTXO_COUNT && n <= |all|
    && (i > 0 ==> |Available(candidates[..i - 1], exactInputs)| < MAX_UTXO_COUNT)
    && (!exactInputs ==> forall k | 0 < k <= n :: !MayStop(t, all, k, start, scripts))
  }

  lemma NothingLookedAt(t: BuildTerms, candidates: seq<Candidate>, exactInputs: bool, start: Money, scripts: seq<nat>)
    ensures LookedAt(t, candidates, exactInputs, start, scripts, 0, 0)
    ensures Selected(t, Available(candidates, exactInputs), 0, start) == start && SigBytes(Available(candidates, exactInputs), 0) == 0
  {
    hide MayStop;
    assert candidates[..0] == [];
  }

  /** One more candidate: it is passed over, or it is the next available one; at the cap selection ends. */
  lemma LookedAtNext(t: BuildTerms, candidates: seq<Candidate>, exactInputs: bool, start: Money, scripts: seq<nat>, i: nat, n: nat)
    requires i < |candidates| && LookedAt(t, candidates, exactInputs, start, scripts, i, n)
    ensures n <= MAX_UTXO_COUNT && n <= |Available(candidates, exactInputs)|
    ensures Available(candidates, exactInputs)[n..] == Available(candidates[i..], exactInputs)
    ensures n >= MAX_UTXO_COUNT ==> Capped(t, candidates, exactInputs, start, scripts)
    ensures n < MAX_UTXO_COUNT && !exactInputs && candidates[i].held ==> LookedAt(t, candidates, exactInputs, start, scripts, i + 1, n)
    ensures exactInputs || !candidates[i].held ==>
              n < |Available(candidates, exactInputs)| && Available(candidates, exactInputs)[n] == candidates[i]
    ensures n < MAX_UTXO_COUNT && (exactInputs || !candidates[i].held)
            && (exactInputs || !MayStop(t, Available(candidates, exactInputs), n + 1, start, scripts)) ==>
              LookedAt(t, candidates, exactInputs, start, scripts, i + 1, n + 1)
  {
    hide MayStop; hide Available;
    AvailableAt(candidates, i, exactInputs);
  }

  lemma StoppedHere(t: BuildTerms, candidates: seq<Candidate>, start: Money, scripts: seq<nat>, i: nat, n: nat)
    requires 0 < n <= |Available(candidates, false)| && LookedAt(t, candidates, false, start, scripts, i, n - 1)
    requires n <= MAX_UTXO_COUNT && MayStop(t, Available(candidates, false), n, start, scripts)
    ensures !Capped(t, candidates, false, start, scripts)
    ensures var all := Available(candidates, false);
            var m := Selected(t, all, n, start);
            SelectedFee(t, m) ==> SelectedInputs(t, all, false, start, scripts, m, n)
  {
    SelectedSums(t, Available(candidates, false), n, start);
    hide MayStop; hide Available; hide Selected; hide SelectedFee;
  }

  lemma LookedAtAll(t: BuildTerms, candidates: seq<Candidate>, exactInputs: bool, start: Money, scripts: seq<nat>, n: nat)
    requires LookedAt(t, candidates, exactInputs, start, scripts, |candidates|, n)
    ensures n <= MAX_UTXO_COUNT && n == |Available(candidates, exactInputs)| && !Capped(t, candidates, exactInputs, start, scripts)
    ensures exactInputs ==> n == |candidates|
    ensures var all := Available(candidates, exactInputs);
            var m := Selected(t, all, n, start);
            (n > 0 ==> SelectedFee(t, m)) ==> SelectedInputs(t, all, exactInputs, start, scripts, m, n)
  {
    assert candidates[..|candidates|] == candidates;
    SelectedSums(t, Available(candidates, exactInputs), n, start);
    hide MayStop; hide Selected; hide SelectedFee;
    if exactInputs { ExactIsAll(candidates); }
    hide Available;
  }

  class FundingBuild {
    const t: BuildTerms
    var inputSatoshis: int
    var outputs: seq<int>
    var outputSatoshis: int
    var estimatedTxSize: nat
    var estimatedFee: int
    var softDustSurcharge: nat
    var revealPrefund: Option<Prefund>
    var envelopeContext: Option<Envelope>
    var commitAncestors: Package
    var changeSatoshis: int

    ghost function State(): Money
      reads this
    {
      Money(inputSatoshis, outputs, outputSatoshis, estimatedTxSize, estimatedFee, softDustSurcharge, revealPrefund, envelopeContext,
            commitAncestors)
    }

    ghost predicate Books()
      reads this
    {
      BooksOk(State(), t.chain.dust)
    }

    constructor (t: BuildTerms)
      ensures this.t == t && State() == Money(0, [], 0, 10, 0, 0, None, None, Package(0, 0))
    {
      this.t := t;
      inputSatoshis, outputs, outputSatoshis, estimatedTxSize, estimatedFee := 0, [], 0, 10, 0;
      softDustSurcharge, revealPrefund, envelopeContext := 0, None, None;
      commitAncestors, changeSatoshis := Package(0, 0), 0;
    }

    method Snapshot() returns (m: Money)
      ensures m == State()
    {
      m := Money(inputSatoshis, outputs, outputSatoshis, estimatedTxSize, estimatedFee, softDustSurcharge, revealPrefund, envelopeContext,
                 commitAncestors);
    }

    // ---------- emission ----------

    /** Adds one output, as every emission step does. */
    method AddOutput(value: int)
      requires Books()
      modifies this`outputs, this`outputSatoshis
      ensures outputs == old(outputs) + [value] && outputSatoshis == old(outputSatoshis) + value && Books()
    {
      SumAppend(outputs, value);
      outputs := outputs + [value];
      outputSatoshis := outputSatoshis + value;
    }

    method EmitOpReturn(bytes: nat)
      requires Books()
      modifies this`outputs, this`outputSatoshis, this`estimatedTxSize
      ensures Books() && outputs == old(outputs) + [0] && estimatedTxSize == old(estimatedTxSize) + OpReturnOutput(bytes)
    {
      AddOutput(0);
      estimatedTxSize := estimatedTxSize + OpReturnOutput(bytes);
    }

    /** A data output that costs the larger of the build's dust and the bare-multisig relay dust. */
    method EmitMultisign(finalDust: nat, bareMultisigDust: nat)
      requires Books()
      modifies this`outputs, this`outputSatoshis, this`estimatedTxSize
      ensures Books() && outputs == old(outputs) + [Max(finalDust, bareMultisigDust)] && estimatedTxSize == old(estimatedTxSize) + 114
    {
      AddOutput(Max(finalDust, bareMultisigDust));
      estimatedTxSize := estimatedTxSize + 114;
    }

    /** The one output a Taproot envelope commits to, holding its reveal's fee and change. */
    method EmitEnvelopeCommit(script: nat, changeBytes: nat, finalDust: nat)
      requires Books() && revealPrefund == None && envelopeContext == None
      modifies this`outputs, this`outputSatoshis, this`estimatedTxSize, this`revealPrefund, this`envelopeContext
      ensures Books() && estimatedTxSize == old(estimatedTxSize) + 43
      ensures var e := EnvelopeFor(t, script, changeBytes, finalDust);
              && outputs == old(outputs) + [e.commitValue] && envelopeContext == Some(e)
              && revealPrefund == Some(Prefund(|old(outputs)|, EnvelopeSizeFor(t.chain, script, changeBytes), e.revealFee))
    {
      var pad := t.chain.strippedFloor != 0 && 51 + changeBytes < t.chain.strippedFloor;
      var size := EnvelopeRevealSize(script, changeBytes + if pad then changeBytes else 0, t.chain.strippedFloor);
      var revealFee: int := Fee(size, t.rates.rate);
      if revealFee < finalDust { revealFee := finalDust; }
      var commitValue := revealFee + t.chain.dust + if pad then t.chain.dust else 0;
      var index := |outputs|;
      AddOutput(commitValue);
      revealPrefund := Some(Prefund(index, size, revealFee));
      estimatedTxSize := estimatedTxSize + 43;
      envelopeContext := Some(Envelope(commitValue, revealFee, pad));
    }

    /** The funding legs of a script-hash carrier, priced on this build's own chain and rate. */
    method EmitScriptHashLegs(carrier: Carrier, scripts: seq<nat>, customs: seq<CustomOutput>, finalDust: nat, padBytes: nat)
      requires Books() && outputs == [] && outputSatoshis == 0 && envelopeContext == None && scripts != []
      modifies this`outputs, this`outputSatoshis, this`estimatedTxSize, this`revealPrefund
      ensures var terms := TermsOf(t, carrier, scripts, customs, finalDust, padBytes);
              && Books() && outputs == LegValues(terms) && revealPrefund == PrefundFor(terms)
              && estimatedTxSize == old(estimatedTxSize) + |scripts| * OutputBytes(LegScript(carrier))
    {
      var commit := new CommitBuild(TermsOf(t, carrier, scripts, customs, finalDust, padBytes));
      commit.PriceRevealCustomOutputs();
      commit.EmitLegs();
      LegCount(commit.t);
      outputs, outputSatoshis, revealPrefund := commit.outputs, commit.outputSatoshis, commit.revealPrefund;
      estimatedTxSize := estimatedTxSize + |scripts| * if carrier == P2sh then 32 else 43;
    }

    /** The caller's payments, then the surcharge the whole output list brings. */
    method EmitCustomOutputs(payments: seq<Payment>) returns (r: Result<(), Refusal>)
      requires Books()
      modifies this`outputs, this`outputSatoshis, this`estimatedTxSize, this`softDustSurcharge
      ensures Books()
      ensures r.Ok? <==> forall i | 0 <= i < |payments| :: PaymentOk(payments[i], t.chain.dust)
      ensures r.Err? ==> r.error == BadOutput
      ensures r.Ok? ==> outputs == old(outputs) + Amounts(payments) && estimatedTxSize == old(estimatedTxSize) + 43 * |payments|
      ensures r.Ok? ==> softDustSurcharge == SoftDustSurcharge(outputs, t.chain.softFloor)
    {
      hide BooksOk;
      ghost var amounts := Amounts(payments);
      for i := 0 to |payments|
        invariant Books() && outputs == old(outputs) + amounts[..i]
        invariant estimatedTxSize == old(estimatedTxSize) + 43 * i
        invariant forall j | 0 <= j < i :: PaymentOk(payments[j], t.chain.dust)
      {
        assert amounts[..i + 1] == amounts[..i] + [payments[i].value];
        if payments[i].value <= 0 { return Err(BadOutput); }
        if !payments[i].protocolFee && payments[i].value < t.chain.dust { return Err(BadOutput); }
        AddOutput(payments[i].value);
        estimatedTxSize := estimatedTxSize + 43;
        assert Books() by { BooksFrameSize(State(), estimatedTxSize - 43, t.chain.dust); }
      }
      assert amounts[..|payments|] == amounts;
      ghost var m := State();
      softDustSurcharge := SoftDustSurchargeFor(outputs, t.chain.softFloor);
      assert Books() by { BooksFrameSurcharge(m, softDustSurcharge, t.chain.dust); }
      return Ok(());
    }

    // ---------- selection ----------

    /** A worst-case change output, a wide output count past 252, and the caller's exact fee where there is one. */
    method InitSelection()
      modifies this`estimatedTxSize, this`estimatedFee
      ensures State() == Opened(t, old(State()))
    {
      estimatedTxSize := estimatedTxSize + 43;
      if |outputs| + 1 > 252 { estimatedTxSize := estimatedTxSize + 2; }
      estimatedFee := 0;
      if t.caller.fee.Some? { estimatedFee := t.caller.fee.value + softDustSurcharge; }
    }

    method AddSelectedInput(c: Candidate)
      requires t.caller.fee.Some? ==> estimatedFee == t.caller.fee.value + softDustSurcharge
      modifies this`inputSatoshis, this`estimatedTxSize, this`estimatedFee
      ensures State() == Added(t, old(State()), c) && SelectedFee(t, State())
    {
      estimatedTxSize := estimatedTxSize + c.bytes;
      inputSatoshis := inputSatoshis + c.value;
      if t.caller.fee == None { estimatedFee := Fee(estimatedTxSize, t.rates.rate) + softDustSurcharge; }
    }

    /** Adds one input; true when what is selected then suffices. */
    method TakeNext(c: Candidate, n: nat, sigBytes: nat, scripts: seq<nat>, exactInputs: bool, ghost all: seq<Candidate>, ghost start: Money)
      returns (stop: bool)
      requires n < |all| && all[n] == c && State() == Selected(t, all, n, start) && sigBytes == SigBytes(all, n)
      requires t.caller.fee.Some? ==> estimatedFee == t.caller.fee.value + softDustSurcharge
      modifies this`inputSatoshis, this`estimatedTxSize, this`estimatedFee
      ensures State() == Selected(t, all, n + 1, start) && sigBytes + c.scriptSig == SigBytes(all, n + 1)
      ensures SelectedFee(t, State())
      ensures t.caller.fee.Some? ==> estimatedFee == t.caller.fee.value + softDustSurcharge
      ensures stop <==> !exactInputs && MayStop(t, all, n + 1, start, scripts)
    {
      SelectedNext(t, all, n, start, scripts);
      hide Selected; hide SigBytes; hide MayStop; hide ClearsFloor;
      AddSelectedInput(c);
      var target := Max(estimatedFee, t.chain.dust);
      stop := !exactInputs && inputSatoshis > outputSatoshis + target
              && ClearsFloor(t, scripts, n + 1, sigBytes + c.scriptSig, inputSatoshis - outputSatoshis - target);
    }

    /** Whether the candidates nobody else holds, from `next` on, would cover the rest. */
    method RemainingCandidatesCanFund(candidates: seq<Candidate>, next: nat, exactInputs: bool) returns (r: bool)
      requires next <= |candidates|
      ensures r <==> var rest := Available(candidates[next..], exactInputs);
                     rest != [] && inputSatoshis + Worth(rest) > outputSatoshis + Max(estimatedFee, t.chain.dust)
    {
      var required := outputSatoshis + Max(estimatedFee, t.chain.dust);
      var available := inputSatoshis;
      var i := next;
      while i < |candidates|
        invariant next <= i <= |candidates|
        invariant available == inputSatoshis + Worth(Available(candidates[next..i], exactInputs))
        invariant Available(candidates[next..i], exactInputs) != [] ==> available <= required
      {
        NextAvailable(candidates, next, i, exactInputs);
        if exactInputs || !candidates[i].held {
          available := available + candidates[i].value;
          if available > required { return true; }
        }
        i := i + 1;
      }
      assert candidates[next..i] == candidates[next..];
      return false;
    }

    /**
     Adds candidates in order until they cover outputs plus fee, or, for an exact set, until
     all are spent; held ones are passed over. It stops at the first total that suffices.
     At the most inputs allowed it refuses, and says whether more inputs would have done.
     */
    method SelectInputs(candidates: seq<Candidate>, exactInputs: bool, scripts: seq<nat>) returns (r: Result<nat, Refusal>)
      requires t.caller.fee.Some? ==> estimatedFee == t.caller.fee.value + softDustSurcharge
      modifies this`inputSatoshis, this`estimatedTxSize, this`estimatedFee
      ensures r.Err? <==> Capped(t, candidates, exactInputs, old(State()), scripts)
      ensures r.Err? ==> RefusedAtCap(t, Available(candidates, exactInputs), old(State()), State(), r.error)
      ensures r.Ok? ==> SelectedInputs(t, Available(candidates, exactInputs), exactInputs, old(State()), scripts, State(), r.value)
      ensures r.Ok? && exactInputs ==> r.value == |candidates|
    {
      ghost var start := State();
      ghost var all := Available(candidates, exactInputs);
      var n, sigBytes, i := 0, 0, 0;
      NothingLookedAt(t, candidates, exactInputs, start, scripts);
      hide Available; hide Selected; hide SigBytes; hide MayStop; hide Capped; hide Worth; hide SelectedFee; hide LookedAt;
      hide SelectedInputs;
      while i < |candidates|
        invariant i <= |candidates| && n <= |all| && LookedAt(t, candidates, exactInputs, start, scripts, i, n)
        invariant State() == Selected(t, all, n, start) && sigBytes == SigBytes(all, n)
        invariant t.caller.fee.Some? ==> estimatedFee == t.caller.fee.value + softDustSurcharge
        invariant n > 0 ==> SelectedFee(t, State())
      {
        LookedAtNext(t, candidates, exactInputs, start, scripts, i, n);
        if n >= MAX_UTXO_COUNT {
          var fundable := RemainingCandidatesCanFund(candidates, i, exactInputs);
          return Err(if fundable then TooManyInputs else NoConfirmedInputs);
        }
        if exactInputs || !candidates[i].held {
          var stop := TakeNext(candidates[i], n, sigBytes, scripts, exactInputs, all, start);
          n, sigBytes := n + 1, sigBytes + candidates[i].scriptSig;
          if stop {
            StoppedHere(t, candidates, start, scripts, i, n);
            return Ok(n);
          }
        }
        i := i + 1;
      }
      LookedAtAll(t, candidates, exactInputs, start, scripts, n);
      return Ok(n);
    }

    // ---------- settlement ----------

    method RefuseInsufficientRelayFee() returns (ok: bool)
      ensures ok == RelayOk(t, State())
    {
      var rateFee := estimatedFee - softDustSurcharge;
      var isNodePath := t.caller.fee == None && !t.caller.namedRate;
      var suppliedFee := if isNodePath then Max(rateFee, t.chain.dust) else rateFee;
      ok := suppliedFee >= Fee(estimatedTxSize, t.rates.relay);
    }

    method RefuseExcessiveFee() returns (r: Result<(), Refusal>)
      ensures r == if !UnderCap(t, State()) then Err(AboveRateCap) else if !UnderBackstop(t, State()) then Err(AboveBackstop) else Ok(())
    {
      var fee := estimatedFee - softDustSurcharge;
      if t.caller.fee.Some? && t.rates.cap.Some? {
        var maxFee := Max(t.chain.dust, Fee(estimatedTxSize, t.rates.cap.value));
        if fee > maxFee { return Err(AboveRateCap); }
      }
      if t.caller.fee.Some? {
        var fairFee := Fee(estimatedTxSize, t.rates.node);
        if fee > Max(t.chain.dust, fairFee * BURN_BACKSTOP_MULTIPLIER) { return Err(AboveBackstop); }
      }
      return Ok(());
    }

    method AncestorUplift(wanted: nat) returns (allowed: int)
      ensures allowed == AllowedAncestorUplift(t, State(), wanted)
    {
      allowed := Min(wanted, t.upliftBound);
      if t.rates.cap.Some? {
        allowed := Min(allowed, Max(t.chain.dust, Fee(estimatedTxSize, t.rates.cap.value)) - estimatedFee);
      }
      var fairFee := Fee(estimatedTxSize, t.rates.node);
      allowed := Min(allowed, Max(t.chain.dust, fairFee * BURN_BACKSTOP_MULTIPLIER) - estimatedFee);
      var headroom := inputSatoshis - outputSatoshis - estimatedFee;
      if headroom <= 0 { allowed := 0; } else if allowed > 0 && headroom < allowed { allowed := headroom; }
      if allowed < 0 { allowed := 0; }
    }

    method UpliftForAncestors(p: Option<Package>)
      modifies this`estimatedFee, this`commitAncestors
      ensures State() == Uplifted(t, old(State()), p)
    {
      commitAncestors := Package(0, 0);
      if t.rates.rate > 0 && t.upliftBound > 0 && p.Some? {
        if p.value.size > 0 && p.value.fee >= 0 { commitAncestors := p.value; }
        var wanted := PackageUplift(estimatedFee, estimatedTxSize, p.value, t.rates.rate);
        if wanted > 0 {
          var allowed := AncestorUplift(wanted);
          estimatedFee := estimatedFee + allowed;
        }
      }
    }

    method FloorEstimatedFee()
      modifies this`estimatedFee
      ensures State() == Floored(t, old(State()))
    {
      var floor := t.chain.dust + softDustSurcharge;
      if estimatedFee < floor { estimatedFee := floor; }
    }

    /** Raises an output already emitted, where it stands. */
    method RaiseOutputValue(index: nat, delta: nat)
      requires index < |outputs|
      modifies this`outputs
      ensures outputs == old(outputs)[index := old(outputs)[index] + delta]
    {
      outputs := outputs[index := outputs[index] + delta];
    }

    method PrefundRevealPackage()
      requires Books()
      modifies this`outputs, this`outputSatoshis, this`revealPrefund, this`envelopeContext
      ensures State() == Prefunded(t, old(State())) && Books()
    {
      PrefundNeverOverspends(t, State());
      if revealPrefund.Some? && t.rates.rate > 0 && t.upliftBound > 0 {
        var p := revealPrefund.value;
        var inherited := Package(estimatedTxSize + commitAncestors.size, estimatedFee + commitAncestors.fee);
        var wanted := PackageUplift(p.revealFee, p.revealSize, inherited, t.rates.rate);
        if wanted > 0 {
          var allowed := Min(wanted, t.upliftBound);
          var headroom := inputSatoshis - outputSatoshis - estimatedFee;
          if headroom <= 0 { allowed := 0; } else if headroom < allowed { allowed := headroom; }
          if allowed > 0 {
            RaiseOutputValue(p.outputIndex, allowed);
            outputSatoshis := outputSatoshis + allowed;
            revealPrefund := Some(p.(revealFee := p.revealFee + allowed));
            if envelopeContext.Some? {
              var e := envelopeContext.value;
              envelopeContext := Some(e.(commitValue := e.commitValue + allowed, revealFee := e.revealFee + allowed));
            }
          }
        }
      }
    }

    method ComputeChange() returns (r: Result<(), Refusal>)
      modifies this`changeSatoshis
      ensures ChangeOf(t, old(State())) == if r.Ok? then Ok(changeSatoshis) else Err(r.error)
    {
      var change := inputSatoshis - outputSatoshis - estimatedFee;
      if change < 0 { return Err(InsufficientFunds); }
      if change > t.chain.dust && t.caller.change == None { return Err(ChangeAddressRequired); }
      changeSatoshis := change;
      return Ok(());
    }

    method EmitChange()
      modifies this`outputs
      ensures State() == WithChange(t, old(State()), changeSatoshis)
    {
      if changeSatoshis > 0 && t.caller.change.Some? {
        if changeSatoshis >= t.chain.outputFloor { outputs := outputs + [changeSatoshis]; }
      }
    }

    /** Everything after selection, with what the node reports of the inputs' ancestors. */
    method SettleFee(p: Option<Package>) returns (r: Result<(), Refusal>)
      requires Books() && SelectedFee(t, State()) && BuildTermsOk(t)
      modifies this
      ensures Settle(t, old(State()), p) == if r.Ok? then Ok(State()) else Err(r.error)
      ensures r.Ok? ==> EnvelopeOk(State(), t.chain.dust)
      ensures r.Ok? ==> Fee(old(estimatedTxSize), t.rates.relay) + old(softDustSurcharge) <= inputSatoshis - Sum(outputs)
    {
      ghost var m := State();
      FeeSandwich(t, m, p);
      SettledEnvelope(t, m, p);
      var relayOk := RefuseInsufficientRelayFee();
      if !relayOk { return Err(BelowRelayMinimum); }
      var refused := RefuseExcessiveFee();
      if refused.Err? { return refused; }
      UpliftWithinCeiling(t, m, p);
      hide Uplifted; hide BooksOk; hide Floored; hide WithChange; hide Prefunded;
      UpliftForAncestors(p);
      FloorEstimatedFee();
      assert Books() by { BooksFrame(t, m, p); }
      PrefundRevealPackage();
      var change := ComputeChange();
      if change.Err? { return change; }
      EmitChange();
      return Ok(());
    }
  }

  /** What settlement adds to the prefunded output. */
  function RaisedBy(t: BuildTerms, m: Money, p: Option<Package>): nat
    requires PrefundOk(m)
  {
    PrefundAmount(t, Floored(t, Uplifted(t, m, p)))
  }

  /** The outputs as emitted, the prefunded one raised. */
  function OutputsRaised(m: Money, amount: nat): seq<int>
    requires PrefundOk(m)
  {
    if m.prefund.Some? then m.outputs[m.prefund.value.outputIndex := m.outputs[m.prefund.value.outputIndex] + amount] else m.outputs
  }

  /** Settlement raises the prefunded output and appends change of at least one output floor; nothing else moves. */
  lemma SettledOutputs(t: BuildTerms, m: Money, p: Option<Package>)
    requires BooksOk(m, t.chain.dust)
    ensures var r := Settle(t, m, p);
            r.Ok? ==>
              var q := r.value;
              var raised := OutputsRaised(m, RaisedBy(t, m, p));
              && (q.outputs == raised || (q.outputs == raised + [q.outputs[|raised|]] && q.outputs[|raised|] >= t.chain.outputFloor
                                          && t.caller.change.Some?))
              && q.size == m.size && q.surcharge == m.surcharge && q.inputs == m.inputs
              && q.prefund == (if m.prefund.Some? then Some(m.prefund.value.(revealFee := m.prefund.value.revealFee + RaisedBy(t, m, p)))
                               else None)
              && q.envelope == (if m.envelope.Some? then Some(EnvelopeRaised(m.envelope.value, RaisedBy(t, m, p))) else None)
  {
    UpliftedFrame(t, m, p);
    hide Uplifted; hide Fee; hide PackageUplift;
    if m.prefund.Some? { assert m.outputs[m.prefund.value.outputIndex := m.outputs[m.prefund.value.outputIndex]] == m.outputs; }
  }

  lemma UpliftedFrame(t: BuildTerms, m: Money, p: Option<Package>)
    ensures var u := Uplifted(t, m, p); u == m.(fee := u.fee, ancestors := u.ancestors)
  {
    hide Fee; hide PackageUplift; hide AllowedAncestorUplift;
  }

  lemma BooksFrameSize(m: Money, size: nat, dust: nat)
    ensures BooksOk(m, dust) == BooksOk(m.(size := size), dust)
  {
  }

  lemma BooksFrameSurcharge(m: Money, surcharge: nat, dust: nat)
    ensures BooksOk(m, dust) == BooksOk(m.(surcharge := surcharge), dust)
  {
  }

  lemma BooksFrame(t: BuildTerms, m: Money, p: Option<Package>)
    requires BooksOk(m, t.chain.dust)
    ensures BooksOk(Floored(t, Uplifted(t, m, p)), t.chain.dust)
  {
  }
}
