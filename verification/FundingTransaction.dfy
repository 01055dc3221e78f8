/**
 A whole funding transaction, whatever carries its data: emission, selection and settlement
 in the encoder's order, and what the finished outputs are then worth to the reveal.
 */
module FundingTransaction {
  import opened Common
  import opened Fees
  import opened RevealSizes
  import opened TransactionSize
  import opened CommitReveal
  import opened Settlement

  /** The data as its carrier emits it. `customs` are the caller outputs a script-hash commit leaves to its reveal. */
  datatype Data =
    | Nothing
    | Nulldata(bytes: nat)
    | Multisig(slots: nat, bareDust: nat)
    | Legs(carrier: Carrier, scripts: seq<nat>, customs: seq<CustomOutput>, padBytes: nat)
    | Leaf(script: nat, changeBytes: nat)

  datatype Request = Request(
    data: Data,
    payments: seq<Payment>,
    finalDust: nat,
    candidates: seq<Candidate>,
    exactInputs: bool,
    ancestors: Option<Package>)

  predicate RequestOk(t: BuildTerms, q: Request) {
    && BuildTermsOk(t) && q.finalDust >= t.chain.outputFloor && t.chain.strippedFloor <= 1000
    && (q.data.Legs? ==> q.data.scripts != [] && q.data.padBytes > 0 && q.payments == [])
  }

  function LegTerms(t: BuildTerms, q: Request): Terms
    requires q.data.Legs?
  {
    TermsOf(t, q.data.carrier, q.data.scripts, q.data.customs, q.finalDust, q.data.padBytes)
  }

  function DataOutputs(t: BuildTerms, q: Request): seq<int>
    requires RequestOk(t, q)
  {
    match q.data
    case Nothing => []
    case Nulldata(_) => [0]
    case Multisig(slots, bareDust) => seq(slots, _ => Max(q.finalDust, bareDust))
    case Legs(_, _, _, _) => LegValues(LegTerms(t, q))
    case Leaf(script, changeBytes) => [EnvelopeFor(t, script, changeBytes, q.finalDust).commitValue]
  }

  /** The outputs before inputs are selected. */
  function Emitted(t: BuildTerms, q: Request): seq<int>
    requires RequestOk(t, q)
  {
    DataOutputs(t, q) + Amounts(q.payments)
  }

  /** The script of a bare 1-of-3 multisig over compressed keys. */
  const MULTISIG_SCRIPT: nat := 3 + 3 * 34

  /** The lengths of the scripts the data outputs pay to. */
  function DataScripts(data: Data): seq<nat> {
    match data
    case Nothing => []
    case Nulldata(bytes) => [OpReturnScript(bytes)]
    case Multisig(slots, _) => seq(slots, _ => MULTISIG_SCRIPT)
    case Legs(carrier, scripts, _, _) => seq(|scripts|, _ => LegScript(carrier))
    case Leaf(_, _) => [34]
  }

  function PaymentScripts(payments: seq<Payment>): (r: seq<nat>)
    ensures |r| == |payments|
  {
    seq(|payments|, i requires 0 <= i < |payments| => payments[i].script)
  }

  /** The scripts of the outputs emitted before inputs are selected. */
  function EmittedScripts(q: Request): seq<nat> {
    DataScripts(q.data) + PaymentScripts(q.payments)
  }

  /** The data outputs' bytes, as fees are priced on them. */
  function DataBytes(data: Data): nat {
    match data
    case Nothing => 0
    case Nulldata(bytes) => OpReturnOutput(bytes)
    case Multisig(slots, _) => 114 * slots
    case Legs(carrier, scripts, _, _) => |scripts| * OutputBytes(LegScript(carrier))
    case Leaf(_, _) => 43
  }

  lemma {:induction false} SameScripts(n: nat, script: nat)
    ensures OutputsBytes(seq(n, _ => script)) == n * OutputBytes(script)
  {
    if n > 0 {
      assert seq(n, _ => script)[..n - 1] == seq(n - 1, _ => script);
      SameScripts(n - 1, script);
      assert n * OutputBytes(script) == (n - 1) * OutputBytes(script) + OutputBytes(script);
    }
  }

  /** Fees are priced on exactly the bytes the data outputs serialise to. */
  lemma DataBytesAreExact(data: Data)
    ensures DataBytes(data) == OutputsBytes(DataScripts(data))
  {
    match data
    case Nothing =>
    case Nulldata(bytes) => SameScripts(1, OpReturnScript(bytes));
      assert DataScripts(data) == seq(1, _ => OpReturnScript(bytes));
    case Multisig(slots, _) => SameScripts(slots, MULTISIG_SCRIPT);
    case Legs(carrier, scripts, _, _) => SameScripts(|scripts|, LegScript(carrier));
    case Leaf(_, _) => SameScripts(1, 34);
      assert DataScripts(data) == seq(1, _ => 34);
  }

  function PrefundOf(t: BuildTerms, q: Request): Option<Prefund> {
    match q.data
    case Legs(_, _, _, _) => PrefundFor(LegTerms(t, q))
    case Leaf(script, changeBytes) =>
      Some(Prefund(0, EnvelopeSizeFor(t.chain, script, changeBytes), EnvelopeFor(t, script, changeBytes, q.finalDust).revealFee))
    case _ => None
  }

  function EnvelopeOf(t: BuildTerms, q: Request): Option<Envelope> {
    if q.data.Leaf? then Some(EnvelopeFor(t, q.data.script, q.data.changeBytes, q.finalDust)) else None
  }

  /** The money once everything but change is emitted. */
  function EmittedMoney(t: BuildTerms, q: Request): Money
    requires RequestOk(t, q)
  {
    var e := Emitted(t, q);
    Money(0, e, Sum(e), 10 + DataBytes(q.data) + 43 * |q.payments|, 0, SoftDustSurcharge(e, t.chain.softFloor),
          PrefundOf(t, q), EnvelopeOf(t, q), Package(0, 0))
  }

  lemma EmittedBooks(t: BuildTerms, q: Request)
    requires RequestOk(t, q)
    ensures BooksOk(EmittedMoney(t, q), t.chain.dust)
  {
    if q.data.Legs? { LegCount(LegTerms(t, q)); }
    hide SoftDustSurcharge; hide Sum; hide EnvelopeSizeFor; hide LegValues; hide RevealSize; hide RevealFeeNeeded;
  }

  const STARTED := Money(0, [], 0, 10, 0, 0, None, None, Package(0, 0))

  /** The money once the data is emitted. */
  ghost predicate DataEmitted(t: BuildTerms, q: Request, m: Money)
    requires RequestOk(t, q)
  {
    && BooksOk(m, t.chain.dust) && m.outputs == DataOutputs(t, q) && m.size == 10 + DataBytes(q.data)
    && m.prefund == PrefundOf(t, q) && m.envelope == EnvelopeOf(t, q)
    && m.inputs == m.fee == 0 && m.surcharge == 0 && m.ancestors == Package(0, 0)
  }

  method EmitData(build: FundingBuild, q: Request)
    requires RequestOk(build.t, q) && build.State() == STARTED
    modifies build
    ensures DataEmitted(build.t, q, build.State())
  {
    assert build.Books() && Sum([]) == 0;
    match q.data {
      case Nothing =>
      case Nulldata(bytes) => EmitNulldata(build, q);
      case Multisig(_, _) => EmitSlots(build, q);
      case Legs(_, _, _, _) => EmitLegs(build, q);
      case Leaf(_, _) => EmitLeaf(build, q);
    }
  }

  method EmitNulldata(build: FundingBuild, q: Request)
    requires RequestOk(build.t, q) && q.data.Nulldata? && build.State() == STARTED && build.Books()
    modifies build
    ensures DataEmitted(build.t, q, build.State())
  {
    build.EmitOpReturn(q.data.bytes);
  }

  method EmitLegs(build: FundingBuild, q: Request)
    requires RequestOk(build.t, q) && q.data.Legs? && build.State() == STARTED && build.Books()
    modifies build
    ensures DataEmitted(build.t, q, build.State())
  {
    hide BooksOk; hide LegValues; hide PrefundFor;
    build.EmitScriptHashLegs(q.data.carrier, q.data.scripts, q.data.customs, q.finalDust, q.data.padBytes);
  }

  method EmitLeaf(build: FundingBuild, q: Request)
    requires RequestOk(build.t, q) && q.data.Leaf? && build.State() == STARTED && build.Books()
    modifies build
    ensures DataEmitted(build.t, q, build.State())
  {
    hide BooksOk; hide EnvelopeFor; hide EnvelopeSizeFor;
    build.EmitEnvelopeCommit(q.data.script, q.data.changeBytes, q.finalDust);
  }

  method EmitSlots(build: FundingBuild, q: Request)
    requires RequestOk(build.t, q) && q.data.Multisig? && build.State() == STARTED && build.Books()
    modifies build
    ensures DataEmitted(build.t, q, build.State())
  {
    hide BooksOk; hide BuildTermsOk;
    var bareDust := q.data.bareDust;
    for i := 0 to q.data.slots
      invariant build.Books() && build.outputs == seq(i, _ => Max(q.finalDust, bareDust))
      invariant build.State() == STARTED.(outputs := build.outputs, outputSatoshis := build.outputSatoshis, size := 10 + 114 * i)
    {
      build.EmitMultisign(q.finalDust, bareDust);
    }
  }

  /** A carrier whose first output holds a later reveal's money. */
  predicate TwoPhase(data: Data) {
    data.Legs? || data.Leaf?
  }

  /** What was emitted is still there, in place; only a commit's first output may have been raised, and change may follow. */
  predicate OutputsKept(t: BuildTerms, q: Request, outputs: seq<int>)
    requires RequestOk(t, q)
  {
    var e := Emitted(t, q);
    && |e| <= |outputs| <= |e| + 1 && (|outputs| > |e| ==> t.caller.change.Some? && outputs[|e|] >= t.chain.outputFloor)
    && if TwoPhase(q.data) && e != [] then outputs[0] >= e[0] && outputs[..|e|] == e[0 := outputs[0]] else outputs[..|e|] == e
  }

  /** The records selection leaves alone are those of emission. */
  predicate EmittedAs(t: BuildTerms, q: Request, m: Money)
    requires RequestOk(t, q)
  {
    m.outputs == Emitted(t, q) && m.prefund == PrefundOf(t, q) && m.envelope == EnvelopeOf(t, q)
  }

  lemma SettledKeeps(t: BuildTerms, q: Request, m: Money, p: Option<Package>)
    requires RequestOk(t, q) && BooksOk(m, t.chain.dust) && EmittedAs(t, q, m)
    ensures Settle(t, m, p).Ok? ==> OutputsKept(t, q, Settle(t, m, p).value.outputs)
  {
    SettledOutputs(t, m, p);
    assert m.prefund.Some? ==> TwoPhase(q.data) && m.prefund.value.outputIndex == 0;
    hide Settle; hide RaisedBy; hide Emitted; hide PrefundOf; hide EnvelopeOf;
    if Settle(t, m, p).Ok? {
      var e, r, outputs := Emitted(t, q), OutputsRaised(m, RaisedBy(t, m, p)), Settle(t, m, p).value.outputs;
      assert |r| == |e| && outputs[..|e|] == r;
      assert e != [] ==> outputs[0] == r[0];
    }
  }

  /**
   The finished outputs: what carries data, with no value in a nulldata output and no less than
   the build's dust, and a bare multisig's, in any other; then every payment to the unit; then
   change, if any, of at least the output floor.
   */
  predicate PaysEverything(t: BuildTerms, q: Request, outputs: seq<int>) {
    var d := |DataScripts(q.data)|;
    && d + |q.payments| <= |outputs| <= d + |q.payments| + 1
    && (forall i | 0 <= i < d :: if q.data.Nulldata? then outputs[i] == 0 else outputs[i] >= q.finalDust)
    && (q.data.Multisig? ==> forall i | 0 <= i < d :: outputs[i] >= q.data.bareDust)
    && (forall i | 0 <= i < |q.payments| :: outputs[d + i] == q.payments[i].value)
    && (|outputs| > d + |q.payments| ==> outputs[d + |q.payments|] >= t.chain.outputFloor)
  }

  /** Each data output as it is emitted. */
  lemma DataOutputsReachDust(t: BuildTerms, q: Request)
    requires RequestOk(t, q)
    ensures var d := DataOutputs(t, q);
            && |d| == |DataScripts(q.data)|
            && (forall i | 0 <= i < |d| :: if q.data.Nulldata? then d[i] == 0 else d[i] >= q.finalDust)
            && (q.data.Multisig? ==> forall i | 0 <= i < |d| :: d[i] >= q.data.bareDust)
  {
    hide LegSize; hide RevealSize; hide Fee; hide EnvelopeRevealSize;
    if q.data.Legs? {
      LegCount(LegTerms(t, q));
      SumOfNaturals(q.data.customs);
      hide NeedsPad; hide RevealFeeNeeded; hide Sum;
    }
  }

  lemma KeptPays(t: BuildTerms, q: Request, outputs: seq<int>)
    requires RequestOk(t, q) && OutputsKept(t, q, outputs)
    ensures PaysEverything(t, q, outputs)
  {
    DataOutputsReachDust(t, q);
    var d, e := DataOutputs(t, q), Emitted(t, q);
    hide DataOutputs; hide DataScripts; hide RequestOk;
    forall i | 0 <= i < |e| ensures outputs[i] >= e[i] && (i > 0 || !TwoPhase(q.data) ==> outputs[i] == e[i]) {
      assert outputs[..|e|][i] == outputs[i];
    }
  }

  /** A settled script-hash commit's legs fund any reveal of it at the same or a lower rate, prefund and change included. */
  lemma SettledCommitFundsReveal(t: BuildTerms, q: Request, outputs: seq<int>, later: Reveal)
    requires RequestOk(t, q) && q.data.Legs? && OutputsKept(t, q, outputs)
    requires later.t == LegTerms(t, q) && later.rate <= t.rates.rate && later.fee == None
    requires later.legs == Sum(outputs[..|Emitted(t, q)|])
    ensures |Emitted(t, q)| == |q.data.scripts| && RevealFunded(later)
  {
    var e := Emitted(t, q);
    var n := |e|;
    LegCount(LegTerms(t, q));
    assert e == LegValues(LegTerms(t, q));
    hide LegValues; hide RevealFunded; hide Emitted; hide Sum;
    SumUpdate(e, 0, outputs[0]);
    CommitFundsReveal(later);
  }

  /** A settled Taproot commit output is spent exactly by its reveal, whose fee is at least the one it was sized with. */
  ghost predicate EnvelopeFunded(t: BuildTerms, q: Request, m: Money)
    requires q.data.Leaf?
  {
    && m.envelope.Some? && m.outputs != []
    && var e := m.envelope.value;
       && m.outputs[0] == Sum(EnvelopeRevealOutputs(e, t.chain.dust)) + e.revealFee
       && EnvelopeRevealOutputs(e, t.chain.dust)[0] == t.chain.dust
       && e.revealFee >= Max(Fee(EnvelopeSizeFor(t.chain, q.data.script, q.data.changeBytes), t.rates.rate), q.finalDust)
       && EnvelopePays(t, q.data, e.revealFee)
  }

  /** The Taproot reveal as it is finished: the change output, and another for the pad where there is one. */
  function EnvelopeReveal(t: BuildTerms, data: Data, signature: nat, change: nat): Tx
    requires data.Leaf?
  {
    EnvelopeTx(data.script, signature, [change] + if EnvelopePadNeeded(t.chain, data.changeBytes) then [change] else [])
  }

  /** `fee` reaches the rate on the virtual size the reveal really has, however it is signed. */
  ghost predicate EnvelopePays(t: BuildTerms, data: Data, fee: int)
    requires data.Leaf?
  {
    forall signature: nat, change: nat | signature <= SCHNORR && OutputBytes(change) == data.changeBytes ::
      fee >= Fee(VirtualSize(EnvelopeReveal(t, data, signature, change)), t.rates.rate)
  }

  lemma EnvelopeFeeCovers(t: BuildTerms, data: Data, signature: nat, change: nat)
    requires data.Leaf? && signature <= SCHNORR && OutputBytes(change) == data.changeBytes
    ensures Fee(VirtualSize(EnvelopeReveal(t, data, signature, change)), t.rates.rate)
            <= Fee(EnvelopeSizeFor(t.chain, data.script, data.changeBytes), t.rates.rate)
  {
    var one := [change];
    assert one[..0] == [] && (one + one)[..1] == one && OutputsBytes(one) == OutputBytes(change);
    var outs := one + if EnvelopePadNeeded(t.chain, data.changeBytes) then one else [];
    assert OutputsBytes(outs) == data.changeBytes + if EnvelopePadNeeded(t.chain, data.changeBytes) then data.changeBytes else 0 by {
      OutputsBytesAppend(one, change);
      assert one + [] == one;
    }
    hide VirtualSize; hide EnvelopeRevealSize; hide OutputsBytes; hide OutputBytes; hide EnvelopeTx;
    EnvelopeIsCovered(data.script, signature, outs, t.chain.strippedFloor);
    FeeMonotone(VirtualSize(EnvelopeReveal(t, data, signature, change)), EnvelopeSizeFor(t.chain, data.script, data.changeBytes),
                t.rates.rate, t.rates.rate);
  }

  /**
   Nor is that fee more than for two bytes over what the reveal has when it is over the floor;
   and the pad rides exactly when the change alone would leave the reveal under the floor.
   */
  lemma EnvelopeIsTight(t: BuildTerms, data: Data, change: nat, finalDust: nat)
    requires data.Leaf? && OutputBytes(change) == data.changeBytes
    ensures EnvelopePadNeeded(t.chain, data.changeBytes)
            <==> StrippedBytes(EnvelopeTx(data.script, SCHNORR, [change])) < t.chain.strippedFloor
    ensures var tx := EnvelopeReveal(t, data, SCHNORR, change);
            StrippedBytes(tx) >= t.chain.strippedFloor ==>
              EnvelopeFor(t, data.script, data.changeBytes, finalDust).revealFee
              <= Max(Fee(VirtualSize(tx) + 2, t.rates.rate), finalDust)
  {
    var one := [change];
    assert one[..0] == [] && (one + one)[..1] == one && OutputsBytes(one) == OutputBytes(change);
    var outs := one + if EnvelopePadNeeded(t.chain, data.changeBytes) then one else [];
    OutputsBytesAppend(one, change);
    assert one + [] == one;
    OneInput(TxIn(0, [SCHNORR, data.script, 33]));
    EnvelopeIsCovered(data.script, SCHNORR, outs, t.chain.strippedFloor);
    hide OutputsBytes; hide OutputBytes; hide AllInputs; hide AllWitnesses; hide ItemsBytes; hide HasWitness; hide EnvelopeRevealSize;
    hide Weight; hide Fee;
    var tx := EnvelopeReveal(t, data, SCHNORR, change);
    if StrippedBytes(tx) >= t.chain.strippedFloor {
      FeeMonotone(EnvelopeSizeFor(t.chain, data.script, data.changeBytes), VirtualSize(tx) + 2, t.rates.rate, t.rates.rate);
    }
  }

  /** A fee no less than the priced one covers the reveal however it is signed. */
  lemma EnvelopePaysItsSize(t: BuildTerms, data: Data, fee: int)
    requires data.Leaf? && fee >= Fee(EnvelopeSizeFor(t.chain, data.script, data.changeBytes), t.rates.rate)
    ensures EnvelopePays(t, data, fee)
  {
    hide VirtualSize; hide EnvelopeReveal; hide OutputBytes; hide EnvelopeSizeFor; hide Fee;
    forall signature: nat, change: nat | signature <= SCHNORR && OutputBytes(change) == data.changeBytes
      ensures fee >= Fee(VirtualSize(EnvelopeReveal(t, data, signature, change)), t.rates.rate)
    {
      EnvelopeFeeCovers(t, data, signature, change);
    }
  }

  lemma SettledEnvelopeIsFunded(t: BuildTerms, q: Request, m: Money, p: Option<Package>)
    requires RequestOk(t, q) && BooksOk(m, t.chain.dust) && SelectedFee(t, m) && q.data.Leaf? && EmittedAs(t, q, m)
    ensures Settle(t, m, p).Ok? ==> EnvelopeFunded(t, q, Settle(t, m, p).value)
  {
    SettledOutputs(t, m, p);
    SettledEnvelope(t, m, p);
    hide Settle; hide BooksOk; hide SelectedFee; hide Fee; hide EnvelopeSizeFor; hide RaisedBy; hide Emitted; hide EnvelopePays;
    if Settle(t, m, p).Ok? {
      EnvelopeRevealConserves(Settle(t, m, p).value, t.chain.dust);
      EnvelopePaysItsSize(t, q.data, Settle(t, m, p).value.envelope.value.revealFee);
    }
  }

  /** The finished transaction: its money, how many inputs it spends, and the fewest stripped bytes it will have. */
  datatype Finished = Finished(money: Money, inputs: nat, strippedSize: nat)

  /** At least the relay minimum and one dust, at most the burn ceiling and a change too small to emit; the surcharge on top. */
  predicate FeeIsFair(t: BuildTerms, size: nat, m: Money) {
    && Max(Fee(size, t.rates.relay), t.chain.dust) + m.surcharge <= FeePaidBy(m)
    && FeePaidBy(m) <= Max(t.chain.dust, Fee(size, t.rates.node) * BURN_BACKSTOP_MULTIPLIER) + m.surcharge + t.chain.outputFloor
  }

  /** The legs that a reveal of this commit has to spend. */
  predicate SpendsLegs(t: BuildTerms, q: Request, outputs: seq<int>, r: Reveal)
    requires q.data.Legs?
  {
    && r.t == LegTerms(t, q) && r.rate <= t.rates.rate && r.fee == None
    && |q.data.scripts| <= |outputs| && r.legs == Sum(outputs[..|q.data.scripts|])
  }

  /** The candidates this build may take. */
  function Free(q: Request): seq<Candidate> {
    Available(q.candidates, q.exactInputs)
  }

  /**
   The bytes the fee is charged for: header, data outputs, the largest standard output for each
   payment and for change, a wide output count past 252, and the inputs spent.
   */
  function ChargedBytes(q: Request, n: nat): nat
    requires n <= |Free(q)|
  {
    10 + OutputsBytes(DataScripts(q.data)) + 43 * |q.payments| + 43 + (if |EmittedScripts(q)| + 1 > 252 then 2 else 0)
    + TotalBytes(Free(q)[..n])
  }

  /** The money after the first `n` candidates, on which settlement starts. */
  function SelectedMoney(t: BuildTerms, q: Request, n: nat): Money
    requires RequestOk(t, q) && n <= |Free(q)|
  {
    Selected(t, Free(q), n, Opened(t, EmittedMoney(t, q)))
  }

  /** Emitted and selected: what settlement starts from. */
  ghost predicate Ready(t: BuildTerms, q: Request, m: Money, n: nat)
    requires RequestOk(t, q)
  {
    && BooksOk(m, t.chain.dust) && n > 0
    && SelectedInputs(t, Free(q), q.exactInputs, Opened(t, EmittedMoney(t, q)), EmittedScripts(q), m, n)
  }

  /** Selection takes the first `n` free candidates. */
  ghost predicate Chosen(t: BuildTerms, q: Request, n: nat)
    requires RequestOk(t, q)
  {
    var start := Opened(t, EmittedMoney(t, q));
    && 0 < n <= |Free(q)| && !Capped(t, q.candidates, q.exactInputs, start, EmittedScripts(q))
    && SelectedInputs(t, Free(q), q.exactInputs, start, EmittedScripts(q), SelectedMoney(t, q, n), n)
  }

  lemma ChosenIsReady(t: BuildTerms, q: Request, n: nat)
    requires RequestOk(t, q) && Chosen(t, q, n)
    ensures Ready(t, q, SelectedMoney(t, q, n), n)
  {
    EmittedBooks(t, q);
    SelectedSums(t, Free(q), n, Opened(t, EmittedMoney(t, q)));
    BooksOfMoney(EmittedMoney(t, q), SelectedMoney(t, q, n), t.chain.dust);
    hide EmittedMoney; hide EmittedScripts; hide BooksOk; hide MayStop; hide Selected; hide Worth; hide SelectedFee; hide Capped;
  }

  /** There is one number it can take. */
  lemma OneChoice(t: BuildTerms, q: Request, n: nat, k: nat)
    requires RequestOk(t, q) && Chosen(t, q, n) && Chosen(t, q, k)
    ensures n == k
  {
    hide MayStop; hide Capped; hide SelectedMoney; hide EmittedMoney; hide EmittedScripts; hide Free; hide Selected; hide SelectedFee;
    hide Worth; hide TotalBytes;
  }

  lemma ReadyFacts(t: BuildTerms, q: Request, m: Money, n: nat)
    requires RequestOk(t, q) && Ready(t, q, m, n)
    ensures SelectedFee(t, m) && EmittedAs(t, q, m) && m.surcharge == SoftDustSurcharge(Emitted(t, q), t.chain.softFloor)
    ensures n <= |Free(q)| && n <= MAX_UTXO_COUNT && m == SelectedMoney(t, q, n)
    ensures m.inputs == Worth(Free(q)[..n]) && m.size == ChargedBytes(q, n)
  {
    SelectedSums(t, Free(q), n, Opened(t, EmittedMoney(t, q)));
    DataBytesAreExact(q.data);
    ScriptPerOutput(t, q);
    hide Emitted; hide PrefundOf; hide EnvelopeOf; hide Free; hide EmittedScripts; hide MayStop; hide SelectedFee; hide Selected;
    hide DataBytes; hide OutputsBytes; hide TotalBytes; hide Worth;
  }

  lemma ScriptPerOutput(t: BuildTerms, q: Request)
    requires RequestOk(t, q)
    ensures |EmittedScripts(q)| == |Emitted(t, q)|
  {
    if q.data.Legs? { LegCount(LegTerms(t, q)); }
  }

  method Emit(build: FundingBuild, q: Request) returns (r: Result<(), Refusal>)
    requires RequestOk(build.t, q) && build.State() == STARTED
    modifies build
    ensures r.Ok? <==> forall i | 0 <= i < |q.payments| :: PaymentOk(q.payments[i], build.t.chain.dust)
    ensures r.Err? ==> r.error == BadOutput
    ensures r.Ok? ==> build.State() == EmittedMoney(build.t, q)
  {
    hide DataOutputs; hide PaymentOk; hide SoftDustSurcharge; hide Amounts; hide RequestOk; hide PrefundOf; hide EnvelopeOf;
    hide DataBytes; hide Sum;
    EmitData(build, q);
    r := build.EmitCustomOutputs(q.payments);
  }

  method Fund(build: FundingBuild, q: Request) returns (r: Result<nat, Refusal>)
    requires RequestOk(build.t, q) && build.State() == EmittedMoney(build.t, q)
    modifies build
    ensures r.Ok? ==> Ready(build.t, q, build.State(), r.value) && Chosen(build.t, q, r.value)
    ensures r.Err? ==> forall n :: !Chosen(build.t, q, n)
    ensures r.Err? ==> r.error == TooManyInputs || r.error == NoConfirmedInputs || r.error == InsufficientFunds
    ensures r == Err(InsufficientFunds) ==> Free(q) == []
  {
    ghost var t := build.t;
    build.InitSelection();
    ghost var start := build.State();
    var n := build.SelectInputs(q.candidates, q.exactInputs, EmittedScripts(q));
    if n.Err? { return n; }
    if n.value == 0 {
      assert Free(q) == [];
      return Err(InsufficientFunds);
    }
    EmittedBooks(t, q);
    SelectedSums(t, Free(q), n.value, start);
    BooksOfMoney(EmittedMoney(t, q), build.State(), t.chain.dust);
    hide EmittedMoney; hide EmittedScripts; hide BooksOk; hide MayStop; hide Selected; hide Worth; hide SelectedFee;
    return n;
  }

  /** The books are about the outputs and their records alone. */
  lemma BooksOfMoney(a: Money, b: Money, dust: nat)
    requires BooksOk(a, dust) && b == a.(inputs := b.inputs, size := b.size, fee := b.fee)
    ensures BooksOk(b, dust)
  {
  }

  lemma ReadySettles(t: BuildTerms, q: Request, m: Money, n: nat)
    requires RequestOk(t, q) && Ready(t, q, m, n)
    ensures SelectedFee(t, m) && BooksOk(m, t.chain.dust)
    ensures n <= |Free(q)| && n <= MAX_UTXO_COUNT && m == SelectedMoney(t, q, n)
    ensures var r := Settle(t, m, q.ancestors);
            r.Ok? ==> FeeIsFair(t, ChargedBytes(q, n), r.value) && OutputsKept(t, q, r.value.outputs)
                      && r.value.size == ChargedBytes(q, n) && Accounted(t, m, q.ancestors, r.value)
                      && r.value.surcharge == SoftDustSurcharge(Emitted(t, q), t.chain.softFloor)
                      && r.value.inputs == Worth(Free(q)[..n])
                      && (q.data.Leaf? ==> EnvelopeFunded(t, q, r.value))
  {
    ReadyFacts(t, q, m, n);
    FeeSandwich(t, m, q.ancestors);
    SettledOutputs(t, m, q.ancestors);
    SettledKeeps(t, q, m, q.ancestors);
    ChangeIsExact(t, m, q.ancestors);
    if q.data.Leaf? { SettledEnvelopeIsFunded(t, q, m, q.ancestors); }
    hide Settle; hide OutputsKept; hide EnvelopeFunded; hide SelectedFee; hide EmittedAs; hide Emitted; hide Fee; hide Sum;
    hide RaisedBy; hide OutputsRaised; hide Free; hide SelectedInputs; hide Worth; hide EmittedMoney; hide Accounted; hide ChargedBytes;
    hide SelectedMoney;
  }

  /** The bytes of the reveal a commit is for, and the fee it was first given. */
  function RevealBytes(t: BuildTerms, q: Request): nat
    requires TwoPhase(q.data)
  {
    match q.data
    case Legs(carrier, scripts, _, _) => RevealSize(carrier, scripts, WORST_CHANGE_BYTES, t.chain.strippedFloor)
    case Leaf(script, changeBytes) => EnvelopeSizeFor(t.chain, script, changeBytes)
  }

  function FirstRevealFee(t: BuildTerms, q: Request): nat
    requires TwoPhase(q.data)
  {
    Max(Fee(RevealBytes(t, q), t.rates.rate), if q.data.Leaf? then q.finalDust else t.chain.dust)
  }

  /**
   A two-phase build whose reveal is not padded gives the pair, with the ancestors it inherits,
   the build's rate on all their bytes and no more, unless the bound is met or no change is left.
   */
  lemma CommitAndRevealReachTheRate(t: BuildTerms, q: Request, n: nat, a: Package)
    requires RequestOk(t, q) && Chosen(t, q, n) && t.rates.rate > 0 && t.upliftBound > 0 && Inherits(q.ancestors, a)
    requires TwoPhase(q.data) && (q.data.Legs? ==> !NeedsPad(LegTerms(t, q)))
    ensures var m := SelectedMoney(t, q, n);
            PrefundOk(m) && (Settle(t, m, q.ancestors).Ok? ==>
              var raised := RaisedBy(t, m, q.ancestors);
              var paid := a.fee + ChargedFee(t, m, q.ancestors) + FirstRevealFee(t, q) + raised;
              var bytes := a.size + ChargedBytes(q, n) + RevealBytes(t, q);
              && (1000 * paid >= bytes * t.rates.rate || raised == t.upliftBound || LeftOver(t, m, q.ancestors) == 0)
              && (raised > 0 ==> 1000 * (paid - 1) < bytes * t.rates.rate))
  {
    var m := SelectedMoney(t, q, n);
    ChosenPair(t, q, n);
    hide Chosen; hide Settle; hide SelectedMoney; hide ChargedFee; hide RaisedBy; hide LeftOver; hide NeedsPad; hide ChargedBytes;
    hide BooksOk; hide RevealBytes; hide FirstRevealFee; hide RequestOk; hide Inherits; hide LegTerms;
    if Settle(t, m, q.ancestors).Ok? {
      SettledLeavesNoHole(t, m, q.ancestors);
      PairReachesTheRate(t, m, q.ancestors, a);
    }
  }

  /** What the pair is priced from. */
  lemma ChosenPair(t: BuildTerms, q: Request, n: nat)
    requires RequestOk(t, q) && Chosen(t, q, n) && TwoPhase(q.data) && (q.data.Legs? ==> !NeedsPad(LegTerms(t, q)))
    ensures var m := SelectedMoney(t, q, n);
            && BooksOk(m, t.chain.dust) && m.prefund == Some(Prefund(0, RevealBytes(t, q), FirstRevealFee(t, q))) && RevealBytes(t, q) > 0
            && m.size == ChargedBytes(q, n) > 0 && m.fee >= 0 && ChainOk(t.chain) && PrefundOk(m)
  {
    var m := SelectedMoney(t, q, n);
    ChosenIsReady(t, q, n);
    ReadyFacts(t, q, m, n);
    PrefundIsFirst(t, q);
    hide PrefundOf; hide RevealBytes; hide FirstRevealFee; hide Chosen; hide SelectedMoney; hide NeedsPad; hide SelectedInputs;
    hide EmittedMoney; hide Emitted; hide Sum; hide Worth; hide Free; hide LegTerms; hide OutputsBytes; hide TotalBytes; hide DataScripts;
  }

  lemma PrefundIsFirst(t: BuildTerms, q: Request)
    requires RequestOk(t, q) && TwoPhase(q.data) && (q.data.Legs? ==> !NeedsPad(LegTerms(t, q)))
    ensures PrefundOf(t, q) == Some(Prefund(0, RevealBytes(t, q), FirstRevealFee(t, q))) && RevealBytes(t, q) > 0
  {
    hide Fee;
  }

  /** Everything this build may take, taken together, does not pass the stop test. */
  predicate OutOfFunds(t: BuildTerms, q: Request)
    requires RequestOk(t, q)
  {
    Free(q) == [] || !StopsAt(t, Selected(t, Free(q), |Free(q)|, Opened(t, EmittedMoney(t, q))))
  }

  /** With at most one unit of surcharge, want of funds means that all candidates were taken and did not suffice. */
  lemma ShortMeansOutOfFunds(t: BuildTerms, q: Request, m: Money, n: nat)
    requires RequestOk(t, q) && Ready(t, q, m, n) && SoftDustSurcharge(Emitted(t, q), t.chain.softFloor) <= 1
    ensures Settle(t, m, q.ancestors) == Err(InsufficientFunds) ==> OutOfFunds(t, q)
  {
    ReadyFacts(t, q, m, n);
    if StopsAt(t, m) { EnoughIsNotRefused(t, m, q.ancestors); }
    hide Settle; hide Selected; hide EmittedMoney; hide Free; hide EmittedScripts; hide BooksOk; hide SelectedFee; hide ClearsFloor;
  }

  lemma LegsStayFunded(t: BuildTerms, q: Request, outputs: seq<int>)
    requires RequestOk(t, q) && q.data.Legs? && OutputsKept(t, q, outputs)
    ensures forall v: Reveal | SpendsLegs(t, q, outputs, v) :: RevealFunded(v)
  {
    forall v: Reveal | SpendsLegs(t, q, outputs, v) ensures RevealFunded(v) {
      LegCount(LegTerms(t, q));
      hide RevealFunded; hide LegValues;
      SettledCommitFundsReveal(t, q, outputs, v);
    }
  }

  /** The scripts of the finished outputs: those emitted, and change where there is some. */
  function FinalScripts(t: BuildTerms, q: Request, outputs: seq<int>): seq<nat> {
    EmittedScripts(q) + if |outputs| > |EmittedScripts(q)| && t.caller.change.Some? then [t.caller.change.value] else []
  }

  /** Every finished output has its script among them. */
  lemma ScriptsMatchOutputs(t: BuildTerms, q: Request, outputs: seq<int>)
    requires RequestOk(t, q) && OutputsKept(t, q, outputs)
    ensures |FinalScripts(t, q, outputs)| == |outputs|
  {
    ScriptPerOutput(t, q);
  }

  lemma KeptCount(t: BuildTerms, q: Request, outputs: seq<int>)
    requires RequestOk(t, q) && OutputsKept(t, q, outputs)
    ensures |outputs| <= |EmittedScripts(q)| + 1
  {
    ScriptPerOutput(t, q);
  }

  /** The stripped size a node will see, at the least. */
  function StrippedSize(t: BuildTerms, q: Request, outputs: seq<int>, n: nat): nat
    requires n <= |Free(q)|
  {
    StrippedTxSize(n, FinalScripts(t, q, outputs)) + SigBytes(Free(q), n)
  }

  lemma OneMoreOutput(inputs: nat, scripts: seq<nat>, last: nat)
    ensures StrippedTxSize(inputs, scripts + [last]) >= StrippedTxSize(inputs, scripts) + OutputBytes(last)
  {
    OutputsBytesAppend(scripts, last);
    hide OutputsBytes; hide OutputBytes;
  }

  /**
   Selection stops with candidates left only where the build will clear the node's floor on
   stripped size. If it is refused there all the same, selection counted on a change output
   that an uplift, a prefund or the surcharge then took.
   */
  lemma FloorIsSelectedFor(t: BuildTerms, q: Request, n: nat)
    requires RequestOk(t, q) && Chosen(t, q, n) && !q.exactInputs && n < |Free(q)| && t.caller.change.Some?
    ensures var m := SelectedMoney(t, q, n);
            PrefundOk(m) &&
            var settled := Settle(t, m, q.ancestors);
            settled.Ok? && StrippedSize(t, q, settled.value.outputs, n) < t.chain.nodeFloor ==>
              && |settled.value.outputs| == |EmittedScripts(q)|
              && m.inputs - Sum(Emitted(t, q)) - Max(m.fee, t.chain.dust) >= t.chain.outputFloor > LeftOver(t, m, q.ancestors)
              && (t.upliftBound > 0 || m.surcharge > 0)
  {
    var m := SelectedMoney(t, q, n);
    ChosenIsReady(t, q, n);
    ReadyFacts(t, q, m, n);
    StopClears(t, q, n);
    ScriptPerOutput(t, q);
    hide Chosen; hide ChargedBytes; hide SelectedMoney; hide EmittedScripts; hide Free; hide Worth; hide SelectedFee; hide SelectedInputs;
    hide ClearsFloor; hide StrippedSize; hide Settle; hide LeftOver; hide Emitted; hide RequestOk; hide EmittedMoney; hide Sum;
    if Settle(t, m, q.ancestors).Ok? { FloorMissedBy(t, q, n, m, Settle(t, m, q.ancestors).value); }
  }

  lemma FloorMissedBy(t: BuildTerms, q: Request, n: nat, m: Money, settled: Money)
    requires BuildTermsOk(t) && BooksOk(m, t.chain.dust) && n <= |Free(q)| && t.caller.change.Some?
    requires Settle(t, m, q.ancestors) == Ok(settled) && |m.outputs| == |EmittedScripts(q)|
    requires ClearsFloor(t, EmittedScripts(q), n, SigBytes(Free(q), n), m.inputs - m.outputSatoshis - Max(m.fee, t.chain.dust))
    ensures StrippedSize(t, q, settled.outputs, n) < t.chain.nodeFloor ==>
              && |settled.outputs| == |EmittedScripts(q)|
              && m.inputs - m.outputSatoshis - Max(m.fee, t.chain.dust) >= t.chain.outputFloor > LeftOver(t, m, q.ancestors)
              && (t.upliftBound > 0 || m.surcharge > 0)
  {
    ChangeIsExact(t, m, q.ancestors);
    hide ClearsFloor; hide StrippedSize; hide Settle; hide LeftOver; hide BooksOk; hide Free; hide EmittedScripts; hide Accounted;
    if StrippedSize(t, q, settled.outputs, n) < t.chain.nodeFloor {
      NoChangeNoMore(t, m, q.ancestors, settled);
      FloorMissed(t, q, n, settled.outputs, m.inputs - m.outputSatoshis - Max(m.fee, t.chain.dust));
      if t.upliftBound == 0 && m.surcharge == 0 { NoUpliftLeavesIt(t, m, q.ancestors); }
    }
  }

  lemma FloorMissed(t: BuildTerms, q: Request, n: nat, outputs: seq<int>, predicted: int)
    requires n <= |Free(q)| && t.caller.change.Some? && ClearsFloor(t, EmittedScripts(q), n, SigBytes(Free(q), n), predicted)
    requires |EmittedScripts(q)| <= |outputs| && StrippedSize(t, q, outputs, n) < t.chain.nodeFloor
    ensures |outputs| == |EmittedScripts(q)| && predicted >= t.chain.outputFloor
  {
    OneMoreOutput(n, EmittedScripts(q), t.caller.change.value);
    assert EmittedScripts(q) + [] == EmittedScripts(q);
    hide StrippedTxSize; hide OutputBytes; hide SigBytes; hide EmittedScripts; hide Free;
  }

  /** Where selection stopped early the stop test's floor holds. */
  lemma StopClears(t: BuildTerms, q: Request, n: nat)
    requires RequestOk(t, q) && Chosen(t, q, n) && !q.exactInputs && n < |Free(q)|
    ensures var m := SelectedMoney(t, q, n);
            ClearsFloor(t, EmittedScripts(q), n, SigBytes(Free(q), n), m.inputs - m.outputSatoshis - Max(m.fee, t.chain.dust))
  {
    hide ClearsFloor; hide Capped; hide Selected; hide Worth; hide TotalBytes; hide SelectedFee; hide EmittedMoney; hide Free;
    hide EmittedScripts; hide SigBytes;
  }

  // ---------- the size it really has ----------

  /** Payments and change go to standard scripts, none longer than a witness program. */
  predicate StandardScripts(t: BuildTerms, q: Request) {
    (forall i | 0 <= i < |q.payments| :: q.payments[i].script <= 34) && (t.caller.change.Some? ==> t.caller.change.value <= 34)
  }

  lemma {:induction false} StandardBytes(scripts: seq<nat>)
    requires forall i | 0 <= i < |scripts| :: scripts[i] <= 34
    ensures OutputsBytes(scripts) <= 43 * |scripts|
  {
    if scripts != [] { StandardBytes(scripts[..|scripts| - 1]); }
  }

  lemma {:induction false} OutputsBytesConcat(a: seq<nat>, b: seq<nat>)
    ensures OutputsBytes(a + b) == OutputsBytes(a) + OutputsBytes(b)
  {
    if b == [] {
      assert a + b == a;
    } else {
      var n := |b| - 1;
      assert a + b == (a + b[..n]) + [b[n]];
      OutputsBytesAppend(a + b[..n], b[n]);
      OutputsBytesConcat(a, b[..n]);
    }
  }

  /** The finished outputs take no more than was charged for them. */
  lemma OutputsAreCharged(t: BuildTerms, q: Request, outputs: seq<int>)
    requires StandardScripts(t, q)
    ensures OutputsBytes(FinalScripts(t, q, outputs)) <= OutputsBytes(DataScripts(q.data)) + 43 * |q.payments| + 43
    ensures |FinalScripts(t, q, outputs)| <= |EmittedScripts(q)| + 1
  {
    StandardBytes(PaymentScripts(q.payments));
    OutputsBytesConcat(DataScripts(q.data), PaymentScripts(q.payments));
    var change := if |outputs| > |EmittedScripts(q)| && t.caller.change.Some? then [t.caller.change.value] else [];
    StandardBytes(change);
    OutputsBytesConcat(EmittedScripts(q), change);
    hide OutputsBytes; hide DataScripts;
  }

  /** The inputs, as they are finished, weigh no more than the estimates of the candidates spent. */
  predicate InputsEstimated(q: Request, n: nat, ins: seq<TxIn>)
    requires n <= |Free(q)|
  {
    |ins| == n && InputsWeight(ins) <= 4 * TotalBytes(Free(q)[..n])
  }

  /** The finished transaction is never larger than what its fee was charged for. */
  lemma TransactionIsCharged(t: BuildTerms, q: Request, n: nat, ins: seq<TxIn>, outputs: seq<int>)
    requires n <= |Free(q)| && StandardScripts(t, q) && InputsEstimated(q, n, ins) && |outputs| <= 0xffff
    requires |EmittedScripts(q)| < 0xffff
    ensures VirtualSize(Tx(ins, FinalScripts(t, q, outputs))) <= ChargedBytes(q, n)
  {
    OutputsAreCharged(t, q, outputs);
    assert HasWitness(Tx(ins, FinalScripts(t, q, outputs))) == HasWitness(Tx(ins, []));
    hide OutputsBytes; hide FinalScripts; hide EmittedScripts; hide TotalBytes; hide HasWitness; hide AllInputs; hide AllWitnesses;
    hide DataScripts; hide Free;
  }

  /** So the fee reaches the node's relay rate on the transaction as it really is. */
  predicate RelaysAsFinished(t: BuildTerms, q: Request, m: Money, ins: seq<TxIn>) {
    Fee(VirtualSize(Tx(ins, FinalScripts(t, q, m.outputs))), t.rates.relay) + m.surcharge <= FeePaidBy(m)
  }

  lemma FinishedRelays(t: BuildTerms, q: Request, n: nat, m: Money)
    requires n <= |Free(q)| && FeeIsFair(t, ChargedBytes(q, n), m) && StandardScripts(t, q)
    requires |EmittedScripts(q)| < 0xffff && |m.outputs| <= 0xffff
    ensures forall ins | InputsEstimated(q, n, ins) :: RelaysAsFinished(t, q, m, ins)
  {
    forall ins | InputsEstimated(q, n, ins) ensures RelaysAsFinished(t, q, m, ins) {
      TransactionIsCharged(t, q, n, ins, m.outputs);
      hide VirtualSize; hide ChargedBytes; hide FinalScripts; hide InputsEstimated; hide StandardScripts; hide Free;
      FeeMonotone(VirtualSize(Tx(ins, FinalScripts(t, q, m.outputs))), ChargedBytes(q, n), t.rates.relay, t.rates.relay);
    }
  }

  // ---------- the whole build ----------

  /** The inputs are the first free candidates, and the size and the fee are theirs and the outputs'. */
  ghost predicate Paid(t: BuildTerms, q: Request, f: Finished)
    requires RequestOk(t, q)
  {
    && 0 < f.inputs <= |Free(q)| && f.inputs <= MAX_UTXO_COUNT && f.money.inputs == Worth(Free(q)[..f.inputs])
    && f.money.size == ChargedBytes(q, f.inputs) && f.money.surcharge == SoftDustSurcharge(Emitted(t, q), t.chain.softFloor)
    && FeeIsFair(t, ChargedBytes(q, f.inputs), f.money) && Accounted(t, SelectedMoney(t, q, f.inputs), q.ancestors, f.money)
  }

  /** The outputs are those emitted and change, and the node will relay them at the size they really have. */
  ghost predicate Relayable(t: BuildTerms, q: Request, f: Finished)
    requires RequestOk(t, q) && f.inputs <= |Free(q)|
  {
    && OutputsKept(t, q, f.money.outputs) && PaysEverything(t, q, f.money.outputs)
    && |FinalScripts(t, q, f.money.outputs)| == |f.money.outputs|
    && f.strippedSize == StrippedSize(t, q, f.money.outputs, f.inputs) >= t.chain.nodeFloor
    && (StandardScripts(t, q) && |EmittedScripts(q)| < 0xffff ==>
          forall ins | InputsEstimated(q, f.inputs, ins) :: RelaysAsFinished(t, q, f.money, ins))
  }

  /** Whatever it commits to a later reveal funds that reveal. */
  ghost predicate Funds(t: BuildTerms, q: Request, m: Money) {
    && (q.data.Legs? ==> forall v: Reveal | SpendsLegs(t, q, m.outputs, v) :: RevealFunded(v))
    && (q.data.Leaf? ==> EnvelopeFunded(t, q, m))
  }

  lemma SettledIsSound(t: BuildTerms, q: Request, m: Money, f: Finished)
    requires RequestOk(t, q) && Ready(t, q, m, f.inputs) && Settle(t, m, q.ancestors) == Ok(f.money)
    requires f.inputs <= |Free(q)| && f.strippedSize == StrippedSize(t, q, f.money.outputs, f.inputs) >= t.chain.nodeFloor
    ensures Paid(t, q, f) && Relayable(t, q, f) && Funds(t, q, f.money)
  {
    ReadySettles(t, q, m, f.inputs);
    assert f.inputs > 0;
    hide Ready; hide Settle; hide Paid; hide Relayable; hide Funds; hide FeeIsFair; hide OutputsKept; hide EnvelopeFunded;
    hide Accounted; hide SelectedMoney; hide ChargedBytes; hide Emitted; hide Free; hide StrippedSize; hide RequestOk;
    IsPaid(t, q, f);
    IsRelayable(t, q, f);
    IsFunding(t, q, f.money);
  }

  lemma IsPaid(t: BuildTerms, q: Request, f: Finished)
    requires RequestOk(t, q) && 0 < f.inputs <= |Free(q)| && f.inputs <= MAX_UTXO_COUNT && f.money.inputs == Worth(Free(q)[..f.inputs])
    requires f.money.size == ChargedBytes(q, f.inputs) && f.money.surcharge == SoftDustSurcharge(Emitted(t, q), t.chain.softFloor)
    requires FeeIsFair(t, ChargedBytes(q, f.inputs), f.money) && Accounted(t, SelectedMoney(t, q, f.inputs), q.ancestors, f.money)
    ensures Paid(t, q, f)
  {
    hide FeeIsFair; hide Accounted; hide SelectedMoney; hide ChargedBytes; hide Emitted; hide Free; hide Worth; hide SoftDustSurcharge;
  }

  lemma IsRelayable(t: BuildTerms, q: Request, f: Finished)
    requires RequestOk(t, q) && f.inputs <= |Free(q)| && f.inputs <= MAX_UTXO_COUNT && OutputsKept(t, q, f.money.outputs)
    requires FeeIsFair(t, ChargedBytes(q, f.inputs), f.money)
    requires f.strippedSize == StrippedSize(t, q, f.money.outputs, f.inputs) >= t.chain.nodeFloor
    ensures Relayable(t, q, f)
  {
    ScriptsMatchOutputs(t, q, f.money.outputs);
    KeptCount(t, q, f.money.outputs);
    KeptPays(t, q, f.money.outputs);
    hide FeeIsFair; hide OutputsKept; hide StrippedSize; hide FinalScripts; hide ChargedBytes; hide StandardScripts; hide EmittedScripts;
    hide InputsEstimated; hide RelaysAsFinished; hide Free; hide RequestOk; hide PaysEverything;
    if StandardScripts(t, q) && |EmittedScripts(q)| < 0xffff { FinishedRelays(t, q, f.inputs, f.money); }
  }

  lemma IsFunding(t: BuildTerms, q: Request, m: Money)
    requires RequestOk(t, q) && OutputsKept(t, q, m.outputs) && (q.data.Leaf? ==> EnvelopeFunded(t, q, m))
    ensures Funds(t, q, m)
  {
    hide OutputsKept; hide EnvelopeFunded; hide RevealFunded; hide SpendsLegs; hide RequestOk;
    if q.data.Legs? { LegsStayFunded(t, q, m.outputs); }
  }

  /** With payments in order and `n` inputs chosen the build ends as settlement says, or under the node's stripped-size floor. */
  ghost predicate Ends(t: BuildTerms, q: Request, n: nat, r: Result<Finished, Refusal>)
    requires RequestOk(t, q) && Chosen(t, q, n)
  {
    PrefundOk(SelectedMoney(t, q, n)) &&
    match Settle(t, SelectedMoney(t, q, n), q.ancestors)
    case Err(e) => r == Err(e)
    case Ok(m) =>
      var stripped := StrippedSize(t, q, m.outputs, n);
      r == if stripped < t.chain.nodeFloor then Err(UnderStrippedFloor) else Ok(Finished(m, n, stripped))
  }

  lemma OneEnd(t: BuildTerms, q: Request, n: nat, r: Result<Finished, Refusal>)
    requires RequestOk(t, q) && Chosen(t, q, n) && Ends(t, q, n, r)
    ensures forall k | Chosen(t, q, k) :: Ends(t, q, k, r)
  {
    hide Ends; hide Chosen;
    forall k | Chosen(t, q, k) ensures Ends(t, q, k, r) { OneChoice(t, q, n, k); }
  }

  /**
   A funding transaction end to end. Whatever carries its data, if it is built at all, then
   every output emitted is in it, it pays a fair fee on the bytes it has and accounts for every
   unit, it spends the candidates it selected, it clears the node's stripped-size floor, and
   the money it commits to a later reveal funds that reveal. Where the surcharge is at most one
   base unit, it is refused for want of funds only when all the candidates it may take do not
   suffice together.
   */
  method BuildTransaction(t: BuildTerms, q: Request) returns (r: Result<Finished, Refusal>)
    requires RequestOk(t, q)
    ensures r.Ok? ==> Chosen(t, q, r.value.inputs)
    ensures (forall i | 0 <= i < |q.payments| :: PaymentOk(q.payments[i], t.chain.dust)) ==> forall n | Chosen(t, q, n) :: Ends(t, q, n, r)
    ensures r == Err(BadOutput) <==> exists i :: 0 <= i < |q.payments| && !PaymentOk(q.payments[i], t.chain.dust)
    ensures r == Err(InsufficientFunds) && SoftDustSurcharge(Emitted(t, q), t.chain.softFloor) <= 1 ==> OutOfFunds(t, q)
    ensures r.Ok? ==> Paid(t, q, r.value) && Relayable(t, q, r.value) && Funds(t, q, r.value.money)
  {
    var build := new FundingBuild(t);
    var emitted := Emit(build, q);
    if emitted.Err? { return Err(emitted.error); }
    var funded := Fund(build, q);
    if funded.Err? { return Err(funded.error); }
    var n := funded.value;
    ghost var m := build.State();
    ReadyFacts(t, q, m, n);
    if SoftDustSurcharge(Emitted(t, q), t.chain.softFloor) <= 1 { ShortMeansOutOfFunds(t, q, m, n); }
    assert BooksOk(m, t.chain.dust);
    hide Paid; hide Relayable; hide Funds; hide Ready; hide Emitted; hide StrippedSize; hide Free; hide BooksOk; hide SelectedFee;
    hide OutOfFunds; hide EmittedMoney; hide SoftDustSurcharge; hide SelectedMoney; hide ChargedBytes; hide EmittedAs; hide Worth;
    hide Chosen; hide Settle;
    var settled := build.SettleFee(q.ancestors);
    if settled.Err? {
      r := Err(settled.error);
      OneEnd(t, q, n, r);
      return;
    }
    var final := build.Snapshot();
    var stripped := StrippedSize(t, q, final.outputs, n);
    if stripped < t.chain.nodeFloor {
      r := Err(UnderStrippedFloor);
      OneEnd(t, q, n, r);
      return;
    }
    r := Ok(Finished(final, n, stripped));
    OneEnd(t, q, n, r);
    SettledIsSound(t, q, m, r.value);
  }
}
