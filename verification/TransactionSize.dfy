/**
 What transactions really weigh, from the serialisation in BIP 141 and BIP 144, and that the
 estimators price every reveal and cancel at no less, and at hardly more.
 */
module TransactionSize {
  import opened Common
  import opened Fees
  import opened Script
  import opened RevealSizes

  /** An input: its scriptSig's length and the lengths of its witness items. */
  datatype TxIn = TxIn(scriptSig: nat, stack: seq<nat>)

  /** A transaction, as far as its size goes; `outs` are the output scripts' lengths. */
  datatype Tx = Tx(ins: seq<TxIn>, outs: seq<nat>)

  /** Outpoint, scriptSig behind its length, sequence. */
  function InputBytes(i: TxIn): nat {
    32 + 4 + CompactSizeLen(i.scriptSig) + i.scriptSig + 4
  }

  function AllInputs(ins: seq<TxIn>): nat {
    if ins == [] then 0 else AllInputs(ins[..|ins| - 1]) + InputBytes(ins[|ins| - 1])
  }

  /** Version, inputs, outputs, lock time. */
  function StrippedBytes(tx: Tx): nat {
    4 + CompactSizeLen(|tx.ins|) + AllInputs(tx.ins) + CompactSizeLen(|tx.outs|) + OutputsBytes(tx.outs) + 4
  }

  /** Each item behind its length. */
  function ItemsBytes(items: seq<nat>): nat {
    if items == [] then 0
    else ItemsBytes(items[..|items| - 1]) + CompactSizeLen(items[|items| - 1]) + items[|items| - 1]
  }

  function AllWitnesses(ins: seq<TxIn>): nat {
    if ins == [] then 0
    else
      var last := ins[|ins| - 1].stack;
      AllWitnesses(ins[..|ins| - 1]) + CompactSizeLen(|last|) + ItemsBytes(last)
  }

  predicate HasWitness(tx: Tx) {
    exists i | 0 <= i < |tx.ins| :: tx.ins[i].stack != []
  }

  /** Stripped bytes weigh four, marker, flag and witnesses one. */
  function Weight(tx: Tx): nat {
    4 * StrippedBytes(tx) + if HasWitness(tx) then 2 + AllWitnesses(tx.ins) else 0
  }

  function VirtualSize(tx: Tx): nat {
    CeilQuarter(Weight(tx))
  }

  // ---------- the reveal of a script-hash carrier ----------

  const SIGNATURE: nat := 72            // the longest DER signature with its sighash byte
  const KEY: nat := 33

  /** A push of `n` bytes in a script. */
  function PushBytes(n: nat): nat
    requires n <= MAX_PUSH
  {
    |PushPrefix(n)| + n
  }

  predicate ScriptsFit(c: Carrier, scripts: seq<nat>) {
    |scripts| <= 0xffffffff && (c == P2sh ==> forall i | 0 <= i < |scripts| :: scripts[i] <= 520)
  }

  /** One signature a chunk, none over the longest there is. */
  predicate Signed(c: Carrier, scripts: seq<nat>, signatures: seq<nat>) {
    ScriptsFit(c, scripts) && |signatures| == |scripts| && forall i | 0 <= i < |signatures| :: signatures[i] <= SIGNATURE
  }

  /** Signature, key and script: pushed in the scriptSig, or items of the witness. */
  function RevealInput(c: Carrier, script: nat, signature: nat): TxIn
    requires signature <= SIGNATURE && (c == P2sh ==> script <= 520)
  {
    match c
    case P2sh => TxIn(PushBytes(signature) + PushBytes(KEY) + PushBytes(script), [])
    case P2wsh => TxIn(0, [signature, KEY, script])
  }

  function RevealInputs(c: Carrier, scripts: seq<nat>, signatures: seq<nat>): (r: seq<TxIn>)
    requires Signed(c, scripts, signatures)
    ensures |r| == |scripts|
  {
    seq(|scripts|, i requires 0 <= i < |scripts| => RevealInput(c, scripts[i], signatures[i]))
  }

  /** The reveal: one input a chunk, the marker, then the value outputs. */
  function RevealTx(c: Carrier, scripts: seq<nat>, signatures: seq<nat>, outs: seq<nat>): Tx
    requires Signed(c, scripts, signatures)
  {
    Tx(RevealInputs(c, scripts, signatures), [MarkerScript(c)] + outs)
  }

  lemma ThreeItems(a: nat, b: nat, c: nat)
    ensures ItemsBytes([a, b, c]) == CompactSizeLen(a) + a + CompactSizeLen(b) + b + CompactSizeLen(c) + c
  {
    hide CompactSizeLen;
    assert [a][..0] == [] && ItemsBytes([a]) == CompactSizeLen(a) + a;
    assert [a, b][..1] == [a] && ItemsBytes([a, b]) == ItemsBytes([a]) + CompactSizeLen(b) + b;
    assert [a, b, c][..2] == [a, b];
  }

  lemma RevealInputSize(c: Carrier, script: nat, signature: nat)
    requires signature <= SIGNATURE && (c == P2sh ==> script <= 520)
    ensures var i := RevealInput(c, script, signature);
            && (c == P2sh ==> InputBytes(i) <= P2shInput(script))
            && (c == P2wsh ==> InputBytes(i) == 41 && CompactSizeLen(|i.stack|) + ItemsBytes(i.stack) <= WitnessItem(script))
            && (signature == SIGNATURE ==>
                  && (c == P2sh ==> InputBytes(i) == P2shInput(script))
                  && (c == P2wsh ==> CompactSizeLen(|i.stack|) + ItemsBytes(i.stack) == WitnessItem(script)))
  {
    ThreeItems(signature, KEY, script);
  }

  predicate AllLongest(signatures: seq<nat>) {
    forall i | 0 <= i < |signatures| :: signatures[i] == SIGNATURE
  }

  lemma LastInput(c: Carrier, scripts: seq<nat>, signatures: seq<nat>)
    requires Signed(c, scripts, signatures) && scripts != []
    ensures var n := |scripts| - 1;
            var ins := RevealInputs(c, scripts, signatures);
            && Signed(c, scripts[..n], signatures[..n]) && ins[..n] == RevealInputs(c, scripts[..n], signatures[..n])
            && ins[n] == RevealInput(c, scripts[n], signatures[n])
  {
    hide RevealInput;
  }

  /** Each legacy input is priced at no less than its bytes, at just them with the longest signatures, and a margin of 8. */
  lemma {:induction false} LegacyInputsArePriced(scripts: seq<nat>, signatures: seq<nat>)
    requires Signed(P2sh, scripts, signatures)
    ensures AllInputs(RevealInputs(P2sh, scripts, signatures)) + 8 * |scripts| <= InputsBytes(scripts)
    ensures AllLongest(signatures) ==> AllInputs(RevealInputs(P2sh, scripts, signatures)) + 8 * |scripts| == InputsBytes(scripts)
  {
    if scripts != [] {
      var n := |scripts| - 1;
      var ins := RevealInputs(P2sh, scripts, signatures);
      assert Signed(P2sh, scripts[..n], signatures[..n]) && signatures[n] <= SIGNATURE && scripts[n] <= 520;
      assert AllLongest(signatures) ==> AllLongest(signatures[..n]) && signatures[n] == SIGNATURE;
      hide AllLongest; hide Signed; hide RevealInputs; hide RevealInput; hide P2shInput; hide InputBytes;
      LegacyInputsArePriced(scripts[..n], signatures[..n]);
      RevealInputSize(P2sh, scripts[n], signatures[n]);
      LastInput(P2sh, scripts, signatures);
      assert AllInputs(ins) == AllInputs(ins[..n]) + InputBytes(ins[n]);
      assert InputsBytes(scripts) == InputsBytes(scripts[..n]) + P2shInput(scripts[n]) + 8;
      hide AllInputs; hide InputsBytes;
    }
  }

  /** So is each witness, and an input that has one takes 41 stripped bytes. */
  lemma {:induction false} WitnessesArePriced(scripts: seq<nat>, signatures: seq<nat>)
    requires Signed(P2wsh, scripts, signatures)
    ensures AllInputs(RevealInputs(P2wsh, scripts, signatures)) == 41 * |scripts|
    ensures 2 + AllWitnesses(RevealInputs(P2wsh, scripts, signatures)) <= WitnessBytes(scripts)
    ensures AllLongest(signatures) ==> 2 + AllWitnesses(RevealInputs(P2wsh, scripts, signatures)) == WitnessBytes(scripts)
  {
    if scripts != [] {
      var n := |scripts| - 1;
      WitnessesArePriced(scripts[..n], signatures[..n]);
      RevealInputSize(P2wsh, scripts[n], signatures[n]);
      LastInput(P2wsh, scripts, signatures);
      hide RevealInputs; hide RevealInput; hide WitnessItem; hide InputBytes; hide Signed; hide ItemsBytes; hide CompactSizeLen;
    }
  }

  /** Both, for the carrier at hand. */
  lemma InputsArePriced(c: Carrier, scripts: seq<nat>, signatures: seq<nat>)
    requires Signed(c, scripts, signatures)
    ensures var ins := RevealInputs(c, scripts, signatures);
            && (c == P2sh ==> AllInputs(ins) + 8 * |scripts| <= InputsBytes(scripts))
            && (c == P2wsh ==> AllInputs(ins) == 41 * |scripts| && 2 + AllWitnesses(ins) <= WitnessBytes(scripts))
            && (AllLongest(signatures) ==>
                  && (c == P2sh ==> AllInputs(ins) + 8 * |scripts| == InputsBytes(scripts))
                  && (c == P2wsh ==> 2 + AllWitnesses(ins) == WitnessBytes(scripts)))
  {
    match c
    case P2sh => LegacyInputsArePriced(scripts, signatures);
    case P2wsh => WitnessesArePriced(scripts, signatures);
  }

  /** A witness carrier's inputs have witnesses; a legacy one's have none. */
  lemma WhoHasWitness(c: Carrier, scripts: seq<nat>, signatures: seq<nat>, outs: seq<nat>)
    requires Signed(c, scripts, signatures)
    ensures HasWitness(RevealTx(c, scripts, signatures, outs)) <==> c == P2wsh && scripts != []
  {
    var tx := RevealTx(c, scripts, signatures, outs);
    if c == P2wsh && scripts != [] { assert tx.ins[0].stack == [signatures[0], KEY, scripts[0]]; }
  }

  /** The stripped size a node measures is the one the pad decision reads. */
  lemma StrippedIsMeasured(scripts: seq<nat>, signatures: seq<nat>, outs: seq<nat>)
    requires Signed(P2wsh, scripts, signatures)
    ensures StrippedBytes(RevealTx(P2wsh, scripts, signatures, outs)) == StrippedTxSize(|scripts|, [MarkerScript(P2wsh)] + outs)
  {
    InputsArePriced(P2wsh, scripts, signatures);
  }

  /** What a reveal weighs: its counts, its inputs, marker and outputs, and the witnesses of a witness carrier. */
  lemma RevealWeighs(c: Carrier, scripts: seq<nat>, signatures: seq<nat>, outs: seq<nat>)
    requires Signed(c, scripts, signatures) && scripts != []
    ensures var ins := RevealInputs(c, scripts, signatures);
            Weight(RevealTx(c, scripts, signatures, outs))
            == 4 * (8 + CompactSizeLen(|scripts|) + AllInputs(ins) + CompactSizeLen(|outs| + 1) + OpReturnOutput(MarkerLength(c))
                    + OutputsBytes(outs))
               + if c == P2wsh then 2 + AllWitnesses(ins) else 0
  {
    WhoHasWitness(c, scripts, signatures, outs);
    OutputsBytesPrepend(MarkerScript(c), outs);
    MarkerBytes(c);
    hide HasWitness; hide RevealInputs; hide OutputsBytes; hide AllInputs; hide AllWitnesses; hide MarkerScript; hide OpReturnOutput;
    hide CompactSizeLen; hide Signed;
  }

  /**
   The reveal estimate is never under the reveal's real virtual size: any signatures there can
   be, any value outputs within the bytes priced.
   */
  lemma RevealIsCovered(c: Carrier, scripts: seq<nat>, signatures: seq<nat>, outs: seq<nat>, extra: nat, strippedFloor: nat)
    requires Signed(c, scripts, signatures) && |outs| < 0xffffffff && OutputsBytes(outs) <= extra && scripts != []
    ensures VirtualSize(RevealTx(c, scripts, signatures, outs)) <= RevealSize(c, scripts, extra, strippedFloor)
  {
    hide Weight; hide RevealTx; hide RevealInputs; hide OutputsBytes; hide AllInputs; hide AllWitnesses; hide InputsBytes;
    hide WitnessBytes; hide OpReturnOutput; hide CompactSizeLen; hide CeilQuarter; hide Signed; hide AllLongest; hide MarkerLength;
    var ins := RevealInputs(c, scripts, signatures);
    var counts := CompactSizeLen(|scripts|) + CompactSizeLen(|outs| + 1);
    RevealWeighs(c, scripts, signatures, outs);
    InputsArePriced(c, scripts, signatures);
    SignedIsBounded(c, scripts, signatures);
    CountsFit(|scripts|, |outs| + 1);
    var marker, bytes := OpReturnOutput(MarkerLength(c)), OutputsBytes(outs);
    if c == P2sh {
      LegacyFits(counts, AllInputs(ins), |scripts|, marker + bytes, InputsBytes(scripts), marker + extra);
    } else {
      WitnessFits(counts, 41 * |scripts| + marker + bytes, 2 + AllWitnesses(ins), 41 * |scripts| + marker + extra, WitnessBytes(scripts));
    }
  }

  lemma SignedIsBounded(c: Carrier, scripts: seq<nat>, signatures: seq<nat>)
    requires Signed(c, scripts, signatures)
    ensures |scripts| <= 0xffffffff
  {
  }

  lemma LegacyFits(counts: nat, inputs: nat, n: nat, rest: nat, priced: nat, pricedRest: nat)
    requires counts <= 2 + 8 * n && inputs + 8 * n <= priced && rest <= pricedRest
    ensures CeilQuarter(4 * (8 + counts + inputs + rest)) <= 10 + priced + pricedRest
  {
  }

  lemma WitnessFits(counts: nat, bytes: nat, items: nat, priced: nat, pricedItems: nat)
    requires counts <= 10 && bytes <= priced && items <= pricedItems
    ensures CeilQuarter(4 * (8 + counts + bytes) + items) <= 10 + priced + CeilQuarter(pricedItems) + 8
  {
  }

  /** Nor does it exceed it by more than its margin, 8 bytes in all or 8 an input. */
  lemma RevealIsTight(c: Carrier, scripts: seq<nat>, signatures: seq<nat>, outs: seq<nat>, strippedFloor: nat)
    requires Signed(c, scripts, signatures) && scripts != []
    requires AllLongest(signatures)
    requires c == P2wsh ==> strippedFloor <= StrippedTxSize(|scripts|, [MarkerScript(c)] + outs)
    ensures RevealSize(c, scripts, OutputsBytes(outs), strippedFloor)
            <= VirtualSize(RevealTx(c, scripts, signatures, outs)) + 8 * (if c == P2sh then |scripts| else 1)
  {
    RevealWeighs(c, scripts, signatures, outs);
    InputsArePriced(c, scripts, signatures);
    OutputsBytesPrepend(MarkerScript(c), outs);
    MarkerBytes(c);
    hide Weight; hide RevealTx; hide RevealInputs; hide OutputsBytes; hide AllInputs; hide AllWitnesses; hide InputsBytes;
    hide WitnessBytes; hide MarkerScript; hide OpReturnOutput;
  }

  lemma MarkerBytes(c: Carrier)
    ensures OutputBytes(MarkerScript(c)) == OpReturnOutput(MarkerLength(c))
  {
  }

  /** The two counts take at most the ten bytes over the fixed eight that the margin and the header leave. */
  lemma CountsFit(ins: nat, outs: nat)
    requires 0 < ins <= 0xffffffff && 0 < outs <= 0xffffffff
    ensures CompactSizeLen(ins) + CompactSizeLen(outs) <= 10
    ensures CompactSizeLen(ins) + CompactSizeLen(outs) <= 2 + 8 * ins
  {
  }

  /** One leg is priced as a reveal of its own, with the pad's bytes only where that would be under the floor. */
  lemma LegIsItsOwnReveal(c: Carrier, script: nat, pad: nat, strippedFloor: nat)
    ensures var short := c == P2wsh && PredictedStripped(1, 0) < strippedFloor;
            LegSize(c, script, pad, strippedFloor) == RevealSize(c, [script], if short then pad else 0, strippedFloor)
  {
    assert [script][..0] == [];
    assert InputsBytes([script]) == P2shInput(script) + 8 && WitnessBytes([script]) == 2 + WitnessItem(script);
    assert OpReturnOutput(MarkerLength(P2wsh)) == 20;
    hide P2shInput; hide WitnessItem;
  }

  // ---------- Taproot ----------

  const SCHNORR: nat := 65              // with an explicit sighash byte

  /** A script-path spend of one output: signature, tapscript, control block. */
  function EnvelopeTx(script: nat, signature: nat, outs: seq<nat>): Tx {
    Tx([TxIn(0, [signature, script, 33])], outs)
  }

  lemma OneInput(i: TxIn)
    ensures AllInputs([i]) == InputBytes(i) && AllWitnesses([i]) == CompactSizeLen(|i.stack|) + ItemsBytes(i.stack)
    ensures forall outs :: HasWitness(Tx([i], outs)) <==> i.stack != []
  {
    assert [i][..0] == [];
    hide ItemsBytes; hide CompactSizeLen; hide InputBytes;
    forall outs ensures HasWitness(Tx([i], outs)) <==> i.stack != [] {
      assert Tx([i], outs).ins[0] == i;
    }
  }

  /** The envelope reveal's estimate covers its real virtual size, and is within 2 bytes of it over the floor. */
  lemma EnvelopeIsCovered(script: nat, signature: nat, outs: seq<nat>, strippedFloor: nat)
    requires signature <= SCHNORR && 0 < |outs| <= 0xffff
    ensures VirtualSize(EnvelopeTx(script, signature, outs)) <= EnvelopeRevealSize(script, OutputsBytes(outs), strippedFloor)
    ensures signature == SCHNORR && 51 + OutputsBytes(outs) >= strippedFloor ==>
              EnvelopeRevealSize(script, OutputsBytes(outs), strippedFloor) <= VirtualSize(EnvelopeTx(script, signature, outs)) + 2
  {
    OneInput(TxIn(0, [signature, script, 33]));
    ThreeItems(signature, script, 33);
    assert CompactSizeLen(|outs|) <= 3 && CompactSizeLen(signature) == 1;
    hide HasWitness; hide OutputsBytes; hide AllInputs; hide AllWitnesses; hide ItemsBytes;
  }

  /** A key-path spend: one signature. */
  function KeyPathTx(signature: nat, outs: seq<nat>): Tx {
    Tx([TxIn(0, [signature])], outs)
  }

  lemma KeyPathSize(signature: nat, outs: seq<nat>)
    requires signature <= SCHNORR && 0 < |outs| < 253
    ensures StrippedBytes(KeyPathTx(signature, outs)) == 51 + OutputsBytes(outs)
    ensures Weight(KeyPathTx(signature, outs)) == 4 * (51 + OutputsBytes(outs)) + 4 + signature
  {
    OneInput(TxIn(0, [signature]));
    assert [signature][..0] == [] && ItemsBytes([signature]) == 1 + signature;
    hide HasWitness; hide OutputsBytes; hide AllInputs; hide AllWitnesses; hide ItemsBytes;
  }

  // ---------- the inputs of a funding transaction ----------

  /** How an input is spent; a legacy multisig needs `m` signatures over keys of these lengths. */
  datatype Spend =
    | WitnessKey
    | NestedWitnessKey
    | TaprootKey
    | WitnessTwoOfThree
    | LegacyKey
    | LegacyMultisig(m: nat, keys: seq<nat>)

  predicate SpendOk(k: Spend) {
    k.LegacyMultisig? ==>
      0 < k.m <= |k.keys| <= 15 && forall i | 0 <= i < |k.keys| :: k.keys[i] == 33 || k.keys[i] == 65
  }

  /** The keys of a bare multisig script, each behind its push opcode. */
  function KeysBytes(keys: seq<nat>): nat {
    if keys == [] then 0 else KeysBytes(keys[..|keys| - 1]) + 1 + keys[|keys| - 1]
  }

  lemma {:induction false} KeysBound(k: Spend, keys: seq<nat>)
    requires SpendOk(k) && k.LegacyMultisig? && keys <= k.keys
    ensures KeysBytes(keys) <= 66 * |keys|
  {
    if keys != [] {
      var n := |keys| - 1;
      assert keys[..n] <= k.keys && keys[n] == k.keys[n];
      KeysBound(k, keys[..n]);
    }
  }

  /** The virtual bytes an input of each kind is estimated at. */
  function InputEstimate(k: Spend): nat {
    match k
    case WitnessKey => 68
    case NestedWitnessKey => 91
    case TaprootKey => 58
    case WitnessTwoOfThree => 105
    case LegacyKey => 180
    case LegacyMultisig(m, keys) =>
      var scriptSig := 1 + m * CompiledPushSize(73) + CompiledPushSize(3 + KeysBytes(keys));
      40 + CompactSizeLen(scriptSig) + scriptSig
  }

  /** The input as it is finished, with signatures of this length. */
  function SpendInput(k: Spend, signature: nat): TxIn
    requires SpendOk(k) && signature <= SIGNATURE
  {
    match k
    case WitnessKey => TxIn(0, [signature, KEY])
    case NestedWitnessKey => TxIn(23, [signature, KEY])
    case TaprootKey => TxIn(0, [Min(signature, SCHNORR)])
    case WitnessTwoOfThree => TxIn(0, [0, signature, signature, 3 + 3 * 34])
    case LegacyKey => TxIn(PushBytes(signature) + PushBytes(KEY), [])
    case LegacyMultisig(m, keys) =>
      KeysBound(k, keys);
      TxIn(1 + m * PushBytes(signature) + PushBytes(3 + KeysBytes(keys)), [])
  }

  /** An input's weight in a transaction that has witnesses. */
  function InputWeight(i: TxIn): nat {
    4 * InputBytes(i) + CompactSizeLen(|i.stack|) + ItemsBytes(i.stack)
  }

  lemma TwoItems(a: nat, b: nat)
    ensures ItemsBytes([a]) == CompactSizeLen(a) + a && ItemsBytes([a, b]) == CompactSizeLen(a) + a + CompactSizeLen(b) + b
  {
    hide CompactSizeLen;
    assert [a][..0] == [] && ItemsBytes([a]) == CompactSizeLen(a) + a;
    assert [a, b][..1] == [a];
  }

  lemma FourItems(a: nat, b: nat, c: nat, d: nat)
    ensures ItemsBytes([a, b, c, d]) == ItemsBytes([a, b, c]) + CompactSizeLen(d) + d
  {
    assert [a, b, c, d][..3] == [a, b, c];
  }

  /** Every kind of input is estimated at no less than it weighs, however it is signed. */
  lemma InputIsCovered(k: Spend, signature: nat)
    requires SpendOk(k) && signature <= SIGNATURE
    ensures InputWeight(SpendInput(k, signature)) <= 4 * InputEstimate(k)
  {
    match k
    case WitnessKey => TwoItems(signature, KEY);
    case NestedWitnessKey => TwoItems(signature, KEY);
    case TaprootKey => TwoItems(Min(signature, SCHNORR), 0);
    case WitnessTwoOfThree =>
      ThreeItems(0, signature, signature);
      FourItems(0, signature, signature, 3 + 3 * 34);
    case LegacyKey =>
    case LegacyMultisig(m, keys) => MultisigIsCovered(k, signature);
  }

  lemma MultisigIsCovered(k: Spend, signature: nat)
    requires SpendOk(k) && k.LegacyMultisig? && signature <= SIGNATURE
    ensures InputWeight(SpendInput(k, signature)) <= 4 * InputEstimate(k)
  {
    KeysBound(k, k.keys);
    var script := 3 + KeysBytes(k.keys);
    var spent, priced := 1 + k.m * PushBytes(signature) + PushBytes(script), 1 + k.m * CompiledPushSize(73) + CompiledPushSize(script);
    assert PushBytes(script) == CompiledPushSize(script);
    MulMonotone(k.m, k.m, PushBytes(signature) + 1, CompiledPushSize(73));
    assert k.m * (PushBytes(signature) + 1) == k.m * PushBytes(signature) + k.m;
    assert spent < priced;
    assert ItemsBytes([]) == 0;
    hide PushBytes; hide KeysBytes; hide CompiledPushSize;
  }

  /** What some inputs add to an otherwise empty transaction, their count and the witness marker included. */
  function InputsWeight(ins: seq<TxIn>): int {
    4 * (AllInputs(ins) + CompactSizeLen(|ins|) - 1) + if HasWitness(Tx(ins, [])) then 2 + AllWitnesses(ins) else 0
  }

  /** The framing an input list adds: a byte for the marker and flag, two for a wide count. */
  function Framing(ins: seq<TxIn>): nat {
    (if HasWitness(Tx(ins, [])) then 1 else 0) + if |ins| >= 253 then 2 else 0
  }

  function SumOf(sizes: seq<nat>): nat {
    if sizes == [] then 0 else SumOf(sizes[..|sizes| - 1]) + sizes[|sizes| - 1]
  }

  lemma {:induction false} InputsAdd(ins: seq<TxIn>, estimates: seq<nat>)
    requires |ins| == |estimates| && forall i | 0 <= i < |ins| :: InputWeight(ins[i]) <= 4 * estimates[i]
    ensures 4 * AllInputs(ins) + AllWitnesses(ins) <= 4 * SumOf(estimates)
  {
    if ins != [] {
      var n := |ins| - 1;
      assert InputWeight(ins[n]) <= 4 * estimates[n];
      hide InputBytes; hide ItemsBytes; hide CompactSizeLen;
      InputsAdd(ins[..n], estimates[..n]);
    }
  }

  /** Estimates that cover each input cover them all, with the framing. */
  lemma InputsAreCovered(ins: seq<TxIn>, estimates: seq<nat>)
    requires |ins| == |estimates| && |ins| <= 0xffff && forall i | 0 <= i < |ins| :: InputWeight(ins[i]) <= 4 * estimates[i]
    ensures InputsWeight(ins) <= 4 * (SumOf(estimates) + Framing(ins))
  {
    InputsAdd(ins, estimates);
    hide HasWitness; hide AllInputs; hide AllWitnesses; hide SumOf; hide InputWeight;
  }
}
