/** Serialized sizes the reveal of a two-phase build is priced at. */
module RevealSizes {
  import opened Common
  import opened Script

  /** The carriers that pay for a later reveal through the commit's own outputs. */
  datatype Carrier = P2sh | P2wsh

  const MAGIC_LENGTH: nat := 4
  const WORST_CHANGE_BYTES: nat := 43

  function CompactSizeLen(n: nat): nat {
    if n < 253 then 1 else if n <= 0xffff then 3 else if n <= 0xffffffff then 5 else 9
  }

  /** A nulldata script's length: the opcode and one push. */
  function OpReturnScript(dataLength: nat): nat {
    1 + CompiledPushSize(dataLength)
  }

  function OpReturnOutput(dataLength: nat): nat {
    var script := OpReturnScript(dataLength);
    8 + CompactSizeLen(script) + script
  }

  /** The magic word and the carrier's name. */
  function MarkerLength(c: Carrier): nat {
    MAGIC_LENGTH + if c == P2sh then 4 else 5
  }

  /** A reveal input's signature, key and redeem script in its scriptSig. */
  function P2shInput(redeem: nat): nat {
    var scriptSig := 73 + 34 + CompiledPushSize(redeem);
    40 + (if scriptSig < 253 then 1 else 3) + scriptSig
  }

  function CeilQuarter(n: nat): nat {
    (n + 3) / 4
  }

  function WitnessItem(script: nat): nat {
    1 + 73 + 34 + CompactSizeLen(script) + script
  }

  /** The per-chunk share that sizes one funding leg. `pad` is the pad output's size, 0 when none. */
  function LegSize(c: Carrier, script: nat, pad: nat, strippedFloor: nat): nat {
    match c
    case P2sh => 10 + P2shInput(script) + OpReturnOutput(MarkerLength(P2sh)) + 8
    case P2wsh =>
      var base := 10 + 41 + OpReturnOutput(MarkerLength(P2wsh));
      (if base < strippedFloor then Max(base + pad, strippedFloor) else base) + CeilQuarter(2 + WitnessItem(script)) + 8
  }

  function InputsBytes(scripts: seq<nat>): nat {
    if scripts == [] then 0
    else InputsBytes(scripts[..|scripts| - 1]) + P2shInput(scripts[|scripts| - 1]) + 8
  }

  function WitnessBytes(scripts: seq<nat>): nat {
    if scripts == [] then 2
    else WitnessBytes(scripts[..|scripts| - 1]) + WitnessItem(scripts[|scripts| - 1])
  }

  /** The whole reveal: every chunk input, the marker, and `extra` bytes of value outputs. */
  function RevealSize(c: Carrier, scripts: seq<nat>, extra: nat, strippedFloor: nat): nat {
    match c
    case P2sh => 10 + InputsBytes(scripts) + OpReturnOutput(MarkerLength(P2sh)) + extra
    case P2wsh =>
      Max(10 + 41 * |scripts| + OpReturnOutput(MarkerLength(P2wsh)) + extra, strippedFloor) + CeilQuarter(WitnessBytes(scripts)) + 8
  }

  /** Virtual size of a Taproot reveal. */
  function EnvelopeRevealSize(script: nat, outputsBytes: nat, strippedFloor: nat): nat {
    Max(51 + outputsBytes, strippedFloor) + CeilQuarter(2 + 1 + 66 + CompactSizeLen(script) + script + 34) + 2
  }

  method EstimateP2shRevealTx(scripts: seq<nat>, extra: nat) returns (size: nat)
    ensures size == RevealSize(P2sh, scripts, extra, 0)
  {
    var inputsBytes := 0;
    for i := 0 to |scripts|
      invariant inputsBytes == InputsBytes(scripts[..i])
    {
      assert scripts[..i + 1][..i] == scripts[..i];
      inputsBytes := inputsBytes + P2shInput(scripts[i]) + 8;
    }
    assert scripts[..|scripts|] == scripts;
    size := 10 + inputsBytes + OpReturnOutput(MarkerLength(P2sh)) + extra;
  }

  method EstimateP2wshRevealTx(scripts: seq<nat>, extra: nat, strippedFloor: nat) returns (size: nat)
    ensures size == RevealSize(P2wsh, scripts, extra, strippedFloor)
  {
    var witnessBytes := 2;
    for i := 0 to |scripts|
      invariant witnessBytes == WitnessBytes(scripts[..i])
    {
      assert scripts[..i + 1][..i] == scripts[..i];
      witnessBytes := witnessBytes + WitnessItem(scripts[i]);
    }
    assert scripts[..|scripts|] == scripts;
    var nonWitness := 10 + 41 * |scripts| + OpReturnOutput(MarkerLength(P2wsh)) + extra;
    if strippedFloor != 0 && nonWitness < strippedFloor { nonWitness := strippedFloor; }
    size := nonWitness + CeilQuarter(witnessBytes) + 8;
  }

  /** Each output costs the reveal at most its own bytes: the floor absorbs, it never adds. */
  lemma ExtraBytesCostAtMostThemselves(c: Carrier, scripts: seq<nat>, a: nat, b: nat, strippedFloor: nat)
    ensures RevealSize(c, scripts, a, strippedFloor) <= RevealSize(c, scripts, a + b, strippedFloor)
            <= RevealSize(c, scripts, a, strippedFloor) + b
  {
  }

  // ---------- the stripped-size floor ----------

  /** The commit's forecast of the reveal's stripped size. */
  function PredictedStripped(chunks: nat, customBytes: nat): nat {
    30 + 41 * chunks + customBytes
  }

  predicate NeedsFloorPad(chunks: nat, customBytes: nat, strippedFloor: nat) {
    PredictedStripped(chunks, customBytes) < strippedFloor
  }

  /** An output script's serialized size with its value. */
  function OutputBytes(script: nat): nat {
    8 + CompactSizeLen(script) + script
  }

  function OutputsBytes(scripts: seq<nat>): nat {
    if scripts == [] then 0 else OutputsBytes(scripts[..|scripts| - 1]) + OutputBytes(scripts[|scripts| - 1])
  }

  /** What a node measures: no witness, an empty scriptSig in every input. */
  function StrippedTxSize(inputs: nat, outputScripts: seq<nat>): nat {
    8 + CompactSizeLen(inputs) + 41 * inputs + CompactSizeLen(|outputScripts|) + OutputsBytes(outputScripts)
  }

  /** The output script of one funding leg: a script hash in 23 bytes, a witness program in 34. */
  function LegScript(c: Carrier): nat {
    if c == P2sh then 23 else 34
  }

  function MarkerScript(c: Carrier): nat {
    OpReturnScript(MarkerLength(c))
  }

  lemma {:induction false} OutputsBytesPrepend(first: nat, rest: seq<nat>)
    ensures OutputsBytes([first] + rest) == OutputBytes(first) + OutputsBytes(rest)
  {
    var all := [first] + rest;
    if rest == [] {
      assert all[..0] == [];
    } else {
      assert all[..|all| - 1] == [first] + rest[..|rest| - 1];
      OutputsBytesPrepend(first, rest[..|rest| - 1]);
    }
  }

  lemma OutputsBytesAppend(scripts: seq<nat>, last: nat)
    ensures OutputsBytes(scripts + [last]) == OutputsBytes(scripts) + OutputBytes(last)
  {
    assert (scripts + [last])[..|scripts|] == scripts;
  }

  lemma {:induction false} OutputsBytesAtLeast(scripts: seq<nat>)
    ensures OutputsBytes(scripts) >= 9 * |scripts|
  {
    if scripts != [] { OutputsBytesAtLeast(scripts[..|scripts| - 1]); }
  }

  /**
   The commit funds a floor pad exactly when the reveal emits one: the forecast is the
   reveal's real stripped size, marker and caller outputs included. The floors are
   82 bytes on Bitcoin and 85 on Litecoin.
   */
  lemma PadIsPredicted(chunks: nat, customScripts: seq<nat>, strippedFloor: nat)
    requires strippedFloor <= 1000
    ensures NeedsFloorPad(chunks, OutputsBytes(customScripts), strippedFloor)
            <==> StrippedTxSize(chunks, [MarkerScript(P2wsh)] + customScripts) < strippedFloor
  {
    OutputsBytesPrepend(MarkerScript(P2wsh), customScripts);
    OutputsBytesAtLeast(customScripts);
  }
}
