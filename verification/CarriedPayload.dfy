/**
 What a build compiles, through every carrier and back: no payload the push guard lets
 through loses a byte, and its parts reach a reader as they were sent.
 */
module CarriedPayload {
  import opened Common
  import opened Script
  import RevealSizes
  import TransactionSize
  import opened SizeCheck
  import opened Carriers

  /** A compiled payload leads with a push of its own, so it is never the one byte the carriers cannot hold. */
  lemma CompiledIsNotLone(p: Payload)
    requires Sized(p) && PushesDecode(p)
    ensures CompiledPayload(p) != [] && !LoneOpcode(CompiledPayload(p))
  {
    var es := Elements(p);
    ElementReads(es[0], Compile(es[1..]));
    assert CompiledPayload(p) == CompileElement(es[0]) + Compile(es[1..]);
  }

  /** The redeem scripts give back whatever the build compiled. */
  lemma ScriptHashCarries(p: Payload, keyHash: seq<byte>)
    requires Sized(p) && PushesDecode(p) && |keyHash| == 20
    ensures var chunks := Chunks(CompiledPayload(p), SCRIPT_HASH_CHUNK);
            (forall i | 0 <= i < |chunks| :: |chunks[i]| <= MAX_PUSH)
            && ReadScripts(RedeemScripts(chunks, keyHash)) == Some(CompiledPayload(p))
  {
    CompiledIsNotLone(p);
    ScriptHashRoundTrip(CompiledPayload(p), keyHash);
  }

  /** So does the envelope leaf. */
  lemma EnvelopeCarries(p: Payload, key: seq<byte>)
    requires Sized(p) && PushesDecode(p) && |key| == 32
    ensures ReadEnvelope(EnvelopeScript(CompiledPayload(p), key)) == Some(CompiledPayload(p))
  {
    CompiledIsNotLone(p);
    EnvelopeRoundTrip(CompiledPayload(p), key);
  }

  /** The opcodes that slot padding reads as. */
  function PaddingOps(n: nat): seq<Element> {
    seq(n, _ => Op(OP_0))
  }

  lemma {:induction false} PaddingCompiles(n: nat)
    ensures ElementsOk(PaddingOps(n)) && Compile(PaddingOps(n)) == Zeros(n)
  {
    if n > 0 {
      PaddingCompiles(n - 1);
      assert PaddingOps(n) == [Op(OP_0)] + PaddingOps(n - 1);
      CompilePrepend(Op(OP_0), PaddingOps(n - 1));
      assert Zeros(n) == [OP_0] + Zeros(n - 1);
    }
  }

  /** The multisig slots read as the compiled elements, then fewer than 60 empty pushes. */
  lemma MultisignCarries(p: Payload)
    requires Sized(p) && PushesDecode(p)
    ensures var c := CompiledPayload(p);
            Decompile(Join(Stripped(Slots(c)))) == Some(CanonicalAll(Elements(p)) + PaddingOps(Padding(|c|)))
  {
    var c := CompiledPayload(p);
    var es, ops := Elements(p), PaddingOps(Padding(|c|));
    SlotsRoundTrip(c);
    PaddingCompiles(Padding(|c|));
    CompileConcat(es, ops);
    DecompileCompile(es + ops);
    assert CanonicalAll(es + ops) == CanonicalAll(es) + ops;
  }

  /** A reader of the carried stream finds the parts as they were sent. */
  predicate PartsRead(p: Payload, stream: Option<seq<byte>>, padding: nat) {
    stream.Some? && Decompile(stream.value) == Some(Elements(p) + PaddingOps(padding))
  }

  /** Through any of the chunked carriers the parts come back exactly when they hold bytes. */
  lemma CarriersReturnTheParts(p: Payload, keyHash: seq<byte>, key: seq<byte>)
    requires Sized(p) && PushesDecode(p) && |keyHash| == 20 && |key| == 32
    ensures var c := CompiledPayload(p);
            var chunks := Chunks(c, SCRIPT_HASH_CHUNK);
            && (forall i | 0 <= i < |chunks| :: |chunks[i]| <= MAX_PUSH)
            && (PartsRead(p, ReadScripts(RedeemScripts(chunks, keyHash)), 0) <==> PartsHoldBytes(p))
            && (PartsRead(p, ReadEnvelope(EnvelopeScript(c, key)), 0) <==> PartsHoldBytes(p))
            && (PartsRead(p, Some(Join(Stripped(Slots(c)))), Padding(|c|)) <==> PartsHoldBytes(p))
  {
    ScriptHashCarries(p, keyHash);
    EnvelopeCarries(p, key);
    MultisignCarries(p);
    PartsComeBack(p);
    PartsAreKept(p);
    assert Elements(p) + PaddingOps(0) == Elements(p);
    SamePrefix(CanonicalAll(Elements(p)), Elements(p), PaddingOps(Padding(|CompiledPayload(p)|)));
  }

  lemma SamePrefix(a: seq<Element>, b: seq<Element>, tail: seq<Element>)
    requires |a| == |b|
    ensures a + tail == b + tail <==> a == b
  {
    if a + tail == b + tail { assert (a + tail)[..|a|] == a && (b + tail)[..|b|] == b; }
  }

  // ---------- the scripts a commit is priced on ----------

  function Lengths(scripts: seq<seq<byte>>): (r: seq<nat>)
    ensures |r| == |scripts| && forall i | 0 <= i < |r| :: r[i] == |scripts[i]|
  {
    seq(|scripts|, i requires 0 <= i < |scripts| => |scripts[i]|)
  }

  lemma {:induction false} FewSlices(data: seq<byte>, size: nat)
    requires size > 0
    ensures |Slices(data, size)| <= |data|
    decreases |data|
  {
    if |data| > size { FewSlices(data[size..], size); }
  }

  /** The lengths of the redeem scripts of a payload. */
  function ScriptLengths(p: Payload, keyHash: seq<byte>): seq<nat>
    requires Sized(p) && PushesDecode(p) && |keyHash| == 20
  {
    ScriptHashCarries(p, keyHash);
    Lengths(RedeemScripts(Chunks(CompiledPayload(p), SCRIPT_HASH_CHUNK), keyHash))
  }

  /** A payload within the legacy ceiling has redeem scripts that a reveal can spend, at least one, signed in full. */
  lemma CompiledScriptsFit(p: Payload, keyHash: seq<byte>, c: RevealSizes.Carrier)
    requires Sized(p) && PushesDecode(p) && |keyHash| == 20 && |CompiledPayload(p)| <= MAX_COMPILED
    ensures var lengths := ScriptLengths(p, keyHash);
            && lengths != [] && (forall i | 0 <= i < |lengths| :: lengths[i] <= 505)
            && TransactionSize.Signed(c, lengths, seq(|lengths|, _ => TransactionSize.SIGNATURE))
  {
    var data := CompiledPayload(p);
    CompiledIsNotLone(p);
    ScriptHashCarries(p, keyHash);
    FewSlices(data, SCRIPT_HASH_CHUNK);
    SlicesFacts(data, SCRIPT_HASH_CHUNK);
    hide CompiledPayload; hide RedeemScript; hide Slices;
    var lengths := ScriptLengths(p, keyHash);
    forall i | 0 <= i < |lengths| ensures lengths[i] <= 505 {
      RedeemScriptsFit(data, keyHash, i);
    }
  }
}
