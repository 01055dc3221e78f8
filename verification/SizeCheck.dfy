/** The size pre-check a request meets before any work, against what the build really compiles. */
module SizeCheck {
  import opened Common
  import opened Script

  const MAX_COMPILED: nat := 8192
  const MAX_OP_RETURN: nat := 76
  const MAX_ENVELOPE: nat := 390000

  datatype Encoding = OpReturn | P2sh | P2wsh | Multisign | Taproot | Auto

  /** What the caller sent; either part may be missing. */
  datatype Payload = Payload(data: Option<seq<byte>>, rawData: Option<seq<byte>>)

  function BytesOf(part: Option<seq<byte>>): seq<byte> {
    if part.Some? then part.value else []
  }

  predicate DropsByte(part: Option<seq<byte>>) {
    part.Some? && |part.value| == 1 && IsMinimalOpByte(part.value[0])
  }

  /** The push guard: neither part is a byte that compiles to a bare opcode. */
  predicate PushesDecode(p: Payload) {
    !DropsByte(p.data) && !DropsByte(p.rawData)
  }

  predicate Sized(p: Payload) {
    |BytesOf(p.data)| <= MAX_PUSH && |BytesOf(p.rawData)| <= MAX_PUSH
  }

  /** The elements compiled: the action text always, the raw part when there is one. */
  function Elements(p: Payload): seq<Element> {
    [Push(BytesOf(p.data))] + if p.rawData.Some? then [Push(p.rawData.value)] else []
  }

  function CompiledPayload(p: Payload): seq<byte>
    requires Sized(p)
  {
    Compile(Elements(p))
  }

  // ---------- predicted and real size ----------

  function EnvelopePushSize(n: nat): nat {
    CompiledPushSize(n) + if n > 0xffff then 2 else 0
  }

  function PredictedSize(p: Payload): nat {
    EnvelopePushSize(|BytesOf(p.data)|) + if p.rawData.Some? then EnvelopePushSize(|p.rawData.value|) else 0
  }

  /** In all four push bands and for the empty push the prediction is the compiler's own framing. */
  lemma PushSizeIsExact(d: seq<byte>)
    requires |d| <= MAX_PUSH
    ensures |CompileElement(Push(d))| == EnvelopePushSize(|d|) <==> !(|d| == 1 && IsMinimalOpByte(d[0]))
  {
  }

  lemma CompileTwo(a: Element, b: Element)
    requires ElementOk(a) && ElementOk(b)
    ensures Compile([a]) == CompileElement(a) && Compile([a] + [b]) == CompileElement(a) + CompileElement(b)
  {
    assert [a][1..] == [] && [b][1..] == [];
    assert Compile([b]) == CompileElement(b);
    assert ([a] + [b])[1..] == [b];
  }

  /** The predicted size of a payload the push guard accepts is the compiled script's length. */
  lemma PredictionIsExact(p: Payload)
    requires Sized(p) && PushesDecode(p)
    ensures |CompiledPayload(p)| == PredictedSize(p)
  {
    PushSizeIsExact(BytesOf(p.data));
    PushSizeIsExact(BytesOf(p.rawData));
    CompileTwo(Push(BytesOf(p.data)), Push(BytesOf(p.rawData)));
    assert [Push(BytesOf(p.data))] + [] == [Push(BytesOf(p.data))];
  }

  /** The action text, and the raw part where there is one, are not empty. */
  predicate PartsHoldBytes(p: Payload) {
    BytesOf(p.data) != [] && (p.rawData.Some? ==> p.rawData.value != [])
  }

  /** A part the push guard let through is kept as a push exactly when it holds bytes; an empty one becomes OP_0. */
  lemma PartsAreKept(p: Payload)
    requires PushesDecode(p)
    ensures CanonicalAll(Elements(p)) == Elements(p) <==> PartsHoldBytes(p)
  {
    var es := Elements(p);
    assert es[0] == Push(BytesOf(p.data)) && (p.rawData.Some? ==> es[1] == Push(p.rawData.value));
    assert CanonicalAll(es)[0] == Canonical(es[0]) && (|es| == 2 ==> CanonicalAll(es)[1] == Canonical(es[1]));
    if PartsHoldBytes(p) { assert forall i | 0 <= i < |es| :: CanonicalAll(es)[i] == es[i]; }
  }

  /** Decompiling gives every part back exactly when they hold bytes. */
  lemma PartsComeBack(p: Payload)
    requires Sized(p) && PushesDecode(p)
    ensures Decompile(CompiledPayload(p)) == Some(Elements(p)) <==> PartsHoldBytes(p)
  {
    DecompileCompile(Elements(p));
    PartsAreKept(p);
  }

  // ---------- the two ceilings ----------

  /** The validator's check, before any node or reservation work; `encoding` None is an omitted one. */
  predicate PreCheck(p: Payload, encoding: Option<Encoding>) {
    || (p.data == None && p.rawData == None)
    || (&& PredictedSize(p) <= (if encoding == Some(Taproot) || encoding == Some(Auto) then MAX_ENVELOPE else MAX_COMPILED)
        && (encoding == Some(OpReturn) ==> PredictedSize(p) <= MAX_OP_RETURN))
  }

  /** What AUTO resolves to. */
  datatype Signer = Signer(segwit: bool, tapscript: bool, hasKey: bool)

  function SelectEncoding(compiled: nat, s: Signer): Encoding {
    if compiled + 4 <= 80 then OpReturn
    else if s.segwit && s.tapscript && s.hasKey then Taproot
    else if s.segwit then P2wsh
    else P2sh
  }

  function Resolve(compiled: nat, encoding: Option<Encoding>, s: Signer): Option<Encoding> {
    if encoding == Some(Auto) then Some(SelectEncoding(compiled, s)) else encoding
  }

  predicate CarriesPayload(p: Payload) {
    BytesOf(p.data) != [] || p.rawData.Some?
  }

  /** The build's own ceilings, on the real compiled bytes and the carrier actually chosen. */
  predicate BuildFits(p: Payload, encoding: Option<Encoding>, s: Signer)
    requires Sized(p)
  {
    var compiled := |CompiledPayload(p)|;
    var carrier := Resolve(compiled, encoding, s);
    && compiled <= (if carrier == Some(Taproot) then MAX_ENVELOPE else MAX_COMPILED)
    && (carrier == Some(OpReturn) && CarriesPayload(p) ==> compiled + 4 <= 80)
  }

  /** For every named carrier, and none, the pre-check and the build accept the same payloads. */
  lemma CeilingsAgree(p: Payload, encoding: Option<Encoding>, s: Signer)
    requires Sized(p) && PushesDecode(p) && encoding != Some(Auto)
    ensures PreCheck(p, encoding) <==> BuildFits(p, encoding, s)
  {
    PredictionIsExact(p);
  }

  /** Under AUTO the build refuses what the pre-check let through just when a legacy carrier was chosen for over 8,192 bytes. */
  lemma AutoRefusesLater(p: Payload, s: Signer)
    requires Sized(p) && PushesDecode(p)
    ensures BuildFits(p, Some(Auto), s) ==> PreCheck(p, Some(Auto))
    ensures PreCheck(p, Some(Auto)) && !BuildFits(p, Some(Auto), s)
            <==> MAX_COMPILED < |CompiledPayload(p)| <= MAX_ENVELOPE && !(s.segwit && s.tapscript && s.hasKey)
  {
    PredictionIsExact(p);
  }

  /** A carrier that the chain has and this signer can spend from. */
  predicate Usable(e: Encoding, s: Signer) {
    match e
    case Taproot => s.segwit && s.tapscript && s.hasKey
    case P2wsh => s.segwit
    case Multisign => s.hasKey
    case _ => e != Auto
  }

  /**
   AUTO picks a usable carrier: one nulldata output where the payload fits it, else the envelope
   where it can be spent, and the legacy script hash only without segwit. Some carrier the
   signer can use fits the payload exactly when the one picked does.
   */
  lemma AutoFitsIffSomethingDoes(p: Payload, s: Signer)
    requires Sized(p)
    ensures var chosen := SelectEncoding(|CompiledPayload(p)|, s);
            && Usable(chosen, s) && (chosen == OpReturn <==> |CompiledPayload(p)| <= MAX_OP_RETURN)
            && (chosen != OpReturn && Usable(Taproot, s) ==> chosen == Taproot) && (chosen == P2sh ==> !s.segwit) && chosen != Multisign
    ensures BuildFits(p, Some(Auto), s) <==> exists e :: Usable(e, s) && BuildFits(p, Some(e), s)
  {
    hide CompiledPayload;
    var chosen := SelectEncoding(|CompiledPayload(p)|, s);
    assert BuildFits(p, Some(Auto), s) <==> BuildFits(p, Some(chosen), s);
  }
}
