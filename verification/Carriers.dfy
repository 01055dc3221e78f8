/**
 The payload layouts: how a compiled payload is cut into chunks, and what each carrier's
 scripts give back to a reader who knows only the push rules of `Script`.
 */
module Carriers {
  import opened Common
  import opened Script

  const SCRIPT_HASH_CHUNK: nat := 520 - 44
  const MAX_ELEMENT: nat := 520          // "Resource limits" section of BIP 342
  const MULTISIGN_CHUNK: nat := 60
  const MULTISIGN_SLOT: nat := 64
  const OP_RETURN_LIMIT: nat := 80
  const FORMAT_V0: byte := 0
  const MAGIC: seq<byte> := [0x58, 0x43, 0x48, 0x4e]

  function Join(chunks: seq<seq<byte>>): seq<byte> {
    if chunks == [] then [] else Join(chunks[..|chunks| - 1]) + chunks[|chunks| - 1]
  }

  lemma JoinAppend(chunks: seq<seq<byte>>, c: seq<byte>)
    ensures Join(chunks + [c]) == Join(chunks) + c
  {
    assert (chunks + [c])[..|chunks|] == chunks;
  }

  lemma {:induction false} JoinPrepend(c: seq<byte>, chunks: seq<seq<byte>>)
    ensures Join([c] + chunks) == c + Join(chunks)
  {
    if chunks == [] {
      assert [c] + chunks == [] + [c];
      JoinAppend([], c);
    } else {
      var n := |chunks| - 1;
      assert ([c] + chunks)[..|chunks|] == [c] + chunks[..n];
      JoinPrepend(c, chunks[..n]);
    }
  }

  // ---------- slicing ----------

  predicate LoneOpcode(chunk: seq<byte>) {
    |chunk| == 1 && IsMinimalOpByte(chunk[0])
  }

  /** Some piece compiles to a bare opcode. */
  predicate HasOpcode(chunks: seq<seq<byte>>) {
    exists i :: 0 <= i < |chunks| && MinimalOp(chunks[i]).Some?
  }

  lemma OpcodeFirst(chunks: seq<seq<byte>>)
    requires chunks != []
    ensures HasOpcode(chunks) <==> MinimalOp(chunks[0]).Some? || HasOpcode(chunks[1..])
  {
    if HasOpcode(chunks) {
      var i :| 0 <= i < |chunks| && MinimalOp(chunks[i]).Some?;
      assert i > 0 ==> chunks[1..][i - 1] == chunks[i];
    }
    if HasOpcode(chunks[1..]) {
      var i :| 0 <= i < |chunks[1..]| && MinimalOp(chunks[1..][i]).Some?;
      assert chunks[i + 1] == chunks[1..][i];
    }
  }

  lemma OpcodeLast(chunks: seq<seq<byte>>)
    requires chunks != []
    ensures HasOpcode(chunks) <==> HasOpcode(chunks[..|chunks| - 1]) || MinimalOp(chunks[|chunks| - 1]).Some?
  {
    var n := |chunks| - 1;
    if HasOpcode(chunks[..n]) {
      var i :| 0 <= i < n && MinimalOp(chunks[..n][i]).Some?;
      assert chunks[i] == chunks[..n][i];
    }
    if HasOpcode(chunks) {
      var i :| 0 <= i < |chunks| && MinimalOp(chunks[i]).Some?;
      assert i < n ==> chunks[..n][i] == chunks[i];
    }
  }

  /** The plain cut into pieces of `size`, the last one shorter. */
  function Slices(data: seq<byte>, size: nat): seq<seq<byte>>
    requires size > 0
  {
    if data == [] then [] else if |data| <= size then [data] else [data[..size]] + Slices(data[size..], size)
  }

  /** Pieces as the plain cut leaves them: full, but for a last one that still holds something. */
  predicate Sliced(chunks: seq<seq<byte>>, size: nat) {
    forall i | 0 <= i < |chunks| :: 0 < |chunks[i]| <= size && (i < |chunks| - 1 ==> |chunks[i]| == size)
  }

  /** One byte moves across the last boundary when the last piece would compile to a bare opcode. */
  function Rebalance(chunks: seq<seq<byte>>): (r: seq<seq<byte>>)
    ensures |r| == |chunks|
  {
    var n := |chunks|;
    if n >= 2 && LoneOpcode(chunks[n - 1]) && chunks[n - 2] != [] then
      var before := chunks[n - 2];
      chunks[..n - 2] + [before[..|before| - 1]] + [[before[|before| - 1]] + chunks[n - 1]]
    else chunks
  }

  function Chunks(data: seq<byte>, size: nat): seq<seq<byte>>
    requires size > 0
  {
    Rebalance(Slices(data, size))
  }

  lemma {:induction false} SlicesFacts(data: seq<byte>, size: nat)
    requires size > 0
    ensures Join(Slices(data, size)) == data
    ensures Sliced(Slices(data, size), size)
    ensures Slices(data, size) == [] <==> data == []
    ensures |Slices(data, size)| == 1 <==> 0 < |data| <= size
    decreases |data|
  {
    if data == [] {
    } else if |data| <= size {
      assert [data][..0] == [];
    } else {
      var rest := Slices(data[size..], size);
      SlicesFacts(data[size..], size);
      JoinPrepend(data[..size], rest);
      assert data == data[..size] + data[size..];
    }
  }

  lemma JoinRebalance(chunks: seq<seq<byte>>)
    ensures Join(Rebalance(chunks)) == Join(chunks)
  {
    hide Join;
    var n := |chunks|;
    if Rebalance(chunks) != chunks {
      var before, last := chunks[n - 2], chunks[n - 1];
      assert chunks == chunks[..n - 2] + [before] + [last];
      OneAcross(chunks[..n - 2], before, last);
    }
  }

  /** One byte of the second last piece in front of the last: the join is the same. */
  lemma OneAcross(head: seq<seq<byte>>, before: seq<byte>, last: seq<byte>)
    requires before != []
    ensures Join(head + [before[..|before| - 1]] + [[before[|before| - 1]] + last]) == Join(head + [before] + [last])
  {
    hide Join;
    var kept, moved := before[..|before| - 1], [before[|before| - 1]];
    JoinLastTwo(head, before, last);
    JoinLastTwo(head, kept, moved + last);
    Regroup(kept, moved, last);
    assert kept + moved == before;
  }

  lemma JoinLastTwo(head: seq<seq<byte>>, x: seq<byte>, y: seq<byte>)
    ensures Join(head + [x] + [y]) == Join(head) + (x + y)
  {
    hide Join;
    JoinAppend(head + [x], y);
    JoinAppend(head, x);
    Regroup(Join(head), x, y);
  }

  lemma RebalancePieces(chunks: seq<seq<byte>>, size: nat, i: nat)
    requires size >= 3 && Sliced(chunks, size) && i < |chunks|
    ensures 0 < |Rebalance(chunks)[i]| <= size
    ensures |chunks| >= 2 ==> !LoneOpcode(Rebalance(chunks)[i])
    ensures |chunks| == 1 ==> Rebalance(chunks) == chunks
  {
  }

  lemma LoneIsMinimal(chunk: seq<byte>)
    requires chunk != []
    ensures MinimalOp(chunk).Some? <==> LoneOpcode(chunk)
  {
  }

  /**
   Chunking loses nothing, keeps every piece within `size`, and leaves no piece that would
   compile to a bare opcode, except a whole payload of one such byte.
   */
  lemma ChunksFacts(data: seq<byte>, size: nat)
    requires size >= 3
    ensures Join(Chunks(data, size)) == data
    ensures forall i | 0 <= i < |Chunks(data, size)| :: 0 < |Chunks(data, size)[i]| <= size
    ensures HasOpcode(Chunks(data, size)) <==> LoneOpcode(data)
  {
    var s := Slices(data, size);
    SlicesFacts(data, size);
    JoinRebalance(s);
    OnlySlice(data, size);
    hide Slices; hide Rebalance; hide Join; hide MinimalOp; hide LoneOpcode;
    var r := Rebalance(s);
    forall i | 0 <= i < |r|
      ensures 0 < |r[i]| <= size && (MinimalOp(r[i]).Some? <==> |s| == 1 && LoneOpcode(data))
    {
      RebalancePieces(s, size, i);
      LoneIsMinimal(r[i]);
    }
    if |s| != 1 { NotLone(data, size); }
    if |s| == 1 && LoneOpcode(data) { assert MinimalOp(r[0]).Some?; }
  }

  /** No fewer pieces could hold the data. */
  lemma {:induction false} ChunkCount(data: seq<byte>, size: nat)
    requires size > 0
    ensures var n := |Chunks(data, size)|; |data| <= n * size && (data != [] ==> (n - 1) * size < |data|)
    decreases |data|
  {
    if |data| > size {
      ChunkCount(data[size..], size);
      var n := |Slices(data[size..], size)|;
      assert (n + 1) * size == n * size + size && (n - 1) * size == n * size - size;
    }
  }

  lemma OnlySlice(data: seq<byte>, size: nat)
    requires size > 0
    ensures |Slices(data, size)| == 1 ==> Slices(data, size) == [data]
  {
    SlicesFacts(data, size);
  }

  lemma NotLone(data: seq<byte>, size: nat)
    requires size > 0 && |Slices(data, size)| != 1
    ensures !LoneOpcode(data)
  {
    SlicesFacts(data, size);
  }

  /** The plain slicing loop. */
  method SlicePieces(data: seq<byte>, size: nat) returns (chunks: seq<seq<byte>>)
    requires size > 0
    ensures chunks == Slices(data, size)
  {
    chunks := [];
    var i := 0;
    assert data[0..] == data;
    NoSlices(size);
    hide Slices;
    while i < |data|
      invariant 0 <= i <= |data|
      invariant chunks + Slices(data[i..], size) == Slices(data, size)
    {
      var next := data[i..Min(i + size, |data|)];
      NextSlice(data, i, size);
      assert chunks + ([next] + Slices(data[i + |next|..], size)) == chunks + [next] + Slices(data[i + |next|..], size);
      chunks := chunks + [next];
      i := i + |next|;
    }
    assert data[i..] == [] && chunks + [] == chunks;
  }

  lemma NoSlices(size: nat)
    requires size > 0
    ensures Slices([], size) == []
  {
  }

  lemma NextSlice(data: seq<byte>, i: nat, size: nat)
    requires size > 0 && i < |data|
    ensures var next := data[i..Min(i + size, |data|)];
            Slices(data[i..], size) == [next] + Slices(data[i + |next|..], size)
  {
    var end := Min(i + size, |data|);
    if i + size < |data| {
      assert data[i..][..size] == data[i..end] && data[i..][size..] == data[end..];
    } else {
      assert data[end..] == [] && data[i..end] == data[i..];
    }
  }

  /** The slicing loop, then the last two pieces cut again from the data itself when the last would be an opcode. */
  method SliceChunks(data: seq<byte>, size: nat) returns (chunks: seq<seq<byte>>)
    requires size > 0
    ensures chunks == Chunks(data, size)
  {
    chunks := SlicePieces(data, size);
    if |chunks| >= 2 {
      var n := |chunks|;
      var last := chunks[n - 1];
      LastTwo(data, size);
      if |last| == 1 && IsMinimalOpByte(last[0]) {
        var before := chunks[n - 2];
        var prevStart := |data| - 1 - |before|;
        CutAgain(data, before, last);
        chunks := chunks[n - 2 := data[prevStart..|data| - 2]];
        chunks := chunks[n - 1 := data[|data| - 2..]];
      }
    }
  }

  /** The last two pieces with one byte moved across, cut from the data. */
  lemma CutAgain(data: seq<byte>, before: seq<byte>, last: seq<byte>)
    requires |before| > 0 && |last| == 1 && |data| >= |before| + 1
    requires data[|data| - 1..] == last && data[|data| - 1 - |before|..|data| - 1] == before
    ensures before[..|before| - 1] == data[|data| - 1 - |before|..|data| - 2]
    ensures [before[|before| - 1]] + last == data[|data| - 2..]
  {
    assert data[|data| - 2] == before[|before| - 1] && data[|data| - 1] == last[0];
  }

  /** Where the last two pieces sit in the data. */
  lemma LastTwo(data: seq<byte>, size: nat)
    requires size > 0 && |Slices(data, size)| >= 2
    ensures var s := Slices(data, size);
            var before, last := s[|s| - 2], s[|s| - 1];
            |data| >= |before| + |last| && data[|data| - |last|..] == last
            && data[|data| - |last| - |before|..|data| - |last|] == before && |before| > 0
  {
    var s := Slices(data, size);
    SlicesFacts(data, size);
    var n := |s|;
    assert s == (s[..n - 2] + [s[n - 2]]) + [s[n - 1]];
    JoinAppend(s[..n - 2] + [s[n - 2]], s[n - 1]);
    JoinAppend(s[..n - 2], s[n - 2]);
  }

  // ---------- script-hash carriers ----------

  function RedeemElements(chunk: seq<byte>, keyHash: seq<byte>): seq<Element> {
    [Push(chunk), Op(OP_DROP), Op(OP_DUP), Op(OP_HASH160), Push(keyHash), Op(OP_EQUALVERIFY), Op(OP_CHECKSIG)]
  }

  function RedeemScript(chunk: seq<byte>, keyHash: seq<byte>): seq<byte>
    requires |chunk| <= MAX_PUSH && |keyHash| == 20
  {
    Compile(RedeemElements(chunk, keyHash))
  }

  /** One redeem script a chunk. */
  function RedeemScripts(chunks: seq<seq<byte>>, keyHash: seq<byte>): (r: seq<seq<byte>>)
    requires |keyHash| == 20 && forall i | 0 <= i < |chunks| :: |chunks[i]| <= MAX_PUSH
    ensures |r| == |chunks|
  {
    seq(|chunks|, i requires 0 <= i < |chunks| => RedeemScript(chunks[i], keyHash))
  }

  method ScriptHashPayload(data: seq<byte>, keyHash: seq<byte>) returns (scripts: seq<seq<byte>>)
    requires |keyHash| == 20
    ensures (forall i | 0 <= i < |Chunks(data, SCRIPT_HASH_CHUNK)| :: |Chunks(data, SCRIPT_HASH_CHUNK)[i]| <= MAX_PUSH)
            && scripts == RedeemScripts(Chunks(data, SCRIPT_HASH_CHUNK), keyHash)
  {
    hide Chunks; hide RedeemScript;
    var chunks := SliceChunks(data, SCRIPT_HASH_CHUNK);
    ChunksFacts(data, SCRIPT_HASH_CHUNK);
    ghost var all := RedeemScripts(chunks, keyHash);
    scripts := [];
    for i := 0 to |chunks|
      invariant scripts == all[..i]
    {
      assert all[..i + 1] == all[..i] + [all[i]];
      scripts := scripts + [RedeemScript(chunks[i], keyHash)];
    }
    assert all[..|chunks|] == all;
  }

  /** What a reader finds in one redeem script: the data its first push carries. */
  function ReadRedeem(script: seq<byte>): Option<seq<byte>> {
    match Decompile(script)
    case None => None
    case Some(es) => if es != [] && es[0].Push? then Some(es[0].data) else None
  }

  /** The payload spread over the scripts, in order; None when one of them carries no data. */
  function ReadScripts(scripts: seq<seq<byte>>): Option<seq<byte>> {
    if scripts == [] then Some([])
    else
      var n := |scripts| - 1;
      match ReadScripts(scripts[..n])
      case None => None
      case Some(before) => match ReadRedeem(scripts[n]) { case None => None case Some(d) => Some(before + d) }
  }

  lemma RedeemReads(chunk: seq<byte>, keyHash: seq<byte>)
    requires |chunk| <= MAX_PUSH && |keyHash| == 20
    ensures ReadRedeem(RedeemScript(chunk, keyHash)) == if MinimalOp(chunk).Some? then None else Some(chunk)
  {
    DecompileCompile(RedeemElements(chunk, keyHash));
  }

  lemma {:induction false} ScriptsRead(chunks: seq<seq<byte>>, keyHash: seq<byte>)
    requires |keyHash| == 20 && forall i | 0 <= i < |chunks| :: |chunks[i]| <= MAX_PUSH
    ensures ReadScripts(RedeemScripts(chunks, keyHash))
            == if HasOpcode(chunks) then None else Some(Join(chunks))
  {
    hide RedeemScript; hide ReadRedeem; hide MinimalOp;
    if chunks != [] {
      var n := |chunks| - 1;
      ScriptsRead(chunks[..n], keyHash);
      RedeemReads(chunks[n], keyHash);
      var scripts := RedeemScripts(chunks, keyHash);
      assert scripts[..n] == RedeemScripts(chunks[..n], keyHash) && scripts[n] == RedeemScript(chunks[n], keyHash);
      OpcodeLast(chunks);
      hide HasOpcode;
    }
  }

  /** Reading the redeem scripts of a payload gives it back, unless it is one byte that compiles to an opcode. */
  lemma ScriptHashRoundTrip(data: seq<byte>, keyHash: seq<byte>)
    requires |keyHash| == 20
    ensures var chunks := Chunks(data, SCRIPT_HASH_CHUNK);
            (forall i | 0 <= i < |chunks| :: |chunks[i]| <= MAX_PUSH)
            && (ReadScripts(RedeemScripts(chunks, keyHash)) == Some(data) <==> !LoneOpcode(data))
  {
    ChunksFacts(data, SCRIPT_HASH_CHUNK);
    ScriptsRead(Chunks(data, SCRIPT_HASH_CHUNK), keyHash);
  }

  lemma RedeemLength(chunk: seq<byte>, keyHash: seq<byte>)
    requires |chunk| <= MAX_PUSH && |keyHash| == 20 && MinimalOp(chunk) == None
    ensures |RedeemScript(chunk, keyHash)| == |PushPrefix(|chunk|)| + |chunk| + 26
  {
    PushLength(chunk);
    PushLength(keyHash);
    hide CompileElement; hide Compile;
    var none: seq<Element> := [];
    var check := [Op(OP_CHECKSIG)] + none;
    CompilePrepend(Op(OP_CHECKSIG), none);
    var gate := [Op(OP_EQUALVERIFY)] + check;
    CompilePrepend(Op(OP_EQUALVERIFY), check);
    var key := [Push(keyHash)] + gate;
    CompilePrepend(Push(keyHash), gate);
    var hash := [Op(OP_HASH160)] + key;
    CompilePrepend(Op(OP_HASH160), key);
    var dup := [Op(OP_DUP)] + hash;
    CompilePrepend(Op(OP_DUP), hash);
    var drop := [Op(OP_DROP)] + dup;
    CompilePrepend(Op(OP_DROP), dup);
    CompilePrepend(Push(chunk), drop);
    assert RedeemElements(chunk, keyHash) == [Push(chunk)] + drop;
  }

  lemma PushLength(data: seq<byte>)
    requires |data| <= MAX_PUSH
    ensures MinimalOp(data) == None ==> |CompileElement(Push(data))| == |PushPrefix(|data|)| + |data|
    ensures |data| == 20 ==> |CompileElement(Push(data))| == 21
    ensures forall c: byte | ElementOk(Op(c)) :: |CompileElement(Op(c))| == 1
    ensures Compile([]) == []
  {
  }

  /** Every redeem script is at most 505 bytes, within the 520-byte element limit. */
  lemma RedeemScriptsFit(data: seq<byte>, keyHash: seq<byte>, i: nat)
    requires |keyHash| == 20 && !LoneOpcode(data) && i < |Chunks(data, SCRIPT_HASH_CHUNK)|
    ensures |Chunks(data, SCRIPT_HASH_CHUNK)[i]| <= MAX_PUSH
    ensures |RedeemScript(Chunks(data, SCRIPT_HASH_CHUNK)[i], keyHash)| <= 505
  {
    ChunksFacts(data, SCRIPT_HASH_CHUNK);
    RedeemLength(Chunks(data, SCRIPT_HASH_CHUNK)[i], keyHash);
  }

  // ---------- the Taproot envelope ----------

  function Pushes(chunks: seq<seq<byte>>): (r: seq<Element>)
    ensures |r| == |chunks| && forall i | 0 <= i < |r| :: r[i] == Push(chunks[i])
  {
    seq(|chunks|, i requires 0 <= i < |chunks| => Push(chunks[i]))
  }

  function EnvelopeElements(chunks: seq<seq<byte>>, key: seq<byte>): seq<Element> {
    [Op(OP_0), Op(OP_IF), Push(MAGIC), Push([FORMAT_V0])] + Pushes(chunks) + [Op(OP_ENDIF), Push(key), Op(OP_CHECKSIG)]
  }

  lemma EnvelopeElementsOk(data: seq<byte>, key: seq<byte>)
    requires |key| == 32
    ensures ElementsOk(EnvelopeElements(Chunks(data, MAX_ELEMENT), key))
  {
    ChunksFacts(data, MAX_ELEMENT);
  }

  function EnvelopeScript(data: seq<byte>, key: seq<byte>): seq<byte>
    requires |key| == 32
  {
    EnvelopeElementsOk(data, key);
    Compile(EnvelopeElements(Chunks(data, MAX_ELEMENT), key))
  }

  method EnvelopePayload(data: seq<byte>, compressedKey: seq<byte>) returns (script: seq<byte>)
    requires |compressedKey| == 33
    ensures script == EnvelopeScript(data, compressedKey[1..])
  {
    var key := compressedKey[1..];
    var chunks := SliceChunks(data, MAX_ELEMENT);
    EnvelopeElementsOk(data, key);
    script := Compile([Op(OP_0), Op(OP_IF), Push(MAGIC), Push([FORMAT_V0])] + Pushes(chunks) + [Op(OP_ENDIF), Push(key), Op(OP_CHECKSIG)]);
  }

  /** The data pushes up to OP_ENDIF, joined; None on anything else before it. */
  function ReadUntilEndif(es: seq<Element>): Option<seq<byte>> {
    if es == [] then None
    else if es[0] == Op(OP_ENDIF) then Some([])
    else if es[0].Op? then None
    else match ReadUntilEndif(es[1..]) { case None => None case Some(rest) => Some(es[0].data + rest) }
  }

  function ReadEnvelope(script: seq<byte>): Option<seq<byte>> {
    match Decompile(script)
    case None => None
    case Some(es) =>
      if |es| < 4 || es[..4] != [Op(OP_0), Op(OP_IF), Push(MAGIC), Push([FORMAT_V0])] then None else ReadUntilEndif(es[4..])
  }

  lemma {:induction false} PushesRead(chunks: seq<seq<byte>>, tail: seq<Element>)
    requires tail != [] && tail[0] == Op(OP_ENDIF) && forall i | 0 <= i < |chunks| :: chunks[i] != []
    ensures ReadUntilEndif(CanonicalAll(Pushes(chunks)) + tail)
            == if HasOpcode(chunks) then None else Some(Join(chunks))
  {
    if chunks == [] {
      assert CanonicalAll(Pushes(chunks)) + tail == tail;
    } else {
      var c, rest := chunks[0], chunks[1..];
      PushesRead(rest, tail);
      PushesTail(chunks, tail);
      OpcodeFirst(chunks);
      assert chunks == [c] + rest;
      JoinPrepend(c, rest);
      hide Join; hide MinimalOp; hide HasOpcode; hide CanonicalAll; hide Pushes;
    }
  }

  lemma PushesTail(chunks: seq<seq<byte>>, tail: seq<Element>)
    requires chunks != []
    ensures var es := CanonicalAll(Pushes(chunks)) + tail;
            es != [] && es[0] == Canonical(Push(chunks[0])) && es[1..] == CanonicalAll(Pushes(chunks[1..])) + tail
  {
  }

  /** The envelope's header and what follows it, as a script reads back. */
  lemma EnvelopeReads(chunks: seq<seq<byte>>, key: seq<byte>)
    requires |key| == 32
    ensures var es := CanonicalAll(EnvelopeElements(chunks, key));
            && |es| >= 4 && es[..4] == [Op(OP_0), Op(OP_IF), Push(MAGIC), Push([FORMAT_V0])]
            && es[4..] == CanonicalAll(Pushes(chunks)) + [Op(OP_ENDIF), Push(key), Op(OP_CHECKSIG)]
  {
    var es := EnvelopeElements(chunks, key);
    var r := CanonicalAll(es);
    assert r[0] == es[0] && r[1] == es[1] && r[2] == es[2] && r[3] == es[3];
  }

  /** The envelope leaf gives the payload back, under the same one exception. */
  lemma EnvelopeRoundTrip(data: seq<byte>, key: seq<byte>)
    requires |key| == 32
    ensures ReadEnvelope(EnvelopeScript(data, key)) == Some(data) <==> !LoneOpcode(data)
  {
    var chunks := Chunks(data, MAX_ELEMENT);
    var es := EnvelopeElements(chunks, key);
    var tail := [Op(OP_ENDIF), Push(key), Op(OP_CHECKSIG)];
    hide Chunks; hide Compile; hide Decompile; hide Join; hide ReadUntilEndif; hide MinimalOp;
    ChunksFacts(data, MAX_ELEMENT);
    EnvelopeElementsOk(data, key);
    DecompileCompile(es);
    EnvelopeReads(chunks, key);
    hide EnvelopeElements; hide CanonicalAll;
    PushesRead(chunks, tail);
  }

  /** No element of the envelope is over the tapscript element limit. */
  lemma EnvelopeElementsFit(data: seq<byte>, key: seq<byte>, i: nat)
    requires |key| == 32 && i < |EnvelopeElements(Chunks(data, MAX_ELEMENT), key)|
    ensures var e := EnvelopeElements(Chunks(data, MAX_ELEMENT), key)[i]; e.Push? ==> 0 < |e.data| <= MAX_ELEMENT
  {
    ChunksFacts(data, MAX_ELEMENT);
  }

  // ---------- bare multisig and OP_RETURN ----------

  function Zeros(n: nat): (r: seq<byte>)
    ensures |r| == n && forall i | 0 <= i < n :: r[i] == 0
  {
    seq(n, _ => 0)
  }

  function Slot(piece: seq<byte>): seq<byte>
    requires |piece| <= MULTISIGN_CHUNK
  {
    MAGIC + piece + Zeros(MULTISIGN_SLOT - |MAGIC| - |piece|)
  }

  /** The padded slots a payload fills: all full but the last. */
  function Slots(data: seq<byte>): seq<seq<byte>> {
    if data == [] then []
    else if |data| <= MULTISIGN_CHUNK then [Slot(data)]
    else [Slot(data[..MULTISIGN_CHUNK])] + Slots(data[MULTISIGN_CHUNK..])
  }

  method MultisignPayload(data: seq<byte>) returns (slots: seq<seq<byte>>)
    ensures slots == Slots(data)
  {
    slots := [];
    var i := 0;
    assert data[0..] == data;
    while i < |data|
      invariant 0 <= i <= |data|
      invariant slots + Slots(data[i..]) == Slots(data)
    {
      var next := data[i..Min(i + MULTISIGN_CHUNK, |data|)];
      var slot := MAGIC + next;
      if |slot| < MULTISIGN_SLOT { slot := slot + Zeros(MULTISIGN_SLOT - |slot|); }
      NextSlot(data, i);
      assert slot == Slot(next);
      slots := slots + [slot];
      i := i + |next|;
    }
  }

  lemma NextSlot(data: seq<byte>, i: nat)
    requires i < |data|
    ensures var next := data[i..Min(i + MULTISIGN_CHUNK, |data|)]; Slots(data[i..]) == [Slot(next)] + Slots(data[i + |next|..])
  {
    var end := Min(i + MULTISIGN_CHUNK, |data|);
    if i + MULTISIGN_CHUNK < |data| {
      assert data[i..][..MULTISIGN_CHUNK] == data[i..end] && data[i..][MULTISIGN_CHUNK..] == data[end..];
    } else {
      assert data[end..] == [] && data[i..end] == data[i..];
    }
  }

  function Padding(n: nat): (r: nat)
    ensures r < MULTISIGN_CHUNK
  {
    (MULTISIGN_CHUNK - n % MULTISIGN_CHUNK) % MULTISIGN_CHUNK
  }

  /** Every slot is 64 bytes behind the magic. */
  lemma {:induction false} SlotsShape(data: seq<byte>)
    ensures forall i | 0 <= i < |Slots(data)| :: |Slots(data)[i]| == MULTISIGN_SLOT && Slots(data)[i][..4] == MAGIC
    decreases |data|
  {
    if |data| > MULTISIGN_CHUNK { SlotsShape(data[MULTISIGN_CHUNK..]); }
  }

  /** Without the magic the slots join to the payload and fewer than 60 zeros. */
  lemma {:induction false} SlotsRoundTrip(data: seq<byte>)
    ensures Join(Stripped(Slots(data))) == data + Zeros(Padding(|data|))
    decreases |data|
  {
    hide Slots; hide Join; hide Stripped; hide Zeros;
    if |data| <= MULTISIGN_CHUNK {
      LastSlot(data);
    } else {
      SlotsSplit(data);
      SlotsRoundTrip(data[MULTISIGN_CHUNK..]);
      PaddingStep(|data|);
      hide Padding;
      Regroup(data[..MULTISIGN_CHUNK], data[MULTISIGN_CHUNK..], Zeros(Padding(|data|)));
    }
  }

  lemma PaddingStep(n: nat)
    requires n > MULTISIGN_CHUNK
    ensures Padding(n) == Padding(n - MULTISIGN_CHUNK)
  {
  }

  lemma Regroup(a: seq<byte>, b: seq<byte>, c: seq<byte>)
    ensures a + (b + c) == (a + b) + c
  {
  }

  lemma LastSlot(data: seq<byte>)
    requires |data| <= MULTISIGN_CHUNK
    ensures Join(Stripped(Slots(data))) == data + Zeros(Padding(|data|))
  {
    hide Slots; hide Slot; hide Zeros; hide Padding; hide Join; hide Stripped;
    if data == [] {
      NoSlots();
    } else {
      OneSlot(data);
      SlotTail(data);
      LastPadding(|data|);
      StrippedOne(Slot(data));
    }
  }

  lemma NoSlots()
    ensures Join(Stripped(Slots([]))) == [] && [] + Zeros(Padding(0)) == []
  {
    assert Stripped([]) == [];
  }

  lemma OneSlot(data: seq<byte>)
    requires 0 < |data| <= MULTISIGN_CHUNK
    ensures Slots(data) == [Slot(data)]
  {
    hide Slot;
  }

  lemma FirstSlot(data: seq<byte>)
    requires |data| > MULTISIGN_CHUNK
    ensures Slots(data) == [Slot(data[..MULTISIGN_CHUNK])] + Slots(data[MULTISIGN_CHUNK..])
  {
    hide Slot;
  }

  lemma StrippedOne(slot: seq<byte>)
    requires |slot| >= 4
    ensures Join(Stripped([slot])) == slot[4..]
  {
    assert Stripped([slot]) == [] + [slot[4..]];
    hide Stripped;
    JoinAppend([], slot[4..]);
  }

  lemma LastPadding(n: nat)
    requires 0 < n <= MULTISIGN_CHUNK
    ensures Padding(n) == MULTISIGN_CHUNK - n
  {
  }

  lemma SlotTail(data: seq<byte>)
    requires |data| <= MULTISIGN_CHUNK
    ensures |Slot(data)| == MULTISIGN_SLOT && Slot(data)[4..] == data + Zeros(MULTISIGN_CHUNK - |data|)
  {
  }

  lemma SlotsSplit(data: seq<byte>)
    requires |data| > MULTISIGN_CHUNK
    ensures Join(Stripped(Slots(data))) == data[..MULTISIGN_CHUNK] + Join(Stripped(Slots(data[MULTISIGN_CHUNK..])))
    ensures data == data[..MULTISIGN_CHUNK] + data[MULTISIGN_CHUNK..]
  {
    hide Slots; hide Slot; hide Join; hide Zeros;
    var first, rest := data[..MULTISIGN_CHUNK], Slots(data[MULTISIGN_CHUNK..]);
    FirstSlot(data);
    SlotTail(first);
    assert first + Zeros(0) == first;
    StrippedPrepend(Slot(first), rest);
    JoinPrepend(first, Stripped(rest));
  }

  lemma StrippedPrepend(slot: seq<byte>, rest: seq<seq<byte>>)
    requires |slot| >= 4
    ensures Stripped([slot] + rest) == [slot[4..]] + Stripped(rest)
  {
  }

  /** The slots without their magic. */
  function Stripped(slots: seq<seq<byte>>): (r: seq<seq<byte>>)
    ensures |r| == |slots|
  {
    seq(|slots|, i requires 0 <= i < |slots| => if |slots[i]| < 4 then [] else slots[i][4..])
  }

  /** One nulldata output or a refusal: no decoder reassembles two. */
  method OpReturnPayload(data: seq<byte>) returns (r: Result<seq<seq<byte>>, string>)
    ensures r.Ok? <==> |data| + |MAGIC| <= OP_RETURN_LIMIT
    ensures r.Ok? ==> r.value == [MAGIC + data]
  {
    if |data| > OP_RETURN_LIMIT - |MAGIC| { return Err("OP_RETURN payload too large"); }
    return Ok([MAGIC + data]);
  }
}
