/**
 Script pushes: the compiler's framing and canonicalisation, and a decompiler written from
 the push rules. Rule 3 of BIP 62 makes the shortest push the only standard one.
 */
module Script {
  import opened Common

  type byte = x: int | 0 <= x < 256

  const OP_0: byte := 0
  const OP_PUSHDATA1: byte := 76
  const OP_PUSHDATA2: byte := 77
  const OP_PUSHDATA4: byte := 78
  const OP_1NEGATE: byte := 79
  const OP_RESERVED: byte := 80
  const OP_IF: byte := 99
  const OP_ENDIF: byte := 104
  const OP_DROP: byte := 117
  const OP_DUP: byte := 118
  const OP_EQUALVERIFY: byte := 136
  const OP_HASH160: byte := 169
  const OP_CHECKSIG: byte := 172

  /** One script element: an opcode, or data to push. */
  datatype Element = Op(code: byte) | Push(data: seq<byte>)

  predicate IsMinimalOpByte(b: byte) {
    0x01 <= b <= 0x10 || b == 0x81
  }

  /** The bare opcode a push of `data` canonicalises to, if any. */
  function MinimalOp(data: seq<byte>): Option<byte> {
    if data == [] then Some(OP_0)
    else if |data| > 1 || !IsMinimalOpByte(data[0]) then None
    else if data[0] == 0x81 then Some(OP_1NEGATE)
    else Some(OP_RESERVED + data[0])
  }

  const MAX_PUSH: nat := 0xffffffff

  function PushPrefix(n: nat): seq<byte>
    requires n <= MAX_PUSH
  {
    if n < 76 then [n]
    else if n <= 0xff then [OP_PUSHDATA1, n]
    else if n <= 0xffff then [OP_PUSHDATA2, n % 256, n / 256]
    else [OP_PUSHDATA4, n % 256, n / 256 % 256, n / 65536 % 256, n / 16777216]
  }

  /** What the compiler is given: opcodes that frame no data, and pushes a length prefix can hold. */
  predicate ElementOk(e: Element) {
    match e
    case Op(c) => c == OP_0 || c > OP_PUSHDATA4
    case Push(d) => |d| <= MAX_PUSH
  }

  predicate ElementsOk(es: seq<Element>) {
    forall i | 0 <= i < |es| :: ElementOk(es[i])
  }

  function CompileElement(e: Element): seq<byte>
    requires ElementOk(e)
  {
    match e
    case Op(c) => [c]
    case Push(d) => match MinimalOp(d) { case Some(c) => [c] case None => PushPrefix(|d|) + d }
  }

  function Compile(es: seq<Element>): seq<byte>
    requires ElementsOk(es)
  {
    if es == [] then [] else CompileElement(es[0]) + Compile(es[1..])
  }

  lemma CompilePrepend(e: Element, es: seq<Element>)
    requires ElementOk(e) && ElementsOk(es)
    ensures ElementsOk([e] + es) && Compile([e] + es) == CompileElement(e) + Compile(es)
  {
    assert ([e] + es)[1..] == es;
    hide CompileElement;
  }

  /** What a script says of an element: a canonicalised push has become its opcode. */
  function Canonical(e: Element): Element {
    if e.Push? && MinimalOp(e.data).Some? then Op(MinimalOp(e.data).value) else e
  }

  function CanonicalAll(es: seq<Element>): (r: seq<Element>)
    ensures |r| == |es| && forall i | 0 <= i < |es| :: r[i] == Canonical(es[i])
  {
    seq(|es|, i requires 0 <= i < |es| => Canonical(es[i]))
  }

  /** The size estimate of a push, with no band past 65,535 bytes. */
  function CompiledPushSize(n: nat): nat {
    if n <= 75 then n + 1 else if n <= 255 then n + 2 else n + 3
  }

  // ---------- the decompiler ----------

  function Value(b: byte): nat {
    b
  }

  /** The data length and prefix size announced by a push opcode at the head of `s`; None when cut short. */
  function PushHeader(s: seq<byte>): Option<(nat, nat)>
    requires s != []
  {
    if s[0] < OP_PUSHDATA1 then Some((s[0], 1))
    else if s[0] == OP_PUSHDATA1 then if |s| < 2 then None else Some((s[1], 2))
    else if s[0] == OP_PUSHDATA2 then if |s| < 3 then None else Some((Value(s[1]) + 256 * Value(s[2]), 3))
    else if |s| < 5 then None else Some((Value(s[1]) + 256 * Value(s[2]) + 65536 * Value(s[3]) + 16777216 * Value(s[4]), 5))
  }

  /** The first element of a script and what follows it. */
  function DecompileOne(s: seq<byte>): (r: Option<(Element, seq<byte>)>)
    requires s != []
    ensures r.Some? ==> |r.value.1| < |s|
  {
    if s[0] == OP_0 || s[0] > OP_PUSHDATA4 then Some((Op(s[0]), s[1..]))
    else
      match PushHeader(s)
      case None => None
      case Some((n, prefix)) =>
        if |s| < prefix + n then None else Some((Canonical(Push(s[prefix..prefix + n])), s[prefix + n..]))
  }

  function Decompile(s: seq<byte>): Option<seq<Element>>
    decreases |s|
  {
    if s == [] then Some([])
    else
      match DecompileOne(s)
      case None => None
      case Some((e, rest)) => match Decompile(rest) { case None => None case Some(es) => Some([e] + es) }
  }

  lemma PrefixReads(d: seq<byte>, rest: seq<byte>)
    requires 0 < |d| <= MAX_PUSH
    ensures var s := PushPrefix(|d|) + d + rest;
            s[0] != OP_0 && s[0] <= OP_PUSHDATA4 && PushHeader(s) == Some((|d|, |PushPrefix(|d|)|))
  {
    var s := PushPrefix(|d|) + d + rest;
    assert s[..|PushPrefix(|d|)|] == PushPrefix(|d|);
    assert forall i | 0 <= i < |PushPrefix(|d|)| :: s[i] == PushPrefix(|d|)[i];
    FourBytes(|d|);
  }

  lemma FourBytes(n: nat)
    requires n <= MAX_PUSH
    ensures n % 256 + 256 * (n / 256 % 256) + 65536 * (n / 65536 % 256) + 16777216 * (n / 16777216) == n
  {
    assert n / 256 / 256 == n / 65536 && n / 65536 / 256 == n / 16777216;
  }

  lemma ElementReads(e: Element, rest: seq<byte>)
    requires ElementOk(e)
    ensures CompileElement(e) + rest != [] && DecompileOne(CompileElement(e) + rest) == Some((Canonical(e), rest))
  {
    var s := CompileElement(e) + rest;
    if e.Push? && MinimalOp(e.data) == None {
      var p := PushPrefix(|e.data|);
      PrefixReads(e.data, rest);
      assert s == p + e.data + rest;
      assert s[|p|..|p| + |e.data|] == e.data && s[|p| + |e.data|..] == rest;
    } else {
      assert s[1..] == rest;
    }
  }

  /** Decompiling a compiled script gives its elements back, canonicalised pushes as the opcodes they became. */
  lemma {:induction false} DecompileCompile(es: seq<Element>)
    requires ElementsOk(es)
    ensures Decompile(Compile(es)) == Some(CanonicalAll(es))
  {
    if es != [] {
      ElementReads(es[0], Compile(es[1..]));
      DecompileCompile(es[1..]);
      assert CanonicalAll(es) == [Canonical(es[0])] + CanonicalAll(es[1..]);
    }
  }

  lemma {:induction false} CompileConcat(a: seq<Element>, b: seq<Element>)
    requires ElementsOk(a) && ElementsOk(b)
    ensures Compile(a + b) == Compile(a) + Compile(b)
  {
    if a == [] {
      assert a + b == b;
    } else {
      assert (a + b)[1..] == a[1..] + b;
      CompileConcat(a[1..], b);
    }
  }
}
