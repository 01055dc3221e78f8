/**
 Who can spend what the carriers lock: an evaluator of the opcodes they use, with the hash and
 the signature check as parameters, and that the payload never has a say in the spend.
 */
module ScriptEval {
  import opened Common
  import opened Script
  import opened Carriers

  type Item = seq<byte>

  /** HASH160, and whether a signature verifies under a key. */
  datatype Checks = Checks(hash160: Item -> Item, verifies: (Item, Item) -> bool)

  /** True unless it is all zeros, or zeros before a final sign bit. */
  predicate Truthy(x: Item) {
    exists i :: 0 <= i < |x| && x[i] != 0 && (i < |x| - 1 || x[i] != 0x80)
  }

  function Flag(b: bool): Item {
    if b then [1] else []
  }

  /** What an opcode that pushes a constant pushes. */
  function Constant(code: byte): Option<Item> {
    if code == OP_0 then Some([])
    else if code == OP_1NEGATE then Some([0x81])
    else if OP_RESERVED < code <= OP_RESERVED + 16 then Some([code - OP_RESERVED])
    else None
  }

  /** The stack, its top last, and the conditionals entered and skipped; None is a failed script. */
  datatype Machine = Machine(stack: seq<Item>, entered: nat, skipped: nat)

  function Skip(code: byte, m: Machine): Machine
    requires m.skipped > 0
  {
    if code == OP_IF then m.(skipped := m.skipped + 1) else if code == OP_ENDIF then m.(skipped := m.skipped - 1) else m
  }

  function Act(code: byte, m: Machine, c: Checks): Option<Machine> {
    var n := |m.stack|;
    if Constant(code).Some? then Some(m.(stack := m.stack + [Constant(code).value]))
    else if code == OP_DROP && n >= 1 then Some(m.(stack := m.stack[..n - 1]))
    else if code == OP_DUP && n >= 1 then Some(m.(stack := m.stack + [m.stack[n - 1]]))
    else if code == OP_HASH160 && n >= 1 then Some(m.(stack := m.stack[..n - 1] + [c.hash160(m.stack[n - 1])]))
    else if code == OP_EQUALVERIFY && n >= 2 && m.stack[n - 1] == m.stack[n - 2] then Some(m.(stack := m.stack[..n - 2]))
    else if code == OP_CHECKSIG && n >= 2 then
      Some(m.(stack := m.stack[..n - 2] + [Flag(c.verifies(m.stack[n - 2], m.stack[n - 1]))]))
    else if code == OP_IF && n >= 1 then
      var rest := m.(stack := m.stack[..n - 1]);
      Some(if Truthy(m.stack[n - 1]) then rest.(entered := m.entered + 1) else rest.(skipped := 1))
    else if code == OP_ENDIF && m.entered > 0 then Some(m.(entered := m.entered - 1))
    else None
  }

  function Turn(e: Element, m: Machine, c: Checks): Option<Machine> {
    match e
    case Push(d) => Some(if m.skipped > 0 then m else m.(stack := m.stack + [d]))
    case Op(code) => if m.skipped > 0 then Some(Skip(code, m)) else Act(code, m, c)
  }

  function Eval(es: seq<Element>, m: Machine, c: Checks): Option<Machine> {
    if es == [] then Some(m)
    else match Turn(es[0], m, c) { case None => None case Some(next) => Eval(es[1..], next, c) }
  }

  /** The script ends with one true item and every conditional closed. */
  predicate Unlocks(script: seq<byte>, stack: seq<Item>, c: Checks) {
    Decompile(script).Some? &&
    var end := Eval(Decompile(script).value, Machine(stack, 0, 0), c);
    end.Some? && |end.value.stack| == 1 && Truthy(end.value.stack[0]) && end.value.entered == end.value.skipped == 0
  }

  lemma EvalFirst(e: Element, es: seq<Element>, m: Machine, c: Checks)
    ensures Eval([e] + es, m, c) == match Turn(e, m, c) { case None => None case Some(next) => Eval(es, next, c) }
  {
    assert ([e] + es)[1..] == es;
  }

  lemma FlagIsTrue(b: bool)
    ensures Truthy(Flag(b)) <==> b
  {
    if b { assert Flag(b)[0] != 0; }
  }

  // ---------- redeem scripts ----------

  /** A push or the opcode it became puts the same bytes on the stack. */
  lemma CanonicalPushes(d: seq<byte>, m: Machine, c: Checks)
    requires m.skipped == 0
    ensures Turn(Canonical(Push(d)), m, c) == Some(m.(stack := m.stack + [d]))
  {
    assert |d| == 1 ==> d == [d[0]];
  }

  /** The data goes on the stack and off again. */
  lemma DataIsDropped(d: seq<byte>, rest: seq<Element>, stack: seq<Item>, c: Checks)
    ensures Eval([Canonical(Push(d))] + ([Op(OP_DROP)] + rest), Machine(stack, 0, 0), c) == Eval(rest, Machine(stack, 0, 0), c)
  {
    var m, held := Machine(stack, 0, 0), Machine(stack + [d], 0, 0);
    CanonicalPushes(d, m, c);
    EvalFirst(Canonical(Push(d)), [Op(OP_DROP)] + rest, m, c);
    EvalFirst(Op(OP_DROP), rest, held, c);
    assert Turn(Op(OP_DROP), held, c) == Some(m) by { assert (stack + [d])[..|stack|] == stack; }
    hide Turn; hide Eval;
  }

  function Gate(keyHash: seq<byte>): seq<Element> {
    [Op(OP_DUP), Op(OP_HASH160), Push(keyHash), Op(OP_EQUALVERIFY), Op(OP_CHECKSIG)]
  }

  /** The rest is an ordinary pay-to-key-hash. */
  lemma GateChecks(keyHash: seq<byte>, stack: seq<Item>, c: Checks)
    ensures var n := |stack|;
            Eval(Gate(keyHash), Machine(stack, 0, 0), c)
            == if n >= 2 && c.hash160(stack[n - 1]) == keyHash
               then Some(Machine(stack[..n - 2] + [Flag(c.verifies(stack[n - 2], stack[n - 1]))], 0, 0)) else None
  {
    var m, n := Machine(stack, 0, 0), |stack|;
    assert Gate(keyHash) == [Op(OP_DUP)] + ([Op(OP_HASH160)] + ([Push(keyHash)] + ([Op(OP_EQUALVERIFY)] + ([Op(OP_CHECKSIG)] + []))));
    EvalFirst(Op(OP_DUP), [Op(OP_HASH160)] + ([Push(keyHash)] + ([Op(OP_EQUALVERIFY)] + ([Op(OP_CHECKSIG)] + []))), m, c);
    if n > 0 {
      var top := stack[n - 1];
      var m1, m2 := m.(stack := stack + [top]), m.(stack := stack + [c.hash160(top)]);
      var m3 := m.(stack := stack + [c.hash160(top)] + [keyHash]);
      EvalFirst(Op(OP_HASH160), [Push(keyHash)] + ([Op(OP_EQUALVERIFY)] + ([Op(OP_CHECKSIG)] + [])), m1, c);
      assert Turn(Op(OP_HASH160), m1, c) == Some(m2) by { assert (stack + [top])[..n] == stack; }
      EvalFirst(Push(keyHash), [Op(OP_EQUALVERIFY)] + ([Op(OP_CHECKSIG)] + []), m2, c);
      EvalFirst(Op(OP_EQUALVERIFY), [Op(OP_CHECKSIG)] + [], m3, c);
      assert m3.stack[..n] == stack;
      EvalFirst(Op(OP_CHECKSIG), [], m, c);
    }
  }

  /**
   A redeem script is spent by a signature and a key, in that order and nothing else, exactly when
   the key hashes to the one paid and the signature verifies under it, whatever data it carries.
   */
  lemma RedeemUnlocksIff(chunk: seq<byte>, keyHash: seq<byte>, stack: seq<Item>, c: Checks)
    requires |chunk| <= MAX_PUSH && |keyHash| == 20
    ensures Unlocks(RedeemScript(chunk, keyHash), stack, c)
            <==> |stack| == 2 && c.hash160(stack[1]) == keyHash && c.verifies(stack[0], stack[1])
  {
    var es := RedeemElements(chunk, keyHash);
    DecompileCompile(es);
    assert CanonicalAll(es) == [Canonical(Push(chunk))] + ([Op(OP_DROP)] + Gate(keyHash)) by {
      assert Canonical(Push(keyHash)) == Push(keyHash);
    }
    hide Decompile; hide Compile; hide Eval; hide Gate; hide RedeemElements; hide CanonicalAll; hide Canonical; hide Truthy; hide Flag;
    DataIsDropped(chunk, Gate(keyHash), stack, c);
    GateChecks(keyHash, stack, c);
    if |stack| == 2 { FlagIsTrue(c.verifies(stack[0], stack[1])); }
  }

  // ---------- the Taproot leaf ----------

  /** Nothing a push can become ends or opens a conditional. */
  lemma {:induction false} PushesAreSkipped(chunks: seq<seq<byte>>, rest: seq<Element>, m: Machine, c: Checks)
    requires m.skipped > 0
    ensures Eval(CanonicalAll(Pushes(chunks)) + rest, m, c) == Eval(rest, m, c)
  {
    if chunks == [] {
      assert CanonicalAll(Pushes(chunks)) + rest == rest;
    } else {
      var more := CanonicalAll(Pushes(chunks[1..])) + rest;
      assert CanonicalAll(Pushes(chunks)) + rest == [Canonical(Push(chunks[0]))] + more;
      EvalFirst(Canonical(Push(chunks[0])), more, m, c);
      PushesAreSkipped(chunks[1..], rest, m, c);
    }
  }

  function Leaf(chunks: seq<seq<byte>>, key: seq<byte>): seq<Element> {
    CanonicalAll(EnvelopeElements(chunks, key))
  }

  lemma LeafShape(chunks: seq<seq<byte>>, key: seq<byte>)
    requires |key| == 32
    ensures Leaf(chunks, key)
            == [Op(OP_0)] + ([Op(OP_IF)] + (CanonicalAll(Pushes([MAGIC, [FORMAT_V0]] + chunks)) + ([Op(OP_ENDIF)] + Tail(key))))
  {
    EnvelopeReads(chunks, key);
    var all := [MAGIC, [FORMAT_V0]] + chunks;
    assert CanonicalAll(Pushes(all)) == [Push(MAGIC), Push([FORMAT_V0])] + CanonicalAll(Pushes(chunks));
    assert Leaf(chunks, key) == Leaf(chunks, key)[..4] + Leaf(chunks, key)[4..];
  }

  function Tail(key: seq<byte>): seq<Element> {
    [Push(key), Op(OP_CHECKSIG)]
  }

  lemma TailChecks(key: seq<byte>, stack: seq<Item>, c: Checks)
    ensures var n := |stack|;
            Eval(Tail(key), Machine(stack, 0, 0), c)
            == if n >= 1 then Some(Machine(stack[..n - 1] + [Flag(c.verifies(stack[n - 1], key))], 0, 0)) else None
  {
    var held := Machine(stack + [key], 0, 0);
    assert Tail(key) == [Push(key)] + ([Op(OP_CHECKSIG)] + []);
    EvalFirst(Push(key), [Op(OP_CHECKSIG)] + [], Machine(stack, 0, 0), c);
    EvalFirst(Op(OP_CHECKSIG), [], held, c);
    assert |stack| > 0 ==> held.stack[..|stack| - 1] == stack[..|stack| - 1];
  }

  lemma LeafEvals(chunks: seq<seq<byte>>, key: seq<byte>, stack: seq<Item>, c: Checks)
    requires |key| == 32
    ensures Eval(Leaf(chunks, key), Machine(stack, 0, 0), c) == Eval(Tail(key), Machine(stack, 0, 0), c)
  {
    LeafShape(chunks, key);
    var m, off := Machine(stack, 0, 0), Machine(stack, 0, 1);
    var after := [Op(OP_ENDIF)] + Tail(key);
    var envelope := CanonicalAll(Pushes([MAGIC, [FORMAT_V0]] + chunks)) + after;
    hide Eval; hide Leaf; hide Tail; hide Pushes; hide CanonicalAll;
    EvalFirst(Op(OP_0), [Op(OP_IF)] + envelope, m, c);
    EvalFirst(Op(OP_IF), envelope, m.(stack := stack + [[]]), c);
    assert (stack + [[]])[..|stack|] == stack;
    PushesAreSkipped([MAGIC, [FORMAT_V0]] + chunks, after, off, c);
    EvalFirst(Op(OP_ENDIF), Tail(key), off, c);
  }

  /** The leaf is spent by one signature that verifies under its key, whatever it carries: the envelope is skipped. */
  lemma LeafUnlocksIff(data: seq<byte>, key: seq<byte>, stack: seq<Item>, c: Checks)
    requires |key| == 32
    ensures Unlocks(EnvelopeScript(data, key), stack, c) <==> |stack| == 1 && c.verifies(stack[0], key)
  {
    var chunks := Chunks(data, MAX_ELEMENT);
    EnvelopeElementsOk(data, key);
    DecompileCompile(EnvelopeElements(chunks, key));
    assert Decompile(EnvelopeScript(data, key)) == Some(Leaf(chunks, key));
    hide Decompile; hide Compile; hide Eval; hide Truthy; hide Flag; hide Leaf; hide Tail; hide EnvelopeScript;
    LeafEvals(chunks, key, stack, c);
    TailChecks(key, stack, c);
    if |stack| == 1 { FlagIsTrue(c.verifies(stack[0], key)); }
  }
}
