/**
 The candidate inputs of a build: first occurrences kept in place, mempool entries dropped
 when unwanted, then an order that depends only on the set.
 */
module InputCandidates {
  import opened Common
  import opened OutpointStore
  import opened Lexicographic

  /** A candidate; `key` is its canonical outpoint. */
  datatype Utxo = Utxo(key: Outpoint, value: nat, unconfirmed: bool)

  predicate Wanted(u: Utxo, unconfirmed: bool) {
    unconfirmed || !u.unconfirmed
  }

  function Keys(s: seq<Utxo>): set<Outpoint> {
    set u | u in s :: u.key
  }

  /** The wanted candidates, the first occurrence of each outpoint, in their order. */
  function Kept(s: seq<Utxo>, unconfirmed: bool): seq<Utxo> {
    if s == [] then []
    else
      var before := Kept(s[..|s| - 1], unconfirmed);
      var u := s[|s| - 1];
      if Wanted(u, unconfirmed) && u.key !in Keys(before) then before + [u] else before
  }

  /** `u` stands at `i`, the first wanted entry of its outpoint. */
  predicate FirstAt(s: seq<Utxo>, i: int, u: Utxo, unconfirmed: bool) {
    0 <= i < |s| && s[i] == u && Wanted(u, unconfirmed)
    && forall j | 0 <= j < i :: !(Wanted(s[j], unconfirmed) && s[j].key == u.key)
  }

  predicate DistinctKeys(s: seq<Utxo>) {
    forall i, j | 0 <= i < j < |s| :: s[i].key != s[j].key
  }

  /** The compaction loop: survivors move down over what was read already. */
  method FilterInPlace(utxos: array<Utxo>, unconfirmed: bool) returns (n: nat)
    modifies utxos
    ensures n <= utxos.Length && utxos[..n] == Kept(old(utxos[..]), unconfirmed)
  {
    ghost var was := utxos[..];
    var seen: set<Outpoint> := {};
    n := 0;
    var i := 0;
    while i < utxos.Length
      invariant 0 <= n <= i <= utxos.Length
      invariant utxos[i..] == was[i..]
      invariant utxos[..n] == Kept(was[..i], unconfirmed) && seen == Keys(utxos[..n])
    {
      var next := utxos[i];
      assert next == was[i] by { assert utxos[i..][0] == was[i..][0]; }
      assert was[..i + 1][..i] == was[..i];
      assert utxos[i..][1..] == was[i..][1..];
      if Wanted(next, unconfirmed) && next.key !in seen {
        KeysAppend(utxos[..n], next);
        ghost var kept := utxos[..n];
        seen := seen + {next.key};
        utxos[n] := next;
        n := n + 1;
        assert utxos[..n] == kept + [next];
      }
      i := i + 1;
    }
    assert was[..i] == was;
  }

  lemma KeysAppend(s: seq<Utxo>, u: Utxo)
    ensures Keys(s + [u]) == Keys(s) + {u.key}
  {
    assert forall v :: v in s + [u] <==> v in s || v == u;
  }

  lemma {:induction false} KeptIsFirst(s: seq<Utxo>, unconfirmed: bool, u: Utxo) returns (i: int)
    requires u in Kept(s, unconfirmed)
    ensures FirstAt(s, i, u, unconfirmed)
  {
    var n := |s| - 1;
    if u in Kept(s[..n], unconfirmed) {
      i := KeptIsFirst(s[..n], unconfirmed, u);
      assert forall j | 0 <= j < n :: s[..n][j] == s[j];
    } else {
      i := n;
      forall j | 0 <= j < n && Wanted(s[j], unconfirmed) ensures s[j].key != u.key {
        WantedKeyKept(s[..n], unconfirmed, j);
      }
    }
  }

  /** Every wanted entry's outpoint survives, with it or with an earlier entry. */
  lemma {:induction false} WantedKeyKept(s: seq<Utxo>, unconfirmed: bool, j: nat)
    requires j < |s| && Wanted(s[j], unconfirmed)
    ensures s[j].key in Keys(Kept(s, unconfirmed))
  {
    var n := |s| - 1;
    KeysAppend(Kept(s[..n], unconfirmed), s[n]);
    if j < n { WantedKeyKept(s[..n], unconfirmed, j); }
  }

  lemma {:induction false} FirstIsKept(s: seq<Utxo>, unconfirmed: bool, i: int, u: Utxo)
    requires FirstAt(s, i, u, unconfirmed)
    ensures u in Kept(s, unconfirmed)
  {
    var n := |s| - 1;
    var before := Kept(s[..n], unconfirmed);
    if i < n {
      FirstIsKept(s[..n], unconfirmed, i, u);
    } else if u.key in Keys(before) {
      var v :| v in before && v.key == u.key;
      var j := KeptIsFirst(s[..n], unconfirmed, v);
    }
  }

  lemma {:induction false} KeptDistinct(s: seq<Utxo>, unconfirmed: bool)
    ensures DistinctKeys(Kept(s, unconfirmed))
  {
    if s != [] {
      var before := Kept(s[..|s| - 1], unconfirmed);
      KeptDistinct(s[..|s| - 1], unconfirmed);
      assert forall i | 0 <= i < |before| :: before[i] in before;
    }
  }

  /** Exactly the first wanted entries survive, and no outpoint twice. */
  lemma KeptFacts(s: seq<Utxo>, unconfirmed: bool)
    ensures DistinctKeys(Kept(s, unconfirmed))
    ensures forall u :: u in Kept(s, unconfirmed) <==> exists i :: FirstAt(s, i, u, unconfirmed)
  {
    KeptDistinct(s, unconfirmed);
    forall u ensures u in Kept(s, unconfirmed) <==> exists i :: FirstAt(s, i, u, unconfirmed) {
      if u in Kept(s, unconfirmed) { var i := KeptIsFirst(s, unconfirmed, u); }
      if i :| FirstAt(s, i, u, unconfirmed) { FirstIsKept(s, unconfirmed, i, u); }
    }
  }

  // ---------- exact-input mode ----------

  datatype Refusal = NamesUnconfirmed | NamesTwice

  /** Exact mode refuses a list the filter would shrink. */
  method RefuseShrunkExactInputs(utxos: seq<Utxo>, exactInputs: bool, unconfirmed: bool) returns (r: Option<Refusal>)
    ensures exactInputs ==> (r == None <==> Kept(utxos, unconfirmed) == utxos)
    ensures !exactInputs ==> r == None
  {
    if !exactInputs { return None; }
    KeptAll(utxos, unconfirmed);
    var i := 0;
    while !unconfirmed && i < |utxos|
      invariant 0 <= i <= |utxos| && forall j | 0 <= j < i :: Wanted(utxos[j], unconfirmed)
    {
      if utxos[i].unconfirmed { return Some(NamesUnconfirmed); }
      i := i + 1;
    }
    var seen: set<Outpoint> := {};
    i := 0;
    while i < |utxos|
      invariant 0 <= i <= |utxos| && seen == Keys(utxos[..i]) && DistinctKeys(utxos[..i])
    {
      assert utxos[..i + 1] == utxos[..i] + [utxos[i]];
      KeysAppend(utxos[..i], utxos[i]);
      if utxos[i].key in seen {
        var u :| u in utxos[..i] && u.key == utxos[i].key;
        return Some(NamesTwice);
      }
      assert forall j | 0 <= j < i :: utxos[j] in utxos[..i];
      seen := seen + {utxos[i].key};
      i := i + 1;
    }
    assert utxos[..i] == utxos;
    return None;
  }

  lemma {:induction false} KeptShorter(s: seq<Utxo>, unconfirmed: bool)
    ensures |Kept(s, unconfirmed)| <= |s|
  {
    if s != [] { KeptShorter(s[..|s| - 1], unconfirmed); }
  }

  /** A list the filter leaves whole is all wanted. */
  lemma {:induction false} WholeIsWanted(s: seq<Utxo>, unconfirmed: bool)
    requires Kept(s, unconfirmed) == s
    ensures forall i | 0 <= i < |s| :: Wanted(s[i], unconfirmed)
  {
    if s != [] {
      var n := |s| - 1;
      KeptShorter(s[..n], unconfirmed);
      WholeIsWanted(s[..n], unconfirmed);
      assert forall i | 0 <= i < n :: s[..n][i] == s[i];
    }
  }

  /** Wanted and named once each, every candidate stays. */
  lemma {:induction false} DistinctStay(s: seq<Utxo>, unconfirmed: bool)
    requires DistinctKeys(s) && forall i | 0 <= i < |s| :: Wanted(s[i], unconfirmed)
    ensures Kept(s, unconfirmed) == s
  {
    if s != [] {
      var n := |s| - 1;
      assert forall i | 0 <= i < n :: s[..n][i] == s[i];
      DistinctStay(s[..n], unconfirmed);
      assert s == s[..n] + [s[n]];
      forall u | u in s[..n] ensures u.key != s[n].key {
        var i :| 0 <= i < n && s[..n][i] == u;
      }
    }
  }

  lemma KeptAll(s: seq<Utxo>, unconfirmed: bool)
    ensures Kept(s, unconfirmed) == s <==> DistinctKeys(s) && forall i | 0 <= i < |s| :: Wanted(s[i], unconfirmed)
  {
    KeptDistinct(s, unconfirmed);
    if Kept(s, unconfirmed) == s {
      WholeIsWanted(s, unconfirmed);
    } else if DistinctKeys(s) && forall i | 0 <= i < |s| :: Wanted(s[i], unconfirmed) {
      DistinctStay(s, unconfirmed);
    }
  }

  // ---------- the order ----------

  function Units(s: string): seq<int> {
    seq(|s|, i requires 0 <= i < |s| => s[i] as int)
  }

  lemma UnitsInjective(a: string, b: string)
    requires Units(a) == Units(b)
    ensures a == b
  {
    assert |a| == |b|;
    forall i | 0 <= i < |a| ensures a[i] == b[i] { assert Units(a)[i] == Units(b)[i]; }
  }

  /** The comparator's sign: larger value first, then transaction id and output index. */
  function CompareCandidates(a: Utxo, b: Utxo): int {
    if a.value < b.value then 1
    else if a.value > b.value then -1
    else if a.key.txid != b.key.txid then if Less(Units(a.key.txid), Units(b.key.txid)) then -1 else 1
    else a.key.vout - b.key.vout
  }

  predicate Before(a: Utxo, b: Utxo) {
    CompareCandidates(a, b) < 0
  }

  /** The comparator is a strict total order on candidates of different outpoints. */
  lemma BeforeIsTotal(a: Utxo, b: Utxo)
    requires a.key != b.key
    ensures Before(a, b) != Before(b, a)
  {
    LessTotal(Units(a.key.txid), Units(b.key.txid));
    LessAsymmetric(Units(a.key.txid), Units(b.key.txid));
    if Units(a.key.txid) == Units(b.key.txid) { UnitsInjective(a.key.txid, b.key.txid); }
  }

  lemma LessAsymmetric(a: seq<int>, b: seq<int>)
    ensures !(Less(a, b) && Less(b, a))
  {
    if Less(a, b) && Less(b, a) {
      LessTransitive(a, b, a);
      LessIrreflexive(a);
    }
  }

  lemma BeforeIsTransitive(a: Utxo, b: Utxo, c: Utxo)
    requires Before(a, b) && Before(b, c)
    ensures Before(a, c)
  {
    var x, y, z := Units(a.key.txid), Units(b.key.txid), Units(c.key.txid);
    if Less(x, y) && Less(y, z) { LessTransitive(x, y, z); }
    LessAsymmetric(x, y);
    LessAsymmetric(y, z);
  }

  /** What a sort by the comparator leaves. */
  predicate InOrder(s: seq<Utxo>) {
    forall i, j | 0 <= i < j < |s| :: Before(s[i], s[j])
  }

  /** What the order is: values never rise, and equal ones stand by transaction id, then by output index. */
  lemma InOrderMeans(s: seq<Utxo>, i: nat, j: nat)
    requires InOrder(s) && i < j < |s|
    ensures s[i].value >= s[j].value
    ensures s[i].value == s[j].value ==>
              Less(Units(s[i].key.txid), Units(s[j].key.txid)) || (s[i].key.txid == s[j].key.txid && s[i].key.vout < s[j].key.vout)
  {
    assert Before(s[i], s[j]);
  }

  /** There is one order of the same candidates, whatever sort finds it. */
  lemma {:induction false} OrderIsUnique(a: seq<Utxo>, b: seq<Utxo>)
    requires InOrder(a) && InOrder(b) && multiset(a) == multiset(b)
    ensures a == b
  {
    assert |a| == |multiset(a)| && |b| == |multiset(b)|;
    if a != [] {
      SameFirst(a, b);
      assert a == [a[0]] + a[1..] && b == [b[0]] + b[1..];
      assert multiset(a[1..]) == multiset(a) - multiset{a[0]};
      OrderIsUnique(a[1..], b[1..]);
    }
  }

  lemma SameFirst(a: seq<Utxo>, b: seq<Utxo>)
    requires a != [] && b != [] && InOrder(a) && InOrder(b) && multiset(a) == multiset(b)
    ensures a[0] == b[0]
  {
    assert a[0] in multiset(b) && b[0] in multiset(a);
    var i :| 0 <= i < |b| && b[i] == a[0];
    var j :| 0 <= j < |a| && a[j] == b[0];
    if i > 0 && j > 0 {
      BeforeIsTransitive(a[0], b[0], a[0]);
    }
  }

  /** Two entries of one outpoint are the same entry. */
  predicate Consistent(s: seq<Utxo>) {
    forall i, j | 0 <= i < |s| && 0 <= j < |s| && s[i].key == s[j].key :: s[i] == s[j]
  }

  /** What survives is, as a set, the wanted entries. */
  lemma KeptAsSet(s: seq<Utxo>, unconfirmed: bool, u: Utxo)
    requires Consistent(s)
    ensures u in Kept(s, unconfirmed) <==> u in s && Wanted(u, unconfirmed)
  {
    if u in Kept(s, unconfirmed) {
      var i := KeptIsFirst(s, unconfirmed, u);
    } else if u in s && Wanted(u, unconfirmed) {
      var i :| 0 <= i < |s| && s[i] == u;
      WantedKeyKept(s, unconfirmed, i);
      var v :| v in Kept(s, unconfirmed) && v.key == u.key;
      var j := KeptIsFirst(s, unconfirmed, v);
    }
  }

  lemma DistinctBag(a: seq<Utxo>, b: seq<Utxo>)
    requires DistinctKeys(a) && DistinctKeys(b) && forall u :: u in a <==> u in b
    ensures multiset(a) == multiset(b)
  {
    forall u ensures multiset(a)[u] == multiset(b)[u] {
      CountInDistinct(a, u);
      CountInDistinct(b, u);
    }
  }

  /**
   The ordered candidates depend only on the set of entries listed: list it in another
   order, or with other repetitions, and the same candidates come out in the same order.
   */
  lemma OrderDependsOnlyOnTheSet(s: seq<Utxo>, t: seq<Utxo>, unconfirmed: bool, a: seq<Utxo>, b: seq<Utxo>)
    requires Consistent(s) && Consistent(t) && forall u :: u in s <==> u in t
    requires multiset(a) == multiset(Kept(s, unconfirmed)) && InOrder(a)
    requires multiset(b) == multiset(Kept(t, unconfirmed)) && InOrder(b)
    ensures a == b
  {
    KeptDistinct(s, unconfirmed);
    KeptDistinct(t, unconfirmed);
    forall u ensures u in Kept(s, unconfirmed) <==> u in Kept(t, unconfirmed) {
      KeptAsSet(s, unconfirmed, u);
      KeptAsSet(t, unconfirmed, u);
    }
    DistinctBag(Kept(s, unconfirmed), Kept(t, unconfirmed));
    OrderIsUnique(a, b);
  }
}
