/**
 Every action keeps the invariant of `ReservationProtocol`. Each action is a few of the
 changes below: forgetting lapsed entries, taking free keys, moving a build on, giving
 claims up.
 */
module ReservationInvariant {
  import opened Common
  import opened OutpointStore
  import opened ReservationProtocol

  // ---------- forgetting lapsed entries ----------

  ghost predicate TrimsInts<K(!new)>(m: map<K, int>, m': map<K, int>, clock: int) {
    && (forall k | k in m' :: k in m && m'[k] == m[k])
    && (forall k | k in m && m[k] > clock :: k in m')
  }

  ghost predicate SameTokens(a: map<Outpoint, map<OwnerId, int>>, b: map<Outpoint, map<OwnerId, int>>, clock: int) {
    forall k :: Sweep(OwnersOf(a, k), clock) == Sweep(OwnersOf(b, k), clock)
  }

  ghost predicate Trims(st: Store, st': Store, clock: int) {
    && TrimsInts(st.reservations, st'.reservations, clock)
    && TrimsInts(st.recent, st'.recent, clock)
    && SameTokens(st.cancels, st'.cancels, clock)
    && (forall id | id in st'.tickets :: id in st.tickets && st'.tickets[id] == st.tickets[id])
    && (forall id | id in st.tickets && st.tickets[id].expiry > clock :: id in st'.tickets)
  }

  lemma HighestFound(a: map<OwnerId, int>, b: map<OwnerId, int>, now: int)
    requires Sweep(a, now) == Sweep(b, now) && Highest(a, now).Some?
    ensures Highest(b, now).Some? && Highest(a, now).value <= Highest(b, now).value
  {
    var o :| o in a && a[o] == Highest(a, now).value;
    assert o in Sweep(a, now) && o in Sweep(b, now);
  }

  lemma HighestOfLive(a: map<OwnerId, int>, b: map<OwnerId, int>, now: int)
    requires Sweep(a, now) == Sweep(b, now)
    ensures Highest(a, now) == Highest(b, now)
  {
    if Highest(a, now).Some? { HighestFound(a, b, now); }
    if Highest(b, now).Some? { HighestFound(b, a, now); }
  }

  lemma SameTokensSameMax(a: map<Outpoint, map<OwnerId, int>>, b: map<Outpoint, map<OwnerId, int>>, now: int)
    requires SameTokens(a, b, now)
    ensures forall k :: MaxLive(a, k, now) == MaxLive(b, k, now)
  {
    forall k ensures MaxLive(a, k, now) == MaxLive(b, k, now) {
      HighestOfLive(OwnersOf(a, k), OwnersOf(b, k), now);
    }
  }

  lemma TokenMoves(a: map<Outpoint, map<OwnerId, int>>, b: map<Outpoint, map<OwnerId, int>>, now: int, k: Outpoint, o: OwnerId)
    requires SameTokens(a, b, now)
    requires k in a && o in a[k] && a[k][o] > now
    ensures k in b && o in b[k] && b[k][o] == a[k][o]
  {
    assert o in Sweep(OwnersOf(a, k), now);
    assert o in Sweep(OwnersOf(b, k), now);
  }

  lemma TrimTokens(s: System, st': Store)
    requires SameTokens(s.store.cancels, st'.cancels, s.clock)
    ensures forall k, o, e :: Token(s.(store := st'), k, o, e) <==> Token(s, k, o, e)
  {
    forall k, o, e ensures Token(s.(store := st'), k, o, e) <==> Token(s, k, o, e) {
      if Token(s, k, o, e) { TokenMoves(s.store.cancels, st'.cancels, s.clock, k, o); }
      if Token(s.(store := st'), k, o, e) { TokenMoves(st'.cancels, s.store.cancels, s.clock, k, o); }
    }
  }

  lemma TrimClaims(s: System, st': Store)
    requires ClaimsInv(s) && Trims(s.store, st', s.clock)
    ensures ClaimsInv(s.(store := st'))
  {
    var s' := s.(store := st');
    assert forall i, c :: Entry(s', i, c) <==> Entry(s, i, c);
    assert forall i, c :: Live(s', i, c) <==> Live(s, i, c);
    SameLive(s, s');
    assert ClaimsOwned(s') && MaxRule(s') by { TrimOwned(s, st'); }
    assert TokensHeld(s') by { TrimTokens(s, st'); }
  }

  lemma TrimOwned(s: System, st': Store)
    requires ClaimsOwned(s) && MaxRule(s) && Trims(s.store, st', s.clock)
    ensures ClaimsOwned(s.(store := st')) && MaxRule(s.(store := st'))
  {
    var s' := s.(store := st');
    SameTokensSameMax(s.store.cancels, st'.cancels, s.clock);
    TrimTokens(s, st');
    forall i, c | Live(s', i, c) ensures OwnedInMaps(s', c) {
      assert Live(s, i, c) && OwnedInMaps(s, c);
    }
  }

  /** With the same live claims, holders are the same too. */
  lemma SameLive(s: System, s': System)
    requires forall i, c :: Live(s, i, c) ==> Live(s', i, c)
    ensures forall k, e | HeldAt(s, k, e) :: HeldAt(s', k, e)
    ensures forall c | LiveHolder(s, c) :: LiveHolder(s', c)
  {
    forall k, e | HeldAt(s, k, e) ensures HeldAt(s', k, e) {
      var i, c :| Live(s, i, c) && c.key == k && c.expiry == e;
      assert Live(s', i, c);
    }
    forall c | LiveHolder(s, c) ensures LiveHolder(s', c) {
      var i :| Live(s, i, c);
      assert Live(s', i, c);
    }
  }

  /** The claims part of the invariant reads only the live claims and two of the maps. */
  lemma FrameClaims(s: System, s': System)
    requires ClaimsInv(s)
    requires s'.clock == s.clock && s'.store.reservations == s.store.reservations && s'.store.cancels == s.store.cancels
    requires forall i | i in s'.builds ::
               s'.builds[i].ledger == [] || (i in s.builds && s'.builds[i].ledger == s.builds[i].ledger)
    requires forall i, c :: Live(s', i, c) <==> Live(s, i, c)
    ensures ClaimsInv(s')
  {
    SameLive(s, s');
    assert forall k, o, e :: Token(s', k, o, e) <==> Token(s, k, o, e);
    assert OwnersUnique(s') by {
      assert forall i, c | Entry(s', i, c) :: Entry(s, i, c);
    }
    assert ClaimsOwned(s') by {
      forall i, c | Live(s', i, c) ensures OwnedInMaps(s', c) { assert OwnedInMaps(s, c); }
    }
  }

  /** The tickets part reads only the returned builds and the ticket map. */
  lemma FrameTickets(s: System, s': System)
    requires TicketsInv(s) && s'.clock == s.clock && s'.store.tickets == s.store.tickets
    requires forall id, i :: IssuedTo(s', id, i) <==> IssuedTo(s, id, i)
    requires forall i | i in s'.builds && s'.builds[i].phase.Returned? :: i in s.builds && s.builds[i] == s'.builds[i]
    ensures TicketsInv(s')
  {
    forall i, c | Live(s', i, c) && c.owner == None && s'.builds[i].phase.Returned?
      ensures OnReceipt(s', s'.builds[i].phase.ticket, c)
    {
      assert Live(s, i, c);
    }
  }

  lemma TrimTickets(s: System, st': Store)
    requires TicketsInv(s) && Trims(s.store, st', s.clock)
    ensures TicketsInv(s.(store := st'))
  {
    var s' := s.(store := st');
    assert forall id, i :: IssuedTo(s', id, i) <==> IssuedTo(s, id, i);
    forall i, c | Live(s', i, c) && c.owner == None && s'.builds[i].phase.Returned? ensures OnReceipt(s', s'.builds[i].phase.ticket, c) {
      assert Live(s, i, c);
      var id := s.builds[i].phase.ticket;
      assert OnReceipt(s, id, c) && IssuedTo(s, id.value, i);
      assert TicketFits(s.store.tickets[id.value], s.builds[i], s.clock);
    }
  }

  lemma TrimKeeps(s: System, st': Store)
    requires Inv(s) && Trims(s.store, st', s.clock)
    ensures Inv(s.(store := st'))
  {
    hide ClaimsInv;
    hide TicketsInv;
    var s' := s.(store := st');
    TrimClaims(s, st');
    TrimTickets(s, st');
    assert forall i, r :: LiveRecord(s', i, r) <==> LiveRecord(s, i, r);
  }

  lemma SweepTrims(st: Store, clock: int)
    ensures Trims(st, st.(reservations := Sweep(st.reservations, clock)), clock)
    ensures Trims(st, st.(recent := Sweep(st.recent, clock)), clock)
    ensures Trims(st, st.(tickets := SweepTickets(st.tickets, clock)), clock)
    ensures Trims(st, SweepAll(st, clock), clock)
    ensures Trims(st, st.(reservations := Sweep(st.reservations, clock), cancels := SweepOwners(st.cancels, clock)), clock)
  {
    forall k ensures Sweep(OwnersOf(st.cancels, k), clock) == Sweep(OwnersOf(SweepOwners(st.cancels, clock), k), clock) {
      if k in st.cancels && Sweep(st.cancels[k], clock) != map[] {
        assert Sweep(Sweep(st.cancels[k], clock), clock) == Sweep(st.cancels[k], clock);
      }
    }
  }

  lemma TickMax(m: map<Outpoint, map<OwnerId, int>>, k: Outpoint, clock: int, ms: nat)
    ensures MaxLive(m, k, clock + ms).Some? ==> MaxLive(m, k, clock + ms) == MaxLive(m, k, clock)
  {
    var owners := OwnersOf(m, k);
    var x, y := MaxLive(m, k, clock), MaxLive(m, k, clock + ms);
    if y.Some? {
      var o :| o in owners && owners[o] == y.value;
      assert x.Some?;
      var q :| q in owners && owners[q] == x.value;
    }
  }

  lemma TickOwned(s: System, ms: nat)
    requires ClaimsOwned(s) && MaxRule(s)
    ensures ClaimsOwned(s.(clock := s.clock + ms)) && MaxRule(s.(clock := s.clock + ms))
  {
    var s' := s.(clock := s.clock + ms);
    forall k ensures MaxLive(s'.store.cancels, k, s'.clock).Some? ==>
                     MaxLive(s'.store.cancels, k, s'.clock) == MaxLive(s.store.cancels, k, s.clock) {
      TickMax(s.store.cancels, k, s.clock, ms);
    }
    forall i, c | Live(s', i, c) ensures OwnedInMaps(s', c) {
      assert Live(s, i, c) && OwnedInMaps(s, c);
    }
  }

  lemma TickHolders(s: System, ms: nat)
    requires TokensHeld(s) && NoStray(s)
    ensures TokensHeld(s.(clock := s.clock + ms)) && NoStray(s.(clock := s.clock + ms))
  {
    var s' := s.(clock := s.clock + ms);
    forall k, o, e | Token(s', k, o, e) ensures LiveHolder(s', Claim(k, e, Some(o))) {
      assert Token(s, k, o, e);
      var i :| Live(s, i, Claim(k, e, Some(o)));
      assert Live(s', i, Claim(k, e, Some(o)));
    }
    forall k | k in s'.store.reservations && s'.store.reservations[k] > s'.clock
      ensures HeldAt(s', k, s'.store.reservations[k])
    {
      assert HeldAt(s, k, s.store.reservations[k]);
      var i, c :| Live(s, i, c) && c.key == k && c.expiry == s.store.reservations[k];
      assert Live(s', i, c);
    }
  }

  lemma TickKeeps(s: System, ms: nat)
    requires Inv(s)
    ensures Inv(s.(clock := s.clock + ms))
  {
    var s' := s.(clock := s.clock + ms);
    assert forall i, c :: Entry(s', i, c) <==> Entry(s, i, c);
    TickOwned(s, ms);
    TickHolders(s, ms);
    assert forall i, c | Live(s', i, c) :: Live(s, i, c);
    assert forall i, r | LiveRecord(s', i, r) :: LiveRecord(s, i, r);
    assert forall id, i :: IssuedTo(s', id, i) <==> IssuedTo(s, id, i);
  }

  // ---------- moving a build on ----------

  /** `b'` answers for the same claims as `b`. */
  predicate SameClaims(b: Build, b': Build) {
    && b'.ledger == b.ledger && b'.cancel == b.cancel
    && Holding(b.phase) && Holding(b'.phase) && !b.phase.Returned? && !b'.phase.Returned?
  }

  lemma RephaseClaims(s: System, i: BuildId, b': Build)
    requires ClaimsInv(s) && i in s.builds && SameClaims(s.builds[i], b')
    ensures ClaimsInv(Put(s, i, b'))
  {
    hide ClaimsInv;
    FrameClaims(s, Put(s, i, b'));
  }

  lemma RephaseTickets(s: System, i: BuildId, b': Build)
    requires TicketsInv(s) && i in s.builds && !s.builds[i].phase.Returned? && !b'.phase.Returned?
    ensures TicketsInv(Put(s, i, b'))
  {
    hide TicketsInv;
    FrameTickets(s, Put(s, i, b'));
  }

  lemma RephaseKeeps(s: System, i: BuildId, b': Build)
    requires Inv(s) && i in s.builds && SameClaims(s.builds[i], b') && LedgerOk(b', s.clock) && Shape(b')
    requires b'.record == s.builds[i].record
    ensures Inv(Put(s, i, b'))
  {
    hide ClaimsInv;
    hide TicketsInv;
    var s' := Put(s, i, b');
    RephaseClaims(s, i, b');
    RephaseTickets(s, i, b');
    assert forall j, r :: LiveRecord(s', j, r) <==> LiveRecord(s, j, r);
  }

  // ---------- taking free keys ----------

  /** `b'` is `b` with claims on `keys` added, stamped by a clock value that may be stale. */
  predicate Extends(b: Build, b': Build, keys: seq<Outpoint>, now: int) {
    && !b.cancel && !b'.cancel && b.record == None && b'.record == None
    && Holding(b.phase) && Holding(b'.phase) && !b.phase.Returned? && !b'.phase.Returned?
    && b'.ledger == b.ledger + ClaimsFor(keys, now)
  }

  ghost predicate AllFree(s: System, keys: seq<Outpoint>) {
    forall k | k in keys :: !IsReserved(s.store.reservations, k, s.clock)
  }

  ghost function Taken(s: System, i: BuildId, b': Build, keys: seq<Outpoint>, now: int): System {
    Put(s.(store := s.store.(reservations := Reserve(s.store.reservations, keys, now))), i, b')
  }

  lemma TakenLive(s: System, i: BuildId, b': Build, keys: seq<Outpoint>, now: int)
    requires i in s.builds && Extends(s.builds[i], b', keys, now)
    ensures forall j, c :: Live(s, j, c) ==> Live(Taken(s, i, b', keys, now), j, c)
    ensures forall j, c | Live(Taken(s, i, b', keys, now), j, c) && !Live(s, j, c) ::
              j == i && c.owner == None && c.key in keys && c.expiry == now + RESERVATION_TTL_MS
    ensures now + RESERVATION_TTL_MS > s.clock ==>
              forall k | k in keys :: Live(Taken(s, i, b', keys, now), i, Claim(k, now + RESERVATION_TTL_MS, None))
  {
    var cs := ClaimsFor(keys, now);
    forall k | k in keys ensures Claim(k, now + RESERVATION_TTL_MS, None) in b'.ledger {
      var p :| 0 <= p < |keys| && keys[p] == k;
      assert cs[p] == Claim(k, now + RESERVATION_TTL_MS, None);
      assert b'.ledger[|s.builds[i].ledger| + p] == cs[p];
    }
  }

  lemma TakeOwned(s: System, i: BuildId, b': Build, keys: seq<Outpoint>, now: int)
    requires ClaimsInv(s) && i in s.builds && Extends(s.builds[i], b', keys, now) && AllFree(s, keys)
    ensures ClaimsOwned(Taken(s, i, b', keys, now)) && ClaimsUnique(Taken(s, i, b', keys, now))
    ensures MaxRule(Taken(s, i, b', keys, now))
  {
    var s' := Taken(s, i, b', keys, now);
    TakenLive(s, i, b', keys, now);
    forall j, c | Live(s', j, c) ensures OwnedInMaps(s', c) {
      if Live(s, j, c) {
        assert OwnedInMaps(s, c);
      } else {
        assert MaxLive(s.store.cancels, c.key, s.clock) == None;
      }
    }
    forall j, l, c, d | Live(s', j, c) && Live(s', l, d) && c.owner == None && d.owner == None && c.key == d.key
      ensures j == l
    {
      if Live(s, j, c) { assert OwnedInMaps(s, c); }
      if Live(s, l, d) { assert OwnedInMaps(s, d); }
    }
  }

  lemma TakeHolders(s: System, i: BuildId, b': Build, keys: seq<Outpoint>, now: int)
    requires OwnersUnique(s) && TokensHeld(s) && NoStray(s) && i in s.builds && Extends(s.builds[i], b', keys, now)
    ensures OwnersUnique(Taken(s, i, b', keys, now)) && TokensHeld(Taken(s, i, b', keys, now)) && NoStray(Taken(s, i, b', keys, now))
  {
    var s' := Taken(s, i, b', keys, now);
    assert forall j, c | Entry(s', j, c) && c.owner.Some? :: Entry(s, j, c);
    TakenLive(s, i, b', keys, now);
    SameLive(s, s');
    assert forall k, o, e :: Token(s', k, o, e) <==> Token(s, k, o, e);
    forall k | k in s'.store.reservations && s'.store.reservations[k] > s'.clock
      ensures HeldAt(s', k, s'.store.reservations[k])
    {
      if k in keys {
        assert Live(s', i, Claim(k, now + RESERVATION_TTL_MS, None));
      } else {
        assert HeldAt(s, k, s.store.reservations[k]);
      }
    }
  }

  lemma TakeKeeps(s: System, i: BuildId, b': Build, keys: seq<Outpoint>, now: int)
    requires Inv(s) && i in s.builds && Extends(s.builds[i], b', keys, now) && AllFree(s, keys)
    requires LedgerOk(b', s.clock) && Shape(b')
    ensures Inv(Taken(s, i, b', keys, now))
  {
    hide TicketsInv;
    var s' := Taken(s, i, b', keys, now);
    TakeOwned(s, i, b', keys, now);
    TakeHolders(s, i, b', keys, now);
    RephaseTickets(s, i, b');
    FrameTickets(Put(s, i, b'), s');
    assert forall j, r :: LiveRecord(s', j, r) <==> LiveRecord(s, j, r);
  }

  // ---------- giving claims up ----------

  lemma {:induction false} ReleaseContents(m: map<Outpoint, int>, claims: seq<Claim>)
    ensures forall k :: k in OutpointStore.Release(m, claims) <==>
              k in m && !exists c :: c in claims && c.key == k && c.expiry == m[k]
    ensures forall k | k in OutpointStore.Release(m, claims) :: OutpointStore.Release(m, claims)[k] == m[k]
  {
    if claims != [] {
      var m1 := ReleaseOne(m, claims[0]);
      ReleaseContents(m1, claims[1..]);
      assert claims == [claims[0]] + claims[1..];
    }
  }

  /** Some of `i`'s claims, every live one among them. */
  ghost predicate CoversLive(s: System, i: BuildId, claims: seq<Claim>) {
    i in s.builds && (forall c | c in claims :: c in s.builds[i].ledger) && (forall c | Live(s, i, c) :: c in claims)
  }

  predicate Final(p: Phase) {
    p == Failed || p == HandedBack
  }

  ghost function Gone(s: System, st: Store, i: BuildId, p: Phase): System
    requires i in s.builds
  {
    Put(s.(store := st), i, s.builds[i].(phase := p))
  }

  lemma GoneLive(s: System, st: Store, i: BuildId, p: Phase)
    requires i in s.builds && Final(p)
    ensures forall j, c :: Live(Gone(s, st, i, p), j, c) <==> j != i && Live(s, j, c)
    ensures forall j, r :: LiveRecord(Gone(s, st, i, p), j, r) <==> j != i && LiveRecord(s, j, r)
  {
  }

  lemma ReleaseOwned(s: System, i: BuildId, claims: seq<Claim>, p: Phase)
    requires BuildsOk(s) && ClaimsOwned(s) && ClaimsUnique(s) && MaxRule(s)
    requires CoversLive(s, i, claims) && !s.builds[i].cancel && Holding(s.builds[i].phase) && Final(p)
    ensures var s' := Gone(s, s.store.(reservations := OutpointStore.Release(s.store.reservations, claims)), i, p);
            ClaimsOwned(s') && MaxRule(s')
  {
    var m := s.store.reservations;
    var s' := Gone(s, s.store.(reservations := OutpointStore.Release(m, claims)), i, p);
    ReleaseContents(m, claims);
    forall c | c in claims && c.expiry > s.clock ensures Live(s, i, c) && c.owner == None && OwnedInMaps(s, c) {
      assert Live(s, i, c);
    }
    forall j, c | Live(s', j, c) ensures OwnedInMaps(s', c) {
      assert Live(s, j, c) && OwnedInMaps(s, c);
    }
  }

  lemma ReleaseHolders(s: System, i: BuildId, claims: seq<Claim>, p: Phase)
    requires BuildsOk(s) && TokensHeld(s) && NoStray(s)
    requires CoversLive(s, i, claims) && !s.builds[i].cancel && Holding(s.builds[i].phase) && Final(p)
    ensures var s' := Gone(s, s.store.(reservations := OutpointStore.Release(s.store.reservations, claims)), i, p);
            TokensHeld(s') && NoStray(s')
  {
    var m := s.store.reservations;
    var st' := s.store.(reservations := OutpointStore.Release(m, claims));
    var s' := Gone(s, st', i, p);
    ReleaseContents(m, claims);
    forall k, o, e | Token(s', k, o, e) ensures LiveHolder(s', Claim(k, e, Some(o))) {
      assert Token(s, k, o, e);
      var j :| Live(s, j, Claim(k, e, Some(o)));
      assert Live(s', j, Claim(k, e, Some(o)));
    }
    forall k | k in st'.reservations && st'.reservations[k] > s.clock ensures HeldAt(s', k, st'.reservations[k]) {
      assert HeldAt(s, k, m[k]);
      var j, c :| Live(s, j, c) && c.key == k && c.expiry == m[k];
      assert Live(s', j, c);
    }
  }

  /** What dropping one cancel claim does to the maps. */
  ghost function DropAndRelease(st: Store, c: Claim, now: int): Store {
    var (st', held) := DropClaimOwner(st, c, now);
    if held then st' else st'.(reservations := ReleaseOne(st'.reservations, c))
  }

  lemma OneClaim(st: Store, c: Claim, now: int)
    ensures ReleaseCancel(st, [c], now) == DropAndRelease(st, c, now)
    ensures SettleClaims(st, [c], now, [], []).0 == DropAndRelease(st, c, now)
  {
    var (st', held) := DropClaimOwner(st, c, now);
    var kept: seq<Claim> := if held then [] else [] + [c];
    assert [c][1..] == [];
    assert DropOwners(st', [], now, kept) == (st', kept);
    assert OutpointStore.Release(st'.reservations, []) == st'.reservations;
    if !held {
      assert kept == [c] && OutpointStore.Release(st'.reservations, kept) == OutpointStore.Release(ReleaseOne(st'.reservations, c), []);
    }
  }

  lemma DropTokens(s: System, i: BuildId, c: Claim, p: Phase)
    requires i in s.builds && c.owner.Some? && Final(p)
    ensures var s' := Gone(s, DropAndRelease(s.store, c, s.clock), i, p);
            forall k, o, e :: Token(s', k, o, e) <==> Token(s, k, o, e) && (k != c.key || o != c.owner.value)
  {
    var s' := Gone(s, DropAndRelease(s.store, c, s.clock), i, p);
    if c.key in s.store.cancels {
      var rest := s.store.cancels[c.key] - {c.owner.value};
      var cancels := s.store.cancels[c.key := rest];
      assert OwnersOf(cancels, c.key) == rest;
      forall o, e | Token(s, c.key, o, e) && o != c.owner.value ensures Token(s', c.key, o, e) {
        assert o in rest;
      }
    }
  }

  lemma DropEffect(st: Store, c: Claim, now: int)
    requires c.owner.Some?
    ensures var st' := DropAndRelease(st, c, now);
            && (forall k | k != c.key :: OwnersOf(st'.cancels, k) == OwnersOf(st.cancels, k))
            && (forall k | k != c.key :: (k in st'.reservations <==> k in st.reservations)
                                         && (k in st.reservations ==> st'.reservations[k] == st.reservations[k]))
            && MaxLive(st'.cancels, c.key, now) == Highest(OwnersOf(st.cancels, c.key) - {c.owner.value}, now)
            && (MaxLive(st'.cancels, c.key, now) == None ==> st'.reservations == ReleaseOne(st.reservations, c))
            && (MaxLive(st'.cancels, c.key, now).Some? ==>
                  c.key in st'.reservations && st'.reservations[c.key] == MaxLive(st'.cancels, c.key, now).value)
  {
    if c.key in st.cancels {
      assert OwnersOf(st.cancels[c.key := st.cancels[c.key] - {c.owner.value}], c.key) == st.cancels[c.key] - {c.owner.value};
    }
  }

  lemma TokenBounds(s: System, k: Outpoint)
    ensures MaxLive(s.store.cancels, k, s.clock).Some? <==> exists o, e :: Token(s, k, o, e)
  {
    var owners := OwnersOf(s.store.cancels, k);
    var x := MaxLive(s.store.cancels, k, s.clock);
    if x.Some? {
      var o :| o in owners && owners[o] == x.value;
      assert Token(s, k, o, x.value);
    }
  }

  lemma DropOwnedOne(s: System, i: BuildId, c: Claim, p: Phase, j: BuildId, d: Claim)
    requires ClaimsOwned(s) && OwnersUnique(s) && i in s.builds && s.builds[i].ledger == [c] && c.owner.Some?
    requires Holding(s.builds[i].phase) && Final(p) && j != i && Live(s, j, d)
    ensures OwnedInMaps(Gone(s, DropAndRelease(s.store, c, s.clock), i, p), d)
  {
    var s' := Gone(s, DropAndRelease(s.store, c, s.clock), i, p);
    DropTokens(s, i, c, p);
    DropEffect(s.store, c, s.clock);
    assert OwnedInMaps(s, d);
    assert Entry(s, i, c) && Entry(s, j, d);
    if d.owner == None {
      TokenBounds(s, d.key);
      TokenBounds(s', d.key);
      if d.key == c.key && c.expiry > s.clock {
        assert Live(s, i, c) && OwnedInMaps(s, c);
        assert Token(s, c.key, c.owner.value, c.expiry);
      }
    }
  }

  lemma DropOwned(s: System, i: BuildId, c: Claim, p: Phase)
    requires ClaimsInv(s) && i in s.builds && s.builds[i].ledger == [c] && c.owner.Some?
    requires Holding(s.builds[i].phase) && Final(p)
    ensures ClaimsOwned(Gone(s, DropAndRelease(s.store, c, s.clock), i, p))
    ensures MaxRule(Gone(s, DropAndRelease(s.store, c, s.clock), i, p))
  {
    var st' := DropAndRelease(s.store, c, s.clock);
    var s' := Gone(s, st', i, p);
    assert ClaimsOwned(s') by {
      forall j, d | Live(s', j, d) ensures OwnedInMaps(s', d) { DropOwnedOne(s, i, c, p, j, d); }
    }
    assert MaxRule(s') by { DropEffect(s.store, c, s.clock); }
  }

  lemma DropStray(s: System, i: BuildId, c: Claim, p: Phase, k: Outpoint)
    requires NoStray(s) && TokensHeld(s) && i in s.builds && s.builds[i].ledger == [c] && c.owner.Some?
    requires Holding(s.builds[i].phase) && Final(p)
    requires var m := DropAndRelease(s.store, c, s.clock).reservations; k in m && m[k] > s.clock
    ensures HeldAt(Gone(s, DropAndRelease(s.store, c, s.clock), i, p), k, DropAndRelease(s.store, c, s.clock).reservations[k])
  {
    var st' := DropAndRelease(s.store, c, s.clock);
    var s' := Gone(s, st', i, p);
    var e := st'.reservations[k];
    DropTokens(s, i, c, p);
    DropEffect(s.store, c, s.clock);
    var top := MaxLive(st'.cancels, c.key, s.clock);
    if k == c.key && top.Some? {
      var owners := OwnersOf(st'.cancels, k);
      var o :| o in owners && owners[o] == top.value;
      assert Token(s', k, o, e) && Token(s, k, o, e);
      assert LiveHolder(s, Claim(k, e, Some(o)));
      var j :| Live(s, j, Claim(k, e, Some(o)));
      assert Live(s', j, Claim(k, e, Some(o)));
    } else {
      assert HeldAt(s, k, e);
      var j, d :| Live(s, j, d) && d.key == k && d.expiry == e;
      assert Live(s', j, d);
    }
  }

  lemma DropHolders(s: System, i: BuildId, c: Claim, p: Phase)
    requires ClaimsInv(s) && i in s.builds && s.builds[i].ledger == [c] && c.owner.Some?
    requires Holding(s.builds[i].phase) && Final(p)
    ensures TokensHeld(Gone(s, DropAndRelease(s.store, c, s.clock), i, p))
    ensures NoStray(Gone(s, DropAndRelease(s.store, c, s.clock), i, p))
  {
    var st' := DropAndRelease(s.store, c, s.clock);
    var s' := Gone(s, st', i, p);
    assert TokensHeld(s') by {
      DropTokens(s, i, c, p);
      forall k, o, e | Token(s', k, o, e) ensures LiveHolder(s', Claim(k, e, Some(o))) {
        assert LiveHolder(s, Claim(k, e, Some(o)));
        var j :| Live(s, j, Claim(k, e, Some(o)));
        assert Live(s', j, Claim(k, e, Some(o)));
      }
    }
    assert NoStray(s') by {
      forall k | k in st'.reservations && st'.reservations[k] > s.clock ensures HeldAt(s', k, st'.reservations[k]) {
        DropStray(s, i, c, p, k);
      }
    }
  }

  lemma GoneUnique(s: System, st: Store, i: BuildId, p: Phase)
    requires ClaimsUnique(s) && OwnersUnique(s) && i in s.builds && Final(p)
    ensures ClaimsUnique(Gone(s, st, i, p)) && OwnersUnique(Gone(s, st, i, p))
  {
    assert forall j, c :: Entry(Gone(s, st, i, p), j, c) <==> Entry(s, j, c);
    GoneLive(s, st, i, p);
  }

  /** A build with no claims leaves the maps alone. */
  lemma GoneEmpty(s: System, i: BuildId, p: Phase)
    requires ClaimsInv(s) && i in s.builds && s.builds[i].ledger == [] && Final(p)
    ensures ClaimsInv(Gone(s, s.store, i, p))
  {
    hide ClaimsInv;
    FrameClaims(s, Gone(s, s.store, i, p));
  }

  /** A build that leaves with nothing: what it owned is given up, the rest stays as it was. */
  lemma GiveUpClaims(s: System, i: BuildId, claims: seq<Claim>, p: Phase)
    requires BuildsOk(s) && ClaimsInv(s) && CoversLive(s, i, claims)
    requires s.builds[i].cancel ==> claims == s.builds[i].ledger
    requires Holding(s.builds[i].phase) && Final(p)
    ensures ClaimsInv(Gone(s, GiveUp(s.store, s.builds[i].cancel, claims, s.clock), i, p))
  {
    var b := s.builds[i];
    GoneUnique(s, GiveUp(s.store, b.cancel, claims, s.clock), i, p);
    if !b.cancel {
      ReleaseOwned(s, i, claims, p);
      ReleaseHolders(s, i, claims, p);
    } else if b.ledger == [] {
      assert GiveUp(s.store, true, [], s.clock) == s.store;
      GoneEmpty(s, i, p);
    } else {
      var c := b.ledger[0];
      assert c in b.ledger && b.ledger == [c];
      OneClaim(s.store, c, s.clock);
      DropOwned(s, i, c, p);
      DropHolders(s, i, c, p);
    }
  }
}
