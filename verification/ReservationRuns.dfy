/** Receipts, releases and selection keep the invariant; so every run does. */
module ReservationRuns {
  import opened Common
  import opened OutpointStore
  import opened ReservationProtocol
  import opened ReservationInvariant
  import opened ReservationSteps

  // ---------- receipts ----------

  ghost function Minted(s: System, i: BuildId, id: TicketId): System
    requires i in s.builds
  {
    var b := s.builds[i];
    var (st, receipt) := Mint(s.store, b.ledger, if b.record.Some? then Some(b.record.value.txid) else None, id, s.clock);
    Put(s.(store := st), i, b.(phase := Returned(receipt)))
  }

  lemma DistinctPrepend(k: Outpoint, keys: seq<Outpoint>)
    requires Distinct(keys) && k !in keys
    ensures Distinct([k] + keys)
  {
  }

  lemma {:induction false} StillStampedDistinct(m: map<Outpoint, int>, claims: seq<Claim>)
    requires Distinct(KeysOf(claims))
    ensures Distinct(KeysOf(StillStamped(m, claims)))
  {
    if claims != [] {
      var keys, rest := KeysOf(claims), StillStamped(m, claims[1..]);
      assert KeysOf(claims[1..]) == keys[1..];
      assert Distinct(keys[1..]) by { assert forall p | 0 <= p < |keys[1..]| :: keys[1..][p] == keys[p + 1]; }
      StillStampedDistinct(m, claims[1..]);
      StillStampedContents(m, claims[1..]);
      StampedKeys(claims, rest);
      DistinctPrepend(claims[0].key, KeysOf(rest));
      assert KeysOf([claims[0]] + rest) == [claims[0].key] + KeysOf(rest);
      assert [] + rest == rest;
    }
  }

  /** The first claim's key is not among later claims' keys. */
  lemma StampedKeys(claims: seq<Claim>, rest: seq<Claim>)
    requires claims != [] && Distinct(KeysOf(claims)) && forall c | c in rest :: c in claims[1..]
    ensures claims[0].key !in KeysOf(rest)
  {
    forall q | 0 <= q < |rest| ensures rest[q].key != claims[0].key {
      assert rest[q] in claims[1..];
      var p :| 0 <= p < |claims[1..]| && claims[1..][p] == rest[q];
      assert KeysOf(claims)[p + 1] == rest[q].key && KeysOf(claims)[0] == claims[0].key;
    }
  }

  /** A fresh ticket says what the build still holds and carries its duplicate-build record. */
  lemma MintedFits(s: System, i: BuildId, id: TicketId)
    requires BuildsOk(s) && RecordsOk(s) && MayMint(s, i) && Minted(s, i, id).builds[i].phase == Returned(Some(id))
    ensures TicketFits(Minted(s, i, id).store.tickets[id], s.builds[i], s.clock)
  {
    var b := s.builds[i];
    var t := Minted(s, i, id).store.tickets[id];
    StillStampedContents(s.store.reservations, b.ledger);
    StillStampedDistinct(s.store.reservations, b.ledger);
    if b.cancel && b.ledger != [] {
      assert b.ledger == [b.ledger[0]] && b.ledger[1..] == [];
      assert StillStamped(s.store.reservations, b.ledger[1..]) == [];
    }
    if !b.cancel && t.expiry > s.clock {
      var c :| c in t.claims && c.expiry == t.expiry;
      assert LiveRecord(s, i, b.record.value);
    }
  }

  lemma MintedIssued(s: System, i: BuildId, id: TicketId)
    requires TicketsIssued(s) && TicketsUnique(s) && MayMint(s, i) && TicketUnused(s, id)
    ensures TicketsIssued(Minted(s, i, id)) && TicketsUnique(Minted(s, i, id))
  {
    var s' := Minted(s, i, id);
    var receipt := s'.builds[i].phase.ticket;
    assert forall x, j :: IssuedTo(s', x, j) <==> IssuedTo(s, x, j) || (j == i && receipt == Some(x));
    forall x | x in s'.store.tickets ensures TicketIssued(s', x) {
      if x in s.store.tickets {
        assert TicketIssued(s, x);
        var j :| IssuedTo(s, x, j);
        assert IssuedTo(s', x, j);
      } else {
        assert IssuedTo(s', x, i);
      }
    }
  }

  lemma MintedFit(s: System, i: BuildId, id: TicketId)
    requires BuildsOk(s) && RecordsOk(s) && TicketsFit(s) && MayMint(s, i) && TicketUnused(s, id)
    ensures TicketsFit(Minted(s, i, id))
  {
    var s' := Minted(s, i, id);
    var receipt := s'.builds[i].phase.ticket;
    if receipt.Some? { MintedFits(s, i, id); }
    hide BuildsOk; hide RecordsOk; hide TicketFits; hide LastExpiry;
    forall x, j | x in s'.store.tickets && IssuedTo(s', x, j) ensures TicketFits(s'.store.tickets[x], s'.builds[j], s'.clock) {
      assert j == i ==> x == id;
      assert j != i ==> IssuedTo(s, x, j);
      FitsAnyPhase(s'.store.tickets[x], s.builds[j], s'.builds[j], s.clock);
    }
  }

  lemma FitsAnyPhase(t: Ticket, b: Build, b': Build, clock: int)
    requires b' == b.(phase := b'.phase)
    ensures TicketFits(t, b', clock) == TicketFits(t, b, clock)
  {
  }

  lemma MintedReceipts(s: System, i: BuildId, id: TicketId)
    requires ClaimsOwned(s) && ReceiptsComplete(s) && MayMint(s, i) && TicketUnused(s, id)
    requires s.store.tickets == SweepTickets(s.store.tickets, s.clock)
    ensures ReceiptsComplete(Minted(s, i, id))
  {
    var s' := Minted(s, i, id);
    forall j, c | Live(s', j, c) && c.owner == None && s'.builds[j].phase.Returned?
      ensures OnReceipt(s', s'.builds[j].phase.ticket, c)
    {
      assert Live(s, j, c);
      if j == i {
        assert OwnedInMaps(s, c);
        StillStampedContents(s.store.reservations, s.builds[i].ledger);
      } else {
        assert OnReceipt(s, s.builds[j].phase.ticket, c);
      }
    }
  }

  lemma MintedBuilds(s: System, i: BuildId, id: TicketId)
    requires BuildsOk(s) && MayMint(s, i)
    ensures BuildsOk(Minted(s, i, id))
  {
  }

  lemma MintedClaims(s: System, i: BuildId, id: TicketId)
    requires ClaimsInv(s) && MayMint(s, i)
    ensures ClaimsInv(Minted(s, i, id))
  {
    hide ClaimsInv;
    FrameClaims(s, Minted(s, i, id));
  }

  lemma MintedRecords(s: System, i: BuildId, id: TicketId)
    requires RecordsOk(s) && MayMint(s, i)
    ensures RecordsOk(Minted(s, i, id))
  {
    assert forall j, r :: LiveRecord(Minted(s, i, id), j, r) <==> LiveRecord(s, j, r);
  }

  lemma MintedTicketsInv(s: System, i: BuildId, id: TicketId)
    requires Inv(s) && MayMint(s, i) && TicketUnused(s, id)
    requires s.store.tickets == SweepTickets(s.store.tickets, s.clock)
    ensures TicketsInv(Minted(s, i, id))
  {
    hide BuildsOk; hide RecordsOk; hide ClaimsOwned; hide ClaimsUnique; hide OwnersUnique; hide TokensHeld; hide MaxRule;
    hide NoStray; hide TicketsIssued; hide TicketsFit; hide TicketsUnique; hide ReceiptsComplete; hide Minted;
    MintedIssued(s, i, id);
    MintedFit(s, i, id);
    MintedReceipts(s, i, id);
  }

  lemma MintedKeeps(s: System, i: BuildId, id: TicketId)
    requires Inv(s) && MayMint(s, i) && TicketUnused(s, id)
    requires s.store.tickets == SweepTickets(s.store.tickets, s.clock)
    ensures Inv(Minted(s, i, id))
  {
    hide BuildsOk; hide ClaimsInv; hide TicketsInv; hide RecordsOk;
    MintedTicketsInv(s, i, id);
    MintedBuilds(s, i, id);
    MintedClaims(s, i, id);
    MintedRecords(s, i, id);
  }

  lemma MintKeeps(s: System, i: BuildId, id: TicketId)
    requires Inv(s)
    ensures Inv(Apply(s, MintReceipt(i, id)))
  {
    hide Inv;
    if MayMint(s, i) && TicketUnused(s, id) {
      var st := s.store.(tickets := SweepTickets(s.store.tickets, s.clock));
      SweepTrims(s.store, s.clock);
      TrimKeeps(s, st);
      var t := s.(store := st);
      assert SweepTickets(st.tickets, s.clock) == st.tickets;
      MintedKeeps(t, i, id);
      assert Apply(s, MintReceipt(i, id)) == Minted(t, i, id);
    }
  }

  // ---------- releasing a receipt ----------

  lemma {:induction false} SettleCreate(st: Store, claims: seq<Claim>, now: int, released: seq<Outpoint>, retained: seq<Outpoint>)
    requires forall c | c in claims :: c.owner == None
    ensures SettleClaims(st, claims, now, released, retained).0
            == st.(reservations := OutpointStore.Release(st.reservations, claims))
    decreases |claims|
  {
    if claims != [] {
      var c := claims[0];
      assert claims == [c] + claims[1..];
      if Stamped(st.reservations, c) {
        SettleCreate(st.(reservations := st.reservations - {c.key}), claims[1..], now, released + [c.key], retained);
      } else {
        SettleCreate(st, claims[1..], now, released, retained + [c.key]);
      }
    }
  }

  /** Settling a receipt changes the maps as giving its claims up does. */
  lemma SettleIsGiveUp(st: Store, cancel: bool, claims: seq<Claim>, now: int)
    requires forall c | c in claims :: c.owner.Some? == cancel
    requires cancel ==> |claims| == 1
    ensures SettleClaims(st, claims, now, [], []).0 == GiveUp(st, cancel, claims, now)
  {
    if cancel {
      assert claims == [claims[0]];
      OneClaim(st, claims[0], now);
    } else {
      SettleCreate(st, claims, now, [], []);
    }
  }

  /** Build `i` after its live receipt `id` is released. */
  ghost function Settled(s: System, id: TicketId, i: BuildId): System
    requires i in s.builds && id in s.store.tickets
  {
    var t := s.store.tickets[id];
    var st := GiveUp(s.store.(tickets := s.store.tickets - {id}), s.builds[i].cancel, t.claims, s.clock);
    Put(s.(store := RetireRecord(st, t)), i, s.builds[i].(phase := HandedBack))
  }

  lemma TicketCovers(s: System, id: TicketId, i: BuildId)
    requires Inv(s) && id in s.store.tickets && IssuedTo(s, id, i)
    ensures CoversLive(s, i, s.store.tickets[id].claims)
    ensures s.builds[i].cancel ==> s.store.tickets[id].claims == s.builds[i].ledger
    ensures s.builds[i].cancel ==> |s.store.tickets[id].claims| == 1
    ensures forall c | c in s.store.tickets[id].claims :: c.owner.Some? == s.builds[i].cancel
  {
    forall c | Live(s, i, c) ensures c in s.store.tickets[id].claims {
      if c.owner == None { assert OnReceipt(s, Some(id), c); }
    }
  }

  lemma SettledClaims(s: System, id: TicketId, i: BuildId)
    requires BuildsOk(s) && ClaimsInv(s) && id in s.store.tickets && IssuedTo(s, id, i)
    requires CoversLive(s, i, s.store.tickets[id].claims)
    requires s.builds[i].cancel ==> s.store.tickets[id].claims == s.builds[i].ledger
    ensures ClaimsInv(Settled(s, id, i))
  {
    hide ClaimsInv; hide GiveUp;
    var t := s.store.tickets[id];
    var u := s.(store := s.store.(tickets := s.store.tickets - {id}));
    assert BuildsOk(u);
    hide BuildsOk;
    assert forall j, c :: Live(u, j, c) <==> Live(s, j, c);
    FrameClaims(s, u);
    GiveUpClaims(u, i, t.claims, HandedBack);
    var v := Gone(u, GiveUp(u.store, s.builds[i].cancel, t.claims, s.clock), i, HandedBack);
    assert forall j, c :: Live(v, j, c) <==> Live(Settled(s, id, i), j, c);
    FrameClaims(v, Settled(s, id, i));
  }

  lemma SettledStore(s: System, id: TicketId, i: BuildId)
    requires id in s.store.tickets && i in s.builds
    requires s.builds[i].cancel ==> |s.store.tickets[id].claims| == 1
    requires forall c | c in s.store.tickets[id].claims :: c.owner.Some? == s.builds[i].cancel
    ensures Settled(s, id, i).store.tickets == s.store.tickets - {id}
    ensures Settled(s, id, i).store.recent == RetireRecord(s.store, s.store.tickets[id]).recent
  {
    GiveUpStore(s.store.(tickets := s.store.tickets - {id}), s.builds[i], s.clock, s.store.tickets[id].claims);
  }

  /** Who is named by a receipt once `id` is settled: everybody but `i`. */
  lemma SettledIssued(s: System, id: TicketId, i: BuildId)
    requires TicketsUnique(s) && id in s.store.tickets && IssuedTo(s, id, i)
    ensures forall x, j :: IssuedTo(Settled(s, id, i), x, j) <==> IssuedTo(s, x, j) && j != i
    ensures forall x | x != id :: TicketIssued(s, x) ==> TicketIssued(Settled(s, id, i), x)
  {
    hide RetireRecord; hide GiveUp; hide IsTicketId;
    var s' := Settled(s, id, i);
    forall x | x != id && TicketIssued(s, x) ensures TicketIssued(s', x) {
      var j :| IssuedTo(s, x, j);
      assert IssuedTo(s', x, j);
    }
  }

  lemma SettledReceipts(s: System, id: TicketId, i: BuildId)
    requires TicketsUnique(s) && ReceiptsComplete(s) && id in s.store.tickets && IssuedTo(s, id, i)
    requires Settled(s, id, i).store.tickets == s.store.tickets - {id}
    ensures ReceiptsComplete(Settled(s, id, i))
  {
    hide RetireRecord; hide GiveUp;
    var s' := Settled(s, id, i);
    forall j, c | Live(s', j, c) && c.owner == None && s'.builds[j].phase.Returned?
      ensures OnReceipt(s', s'.builds[j].phase.ticket, c)
    {
      assert Live(s, j, c) && OnReceipt(s, s.builds[j].phase.ticket, c);
      assert IssuedTo(s, s.builds[j].phase.ticket.value, j);
    }
  }

  lemma SettledFit(s: System, id: TicketId, i: BuildId)
    requires TicketsFit(s) && TicketsUnique(s) && id in s.store.tickets && IssuedTo(s, id, i)
    requires Settled(s, id, i).store.tickets == s.store.tickets - {id}
    ensures TicketsFit(Settled(s, id, i))
  {
    hide RetireRecord; hide GiveUp; hide TicketFits;
    var s' := Settled(s, id, i);
    forall x, j | x in s'.store.tickets && IssuedTo(s', x, j) ensures TicketFits(s'.store.tickets[x], s'.builds[j], s'.clock) {
      assert IssuedTo(s, x, j) && s'.builds[j] == s.builds[j];
    }
  }

  lemma SettledTickets(s: System, id: TicketId, i: BuildId)
    requires TicketsInv(s) && id in s.store.tickets && IssuedTo(s, id, i)
    requires Settled(s, id, i).store.tickets == s.store.tickets - {id}
    ensures TicketsInv(Settled(s, id, i))
  {
    hide Settled; hide IssuedTo; hide TicketIssued; hide TicketsFit; hide ReceiptsComplete;
    SettledIssued(s, id, i);
    SettledReceipts(s, id, i);
    SettledFit(s, id, i);
  }

  lemma SettledRecords(s: System, id: TicketId, i: BuildId)
    requires BuildsOk(s) && RecordsOk(s) && TicketsFit(s) && id in s.store.tickets && IssuedTo(s, id, i)
    requires s.store.tickets[id].expiry > s.clock
    requires Settled(s, id, i).store.recent == RetireRecord(s.store, s.store.tickets[id]).recent
    ensures RecordsOk(Settled(s, id, i))
  {
    SettledLive(s, id, i);
    var t, b := s.store.tickets[id], s.builds[i];
    assert TicketFits(t, b, s.clock) && LedgerOk(b, s.clock);
    hide BuildsOk; hide TicketsFit; hide Settled; hide TicketFits;
    if b.record.Some? && b.record.value.expiry > s.clock { assert LiveRecord(s, i, b.record.value); }
  }

  lemma SettledLive(s: System, id: TicketId, i: BuildId)
    requires i in s.builds && Holding(s.builds[i].phase) && id in s.store.tickets
    ensures forall j, r :: LiveRecord(Settled(s, id, i), j, r) <==> LiveRecord(s, j, r) && j != i
  {
    hide GiveUp; hide RetireRecord;
  }

  lemma SettledBuilds(s: System, id: TicketId, i: BuildId)
    requires BuildsOk(s) && id in s.store.tickets && IssuedTo(s, id, i)
    ensures BuildsOk(Settled(s, id, i))
  {
  }

  lemma SettledKeeps(s: System, id: TicketId, i: BuildId)
    requires Inv(s) && id in s.store.tickets && IssuedTo(s, id, i) && s.store.tickets[id].expiry > s.clock
    ensures Inv(Settled(s, id, i))
  {
    TicketCovers(s, id, i);
    hide BuildsOk; hide ClaimsInv; hide RecordsOk; hide CoversLive; hide Settled;
    hide TicketsIssued; hide TicketsFit; hide TicketsUnique; hide ReceiptsComplete;
    SettledClaims(s, id, i);
    SettledStore(s, id, i);
    SettledTickets(s, id, i);
    SettledRecords(s, id, i);
    SettledBuilds(s, id, i);
  }

  lemma OnlyIssued(s: System, id: TicketId) returns (i: BuildId)
    requires TicketsIssued(s) && TicketsUnique(s) && id in s.store.tickets
    ensures IssuedTo(s, id, i) && MarkHandedBack(s.builds, id) == s.builds[i := s.builds[i].(phase := HandedBack)]
  {
    assert TicketIssued(s, id);
    i :| IssuedTo(s, id, i);
    assert forall j | j in s.builds && s.builds[j].phase == Returned(Some(id)) :: IssuedTo(s, id, j);
  }

  lemma SettledIsRelease(s: System, id: TicketId, i: BuildId)
    requires IsTicketId(id) && id in s.store.tickets && s.store.tickets[id].expiry > s.clock && i in s.builds
    requires MarkHandedBack(s.builds, id) == s.builds[i := s.builds[i].(phase := HandedBack)]
    requires s.builds[i].cancel ==> |s.store.tickets[id].claims| == 1
    requires forall c | c in s.store.tickets[id].claims :: c.owner.Some? == s.builds[i].cancel
    ensures id in SweepAll(s.store, s.clock).tickets
    ensures Apply(s, ReservationProtocol.Release(id)) == Settled(s.(store := SweepAll(s.store, s.clock)), id, i)
  {
    var t := s.(store := SweepAll(s.store, s.clock));
    SettleIsGiveUp(t.store.(tickets := t.store.tickets - {id}), t.builds[i].cancel, t.store.tickets[id].claims, s.clock);
  }

  /** What a release that finds its ticket does to the whole system. */
  lemma ReleaseFound(s: System, id: TicketId) returns (i: BuildId)
    requires Inv(s) && IsTicketId(id) && id in s.store.tickets && s.store.tickets[id].expiry > s.clock
    ensures var t := s.(store := SweepAll(s.store, s.clock));
            && Inv(t) && id in t.store.tickets && IssuedTo(t, id, i)
            && Apply(s, ReservationProtocol.Release(id)) == Settled(t, id, i)
  {
    i := OnlyIssued(s, id);
    hide Inv;
    TicketCovers(s, id, i);
    SettledIsRelease(s, id, i);
    SweepTrims(s.store, s.clock);
    TrimKeeps(s, SweepAll(s.store, s.clock));
  }

  lemma ReleaseKeeps(s: System, id: TicketId)
    requires Inv(s)
    ensures Inv(Apply(s, ReservationProtocol.Release(id)))
  {
    hide Inv;
    if IsTicketId(id) {
      if id in s.store.tickets && s.store.tickets[id].expiry > s.clock {
        var i := ReleaseFound(s, id);
        var t := s.(store := SweepAll(s.store, s.clock));
        SettledKeeps(t, id, i);
      } else {
        SweepTrims(s.store, s.clock);
        TrimKeeps(s, SweepAll(s.store, s.clock));
      }
    }
  }

  // ---------- binding the key and selecting ----------

  lemma SubsetSpentFresh(b: Build, next: nat)
    requires Distinct(b.utxos) && next < |b.utxos| && ShapeAt(b, next) && !b.exact && b.first != Some(b.utxos[next])
    ensures b.utxos[next] !in KeysOf(b.ledger) && b.utxos[next] !in b.spent
  {
    var k := b.utxos[next];
    assert forall q | 0 <= q < next :: b.utxos[q] != k;
    assert k !in b.utxos[..next];
  }

  lemma KeysOfAppend(a: seq<Claim>, keys: seq<Outpoint>, now: int)
    ensures KeysOf(a + ClaimsFor(keys, now)) == KeysOf(a) + keys
  {
  }

  lemma ExtendedOk(b: Build, b': Build, keys: seq<Outpoint>, now: int, clock: int)
    requires LedgerOk(b, clock) && Extends(b, b', keys, now) && now <= clock
    requires Distinct(keys) && forall k | k in keys :: k !in KeysOf(b.ledger)
    requires !b'.phase.Finished? && (b'.phase.Selecting? ==> b'.phase.now <= clock)
    ensures LedgerOk(b', clock)
  {
    KeysOfAppend(b.ledger, keys, now);
    assert forall p | |b.ledger| <= p < |b'.ledger| :: KeysOf(b'.ledger)[p] in keys;
  }

  ghost function Onward(b: Build): Build
    requires b.phase.Selecting?
  {
    b.(phase := Selecting(b.phase.now, b.phase.next + 1))
  }

  ghost function TakenBy(b: Build): Build
    requires b.phase.Selecting? && b.phase.next < |b.utxos|
  {
    var k := b.utxos[b.phase.next];
    Onward(b).(spent := b.spent + [k], ledger := b.ledger + ClaimsFor([k], b.phase.now))
  }

  lemma SelectTaken(b: Build, clock: int)
    requires LedgerOk(b, clock) && Shape(b) && b.phase.Selecting? && b.phase.next < |b.utxos|
    requires !b.exact && b.first != Some(b.utxos[b.phase.next])
    ensures Extends(b, TakenBy(b), [b.utxos[b.phase.next]], b.phase.now)
    ensures LedgerOk(TakenBy(b), clock) && Shape(TakenBy(b))
  {
    var next := b.phase.next;
    var k := b.utxos[next];
    assert b.utxos[..next + 1] == b.utxos[..next] + [k];
    SubsetSpentFresh(b, next);
    ExtendedOk(b, TakenBy(b), [k], b.phase.now, clock);
    KeysOfAppend(b.ledger, [k], b.phase.now);
  }

  lemma SelectSkipped(b: Build, clock: int)
    requires LedgerOk(b, clock) && Shape(b) && b.phase.Selecting? && b.phase.next < |b.utxos|
    requires !b.exact && b.first != Some(b.utxos[b.phase.next])
    ensures LedgerOk(Onward(b), clock) && Shape(Onward(b))
  {
    var next := b.phase.next;
    assert b.utxos[..next + 1] == b.utxos[..next] + [b.utxos[next]];
  }

  /** The two turns that claim nothing. */
  lemma SelectCases(s: System, i: BuildId)
    requires i in s.builds && s.builds[i].phase.Selecting? && s.builds[i].phase.next < |s.builds[i].utxos|
    ensures var b := s.builds[i]; var k := b.utxos[b.phase.next];
            && (b.exact || b.first == Some(k) ==> SelectCandidate(s, i) == Put(s, i, Onward(b).(spent := b.spent + [k])))
            && (!b.exact && b.first != Some(k) && IsReserved(s.store.reservations, k, b.phase.now) ==>
                  SelectCandidate(s, i) == Put(s, i, Onward(b)))
  {
  }

  lemma SelectCarvedKeeps(s: System, i: BuildId)
    requires Inv(s) && i in s.builds && s.builds[i].phase.Selecting? && s.builds[i].phase.next < |s.builds[i].utxos|
    requires s.builds[i].exact || s.builds[i].first == Some(s.builds[i].utxos[s.builds[i].phase.next])
    ensures Inv(SelectCandidate(s, i))
  {
    var b := s.builds[i];
    BuildFacts(s, i);
    SelectCases(s, i);
    hide Inv; hide LedgerOk; hide Shape; hide SelectCandidate; hide IsReserved;
    SelectCarved(b, s.clock);
    RephaseKeeps(s, i, Onward(b).(spent := b.spent + [b.utxos[b.phase.next]]));
  }

  lemma SelectSkippedKeeps(s: System, i: BuildId)
    requires Inv(s) && i in s.builds && s.builds[i].phase.Selecting? && s.builds[i].phase.next < |s.builds[i].utxos|
    requires !s.builds[i].exact && s.builds[i].first != Some(s.builds[i].utxos[s.builds[i].phase.next])
    requires IsReserved(s.store.reservations, s.builds[i].utxos[s.builds[i].phase.next], s.builds[i].phase.now)
    ensures Inv(SelectCandidate(s, i))
  {
    BuildFacts(s, i);
    SelectCases(s, i);
    hide Inv; hide LedgerOk; hide Shape; hide SelectCandidate; hide IsReserved;
    SelectSkipped(s.builds[i], s.clock);
    RephaseKeeps(s, i, Onward(s.builds[i]));
  }

  lemma SelectKeeps(s: System, i: BuildId)
    requires Inv(s) && i in s.builds && s.builds[i].phase.Selecting? && s.builds[i].phase.next < |s.builds[i].utxos|
    ensures Inv(SelectCandidate(s, i))
  {
    BuildFacts(s, i);
    hide Inv; hide LedgerOk; hide Shape; hide SelectCandidate; hide IsReserved;
    var b := s.builds[i];
    var k := b.utxos[b.phase.next];
    if b.exact || b.first == Some(k) {
      SelectCarvedKeeps(s, i);
    } else if IsReserved(s.store.reservations, k, b.phase.now) {
      SelectSkippedKeeps(s, i);
    } else {
      SelectTakes(s, i);
    }
  }

  lemma SelectTakes(s: System, i: BuildId)
    requires Inv(s) && i in s.builds && s.builds[i].phase.Selecting? && s.builds[i].phase.next < |s.builds[i].utxos|
    requires LedgerOk(s.builds[i], s.clock) && Shape(s.builds[i])
    requires var b := s.builds[i]; var k := b.utxos[b.phase.next];
             !b.exact && b.first != Some(k) && !IsReserved(s.store.reservations, k, b.phase.now)
    ensures Inv(SelectCandidate(s, i))
  {
    hide Inv; hide Shape;
    var b := s.builds[i];
    var k := b.utxos[b.phase.next];
    var t := s.(store := s.store.(reservations := AfterLookup(s.store.reservations, k, b.phase.now)));
    assert b.phase.now <= s.clock;
    hide LedgerOk;
    TrimKeeps(s, t.store);
    SelectTaken(b, s.clock);
    TakeKeeps(t, i, TakenBy(b), [k], b.phase.now);
  }

  /** Taking an outpoint the build claimed earlier: the whole exact set, or the key-bound one. */
  lemma SelectCarved(b: Build, clock: int)
    requires LedgerOk(b, clock) && Shape(b) && b.phase.Selecting? && b.phase.next < |b.utxos|
    requires b.exact || b.first == Some(b.utxos[b.phase.next])
    ensures var b' := Onward(b).(spent := b.spent + [b.utxos[b.phase.next]]); LedgerOk(b', clock) && Shape(b')
  {
    var next := b.phase.next;
    assert b.utxos[..next + 1] == b.utxos[..next] + [b.utxos[next]];
    if !b.exact { assert next == 0 by { assert b.utxos[0] == b.utxos[next]; } }
  }

  /** The splice moves one candidate to the head and keeps the order of the rest. */
  lemma MoveToFrontReorders(utxos: seq<Outpoint>, i: nat)
    requires i < |utxos|
    ensures multiset(MoveToFront(utxos, i)) == multiset(utxos)
    ensures MoveToFront(utxos, i)[0] == utxos[i] && MoveToFront(utxos, i)[1..] == utxos[..i] + utxos[i + 1..]
    ensures Distinct(utxos) ==> Distinct(MoveToFront(utxos, i))
  {
    assert utxos == utxos[..i] + [utxos[i]] + utxos[i + 1..];
    var r := MoveToFront(utxos, i);
    forall p, q | Distinct(utxos) && 0 <= p < q < |r| ensures r[p] != r[q] {
      var p' := if p == 0 then i else if p <= i then p - 1 else p;
      var q' := if q <= i then q - 1 else q;
      assert r[p] == utxos[p'] && r[q] == utxos[q'];
    }
  }

  lemma BoundExact(b: Build, clock: int)
    requires LedgerOk(b, clock) && Shape(b) && b.phase == Gathering && b.exact && b.utxos != []
    ensures var b' := b.(ledger := ClaimsFor(b.utxos, clock), keyTxid := Some(b.utxos[0].txid), phase := Bound);
            Extends(b, b', b.utxos, clock) && LedgerOk(b', clock) && Shape(b')
  {
    var b' := b.(ledger := ClaimsFor(b.utxos, clock), keyTxid := Some(b.utxos[0].txid), phase := Bound);
    assert b'.ledger == b.ledger + ClaimsFor(b.utxos, clock);
    KeysOfAppend(b.ledger, b.utxos, clock);
    ExtendedOk(b, b', b.utxos, clock, clock);
  }

  lemma BoundGreedy(b: Build, f: nat, clock: int)
    requires LedgerOk(b, clock) && Shape(b) && b.phase == Gathering && !b.exact && f < |b.utxos|
    ensures var k := b.utxos[f];
            var b' := b.(utxos := MoveToFront(b.utxos, f), first := Some(k), keyTxid := Some(k.txid),
                         ledger := ClaimsFor([k], clock), phase := Bound);
            Extends(b, b', [k], clock) && LedgerOk(b', clock) && Shape(b')
  {
    var k := b.utxos[f];
    var b' := b.(utxos := MoveToFront(b.utxos, f), first := Some(k), keyTxid := Some(k.txid),
                 ledger := ClaimsFor([k], clock), phase := Bound);
    assert b'.ledger == b.ledger + ClaimsFor([k], clock);
    MoveToFrontReorders(b.utxos, f);
    KeysOfAppend(b.ledger, [k], clock);
    ExtendedOk(b, b', [k], clock, clock);
  }

  lemma BoundEmpty(b: Build, clock: int)
    requires LedgerOk(b, clock) && Shape(b) && b.phase == Gathering
    ensures LedgerOk(b.(phase := Throwing), clock) && Shape(b.(phase := Throwing))
    ensures b.utxos == [] ==> LedgerOk(b.(phase := Bound), clock) && Shape(b.(phase := Bound))
    ensures b.utxos != [] && !b.exact ==>
              var b' := b.(keyTxid := Some(b.utxos[0].txid), phase := Bound); LedgerOk(b', clock) && Shape(b')
  {
  }

  lemma BindExactKeeps(t: System, i: BuildId)
    requires Inv(t) && At(t, i, Gathering) && LedgerOk(t.builds[i], t.clock) && Shape(t.builds[i])
    requires t.builds[i].exact && t.builds[i].utxos != [] && AllFree(t, t.builds[i].utxos)
    ensures var b := t.builds[i];
            Inv(Taken(t, i, b.(ledger := ClaimsFor(b.utxos, t.clock), keyTxid := Some(b.utxos[0].txid), phase := Bound),
                      b.utxos, t.clock))
  {
    hide Inv; hide LedgerOk; hide Shape;
    var b := t.builds[i];
    BoundExact(b, t.clock);
    TakeKeeps(t, i, b.(ledger := ClaimsFor(b.utxos, t.clock), keyTxid := Some(b.utxos[0].txid), phase := Bound), b.utxos, t.clock);
  }

  lemma BindGreedyKeeps(t: System, i: BuildId, f: nat)
    requires Inv(t) && At(t, i, Gathering) && LedgerOk(t.builds[i], t.clock) && Shape(t.builds[i])
    requires !t.builds[i].exact && f < |t.builds[i].utxos| && AllFree(t, [t.builds[i].utxos[f]])
    ensures var b := t.builds[i]; var k := b.utxos[f];
            Inv(Taken(t, i, b.(utxos := MoveToFront(b.utxos, f), first := Some(k), keyTxid := Some(k.txid),
                               ledger := ClaimsFor([k], t.clock), phase := Bound), [k], t.clock))
  {
    hide Inv; hide LedgerOk; hide Shape;
    var b := t.builds[i];
    var k := b.utxos[f];
    BoundGreedy(b, f, t.clock);
    TakeKeeps(t, i, b.(utxos := MoveToFront(b.utxos, f), first := Some(k), keyTxid := Some(k.txid),
                       ledger := ClaimsFor([k], t.clock), phase := Bound), [k], t.clock);
  }

  /** The four ways a bind can come out, in terms of the swept system. */
  lemma BindCases(s: System, i: BuildId)
    requires At(s, i, Gathering)
    ensures var b := s.builds[i];
            var m := Sweep(s.store.reservations, s.clock);
            var t := s.(store := s.store.(reservations := m));
            && (b.utxos == [] ==> BindKey(s, i) == Put(s, i, b.(phase := Bound)))
            && (b.utxos != [] && b.exact && (exists k :: k in b.utxos && IsReserved(m, k, s.clock)) ==>
                  BindKey(s, i) == Put(t, i, b.(phase := Throwing)))
            && (b.utxos != [] && !b.exact && FirstFree(m, b.utxos, s.clock) == |b.utxos| ==>
                  BindKey(s, i) == Put(t, i, b.(keyTxid := Some(b.utxos[0].txid), phase := Bound)))
  {
    hide Sweep; hide IsReserved; hide FirstFree; hide Reserve; hide ClaimsFor; hide MoveToFront;
  }

  lemma BindKeeps(s: System, i: BuildId)
    requires Inv(s) && At(s, i, Gathering)
    ensures Inv(BindKey(s, i))
  {
    BuildFacts(s, i);
    hide Inv; hide LedgerOk; hide Shape; hide Taken; hide BindKey; hide Reserve; hide ClaimsFor; hide MoveToFront; hide Sweep;
    var b := s.builds[i];
    var m := Sweep(s.store.reservations, s.clock);
    var t := s.(store := s.store.(reservations := m));
    SweepTrims(s.store, s.clock);
    TrimKeeps(s, t.store);
    BoundEmpty(b, s.clock);
    BindCases(s, i);
    if b.utxos == [] {
      RephaseKeeps(s, i, b.(phase := Bound));
    } else if b.exact {
      BindExactBranch(s, i, t);
    } else {
      BindGreedyBranch(s, i, t);
    }
  }

  lemma BindExactBranch(s: System, i: BuildId, t: System)
    requires At(s, i, Gathering) && s.builds[i].utxos != [] && s.builds[i].exact
    requires t == s.(store := s.store.(reservations := Sweep(s.store.reservations, s.clock))) && Inv(t)
    requires LedgerOk(s.builds[i], s.clock) && Shape(s.builds[i])
    ensures Inv(BindKey(s, i))
  {
    hide Inv; hide LedgerOk; hide Shape; hide Taken; hide BindKey; hide Reserve; hide ClaimsFor; hide Sweep;
    var b := s.builds[i];
    BoundEmpty(b, s.clock);
    if exists k :: k in b.utxos && IsReserved(t.store.reservations, k, s.clock) {
      BindCases(s, i);
      RephaseKeeps(t, i, b.(phase := Throwing));
    } else {
      BindExactKeeps(t, i);
      BindExactIs(s, i);
    }
  }

  lemma BindGreedyBranch(s: System, i: BuildId, t: System)
    requires At(s, i, Gathering) && s.builds[i].utxos != [] && !s.builds[i].exact
    requires t == s.(store := s.store.(reservations := Sweep(s.store.reservations, s.clock))) && Inv(t)
    requires LedgerOk(s.builds[i], s.clock) && Shape(s.builds[i])
    ensures Inv(BindKey(s, i))
  {
    hide Inv; hide LedgerOk; hide Shape; hide Taken; hide BindKey; hide Reserve; hide ClaimsFor; hide MoveToFront; hide Sweep;
    var b := s.builds[i];
    BoundEmpty(b, s.clock);
    var f := FirstFree(t.store.reservations, b.utxos, s.clock);
    if f == |b.utxos| {
      BindCases(s, i);
      RephaseKeeps(t, i, b.(keyTxid := Some(b.utxos[0].txid), phase := Bound));
    } else {
      BindGreedyKeeps(t, i, f);
      BindGreedyIs(s, i);
    }
  }

  lemma BindExactIs(s: System, i: BuildId)
    requires At(s, i, Gathering) && s.builds[i].exact && s.builds[i].utxos != []
    requires !exists k :: k in s.builds[i].utxos && IsReserved(Sweep(s.store.reservations, s.clock), k, s.clock)
    ensures var b := s.builds[i];
            var t := s.(store := s.store.(reservations := Sweep(s.store.reservations, s.clock)));
            BindKey(s, i) == Taken(t, i, b.(ledger := ClaimsFor(b.utxos, s.clock), keyTxid := Some(b.utxos[0].txid), phase := Bound),
                                   b.utxos, s.clock)
  {
  }

  lemma BindGreedyIs(s: System, i: BuildId)
    requires At(s, i, Gathering) && !s.builds[i].exact
    requires FirstFree(Sweep(s.store.reservations, s.clock), s.builds[i].utxos, s.clock) < |s.builds[i].utxos|
    ensures var b := s.builds[i];
            var t := s.(store := s.store.(reservations := Sweep(s.store.reservations, s.clock)));
            var f := FirstFree(t.store.reservations, b.utxos, s.clock);
            var k := b.utxos[f];
            BindKey(s, i) == Taken(t, i, b.(utxos := MoveToFront(b.utxos, f), first := Some(k), keyTxid := Some(k.txid),
                                            ledger := ClaimsFor([k], s.clock), phase := Bound), [k], s.clock)
  {
  }

  // ---------- runs ----------

  lemma StopKeeps(s: System, i: BuildId)
    requires Inv(s)
    ensures Inv(Apply(s, StopSelection(i)))
  {
    if i in s.builds && MayStop(s.builds[i]) {
      var b := s.builds[i];
      BuildFacts(s, i);
      hide Inv;
      assert b.utxos[..|b.utxos|] == b.utxos;
      assert b.spent != [] ==> b.spent[0] in b.spent;
      RephaseKeeps(s, i, b.(phase := if EmptyRefused(b) || RaceRefused(b) then Throwing else Selected));
    }
  }

  lemma StartSelectionKeeps(s: System, i: BuildId)
    requires Inv(s)
    ensures Inv(Apply(s, StartSelection(i)))
  {
    if At(s, i, Bound) {
      BuildFacts(s, i);
      hide Inv;
      var st := s.store.(reservations := Sweep(s.store.reservations, s.clock));
      SweepTrims(s.store, s.clock);
      TrimKeeps(s, st);
      RephaseKeeps(s.(store := st), i, s.builds[i].(phase := Selecting(s.clock, 0)));
    }
  }

  lemma ThrowKeeps(s: System, i: BuildId)
    requires Inv(s)
    ensures Inv(Apply(s, Throw(i)))
  {
    if MayThrow(s, i) {
      BuildFacts(s, i);
      hide Inv;
      RephaseKeeps(s, i, s.builds[i].(phase := Throwing));
    }
  }

  lemma StartCreateKeeps(s: System, i: BuildId, utxos: seq<Outpoint>, exact: bool, keyBinds: bool)
    requires Inv(s)
    ensures Inv(Apply(s, StartCreate(i, utxos, exact, keyBinds)))
  {
    hide Inv;
    if i !in s.builds && Distinct(utxos) {
      NewBuildKeeps(s, i, Build(false, utxos, exact, keyBinds, None, None, [], [], None, Gathering));
    }
  }

  /** Every action keeps the invariant. */
  lemma StepKeeps(s: System, a: Action)
    requires Inv(s)
    ensures Inv(Apply(s, a))
  {
    hide Inv;
    match a
    case Tick(ms) => TickKeeps(s, ms);
    case StartCreate(i, utxos, exact, keyBinds) => StartCreateKeeps(s, i, utxos, exact, keyBinds);
    case Bind(i) => if At(s, i, Gathering) { BindKeeps(s, i); }
    case StartSelection(i) => StartSelectionKeeps(s, i);
    case SelectNext(i) =>
      if i in s.builds && s.builds[i].phase.Selecting? && s.builds[i].phase.next < |s.builds[i].utxos| { SelectKeeps(s, i); }
    case StopSelection(i) => StopKeeps(s, i);
    case Finish(i, txid) => FinishKeeps(s, i, txid);
    case StartCancel(i, key, owner) => StartCancelKeeps(s, i, key, owner);
    case MintReceipt(i, id) => MintKeeps(s, i, id);
    case Throw(i) => ThrowKeeps(s, i);
    case HandBack(i) => if At(s, i, Throwing) { HandBackKeeps(s, i); }
    case Release(id) => ReleaseKeeps(s, id);
  }

  lemma InitInv(s: System)
    requires Init(s)
    ensures Inv(s)
  {
  }

  /** Every state of every run satisfies the invariant. */
  lemma {:induction false} RunInv(s: System, actions: seq<Action>)
    requires Init(s)
    ensures Inv(Run(s, actions))
  {
    if actions == [] {
      InitInv(s);
    } else {
      hide Inv;
      var n := |actions| - 1;
      RunInv(s, actions[..n]);
      StepKeeps(Run(s, actions[..n]), actions[n]);
    }
  }

  lemma {:induction false} RunAppend(s: System, a: seq<Action>, b: seq<Action>)
    ensures Run(s, a + b) == Run(Run(s, a), b)
  {
    if b == [] {
      assert a + b == a;
    } else {
      var n := |b| - 1;
      assert (a + b)[..|a + b| - 1] == a + b[..n];
      RunAppend(s, a, b[..n]);
    }
  }
}
