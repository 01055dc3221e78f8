/** Each action of `ReservationProtocol` keeps its invariant, and so does every run. */
module ReservationSteps {
  import opened Common
  import opened OutpointStore
  import opened ReservationProtocol
  import opened ReservationInvariant

  // ---------- builds coming and going ----------

  lemma NewBuildKeeps(s: System, i: BuildId, b: Build)
    requires Inv(s) && i !in s.builds && b.ledger == [] && b.record == None && !b.phase.Returned?
    requires LedgerOk(b, s.clock) && Shape(b)
    ensures Inv(Put(s, i, b))
  {
    hide ClaimsInv;
    hide TicketsInv;
    var s' := Put(s, i, b);
    assert forall j, r :: LiveRecord(s', j, r) <==> LiveRecord(s, j, r);
    FrameClaims(s, s');
    FrameTickets(s, s');
  }

  lemma HandBackKeeps(s: System, i: BuildId)
    requires Inv(s) && At(s, i, Throwing)
    ensures Inv(Apply(s, HandBack(i)))
  {
    hide ClaimsInv;
    hide TicketsInv;
    var b := s.builds[i];
    var st' := GiveUp(s.store, b.cancel, b.ledger, s.clock);
    var s' := Apply(s, HandBack(i));
    assert s' == Gone(s, st', i, Failed);
    GiveUpClaims(s, i, b.ledger, Failed);
    GiveUpStore(s.store, b, s.clock, b.ledger);
    GoneLive(s, st', i, Failed);
    FrameTickets(s, s');
  }

  /** Giving claims up touches neither the tickets nor the recent builds. */
  lemma GiveUpStore(st: Store, b: Build, now: int, claims: seq<Claim>)
    requires b.cancel ==> |claims| <= 1 && forall c | c in claims :: c.owner.Some?
    ensures GiveUp(st, b.cancel, claims, now).tickets == st.tickets
    ensures GiveUp(st, b.cancel, claims, now).recent == st.recent
  {
    if b.cancel && claims != [] {
      assert claims == [claims[0]];
      OneClaim(st, claims[0], now);
    }
  }

  // ---------- the duplicate-build gate ----------

  ghost function Registered(s: System, i: BuildId, txid: Txid): System
    requires i in s.builds
  {
    var r := Record(txid, s.clock + RESERVATION_TTL_MS);
    Put(s.(store := s.store.(recent := s.store.recent[txid := r.expiry])), i,
        s.builds[i].(record := Some(r), phase := Finished))
  }

  lemma RegisterRecords(s: System, i: BuildId, txid: Txid)
    requires RecordsOk(s) && i in s.builds && txid !in s.store.recent
    ensures RecordsOk(Registered(s, i, txid))
  {
    var s' := Registered(s, i, txid);
    forall j, q | LiveRecord(s', j, q) && j != i ensures LiveRecord(s, j, q) && q.txid in s.store.recent {
      assert LiveRecord(s, j, q);
    }
  }

  lemma RegisterKeeps(s: System, i: BuildId, txid: Txid)
    requires Inv(s) && At(s, i, Selected) && !s.builds[i].cancel && txid !in s.store.recent
    ensures Inv(Registered(s, i, txid))
  {
    hide ClaimsInv;
    hide TicketsInv;
    hide RecordsOk;
    var s' := Registered(s, i, txid);
    RegisterBuilds(s, i, txid);
    hide BuildsOk;
    FrameClaims(s, s');
    FrameTickets(s, s');
    RegisterRecords(s, i, txid);
  }

  lemma RegisterBuilds(s: System, i: BuildId, txid: Txid)
    requires BuildsOk(s) && At(s, i, Selected) && !s.builds[i].cancel
    ensures BuildsOk(Registered(s, i, txid))
  {
  }

  lemma FinishKeeps(s: System, i: BuildId, txid: Txid)
    requires Inv(s)
    ensures Inv(Apply(s, Finish(i, txid)))
  {
    hide Inv;
    if At(s, i, Selected) && !s.builds[i].cancel {
      var swept := s.store.(recent := Sweep(s.store.recent, s.clock));
      SweepTrims(s.store, s.clock);
      TrimKeeps(s, swept);
      var t := s.(store := swept);
      if txid in swept.recent {
        var b' := s.builds[i].(phase := Throwing);
        BuildFacts(t, i);
        RephaseKeeps(t, i, b');
      } else {
        RegisterKeeps(t, i, txid);
      }
    }
  }

  lemma BuildFacts(s: System, i: BuildId)
    requires Inv(s) && i in s.builds
    ensures LedgerOk(s.builds[i], s.clock) && Shape(s.builds[i])
  {
  }

  // ---------- cancel builds ----------

  ghost function CancelTaken(s: System, i: BuildId, key: Outpoint, owner: OwnerId): System {
    var expiry := s.clock + RESERVATION_TTL_MS;
    var c := Claim(key, expiry, Some(owner));
    System(s.clock,
           s.store.(reservations := s.store.reservations[key := expiry],
                    cancels := s.store.cancels[key := OwnersOf(s.store.cancels, key)[owner := expiry]]),
           s.builds[i := Build(true, [], false, false, None, None, KeysOf([c]), [c], None, Selected)])
  }

  lemma CancelTokens(s: System, i: BuildId, key: Outpoint, owner: OwnerId)
    requires TokensHeld(s) && OwnerUnused(s, owner)
    ensures var s' := CancelTaken(s, i, key, owner);
            forall k, o, e :: Token(s', k, o, e) <==>
              Token(s, k, o, e) || (k == key && o == owner && e == s.clock + RESERVATION_TTL_MS)
  {
    assert forall c: Claim | c.owner == Some(owner) :: !LiveHolder(s, c);
    assert forall k, e | Token(s, k, owner, e) :: LiveHolder(s, Claim(k, e, Some(owner)));
  }

  lemma CancelLive(s: System, i: BuildId, key: Outpoint, owner: OwnerId)
    requires i !in s.builds
    ensures var s' := CancelTaken(s, i, key, owner);
            forall j, c :: Live(s', j, c) <==>
              Live(s, j, c) || (j == i && c == Claim(key, s.clock + RESERVATION_TTL_MS, Some(owner)))
  {
  }

  lemma CancelOwned(s: System, i: BuildId, key: Outpoint, owner: OwnerId)
    requires BuildsOk(s) && ClaimsInv(s) && i !in s.builds && OwnerUnused(s, owner) && CancelMayClaim(s.store, key, s.clock)
    ensures ClaimsOwned(CancelTaken(s, i, key, owner)) && MaxRule(CancelTaken(s, i, key, owner))
  {
    var s' := CancelTaken(s, i, key, owner);
    var expiry := s.clock + RESERVATION_TTL_MS;
    CancelTokens(s, i, key, owner);
    CancelLive(s, i, key, owner);
    forall j, c | Live(s', j, c) ensures OwnedInMaps(s', c) {
      if Live(s, j, c) {
        assert OwnedInMaps(s, c);
        TokenBounds(s, c.key);
        TokenBounds(s', c.key);
      }
    }
    forall e, o | Token(s, key, o, e) ensures e <= expiry {
      var j :| Live(s, j, Claim(key, e, Some(o)));
    }
    var top := MaxLive(s'.store.cancels, key, s'.clock);
    assert Token(s', key, owner, expiry);
    TokenBounds(s', key);
    var owners := OwnersOf(s'.store.cancels, key);
    assert top.Some? && owners[owner] <= top.value;
    var o :| o in owners && owners[o] == top.value;
    assert Token(s', key, o, top.value);
    forall k | k != key ensures MaxLive(s'.store.cancels, k, s'.clock) == MaxLive(s.store.cancels, k, s.clock) {}
  }

  lemma CancelUnique(s: System, i: BuildId, key: Outpoint, owner: OwnerId)
    requires ClaimsUnique(s) && OwnersUnique(s) && i !in s.builds && OwnerUnused(s, owner)
    ensures ClaimsUnique(CancelTaken(s, i, key, owner)) && OwnersUnique(CancelTaken(s, i, key, owner))
  {
    var s' := CancelTaken(s, i, key, owner);
    var mine := Claim(key, s.clock + RESERVATION_TTL_MS, Some(owner));
    CancelLive(s, i, key, owner);
    assert forall j, c :: Entry(s', j, c) <==> Entry(s, j, c) || (j == i && c == mine);
  }

  lemma CancelTokensHeld(s: System, i: BuildId, key: Outpoint, owner: OwnerId)
    requires TokensHeld(s) && i !in s.builds && OwnerUnused(s, owner)
    ensures TokensHeld(CancelTaken(s, i, key, owner))
  {
    var s' := CancelTaken(s, i, key, owner);
    CancelTokens(s, i, key, owner);
    CancelLive(s, i, key, owner);
    forall k, o, e | Token(s', k, o, e) ensures LiveHolder(s', Claim(k, e, Some(o))) {
      if Token(s, k, o, e) {
        var j :| Live(s, j, Claim(k, e, Some(o)));
        assert Live(s', j, Claim(k, e, Some(o)));
      } else {
        assert Live(s', i, Claim(k, e, Some(o)));
      }
    }
  }

  lemma CancelNoStray(s: System, i: BuildId, key: Outpoint, owner: OwnerId)
    requires NoStray(s) && i !in s.builds
    ensures NoStray(CancelTaken(s, i, key, owner))
  {
    var s' := CancelTaken(s, i, key, owner);
    CancelLive(s, i, key, owner);
    SameLive(s, s');
    assert Live(s', i, Claim(key, s.clock + RESERVATION_TTL_MS, Some(owner)));
    forall k | k in s'.store.reservations && s'.store.reservations[k] > s'.clock
      ensures HeldAt(s', k, s'.store.reservations[k])
    {
      if k != key { assert HeldAt(s, k, s.store.reservations[k]); }
    }
  }

  lemma CancelClaims(s: System, i: BuildId, key: Outpoint, owner: OwnerId)
    requires BuildsOk(s) && ClaimsInv(s) && i !in s.builds && OwnerUnused(s, owner) && CancelMayClaim(s.store, key, s.clock)
    ensures ClaimsInv(CancelTaken(s, i, key, owner))
  {
    hide BuildsOk; hide ClaimsOwned; hide ClaimsUnique; hide OwnersUnique; hide TokensHeld; hide MaxRule; hide NoStray;
    CancelOwned(s, i, key, owner);
    CancelUnique(s, i, key, owner);
    CancelTokensHeld(s, i, key, owner);
    CancelNoStray(s, i, key, owner);
  }

  lemma CancelTakenKeeps(s: System, i: BuildId, key: Outpoint, owner: OwnerId)
    requires Inv(s) && i !in s.builds && OwnerUnused(s, owner) && CancelMayClaim(s.store, key, s.clock)
    ensures Inv(CancelTaken(s, i, key, owner))
  {
    hide ClaimsInv;
    hide TicketsInv;
    var s' := CancelTaken(s, i, key, owner);
    CancelClaims(s, i, key, owner);
    FrameTickets(s, s');
    assert forall j, r :: LiveRecord(s', j, r) <==> LiveRecord(s, j, r);
  }

  /** The store as a cancel's claim sees it. */
  ghost function SweptForCancel(s: System): Store {
    s.store.(reservations := Sweep(s.store.reservations, s.clock), cancels := SweepOwners(s.store.cancels, s.clock))
  }

  /** A cancel that may claim does, on the swept maps. */
  lemma StartCancelTakes(s: System, i: BuildId, key: Outpoint, owner: OwnerId)
    requires i !in s.builds && OwnerUnused(s, owner) && CancelMayClaim(SweptForCancel(s), key, s.clock)
    ensures Apply(s, StartCancel(i, key, owner)) == CancelTaken(s.(store := SweptForCancel(s)), i, key, owner)
  {
    hide CancelMayClaim; hide OwnerUnused; hide Sweep; hide SweepOwners;
  }

  lemma StartCancelKeeps(s: System, i: BuildId, key: Outpoint, owner: OwnerId)
    requires Inv(s)
    ensures Inv(Apply(s, StartCancel(i, key, owner)))
  {
    hide Inv;
    if i !in s.builds && OwnerUnused(s, owner) {
      var st := SweptForCancel(s);
      SweepTrims(s.store, s.clock);
      TrimKeeps(s, st);
      var t := s.(store := st);
      assert forall j, c :: Entry(t, j, c) <==> Entry(s, j, c);
      if CancelMayClaim(st, key, s.clock) {
        CancelTakenKeeps(t, i, key, owner);
        StartCancelTakes(s, i, key, owner);
      } else {
        NewBuildKeeps(t, i, Build(true, [], false, false, None, None, KeysOf([]), [], None, Throwing));
      }
    }
  }
}
