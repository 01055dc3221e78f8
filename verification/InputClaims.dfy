/**
 How one call claims its inputs, in place: binding the obfuscation key to the first free
 candidate, and the claim-or-skip decision of the selection loop. Proved to be the `Bind`
 and `SelectNext` steps of `ReservationProtocol`.
 */
module InputClaims {
  import opened Common
  import opened OutpointStore
  import opened ReservationMaps
  import opened ReservationProtocol

  lemma OneKey(m: map<Outpoint, int>, k: Outpoint, now: int)
    ensures Reserve(m, [k], now) == m[k := now + RESERVATION_TTL_MS]
    ensures ClaimsFor([k], now) == [Claim(k, now + RESERVATION_TTL_MS, None)]
  {
  }

  /** Claiming candidate `i` leaves the later ones to claim. */
  lemma ClaimNext(m: map<Outpoint, int>, keys: seq<Outpoint>, i: nat, now: int)
    requires i < |keys|
    ensures Reserve(m, keys[i..], now) == Reserve(m[keys[i] := now + RESERVATION_TTL_MS], keys[i + 1..], now)
    ensures ClaimsFor(keys, now)[..i + 1] == ClaimsFor(keys, now)[..i] + [Claim(keys[i], now + RESERVATION_TTL_MS, None)]
  {
    assert keys[i..][1..] == keys[i + 1..] && keys[i..][0] == keys[i];
  }

  lemma ClaimsDone(m: map<Outpoint, int>, keys: seq<Outpoint>, now: int)
    ensures Reserve(m, keys[|keys|..], now) == m && ClaimsFor(keys, now)[..|keys|] == ClaimsFor(keys, now)
  {
  }

  lemma BindIs(b: Build, st: Store, now: int)
    ensures BindKey(System(now, st, map[0 := b]), 0) == System(now, BindBuild(b, st, now).0, map[0 := BindBuild(b, st, now).1])
  {
    hide BindBuild;
  }

  /** The three ways a turn of the loop can come out. */
  lemma SelectIs(b: Build, st: Store, clock: int)
    requires b.phase.Selecting? && b.phase.next < |b.utxos|
    ensures var now, k := b.phase.now, b.utxos[b.phase.next];
            var on := b.(phase := Selecting(now, b.phase.next + 1));
            var mine := b.exact || b.first == Some(k);
            var held := IsReserved(st.reservations, k, now);
            var m := if mine || held then st.reservations else Reserve(AfterLookup(st.reservations, k, now), [k], now);
            var b' := if mine then on.(spent := b.spent + [k])
                      else if held then on
                      else on.(spent := b.spent + [k], ledger := b.ledger + ClaimsFor([k], now));
            SelectCandidate(System(clock, st, map[0 := b]), 0) == System(clock, st.(reservations := m), map[0 := b'])
  {
    hide Reserve; hide ClaimsFor; hide AfterLookup; hide IsReserved;
  }

  class BuildInputs {
    const maps: ReservationMaps
    const callReservations: Ledger
    const exactInputs: bool
    const keyBinds: bool
    var utxos: seq<Outpoint>
    var firstReservedOutpoint: Option<Outpoint>
    var txidFirstInput: Option<Txid>
    var spent: seq<Outpoint>

    constructor (maps: ReservationMaps, callReservations: Ledger, utxos: seq<Outpoint>, exactInputs: bool, keyBinds: bool)
      ensures this.maps == maps && this.callReservations == callReservations && this.utxos == utxos
      ensures this.exactInputs == exactInputs && this.keyBinds == keyBinds
      ensures firstReservedOutpoint == None && txidFirstInput == None && spent == []
    {
      this.maps, this.callReservations, this.utxos := maps, callReservations, utxos;
      this.exactInputs, this.keyBinds := exactInputs, keyBinds;
      firstReservedOutpoint, txidFirstInput, spent := None, None, [];
    }

    /** This call as build 0 of a system over the same maps. */
    ghost function Sys(clock: int, phase: Phase): System
      reads this, maps, callReservations
    {
      System(clock, maps.State(),
             map[0 := Build(false, utxos, exactInputs, keyBinds, firstReservedOutpoint, txidFirstInput, spent,
                            callReservations.claims, None, phase)])
    }

    ghost predicate Unclaimed()
      reads this, callReservations
    {
      callReservations.claims == [] && firstReservedOutpoint == None && txidFirstInput == None
    }

    method BindObfuscationKey(now: int) returns (r: Result<(), string>)
      requires Unclaimed()
      modifies this, maps`outpointReservations, callReservations`claims
      ensures Sys(now, if r.Ok? then Bound else Throwing) == BindKey(old(Sys(now, Gathering)), 0)
    {
      ghost var b := Sys(now, Gathering).builds[0];
      ghost var st := maps.State();
      if utxos == [] { return Ok(()); }
      if exactInputs {
        r := ClaimExactInputs(now);
      } else {
        ClaimFirstFreeInput(now);
        r := Ok(());
      }
      BindIs(b, st, now);
      hide BindKey; hide Reserve; hide ClaimsFor; hide FirstFree; hide Sweep; hide MoveToFront; hide IsReserved;
    }

    ghost predicate SomeHeld(keys: seq<Outpoint>, now: int)
      reads maps
    {
      exists k :: k in keys && IsReserved(maps.outpointReservations, k, now)
    }

    method HeldByOthers(now: int) returns (held: seq<Outpoint>)
      requires maps.outpointReservations == Sweep(maps.outpointReservations, now)
      modifies maps`outpointReservations
      ensures maps.outpointReservations == old(maps.outpointReservations)
      ensures held != [] <==> SomeHeld(utxos, now)
    {
      held := [];
      var i := 0;
      while i < |utxos|
        invariant i <= |utxos| && maps.outpointReservations == old(maps.outpointReservations)
        invariant held != [] <==> SomeHeld(utxos[..i], now)
      {
        assert utxos[..i + 1] == utxos[..i] + [utxos[i]];
        var mine := maps.IsOutpointReserved(utxos[i], now);
        if mine { held := held + [utxos[i]]; }
        i := i + 1;
      }
      assert utxos[..|utxos|] == utxos;
    }

    /** Claims every named outpoint, or refuses the build. */
    method ClaimExactInputs(now: int) returns (r: Result<(), string>)
      requires Unclaimed() && utxos != []
      modifies this`txidFirstInput, maps`outpointReservations, callReservations`claims
      ensures var m := Sweep(old(maps.outpointReservations), now);
              && (r.Err? <==> exists k :: k in utxos && IsReserved(m, k, now))
              && (r.Err? ==> maps.outpointReservations == m && Unclaimed())
              && (r.Ok? ==> maps.outpointReservations == Reserve(m, utxos, now) && callReservations.claims == ClaimsFor(utxos, now)
                            && txidFirstInput == Some(utxos[0].txid))
    {
      maps.EvictExpiredReservations(now);
      hide Reserve; hide ClaimsFor; hide IsReserved;
      var held := HeldByOthers(now);
      if held != [] { return Err("INPUT_RESERVED"); }
      ClaimAll(now);
      txidFirstInput := Some(utxos[0].txid);
      return Ok(());
    }

    method ClaimAll(now: int)
      modifies maps`outpointReservations, callReservations`claims
      ensures maps.outpointReservations == Reserve(old(maps.outpointReservations), utxos, now)
      ensures callReservations.claims == old(callReservations.claims) + ClaimsFor(utxos, now)
    {
      hide Reserve; hide ClaimsFor;
      var i := 0;
      assert utxos[0..] == utxos;
      while i < |utxos|
        invariant i <= |utxos|
        invariant Reserve(maps.outpointReservations, utxos[i..], now) == Reserve(old(maps.outpointReservations), utxos, now)
        invariant callReservations.claims == old(callReservations.claims) + ClaimsFor(utxos, now)[..i]
      {
        ClaimNext(maps.outpointReservations, utxos, i, now);
        maps.ClaimOutpoint(callReservations, utxos[i], now);
        i := i + 1;
      }
      ClaimsDone(maps.outpointReservations, utxos, now);
    }

    /** Claims the first outpoint nobody holds and moves it to the head of the order. */
    method ClaimFirstFreeInput(now: int)
      requires Unclaimed() && utxos != []
      modifies this`utxos, this`firstReservedOutpoint, this`txidFirstInput, maps`outpointReservations, callReservations`claims
      ensures var m := Sweep(old(maps.outpointReservations), now);
              var f := FirstFree(m, old(utxos), now);
              if f == |old(utxos)| then
                && maps.outpointReservations == m && utxos == old(utxos) && firstReservedOutpoint == None
                && callReservations.claims == [] && txidFirstInput == Some(utxos[0].txid)
              else
                var k := old(utxos)[f];
                && maps.outpointReservations == Reserve(m, [k], now) && utxos == MoveToFront(old(utxos), f)
                && firstReservedOutpoint == Some(k) && txidFirstInput == Some(k.txid) && callReservations.claims == ClaimsFor([k], now)
    {
      maps.EvictExpiredReservations(now);
      ghost var m := maps.outpointReservations;
      var i := 0;
      while i < |utxos|
        invariant i <= |utxos| && utxos == old(utxos) && Unclaimed()
        invariant maps.outpointReservations == m
        invariant FirstFree(m, utxos, now) == i + FirstFree(m, utxos[i..], now)
      {
        var k := utxos[i];
        assert utxos[i..][1..] == utxos[i + 1..];
        var held := maps.IsOutpointReserved(k, now);
        if !held {
          maps.ClaimOutpoint(callReservations, k, now);
          firstReservedOutpoint, txidFirstInput := Some(k), Some(k.txid);
          if i > 0 { utxos := [k] + (utxos[..i] + utxos[i + 1..]); }
          OneKey(m, k, now);
          assert utxos == MoveToFront(old(utxos), i);
          return;
        }
        i := i + 1;
      }
      txidFirstInput := Some(utxos[0].txid);
    }

    /** True when another build holds this candidate; otherwise claims it for this build. */
    method SkipReservedInput(k: Outpoint, now: int) returns (skip: bool)
      modifies maps`outpointReservations, callReservations`claims
      ensures skip == (!exactInputs && firstReservedOutpoint != Some(k) && IsReserved(old(maps.outpointReservations), k, now))
      ensures skip || exactInputs || firstReservedOutpoint == Some(k) ==>
                maps.outpointReservations == old(maps.outpointReservations) && callReservations.claims == old(callReservations.claims)
      ensures !skip && !exactInputs && firstReservedOutpoint != Some(k) ==>
                && maps.outpointReservations == Reserve(AfterLookup(old(maps.outpointReservations), k, now), [k], now)
                && callReservations.claims == old(callReservations.claims) + ClaimsFor([k], now)
    {
      if !exactInputs {
        if firstReservedOutpoint != Some(k) {
          var held := maps.IsOutpointReserved(k, now);
          if held { return true; }
          OneKey(maps.outpointReservations, k, now);
          maps.ClaimOutpoint(callReservations, k, now);
        }
      }
      return false;
    }

    /** One turn of the loop, for a candidate at `next` judged at the loop's own `now`. */
    method SelectTurn(clock: int, now: int, next: nat)
      requires next < |utxos|
      modifies this`spent, maps`outpointReservations, callReservations`claims
      ensures Sys(clock, Selecting(now, next + 1)) == SelectCandidate(old(Sys(clock, Selecting(now, next))), 0)
    {
      ghost var s := Sys(clock, Selecting(now, next));
      SelectIs(s.builds[0], s.store, clock);
      hide SelectCandidate; hide Reserve; hide ClaimsFor; hide AfterLookup; hide IsReserved;
      var skip := SkipReservedInput(utxos[next], now);
      if !skip { spent := spent + [utxos[next]]; }
    }
  }
}
