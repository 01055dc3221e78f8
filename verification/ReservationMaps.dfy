/**
 The encoder's four reservation maps and a call's claim ledger, changed in place.
 Every method is proved to compute the corresponding value function of `OutpointStore`.
 */
module ReservationMaps {
  import opened Common
  import opened OutpointStore

  /** The ledger one create or cancel call owns. */
  class Ledger {
    var claims: seq<Claim>
    var buildTxid: Option<Txid>

    constructor ()
      ensures claims == [] && buildTxid == None
    {
      claims, buildTxid := [], None;
    }
  }

  class ReservationMaps {
    var outpointReservations: map<Outpoint, int>
    var recentBuilds: map<Txid, int>
    var envelopeCancelClaims: map<Outpoint, map<OwnerId, int>>
    var reservationTickets: map<TicketId, Ticket>

    ghost function State(): Store
      reads this
    {
      Store(outpointReservations, recentBuilds, envelopeCancelClaims, reservationTickets)
    }

    constructor ()
      ensures State() == Store(map[], map[], map[], map[])
    {
      outpointReservations, recentBuilds := map[], map[];
      envelopeCancelClaims, reservationTickets := map[], map[];
    }

    // ---------- eviction ----------

    static method EvictExpired<K(==)>(m: map<K, int>, now: int) returns (r: map<K, int>)
      ensures r == Sweep(m, now)
    {
      r := m;
      var todo := m.Keys;
      while todo != {}
        invariant todo <= r.Keys <= m.Keys
        invariant forall k | k in r :: r[k] == m[k] && (k in todo || m[k] > now)
        invariant forall k | k in m && m[k] > now :: k in r
        decreases todo
      {
        var k :| k in todo;
        if r[k] <= now { r := r - {k}; }
        todo := todo - {k};
      }
    }

    method EvictExpiredRecentBuilds(now: int)
      modifies this`recentBuilds
      ensures recentBuilds == Sweep(old(recentBuilds), now)
    {
      recentBuilds := EvictExpired(recentBuilds, now);
    }

    method EvictExpiredReservations(now: int)
      modifies this`outpointReservations
      ensures outpointReservations == Sweep(old(outpointReservations), now)
    {
      outpointReservations := EvictExpired(outpointReservations, now);
    }

    method EvictExpiredEnvelopeCancelClaims(now: int)
      modifies this`envelopeCancelClaims
      ensures envelopeCancelClaims == SweepOwners(old(envelopeCancelClaims), now)
    {
      ghost var m := envelopeCancelClaims;
      var todo := envelopeCancelClaims.Keys;
      while todo != {}
        invariant todo <= envelopeCancelClaims.Keys <= m.Keys
        invariant forall k | k in todo :: envelopeCancelClaims[k] == m[k]
        invariant forall k | k in envelopeCancelClaims && k !in todo :: envelopeCancelClaims[k] == Sweep(m[k], now) != map[]
        invariant forall k | k in m && Sweep(m[k], now) != map[] :: k in envelopeCancelClaims
        decreases todo
      {
        var key :| key in todo;
        var owners := EvictExpired(envelopeCancelClaims[key], now);
        if owners == map[] {
          envelopeCancelClaims := envelopeCancelClaims - {key};
        } else {
          envelopeCancelClaims := envelopeCancelClaims[key := owners];
        }
        todo := todo - {key};
      }
    }

    method EvictExpiredReservationTickets(now: int)
      modifies this`reservationTickets
      ensures reservationTickets == SweepTickets(old(reservationTickets), now)
    {
      ghost var m := reservationTickets;
      var todo := reservationTickets.Keys;
      while todo != {}
        invariant todo <= reservationTickets.Keys <= m.Keys
        invariant forall k | k in reservationTickets :: reservationTickets[k] == m[k] && (k in todo || m[k].expiry > now)
        invariant forall k | k in m && m[k].expiry > now :: k in reservationTickets
        decreases todo
      {
        var id :| id in todo;
        if reservationTickets[id].expiry <= now { reservationTickets := reservationTickets - {id}; }
        todo := todo - {id};
      }
    }

    // ---------- claims ----------

    method RefuseDuplicateBuild(txid: Txid, now: int) returns (r: Result<Txid, string>)
      modifies this`recentBuilds
      ensures State() == RegisterBuild(old(State()), txid, now).0
      ensures r.Ok? == RegisterBuild(old(State()), txid, now).1
      ensures r.Ok? ==> r.value == txid
    {
      EvictExpiredRecentBuilds(now);
      if txid in recentBuilds { return Err("DUPLICATE_TRANSACTION"); }
      recentBuilds := recentBuilds[txid := now + RESERVATION_TTL_MS];
      return Ok(txid);
    }

    method IsOutpointReserved(key: Outpoint, now: int) returns (b: bool)
      modifies this`outpointReservations
      ensures b == IsReserved(old(outpointReservations), key, now)
      ensures outpointReservations == AfterLookup(old(outpointReservations), key, now)
    {
      if key !in outpointReservations { return false; }
      if outpointReservations[key] <= now {
        outpointReservations := outpointReservations - {key};
        return false;
      }
      return true;
    }

    method ReserveOutpoint(key: Outpoint, now: int) returns (expiry: int)
      modifies this`outpointReservations
      ensures expiry == now + RESERVATION_TTL_MS
      ensures outpointReservations == old(outpointReservations)[key := expiry]
    {
      expiry := now + RESERVATION_TTL_MS;
      outpointReservations := outpointReservations[key := expiry];
    }

    method ClaimOutpoint(ledger: Ledger, key: Outpoint, now: int)
      modifies this`outpointReservations, ledger`claims
      ensures outpointReservations == old(outpointReservations)[key := now + RESERVATION_TTL_MS]
      ensures ledger.claims == old(ledger.claims) + [Claim(key, now + RESERVATION_TTL_MS, None)]
    {
      var expiry := ReserveOutpoint(key, now);
      ledger.claims := ledger.claims + [Claim(key, expiry, None)];
    }

    method ReleaseCallReservations(claims: seq<Claim>)
      modifies this`outpointReservations
      ensures outpointReservations == Release(old(outpointReservations), claims)
    {
      var i := 0;
      while i < |claims|
        invariant i <= |claims|
        invariant Release(outpointReservations, claims[i..]) == Release(old(outpointReservations), claims)
      {
        var claim := claims[i];
        if claim.key in outpointReservations && outpointReservations[claim.key] == claim.expiry {
          outpointReservations := outpointReservations - {claim.key};
        }
        i := i + 1;
      }
    }

    // ---------- cancel owners ----------

    method MaxLiveCancelOwnerExpiry(key: Outpoint, now: int) returns (max: Option<int>)
      ensures max == MaxLive(envelopeCancelClaims, key, now)
    {
      if key !in envelopeCancelClaims { return None; }
      var owners := envelopeCancelClaims[key];
      max := None;
      var todo := owners.Keys;
      while todo != {}
        invariant todo <= owners.Keys
        invariant max.Some? ==> max.value > now && exists o :: o in owners && owners[o] == max.value
        invariant forall o | o in owners && o !in todo && owners[o] > now :: max.Some? && owners[o] <= max.value
        decreases todo
      {
        var o :| o in todo;
        if owners[o] > now && (max == None || owners[o] > max.value) { max := Some(owners[o]); }
        todo := todo - {o};
      }
    }

    method DropCancelOwner(key: Outpoint, ownerId: OwnerId, now: int) returns (held: bool)
      modifies this`envelopeCancelClaims, this`outpointReservations
      ensures (State(), held) == DropOwner(old(State()), key, ownerId, now)
    {
      if key !in envelopeCancelClaims { return false; }
      envelopeCancelClaims := envelopeCancelClaims[key := envelopeCancelClaims[key] - {ownerId}];
      var remaining := MaxLiveCancelOwnerExpiry(key, now);
      if remaining == None {
        envelopeCancelClaims := envelopeCancelClaims - {key};
        assert envelopeCancelClaims == old(envelopeCancelClaims) - {key};
        return false;
      }
      outpointReservations := outpointReservations[key := remaining.value];
      return true;
    }

    method ReleaseEnvelopeCancelClaims(claims: seq<Claim>, now: int)
      modifies this`envelopeCancelClaims, this`outpointReservations
      ensures State() == ReleaseCancel(old(State()), claims, now)
    {
      var handBack: seq<Claim> := [];
      var i := 0;
      while i < |claims|
        invariant i <= |claims|
        invariant DropOwners(State(), claims[i..], now, handBack) == DropOwners(old(State()), claims, now, [])
        invariant reservationTickets == old(reservationTickets) && recentBuilds == old(recentBuilds)
      {
        var claim := claims[i];
        var held := false;
        if claim.owner.Some? { held := DropCancelOwner(claim.key, claim.owner.value, now); }
        if !held { handBack := handBack + [claim]; }
        i := i + 1;
      }
      ReleaseCallReservations(handBack);
    }

    method ClaimCommitOutpoint(ledger: Ledger, key: Outpoint, cancelOwnerId: OwnerId, now: int) returns (r: Result<(), string>)
      modifies this`envelopeCancelClaims, this`outpointReservations, ledger`claims
      ensures State() == ClaimCommit(old(State()), key, cancelOwnerId, now).0
      ensures r.Ok? == ClaimCommit(old(State()), key, cancelOwnerId, now).1
      ensures ledger.claims == old(ledger.claims)
        + if r.Ok? then [Claim(key, now + RESERVATION_TTL_MS, Some(cancelOwnerId))] else []
    {
      EvictExpiredReservations(now);
      EvictExpiredEnvelopeCancelClaims(now);
      var reserved := IsOutpointReserved(key, now);
      if reserved {
        var held := MaxLiveCancelOwnerExpiry(key, now);
        if held != Some(outpointReservations[key]) { return Err("ENVELOPE_CANCEL_OUTPOINT_RESERVED"); }
      }
      ClaimOutpoint(ledger, key, now);
      var last := |ledger.claims| - 1;
      ledger.claims := ledger.claims[last := ledger.claims[last].(owner := Some(cancelOwnerId))];
      var owners: map<OwnerId, int> := if key in envelopeCancelClaims then envelopeCancelClaims[key] else map[];
      envelopeCancelClaims := envelopeCancelClaims[key := owners[cancelOwnerId := ledger.claims[last].expiry]];
      return Ok(());
    }

    // ---------- tickets ----------

    static method Latest(claims: seq<Claim>) returns (expiry: int)
      ensures expiry == LastExpiry(claims)
    {
      expiry := 0;
      var i := 0;
      while i < |claims|
        invariant i <= |claims| && 0 <= expiry
        invariant Max(expiry, LastExpiry(claims[i..])) == LastExpiry(claims)
      {
        if claims[i].expiry > expiry { expiry := claims[i].expiry; }
        i := i + 1;
      }
    }

    method StillHeld(claims: seq<Claim>) returns (live: seq<Claim>)
      ensures live == StillStamped(outpointReservations, claims)
    {
      live := [];
      var i := 0;
      while i < |claims|
        invariant i <= |claims|
        invariant live + StillStamped(outpointReservations, claims[i..]) == StillStamped(outpointReservations, claims)
      {
        var claim := claims[i];
        if claim.key in outpointReservations && outpointReservations[claim.key] == claim.expiry { live := live + [claim]; }
        i := i + 1;
      }
    }

    method MintReservationTicket(ledger: Ledger, id: TicketId, now: int) returns (receipt: Option<TicketId>)
      modifies this`reservationTickets
      ensures (State(), receipt) == Mint(old(State()), ledger.claims, ledger.buildTxid, id, now)
    {
      EvictExpiredReservationTickets(now);
      var live := StillHeld(ledger.claims);
      if live == [] { return None; }
      var expiry := Latest(live);
      var txid := ledger.buildTxid;
      var txidExpiry := if txid.Some? && txid.value in recentBuilds then Some(recentBuilds[txid.value]) else None;
      reservationTickets := reservationTickets[id := Ticket(live, expiry, txid, txidExpiry)];
      return Some(id);
    }

    method ReleaseReservation(reservationId: string, now: int) returns (reply: ReleaseReply)
      modifies this
      ensures (State(), reply) == ReleaseTicket(old(State()), reservationId, now)
    {
      if !IsTicketId(reservationId) { return Malformed; }
      EvictExpiredReservations(now);
      EvictExpiredEnvelopeCancelClaims(now);
      EvictExpiredRecentBuilds(now);
      EvictExpiredReservationTickets(now);
      if reservationId !in reservationTickets { return NotFound; }
      var ticket := reservationTickets[reservationId];
      reservationTickets := reservationTickets - {reservationId};
      ghost var start := State();
      var released, retained: seq<Outpoint> := [], [];
      var i := 0;
      while i < |ticket.claims|
        invariant i <= |ticket.claims|
        invariant SettleClaims(State(), ticket.claims[i..], now, released, retained) == SettleClaims(start, ticket.claims, now, [], [])
      {
        var claim := ticket.claims[i];
        var held := false;
        if claim.owner.Some? { held := DropCancelOwner(claim.key, claim.owner.value, now); }
        if !held && claim.key in outpointReservations && outpointReservations[claim.key] == claim.expiry {
          outpointReservations := outpointReservations - {claim.key};
          released := released + [claim.key];
        } else {
          retained := retained + [claim.key];
        }
        i := i + 1;
      }
      if ticket.txid.Some? && ticket.txidExpiry.Some? && ticket.txid.value in recentBuilds
         && recentBuilds[ticket.txid.value] == ticket.txidExpiry.value {
        recentBuilds := recentBuilds - {ticket.txid.value};
      }
      return Settled(released, retained);
    }
  }
}
