/**
 The bookkeeping a build consults before it spends an outpoint, as values: what
 every method of `ReservationMaps` computes, stated without loops.
 */
module OutpointStore {
  import opened Common

  const RESERVATION_TTL_MS: int := 300000

  type Txid = string
  type OwnerId = string
  type TicketId = string

  /** The identity of an output, `txid` already in lower case. */
  datatype Outpoint = Outpoint(txid: Txid, vout: nat)

  /** One entry of a call's ledger. `owner` is set only by a cancel build. */
  datatype Claim = Claim(key: Outpoint, expiry: int, owner: Option<OwnerId>)

  datatype Ticket = Ticket(claims: seq<Claim>, expiry: int, txid: Option<Txid>, txidExpiry: Option<int>)

  datatype Store = Store(
    reservations: map<Outpoint, int>,
    recent: map<Txid, int>,
    cancels: map<Outpoint, map<OwnerId, int>>,
    tickets: map<TicketId, Ticket>)

  datatype ReleaseReply = Malformed | NotFound | Settled(released: seq<Outpoint>, retained: seq<Outpoint>)

  // ---------- lapsing ----------

  /** The entries still unexpired at `now`. */
  ghost function Sweep<K>(m: map<K, int>, now: int): map<K, int> {
    map k | k in m && m[k] > now :: m[k]
  }

  ghost function SweepOwners(m: map<Outpoint, map<OwnerId, int>>, now: int): map<Outpoint, map<OwnerId, int>> {
    map k | k in m && Sweep(m[k], now) != map[] :: Sweep(m[k], now)
  }

  ghost function SweepTickets(m: map<TicketId, Ticket>, now: int): map<TicketId, Ticket> {
    map k | k in m && m[k].expiry > now :: m[k]
  }

  predicate IsReserved(m: map<Outpoint, int>, key: Outpoint, now: int) {
    key in m && m[key] > now
  }

  /** A lookup drops the entry it finds lapsed. */
  function AfterLookup(m: map<Outpoint, int>, key: Outpoint, now: int): map<Outpoint, int> {
    if key in m && m[key] <= now then m - {key} else m
  }

  // ---------- stamp-checked release ----------

  predicate Stamped(m: map<Outpoint, int>, c: Claim) {
    c.key in m && m[c.key] == c.expiry
  }

  function ReleaseOne(m: map<Outpoint, int>, c: Claim): map<Outpoint, int> {
    if Stamped(m, c) then m - {c.key} else m
  }

  function Release(m: map<Outpoint, int>, claims: seq<Claim>): map<Outpoint, int> {
    if claims == [] then m else Release(ReleaseOne(m, claims[0]), claims[1..])
  }

  // ---------- cancel owners ----------

  /** The highest expiry among the owners still live at `now`. */
  ghost function Highest(owners: map<OwnerId, int>, now: int): (r: Option<int>)
    ensures r == None <==> forall o | o in owners :: owners[o] <= now
    ensures r.Some? ==> r.value > now && (exists o :: o in owners && owners[o] == r.value)
                        && forall o | o in owners :: owners[o] <= r.value
    decreases owners.Keys
  {
    if owners.Keys == {} then None
    else
      var o :| o in owners.Keys;
      var rest := Highest(owners - {o}, now);
      assert forall p | p in owners :: p == o || p in owners - {o};
      if owners[o] > now && (rest == None || owners[o] > rest.value) then Some(owners[o]) else rest
  }

  ghost function OwnersOf(m: map<Outpoint, map<OwnerId, int>>, key: Outpoint): map<OwnerId, int> {
    if key in m then m[key] else map[]
  }

  /** The highest expiry a live cancel owner holds on `key`. */
  ghost function MaxLive(m: map<Outpoint, map<OwnerId, int>>, key: Outpoint, now: int): Option<int> {
    Highest(OwnersOf(m, key), now)
  }

  /** Drops one owner token; true when another live owner still holds the outpoint. */
  ghost function DropOwner(st: Store, key: Outpoint, id: OwnerId, now: int): (Store, bool) {
    if key !in st.cancels then (st, false)
    else
      var rest := st.cancels[key := st.cancels[key] - {id}];
      match MaxLive(rest, key, now)
      case None => (st.(cancels := st.cancels - {key}), false)
      case Some(e) => (st.(cancels := rest, reservations := st.reservations[key := e]), true)
  }

  ghost function DropClaimOwner(st: Store, c: Claim, now: int): (Store, bool) {
    if c.owner.Some? then DropOwner(st, c.key, c.owner.value, now) else (st, false)
  }

  /** Drops every claim's owner token, keeping the claims nobody else holds. */
  ghost function DropOwners(st: Store, claims: seq<Claim>, now: int, kept: seq<Claim>): (Store, seq<Claim>)
    decreases |claims|
  {
    if claims == [] then (st, kept)
    else
      var (st', held) := DropClaimOwner(st, claims[0], now);
      DropOwners(st', claims[1..], now, if held then kept else kept + [claims[0]])
  }

  ghost function ReleaseCancel(st: Store, claims: seq<Claim>, now: int): Store {
    var (st', handBack) := DropOwners(st, claims, now, []);
    st'.(reservations := Release(st'.reservations, handBack))
  }

  // ---------- tickets ----------

  function StillStamped(m: map<Outpoint, int>, claims: seq<Claim>): seq<Claim> {
    if claims == [] then []
    else (if Stamped(m, claims[0]) then [claims[0]] else []) + StillStamped(m, claims[1..])
  }

  lemma {:induction false} StillStampedContents(m: map<Outpoint, int>, claims: seq<Claim>)
    ensures forall c :: c in StillStamped(m, claims) <==> c in claims && Stamped(m, c)
  {
    if claims != [] {
      StillStampedContents(m, claims[1..]);
      assert claims == [claims[0]] + claims[1..];
    }
  }

  /** The latest expiry of some claims, never below 0. */
  function LastExpiry(claims: seq<Claim>): (r: int)
    ensures r >= 0 && forall c | c in claims :: c.expiry <= r
    ensures r == 0 || exists c :: c in claims && c.expiry == r
  {
    if claims == [] then 0
    else
      var rest := LastExpiry(claims[1..]);
      assert claims == [claims[0]] + claims[1..];
      if claims[0].expiry > rest then claims[0].expiry else rest
  }

  ghost function Mint(st: Store, claims: seq<Claim>, txid: Option<Txid>, id: TicketId, now: int): (Store, Option<TicketId>) {
    var st' := st.(tickets := SweepTickets(st.tickets, now));
    var live := StillStamped(st.reservations, claims);
    if live == [] then (st', None)
    else
      var txidExpiry := if txid.Some? && txid.value in st.recent then Some(st.recent[txid.value]) else None;
      (st'.(tickets := st'.tickets[id := Ticket(live, LastExpiry(live), txid, txidExpiry)]), Some(id))
  }

  ghost function SweepAll(st: Store, now: int): Store {
    Store(Sweep(st.reservations, now), Sweep(st.recent, now), SweepOwners(st.cancels, now), SweepTickets(st.tickets, now))
  }

  /** Settles a ticket's claims in order, sorting their keys into released and retained. */
  ghost function SettleClaims(st: Store, claims: seq<Claim>, now: int, released: seq<Outpoint>, retained: seq<Outpoint>)
    : (Store, seq<Outpoint>, seq<Outpoint>)
    decreases |claims|
  {
    if claims == [] then (st, released, retained)
    else
      var c := claims[0];
      var (st', held) := DropClaimOwner(st, c, now);
      if !held && Stamped(st'.reservations, c) then
        SettleClaims(st'.(reservations := st'.reservations - {c.key}), claims[1..], now, released + [c.key], retained)
      else
        SettleClaims(st', claims[1..], now, released, retained + [c.key])
  }

  ghost function RetireRecord(st: Store, t: Ticket): Store {
    if t.txid.Some? && t.txidExpiry.Some? && t.txid.value in st.recent && st.recent[t.txid.value] == t.txidExpiry.value
    then st.(recent := st.recent - {t.txid.value}) else st
  }

  predicate IsHexDigit(c: char) {
    '0' <= c <= '9' || 'a' <= c <= 'f'
  }

  predicate IsTicketId(id: string) {
    |id| == 32 && forall i | 0 <= i < |id| :: IsHexDigit(id[i])
  }

  ghost function ReleaseTicket(st: Store, id: string, now: int): (Store, ReleaseReply) {
    if !IsTicketId(id) then (st, Malformed)
    else
      var swept := SweepAll(st, now);
      if id !in swept.tickets then (swept, NotFound)
      else
        var t := swept.tickets[id];
        var (st', released, retained) := SettleClaims(swept.(tickets := swept.tickets - {id}), t.claims, now, [], []);
        (RetireRecord(st', t), Settled(released, retained))
  }

  // ---------- claiming ----------

  /** The duplicate-build gate. */
  ghost function RegisterBuild(st: Store, txid: Txid, now: int): (Store, bool) {
    var recent := Sweep(st.recent, now);
    if txid in recent then (st.(recent := recent), false)
    else (st.(recent := recent[txid := now + RESERVATION_TTL_MS]), true)
  }

  function ClaimsFor(keys: seq<Outpoint>, now: int): (r: seq<Claim>)
    ensures |r| == |keys|
    ensures forall i | 0 <= i < |r| :: r[i] == Claim(keys[i], now + RESERVATION_TTL_MS, None)
  {
    if keys == [] then [] else [Claim(keys[0], now + RESERVATION_TTL_MS, None)] + ClaimsFor(keys[1..], now)
  }

  function Reserve(m: map<Outpoint, int>, keys: seq<Outpoint>, now: int): (r: map<Outpoint, int>)
    ensures r.Keys == m.Keys + set k | k in keys
    ensures forall k | k in keys :: r[k] == now + RESERVATION_TTL_MS
    ensures forall k | k in m && k !in keys :: r[k] == m[k]
    decreases |keys|
  {
    if keys == [] then m
    else
      assert keys == [keys[0]] + keys[1..];
      Reserve(m[keys[0] := now + RESERVATION_TTL_MS], keys[1..], now)
  }

  /** The first outpoint in order that nobody holds at `now`, or |keys|. */
  function FirstFree(m: map<Outpoint, int>, keys: seq<Outpoint>, now: int): (i: nat)
    ensures i <= |keys|
    ensures forall j | 0 <= j < i :: IsReserved(m, keys[j], now)
    ensures i < |keys| ==> !IsReserved(m, keys[i], now)
  {
    if keys == [] || !IsReserved(m, keys[0], now) then 0 else 1 + FirstFree(m, keys[1..], now)
  }

  /** Whether a cancel build may take `key`: nobody holds it, or only cancel builds do. */
  ghost predicate CancelMayClaim(st: Store, key: Outpoint, now: int) {
    !IsReserved(st.reservations, key, now) || MaxLive(st.cancels, key, now) == Some(st.reservations[key])
  }

  ghost function ClaimCommit(st: Store, key: Outpoint, id: OwnerId, now: int): (Store, bool) {
    var st' := st.(reservations := Sweep(st.reservations, now), cancels := SweepOwners(st.cancels, now));
    if !CancelMayClaim(st', key, now) then (st', false)
    else
      var expiry := now + RESERVATION_TTL_MS;
      (st'.(reservations := st'.reservations[key := expiry],
            cancels := st'.cancels[key := OwnersOf(st'.cancels, key)[id := expiry]]), true)
  }
}
