/**
 Every interleaving of create builds, cancel builds, failures and ticket releases over
 one set of reservation maps. An action is a stretch the encoder runs without yielding,
 or a piece of one, so every real schedule is a run of this machine.
 */
module ReservationProtocol {
  import opened Common
  import opened OutpointStore

  type BuildId = nat

  datatype Phase =
    | Gathering
    | Bound
    | Selecting(now: int, next: nat)   // `now` was read once, before the first candidate
    | Selected
    | Finished                          // past the duplicate-build gate, receipt not yet minted
    | Throwing                          // threw; its claims are not handed back yet
    | Returned(ticket: Option<TicketId>)
    | Failed
    | HandedBack

  datatype Record = Record(txid: Txid, expiry: int)

  datatype Build = Build(
    cancel: bool,
    utxos: seq<Outpoint>,
    exact: bool,
    keyBinds: bool,
    first: Option<Outpoint>,
    keyTxid: Option<Txid>,
    spent: seq<Outpoint>,
    ledger: seq<Claim>,
    record: Option<Record>,
    phase: Phase)

  datatype System = System(clock: int, store: Store, builds: map<BuildId, Build>)

  datatype Action =
    | Tick(ms: nat)
    | StartCreate(i: BuildId, utxos: seq<Outpoint>, exact: bool, keyBinds: bool)
    | Bind(i: BuildId)
    | StartSelection(i: BuildId)
    | SelectNext(i: BuildId)
    | StopSelection(i: BuildId)
    | Finish(i: BuildId, txid: Txid)
    | StartCancel(i: BuildId, key: Outpoint, owner: OwnerId)
    | MintReceipt(i: BuildId, id: TicketId)
    | Throw(i: BuildId)
    | HandBack(i: BuildId)
    | Release(id: TicketId)

  predicate Distinct(s: seq<Outpoint>) {
    forall p, q | 0 <= p < q < |s| :: s[p] != s[q]
  }

  function KeysOf(claims: seq<Claim>): seq<Outpoint> {
    seq(|claims|, p requires 0 <= p < |claims| => claims[p].key)
  }

  predicate Holding(p: Phase) {
    p != Failed && p != HandedBack
  }

  function Put(s: System, i: BuildId, b: Build): System {
    s.(builds := s.builds[i := b])
  }

  predicate At(s: System, i: BuildId, p: Phase) {
    i in s.builds && s.builds[i].phase == p
  }

  // ---------- the steps ----------

  /** The head-of-order splice. */
  function MoveToFront(utxos: seq<Outpoint>, i: nat): seq<Outpoint>
    requires i < |utxos|
  {
    [utxos[i]] + utxos[..i] + utxos[i + 1..]
  }

  /** Binding the key: what becomes of the maps and of the build. */
  ghost function BindBuild(b: Build, st: Store, now: int): (Store, Build) {
    var m := Sweep(st.reservations, now);
    if b.utxos == [] then (st, b.(phase := Bound))
    else if b.exact then
      if exists k :: k in b.utxos && IsReserved(m, k, now) then (st.(reservations := m), b.(phase := Throwing))
      else (st.(reservations := Reserve(m, b.utxos, now)),
            b.(ledger := ClaimsFor(b.utxos, now), keyTxid := Some(b.utxos[0].txid), phase := Bound))
    else
      var f := FirstFree(m, b.utxos, now);
      if f == |b.utxos| then (st.(reservations := m), b.(keyTxid := Some(b.utxos[0].txid), phase := Bound))
      else
        var k := b.utxos[f];
        (st.(reservations := Reserve(m, [k], now)),
         b.(utxos := MoveToFront(b.utxos, f), first := Some(k), keyTxid := Some(k.txid), ledger := ClaimsFor([k], now), phase := Bound))
  }

  ghost function BindKey(s: System, i: BuildId): System
    requires i in s.builds
  {
    var (st, b) := BindBuild(s.builds[i], s.store, s.clock);
    Put(s.(store := st), i, b)
  }

  /** One turn of the selection loop, judged at the clock value the loop read at its start. */
  ghost function SelectCandidate(s: System, i: BuildId): System
    requires i in s.builds && s.builds[i].phase.Selecting?
    requires s.builds[i].phase.next < |s.builds[i].utxos|
  {
    var b := s.builds[i];
    var Selecting(now, next) := b.phase;
    var k := b.utxos[next];
    var on := b.(phase := Selecting(now, next + 1));
    if b.exact || b.first == Some(k) then Put(s, i, on.(spent := b.spent + [k]))
    else if IsReserved(s.store.reservations, k, now) then Put(s, i, on)
    else
      Put(s.(store := s.store.(reservations := Reserve(AfterLookup(s.store.reservations, k, now), [k], now))), i,
          on.(spent := b.spent + [k], ledger := b.ledger + ClaimsFor([k], now)))
  }

  predicate MayStop(b: Build) {
    b.phase.Selecting? && (b.phase.next == |b.utxos| || (!b.exact && b.spent != []))
  }

  /** The obfuscation key is bound to an outpoint that did not land at ins[0]. */
  predicate RaceRefused(b: Build) {
    b.keyBinds && b.spent != [] && b.keyTxid.Some? && b.spent[0].txid != b.keyTxid.value
  }

  /** Nothing was selected: no candidates, or every one is spoken for. */
  predicate EmptyRefused(b: Build) {
    b.spent == []
  }

  ghost function GiveUp(st: Store, cancel: bool, claims: seq<Claim>, now: int): Store {
    if cancel then ReleaseCancel(st, claims, now)
    else st.(reservations := OutpointStore.Release(st.reservations, claims))
  }

  /** Claim `c` is on build `i`'s ledger. */
  ghost predicate Entry(s: System, i: BuildId, c: Claim) {
    i in s.builds && c in s.builds[i].ledger
  }

  ghost predicate OwnerUnused(s: System, o: OwnerId) {
    forall i, c | Entry(s, i, c) :: c.owner != Some(o)
  }

  predicate TicketUnused(s: System, id: TicketId) {
    IsTicketId(id) && id !in s.store.tickets && forall j | j in s.builds :: s.builds[j].phase != Returned(Some(id))
  }

  predicate MayMint(s: System, i: BuildId) {
    i in s.builds && s.builds[i].phase == if s.builds[i].cancel then Selected else Finished
  }

  predicate MayThrow(s: System, i: BuildId) {
    i in s.builds && var p := s.builds[i].phase; p == Gathering || p == Bound || p.Selecting? || p == Selected
  }

  function MarkHandedBack(builds: map<BuildId, Build>, id: TicketId): map<BuildId, Build> {
    map j | j in builds ::
      if builds[j].phase == Returned(Some(id)) then builds[j].(phase := HandedBack) else builds[j]
  }

  /** One action; an action that is not enabled changes nothing. */
  ghost function Apply(s: System, a: Action): System {
    match a
    case Tick(ms) => s.(clock := s.clock + ms)
    case StartCreate(i, utxos, exact, keyBinds) =>
      if i in s.builds || !Distinct(utxos) then s
      else Put(s, i, Build(false, utxos, exact, keyBinds, None, None, [], [], None, Gathering))
    case Bind(i) =>
      if At(s, i, Gathering) then BindKey(s, i) else s
    case StartSelection(i) =>
      if !At(s, i, Bound) then s
      else
        Put(s.(store := s.store.(reservations := Sweep(s.store.reservations, s.clock))), i,
            s.builds[i].(phase := Selecting(s.clock, 0)))
    case SelectNext(i) =>
      if i in s.builds && s.builds[i].phase.Selecting? && s.builds[i].phase.next < |s.builds[i].utxos|
      then SelectCandidate(s, i) else s
    case StopSelection(i) =>
      if i in s.builds && MayStop(s.builds[i])
      then Put(s, i, s.builds[i].(phase := if EmptyRefused(s.builds[i]) || RaceRefused(s.builds[i]) then Throwing else Selected))
      else s
    case Finish(i, txid) =>
      if !At(s, i, Selected) || s.builds[i].cancel then s
      else
        var (st, isNew) := RegisterBuild(s.store, txid, s.clock);
        Put(s.(store := st), i,
            if isNew then s.builds[i].(record := Some(Record(txid, s.clock + RESERVATION_TTL_MS)), phase := Finished)
            else s.builds[i].(phase := Throwing))
    case StartCancel(i, key, owner) =>
      if i in s.builds || !OwnerUnused(s, owner) then s
      else
        var (st, ok) := ClaimCommit(s.store, key, owner, s.clock);
        var ledger := if ok then [Claim(key, s.clock + RESERVATION_TTL_MS, Some(owner))] else [];
        Put(s.(store := st), i,
            Build(true, [], false, false, None, None, KeysOf(ledger), ledger, None, if ok then Selected else Throwing))
    case MintReceipt(i, id) =>
      if !MayMint(s, i) || !TicketUnused(s, id) then s
      else
        var b := s.builds[i];
        var (st, receipt) := Mint(s.store, b.ledger, if b.record.Some? then Some(b.record.value.txid) else None, id, s.clock);
        Put(s.(store := st), i, b.(phase := Returned(receipt)))
    case Throw(i) =>
      if MayThrow(s, i) then Put(s, i, s.builds[i].(phase := Throwing)) else s
    case HandBack(i) =>
      if !At(s, i, Throwing) then s
      else
        Put(s.(store := GiveUp(s.store, s.builds[i].cancel, s.builds[i].ledger, s.clock)), i, s.builds[i].(phase := Failed))
    case Release(id) =>
      var (st, reply) := ReleaseTicket(s.store, id, s.clock);
      System(s.clock, st, if reply.Settled? then MarkHandedBack(s.builds, id) else s.builds)
  }

  predicate Init(s: System) {
    s.clock >= 0 && s.store == Store(map[], map[], map[], map[]) && s.builds == map[]
  }

  /** The state after some actions, latest last. */
  ghost function Run(s: System, actions: seq<Action>): System {
    if actions == [] then s else Apply(Run(s, actions[..|actions| - 1]), actions[|actions| - 1])
  }

  // ---------- the invariant ----------

  /** Build `i` still answers for claim `c`, and the claim is unexpired at the real clock. */
  ghost predicate Live(s: System, i: BuildId, c: Claim) {
    Entry(s, i, c) && Holding(s.builds[i].phase) && c.expiry > s.clock
  }

  predicate LedgerOk(b: Build, clock: int) {
    && Distinct(KeysOf(b.ledger))
    && (forall c | c in b.ledger :: c.expiry <= clock + RESERVATION_TTL_MS && c.owner.Some? == b.cancel)
    && (b.cancel ==> |b.ledger| <= 1 && b.record == None)
    && (b.record.Some? ==> b.phase.Finished? || b.phase.Returned? || b.phase.HandedBack?)
    && (b.record == None && !b.cancel ==> !b.phase.Finished? && !b.phase.Returned?)
    && (b.record.Some? ==> forall c | c in b.ledger :: c.expiry <= b.record.value.expiry)
    && (b.phase.Selecting? ==> b.phase.now <= clock)
  }

  /** The obfuscation key is the txid of input 0. */
  predicate KeyFits(b: Build) {
    b.spent != [] && b.keyTxid == Some(b.spent[0].txid)
  }

  /** What the ledger, the spent inputs and the key-bound outpoint have to do with each other. */
  predicate Shape(b: Build) {
    && Distinct(b.utxos)
    && match b.phase
       case Gathering => b.ledger == [] && b.spent == [] && b.first == None && !b.cancel
       case Bound => b.spent == [] && ShapeAt(b, 0)
       case Selecting(_, next) => next <= |b.utxos| && ShapeAt(b, next)
       case Throwing => true
       case Failed => true
       case _ => KeysOf(b.ledger) == b.spent && (b.first.Some? ==> b.spent != [] && b.spent[0] == b.first.value)
                 && (b.keyBinds ==> KeyFits(b)) && (!b.cancel ==> b.spent != [])
  }

  /** The same while the first `next` candidates have been looked at. */
  predicate ShapeAt(b: Build, next: nat)
    requires next <= |b.utxos|
  {
    && !b.cancel
    && (b.utxos != [] ==> b.keyTxid == Some(b.utxos[0].txid))
    && (b.first.Some? ==> !b.exact && b.utxos != [] && b.utxos[0] == b.first.value)
    && (forall k | k in b.spent :: k in b.utxos[..next])
    && if b.exact then b.spent == b.utxos[..next] && KeysOf(b.ledger) == b.utxos
       else if b.first == None then KeysOf(b.ledger) == b.spent
       else if next == 0 then b.spent == [] && KeysOf(b.ledger) == [b.first.value]
       else KeysOf(b.ledger) == b.spent && b.spent != [] && b.spent[0] == b.first.value
  }

  ghost predicate BuildsOk(s: System) {
    s.clock >= 0 && forall i | i in s.builds :: LedgerOk(s.builds[i], s.clock) && Shape(s.builds[i])
  }

  /** A live owner token. */
  ghost predicate Token(s: System, k: Outpoint, o: OwnerId, expiry: int) {
    k in s.store.cancels && o in s.store.cancels[k] && s.store.cancels[k][o] == expiry && expiry > s.clock
  }

  ghost predicate OwnedInMaps(s: System, c: Claim) {
    if c.owner == None then
      Stamped(s.store.reservations, c) && MaxLive(s.store.cancels, c.key, s.clock) == None
    else
      Token(s, c.key, c.owner.value, c.expiry)
  }

  /** Every live claim is what the maps say it is. */
  ghost predicate ClaimsOwned(s: System) {
    forall i, c | Live(s, i, c) :: OwnedInMaps(s, c)
  }

  /** No two create builds hold one outpoint. */
  ghost predicate ClaimsUnique(s: System) {
    forall i, j, c, d | Live(s, i, c) && Live(s, j, d) && c.owner == None && d.owner == None && c.key == d.key :: i == j
  }

  ghost predicate OwnersUnique(s: System) {
    forall i, j, c, d | Entry(s, i, c) && Entry(s, j, d) && c.owner.Some? && c.owner == d.owner :: i == j
  }

  ghost predicate LiveHolder(s: System, c: Claim) {
    exists i :: Live(s, i, c)
  }

  /** A live owner token belongs to a build that still holds it. */
  ghost predicate TokensHeld(s: System) {
    forall k, o, e | Token(s, k, o, e) :: LiveHolder(s, Claim(k, e, Some(o)))
  }

  /** While cancel builds hold an outpoint its reservation is the highest live owner expiry. */
  ghost predicate MaxRule(s: System) {
    forall k | MaxLive(s.store.cancels, k, s.clock).Some? ::
      k in s.store.reservations && s.store.reservations[k] == MaxLive(s.store.cancels, k, s.clock).value
  }

  ghost predicate HeldAt(s: System, k: Outpoint, expiry: int) {
    exists i, c :: Live(s, i, c) && c.key == k && c.expiry == expiry
  }

  /** An unexpired reservation always has a holder. */
  ghost predicate NoStray(s: System) {
    forall k | k in s.store.reservations && s.store.reservations[k] > s.clock :: HeldAt(s, k, s.store.reservations[k])
  }

  predicate TicketFits(t: Ticket, b: Build, clock: int) {
    && t.claims != [] && (forall c | c in t.claims :: c in b.ledger)
    && Distinct(KeysOf(t.claims)) && t.expiry == LastExpiry(t.claims)
    && (!b.cancel && t.expiry > clock ==>
          b.record.Some? && t.txid == Some(b.record.value.txid) && t.txidExpiry == Some(b.record.value.expiry))
    && (b.cancel ==> t.txid == None && t.claims == b.ledger)
  }

  ghost predicate IssuedTo(s: System, id: TicketId, i: BuildId) {
    At(s, i, Returned(Some(id)))
  }

  ghost predicate TicketIssued(s: System, id: TicketId) {
    IsTicketId(id) && exists i :: IssuedTo(s, id, i)
  }

  ghost predicate TicketsIssued(s: System) {
    forall id | id in s.store.tickets :: TicketIssued(s, id)
  }

  ghost predicate TicketsFit(s: System) {
    forall id, i | id in s.store.tickets && IssuedTo(s, id, i) :: TicketFits(s.store.tickets[id], s.builds[i], s.clock)
  }

  ghost predicate TicketsUnique(s: System) {
    forall id, i, j | IssuedTo(s, id, i) && IssuedTo(s, id, j) :: i == j
  }

  /** A returned create build's receipt names every claim it still has. */
  ghost predicate ReceiptsComplete(s: System) {
    forall i, c | Live(s, i, c) && c.owner == None && s.builds[i].phase.Returned? ::
      OnReceipt(s, s.builds[i].phase.ticket, c)
  }

  predicate OnReceipt(s: System, id: Option<TicketId>, c: Claim) {
    id.Some? && id.value in s.store.tickets && c in s.store.tickets[id.value].claims
  }

  ghost predicate LiveRecord(s: System, i: BuildId, r: Record) {
    i in s.builds && Holding(s.builds[i].phase) && s.builds[i].record == Some(r) && r.expiry > s.clock
  }

  ghost predicate RecordsOk(s: System) {
    && (forall i, r | LiveRecord(s, i, r) :: r.txid in s.store.recent && s.store.recent[r.txid] == r.expiry)
    && (forall i, j, r, q | LiveRecord(s, i, r) && LiveRecord(s, j, q) && r.txid == q.txid :: i == j)
  }

  ghost predicate ClaimsInv(s: System) {
    ClaimsOwned(s) && ClaimsUnique(s) && OwnersUnique(s) && TokensHeld(s) && MaxRule(s) && NoStray(s)
  }

  ghost predicate TicketsInv(s: System) {
    TicketsIssued(s) && TicketsFit(s) && TicketsUnique(s) && ReceiptsComplete(s)
  }

  ghost predicate Inv(s: System) {
    BuildsOk(s) && ClaimsInv(s) && TicketsInv(s) && RecordsOk(s)
  }
}
