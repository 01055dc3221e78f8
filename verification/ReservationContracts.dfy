/** What callers may rely on in every run: who holds an outpoint, what ends a claim, what a receipt is worth. */
module ReservationContracts {
  import opened Common
  import opened OutpointStore
  import opened ReservationProtocol
  import opened ReservationInvariant
  import opened ReservationSteps
  import opened ReservationRuns

  // ---------- reserved means held ----------

  ghost predicate LiveOn(s: System, k: Outpoint, i: BuildId, c: Claim) {
    Live(s, i, c) && c.key == k
  }

  /** `e` is the highest expiry among the live claims on `k`. */
  ghost predicate HighestOn(s: System, k: Outpoint, e: int) {
    && (exists i, c :: LiveOn(s, k, i, c) && c.expiry == e)
    && (forall i, c | LiveOn(s, k, i, c) :: c.expiry <= e)
  }

  /**
   An outpoint is reserved exactly while some build's live claim is on it, at the highest
   expiry among those claims; so it comes free with the last holder and not before.
   */
  lemma ReservedIffHeld(s0: System, actions: seq<Action>, k: Outpoint)
    requires Init(s0)
    ensures var s := Run(s0, actions);
            && (IsReserved(s.store.reservations, k, s.clock) <==> exists i, c :: LiveOn(s, k, i, c))
            && (IsReserved(s.store.reservations, k, s.clock) ==> HighestOn(s, k, s.store.reservations[k]))
  {
    var s := Run(s0, actions);
    RunInv(s0, actions);
    HeldIsReserved(s, k);
    if IsReserved(s.store.reservations, k, s.clock) {
      assert HeldAt(s, k, s.store.reservations[k]);
      var i, c :| Live(s, i, c) && c.key == k && c.expiry == s.store.reservations[k];
      assert LiveOn(s, k, i, c);
    }
  }

  lemma HeldIsReserved(s: System, k: Outpoint)
    requires ClaimsOwned(s) && MaxRule(s)
    ensures forall i, c | LiveOn(s, k, i, c) :: IsReserved(s.store.reservations, k, s.clock) && c.expiry <= s.store.reservations[k]
  {
    forall i, c | LiveOn(s, k, i, c)
      ensures IsReserved(s.store.reservations, k, s.clock) && c.expiry <= s.store.reservations[k]
    {
      assert OwnedInMaps(s, c);
      if c.owner.Some? {
        assert c.owner.value in OwnersOf(s.store.cancels, k);
      }
    }
  }

  // ---------- cancel owners leaving in any order ----------

  /** A cancel gives its claim up at `clock`: it failed, or its ticket is released. */
  datatype Departure = Departure(claim: Claim, clock: int, ticket: Option<TicketId>)

  ghost function Depart(st: Store, d: Departure): Store {
    match d.ticket
    case None => ReleaseCancel(st, [d.claim], d.clock)
    case Some(id) => ReleaseTicket(st, id, d.clock).0
  }

  ghost function DepartEach(st: Store, ds: seq<Departure>): Store
    decreases |ds|
  {
    if ds == [] then st else DepartEach(Depart(st, ds[0]), ds[1..])
  }

  function OwnerIds(ds: seq<Departure>): set<OwnerId> {
    set d | d in ds && d.claim.owner.Some? :: d.claim.owner.value
  }

  /** `key` without some of its owners: at the highest live expiry left, or free. */
  ghost function WithoutOwners(st: Store, key: Outpoint, ids: set<OwnerId>, now: int): Store {
    var rest := OwnersOf(st.cancels, key) - ids;
    match Highest(rest, now)
    case None => st.(cancels := st.cancels - {key}, reservations := st.reservations - {key})
    case Some(e) => st.(cancels := st.cancels[key := rest], reservations := st.reservations[key := e])
  }

  ghost predicate MaxRuleOn(st: Store, key: Outpoint, now: int) {
    MaxLive(st.cancels, key, now).Some? ==> key in st.reservations && st.reservations[key] == MaxLive(st.cancels, key, now).value
  }

  /** `d`'s claim is a live owner of `key` until it departs, and so is its ticket when it leaves by one. */
  ghost predicate MayDepart(st: Store, key: Outpoint, d: Departure) {
    && d.claim.key == key && d.claim.owner.Some? && d.claim.expiry > d.clock
    && key in st.cancels && d.claim.owner.value in st.cancels[key] && st.cancels[key][d.claim.owner.value] == d.claim.expiry
    && (d.ticket.Some? ==> TicketNames(st, d.ticket.value, d.claim))
  }

  predicate TicketNames(st: Store, id: TicketId, c: Claim) {
    IsTicketId(id) && id in st.tickets && st.tickets[id] == Ticket([c], c.expiry, None, None)
  }

  /** Different owners of `key` leave one after the other, each while it is live. */
  ghost predicate Leaving(st: Store, key: Outpoint, ds: seq<Departure>) {
    && (forall p | 0 <= p < |ds| :: MayDepart(st, key, ds[p]))
    && (forall p, q | 0 <= p < q < |ds| :: ds[p].clock <= ds[q].clock && ds[p].claim.owner != ds[q].claim.owner)
    && (forall p, q | 0 <= p < q < |ds| && ds[p].ticket.Some? :: ds[p].ticket != ds[q].ticket)
  }

  /** Nothing unexpired at `now` tells the two stores apart, their tickets aside. */
  ghost predicate SameLiveEntries(a: Store, b: Store, now: int) {
    && Sweep(a.reservations, now) == Sweep(b.reservations, now) && Sweep(a.recent, now) == Sweep(b.recent, now)
    && SweepOwners(a.cancels, now) == SweepOwners(b.cancels, now)
  }

  /**
   Cancels of one outpoint may leave in any order, at different times, by failing or by their
   tickets, with equal expiries or not, while others lapse: only the set that left matters.
   */
  lemma {:induction false} OwnersLeaveInAnyOrder(st: Store, key: Outpoint, ds: seq<Departure>)
    requires ds != [] && MaxRuleOn(st, key, ds[0].clock) && Leaving(st, key, ds)
    ensures var last := ds[|ds| - 1].clock;
            SameLiveEntries(DepartEach(st, ds), WithoutOwners(st, key, OwnerIds(ds), last), last)
    decreases |ds|
  {
    var d := ds[0];
    var last := ds[|ds| - 1].clock;
    assert MayDepart(st, key, d);
    var st1 := Depart(st, d);
    assert ds == [d] + ds[1..];
    assert OwnerIds(ds) == {d.claim.owner.value} + OwnerIds(ds[1..]);
    DepartsAs(st, key, d);
    if ds[1..] == [] {
      assert DepartEach(st, ds) == DepartEach(st1, []) == st1;
      assert OwnerIds(ds) == {d.claim.owner.value};
      DepartedIsWithout(st, key, d);
    } else {
      NextDeparture(st, key, ds);
      OwnersLeaveInAnyOrder(st1, key, ds[1..]);
      assert ds[1..][|ds[1..]| - 1] == ds[|ds| - 1];
      DepartedAgrees(st, key, d, OwnerIds(ds[1..]), last);
    }
  }

  // Live entries apart from `key`, and what is live on `key`.

  ghost predicate SameElsewhere(a: Store, b: Store, key: Outpoint, now: int) {
    && Sweep(a.reservations - {key}, now) == Sweep(b.reservations - {key}, now) && Sweep(a.recent, now) == Sweep(b.recent, now)
    && forall k | k != key :: Sweep(OwnersOf(a.cancels, k), now) == Sweep(OwnersOf(b.cancels, k), now)
  }

  lemma SweepLater<K>(a: map<K, int>, b: map<K, int>, now: int, later: int)
    requires Sweep(a, now) == Sweep(b, now) && now <= later
    ensures Sweep(a, later) == Sweep(b, later)
  {
    assert forall k :: k in Sweep(a, later) <==> k in Sweep(a, now) && Sweep(a, now)[k] > later;
    assert forall k :: k in Sweep(b, later) <==> k in Sweep(b, now) && Sweep(b, now)[k] > later;
    assert forall k | k in Sweep(a, now) :: k in Sweep(b, now) && Sweep(a, now)[k] == Sweep(b, now)[k];
  }

  lemma SweepMinus<K>(a: map<K, int>, b: map<K, int>, ids: set<K>, now: int)
    requires Sweep(a, now) == Sweep(b, now)
    ensures Sweep(a - ids, now) == Sweep(b - ids, now)
  {
    assert Sweep(a - ids, now) == Sweep(a, now) - ids;
    assert Sweep(b - ids, now) == Sweep(b, now) - ids;
  }

  lemma ElsewhereLater(a: Store, b: Store, key: Outpoint, now: int, later: int)
    requires SameElsewhere(a, b, key, now) && now <= later
    ensures SameElsewhere(a, b, key, later)
  {
    SweepLater(a.reservations - {key}, b.reservations - {key}, now, later);
    SweepLater(a.recent, b.recent, now, later);
    forall k | k != key ensures Sweep(OwnersOf(a.cancels, k), later) == Sweep(OwnersOf(b.cancels, k), later) {
      SweepLater(OwnersOf(a.cancels, k), OwnersOf(b.cancels, k), now, later);
    }
  }

  /** What a store without some owners holds is decided by what was live elsewhere and by the owners left. */
  lemma WithoutAgrees(a: Store, b: Store, key: Outpoint, x: set<OwnerId>, y: set<OwnerId>, now: int)
    requires SameElsewhere(a, b, key, now)
    requires Sweep(OwnersOf(a.cancels, key) - x, now) == Sweep(OwnersOf(b.cancels, key) - y, now)
    ensures SameLiveEntries(WithoutOwners(a, key, x, now), WithoutOwners(b, key, y, now), now)
  {
    HighestOfLive(OwnersOf(a.cancels, key) - x, OwnersOf(b.cancels, key) - y, now);
    WithoutElsewhere(a, key, x, now);
    WithoutElsewhere(b, key, y, now);
    hide Highest;
    var a', b' := WithoutOwners(a, key, x, now), WithoutOwners(b, key, y, now);
    hide WithoutOwners;
    assert forall k :: Sweep(OwnersOf(a'.cancels, k), now) == Sweep(OwnersOf(b'.cancels, k), now);
    SameOwners(a'.cancels, b'.cancels, now);
    SweepWithKey(a'.reservations, b'.reservations, key, now);
  }

  lemma SameOwners(a: map<Outpoint, map<OwnerId, int>>, b: map<Outpoint, map<OwnerId, int>>, now: int)
    requires forall k :: Sweep(OwnersOf(a, k), now) == Sweep(OwnersOf(b, k), now)
    ensures SweepOwners(a, now) == SweepOwners(b, now)
  {
    forall k ensures k in SweepOwners(a, now) <==> k in SweepOwners(b, now) {
      assert Sweep(OwnersOf(a, k), now) == Sweep(OwnersOf(b, k), now);
    }
    forall k | k in SweepOwners(a, now) ensures SweepOwners(a, now)[k] == SweepOwners(b, now)[k] {
      assert Sweep(OwnersOf(a, k), now) == Sweep(OwnersOf(b, k), now);
    }
  }

  lemma SweepWithKey(a: map<Outpoint, int>, b: map<Outpoint, int>, key: Outpoint, now: int)
    requires Sweep(a - {key}, now) == Sweep(b - {key}, now)
    requires IsReserved(a, key, now) == IsReserved(b, key, now) && (IsReserved(a, key, now) ==> a[key] == b[key])
    ensures Sweep(a, now) == Sweep(b, now)
  {
    forall k ensures k in Sweep(a, now) <==> k in Sweep(b, now) {
      assert k != key ==> (k in Sweep(a, now) <==> k in Sweep(a - {key}, now)) && (k in Sweep(b, now) <==> k in Sweep(b - {key}, now));
    }
    forall k | k in Sweep(a, now) ensures Sweep(a, now)[k] == Sweep(b, now)[k] {
      assert k != key ==> Sweep(a - {key}, now)[k] == Sweep(b - {key}, now)[k];
    }
  }

  lemma WithoutElsewhere(st: Store, key: Outpoint, ids: set<OwnerId>, now: int)
    ensures var st' := WithoutOwners(st, key, ids, now);
            var top := Highest(OwnersOf(st.cancels, key) - ids, now);
            && SameElsewhere(st', st, key, now)
            && Sweep(OwnersOf(st'.cancels, key), now) == Sweep(OwnersOf(st.cancels, key) - ids, now)
            && (IsReserved(st'.reservations, key, now) <==> top.Some?) && (top.Some? ==> st'.reservations[key] == top.value)
  {
    WithoutCancels(st, key, ids, now);
    var st' := WithoutOwners(st, key, ids, now);
    assert st'.reservations - {key} == st.reservations - {key};
    hide Sweep; hide OwnersOf;
  }

  lemma WithoutCancels(st: Store, key: Outpoint, ids: set<OwnerId>, now: int)
    ensures var st' := WithoutOwners(st, key, ids, now);
            && (forall k | k != key :: OwnersOf(st'.cancels, k) == OwnersOf(st.cancels, k))
            && Sweep(OwnersOf(st'.cancels, key), now) == Sweep(OwnersOf(st.cancels, key) - ids, now)
  {
    if Highest(OwnersOf(st.cancels, key) - ids, now) == None {
      assert Sweep(OwnersOf(st.cancels, key) - ids, now) == map[];
    }
  }

  // One departure.

  /** The store a departure finds: a ticket's release sweeps the maps and takes the ticket first. */
  ghost function Met(st: Store, d: Departure): Store {
    match d.ticket
    case None => st
    case Some(id) => var swept := SweepAll(st, d.clock); swept.(tickets := swept.tickets - {id})
  }

  lemma MetSame(st: Store, key: Outpoint, d: Departure)
    requires MayDepart(st, key, d)
    ensures SameElsewhere(Met(st, d), st, key, d.clock)
    ensures Sweep(OwnersOf(Met(st, d).cancels, key), d.clock) == Sweep(OwnersOf(st.cancels, key), d.clock)
    ensures MaxRuleOn(st, key, d.clock) ==> MaxRuleOn(Met(st, d), key, d.clock)
    ensures MayDepart(Met(st, d), key, d.(ticket := None))
  {
    if d.ticket.Some? {
      var u := Met(st, d);
      SweptSame(st, d.clock);
      assert Sweep(u.reservations - {key}, d.clock) == Sweep(st.reservations - {key}, d.clock);
      hide SweepAll; hide Sweep;
      HighestOfLive(OwnersOf(u.cancels, key), OwnersOf(st.cancels, key), d.clock);
      TokenMoves(st.cancels, u.cancels, d.clock, key, d.claim.owner.value);
    }
  }

  lemma SweptSame(st: Store, now: int)
    ensures var u := SweepAll(st, now);
            && SameTokens(st.cancels, u.cancels, now) && Sweep(u.recent, now) == Sweep(st.recent, now)
            && (forall k :: IsReserved(u.reservations, k, now) == IsReserved(st.reservations, k, now))
            && (forall k | IsReserved(st.reservations, k, now) :: u.reservations[k] == st.reservations[k])
  {
    SweepTrims(st, now);
  }

  lemma DepartsAs(st: Store, key: Outpoint, d: Departure)
    requires MayDepart(st, key, d) && MaxRuleOn(st, key, d.clock)
    ensures Depart(st, d) == WithoutOwners(Met(st, d), key, {d.claim.owner.value}, d.clock)
  {
    MetSame(st, key, d);
    var u := Met(st, d);
    hide Met;
    LeaveOne(u, key, d.claim, d.clock);
    hide WithoutOwners; hide MayDepart; hide MaxRuleOn;
    if d.ticket.Some? { TicketDeparts(st, d); }
  }

  lemma TicketDeparts(st: Store, d: Departure)
    requires d.ticket.Some? && TicketNames(st, d.ticket.value, d.claim) && d.claim.expiry > d.clock
    ensures Depart(st, d) == ReleaseCancel(Met(st, d), [d.claim], d.clock)
  {
    OneClaim(Met(st, d), d.claim, d.clock);
    hide ReleaseCancel; hide DropAndRelease; hide SettleClaims;
  }

  lemma LeaveOne(st: Store, key: Outpoint, c: Claim, now: int)
    requires MaxRuleOn(st, key, now) && MayDepart(st, key, Departure(c, now, None))
    ensures ReleaseCancel(st, [c], now) == WithoutOwners(st, key, {c.owner.value}, now)
  {
    OneClaim(st, c, now);
    var owners := st.cancels[key];
    var rest := owners - {c.owner.value};
    assert OwnersOf(st.cancels[key := rest], key) == rest;
    var top := MaxLive(st.cancels, key, now);
    assert top.Some?;
    var o :| o in owners && owners[o] == top.value;
    assert o in rest || o == c.owner.value;
  }

  lemma DepartedIsWithout(st: Store, key: Outpoint, d: Departure)
    requires MayDepart(st, key, d) && MaxRuleOn(st, key, d.clock)
    ensures SameLiveEntries(Depart(st, d), WithoutOwners(st, key, {d.claim.owner.value}, d.clock), d.clock)
  {
    DepartsAs(st, key, d);
    MetSame(st, key, d);
    var own := {d.claim.owner.value};
    var u := Met(st, d);
    hide Met; hide Depart; hide WithoutOwners; hide MayDepart; hide MaxRuleOn; hide SameElsewhere;
    SweepMinus(OwnersOf(u.cancels, key), OwnersOf(st.cancels, key), own, d.clock);
    WithoutAgrees(u, st, key, own, own, d.clock);
  }

  /** What a departed store and the one before it agree on. */
  lemma DepartedSame(st: Store, key: Outpoint, d: Departure)
    requires MayDepart(st, key, d) && MaxRuleOn(st, key, d.clock)
    ensures SameElsewhere(Depart(st, d), st, key, d.clock)
    ensures Sweep(OwnersOf(Depart(st, d).cancels, key), d.clock) == Sweep(OwnersOf(st.cancels, key) - {d.claim.owner.value}, d.clock)
    ensures MaxRuleOn(Depart(st, d), key, d.clock)
  {
    DepartsAs(st, key, d);
    MetSame(st, key, d);
    var own := {d.claim.owner.value};
    var u := Met(st, d);
    hide Met; hide Depart; hide WithoutOwners; hide MayDepart;
    SweepMinus(OwnersOf(u.cancels, key), OwnersOf(st.cancels, key), own, d.clock);
    WithoutElsewhere(u, key, own, d.clock);
    HighestOfLive(OwnersOf(u.cancels, key) - own, OwnersOf(Depart(st, d).cancels, key), d.clock);
  }

  lemma DepartedAgrees(st: Store, key: Outpoint, d: Departure, ids: set<OwnerId>, last: int)
    requires MayDepart(st, key, d) && MaxRuleOn(st, key, d.clock) && d.clock <= last
    ensures SameLiveEntries(WithoutOwners(Depart(st, d), key, ids, last),
                            WithoutOwners(st, key, {d.claim.owner.value} + ids, last), last)
  {
    DepartedSame(st, key, d);
    var st1 := Depart(st, d);
    var own := {d.claim.owner.value};
    hide Depart; hide WithoutOwners; hide MayDepart; hide MaxRuleOn; hide SameElsewhere;
    ElsewhereLater(st1, st, key, d.clock, last);
    SweepLater(OwnersOf(st1.cancels, key), OwnersOf(st.cancels, key) - own, d.clock, last);
    SweepMinus(OwnersOf(st1.cancels, key), OwnersOf(st.cancels, key) - own, ids, last);
    assert OwnersOf(st.cancels, key) - own - ids == OwnersOf(st.cancels, key) - (own + ids);
    WithoutAgrees(st1, st, key, ids, own + ids, last);
  }

  /** The others may still leave after the first one has. */
  lemma NextDeparture(st: Store, key: Outpoint, ds: seq<Departure>)
    requires |ds| > 1 && MaxRuleOn(st, key, ds[0].clock) && Leaving(st, key, ds)
    ensures MaxRuleOn(Depart(st, ds[0]), key, ds[1].clock) && Leaving(Depart(st, ds[0]), key, ds[1..])
  {
    var d := ds[0];
    assert MayDepart(st, key, d);
    DepartedSame(st, key, d);
    var st1 := Depart(st, d);
    TickMax(st1.cancels, key, d.clock, ds[1].clock - d.clock);
    hide Depart; hide MaxRuleOn;
    forall p | 0 <= p < |ds[1..]| ensures MayDepart(st1, key, ds[1..][p]) {
      assert MayDepart(st, key, ds[p + 1]);
      StillDeparts(st, key, d, ds[p + 1]);
    }
  }

  lemma StillDeparts(st: Store, key: Outpoint, d: Departure, e: Departure)
    requires MayDepart(st, key, d) && MayDepart(st, key, e) && MaxRuleOn(st, key, d.clock)
    requires d.clock <= e.clock && d.claim.owner != e.claim.owner && (d.ticket.Some? ==> d.ticket != e.ticket)
    ensures MayDepart(Depart(st, d), key, e)
  {
    DepartedSame(st, key, d);
    DepartsAs(st, key, d);
    assert Depart(st, d).tickets == Met(st, d).tickets;
    hide Depart; hide WithoutOwners; hide MaxRuleOn; hide SameElsewhere;
    assert e.claim.owner.value in Sweep(OwnersOf(st.cancels, key) - {d.claim.owner.value}, d.clock);
    assert e.claim.owner.value in Sweep(OwnersOf(Depart(st, d).cancels, key), d.clock);
  }

  // ---------- what ends a claim ----------

  /** Only build `i` itself may do this: hand its claims back, or release its own receipt. */
  predicate OwnRelease(s: System, i: BuildId, a: Action) {
    i in s.builds
    && match s.builds[i].phase
       case Throwing => a == HandBack(i)
       case Returned(Some(id)) => a == ReservationProtocol.Release(id)
       case _ => false
  }

  /**
   Whatever anybody does, a live claim stays live, and stays what the maps say, until it
   lapses or its own build gives it up. Expiry stamps may be shared; nobody else's release
   takes an entry for its own.
   */
  lemma ClaimSurvives(s0: System, actions: seq<Action>, a: Action, i: BuildId, c: Claim)
    requires Init(s0) && Live(Run(s0, actions), i, c)
    requires !OwnRelease(Run(s0, actions), i, a)
    ensures var s' := Apply(Run(s0, actions), a); c.expiry > s'.clock ==> Live(s', i, c) && OwnedInMaps(s', c)
  {
    var s := Run(s0, actions);
    RunInv(s0, actions);
    StepKeeps(s, a);
    assert s.builds[i].phase.Gathering? ==> s.builds[i].ledger == [] by { BuildFacts(s, i); }
    hide Inv;
    StillAnswers(s, a, i, c);
    if c.expiry > Apply(s, a).clock {
      assert Live(Apply(s, a), i, c);
      OwnedFact(Apply(s, a), i, c);
    }
  }

  lemma OwnedFact(s: System, i: BuildId, c: Claim)
    requires Inv(s) && Live(s, i, c)
    ensures OwnedInMaps(s, c)
  {
  }

  lemma StillAnswers(s: System, a: Action, i: BuildId, c: Claim)
    requires Live(s, i, c) && !OwnRelease(s, i, a)
    requires s.builds[i].phase.Gathering? ==> s.builds[i].ledger == []
    ensures Entry(Apply(s, a), i, c) && Holding(Apply(s, a).builds[i].phase)
  {
    hide Mint; hide ClaimCommit; hide ReleaseTicket; hide RegisterBuild; hide Reserve; hide GiveUp; hide Sweep; hide MoveToFront;
    match a {
      case Bind(j) => if j == i && At(s, i, Gathering) { assert false; }
      case _ =>
    }
  }

  /** A release frees the releasing build's claims and no other: every other build keeps exactly what it held. */
  lemma OthersKeepTheirClaims(s0: System, actions: seq<Action>, a: Action, i: BuildId)
    requires Init(s0) && OwnRelease(Run(s0, actions), i, a)
    ensures forall j, c | j != i :: Live(Run(s0, actions), j, c) ==> Live(Apply(Run(s0, actions), a), j, c)
    ensures a.HandBack? ==> forall c :: !Live(Apply(Run(s0, actions), a), i, c)
  {
    var s := Run(s0, actions);
    RunInv(s0, actions);
    forall j, c | j != i && Live(s, j, c) ensures Live(Apply(s, a), j, c) {
      NotBoth(s, i, j, a);
      ClaimSurvives(s0, actions, a, j, c);
    }
    hide Inv; hide GiveUp; hide ReleaseTicket;
  }

  lemma NotBoth(s: System, i: BuildId, j: BuildId, a: Action)
    requires Inv(s) && i != j && OwnRelease(s, i, a)
    ensures !OwnRelease(s, j, a)
  {
    if a.Release? && OwnRelease(s, j, a) {
      assert IssuedTo(s, a.id, i) && IssuedTo(s, a.id, j);
    }
  }

  // ---------- receipts ----------

  lemma {:induction false} SettlePartitions(st: Store, claims: seq<Claim>, now: int, released: seq<Outpoint>, retained: seq<Outpoint>)
    ensures var (_, r, k) := SettleClaims(st, claims, now, released, retained);
            multiset(r) + multiset(k) == multiset(released) + multiset(retained) + multiset(KeysOf(claims))
    decreases |claims|
  {
    if claims != [] {
      var c := claims[0];
      assert KeysOf(claims) == [c.key] + KeysOf(claims[1..]);
      var (st', held) := DropClaimOwner(st, c, now);
      if !held && Stamped(st'.reservations, c) {
        SettlePartitions(st'.(reservations := st'.reservations - {c.key}), claims[1..], now, released + [c.key], retained);
      } else {
        SettlePartitions(st', claims[1..], now, released, retained + [c.key]);
      }
    }
  }

  /** A create build's receipt frees exactly the claims still stamped, in order. */
  lemma {:induction false} SettleFreesStamped(st: Store, claims: seq<Claim>, now: int, released: seq<Outpoint>, retained: seq<Outpoint>)
    requires Distinct(KeysOf(claims)) && forall c | c in claims :: c.owner == None
    ensures SettleClaims(st, claims, now, released, retained).1 == released + KeysOf(StillStamped(st.reservations, claims))
    decreases |claims|
  {
    if claims == [] {
      assert released + KeysOf([]) == released;
    } else {
      var c := claims[0];
      assert claims == [c] + claims[1..];
      assert KeysOf(claims[1..]) == KeysOf(claims)[1..];
      var m := st.reservations;
      var rest := StillStamped(m, claims[1..]);
      if Stamped(m, c) {
        forall p | 0 <= p < |claims[1..]| ensures claims[1..][p].key != c.key {
          assert KeysOf(claims)[p + 1] == claims[1..][p].key && KeysOf(claims)[0] == c.key;
        }
        StillStampedFrame(m, m - {c.key}, claims[1..]);
        SettleFreesStamped(st.(reservations := m - {c.key}), claims[1..], now, released + [c.key], retained);
        assert KeysOf([c] + rest) == [c.key] + KeysOf(rest);
        assert released + [c.key] + KeysOf(rest) == released + ([c.key] + KeysOf(rest));
      } else {
        assert StillStamped(m, claims) == rest;
        SettleFreesStamped(st, claims[1..], now, released, retained + [c.key]);
      }
    }
  }

  lemma {:induction false} StillStampedFrame(m: map<Outpoint, int>, m': map<Outpoint, int>, claims: seq<Claim>)
    requires forall c | c in claims :: Stamped(m, c) == Stamped(m', c)
    ensures StillStamped(m, claims) == StillStamped(m', claims)
  {
    if claims != [] {
      assert claims == [claims[0]] + claims[1..];
      StillStampedFrame(m, m', claims[1..]);
    }
  }

  lemma {:induction false} SettleKeepsTickets(st: Store, claims: seq<Claim>, now: int, released: seq<Outpoint>, retained: seq<Outpoint>)
    ensures var st' := SettleClaims(st, claims, now, released, retained).0; st'.tickets == st.tickets && st'.recent == st.recent
    decreases |claims|
  {
    if claims != [] {
      var c := claims[0];
      var (st', held) := DropClaimOwner(st, c, now);
      if !held && Stamped(st'.reservations, c) {
        SettleKeepsTickets(st'.(reservations := st'.reservations - {c.key}), claims[1..], now, released + [c.key], retained);
      } else {
        SettleKeepsTickets(st', claims[1..], now, released, retained + [c.key]);
      }
    }
  }

  /** A receipt works once: whenever it is presented again it is unknown, and only lapsed entries go. */
  lemma ReceiptWorksOnce(st: Store, id: TicketId, now: int, later: int)
    requires IsTicketId(id)
    ensures var st' := ReleaseTicket(st, id, now).0; ReleaseTicket(st', id, later) == (SweepAll(st', later), NotFound)
  {
    var swept := SweepAll(st, now);
    if id in swept.tickets {
      SettleKeepsTickets(swept.(tickets := swept.tickets - {id}), swept.tickets[id].claims, now, [], []);
    }
  }

  ghost predicate LiveReceiptOf(s: System, id: TicketId, i: BuildId) {
    id in s.store.tickets && s.store.tickets[id].expiry > s.clock && IssuedTo(s, id, i)
  }

  /**
   A create build's live receipt: the claims on it are sorted into released and retained
   by whether they lapsed, none of the build's claims is left in the map, and the
   duplicate-build record always goes too.
   */
  lemma CreateReceiptSettles(s0: System, actions: seq<Action>, id: TicketId, i: BuildId)
    requires Init(s0) && LiveReceiptOf(Run(s0, actions), id, i) && !Run(s0, actions).builds[i].cancel
    ensures var s := Run(s0, actions);
            var t := s.store.tickets[id];
            var (st', reply) := ReleaseTicket(s.store, id, s.clock);
            && reply.Settled?
            && multiset(reply.released) + multiset(reply.retained) == multiset(KeysOf(t.claims))
            && (forall c | c in t.claims :: c.key in reply.released <==> c.expiry > s.clock)
            && (forall c | c in s.builds[i].ledger :: !Stamped(st'.reservations, c))
            && s.builds[i].record.Some? && s.builds[i].record.value.txid !in st'.recent
  {
    var s := Run(s0, actions);
    RunInv(s0, actions);
    assert TicketIssued(s, id);
    SettlesFacts(s, id, i);
    hide Inv; hide Run; hide ReleaseTicket;
    CreateReply(s.store, id, s.clock);
    forall c | c in s.builds[i].ledger ensures !Stamped(ReleaseTicket(s.store, id, s.clock).0.reservations, c) {
      assert c.expiry > s.clock ==> c in s.store.tickets[id].claims;
    }
  }

  /** The same from what the store alone says. */
  lemma CreateReply(st: Store, id: TicketId, now: int)
    requires IsTicketId(id) && id in st.tickets && st.tickets[id].expiry > now
    requires Distinct(KeysOf(st.tickets[id].claims)) && forall c | c in st.tickets[id].claims :: c.owner == None
    requires forall c | c in st.tickets[id].claims :: c.expiry > now ==> Stamped(st.reservations, c)
    ensures var t := st.tickets[id];
            var (st', reply) := ReleaseTicket(st, id, now);
            && reply.Settled?
            && multiset(reply.released) + multiset(reply.retained) == multiset(KeysOf(t.claims))
            && (forall c | c in t.claims :: c.key in reply.released <==> c.expiry > now)
            && (forall c | c in t.claims || c.expiry <= now :: !Stamped(st'.reservations, c))
            && st'.recent == RetireRecord(SweepAll(st, now), t).recent
  {
    hide SettleClaims; hide StillStamped; hide OutpointStore.Release; hide SweepOwners; hide KeysOf;
    var t := st.tickets[id];
    var swept := SweepAll(st, now);
    var st1 := swept.(tickets := swept.tickets - {id});
    SettlePartitions(st1, t.claims, now, [], []);
    SettleFreesStamped(st1, t.claims, now, [], []);
    SettleCreate(st1, t.claims, now, [], []);
    ReleaseContents(swept.reservations, t.claims);
    var live := KeysOf(StillStamped(swept.reservations, t.claims));
    assert [] + live == live;
    assert ReleaseTicket(st, id, now).0.reservations == OutpointStore.Release(swept.reservations, t.claims);
    forall c | c in t.claims ensures c.key in live <==> c.expiry > now {
      KeyOnce(t.claims, swept.reservations, c);
    }
  }

  lemma SettlesFacts(s: System, id: TicketId, i: BuildId)
    requires Inv(s) && LiveReceiptOf(s, id, i) && !s.builds[i].cancel
    ensures var t := s.store.tickets[id];
            && Distinct(KeysOf(t.claims)) && (forall c | c in t.claims :: c.owner == None)
            && (forall c | c in s.builds[i].ledger :: c.expiry > s.clock ==> c in t.claims)
            && (forall c | c in t.claims :: c.expiry > s.clock ==> Stamped(s.store.reservations, c))
            && s.builds[i].record.Some? && t.txid == Some(s.builds[i].record.value.txid)
            && t.txid.value in s.store.recent && t.txidExpiry == Some(s.store.recent[t.txid.value])
            && s.store.recent[t.txid.value] > s.clock
  {
    var t := s.store.tickets[id];
    assert TicketFits(t, s.builds[i], s.clock);
    forall c | c in s.builds[i].ledger && c.expiry > s.clock ensures c in t.claims && Stamped(s.store.reservations, c) {
      assert Live(s, i, c);
      assert OnReceipt(s, Some(id), c) && OwnedInMaps(s, c);
    }
    var c :| c in t.claims && c.expiry == t.expiry;
    assert LiveRecord(s, i, s.builds[i].record.value);
  }

  lemma SameKeySameClaim(claims: seq<Claim>, c: Claim, d: Claim)
    requires Distinct(KeysOf(claims)) && c in claims && d in claims && c.key == d.key
    ensures c == d
  {
    var q :| 0 <= q < |claims| && claims[q] == c;
    var r :| 0 <= r < |claims| && claims[r] == d;
    assert KeysOf(claims)[q] == KeysOf(claims)[r];
  }

  /** With distinct keys, a key is among the stamped ones just when its own claim is. */
  lemma KeyOnce(claims: seq<Claim>, m: map<Outpoint, int>, c: Claim)
    requires Distinct(KeysOf(claims)) && c in claims
    ensures c.key in KeysOf(StillStamped(m, claims)) <==> Stamped(m, c)
  {
    StillStampedContents(m, claims);
    var live := StillStamped(m, claims);
    if Stamped(m, c) {
      var p :| 0 <= p < |live| && live[p] == c;
      assert KeysOf(live)[p] == c.key;
    }
    forall p | 0 <= p < |live| && live[p].key == c.key ensures live[p] == c {
      assert live[p] in claims;
      SameKeySameClaim(claims, live[p], c);
    }
  }

  /** Somebody other than `i` has a live claim on `k`. */
  ghost predicate OtherHolder(s: System, i: BuildId, k: Outpoint) {
    exists j, d :: j != i && LiveOn(s, k, j, d)
  }

  lemma OtherOwners(s: System, i: BuildId, c: Claim)
    requires ClaimsOwned(s) && OwnersUnique(s) && TokensHeld(s) && Live(s, i, c) && s.builds[i].ledger == [c] && c.owner.Some?
    ensures Highest(OwnersOf(s.store.cancels, c.key) - {c.owner.value}, s.clock).Some? <==> OtherHolder(s, i, c.key)
  {
    var rest := OwnersOf(s.store.cancels, c.key) - {c.owner.value};
    var top := Highest(rest, s.clock);
    assert OwnedInMaps(s, c) && Token(s, c.key, c.owner.value, c.expiry);
    TokenBounds(s, c.key);
    if top.Some? {
      var o :| o in rest && rest[o] == top.value;
      assert Token(s, c.key, o, top.value);
      var j :| Live(s, j, Claim(c.key, top.value, Some(o)));
      assert LiveOn(s, c.key, j, Claim(c.key, top.value, Some(o)));
    }
    if OtherHolder(s, i, c.key) {
      var j, d :| j != i && LiveOn(s, c.key, j, d);
      assert OwnedInMaps(s, d);
      assert Entry(s, i, c) && Entry(s, j, d);
      assert d.owner.value in rest;
    }
  }

  /**
   A cancel's live receipt gives its owner token up for good, and frees the commit output
   just when no other cancel holds it.
   */
  lemma CancelReceiptSettles(s0: System, actions: seq<Action>, id: TicketId, i: BuildId)
    requires Init(s0) && LiveReceiptOf(Run(s0, actions), id, i) && Run(s0, actions).builds[i].cancel
    ensures var s := Run(s0, actions);
            var (st', reply) := ReleaseTicket(s.store, id, s.clock);
            exists c :: s.builds[i].ledger == [c] && c.owner.Some?
              && !(c.key in st'.cancels && c.owner.value in st'.cancels[c.key])
              && reply == (if OtherHolder(s, i, c.key) then Settled([], [c.key]) else Settled([c.key], []))
              && (c.key in st'.reservations <==> OtherHolder(s, i, c.key))
  {
    hide Run; hide Inv;
    var s := Run(s0, actions);
    RunInv(s0, actions);
    var c := CancelTicket(s, id, i);
    hide SettleClaims; hide OtherHolder;
    var swept := SweepAll(s.store, s.clock);
    SweepTrims(s.store, s.clock);
    TrimKeeps(s, swept);
    SweptOthers(s, s.(store := swept), i, c);
    SettleCancelReply(s.(store := swept), swept.(tickets := swept.tickets - {id}), c, s.clock);
  }

  /** A cancel's live receipt names its one claim, which is live. */
  lemma CancelTicket(s: System, id: TicketId, i: BuildId) returns (c: Claim)
    requires Inv(s) && LiveReceiptOf(s, id, i) && s.builds[i].cancel
    ensures IsTicketId(id) && s.store.tickets[id].claims == [c] && s.store.tickets[id].txid == None
    ensures s.builds[i].ledger == [c] && Live(s, i, c) && c.owner.Some?
  {
    assert TicketIssued(s, id);
    TicketCovers(s, id, i);
    var t := s.store.tickets[id];
    c := t.claims[0];
    assert t.claims == [c] && c in t.claims;
    assert TicketFits(t, s.builds[i], s.clock);
  }

  lemma SweptOthers(s: System, u: System, i: BuildId, c: Claim)
    requires Inv(u) && u == s.(store := u.store) && Live(s, i, c) && s.builds[i].ledger == [c] && c.owner.Some?
    ensures Highest(OwnersOf(u.store.cancels, c.key) - {c.owner.value}, u.clock).Some? <==> OtherHolder(s, i, c.key)
    ensures Token(u, c.key, c.owner.value, c.expiry) && MaxRule(u)
  {
    assert Live(u, i, c) && OwnedInMaps(u, c);
    OtherOwners(u, i, c);
    hide Inv;
    assert forall j, d :: LiveOn(u, c.key, j, d) <==> LiveOn(s, c.key, j, d);
  }

  lemma SettleCancelReply(u: System, st: Store, c: Claim, now: int)
    requires u.clock == now && st.cancels == u.store.cancels && st.reservations == u.store.reservations
    requires c.owner.Some? && Token(u, c.key, c.owner.value, c.expiry) && MaxRule(u)
    ensures var alone := Highest(OwnersOf(st.cancels, c.key) - {c.owner.value}, now) == None;
            var (st', released, retained) := SettleClaims(st, [c], now, [], []);
            && !(c.key in st'.cancels && c.owner.value in st'.cancels[c.key])
            && (alone ==> released == [c.key] && retained == [] && c.key !in st'.reservations)
            && (!alone ==> released == [] && retained == [c.key] && c.key in st'.reservations)
  {
    TokenBounds(u, c.key);
    var owners := OwnersOf(st.cancels, c.key);
    var rest := owners - {c.owner.value};
    assert OwnersOf(st.cancels[c.key := rest], c.key) == rest;
    var top := MaxLive(st.cancels, c.key, now);
    assert top.Some?;
    var o :| o in owners && owners[o] == top.value;
    assert o in rest || o == c.owner.value;
    assert [c][1..] == [];
    var none: seq<Outpoint> := [];
    assert none + [c.key] == [c.key];
  }

  /** A cancel gets a receipt just when no other cancel of the same output outlasts it. */
  lemma CancelGetsReceiptIff(s0: System, actions: seq<Action>, i: BuildId, c: Claim, id: TicketId)
    requires Init(s0)
    requires var s := Run(s0, actions); MayMint(s, i) && TicketUnused(s, id) && s.builds[i].cancel && Live(s, i, c)
    ensures var s := Run(s0, actions);
            At(Apply(s, MintReceipt(i, id)), i, Returned(Some(id))) <==> forall j, d | LiveOn(s, c.key, j, d) :: d.expiry <= c.expiry
  {
    hide Inv; hide Run;
    var s := Run(s0, actions);
    RunInv(s0, actions);
    BuildFacts(s, i);
    assert s.builds[i].ledger == [c];
    hide Shape; hide LedgerOk;
    ReservedIffHeld(s0, actions, c.key);
    assert LiveOn(s, c.key, i, c);
    TopStamped(s, i, c);
    MintedCancel(s, i, c, id);
  }

  lemma TopStamped(s: System, i: BuildId, c: Claim)
    requires LiveOn(s, c.key, i, c) && c.key in s.store.reservations && HighestOn(s, c.key, s.store.reservations[c.key])
    ensures Stamped(s.store.reservations, c) <==> forall j, d | LiveOn(s, c.key, j, d) :: d.expiry <= c.expiry
  {
    var j, d :| LiveOn(s, c.key, j, d) && d.expiry == s.store.reservations[c.key];
  }

  lemma MintedCancel(s: System, i: BuildId, c: Claim, id: TicketId)
    requires MayMint(s, i) && TicketUnused(s, id) && s.builds[i].ledger == [c]
    ensures At(Apply(s, MintReceipt(i, id)), i, Returned(Some(id))) <==> Stamped(s.store.reservations, c)
  {
    assert [c][1..] == [];
    assert StillStamped(s.store.reservations, [c][1..]) == [];
  }

  const COMMIT := Outpoint("c", 0)
  const SOME_TICKET: TicketId := "00000000000000000000000000000001"

  ghost function TwoCancels(): seq<Action> {
    [StartCancel(0, COMMIT, "x"), Tick(1), StartCancel(1, COMMIT, "y")]
  }

  lemma FirstCancelTakes(s0: System, i: BuildId, o: OwnerId, clock: int)
    requires s0.clock == clock && s0.store.reservations == map[] && s0.store.cancels == map[] && s0.builds == map[] && clock >= 0
    ensures var s := Apply(s0, StartCancel(i, COMMIT, o));
            var c := Claim(COMMIT, clock + RESERVATION_TTL_MS, Some(o));
            && s.clock == clock && s.store.reservations == map[COMMIT := c.expiry] && s.store.cancels == map[COMMIT := map[o := c.expiry]]
            && s.builds == map[i := Build(true, [], false, false, None, None, KeysOf([c]), [c], None, Selected)]
            && s.store.tickets == s0.store.tickets
  {
  }

  lemma SecondCancelTakes(s: System, i: BuildId, o: OwnerId)
    requires i !in s.builds && OwnerUnused(s, o) && s.clock >= 0
    requires CancelMayClaim(SweptForCancel(s), COMMIT, s.clock)
    ensures Live(Apply(s, StartCancel(i, COMMIT, o)), i, Claim(COMMIT, s.clock + RESERVATION_TTL_MS, Some(o)))
    ensures var s' := Apply(s, StartCancel(i, COMMIT, o));
            && s'.clock == s.clock && s'.store.tickets == s.store.tickets
            && s'.builds.Keys == s.builds.Keys + {i} && s'.builds[i].phase == Selected
            && forall j | j in s.builds :: s'.builds[j] == s.builds[j]
  {
    var c := Claim(COMMIT, s.clock + RESERVATION_TTL_MS, Some(o));
    assert [c][0] == c;
  }

  /** The first cancel holds the output, a millisecond on. */
  ghost function OneCancel(tickets: map<TicketId, Ticket>, recent: map<Txid, int>): System {
    var c := Claim(COMMIT, RESERVATION_TTL_MS, Some("x"));
    System(1, Store(map[COMMIT := c.expiry], recent, map[COMMIT := map["x" := c.expiry]], tickets),
           map[0 := Build(true, [], false, false, None, None, KeysOf([c]), [c], None, Selected)])
  }

  lemma OneCancelRun(s0: System)
    requires Init(s0) && s0.clock == 0
    ensures Apply(Apply(s0, StartCancel(0, COMMIT, "x")), Tick(1)) == OneCancel(map[], map[])
  {
    FirstCancelTakes(s0, 0, "x", 0);
    var s1 := Apply(s0, StartCancel(0, COMMIT, "x"));
    assert s1.store.recent == map[];
  }

  lemma OneCancelAdmits()
    ensures var s := OneCancel(map[], map[]);
            OwnerUnused(s, "y")
            && CancelMayClaim(SweptForCancel(s), COMMIT, s.clock)
  {
    var s := OneCancel(map[], map[]);
    assert "x"[0] != "y"[0];
    assert Sweep(s.store.reservations, 1) == s.store.reservations;
    var owners := s.store.cancels[COMMIT];
    assert "x" in owners && Sweep(owners, 1) == owners;
    assert SweepOwners(s.store.cancels, 1) == s.store.cancels;
    assert OwnersOf(s.store.cancels, COMMIT) == owners;
  }

  lemma RunThree(s: System, a: seq<Action>)
    requires |a| == 3
    ensures Run(s, a) == Apply(Apply(Apply(s, a[0]), a[1]), a[2])
  {
    assert a[..2][..1] == a[..1] && a[..1][..0] == [];
    assert Run(s, a[..1]) == Apply(s, a[0]);
    assert Run(s, a[..2]) == Apply(Run(s, a[..1]), a[1]);
  }

  /** A cancel retried a millisecond later: the first call then returns without a receipt, though its token is live. */
  lemma EarlierCancelGetsNoReceipt(s0: System)
    requires Init(s0) && s0.clock == 0
    ensures var s := Run(s0, TwoCancels());
            Live(s, 0, Claim(COMMIT, RESERVATION_TTL_MS, Some("x"))) && At(Apply(s, MintReceipt(0, SOME_TICKET)), 0, Returned(None))
  {
    var a := TwoCancels();
    var c := Claim(COMMIT, RESERVATION_TTL_MS, Some("x"));
    var s2 := OneCancel(map[], map[]);
    RunThree(s0, a);
    OneCancelRun(s0);
    OneCancelAdmits();
    assert s2.builds[0].ledger[0] == c;
    assert Live(s2, 0, c);
    hide Apply; hide Run; hide CancelMayClaim; hide OwnerUnused;
    SecondCancelTakes(s2, 1, "y");
    NoReceipt(s0, a, Run(s0, a), c);
  }

  lemma NoReceipt(s0: System, a: seq<Action>, s: System, c: Claim)
    requires Init(s0) && s == Run(s0, a) && s.builds.Keys == {0, 1} && s.store.tickets == map[]
    requires Live(s, 0, c) && s.builds[0].cancel && s.builds[0].phase == Selected && s.builds[1].phase == Selected
    requires s.builds[0].ledger == [c]
    requires Live(s, 1, Claim(c.key, c.expiry + 1, Some("y")))
    ensures At(Apply(s, MintReceipt(0, SOME_TICKET)), 0, Returned(None))
  {
    hide Run;
    assert TicketUnused(s, SOME_TICKET);
    CancelGetsReceiptIff(s0, a, 0, c, SOME_TICKET);
    assert LiveOn(s, c.key, 1, Claim(c.key, c.expiry + 1, Some("y")));
  }

  // ---------- the key binds to input 0 ----------

  predicate PastSelection(p: Phase) {
    p == Selected || p == Finished || p.Returned?
  }

  /** A call that got through selection spends exactly what it claimed, its key-bound outpoint first. */
  lemma LedgerIsInputs(s0: System, actions: seq<Action>, i: BuildId)
    requires Init(s0)
    requires var s := Run(s0, actions); i in s.builds && PastSelection(s.builds[i].phase)
    ensures var b := Run(s0, actions).builds[i];
            && KeysOf(b.ledger) == b.spent && Distinct(b.spent)
            && (b.first.Some? ==> b.spent != [] && b.spent[0] == b.first.value)
  {
    RunInv(s0, actions);
    BuildFacts(Run(s0, actions), i);
  }

  /**
   Whatever raced with it, a create call that got through selection spends something, and where
   its payload is obfuscated the key is the txid of its input 0, which is how a reader finds it.
   */
  lemma KeyIsInputZero(s0: System, actions: seq<Action>, i: BuildId)
    requires Init(s0)
    requires var s := Run(s0, actions); i in s.builds && PastSelection(s.builds[i].phase) && !s.builds[i].cancel
    ensures var b := Run(s0, actions).builds[i]; b.spent != [] && (b.keyBinds ==> b.keyTxid == Some(b.spent[0].txid))
  {
    RunInv(s0, actions);
    BuildFacts(Run(s0, actions), i);
  }

  /** Selection ends in a refusal exactly when nothing was selected or a binding key is not input 0's txid. */
  lemma StopRefusesIff(s0: System, actions: seq<Action>, i: BuildId)
    requires Init(s0)
    requires var s := Run(s0, actions); i in s.builds && MayStop(s.builds[i])
    ensures var s := Run(s0, actions);
            var b := s.builds[i];
            && (At(Apply(s, StopSelection(i)), i, Throwing) <==>
                  b.spent == [] || (b.keyBinds && b.keyTxid != Some(b.spent[0].txid)))
            && (At(Apply(s, StopSelection(i)), i, Throwing) || At(Apply(s, StopSelection(i)), i, Selected))
  {
    var s := Run(s0, actions);
    RunInv(s0, actions);
    BuildFacts(s, i);
    hide Inv;
    var b := s.builds[i];
    if b.spent != [] { assert b.spent[0] in b.spent; }
  }

  predicate PastBind(p: Phase) {
    p == Bound || p.Selecting? || PastSelection(p)
  }

  /** Build `i` looked for a free outpoint to bind to and found all of its candidates held. */
  ghost predicate AllHeldAtBind(s0: System, actions: seq<Action>, n: nat, i: BuildId) {
    n < |actions| && actions[n] == Bind(i) && At(Run(s0, actions[..n]), i, Gathering)
    && var s := Run(s0, actions[..n]); forall k | k in s.builds[i].utxos :: IsReserved(s.store.reservations, k, s.clock)
  }

  predicate Unbound(s: System, i: BuildId) {
    i in s.builds && var b := s.builds[i];
    PastBind(b.phase) && !b.cancel && !b.exact && b.first == None && b.utxos != []
  }

  /** A build has no key-bound outpoint only when, as it bound, every candidate was held by somebody. */
  lemma {:induction false} UnboundOnlyIfAllHeld(s0: System, actions: seq<Action>, i: BuildId)
    requires Init(s0) && Unbound(Run(s0, actions), i)
    ensures exists n :: AllHeldAtBind(s0, actions, n, i)
  {
    var n := |actions| - 1;
    if actions == [] { assert false; }
    var s := Run(s0, actions[..n]);
    if actions[n] == Bind(i) && At(s, i, Gathering) {
      BindUnbound(s, i);
      assert AllHeldAtBind(s0, actions, n, i);
    } else {
      UnboundBefore(s, actions[n], i);
      UnboundOnlyIfAllHeld(s0, actions[..n], i);
      var m: nat :| AllHeldAtBind(s0, actions[..n], m, i);
      assert actions[..n][..m] == actions[..m];
      assert AllHeldAtBind(s0, actions, m, i);
    }
  }

  lemma BindUnbound(s: System, i: BuildId)
    requires At(s, i, Gathering) && Unbound(BindKey(s, i), i)
    ensures forall k | k in s.builds[i].utxos :: IsReserved(s.store.reservations, k, s.clock)
  {
    var m := Sweep(s.store.reservations, s.clock);
    var f := FirstFree(m, s.builds[i].utxos, s.clock);
    forall k | k in s.builds[i].utxos ensures IsReserved(m, k, s.clock) {
      var p :| 0 <= p < |s.builds[i].utxos| && s.builds[i].utxos[p] == k;
    }
  }

  lemma UnboundBefore(s: System, a: Action, i: BuildId)
    requires Unbound(Apply(s, a), i) && !(a == Bind(i) && At(s, i, Gathering))
    ensures Unbound(s, i)
  {
    hide Mint; hide ClaimCommit; hide ReleaseTicket; hide RegisterBuild; hide Reserve; hide GiveUp; hide Sweep; hide MoveToFront;
  }

  /** So a race refusal means that every candidate was held when the key was bound. */
  lemma RaceOnlyIfAllHeld(s0: System, actions: seq<Action>, i: BuildId)
    requires Init(s0)
    requires var s := Run(s0, actions); i in s.builds && MayStop(s.builds[i]) && RaceRefused(s.builds[i])
    ensures exists n :: AllHeldAtBind(s0, actions, n, i)
  {
    var s := Run(s0, actions);
    RunInv(s0, actions);
    BuildFacts(s, i);
    assert s.builds[i].spent[0] in s.builds[i].spent;
    UnboundOnlyIfAllHeld(s0, actions, i);
  }
}
