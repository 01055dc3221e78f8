/**
 Where the guarantee of `ReservationTheorems` stops: the exact moment from which a returned
 build's input can be spent by another call as well, and a run that gets there.
 */
module ReservationLimits {
  import opened Common
  import opened OutpointStore
  import opened ReservationProtocol
  import opened ReservationInvariant
  import opened ReservationSteps
  import opened ReservationRuns
  import opened ReservationTheorems
  import opened LoneCall
  import ReservationContracts

  ghost predicate LiveReceipt(s: System, i: BuildId) {
    i in s.builds && s.builds[i].phase.Returned? && s.builds[i].phase.ticket.Some?
    && s.builds[i].phase.ticket.value in s.store.tickets && s.store.tickets[s.builds[i].phase.ticket.value].expiry > s.clock
  }

  ghost predicate SharedByLiveReceipts(s: System, i: BuildId, j: BuildId, k: Outpoint) {
    i != j && LiveReceipt(s, i) && LiveReceipt(s, j) && k in s.builds[i].spent && k in s.builds[j].spent
  }

  predicate TickFree(actions: seq<Action>) {
    forall n | 0 <= n < |actions| :: !actions[n].Tick?
  }

  /** In no time, a call that starts now comes to spend `k` beside build `i`, both with live receipts. */
  ghost predicate Shares(s: System, i: BuildId, k: Outpoint, j: BuildId, cont: seq<Action>) {
    j !in s.builds && TickFree(cont) && SharedByLiveReceipts(Run(s, cont), i, j, k)
  }

  ghost predicate CanBeShared(s: System, i: BuildId, k: Outpoint) {
    exists j, cont :: Shares(s, i, k, j, cont)
  }

  // ---------- while the claim is live, nobody new gets the input ----------

  /** What the builds started since `known` have claimed, they claimed now. */
  ghost predicate Young(known: set<BuildId>, s: System) {
    forall j | j in s.builds && j !in known ::
      && (forall c | c in s.builds[j].ledger :: c.expiry == s.clock + RESERVATION_TTL_MS)
      && (s.builds[j].phase.Selecting? ==> s.builds[j].phase.now == s.clock)
  }

  lemma YoungBind(known: set<BuildId>, s: System, i: BuildId)
    requires Young(known, s) && i in s.builds
    ensures Young(known, BindKey(s, i)) && BindKey(s, i).clock == s.clock
  {
    hide Reserve; hide Sweep; hide MoveToFront; hide FirstFree; hide IsReserved;
  }

  lemma YoungSelect(known: set<BuildId>, s: System, i: BuildId)
    requires Young(known, s) && i in s.builds && s.builds[i].phase.Selecting? && s.builds[i].phase.next < |s.builds[i].utxos|
    ensures Young(known, SelectCandidate(s, i)) && SelectCandidate(s, i).clock == s.clock
  {
    hide Reserve; hide AfterLookup; hide IsReserved;
  }

  lemma YoungKeeps(known: set<BuildId>, s: System, a: Action)
    requires Young(known, s) && !a.Tick?
    ensures Young(known, Apply(s, a)) && Apply(s, a).clock == s.clock
  {
    hide Mint; hide ReleaseTicket; hide RegisterBuild; hide GiveUp; hide Sweep; hide BindKey; hide SelectCandidate;
    match a {
      case Bind(i) => if At(s, i, Gathering) { YoungBind(known, s, i); }
      case SelectNext(i) =>
        if i in s.builds && s.builds[i].phase.Selecting? && s.builds[i].phase.next < |s.builds[i].utxos| { YoungSelect(known, s, i); }
      case _ =>
    }
  }

  /** A returned build keeps its claims, whatever anybody does. */
  ghost predicate KeepsClaims(b: Build, s: System, i: BuildId) {
    i in s.builds && s.builds[i] == b.(phase := s.builds[i].phase) && (s.builds[i].phase.Returned? || s.builds[i].phase.HandedBack?)
  }

  lemma ReturnedKeeps(b: Build, s: System, i: BuildId, a: Action)
    requires KeepsClaims(b, s, i)
    ensures KeepsClaims(b, Apply(s, a), i)
  {
    hide Mint; hide ReleaseTicket; hide RegisterBuild; hide Reserve; hide GiveUp; hide Sweep; hide BindBuild; hide ClaimCommit;
  }

  lemma {:induction false} TickFreeRun(s: System, i: BuildId, cont: seq<Action>)
    requires TickFree(cont) && i in s.builds && s.builds[i].phase.Returned?
    ensures var t := Run(s, cont);
            t.clock == s.clock && Young(s.builds.Keys, t) && KeepsClaims(s.builds[i], t, i)
  {
    if cont != [] {
      var n := |cont| - 1;
      TickFreeRun(s, i, cont[..n]);
      hide Apply; hide Young; hide KeepsClaims;
      YoungKeeps(s.builds.Keys, Run(s, cont[..n]), cont[n]);
      ReturnedKeeps(s.builds[i], Run(s, cont[..n]), i, cont[n]);
    }
  }

  lemma InvBuilds(s: System)
    requires Inv(s)
    ensures BuildsOk(s)
  {
  }

  lemma LiveClaimIsNotShared(s0: System, actions: seq<Action>, i: BuildId, c: Claim, j: BuildId, cont: seq<Action>)
    requires Init(s0)
    requires var s := Run(s0, actions);
             LiveReceipt(s, i) && !s.builds[i].cancel && c in s.builds[i].ledger && Shares(s, i, c.key, j, cont)
    ensures c.expiry <= Run(s0, actions).clock
  {
    hide Inv; hide Run;
    var s := Run(s0, actions);
    RunAppend(s0, actions, cont);
    var t := Run(s, cont);
    TickFreeRun(s, i, cont);
    RunInv(s0, actions + cont);
    InvBuilds(t);
    var d := SpentClaim(t, j, c.key);
    if c.expiry > s.clock {
      assert Live(t, i, c) && Live(t, j, d);
      BuildFacts(t, i);
      NoDoubleClaim(s0, actions + cont, i, j, c, d);
    }
  }

  // ---------- once it has lapsed, somebody can ----------

  /** Somebody stepped back: nobody took anything, and `i` keeps its receipt. */
  ghost predicate StepsBack(s: System, s': System, i: BuildId) {
    && Inv(s') && s'.clock == s.clock && s'.builds.Keys == s.builds.Keys
    && (forall j, c | Live(s', j, c) :: Live(s, j, c))
    && i in s.builds && s'.builds[i] == s.builds[i] && LiveReceipt(s', i)
  }

  ghost predicate SameTicket(st: Store, st': Store, id: TicketId) {
    id in st.tickets ==> id in st'.tickets && st'.tickets[id] == st.tickets[id]
  }

  lemma OneStepsBack(s: System, s': System, m: BuildId, b: Build, i: BuildId)
    requires Inv(s') && s'.clock == s.clock && m in s.builds && s'.builds == s.builds[m := b]
    requires b.ledger == s.builds[m].ledger && Holding(s.builds[m].phase)
    requires m != i && LiveReceipt(s, i) && SameTicket(s.store, s'.store, s.builds[i].phase.ticket.value)
    ensures StepsBack(s, s', i)
  {
    hide Inv;
  }

  lemma ThrowStepsBack(s: System, m: BuildId, i: BuildId)
    requires Inv(s) && LiveReceipt(s, i) && m != i && MayThrow(s, m)
    ensures StepsBack(s, Apply(s, Throw(m)), i) && At(Apply(s, Throw(m)), m, Throwing)
  {
    hide Inv;
    StepKeeps(s, Throw(m));
    OneStepsBack(s, Apply(s, Throw(m)), m, s.builds[m].(phase := Throwing), i);
  }

  lemma HandBackTickets(s: System, m: BuildId)
    requires Inv(s) && At(s, m, Throwing)
    ensures Apply(s, HandBack(m)).store.tickets == s.store.tickets
    ensures Apply(s, HandBack(m)).builds == s.builds[m := s.builds[m].(phase := Failed)]
  {
    BuildFacts(s, m);
    hide Inv; hide Shape; hide Distinct; hide GiveUp;
    GiveUpStore(s.store, s.builds[m], s.clock, s.builds[m].ledger);
  }

  lemma HandBackStepsBack(s: System, m: BuildId, i: BuildId)
    requires Inv(s) && LiveReceipt(s, i) && m != i && At(s, m, Throwing)
    ensures StepsBack(s, Apply(s, HandBack(m)), i) && At(Apply(s, HandBack(m)), m, Failed)
  {
    hide Inv; hide StepsBack;
    StepKeeps(s, HandBack(m));
    HandBackTickets(s, m);
    assert Apply(s, HandBack(m)).clock == s.clock;
    hide Apply;
    OneStepsBack(s, Apply(s, HandBack(m)), m, s.builds[m].(phase := Failed), i);
  }

  lemma MintStepsBack(s: System, m: BuildId, i: BuildId, id: TicketId)
    requires Inv(s) && LiveReceipt(s, i) && m != i && MayMint(s, m) && TicketUnused(s, id)
    ensures var s' := Apply(s, MintReceipt(m, id));
            StepsBack(s, s', i) && m in s'.builds && s'.builds[m] == s.builds[m].(phase := s'.builds[m].phase)
            && (At(s', m, Returned(None)) || At(s', m, Returned(Some(id))))
  {
    hide Inv; hide StepsBack; hide StillStamped; hide LastExpiry;
    StepKeeps(s, MintReceipt(m, id));
    var s' := Apply(s, MintReceipt(m, id));
    OneStepsBack(s, s', m, s'.builds[m], i);
  }

  /** Releasing a live receipt takes that ticket, marks its build and leaves the unlapsed tickets. */
  lemma ReleaseTickets(s: System, m: BuildId, id: TicketId)
    requires Inv(s) && LiveReceipt(s, m) && s.builds[m].phase.ticket == Some(id)
    ensures var s' := Apply(s, ReservationProtocol.Release(id));
            && s'.clock == s.clock && s'.builds == s.builds[m := s.builds[m].(phase := HandedBack)]
            && s'.store.tickets == SweepTickets(s.store.tickets, s.clock) - {id}
  {
    assert IssuedTo(s, id, m) && TicketIssued(s, id);
    var n := ReleaseFound(s, id);
    assert IssuedTo(s, id, n);
    assert n == m by { InvTickets(s); }
    hide Inv;
    var t := s.(store := SweepAll(s.store, s.clock));
    TicketCovers(t, id, m);
    SettledStore(t, id, m);
    hide GiveUp; hide RetireRecord;
  }

  lemma InvTickets(s: System)
    requires Inv(s)
    ensures TicketsUnique(s) && TicketsIssued(s)
  {
  }

  lemma OwnReceipts(s: System, m: BuildId, i: BuildId)
    requires TicketsUnique(s) && LiveReceipt(s, i) && LiveReceipt(s, m) && m != i
    ensures s.builds[m].phase.ticket != s.builds[i].phase.ticket
  {
    assert IssuedTo(s, s.builds[m].phase.ticket.value, m) && IssuedTo(s, s.builds[i].phase.ticket.value, i);
  }

  lemma ReleaseStepsBack(s: System, m: BuildId, i: BuildId, id: TicketId)
    requires Inv(s) && LiveReceipt(s, i) && m != i && LiveReceipt(s, m) && s.builds[m].phase.ticket == Some(id)
    ensures var s' := Apply(s, ReservationProtocol.Release(id));
            StepsBack(s, s', i) && At(s', m, HandedBack) && id !in s'.store.tickets
  {
    hide Inv; hide StepsBack; hide Apply; hide TicketsUnique; hide TicketsIssued;
    InvTickets(s);
    OwnReceipts(s, m, i);
    StepKeeps(s, ReservationProtocol.Release(id));
    ReleaseTickets(s, m, id);
    OneStepsBack(s, Apply(s, ReservationProtocol.Release(id)), m, s.builds[m].(phase := HandedBack), i);
  }

  // The holder of an input is one create build at most; when it steps back the input is free.

  lemma FreeWhenGone(s: System, s': System, m: BuildId, d: Claim)
    requires Inv(s) && Live(s, m, d) && d.owner == None
    requires NoStray(s') && s'.clock == s.clock && (forall j, c | Live(s', j, c) :: Live(s, j, c))
    requires m in s'.builds && !Holding(s'.builds[m].phase)
    ensures !IsReserved(s'.store.reservations, d.key, s'.clock)
  {
    if IsReserved(s'.store.reservations, d.key, s'.clock) {
      assert HeldAt(s', d.key, s'.store.reservations[d.key]);
      var j, c :| Live(s', j, c) && c.key == d.key && c.expiry == s'.store.reservations[d.key];
      OneCreateHolder(s, m, d, j, c);
    }
  }

  lemma OneCreateHolder(s: System, m: BuildId, d: Claim, j: BuildId, c: Claim)
    requires Inv(s) && Live(s, m, d) && d.owner == None && Live(s, j, c) && c.key == d.key
    ensures j == m
  {
    assert OwnedInMaps(s, c) && OwnedInMaps(s, d);
    TokenBounds(s, d.key);
  }

  /** Nobody holds `k` any more, and `i` keeps its receipt. */
  ghost predicate Vacated(s: System, s': System, i: BuildId, k: Outpoint, id: TicketId) {
    StepsBack(s, s', i) && !IsReserved(s'.store.reservations, k, s'.clock) && TicketUnused(s', id)
  }

  lemma GoneVacates(s: System, s': System, m: BuildId, d: Claim, i: BuildId, id: TicketId)
    requires Inv(s) && Live(s, m, d) && d.owner == None && StepsBack(s, s', i)
    requires (At(s', m, Failed) || At(s', m, HandedBack)) && TicketUnused(s', id)
    ensures Vacated(s, s', i, d.key, id)
  {
    assert NoStray(s');
    hide Inv; hide NoStray; hide TicketUnused;
    FreeWhenGone(s, s', m, d);
  }

  lemma UnusedAfter(s: System, s': System, m: BuildId, p: Phase, id: TicketId)
    requires TicketUnused(s, id) && m in s.builds && s'.builds == s.builds[m := s.builds[m].(phase := p)] && !p.Returned?
    requires id !in s'.store.tickets
    ensures TicketUnused(s', id)
  {
  }

  lemma StepsBackTwice(s: System, s1: System, s2: System, i: BuildId)
    requires StepsBack(s, s1, i) && StepsBack(s1, s2, i)
    ensures StepsBack(s, s2, i)
  {
    hide Inv; hide LiveReceipt; hide Live;
  }

  /** The holder threw: it hands its claims back. */
  lemma ThrowingVacates(s: System, m: BuildId, d: Claim, i: BuildId, id: TicketId)
    requires Inv(s) && LiveReceipt(s, i) && m != i && Live(s, m, d) && d.owner == None && TicketUnused(s, id)
    requires At(s, m, Throwing)
    ensures Vacated(s, Apply(s, HandBack(m)), i, d.key, id)
  {
    hide Inv; hide StepsBack; hide Vacated; hide TicketUnused; hide Live;
    HandBackStepsBack(s, m, i);
    HandBackTickets(s, m);
    assert id !in s.store.tickets by { UnusedIsNew(s, id); }
    hide Apply;
    UnusedAfter(s, Apply(s, HandBack(m)), m, Failed, id);
    GoneVacates(s, Apply(s, HandBack(m)), m, d, i, id);
  }

  lemma UnusedIsNew(s: System, id: TicketId)
    requires TicketUnused(s, id)
    ensures id !in s.store.tickets && forall m | m in s.builds :: s.builds[m].phase != Returned(Some(id))
  {
  }

  lemma VacatedLater(s: System, s1: System, s2: System, i: BuildId, k: Outpoint, id: TicketId)
    requires StepsBack(s, s1, i) && Vacated(s1, s2, i, k, id)
    ensures Vacated(s, s2, i, k, id)
  {
    hide StepsBack; hide TicketUnused;
    StepsBackTwice(s, s1, s2, i);
  }

  lemma ThrownHolds(s: System, m: BuildId, d: Claim, id: TicketId)
    requires Live(s, m, d) && MayThrow(s, m) && TicketUnused(s, id)
    ensures Live(Apply(s, Throw(m)), m, d) && TicketUnused(Apply(s, Throw(m)), id)
  {
  }

  /** The holder is still selecting: it may throw. */
  lemma SelectingVacates(s: System, m: BuildId, d: Claim, i: BuildId, id: TicketId)
    requires Inv(s) && LiveReceipt(s, i) && m != i && Live(s, m, d) && d.owner == None && TicketUnused(s, id)
    requires MayThrow(s, m)
    ensures Vacated(s, Apply(Apply(s, Throw(m)), HandBack(m)), i, d.key, id)
  {
    hide Inv; hide StepsBack; hide Vacated; hide TicketUnused; hide Live; hide Apply;
    var s1 := Apply(s, Throw(m));
    ThrownHolds(s, m, d, id);
    ThrowStepsBack(s, m, i);
    StepsBackFacts(s, s1, i);
    ThrowingVacates(s1, m, d, i, id);
    VacatedLater(s, s1, Apply(s1, HandBack(m)), i, d.key, id);
  }

  /** A live claim of a create build is on its receipt, which lasts as long. */
  lemma MintedLive(s: System, m: BuildId, d: Claim, id: TicketId)
    requires ClaimsOwned(s) && Live(s, m, d) && d.owner == None && MayMint(s, m) && TicketUnused(s, id)
    ensures var s1 := Apply(s, MintReceipt(m, id));
            && LiveReceipt(s1, m) && s1.builds[m].phase.ticket == Some(id) && Live(s1, m, d)
            && forall n | n in s1.builds && n != m :: s1.builds[n].phase != Returned(Some(id))
  {
    assert OwnedInMaps(s, d);
    hide ClaimsOwned;
    StillStampedContents(s.store.reservations, s.builds[m].ledger);
    hide StillStamped;
  }

  /** The holder is past the duplicate-build gate: it returns, and its receipt is released. */
  lemma FinishedVacates(s: System, m: BuildId, d: Claim, i: BuildId, id: TicketId)
    requires Inv(s) && LiveReceipt(s, i) && m != i && Live(s, m, d) && d.owner == None && TicketUnused(s, id)
    requires MayMint(s, m)
    ensures Vacated(s, Apply(Apply(s, MintReceipt(m, id)), ReservationProtocol.Release(id)), i, d.key, id)
  {
    assert ClaimsOwned(s);
    assert IsTicketId(id);
    hide Inv; hide StepsBack; hide Vacated; hide TicketUnused; hide Live; hide Apply; hide ClaimsOwned;
    var s1 := Apply(s, MintReceipt(m, id));
    MintStepsBack(s, m, i, id);
    StepsBackFacts(s, s1, i);
    MintedLive(s, m, d, id);
    ReturnedVacates(s1, m, d, i, id, id);
    VacatedLater(s, s1, Apply(s1, ReservationProtocol.Release(id)), i, d.key, id);
  }

  lemma StepsBackFacts(s: System, s': System, i: BuildId)
    requires StepsBack(s, s', i)
    ensures Inv(s') && LiveReceipt(s', i) && s'.clock == s.clock
  {
    hide Inv;
  }

  /** The holder returned: its receipt is released. */
  lemma ReturnedVacates(s: System, m: BuildId, d: Claim, i: BuildId, own: TicketId, id: TicketId)
    requires Inv(s) && LiveReceipt(s, i) && m != i && Live(s, m, d) && d.owner == None
    requires LiveReceipt(s, m) && s.builds[m].phase.ticket == Some(own)
    requires TicketUnused(s, id) || (id == own && IsTicketId(id) && forall n | n in s.builds && n != m :: s.builds[n].phase != Returned(Some(id)))
    ensures Vacated(s, Apply(s, ReservationProtocol.Release(own)), i, d.key, id)
  {
    hide Inv; hide StepsBack; hide Vacated; hide Live;
    ReleaseStepsBack(s, m, i, own);
    ReleaseTickets(s, m, own);
    hide Apply;
    GoneVacates(s, Apply(s, ReservationProtocol.Release(own)), m, d, i, id);
  }

  /** A returned create build with a live claim has a live receipt. */
  lemma HolderReceipt(s: System, m: BuildId, d: Claim)
    requires Inv(s) && Live(s, m, d) && d.owner == None && s.builds[m].phase.Returned?
    ensures LiveReceipt(s, m)
  {
    var id := s.builds[m].phase.ticket;
    assert OnReceipt(s, id, d) && IssuedTo(s, id.value, m);
    assert TicketFits(s.store.tickets[id.value], s.builds[m], s.clock);
  }

  ghost predicate Vacates(s: System, cont: seq<Action>, i: BuildId, k: Outpoint, id: TicketId) {
    TickFree(cont) && Vacated(s, Run(s, cont), i, k, id)
  }

  lemma VacatesByOne(s: System, a: Action, i: BuildId, k: Outpoint, id: TicketId)
    requires !a.Tick? && Vacated(s, Apply(s, a), i, k, id)
    ensures Vacates(s, [a], i, k, id)
  {
    hide Apply; hide Vacated;
    assert [a][..0] == [] && Run(s, [a]) == Apply(s, a);
  }

  lemma RunTwo(s: System, a: Action, b: Action)
    ensures Run(s, [a, b]) == Apply(Apply(s, a), b)
  {
    hide Apply;
    assert [a][..0] == [] && [a, b][..1] == [a];
    assert Run(s, [a]) == Apply(s, a);
  }

  lemma VacatesByTwo(s: System, a: Action, b: Action, i: BuildId, k: Outpoint, id: TicketId)
    requires !a.Tick? && !b.Tick? && Vacated(s, Apply(Apply(s, a), b), i, k, id)
    ensures Vacates(s, [a, b], i, k, id)
  {
    hide Apply; hide Vacated; hide Run;
    RunTwo(s, a, b);
  }

  /** The stages a create build with a live claim can be at. */
  lemma HolderStages(s: System, m: BuildId, d: Claim)
    requires Inv(s) && Live(s, m, d) && d.owner == None
    ensures At(s, m, Throwing) || MayThrow(s, m) || MayMint(s, m) || LiveReceipt(s, m)
  {
    BuildFacts(s, m);
    if s.builds[m].phase.Returned? { HolderReceipt(s, m, d); }
    hide Inv;
  }

  /** Whatever stage the one holder has reached, it can leave now. */
  lemma HolderVacates(s: System, m: BuildId, d: Claim, i: BuildId, id: TicketId) returns (cont: seq<Action>)
    requires Inv(s) && LiveReceipt(s, i) && m != i && Live(s, m, d) && d.owner == None && TicketUnused(s, id)
    ensures Vacates(s, cont, i, d.key, id)
  {
    HolderStages(s, m, d);
    hide Inv; hide Vacated; hide Vacates; hide TicketUnused; hide Live; hide Apply; hide MayThrow; hide MayMint;
    if At(s, m, Throwing) {
      ThrowingVacates(s, m, d, i, id);
      cont := [HandBack(m)];
      VacatesByOne(s, HandBack(m), i, d.key, id);
    } else if MayThrow(s, m) {
      SelectingVacates(s, m, d, i, id);
      cont := [Throw(m), HandBack(m)];
      VacatesByTwo(s, Throw(m), HandBack(m), i, d.key, id);
    } else if MayMint(s, m) {
      FinishedVacates(s, m, d, i, id);
      cont := [MintReceipt(m, id), ReservationProtocol.Release(id)];
      VacatesByTwo(s, MintReceipt(m, id), ReservationProtocol.Release(id), i, d.key, id);
    } else {
      var own := s.builds[m].phase.ticket.value;
      ReturnedVacates(s, m, d, i, own, id);
      cont := [ReservationProtocol.Release(own)];
      VacatesByOne(s, ReservationProtocol.Release(own), i, d.key, id);
    }
  }

  // ---------- and then spend it ----------

  lemma OneReturnedKeeps(s: System, i: BuildId, j: BuildId, k: Outpoint, txid: Txid, id: TicketId)
    requires s.clock >= 0 && LiveReceipt(s, i) && j !in s.builds && TicketUnused(s, id)
    ensures var s' := OneReturned(s, j, k, txid, id);
            LiveReceipt(s', i) && s'.builds[i] == s.builds[i] && LiveReceipt(s', j) && s'.builds[j].spent == [k]
  {
  }

  /** A call on a free input spends it; build `i` and its receipt stay as they were. */
  lemma FreeIsSpent(s: System, i: BuildId, j: BuildId, k: Outpoint, txid: Txid, id: TicketId)
    requires s.clock >= 0 && LiveReceipt(s, i) && j !in s.builds && TicketUnused(s, id) && txid !in s.store.recent
    requires !IsReserved(s.store.reservations, k, s.clock)
    ensures var s' := Run(s, SpendOne(j, k, txid, id));
            LiveReceipt(s', i) && s'.builds[i] == s.builds[i] && LiveReceipt(s', j) && s'.builds[j].spent == [k]
    ensures TickFree(SpendOne(j, k, txid, id))
  {
    OneReturnedKeeps(s, i, j, k, txid, id);
    hide Run; hide OneReturned; hide LiveReceipt; hide TicketUnused;
    SpendOneReturns(s, j, k, txid, id);
  }

  lemma CancelsShare(s: System, m: BuildId, d: Claim)
    requires ClaimsOwned(s) && MaxRule(s) && Live(s, m, d) && d.owner.Some?
    ensures CancelMayClaim(s.store, d.key, s.clock)
  {
    assert OwnedInMaps(s, d) && Token(s, d.key, d.owner.value, d.expiry);
    TokenBounds(s, d.key);
  }

  lemma CancelReturns(s: System, i: BuildId, j: BuildId, k: Outpoint, owner: OwnerId, id: TicketId)
    requires s.clock >= 0 && LiveReceipt(s, i) && j !in s.builds && TicketUnused(s, id)
    ensures var s' := Apply(CancelTaken(s, j, k, owner), MintReceipt(j, id));
            LiveReceipt(s', i) && s'.builds[i] == s.builds[i] && LiveReceipt(s', j) && s'.builds[j].spent == [k]
  {
    var c := Claim(k, s.clock + RESERVATION_TTL_MS, Some(owner));
    var s1 := CancelTaken(s, j, k, owner);
    assert TicketUnused(s1, id);
    OneStamped(s1.store.reservations, c);
    assert KeysOf([c]) == [k];
    hide StillStamped; hide LastExpiry; hide TicketUnused;
  }

  lemma CancelMayJoin(s: System, m: BuildId, d: Claim)
    requires Inv(s) && Live(s, m, d) && d.owner.Some?
    ensures CancelMayClaim(SweptForCancel(s), d.key, s.clock)
  {
    var t := s.(store := SweptForCancel(s));
    SweepTrims(s.store, s.clock);
    TrimKeeps(s, t.store);
    assert Live(t, m, d);
    assert ClaimsOwned(t) && MaxRule(t);
    hide Inv;
    CancelsShare(t, m, d);
  }

  /** A live cancel holds it: another cancel joins in. */
  lemma CancelJoins(s: System, m: BuildId, d: Claim, i: BuildId, j: BuildId, owner: OwnerId, id: TicketId)
    requires Inv(s) && LiveReceipt(s, i) && Live(s, m, d) && d.owner.Some?
    requires j !in s.builds && OwnerUnused(s, owner) && TicketUnused(s, id)
    ensures var s' := Run(s, [StartCancel(j, d.key, owner), MintReceipt(j, id)]);
            LiveReceipt(s', i) && s'.builds[i] == s.builds[i] && LiveReceipt(s', j) && s'.builds[j].spent == [d.key]
  {
    InvBuilds(s);
    CancelMayJoin(s, m, d);
    var t := s.(store := SweptForCancel(s));
    assert s.clock >= 0;
    assert TicketUnused(t, id);
    hide Inv; hide BuildsOk; hide Live; hide OwnerUnused; hide TicketUnused; hide CancelMayClaim; hide Apply; hide CancelTaken;
    StartCancelTakes(s, j, d.key, owner);
    CancelReturns(t, i, j, d.key, owner, id);
    RunTwo(s, StartCancel(j, d.key, owner), MintReceipt(j, id));
  }

  // Names nobody has used yet.

  lemma FreshNumber(taken: set<nat>) returns (n: nat)
    ensures n !in taken && forall x | x in taken :: x < n
  {
    if taken == {} {
      n := 0;
    } else {
      var x :| x in taken;
      n := FreshNumber(taken - {x});
      assert forall y | y in taken :: y == x || y in taken - {x};
      n := if x < n then n else x + 1;
    }
  }

  lemma FreshText(taken: set<string>) returns (t: string)
    ensures t !in taken && forall x | x in taken :: |x| < |t|
  {
    if taken == {} {
      t := "";
    } else {
      var x :| x in taken;
      t := FreshText(taken - {x});
      t := if |x| < |t| then t else seq(|x| + 1, _ => 'x');
    }
  }

  lemma FreshOwner(s: System) returns (o: OwnerId)
    ensures OwnerUnused(s, o)
  {
    var taken := set i, c | i in s.builds && c in s.builds[i].ledger && c.owner.Some? :: c.owner.value;
    o := FreshText(taken);
    forall i, c | Entry(s, i, c) ensures c.owner != Some(o) {
      if c.owner.Some? { assert c.owner.value in taken; }
    }
  }

  // ---------- the exact limit ----------

  /** Both calls end up spending `k`: the new one because it took it, `i` because it had it. */
  lemma EndsShared(s: System, s': System, i: BuildId, k: Outpoint, j: BuildId, cont: seq<Action>)
    requires i in s.builds && k in s.builds[i].spent && j !in s.builds && TickFree(cont) && s' == Run(s, cont)
    requires LiveReceipt(s', i) && s'.builds[i] == s.builds[i] && LiveReceipt(s', j) && s'.builds[j].spent == [k]
    ensures CanBeShared(s, i, k)
  {
    hide Run;
    assert Shares(s, i, k, j, cont);
  }

  lemma FreeIsShared(s: System, i: BuildId, k: Outpoint, id: TicketId)
    requires s.clock >= 0 && LiveReceipt(s, i) && k in s.builds[i].spent && TicketUnused(s, id)
    requires !IsReserved(s.store.reservations, k, s.clock)
    ensures CanBeShared(s, i, k)
  {
    hide CanBeShared; hide Run; hide SpendOne; hide TicketUnused; hide TickFree;
    var j := FreshNumber(s.builds.Keys);
    var txid := FreshText(s.store.recent.Keys);
    FreeIsSpent(s, i, j, k, txid, id);
    EndsShared(s, Run(s, SpendOne(j, k, txid, id)), i, k, j, SpendOne(j, k, txid, id));
  }

  lemma VacatedFacts(s: System, s': System, i: BuildId, k: Outpoint, id: TicketId)
    requires Vacated(s, s', i, k, id)
    ensures s'.clock >= 0 && s'.builds.Keys == s.builds.Keys && s'.builds[i] == s.builds[i]
    ensures LiveReceipt(s', i) && !IsReserved(s'.store.reservations, k, s'.clock) && TicketUnused(s', id)
  {
    InvBuilds(s');
    hide Inv;
  }

  lemma VacatedIsShared(s: System, cont: seq<Action>, i: BuildId, k: Outpoint, id: TicketId)
    requires LiveReceipt(s, i) && k in s.builds[i].spent && Vacates(s, cont, i, k, id)
    ensures CanBeShared(s, i, k)
  {
    var s1 := Run(s, cont);
    hide Run; hide TicketUnused; hide Vacated; hide IsReserved;
    VacatedFacts(s, s1, i, k, id);
    FreeIsShared(s1, i, k, id);
    hide LiveReceipt; hide SharedByLiveReceipts;
    var j, more :| Shares(s1, i, k, j, more);
    RunAppend(s, cont, more);
    assert Shares(s, i, k, j, cont + more);
  }

  lemma CancelIsShared(s: System, m: BuildId, d: Claim, i: BuildId, id: TicketId)
    requires Inv(s) && LiveReceipt(s, i) && Live(s, m, d) && d.owner.Some? && d.key in s.builds[i].spent && TicketUnused(s, id)
    ensures CanBeShared(s, i, d.key)
  {
    hide Inv; hide CanBeShared; hide Run; hide TicketUnused; hide Live; hide OwnerUnused;
    var j := FreshNumber(s.builds.Keys);
    var owner := FreshOwner(s);
    CancelJoins(s, m, d, i, j, owner, id);
    var cont := [StartCancel(j, d.key, owner), MintReceipt(j, id)];
    EndsShared(s, Run(s, cont), i, d.key, j, cont);
  }

  lemma LapsedIsShared(s: System, i: BuildId, c: Claim, id: TicketId)
    requires Inv(s) && LiveReceipt(s, i) && !s.builds[i].cancel && c in s.builds[i].ledger && TicketUnused(s, id)
    requires c.expiry <= s.clock
    ensures CanBeShared(s, i, c.key)
  {
    InvBuilds(s);
    LedgerIsSpent(s, i, c);
    if IsReserved(s.store.reservations, c.key, s.clock) {
      var m, d := HolderOf(s, c.key);
      assert m != i by { OneClaimAKey(s, i, c, m, d); }
      hide Inv; hide CanBeShared; hide Live; hide TicketUnused; hide LiveReceipt;
      if d.owner.Some? {
        CancelIsShared(s, m, d, i, id);
      } else {
        var cont := HolderVacates(s, m, d, i, id);
        VacatedIsShared(s, cont, i, c.key, id);
      }
    } else {
      hide Inv; hide CanBeShared; hide TicketUnused; hide LiveReceipt;
      FreeIsShared(s, i, c.key, id);
    }
  }

  lemma LedgerIsSpent(s: System, i: BuildId, c: Claim)
    requires BuildsOk(s) && LiveReceipt(s, i) && c in s.builds[i].ledger
    ensures c.key in s.builds[i].spent
  {
    var b := s.builds[i];
    assert Shape(b) && KeysOf(b.ledger) == b.spent;
    var p :| 0 <= p < |b.ledger| && b.ledger[p] == c;
    assert b.spent[p] == c.key;
  }

  lemma HolderOf(s: System, k: Outpoint) returns (m: BuildId, d: Claim)
    requires Inv(s) && IsReserved(s.store.reservations, k, s.clock)
    ensures Live(s, m, d) && d.key == k
  {
    assert HeldAt(s, k, s.store.reservations[k]);
    m, d :| Live(s, m, d) && d.key == k && d.expiry == s.store.reservations[k];
  }

  lemma OneClaimAKey(s: System, i: BuildId, c: Claim, m: BuildId, d: Claim)
    requires BuildsOk(s) && i in s.builds && c in s.builds[i].ledger && c.expiry <= s.clock && Live(s, m, d) && d.key == c.key
    ensures m != i
  {
    assert LedgerOk(s.builds[i], s.clock);
    if m == i { ReservationContracts.SameKeySameClaim(s.builds[i].ledger, c, d); }
  }

  /**
   The exact limit, on the build's own ledger: an input of a returned create
   build can come to be spent by a call that starts now as well, both receipts live, from the
   moment the build's own claim on it lapses and not before. Its receipt lasts as long as its
   latest claim and is no protection; whoever else holds the input by then can make way.
   Ticket ids are random: `id` is one not drawn before.
   */
  lemma LapsedInputCanBeSpentAgain(s0: System, actions: seq<Action>, i: BuildId, c: Claim, id: TicketId)
    requires Init(s0)
    requires var s := Run(s0, actions);
             LiveReceipt(s, i) && !s.builds[i].cancel && c in s.builds[i].ledger && TicketUnused(s, id)
    ensures var s := Run(s0, actions); CanBeShared(s, i, c.key) <==> c.expiry <= s.clock
  {
    var s := Run(s0, actions);
    RunInv(s0, actions);
    hide Inv; hide Run; hide LiveReceipt; hide TicketUnused;
    if CanBeShared(s, i, c.key) {
      var j, cont :| Shares(s, i, c.key, j, cont);
      LiveClaimIsNotShared(s0, actions, i, c, j, cont);
    } else if c.expiry <= s.clock {
      LapsedIsShared(s, i, c, id);
    }
  }

  // ---------- a run that gets there ----------

  // The key is bound a millisecond before selection starts, so the first claim lapses a
  // millisecond before the second one, and with it the receipt, does.

  const FIRST := Outpoint("a", 0)
  const SECOND := Outpoint("b", 0)
  const RECEIPT: TicketId := "00000000000000000000000000000001"
  const OTHER: TicketId := "00000000000000000000000000000002"

  const CLAIM_FIRST := Claim(FIRST, RESERVATION_TTL_MS, None)
  const CLAIM_SECOND := Claim(SECOND, RESERVATION_TTL_MS + 1, None)

  ghost function SlowCall(): seq<Action> {
    [StartCreate(0, [FIRST, SECOND], false, true), Bind(0), Tick(1), StartSelection(0), SelectNext(0), SelectNext(0), StopSelection(0)]
    + [Finish(0, "t"), MintReceipt(0, RECEIPT), Tick(RESERVATION_TTL_MS - 1)]
  }

  ghost function SlowBuild(spent: seq<Outpoint>, ledger: seq<Claim>, record: Option<Record>, p: Phase): Build {
    Build(false, [FIRST, SECOND], false, true, Some(FIRST), Some("a"), spent, ledger, record, p)
  }

  /** Both claims written, nothing else in the maps. */
  ghost function BothHeld(): map<Outpoint, int> {
    map[FIRST := RESERVATION_TTL_MS, SECOND := RESERVATION_TTL_MS + 1]
  }

  ghost function SlowBound(clock: int): System {
    System(clock, Store(map[FIRST := RESERVATION_TTL_MS], map[], map[], map[]), map[0 := SlowBuild([], [CLAIM_FIRST], None, Bound)])
  }

  ghost function SlowSelected(p: Phase): System {
    System(1, Store(BothHeld(), map[], map[], map[]),
           map[0 := SlowBuild([FIRST, SECOND], [CLAIM_FIRST, CLAIM_SECOND], None, p)])
  }

  ghost function SlowFinished(): System {
    var expiry := RESERVATION_TTL_MS + 1;
    System(1, Store(BothHeld(), map["t" := expiry], map[], map[]),
           map[0 := SlowBuild([FIRST, SECOND], [CLAIM_FIRST, CLAIM_SECOND], Some(Record("t", expiry)), Finished)])
  }

  ghost function SlowReturned(clock: int): System {
    var expiry := RESERVATION_TTL_MS + 1;
    System(clock, Store(BothHeld(), map["t" := expiry], map[],
                        map[RECEIPT := Ticket([CLAIM_FIRST, CLAIM_SECOND], expiry, Some("t"), Some(expiry))]),
           map[0 := SlowBuild([FIRST, SECOND], [CLAIM_FIRST, CLAIM_SECOND], Some(Record("t", expiry)), Returned(Some(RECEIPT)))])
  }

  lemma OutpointsDiffer()
    ensures FIRST != SECOND
  {
    assert FIRST.txid[0] != SECOND.txid[0];
  }

  lemma SlowCallBinds()
    ensures var s0 := System(0, Store(map[], map[], map[], map[]), map[]);
            Apply(Apply(Apply(s0, StartCreate(0, [FIRST, SECOND], false, true)), Bind(0)), Tick(1)) == SlowBound(1)
  {
    OutpointsDiffer();
    assert Distinct([FIRST, SECOND]);
    assert FirstFree(map[], [FIRST, SECOND], 0) == 0;
    assert MoveToFront([FIRST, SECOND], 0) == [FIRST, SECOND];
    assert ClaimsFor([FIRST], 0) == [CLAIM_FIRST] && Reserve(map[], [FIRST], 0) == map[FIRST := RESERVATION_TTL_MS];
  }

  lemma SlowCallSelects()
    ensures Apply(Apply(Apply(SlowBound(1), StartSelection(0)), SelectNext(0)), SelectNext(0)) == SlowSelected(Selecting(1, 2))
  {
    OutpointsDiffer();
    var m := map[FIRST := RESERVATION_TTL_MS];
    assert Sweep(m, 1) == m;
    var st := Store(m, map[], map[], map[]);
    var s4 := System(1, st, map[0 := SlowBuild([], [CLAIM_FIRST], None, Selecting(1, 0))]);
    assert Apply(SlowBound(1), StartSelection(0)) == s4;
    var none: seq<Outpoint> := [];
    assert none + [FIRST] == [FIRST];
    var s5 := System(1, st, map[0 := SlowBuild([FIRST], [CLAIM_FIRST], None, Selecting(1, 1))]);
    assert Apply(s4, SelectNext(0)) == s5;
    assert ClaimsFor([SECOND], 1) == [CLAIM_SECOND] && Reserve(m, [SECOND], 1) == BothHeld();
    assert [FIRST] + [SECOND] == [FIRST, SECOND] && [CLAIM_FIRST] + [CLAIM_SECOND] == [CLAIM_FIRST, CLAIM_SECOND];
  }

  lemma SlowCallFinishes()
    ensures Apply(Apply(SlowSelected(Selecting(1, 2)), StopSelection(0)), Finish(0, "t")) == SlowFinished()
  {
    assert Apply(SlowSelected(Selecting(1, 2)), StopSelection(0)) == SlowSelected(Selected);
    assert RegisterBuild(SlowSelected(Selected).store, "t", 1) == (SlowFinished().store, true);
  }

  lemma BothStamped()
    ensures StillStamped(BothHeld(), [CLAIM_FIRST, CLAIM_SECOND]) == [CLAIM_FIRST, CLAIM_SECOND]
    ensures LastExpiry([CLAIM_FIRST, CLAIM_SECOND]) == RESERVATION_TTL_MS + 1
  {
    var both := [CLAIM_FIRST, CLAIM_SECOND];
    OutpointsDiffer();
    assert both[1..] == [CLAIM_SECOND];
    OneStamped(BothHeld(), CLAIM_SECOND);
  }

  lemma SlowMint()
    ensures Mint(SlowFinished().store, [CLAIM_FIRST, CLAIM_SECOND], Some("t"), RECEIPT, 1) == (SlowReturned(1).store, Some(RECEIPT))
  {
    BothStamped();
    assert SweepTickets(map[], 1) == map[];
    hide StillStamped; hide LastExpiry; hide BothHeld;
  }

  lemma SlowCallMints()
    ensures Apply(Apply(SlowFinished(), MintReceipt(0, RECEIPT)), Tick(RESERVATION_TTL_MS - 1)) == SlowReturned(RESERVATION_TTL_MS)
  {
    SlowMint();
    hide Mint; hide BothHeld;
    assert Apply(SlowFinished(), MintReceipt(0, RECEIPT)) == SlowReturned(1);
  }

  lemma SlowCallRun(s0: System)
    requires s0 == System(0, Store(map[], map[], map[], map[]), map[])
    ensures Run(s0, SlowCall()) == SlowReturned(RESERVATION_TTL_MS)
  {
    var a := SlowCall();
    hide Apply; hide SlowBound; hide SlowSelected; hide SlowFinished; hide SlowReturned;
    RunSeven(s0, a[..7]);
    assert a[..10][..9] == a[..9] && a[..9][..8] == a[..8] && a[..8][..7] == a[..7] && a[..10] == a;
    assert Run(s0, a[..8]) == Apply(Run(s0, a[..7]), a[7]);
    assert Run(s0, a) == Apply(Apply(Run(s0, a[..8]), a[8]), a[9]);
    SlowCallBinds();
    SlowCallSelects();
    SlowCallFinishes();
    SlowCallMints();
  }

  lemma SlowReturnedFacts()
    ensures var s := SlowReturned(RESERVATION_TTL_MS);
            LiveReceipt(s, 0) && !s.builds[0].cancel && CLAIM_FIRST in s.builds[0].ledger && TicketUnused(s, OTHER)
  {
    assert OTHER[31] != RECEIPT[31];
    assert SlowReturned(RESERVATION_TTL_MS).builds[0].ledger[0] == CLAIM_FIRST;
  }

  /** So two returned calls, both with live receipts, can spend one input. */
  lemma DoubleSpendReachable()
    ensures exists s0, actions, i, j, k :: Init(s0) && SharedByLiveReceipts(Run(s0, actions), i, j, k)
  {
    var s0 := System(0, Store(map[], map[], map[], map[]), map[]);
    assert Init(s0);
    var a := SlowCall();
    SlowCallRun(s0);
    SlowReturnedFacts();
    assert SlowReturned(RESERVATION_TTL_MS).clock == RESERVATION_TTL_MS;
    hide SlowReturned; hide TicketUnused; hide Run; hide SlowCall; hide LiveReceipt;
    LapsedInputCanBeSpentAgain(s0, a, 0, CLAIM_FIRST, OTHER);
    var j, cont :| Shares(Run(s0, a), 0, FIRST, j, cont);
    RunAppend(s0, a, cont);
    assert SharedByLiveReceipts(Run(s0, a + cont), 0, j, FIRST);
  }
}
