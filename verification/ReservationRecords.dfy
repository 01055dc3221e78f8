/** The duplicate-build gate over whole runs: it refuses exactly while another build answers for the transaction. */
module ReservationRecords {
  import opened Common
  import opened OutpointStore
  import opened ReservationProtocol
  import opened ReservationInvariant
  import opened ReservationSteps
  import opened ReservationRuns

  /** A build that has not been handed back registered this transaction, and its record is unexpired. */
  ghost predicate Answers(s: System, j: BuildId, txid: Txid, expiry: int) {
    LiveRecord(s, j, Record(txid, expiry))
  }

  ghost predicate Answered(s: System, txid: Txid) {
    exists j, expiry :: Answers(s, j, txid, expiry)
  }

  /** No unexpired record outlives the build that made it. */
  ghost predicate RecordsHeld(s: System) {
    forall txid | txid in s.store.recent && s.store.recent[txid] > s.clock :: Answered(s, txid)
  }

  /** No record is new, and every live one stays with its build while it is unexpired. */
  ghost predicate Carries(s: System, s': System) {
    && s.clock <= s'.clock
    && (forall t | t in s'.store.recent && s'.store.recent[t] > s'.clock :: t in s.store.recent && s.store.recent[t] == s'.store.recent[t])
    && (forall i, r | LiveRecord(s, i, r) && r.expiry > s'.clock :: LiveRecord(s', i, r))
  }

  lemma CarriedRecords(s: System, s': System)
    requires RecordsOk(s) && RecordsHeld(s) && Carries(s, s')
    ensures RecordsHeld(s')
  {
    forall txid | txid in s'.store.recent && s'.store.recent[txid] > s'.clock ensures Answered(s', txid) {
      assert Answered(s, txid);
      var j, expiry :| Answers(s, j, txid, expiry);
      assert Answers(s', j, txid, expiry);
    }
  }

  /** A build without a record may become anything. */
  lemma OneChanged(s: System, i: BuildId, b: Build, st: Store)
    requires i in s.builds ==> s.builds[i].record == None
    requires st.recent == s.store.recent || st.recent == Sweep(s.store.recent, s.clock)
    ensures Carries(s, Put(s.(store := st), i, b))
  {
  }

  lemma Unrecorded(s: System, i: BuildId)
    requires Inv(s) && i in s.builds
    ensures s.builds[i].record.Some? ==>
              var p := s.builds[i].phase; (p.Finished? || p.Returned? || p.HandedBack?) && !s.builds[i].cancel
    ensures s.builds[i].cancel ==> |s.builds[i].ledger| <= 1
    ensures forall c | c in s.builds[i].ledger :: c.owner.Some? == s.builds[i].cancel
  {
    BuildFacts(s, i);
    hide Inv;
  }

  lemma BindLeavesRecords(b: Build, st: Store, now: int)
    ensures BindBuild(b, st, now).0.recent == st.recent
  {
    hide Reserve; hide ClaimsFor; hide MoveToFront; hide Sweep; hide IsReserved;
  }

  lemma BindCarries(s: System, i: BuildId)
    requires Inv(s) && At(s, i, Gathering)
    ensures Carries(s, Apply(s, Bind(i)))
  {
    hide BindBuild;
    Unrecorded(s, i);
    hide Inv;
    var (st, b) := BindBuild(s.builds[i], s.store, s.clock);
    BindLeavesRecords(s.builds[i], s.store, s.clock);
    OneChanged(s, i, b, st);
  }

  lemma SelectCarries(s: System, i: BuildId)
    requires Inv(s) && i in s.builds && s.builds[i].phase.Selecting? && s.builds[i].phase.next < |s.builds[i].utxos|
    ensures Carries(s, SelectCandidate(s, i))
  {
    Unrecorded(s, i);
    hide Inv; hide Reserve; hide ClaimsFor; hide AfterLookup; hide IsReserved;
    var s' := SelectCandidate(s, i);
    assert s'.clock == s.clock && s'.store.recent == s.store.recent && s' == Put(s.(store := s'.store), i, s'.builds[i]);
    OneChanged(s, i, s'.builds[i], s'.store);
    hide SelectCandidate;
  }

  lemma HandBackCarries(s: System, i: BuildId)
    requires Inv(s) && At(s, i, Throwing)
    ensures Carries(s, Apply(s, HandBack(i)))
  {
    Unrecorded(s, i);
    hide Inv; hide GiveUp;
    var b := s.builds[i];
    GiveUpStore(s.store, b, s.clock, b.ledger);
    OneChanged(s, i, b.(phase := Failed), GiveUp(s.store, b.cancel, b.ledger, s.clock));
  }

  lemma StartCancelCarries(s: System, i: BuildId, key: Outpoint, owner: OwnerId)
    requires i !in s.builds && OwnerUnused(s, owner)
    ensures Carries(s, Apply(s, StartCancel(i, key, owner)))
  {
    hide CancelMayClaim; hide Sweep; hide SweepOwners; hide OwnerUnused;
    var (st, ok) := ClaimCommit(s.store, key, owner, s.clock);
    assert st.recent == s.store.recent;
    var s' := Apply(s, StartCancel(i, key, owner));
    OneChanged(s, i, s'.builds[i], st);
    hide ClaimCommit;
  }

  lemma MintCarries(s: System, i: BuildId, id: TicketId)
    requires MayMint(s, i) && TicketUnused(s, id)
    ensures Carries(s, Apply(s, MintReceipt(i, id)))
  {
    var b := s.builds[i];
    var (st, receipt) := Mint(s.store, b.ledger, if b.record.Some? then Some(b.record.value.txid) else None, id, s.clock);
    assert st.recent == s.store.recent by { hide StillStamped; hide SweepTickets; }
    hide Mint; hide TicketUnused;
  }

  lemma SettledOthers(s: System, id: TicketId, i: BuildId)
    requires i in s.builds && id in s.store.tickets
    ensures var s' := ReservationRuns.Settled(s, id, i);
            s'.clock == s.clock && forall j, r | j != i && LiveRecord(s, j, r) :: LiveRecord(s', j, r)
  {
    hide GiveUp; hide RetireRecord;
  }

  /** A release that finds its ticket takes the record of the build it settles, and no other. */
  lemma SettledHolds(s: System, id: TicketId, i: BuildId)
    requires Inv(s) && RecordsHeld(s) && id in s.store.tickets && IssuedTo(s, id, i) && s.store.tickets[id].expiry > s.clock
    ensures RecordsHeld(ReservationRuns.Settled(s, id, i))
  {
    TicketCovers(s, id, i);
    SettledOthers(s, id, i);
    hide Inv; hide ReservationRuns.Settled; hide RetireRecord; hide LiveRecord;
    SettledStore(s, id, i);
    var s' := ReservationRuns.Settled(s, id, i);
    forall txid | txid in s'.store.recent && s'.store.recent[txid] > s'.clock ensures Answered(s', txid) {
      RetireOnly(s.store, s.store.tickets[id], txid);
      assert Answered(s, txid);
      var j, expiry :| Answers(s, j, txid, expiry);
      RecordStays(s, id, i, j, txid, expiry);
      assert Answers(s', j, txid, expiry);
    }
  }

  lemma RetireOnly(st: Store, t: Ticket, txid: Txid)
    requires txid in RetireRecord(st, t).recent
    ensures txid in st.recent && RetireRecord(st, t).recent[txid] == st.recent[txid]
  {
  }

  /** Only the settled build's own record is gone. */
  lemma RecordStays(s: System, id: TicketId, i: BuildId, j: BuildId, txid: Txid, expiry: int)
    requires Inv(s) && id in s.store.tickets && IssuedTo(s, id, i) && s.store.tickets[id].expiry > s.clock
    requires Answers(s, j, txid, expiry) && txid in RetireRecord(s.store, s.store.tickets[id]).recent
    ensures j != i
  {
    assert TicketFits(s.store.tickets[id], s.builds[i], s.clock);
    Unrecorded(s, i);
    assert s.store.recent[txid] == expiry;
  }

  lemma ReleaseHolds(s: System, id: TicketId)
    requires Inv(s) && RecordsHeld(s)
    ensures RecordsHeld(Apply(s, ReservationProtocol.Release(id)))
  {
    var t := s.(store := SweepAll(s.store, s.clock));
    assert Carries(s, t);
    CarriedRecords(s, t);
    hide RecordsHeld; hide Carries;
    if IsTicketId(id) && id in s.store.tickets && s.store.tickets[id].expiry > s.clock {
      var i := ReleaseFound(s, id);
      hide Inv; hide ReleaseTicket; hide SweepAll;
      SettledHolds(t, id, i);
    } else {
      hide Inv;
      assert Apply(s, ReservationProtocol.Release(id)) == s || Apply(s, ReservationProtocol.Release(id)) == t;
    }
  }

  lemma FinishIs(s: System, i: BuildId, txid: Txid)
    requires At(s, i, Selected) && !s.builds[i].cancel
    ensures var b := s.builds[i];
            var swept := s.store.(recent := Sweep(s.store.recent, s.clock));
            var r := Record(txid, s.clock + RESERVATION_TTL_MS);
            Apply(s, Finish(i, txid))
            == if txid in s.store.recent && s.store.recent[txid] > s.clock then Put(s.(store := swept), i, b.(phase := Throwing))
               else Put(s.(store := swept.(recent := swept.recent[txid := r.expiry])), i, b.(record := Some(r), phase := Finished))
  {
  }

  lemma FinishHolds(s: System, i: BuildId, txid: Txid)
    requires Inv(s) && RecordsHeld(s)
    ensures RecordsHeld(Apply(s, Finish(i, txid)))
  {
    if At(s, i, Selected) && !s.builds[i].cancel {
      Unrecorded(s, i);
      FinishIs(s, i, txid);
      assert RecordsOk(s);
      hide Inv; hide Apply;
      var b := s.builds[i];
      var swept := s.store.(recent := Sweep(s.store.recent, s.clock));
      OneChanged(s, i, b.(phase := Throwing), swept);
      if txid in s.store.recent && s.store.recent[txid] > s.clock {
        CarriedRecords(s, Put(s.(store := swept), i, b.(phase := Throwing)));
      } else {
        RegisteredHolds(s, i, txid);
      }
    }
  }

  lemma RegisteredHolds(s: System, i: BuildId, txid: Txid)
    requires RecordsOk(s) && RecordsHeld(s) && i in s.builds && s.builds[i].record == None && s.builds[i].phase == Selected
    ensures RecordsHeld(Registered(s.(store := s.store.(recent := Sweep(s.store.recent, s.clock))), i, txid))
  {
    var s' := Registered(s.(store := s.store.(recent := Sweep(s.store.recent, s.clock))), i, txid);
    forall x | x in s'.store.recent && s'.store.recent[x] > s'.clock ensures Answered(s', x) {
      if x == txid {
        assert Answers(s', i, txid, s'.store.recent[txid]);
      } else {
        assert Answered(s, x);
        var j, expiry :| Answers(s, j, x, expiry);
        assert Answers(s', j, x, expiry);
      }
    }
  }

  lemma StepHolds(s: System, a: Action)
    requires Inv(s) && RecordsHeld(s)
    ensures RecordsHeld(Apply(s, a))
  {
    hide RecordsHeld;
    match a
    case Finish(i, txid) => FinishHolds(s, i, txid);
    case Release(id) => ReleaseHolds(s, id);
    case _ =>
      StepCarries(s, a);
      assert RecordsOk(s);
      hide Inv; hide Carries; hide Apply;
      CarriedRecords(s, Apply(s, a));
  }

  lemma StepCarries(s: System, a: Action)
    requires Inv(s) && !a.Finish? && !a.Release?
    ensures Carries(s, Apply(s, a))
  {
    match a
    case Tick(_) =>
    case StartCreate(i, utxos, exact, keyBinds) =>
      if i !in s.builds && Distinct(utxos) { OneChanged(s, i, Apply(s, a).builds[i], s.store); }
    case Bind(i) => if At(s, i, Gathering) { BindCarries(s, i); }
    case StartSelection(i) =>
      if At(s, i, Bound) {
        Unrecorded(s, i);
        OneChanged(s, i, Apply(s, a).builds[i], Apply(s, a).store);
      }
    case SelectNext(i) =>
      if i in s.builds && s.builds[i].phase.Selecting? && s.builds[i].phase.next < |s.builds[i].utxos| { SelectCarries(s, i); }
    case StopSelection(i) =>
      if i in s.builds && MayStop(s.builds[i]) {
        Unrecorded(s, i);
        OneChanged(s, i, Apply(s, a).builds[i], s.store);
      }
    case StartCancel(i, key, owner) => if i !in s.builds && OwnerUnused(s, owner) { StartCancelCarries(s, i, key, owner); }
    case MintReceipt(i, id) => if MayMint(s, i) && TicketUnused(s, id) { MintCarries(s, i, id); }
    case Throw(i) =>
      if MayThrow(s, i) {
        Unrecorded(s, i);
        OneChanged(s, i, Apply(s, a).builds[i], s.store);
      }
    case HandBack(i) => if At(s, i, Throwing) { HandBackCarries(s, i); }
  }

  lemma {:induction false} RunHolds(s: System, actions: seq<Action>)
    requires Init(s)
    ensures RecordsHeld(Run(s, actions))
  {
    if actions != [] {
      var n := |actions| - 1;
      RunHolds(s, actions[..n]);
      RunInv(s, actions[..n]);
      hide RecordsHeld; hide Inv; hide Apply;
      StepHolds(Run(s, actions[..n]), actions[n]);
    }
  }

  /**
   In every run the gate turns a build away exactly while some other one, finished or returned and
   not handed back, answers for the same transaction; otherwise the build is registered until its
   record lapses.
   */
  lemma DuplicateIsRefusedIff(s0: System, actions: seq<Action>, i: BuildId, txid: Txid)
    requires Init(s0) && At(Run(s0, actions), i, Selected) && !Run(s0, actions).builds[i].cancel
    ensures var s := Run(s0, actions);
            var s' := Apply(s, Finish(i, txid));
            if Answered(s, txid) then At(s', i, Throwing) else Answers(s', i, txid, s.clock + RESERVATION_TTL_MS)
  {
    hide Inv; hide RecordsHeld; hide Run; hide Apply; hide Answered; hide Answers;
    RunInv(s0, actions);
    RunHolds(s0, actions);
    AnsweredIff(Run(s0, actions), txid);
    GateDecides(Run(s0, actions), i, txid);
  }

  lemma GateDecides(s: System, i: BuildId, txid: Txid)
    requires At(s, i, Selected) && !s.builds[i].cancel
    ensures var s' := Apply(s, Finish(i, txid));
            if txid in s.store.recent && s.store.recent[txid] > s.clock then At(s', i, Throwing)
            else Answers(s', i, txid, s.clock + RESERVATION_TTL_MS)
  {
    FinishIs(s, i, txid);
    hide Apply; hide Sweep;
  }

  lemma AnsweredIff(s: System, txid: Txid)
    requires Inv(s) && RecordsHeld(s)
    ensures Answered(s, txid) <==> txid in s.store.recent && s.store.recent[txid] > s.clock
  {
    assert RecordsOk(s);
    hide Inv;
    if Answered(s, txid) {
      var j, expiry :| Answers(s, j, txid, expiry);
    }
  }
}
