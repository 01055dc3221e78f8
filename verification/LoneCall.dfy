/** A call that wants one outpoint and nothing else, followed to its end. */
module LoneCall {
  import opened Common
  import opened OutpointStore
  import opened ReservationProtocol
  import opened ReservationRuns

  /** The seven actions of a call that spends one outpoint. */
  ghost function SpendOne(j: BuildId, k: Outpoint, txid: Txid, id: TicketId): seq<Action> {
    [StartCreate(j, [k], false, false), Bind(j), StartSelection(j), SelectNext(j), StopSelection(j), Finish(j, txid), MintReceipt(j, id)]
  }

  /** The build and maps halfway: the key is bound and the one input selected. */
  ghost function OneSelected(s: System, j: BuildId, k: Outpoint): System {
    var c := Claim(k, s.clock + RESERVATION_TTL_MS, None);
    Put(s.(store := s.store.(reservations := Sweep(s.store.reservations, s.clock)[k := c.expiry])), j,
        Build(false, [k], false, false, Some(k), Some(k.txid), [k], [c], None, Selected))
  }

  ghost function OneBound(s: System, j: BuildId, k: Outpoint): System {
    var c := Claim(k, s.clock + RESERVATION_TTL_MS, None);
    Put(s.(store := s.store.(reservations := Sweep(s.store.reservations, s.clock)[k := c.expiry])), j,
        Build(false, [k], false, false, Some(k), Some(k.txid), [], [c], None, Bound))
  }

  lemma SpendOneBinds(s: System, j: BuildId, k: Outpoint)
    requires j !in s.builds && !IsReserved(s.store.reservations, k, s.clock)
    ensures Apply(Apply(s, StartCreate(j, [k], false, false)), Bind(j)) == OneBound(s, j, k)
  {
    var m := Sweep(s.store.reservations, s.clock);
    var expiry := s.clock + RESERVATION_TTL_MS;
    assert Apply(s, StartCreate(j, [k], false, false)) == Put(s, j, Build(false, [k], false, false, None, None, [], [], None, Gathering));
    assert FirstFree(m, [k], s.clock) == 0;
    assert MoveToFront([k], 0) == [k];
    assert ClaimsFor([k], s.clock) == [Claim(k, expiry, None)] && Reserve(m, [k], s.clock) == m[k := expiry];
  }

  lemma SpendOneSelects(s: System, j: BuildId, k: Outpoint)
    ensures Apply(Apply(Apply(OneBound(s, j, k), StartSelection(j)), SelectNext(j)), StopSelection(j)) == OneSelected(s, j, k)
  {
    var s2 := OneBound(s, j, k);
    var b2 := s2.builds[j];
    assert Sweep(s2.store.reservations, s.clock) == s2.store.reservations;
    var s3 := Put(s2, j, b2.(phase := Selecting(s.clock, 0)));
    assert Apply(s2, StartSelection(j)) == s3;
    assert b2.spent + [k] == [k];
    var s4 := Put(s2, j, b2.(phase := Selecting(s.clock, 1), spent := [k]));
    assert Apply(s3, SelectNext(j)) == s4;
  }

  ghost function OneReturned(s: System, j: BuildId, k: Outpoint, txid: Txid, id: TicketId): System {
    var expiry := s.clock + RESERVATION_TTL_MS;
    var c := Claim(k, expiry, None);
    System(s.clock,
           Store(Sweep(s.store.reservations, s.clock)[k := expiry], Sweep(s.store.recent, s.clock)[txid := expiry], s.store.cancels,
                 SweepTickets(s.store.tickets, s.clock)[id := Ticket([c], expiry, Some(txid), Some(expiry))]),
           s.builds[j := Build(false, [k], false, false, Some(k), Some(k.txid), [k], [c], Some(Record(txid, expiry)), Returned(Some(id)))])
  }

  lemma SpendOneFinishes(s: System, j: BuildId, k: Outpoint, txid: Txid, id: TicketId)
    requires s.clock >= 0 && j !in s.builds && TicketUnused(s, id) && txid !in Sweep(s.store.recent, s.clock)
    ensures Apply(Apply(OneSelected(s, j, k), Finish(j, txid)), MintReceipt(j, id)) == OneReturned(s, j, k, txid, id)
  {
    var s5 := OneSelected(s, j, k);
    var expiry := s.clock + RESERVATION_TTL_MS;
    var s6 := Put(s5.(store := s5.store.(recent := Sweep(s.store.recent, s.clock)[txid := expiry])), j,
                  s5.builds[j].(record := Some(Record(txid, expiry)), phase := Finished));
    assert Apply(s5, Finish(j, txid)) == s6;
    SpendOneMints(s, s6, j, k, txid, id);
  }

  lemma SpendOneMints(s: System, s6: System, j: BuildId, k: Outpoint, txid: Txid, id: TicketId)
    requires s.clock >= 0 && j !in s.builds && TicketUnused(s, id)
    requires var s5 := OneSelected(s, j, k);
             var expiry := s.clock + RESERVATION_TTL_MS;
             s6 == Put(s5.(store := s5.store.(recent := Sweep(s.store.recent, s.clock)[txid := expiry])), j,
                       s5.builds[j].(record := Some(Record(txid, expiry)), phase := Finished))
    ensures Apply(s6, MintReceipt(j, id)) == OneReturned(s, j, k, txid, id)
  {
    var c := Claim(k, s.clock + RESERVATION_TTL_MS, None);
    assert TicketUnused(s6, id);
    assert Mint(s6.store, [c], Some(txid), id, s.clock).0 == OneReturned(s, j, k, txid, id).store by {
      OneStamped(s6.store.reservations, c);
    }
    OneStamped(s6.store.reservations, c);
    hide StillStamped; hide LastExpiry; hide TicketUnused;
  }

  lemma OneStamped(m: map<Outpoint, int>, c: Claim)
    requires Stamped(m, c) && c.expiry > 0
    ensures StillStamped(m, [c]) == [c] && LastExpiry([c]) == c.expiry
  {
    assert [c][1..] == [];
    assert StillStamped(m, [c][1..]) == [] && LastExpiry([c][1..]) == 0;
  }

  /** A free outpoint can be spent by a new call at once; nobody else's build changes. */
  lemma SpendOneReturns(s: System, j: BuildId, k: Outpoint, txid: Txid, id: TicketId)
    requires s.clock >= 0 && j !in s.builds && !IsReserved(s.store.reservations, k, s.clock)
    requires TicketUnused(s, id) && txid !in Sweep(s.store.recent, s.clock)
    ensures Run(s, SpendOne(j, k, txid, id)) == OneReturned(s, j, k, txid, id)
  {
    hide OneBound; hide OneSelected; hide OneReturned; hide Apply;
    RunSeven(s, SpendOne(j, k, txid, id));
    SpendOneBinds(s, j, k);
    SpendOneSelects(s, j, k);
    SpendOneFinishes(s, j, k, txid, id);
  }

  lemma RunSeven(s: System, a: seq<Action>)
    requires |a| == 7
    ensures Run(s, a) == Apply(Apply(Apply(Apply(Apply(Apply(Apply(s, a[0]), a[1]), a[2]), a[3]), a[4]), a[5]), a[6])
  {
    assert a[..6][..5] == a[..5] && a[..5][..4] == a[..4] && a[..4][..3] == a[..3] && a[..3][..2] == a[..2] && a[..2][..1] == a[..1];
    assert a[..1][..0] == [];
    assert Run(s, a[..1]) == Apply(s, a[0]);
    assert Run(s, a[..3]) == Apply(Apply(Apply(s, a[0]), a[1]), a[2]);
    assert Run(s, a[..5]) == Apply(Apply(Run(s, a[..3]), a[3]), a[4]);
  }

  ghost function OneSkipped(s: System, j: BuildId, k: Outpoint, p: Phase): System {
    Put(s.(store := s.store.(reservations := Sweep(s.store.reservations, s.clock))), j,
        Build(false, [k], false, false, None, Some(k.txid), [], [], None, p))
  }

  lemma SpendOneUnbound(s: System, j: BuildId, k: Outpoint)
    requires j !in s.builds && IsReserved(s.store.reservations, k, s.clock)
    ensures Apply(Apply(s, StartCreate(j, [k], false, false)), Bind(j)) == OneSkipped(s, j, k, Bound)
  {
    assert FirstFree(Sweep(s.store.reservations, s.clock), [k], s.clock) == 1;
  }

  lemma SpendOneSkips(s: System, j: BuildId, k: Outpoint)
    requires IsReserved(s.store.reservations, k, s.clock)
    ensures Apply(Apply(Apply(OneSkipped(s, j, k, Bound), StartSelection(j)), SelectNext(j)), StopSelection(j))
            == OneSkipped(s, j, k, Throwing)
  {
    var m := Sweep(s.store.reservations, s.clock);
    assert Sweep(m, s.clock) == m;
    assert Apply(OneSkipped(s, j, k, Bound), StartSelection(j)) == OneSkipped(s, j, k, Selecting(s.clock, 0));
    assert Apply(OneSkipped(s, j, k, Selecting(s.clock, 0)), SelectNext(j)) == OneSkipped(s, j, k, Selecting(s.clock, 1));
  }

  /** A held outpoint is never selected: the call throws. */
  lemma SpendOneRefused(s: System, j: BuildId, k: Outpoint, txid: Txid, id: TicketId)
    requires j !in s.builds && IsReserved(s.store.reservations, k, s.clock)
    ensures At(Run(s, SpendOne(j, k, txid, id)), j, Throwing)
  {
    hide Apply; hide OneSkipped;
    RunSeven(s, SpendOne(j, k, txid, id));
    SpendOneUnbound(s, j, k);
    SpendOneSkips(s, j, k);
    SpendOneStuck(s, j, k, txid, id);
  }

  lemma SpendOneStuck(s: System, j: BuildId, k: Outpoint, txid: Txid, id: TicketId)
    ensures var s5 := OneSkipped(s, j, k, Throwing);
            Apply(Apply(s5, Finish(j, txid)), MintReceipt(j, id)) == s5 && At(s5, j, Throwing)
  {
  }

  /** A lone call returns exactly when nobody holds its outpoint. */
  lemma LoneCallReturnsIff(s: System, j: BuildId, k: Outpoint, txid: Txid, id: TicketId)
    requires s.clock >= 0 && j !in s.builds && TicketUnused(s, id) && txid !in s.store.recent
    ensures At(Run(s, SpendOne(j, k, txid, id)), j, Returned(Some(id))) <==> !IsReserved(s.store.reservations, k, s.clock)
  {
    hide Run; hide SpendOne;
    if IsReserved(s.store.reservations, k, s.clock) {
      SpendOneRefused(s, j, k, txid, id);
    } else {
      SpendOneReturns(s, j, k, txid, id);
    }
  }
}
