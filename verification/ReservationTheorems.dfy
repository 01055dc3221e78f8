/** What the reservation protocol guarantees in every state of every run. */
module ReservationTheorems {
  import opened Common
  import opened OutpointStore
  import opened ReservationProtocol
  import opened ReservationInvariant
  import opened ReservationRuns

  /** An outpoint has one live create claim and no live cancel claim, or any number of cancel claims. */
  lemma NoDoubleClaim(s0: System, actions: seq<Action>, i: BuildId, j: BuildId, c: Claim, d: Claim)
    requires Init(s0) && i != j
    requires Live(Run(s0, actions), i, c) && Live(Run(s0, actions), j, d) && c.key == d.key
    ensures c.owner.Some? && d.owner.Some?
  {
    var s := Run(s0, actions);
    RunInv(s0, actions);
    assert OwnedInMaps(s, c) && OwnedInMaps(s, d);
    TokenBounds(s, c.key);
  }

  /** The claim a build wrote for an input it spends. */
  predicate ClaimOn(b: Build, k: Outpoint, c: Claim) {
    c in b.ledger && c.key == k
  }

  /**
   Builds returned by create calls, and returned cancels, share an input only when a claim on
   it has lapsed, or when both are cancels of the same commit.
   */
  lemma ReturnedBuildsShareOnlyLapsedInputs(s0: System, actions: seq<Action>, i: BuildId, j: BuildId, k: Outpoint)
    requires Init(s0) && i != j
    requires var s := Run(s0, actions);
             && i in s.builds && j in s.builds && s.builds[i].phase.Returned? && s.builds[j].phase.Returned?
             && k in s.builds[i].spent && k in s.builds[j].spent && !s.builds[i].cancel
    ensures var s := Run(s0, actions);
            exists c, d :: ClaimOn(s.builds[i], k, c) && ClaimOn(s.builds[j], k, d) && (c.expiry <= s.clock || d.expiry <= s.clock)
  {
    var s := Run(s0, actions);
    RunInv(s0, actions);
    var c := SpentClaim(s, i, k);
    var d := SpentClaim(s, j, k);
    assert ClaimOn(s.builds[i], k, c) && ClaimOn(s.builds[j], k, d);
    if c.expiry > s.clock && d.expiry > s.clock {
      assert Live(s, i, c) && Live(s, j, d);
      assert LedgerOk(s.builds[i], s.clock);
      NoDoubleClaim(s0, actions, i, j, c, d);
    }
  }

  lemma SpentClaim(s: System, i: BuildId, k: Outpoint) returns (c: Claim)
    requires BuildsOk(s) && i in s.builds && s.builds[i].phase.Returned? && k in s.builds[i].spent
    ensures ClaimOn(s.builds[i], k, c)
  {
    var b := s.builds[i];
    assert KeysOf(b.ledger) == b.spent;
    var p :| 0 <= p < |b.spent| && b.spent[p] == k;
    c := b.ledger[p];
  }
}
