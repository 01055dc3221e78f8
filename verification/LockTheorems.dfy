/** What the lock protocol of `InstanceLock` guarantees in every run. */
module LockTheorems {
  import opened Common
  import opened InstanceLock

  // ---------- mutual exclusion ----------

  /** Two live processes never both hold the lock. */
  lemma MutualExclusion(w0: World, actions: seq<Action>, p: ProcId, q: ProcId)
    requires Init(w0) && HoldsLock(Run(w0, actions), p) && HoldsLock(Run(w0, actions), q)
    ensures p == q
  {
    RunInv(w0, actions);
  }

  /**
   While a live process holds the lock, the file is its record, and the only action that
   can change the file is that process's own release: no breaker, publisher or former
   owner touches it.
   */
  lemma OnlyTheHolderRemovesItsRecord(w0: World, actions: seq<Action>, p: ProcId, a: Action)
    requires Init(w0) && HoldsLock(Run(w0, actions), p)
    ensures var w := Run(w0, actions);
            && w.lock == Some(RecordOf(w.procs[p]))
            && (Apply(w, a).lock != w.lock ==> a.Step? && a.p == p && w.procs[p].stage == Releasing)
  {
    var w := Run(w0, actions);
    RunInv(w0, actions);
    if a.Step? && Running(w, a.p) {
      TurnLock(w, a.p, a.chance);
      ForeignStep(w, p, a.p, a.chance);
    }
  }

  lemma ForeignStep(w: World, p: ProcId, q: ProcId, c: Chance)
    requires Inv(w) && HoldsLock(w, p) && Running(w, q)
    ensures After(w, q, c).lock == w.lock || (q == p && w.procs[p].stage == Releasing)
  {
    assert TextOk(w, InHand(w.procs[q].stage)) && Stale(w, Judged(w.procs[q].stage));
    if q != p && InMutex(w.procs[q].stage) {
      assert w.procs[q].stage == Releasing ==> HoldsLock(w, q);
    }
  }

  /** A process that a breaker finds alive under its own command line is never judged stale. */
  lemma LiveHolderIsNotJudgedStale(w0: World, actions: seq<Action>, p: ProcId, q: ProcId)
    requires Init(w0) && HoldsLock(Run(w0, actions), p) && Running(Run(w0, actions), q)
    ensures var w := Run(w0, actions); Judged(w.procs[q].stage) != Some(RecordOf(w.procs[p]))
  {
    var w := Run(w0, actions);
    RunInv(w0, actions);
    assert Stale(w, Judged(w.procs[q].stage));
  }

  // ---------- acquisition ends ----------

  predicate Acquiring(s: Stage) {
    s != Holding && s != Releasing && s != Done && s != Threw
  }

  const PASS_STEPS := 130

  function StageRank(s: Stage): nat {
    match s
    case Idle => 130
    case Waiting(Publish, n) => if n < MUTEX_WAIT_PASSES then 79 + MUTEX_WAIT_PASSES - n else 0
    case Opened(Publish) => 78
    case Inside(Publish) => 77
    case Writing => 76
    case Leaving(next) => if next == ToRetry then 6 else 75
    case LeavingChecked(next) => if next == ToRetry then 5 else 74
    case Contending(n) => if n <= RECHECK_PASSES then 63 + RECHECK_PASSES - n else 0
    case Judging(_) => 62
    case Describing(_) => 61
    case Waiting(Break(_), n) => if n < MUTEX_WAIT_PASSES then 10 + MUTEX_WAIT_PASSES - n else 0
    case Opened(Break(_)) => 9
    case Inside(Break(_)) => 8
    case Unlinking(_) => 7
    case _ => 0
  }

  /** How many more steps the acquisition can take, however the files and the other processes behave. */
  function Rank(p: Proc): int {
    if Acquiring(p.stage) then (BREAK_PASSES - p.pass) * PASS_STEPS + StageRank(p.stage) else 0
  }

  predicate InBounds(p: Proc) {
    && p.pass <= BREAK_PASSES
    && (p.stage.Waiting? ==> p.stage.attempts < MUTEX_WAIT_PASSES)
    && (p.stage.Contending? ==> p.stage.tries <= RECHECK_PASSES)
  }

  lemma TurnRanksDown(w: World, p: Proc, c: Chance)
    requires InBounds(p) && Acquiring(p.stage)
    ensures InBounds(Turn(w, p, c).2) && 0 <= Rank(Turn(w, p, c).2) < Rank(p)
  {
    hide PidAlive; hide RunsAnother; hide Legible;
  }

  lemma {:induction false} RunInBounds(w0: World, actions: seq<Action>)
    requires Init(w0)
    ensures forall p | p in Run(w0, actions).procs :: InBounds(Run(w0, actions).procs[p])
  {
    if actions != [] {
      var n := |actions| - 1;
      var w := Run(w0, actions[..n]);
      RunInBounds(w0, actions[..n]);
      var a := actions[n];
      if a.Step? && Running(w, a.p) && Acquiring(w.procs[a.p].stage) { TurnRanksDown(w, w.procs[a.p], a.chance); }
    }
  }

  predicate AcquireStep(w: World, a: Action, p: ProcId) {
    a.Step? && a.p == p && Running(w, p) && Acquiring(w.procs[p].stage)
  }

  /** The steps process `p` spends acquiring over a run. */
  function AcquireSteps(w0: World, actions: seq<Action>, p: ProcId): nat {
    if actions == [] then 0
    else
      var n := |actions| - 1;
      AcquireSteps(w0, actions[..n], p) + if AcquireStep(Run(w0, actions[..n]), actions[n], p) then 1 else 0
  }

  function Left(w: World, p: ProcId): int {
    if p in w.procs then Rank(w.procs[p]) else (BREAK_PASSES + 1) * PASS_STEPS
  }

  /** Acquisition ends: whatever everybody else does, a process takes at most 780 steps before it holds the lock or throws. */
  lemma AcquisitionEnds(w0: World, actions: seq<Action>, p: ProcId)
    requires Init(w0)
    ensures AcquireSteps(w0, actions, p) <= (BREAK_PASSES + 1) * PASS_STEPS
  {
    StepsAndRank(w0, actions, p);
  }

  lemma {:induction false} StepsAndRank(w0: World, actions: seq<Action>, p: ProcId)
    requires Init(w0)
    ensures Left(Run(w0, actions), p) >= 0
    ensures AcquireSteps(w0, actions, p) + Left(Run(w0, actions), p) <= (BREAK_PASSES + 1) * PASS_STEPS
  {
    if actions != [] {
      var n := |actions| - 1;
      var w := Run(w0, actions[..n]);
      StepsAndRank(w0, actions[..n], p);
      RunInBounds(w0, actions[..n]);
      LeftFalls(w, actions[n], p);
    }
  }

  lemma LeftFalls(w: World, a: Action, p: ProcId)
    requires (forall q | q in w.procs :: InBounds(w.procs[q])) && Left(w, p) >= 0
    ensures Left(Apply(w, a), p) >= 0
    ensures Left(Apply(w, a), p) + (if AcquireStep(w, a, p) then 1 else 0) <= Left(w, p)
  {
    if AcquireStep(w, a, p) {
      TurnRanksDown(w, w.procs[p], a.chance);
    } else if a.Step? && a.p == p && Running(w, p) {
      assert Turn(w, w.procs[p], a.chance).2.stage in {Holding, Done, Threw};
    }
  }

  // ---------- a stale lock is taken over ----------

  /** `n` undisturbed steps of `p`. */
  function Solo(w: World, p: ProcId, n: nat): World
    requires Running(w, p)
    ensures Running(Solo(w, p, n), p)
  {
    if n == 0 then w
    else
      TurnSame(Solo(w, p, n - 1), Solo(w, p, n - 1).procs[p], Normal);
      After(Solo(w, p, n - 1), p, Normal)
  }

  ghost predicate Reaches(w: World, p: ProcId, w': World) {
    Running(w, p) && exists n :: Solo(w, p, n) == w'
  }

  lemma {:induction false} SoloAdds(w: World, p: ProcId, m: nat, n: nat)
    requires Running(w, p)
    ensures Solo(Solo(w, p, m), p, n) == Solo(w, p, m + n)
  {
    hide After; hide Turn;
    if n > 0 {
      SoloAdds(w, p, m, n - 1);
      assert Solo(w, p, m + n) == After(Solo(w, p, m + n - 1), p, Normal);
    }
  }

  lemma ReachesThen(w: World, p: ProcId, w1: World, w2: World)
    requires Reaches(w, p, w1) && Reaches(w1, p, w2)
    ensures Reaches(w, p, w2)
  {
    var m :| Solo(w, p, m) == w1;
    var n :| Solo(w1, p, n) == w2;
    SoloAdds(w, p, m, n);
  }

  function Moved(w: World, p: ProcId, lock: Option<Text>, mutex: Option<Option<Token>>, stage: Stage, pass: nat): World
    requires p in w.procs
  {
    w.(lock := lock, mutex := mutex, procs := w.procs[p := w.procs[p].(stage := stage, pass := pass)])
  }

  lemma MovedFacts(w: World, p: ProcId, lock: Option<Text>, mutex: Option<Option<Token>>, stage: Stage, pass: nat)
    requires Running(w, p)
    ensures var m := Moved(w, p, lock, mutex, stage, pass);
            && AtStage(m, p, stage) && m.lock == lock && m.mutex == mutex && m.procs[p].pass == pass
            && m.procs[p].token == w.procs[p].token && RecordOf(m.procs[p]) == RecordOf(w.procs[p])
  {
  }

  lemma MovedTwice(w: World, p: ProcId, m: World, lock: Option<Text>, mutex: Option<Option<Token>>, stage: Stage, pass: nat)
    requires Running(w, p) && p in m.procs && m == Moved(w, p, m.lock, m.mutex, m.procs[p].stage, m.procs[p].pass)
    ensures Moved(m, p, lock, mutex, stage, pass) == Moved(w, p, lock, mutex, stage, pass)
  {
  }

  lemma Moves(w: World, p: ProcId)
    requires Running(w, p)
    ensures Reaches(w, p, After(w, p, Normal))
  {
    assert Solo(w, p, 0) == w;
    assert Solo(w, p, 1) == After(w, p, Normal);
  }

  predicate AtStage(w: World, p: ProcId, s: Stage) {
    Running(w, p) && w.procs[p].stage == s
  }

  lemma EntersMutex(w: World, p: ProcId, goal: Goal)
    requires AtStage(w, p, Waiting(goal, 0)) && w.mutex == None
    ensures Reaches(w, p, Moved(w, p, w.lock, Some(Some(w.procs[p].token)), Inside(goal), w.procs[p].pass))
  {
    var w1 := After(w, p, Normal);
    Moves(w, p);
    Moves(w1, p);
    assert After(w1, p, Normal) == Moved(w, p, w.lock, Some(Some(w.procs[p].token)), Inside(goal), w.procs[p].pass);
    ReachesThen(w, p, w1, After(w1, p, Normal));
  }

  lemma LeavesMutex(w: World, p: ProcId, next: Next)
    requires AtStage(w, p, Leaving(next)) && w.mutex == Some(Some(w.procs[p].token))
    ensures var next := Arrive(w.procs[p], next); Reaches(w, p, Moved(w, p, w.lock, None, next.stage, next.pass))
  {
    var w1 := After(w, p, Normal);
    Moves(w, p);
    Moves(w1, p);
    var next := Arrive(w.procs[p], next);
    assert After(w1, p, Normal) == Moved(w, p, w.lock, None, next.stage, next.pass);
    ReachesThen(w, p, w1, After(w1, p, Normal));
  }

  /** With the lock name free, the process publishes and holds. */
  lemma TakesFreeLock(w: World, p: ProcId)
    requires AtStage(w, p, Waiting(Publish, 0)) && w.mutex == None && w.lock == None
    ensures Reaches(w, p, Moved(w, p, Some(RecordOf(w.procs[p])), None, Holding, w.procs[p].pass))
  {
    var me := w.procs[p];
    var w1 := Moved(w, p, None, Some(Some(me.token)), Inside(Publish), me.pass);
    EntersMutex(w, p, Publish);
    var w2 := After(w1, p, Normal);
    Moves(w1, p);
    assert w2 == Moved(w, p, Some(RecordOf(me)), Some(Some(me.token)), Leaving(ToHold), me.pass);
    LeavesMutex(w2, p, ToHold);
    ReachesThen(w, p, w1, w2);
    ReachesThen(w, p, w2, Moved(w, p, Some(RecordOf(me)), None, Holding, me.pass));
  }

  /** Nobody the contender can see is running under the recorded identity. */
  predicate LooksStale(w: World, p: ProcId, t: Text)
    requires p in w.procs
  {
    t.Record? ==> t.pid == 0 || t.pid == w.procs[p].pid || !PidAlive(w, t.pid) || RunsAnother(w, t.pid, t.cmd)
  }

  lemma {:induction false} Reads(w: World, p: ProcId, tries: nat)
    requires AtStage(w, p, Contending(tries)) && w.lock.Some? && tries <= RECHECK_PASSES
    ensures Reaches(w, p, Moved(w, p, w.lock, w.mutex, Judging(w.lock), w.procs[p].pass))
    decreases RECHECK_PASSES - tries
  {
    var w1 := After(w, p, Normal);
    Moves(w, p);
    if w.lock.value.Record? || tries == RECHECK_PASSES {
      assert w1 == Moved(w, p, w.lock, w.mutex, Judging(w.lock), w.procs[p].pass);
    } else {
      Reads(w1, p, tries + 1);
      assert Moved(w1, p, w1.lock, w1.mutex, Judging(w1.lock), w1.procs[p].pass)
             == Moved(w, p, w.lock, w.mutex, Judging(w.lock), w.procs[p].pass);
      ReachesThen(w, p, w1, Moved(w, p, w.lock, w.mutex, Judging(w.lock), w.procs[p].pass));
    }
  }

  lemma JudgesStale(w: World, p: ProcId)
    requires w.lock.Some? && AtStage(w, p, Judging(w.lock)) && LooksStale(w, p, w.lock.value)
    ensures Reaches(w, p, Moved(w, p, w.lock, w.mutex, Waiting(Break(w.lock), 0), w.procs[p].pass))
  {
    var target := Moved(w, p, w.lock, w.mutex, Waiting(Break(w.lock), 0), w.procs[p].pass);
    var w1 := After(w, p, Normal);
    Moves(w, p);
    JudgedSteps(w, p);
    hide Reaches; hide Turn; hide LooksStale; hide PidAlive; hide RunsAnother;
    if w1.procs[p].stage.Describing? {
      Moves(w1, p);
      ReachesThen(w, p, w1, target);
    }
  }

  /** One look at the process table, and where the pid runs, a second at its command line. */
  lemma JudgedSteps(w: World, p: ProcId)
    requires w.lock.Some? && AtStage(w, p, Judging(w.lock)) && LooksStale(w, p, w.lock.value)
    ensures var target := Moved(w, p, w.lock, w.mutex, Waiting(Break(w.lock), 0), w.procs[p].pass);
            var w1 := After(w, p, Normal);
            Running(w1, p) && if w1.procs[p].stage.Describing? then After(w1, p, Normal) == target else w1 == target
  {
    var w1 := After(w, p, Normal);
    if w1.procs[p].stage.Describing? {
      var r := w.lock.value;
      var q :| q in w.procs && w.procs[q].alive && w.procs[q].pid == r.pid && w.procs[q].cmd != r.cmd;
      assert w1.procs[q].alive && w1.procs[q].pid == r.pid && w1.procs[q].cmd != r.cmd;
      assert RunsAnother(w1, r.pid, r.cmd);
    }
  }

  lemma ToContention(w: World, p: ProcId)
    requires AtStage(w, p, Waiting(Publish, 0)) && w.mutex == None && w.lock.Some?
    ensures Reaches(w, p, Moved(w, p, w.lock, None, Contending(0), w.procs[p].pass))
  {
    var me := w.procs[p];
    var w1 := Moved(w, p, w.lock, Some(Some(me.token)), Inside(Publish), me.pass);
    EntersMutex(w, p, Publish);
    var w2 := After(w1, p, Normal);
    Moves(w1, p);
    assert w2 == Moved(w, p, w.lock, Some(Some(me.token)), Leaving(ToContend), me.pass);
    LeavesMutex(w2, p, ToContend);
    ReachesThen(w, p, w1, w2);
    ReachesThen(w, p, w2, Moved(w, p, w.lock, None, Contending(0), me.pass));
  }

  lemma Breaks(w: World, p: ProcId)
    requires w.lock.Some? && AtStage(w, p, Waiting(Break(w.lock), 0)) && w.mutex == None && w.procs[p].pass < BREAK_PASSES
    ensures Reaches(w, p, Moved(w, p, None, None, Waiting(Publish, 0), w.procs[p].pass + 1))
  {
    hide After; hide Turn; hide Moved; hide Reaches;
    var me := w.procs[p];
    var held := Some(Some(me.token));
    var w1 := Moved(w, p, w.lock, held, Inside(Break(w.lock)), me.pass);
    MovedFacts(w, p, w.lock, held, Inside(Break(w.lock)), me.pass);
    EntersMutex(w, p, Break(w.lock));
    var w2 := Moved(w, p, w.lock, held, Unlinking(w.lock), me.pass);
    MovedFacts(w, p, w.lock, held, Unlinking(w.lock), me.pass);
    FindsStaleText(w1, p);
    MovedTwice(w, p, w1, w.lock, held, Unlinking(w.lock), me.pass);
    var w3 := Moved(w, p, None, held, Leaving(ToRetry), me.pass);
    MovedFacts(w, p, None, held, Leaving(ToRetry), me.pass);
    Unlinks(w2, p);
    MovedTwice(w, p, w2, None, held, Leaving(ToRetry), me.pass);
    LeavesMutex(w3, p, ToRetry);
    MovedTwice(w, p, w3, None, None, Waiting(Publish, 0), me.pass + 1);
    ReachesThen(w, p, w1, w2);
    ReachesThen(w, p, w2, w3);
    ReachesThen(w, p, w3, Moved(w, p, None, None, Waiting(Publish, 0), me.pass + 1));
  }

  lemma FindsStaleText(w: World, p: ProcId)
    requires w.lock.Some? && AtStage(w, p, Inside(Break(w.lock)))
    ensures Reaches(w, p, Moved(w, p, w.lock, w.mutex, Unlinking(w.lock), w.procs[p].pass))
  {
    Moves(w, p);
    assert After(w, p, Normal) == Moved(w, p, w.lock, w.mutex, Unlinking(w.lock), w.procs[p].pass);
  }

  lemma Unlinks(w: World, p: ProcId)
    requires w.lock.Some? && AtStage(w, p, Unlinking(w.lock))
    ensures Reaches(w, p, Moved(w, p, None, w.mutex, Leaving(ToRetry), w.procs[p].pass))
  {
    Moves(w, p);
    assert After(w, p, Normal) == Moved(w, p, None, w.mutex, Leaving(ToRetry), w.procs[p].pass);
  }

  /**
   The other side of the guard: a lock whose owner is gone, or whose pid now belongs to some
   other program, does not wedge the next boot. Left alone, the process takes it over.
   */
  lemma StaleLockIsTakenOver(w: World, p: ProcId)
    requires AtStage(w, p, Idle) && w.procs[p].pass == 0 && w.mutex == None
    requires w.lock.Some? ==> LooksStale(w, p, w.lock.value)
    ensures exists w' :: Reaches(w, p, w') && HoldsLock(w', p)
  {
    var w0 := Moved(w, p, w.lock, None, Waiting(Publish, 0), 0);
    Moves(w, p);
    assert After(w, p, Normal) == w0;
    hide After; hide Turn;
    if w.lock == None {
      TakesFreeLock(w0, p);
      ReachesThen(w, p, w0, Moved(w0, p, Some(RecordOf(w0.procs[p])), None, Holding, 0));
    } else {
      var w3 := Moved(w, p, w.lock, None, Waiting(Break(w.lock), 0), 0);
      ReachesJudgement(w, w0, p);
      var w4 := Moved(w, p, None, None, Waiting(Publish, 0), 1);
      Breaks(w3, p);
      assert Moved(w3, p, None, None, Waiting(Publish, 0), 1) == w4;
      TakesFreeLock(w4, p);
      var w5 := Moved(w4, p, Some(RecordOf(w4.procs[p])), None, Holding, 1);
      assert HoldsLock(w5, p);
      hide Moved;
      ReachesThen(w, p, w0, w3);
      ReachesThen(w, p, w3, w4);
      ReachesThen(w, p, w4, w5);
    }
  }

  /** From the first attempt to the text the process will judge. */
  lemma ReachesJudging(w: World, w0: World, p: ProcId)
    requires Running(w, p) && w.mutex == None && w.lock.Some? && w0 == Moved(w, p, w.lock, None, Waiting(Publish, 0), 0)
    ensures Reaches(w0, p, Moved(w, p, w.lock, None, Judging(w.lock), 0))
  {
    hide After; hide Turn;
    var w1 := Moved(w, p, w.lock, None, Contending(0), 0);
    ToContention(w0, p);
    MovedTwice(w, p, w0, w.lock, None, Contending(0), 0);
    Reads(w1, p, 0);
    MovedTwice(w, p, w1, w.lock, None, Judging(w.lock), 0);
    ReachesThen(w0, p, w1, Moved(w, p, w.lock, None, Judging(w.lock), 0));
  }

  /** From the first attempt to the judgement that the lock is stale. */
  lemma ReachesJudgement(w: World, w0: World, p: ProcId)
    requires Running(w, p) && w.mutex == None && w.lock.Some? && LooksStale(w, p, w.lock.value)
    requires w0 == Moved(w, p, w.lock, None, Waiting(Publish, 0), 0)
    ensures Reaches(w0, p, Moved(w, p, w.lock, None, Waiting(Break(w.lock), 0), 0))
  {
    hide After; hide Turn;
    var w2 := Moved(w, p, w.lock, None, Judging(w.lock), 0);
    ReachesJudging(w, w0, p);
    StillStale(w, w2, p);
    JudgesStale(w2, p);
    MovedTwice(w, p, w2, w.lock, None, Waiting(Break(w.lock), 0), 0);
    hide LooksStale;
    ReachesThen(w0, p, w2, Moved(w, p, w.lock, None, Waiting(Break(w.lock), 0), 0));
  }

  lemma StillStale(w: World, w': World, p: ProcId)
    requires Running(w, p) && p in w'.procs && w' == Moved(w, p, w'.lock, w'.mutex, w'.procs[p].stage, w'.procs[p].pass)
    requires w.lock.Some? && LooksStale(w, p, w.lock.value)
    ensures LooksStale(w', p, w.lock.value)
  {
    var t := w.lock.value;
    if t.Record? && RunsAnother(w, t.pid, t.cmd) {
      var q :| q in w.procs && w.procs[q].alive && w.procs[q].pid == t.pid && w.procs[q].cmd != t.cmd;
      assert w'.procs[q].alive && w'.procs[q].pid == t.pid && w'.procs[q].cmd != t.cmd;
    }
  }

  // ---------- a release gives the lock up ----------

  lemma ReleaseSteps(w: World, p: ProcId)
    requires AtStage(w, p, Holding) && w.lock == Some(RecordOf(w.procs[p]))
    ensures Apply(Apply(w, Release(p, Normal)), Step(p, Normal)) == Moved(w, p, None, w.mutex, Done, w.procs[p].pass)
  {
    var w1 := Moved(w, p, w.lock, w.mutex, Releasing, w.procs[p].pass);
    assert Apply(w, Release(p, Normal)) == w1;
  }

  /** Who holds and releases, undisturbed, takes its record away and nothing else. */
  lemma ReleaseFreesTheLock(w0: World, actions: seq<Action>, p: ProcId)
    requires Init(w0) && AtStage(Run(w0, actions), p, Holding)
    ensures var w := Run(w0, actions);
            Apply(Apply(w, Release(p, Normal)), Step(p, Normal)) == Moved(w, p, None, w.mutex, Done, w.procs[p].pass)
  {
    var w := Run(w0, actions);
    hide Apply; hide Run;
    OnlyTheHolderRemovesItsRecord(w0, actions, p, Release(p, Normal));
    ReleaseSteps(w, p);
  }

  /** However long the step takes and whatever happens before it, the file is then still the releaser's record, and goes. */
  lemma ReleasingRemovesItsRecord(w0: World, actions: seq<Action>, p: ProcId)
    requires Init(w0) && AtStage(Run(w0, actions), p, Releasing)
    ensures var w := Run(w0, actions);
            w.lock == Some(RecordOf(w.procs[p])) && Apply(w, Step(p, Normal)).lock == None
            && AtStage(Apply(w, Step(p, Normal)), p, Done)
  {
    RunInv(w0, actions);
    assert HoldsLock(Run(w0, actions), p);
  }

  /** A release that finds somebody else's record, or none, leaves the file alone for good. */
  lemma ForeignRecordIsLeft(w: World, p: ProcId, c: Chance, d: Chance)
    requires AtStage(w, p, Holding) && !(Legible(w.lock) && w.lock.value.token == w.procs[p].token)
    ensures Apply(w, Release(p, c)) == Moved(w, p, w.lock, w.mutex, Done, w.procs[p].pass)
    ensures Apply(Apply(w, Release(p, c)), Step(p, d)) == Apply(w, Release(p, c))
  {
  }

  /** After a release the next boot takes the lock, though the process that gave it up lives on. */
  lemma ReleasedLockIsTaken(w0: World, actions: seq<Action>, p: ProcId, q: ProcId)
    requires Init(w0) && AtStage(Run(w0, actions), p, Holding) && Run(w0, actions).mutex == None
    requires AtStage(Run(w0, actions), q, Idle) && Run(w0, actions).procs[q].pass == 0
    ensures var w := Apply(Apply(Run(w0, actions), Release(p, Normal)), Step(p, Normal));
            Running(w, p) && exists w' :: Reaches(w, q, w') && HoldsLock(w', q)
  {
    ReleaseFreesTheLock(w0, actions, p);
    hide Run; hide Apply;
    StaleLockIsTakenOver(Apply(Apply(Run(w0, actions), Release(p, Normal)), Step(p, Normal)), q);
  }

  /** Some other live process runs under the recorded pid, and every process under it has the recorded command line. */
  predicate LooksLive(w: World, p: ProcId, t: Text)
    requires p in w.procs
  {
    t.Record? && t.pid > 0 && t.pid != w.procs[p].pid && PidAlive(w, t.pid) && !RunsAnother(w, t.pid, t.cmd)
  }

  lemma MovedLooksTheSame(w: World, p: ProcId, w': World, t: Text)
    requires Running(w, p) && p in w'.procs && w' == Moved(w, p, w'.lock, w'.mutex, w'.procs[p].stage, w'.procs[p].pass)
    requires LooksLive(w, p, t)
    ensures LooksLive(w', p, t)
  {
    var q :| q in w.procs && w.procs[q].alive && w.procs[q].pid == t.pid;
    assert w'.procs[q].alive && w'.procs[q].pid == t.pid;
    assert forall r | r in w'.procs :: r in w.procs && w'.procs[r].alive == w.procs[r].alive
                                       && w'.procs[r].pid == w.procs[r].pid && w'.procs[r].cmd == w.procs[r].cmd;
  }

  lemma JudgesLive(w: World, p: ProcId)
    requires w.lock.Some? && AtStage(w, p, Judging(w.lock)) && LooksLive(w, p, w.lock.value)
    ensures Reaches(w, p, Moved(w, p, w.lock, w.mutex, Threw, w.procs[p].pass))
  {
    var w1 := Moved(w, p, w.lock, w.mutex, Describing(w.lock), w.procs[p].pass);
    Moves(w, p);
    assert After(w, p, Normal) == w1;
    MovedLooksTheSame(w, p, w1, w.lock.value);
    Moves(w1, p);
    assert After(w1, p, Normal) == Moved(w, p, w.lock, w.mutex, Threw, w.procs[p].pass);
    ReachesThen(w, p, w1, After(w1, p, Normal));
  }

  /** A second boot against a live holder throws and leaves the lock as it is. */
  lemma LiveLockRefusesTheBoot(w: World, p: ProcId)
    requires AtStage(w, p, Idle) && w.procs[p].pass == 0 && w.mutex == None
    requires w.lock.Some? && LooksLive(w, p, w.lock.value)
    ensures Reaches(w, p, Moved(w, p, w.lock, None, Threw, 0))
  {
    var w0 := Moved(w, p, w.lock, None, Waiting(Publish, 0), 0);
    Moves(w, p);
    assert After(w, p, Normal) == w0;
    hide After; hide Turn;
    var w2 := Moved(w, p, w.lock, None, Judging(w.lock), 0);
    ReachesJudging(w, w0, p);
    MovedLooksTheSame(w, p, w2, w.lock.value);
    JudgesLive(w2, p);
    MovedTwice(w, p, w2, w.lock, None, Threw, 0);
    hide Moved; hide LooksLive;
    ReachesThen(w, p, w0, w2);
    ReachesThen(w, p, w2, Moved(w, p, w.lock, None, Threw, 0));
  }

  /** So it is with every lock a live process of ours holds in a run. */
  lemma HolderRefusesTheBoot(w0: World, actions: seq<Action>, p: ProcId, q: ProcId)
    requires Init(w0) && HoldsLock(Run(w0, actions), p) && Run(w0, actions).mutex == None
    requires AtStage(Run(w0, actions), q, Idle) && Run(w0, actions).procs[q].pass == 0
    ensures var w := Run(w0, actions); Reaches(w, q, Moved(w, q, w.lock, None, Threw, 0))
  {
    var w := Run(w0, actions);
    RunInv(w0, actions);
    assert w.lock == Some(RecordOf(w.procs[p])) && Running(w, p) && p != q;
    assert LooksLive(w, q, w.lock.value);
    hide Inv; hide LooksLive; hide Run;
    LiveLockRefusesTheBoot(w, q);
  }

  // ---------- how patient a boot is ----------

  /** While somebody else keeps the mutex file, a process tries 50 times and then throws. */
  lemma {:induction false} MutexIsWaitedFor(w: World, p: ProcId, goal: Goal, n: nat)
    requires AtStage(w, p, Waiting(goal, 0)) && w.mutex.Some? && n <= MUTEX_WAIT_PASSES
    ensures Solo(w, p, n) == Moved(w, p, w.lock, w.mutex, if n < 50 then Waiting(goal, n) else Threw, w.procs[p].pass)
  {
    if n > 0 { MutexIsWaitedFor(w, p, goal, n - 1); }
  }

  /** A lock that cannot be read is read 11 times before it is judged: its owner may be writing it. */
  lemma {:induction false} IllegibleIsReread(w: World, p: ProcId, n: nat)
    requires AtStage(w, p, Contending(0)) && !Legible(w.lock) && n <= 11
    ensures Solo(w, p, n) == Moved(w, p, w.lock, w.mutex, if n < 11 then Contending(n) else Judging(w.lock), w.procs[p].pass)
  {
    if n > 0 { IllegibleIsReread(w, p, n - 1); }
  }
}
