/**
 The single-instance lock file: any number of processes that start, take the lock, crash,
 have their pids handed on, break stale locks and release. One action is one file-system
 call or one look at a process, so every interleaving of the calls is a run.
 */
module InstanceLock {
  import opened Common

  type Pid = nat
  type Cmd = string
  type Token = string
  type ProcId = nat            // a process for good, unlike its pid

  const BREAK_PASSES := 5
  const MUTEX_WAIT_PASSES := 50
  const RECHECK_PASSES := 10

  /** The contents of the lock file. */
  datatype Text = Blank | Junk(bytes: string) | Record(pid: Pid, cmd: Cmd, token: Token)

  datatype Goal = Publish | Break(seen: Option<Text>)

  /** Where a mutex section returns to. */
  datatype Next = ToHold | ToContend | ToRetry | ToThrow

  datatype Stage =
    | Idle
    | Waiting(goal: Goal, attempts: nat)   // trying to create the mutex file
    | Opened(goal: Goal)                   // created it, its token not yet written
    | Inside(goal: Goal)
    | Writing                              // created the lock file without a hard link; it is empty
    | Unlinking(seen: Option<Text>)        // under the mutex, found the stale text still there
    | Leaving(next: Next)
    | LeavingChecked(next: Next)           // read its own token in the mutex file
    | Contending(tries: nat)
    | Judging(seen: Option<Text>)
    | Describing(seen: Option<Text>)
    | Holding
    | Releasing                            // read its own token in the lock file
    | Done
    | Threw

  datatype Proc = Proc(pid: Pid, cmd: Cmd, token: Token, alive: bool, pass: nat, stage: Stage)

  /** `mutex` is absent, created but empty, or holds a token; `issued` collects every token there has been. */
  datatype World = World(lock: Option<Text>, mutex: Option<Option<Token>>, issued: set<Token>, procs: map<ProcId, Proc>)

  /** What the file system and /proc do: no hard links on the mount, an unreadable command line, a failing call. */
  datatype Chance = Normal | NoHardLinks | Blind | Fault

  datatype Action =
    | Spawn(p: ProcId, pid: Pid, cmd: Cmd, token: Token)
    | Step(p: ProcId, chance: Chance)
    | Release(p: ProcId, chance: Chance)
    | Crash(p: ProcId)

  function RecordOf(p: Proc): Text {
    Record(p.pid, p.cmd, p.token)
  }

  predicate PidAlive(w: World, pid: Pid) {
    exists p :: p in w.procs && w.procs[p].alive && w.procs[p].pid == pid
  }

  /** Some live process runs under `pid`, and not the command line `cmd`. */
  predicate RunsAnother(w: World, pid: Pid, cmd: Cmd) {
    exists p :: p in w.procs && w.procs[p].alive && w.procs[p].pid == pid && w.procs[p].cmd != cmd
  }

  // ---------- the steps ----------

  function Arrive(p: Proc, next: Next): Proc {
    match next
    case ToHold => p.(stage := Holding)
    case ToContend => p.(stage := Contending(0))
    case ToRetry => if p.pass >= BREAK_PASSES then p.(stage := Threw) else p.(pass := p.pass + 1, stage := Waiting(Publish, 0))
    case ToThrow => p.(stage := Threw)
  }

  predicate Legible(seen: Option<Text>) {
    seen.Some? && seen.value.Record?
  }

  /** What one step of a process leaves: the lock file, the mutex file and the process. */
  function Turn(w: World, p: Proc, c: Chance): (Option<Text>, Option<Option<Token>>, Proc) {
    match p.stage
    case Idle => (w.lock, w.mutex, p.(stage := Waiting(Publish, 0)))
    case Waiting(goal, attempts) =>
      if c == Fault then (w.lock, w.mutex, p.(stage := Threw))
      else if w.mutex == None then (w.lock, Some(None), p.(stage := Opened(goal)))
      else (w.lock, w.mutex, p.(stage := if attempts + 1 >= MUTEX_WAIT_PASSES then Threw else Waiting(goal, attempts + 1)))
    case Opened(goal) =>
      if c == Fault then (w.lock, w.mutex, p.(stage := Threw))
      else (w.lock, Some(Some(p.token)), p.(stage := Inside(goal)))
    case Inside(Publish) =>
      if c == Fault then (w.lock, w.mutex, p.(stage := Leaving(ToThrow)))
      else if w.lock.Some? then (w.lock, w.mutex, p.(stage := Leaving(ToContend)))
      else if c == NoHardLinks then (Some(Blank), w.mutex, p.(stage := Writing))
      else (Some(RecordOf(p)), w.mutex, p.(stage := Leaving(ToHold)))
    case Writing =>
      if c == Fault then (w.lock, w.mutex, p.(stage := Leaving(ToThrow)))
      else (if w.lock == Some(Blank) then Some(RecordOf(p)) else w.lock, w.mutex, p.(stage := Leaving(ToHold)))
    case Inside(Break(seen)) =>
      (w.lock, w.mutex, p.(stage := if c != Fault && w.lock.Some? && w.lock == seen then Unlinking(seen) else Leaving(ToRetry)))
    case Unlinking(_) => (if c == Fault then w.lock else None, w.mutex, p.(stage := Leaving(ToRetry)))
    case Leaving(next) =>
      (w.lock, w.mutex, if c != Fault && w.mutex == Some(Some(p.token)) then p.(stage := LeavingChecked(next)) else Arrive(p, next))
    case LeavingChecked(next) => (w.lock, if c == Fault then w.mutex else None, Arrive(p, next))
    case Contending(tries) =>
      var seen := if c == Fault then None else w.lock;
      (w.lock, w.mutex, p.(stage := if Legible(seen) || tries >= RECHECK_PASSES then Judging(seen) else Contending(tries + 1)))
    case Judging(seen) =>
      var inUse := Legible(seen) && seen.value.pid > 0 && PidAlive(w, seen.value.pid) && seen.value.pid != p.pid;
      (w.lock, w.mutex, p.(stage := if inUse then Describing(seen) else Waiting(Break(seen), 0)))
    case Describing(seen) =>
      var reused := c != Blind && Legible(seen) && RunsAnother(w, seen.value.pid, seen.value.cmd);
      (w.lock, w.mutex, p.(stage := if reused then Waiting(Break(seen), 0) else Threw))
    case Releasing => (if c == Fault then w.lock else None, w.mutex, p.(stage := Done))
    case _ => (w.lock, w.mutex, p)
  }

  predicate Running(w: World, p: ProcId) {
    p in w.procs && w.procs[p].alive
  }

  function After(w: World, p: ProcId, c: Chance): World
    requires p in w.procs
  {
    var (lock, mutex, proc) := Turn(w, w.procs[p], c);
    World(lock, mutex, w.issued, w.procs[p := proc])
  }

  predicate MaySpawn(w: World, p: ProcId, pid: Pid, token: Token) {
    p !in w.procs && pid > 0 && !PidAlive(w, pid) && token !in w.issued
  }

  /** One action; an action that is not enabled changes nothing. */
  function Apply(w: World, a: Action): World {
    match a
    case Spawn(p, pid, cmd, token) =>
      if MaySpawn(w, p, pid, token)
      then w.(issued := w.issued + {token}, procs := w.procs[p := Proc(pid, cmd, token, true, 0, Idle)]) else w
    case Step(p, c) => if Running(w, p) then After(w, p, c) else w
    case Release(p, c) =>
      if Running(w, p) && w.procs[p].stage == Holding then
        var mine := c != Fault && w.lock.Some? && w.lock.value.Record? && w.lock.value.token == w.procs[p].token;
        w.(procs := w.procs[p := w.procs[p].(stage := if mine then Releasing else Done)])
      else w
    case Crash(p) => if Running(w, p) then w.(procs := w.procs[p := w.procs[p].(alive := false)]) else w
  }

  /** No process of ours yet; the files may be left over from before. */
  predicate Init(w: World) {
    w.procs == map[] && (w.lock.Some? && w.lock.value.Record? ==> w.lock.value.token in w.issued)
  }

  function Run(w: World, actions: seq<Action>): World {
    if actions == [] then w else Apply(Run(w, actions[..|actions| - 1]), actions[|actions| - 1])
  }

  // ---------- the invariant ----------

  predicate InMutex(s: Stage) {
    s.Opened? || s.Inside? || s.Writing? || s.Unlinking? || s.Leaving? || s.LeavingChecked?
  }

  /** From the moment its record is in place until it is taken away. */
  predicate Owns(s: Stage) {
    s == Leaving(ToHold) || s == LeavingChecked(ToHold) || s == Holding || s == Releasing
  }

  predicate Published(s: Stage) {
    Owns(s) || s == Done
  }

  predicate HoldsLock(w: World, p: ProcId) {
    Running(w, p) && Owns(w.procs[p].stage)
  }

  function Judged(s: Stage): Option<Text> {
    match s
    case Waiting(Break(seen), _) => seen
    case Opened(Break(seen)) => seen
    case Inside(Break(seen)) => seen
    case Unlinking(seen) => seen
    case _ => None
  }

  /** The text a process has in hand, judged or not. */
  function InHand(s: Stage): Option<Text> {
    match s
    case Judging(seen) => seen
    case Describing(seen) => seen
    case _ => Judged(s)
  }

  /** A record bears an issued token; if one of our processes wrote it, it is that process's record. */
  predicate TextOk(w: World, t: Option<Text>) {
    Legible(t) ==> t.value.token in w.issued && forall q | q in w.procs :: WroteIt(w.procs[q], t.value)
  }

  predicate WroteIt(q: Proc, t: Text) {
    t.Record? && q.token == t.token ==> t == RecordOf(q) && Published(q.stage)
  }

  /** Whoever wrote the record is gone. */
  predicate Stale(w: World, t: Option<Text>) {
    Legible(t) ==> forall q | q in w.procs && w.procs[q].alive :: w.procs[q].token != t.value.token
  }

  ghost predicate Identities(w: World) {
    && (forall p | p in w.procs :: w.procs[p].token in w.issued && w.procs[p].pid > 0)
    && (forall p, q | p in w.procs && q in w.procs && p != q :: w.procs[p].token != w.procs[q].token)
    && (forall p, q | Running(w, p) && Running(w, q) && p != q :: w.procs[p].pid != w.procs[q].pid)
  }

  ghost predicate MutexOk(w: World) {
    && (forall p | p in w.procs && InMutex(w.procs[p].stage) ::
          w.mutex == Some(if w.procs[p].stage.Opened? then None else Some(w.procs[p].token)))
    && (forall p, q | p in w.procs && q in w.procs && InMutex(w.procs[p].stage) && InMutex(w.procs[q].stage) :: p == q)
  }

  ghost predicate TextsOk(w: World) {
    && TextOk(w, w.lock)
    && (forall p | p in w.procs :: TextOk(w, InHand(w.procs[p].stage)))
    && (forall p | p in w.procs :: Stale(w, Judged(w.procs[p].stage)))
  }

  ghost predicate LockOk(w: World) {
    && (forall p | HoldsLock(w, p) :: w.lock == Some(RecordOf(w.procs[p])))
    && (forall p | Running(w, p) && w.procs[p].stage == Writing :: w.lock == Some(Blank))
    && (forall p | Running(w, p) && w.procs[p].stage.Unlinking? :: w.lock == None || w.lock == w.procs[p].stage.seen)
  }

  ghost predicate Inv(w: World) {
    Identities(w) && MutexOk(w) && TextsOk(w) && LockOk(w)
  }

  // ---------- every step keeps it ----------

  lemma TurnSame(w: World, p: Proc, c: Chance)
    ensures var p' := Turn(w, p, c).2; p'.pid == p.pid && p'.cmd == p.cmd && p'.token == p.token && p'.alive == p.alive
    ensures Published(p.stage) ==> Published(Turn(w, p, c).2.stage)
  {
  }

  lemma StepIdentities(w: World, p: ProcId, c: Chance)
    requires Inv(w) && Running(w, p)
    ensures Identities(After(w, p, c))
  {
    TurnSame(w, w.procs[p], c);
    hide Turn;
  }

  /** Who is in the mutex section before and after a step, and the mutex file then. */
  lemma TurnMutex(w: World, p: Proc, c: Chance)
    ensures var (_, mutex, p') := Turn(w, p, c);
            && (!InMutex(p.stage) && !InMutex(p'.stage) ==> mutex == w.mutex)
            && (!InMutex(p.stage) && InMutex(p'.stage) ==> w.mutex == None && mutex == Some(None) && p'.stage.Opened?)
            && (InMutex(p.stage) && InMutex(p'.stage) ==>
                  mutex == (if p.stage.Opened? then Some(Some(p.token)) else w.mutex) && !p'.stage.Opened?)
  {
  }

  lemma StepMutex(w: World, p: ProcId, c: Chance)
    requires MutexOk(w) && Running(w, p)
    ensures MutexOk(After(w, p, c))
  {
    TurnMutex(w, w.procs[p], c);
    TurnSame(w, w.procs[p], c);
    hide Turn; hide InMutex;
  }

  /** The lock file afterwards: as it was, gone, empty, or the stepping process's own record. */
  lemma TurnLock(w: World, p: ProcId, c: Chance)
    requires Running(w, p)
    ensures var w' := After(w, p, c);
            w'.lock == w.lock || w'.lock == None || w'.lock == Some(Blank)
            || (w'.lock == Some(RecordOf(w.procs[p])) && Owns(w'.procs[p].stage))
  {
  }

  /** A process has in hand what it had, nothing, or the text it just read. */
  lemma TurnInHand(w: World, p: ProcId, c: Chance)
    requires Running(w, p)
    ensures var t := InHand(After(w, p, c).procs[p].stage); t == InHand(w.procs[p].stage) || t == None || t == w.lock
  {
  }

  /** Processes keep their identity, stay dead, and never un-publish; new ones bring new tokens. */
  ghost predicate Carries(w: World, w': World) {
    && w.issued <= w'.issued
    && forall q | q in w'.procs :: if q in w.procs then SameProc(w.procs[q], w'.procs[q]) else w'.procs[q].token !in w.issued
  }

  predicate SameProc(q: Proc, q': Proc) {
    && q'.pid == q.pid && q'.cmd == q.cmd && q'.token == q.token
    && (q'.alive ==> q.alive) && (Published(q.stage) ==> Published(q'.stage))
  }

  lemma TextCarries(w: World, w': World, t: Option<Text>)
    requires Carries(w, w') && TextOk(w, t)
    ensures TextOk(w', t) && (Stale(w, t) ==> Stale(w', t))
  {
    hide Published;
    if Legible(t) {
      forall q | q in w'.procs ensures WroteIt(w'.procs[q], t.value) {
        if q in w.procs { assert WroteIt(w.procs[q], t.value) && SameProc(w.procs[q], w'.procs[q]); }
      }
    }
  }

  lemma InHandCarries(w: World, w': World, p: ProcId)
    requires TextsOk(w) && Carries(w, w') && p in w.procs && p in w'.procs && w'.procs[p].stage == w.procs[p].stage
    ensures TextOk(w', InHand(w'.procs[p].stage)) && Stale(w', Judged(w'.procs[p].stage))
  {
    var stage := w.procs[p].stage;
    TextCarries(w, w', InHand(stage));
    assert Judged(stage) == None || Judged(stage) == InHand(stage);
    hide Judged; hide InHand;
  }

  lemma StepCarries(w: World, p: ProcId, c: Chance)
    requires Running(w, p)
    ensures Carries(w, After(w, p, c))
  {
    TurnSame(w, w.procs[p], c);
    hide Turn; hide Published;
  }

  lemma StepTexts(w: World, p: ProcId, c: Chance)
    requires Inv(w) && Running(w, p)
    ensures TextsOk(After(w, p, c))
  {
    StepCarries(w, p, c);
    TurnLock(w, p, c);
    TurnInHand(w, p, c);
    JudgedStale(w, p, c);
    var w' := After(w, p, c);
    assert w'.lock == Some(RecordOf(w.procs[p])) ==> TextOk(w', w'.lock) || w'.lock == w.lock;
    hide Turn; hide After; hide InHand; hide Judged; hide Owns; hide Carries; hide Identities; hide MutexOk; hide LockOk;
    TextCarries(w, w', w.lock);
    TextCarries(w, w', InHand(w.procs[p].stage));
    forall q | q in w'.procs && q != p ensures TextOk(w', InHand(w'.procs[q].stage)) && Stale(w', Judged(w'.procs[q].stage)) {
      assert q in w.procs && w'.procs[q] == w.procs[q] by { OthersStay(w, p, c, q); }
      InHandCarries(w, w', q);
    }
  }

  lemma OthersStay(w: World, p: ProcId, c: Chance, q: ProcId)
    requires Running(w, p) && q != p && q in After(w, p, c).procs
    ensures q in w.procs && After(w, p, c).procs[q] == w.procs[q]
  {
  }

  /** A text is judged stale only when its writer is gone. */
  lemma JudgedStale(w: World, p: ProcId, c: Chance)
    requires Inv(w) && Running(w, p)
    ensures Stale(After(w, p, c), Judged(After(w, p, c).procs[p].stage))
  {
    var me := w.procs[p];
    JudgedHow(w, p, c);
    StepCarries(w, p, c);
    hide Turn; hide MutexOk; hide LockOk; hide Carries; hide After;
    var stage := After(w, p, c).procs[p].stage;
    var t := Judged(stage);
    hide Judged; hide InHand;
    if Legible(t) {
      if t == Judged(me.stage) {
        assert TextOk(w, InHand(me.stage)) by { hide Stale; }
        TextCarries(w, After(w, p, c), t);
      } else {
        WriterGone(w, p, t.value);
        TextCarries(w, After(w, p, c), t);
      }
    }
  }

  /** A newly judged record came through one of the two tests. */
  lemma JudgedHow(w: World, p: ProcId, c: Chance)
    requires Running(w, p)
    ensures var t := Judged(After(w, p, c).procs[p].stage);
            Legible(t) ==> t == InHand(w.procs[p].stage)
                           && (t == Judged(w.procs[p].stage)
                               || (!Published(w.procs[p].stage)
                                   && (t.value.pid == 0 || t.value.pid == w.procs[p].pid || !PidAlive(w, t.value.pid)
                                       || RunsAnother(w, t.value.pid, t.value.cmd))))
  {
  }

  lemma WriterGone(w: World, p: ProcId, t: Text)
    requires t.Record? && Identities(w) && Running(w, p) && !Published(w.procs[p].stage) && TextOk(w, Some(t))
    requires t.pid == 0 || t.pid == w.procs[p].pid || !PidAlive(w, t.pid) || RunsAnother(w, t.pid, t.cmd)
    ensures Stale(w, Some(t))
  {
    forall q | Running(w, q) ensures w.procs[q].token != t.token {
      assert WroteIt(w.procs[q], t);
      if w.procs[q].token == t.token {
        assert t.pid == w.procs[q].pid && t.cmd == w.procs[q].cmd && q != p;
        assert PidAlive(w, t.pid);
      }
    }
  }

  lemma StepLock(w: World, p: ProcId, c: Chance)
    requires Inv(w) && Running(w, p)
    ensures LockOk(After(w, p, c))
  {
    var w' := After(w, p, c);
    forall q | HoldsLock(w', q) ensures w'.lock == Some(RecordOf(w'.procs[q])) {
      StepHolder(w, p, c, q);
    }
    forall q | Running(w', q) && w'.procs[q].stage == Writing ensures w'.lock == Some(Blank) {
      StepWriter(w, p, c, q);
    }
    forall q | Running(w', q) && w'.procs[q].stage.Unlinking? ensures w'.lock == None || w'.lock == w'.procs[q].stage.seen {
      StepUnlinker(w, p, c, q);
    }
  }

  lemma StepHolder(w: World, p: ProcId, c: Chance, q: ProcId)
    requires Inv(w) && Running(w, p) && HoldsLock(After(w, p, c), q)
    ensures After(w, p, c).lock == Some(RecordOf(w.procs[q]))
  {
    if p == q {
      StepSelf(w, p, c);
    } else {
      assert HoldsLock(w, q);
      StepOther(w, p, c, q);
    }
  }

  /** A process that holds after its own step has its record in place. */
  lemma StepSelf(w: World, p: ProcId, c: Chance)
    requires LockOk(w) && Running(w, p) && Owns(After(w, p, c).procs[p].stage)
    ensures After(w, p, c).lock == Some(RecordOf(w.procs[p]))
  {
    assert Owns(w.procs[p].stage) ==> HoldsLock(w, p);
  }

  /** Nobody else's step moves a holder's record. */
  lemma StepOther(w: World, p: ProcId, c: Chance, q: ProcId)
    requires Identities(w) && LockOk(w) && Running(w, p) && Stale(w, Judged(w.procs[p].stage)) && HoldsLock(w, q) && p != q
    ensures After(w, p, c).lock == w.lock == Some(RecordOf(w.procs[q]))
  {
    assert w.procs[p].stage == Releasing ==> HoldsLock(w, p);
    assert w.lock == Some(RecordOf(w.procs[q]));
    hide Identities;
  }

  lemma StepWriter(w: World, p: ProcId, c: Chance, q: ProcId)
    requires Inv(w) && Running(w, p) && Running(After(w, p, c), q) && After(w, p, c).procs[q].stage == Writing
    ensures After(w, p, c).lock == Some(Blank)
  {
    if p != q {
      assert Running(w, q) && InMutex(w.procs[q].stage) && !InMutex(w.procs[p].stage);
    }
  }

  lemma StepUnlinker(w: World, p: ProcId, c: Chance, q: ProcId)
    requires Inv(w) && Running(w, p) && Running(After(w, p, c), q) && After(w, p, c).procs[q].stage.Unlinking?
    ensures var w' := After(w, p, c); w'.lock == None || w'.lock == w'.procs[q].stage.seen
  {
    if p != q {
      assert Running(w, q) && InMutex(w.procs[q].stage) && !InMutex(w.procs[p].stage);
    }
  }

  /** A new, dead or releasing process disturbs no file. */
  lemma QuietKeeps(w: World, w': World, p: ProcId)
    requires Inv(w) && Carries(w, w') && Identities(w') && w'.lock == w.lock && w'.mutex == w.mutex
    requires p in w'.procs && w'.procs == w.procs[p := w'.procs[p]]
    requires if p in w.procs && !w'.procs[p].alive then w'.procs[p] == w.procs[p].(alive := false)
             else (w'.procs[p].stage == Idle || w'.procs[p].stage == Done
                   || (w'.procs[p].stage == Releasing && HoldsLock(w, p) && SameProc(w.procs[p], w'.procs[p])))
    ensures Inv(w')
  {
    hide TextsOk; hide LockOk; hide Identities; hide Carries; hide MutexOk; hide Owns; hide SameProc;
    QuietTexts(w, w', p);
    QuietLock(w, w', p);
    QuietMutex(w, w', p);
  }

  lemma QuietMutex(w: World, w': World, p: ProcId)
    requires MutexOk(w) && w'.mutex == w.mutex && p in w'.procs && w'.procs == w.procs[p := w'.procs[p]]
    requires (p in w.procs && w'.procs[p] == w.procs[p].(alive := false)) || !InMutex(w'.procs[p].stage)
    ensures MutexOk(w')
  {
  }

  lemma QuietTexts(w: World, w': World, p: ProcId)
    requires TextsOk(w) && Carries(w, w') && w'.lock == w.lock && p in w'.procs && w'.procs == w.procs[p := w'.procs[p]]
    requires (p in w.procs && w'.procs[p].stage == w.procs[p].stage) || InHand(w'.procs[p].stage) == None
    ensures TextsOk(w')
  {
    TextCarries(w, w', w.lock);
    assert Judged(w'.procs[p].stage) == None || Judged(w'.procs[p].stage) == InHand(w'.procs[p].stage);
    hide InHand; hide Judged; hide Carries; hide TextOk;
    forall q | q in w'.procs ensures TextOk(w', InHand(w'.procs[q].stage)) && Stale(w', Judged(w'.procs[q].stage)) {
      if q in w.procs && w'.procs[q].stage == w.procs[q].stage {
        InHandCarries(w, w', q);
      } else {
        NothingInHand(w');
      }
    }
  }

  lemma NothingInHand(w: World)
    ensures TextOk(w, None) && Stale(w, None)
  {
  }

  lemma QuietLock(w: World, w': World, p: ProcId)
    requires LockOk(w) && Carries(w, w') && w'.lock == w.lock && p in w'.procs && w'.procs == w.procs[p := w'.procs[p]]
    requires if p in w.procs && !w'.procs[p].alive then w'.procs[p] == w.procs[p].(alive := false)
             else (w'.procs[p].stage == Idle || w'.procs[p].stage == Done
                   || (w'.procs[p].stage == Releasing && HoldsLock(w, p) && SameProc(w.procs[p], w'.procs[p])))
    ensures LockOk(w')
  {
    forall q | HoldsLock(w', q) ensures w'.lock == Some(RecordOf(w'.procs[q])) { assert HoldsLock(w, q); }
  }

  lemma SpawnCarries(w: World, p: ProcId, pid: Pid, cmd: Cmd, token: Token)
    requires Identities(w) && MaySpawn(w, p, pid, token)
    ensures Carries(w, Apply(w, Spawn(p, pid, cmd, token))) && Identities(Apply(w, Spawn(p, pid, cmd, token)))
  {
    hide Published;
  }

  lemma SpawnKeeps(w: World, p: ProcId, pid: Pid, cmd: Cmd, token: Token)
    requires Inv(w) && MaySpawn(w, p, pid, token)
    ensures Inv(Apply(w, Spawn(p, pid, cmd, token)))
  {
    hide TextsOk; hide LockOk; hide MutexOk; hide Carries; hide Identities;
    SpawnCarries(w, p, pid, cmd, token);
    QuietKeeps(w, Apply(w, Spawn(p, pid, cmd, token)), p);
  }

  lemma ReleaseCarries(w: World, p: ProcId, c: Chance)
    requires Identities(w) && Running(w, p) && w.procs[p].stage == Holding
    ensures Carries(w, Apply(w, Release(p, c))) && Identities(Apply(w, Release(p, c)))
    ensures var stage := Apply(w, Release(p, c)).procs[p].stage; stage == Releasing || stage == Done
  {
  }

  lemma ReleaseKeeps(w: World, p: ProcId, c: Chance)
    requires Inv(w)
    ensures Inv(Apply(w, Release(p, c)))
  {
    hide TextsOk; hide LockOk; hide MutexOk; hide Carries; hide Identities;
    if Running(w, p) && w.procs[p].stage == Holding {
      ReleaseCarries(w, p, c);
      QuietKeeps(w, Apply(w, Release(p, c)), p);
    }
  }

  lemma CrashKeeps(w: World, p: ProcId)
    requires Inv(w)
    ensures Inv(Apply(w, Crash(p)))
  {
    if Running(w, p) {
      var w' := Apply(w, Crash(p));
      assert Carries(w, w') && Identities(w');
      hide TextsOk; hide LockOk; hide MutexOk;
      QuietKeeps(w, w', p);
    }
  }

  lemma ActionKeeps(w: World, a: Action)
    requires Inv(w)
    ensures Inv(Apply(w, a))
  {
    match a
    case Spawn(p, pid, cmd, token) => if MaySpawn(w, p, pid, token) { SpawnKeeps(w, p, pid, cmd, token); }
    case Step(p, c) =>
      if Running(w, p) {
        hide Turn; hide Identities; hide MutexOk; hide TextsOk; hide LockOk;
        StepIdentities(w, p, c);
        StepMutex(w, p, c);
        StepTexts(w, p, c);
        StepLock(w, p, c);
      }
    case Release(p, c) => ReleaseKeeps(w, p, c);
    case Crash(p) => CrashKeeps(w, p);
  }

  lemma {:induction false} RunInv(w: World, actions: seq<Action>)
    requires Init(w)
    ensures Inv(Run(w, actions))
  {
    if actions != [] {
      hide Inv; hide Apply;
      RunInv(w, actions[..|actions| - 1]);
      ActionKeeps(Run(w, actions[..|actions| - 1]), actions[|actions| - 1]);
    } else {
      assert Inv(w);
    }
  }
}
