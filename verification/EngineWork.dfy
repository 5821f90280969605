/** Work comes to an end: between requests, the threads can take only so many steps, and then every job is done. */
module EngineWork {
  import opened Engine
  import opened EngineInvariant
  import opened EngineProgress

  function Sum(ws: seq<WorkerPc>, fuel: WorkerPc -> nat): nat {
    if ws == [] then 0 else Sum(ws[..|ws| - 1], fuel) + fuel(ws[|ws| - 1])
  }

  lemma {:induction false} SumUpdate(ws: seq<WorkerPc>, fuel: WorkerPc -> nat, i: nat, pc: WorkerPc)
    requires i < |ws|
    ensures Sum(ws[i := pc], fuel) + fuel(ws[i]) == Sum(ws, fuel) + fuel(pc)
    decreases |ws|
  {
    var n := |ws| - 1;
    if i < n {
      SumUpdate(ws[..n], fuel, i, pc);
      assert ws[i := pc][..n] == ws[..n][i := pc];
    } else {
      assert ws[i := pc][..n] == ws[..n];
    }
  }

  /** The steps of a schedule; the passing of time is not a step. */
  function Moves(schedule: seq<Action>): nat {
    if schedule == [] then 0 else (if schedule[0].Tick? then 0 else 1) + Moves(schedule[1..])
  }

  /** A step the threads take by themselves: no request, and no wake-up for no reason. */
  predicate Unprompted(a: Action) {
    a.ServerMove? || a.Signal? || a.WorkerMove? || a.Tick? || (a.ServerWake? && a.expired)
  }

  /** Steps a worker can still take while the flag is up and the queue does not change. */
  function Chore(pc: WorkerPc): nat {
    match pc
    case WUnlockQueue(_) => 14
    case WRun(_) => 13
    case WLockJob(_, _) => 12
    case WStore(_, _) => 11
    case WUnlockJob(_) => 10
    case WBroadcast(_) => 9
    case WTop => 6
    case WLockQueue | WWoken => 5
    case WFlag => 4
    case WEmpty => 3
    case WFlag2 | WEmpty2 => 2
    case WWait | WPop | WBreak => 1
    case WSleep | WExited => 0
  }

  /** What one queued job costs. */
  const JOB := 14

  /** A `get` that will not go to sleep again. */
  predicate LastLook(wait: Wait) { wait.NoDeadline? || wait.expired }

  function ServerChore(pc: ServerPc): nat {
    match pc
    case EnqLockTable(_) => 12 + JOB
    case EnqInsert(_) => 11 + JOB
    case EnqUnlockTable(_) => 10 + JOB
    case EnqLockQueue(_) => 9 + JOB
    case EnqPush(_) => 8 + JOB
    case EnqUnlockQueue(_) => 7
    case EnqSignal(_) => 6
    case FindLock(_) => 13
    case FindLookup(_) => 12
    case FindUnlock(_, _) => 11
    case GetLock(_, _) => 10
    case GetClock(_, _) => 9
    case GetRelock(_, _, wait) => if LastLook(wait) then 6 else 9
    case GetCheck(_, _, wait) => if LastLook(wait) then 5 else 8
    case GetSleep(_, _, _) => 7
    case GetPendingUnlock(_, _, _) | GetTakeUnlock(_, _, _) => 4
    case EraseLock(_, _, _) => 3
    case EraseEntry(_, _, _) => 2
    case EraseUnlock(_, _, _) => 1
    case Idle | StopBroadcast | Joining | Stopped => 0
  }

  /** A bound on the steps that the requests made so far can still cause. */
  function Work(s: State): nat { Sum(s.workers, Chore) + JOB * |s.queue| + ServerChore(s.server) }

  lemma WorkerChores(s: State, i: nat)
    requires WorkerEnabled(s, i) && s.running
    ensures var s' := WorkerStep(s, i);
            Chore(s'.workers[i]) + JOB * |s'.queue| + ServerChore(s'.server)
            < Chore(s.workers[i]) + JOB * |s.queue| + ServerChore(s.server)
  {}

  lemma ServerChores(s: State)
    requires ServerEnabled(s) && !Stopping(s.server)
    ensures var s' := ServerStep(s);
            && s'.workers == s.workers
            && JOB * |s'.queue| + ServerChore(s'.server) < JOB * |s.queue| + ServerChore(s.server)
  {
    if Getting(s.server) { GetChores(s); }
  }

  lemma GetChores(s: State)
    requires ServerEnabled(s) && Getting(s.server)
    ensures var s' := ServerStep(s);
            s'.workers == s.workers && s'.queue == s.queue && ServerChore(s'.server) < ServerChore(s.server)
  {}

  lemma StepDoesWork(s: State, a: Action)
    requires Inv(s) && s.running && Enabled(s, a) && Unprompted(a)
    ensures var s' := Step(s, a);
            && s'.running
            && if a.Tick? then Work(s') == Work(s) else Work(s') < Work(s)
  {
    var s' := Step(s, a);
    match a
    case WorkerMove(i) =>
      WorkerChores(s, i);
      WorkerStepIsLocal(s, i);
      SumUpdate(s.workers, Chore, i, s'.workers[i]);
    case ServerMove =>
      ServerChores(s);
      ServerStepFrame(s);
    case Signal(i) =>
      if i < |s.workers| { SumUpdate(s.workers, Chore, i, WWoken); }
    case _ =>
  }

  lemma {:induction false} WorkIsBounded(s: State, schedule: seq<Action>)
    requires Inv(s) && s.running && Legal(s, schedule)
    requires forall k :: 0 <= k < |schedule| ==> Unprompted(schedule[k])
    ensures Moves(schedule) + Work(Run(s, schedule)) <= Work(s) && Run(s, schedule).running
    decreases |schedule|
  {
    if schedule != [] {
      StepDoesWork(s, schedule[0]);
      StepKeepsInv(s, schedule[0]);
      WorkIsBounded(Step(s, schedule[0]), schedule[1..]);
    }
  }

  /** Unless the engine is quiet, some thread can move. */
  lemma MoveUnlessQuiet(s: State) returns (a: Action)
    requires Inv(s) && !Quiet(s)
    ensures Enabled(s, a) && Unprompted(a) && !a.Tick?
  {
    if ServerEnabled(s) {
      a := ServerMove;
    } else if s.server.EnqSignal? {
      if i :| 0 <= i < |s.workers| && s.workers[i].WSleep? { a := Signal(i); } else { a := Signal(0); }
    } else {
      var i: nat :| i < |s.workers| && WorkerEnabled(s, i);
      a := WorkerMove(i);
    }
  }

  /** No thread can move by itself. */
  ghost predicate Still(s: State) { forall a :: Enabled(s, a) && Unprompted(a) ==> a.Tick? }

  /**
    Work is finished: before shutdown, if no request comes and no sleeper wakes for no reason, the
    threads take at most `Work(s)` steps; and once none of them can move, the request in progress is
    answered, the queue is empty and every job is done.
   */
  lemma WorkIsFinished(s: State, schedule: seq<Action>)
    requires Reachable(s) && s.running && Legal(s, schedule)
    requires forall k :: 0 <= k < |schedule| ==> Unprompted(schedule[k])
    ensures Moves(schedule) <= Work(s)
    ensures var s' := Run(s, schedule);
            |s'.workers| > 0 && Still(s') ==>
              s'.server.Idle? && s'.queue == [] && AllDone(s')
  {
    var s' := Run(s, schedule);
    ReachableInv(s);
    WorkIsBounded(s, schedule);
    ReachableRun(s, schedule);
    if |s'.workers| > 0 && Still(s') {
      ReachableInv(s');
      if !Quiet(s') { var a := MoveUnlessQuiet(s'); }
      NoWorkLeftBehind(s');
    }
  }
}
