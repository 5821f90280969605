/**
  `deinit`: the flag is cleared and the sleepers are woken without holding the queue mutex, then
  every worker is joined. A worker that tested the flag before it was cleared and has not yet gone
  to sleep misses the broadcast. This module says exactly when the join can hang.
 */
module EngineShutdown {
  import opened Operations
  import opened Engine
  import opened EngineInvariant
  import opened EngineProgress
  import opened EngineWork

  /** Between its test of the queue and its wait, or asleep with no wake-up left to come. */
  predicate Trapped(s: State, pc: WorkerPc) {
    pc.WWait? || (pc.WEmpty? && s.queue == []) || (pc.WSleep? && s.server.Joining?)
  }

  ghost predicate SomeoneTrapped(s: State) { exists i :: 0 <= i < |s.workers| && Trapped(s, s.workers[i]) }

  /** No thread can move and `deinit` has not returned. */
  ghost predicate Hung(s: State) { Quiet(s) && s.server.Joining? }

  /** Some schedule leads to a join that never returns. */
  ghost predicate CanHang(s: State) { exists schedule :: Legal(s, schedule) && Hung(Run(s, schedule)) }

  // ---------------------------------------------------------------- every thread runs out of steps

  /** Steps a worker can still take once the flag is down, woken for no reason or not. */
  function Fuel(pc: WorkerPc): nat {
    match pc
    case WEmpty => 16
    case WWait => 15
    case WSleep => 14
    case WLockQueue | WWoken => 13
    case WFlag => 12
    case WFlag2 => 11
    case WEmpty2 => 10
    case WPop => 9
    case WUnlockQueue(_) => 8
    case WRun(_) => 7
    case WLockJob(_, _) => 6
    case WStore(_, _) => 5
    case WUnlockJob(_) => 4
    case WBroadcast(_) => 3
    case WTop => 2
    case WBreak => 1
    case WExited => 0
  }

  /** A bound on the steps of a shutdown. */
  function Remaining(s: State): nat {
    Sum(s.workers, Fuel) + if s.server.StopBroadcast? then 2 else if s.server.Joining? then 1 else 0
  }

  lemma FuelDrops(s: State, i: nat)
    requires WorkerEnabled(s, i) && !s.running
    ensures Fuel(WorkerStep(s, i).workers[i]) < Fuel(s.workers[i])
  {}

  lemma {:induction false} WakingCostsNothing(ws: seq<WorkerPc>)
    ensures Sum(WakeAll(ws), Fuel) <= Sum(ws, Fuel)
  {
    if ws != [] {
      var n := |ws| - 1;
      assert WakeAll(ws)[..n] == WakeAll(ws[..n]);
      WakingCostsNothing(ws[..n]);
    }
  }

  lemma WorkerBurnsFuel(s: State, i: nat)
    requires WorkerEnabled(s, i) && Inv(s) && Stopping(s.server)
    ensures var s' := WorkerStep(s, i); s'.server == s.server && Remaining(s') < Remaining(s)
  {
    WorkerStepFrame(s, i);
    WorkerStepIsLocal(s, i);
    FuelDrops(s, i);
    SumUpdate(s.workers, Fuel, i, WorkerStep(s, i).workers[i]);
  }

  /** Once the flag is down, whatever happens lowers the bound, and nothing but time is left when `deinit` has returned. */
  lemma ShutdownStep(s: State, a: Action)
    requires Inv(s) && Stopping(s.server) && Enabled(s, a)
    ensures a.WorkerMove? || a.ServerMove? || a.SpuriousWake? || a.Tick?
    ensures var s' := Step(s, a);
            && Stopping(s'.server)
            && (a.ServerMove? <==> s'.server != s.server)
            && if a.Tick? then Remaining(s') == Remaining(s) else Remaining(s') < Remaining(s)
  {
    var s' := Step(s, a);
    match a
    case WorkerMove(i) => WorkerBurnsFuel(s, i);
    case SpuriousWake(i) => SumUpdate(s.workers, Fuel, i, WWoken);
    case ServerMove => WakingCostsNothing(s.workers);
    case _ =>
  }

  /** No schedule is longer than the bound, whether the join hangs or not. */
  lemma {:induction false} ShutdownIsBounded(s: State, schedule: seq<Action>)
    requires Inv(s) && Stopping(s.server) && Legal(s, schedule)
    ensures Moves(schedule) + Remaining(Run(s, schedule)) <= Remaining(s)
    decreases |schedule|
  {
    if schedule != [] {
      ShutdownStep(s, schedule[0]);
      StepKeepsInv(s, schedule[0]);
      ShutdownIsBounded(Step(s, schedule[0]), schedule[1..]);
    }
  }

  // ---------------------------------------------------------------- when the join hangs

  lemma RunCons(s: State, a: Action, rest: seq<Action>)
    requires Enabled(s, a) && Legal(Step(s, a), rest)
    ensures Legal(s, [a] + rest) && Run(s, [a] + rest) == Run(Step(s, a), rest)
  {
    assert ([a] + rest)[1..] == rest;
  }

  lemma TrappedWorkerStaysTrapped(s: State, k: nat, i: nat)
    requires Inv(s) && s.server.Joining? && i < |s.workers| && Trapped(s, s.workers[i])
    requires WorkerEnabled(s, k)
    ensures var s' := WorkerStep(s, k); s'.server.Joining? && i < |s'.workers| && Trapped(s', s'.workers[i])
  {
    WorkerStepFrame(s, k);
    if s.workers[k].WPop? { assert WorkerLock(s, k) && WorkerLock(s, i); }
    else { OnlyPopMovesTheQueue(s, k); }
  }

  /** From a state with a trapped worker, run whatever can run; what is left is a hung join. */
  lemma HangingSchedule(s: State, i: nat) returns (schedule: seq<Action>)
    requires Inv(s) && s.server.Joining? && i < |s.workers| && Trapped(s, s.workers[i])
    ensures Legal(s, schedule) && Hung(Run(s, schedule))
    decreases Remaining(s)
  {
    if k: nat :| k < |s.workers| && WorkerEnabled(s, k) {
      var a := WorkerMove(k);
      TrappedWorkerStaysTrapped(s, k, i);
      StepKeepsInv(s, a);
      ShutdownStep(s, a);
      var rest := HangingSchedule(Step(s, a), i);
      RunCons(s, a, rest);
      schedule := [a] + rest;
    } else {
      schedule := [];
    }
  }

  /** Shutdown with nobody trapped; `deinit` returns only when every worker has left. */
  ghost predicate Clear(s: State) {
    Stopping(s.server) && !SomeoneTrapped(s) && (s.server.Stopped? ==> AllExited(s.workers))
  }

  lemma StepKeepsClear(s: State, a: Action)
    requires Inv(s) && Clear(s) && Enabled(s, a)
    ensures Clear(Step(s, a))
  {
    ShutdownStep(s, a);
    if a.WorkerMove? {
      WorkerKeepsClear(s, a.worker);
    } else {
      var s' := Step(s, a);
      forall k | 0 <= k < |s'.workers| ensures !Trapped(s', s'.workers[k]) {
        assert !Trapped(s, s.workers[k]);
      }
    }
  }

  lemma WorkerKeepsClear(s: State, i: nat)
    requires Inv(s) && Clear(s) && WorkerEnabled(s, i)
    ensures Clear(WorkerStep(s, i))
  {
    var s' := WorkerStep(s, i);
    WorkerStepFrame(s, i);
    assert WorkerLock(s, i);
    WorkerStepLockFrame(s, i);
    MoverStaysUntrapped(s, i);
    forall k | 0 <= k < |s'.workers| && k != i ensures !Trapped(s', s'.workers[k]) {
      assert !Trapped(s, s.workers[k]) && WorkerLock(s, k);
    }
  }

  lemma MoverStaysUntrapped(s: State, i: nat)
    requires WorkerEnabled(s, i) && !s.running && !Trapped(s, s.workers[i])
    ensures !Trapped(WorkerStep(s, i), WorkerStep(s, i).workers[i])
  {}

  lemma {:induction false} RunKeepsClear(s: State, schedule: seq<Action>)
    requires Inv(s) && Clear(s) && Legal(s, schedule)
    ensures Inv(Run(s, schedule)) && Clear(Run(s, schedule))
    decreases |schedule|
  {
    if schedule != [] {
      StepKeepsClear(s, schedule[0]);
      StepKeepsInv(s, schedule[0]);
      RunKeepsClear(Step(s, schedule[0]), schedule[1..]);
    }
  }

  lemma ClearEndsInReturn(s: State)
    requires Inv(s) && Clear(s) && Quiet(s)
    ensures s.server.Stopped? && AllExited(s.workers)
  {
    QuietMeansAsleep(s);
    forall i | 0 <= i < |s.workers| && s.server.Joining? ensures s.workers[i].WExited? {
      assert !Trapped(s, s.workers[i]);
    }
  }

  /**
    After the flag is cleared, the join can hang exactly when some worker stands between its test
    of the queue and its wait, or is already asleep although the broadcast is over.
   */
  lemma JoinHangsIff(s: State)
    requires Inv(s) && (s.server.StopBroadcast? || s.server.Joining?)
    ensures CanHang(s) <==> SomeoneTrapped(s)
  {
    if SomeoneTrapped(s) {
      var i :| 0 <= i < |s.workers| && Trapped(s, s.workers[i]);
      if s.server.Joining? {
        var schedule := HangingSchedule(s, i);
      } else {
        HangsAfterBroadcast(s, i);
      }
    } else {
      forall schedule | Legal(s, schedule) ensures !Hung(Run(s, schedule)) {
        RunKeepsClear(s, schedule);
        if Quiet(Run(s, schedule)) { ClearEndsInReturn(Run(s, schedule)); }
      }
    }
  }

  lemma HangsAfterBroadcast(s: State, i: nat)
    requires Inv(s) && s.server.StopBroadcast? && i < |s.workers| && Trapped(s, s.workers[i])
    ensures CanHang(s)
  {
    var s' := Step(s, ServerMove);
    StepKeepsInv(s, ServerMove);
    var rest := HangingSchedule(s', i);
    RunCons(s, ServerMove, rest);
  }

  /** Some worker has passed its test of the flag and found the queue empty, or is about to. */
  ghost predicate InTheWindow(s: State) {
    exists i :: 0 <= i < |s.workers| && (s.workers[i].WWait? || (s.workers[i].WEmpty? && s.queue == []))
  }

  lemma WindowIsTrap(s: State)
    requires Inv(s) && s.server.Idle?
    ensures Inv(Step(s, CallStop)) && (SomeoneTrapped(Step(s, CallStop)) <==> InTheWindow(s))
  {
    var s' := Step(s, CallStop);
    StepKeepsInv(s, CallStop);
    forall i | 0 <= i < |s.workers|
      ensures Trapped(s', s'.workers[i]) <==> s.workers[i].WWait? || (s.workers[i].WEmpty? && s.queue == [])
    {}
  }

  /**
    `deinit` can hang exactly when, at the moment it is called, some worker has passed its test of
    the flag and either found the queue empty or is about to. Nothing else can make it hang.
   */
  lemma DeinitHangsIff(s: State)
    requires Reachable(s) && s.server.Idle?
    ensures CanHang(Step(s, CallStop)) <==> InTheWindow(s)
  {
    ReachableInv(s);
    WindowIsTrap(s);
    JoinHangsIff(Step(s, CallStop));
  }

  /**
    Outside that window `deinit` returns: no schedule from the call takes more steps than the bound,
    and when no thread can move any more, `deinit` has returned and every worker is gone.
   */
  lemma DeinitReturns(s: State, schedule: seq<Action>)
    requires Reachable(s) && s.server.Idle? && !InTheWindow(s)
    requires Legal(Step(s, CallStop), schedule)
    ensures Moves(schedule) <= 16 * |s.workers| + 2
    ensures var s' := Run(Step(s, CallStop), schedule);
            Quiet(s') ==> s'.server.Stopped? && AllExited(s'.workers)
  {
    var stop := Step(s, CallStop);
    ReachableInv(s);
    WindowIsTrap(s);
    ShutdownIsBounded(stop, schedule);
    FuelIsSmall(stop.workers);
    RunKeepsClear(stop, schedule);
    if Quiet(Run(stop, schedule)) { ClearEndsInReturn(Run(stop, schedule)); }
  }

  lemma {:induction false} FuelIsSmall(ws: seq<WorkerPc>)
    ensures Sum(ws, Fuel) <= 16 * |ws|
  {
    if ws != [] { FuelIsSmall(ws[..|ws| - 1]); }
  }

  /** One worker is enough: it reads the flag as true, and `deinit` is called before it goes to sleep. */
  lemma DeinitCanHang()
    ensures var schedule := [WorkerMove(0)] + ([WorkerMove(0)] + ([WorkerMove(0)] + []));
            && Legal(Init(1), schedule)
            && var s := Run(Init(1), schedule);
               s.server.Idle? && CanHang(Step(s, CallStop))
  {
    var w := WorkerMove(0);
    var s0 := Init(1);
    var s1 := Step(s0, w);
    var s2 := Step(s1, w);
    var s3 := Step(s2, w);
    assert s1.workers[0] == WLockQueue;
    assert s2.workers[0] == WFlag;
    assert s3.workers[0] == WEmpty && s3.queue == [];
    RunCons(s2, w, []);
    RunCons(s1, w, [w] + []);
    RunCons(s0, w, [w] + ([w] + []));
    DeinitHangsIff(s3);
  }

  // ---------------------------------------------------------------- what shutdown leaves behind

  function StartsBy(starts: seq<Start>, i: nat): nat {
    if starts == [] then 0
    else StartsBy(starts[..|starts| - 1], i) + (if starts[|starts| - 1].worker == i then 1 else 0)
  }

  lemma StartsByAppend(starts: seq<Start>, x: Start, i: nat)
    ensures StartsBy(starts + [x], i) == StartsBy(starts, i) + (if x.worker == i then 1 else 0)
  {
    assert (starts + [x])[..|starts|] == starts;
  }

  /** Before its next test of the outer loop the worker may still take a job. */
  predicate MayPop(pc: WorkerPc) {
    pc.WLockQueue? || pc.WFlag? || pc.WEmpty? || pc.WWait? || pc.WSleep? || pc.WWoken?
    || pc.WFlag2? || pc.WEmpty2? || pc.WPop?
  }

  /** The jobs a worker has taken, and the one it may still take. */
  function Chances(s: State, i: nat): nat
    requires i < |s.workers|
  {
    StartsBy(s.starts, i) + if MayPop(s.workers[i]) then 1 else 0
  }

  lemma PopUsesTheLastChance(s: State, a: Action, i: nat)
    requires Inv(s) && !s.running && Enabled(s, a) && i < |s.workers|
    ensures var s' := Step(s, a);
            !s'.running && i < |s'.workers| && Chances(s', i) <= Chances(s, i)
  {
    match a
    case WorkerMove(k) => WorkerUsesChance(s, k, i);
    case ServerMove => ServerStepFrame(s);
    case _ =>
  }

  lemma WorkerUsesChance(s: State, k: nat, i: nat)
    requires WorkerEnabled(s, k) && !s.running && i < |s.workers|
    ensures var s' := WorkerStep(s, k);
            !s'.running && i < |s'.workers| && Chances(s', i) <= Chances(s, i)
  {
    WorkerStepIsLocal(s, k);
    if s.workers[k].WPop? {
      StartsByAppend(s.starts, Start(s.queue[0], k), i);
    } else {
      OnlyPopMovesTheQueue(s, k);
      NoChanceRegained(s, k);
    }
  }

  lemma NoChanceRegained(s: State, i: nat)
    requires WorkerEnabled(s, i) && !s.running && !s.workers[i].WPop?
    ensures MayPop(WorkerStep(s, i).workers[i]) ==> MayPop(s.workers[i])
  {}

  /** Once the flag is down each worker takes at most one more job, whatever else happens. */
  lemma {:induction false} AtMostOneMoreJobEach(s: State, schedule: seq<Action>, i: nat)
    requires Inv(s) && !s.running && Legal(s, schedule) && i < |s.workers|
    ensures StartsBy(Run(s, schedule).starts, i) <= Chances(s, i)
    ensures Chances(s, i) <= StartsBy(s.starts, i) + 1
    decreases |schedule|
  {
    if schedule != [] {
      PopUsesTheLastChance(s, schedule[0], i);
      StepKeepsInv(s, schedule[0]);
      AtMostOneMoreJobEach(Step(s, schedule[0]), schedule[1..], i);
    }
  }

  /** When the workers are gone every job is either finished, with the right outcome, or was never touched. */
  lemma NoJobHalfDone(s: State, j: nat)
    requires Reachable(s) && AllExited(s.workers) && j < |s.heap|
    ensures if j < |s.starts|
            then s.heap[j].done && (j !in s.taken ==> s.heap[j].outcome == Execute(s.heap[j].payload))
            else !s.heap[j].done && (j in s.queue || (Unpushed(s.server) && s.server.job == j))
  {
    ReachableInv(s);
    assert JobOk(s, j);
    if j < |s.starts| { assert Started(s, j); } else { QueuedIff(s, j); }
  }
}
