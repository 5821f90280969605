/** What the invariant gives: one stage per job, lock discipline, and no way to get stuck with work to do. */
module EngineProgress {
  import opened Ipc
  import opened Operations
  import opened Engine
  import opened EngineInvariant
  import opened EngineRefinement

  ghost predicate Reachable(s: State) {
    exists n: nat, schedule :: Legal(Init(n), schedule) && s == Run(Init(n), schedule)
  }

  lemma ReachableInv(s: State)
    requires Reachable(s)
    ensures Inv(s) && Faithful(s)
  {
    var n: nat, schedule :| Legal(Init(n), schedule) && s == Run(Init(n), schedule);
    InitInv(n);
    assert View(Init(n)) == map[];
    RunKeepsFaithful(Init(n), schedule);
  }

  lemma {:induction false} RunAppend(s: State, first: seq<Action>, second: seq<Action>)
    requires Legal(s, first) && Legal(Run(s, first), second)
    ensures Legal(s, first + second) && Run(s, first + second) == Run(Run(s, first), second)
    decreases |first|
  {
    if first == [] {
      assert first + second == second;
    } else {
      assert (first + second)[1..] == first[1..] + second;
      RunAppend(Step(s, first[0]), first[1..], second);
    }
  }

  lemma ReachableRun(s: State, schedule: seq<Action>)
    requires Reachable(s) && Legal(s, schedule)
    ensures Reachable(Run(s, schedule))
  {
    var n: nat, first :| Legal(Init(n), first) && s == Run(Init(n), first);
    RunAppend(Init(n), first, schedule);
  }

  lemma ReachableStep(s: State, a: Action)
    requires Reachable(s) && Enabled(s, a)
    ensures Reachable(Step(s, a))
  {
    assert [a][1..] == [];
    assert Run(s, [a]) == Step(s, a);
    ReachableRun(s, [a]);
  }

  // ---------------------------------------------------------------- conservation of jobs

  datatype Stage = Unqueued | Queued | HeldBy(worker: nat) | Finished | Collected

  ghost predicate InStage(s: State, j: nat, stage: Stage)
    requires j < |s.heap|
  {
    match stage
    case Unqueued => Unpushed(s.server) && s.server.job == j
    case Queued => j in s.queue
    case HeldBy(i) => i < |s.workers| && WorksOn(s.workers[i], j)
    case Finished => s.heap[j].done && j !in s.taken
    case Collected => j in s.taken
  }

  ghost function StageOf(s: State, j: nat): Stage
    requires Jobs(s) && j < |s.heap|
  {
    if j in s.taken then Collected
    else if s.heap[j].done then Finished
    else if j < |s.starts| then HeldBy(s.starts[j].worker)
    else if j < |s.starts| + |s.queue| then Queued
    else Unqueued
  }

  /** Every job ever made is in exactly one stage, and while it is not collected it is in the table. */
  lemma JobInExactlyOneStage(s: State, j: nat)
    requires Reachable(s) && j < |s.heap|
    ensures Jobs(s)
    ensures forall stage :: InStage(s, j, stage) <==> stage == StageOf(s, j)
    ensures !s.books.reissued && StageOf(s, j) != Collected && !(Uninserted(s.server) && s.server.job == j) ==>
              s.heap[j].id in s.table && s.table[s.heap[j].id] == j
  {
    ReachableInv(s);
    assert JobOk(s, j);
    if j < |s.starts| { assert Started(s, j); }
    QueuedIff(s, j);
    forall i: nat | i < |s.workers| && WorksOn(s.workers[i], j) ensures StageOf(s, j) == HeldBy(i) {
      assert WorkerJob(s, i) && Started(s, j);
    }
    if !s.books.reissued && Findable(s, j) { assert InTable(s, j); }
  }

  lemma QueuedIff(s: State, j: nat)
    requires InOrder(s)
    ensures j in s.queue <==> |s.starts| <= j < |s.starts| + |s.queue|
  {
    if |s.starts| <= j < |s.starts| + |s.queue| { assert s.queue[j - |s.starts|] == j; }
  }

  /** Jobs start in the order they were made, each at most once; a pop never meets an empty queue. */
  lemma StartsAreFifo(s: State)
    requires Reachable(s)
    ensures forall k :: 0 <= k < |s.starts| ==> s.starts[k].job == k
    ensures forall k :: 0 <= k < |s.queue| ==> s.queue[k] == |s.starts| + k
    ensures forall i :: 0 <= i < |s.workers| && s.workers[i].WPop? ==> s.queue != []
  {
    ReachableInv(s);
    forall i | 0 <= i < |s.workers| && s.workers[i].WPop? ensures s.queue != [] {
      assert WorkerKnows(s, s.workers[i]);
    }
  }

  // ---------------------------------------------------------------- lock discipline

  datatype Mutex = QueueMutex | TableMutex | JobMutex(job: nat)

  predicate Holds(s: State, t: Owner, m: Mutex) {
    match m
    case QueueMutex => s.queueOwner == t
    case TableMutex => s.tableOwner == t
    case JobMutex(j) => j < |s.heap| && s.heap[j].owner == t
  }

  /** The thread is about to lock a mutex. */
  predicate Acquiring(s: State, t: Owner) {
    match t
    case Free => false
    case Main => s.server.EnqLockTable? || s.server.EnqLockQueue? || s.server.FindLock?
                 || s.server.GetLock? || s.server.GetRelock? || s.server.EraseLock?
    case By(i) => i < |s.workers|
                  && (s.workers[i].WLockQueue? || s.workers[i].WWoken? || s.workers[i].WLockJob?)
  }

  lemma WorkerHoldsOne(s: State, i: nat, m: Mutex, m': Mutex)
    requires Locks(s) && Holds(s, By(i), m)
    ensures Holds(s, By(i), m') ==> m == m'
    ensures !Acquiring(s, By(i))
  {
    if i < |s.workers| { assert WorkerLock(s, i); }
    if m.JobMutex? { assert JobLock(s, m.job); }
    if m'.JobMutex? && m'.job < |s.heap| { assert JobLock(s, m'.job); }
  }

  lemma ServerHoldsOne(s: State, m: Mutex, m': Mutex)
    requires Locks(s) && Holds(s, Main, m)
    ensures Holds(s, Main, m') ==> m == m'
    ensures !Acquiring(s, Main)
  {
    if m.JobMutex? { assert JobLock(s, m.job); }
    if m'.JobMutex? && m'.job < |s.heap| { assert JobLock(s, m'.job); }
  }

  /** A thread holds at most one mutex, and none while it asks for one: no cycle of waits can form. */
  lemma AtMostOneMutex(s: State, t: Owner, m: Mutex, m': Mutex)
    requires Reachable(s) && t != Free && Holds(s, t, m)
    ensures Holds(s, t, m') ==> m == m'
    ensures !Acquiring(s, t)
  {
    ReachableInv(s);
    if t.By? { WorkerHoldsOne(s, t.worker, m, m'); } else { ServerHoldsOne(s, m, m'); }
  }

  function ThreadOf(a: Action): Owner {
    match a
    case WorkerMove(i) => By(i)
    case SpuriousWake(i) => By(i)
    case _ => Main
  }

  function WithQueue(s: State, q: seq<nat>): State { s.(queue := q) }

  function WithTable(s: State, t: map<TicketId, nat>): State { s.(table := t) }

  function WithResult(s: State, j: nat, done: bool, o: Outcome): State
    requires j < |s.heap|
  {
    SetJob(s, j, s.heap[j].(done := done, outcome := o))
  }

  lemma WorkerLeavesQueue(s: State, i: nat, q: seq<nat>)
    requires WorkerEnabled(s, i) && WorkerLock(s, i) && s.queueOwner != By(i)
    ensures WorkerEnabled(WithQueue(s, q), i)
    ensures WorkerStep(WithQueue(s, q), i) == WithQueue(WorkerStep(s, i), q)
  {}

  lemma ServerLeavesQueue(s: State, q: seq<nat>)
    requires ServerEnabled(s) && ServerLock(s) && s.queueOwner != Main
    ensures ServerEnabled(WithQueue(s, q)) && ServerStep(WithQueue(s, q)) == WithQueue(ServerStep(s), q)
  {
    if MovesJobLock(s.server) {
      ServerAtJobLeavesQueue(s, q);
    } else if Enqueuing(s.server) {
      EnqueueLeavesQueue(s, q);
    }
  }

  lemma EnqueueLeavesQueue(s: State, q: seq<nat>)
    requires ServerEnabled(s) && ServerLock(s) && s.queueOwner != Main && Enqueuing(s.server)
    ensures ServerEnabled(WithQueue(s, q)) && ServerStep(WithQueue(s, q)) == WithQueue(ServerStep(s), q)
  {}

  lemma ServerAtJobLeavesQueue(s: State, q: seq<nat>)
    requires ServerEnabled(s) && MovesJobLock(s.server)
    ensures ServerEnabled(WithQueue(s, q)) && ServerStep(WithQueue(s, q)) == WithQueue(ServerStep(s), q)
  {}

  lemma CallLeavesQueue(s: State, a: Action, q: seq<nat>)
    requires Enabled(s, a) && !a.WorkerMove? && !a.ServerMove?
    ensures Enabled(WithQueue(s, q), a) && Step(WithQueue(s, q), a) == WithQueue(Step(s, a), q)
  {}

  /** A thread that does not hold the queue mutex neither reads nor writes the queue. */
  lemma QueueIsGuarded(s: State, a: Action, q: seq<nat>)
    requires Reachable(s) && Enabled(s, a) && !Holds(s, ThreadOf(a), QueueMutex)
    ensures Enabled(WithQueue(s, q), a) && Step(WithQueue(s, q), a) == WithQueue(Step(s, a), q)
  {
    ReachableInv(s);
    match a
    case WorkerMove(i) => assert WorkerLock(s, i); WorkerLeavesQueue(s, i, q);
    case ServerMove => ServerLeavesQueue(s, q);
    case _ => CallLeavesQueue(s, a, q);
  }

  lemma WorkerLeavesTable(s: State, i: nat, t: map<TicketId, nat>)
    requires WorkerEnabled(s, i)
    ensures WorkerEnabled(WithTable(s, t), i)
    ensures WorkerStep(WithTable(s, t), i) == WithTable(WorkerStep(s, i), t)
  {}

  lemma ServerLeavesTable(s: State, t: map<TicketId, nat>)
    requires ServerEnabled(s) && ServerLock(s) && s.tableOwner != Main
    ensures ServerEnabled(WithTable(s, t)) && ServerStep(WithTable(s, t)) == WithTable(ServerStep(s), t)
  {}

  lemma CallLeavesTable(s: State, a: Action, t: map<TicketId, nat>)
    requires Enabled(s, a) && !a.WorkerMove? && !a.ServerMove?
    ensures Enabled(WithTable(s, t), a) && Step(WithTable(s, t), a) == WithTable(Step(s, a), t)
  {}

  /** A thread that does not hold the table mutex neither reads nor writes the table. */
  lemma TableIsGuarded(s: State, a: Action, t: map<TicketId, nat>)
    requires Reachable(s) && Enabled(s, a) && !Holds(s, ThreadOf(a), TableMutex)
    ensures Enabled(WithTable(s, t), a) && Step(WithTable(s, t), a) == WithTable(Step(s, a), t)
  {
    ReachableInv(s);
    match a
    case WorkerMove(i) => WorkerLeavesTable(s, i, t);
    case ServerMove => ServerLeavesTable(s, t);
    case _ => CallLeavesTable(s, a, t);
  }

  lemma UpdatesCommute(h: seq<Job>, j: nat, x: Job, k: nat, y: Job)
    requires j < |h| && k < |h| && j != k
    ensures h[j := x][k := y] == h[k := y][j := x]
  {}

  lemma WorkerLeavesResult(s: State, i: nat, j: nat, done: bool, o: Outcome)
    requires WorkerEnabled(s, i) && WorkerLock(s, i) && j < |s.heap| && s.heap[j].owner != By(i)
    ensures WorkerEnabled(WithResult(s, j, done, o), i) && |WorkerStep(s, i).heap| == |s.heap|
    ensures WorkerStep(WithResult(s, j, done, o), i) == WithResult(WorkerStep(s, i), j, done, o)
  {
    var pc := s.workers[i];
    if pc.WLockJob? || pc.WStore? || pc.WUnlockJob? {
      var t, r := WorkerStep(s, i), WithResult(s, j, done, o);
      var t' := WorkerStep(r, i);
      if pc.job != j { UpdatesCommute(s.heap, j, r.heap[j], pc.job, t.heap[pc.job]); }
      assert t'.heap == WithResult(t, j, done, o).heap;
    } else {
      WorkerElsewhereLeavesResult(s, i, j, done, o);
    }
  }

  lemma WorkerElsewhereLeavesResult(s: State, i: nat, j: nat, done: bool, o: Outcome)
    requires WorkerEnabled(s, i) && j < |s.heap|
    requires !(s.workers[i].WLockJob? || s.workers[i].WStore? || s.workers[i].WUnlockJob?)
    ensures WorkerEnabled(WithResult(s, j, done, o), i) && |WorkerStep(s, i).heap| == |s.heap|
    ensures WorkerStep(WithResult(s, j, done, o), i) == WithResult(WorkerStep(s, i), j, done, o)
  {}

  lemma ServerLeavesResult(s: State, j: nat, done: bool, o: Outcome)
    requires ServerEnabled(s) && j < |s.heap| && JobLock(s, j) && s.heap[j].owner != Main
    ensures ServerEnabled(WithResult(s, j, done, o)) && |ServerStep(s).heap| == |s.heap|
    ensures ServerStep(WithResult(s, j, done, o)) == WithResult(ServerStep(s), j, done, o)
  {
    if s.server.GetCheck? || s.server.GetPendingUnlock? || s.server.GetTakeUnlock? {
      HolderLeavesResult(s, j, done, o);
    } else if s.server.GetLock? || s.server.GetRelock? {
      var k, t, r := s.server.job, ServerStep(s), WithResult(s, j, done, o);
      var t' := ServerStep(r);
      if k != j { UpdatesCommute(s.heap, j, r.heap[j], k, t.heap[k]); }
      assert t'.heap == WithResult(t, j, done, o).heap;
    } else {
      ServerElsewhereLeavesResult(s, j, done, o);
    }
  }

  /** The server thread is inside the critical section of another job. */
  lemma HolderLeavesResult(s: State, j: nat, done: bool, o: Outcome)
    requires ServerEnabled(s) && j < |s.heap| && JobLock(s, j) && s.heap[j].owner != Main
    requires s.server.GetCheck? || s.server.GetPendingUnlock? || s.server.GetTakeUnlock?
    ensures ServerEnabled(WithResult(s, j, done, o)) && |ServerStep(s).heap| == |s.heap|
    ensures ServerStep(WithResult(s, j, done, o)) == WithResult(ServerStep(s), j, done, o)
  {
    var k, t, r := s.server.job, ServerStep(s), WithResult(s, j, done, o);
    UpdatesCommute(s.heap, j, r.heap[j], k, t.heap[k]);
    assert ServerStep(r).heap == WithResult(t, j, done, o).heap;
  }

  lemma ServerElsewhereLeavesResult(s: State, j: nat, done: bool, o: Outcome)
    requires ServerEnabled(s) && j < |s.heap| && (!MovesJobLock(s.server) || s.server.GetClock?)
    ensures ServerEnabled(WithResult(s, j, done, o)) && |ServerStep(s).heap| == |s.heap|
    ensures ServerStep(WithResult(s, j, done, o)) == WithResult(ServerStep(s), j, done, o)
  {}

  lemma CallLeavesResult(s: State, a: Action, j: nat, done: bool, o: Outcome)
    requires Enabled(s, a) && j < |s.heap| && !a.WorkerMove? && !a.ServerMove?
    ensures Enabled(WithResult(s, j, done, o), a) && j < |Step(s, a).heap|
    ensures Step(WithResult(s, j, done, o), a) == WithResult(Step(s, a), j, done, o)
  {
    assert Step(WithResult(s, j, done, o), a).heap == WithResult(Step(s, a), j, done, o).heap;
  }

  /** A thread that does not hold a job's mutex neither reads nor writes its `done`, status and result. */
  lemma ResultIsGuarded(s: State, a: Action, j: nat, done: bool, o: Outcome)
    requires Reachable(s) && Enabled(s, a) && j < |s.heap| && !Holds(s, ThreadOf(a), JobMutex(j))
    ensures Enabled(WithResult(s, j, done, o), a) && j < |Step(s, a).heap|
    ensures Step(WithResult(s, j, done, o), a) == WithResult(Step(s, a), j, done, o)
  {
    ReachableInv(s);
    match a
    case WorkerMove(i) => assert WorkerLock(s, i); WorkerLeavesResult(s, i, j, done, o);
    case ServerMove => assert JobLock(s, j); ServerLeavesResult(s, j, done, o);
    case _ => CallLeavesResult(s, a, j, done, o);
  }

  // ---------------------------------------------------------------- progress

  /** No thread can move unless a request arrives, a time-out strikes or a sleeper wakes for no reason. */
  ghost predicate Quiet(s: State) {
    && !ServerEnabled(s) && !s.server.EnqSignal?
    && forall i: nat :: i < |s.workers| ==> !WorkerEnabled(s, i)
  }

  /** Whoever holds a mutex can move. */
  lemma WorkerInCriticalSectionMoves(s: State, i: nat)
    requires Inv(s) && i < |s.workers|
    requires HoldsQueue(s.workers[i]) || s.workers[i].WStore? || s.workers[i].WUnlockJob?
    ensures WorkerEnabled(s, i)
  {
    assert WorkerLock(s, i) && WorkerKnows(s, s.workers[i]);
  }

  lemma ServerInCriticalSectionMoves(s: State)
    requires Inv(s)
    requires ServerHoldsQueue(s.server) || ServerHoldsTable(s.server)
             || s.server.GetClock? || s.server.GetCheck? || s.server.GetPendingUnlock? || s.server.GetTakeUnlock?
    ensures ServerEnabled(s)
  {
    if Getting(s.server) || Erasing(s.server) { assert Entry(s, s.server.req.ticket, s.server.job); }
  }

  lemma QuietMeansUnlocked(s: State)
    requires Inv(s) && Quiet(s)
    ensures s.queueOwner == Free && s.tableOwner == Free
    ensures forall j :: 0 <= j < |s.heap| ==> s.heap[j].owner == Free
  {
    if s.queueOwner.By? {
      assert WorkerLock(s, s.queueOwner.worker);
      WorkerInCriticalSectionMoves(s, s.queueOwner.worker);
    }
    if s.queueOwner == Main || s.tableOwner == Main { ServerInCriticalSectionMoves(s); }
    forall j | 0 <= j < |s.heap| ensures s.heap[j].owner == Free {
      assert JobLock(s, j);
      if s.heap[j].owner.By? { WorkerInCriticalSectionMoves(s, s.heap[j].owner.worker); }
      if s.heap[j].owner == Main { ServerInCriticalSectionMoves(s); }
    }
  }

  /** There is no deadlock: threads stop only by sleeping, leaving, or waiting for requests or for joins. */
  lemma QuietMeansAsleep(s: State)
    requires Inv(s) && Quiet(s)
    ensures forall i :: 0 <= i < |s.workers| ==> s.workers[i].WSleep? || s.workers[i].WExited?
    ensures s.server.Idle? || s.server.GetSleep? || s.server.Joining? || s.server.Stopped?
  {
    QuietMeansUnlocked(s);
    forall i | 0 <= i < |s.workers| ensures s.workers[i].WSleep? || s.workers[i].WExited? {
      assert !WorkerEnabled(s, i) && WorkerKnows(s, s.workers[i]) && WorkerJob(s, i) && WorkerLock(s, i);
    }
    if Getting(s.server) || Erasing(s.server) { assert Entry(s, s.server.req.ticket, s.server.job); }
  }

  lemma {:induction false} NobodyRechecks(ws: seq<WorkerPc>)
    requires forall i :: 0 <= i < |ws| ==> !Rechecking(ws[i])
    ensures Recheckers(ws) == 0
  {
    if ws != [] { NobodyRechecks(ws[..|ws| - 1]); }
  }

  /** Every job ever made is done, and its outcome stored unless it was collected. */
  ghost predicate AllDone(s: State) {
    forall j :: 0 <= j < |s.heap| ==>
      s.heap[j].done && (j !in s.taken ==> s.heap[j].outcome == Execute(s.heap[j].payload))
  }

  /**
    No work is left behind: with at least one worker and before shutdown, whenever no thread can
    move, the server waits for its next request, the queue is empty, and every job ever submitted
    has its outcome stored. No signal, broadcast or job was lost on the way.
   */
  lemma NoWorkLeftBehind(s: State)
    requires Reachable(s) && Quiet(s) && s.running && |s.workers| > 0
    ensures s.server.Idle? && s.queue == [] && AllDone(s)
  {
    ReachableInv(s);
    assert Getting(s.server) ==> Entry(s, s.server.req.ticket, s.server.job);
    QuietMeansAsleep(s);
    forall i | 0 <= i < |s.workers| ensures s.workers[i].WSleep? { assert WorkerKnows(s, s.workers[i]); }
    NobodyRechecks(s.workers);
    assert s.workers[0].WSleep?;
    forall j | 0 <= j < |s.heap|
      ensures s.heap[j].done && (j !in s.taken ==> s.heap[j].outcome == Execute(s.heap[j].payload))
    {
      assert Started(s, j) && JobOk(s, j);
    }
  }

  /** The bound behind `NoWorkLeftBehind`, and its counterpart for a waiting `get`. */
  lemma NoWakeUpIsLost(s: State)
    requires Reachable(s)
    ensures !NoSleepers(s.workers) ==>
              |s.queue| <= Recheckers(s.workers) + (if SignalDue(s.server) then 1 else 0)
    ensures s.server.GetSleep? ==>
              && s.server.job < |s.heap|
              && (s.heap[s.server.job].done ==>
                    exists i :: 0 <= i < |s.workers|
                                && s.workers[i] in {WUnlockJob(s.server.job), WBroadcast(s.server.job)})
  {
    ReachableInv(s);
    if s.server.GetSleep? { assert Entry(s, s.server.req.ticket, s.server.job); }
  }
}
