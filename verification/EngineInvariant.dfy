/** The invariant of the job engine, and its preservation by every step of every thread. */
module EngineInvariant {
  import opened Ipc
  import opened Operations
  import opened Engine
  import Tickets

  // ---------------------------------------------------------------- who holds which mutex

  predicate HoldsQueue(pc: WorkerPc) {
    pc.WFlag? || pc.WEmpty? || pc.WWait? || pc.WFlag2? || pc.WEmpty2? || pc.WBreak? || pc.WPop? || pc.WUnlockQueue?
  }

  predicate HoldsJob(pc: WorkerPc, j: nat) { (pc.WStore? || pc.WUnlockJob?) && pc.job == j }

  predicate ServerHoldsQueue(pc: ServerPc) { pc.EnqPush? || pc.EnqUnlockQueue? }

  predicate ServerHoldsTable(pc: ServerPc) {
    pc.EnqInsert? || pc.EnqUnlockTable? || pc.FindLookup? || pc.FindUnlock? || pc.EraseEntry? || pc.EraseUnlock?
  }

  predicate ServerHoldsJob(pc: ServerPc, j: nat) {
    (pc.GetClock? || pc.GetCheck? || pc.GetPendingUnlock? || pc.GetTakeUnlock?) && pc.job == j
  }

  /** Every mutex is owned by the thread whose program counter is inside its critical section. */
  ghost predicate Locks(s: State) {
    && ServerLock(s)
    && (forall i :: 0 <= i < |s.workers| ==> WorkerLock(s, i))
    && (forall j :: 0 <= j < |s.heap| ==> JobLock(s, j))
  }

  ghost predicate ServerLock(s: State) {
    && (s.queueOwner.By? ==> s.queueOwner.worker < |s.workers|)
    && (ServerHoldsQueue(s.server) <==> s.queueOwner == Main)
    && (ServerHoldsTable(s.server) <==> s.tableOwner == Main)
    && !s.tableOwner.By?
  }

  ghost predicate WorkerLock(s: State, i: nat)
    requires i < |s.workers|
  {
    var pc := s.workers[i];
    && (HoldsQueue(pc) <==> s.queueOwner == By(i))
    && (pc.WStore? || pc.WUnlockJob? ==> pc.job < |s.heap| && s.heap[pc.job].owner == By(i))
  }

  ghost predicate JobLock(s: State, j: nat)
    requires j < |s.heap|
  {
    var o := s.heap[j].owner;
    && (ServerHoldsJob(s.server, j) <==> o == Main)
    && (o.By? ==> o.worker < |s.workers| && HoldsJob(s.workers[o.worker], j))
  }

  // ---------------------------------------------------------------- jobs from creation to completion

  /** The server made this job but has not pushed it yet. */
  predicate Unpushed(pc: ServerPc) {
    pc.EnqLockTable? || pc.EnqInsert? || pc.EnqUnlockTable? || pc.EnqLockQueue? || pc.EnqPush?
  }

  /** A worker popped job `j` and has not published its outcome yet. */
  predicate WorksOn(pc: WorkerPc, j: nat) {
    (pc.WUnlockQueue? || pc.WRun? || pc.WLockJob? || pc.WStore?) && pc.job == j
  }

  predicate Enqueuing(pc: ServerPc) { Unpushed(pc) || pc.EnqUnlockQueue? || pc.EnqSignal? }

  /** Jobs are popped in the order they were made, each by one worker, and finish with the right outcome. */
  ghost predicate Jobs(s: State) {
    && InOrder(s)
    && (forall j :: 0 <= j < |s.starts| ==> Started(s, j))
    && (forall j :: 0 <= j < |s.heap| ==> JobOk(s, j))
    && (forall j :: j in s.taken ==> j < |s.heap|)
    && (forall i :: 0 <= i < |s.workers| ==> WorkerJob(s, i))
  }

  ghost predicate InOrder(s: State) {
    && |s.starts| + |s.queue| + (if Unpushed(s.server) then 1 else 0) == |s.heap|
    && (forall k :: 0 <= k < |s.starts| ==> s.starts[k].job == k)
    && (forall k :: 0 <= k < |s.queue| ==> s.queue[k] == |s.starts| + k)
    && (Enqueuing(s.server) ==> s.server.job == |s.heap| - 1)
  }

  ghost predicate JobOk(s: State, j: nat)
    requires j < |s.heap|
  {
    var job := s.heap[j];
    && job.id == Tickets.IssuedId(job.stamp, j)
    && (|s.starts| <= j ==> !job.done)
    && (job.done && j !in s.taken ==> job.outcome == Execute(job.payload))
    && (j in s.taken ==> job.done)
  }

  ghost predicate Started(s: State, j: nat)
    requires j < |s.starts| <= |s.heap|
  {
    && s.starts[j].worker < |s.workers|
    && (s.heap[j].done <==> !WorksOn(s.workers[s.starts[j].worker], j))
  }

  ghost predicate WorkerJob(s: State, i: nat)
    requires i < |s.workers|
  {
    var pc := s.workers[i];
    && (pc.WUnlockQueue? || pc.WRun? || pc.WLockJob? || pc.WStore? ==>
          pc.job < |s.starts| && s.starts[pc.job].worker == i)
    && (pc.WLockJob? || pc.WStore? ==>
          pc.job < |s.heap| && pc.out == Execute(s.heap[pc.job].payload))
  }

  // ---------------------------------------------------------------- wake-ups

  /** Awake and bound to look at the queue before sleeping again. */
  predicate Rechecking(pc: WorkerPc) {
    pc.WWoken? || pc.WFlag? || pc.WEmpty? || pc.WFlag2? || pc.WEmpty2? || pc.WPop?
  }

  function Recheckers(ws: seq<WorkerPc>): nat {
    if ws == [] then 0 else Recheckers(ws[..|ws| - 1]) + (if Rechecking(ws[|ws| - 1]) then 1 else 0)
  }

  /** The server pushed a job and has not signalled yet. */
  predicate SignalDue(pc: ServerPc) { pc.EnqUnlockQueue? || pc.EnqSignal? }

  /** While a worker sleeps, every queued job has a worker or a signal on its way to it. */
  ghost predicate NoStrandedWork(s: State) {
    NoSleepers(s.workers) || |s.queue| <= Recheckers(s.workers) + (if SignalDue(s.server) then 1 else 0)
  }

  /** A finished job whose waiter sleeps is about to be announced by the worker that finished it. */
  ghost predicate NoMissedCompletion(s: State) {
    s.server.GetSleep? && s.server.job < |s.heap| && s.heap[s.server.job].done ==>
      var j := s.server.job;
      && j < |s.starts| && s.starts[j].worker < |s.workers|
      && s.workers[s.starts[j].worker] in {WUnlockJob(j), WBroadcast(j)}
  }

  /** What a worker knows about the flag and the queue at each point. */
  ghost predicate WorkerKnows(s: State, pc: WorkerPc) {
    && (pc.WWait? || pc.WBreak? ==> s.queue == [])
    && (pc.WPop? ==> s.queue != [])
    && (pc.WFlag2? ==> !s.running || s.queue != [])
    && (pc.WEmpty2? || pc.WBreak? || pc.WExited? ==> !s.running)
  }

  predicate Stopping(pc: ServerPc) { pc.StopBroadcast? || pc.Joining? || pc.Stopped? }

  ghost predicate Flow(s: State) {
    && (forall i :: 0 <= i < |s.workers| ==> WorkerKnows(s, s.workers[i]))
    && (s.running <==> !Stopping(s.server))
    && NoStrandedWork(s)
    && NoMissedCompletion(s)
  }

  // ---------------------------------------------------------------- the ticket table

  /** A `get` found job `j` under this id and has not read its outcome yet. */
  predicate Getting(pc: ServerPc) {
    pc.GetLock? || pc.GetClock? || pc.GetCheck? || pc.GetSleep? || pc.GetRelock? || pc.GetPendingUnlock?
  }

  /** A `get` read the outcome and has not erased the ticket yet. */
  predicate Erasing(pc: ServerPc) { pc.GetTakeUnlock? || pc.EraseLock? || pc.EraseEntry? }

  predicate Uninserted(pc: ServerPc) { pc.EnqLockTable? || pc.EnqInsert? }

  ghost predicate Table(s: State) {
    && (forall id :: id in s.table ==> Entry(s, id, s.table[id]))
    && Focus(s)
  }

  /** A `get` has a deadline exactly if it may wait; it sleeps only with one and gives up only past it. */
  predicate HonoursWait(pc: ServerPc) {
    && (Getting(pc) || Erasing(pc) || pc.EraseUnlock? ==> !pc.req.wait.OtherWait?)
    && (pc.GetClock? ==> pc.req.wait.WaitUpTo?)
    && (pc.GetCheck? || pc.GetSleep? || pc.GetRelock? || pc.GetPendingUnlock? ==>
          (pc.wait.Until? <==> pc.req.wait.WaitUpTo?))
    && (pc.GetSleep? || pc.GetRelock? ==> pc.wait.Until?)
    && (pc.GetPendingUnlock? && pc.wait.Until? ==> pc.wait.expired)
  }

  /** What the server thread knows of the ticket it is working on. */
  ghost predicate Focus(s: State) {
    && HonoursWait(s.server)
    && (Getting(s.server) ==>
          s.server.req.ticket in s.table && s.table[s.server.req.ticket] == s.server.job && s.server.job !in s.taken)
    && (Erasing(s.server) ==>
          && s.server.req.ticket in s.table && s.table[s.server.req.ticket] == s.server.job && s.server.job in s.taken
          && s.server.job < |s.heap| && s.server.out == Execute(s.heap[s.server.job].payload))
    && (s.server.EraseUnlock? ==>
          && s.server.req.ticket !in s.table && s.server.job < |s.heap| && s.heap[s.server.job].id == s.server.req.ticket
          && s.server.job in s.taken
          && s.server.out == Execute(s.heap[s.server.job].payload))
    && (Enqueuing(s.server) && !Uninserted(s.server) ==>
          && s.server.job < |s.heap|
          && s.heap[s.server.job].id in s.table && s.table[s.heap[s.server.job].id] == s.server.job)
    && (s.server.FindUnlock? ==>
          match s.server.found
          case None => s.server.req.ticket !in s.table
          case Some(j) => s.server.req.ticket in s.table && s.table[s.server.req.ticket] == j)
  }

  ghost predicate Entry(s: State, id: TicketId, j: nat) {
    && j < |s.heap|
    && s.heap[j].id == id
    && !(Uninserted(s.server) && s.server.job == j)
    && (j in s.taken ==> Erasing(s.server) && s.server.job == j)
  }

  ghost predicate Inv(s: State) { Locks(s) && Jobs(s) && Flow(s) && Table(s) }

  // ---------------------------------------------------------------- counting

  lemma {:induction false} RecheckersUpdate(ws: seq<WorkerPc>, i: nat, pc: WorkerPc)
    requires i < |ws|
    ensures Recheckers(ws[i := pc]) + (if Rechecking(ws[i]) then 1 else 0)
         == Recheckers(ws) + (if Rechecking(pc) then 1 else 0)
    decreases |ws|
  {
    var n := |ws| - 1;
    if i < n {
      RecheckersUpdate(ws[..n], i, pc);
      assert ws[i := pc][..n] == ws[..n][i := pc];
    } else {
      assert ws[i := pc][..n] == ws[..n];
    }
  }

  // ---------------------------------------------------------------- preservation: workers

  predicate SameJob(job: Job, job': Job) {
    job'.stamp == job.stamp && job'.id == job.id && job'.payload == job.payload
  }

  /** What a step of worker `i` leaves alone. */
  ghost predicate WorkerFrame(s: State, s': State, i: nat) {
    && |s'.workers| == |s.workers| && (forall k :: 0 <= k < |s.workers| && k != i ==> s'.workers[k] == s.workers[k])
    && |s'.heap| == |s.heap| && (forall j :: 0 <= j < |s.heap| ==> SameJob(s.heap[j], s'.heap[j]))
    && s'.table == s.table && s'.tableOwner == s.tableOwner
    && s'.running == s.running && s'.taken == s.taken && s'.books == s.books
    && s.starts <= s'.starts
    && (s'.server == s.server
        || (s.server.GetSleep? && s'.server == GetRelock(s.server.req, s.server.job, s.server.wait)))
  }

  lemma WorkerStepFrame(s: State, i: nat)
    requires WorkerEnabled(s, i)
    ensures WorkerFrame(s, WorkerStep(s, i), i)
  {
    var s' := WorkerStep(s, i);
    WorkerStepKeepsJobs(s, i);
    WorkerStepIsLocal(s, i);
    assert s.starts <= s'.starts;
  }

  lemma WorkerStepKeepsJobs(s: State, i: nat)
    requires WorkerEnabled(s, i)
    ensures var s' := WorkerStep(s, i);
            |s'.heap| == |s.heap| && forall j :: 0 <= j < |s.heap| ==> SameJob(s.heap[j], s'.heap[j])
  {}

  lemma WorkerStepIsLocal(s: State, i: nat)
    requires WorkerEnabled(s, i)
    ensures var s' := WorkerStep(s, i);
            && s'.workers == s.workers[i := s'.workers[i]]
            && s'.table == s.table && s'.tableOwner == s.tableOwner
            && s'.running == s.running && s'.taken == s.taken && s'.books == s.books
  {}

  /** A mutex changes hands only between being free and being held by the thread that moves. */
  predicate Handover(o: Owner, o': Owner, t: Owner) { o' == o || (o == Free && o' == t) || (o == t && o' == Free) }

  /** Worker `i` changes the queue only while it holds the queue mutex. */
  ghost predicate WorkerLockFrame(s: State, s': State, i: nat) {
    && Handover(s.queueOwner, s'.queueOwner, By(i))
    && (s'.queue == s.queue || s.queueOwner == By(i))
    && |s'.heap| == |s.heap|
    && (forall j :: 0 <= j < |s.heap| ==> Handover(s.heap[j].owner, s'.heap[j].owner, By(i)))
  }

  lemma WorkerStepLockFrame(s: State, i: nat)
    requires WorkerEnabled(s, i) && WorkerLock(s, i)
    ensures WorkerLockFrame(s, WorkerStep(s, i), i)
  {}

  lemma OwnLockKept(s: State, i: nat)
    requires WorkerEnabled(s, i) && WorkerLock(s, i)
    ensures WorkerLock(WorkerStep(s, i), i)
  {}

  lemma OtherLocksKept(s: State, s': State, i: nat, k: nat)
    requires WorkerFrame(s, s', i) && WorkerLockFrame(s, s', i)
    requires k < |s.workers| && k != i && WorkerLock(s, k)
    ensures WorkerLock(s', k)
  {}

  lemma JobLockKeptByWorker(s: State, i: nat, j: nat)
    requires WorkerEnabled(s, i) && j < |s.heap|
    requires JobLock(s, j) && WorkerLock(s, i)
    ensures JobLock(WorkerStep(s, i), j)
  {}

  lemma LocksKeptByWorker(s: State, i: nat)
    requires Locks(s) && WorkerEnabled(s, i)
    ensures Locks(WorkerStep(s, i))
  {
    var s' := WorkerStep(s, i);
    assert WorkerLock(s, i);
    WorkerStepFrame(s, i);
    WorkerStepLockFrame(s, i);
    OwnLockKept(s, i);
    forall k: nat | k < |s.workers| && k != i ensures WorkerLock(s', k) { OtherLocksKept(s, s', i, k); }
    forall j: nat | j < |s.heap| ensures JobLock(s', j) { JobLockKeptByWorker(s, i, j); }
  }

  lemma OnlyPopMovesTheQueue(s: State, i: nat)
    requires WorkerEnabled(s, i) && !s.workers[i].WPop?
    ensures WorkerStep(s, i).queue == s.queue && WorkerStep(s, i).starts == s.starts
  {}

  lemma InOrderKeptByWorker(s: State, s': State, i: nat)
    requires WorkerEnabled(s, i) && s' == WorkerStep(s, i) && WorkerFrame(s, s', i) && InOrder(s)
    ensures InOrder(s')
  {
    if !s.workers[i].WPop? { OnlyPopMovesTheQueue(s, i); }
  }

  lemma StartedKeptByWorker(s: State, i: nat, j: nat)
    requires WorkerEnabled(s, i) && InOrder(s) && WorkerJob(s, i)
    requires j < |s.starts| && Started(s, j)
    ensures Started(WorkerStep(s, i), j)
  {}

  lemma NextJobStarts(s: State, i: nat)
    requires WorkerEnabled(s, i) && InOrder(s) && s.workers[i].WPop?
    requires JobOk(s, |s.starts|)
    ensures Started(WorkerStep(s, i), |s.starts|)
  {}

  lemma JobOkKeptByWorker(s: State, i: nat, j: nat)
    requires WorkerEnabled(s, i) && j < |s.heap|
    requires JobOk(s, j) && WorkerJob(s, i)
    requires s.workers[i].WStore? && s.workers[i].job == j ==> j !in s.taken
    ensures JobOk(WorkerStep(s, i), j)
  {}

  lemma OwnJobKept(s: State, i: nat)
    requires WorkerEnabled(s, i) && InOrder(s) && WorkerJob(s, i)
    ensures WorkerJob(WorkerStep(s, i), i)
  {}

  lemma OtherJobsKept(s: State, s': State, i: nat, k: nat)
    requires WorkerFrame(s, s', i) && k < |s.workers| && k != i && WorkerJob(s, k)
    ensures WorkerJob(s', k)
  {}

  lemma JobsKeptByWorker(s: State, i: nat)
    requires Jobs(s) && WorkerEnabled(s, i)
    ensures Jobs(WorkerStep(s, i))
  {
    var s' := WorkerStep(s, i);
    assert WorkerJob(s, i);
    WorkerStepFrame(s, i);
    InOrderKeptByWorker(s, s', i);
    forall j: nat | j < |s'.starts| ensures Started(s', j) {
      if j < |s.starts| { StartedKeptByWorker(s, i, j); } else { NextJobStarts(s, i); }
    }
    if s.workers[i].WStore? { assert Started(s, s.workers[i].job) && JobOk(s, s.workers[i].job); }
    forall j: nat | j < |s.heap| ensures JobOk(s', j) { JobOkKeptByWorker(s, i, j); }
    OwnJobKept(s, i);
    forall k: nat | k < |s.workers| && k != i ensures WorkerJob(s', k) { OtherJobsKept(s, s', i, k); }
  }

  lemma OwnKnowledgeKept(s: State, i: nat)
    requires WorkerEnabled(s, i) && WorkerKnows(s, s.workers[i])
    ensures WorkerKnows(WorkerStep(s, i), WorkerStep(s, i).workers[i])
  {}

  /** Only the holder of the queue mutex changes the queue, so what the others know stays true. */
  lemma OtherKnowledgeKept(s: State, s': State, i: nat, k: nat)
    requires WorkerFrame(s, s', i) && WorkerLockFrame(s, s', i)
    requires k < |s.workers| && k != i && WorkerLock(s, k) && WorkerKnows(s, s.workers[k])
    ensures WorkerKnows(s', s'.workers[k])
  {}

  lemma NoStrandedWorkKeptByWorker(s: State, i: nat)
    requires WorkerEnabled(s, i)
    requires WorkerKnows(s, s.workers[i]) && NoStrandedWork(s)
    ensures NoStrandedWork(WorkerStep(s, i))
  {
    var s' := WorkerStep(s, i);
    RecheckersUpdate(s.workers, i, s'.workers[i]);
    if NoSleepers(s.workers) && !s.workers[i].WWait? {
      assert NoSleepers(s'.workers);
    }
  }

  lemma NoMissedCompletionKeptByWorker(s: State, i: nat)
    requires WorkerEnabled(s, i) && InOrder(s) && WorkerJob(s, i)
    requires s.server.GetSleep? ==> s.server.job < |s.heap| && JobOk(s, s.server.job)
    requires NoMissedCompletion(s)
    ensures NoMissedCompletion(WorkerStep(s, i))
  {}

  lemma FlowKeptByWorker(s: State, i: nat)
    requires Inv(s) && WorkerEnabled(s, i)
    ensures Flow(WorkerStep(s, i))
  {
    var s' := WorkerStep(s, i);
    assert WorkerLock(s, i) && WorkerJob(s, i);
    WorkerStepFrame(s, i);
    WorkerStepLockFrame(s, i);
    OwnKnowledgeKept(s, i);
    forall k: nat | k < |s.workers| && k != i ensures WorkerKnows(s', s'.workers[k]) {
      OtherKnowledgeKept(s, s', i, k);
    }
    NoStrandedWorkKeptByWorker(s, i);
    if s.server.GetSleep? { assert Entry(s, s.server.req.ticket, s.server.job) && JobOk(s, s.server.job); }
    NoMissedCompletionKeptByWorker(s, i);
  }

  /** Workers never touch the table, nor what it says about a job. */
  lemma TableKeptByWorker(s: State, s': State, i: nat)
    requires Table(s) && WorkerFrame(s, s', i)
    ensures Table(s')
  {
    forall id | id in s'.table ensures Entry(s', id, s'.table[id]) {
      assert Entry(s, id, s.table[id]);
    }
    if Erasing(s.server) { assert Entry(s, s.server.req.ticket, s.server.job); }
  }

  // ---------------------------------------------------------------- preservation: the server

  /** What a step of the server thread leaves alone. */
  ghost predicate ServerFrame(s: State, s': State) {
    && |s'.workers| == |s.workers| && s'.running == s.running && s'.starts == s.starts
    && (forall k :: 0 <= k < |s.workers| ==>
          s'.workers[k] == s.workers[k] || (s.workers[k].WSleep? && s'.workers[k].WWoken?))
    && |s'.heap| == |s.heap|
    && (forall j :: 0 <= j < |s.heap| ==>
          SameJob(s.heap[j], s'.heap[j]) && s'.heap[j].done == s.heap[j].done)
  }

  lemma ServerStepFrame(s: State)
    requires ServerEnabled(s)
    ensures ServerFrame(s, ServerStep(s))
  {}

  ghost predicate ServerLockFrame(s: State, s': State) {
    && Handover(s.queueOwner, s'.queueOwner, Main)
    && (s'.queue == s.queue || s.queueOwner == Main)
    && |s'.heap| == |s.heap|
    && (forall j :: 0 <= j < |s.heap| ==> Handover(s.heap[j].owner, s'.heap[j].owner, Main))
  }

  lemma ServerStepLockFrame(s: State)
    requires ServerEnabled(s) && ServerLock(s)
    requires forall j :: 0 <= j < |s.heap| ==> JobLock(s, j)
    ensures ServerLockFrame(s, ServerStep(s))
  {
    if MovesJobLock(s.server) {
      assert s.server.job < |s.heap| ==> JobLock(s, s.server.job);
      JobLockHandover(s);
    } else {
      OtherStepsKeepHeap(s);
      QueueLockHandover(s);
    }
  }

  lemma JobLockHandover(s: State)
    requires ServerEnabled(s) && MovesJobLock(s.server)
    requires s.server.job < |s.heap| ==> JobLock(s, s.server.job)
    ensures ServerLockFrame(s, ServerStep(s))
  {}

  lemma QueueLockHandover(s: State)
    requires ServerEnabled(s) && ServerLock(s)
    ensures Handover(s.queueOwner, ServerStep(s).queueOwner, Main)
    ensures ServerStep(s).queue == s.queue || s.queueOwner == Main
  {
    if !Enqueuing(s.server) { OtherStepsKeepQueue(s); }
  }

  /** The server thread is about to lock or unlock a job. */
  predicate MovesJobLock(pc: ServerPc) {
    pc.GetLock? || pc.GetClock? || pc.GetRelock? || pc.GetCheck? || pc.GetPendingUnlock? || pc.GetTakeUnlock?
  }

  lemma OtherStepsKeepHeap(s: State)
    requires ServerEnabled(s) && !MovesJobLock(s.server)
    ensures ServerStep(s).heap == s.heap && ServerStep(s).taken == s.taken
    ensures forall j :: !ServerHoldsJob(ServerStep(s).server, j)
  {}

  lemma JobLockKeptByServer(s: State, j: nat)
    requires ServerEnabled(s) && j < |s.heap| && JobLock(s, j)
    ensures JobLock(ServerStep(s), j)
  {
    if MovesJobLock(s.server) {
      JobLockMoves(s, j);
    } else {
      OtherStepsKeepHeap(s);
      ServerStepFrame(s);
      var o := s.heap[j].owner;
      assert o.By? ==> HoldsJob(s.workers[o.worker], j);
    }
  }

  lemma JobLockMoves(s: State, j: nat)
    requires ServerEnabled(s) && MovesJobLock(s.server) && j < |s.heap| && JobLock(s, j)
    ensures JobLock(ServerStep(s), j)
  {}

  lemma WorkerLockKeptByServer(s: State, s': State, k: nat)
    requires ServerFrame(s, s') && ServerLockFrame(s, s') && k < |s.workers| && WorkerLock(s, k)
    ensures WorkerLock(s', k)
  {}

  lemma ServerLockKept(s: State)
    requires ServerEnabled(s) && ServerLock(s)
    ensures ServerLock(ServerStep(s))
  {
    ServerStepFrame(s);
    if Enqueuing(s.server) { QueueLockKept(s); } else { TableLockKept(s); OtherStepsKeepQueue(s); }
  }

  lemma QueueLockKept(s: State)
    requires ServerEnabled(s) && ServerLock(s) && Enqueuing(s.server)
    ensures ServerLock(ServerStep(s))
  {}

  lemma TableLockKept(s: State)
    requires ServerEnabled(s) && ServerLock(s) && !Enqueuing(s.server)
    ensures var s' := ServerStep(s);
            (ServerHoldsTable(s'.server) <==> s'.tableOwner == Main) && !s'.tableOwner.By?
  {
    if MovesJobLock(s.server) { JobStepsKeepQueue(s); } else { TableLockMoves(s); }
  }

  lemma TableLockMoves(s: State)
    requires ServerEnabled(s) && ServerLock(s) && !Enqueuing(s.server) && !MovesJobLock(s.server)
    ensures var s' := ServerStep(s);
            (ServerHoldsTable(s'.server) <==> s'.tableOwner == Main) && !s'.tableOwner.By?
  {}

  lemma LocksKeptByServer(s: State)
    requires Locks(s) && ServerEnabled(s)
    ensures Locks(ServerStep(s))
  {
    var s' := ServerStep(s);
    ServerStepFrame(s);
    ServerStepLockFrame(s);
    ServerLockKept(s);
    forall k: nat | k < |s.workers| ensures WorkerLock(s', k) { WorkerLockKeptByServer(s, s', k); }
    forall j: nat | j < |s.heap| ensures JobLock(s', j) { JobLockKeptByServer(s, j); }
  }

  lemma JobOkKeptByServer(s: State, j: nat)
    requires ServerEnabled(s) && j < |s.heap| && JobOk(s, j)
    ensures JobOk(ServerStep(s), j)
  {}

  lemma InOrderKeptByServer(s: State)
    requires ServerEnabled(s) && InOrder(s)
    ensures InOrder(ServerStep(s))
  {
    if !Enqueuing(s.server) { OtherStepsKeepQueue(s); }
  }

  lemma OtherStepsKeepQueue(s: State)
    requires ServerEnabled(s) && !Enqueuing(s.server)
    ensures var s' := ServerStep(s);
            && s'.queue == s.queue && s'.starts == s.starts && |s'.heap| == |s.heap|
            && s'.queueOwner == s.queueOwner && !Enqueuing(s'.server)
  {
    if MovesJobLock(s.server) { JobStepsKeepQueue(s); } else { FindStepsKeepQueue(s); }
  }

  lemma JobStepsKeepQueue(s: State)
    requires ServerEnabled(s) && MovesJobLock(s.server)
    ensures var s' := ServerStep(s);
            && s'.queue == s.queue && s'.starts == s.starts && |s'.heap| == |s.heap|
            && s'.queueOwner == s.queueOwner && s'.tableOwner == s.tableOwner
            && !Enqueuing(s'.server) && !ServerHoldsTable(s'.server)
  {}

  lemma FindStepsKeepQueue(s: State)
    requires ServerEnabled(s) && !Enqueuing(s.server) && !MovesJobLock(s.server)
    ensures var s' := ServerStep(s);
            && s'.queue == s.queue && s'.starts == s.starts && |s'.heap| == |s.heap|
            && s'.queueOwner == s.queueOwner && !Enqueuing(s'.server)
  {}

  lemma TakenKeptByServer(s: State)
    requires ServerEnabled(s)
    requires forall j :: j in s.taken ==> j < |s.heap|
    ensures forall j :: j in ServerStep(s).taken ==> j < |s.heap|
  {
    if !MovesJobLock(s.server) { OtherStepsKeepHeap(s); }
  }

  lemma StartsKeptByServer(s: State, s': State)
    requires Jobs(s) && ServerFrame(s, s')
    ensures forall j :: 0 <= j < |s.starts| ==> Started(s', j)
    ensures forall k :: 0 <= k < |s.workers| ==> WorkerJob(s', k)
  {
    forall j: nat | j < |s.starts| ensures Started(s', j) { assert Started(s, j); }
    forall k: nat | k < |s.workers| ensures WorkerJob(s', k) { assert WorkerJob(s, k); }
  }

  lemma JobsKeptByServer(s: State)
    requires Jobs(s) && ServerEnabled(s)
    ensures Jobs(ServerStep(s))
  {
    var s' := ServerStep(s);
    ServerStepFrame(s);
    StartsKeptByServer(s, s');
    InOrderKeptByServer(s);
    TakenKeptByServer(s);
    forall j: nat | j < |s.heap| ensures JobOk(s', j) { JobOkKeptByServer(s, j); }
  }

  lemma KnowledgeKeptByServer(s: State, s': State, k: nat)
    requires ServerFrame(s, s') && ServerLockFrame(s, s') && k < |s.workers|
    requires s'.queue == s.queue || |s'.queue| == |s.queue| + 1
    requires WorkerLock(s, k) && WorkerKnows(s, s.workers[k])
    ensures WorkerKnows(s', s'.workers[k])
  {}

  lemma NoStrandedWorkKeptByServer(s: State)
    requires ServerEnabled(s) && NoStrandedWork(s)
    ensures NoStrandedWork(ServerStep(s))
  {}

  lemma NoMissedCompletionKeptByServer(s: State)
    requires ServerEnabled(s)
    ensures NoMissedCompletion(ServerStep(s))
  {}

  lemma FlagKeptByServer(s: State)
    requires ServerEnabled(s)
    ensures ServerStep(s).queue == s.queue || |ServerStep(s).queue| == |s.queue| + 1
    ensures Stopping(ServerStep(s).server) == Stopping(s.server)
  {}

  lemma FlowKeptByServer(s: State)
    requires Inv(s) && ServerEnabled(s)
    ensures Flow(ServerStep(s))
  {
    var s' := ServerStep(s);
    ServerStepFrame(s);
    ServerStepLockFrame(s);
    FlagKeptByServer(s);
    forall k: nat | k < |s.workers| ensures WorkerKnows(s', s'.workers[k]) {
      assert WorkerLock(s, k);
      KnowledgeKeptByServer(s, s', k);
    }
    NoStrandedWorkKeptByServer(s);
    NoMissedCompletionKeptByServer(s);
  }

  lemma EntryKeptByServer(s: State, id: TicketId)
    requires ServerEnabled(s) && Focus(s) && id in ServerStep(s).table
    requires id in s.table ==> Entry(s, id, s.table[id])
    requires s.server.EnqInsert? ==> s.server.job < |s.heap| && s.server.job !in s.taken
    requires s.server.EraseEntry? ==> Entry(s, s.server.req.ticket, s.server.job)
    ensures Entry(ServerStep(s), id, ServerStep(s).table[id])
  {
    if Enqueuing(s.server) { EntryKeptByEnqueue(s, id); } else { EntryKeptByGet(s, id); }
  }

  lemma EntryKeptByEnqueue(s: State, id: TicketId)
    requires ServerEnabled(s) && Enqueuing(s.server) && id in ServerStep(s).table
    requires id in s.table ==> Entry(s, id, s.table[id])
    requires s.server.EnqInsert? ==> s.server.job < |s.heap| && s.server.job !in s.taken
    ensures Entry(ServerStep(s), id, ServerStep(s).table[id])
  {}

  lemma EntryKeptByGet(s: State, id: TicketId)
    requires ServerEnabled(s) && !Enqueuing(s.server) && Focus(s) && id in ServerStep(s).table
    requires id in s.table ==> Entry(s, id, s.table[id])
    requires s.server.EraseEntry? ==> Entry(s, s.server.req.ticket, s.server.job)
    ensures Entry(ServerStep(s), id, ServerStep(s).table[id])
  {}

  lemma FocusKeptByServer(s: State)
    requires ServerEnabled(s) && Focus(s)
    requires s.server.FindUnlock? && s.server.found.Some? ==> Entry(s, s.server.req.ticket, s.server.found.value)
    requires Getting(s.server) || Erasing(s.server) ==>
               Entry(s, s.server.req.ticket, s.server.job) && JobOk(s, s.server.job)
    ensures Focus(ServerStep(s))
  {
    if Enqueuing(s.server) {
      FocusKeptByEnqueue(s);
    } else if Getting(s.server) {
      FocusKeptByGet(s);
    } else if Erasing(s.server) || s.server.EraseUnlock? {
      FocusKeptByErase(s);
    } else {
      FocusKeptByFind(s);
    }
  }

  lemma FocusKeptByEnqueue(s: State)
    requires ServerEnabled(s) && Focus(s) && Enqueuing(s.server)
    ensures Focus(ServerStep(s))
  {}

  lemma FocusKeptByFind(s: State)
    requires ServerEnabled(s) && Focus(s)
    requires !(Enqueuing(s.server) || Getting(s.server) || Erasing(s.server) || s.server.EraseUnlock?)
    requires s.server.FindUnlock? && s.server.found.Some? ==> Entry(s, s.server.req.ticket, s.server.found.value)
    ensures Focus(ServerStep(s))
  {}

  lemma FocusKeptByGet(s: State)
    requires ServerEnabled(s) && Focus(s) && Getting(s.server)
    requires Entry(s, s.server.req.ticket, s.server.job) && JobOk(s, s.server.job)
    ensures Focus(ServerStep(s))
  {}

  lemma FocusKeptByErase(s: State)
    requires ServerEnabled(s) && Focus(s) && (Erasing(s.server) || s.server.EraseUnlock?)
    requires Erasing(s.server) ==> Entry(s, s.server.req.ticket, s.server.job)
    ensures Focus(ServerStep(s))
  {}

  lemma TableKeptByServer(s: State)
    requires Table(s) && Jobs(s) && ServerEnabled(s)
    ensures Table(ServerStep(s))
  {
    var s' := ServerStep(s);
    if Getting(s.server) || Erasing(s.server) {
      assert Entry(s, s.server.req.ticket, s.server.job) && JobOk(s, s.server.job);
    }
    if s.server.EnqInsert? { assert JobOk(s, s.server.job); }
    forall id | id in s'.table ensures Entry(s', id, s'.table[id]) { EntryKeptByServer(s, id); }
    FocusKeptByServer(s);
  }

  // ---------------------------------------------------------------- preservation: calls and wake-ups

  /** Waking a sleeper never hurts. */
  lemma KeptByWake(s: State, i: nat)
    requires Inv(s) && i < |s.workers| && s.workers[i].WSleep?
    ensures Inv(At(s, i, WWoken))
  {
    var s' := At(s, i, WWoken);
    RecheckersUpdate(s.workers, i, WWoken);
    forall k: nat | k < |s.workers| ensures WorkerLock(s', k) && WorkerJob(s', k) {
      assert WorkerLock(s, k) && WorkerJob(s, k);
    }
    forall j: nat | j < |s.heap| ensures JobLock(s', j) && JobOk(s', j) { assert JobLock(s, j) && JobOk(s, j); }
    forall j: nat | j < |s.starts| ensures Started(s', j) { assert Started(s, j); }
    forall id | id in s'.table ensures Entry(s', id, s'.table[id]) { assert Entry(s, id, s.table[id]); }
  }

  /** The server thread holds no mutex and is not in the middle of making or handing out a job. */
  ghost predicate Unengaged(pc: ServerPc) {
    && !ServerHoldsQueue(pc) && !ServerHoldsTable(pc) && !Unpushed(pc) && !Erasing(pc)
    && forall j :: !ServerHoldsJob(pc, j)
  }

  /** A step that only moves the server thread, clears the flag, passes time or answers a request. */
  lemma KeptWhenServerMovesAlone(s: State, s': State)
    requires Inv(s) && s' == s.(server := s'.server, running := s'.running, books := s'.books)
    requires Unengaged(s.server) && Unengaged(s'.server)
    requires Enqueuing(s'.server) ==> s'.server == s.server
    requires (s'.running ==> s.running) && (s'.running <==> !Stopping(s'.server))
    requires Focus(s') && NoStrandedWork(s') && NoMissedCompletion(s')
    ensures Inv(s')
  {
    forall k: nat | k < |s.workers| ensures WorkerLock(s', k) && WorkerJob(s', k) {
      assert WorkerLock(s, k) && WorkerJob(s, k);
    }
    forall j: nat | j < |s.heap| ensures JobLock(s', j) && JobOk(s', j) { assert JobLock(s, j) && JobOk(s, j); }
    forall j: nat | j < |s.starts| ensures Started(s', j) { assert Started(s, j); }
    forall id | id in s'.table ensures Entry(s', id, s'.table[id]) { assert Entry(s, id, s.table[id]); }
  }

  lemma KeptByCall(s: State, a: Action)
    requires Inv(s) && Enabled(s, a)
    requires a.CallBlocking? || a.CallGet? || a.CallStop? || a.ServerWake?
    ensures Inv(Step(s, a))
  {
    KeptWhenServerMovesAlone(s, Step(s, a));
  }

  lemma KeptByTick(s: State, s': State)
    requires Inv(s) && s' == s.(books := s'.books)
    ensures Inv(s')
  {
    forall k: nat | k < |s.workers| ensures WorkerLock(s', k) && WorkerJob(s', k) {
      assert WorkerLock(s, k) && WorkerJob(s, k);
    }
    forall j: nat | j < |s.heap| ensures JobLock(s', j) && JobOk(s', j) { assert JobLock(s, j) && JobOk(s, j); }
    forall j: nat | j < |s.starts| ensures Started(s', j) { assert Started(s, j); }
    forall id | id in s'.table ensures Entry(s', id, s'.table[id]) { assert Entry(s, id, s.table[id]); }
  }

  lemma KeptBySubmit(s: State, a: Action)
    requires Inv(s) && Enabled(s, a) && a.CallSubmit?
    ensures Inv(Step(s, a))
  {
    var s' := Step(s, a);
    forall k: nat | k < |s.workers| ensures WorkerLock(s', k) && WorkerJob(s', k) {
      assert WorkerLock(s, k) && WorkerJob(s, k);
    }
    forall j: nat | j < |s'.heap| ensures JobLock(s', j) && JobOk(s', j) {
      if j < |s.heap| { assert JobLock(s, j) && JobOk(s, j); }
    }
    forall j: nat | j < |s.starts| ensures Started(s', j) { assert Started(s, j); }
    forall id | id in s'.table ensures Entry(s', id, s'.table[id]) { assert Entry(s, id, s.table[id]); }
  }

  lemma KeptBySignal(s: State, i: nat)
    requires Inv(s) && Enabled(s, Signal(i))
    ensures Inv(Step(s, Signal(i)))
  {
    if i < |s.workers| && s.workers[i].WSleep? {
      KeptBySignalReceived(s, i);
    } else {
      KeptWhenServerMovesAlone(s, Step(s, Signal(i)));
    }
  }

  lemma KeptBySignalReceived(s: State, i: nat)
    requires Inv(s) && Enabled(s, Signal(i)) && i < |s.workers| && s.workers[i].WSleep?
    ensures Inv(Step(s, Signal(i)))
  {
    KeptByWake(s, i);
    RecheckersUpdate(s.workers, i, WWoken);
    KeptWhenServerMovesAlone(At(s, i, WWoken), Step(s, Signal(i)));
  }

  /** Every step of every thread keeps the invariant. */
  lemma StepKeepsInv(s: State, a: Action)
    requires Inv(s) && Enabled(s, a)
    ensures Inv(Step(s, a))
  {
    match a
    case WorkerMove(i) =>
      LocksKeptByWorker(s, i);
      JobsKeptByWorker(s, i);
      FlowKeptByWorker(s, i);
      WorkerStepFrame(s, i);
      TableKeptByWorker(s, Step(s, a), i);
    case ServerMove =>
      LocksKeptByServer(s);
      JobsKeptByServer(s);
      FlowKeptByServer(s);
      TableKeptByServer(s);
    case SpuriousWake(i) => KeptByWake(s, i);
    case Signal(i) => KeptBySignal(s, i);
    case CallSubmit(_, _) => KeptBySubmit(s, a);
    case Tick(_) => KeptByTick(s, Step(s, a));
    case _ => KeptByCall(s, a);
  }

  lemma InitInv(n: nat)
    ensures Inv(Init(n))
  {}

  lemma {:induction false} RunKeepsInv(s: State, schedule: seq<Action>)
    requires Inv(s) && Legal(s, schedule)
    ensures Inv(Run(s, schedule))
    decreases |schedule|
  {
    if schedule != [] {
      StepKeepsInv(s, schedule[0]);
      RunKeepsInv(Step(s, schedule[0]), schedule[1..]);
    }
  }
}
