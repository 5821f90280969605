/**
  The job engine of `AlgoRunnerIpml` as a step system. One server thread calls `run`, `get` and
  `deinit`; any number of worker threads run `workerLoop`. Every lock, unlock, wait, signal,
  flag read and guarded access is a step of its own, and steps of different threads interleave
  freely. Condition variables follow POSIX: a wait releases its mutex and sleeps in one step, a
  signal wakes a sleeper if there is one and is otherwise lost, and a sleeper may wake for no reason.
 */
module Engine {
  import opened Ipc
  import opened Operations
  import opened TicketStore
  import opened Deadline
  import Tickets

  datatype Owner = Free | Main | By(worker: nat)

  /** A job object; threads refer to it by its position in `State.heap`, as they do by shared pointer. */
  datatype Job = Job(
    stamp: uint64, id: TicketId, payload: Payload,
    owner: Owner, done: bool, outcome: Outcome)

  /** A worker took a job from the queue. */
  datatype Start = Start(job: nat, worker: nat)

  /** Where a worker is in `workerLoop`. */
  datatype WorkerPc =
    | WTop                               // about to test `running` in the outer loop
    | WLockQueue                         // about to lock the queue mutex
    | WFlag                              // inner loop: about to read `running`
    | WEmpty                             // inner loop: read `running` as true, about to test the queue
    | WWait                              // found the queue empty, about to wait
    | WSleep                             // asleep on the queue condition variable
    | WWoken                             // woken, about to lock the queue mutex again
    | WFlag2                             // after the inner loop: about to read `running`
    | WEmpty2                            // read `running` as false, about to test the queue
    | WBreak                             // about to unlock and leave
    | WPop                               // about to take the front of the queue
    | WUnlockQueue(job: nat)
    | WRun(job: nat)                     // about to run the operation, holding no mutex
    | WLockJob(job: nat, out: Outcome)
    | WStore(job: nat, out: Outcome)     // about to publish the outcome
    | WUnlockJob(job: nat)
    | WBroadcast(job: nat)
    | WExited

  /** How long a `get` may wait: its deadline, the clock reading it was computed from, and whether it timed out. */
  datatype Wait = NoDeadline | Until(since: nat, deadline: Instant, expired: bool)

  /** Where the server thread is. */
  datatype ServerPc =
    | Idle                               // between requests
    | EnqLockTable(job: nat)
    | EnqInsert(job: nat)
    | EnqUnlockTable(job: nat)
    | EnqLockQueue(job: nat)
    | EnqPush(job: nat)
    | EnqUnlockQueue(job: nat)
    | EnqSignal(job: nat)
    | FindLock(req: GetRequest)
    | FindLookup(req: GetRequest)
    | FindUnlock(req: GetRequest, found: Option<nat>)
    | GetLock(req: GetRequest, job: nat)
    | GetClock(req: GetRequest, job: nat)               // WAIT_UP_TO: about to read the clock
    | GetCheck(req: GetRequest, job: nat, wait: Wait)   // about to test `done`
    | GetSleep(req: GetRequest, job: nat, wait: Wait)   // asleep on the job's condition variable
    | GetRelock(req: GetRequest, job: nat, wait: Wait)  // woken, about to lock the job again
    | GetPendingUnlock(req: GetRequest, job: nat, wait: Wait)
    | GetTakeUnlock(req: GetRequest, job: nat, out: Outcome)
    | EraseLock(req: GetRequest, job: nat, out: Outcome)
    | EraseEntry(req: GetRequest, job: nat, out: Outcome)
    | EraseUnlock(req: GetRequest, job: nat, out: Outcome)
    | StopBroadcast
    | Joining
    | Stopped

  /** A request, and when it was made. */
  datatype Called = Called(call: Call, at: nat)

  /** The clock, and the history of what was asked and answered. */
  datatype Books = Books(
    now: nat,                            // nanoseconds since the epoch
    calls: seq<Called>,                  // the requests made so far
    log: seq<Event>,                     // their answers
    answeredAt: seq<nat>,                // when these were given
    finished: seq<bool>,                 // and whether the job asked for was done by then
    reissued: bool)                      // an id was issued again while its ticket was open

  datatype State = State(
    running: bool,
    heap: seq<Job>,                      // every job object ever made, in order of creation
    table: map<TicketId, nat>, tableOwner: Owner,
    queue: seq<nat>, queueOwner: Owner,
    server: ServerPc,
    workers: seq<WorkerPc>,
    // history
    starts: seq<Start>,                  // pops of the queue, in order
    taken: set<nat>,                     // jobs whose result a `get` swapped out
    books: Books)

  datatype Action =
    | CallBlocking(payload: Payload)
    | CallSubmit(payload: Payload, stamp: uint64)
    | CallGet(req: GetRequest)
    | CallStop
    | ServerMove
    | Signal(target: nat)                // the wake-up that ends `enqueue`
    | ServerWake(expired: bool)          // time-out, or a wake-up for no reason
    | WorkerMove(worker: nat)
    | SpuriousWake(worker: nat)
    | Tick(nanos: nat)                   // time passes

  /** After `init` made `n` workers. */
  function Init(n: nat): State {
    State(true, [], map[], Free, [], Free, Idle, seq(n, _ => WTop), [], {}, Books(0, [], [], [], [], false))
  }

  predicate NoSleepers(ws: seq<WorkerPc>) { forall i :: 0 <= i < |ws| ==> !ws[i].WSleep? }
  predicate AllExited(ws: seq<WorkerPc>) { forall i :: 0 <= i < |ws| ==> ws[i].WExited? }

  predicate JobFree(s: State, j: nat) { j < |s.heap| && s.heap[j].owner.Free? }

  predicate WorkerEnabled(s: State, i: nat) {
    i < |s.workers|
    && match s.workers[i]
       case WLockQueue | WWoken => s.queueOwner.Free?
       case WPop => s.queue != []
       case WSleep | WExited => false
       case WLockJob(j, _) => JobFree(s, j)
       case WRun(j) => j < |s.heap|
       case WStore(j, _) => j < |s.heap|
       case WUnlockJob(j) => j < |s.heap|
       case _ => true
  }

  predicate ServerEnabled(s: State) {
    match s.server
    case Idle | EnqSignal(_) | GetSleep(_, _, _) | Stopped => false
    case EnqLockTable(_) | FindLock(_) | EraseLock(_, _, _) => s.tableOwner.Free?
    case EnqInsert(j) => j < |s.heap|
    case EnqLockQueue(_) => s.queueOwner.Free?
    case GetLock(_, j) => JobFree(s, j)
    case GetRelock(_, j, _) => JobFree(s, j)
    case GetCheck(_, j, _) => j < |s.heap|
    case GetPendingUnlock(_, j, _) => j < |s.heap|
    case GetTakeUnlock(_, j, _) => j < |s.heap|
    case Joining => AllExited(s.workers)
    case _ => true
  }

  predicate Enabled(s: State, a: Action) {
    match a
    case CallBlocking(_) => s.server.Idle?
    case CallSubmit(p, _) => s.server.Idle? && p != NoPayload
    case CallGet(_) => s.server.Idle?
    case CallStop => s.server.Idle?
    case ServerMove => ServerEnabled(s)
    case Signal(i) =>
      s.server.EnqSignal? && s.server.job < |s.heap|
      && (NoSleepers(s.workers) || (i < |s.workers| && s.workers[i].WSleep?))
    case ServerWake(expired) => s.server.GetSleep? && (expired ==> TimedOut(s))
    case WorkerMove(i) => WorkerEnabled(s, i)
    case SpuriousWake(i) => i < |s.workers| && s.workers[i].WSleep?
    case Tick(_) => true
  }

  /** The timed wait's deadline has come. */
  predicate TimedOut(s: State)
    requires s.server.GetSleep?
  {
    s.server.wait.Until? && s.server.wait.deadline.Nanos() <= s.books.now
  }

  function At(s: State, i: nat, pc: WorkerPc): State
    requires i < |s.workers|
  {
    s.(workers := s.workers[i := pc])
  }

  function SetJob(s: State, j: nat, job: Job): State
    requires j < |s.heap|
  {
    s.(heap := s.heap[j := job])
  }

  function Answer(s: State, e: Event): State {
    s.(server := Idle, books := Answered(s.books, e, JobDone(s)))
  }

  function Answered(b: Books, e: Event, finished: bool): Books {
    b.(log := b.log + [e], answeredAt := b.answeredAt + [b.now], finished := b.finished + [finished])
  }

  /** The job that a `get` asks for is done: it says so under its mutex, or its result has been taken. */
  predicate JobDone(s: State) {
    || (s.server.GetPendingUnlock? && s.server.job < |s.heap| && s.heap[s.server.job].done)
    || (s.server.EraseUnlock? && s.server.job in s.taken)
  }

  function Asked(b: Books, call: Call): Books { b.(calls := b.calls + [Called(call, b.now)]) }

  /** `workerLoop`, one step. */
  function WorkerStep(s: State, i: nat): State
    requires WorkerEnabled(s, i)
  {
    match s.workers[i]
    case WTop => At(s, i, if s.running then WLockQueue else WExited)
    case WLockQueue => At(s, i, WFlag).(queueOwner := By(i))
    case WWoken => At(s, i, WFlag).(queueOwner := By(i))
    case WFlag => At(s, i, if s.running then WEmpty else WFlag2)
    case WEmpty => At(s, i, if s.queue == [] then WWait else WFlag2)
    case WWait => At(s, i, WSleep).(queueOwner := Free)
    case WFlag2 => At(s, i, if s.running then WPop else WEmpty2)
    case WEmpty2 => At(s, i, if s.queue == [] then WBreak else WPop)
    case WBreak => At(s, i, WExited).(queueOwner := Free)
    case WPop =>
      At(s, i, WUnlockQueue(s.queue[0])).(queue := s.queue[1..], starts := s.starts + [Start(s.queue[0], i)])
    case WUnlockQueue(j) => At(s, i, WRun(j)).(queueOwner := Free)
    case WRun(j) => At(s, i, WLockJob(j, Execute(s.heap[j].payload)))
    case WLockJob(j, o) => SetJob(At(s, i, WStore(j, o)), j, s.heap[j].(owner := By(i)))
    case WStore(j, o) => SetJob(At(s, i, WUnlockJob(j)), j, s.heap[j].(done := true, outcome := o))
    case WUnlockJob(j) => SetJob(At(s, i, WBroadcast(j)), j, s.heap[j].(owner := Free))
    case WBroadcast(j) =>
      var woken := if s.server.GetSleep? && s.server.job == j then GetRelock(s.server.req, j, s.server.wait) else s.server;
      At(s, i, WTop).(server := woken)
  }

  /** `enqueue`, `findJobById`, `get` and `deinit`, one step. */
  function ServerStep(s: State): State
    requires ServerEnabled(s)
  {
    match s.server
    case EnqLockTable(j) => s.(server := EnqInsert(j), tableOwner := Main)
    case EnqInsert(j) =>
      var id := s.heap[j].id;
      s.(server := EnqUnlockTable(j), table := s.table[id := j],
         books := s.books.(reissued := s.books.reissued || id in s.table))
    case EnqUnlockTable(j) => s.(server := EnqLockQueue(j), tableOwner := Free)
    case EnqLockQueue(j) => s.(server := EnqPush(j), queueOwner := Main)
    case EnqPush(j) => s.(server := EnqUnlockQueue(j), queue := s.queue + [j])
    case EnqUnlockQueue(j) => s.(server := EnqSignal(j), queueOwner := Free)
    case FindLock(req) => s.(server := FindLookup(req), tableOwner := Main)
    case FindLookup(req) =>
      s.(server := FindUnlock(req, if req.ticket in s.table then Some(s.table[req.ticket]) else None))
    case FindUnlock(req, found) =>
      var s' := s.(tableOwner := Free);
      if found.None? then Answer(s', Rejected(req.ticket))
      else if req.wait.OtherWait? then Answer(s', BadWait(req.ticket))
      else s'.(server := GetLock(req, found.value))
    case GetLock(req, j) =>
      var pc := if req.wait.WaitUpTo? then GetClock(req, j) else GetCheck(req, j, NoDeadline);
      SetJob(s.(server := pc), j, s.heap[j].(owner := Main))
    case GetClock(req, j) =>
      s.(server := GetCheck(req, j, Until(s.books.now, Plus(Reading(s.books.now), req.ms), false)))
    case GetRelock(req, j, wait) => SetJob(s.(server := GetCheck(req, j, wait)), j, s.heap[j].(owner := Main))
    case GetCheck(req, j, wait) =>
      var job := s.heap[j];
      if job.done then
        SetJob(s.(server := GetTakeUnlock(req, j, job.outcome), taken := s.taken + {j}),
               j, job.(outcome := job.outcome.(result := NoValue)))
      else if wait.NoDeadline? || wait.expired then s.(server := GetPendingUnlock(req, j, wait))
      else SetJob(s.(server := GetSleep(req, j, wait)), j, job.(owner := Free))
    case GetPendingUnlock(req, j, _) => Answer(SetJob(s, j, s.heap[j].(owner := Free)), Pending(req.ticket))
    case GetTakeUnlock(req, j, o) => SetJob(s.(server := EraseLock(req, j, o)), j, s.heap[j].(owner := Free))
    case EraseLock(req, j, o) => s.(server := EraseEntry(req, j, o), tableOwner := Main)
    case EraseEntry(req, j, o) => s.(server := EraseUnlock(req, j, o), table := s.table - {req.ticket})
    case EraseUnlock(req, j, o) => Answer(s.(tableOwner := Free), Delivered(req.ticket, o))
    case StopBroadcast => s.(server := Joining, workers := WakeAll(s.workers))
    case Joining => s.(server := Stopped)
  }

  function WakeAll(ws: seq<WorkerPc>): (r: seq<WorkerPc>)
    ensures |r| == |ws|
    ensures forall i :: 0 <= i < |ws| ==> r[i] == if ws[i].WSleep? then WWoken else ws[i]
  {
    seq(|ws|, i requires 0 <= i < |ws| => if ws[i].WSleep? then WWoken else ws[i])
  }

  function NewJob(s: State, p: Payload, stamp: uint64): Job {
    Job(stamp, Tickets.IssuedId(stamp, |s.heap|), p, Free, false, Outcome(NotFinished, NoValue))
  }

  function Step(s: State, a: Action): State
    requires Enabled(s, a)
  {
    match a
    case CallBlocking(p) =>
      Answer(s.(books := Asked(s.books, RunCall(SubmitRequest(Blocking, p)))), Ran(p, Execute(p)))
    case CallSubmit(p, stamp) =>
      s.(server := EnqLockTable(|s.heap|), heap := s.heap + [NewJob(s, p, stamp)],
         books := Asked(s.books, RunCall(SubmitRequest(NonBlocking, p))))
    case CallGet(req) => s.(server := FindLock(req), books := Asked(s.books, GetCall(req)))
    case CallStop => s.(server := StopBroadcast, running := false)
    case ServerMove => ServerStep(s)
    case Signal(i) =>
      var job := s.heap[s.server.job];
      var s' := Answer(s, Issued(job.id, job.payload));
      if i < |s.workers| && s.workers[i].WSleep? then At(s', i, WWoken) else s'
    case ServerWake(expired) =>
      var wait := if expired then s.server.wait.(expired := true) else s.server.wait;
      s.(server := GetRelock(s.server.req, s.server.job, wait))
    case WorkerMove(i) => WorkerStep(s, i)
    case SpuriousWake(i) => At(s, i, WWoken)
    case Tick(d) => s.(books := s.books.(now := s.books.now + d))
  }

  /** A schedule that the engine can follow from `s`, and where it ends. */
  predicate Legal(s: State, schedule: seq<Action>)
    decreases |schedule|
  {
    schedule == [] || (Enabled(s, schedule[0]) && Legal(Step(s, schedule[0]), schedule[1..]))
  }

  function Run(s: State, schedule: seq<Action>): State
    requires Legal(s, schedule)
    decreases |schedule|
  {
    if schedule == [] then s else Run(Step(s, schedule[0]), schedule[1..])
  }
}
