/**
  What the caller of the engine can count on, over whole runs: the k-th answer is the runner's answer
  to the k-th request of the schedule, with the ticket id that the clock readings of the schedule
  call for and with the state of the job asked for; a finished job is delivered, an unfinished one
  is put off, and a timed wait is put off no earlier than its deadline.
 */
module EngineAnswers {
  import opened Ipc
  import opened Operations
  import opened TicketStore
  import opened Deadline
  import opened Engine
  import opened EngineInvariant
  import opened EngineRefinement
  import opened EngineCalls
  import opened EngineProgress
  import opened EngineWork
  import Tickets

  // ---------------------------------------------------------------- what a schedule asks for

  /** The request that an action makes, if it makes one. */
  function Request(a: Action): seq<Call> {
    match a
    case CallBlocking(p) => [RunCall(SubmitRequest(Blocking, p))]
    case CallSubmit(p, _) => [RunCall(SubmitRequest(NonBlocking, p))]
    case CallGet(req) => [GetCall(req)]
    case _ => []
  }

  function Requests(schedule: seq<Action>): seq<Call> {
    if schedule == [] then [] else Request(schedule[0]) + Requests(schedule[1..])
  }

  function Calls(b: Books): seq<Call> { seq(|b.calls|, k requires 0 <= k < |b.calls| => b.calls[k].call) }

  lemma ConcatAssociates<T>(a: seq<T>, b: seq<T>, c: seq<T>)
    ensures a + b + c == a + (b + c)
  {}

  lemma StepEntersRequest(s: State, a: Action)
    requires Enabled(s, a)
    ensures Calls(Step(s, a).books) == Calls(s.books) + Request(a)
  {
    if a.WorkerMove? { WorkerStepFrame(s, a.worker); }
    if a.ServerMove? { ServerAnswersOnce(s); }
  }

  /** The books hold the requests of the schedule, in order. */
  lemma {:induction false} RunEntersRequests(s: State, schedule: seq<Action>)
    requires Legal(s, schedule)
    ensures Calls(Run(s, schedule).books) == Calls(s.books) + Requests(schedule)
    decreases |schedule|
  {
    if schedule != [] {
      var s', rest := Step(s, schedule[0]), schedule[1..];
      StepEntersRequest(s, schedule[0]);
      RunEntersRequests(s', rest);
      ConcatAssociates(Calls(s.books), Request(schedule[0]), Requests(rest));
    }
  }

  /** The clock reading of a submit. */
  function Stamp(a: Action): seq<uint64> { if a.CallSubmit? then [a.stamp] else [] }

  /** The clock readings of the submits of a schedule. */
  function SubmitStamps(schedule: seq<Action>): seq<uint64> {
    if schedule == [] then [] else Stamp(schedule[0]) + SubmitStamps(schedule[1..])
  }

  lemma StepStamps(s: State, a: Action)
    requires Enabled(s, a)
    ensures Stamps(Step(s, a)) == Stamps(s) + Stamp(a)
  {
    var s' := Step(s, a);
    if a.WorkerMove? { WorkerStepKeepsJobs(s, a.worker); }
    if a.ServerMove? { ServerStepFrame(s); }
    assert |s'.heap| == |s.heap| + |Stamp(a)|;
    forall j | 0 <= j < |s.heap| ensures s'.heap[j].stamp == s.heap[j].stamp {
      StepKeepsJobs(s, a);
      assert SameJob(s.heap[j], s'.heap[j]);
    }
  }

  /** Every job is stamped with the clock reading of the submit that made it. */
  lemma {:induction false} RunStamps(s: State, schedule: seq<Action>)
    requires Legal(s, schedule)
    ensures Stamps(Run(s, schedule)) == Stamps(s) + SubmitStamps(schedule)
    decreases |schedule|
  {
    if schedule != [] {
      var s', rest := Step(s, schedule[0]), schedule[1..];
      StepStamps(s, schedule[0]);
      RunStamps(s', rest);
      ConcatAssociates(Stamps(s), Stamp(schedule[0]), SubmitStamps(rest));
    }
  }

  /** The time that passes in a schedule. */
  function Elapsed(schedule: seq<Action>): nat {
    if schedule == [] then 0 else (if schedule[0].Tick? then schedule[0].nanos else 0) + Elapsed(schedule[1..])
  }

  lemma StepTakesTime(s: State, a: Action)
    requires Enabled(s, a)
    ensures Step(s, a).books.now == s.books.now + (if a.Tick? then a.nanos else 0)
  {
    if a.WorkerMove? { WorkerStepFrame(s, a.worker); }
    if a.ServerMove? { ServerTakesNoTime(s); }
  }

  lemma ServerTakesNoTime(s: State)
    requires ServerEnabled(s)
    ensures ServerStep(s).books.now == s.books.now
  {}

  lemma {:induction false} RunTakesTime(s: State, schedule: seq<Action>)
    requires Legal(s, schedule)
    ensures Run(s, schedule).books.now == s.books.now + Elapsed(schedule)
    decreases |schedule|
  {
    if schedule != [] {
      StepTakesTime(s, schedule[0]);
      RunTakesTime(Step(s, schedule[0]), schedule[1..]);
    }
  }

  // ---------------------------------------------------------------- ticket ids

  function IssuedIn(log: seq<Event>): nat {
    if log == [] then 0 else IssuedIn(log[..|log| - 1]) + if log[|log| - 1].Issued? then 1 else 0
  }

  /** The k-th ticket handed out is that of the k-th job made. */
  ghost predicate TicketsInOrder(s: State) {
    && IssuedIn(s.books.log) == Ticketed(s)
    && forall k :: 0 <= k < |s.books.log| && s.books.log[k].Issued? ==> TicketOfJob(s, k)
  }

  ghost predicate TicketOfJob(s: State, k: nat)
    requires k < |s.books.log| && s.books.log[k].Issued?
  {
    var j := IssuedIn(s.books.log[..k]);
    j < |s.heap| && s.books.log[k].id == s.heap[j].id
  }

  /** Jobs made whose ticket has been handed out. */
  function Ticketed(s: State): int { |s.heap| - if Enqueuing(s.server) then 1 else 0 }

  lemma StepMovesEnqueue(s: State, a: Action)
    requires InOrder(s) && Enabled(s, a)
    ensures var s' := Step(s, a);
            if |s'.books.log| > |s.books.log| && s'.books.log[|s.books.log|].Issued?
            then Ticketed(s') == Ticketed(s) + 1 else Ticketed(s') == Ticketed(s)
  {
    if a.WorkerMove? { WorkerStepFrame(s, a.worker); }
    if a.ServerMove? { ServerKeepsEnqueue(s); }
  }

  lemma ServerKeepsEnqueue(s: State)
    requires ServerEnabled(s)
    ensures var s' := ServerStep(s);
            && |s'.heap| == |s.heap| && Enqueuing(s'.server) == Enqueuing(s.server)
            && (|s'.books.log| > |s.books.log| ==> !s'.books.log[|s.books.log|].Issued?)
  {}

  /** A ticket handed out stays that of its job, whatever is logged and made later. */
  lemma TicketStays(s: State, s': State, k: nat)
    requires SameJobs(s, s') && s.books.log <= s'.books.log
    requires k < |s.books.log| && s.books.log[k].Issued? && TicketOfJob(s, k)
    ensures TicketOfJob(s', k)
  {
    var j := IssuedIn(s.books.log[..k]);
    assert s'.books.log[..k] == s.books.log[..k];
    assert SameJob(s.heap[j], s'.heap[j]);
  }

  lemma NewTicketInOrder(s: State, s': State)
    requires InOrder(s) && TicketsInOrder(s) && LogGrows(s, s') && SameJobs(s, s')
    requires |s'.books.log| > |s.books.log| && s'.books.log[|s.books.log|].Issued?
    ensures TicketOfJob(s', |s.books.log|)
  {
    assert SameJob(s.heap[s.server.job], s'.heap[s.server.job]);
  }

  lemma OrderKept(s: State, s': State)
    requires InOrder(s) && TicketsInOrder(s) && LogGrows(s, s') && SameJobs(s, s')
    requires if |s'.books.log| > |s.books.log| && s'.books.log[|s.books.log|].Issued?
             then Ticketed(s') == Ticketed(s) + 1 else Ticketed(s') == Ticketed(s)
    ensures TicketsInOrder(s')
  {
    forall k | 0 <= k < |s'.books.log| && s'.books.log[k].Issued? ensures TicketOfJob(s', k) {
      if k < |s.books.log| { TicketStays(s, s', k); } else { NewTicketInOrder(s, s'); }
    }
  }

  lemma StepKeepsTicketsInOrder(s: State, a: Action)
    requires Inv(s) && TicketsInOrder(s) && Enabled(s, a)
    ensures TicketsInOrder(Step(s, a))
  {
    StepAnswersOnce(s, a);
    StepMovesEnqueue(s, a);
    StepKeepsJobs(s, a);
    OrderKept(s, Step(s, a));
  }

  lemma {:induction false} RunKeepsTicketsInOrder(s: State, schedule: seq<Action>)
    requires Inv(s) && TicketsInOrder(s) && Legal(s, schedule)
    ensures TicketsInOrder(Run(s, schedule))
    decreases |schedule|
  {
    if schedule != [] {
      StepKeepsInv(s, schedule[0]);
      StepKeepsTicketsInOrder(s, schedule[0]);
      RunKeepsTicketsInOrder(Step(s, schedule[0]), schedule[1..]);
    }
  }

  /** The id of the ticket that the next submit gets: its clock reading, and how many went before. */
  function NextId(stamps: seq<uint64>, issued: nat): TicketId {
    if issued < |stamps| then Tickets.IssuedId(stamps[issued], issued) else 0
  }

  /** In every run, a ticket's id is made of the clock reading of its own submit and the number of tickets before it. */
  lemma IdsComeFromTheClock(n: nat, schedule: seq<Action>, k: nat)
    requires Legal(Init(n), schedule)
    requires var log := Run(Init(n), schedule).books.log; k < |log| && log[k].Issued?
    ensures var log := Run(Init(n), schedule).books.log;
            && IssuedIn(log[..k]) < |SubmitStamps(schedule)|
            && log[k].id == NextId(SubmitStamps(schedule), IssuedIn(log[..k]))
  {
    RunIsOrderly(n, schedule);
    IdFromStamp(Run(Init(n), schedule), k);
  }

  lemma IdFromStamp(s: State, k: nat)
    requires Jobs(s) && TicketsInOrder(s) && k < |s.books.log| && s.books.log[k].Issued?
    ensures IssuedIn(s.books.log[..k]) < |Stamps(s)|
    ensures s.books.log[k].id == NextId(Stamps(s), IssuedIn(s.books.log[..k]))
  {
    assert TicketOfJob(s, k);
    assert JobOk(s, IssuedIn(s.books.log[..k]));
  }

  /**
    Over every run in which the clock readings of the submits are monotone and span less than 2^48 ns,
    all ids are distinct exactly when these readings move within any 65536 submits; and then no id is
    reissued while its ticket is open.
   */
  lemma DistinctIffClockAdvances(n: nat, schedule: seq<Action>)
    requires Legal(Init(n), schedule) && Tickets.Monotone(SubmitStamps(schedule))
    ensures var s := Run(Init(n), schedule);
            && (DistinctIds(s) <==> Tickets.Advances(SubmitStamps(schedule)))
            && (DistinctIds(s) ==> !s.books.reissued)
  {
    InitInv(n);
    RunIsOrderly(n, schedule);
    RunKeepsReissueMeansRepeat(Init(n), schedule);
    DistinctIffAdvances(Run(Init(n), schedule));
  }

  // ---------------------------------------------------------------- the engine is a runner

  /**
    The k-th answer, and the table it leaves, are those that `RunnerRun` and `RunnerGet` give to the
    k-th request, with the id that the clock readings call for, and finished exactly if the job asked
    for was done when the answer was given.
   */
  ghost predicate IsRunnerAnswer(b: Books, requests: seq<Call>, stamps: seq<uint64>, k: nat) {
    && k < |b.log| && k < |requests| && k < |b.finished|
    && Replay(b.log[..k]).Some? && Replay(b.log[..k + 1]).Some?
    && RunnerAnswer(Replay(b.log[..k]).value, requests[k], Choice(NextId(stamps, IssuedIn(b.log[..k])), b.finished[k]))
       == RunnerReply(Replay(b.log[..k + 1]).value, EventAnswer(b.log[k]))
  }

  /** The engine is a runner: for every number of workers and every schedule, it answers the schedule's requests as one. */
  lemma EngineIsARunner(n: nat, schedule: seq<Action>, k: nat)
    requires Legal(Init(n), schedule) && !Run(Init(n), schedule).books.reissued
    requires k < |Run(Init(n), schedule).books.log|
    ensures IsRunnerAnswer(Run(Init(n), schedule).books, Requests(schedule), SubmitStamps(schedule), k)
  {
    EngineRefinesStore(n, schedule);
    RunIsOrderly(n, schedule);
    AnswerIsRunners(Run(Init(n), schedule), k);
  }

  lemma RunIsOrderly(n: nat, schedule: seq<Action>)
    requires Legal(Init(n), schedule)
    ensures var s := Run(Init(n), schedule);
            && Inv(s) && BooksOk(s) && TicketsInOrder(s)
            && Calls(s.books) == Requests(schedule) && Stamps(s) == SubmitStamps(schedule)
  {
    InitInv(n);
    RunKeepsInv(Init(n), schedule);
    RunKeepsBooks(Init(n), schedule);
    RunKeepsTicketsInOrder(Init(n), schedule);
    RunEntersRequests(Init(n), schedule);
    RunStamps(Init(n), schedule);
  }

  lemma AnswerIsRunners(s: State, k: nat)
    requires Jobs(s) && BooksOk(s) && TicketsInOrder(s) && Replay(s.books.log).Some? && k < |s.books.log|
    ensures IsRunnerAnswer(s.books, Calls(s.books), Stamps(s), k)
  {
    var b := s.books;
    assert Settled(b.calls[k], b.log[k], b.answeredAt[k], b.finished[k]);
    if b.log[k].Issued? { IdFromStamp(s, k); }
    AnswerFitsStore(b.log, b.calls[k].call, k, Choice(NextId(Stamps(s), IssuedIn(b.log[..k])), b.finished[k]));
  }

  lemma AnswerFitsStore(log: seq<Event>, call: Call, k: nat, choice: Choice)
    requires Replay(log).Some? && k < |log| && Fits(call, log[k]) && Agrees(log[k], choice)
    ensures Replay(log[..k]).Some? && Replay(log[..k + 1]).Some?
    ensures RunnerAnswer(Replay(log[..k]).value, call, choice)
            == RunnerReply(Replay(log[..k + 1]).value, EventAnswer(log[k]))
  {
    EventAllowed(log, k);
    assert log[..k + 1] == log[..k] + [log[k]];
    ReplayAppend(log[..k], log[k]);
    StoreEventIsRunnerAnswer(Replay(log[..k]).value, call, log[k], choice);
  }

  // ---------------------------------------------------------------- what a `get` is answered

  /** Over every run, NOT_FINISHED is answered only while the job behind the ticket is not done. */
  lemma NotFinishedMeansNotDone(s: State, a: Action, id: TicketId)
    requires Reachable(s) && Enabled(s, a) && Step(s, a).books.log == s.books.log + [Pending(id)]
    ensures id in s.table && s.table[id] < |s.heap| && !s.heap[s.table[id]].done
  {
    ReachableBooks(s);
    StepAnswersPending(s, a, id);
  }

  lemma StepAnswersPending(s: State, a: Action, id: TicketId)
    requires Enabled(s, a) && Step(s, a).books.log == s.books.log + [Pending(id)]
    ensures s.server.GetPendingUnlock? && s.server.req.ticket == id
  {
    assert Step(s, a).books.log[|s.books.log|] == Pending(id);
    if a.WorkerMove? { WorkerStepFrame(s, a.worker); }
    if a.ServerMove? { ServerAnswersPending(s, id); }
  }

  lemma ServerAnswersPending(s: State, id: TicketId)
    requires ServerEnabled(s) && ServerStep(s).books.log == s.books.log + [Pending(id)]
    ensures s.server.GetPendingUnlock? && s.server.req.ticket == id
  {
    assert ServerStep(s).books.log != s.books.log;
    assert ServerStep(s).books.log[|s.books.log|] == Pending(id);
  }

  lemma ReachableBooks(s: State)
    requires Reachable(s)
    ensures Inv(s) && BooksOk(s)
  {
    var n: nat, schedule :| Legal(Init(n), schedule) && s == Run(Init(n), schedule);
    InitInv(n);
    RunKeepsInv(Init(n), schedule);
    RunKeepsBooks(Init(n), schedule);
  }

  /** A `get` is on its way to deliver job `j`, which is done. */
  ghost predicate Delivering(s: State, req: GetRequest, j: nat, p: Payload) {
    && j < |s.heap| && s.heap[j].done && s.heap[j].payload == p
    && (Finding(s.server) || Getting(s.server) || Erasing(s.server) || s.server.EraseUnlock?)
    && s.server.req == req && !s.server.GetPendingUnlock?
    && if s.server.FindUnlock? then s.server.found == Some(j)
       else if Finding(s.server) then req.ticket in s.table && s.table[req.ticket] == j
       else s.server.job == j
  }

  predicate Finding(pc: ServerPc) { pc.FindLock? || pc.FindLookup? || pc.FindUnlock? }

  /** The next step keeps it on its way, or delivers. */
  ghost predicate Nearer(s: State, s': State, req: GetRequest, j: nat, p: Payload) {
    || (s'.books.log == s.books.log && Delivering(s', req, j, p))
    || s'.books.log == s.books.log + [Delivered(req.ticket, Execute(p))]
  }

  lemma WorkerKeepsDelivering(s: State, i: nat, req: GetRequest, j: nat, p: Payload)
    requires WorkerEnabled(s, i) && Delivering(s, req, j, p)
    ensures Nearer(s, WorkerStep(s, i), req, j, p)
  {
    WorkerStepFrame(s, i);
    WorkerUndoesNothing(s, i, j);
  }

  lemma WorkerUndoesNothing(s: State, i: nat, j: nat)
    requires WorkerEnabled(s, i) && j < |s.heap| && s.heap[j].done
    ensures j < |WorkerStep(s, i).heap| && WorkerStep(s, i).heap[j].done
  {}

  lemma FindKeepsDelivering(s: State, req: GetRequest, j: nat, p: Payload)
    requires ServerEnabled(s) && Delivering(s, req, j, p) && !req.wait.OtherWait?
    requires Finding(s.server)
    ensures Nearer(s, ServerStep(s), req, j, p)
  {}

  lemma GetKeepsDelivering(s: State, req: GetRequest, j: nat, p: Payload)
    requires ServerEnabled(s) && Delivering(s, req, j, p) && Getting(s.server)
    ensures Nearer(s, ServerStep(s), req, j, p)
  {}

  lemma EraseDelivers(s: State, req: GetRequest, j: nat, p: Payload)
    requires Focus(s) && ServerEnabled(s) && Delivering(s, req, j, p) && (Erasing(s.server) || s.server.EraseUnlock?)
    ensures Nearer(s, ServerStep(s), req, j, p)
  {}

  lemma StepTowardsDelivery(s: State, a: Action, req: GetRequest, j: nat, p: Payload)
    requires Inv(s) && Enabled(s, a) && Delivering(s, req, j, p) && !req.wait.OtherWait?
    ensures Nearer(s, Step(s, a), req, j, p)
  {
    match a
    case WorkerMove(i) => WorkerKeepsDelivering(s, i, req, j, p);
    case ServerMove =>
      if Getting(s.server) {
        GetKeepsDelivering(s, req, j, p);
      } else if Erasing(s.server) || s.server.EraseUnlock? {
        EraseDelivers(s, req, j, p);
      } else {
        FindKeepsDelivering(s, req, j, p);
      }
    case _ =>
  }

  lemma {:induction false} RunDelivers(s: State, schedule: seq<Action>, req: GetRequest, j: nat, p: Payload)
    requires Inv(s) && Legal(s, schedule) && Delivering(s, req, j, p) && !req.wait.OtherWait?
    ensures var s' := Run(s, schedule);
            |s'.books.log| > |s.books.log| ==> s'.books.log[|s.books.log|] == Delivered(req.ticket, Execute(p))
    decreases |schedule|
  {
    if schedule != [] {
      var s', rest := Step(s, schedule[0]), schedule[1..];
      StepTowardsDelivery(s, schedule[0], req, j, p);
      StepKeepsInv(s, schedule[0]);
      if s'.books.log == s.books.log { RunDelivers(s', rest, req, j, p); } else { RunExtendsBooks(s', rest); }
    }
  }

  /**
    A finished job is delivered: a `get` with either wait mode, made after the outcome of its job was
    stored, is answered with the outcome of the payload submitted, under every schedule. And it is
    answered, once the threads have done what they can.
   */
  lemma FinishedJobIsDelivered(s: State, req: GetRequest, schedule: seq<Action>)
    requires Reachable(s) && s.server.Idle? && !req.wait.OtherWait? && Legal(Step(s, CallGet(req)), schedule)
    requires req.ticket in s.table && s.table[req.ticket] < |s.heap| && s.heap[s.table[req.ticket]].done
    ensures var s' := Run(Step(s, CallGet(req)), schedule);
            && (|s'.books.log| > |s.books.log| ==>
                  s'.books.log[|s.books.log|] == Delivered(req.ticket, Execute(s.heap[s.table[req.ticket]].payload)))
            && (Still(s') && (forall k :: 0 <= k < |schedule| ==> Unprompted(schedule[k])) ==>
                  |s'.books.log| > |s.books.log|)
  {
    var called, j := Step(s, CallGet(req)), s.table[req.ticket];
    ReachableBooks(s);
    StepKeepsInv(s, CallGet(req));
    RunDelivers(called, schedule, req, j, s.heap[j].payload);
    if Still(Run(called, schedule)) && (forall k :: 0 <= k < |schedule| ==> Unprompted(schedule[k])) {
      assert JobOk(s, j) && Started(s, j);
      GetIsAnswered(s, req, schedule);
    }
  }

  lemma GetIsAnswered(s: State, req: GetRequest, schedule: seq<Action>)
    requires Reachable(s) && s.server.Idle? && Legal(Step(s, CallGet(req)), schedule) && |s.workers| > 0
    requires Still(Run(Step(s, CallGet(req)), schedule))
    requires forall k :: 0 <= k < |schedule| ==> Unprompted(schedule[k])
    ensures |Run(Step(s, CallGet(req)), schedule).books.log| > |s.books.log|
  {
    var called := Step(s, CallGet(req));
    var s' := Run(called, schedule);
    ReachableBooks(s);
    ReachableStep(s, CallGet(req));
    StepKeepsInv(s, CallGet(req));
    WorkIsFinished(called, schedule);
    WorkersStay(called, schedule);
    ReachableRun(called, schedule);
    ReachableBooks(s');
    RunExtendsBooks(called, schedule);
  }

  lemma {:induction false} WorkersStay(s: State, schedule: seq<Action>)
    requires Legal(s, schedule)
    ensures |Run(s, schedule).workers| == |s.workers|
    decreases |schedule|
  {
    if schedule != [] {
      if schedule[0].WorkerMove? { WorkerStepFrame(s, schedule[0].worker); }
      if schedule[0].ServerMove? { ServerStepFrame(s); }
      WorkersStay(Step(s, schedule[0]), schedule[1..]);
    }
  }

  /** Every answer is to the request made at its place, and NOT_FINISHED comes no earlier than the deadline. */
  lemma AnswersAreInTime(n: nat, schedule: seq<Action>, k: nat)
    requires Legal(Init(n), schedule) && k < |Run(Init(n), schedule).books.log|
    ensures var b := Run(Init(n), schedule).books;
            && k < |b.calls| && k < |b.answeredAt|
            && b.calls[k].at <= b.answeredAt[k]
            && (b.calls[k].call.GetCall? && b.calls[k].call.get.wait.WaitUpTo? && b.log[k].Pending? ==>
                  b.calls[k].at + b.calls[k].call.get.ms * NANOS_PER_MS <= b.answeredAt[k])
  {
    InitInv(n);
    RunKeepsBooks(Init(n), schedule);
  }

  /** A WAIT_UP_TO request is put off only in a schedule in which at least its milliseconds pass. */
  lemma PuttingOffTakesTime(s: State, req: GetRequest, schedule: seq<Action>)
    requires Reachable(s) && s.server.Idle? && req.wait.WaitUpTo? && Legal(Step(s, CallGet(req)), schedule)
    requires var log := Run(Step(s, CallGet(req)), schedule).books.log;
             |log| > |s.books.log| && log[|s.books.log|].Pending?
    ensures Elapsed(schedule) >= req.ms * NANOS_PER_MS
  {
    var called := Step(s, CallGet(req));
    var b := Run(called, schedule).books;
    ReachableBooks(s);
    ReachableStep(s, CallGet(req));
    ReachableRun(called, schedule);
    ReachableBooks(Run(called, schedule));
    RunTakesTime(called, schedule);
    RunExtendsBooks(called, schedule);
    var k := |s.books.log|;
    assert called.books.calls[k] == Called(GetCall(req), s.books.now);
    assert Settled(b.calls[k], b.log[k], b.answeredAt[k], b.finished[k]);
  }

  /** A sleeping `get` can time out exactly from its milliseconds after its clock reading on. */
  lemma TimeOutIff(s: State)
    requires Reachable(s) && s.server.GetSleep?
    ensures s.server.wait.Until? && s.server.req.wait.WaitUpTo?
    ensures Enabled(s, ServerWake(true)) <==> s.server.wait.since + s.server.req.ms * NANOS_PER_MS <= s.books.now
  {
    ReachableBooks(s);
    PlusIsExact(Reading(s.server.wait.since), s.server.req.ms);
  }

  /** Only a request with WAIT_UP_TO ever sleeps. */
  lemma OnlyTimedGetsSleep(n: nat, schedule: seq<Action>)
    requires Legal(Init(n), schedule) && Run(Init(n), schedule).server.GetSleep?
    ensures var requests, log := Requests(schedule), Run(Init(n), schedule).books.log;
            && |requests| == |log| + 1
            && requests[|log|].GetCall? && requests[|log|].get.wait.WaitUpTo?
  {
    RunIsOrderly(n, schedule);
    assert Calls(Run(Init(n), schedule).books) == Requests(schedule);
  }
}
