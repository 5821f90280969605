/**
  Requests and their answers: every step keeps them in step, each answer with the deadline of its
  request and with the state of the job it asked for. Module EngineAnswers has what follows for runs.
 */
module EngineCalls {
  import opened Ipc
  import opened TicketStore
  import opened Engine
  import opened EngineInvariant
  import opened Deadline

  /** The server thread is working on a request. */
  predicate InCall(pc: ServerPc) { !pc.Idle? && !Stopping(pc) }

  predicate HasWait(pc: ServerPc) { pc.GetCheck? || pc.GetSleep? || pc.GetRelock? || pc.GetPendingUnlock? }

  /** The request in progress is the one the server thread is working on. */
  ghost predicate Current(s: State, c: Called) {
    && c.at <= s.books.now
    && (InCall(s.server) ==>
          if Enqueuing(s.server)
          then s.server.job < |s.heap| && s.heap[s.server.job].payload != NoPayload
               && c.call == RunCall(SubmitRequest(NonBlocking, s.heap[s.server.job].payload))
          else c.call == GetCall(s.server.req))
    && (HasWait(s.server) ==> OnTime(s.server.wait, s.server.req.ms, c.at, s.books.now))
    && (s.server.GetPendingUnlock? ==> s.server.job < |s.heap| && !s.heap[s.server.job].done)
  }

  /** The deadline was computed after the call, and has come if the wait has timed out. */
  predicate OnTime(wait: Wait, ms: uint32, at: nat, now: nat) {
    wait.Until? ==>
      && at <= wait.since <= now
      && wait.deadline == Plus(Reading(wait.since), ms)
      && (wait.expired ==> wait.deadline.Nanos() <= now)
  }

  /**
    The answer fits the request, comes after it, is final exactly if the job was done by then, and is
    NOT_FINISHED to a timed wait only past its deadline.
   */
  ghost predicate Settled(c: Called, e: Event, at: nat, finished: bool) {
    && Fits(c.call, e)
    && c.at <= at
    && (e.Pending? || e.Delivered? ==> (e.Delivered? <==> finished))
    && (e.Pending? && c.call.GetCall? && c.call.get.wait.WaitUpTo? ==>
          c.at + c.call.get.ms * NANOS_PER_MS <= at)
  }

  ghost predicate BooksOk(s: State) {
    var b := s.books;
    && |b.answeredAt| == |b.finished| == |b.log|
    && |b.calls| == |b.log| + (if InCall(s.server) then 1 else 0)
    && (InCall(s.server) ==> Current(s, b.calls[|b.log|]))
    && forall k :: 0 <= k < |b.log| ==>
         Settled(b.calls[k], b.log[k], b.answeredAt[k], b.finished[k]) && b.answeredAt[k] <= b.now
  }

  // ---------------------------------------------------------------- preservation

  /** A step within a request. */
  lemma KeptWithinCall(s: State, s': State)
    requires BooksOk(s) && s'.books == s.books && InCall(s'.server) == InCall(s.server)
    requires InCall(s.server) ==> Current(s', s.books.calls[|s.books.log|])
    ensures BooksOk(s')
  {}

  /** A step that answers the request in progress. */
  lemma KeptByAnswer(s: State, s': State, e: Event)
    requires BooksOk(s) && InCall(s.server) && s'.server.Idle? && s'.books == Answered(s.books, e, JobDone(s))
    requires Settled(s.books.calls[|s.books.log|], e, s.books.now, JobDone(s))
    ensures BooksOk(s')
  {}

  /** While the server thread holds a job's mutex, no worker touches the job. */
  lemma LockedJobStays(s: State, i: nat, j: nat)
    requires WorkerEnabled(s, i) && WorkerLock(s, i) && j < |s.heap| && s.heap[j].owner == Main
    ensures WorkerStep(s, i).heap[j] == s.heap[j]
  {}

  lemma BooksKeptByWorker(s: State, i: nat)
    requires Inv(s) && BooksOk(s) && WorkerEnabled(s, i)
    ensures BooksOk(WorkerStep(s, i))
  {
    WorkerStepFrame(s, i);
    if s.server.GetPendingUnlock? {
      assert WorkerLock(s, i) && JobLock(s, s.server.job);
      LockedJobStays(s, i, s.server.job);
    }
    KeptWithinCall(s, WorkerStep(s, i));
  }

  lemma BooksKeptByEnqueue(s: State)
    requires Inv(s) && BooksOk(s) && ServerEnabled(s) && Enqueuing(s.server)
    ensures BooksOk(ServerStep(s))
  {
    var s' := ServerStep(s);
    var c := s.books.calls[|s.books.log|];
    assert Current(s', c);
    assert forall k :: 0 <= k < |s.books.log| ==> 
             Settled(s.books.calls[k], s.books.log[k], s.books.answeredAt[k], s.books.finished[k]);
  }

  lemma BooksKeptByFind(s: State)
    requires Inv(s) && BooksOk(s) && ServerEnabled(s)
    requires s.server.FindLock? || s.server.FindLookup? || s.server.FindUnlock?
    ensures BooksOk(ServerStep(s))
  {
    var s', req := ServerStep(s), s.server.req;
    if InCall(s'.server) {
      KeptWithinCall(s, s');
    } else {
      KeptByAnswer(s, s', if s.server.found.None? then Rejected(req.ticket) else BadWait(req.ticket));
    }
  }

  lemma BooksKeptByPending(s: State)
    requires Inv(s) && BooksOk(s) && ServerEnabled(s) && s.server.GetPendingUnlock?
    ensures BooksOk(ServerStep(s))
  {
    if s.server.wait.Until? { PlusIsExact(Reading(s.server.wait.since), s.server.req.ms); }
    KeptByAnswer(s, ServerStep(s), Pending(s.server.req.ticket));
  }

  lemma CurrentKeptByGet(s: State, c: Called)
    requires ServerEnabled(s) && Getting(s.server) && !s.server.GetPendingUnlock? && Current(s, c)
    ensures var s' := ServerStep(s); s'.books == s.books && InCall(s'.server) && Current(s', c)
  {
    if s.server.GetCheck? { CurrentKeptByCheck(s, c); }
  }

  lemma CurrentKeptByCheck(s: State, c: Called)
    requires ServerEnabled(s) && s.server.GetCheck? && Current(s, c)
    ensures var s' := ServerStep(s); s'.books == s.books && InCall(s'.server) && Current(s', c)
  {}

  lemma BooksKeptByGet(s: State)
    requires Inv(s) && BooksOk(s) && ServerEnabled(s) && Getting(s.server)
    ensures BooksOk(ServerStep(s))
  {
    if s.server.GetPendingUnlock? {
      BooksKeptByPending(s);
    } else {
      CurrentKeptByGet(s, s.books.calls[|s.books.log|]);
      KeptWithinCall(s, ServerStep(s));
    }
  }

  lemma BooksKeptByErase(s: State)
    requires BooksOk(s) && ServerEnabled(s) && Erasing(s.server)
    ensures BooksOk(ServerStep(s))
  {
    KeptWithinCall(s, ServerStep(s));
  }

  lemma BooksKeptByDelivery(s: State)
    requires Inv(s) && BooksOk(s) && s.server.EraseUnlock?
    ensures BooksOk(ServerStep(s))
  {
    KeptByAnswer(s, ServerStep(s), Delivered(s.server.req.ticket, s.server.out));
  }

  lemma BooksKeptByStop(s: State)
    requires Inv(s) && BooksOk(s) && ServerEnabled(s) && Stopping(s.server)
    ensures BooksOk(ServerStep(s))
  {
    KeptWithinCall(s, ServerStep(s));
  }

  lemma BooksKeptBySignal(s: State, i: nat)
    requires Inv(s) && BooksOk(s) && Enabled(s, Signal(i))
    ensures BooksOk(Step(s, Signal(i)))
  {
    var job := s.heap[s.server.job];
    KeptByAnswer(s, Step(s, Signal(i)), Issued(job.id, job.payload));
  }

  lemma BooksKeptByCall(s: State, a: Action)
    requires Inv(s) && BooksOk(s) && Enabled(s, a)
    requires a.CallBlocking? || a.CallSubmit? || a.CallGet?
    ensures BooksOk(Step(s, a))
  {}

  lemma BooksKeptByWake(s: State, a: Action)
    requires Inv(s) && BooksOk(s) && Enabled(s, a)
    requires a.CallStop? || a.ServerWake? || a.SpuriousWake? || a.Tick?
    ensures BooksOk(Step(s, a))
  {
    var s' := Step(s, a);
    if InCall(s.server) { assert Current(s', s.books.calls[|s.books.log|]); }
  }

  lemma StepKeepsBooks(s: State, a: Action)
    requires Inv(s) && BooksOk(s) && Enabled(s, a)
    ensures BooksOk(Step(s, a))
  {
    match a
    case WorkerMove(i) => BooksKeptByWorker(s, i);
    case ServerMove =>
      if Enqueuing(s.server) {
        BooksKeptByEnqueue(s);
      } else if Getting(s.server) {
        BooksKeptByGet(s);
      } else if Erasing(s.server) {
        BooksKeptByErase(s);
      } else if s.server.EraseUnlock? {
        BooksKeptByDelivery(s);
      } else if Stopping(s.server) {
        BooksKeptByStop(s);
      } else {
        BooksKeptByFind(s);
      }
    case Signal(i) => BooksKeptBySignal(s, i);
    case CallBlocking(_) => BooksKeptByCall(s, a);
    case CallSubmit(_, _) => BooksKeptByCall(s, a);
    case CallGet(_) => BooksKeptByCall(s, a);
    case _ => BooksKeptByWake(s, a);
  }

  lemma {:induction false} RunKeepsBooks(s: State, schedule: seq<Action>)
    requires Inv(s) && BooksOk(s) && Legal(s, schedule)
    ensures BooksOk(Run(s, schedule))
    decreases |schedule|
  {
    if schedule != [] {
      StepKeepsInv(s, schedule[0]);
      StepKeepsBooks(s, schedule[0]);
      RunKeepsBooks(Step(s, schedule[0]), schedule[1..]);
    }
  }

  // ---------------------------------------------------------------- how the books grow

  /** A step gives at most one answer; only the signal that ends `enqueue` hands out a ticket. */
  ghost predicate LogGrows(s: State, s': State) {
    var log, log' := s.books.log, s'.books.log;
    || log' == log
    || (&& |log'| == |log| + 1 && log'[..|log|] == log
        && (log'[|log|].Issued? ==>
              s.server.EnqSignal? && s.server.job < |s.heap| && log'[|log|].id == s.heap[s.server.job].id))
  }

  lemma StepAnswersOnce(s: State, a: Action)
    requires Enabled(s, a)
    ensures LogGrows(s, Step(s, a))
  {
    if a.WorkerMove? { WorkerStepFrame(s, a.worker); }
    if a.ServerMove? { ServerAnswersOnce(s); }
  }

  lemma ServerAnswersOnce(s: State)
    requires ServerEnabled(s)
    ensures LogGrows(s, ServerStep(s)) && ServerStep(s).books.calls == s.books.calls
  {}

  ghost predicate Extends(b: Books, b': Books) {
    b.log <= b'.log && b.calls <= b'.calls && b.answeredAt <= b'.answeredAt && b.now <= b'.now
  }

  lemma StepExtendsBooks(s: State, a: Action)
    requires Enabled(s, a)
    ensures Extends(s.books, Step(s, a).books)
  {
    if a.WorkerMove? { WorkerStepFrame(s, a.worker); }
    if a.ServerMove? { ServerExtendsBooks(s); }
  }

  lemma ServerExtendsBooks(s: State)
    requires ServerEnabled(s)
    ensures Extends(s.books, ServerStep(s).books)
  {}

  lemma {:induction false} RunExtendsBooks(s: State, schedule: seq<Action>)
    requires Legal(s, schedule)
    ensures Extends(s.books, Run(s, schedule).books)
    decreases |schedule|
  {
    if schedule != [] {
      StepExtendsBooks(s, schedule[0]);
      RunExtendsBooks(Step(s, schedule[0]), schedule[1..]);
    }
  }
}
