/**
  Whatever the workers and the scheduler do, the server thread cannot tell the engine from the
  atomic ticket store: as long as no id is issued again while its ticket is open, the history of
  answers is one the store allows, and between requests the table holds exactly the open tickets.
 */
module EngineRefinement {
  import opened Ipc
  import opened Operations
  import opened TicketStore
  import opened Engine
  import opened EngineInvariant
  import Tickets

  ghost predicate DistinctIds(s: State) {
    forall i, j :: 0 <= i < j < |s.heap| ==> s.heap[i].id != s.heap[j].id
  }

  /** The table as it will have been when the request in progress is answered. */
  function Visible(s: State): map<TicketId, nat>
    requires Enqueuing(s.server) ==> s.server.job < |s.heap|
  {
    if Enqueuing(s.server) && !Uninserted(s.server) then s.table - {s.heap[s.server.job].id}
    else if s.server.EraseUnlock? then s.table[s.server.req.ticket := s.server.job]
    else s.table
  }

  /** The abstract store that the engine stands for. */
  ghost function View(s: State): Store
    requires Table(s) && InOrder(s)
  {
    var v := Visible(s);
    assert forall id :: id in s.table ==> Entry(s, id, s.table[id]);
    map id | id in v :: s.heap[v[id]].payload
  }

  /** Every job that is not collected can be found under its id. */
  ghost predicate Complete(s: State) {
    forall k :: 0 <= k < |s.heap| && Findable(s, k) ==> InTable(s, k)
  }

  predicate Findable(s: State, k: nat) {
    && !(Uninserted(s.server) && s.server.job == k)
    && (k in s.taken ==> Erasing(s.server) && s.server.job == k)
  }

  predicate InTable(s: State, k: nat)
    requires k < |s.heap|
  {
    s.heap[k].id in s.table && s.table[s.heap[k].id] == k
  }

  ghost predicate Faithful(s: State)
    requires Inv(s)
  {
    !s.books.reissued ==> Complete(s) && Replay(s.books.log) == Some(View(s))
  }

  /** Nothing that identifies a job has changed; jobs may have been added. */
  ghost predicate SameJobs(s: State, s': State) {
    |s.heap| <= |s'.heap| && forall j :: 0 <= j < |s.heap| ==> SameJob(s.heap[j], s'.heap[j])
  }

  lemma VisibleInHeap(s: State, id: TicketId)
    requires Table(s) && InOrder(s) && id in Visible(s)
    ensures Visible(s)[id] < |s.heap|
  {
    assert id in s.table ==> Entry(s, id, s.table[id]);
  }

  lemma SameView(s: State, s': State)
    requires Inv(s) && Inv(s') && SameJobs(s, s') && Visible(s') == Visible(s)
    ensures View(s') == View(s)
  {
    var v := Visible(s);
    forall id | id in v ensures v[id] < |s.heap| && SameJob(s.heap[v[id]], s'.heap[v[id]]) {
      VisibleInHeap(s, id);
    }
  }

  /** No job becomes findable. */
  ghost predicate NoneAppear(s: State, s': State) {
    forall k: nat :: k < |s'.heap| && Findable(s', k) ==> k < |s.heap| && Findable(s, k)
  }

  lemma StillComplete(s: State, s': State)
    requires Complete(s) && SameJobs(s, s') && NoneAppear(s, s') && s'.table == s.table
    ensures Complete(s')
  {
    forall k | 0 <= k < |s'.heap| && Findable(s', k) ensures InTable(s', k) {
      assert InTable(s, k) && SameJob(s.heap[k], s'.heap[k]);
    }
  }

  /** A step that changes nothing the caller can see. */
  lemma InvisibleStep(s: State, s': State)
    requires Inv(s) && Inv(s') && Faithful(s)
    requires s'.books.log == s.books.log && s'.table == s.table && Visible(s') == Visible(s)
    requires s'.books.reissued == s.books.reissued && SameJobs(s, s') && NoneAppear(s, s')
    ensures Faithful(s')
  {
    if !s'.books.reissued {
      StillComplete(s, s');
      SameView(s, s');
    }
  }

  /** A step that answers a request: the store must allow the answer. */
  lemma AnswerStep(s: State, s': State, e: Event)
    requires Inv(s) && Inv(s') && Faithful(s)
    requires s'.books.log == s.books.log + [e] && s'.table == s.table
    requires s'.books.reissued == s.books.reissued && SameJobs(s, s') && NoneAppear(s, s')
    requires Apply(View(s), e) == Some(View(s'))
    ensures Faithful(s')
  {
    if !s'.books.reissued {
      StillComplete(s, s');
      ReplayAppend(s.books.log, e);
    }
  }

  lemma FaithfulKeptByWorker(s: State, i: nat)
    requires Inv(s) && Faithful(s) && WorkerEnabled(s, i) && Inv(WorkerStep(s, i))
    ensures Faithful(WorkerStep(s, i))
  {
    WorkerStepFrame(s, i);
    InvisibleStep(s, WorkerStep(s, i));
  }

  lemma FaithfulKeptByInsert(s: State)
    requires Inv(s) && Faithful(s) && s.server.EnqInsert? && Inv(ServerStep(s))
    ensures Faithful(ServerStep(s))
  {
    var s' := ServerStep(s);
    var j := s.server.job;
    if !s'.books.reissued {
      assert Visible(s') == Visible(s);
      assert View(s') == View(s);
      forall k | 0 <= k < |s'.heap| && Findable(s', k) ensures InTable(s', k) {
        if k != j { assert Findable(s, k); assert InTable(s, k); }
      }
    }
  }

  lemma FaithfulKeptByErase(s: State)
    requires Inv(s) && Faithful(s) && s.server.EraseEntry? && Inv(ServerStep(s))
    ensures Faithful(ServerStep(s))
  {
    var s' := ServerStep(s);
    if !s'.books.reissued {
      assert Visible(s') == Visible(s);
      assert View(s') == View(s);
      forall k | 0 <= k < |s'.heap| && Findable(s', k) ensures InTable(s', k) {
        assert Findable(s, k);
        assert InTable(s, k) && k != s.server.job;
        assert Entry(s, s.server.req.ticket, s.server.job);
      }
    }
  }

  lemma FaithfulKeptByFind(s: State)
    requires Inv(s) && Faithful(s) && s.server.FindUnlock? && Inv(ServerStep(s))
    ensures Faithful(ServerStep(s))
  {
    if s.server.found.Some? && !s.server.req.wait.OtherWait? {
      InvisibleStep(s, ServerStep(s));
    } else {
      FaithfulKeptByRefusal(s);
    }
  }

  lemma FaithfulKeptByRefusal(s: State)
    requires Inv(s) && Faithful(s) && s.server.FindUnlock? && Inv(ServerStep(s))
    requires s.server.found.None? || s.server.req.wait.OtherWait?
    ensures Faithful(ServerStep(s))
  {
    var s', id := ServerStep(s), s.server.req.ticket;
    var e := if s.server.found.None? then Rejected(id) else BadWait(id);
    assert s'.books.log == s.books.log + [e];
    SameView(s, s');
    AnswerStep(s, s', e);
  }

  lemma FaithfulKeptByPending(s: State)
    requires Inv(s) && Faithful(s) && s.server.GetPendingUnlock? && ServerEnabled(s) && Inv(ServerStep(s))
    ensures Faithful(ServerStep(s))
  {
    var s' := ServerStep(s);
    SameView(s, s');
    AnswerStep(s, s', Pending(s.server.req.ticket));
  }

  lemma DeliveryClosesTicket(s: State)
    requires Inv(s) && s.server.EraseUnlock? && Inv(ServerStep(s))
    ensures Apply(View(s), Delivered(s.server.req.ticket, s.server.out)) == Some(View(ServerStep(s)))
  {
    assert View(ServerStep(s)) == View(s) - {s.server.req.ticket};
  }

  lemma FaithfulKeptByDelivery(s: State)
    requires Inv(s) && Faithful(s) && s.server.EraseUnlock? && Inv(ServerStep(s))
    ensures Faithful(ServerStep(s))
  {
    DeliveryClosesTicket(s);
    AnswerStep(s, ServerStep(s), Delivered(s.server.req.ticket, s.server.out));
  }

  lemma FaithfulKeptByServer(s: State)
    requires Inv(s) && Faithful(s) && ServerEnabled(s) && Inv(ServerStep(s))
    ensures Faithful(ServerStep(s))
  {
    if s.server.EnqInsert? {
      FaithfulKeptByInsert(s);
    } else if s.server.EraseEntry? {
      FaithfulKeptByErase(s);
    } else if s.server.EraseUnlock? {
      FaithfulKeptByDelivery(s);
    } else if s.server.FindUnlock? {
      FaithfulKeptByFind(s);
    } else if s.server.GetPendingUnlock? {
      FaithfulKeptByPending(s);
    } else {
      ServerStepFrame(s);
      QuietServerStep(s);
      InvisibleStep(s, ServerStep(s));
    }
  }

  lemma QuietServerStep(s: State)
    requires Inv(s) && ServerEnabled(s) && Inv(ServerStep(s))
    requires !(s.server.EnqInsert? || s.server.EraseEntry? || s.server.EraseUnlock?
               || s.server.FindUnlock? || s.server.GetPendingUnlock?)
    ensures var s' := ServerStep(s);
            s'.books == s.books && s'.table == s.table && Visible(s') == Visible(s) && NoneAppear(s, s')
  {
    if Enqueuing(s.server) { QuietEnqueueStep(s); } else { QuietGetStep(s); }
  }

  lemma QuietEnqueueStep(s: State)
    requires Focus(s) && ServerEnabled(s) && Enqueuing(s.server) && !s.server.EnqInsert?
    requires s.server.job < |s.heap|
    ensures var s' := ServerStep(s);
            && s'.books == s.books && s'.table == s.table && s'.heap == s.heap && s'.taken == s.taken
            && Enqueuing(s'.server) && s'.server.job == s.server.job
            && Uninserted(s'.server) == Uninserted(s.server)
  {}

  lemma QuietGetStep(s: State)
    requires Focus(s) && ServerEnabled(s) && !Enqueuing(s.server)
    requires !(s.server.EraseEntry? || s.server.EraseUnlock? || s.server.FindUnlock? || s.server.GetPendingUnlock?)
    ensures var s' := ServerStep(s);
            && s'.books == s.books && s'.table == s.table && |s'.heap| == |s.heap|
            && !Enqueuing(s'.server) && !s'.server.EraseUnlock?
            && NoneAppear(s, s')
  {}

  lemma SignalOpensTicket(s: State, i: nat)
    requires Inv(s) && Enabled(s, Signal(i)) && Inv(Step(s, Signal(i)))
    ensures var job := s.heap[s.server.job];
            Apply(View(s), Issued(job.id, job.payload)) == Some(View(Step(s, Signal(i))))
  {
    var s', job := Step(s, Signal(i)), s.heap[s.server.job];
    assert Visible(s') == Visible(s)[job.id := s.server.job];
    assert View(s') == View(s)[job.id := job.payload];
  }

  /** The signal that ends `enqueue` is also the moment the new ticket becomes visible. */
  lemma FaithfulKeptBySignal(s: State, i: nat)
    requires Inv(s) && Faithful(s) && Enabled(s, Signal(i)) && Inv(Step(s, Signal(i)))
    ensures Faithful(Step(s, Signal(i)))
  {
    var job := s.heap[s.server.job];
    SignalOpensTicket(s, i);
    AnswerStep(s, Step(s, Signal(i)), Issued(job.id, job.payload));
  }

  lemma StepKeepsFaithful(s: State, a: Action)
    requires Inv(s) && Faithful(s) && Enabled(s, a) && Inv(Step(s, a))
    ensures Faithful(Step(s, a))
  {
    match a
    case WorkerMove(i) => FaithfulKeptByWorker(s, i);
    case ServerMove => FaithfulKeptByServer(s);
    case Signal(i) => FaithfulKeptBySignal(s, i);
    case CallBlocking(p) => FaithfulKeptByBlocking(s, p);
    case _ => FaithfulKeptByCall(s, a);
  }

  lemma FaithfulKeptByBlocking(s: State, p: Payload)
    requires Inv(s) && Faithful(s) && Enabled(s, CallBlocking(p)) && Inv(Step(s, CallBlocking(p)))
    ensures Faithful(Step(s, CallBlocking(p)))
  {
    SameView(s, Step(s, CallBlocking(p)));
    AnswerStep(s, Step(s, CallBlocking(p)), Ran(p, Execute(p)));
  }

  lemma FaithfulKeptByCall(s: State, a: Action)
    requires Inv(s) && Faithful(s) && Enabled(s, a) && Inv(Step(s, a))
    requires a.CallSubmit? || a.CallGet? || a.CallStop? || a.ServerWake? || a.SpuriousWake? || a.Tick?
    ensures Faithful(Step(s, a))
  {
    InvisibleStep(s, Step(s, a));
  }

  lemma {:induction false} RunKeepsFaithful(s: State, schedule: seq<Action>)
    requires Inv(s) && Faithful(s) && Legal(s, schedule)
    ensures Inv(Run(s, schedule)) && Faithful(Run(s, schedule))
    decreases |schedule|
  {
    if schedule != [] {
      StepKeepsInv(s, schedule[0]);
      StepKeepsFaithful(s, schedule[0]);
      RunKeepsFaithful(Step(s, schedule[0]), schedule[1..]);
    }
  }

  // ---------------------------------------------------------------- when ids are reissued

  /** An id was issued again while open only if two jobs have the same id. */
  ghost predicate ReissueMeansRepeat(s: State) { s.books.reissued ==> !DistinctIds(s) }

  lemma RepeatsStay(s: State, s': State)
    requires SameJobs(s, s') && DistinctIds(s')
    ensures DistinctIds(s)
  {
    forall i, j | 0 <= i < j < |s.heap| ensures s.heap[i].id != s.heap[j].id {
      assert SameJob(s.heap[i], s'.heap[i]) && SameJob(s.heap[j], s'.heap[j]);
    }
  }

  lemma StepKeepsJobs(s: State, a: Action)
    requires Enabled(s, a)
    ensures SameJobs(s, Step(s, a))
    ensures !(a.ServerMove? && s.server.EnqInsert?) ==> Step(s, a).books.reissued == s.books.reissued
  {
    if a.WorkerMove? { WorkerStepFrame(s, a.worker); }
    if a.ServerMove? {
      ServerStepFrame(s);
      if !s.server.EnqInsert? { OnlyInsertReissues(s); }
    }
  }

  lemma OnlyInsertReissues(s: State)
    requires ServerEnabled(s) && !s.server.EnqInsert?
    ensures ServerStep(s).books.reissued == s.books.reissued
  {}

  lemma StepKeepsReissueMeansRepeat(s: State, a: Action)
    requires Inv(s) && ReissueMeansRepeat(s) && Enabled(s, a)
    ensures ReissueMeansRepeat(Step(s, a))
  {
    var s' := Step(s, a);
    StepKeepsJobs(s, a);
    if DistinctIds(s') {
      RepeatsStay(s, s');
      if a.ServerMove? && s.server.EnqInsert? {
        var id := s.heap[s.server.job].id;
        assert id in s.table ==> Entry(s, id, s.table[id]);
      }
    }
  }

  lemma {:induction false} RunKeepsReissueMeansRepeat(s: State, schedule: seq<Action>)
    requires Inv(s) && ReissueMeansRepeat(s) && Legal(s, schedule)
    ensures ReissueMeansRepeat(Run(s, schedule))
    decreases |schedule|
  {
    if schedule != [] {
      StepKeepsInv(s, schedule[0]);
      StepKeepsReissueMeansRepeat(s, schedule[0]);
      RunKeepsReissueMeansRepeat(Step(s, schedule[0]), schedule[1..]);
    }
  }

  /** The clock readings of the jobs made so far. */
  function Stamps(s: State): seq<uint64> { seq(|s.heap|, k requires 0 <= k < |s.heap| => s.heap[k].stamp) }

  /** For a monotone clock, ids are distinct exactly when the clock moves within any 65536 issues. */
  lemma DistinctIffAdvances(s: State)
    requires Inv(s) && Tickets.Monotone(Stamps(s))
    ensures DistinctIds(s) <==> Tickets.Advances(Stamps(s))
  {
    var stamps := Stamps(s);
    Tickets.DistinctIffAdvances(stamps);
    forall j | 0 <= j < |s.heap| ensures s.heap[j].id == Tickets.IssuedId(stamps[j], j) { assert JobOk(s, j); }
  }

  // ---------------------------------------------------------------- theorems over whole runs

  /**
    Asynchronous execution refines the atomic store, for every number of workers and every
    schedule: the answers given so far are answers the store gives, and between requests the
    table holds the store's open tickets and nothing else.
   */
  lemma EngineRefinesStore(n: nat, schedule: seq<Action>)
    requires Legal(Init(n), schedule) && !Run(Init(n), schedule).books.reissued
    ensures var s := Run(Init(n), schedule);
            && Replay(s.books.log).Some?
            && (s.server.Idle? ==>
                  && s.table.Keys == Replay(s.books.log).value.Keys
                  && forall id :: id in s.table ==>
                       s.table[id] < |s.heap| && s.heap[s.table[id]].payload == Replay(s.books.log).value[id])
  {
    var s := Run(Init(n), schedule);
    InitInv(n);
    assert View(Init(n)) == map[];
    RunKeepsFaithful(Init(n), schedule);
    forall id | id in s.table ensures s.table[id] < |s.heap| { assert Entry(s, id, s.table[id]); }
  }

  /**
    The messages that answer one ticket over any run: while it is open they are all NOT_FINISHED; once
    closed they are NOT_FINISHED some number of times, then the outcome of its payload once, then INVALID_INPUT.
   */
  lemma TicketAnsweredOnce(n: nat, schedule: seq<Action>, id: TicketId)
    requires Legal(Init(n), schedule) && !Run(Init(n), schedule).books.reissued
    requires PayloadOf(Run(Init(n), schedule).books.log, id).Some?
    ensures var log := Run(Init(n), schedule).books.log;
            && Replay(log).Some?
            && var m := MessagesTo(log, id);
               if id in Replay(log).value
               then forall i :: 0 <= i < |m| ==> m[i] == GetResponse(NotFinished, None)
               else exists k: nat :: AnsweredOnceAt(m, Execute(PayloadOf(log, id).value), k)
  {
    EngineRefinesStore(n, schedule);
    ExactlyOnceInMessages(Run(Init(n), schedule).books.log, id);
  }

  /** The result fetched by ticket equals the result of a blocking submit of the same payload. */
  lemma AsyncRefinesBlocking(n: nat, schedule: seq<Action>, i: nat, j: nat)
    requires Legal(Init(n), schedule) && !Run(Init(n), schedule).books.reissued
    requires var log := Run(Init(n), schedule).books.log;
             && i < |log| && log[i].Delivered?
             && j < |log| && log[j].Ran? && PayloadOf(log[..i], log[i].id) == Some(log[j].payload)
    ensures var log := Run(Init(n), schedule).books.log;
            log[i].outcome == log[j].outcome
  {
    EngineRefinesStore(n, schedule);
    AsyncMatchesSync(Run(Init(n), schedule).books.log, i, j);
  }
}
