/**
  The whole system: clients, channels, the server loop, and the engine of threads behind it. The
  server takes a message, its thread works on it step by step among the workers, and the reply is
  what the engine answers. Every run of this system is a run of module Protocol, so what is
  proved there holds of the engine's own table.
 */
module Composition {
  import opened Ipc
  import opened TicketStore
  import opened Client
  import Server
  import Protocol
  import Engine
  import EI = EngineInvariant
  import Tickets
  import opened EngineRefinement
  import opened EngineCalls
  import opened EngineAnswers

  datatype World = World(
    peers: map<ClientId, Peer>,
    caps: map<ClientId, bv8>,
    engine: Engine.State,
    serving: Option<ClientId>,         // whose message the server thread is working on
    // history
    executed: seq<Server.Executed>,
    issued: map<TicketId, Protocol.Submission>)

  datatype Action =
    | Move(a: Protocol.Action)         // a client moves
    | Take(c: ClientId, stamp: uint64) // the server takes a message; the clock shows `stamp`
    | Thread(e: Engine.Action)         // a thread moves, or time passes

  function Init(masks: map<ClientId, bv8>, n: nat): World {
    World(Protocol.Init(masks).peers, map[], Engine.Init(n), None, [], map[])
  }

  /** The clients and their channels, without a server. */
  function Clients(w: World): Protocol.Net { Protocol.Net(w.peers, Server.State(map[], map[], []), map[]) }

  predicate IsCall(a: Engine.Action) { a.CallBlocking? || a.CallSubmit? || a.CallGet? || a.CallStop? }

  function CallAction(call: Call, stamp: uint64): Engine.Action {
    match call
    case RunCall(req) =>
      if req.mode.Blocking? then Engine.CallBlocking(req.payload) else Engine.CallSubmit(req.payload, stamp)
    case GetCall(req) => Engine.CallGet(req)
  }

  predicate HasMessage(w: World, c: ClientId) { c in w.peers && w.peers[c].outbox != [] }

  predicate Enabled(w: World, a: Action) {
    match a
    case Move(b) => !b.Serve? && Protocol.Enabled(Clients(w), b)
    case Take(c, _) => w.serving.None? && w.engine.server.Idle? && HasMessage(w, c)
    case Thread(e) => !IsCall(e) && Engine.Enabled(w.engine, e)
  }

  /** The message at the head of the channel is done with; the reply, if there is one, is sent. */
  function Reply(w: World, c: ClientId, reply: Option<EnvelopeResp>): World
    requires HasMessage(w, c)
  {
    var p := w.peers[c];
    var inbox := match reply case None => p.inbox case Some(r) => p.inbox + [r];
    w.(peers := w.peers[c := p.(outbox := p.outbox[1..], inbox := inbox)],
       issued := Protocol.Record(w.issued, c, p.outbox[0], reply), serving := None)
  }

  /** The engine moves on with the call that `c` caused; its answer, once given, is sent. */
  function Advance(w: World, c: ClientId, call: Call, engine: Engine.State): World
    requires HasMessage(w, c)
  {
    var n := |engine.books.log|;
    if n <= |w.engine.books.log| then w.(engine := engine, serving := Some(c))
    else
      Reply(w.(engine := engine, executed := w.executed + Server.ExecutedBy(call, c)), c,
            Some(EventAnswer(engine.books.log[n - 1])))
  }

  function Step(w: World, a: Action): World
    requires Enabled(w, a)
  {
    match a
    case Move(b) => w.(peers := Protocol.Step(Clients(w), b).peers)
    case Take(c, stamp) =>
      var msg := w.peers[c].outbox[0];
      (match Server.CallFor(w.caps, c, msg)
       case Some(call) =>
         CallIsEnabled(w, c, stamp);
         Advance(w, c, call, Engine.Step(w.engine, CallAction(call, stamp)))
       case None =>
         var h := Server.Receive(Server.State(w.caps, map[], w.executed), c, msg, Choice(0, false));
         Reply(w.(caps := h.state.caps, executed := h.state.executed), c, h.reply))
    case Thread(e) =>
      var engine := Engine.Step(w.engine, e);
      (match CallInProgress(w)
       case None => w.(engine := engine)
       case Some(call) => Advance(w, w.serving.value, call, engine))
  }

  /** The call of the runner that the message being served leads to. */
  function CallInProgress(w: World): (call: Option<Call>)
    ensures call.Some? ==> w.serving.Some? && HasMessage(w, w.serving.value)
  {
    if w.serving.Some? && HasMessage(w, w.serving.value)
    then Server.CallFor(w.caps, w.serving.value, w.peers[w.serving.value].outbox[0]) else None
  }

  lemma CallIsEnabled(w: World, c: ClientId, stamp: uint64)
    requires w.engine.server.Idle? && HasMessage(w, c)
    requires Server.CallFor(w.caps, c, w.peers[c].outbox[0]).Some?
    ensures Engine.Enabled(w.engine, CallAction(Server.CallFor(w.caps, c, w.peers[c].outbox[0]).value, stamp))
  {}

  predicate Legal(w: World, schedule: seq<Action>)
    decreases |schedule|
  {
    schedule == [] || (Enabled(w, schedule[0]) && Legal(Step(w, schedule[0]), schedule[1..]))
  }

  function Run(w: World, schedule: seq<Action>): World
    requires Legal(w, schedule)
    decreases |schedule|
  {
    if schedule == [] then w else Run(Step(w, schedule[0]), schedule[1..])
  }

  // ---------------------------------------------------------------- the invariant

  /** The protocol's state: its table of tickets is what the engine's caller can see. */
  ghost function Abstract(w: World): Protocol.Net
    requires EI.Inv(w.engine)
  {
    Protocol.Net(w.peers, Server.State(w.caps, View(w.engine), w.executed), w.issued)
  }

  /** The job had this id, and its ticket has been handed out. */
  ghost predicate HandedOut(s: Engine.State, id: TicketId, j: nat) {
    j < |s.heap| && s.heap[j].id == id && !(EI.Enqueuing(s.server) && s.server.job == j)
  }

  ghost predicate AllHandedOut(s: Engine.State, issued: map<TicketId, Protocol.Submission>) {
    forall id :: id in issued ==> exists j: nat :: HandedOut(s, id, j)
  }

  ghost predicate EngineOk(s: Engine.State) {
    EI.Inv(s) && Faithful(s) && BooksOk(s) && ReissueMeansRepeat(s) && !EI.Stopping(s.server)
  }

  ghost predicate Inv(w: World) {
    && EngineOk(w.engine)
    && (w.serving.Some? <==> InCall(w.engine.server))
    && (w.serving.Some? ==> CallInProgress(w) == Some(w.engine.books.calls[|w.engine.books.log|].call))
    && AllHandedOut(w.engine, w.issued)
  }

  lemma InitInv(masks: map<ClientId, bv8>, n: nat)
    ensures Inv(Init(masks, n)) && Abstract(Init(masks, n)) == Protocol.Init(masks)
  {
    EI.InitInv(n);
    assert View(Engine.Init(n)) == map[];
  }

  // ---------------------------------------------------------------- one step of the engine

  lemma EngineStaysOk(s: Engine.State, a: Engine.Action)
    requires EngineOk(s) && Engine.Enabled(s, a) && !a.CallStop?
    ensures EngineOk(Engine.Step(s, a))
  {
    EI.StepKeepsInv(s, a);
    StepKeepsFaithful(s, a);
    StepKeepsBooks(s, a);
    StepKeepsReissueMeansRepeat(s, a);
    NotStopping(s, a);
  }

  lemma NotStopping(s: Engine.State, a: Engine.Action)
    requires Engine.Enabled(s, a) && !a.CallStop? && !EI.Stopping(s.server)
    ensures !EI.Stopping(Engine.Step(s, a).server)
  {
    if a.WorkerMove? { EI.WorkerStepFrame(s, a.worker); }
  }

  lemma StepKeepsCalls(s: Engine.State, a: Engine.Action)
    requires Engine.Enabled(s, a) && !IsCall(a)
    ensures Engine.Step(s, a).books.calls == s.books.calls
  {
    if a.WorkerMove? { EI.WorkerStepFrame(s, a.worker); }
    if a.ServerMove? { ServerAnswersOnce(s); }
  }

  lemma HandedOutStays(s: Engine.State, a: Engine.Action, id: TicketId, j: nat)
    requires EI.Inv(s) && Engine.Enabled(s, a) && HandedOut(s, id, j)
    ensures HandedOut(Engine.Step(s, a), id, j)
  {
    StepKeepsJobs(s, a);
    assert EI.SameJob(s.heap[j], Engine.Step(s, a).heap[j]);
    if a.WorkerMove? { EI.WorkerStepFrame(s, a.worker); }
    if a.ServerMove? { SameEnqueue(s); }
  }

  lemma SameEnqueue(s: Engine.State)
    requires Engine.ServerEnabled(s)
    ensures var s' := Engine.ServerStep(s);
            EI.Enqueuing(s'.server) ==> EI.Enqueuing(s.server) && s'.server.job == s.server.job
  {}

  // ---------------------------------------------------------------- one step of the system

  lemma {:induction false} FreshId(used: set<TicketId>) returns (id: TicketId)
    ensures forall k :: k in used ==> k < id
    decreases used
  {
    id := 0;
    if used != {} {
      var k :| k in used;
      var rest := FreshId(used - {k});
      assert forall x :: x in used ==> x == k || x in used - {k};
      id := if rest <= k then k + 1 else rest;
    }
  }

  /** The engine's answer is the one the protocol's server gives, with the id and the completion that it reveals. */
  lemma AnswerIsServed(w: World, c: ClientId, call: Call, engine: Engine.State) returns (choice: Choice)
    requires EngineOk(w.engine) && EngineOk(engine) && !w.engine.books.reissued && !engine.books.reissued
    requires HasMessage(w, c) && Server.CallFor(w.caps, c, w.peers[c].outbox[0]) == Some(call)
    requires LogGrows(w.engine, engine) && engine.books.log != w.engine.books.log
    requires engine.books.calls[|w.engine.books.log|].call == call
    requires var e := engine.books.log[|w.engine.books.log|]; e.Issued? ==> e.id !in w.issued
    ensures Protocol.Enabled(Abstract(w), Protocol.Serve(c, choice))
    ensures Protocol.Step(Abstract(w), Protocol.Serve(c, choice)) == Abstract(Advance(w, c, call, engine))
  {
    var k, m := |w.engine.books.log|, View(w.engine);
    var e := engine.books.log[k];
    var unused := FreshId(w.issued.Keys);
    choice := Choice(if e.Issued? then e.id else unused, engine.books.finished[k]);
    assert engine.books.log == w.engine.books.log + [e];
    ReplayAppend(w.engine.books.log, e);
    assert EngineCalls.Settled(engine.books.calls[k], e, engine.books.answeredAt[k], engine.books.finished[k]);
    StoreEventIsRunnerAnswer(m, call, e, choice);
    Server.ReceiveByRunner(Abstract(w).server, c, w.peers[c].outbox[0], choice);
  }

  lemma SilentAdvance(w: World, engine: Engine.State)
    requires EngineOk(w.engine) && EngineOk(engine) && !w.engine.books.reissued && !engine.books.reissued
    requires engine.books.log == w.engine.books.log
    ensures View(engine) == View(w.engine)
  {}

  lemma TakeWithoutRunner(w: World, c: ClientId, stamp: uint64) returns (choice: Choice)
    requires Inv(w) && Enabled(w, Take(c, stamp)) && Server.CallFor(w.caps, c, w.peers[c].outbox[0]).None?
    ensures Protocol.Enabled(Abstract(w), Protocol.Serve(c, choice))
    ensures Inv(Step(w, Take(c, stamp)))
    ensures Protocol.Step(Abstract(w), Protocol.Serve(c, choice)) == Abstract(Step(w, Take(c, stamp)))
  {
    var unused := FreshId(w.issued.Keys);
    choice := Choice(unused, false);
    Server.ReceiveWithoutRunner(Abstract(w).server, c, w.peers[c].outbox[0], choice, map[], Choice(0, false));
  }

  lemma AllStayHandedOut(s: Engine.State, a: Engine.Action, issued: map<TicketId, Protocol.Submission>)
    requires EI.Inv(s) && Engine.Enabled(s, a) && AllHandedOut(s, issued)
    ensures AllHandedOut(Engine.Step(s, a), issued)
  {
    forall id | id in issued ensures exists j: nat :: HandedOut(Engine.Step(s, a), id, j) {
      var j: nat :| HandedOut(s, id, j);
      HandedOutStays(s, a, id, j);
    }
  }

  /** The ticket that ends `enqueue` has not been handed out before. */
  lemma NewTicketIsNew(s: Engine.State, issued: map<TicketId, Protocol.Submission>)
    requires DistinctIds(s) && AllHandedOut(s, issued) && s.server.EnqSignal? && s.server.job < |s.heap|
    ensures s.heap[s.server.job].id !in issued
  {
    forall id | id in issued ensures id != s.heap[s.server.job].id {
      var j: nat :| HandedOut(s, id, j);
      assert j < s.server.job || s.server.job < j;
    }
  }

  lemma DistinctBefore(s: Engine.State, a: Engine.Action)
    requires EngineOk(s) && Engine.Enabled(s, a) && DistinctIds(Engine.Step(s, a))
    ensures DistinctIds(s) && !s.books.reissued
  {
    StepKeepsJobs(s, a);
    RepeatsStay(s, Engine.Step(s, a));
  }

  /** The engine takes a step in the call that `c` caused. */
  lemma AdvanceRefines(w: World, c: ClientId, call: Call, a: Engine.Action) returns (steps: seq<Protocol.Action>)
    requires EngineOk(w.engine) && AllHandedOut(w.engine, w.issued) && Engine.Enabled(w.engine, a) && !a.CallStop?
    requires HasMessage(w, c) && Server.CallFor(w.caps, c, w.peers[c].outbox[0]) == Some(call)
    requires var s' := Engine.Step(w.engine, a);
             && DistinctIds(s') && |s'.books.calls| == |w.engine.books.log| + 1
             && s'.books.calls[|w.engine.books.log|].call == call
    ensures var w' := Advance(w, c, call, Engine.Step(w.engine, a));
            && Inv(w') && Protocol.Legal(Abstract(w), steps) && Protocol.Run(Abstract(w), steps) == Abstract(w')
  {
    var s, s' := w.engine, Engine.Step(w.engine, a);
    var w' := Advance(w, c, call, s');
    EngineStaysOk(s, a);
    StepAnswersOnce(s, a);
    DistinctBefore(s, a);
    AllStayHandedOut(s, a, w.issued);
    if s'.books.log == s.books.log {
      SilentAdvance(w, s');
      steps := [];
    } else {
      var e := s'.books.log[|s.books.log|];
      if e.Issued? { NewTicketIsNew(s, w.issued); }
      var choice := AnswerIsServed(w, c, call, s');
      steps := [Protocol.Serve(c, choice)];
      Protocol.RunOne(Abstract(w), steps[0]);
      TicketHandedOut(w, c, call, a);
    }
  }

  lemma OnlyTicketsRecorded(w: World, c: ClientId, call: Call, engine: Engine.State, id: TicketId)
    requires HasMessage(w, c) && |engine.books.log| == |w.engine.books.log| + 1
    requires id in Advance(w, c, call, engine).issued && id !in w.issued
    ensures var e := engine.books.log[|w.engine.books.log|]; e.Issued? && e.id == id
  {}

  lemma TicketHandedOut(w: World, c: ClientId, call: Call, a: Engine.Action)
    requires EngineOk(w.engine) && Engine.Enabled(w.engine, a) && HasMessage(w, c)
    requires var s' := Engine.Step(w.engine, a);
             && AllHandedOut(s', w.issued) && LogGrows(w.engine, s') && s'.books.log != w.engine.books.log
             && !InCall(s'.server)
    ensures var s' := Engine.Step(w.engine, a);
            AllHandedOut(s', Advance(w, c, call, s').issued)
  {
    var s, s' := w.engine, Engine.Step(w.engine, a);
    var e, issued := s'.books.log[|s.books.log|], Advance(w, c, call, s').issued;
    StepKeepsJobs(s, a);
    forall id | id in issued ensures exists j: nat :: HandedOut(s', id, j) {
      if id !in w.issued {
        OnlyTicketsRecorded(w, c, call, s', id);
        assert EI.SameJob(s.heap[s.server.job], s'.heap[s.server.job]);
        assert HandedOut(s', id, s.server.job);
      }
    }
  }

  lemma TakeRefines(w: World, c: ClientId, stamp: uint64) returns (steps: seq<Protocol.Action>)
    requires Inv(w) && Enabled(w, Take(c, stamp)) && DistinctIds(Step(w, Take(c, stamp)).engine)
    ensures var w' := Step(w, Take(c, stamp));
            && Inv(w') && Protocol.Legal(Abstract(w), steps) && Protocol.Run(Abstract(w), steps) == Abstract(w')
  {
    var call := Server.CallFor(w.caps, c, w.peers[c].outbox[0]);
    if call.Some? {
      CallIsEnabled(w, c, stamp);
      CallIsEntered(w.engine, call.value, stamp);
      steps := AdvanceRefines(w, c, call.value, CallAction(call.value, stamp));
    } else {
      var choice := TakeWithoutRunner(w, c, stamp);
      steps := [Protocol.Serve(c, choice)];
      Protocol.RunOne(Abstract(w), steps[0]);
    }
  }

  lemma CallIsEntered(s: Engine.State, call: Call, stamp: uint64)
    requires BooksOk(s) && s.server.Idle? && Engine.Enabled(s, CallAction(call, stamp)) && !Malformed(call)
    ensures var s' := Engine.Step(s, CallAction(call, stamp));
            |s'.books.calls| == |s.books.log| + 1 && s'.books.calls[|s.books.log|].call == call
  {}

  lemma ThreadRefines(w: World, e: Engine.Action) returns (steps: seq<Protocol.Action>)
    requires Inv(w) && Enabled(w, Thread(e)) && DistinctIds(Step(w, Thread(e)).engine)
    ensures var w' := Step(w, Thread(e));
            && Inv(w') && Protocol.Legal(Abstract(w), steps) && Protocol.Run(Abstract(w), steps) == Abstract(w')
  {
    StepAnswersOnce(w.engine, e);
    StepKeepsCalls(w.engine, e);
    if w.serving.Some? {
      steps := AdvanceRefines(w, w.serving.value, CallInProgress(w).value, e);
    } else {
      EngineStaysOk(w.engine, e);
      DistinctBefore(w.engine, e);
      AllStayHandedOut(w.engine, e, w.issued);
      SilentAdvance(w, Engine.Step(w.engine, e));
      steps := [];
    }
  }

  lemma MoveRefines(w: World, a: Protocol.Action)
    requires Inv(w) && Enabled(w, Move(a))
    ensures Protocol.Enabled(Abstract(w), a)
    ensures Inv(Step(w, Move(a))) && Protocol.Step(Abstract(w), a) == Abstract(Step(w, Move(a)))
  {
    var w' := Step(w, Move(a));
    if w.serving.Some? {
      var c := w.serving.value;
      assert HasMessage(w', c) && w'.peers[c].outbox[0] == w.peers[c].outbox[0];
    }
  }

  lemma StepRefines(w: World, a: Action) returns (steps: seq<Protocol.Action>)
    requires Inv(w) && Enabled(w, a) && DistinctIds(Step(w, a).engine)
    ensures Inv(Step(w, a))
    ensures Protocol.Legal(Abstract(w), steps) && Protocol.Run(Abstract(w), steps) == Abstract(Step(w, a))
  {
    match a
    case Move(b) =>
      MoveRefines(w, b);
      steps := [b];
      Protocol.RunOne(Abstract(w), b);
    case Take(c, stamp) => steps := TakeRefines(w, c, stamp);
    case Thread(e) => steps := ThreadRefines(w, e);
  }

  // ---------------------------------------------------------------- whole runs

  lemma StepKeepsIds(w: World, a: Action)
    requires Enabled(w, a) && DistinctIds(Step(w, a).engine)
    ensures DistinctIds(w.engine)
  {
    match a
    case Move(_) =>
    case Take(c, stamp) =>
      var call := Server.CallFor(w.caps, c, w.peers[c].outbox[0]);
      if call.Some? {
        CallIsEnabled(w, c, stamp);
        StepKeepsJobs(w.engine, CallAction(call.value, stamp));
        RepeatsStay(w.engine, Step(w, a).engine);
      }
    case Thread(e) =>
      StepKeepsJobs(w.engine, e);
      RepeatsStay(w.engine, Step(w, a).engine);
  }

  lemma {:induction false} RunKeepsIds(w: World, schedule: seq<Action>)
    requires Legal(w, schedule) && DistinctIds(Run(w, schedule).engine)
    ensures DistinctIds(w.engine)
    decreases |schedule|
  {
    if schedule != [] {
      RunKeepsIds(Step(w, schedule[0]), schedule[1..]);
      StepKeepsIds(w, schedule[0]);
    }
  }

  lemma {:induction false} RunRefines(w: World, schedule: seq<Action>) returns (steps: seq<Protocol.Action>)
    requires Inv(w) && Legal(w, schedule) && DistinctIds(Run(w, schedule).engine)
    ensures Inv(Run(w, schedule))
    ensures Protocol.Legal(Abstract(w), steps) && Protocol.Run(Abstract(w), steps) == Abstract(Run(w, schedule))
    decreases |schedule|
  {
    steps := [];
    if schedule != [] {
      var w' := Step(w, schedule[0]);
      RunKeepsIds(w', schedule[1..]);
      var first := StepRefines(w, schedule[0]);
      var rest := RunRefines(w', schedule[1..]);
      Protocol.RunAppend(Abstract(w), first, rest);
      steps := first + rest;
    }
  }

  /**
    The whole system, threads included, behaves as the protocol: every run with distinct ids is a
    run of clients with a server that answers each message in one step.
   */
  lemma SystemRefinesProtocol(masks: map<ClientId, bv8>, n: nat, schedule: seq<Action>)
    returns (steps: seq<Protocol.Action>)
    requires Legal(Init(masks, n), schedule) && DistinctIds(Run(Init(masks, n), schedule).engine)
    ensures var w := Run(Init(masks, n), schedule);
            && Inv(w)
            && Protocol.Legal(Protocol.Init(masks), steps)
            && Protocol.Run(Protocol.Init(masks), steps) == Abstract(w)
  {
    InitInv(masks, n);
    steps := RunRefines(Init(masks, n), schedule);
  }

  lemma {:induction false} RunKeepsEngine(w: World, schedule: seq<Action>)
    requires EI.Inv(w.engine) && Legal(w, schedule)
    ensures EI.Inv(Run(w, schedule).engine)
    decreases |schedule|
  {
    if schedule != [] {
      StepKeepsEngine(w, schedule[0]);
      RunKeepsEngine(Step(w, schedule[0]), schedule[1..]);
    }
  }

  lemma StepKeepsEngine(w: World, a: Action)
    requires EI.Inv(w.engine) && Enabled(w, a)
    ensures EI.Inv(Step(w, a).engine)
  {
    match a
    case Move(_) =>
    case Take(c, stamp) =>
      var call := Server.CallFor(w.caps, c, w.peers[c].outbox[0]);
      if call.Some? {
        CallIsEnabled(w, c, stamp);
        EI.StepKeepsInv(w.engine, CallAction(call.value, stamp));
      }
    case Thread(e) => EI.StepKeepsInv(w.engine, e);
  }

  /** The clock reading when the server takes a message, if that message is an admitted non-blocking submit. */
  function TakeStamp(w: World, a: Action): seq<uint64>
    requires Enabled(w, a)
  {
    if !a.Take? then []
    else
      match Server.CallFor(w.caps, a.c, w.peers[a.c].outbox[0])
      case Some(RunCall(req)) => if req.mode.NonBlocking? then [a.stamp] else []
      case _ => []
  }

  /** These readings over a whole schedule. */
  function TakeStamps(w: World, schedule: seq<Action>): seq<uint64>
    requires Legal(w, schedule)
    decreases |schedule|
  {
    if schedule == [] then []
    else TakeStamp(w, schedule[0]) + TakeStamps(Step(w, schedule[0]), schedule[1..])
  }

  lemma StepStampsJobs(w: World, a: Action)
    requires Enabled(w, a)
    ensures Stamps(Step(w, a).engine) == Stamps(w.engine) + TakeStamp(w, a)
  {
    match a
    case Move(_) =>
    case Take(c, stamp) =>
      var call := Server.CallFor(w.caps, c, w.peers[c].outbox[0]);
      if call.Some? {
        CallIsEnabled(w, c, stamp);
        StepStamps(w.engine, CallAction(call.value, stamp));
      }
    case Thread(e) => StepStamps(w.engine, e);
  }

  lemma {:induction false} RunStampsJobs(w: World, schedule: seq<Action>)
    requires Legal(w, schedule)
    ensures Stamps(Run(w, schedule).engine) == Stamps(w.engine) + TakeStamps(w, schedule)
    decreases |schedule|
  {
    if schedule != [] {
      var w', rest := Step(w, schedule[0]), schedule[1..];
      StepStampsJobs(w, schedule[0]);
      RunStampsJobs(w', rest);
      ConcatAssociates(Stamps(w.engine), TakeStamp(w, schedule[0]), TakeStamps(w', rest));
    }
  }

  /**
    If the clock readings taken for submits are monotone and span less than 2^48 ns, the ids of a run
    of the whole system are distinct exactly when these readings move within any 65536 submits.
   */
  lemma IdsDistinctIffClockAdvances(masks: map<ClientId, bv8>, n: nat, schedule: seq<Action>)
    requires Legal(Init(masks, n), schedule)
    requires Tickets.Monotone(TakeStamps(Init(masks, n), schedule))
    ensures DistinctIds(Run(Init(masks, n), schedule).engine)
       <==> Tickets.Advances(TakeStamps(Init(masks, n), schedule))
  {
    EI.InitInv(n);
    RunKeepsEngine(Init(masks, n), schedule);
    RunStampsJobs(Init(masks, n), schedule);
    assert Stamps(Run(Init(masks, n), schedule).engine) == TakeStamps(Init(masks, n), schedule);
    DistinctIffAdvances(Run(Init(masks, n), schedule).engine);
  }

  /**
    The engine's table of jobs holds exactly the tickets that the clients count on, replies in
    flight applied; no two clients count on the same ticket; and behind each ticket is the payload
    that the client counting on it submitted.
   */
  ghost predicate TableMatchesClients(w: World) {
    var table, heap := w.engine.table, w.engine.heap;
    && table.Keys == (set c, id | c in w.peers && id in Protocol.Future(w.peers[c]) :: id)
    && (forall c, d :: c in w.peers && d in w.peers && c != d ==>
          Protocol.Future(w.peers[c]) !! Protocol.Future(w.peers[d]))
    && (forall id :: id in table ==>
          && id in w.issued && w.issued[id].client in w.peers && id in Protocol.Future(w.peers[w.issued[id].client])
          && table[id] < |heap| && heap[table[id]].payload == w.issued[id].payload)
  }

  /** Whenever the server is between envelopes, its engine's table agrees with its clients, whatever the threads did. */
  lemma EngineTableMatchesClients(masks: map<ClientId, bv8>, n: nat, schedule: seq<Action>)
    requires Protocol.ValidMasks(masks) && Legal(Init(masks, n), schedule)
    requires var w := Run(Init(masks, n), schedule); DistinctIds(w.engine) && w.serving.None?
    ensures TableMatchesClients(Run(Init(masks, n), schedule))
  {
    var w := Run(Init(masks, n), schedule);
    var steps := SystemRefinesProtocol(masks, n, schedule);
    MatchesBetweenEnvelopes(w, masks, steps);
  }

  lemma MatchesBetweenEnvelopes(w: World, masks: map<ClientId, bv8>, steps: seq<Protocol.Action>)
    requires Inv(w) && w.serving.None? && Protocol.ValidMasks(masks)
    requires Protocol.Legal(Protocol.Init(masks), steps) && Protocol.Run(Protocol.Init(masks), steps) == Abstract(w)
    ensures TableMatchesClients(w)
  {
    Protocol.TablesAgree(masks, steps);
    IdleTable(w);
  }

  lemma IdleTable(w: World)
    requires Inv(w) && w.serving.None?
    ensures w.engine.table.Keys == View(w.engine).Keys
    ensures forall id :: id in w.engine.table ==>
              w.engine.table[id] < |w.engine.heap| && w.engine.heap[w.engine.table[id]].payload == View(w.engine)[id]
  {
    forall id | id in w.engine.table ensures w.engine.table[id] < |w.engine.heap| {
      assert EI.Entry(w.engine, id, w.engine.table[id]);
    }
  }

  /**
    Every reply that a client takes from the threads behind the server answers the envelope it was
    taken for, in kind and content: a get of a pending ticket is put off or brings the outcome of
    what that client submitted.
   */
  lemma EngineRepliesPairUp(masks: map<ClientId, bv8>, n: nat, schedule: seq<Action>, c: ClientId, k: nat)
    requires Protocol.ValidMasks(masks) && Legal(Init(masks, n), schedule)
    requires var w := Run(Init(masks, n), schedule);
             DistinctIds(w.engine) && c in w.peers && k < |w.peers[c].rounds|
    ensures var w := Run(Init(masks, n), schedule);
            var r := w.peers[c].rounds[k];
            Protocol.RoundOk(w.issued, c, w.peers[c].mask, r) && !Fails(r.env, r.reply)
  {
    var steps := SystemRefinesProtocol(masks, n, schedule);
    Protocol.RepliesPairUp(masks, steps, c);
  }
}
