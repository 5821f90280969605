/**
  The server loop over the runner class: messages arrive, workers make passes over the queue in
  between and while a `get` waits, and the clock gives every submit its reading. What the loop
  decides is computed from the arrivals alone.
 */
module ServerLoop {
  import opened Ipc
  import opened Operations
  import opened TicketStore
  import opened Server
  import opened Runner
  import Tickets

  /** What happens while a message is handled: the clock, and the worker passes made if it has to wait. */
  datatype Moment = Moment(stamp: uint64, passes: nat)

  /** A message, the worker passes made before it, and what happens while it is handled. */
  datatype Arrival = Arrival(client: ClientId, msg: Message, passes: nat, moment: Moment)

  /** The runner's choice for a message: the next id, and whether the job asked for is done in time. */
  function Decision(b: Bench, msg: Message, now: Moment): Choice {
    Choice(Tickets.IssuedId(now.stamp, b.made),
           msg.asEnvelope.Some? && msg.asEnvelope.value.GetReq? && Reached(b, msg.asEnvelope.value.get, now.passes))
  }

  function AfterEnvelope(b: Bench, clientCaps: bv8, env: EnvelopeReq, now: Moment): Bench {
    match env
    case SubmitReq(req) => if HasCapability(req.payload, clientCaps) then AfterRun(b, req, now.stamp) else b
    case GetReq(req) => AfterGet(b, req, now.passes)
    case ReqNotSet => b
  }

  function AfterMessage(b: Bench, caps: map<ClientId, bv8>, c: ClientId, msg: Message, now: Moment): Bench {
    if c !in caps || msg.asEnvelope.None? then b else AfterEnvelope(b, caps[c], msg.asEnvelope.value, now)
  }

  // ---------------------------------------------------------------- the loop as a function of the arrivals

  datatype Course = Course(received: seq<Input>, bench: Bench)

  function OneMore(l: Course, a: Arrival): Course {
    var b := Pass(l.bench, a.passes);
    Course(l.received + [Input(a.client, a.msg, Decision(b, a.msg, a.moment))],
           AfterMessage(b, Serve(l.received).state.caps, a.client, a.msg, a.moment))
  }

  function Follow(start: Course, arrivals: seq<Arrival>): Course {
    if arrivals == [] then start else OneMore(Follow(start, arrivals[..|arrivals| - 1]), arrivals[|arrivals| - 1])
  }

  /** How far the runner is when the k-th arrival comes. */
  function BenchAt(start: Course, arrivals: seq<Arrival>, k: nat): Bench
    requires k <= |arrivals|
  {
    Follow(start, arrivals[..k]).bench
  }

  /** The tickets handed out in a history of replies. */
  function TicketsIn(sent: seq<Output>): nat {
    if sent == [] then 0 else TicketsIn(sent[..|sent| - 1]) + if HasTicket(sent[|sent| - 1].resp) then 1 else 0
  }

  predicate HasTicket(resp: EnvelopeResp) { resp.SubmitResp? && resp.submit.ticket.Some? }

  /** The jobs made are the tickets handed out, and the places of open tickets are among them. */
  ghost predicate Orderly(l: Course) {
    && l.bench.made == TicketsIn(Serve(l.received).sent)
    && l.bench.done <= l.bench.made
    && l.bench.place.Keys == Serve(l.received).state.tickets.Keys
    && forall id :: id in l.bench.place ==> l.bench.place[id] < l.bench.made
  }

  lemma TicketsInReply(sent: seq<Output>, c: ClientId, reply: Option<EnvelopeResp>)
    ensures TicketsIn(AddReply(sent, c, reply)) == TicketsIn(sent) + if reply.Some? && HasTicket(reply.value) then 1 else 0
  {
    if reply.Some? { assert (sent + [Output(c, reply.value)])[..|sent|] == sent; }
  }

  /** What the server does with an arrival. */
  function Handle(l: Course, a: Arrival): Handled {
    Receive(Serve(l.received).state, a.client, a.msg, Decision(Pass(l.bench, a.passes), a.msg, a.moment))
  }

  lemma ServeOneMore(l: Course, a: Arrival)
    ensures Serve(OneMore(l, a).received)
         == History(Handle(l, a).state, AddReply(Serve(l.received).sent, a.client, Handle(l, a).reply))
  {
    assert OneMore(l, a).received[..|l.received|] == l.received;
  }

  lemma OneMoreIsOrderly(l: Course, a: Arrival)
    requires Orderly(l)
    ensures Orderly(OneMore(l, a))
  {
    ServeOneMore(l, a);
    TicketsInReply(Serve(l.received).sent, a.client, Handle(l, a).reply);
    JobPerTicket(Serve(l.received).state, Pass(l.bench, a.passes), a.client, a.msg, a.moment);
  }

  /** A message makes a job exactly if it is answered with a ticket, and gives both the same fate. */
  lemma JobPerTicket(s: State, b: Bench, c: ClientId, msg: Message, now: Moment)
    requires b.place.Keys == s.tickets.Keys && b.done <= b.made
    requires forall id :: id in b.place ==> b.place[id] < b.made
    ensures var h, b' := Receive(s, c, msg, Decision(b, msg, now)), AfterMessage(b, s.caps, c, msg, now);
            && b'.made == b.made + (if h.reply.Some? && HasTicket(h.reply.value) then 1 else 0)
            && b'.done <= b'.made && b'.place.Keys == h.state.tickets.Keys
            && forall id :: id in b'.place ==> b'.place[id] < b'.made
  {}

  lemma {:induction false} FollowIsOrderly(start: Course, arrivals: seq<Arrival>)
    requires Orderly(start)
    ensures Orderly(Follow(start, arrivals))
  {
    if arrivals != [] {
      FollowIsOrderly(start, arrivals[..|arrivals| - 1]);
      OneMoreIsOrderly(Follow(start, arrivals[..|arrivals| - 1]), arrivals[|arrivals| - 1]);
    }
  }

  lemma {:induction false} FollowedInput(start: Course, arrivals: seq<Arrival>, k: nat)
    requires k < |arrivals|
    ensures var l, before := Follow(start, arrivals), Follow(start, arrivals[..k]);
            var n, a := |start.received| + k, arrivals[k];
            && |before.received| == n && |l.received| == |start.received| + |arrivals|
            && l.received[..n] == before.received
            && l.received[n] == Input(a.client, a.msg, Decision(Pass(before.bench, a.passes), a.msg, a.moment))
    decreases |arrivals|
  {
    var init := arrivals[..|arrivals| - 1];
    if k < |init| {
      FollowedInput(start, init, k);
      assert init[..k] == arrivals[..k];
    } else {
      assert init == arrivals[..k];
      FollowedLength(start, init);
    }
  }

  lemma {:induction false} FollowedLength(start: Course, arrivals: seq<Arrival>)
    ensures |Follow(start, arrivals).received| == |start.received| + |arrivals|
  {
    if arrivals != [] { FollowedLength(start, arrivals[..|arrivals| - 1]); }
  }

  /**
    The ids that the loop hands out are made of the clock reading of their own arrival and the number of
    tickets handed out before it.
   */
  lemma IdsFollowTheClock(start: Course, arrivals: seq<Arrival>, k: nat)
    requires Orderly(start) && k < |arrivals|
    ensures var received, n := Follow(start, arrivals).received, |start.received| + k;
            && n < |received|
            && received[n].client == arrivals[k].client && received[n].msg == arrivals[k].msg
            && received[n].choice.freshId
               == Tickets.IssuedId(arrivals[k].moment.stamp, TicketsIn(Serve(received[..n]).sent))
  {
    FollowedInput(start, arrivals, k);
    FollowIsOrderly(start, arrivals[..k]);
  }

  // ---------------------------------------------------------------- when a job is done

  /** Worker passes made from just before the k-th arrival to just before the next. */
  function PassesAt(start: Course, arrivals: seq<Arrival>, k: nat): nat
    requires k < |arrivals|
  {
    var b, a := Pass(BenchAt(start, arrivals, k), arrivals[k].passes), arrivals[k];
    a.passes
    + if a.client in Serve(Follow(start, arrivals[..k]).received).state.caps
         && a.msg.asEnvelope.Some? && a.msg.asEnvelope.value.GetReq?
      then PassesSeen(b, a.msg.asEnvelope.value.get, a.moment.passes) else 0
  }

  /** The sum of the entries from the i-th to before the k-th. */
  function SumFrom(xs: seq<nat>, i: nat, k: nat): nat
    requires i <= k <= |xs|
  {
    if i == k then 0 else SumFrom(xs, i, k - 1) + xs[k - 1]
  }

  function Passes(start: Course, arrivals: seq<Arrival>): seq<nat> {
    seq(|arrivals|, k requires 0 <= k < |arrivals| => PassesAt(start, arrivals, k))
  }

  function Benches(start: Course, arrivals: seq<Arrival>): seq<Bench> {
    seq(|arrivals| + 1, k requires 0 <= k <= |arrivals| => BenchAt(start, arrivals, k))
  }

  /** Worker passes made from just before arrival i to just before arrival k. */
  function PassesFrom(start: Course, arrivals: seq<Arrival>, i: nat, k: nat): nat
    requires i <= k <= |arrivals|
  {
    SumFrom(Passes(start, arrivals), i, k)
  }

  /** Jobs may be made, and each pass does one job if there is one. */
  predicate Moves(b: Bench, b': Bench, passes: nat) {
    b.made <= b'.made && b.done <= b.made && b'.done == Min(b.done + passes, b.made)
  }

  lemma BenchMoves(start: Course, arrivals: seq<Arrival>, k: nat)
    requires Orderly(start) && k < |arrivals|
    ensures var b, b' := BenchAt(start, arrivals, k), BenchAt(start, arrivals, k + 1);
            Moves(b, b', PassesAt(start, arrivals, k))
  {
    assert arrivals[..k + 1][..k] == arrivals[..k];
    FollowIsOrderly(start, arrivals[..k]);
  }

  /** After `passes` passes since `b`, job `j` is done exactly if enough were made; until then none was idle. */
  ghost predicate Reaches(b: Bench, b': Bench, passes: nat, j: nat) {
    && j < b'.made
    && (j < b'.done <==> j < b.done + passes)
    && (b'.done <= j ==> b'.done == b.done + passes)
  }

  lemma {:induction false} ReachesInTime(benches: seq<Bench>, passes: seq<nat>, i: nat, k: nat, j: nat)
    requires |benches| == |passes| + 1 && i <= k <= |passes| && j < benches[i].made
    requires forall l :: 0 <= l < |passes| ==> Moves(benches[l], benches[l + 1], passes[l])
    ensures Reaches(benches[i], benches[k], SumFrom(passes, i, k), j)
    decreases k
  {
    if i < k {
      ReachesInTime(benches, passes, i, k - 1, j);
      assert Moves(benches[k - 1], benches[k], passes[k - 1]);
    }
  }

  /** A job that is there at arrival i is done by arrival k exactly if enough passes are made in between. */
  lemma DoneIffPasses(start: Course, arrivals: seq<Arrival>, i: nat, k: nat, j: nat)
    requires Orderly(start) && i <= k <= |arrivals| && j < BenchAt(start, arrivals, i).made
    ensures Reaches(BenchAt(start, arrivals, i), BenchAt(start, arrivals, k), PassesFrom(start, arrivals, i, k), j)
  {
    var benches, passes := Benches(start, arrivals), Passes(start, arrivals);
    forall l | 0 <= l < |passes| ensures Moves(benches[l], benches[l + 1], passes[l]) { BenchMoves(start, arrivals, l); }
    ReachesInTime(benches, passes, i, k, j);
  }

  /**
    A `get` finds its job done exactly if fewer jobs were queued ahead of it at some earlier arrival than
    worker passes were made since: those between the messages, those made while other requests waited,
    and, with WAIT_UP_TO, those made before its own deadline.
   */
  lemma FinishedIffReached(start: Course, arrivals: seq<Arrival>, i: nat, k: nat)
    requires Orderly(start) && i <= k < |arrivals| && arrivals[k].msg.asEnvelope.Some? && arrivals[k].msg.asEnvelope.value.GetReq?
    requires var id := arrivals[k].msg.asEnvelope.value.get.ticket;
             id in BenchAt(start, arrivals, k).place
             && BenchAt(start, arrivals, k).place[id] < BenchAt(start, arrivals, i).made
    ensures var received, n := Follow(start, arrivals).received, |start.received| + k;
            var a := arrivals[k];
            var req := a.msg.asEnvelope.value.get;
            var ahead := BenchAt(start, arrivals, k).place[req.ticket] - BenchAt(start, arrivals, i).done;
            && n < |received|
            && (received[n].choice.finished <==>
                  ahead < PassesFrom(start, arrivals, i, k) + a.passes + if req.wait.WaitUpTo? then a.moment.passes else 0)
  {
    FollowedInput(start, arrivals, k);
    FollowIsOrderly(start, arrivals[..k]);
    var id := arrivals[k].msg.asEnvelope.value.get.ticket;
    DoneIffPasses(start, arrivals, i, k, BenchAt(start, arrivals, k).place[id]);
  }

  // ---------------------------------------------------------------- from a submit to its answer

  /** The reply to the k-th arrival. */
  function ReplyAt(start: Course, arrivals: seq<Arrival>, k: nat): Option<EnvelopeResp>
    requires k < |arrivals|
  {
    Handle(Follow(start, arrivals[..k]), arrivals[k]).reply
  }

  /** The state of the server when the k-th arrival comes. */
  function StateAt(start: Course, arrivals: seq<Arrival>, k: nat): State
    requires k <= |arrivals|
  {
    Serve(Follow(start, arrivals[..k]).received).state
  }

  predicate Issues(reply: Option<EnvelopeResp>, id: TicketId) {
    reply.Some? && reply.value.SubmitResp? && reply.value.submit.ticket == Some(id)
  }

  /** The replies sent are the replies to the arrivals, in order. */
  lemma RepliesAreSent(start: Course, arrivals: seq<Arrival>, k: nat)
    requires k < |arrivals|
    ensures Serve(Follow(start, arrivals[..k + 1]).received).sent
         == AddReply(Serve(Follow(start, arrivals[..k]).received).sent, arrivals[k].client, ReplyAt(start, arrivals, k))
  {
    assert arrivals[..k + 1][..k] == arrivals[..k];
    ServeOneMore(Follow(start, arrivals[..k]), arrivals[k]);
  }

  /** The ticket is open, and has the payload and the place that it had before. */
  ghost predicate SameTicket(s: State, b: Bench, s': State, b': Bench, id: TicketId) {
    && id in s.tickets && id in s'.tickets && s'.tickets[id] == s.tickets[id]
    && id in b.place && id in b'.place && b'.place[id] == b.place[id]
  }

  lemma TicketMoves(start: Course, arrivals: seq<Arrival>, k: nat, id: TicketId)
    requires Orderly(start) && k < |arrivals| && id in StateAt(start, arrivals, k + 1).tickets
    ensures var b, b' := BenchAt(start, arrivals, k), BenchAt(start, arrivals, k + 1);
            if Issues(ReplyAt(start, arrivals, k), id) then id in b'.place && b'.place[id] == b.made < b'.made
            else SameTicket(StateAt(start, arrivals, k), b, StateAt(start, arrivals, k + 1), b', id)
  {
    assert arrivals[..k + 1][..k] == arrivals[..k];
    FollowIsOrderly(start, arrivals[..k]);
    FollowIsOrderly(start, arrivals[..k + 1]);
    TicketMovesOnce(Follow(start, arrivals[..k]), arrivals[k], id);
  }

  lemma TicketMovesOnce(l: Course, a: Arrival, id: TicketId)
    requires Orderly(l) && Orderly(OneMore(l, a)) && id in Serve(OneMore(l, a).received).state.tickets
    ensures var b, b' := l.bench, OneMore(l, a).bench;
            if Issues(Handle(l, a).reply, id) then b'.place[id] == b.made < b'.made
            else SameTicket(Serve(l.received).state, b, Serve(OneMore(l, a).received).state, b', id)
  {
    ServeOneMore(l, a);
  }

  /** Until it is handed out again, an open ticket keeps its payload and the place of its job. */
  lemma {:induction false} TicketKeepsItsPlace(start: Course, arrivals: seq<Arrival>, i: nat, k: nat, id: TicketId)
    requires Orderly(start) && i <= k <= |arrivals|
    requires forall l :: i <= l < k ==> !Issues(ReplyAt(start, arrivals, l), id)
    requires id in StateAt(start, arrivals, k).tickets
    ensures SameTicket(StateAt(start, arrivals, i), BenchAt(start, arrivals, i),
                       StateAt(start, arrivals, k), BenchAt(start, arrivals, k), id)
    decreases k
  {
    if i < k {
      TicketMoves(start, arrivals, k - 1, id);
      TicketKeepsItsPlace(start, arrivals, i, k - 1, id);
    } else {
      FollowIsOrderly(start, arrivals[..k]);
    }
  }

  /** The i-th arrival is a non-blocking submit of `p` and is answered with ticket `id`. */
  predicate Submitted(start: Course, arrivals: seq<Arrival>, i: nat, id: TicketId, p: Payload)
    requires i < |arrivals|
  {
    arrivals[i].msg.asEnvelope == Some(SubmitReq(SubmitRequest(NonBlocking, p)))
    && Issues(ReplyAt(start, arrivals, i), id)
  }

  lemma SubmitOpensTicket(start: Course, arrivals: seq<Arrival>, i: nat, id: TicketId, p: Payload)
    requires i < |arrivals| && Submitted(start, arrivals, i, id, p)
    ensures StateAt(start, arrivals, i + 1).tickets == StateAt(start, arrivals, i).tickets[id := p]
  {
    assert arrivals[..i + 1][..i] == arrivals[..i];
    ServeOneMore(Follow(start, arrivals[..i]), arrivals[i]);
  }

  /** A registered client asks for an open ticket, with a wait mode that the server knows. */
  predicate AsksFor(start: Course, arrivals: seq<Arrival>, k: nat, req: GetRequest)
    requires k < |arrivals|
  {
    && arrivals[k].msg.asEnvelope == Some(GetReq(req)) && !req.wait.OtherWait?
    && arrivals[k].client in StateAt(start, arrivals, k).caps && req.ticket in StateAt(start, arrivals, k).tickets
  }

  /**
    A `get` of an open ticket is answered with the outcome of what was submitted for it exactly if fewer
    jobs were queued ahead of it when it was submitted than worker passes were made since: those between
    the messages, those made while other requests waited, and, with WAIT_UP_TO, those made before its own
    deadline. Otherwise it is answered NOT_FINISHED.
   */
  lemma TicketAnsweredIffReached(start: Course, arrivals: seq<Arrival>, i: nat, k: nat, req: GetRequest, p: Payload)
    requires Orderly(start) && i < k < |arrivals|
    requires Submitted(start, arrivals, i, req.ticket, p) && AsksFor(start, arrivals, k, req)
    requires forall l :: i < l < k ==> !Issues(ReplyAt(start, arrivals, l), req.ticket)
    ensures var ahead := BenchAt(start, arrivals, i).made - BenchAt(start, arrivals, i + 1).done;
            var passes := PassesFrom(start, arrivals, i + 1, k) + arrivals[k].passes
                          + if req.wait.WaitUpTo? then arrivals[k].moment.passes else 0;
            var o := Execute(p);
            ReplyAt(start, arrivals, k)
            == Some(GetResp(if ahead < passes then GetResponse(o.status, Some(o.result)) else GetResponse(NotFinished, None)))
  {
    SubmitOpensTicket(start, arrivals, i, req.ticket, p);
    TicketMoves(start, arrivals, i, req.ticket);
    TicketKeepsItsPlace(start, arrivals, i + 1, k, req.ticket);
    FinishedIffReached(start, arrivals, i + 1, k);
    FollowedInput(start, arrivals, k);
  }

  // ---------------------------------------------------------------- the loop itself

  class Application {
    const runner: AlgoRunner
    var caps: map<ClientId, bv8>
    var sent: seq<Output>
    ghost var executed: seq<Executed>
    ghost var received: seq<Input>

    ghost function Value(): State
      requires runner.Valid()
      reads this, runner
    {
      State(caps, runner.OpenTickets(), executed)
    }

    ghost function SoFar(): Course
      requires runner.Valid()
      reads this, runner
    {
      Course(received, runner.Progress())
    }

    /** State and replies are those that the messages received call for. */
    ghost predicate Valid()
      reads this, runner
    {
      runner.Valid() && Serve(received) == History(Value(), sent)
    }

    constructor ()
      ensures Valid() && fresh(runner) && SoFar() == Course([], Bench(0, 0, map[])) && Orderly(SoFar())
      ensures sent == [] && Value() == State(map[], map[], [])
    {
      runner := new AlgoRunner();
      caps, sent, executed, received := map[], [], [], [];
    }

    method HandleSubmit(c: ClientId, clientCaps: bv8, sreq: SubmitRequest, stamp: uint64)
      returns (resp: SubmitResponse)
      requires runner.Valid()
      modifies this`executed, runner
      ensures runner.Valid()
      ensures var h := HandleEnvelope(old(Value()), c, clientCaps, SubmitReq(sreq),
                                      Choice(Tickets.IssuedId(stamp, old(runner.Progress().made)), false));
              Value() == h.state && h.reply == Some(SubmitResp(resp))
      ensures runner.Progress()
              == if HasCapability(sreq.payload, clientCaps) then AfterRun(old(runner.Progress()), sreq, stamp)
                 else old(runner.Progress())
    {
      if !HasCapability(sreq.payload, clientCaps) {
        return SubmitResponse(InvalidInput, None, None);
      }
      resp := runner.Run(sreq, stamp);
      if !sreq.mode.OtherMode? {
        executed := executed + [Executed(c, sreq.payload)];
      }
    }

    method Dispatch(c: ClientId, clientCaps: bv8, env: EnvelopeReq, now: Moment, ghost choice: Choice)
      returns (resp: EnvelopeResp)
      requires runner.Valid()
      requires choice.freshId == Tickets.IssuedId(now.stamp, runner.Progress().made)
      requires choice.finished == (env.GetReq? && Reached(runner.Progress(), env.get, now.passes))
      modifies this`executed, runner
      ensures runner.Valid()
      ensures var h := HandleEnvelope(old(Value()), c, clientCaps, env, choice);
              Value() == h.state && h.reply == Some(resp)
      ensures runner.Progress() == AfterEnvelope(old(runner.Progress()), clientCaps, env, now)
    {
      match env {
        case SubmitReq(sreq) =>
          var sresp := HandleSubmit(c, clientCaps, sreq, now.stamp);
          resp := SubmitResp(sresp);
        case GetReq(greq) =>
          var gresp := runner.Get(greq, now.passes);
          resp := GetResp(gresp);
        case ReqNotSet =>
          resp := BAD_RESPONSE;
      }
    }

    /** One iteration of `run`. */
    method Process(c: ClientId, msg: Message, now: Moment)
      requires runner.Valid()
      modifies this`caps, this`sent, this`executed, runner
      ensures runner.Valid()
      ensures var h := Receive(old(Value()), c, msg, Decision(old(runner.Progress()), msg, now));
              Value() == h.state && sent == AddReply(old(sent), c, h.reply)
      ensures runner.Progress() == AfterMessage(old(runner.Progress()), old(caps), c, msg, now)
    {
      if c !in caps {
        if msg.asHandshake.None? {
          sent := sent + [Output(c, BAD_RESPONSE)];
        } else {
          var funcFlags := Narrow(msg.asHandshake.value);
          if !VerifyExecCaps(funcFlags) {
            sent := sent + [Output(c, BAD_RESPONSE)];
          }
          caps := caps[c := funcFlags];
        }
      } else if msg.asEnvelope.None? {
        sent := sent + [Output(c, BAD_RESPONSE)];
      } else {
        var resp := Dispatch(c, caps[c], msg.asEnvelope.value, now, Decision(runner.Progress(), msg, now));
        sent := sent + [Output(c, resp)];
      }
    }

    /** One iteration after some worker passes, with the message entered in the history. */
    method ReceiveOne(a: Arrival)
      requires Valid()
      modifies this, runner
      ensures Valid() && SoFar() == OneMore(old(SoFar()), a)
    {
      Work(a.passes);
      ghost var x := Input(a.client, a.msg, Decision(runner.Progress(), a.msg, a.moment));
      assert (received + [x])[..|received|] == received;
      Process(a.client, a.msg, a.moment);
      received := received + [x];
    }

    /** The whole loop: its course and its replies are those that the arrivals call for, and the accounts are straight. */
    method Run(arrivals: seq<Arrival>)
      requires Valid()
      modifies this, runner
      ensures Valid() && Accounts(received, sent, Value())
      ensures SoFar() == Follow(old(SoFar()), arrivals)
    {
      var k := 0;
      assert arrivals[..0] == [];
      while k < |arrivals|
        invariant 0 <= k <= |arrivals| && Valid()
        invariant SoFar() == Follow(old(SoFar()), arrivals[..k])
      {
        ReceiveOne(arrivals[k]);
        assert arrivals[..k + 1][..k] == arrivals[..k];
        k := k + 1;
      }
      assert arrivals[..k] == arrivals;
      ServeKeepsAccounts(received);
    }

    /** Workers make passes over the queue; each takes the oldest job, and no ticket opens or closes. */
    method Work(passes: nat)
      requires Valid()
      modifies runner
      ensures Valid() && Value() == old(Value())
      ensures runner.Progress() == Pass(old(runner.Progress()), passes)
      ensures |runner.jobQueue| == |old(runner.jobQueue)| - Min(passes, |old(runner.jobQueue)|)
    {
      var k := 0;
      while k < passes
        invariant k <= passes && Valid() && Value() == old(Value())
        invariant runner.Progress() == Pass(old(runner.Progress()), k)
      {
        var worked := runner.WorkerTurn();
        k := k + 1;
      }
    }
  }
}
