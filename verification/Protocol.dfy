/**
  Any number of clients and the server, joined by one FIFO channel each way per client. Clients
  hand in a valid mask first and then alternate sending and receiving; no message is lost and no
  receive times out. Ticket ids are fresh; module Composition puts the engine in the
  server's place and says when its ids are.
 */
module Protocol {
  import opened Ipc
  import opened Operations
  import opened TicketStore
  import Server
  import opened Client

  /** Who submitted what to get a ticket. */
  datatype Submission = Submission(client: ClientId, payload: Payload)

  datatype Net = Net(
    peers: map<ClientId, Peer>,
    server: Server.State,
    issued: map<TicketId, Submission>) // history

  datatype Action =
    | Join(c: ClientId, also: Option<EnvelopeReq>)
    | Send(c: ClientId, command: Command, noise: Option<bv32>)
    | Quit(c: ClientId)
    | Serve(c: ClientId, choice: Choice)
    | Read(c: ClientId)

  function Init(masks: map<ClientId, bv8>): Net {
    Net(map c | c in masks :: NewPeer(masks[c]), Server.State(map[], map[], []), map[])
  }

  /** `clientInitialize` lets no client start with an invalid mask. */
  ghost predicate ValidMasks(masks: map<ClientId, bv8>) {
    forall c :: c in masks ==> Server.VerifyExecCaps(masks[c])
  }

  predicate Enabled(net: Net, a: Action) {
    && a.c in net.peers
    && var p := net.peers[a.c];
       match a
       case Join(_, _) => p.phase.Unconnected?
       case Send(_, command, _) => p.phase.Ready? && (command.Get? ==> command.id in p.pending)
       case Quit(_) => p.phase.Ready?
       case Serve(_, choice) => p.outbox != [] && choice.freshId !in net.issued
       case Read(_) => p.phase.Awaiting? && p.inbox != []
  }

  /** A ticket in a reply is recorded with the submit that earned it. */
  function Record(issued: map<TicketId, Submission>, c: ClientId, msg: Message, reply: Option<EnvelopeResp>)
    : map<TicketId, Submission>
  {
    if reply.Some? && reply.value.SubmitResp? && reply.value.submit.ticket.Some?
       && msg.asEnvelope.Some? && msg.asEnvelope.value.SubmitReq?
    then issued[reply.value.submit.ticket.value := Submission(c, msg.asEnvelope.value.submit.payload)]
    else issued
  }

  function ServeOne(net: Net, c: ClientId, choice: Choice): Net
    requires Enabled(net, Serve(c, choice))
  {
    var p := net.peers[c];
    var h := Server.Receive(net.server, c, p.outbox[0], choice);
    var inbox := match h.reply case None => p.inbox case Some(r) => p.inbox + [r];
    Net(net.peers[c := p.(outbox := p.outbox[1..], inbox := inbox)], h.state,
        Record(net.issued, c, p.outbox[0], h.reply))
  }

  function Step(net: Net, a: Action): Net
    requires Enabled(net, a)
  {
    var p := net.peers[a.c];
    match a
    case Join(c, also) => net.(peers := net.peers[c := Connect(p, also)])
    case Send(c, command, noise) => net.(peers := net.peers[c := Ask(p, EnvelopeOf(command), noise)])
    case Quit(c) => net.(peers := net.peers[c := p.(phase := Gone)])
    case Serve(c, choice) => ServeOne(net, c, choice)
    case Read(c) => net.(peers := net.peers[c := TakeReply(p)])
  }

  predicate Legal(net: Net, schedule: seq<Action>)
    decreases |schedule|
  {
    schedule == [] || (Enabled(net, schedule[0]) && Legal(Step(net, schedule[0]), schedule[1..]))
  }

  function Run(net: Net, schedule: seq<Action>): Net
    requires Legal(net, schedule)
    decreases |schedule|
  {
    if schedule == [] then net else Run(Step(net, schedule[0]), schedule[1..])
  }

  lemma RunOne(net: Net, a: Action)
    requires Enabled(net, a)
    ensures Legal(net, [a]) && Run(net, [a]) == Step(net, a)
  {}

  lemma {:induction false} RunAppend(net: Net, first: seq<Action>, second: seq<Action>)
    requires Legal(net, first) && Legal(Run(net, first), second)
    ensures Legal(net, first + second) && Run(net, first + second) == Run(Run(net, first), second)
    decreases |first|
  {
    if first == [] {
      assert first + second == second;
    } else {
      assert (first + second)[1..] == first[1..] + second;
      RunAppend(Step(net, first[0]), first[1..], second);
    }
  }

  // ---------------------------------------------------------------- the invariant

  /** The pending tickets a client will have once the reply in flight is applied. */
  function Future(p: Peer): set<TicketId> {
    if p.phase.Awaiting? && p.inbox != [] then Settle(p.pending, p.phase.env, p.inbox[0]) else p.pending
  }

  /** A correct answer to an envelope of a client. */
  ghost predicate Answers(issued: map<TicketId, Submission>, c: ClientId, mask: bv8, env: EnvelopeReq, resp: EnvelopeResp) {
    match env
    case SubmitReq(req) =>
      && resp.SubmitResp?
      && if !Server.HasCapability(req.payload, mask) then resp.submit == SubmitResponse(InvalidInput, None, None)
         else if req.mode.Blocking? then
           var o := Execute(req.payload); resp.submit == SubmitResponse(o.status, None, Some(o.result))
         else
           && resp.submit.ticket.Some?
           && var id := resp.submit.ticket.value;
              && resp.submit == SubmitResponse(NotFinished, Some(id), None)
              && id in issued && issued[id] == Submission(c, req.payload)
    case GetReq(req) =>
      && resp.GetResp? && req.ticket in issued && issued[req.ticket].client == c
      && var o := Execute(issued[req.ticket].payload);
         resp.get in {GetResponse(NotFinished, None), GetResponse(o.status, Some(o.result))}
    case ReqNotSet => false
  }

  /** An envelope that clients send. */
  predicate WellFormed(p: Peer, env: EnvelopeReq) {
    match env
    case SubmitReq(req) => !req.mode.OtherMode?
    case GetReq(req) => !req.wait.OtherWait? && req.ticket in p.pending
    case ReqNotSet => false
  }

  predicate IsHandshake(p: Peer, msg: Message) { msg.asHandshake == Some(p.mask as bv32) }

  predicate Carries(msg: Message, env: EnvelopeReq) { msg.asEnvelope == Some(env) }

  /** The channels of a client hold exactly what its phase calls for. */
  ghost predicate Channels(net: Net, c: ClientId, p: Peer) {
    && Server.VerifyExecCaps(p.mask)
    && (c in net.server.caps ==> net.server.caps[c] == p.mask)
    && match p.phase
       case Unconnected => c !in net.server.caps && p.outbox == [] && p.inbox == []
       case Ready | Gone =>
         && p.inbox == []
         && if c in net.server.caps then p.outbox == [] else |p.outbox| == 1 && IsHandshake(p, p.outbox[0])
       case Awaiting(env) =>
         && WellFormed(p, env)
         && if c !in net.server.caps then
              |p.outbox| == 2 && IsHandshake(p, p.outbox[0]) && Carries(p.outbox[1], env) && p.inbox == []
            else if p.inbox == [] then |p.outbox| == 1 && Carries(p.outbox[0], env)
            else p.outbox == [] && |p.inbox| == 1 && Answers(net.issued, c, p.mask, env, p.inbox[0])
  }

  /** The k-th reply read answers the k-th envelope sent. */
  ghost predicate Paired(net: Net, c: ClientId, p: Peer) {
    forall k :: 0 <= k < |p.rounds| ==> RoundOk(net.issued, c, p.mask, p.rounds[k])
  }

  ghost predicate RoundOk(issued: map<TicketId, Submission>, c: ClientId, mask: bv8, r: Round) {
    r.reply.Some? && Answers(issued, c, mask, r.env, r.reply.value)
  }

  /** Every ticket a client counts on is in the server's table, under its name. */
  ghost predicate Backed(net: Net, c: ClientId, p: Peer) {
    forall id :: id in Future(p) ==> id in net.server.tickets && id in net.issued && net.issued[id].client == c
  }

  ghost predicate PeerOk(net: Net, c: ClientId)
    requires c in net.peers
  {
    var p := net.peers[c];
    Channels(net, c, p) && Paired(net, c, p) && Backed(net, c, p)
  }

  /** Every ticket in the server's table is one that its client counts on. */
  ghost predicate Owned(net: Net, id: TicketId)
    requires id in net.server.tickets
  {
    && id in net.issued
    && net.server.tickets[id] == net.issued[id].payload
    && net.issued[id].client in net.peers
    && id in Future(net.peers[net.issued[id].client])
  }

  ghost predicate Admitted(net: Net, id: TicketId)
    requires id in net.issued
  {
    net.issued[id].client in net.peers
    && Server.HasCapability(net.issued[id].payload, net.peers[net.issued[id].client].mask)
  }

  ghost predicate Inv(net: Net) {
    && (forall c :: c in net.peers ==> PeerOk(net, c))
    && (forall id :: id in net.server.tickets ==> Owned(net, id))
    && (forall id :: id in net.issued ==> Admitted(net, id))
  }

  lemma InitInv(masks: map<ClientId, bv8>)
    requires ValidMasks(masks)
    ensures Inv(Init(masks))
  {
    var net := Init(masks);
    forall c | c in net.peers ensures PeerOk(net, c) {}
  }

  // ---------------------------------------------------------------- preservation: steps of one client

  /** A client moved, without changing which tickets it counts on. */
  lemma KeptByPeer(net: Net, c: ClientId, p': Peer)
    requires Inv(net) && c in net.peers
    requires p'.mask == net.peers[c].mask && Future(p') == Future(net.peers[c])
    requires Channels(net, c, p') && Paired(net, c, p')
    ensures Inv(net.(peers := net.peers[c := p']))
  {
    var net' := net.(peers := net.peers[c := p']);
    forall d | d in net'.peers ensures PeerOk(net', d) {
      assert PeerOk(net, d);
    }
    forall id | id in net'.server.tickets ensures Owned(net', id) { assert Owned(net, id); }
    forall id | id in net'.issued ensures Admitted(net', id) { assert Admitted(net, id); }
  }

  lemma KeptByClientStep(net: Net, a: Action)
    requires Inv(net) && Enabled(net, a) && !a.Serve?
    ensures Inv(Step(net, a))
  {
    assert PeerOk(net, a.c);
    KeptByPeer(net, a.c, Step(net, a).peers[a.c]);
  }

  // ---------------------------------------------------------------- preservation: steps of the server

  /** The history of issues only grows. */
  ghost predicate Extends(issued: map<TicketId, Submission>, issued': map<TicketId, Submission>) {
    forall id :: id in issued ==> id in issued' && issued'[id] == issued[id]
  }

  lemma AnswersPersist(issued: map<TicketId, Submission>, issued': map<TicketId, Submission>,
                       c: ClientId, mask: bv8, env: EnvelopeReq, resp: EnvelopeResp)
    requires Answers(issued, c, mask, env, resp) && Extends(issued, issued')
    ensures Answers(issued', c, mask, env, resp)
  {}

  /** A client is not disturbed by what the server does for another. */
  lemma OthersUndisturbed(net: Net, net': Net, d: ClientId)
    requires d in net.peers && d in net'.peers && net'.peers[d] == net.peers[d] && PeerOk(net, d)
    requires d in net'.server.caps <==> d in net.server.caps
    requires d in net.server.caps ==> net'.server.caps[d] == net.server.caps[d]
    requires Extends(net.issued, net'.issued)
    requires forall id :: id in Future(net.peers[d]) ==> id in net'.server.tickets
    ensures PeerOk(net', d)
  {
    var p := net.peers[d];
    forall k | 0 <= k < |p.rounds| ensures RoundOk(net'.issued, d, p.mask, p.rounds[k]) {
      assert RoundOk(net.issued, d, p.mask, p.rounds[k]);
      AnswersPersist(net.issued, net'.issued, d, p.mask, p.rounds[k].env, p.rounds[k].reply.value);
    }
    if p.phase.Awaiting? && p.inbox != [] {
      AnswersPersist(net.issued, net'.issued, d, p.mask, p.phase.env, p.inbox[0]);
    }
  }

  lemma KeptByRegistration(net: Net, c: ClientId, choice: Choice)
    requires Inv(net) && Enabled(net, Serve(c, choice)) && c !in net.server.caps
    ensures Inv(ServeOne(net, c, choice))
  {
    var net' := ServeOne(net, c, choice);
    assert PeerOk(net, c);
    Registered(net, c, choice);
    forall d | d in net'.peers && d != c ensures PeerOk(net', d) {
      assert PeerOk(net, d);
      OthersUndisturbed(net, net', d);
    }
    forall id | id in net'.server.tickets ensures Owned(net', id) { assert Owned(net, id); }
    forall id | id in net'.issued ensures Admitted(net', id) { assert Admitted(net, id); }
  }

  lemma Registered(net: Net, c: ClientId, choice: Choice)
    requires Enabled(net, Serve(c, choice)) && c !in net.server.caps && PeerOk(net, c)
    ensures var p, net' := net.peers[c], ServeOne(net, c, choice);
            && PeerOk(net', c)
            && net' == Net(net.peers[c := p.(outbox := p.outbox[1..])],
                           net.server.(caps := net.server.caps[c := p.mask]), net.issued)
            && Future(net'.peers[c]) == Future(p)
  {
    var p := net.peers[c];
    HandshakeAccepted(net.server, c, p.mask, p.outbox[0], choice);
  }

  lemma HandshakeAccepted(s: Server.State, c: ClientId, mask: bv8, msg: Message, choice: Choice)
    requires c !in s.caps && Server.VerifyExecCaps(mask) && msg.asHandshake == Some(mask as bv32)
    ensures Server.Receive(s, c, msg, choice) == Server.Handled(s.(caps := s.caps[c := mask]), None)
  {
    NarrowOfMask(mask);
  }

  lemma NarrowOfMask(mask: bv8)
    ensures Server.Narrow(mask as bv32) == mask
  {}

  /** A ticket enters or leaves the server's table together with the client's future. */
  ghost predicate Transfer(net: Net, net': Net, c: ClientId, newId: TicketId)
    requires c in net.peers && c in net'.peers
  {
    var m, m', f, f' := net.server.tickets, net'.server.tickets, Future(net.peers[c]), Future(net'.peers[c]);
    || (m' == m && f' == f && net'.issued == net.issued)
    || (exists p :: Server.HasCapability(p, net.peers[c].mask)
                    && m' == m[newId := p] && f' == f + {newId} && net'.issued == net.issued[newId := Submission(c, p)])
    || (exists id :: id in f && m' == m - {id} && f' == f - {id} && net'.issued == net.issued)
  }

  /** What serving an envelope does to the server, to its client and to the history of issues. */
  ghost predicate Served(net: Net, net': Net, c: ClientId, newId: TicketId)
    requires c in net.peers
  {
    var p := net.peers[c];
    && p.phase.Awaiting? && c in net'.peers
    && var p' := net'.peers[c];
       && net'.peers == net.peers[c := p']
       && net'.server.caps == net.server.caps
       && |p'.inbox| == 1 && p' == p.(outbox := [], inbox := p'.inbox)
       && Answers(net'.issued, c, p.mask, p.phase.env, p'.inbox[0])
       && Extends(net.issued, net'.issued)
       && Transfer(net, net', c, newId)
  }

  lemma ServeSubmit(net: Net, c: ClientId, choice: Choice)
    requires Enabled(net, Serve(c, choice)) && c in net.server.caps && PeerOk(net, c)
    requires net.peers[c].phase.Awaiting? && net.peers[c].phase.env.SubmitReq?
    ensures Served(net, ServeOne(net, c, choice), c, choice.freshId)
  {}

  lemma ServeGet(net: Net, c: ClientId, choice: Choice)
    requires Enabled(net, Serve(c, choice)) && c in net.server.caps && PeerOk(net, c)
    requires net.peers[c].phase.Awaiting? && net.peers[c].phase.env.GetReq?
    requires var id := net.peers[c].phase.env.get.ticket; id in net.server.tickets && Owned(net, id)
    ensures Served(net, ServeOne(net, c, choice), c, choice.freshId)
  {}

  lemma ServedPeerOk(net: Net, net': Net, c: ClientId, newId: TicketId)
    requires c in net.peers && c in net.server.caps && PeerOk(net, c)
    requires Served(net, net', c, newId)
    ensures PeerOk(net', c)
  {
    var p := net.peers[c];
    forall k | 0 <= k < |p.rounds| ensures RoundOk(net'.issued, c, p.mask, p.rounds[k]) {
      assert RoundOk(net.issued, c, p.mask, p.rounds[k]);
      AnswersPersist(net.issued, net'.issued, c, p.mask, p.rounds[k].env, p.rounds[k].reply.value);
    }
  }

  lemma TicketsStayOwned(net: Net, net': Net, c: ClientId, newId: TicketId)
    requires Inv(net) && c in net.peers && newId !in net.issued && Served(net, net', c, newId)
    ensures forall id :: id in net'.server.tickets ==> Owned(net', id)
    ensures forall id :: id in net'.issued ==> Admitted(net', id)
  {
    forall id | id in net'.server.tickets ensures Owned(net', id) {
      assert id in net.server.tickets ==> Owned(net, id);
    }
    forall id | id in net'.issued ensures Admitted(net', id) {
      assert id in net.issued ==> Admitted(net, id);
    }
  }

  lemma KeptByServe(net: Net, c: ClientId, choice: Choice)
    requires Inv(net) && Enabled(net, Serve(c, choice)) && c in net.server.caps
    ensures Inv(ServeOne(net, c, choice))
  {
    var net' := ServeOne(net, c, choice);
    var p := net.peers[c];
    assert PeerOk(net, c);
    if p.phase.env.SubmitReq? {
      ServeSubmit(net, c, choice);
    } else {
      assert p.phase.env.get.ticket in Future(p);
      assert Owned(net, p.phase.env.get.ticket);
      ServeGet(net, c, choice);
    }
    InvAfterServing(net, net', c, choice.freshId);
  }

  lemma InvAfterServing(net: Net, net': Net, c: ClientId, newId: TicketId)
    requires Inv(net) && c in net.peers && c in net.server.caps && newId !in net.issued
    requires Served(net, net', c, newId)
    ensures Inv(net')
  {
    assert PeerOk(net, c);
    ServedPeerOk(net, net', c, newId);
    forall d | d in net'.peers && d != c ensures PeerOk(net', d) {
      assert PeerOk(net, d);
      OthersUndisturbed(net, net', d);
    }
    TicketsStayOwned(net, net', c, newId);
  }

  lemma StepKeepsInv(net: Net, a: Action)
    requires Inv(net) && Enabled(net, a)
    ensures Inv(Step(net, a))
  {
    match a
    case Serve(c, choice) =>
      if c in net.server.caps { KeptByServe(net, c, choice); } else { KeptByRegistration(net, c, choice); }
    case _ => KeptByClientStep(net, a);
  }

  lemma {:induction false} RunKeepsInv(net: Net, schedule: seq<Action>)
    requires Inv(net) && Legal(net, schedule)
    ensures Inv(Run(net, schedule))
    decreases |schedule|
  {
    if schedule != [] {
      StepKeepsInv(net, schedule[0]);
      RunKeepsInv(Step(net, schedule[0]), schedule[1..]);
    }
  }

  // ---------------------------------------------------------------- theorems over whole runs

  /** The server's table is the disjoint union of what the clients count on, replies in flight applied. */
  lemma TablesAgree(masks: map<ClientId, bv8>, schedule: seq<Action>)
    requires ValidMasks(masks) && Legal(Init(masks), schedule)
    ensures var net := Run(Init(masks), schedule);
            && net.server.tickets.Keys == (set c, id | c in net.peers && id in Future(net.peers[c]) :: id)
            && (forall c, d :: c in net.peers && d in net.peers && c != d ==>
                  Future(net.peers[c]) !! Future(net.peers[d]))
            && (forall id :: id in net.server.tickets ==> Owned(net, id))
  {
    var net := Run(Init(masks), schedule);
    InitInv(masks);
    RunKeepsInv(Init(masks), schedule);
    forall id | id in net.server.tickets
      ensures exists c :: c in net.peers && id in Future(net.peers[c])
    {
      assert Owned(net, id);
    }
    forall c | c in net.peers ensures Backed(net, c, net.peers[c]) { assert PeerOk(net, c); }
    forall c, d | c in net.peers && d in net.peers && c != d
      ensures Future(net.peers[c]) !! Future(net.peers[d])
    {
      assert Backed(net, c, net.peers[c]) && Backed(net, d, net.peers[d]);
    }
  }

  /**
    The reply a client takes for its k-th envelope answers that envelope in kind and content, so no
    receive fails; and a waiting client's reply is on its way.
   */
  lemma RepliesPairUp(masks: map<ClientId, bv8>, schedule: seq<Action>, c: ClientId)
    requires ValidMasks(masks) && Legal(Init(masks), schedule) && c in Run(Init(masks), schedule).peers
    ensures var net := Run(Init(masks), schedule);
            var p := net.peers[c];
            && (forall k :: 0 <= k < |p.rounds| ==>
                  && RoundOk(net.issued, c, p.mask, p.rounds[k])
                  && !Fails(p.rounds[k].env, p.rounds[k].reply))
            && (p.phase.Awaiting? ==> p.outbox != [] || p.inbox != [])
            && (p.phase.Awaiting? && p.inbox != [] ==> Answers(net.issued, c, p.mask, p.phase.env, p.inbox[0]))
  {
    InitInv(masks);
    RunKeepsInv(Init(masks), schedule);
    assert PeerOk(Run(Init(masks), schedule), c);
  }

  /**
    A client that asks for its ticket is either put off or given the outcome of what it submitted,
    never INVALID_INPUT; so erasing the ticket on any other status never drops an unfinished job.
   */
  lemma NoTicketDroppedEarly(masks: map<ClientId, bv8>, schedule: seq<Action>, c: ClientId, k: nat)
    requires ValidMasks(masks) && Legal(Init(masks), schedule) && c in Run(Init(masks), schedule).peers
    requires var p := Run(Init(masks), schedule).peers[c];
             k < |p.rounds| && p.rounds[k].env.GetReq?
    ensures var net := Run(Init(masks), schedule);
            var r := net.peers[c].rounds[k];
            var id := r.env.get.ticket;
            && r.reply.Some? && r.reply.value.GetResp? && id in net.issued && net.issued[id].client == c
            && var resp, o := r.reply.value.get, Execute(net.issued[id].payload);
               && resp.status != InvalidInput
               && (resp.status != NotFinished ==> resp == GetResponse(o.status, Some(o.result)))
  {
    var net := Run(Init(masks), schedule);
    var p := net.peers[c];
    InitInv(masks);
    RunKeepsInv(Init(masks), schedule);
    assert PeerOk(net, c);
    assert RoundOk(net.issued, c, p.mask, p.rounds[k]);
    var id := p.rounds[k].env.get.ticket;
    assert Admitted(net, id);
    Server.AdmittedIsKnown(net.issued[id].payload, net.peers[net.issued[id].client].mask);
  }
}
