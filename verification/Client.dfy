/**
  The client: a handshake, then one envelope at a time, each followed by a receive that may time
  out, and a table of pending tickets. The functions are the client's steps on values; the class
  takes them in place.
 */
module Client {
  import opened Ipc

  datatype Phase = Unconnected | Ready | Awaiting(env: EnvelopeReq) | Gone

  /** An envelope that was sent, and the reply that was taken for it unless the receive timed out. */
  datatype Round = Round(env: EnvelopeReq, reply: Option<EnvelopeResp>)

  datatype Peer = Peer(
    mask: bv8,
    phase: Phase,
    pending: set<TicketId>,
    outbox: seq<Message>,              // to the server
    inbox: seq<EnvelopeResp>,          // from the server
    rounds: seq<Round>)                // history

  function NewPeer(mask: bv8): Peer { Peer(mask, Unconnected, {}, [], [], []) }

  // ---------------------------------------------------------------- the steps of a client

  /** `sendFirstHandshake`; `also` is what the envelope parser would make of the same bytes. */
  function Connect(p: Peer, also: Option<EnvelopeReq>): Peer {
    p.(phase := Ready, outbox := p.outbox + [Message(Some(p.mask as bv32), also)])
  }

  /** `sendEnvelope`; `also` is what the handshake parser would make of the same bytes. */
  function Ask(p: Peer, env: EnvelopeReq, also: Option<bv32>): Peer {
    p.(phase := Awaiting(env), outbox := p.outbox + [Message(also, Some(env))])
  }

  /** The pending tickets once the reply taken for `env` has been read. */
  function Settle(pending: set<TicketId>, env: EnvelopeReq, resp: EnvelopeResp): set<TicketId> {
    match env
    case SubmitReq(req) =>
      if req.mode.NonBlocking? && resp.SubmitResp? && resp.submit.ticket.Some?
      then pending + {resp.submit.ticket.value} else pending
    case GetReq(req) =>
      if resp.GetResp? && resp.get.status != NotFinished then pending - {req.ticket} else pending
    case ReqNotSet => pending
  }

  /** The reply is missing or of the wrong kind. */
  predicate Fails(env: EnvelopeReq, reply: Option<EnvelopeResp>) {
    reply.None? || reply.value.SubmitResp? != env.SubmitReq?
  }

  /** `run` gives up after an arithmetic submit that fails, and goes on after any other failure. */
  predicate Fatal(env: EnvelopeReq, reply: Option<EnvelopeResp>) {
    env.SubmitReq? && env.submit.payload.Math? && Fails(env, reply)
  }

  /** `recvEnvelope` and what `run` does with the outcome. */
  function TakeReply(p: Peer): Peer
    requires p.phase.Awaiting?
  {
    var env := p.phase.env;
    var reply := if p.inbox == [] then None else Some(p.inbox[0]);
    p.(phase := if Fatal(env, reply) then Gone else Ready,
       pending := if reply.Some? then Settle(p.pending, env, reply.value) else p.pending,
       inbox := if p.inbox == [] then [] else p.inbox[1..],
       rounds := p.rounds + [Round(env, reply)])
  }

  // ---------------------------------------------------------------- a session

  datatype Command = Submit(payload: Payload, nonBlocking: bool) | Get(id: TicketId, wait: bool, ms: uint32)

  /** The envelope that a command sends. */
  function EnvelopeOf(command: Command): EnvelopeReq {
    match command
    case Submit(payload, nb) => SubmitReq(SubmitRequest(if nb then NonBlocking else Blocking, payload))
    case Get(id, wait, ms) => GetReq(GetRequest(id, if wait then WaitUpTo else NoWait, if wait then ms else 0))
  }

  /** A command, and the replies that reach the client before its receive would time out. */
  datatype Turn = Turn(command: Command, also: Option<bv32>, arrivals: seq<EnvelopeResp>)

  function Arrive(p: Peer, arrivals: seq<EnvelopeResp>): Peer { p.(inbox := p.inbox + arrivals) }

  /** One pass of the command loop; a `get` of a ticket that is not pending sends nothing. */
  function TakeTurn(p: Peer, t: Turn): Peer {
    if t.command.Get? && t.command.id !in p.pending then Arrive(p, t.arrivals)
    else TakeReply(Arrive(Ask(p, EnvelopeOf(t.command), t.also), t.arrivals))
  }

  function Session(p: Peer, turns: seq<Turn>): Peer
    decreases |turns|
  {
    if turns == [] || p.phase.Gone? then p else Session(TakeTurn(p, turns[0]), turns[1..])
  }

  // ---------------------------------------------------------------- pending tickets

  /** The pending tickets that a history of rounds leaves. */
  function Ledger(rounds: seq<Round>): set<TicketId> {
    if rounds == [] then {}
    else
      var before, r := Ledger(rounds[..|rounds| - 1]), rounds[|rounds| - 1];
      if r.reply.None? then before else Settle(before, r.env, r.reply.value)
  }

  /** The round issued the ticket to this client. */
  predicate Opens(r: Round, id: TicketId) {
    r.env.SubmitReq? && r.env.submit.mode.NonBlocking?
    && r.reply.Some? && r.reply.value.SubmitResp? && r.reply.value.submit.ticket == Some(id)
  }

  /** The round got a final answer to the ticket. */
  predicate Closes(r: Round, id: TicketId) {
    r.env.GetReq? && r.env.get.ticket == id
    && r.reply.Some? && r.reply.value.GetResp? && r.reply.value.get.status != NotFinished
  }

  ghost predicate OpenSince(rounds: seq<Round>, id: TicketId, k: nat) {
    && k < |rounds| && Opens(rounds[k], id)
    && forall l :: k < l < |rounds| ==> !Closes(rounds[l], id)
  }

  /** A ticket is pending exactly when some round opened it and no later round closed it. */
  lemma {:induction false} PendingIff(rounds: seq<Round>, id: TicketId)
    ensures id in Ledger(rounds) <==> exists k: nat :: OpenSince(rounds, id, k)
  {
    if rounds != [] {
      var n := |rounds| - 1;
      var before := rounds[..n];
      PendingIff(before, id);
      if Opens(rounds[n], id) {
        assert OpenSince(rounds, id, n);
      } else if k: nat :| OpenSince(before, id, k) && !Closes(rounds[n], id) {
        assert OpenSince(rounds, id, k);
      } else if k: nat :| OpenSince(rounds, id, k) {
        assert OpenSince(before, id, k);
      }
    }
  }

  /** Every `get` was for a ticket then pending. */
  ghost predicate AsksOwnTickets(rounds: seq<Round>) {
    forall k :: 0 <= k < |rounds| && rounds[k].env.GetReq? ==> rounds[k].env.get.ticket in Ledger(rounds[..k])
  }

  /** What holds between commands. */
  ghost predicate Settled(p: Peer) {
    p.pending == Ledger(p.rounds) && AsksOwnTickets(p.rounds) && !p.phase.Awaiting?
  }

  lemma LedgerAppend(rounds: seq<Round>, r: Round)
    ensures Ledger(rounds + [r])
         == if r.reply.None? then Ledger(rounds) else Settle(Ledger(rounds), r.env, r.reply.value)
  {
    assert (rounds + [r])[..|rounds|] == rounds;
  }

  lemma AsksAppend(rounds: seq<Round>, r: Round)
    requires AsksOwnTickets(rounds) && (r.env.GetReq? ==> r.env.get.ticket in Ledger(rounds))
    ensures AsksOwnTickets(rounds + [r])
  {
    var after := rounds + [r];
    forall k | 0 <= k < |after| && after[k].env.GetReq? ensures after[k].env.get.ticket in Ledger(after[..k]) {
      assert after[..k] == rounds[..k];
      if k == |rounds| { assert rounds[..k] == rounds; }
    }
  }

  lemma RoundEnds(p: Peer)
    requires p.phase.Awaiting? && p.pending == Ledger(p.rounds) && AsksOwnTickets(p.rounds)
    requires p.phase.env.GetReq? ==> p.phase.env.get.ticket in p.pending
    ensures Settled(TakeReply(p))
  {
    var r := Round(p.phase.env, if p.inbox == [] then None else Some(p.inbox[0]));
    LedgerAppend(p.rounds, r);
    AsksAppend(p.rounds, r);
  }

  /** Whatever the user types and whatever arrives, the table of pending tickets is what the rounds left. */
  lemma {:induction false} SessionIsSettled(p: Peer, turns: seq<Turn>)
    requires Settled(p)
    ensures Settled(Session(p, turns))
    decreases |turns|
  {
    if turns != [] && !p.phase.Gone? {
      TurnIsSettled(p, turns[0]);
      SessionIsSettled(TakeTurn(p, turns[0]), turns[1..]);
    }
  }

  lemma TurnIsSettled(p: Peer, t: Turn)
    requires Settled(p)
    ensures Settled(TakeTurn(p, t))
  {
    if !(t.command.Get? && t.command.id !in p.pending) {
      RoundEnds(Arrive(Ask(p, EnvelopeOf(t.command), t.also), t.arrivals));
    }
  }

  // ---------------------------------------------------------------- which reply is taken for which envelope

  /** The replies taken, in order. */
  function Replies(rounds: seq<Round>): seq<EnvelopeResp> {
    if rounds == [] then []
    else
      var before, r := Replies(rounds[..|rounds| - 1]), rounds[|rounds| - 1];
      if r.reply.None? then before else before + [r.reply.value]
  }

  function Arrived(turns: seq<Turn>): seq<EnvelopeResp> {
    if turns == [] then [] else turns[0].arrivals + Arrived(turns[1..])
  }

  /** Replies received so far: those taken and those not read yet. */
  function Received(p: Peer): seq<EnvelopeResp> { Replies(p.rounds) + p.inbox }

  lemma TakingKeepsReceived(p: Peer)
    requires p.phase.Awaiting?
    ensures Received(TakeReply(p)) == Received(p)
  {
    var q := TakeReply(p);
    assert q.rounds[..|p.rounds|] == p.rounds;
    if p.inbox != [] { assert p.inbox == [p.inbox[0]] + q.inbox; }
  }

  lemma TurnReceives(p: Peer, t: Turn)
    ensures Received(TakeTurn(p, t)) == Received(p) + t.arrivals
  {
    assert Received(Arrive(p, t.arrivals)) == Received(p) + t.arrivals;
    if !(t.command.Get? && t.command.id !in p.pending) {
      TakingKeepsReceived(Arrive(Ask(p, EnvelopeOf(t.command), t.also), t.arrivals));
    }
  }

  /** Replies are taken in the order they arrive: none is skipped, invented or taken twice. */
  lemma {:induction false} RepliesTakenInOrder(p: Peer, turns: seq<Turn>)
    ensures Received(p) <= Received(Session(p, turns)) <= Received(p) + Arrived(turns)
    decreases |turns|
  {
    if turns != [] && !p.phase.Gone? {
      TurnReceives(p, turns[0]);
      RepliesTakenInOrder(TakeTurn(p, turns[0]), turns[1..]);
      assert Received(p) + turns[0].arrivals + Arrived(turns[1..]) == Received(p) + Arrived(turns);
    }
  }

  lemma {:induction false} RepliesOfPrefix(rounds: seq<Round>, k: nat)
    requires k <= |rounds|
    ensures Replies(rounds[..k]) <= Replies(rounds)
    ensures |Replies(rounds[..k])| <= k
    ensures |Replies(rounds[..k])| == k <==> forall i :: 0 <= i < k ==> rounds[i].reply.Some?
    decreases |rounds|
  {
    var n := |rounds| - 1;
    if k == |rounds| {
      assert rounds[..k] == rounds;
      if rounds != [] {
        RepliesOfPrefix(rounds[..n], n);
        assert rounds[..n][..n] == rounds[..n];
      }
    } else {
      RepliesOfPrefix(rounds[..n], k);
      assert rounds[..n][..k] == rounds[..k];
    }
  }

  /**
    The reply taken for the k-th envelope is the next one received, and it is the k-th one received
    exactly when no earlier receive timed out. After a time-out every reply is taken for a later
    envelope than the one in its place.
   */
  lemma PairedIffNoTimeOut(rounds: seq<Round>, k: nat)
    requires k < |rounds| && rounds[k].reply.Some?
    ensures var place := |Replies(rounds[..k])|;
            && place < |Replies(rounds)| && rounds[k].reply == Some(Replies(rounds)[place])
            && place <= k
            && (place == k <==> forall i :: 0 <= i < k ==> rounds[i].reply.Some?)
  {
    RepliesOfPrefix(rounds, k);
    RepliesOfPrefix(rounds, k + 1);
    assert rounds[..k + 1][..k] == rounds[..k];
  }

  /** After a time-out a late ticket is taken for the answer to the next envelope and never becomes pending. */
  lemma LateTicketIsLost(mask: bv8, s1: Bytes, s2: Bytes, id: TicketId)
    ensures var late := SubmitResp(SubmitResponse(NotFinished, Some(id), None));
            var turns := [Turn(Submit(Str(Concat, s1, s2), true), None, []),
                          Turn(Submit(Str(Concat, s1, s2), false), None, [late])];
            var p := Session(Connect(NewPeer(mask), None), turns);
            && p.rounds == [Round(SubmitReq(SubmitRequest(NonBlocking, Str(Concat, s1, s2))), None),
                            Round(SubmitReq(SubmitRequest(Blocking, Str(Concat, s1, s2))), Some(late))]
            && p.phase.Ready? && p.pending == {}
  {
    var late := SubmitResp(SubmitResponse(NotFinished, Some(id), None));
    var first := Turn(Submit(Str(Concat, s1, s2), true), None, []);
    var second := Turn(Submit(Str(Concat, s1, s2), false), None, [late]);
    var p := Connect(NewPeer(mask), None);
    var q := TakeTurn(p, first);
    assert [first, second][1..] == [second];
    assert Session(q, [second]) == Session(TakeTurn(q, second), []);
  }

  // ---------------------------------------------------------------- which envelope is sent for which command

  /** The first reply there is, old or new. */
  function FirstOf(inbox: seq<EnvelopeResp>, arrivals: seq<EnvelopeResp>): Option<EnvelopeResp> {
    if inbox + arrivals == [] then None else Some((inbox + arrivals)[0])
  }

  /** The round of an envelope: it is sent once, as it is, and the first reply there is is taken for it. */
  ghost predicate OneRound(p: Peer, q: Peer, t: Turn, env: EnvelopeReq) {
    && q.outbox == p.outbox + [Message(t.also, Some(env))]
    && q.rounds == p.rounds + [Round(env, FirstOf(p.inbox, t.arrivals))]
  }

  /**
    A submit sends its payload unchanged, in the mode asked for; a get of a pending ticket sends that
    ticket, WAIT_UP_TO with the milliseconds exactly if it may wait; any other get sends nothing.
   */
  lemma TurnIsOneRound(p: Peer, t: Turn)
    ensures match t.command
            case Submit(payload, nb) =>
              OneRound(p, TakeTurn(p, t), t, SubmitReq(SubmitRequest(if nb then NonBlocking else Blocking, payload)))
            case Get(id, wait, ms) =>
              if id !in p.pending then TakeTurn(p, t) == p.(inbox := p.inbox + t.arrivals)
              else OneRound(p, TakeTurn(p, t), t, GetReq(if wait then GetRequest(id, WaitUpTo, ms) else GetRequest(id, NoWait, 0)))
  {}

  /** The submits that were sent, and those that were typed. */
  function SubmitsSent(rounds: seq<Round>): seq<SubmitRequest> {
    if rounds == [] then []
    else
      var before, r := SubmitsSent(rounds[..|rounds| - 1]), rounds[|rounds| - 1];
      if r.env.SubmitReq? then before + [r.env.submit] else before
  }

  function SubmitsTyped(turns: seq<Turn>): seq<SubmitRequest> {
    if turns == [] then [] else SubmitTyped(turns[0].command) + SubmitsTyped(turns[1..])
  }

  function SubmitTyped(command: Command): seq<SubmitRequest> {
    match command
    case Submit(payload, nb) => [SubmitRequest(if nb then NonBlocking else Blocking, payload)]
    case Get(_, _, _) => []
  }

  lemma TurnSends(p: Peer, t: Turn)
    ensures SubmitsSent(TakeTurn(p, t).rounds) == SubmitsSent(p.rounds) + SubmitTyped(t.command)
  {
    var q := TakeTurn(p, t);
    TurnIsOneRound(p, t);
    if q.rounds != p.rounds { assert q.rounds[..|p.rounds|] == p.rounds; }
  }

  /** Every submit typed is sent, in order and in its mode; only the failure of an arithmetic one stops the session. */
  lemma {:induction false} SubmitsAreSent(p: Peer, turns: seq<Turn>)
    requires !p.phase.Gone?
    ensures var q := Session(p, turns);
            && SubmitsSent(p.rounds) <= SubmitsSent(q.rounds) <= SubmitsSent(p.rounds) + SubmitsTyped(turns)
            && (!q.phase.Gone? ==> SubmitsSent(q.rounds) == SubmitsSent(p.rounds) + SubmitsTyped(turns))
    decreases |turns|
  {
    if turns != [] {
      var q, rest := TakeTurn(p, turns[0]), turns[1..];
      TurnSends(p, turns[0]);
      assert SubmitsSent(p.rounds) + SubmitTyped(turns[0].command) + SubmitsTyped(rest)
          == SubmitsSent(p.rounds) + SubmitsTyped(turns);
      if !q.phase.Gone? { SubmitsAreSent(q, rest); }
    }
  }

  /** Envelopes and rounds belong together: what is sent is what the rounds say was sent. */
  ghost predicate SentInRounds(p: Peer, q: Peer) {
    && p.outbox <= q.outbox && p.rounds <= q.rounds
    && |q.outbox| - |p.outbox| == |q.rounds| - |p.rounds|
    && forall k :: |p.rounds| <= k < |q.rounds| ==>
         q.outbox[k - |p.rounds| + |p.outbox|].asEnvelope == Some(q.rounds[k].env)
  }

  lemma {:induction false} EveryRoundIsSent(p: Peer, turns: seq<Turn>)
    ensures SentInRounds(p, Session(p, turns))
    decreases |turns|
  {
    if turns != [] && !p.phase.Gone? {
      var q := TakeTurn(p, turns[0]);
      TurnIsOneRound(p, turns[0]);
      EveryRoundIsSent(q, turns[1..]);
      SentTogether(p, q, Session(p, turns));
    }
  }

  lemma SentTogether(p: Peer, q: Peer, r: Peer)
    requires SentInRounds(p, q) && SentInRounds(q, r)
    ensures SentInRounds(p, r)
  {
    forall k | |p.rounds| <= k < |r.rounds|
      ensures r.outbox[k - |p.rounds| + |p.outbox|].asEnvelope == Some(r.rounds[k].env)
    {
      if k < |q.rounds| { assert r.rounds[k] == q.rounds[k]; }
    }
  }

  // ---------------------------------------------------------------- what the user sees

  datatype Shown = SubmitShown(submit: SubmitResponse) | GetShown(get: GetResponse)

  /** The answers shown for a history of rounds: every reply of the right kind, as it came. */
  function Shows(rounds: seq<Round>): seq<Shown> {
    if rounds == [] then []
    else
      var before, r := Shows(rounds[..|rounds| - 1]), rounds[|rounds| - 1];
      match r.reply
      case Some(SubmitResp(resp)) => if r.env.SubmitReq? then before + [SubmitShown(resp)] else before
      case Some(GetResp(resp)) => if r.env.GetReq? then before + [GetShown(resp)] else before
      case None => before
  }

  /** What the user is shown for a command: the first reply there is, if a message was sent and the kind is right. */
  function ShownFor(p: Peer, t: Turn): seq<Shown> {
    match FirstOf(p.inbox, t.arrivals)
    case Some(SubmitResp(resp)) => if t.command.Submit? then [SubmitShown(resp)] else []
    case Some(GetResp(resp)) => if t.command.Get? && t.command.id in p.pending then [GetShown(resp)] else []
    case None => []
  }

  lemma TurnShows(p: Peer, t: Turn)
    ensures Shows(TakeTurn(p, t).rounds) == Shows(p.rounds) + ShownFor(p, t)
  {
    var q := TakeTurn(p, t);
    TurnIsOneRound(p, t);
    if q.rounds != p.rounds { assert q.rounds[..|p.rounds|] == p.rounds; }
  }

  // ---------------------------------------------------------------- the client in place

  class Application {
    const mask: bv8
    var pending: set<TicketId>
    var outbox: seq<Message>
    var inbox: seq<EnvelopeResp>
    var shown: seq<Shown>
    ghost var phase: Phase
    ghost var rounds: seq<Round>

    ghost function Value(): Peer
      reads this
    {
      Peer(mask, phase, pending, outbox, inbox, rounds)
    }

    /** Pending tickets are what the rounds left, and the user has seen their answers. */
    ghost predicate Valid()
      reads this
    {
      Settled(Value()) && shown == Shows(rounds)
    }

    constructor (mask: bv8)
      ensures Value() == NewPeer(mask) && Valid()
    {
      this.mask := mask;
      pending, outbox, inbox, shown, phase, rounds := {}, [], [], [], Unconnected, [];
    }

    method Init(also: Option<EnvelopeReq>)
      requires Valid()
      modifies this
      ensures Value() == Connect(old(Value()), also) && Valid()
    {
      outbox := outbox + [Message(Some(mask as bv32), also)];
      phase := Ready;
    }

    /** Sends an envelope and receives: the first reply that is there in time, or nothing. */
    method Exchange(env: EnvelopeReq, also: Option<bv32>, arrivals: seq<EnvelopeResp>)
      returns (reply: Option<EnvelopeResp>)
      modifies this`outbox, this`inbox
      ensures outbox == old(outbox) + [Message(also, Some(env))]
      ensures reply.None? <==> old(inbox) + arrivals == []
      ensures old(inbox) + arrivals == (if reply.Some? then [reply.value] else []) + inbox
    {
      outbox := outbox + [Message(also, Some(env))];
      inbox := inbox + arrivals;
      if inbox == [] { return None; }
      reply := Some(inbox[0]);
      inbox := inbox[1..];
    }

    /**
      `submitBlocking` or `submitNonBlocking`: the payload is sent unchanged in the mode asked for, the
      response is the first reply there is if it is a submit response, and the ticket it holds becomes
      pending exactly if the submit was non-blocking. No other ticket changes.
     */
    method SubmitPayload(payload: Payload, nonBlocking: bool, also: Option<bv32>, arrivals: seq<EnvelopeResp>)
      returns (response: Option<SubmitResponse>)
      requires !phase.Gone?
      modifies this
      ensures Value() == TakeTurn(old(Value()), Turn(Submit(payload, nonBlocking), also, arrivals))
      ensures outbox == old(outbox)
                        + [Message(also, Some(SubmitReq(SubmitRequest(if nonBlocking then NonBlocking else Blocking, payload))))]
      ensures var got := old(inbox) + arrivals;
              response == if got != [] && got[0].SubmitResp? then Some(got[0].submit) else None
      ensures pending == old(pending)
                         + if nonBlocking && response.Some? && response.value.ticket.Some?
                           then {response.value.ticket.value} else {}
      ensures phase.Gone? <==> response.None? && payload.Math?
      ensures shown == old(shown) + if response.Some? then [SubmitShown(response.value)] else []
    {
      var env := SubmitReq(SubmitRequest(if nonBlocking then NonBlocking else Blocking, payload));
      var reply := Exchange(env, also, arrivals);
      response := if reply.Some? && reply.value.SubmitResp? then Some(reply.value.submit) else None;
      if response.Some? {
        shown := shown + [SubmitShown(response.value)];
        if nonBlocking && response.value.ticket.Some? {
          pending := pending + {response.value.ticket.value};
        }
      }
      rounds := rounds + [Round(env, reply)];
      phase := if response.None? && payload.Math? then Gone else Ready;
    }

    /**
      The `get` command: an unknown ticket is refused without a message; for a known one that ticket is
      sent, with its wait mode and milliseconds, the response is the first reply there is if it is a get
      response, and the ticket is dropped exactly on a final one. No other ticket changes.
     */
    method GetTicket(id: TicketId, wait: bool, ms: uint32, also: Option<bv32>, arrivals: seq<EnvelopeResp>)
      returns (response: Option<GetResponse>)
      requires phase.Ready?
      modifies this
      ensures Value() == TakeTurn(old(Value()), Turn(Get(id, wait, ms), also, arrivals))
      ensures old(pending) - {id} <= pending <= old(pending)
      ensures id !in old(pending) ==> outbox == old(outbox) && response.None?
      ensures id in old(pending) ==>
                outbox == old(outbox)
                          + [Message(also, Some(GetReq(if wait then GetRequest(id, WaitUpTo, ms) else GetRequest(id, NoWait, 0))))]
      ensures id in old(pending) ==>
                var got := old(inbox) + arrivals;
                response == if got != [] && got[0].GetResp? then Some(got[0].get) else None
      ensures id in old(pending) ==> (id in pending <==> response.None? || response.value.status == NotFinished)
      ensures shown == old(shown) + if response.Some? then [GetShown(response.value)] else []
    {
      if id !in pending {
        inbox := inbox + arrivals;
        return None;
      }
      var env := GetReq(GetRequest(id, if wait then WaitUpTo else NoWait, if wait then ms else 0));
      var reply := Exchange(env, also, arrivals);
      response := if reply.Some? && reply.value.GetResp? then Some(reply.value.get) else None;
      if response.Some? {
        shown := shown + [GetShown(response.value)];
        if response.value.status != NotFinished {
          pending := pending - {id};
        }
      }
      rounds := rounds + [Round(env, reply)];
    }

    /** One command: its round is taken, and its answer shown. */
    method Perform(t: Turn) returns (ended: bool)
      requires phase.Ready?
      modifies this
      ensures Value() == TakeTurn(old(Value()), t) && shown == old(shown) + ShownFor(old(Value()), t)
      ensures if ended then phase.Gone? else phase.Ready?
    {
      ended := false;
      match t.command {
        case Submit(payload, nb) =>
          var response := SubmitPayload(payload, nb, t.also, t.arrivals);
          ended := response.None? && payload.Math?;
        case Get(id, wait, ms) =>
          var response := GetTicket(id, wait, ms, t.also, t.arrivals);
      }
    }

    /**
      The command loop: its table of pending tickets is at all times what the rounds left, and the
      answers shown are those of the rounds.
     */
    method Run(turns: seq<Turn>)
      requires phase.Ready? && Valid()
      modifies this
      ensures Value() == Session(old(Value()), turns)
      ensures Valid()
      ensures forall id :: id in pending <==> exists k: nat :: OpenSince(rounds, id, k)
    {
      var k, ended := 0, false;
      while k < |turns| && !ended
        invariant 0 <= k <= |turns|
        invariant if ended then phase.Gone? else phase.Ready?
        invariant shown == Shows(rounds)
        invariant Session(old(Value()), turns) == Session(Value(), turns[k..])
      {
        TurnShows(Value(), turns[k]);
        ended := Perform(turns[k]);
        k := k + 1;
      }
      SessionIsSettled(old(Value()), turns);
      forall id ensures id in pending <==> exists k: nat :: OpenSince(rounds, id, k) { PendingIff(rounds, id); }
    }
  }
}
