/** The server loop: registration, the capability gate, and one reply per envelope. */
module Server {
  import opened Ipc
  import opened Operations
  import opened TicketStore

  // ---------------------------------------------------------------- capabilities

  const ADD: bv8 := 0x01
  const SUB: bv8 := 0x02
  const MULT: bv8 := 0x04
  const DIV: bv8 := 0x08
  const CONCAT: bv8 := 0x10
  const FIND_START: bv8 := 0x20
  const ALL_CAPS: bv8 := ADD | SUB | MULT | DIV | CONCAT | FIND_START

  /** The operation's number in the wire enums, string operations after the arithmetic ones. */
  function OperationNumber(p: Payload): nat
    requires KnownOperation(p)
  {
    match p
    case Math(op, _, _) => if op.Add? then 0 else if op.Sub? then 1 else if op.Mul? then 2 else 3
    case Str(op, _, _) => if op.Concat? then 4 else 5
  }

  predicate VerifyExecCaps(flags: bv8) { flags & !ALL_CAPS == 0 && flags > 0 }

  function Required(p: Payload): Option<bv8> {
    match p
    case Math(op, _, _) =>
      (match op
       case Add => Some(ADD)
       case Sub => Some(SUB)
       case Mul => Some(MULT)
       case Div => Some(DIV)
       case OtherMathOp(_) => None)
    case Str(op, _, _) =>
      (match op
       case Concat => Some(CONCAT)
       case FindStart => Some(FIND_START)
       case OtherStrOp(_) => None)
    case NoPayload => None
  }

  predicate HasCapability(p: Payload, caps: bv8) {
    match Required(p)
    case None => false
    case Some(bit) => caps & bit != 0
  }

  /** The mask is 32 bits on the wire and is cut to 8. */
  function Narrow(flags: bv32): bv8 { (flags & 0xFF) as bv8 }

  /** The gate tests one bit: the one at the operation's own number. */
  lemma GateTestsOperationBit(p: Payload, caps: bv8)
    ensures HasCapability(p, caps) <==> KnownOperation(p) && (caps >> OperationNumber(p)) & 1 == 1
  {}

  /** A mask is valid exactly when it grants something and nothing outside the six operations. */
  lemma ValidMaskIff(flags: bv8)
    ensures VerifyExecCaps(flags) <==> 0 < flags < 0x40
  {}

  /** The gate admits known operations only, so an admitted operation never ends in INVALID_INPUT. */
  lemma AdmittedIsKnown(p: Payload, caps: bv8)
    requires HasCapability(p, caps)
    ensures KnownOperation(p) && Execute(p).status !in {InvalidInput, NotFinished, Internal}
  {
    StatusSoundness(p);
  }

  // ---------------------------------------------------------------- one iteration of the loop

  datatype Executed = Executed(client: ClientId, payload: Payload)

  datatype State = State(
    caps: map<ClientId, bv8>,
    tickets: Store,
    executed: seq<Executed>)     // history: operations handed to the runner, inline or by ticket

  datatype Handled = Handled(state: State, reply: Option<EnvelopeResp>)

  const BAD_RESPONSE := GetResp(GetResponse(InvalidInput, None))

  function HandleEnvelope(s: State, c: ClientId, caps: bv8, req: EnvelopeReq, choice: Choice): (h: Handled)
    ensures h.reply.Some?
  {
    match req
    case SubmitReq(sreq) =>
      if !HasCapability(sreq.payload, caps) then
        Handled(s, Some(SubmitResp(SubmitResponse(InvalidInput, None, None))))
      else
        var r := RunnerRun(s.tickets, sreq, choice);
        var executed := if sreq.mode.OtherMode? then s.executed else s.executed + [Executed(c, sreq.payload)];
        Handled(s.(tickets := r.tickets, executed := executed), Some(SubmitResp(r.response)))
    case GetReq(greq) =>
      var r := RunnerGet(s.tickets, greq, choice);
      Handled(s.(tickets := r.tickets), Some(GetResp(r.response)))
    case ReqNotSet => Handled(s, Some(BAD_RESPONSE))
  }

  function Receive(s: State, c: ClientId, msg: Message, choice: Choice): Handled {
    if c !in s.caps then
      match msg.asHandshake
      case None => Handled(s, Some(BAD_RESPONSE))
      case Some(flags) =>
        var mask := Narrow(flags);
        Handled(s.(caps := s.caps[c := mask]), if VerifyExecCaps(mask) then None else Some(BAD_RESPONSE))
    else
      match msg.asEnvelope
      case None => Handled(s, Some(BAD_RESPONSE))
      case Some(env) => HandleEnvelope(s, c, s.caps[c], env, choice)
  }

  /**
    A message that does not parse, or an envelope without a request, is answered with a get response
    INVALID_INPUT that holds no result, and changes nothing; so is a handshake with an invalid mask, except that
    it is registered.
   */
  lemma BadMessagesAreRefused(s: State, c: ClientId, msg: Message, choice: Choice)
    ensures var h := Receive(s, c, msg, choice);
            var refusal := Some(GetResp(GetResponse(InvalidInput, None)));
            && (c !in s.caps && msg.asHandshake.None? ==> h == Handled(s, refusal))
            && (c !in s.caps && msg.asHandshake.Some? ==>
                  h.reply == if VerifyExecCaps(Narrow(msg.asHandshake.value)) then None else refusal)
            && (c in s.caps && msg.asEnvelope in {None, Some(ReqNotSet)} ==> h == Handled(s, refusal))
  {}

  /** The call of the runner that a message leads to, if it leads to one that the runner works on. */
  function CallFor(caps: map<ClientId, bv8>, c: ClientId, msg: Message): Option<Call> {
    if c !in caps || msg.asEnvelope.None? then None
    else
      match msg.asEnvelope.value
      case SubmitReq(req) =>
        if HasCapability(req.payload, caps[c]) && !Malformed(RunCall(req)) then Some(RunCall(req)) else None
      case GetReq(req) => Some(GetCall(req))
      case ReqNotSet => None
  }

  function ExecutedBy(call: Call, c: ClientId): seq<Executed> {
    if call.RunCall? then [Executed(c, call.submit.payload)] else []
  }

  /** With such a call, the server's step is the runner's answer. */
  lemma ReceiveByRunner(s: State, c: ClientId, msg: Message, choice: Choice)
    requires CallFor(s.caps, c, msg).Some?
    ensures var call := CallFor(s.caps, c, msg).value;
            var r := RunnerAnswer(s.tickets, call, choice);
            Receive(s, c, msg, choice)
            == Handled(s.(tickets := r.tickets, executed := s.executed + ExecutedBy(call, c)), Some(r.response))
  {}

  /** Without one, the server's step neither depends on the runner nor changes it. */
  lemma ReceiveWithoutRunner(s: State, c: ClientId, msg: Message, choice: Choice, tickets: Store, choice': Choice)
    requires CallFor(s.caps, c, msg).None?
    ensures var h := Receive(s, c, msg, choice);
            && h.state.tickets == s.tickets
            && Receive(s.(tickets := tickets), c, msg, choice') == Handled(h.state.(tickets := tickets), h.reply)
            && (h.reply.Some? && h.reply.value.SubmitResp? ==> h.reply.value.submit.ticket.None?)
  {
    if c in s.caps && msg.asEnvelope.Some? && msg.asEnvelope.value.SubmitReq? {
      var req := msg.asEnvelope.value.submit;
      if HasCapability(req.payload, s.caps[c]) {
        MalformedIsRefused(s.tickets, RunCall(req), choice);
        MalformedIsRefused(tickets, RunCall(req), choice');
        assert req.mode.OtherMode?;
      }
    }
  }

  // ---------------------------------------------------------------- what a client is owed

  datatype Input = Input(client: ClientId, msg: Message, choice: Choice)
  datatype Output = Output(client: ClientId, resp: EnvelopeResp)

  /** The first message of a client that parses as a handshake; it registers the client. */
  function Registration(received: seq<Input>, c: ClientId): Option<bv32> {
    if received == [] then None
    else
      var before, last := received[..|received| - 1], received[|received| - 1];
      match Registration(before, c)
      case Some(flags) => Some(flags)
      case None => if last.client == c then last.msg.asHandshake else None
  }

  /** Replies a client may expect, counted from the messages alone. */
  function Owed(received: seq<Input>, c: ClientId): nat {
    if received == [] then 0
    else
      var before, last := received[..|received| - 1], received[|received| - 1];
      Owed(before, c)
      + if last.client == c
           && (Registration(before, c).Some?
               || last.msg.asHandshake.None?
               || !VerifyExecCaps(Narrow(last.msg.asHandshake.value)))
        then 1 else 0
  }

  function SentTo(sent: seq<Output>, c: ClientId): nat {
    if sent == [] then 0
    else SentTo(sent[..|sent| - 1], c) + if sent[|sent| - 1].client == c then 1 else 0
  }

  /** The history of a server: what came in, what went out, and the state it left. */
  ghost predicate Accounts(received: seq<Input>, sent: seq<Output>, s: State) {
    && (forall c :: c in s.caps <==> Registration(received, c).Some?)
    && (forall c :: c in s.caps ==> s.caps[c] == Narrow(Registration(received, c).value))
    && (forall c :: SentTo(sent, c) == Owed(received, c))
    && (forall k :: 0 <= k < |s.executed| ==> Permitted(s.caps, s.executed[k]))
  }

  predicate Permitted(caps: map<ClientId, bv8>, e: Executed) {
    e.client in caps && HasCapability(e.payload, caps[e.client])
  }

  function AddReply(sent: seq<Output>, c: ClientId, reply: Option<EnvelopeResp>): seq<Output> {
    match reply
    case None => sent
    case Some(r) => sent + [Output(c, r)]
  }

  lemma RegistrationAppend(received: seq<Input>, x: Input, c: ClientId)
    ensures Registration(received + [x], c)
         == match Registration(received, c)
            case Some(flags) => Some(flags)
            case None => if x.client == c then x.msg.asHandshake else None
  {
    assert (received + [x])[..|received|] == received;
  }

  lemma OwedAppend(received: seq<Input>, x: Input, c: ClientId)
    ensures Owed(received + [x], c) == Owed(received, c)
            + if x.client == c && (Registration(received, c).Some? || x.msg.asHandshake.None?
                                   || !VerifyExecCaps(Narrow(x.msg.asHandshake.value))) then 1 else 0
  {
    assert (received + [x])[..|received|] == received;
  }

  lemma SentToAppend(sent: seq<Output>, x: Output, c: ClientId)
    ensures SentTo(sent + [x], c) == SentTo(sent, c) + if x.client == c then 1 else 0
  {
    assert (sent + [x])[..|sent|] == sent;
  }

  /** Each message keeps the accounts straight. */
  lemma ReceiveKeepsAccounts(received: seq<Input>, sent: seq<Output>, s: State, x: Input)
    requires Accounts(received, sent, s)
    ensures var h := Receive(s, x.client, x.msg, x.choice);
            Accounts(received + [x], AddReply(sent, x.client, h.reply), h.state)
  {
    var h := Receive(s, x.client, x.msg, x.choice);
    forall c ensures SentTo(AddReply(sent, x.client, h.reply), c) == Owed(received + [x], c) {
      OwedAppend(received, x, c);
      if h.reply.Some? { SentToAppend(sent, Output(x.client, h.reply.value), c); }
    }
    forall c ensures c in h.state.caps <==> Registration(received + [x], c).Some?
    {
      RegistrationAppend(received, x, c);
    }
    forall c | c in h.state.caps ensures h.state.caps[c] == Narrow(Registration(received + [x], c).value) {
      RegistrationAppend(received, x, c);
    }
    forall k | 0 <= k < |h.state.executed| ensures Permitted(h.state.caps, h.state.executed[k]) {
      assert k < |s.executed| ==> Permitted(s.caps, s.executed[k]);
    }
  }

  /** What the server has come to and what it has sent, after all messages so far. */
  datatype History = History(state: State, sent: seq<Output>)

  function Serve(received: seq<Input>): History {
    if received == [] then History(State(map[], map[], []), [])
    else
      var before, x := Serve(received[..|received| - 1]), received[|received| - 1];
      var h := Receive(before.state, x.client, x.msg, x.choice);
      History(h.state, AddReply(before.sent, x.client, h.reply))
  }

  /** Whatever comes in, the accounts are straight. */
  lemma {:induction false} ServeKeepsAccounts(received: seq<Input>)
    ensures Accounts(received, Serve(received).sent, Serve(received).state)
  {
    if received != [] {
      var before, x := received[..|received| - 1], received[|received| - 1];
      ServeKeepsAccounts(before);
      ReceiveKeepsAccounts(before, Serve(before).sent, Serve(before).state, x);
      assert received == before + [x];
    }
  }

  /** A stored mask is never changed. */
  lemma MaskIsWrittenOnce(s: State, x: Input, c: ClientId)
    requires c in s.caps
    ensures var h := Receive(s, x.client, x.msg, x.choice);
            c in h.state.caps && h.state.caps[c] == s.caps[c]
  {}

  // ---------------------------------------------------------------- masks that should not be there

  /** A handshake with bits outside the six operations is answered with an error and registered; envelopes are served under it. */
  lemma RejectedMaskIsUsed(c: ClientId, choice: Choice)
    ensures var add := SubmitReq(SubmitRequest(Blocking, Math(Add, 1, 2)));
            var h := Receive(State(map[], map[], []), c, Message(Some(0x41), None), choice);
            && h.reply == Some(GetResp(GetResponse(InvalidInput, None)))
            && h.state.caps == map[c := 0x41] && !VerifyExecCaps(h.state.caps[c])
            && Receive(h.state, c, Message(None, Some(add)), choice).reply
               == Some(SubmitResp(SubmitResponse(Success, None, Some(IntResult(3)))))
  {
    assert Narrow(0x41) == 0x41;
    assert HasCapability(Math(Add, 1, 2), 0x41);
  }

  /** 0x100 is cut to the empty mask: error, registration, and then no operation is ever admitted. */
  lemma EmptyMaskIsStored(c: ClientId, choice: Choice, req: SubmitRequest)
    ensures var h := Receive(State(map[], map[], []), c, Message(Some(0x100), None), choice);
            && h.reply == Some(GetResp(GetResponse(InvalidInput, None)))
            && h.state.caps == map[c := 0]
            && Receive(h.state, c, Message(None, Some(SubmitReq(req))), choice)
               == Handled(h.state, Some(SubmitResp(SubmitResponse(InvalidInput, None, None))))
  {
    assert Narrow(0x100) == 0;
    GateTestsOperationBit(req.payload, 0);
  }

  /** 0x101 names an unknown operation but is cut to a valid mask and accepted without a word. */
  lemma OversizedMaskIsAccepted(c: ClientId, choice: Choice)
    ensures Receive(State(map[], map[], []), c, Message(Some(0x101), None), choice)
            == Handled(State(map[c := ADD], map[], []), None)
  {
    assert Narrow(0x101) == ADD;
  }

  /** The low byte of a mask is valid exactly when it has one of the six bits and neither of the two above them. */
  lemma NarrowIsValidIff(flags: bv32)
    ensures VerifyExecCaps(Narrow(flags)) <==> flags & 0x3F != 0 && flags & 0xC0 == 0
  {}

  /**
    In every history, a stored mask is valid exactly when the client's first handshake has one of
    bits 0 to 5 and neither of bits 6 and 7; bits 8 to 31 do not count. A mask that is itself out of
    range and passes nevertheless has one of those.
   */
  lemma StoredMaskIsValidIff(received: seq<Input>, sent: seq<Output>, s: State, c: ClientId)
    requires Accounts(received, sent, s) && c in s.caps
    ensures Registration(received, c).Some?
    ensures var flags := Registration(received, c).value;
            && (VerifyExecCaps(s.caps[c]) <==> 0 < Narrow(flags) < 0x40)
            && (VerifyExecCaps(s.caps[c]) <==> flags & 0x3F != 0 && flags & 0xC0 == 0)
            && (VerifyExecCaps(s.caps[c]) && !(0 < flags < 0x40) ==> flags >= 0x100)
  {
    var flags := Registration(received, c).value;
    ValidMaskIff(Narrow(flags));
    NarrowIsValidIff(flags);
    HighBits(flags);
  }

  lemma HighBits(flags: bv32)
    ensures flags & 0x3F != 0 && flags & 0xC0 == 0 && !(0 < flags < 0x40) ==> flags >= 0x100
  {}
}
