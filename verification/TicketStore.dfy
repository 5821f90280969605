/**
  The runner as its single caller sees it: a table of open tickets that changes atomically.
  The engine of worker threads is proved to refine this store (module EngineRefinement), and
  the server loop is built on it (module Server).
 */
module TicketStore {
  import opened Ipc
  import opened Operations

  type Store = map<TicketId, Payload>

  /** A request to the runner. */
  datatype Call = RunCall(submit: SubmitRequest) | GetCall(get: GetRequest)

  /** One call of `run` or `get` and what it answered. */
  datatype Event =
    | Ran(payload: Payload, outcome: Outcome)      // blocking submit, answered inline
    | Issued(id: TicketId, payload: Payload)       // non-blocking submit, answered with a ticket
    | Pending(id: TicketId)                        // get: not finished
    | Delivered(id: TicketId, outcome: Outcome)    // get: the final answer
    | Rejected(id: TicketId)                       // get: no such ticket
    | BadWait(id: TicketId)                        // get: unrecognised wait mode

  /** The response message that carries an event's answer. */
  function SubmitAnswer(e: Event): SubmitResponse
    requires e.Ran? || e.Issued?
  {
    match e
    case Ran(_, o) => SubmitResponse(o.status, None, Some(o.result))
    case Issued(id, _) => SubmitResponse(NotFinished, Some(id), None)
  }

  function GetAnswer(e: Event): GetResponse
    requires !(e.Ran? || e.Issued?)
  {
    match e
    case Pending(_) => GetResponse(NotFinished, None)
    case Delivered(_, o) => GetResponse(o.status, Some(o.result))
    case Rejected(_) | BadWait(_) => GetResponse(InvalidInput, None)
  }

  /** The store after an event, or nothing if the store does not allow the event. */
  function Apply(m: Store, e: Event): Option<Store> {
    match e
    case Ran(p, o) => if o == Execute(p) then Some(m) else None
    case Issued(id, p) => if id !in m then Some(m[id := p]) else None
    case Pending(id) => if id in m then Some(m) else None
    case Delivered(id, o) => if id in m && o == Execute(m[id]) then Some(m - {id}) else None
    case Rejected(id) => if id !in m then Some(m) else None
    case BadWait(id) => if id in m then Some(m) else None
  }

  /** The store after a whole history. */
  function Replay(log: seq<Event>): Option<Store> {
    if log == [] then Some(map[])
    else
      match Replay(log[..|log| - 1])
      case None => None
      case Some(m) => Apply(m, log[|log| - 1])
  }

  lemma ReplayAppend(log: seq<Event>, e: Event)
    ensures Replay(log + [e]) == match Replay(log) case None => None case Some(m) => Apply(m, e)
  {
    assert (log + [e])[..|log|] == log;
  }

  lemma {:induction false} ReplayPrefix(log: seq<Event>, i: nat)
    requires Replay(log).Some? && i <= |log|
    ensures Replay(log[..i]).Some?
    decreases |log|
  {
    if i < |log| {
      ReplayPrefix(log[..|log| - 1], i);
      assert log[..|log| - 1][..i] == log[..i];
    } else {
      assert log[..i] == log;
    }
  }

  /** The payload of the latest issue of a ticket. */
  function PayloadOf(log: seq<Event>, id: TicketId): Option<Payload> {
    if log == [] then None
    else
      var e := log[|log| - 1];
      if e.Issued? && e.id == id then Some(e.payload) else PayloadOf(log[..|log| - 1], id)
  }

  /** The answers that gets with a recognised wait mode received since a ticket's latest issue. */
  function RepliesTo(log: seq<Event>, id: TicketId): seq<Event> {
    if log == [] then []
    else
      var before, e := log[..|log| - 1], log[|log| - 1];
      if e.Issued? && e.id == id then []
      else if (e.Pending? || e.Delivered? || e.Rejected?) && e.id == id then RepliesTo(before, id) + [e]
      else RepliesTo(before, id)
  }

  ghost predicate AllPending(r: seq<Event>) {
    forall i :: 0 <= i < |r| ==> r[i].Pending?
  }

  /** Not finished any number of times, then the outcome once, then refused for ever. */
  ghost predicate DeliveredOnceAt(r: seq<Event>, o: Outcome, n: nat) {
    && n < |r|
    && AllPending(r[..n])
    && r[n].Delivered? && r[n].outcome == o
    && forall i :: n < i < |r| ==> r[i].Rejected?
  }

  ghost predicate DeliveredOnce(r: seq<Event>, o: Outcome) {
    exists n: nat :: DeliveredOnceAt(r, o, n)
  }

  lemma RefusedAfterDelivery(r: seq<Event>, o: Outcome, e: Event)
    requires DeliveredOnce(r, o) && e.Rejected?
    ensures DeliveredOnce(r + [e], o)
  {
    var n: nat :| DeliveredOnceAt(r, o, n);
    assert (r + [e])[..n] == r[..n];
    assert DeliveredOnceAt(r + [e], o, n);
  }

  /** A ticket still open has only been put off; a closed one was answered exactly once. */
  lemma {:induction false} ExactlyOnce(log: seq<Event>, id: TicketId)
    requires Replay(log).Some? && PayloadOf(log, id).Some?
    ensures var m, p, r := Replay(log).value, PayloadOf(log, id).value, RepliesTo(log, id);
            if id in m then m[id] == p && AllPending(r)
            else DeliveredOnce(r, Execute(p))
  {
    var before, e := log[..|log| - 1], log[|log| - 1];
    if !(e.Issued? && e.id == id) {
      ExactlyOnce(before, id);
      var p, r := PayloadOf(before, id).value, RepliesTo(before, id);
      if e.Delivered? && e.id == id {
        assert (r + [e])[..|r|] == r;
        assert DeliveredOnceAt(r + [e], Execute(p), |r|);
      } else if e.Rejected? && e.id == id {
        RefusedAfterDelivery(r, Execute(p), e);
      }
    }
  }

  /** A result fetched by ticket is the result a blocking submit of the same payload got. */
  lemma AsyncMatchesSync(log: seq<Event>, i: nat, j: nat)
    requires Replay(log).Some?
    requires i < |log| && log[i].Delivered?
    requires j < |log| && log[j].Ran? && PayloadOf(log[..i], log[i].id) == Some(log[j].payload)
    ensures log[i].outcome == log[j].outcome
  {
    EventAllowed(log, i);
    EventAllowed(log, j);
    ExactlyOnce(log[..i], log[i].id);
  }

  lemma EventAllowed(log: seq<Event>, i: nat)
    requires Replay(log).Some? && i < |log|
    ensures Replay(log[..i]).Some? && Apply(Replay(log[..i]).value, log[i]).Some?
  {
    ReplayPrefix(log, i + 1);
    ReplayPrefix(log, i);
    assert log[..i + 1] == log[..i] + [log[i]];
    ReplayAppend(log[..i], log[i]);
  }

  // ---------------------------------------------------------------- the messages of a ticket

  /** The messages that carry the answers to a ticket. */
  function MessagesTo(log: seq<Event>, id: TicketId): (m: seq<GetResponse>) {
    var r := RepliesTo(log, id);
    GetsAreAnswers(log, id);
    seq(|r|, i requires 0 <= i < |r| => GetAnswer(r[i]))
  }

  lemma {:induction false} GetsAreAnswers(log: seq<Event>, id: TicketId)
    ensures forall i :: 0 <= i < |RepliesTo(log, id)| ==> !RepliesTo(log, id)[i].Ran? && !RepliesTo(log, id)[i].Issued?
  {
    if log != [] { GetsAreAnswers(log[..|log| - 1], id); }
  }

  /** NOT_FINISHED without a result n times, then status and result of the outcome, then INVALID_INPUT. */
  ghost predicate AnsweredOnceAt(m: seq<GetResponse>, o: Outcome, n: nat) {
    && n < |m|
    && (forall i :: 0 <= i < n ==> m[i] == GetResponse(NotFinished, None))
    && m[n] == GetResponse(o.status, Some(o.result))
    && (forall i :: n < i < |m| ==> m[i] == GetResponse(InvalidInput, None))
  }

  /** The same in messages: while the ticket is open, NOT_FINISHED only; then the outcome once; then INVALID_INPUT. */
  lemma ExactlyOnceInMessages(log: seq<Event>, id: TicketId)
    requires Replay(log).Some? && PayloadOf(log, id).Some?
    ensures var m := MessagesTo(log, id);
            if id in Replay(log).value
            then forall i :: 0 <= i < |m| ==> m[i] == GetResponse(NotFinished, None)
            else exists n: nat :: AnsweredOnceAt(m, Execute(PayloadOf(log, id).value), n)
  {
    var r, m, o := RepliesTo(log, id), MessagesTo(log, id), Execute(PayloadOf(log, id).value);
    ExactlyOnce(log, id);
    if id !in Replay(log).value {
      var n: nat :| DeliveredOnceAt(r, o, n);
      forall i | 0 <= i < n ensures r[i].Pending? { assert r[i] == r[..n][i]; }
      assert AnsweredOnceAt(m, o, n);
    }
  }

  // ---------------------------------------------------------------- the runner's answers

  /** What the caller cannot know: the id a new ticket gets, and whether a job is done in time. */
  datatype Choice = Choice(freshId: TicketId, finished: bool)

  datatype RunnerReply<R> = RunnerReply(tickets: Store, response: R)

  function RunnerRun(m: Store, req: SubmitRequest, choice: Choice): RunnerReply<SubmitResponse> {
    match req.mode
    case Blocking =>
      var o := Execute(req.payload);
      RunnerReply(m, SubmitResponse(o.status, None, Some(o.result)))
    case NonBlocking =>
      if req.payload == NoPayload then RunnerReply(m, SubmitResponse(InvalidInput, None, None))
      else RunnerReply(m[choice.freshId := req.payload], SubmitResponse(NotFinished, Some(choice.freshId), None))
    case OtherMode(_) => RunnerReply(m, SubmitResponse(InvalidInput, None, None))
  }

  function RunnerGet(m: Store, req: GetRequest, choice: Choice): RunnerReply<GetResponse> {
    if req.ticket !in m || req.wait.OtherWait? then RunnerReply(m, GetResponse(InvalidInput, None))
    else if choice.finished then
      var o := Execute(m[req.ticket]);
      RunnerReply(m - {req.ticket}, GetResponse(o.status, Some(o.result)))
    else RunnerReply(m, GetResponse(NotFinished, None))
  }

  /** The runner's answer to a call, as the message that carries it. */
  function RunnerAnswer(m: Store, call: Call, choice: Choice): RunnerReply<EnvelopeResp> {
    match call
    case RunCall(req) =>
      var r := RunnerRun(m, req, choice);
      RunnerReply(r.tickets, SubmitResp(r.response))
    case GetCall(req) =>
      var r := RunnerGet(m, req, choice);
      RunnerReply(r.tickets, GetResp(r.response))
  }

  function EventAnswer(e: Event): EnvelopeResp {
    if e.Ran? || e.Issued? then SubmitResp(SubmitAnswer(e)) else GetResp(GetAnswer(e))
  }

  /** The event answers this call: the same payload or ticket, and a known wait mode or not. */
  predicate Fits(call: Call, e: Event) {
    match call
    case RunCall(req) =>
      (match req.mode
       case Blocking => e.Ran? && e.payload == req.payload
       case NonBlocking => e.Issued? && e.payload == req.payload && req.payload != NoPayload
       case OtherMode(_) => false)
    case GetCall(req) =>
      && !e.Ran? && !e.Issued? && e.id == req.ticket
      && (e.BadWait? ==> req.wait.OtherWait?)
      && (e.Pending? || e.Delivered? ==> !req.wait.OtherWait?)
  }

  /** A submit that the runner answers without an event: unknown mode, or nothing to do later. */
  predicate Malformed(call: Call) {
    call.RunCall? && (call.submit.mode.OtherMode? || (call.submit.mode.NonBlocking? && call.submit.payload == NoPayload))
  }

  /** The event issues the next id, and delivers exactly if the job is done. */
  predicate Agrees(e: Event, choice: Choice) {
    (e.Issued? ==> e.id == choice.freshId) && (e.Pending? || e.Delivered? ==> (e.Delivered? <==> choice.finished))
  }

  /** An event that the store allows, that fits a call and agrees with a choice is the runner's answer. */
  lemma StoreEventIsRunnerAnswer(m: Store, call: Call, e: Event, choice: Choice)
    requires Fits(call, e) && Apply(m, e).Some? && Agrees(e, choice)
    ensures RunnerAnswer(m, call, choice) == RunnerReply(Apply(m, e).value, EventAnswer(e))
  {}

  /** Conversely, every answer of the runner to a well-formed call is an event that the store allows. */
  lemma RunnerAnswerIsStoreEvent(m: Store, call: Call, choice: Choice) returns (e: Event)
    requires choice.freshId !in m && !Malformed(call)
    ensures Fits(call, e) && Apply(m, e).Some? && Agrees(e, choice)
    ensures RunnerAnswer(m, call, choice) == RunnerReply(Apply(m, e).value, EventAnswer(e))
  {
    match call
    case RunCall(req) =>
      e := if req.mode.Blocking? then Ran(req.payload, Execute(req.payload)) else Issued(choice.freshId, req.payload);
    case GetCall(req) =>
      e := if req.ticket !in m then Rejected(req.ticket)
           else if req.wait.OtherWait? then BadWait(req.ticket)
           else if choice.finished then Delivered(req.ticket, Execute(m[req.ticket]))
           else Pending(req.ticket);
  }

  /** A malformed submit is refused and changes nothing. */
  lemma MalformedIsRefused(m: Store, call: Call, choice: Choice)
    requires Malformed(call)
    ensures RunnerAnswer(m, call, choice) == RunnerReply(m, SubmitResp(SubmitResponse(InvalidInput, None, None)))
  {}
}
