/**
  `AlgoRunnerIpml` with its own fields, when one thread at a time runs: a table of jobs, a queue,
  and jobs that a worker completes. Its callers see the ticket store; a get succeeds exactly when
  a worker has reached the job, before it or while it waits.
 */
module Runner {
  import opened Ipc
  import opened Operations
  import opened TicketStore
  import Tickets

  datatype Job = Job(id: TicketId, payload: Payload, done: bool, outcome: Outcome)

  // ---------------------------------------------------------------- how far the workers have come

  /** Jobs are made and done in order of submission; an open ticket has the place of its job in that order. */
  datatype Bench = Bench(made: nat, done: nat, place: map<TicketId, nat>)

  function Min(a: nat, b: nat): nat { if a <= b then a else b }

  /** Workers make passes over the queue, each taking the oldest job if there is one. */
  function Pass(b: Bench, passes: nat): Bench { b.(done := Min(b.done + passes, b.made)) }

  function AddJob(b: Bench, id: TicketId): Bench { b.(made := b.made + 1, place := b.place[id := b.made]) }

  /** Worker passes that a `get` sees: it waits only with WAIT_UP_TO, until its job is done or time is up. */
  function PassesSeen(b: Bench, req: GetRequest, passes: nat): nat {
    if req.ticket !in b.place || !req.wait.WaitUpTo? || b.place[req.ticket] < b.done then 0
    else Min(b.place[req.ticket] + 1 - b.done, passes)
  }

  /** The `get` finds its job done: fewer jobs are queued before it than passes are made. */
  predicate Reached(b: Bench, req: GetRequest, passes: nat) {
    req.ticket in b.place && b.place[req.ticket] < b.done + (if req.wait.WaitUpTo? then passes else 0)
  }

  function AfterGet(b: Bench, req: GetRequest, passes: nat): Bench {
    var b' := Pass(b, PassesSeen(b, req, passes));
    if Reached(b, req, passes) && !req.wait.OtherWait? then b'.(place := b.place - {req.ticket}) else b'
  }

  function AfterRun(b: Bench, req: SubmitRequest, stamp: uint64): Bench {
    if req.mode.NonBlocking? && req.payload != NoPayload then AddJob(b, Tickets.IssuedId(stamp, b.made)) else b
  }

  class AlgoRunner {
    var heap: seq<Job>               // the job objects, in order of creation
    var jobs: map<TicketId, nat>
    var jobQueue: seq<nat>

    /** A job is either waiting in the queue, once, or finished with the outcome of its payload. */
    ghost predicate Valid()
      reads this
    {
      && (forall id :: id in jobs ==> jobs[id] < |heap| && heap[jobs[id]].id == id)
      && |jobQueue| <= |heap|
      && (forall k :: 0 <= k < |jobQueue| ==> jobQueue[k] == |heap| - |jobQueue| + k)
      && (forall j :: 0 <= j < |heap| ==> (heap[j].done <==> j < |heap| - |jobQueue|))
      && (forall id :: id in jobs && heap[jobs[id]].done ==>
            heap[jobs[id]].outcome == Execute(heap[jobs[id]].payload))
    }

    ghost function OpenTickets(): Store
      requires Valid()
      reads this
    {
      map id | id in jobs :: heap[jobs[id]].payload
    }

    /** A worker has completed the job behind this ticket. */
    ghost predicate Finished(id: TicketId)
      reads this
    {
      id in jobs && jobs[id] < |heap| && heap[jobs[id]].done
    }

    ghost function Progress(): Bench
      requires Valid()
      reads this
    {
      Bench(|heap|, |heap| - |jobQueue|, jobs)
    }

    constructor ()
      ensures Valid() && OpenTickets() == map[] && Progress() == Bench(0, 0, map[])
    {
      heap, jobs, jobQueue := [], map[], [];
    }

    method Enqueue(payload: Payload, stamp: uint64) returns (id: TicketId)
      requires Valid()
      modifies this
      ensures Valid() && id == Tickets.IssuedId(stamp, |old(heap)|)
      ensures OpenTickets() == old(OpenTickets())[id := payload]
      ensures Progress() == AddJob(old(Progress()), id) && jobQueue == old(jobQueue) + [|old(heap)|]
      ensures forall t :: t != id ==> Finished(t) == old(Finished(t))
      ensures !Finished(id)
    {
      id := Tickets.IssuedId(stamp, |heap|);
      var j := |heap|;
      heap := heap + [Job(id, payload, false, Outcome(NotFinished, NoValue))];
      jobs := jobs[id := j];
      jobQueue := jobQueue + [j];
    }

    /** One pass of the worker loop over a non-empty queue: the oldest job, and only it, is completed. */
    method WorkerTurn() returns (worked: bool)
      requires Valid()
      modifies this`heap, this`jobQueue
      ensures Valid() && worked == (old(jobQueue) != [])
      ensures OpenTickets() == old(OpenTickets()) && Progress() == Pass(old(Progress()), 1)
      ensures jobQueue == if worked then old(jobQueue)[1..] else []
      ensures forall id :: Finished(id) <==> old(Finished(id)) || (worked && id in jobs && jobs[id] == old(jobQueue)[0])
    {
      worked := jobQueue != [];
      if worked {
        var j := jobQueue[0];
        jobQueue := jobQueue[1..];
        heap := heap[j := heap[j].(done := true, outcome := Execute(heap[j].payload))];
      }
    }

    /** `run`: the answer and the new table are those of the ticket store. */
    method Run(req: SubmitRequest, stamp: uint64) returns (resp: SubmitResponse)
      requires Valid()
      modifies this
      ensures Valid()
      ensures var r := RunnerRun(old(OpenTickets()), req, Choice(Tickets.IssuedId(stamp, |old(heap)|), false));
              resp == r.response && OpenTickets() == r.tickets
      ensures Progress() == AfterRun(old(Progress()), req, stamp)
    {
      match req.mode {
        case Blocking =>
          var o := Execute(req.payload);
          resp := SubmitResponse(o.status, None, Some(o.result));
        case NonBlocking =>
          if req.payload == NoPayload { return SubmitResponse(InvalidInput, None, None); }
          var id := Enqueue(req.payload, stamp);
          resp := SubmitResponse(NotFinished, Some(id), None);
        case OtherMode(_) =>
          resp := SubmitResponse(InvalidInput, None, None);
      }
    }

    /**
      `get`, with the worker passes that are made before its deadline: final exactly when a worker
      reaches the job by then, and then the ticket is gone.
     */
    method Get(req: GetRequest, passes: nat) returns (resp: GetResponse)
      requires Valid()
      modifies this
      ensures Valid()
      ensures var r := RunnerGet(old(OpenTickets()), req, Choice(0, Reached(old(Progress()), req, passes)));
              resp == r.response && OpenTickets() == r.tickets
      ensures Progress() == AfterGet(old(Progress()), req, passes)
    {
      if req.ticket !in jobs { return GetResponse(InvalidInput, None); }
      var j := jobs[req.ticket];
      if req.wait.OtherWait? { return GetResponse(InvalidInput, None); }
      if req.wait.WaitUpTo? { Await(j, passes); }
      if !heap[j].done { return GetResponse(NotFinished, None); }
      resp := Collect(req.ticket);
    }

    /** A finished job's outcome is swapped out and its ticket erased. */
    method Collect(id: TicketId) returns (resp: GetResponse)
      requires Valid() && Finished(id)
      modifies this`heap, this`jobs
      ensures Valid() && Progress() == old(Progress()).(place := old(jobs) - {id})
      ensures OpenTickets() == old(OpenTickets()) - {id}
      ensures var o := Execute(old(OpenTickets()[id])); resp == GetResponse(o.status, Some(o.result))
    {
      var j := jobs[id];
      resp := GetResponse(heap[j].outcome.status, Some(heap[j].outcome.result));
      heap := heap[j := heap[j].(outcome := heap[j].outcome.(result := NoValue))];
      jobs := jobs - {id};
    }

    /** The waiting loop: workers make passes until the job is done or the deadline comes. */
    method Await(j: nat, passes: nat)
      requires Valid() && j < |heap|
      modifies this`heap, this`jobQueue
      ensures Valid() && OpenTickets() == old(OpenTickets())
      ensures var b := old(Progress());
              Progress() == Pass(b, if j < b.done then 0 else Min(j + 1 - b.done, passes))
    {
      var k := 0;
      while !heap[j].done && k < passes
        invariant Valid() && OpenTickets() == old(OpenTickets())
        invariant k <= passes && Progress() == Pass(old(Progress()), k)
        invariant k > 0 ==> k <= j + 1 - old(Progress()).done
      {
        var worked := WorkerTurn();
        k := k + 1;
      }
    }
  }
}
