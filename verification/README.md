# Verified model of the IPC job server

A server accepts arithmetic and string operations from clients. A client may wait for the
answer (blocking submit) or take a ticket and fetch the answer later (non-blocking submit, then
`get`). Tickets are worked off by a pool of threads that share a job table, a queue, per-job
mutexes and condition variables, and a stop flag. A capability mask, handed over in a first
handshake, limits the operations each client may ask for.

The project models this in Dafny 4.11 and proves what it is for: no result is lost, duplicated or
mixed up, whatever the scheduler and the clients do. `dafny verify dfyconfig.toml` checks everything.

## How it is built

| file | what it holds |
|---|---|
| `Ipc.dfy` | the messages; enums are open, as in proto3 |
| `Operations.dfy` | `runMath`, `runStr`, and their specifications |
| `Tickets.dfy` | ticket ids as 64-bit words |
| `TicketStore.dfy` | the runner as an atomic table of open tickets, its answers to calls, and histories of them |
| `Runner.dfy` | `AlgoRunnerIpml` as a class with its own table and queue, one thread at a time |
| `Deadline.dfy` | clock readings and `addMsToTimespec` |
| `Engine.dfy` | `workerLoop`, `enqueue`, `get`, `deinit` as a step system: one server thread, any number of workers, a clock, one step per lock, unlock, wait, signal, flag or clock read, or guarded access |
| `EngineInvariant.dfy` | the inductive invariant of the step system |
| `EngineRefinement.dfy` | the step system refines the atomic table |
| `EngineCalls.dfy` | every step keeps requests, deadlines and answers in step |
| `EngineProgress.dfy` | conservation of jobs, lock discipline, absence of lost wake-ups and of deadlock |
| `EngineWork.dfy` | work comes to an end, within a bound |
| `EngineAnswers.dfy` | what a caller can count on over whole runs: which answer, which id, by when |
| `EngineShutdown.dfy` | exactly when `deinit` can hang, how soon it returns otherwise, and what it leaves behind |
| `Server.dfy` | capability gate and the handling of one message |
| `ServerLoop.dfy` | the server loop as a class built on the runner class, and its course as a function of the arrivals |
| `Client.dfy` | the client's steps and command loop, as functions and as a class |
| `Protocol.dfy` | any number of clients and a server that answers each message in one step, over FIFO channels |
| `Composition.dfy` | clients, server loop and engine of threads together; they refine the protocol |

The layers are joined by theorems. The engine of threads answers only what the atomic store allows
(`EngineRefinement.EngineRefinesStore`), and its k-th answer is the runner's answer to its k-th request
(`EngineAnswers.EngineIsARunner`). With the engine in the server's place, the whole system refines the
protocol (`Composition.SystemRefinesProtocol`), so that the theorems about clients hold of the engine's own
table (`Composition.EngineTableMatchesClients`).

Condition variables follow IEEE Std 1003.1-2017, System Interfaces, `pthread_cond_wait`,
`pthread_cond_timedwait` and `pthread_cond_signal`: waiting releases the mutex and sleeps in one step, a
signal without a sleeper is lost, a timed wait reports a time-out only once its deadline has come, and a
sleeper may wake for no reason.

## What the proofs found

- `deinit` can hang. The flag is cleared and the broadcast sent without the queue mutex, so a worker
  that has read the flag as true and is about to wait misses both. `EngineShutdown.DeinitHangsIff` gives the exact
  condition at the moment of the call, over all schedules; `EngineShutdown.DeinitCanHang` gives three steps of a
  single worker that lead into it, and `EngineShutdown.DeinitReturns` a bound for every other case.
- A handshake with an invalid mask is answered with an error and registered all the same
  (`sources/server/application.cpp:193-196`), so a later envelope of that client is served under that mask
  (`Server.RejectedMaskIsUsed`, `Server.EmptyMaskIsStored`); and a 32-bit mask is cut to its low byte first, so one with
  high bits set can pass (`Server.OversizedMaskIsAccepted`). `Server.StoredMaskIsValidIff` says exactly when a stored
  mask is valid.
- README.md of the repository calls FIND_START a "starts with" check; the code looks for the first occurrence
  anywhere (`sources/server/algorithm_runner.cpp:177`). The model follows the code: `Operations.FoundElsewhere` is an
  input on which the two differ, and `Operations.PositionZeroIffPrefix` says which answer means a prefix.
- Ticket ids repeat if the clock stands still over 65536 issues (`Tickets.StalledClockRepeatsAnId`). For a monotone
  clock that spans less than 2^48 ns (about 78 hours) they are distinct exactly when it does not
  (`Tickets.DistinctIffAdvances`, lifted to the clock readings of a schedule by `EngineAnswers.DistinctIffClockAdvances`). The refinement
  theorems of the engine ask for less: no id is issued again while its ticket is open.
- A receive that times out shifts every later reply of that client by one envelope (`Client.PairedIffNoTimeOut`), and
  a ticket that arrives late is lost to its client (`Client.LateTicketIsLost`). Pairing and ticket ownership across
  client and server are therefore proved for runs without time-outs on the client's side.

## Model

| member | source | states |
|---|---|---|
| `Operations.ExecuteMeetsSpec` | sources/server/algorithm_runner.cpp:140-186 | every operation meets a specification that does not mention its computation: exact sums, differences and products in range, quotient with same-sign bounded remainder, concatenation up to 32 bytes, first occurrence |
| `Operations.StatusSoundness` | sources/server/algorithm_runner.cpp:140-186 | a value is set exactly on SUCCESS, INVALID_INPUT comes exactly from unknown operations, and no operation ends as NOT_FINISHED or INTERNAL |
| `Operations.FindIsLeastOccurrence` | sources/server/algorithm_runner.cpp:176-181 | the search returns the least occurrence, and nothing exactly when there is none |
| `Operations.TruncDivSpec` | sources/server/algorithm_runner.cpp:154-159 | the remainder is smaller than the divisor and has the sign of the dividend |
| `Operations.FoundElsewhere` | sources/server/algorithm_runner.cpp:176-181 | FIND_START reports a text that occurs elsewhere than at the start: "a" in "ba" gives SUCCESS at position 1 |
| `Operations.PositionZeroIffPrefix` | sources/server/algorithm_runner.cpp:176-181 | position 0 is reported exactly when the needle is a prefix, for texts shorter than 2^32 bytes |
| `Tickets.SameIdIff` | sources/server/algorithm_runner.cpp:229-232 | two ids are equal exactly when clock readings agree mod 2^48 and counters mod 2^16 |
| `Tickets.IssuedIdIsArithmetic` | sources/server/algorithm_runner.cpp:228-232 | the id of the k-th issue is the clock mod 2^48 above k mod 2^16; the counter starts at 0 and wraps |
| `Tickets.NearbyIssuesDiffer` | sources/server/algorithm_runner.cpp:229-232 | fewer than 65536 issues apart ids differ, whatever the clock does and across wrap of the 64-bit counter |
| `Tickets.StalledClockRepeatsAnId` | sources/server/algorithm_runner.cpp:229-232 | a clock that stands still over 65536 issues repeats an id |
| `Tickets.DistinctIffAdvances` | sources/server/algorithm_runner.cpp:225-238 | for a monotone clock that spans less than 2^48 ns, all ids are distinct exactly when the clock moves within any 65536 issues |
| `TicketStore.ExactlyOnce` | sources/server/algorithm_runner.cpp:333-390 | in every history the store allows, an open ticket was only put off, and a closed one was put off, then answered once with the outcome of its payload, then refused |
| `TicketStore.ExactlyOnceInMessages` | sources/server/algorithm_runner.cpp:333-390 | the same in messages: NOT_FINISHED without a result, then status and result of the outcome once, then INVALID_INPUT without a result |
| `TicketStore.AsyncMatchesSync` | sources/server/algorithm_runner.cpp:302-328 | in every such history a result fetched by ticket equals the result of a blocking submit of the same payload |
| `TicketStore.StoreEventIsRunnerAnswer` | sources/server/algorithm_runner.cpp:297-390 | an event that the store allows and that fits a call is the answer of `run` or `get` to that call, with the table it leaves |
| `TicketStore.RunnerAnswerIsStoreEvent` | sources/server/algorithm_runner.cpp:297-390 | conversely every answer of `run` and `get` to a well-formed call is an event that the store allows and that fits the call |
| `TicketStore.MalformedIsRefused` | sources/server/algorithm_runner.cpp:318-330 | a submit of unknown mode, or a non-blocking one without payload, is refused and changes nothing |
| `Runner.AlgoRunner.Enqueue` | sources/server/algorithm_runner.cpp:225-246 | one more open ticket, its job at the end of the queue, no other ticket affected |
| `Runner.AlgoRunner.WorkerTurn` | sources/server/algorithm_runner.cpp:200-221 | the oldest queued job, and no other, becomes finished; no ticket opens or closes |
| `Runner.AlgoRunner.Run` | sources/server/algorithm_runner.cpp:297-331 | answer and table are those of the store, for all three kinds of mode |
| `Runner.AlgoRunner.Get` | sources/server/algorithm_runner.cpp:333-390 | with the worker passes made before the deadline: final exactly when a worker reaches the job by then, with the outcome of its payload, and then the ticket is gone; only WAIT_UP_TO waits, and only as many passes as it takes |
| `Runner.AlgoRunner.Await` | sources/server/algorithm_runner.cpp:368-371 | the waiting loop lets exactly the jobs up to the awaited one be done, or as many as the passes allow, and opens or closes no ticket |
| `EngineInvariant.StepKeepsInv` | sources/server/algorithm_runner.cpp:188-285 | every step of every thread keeps the invariant on locks, jobs, wake-ups and table, including spurious wake-ups and shutdown |
| `EngineInvariant.NoStrandedWorkKeptByWorker` | sources/server/algorithm_runner.cpp:192-202 | no worker step breaks the bound of queued jobs by rechecking workers and due signals |
| `EngineInvariant.NoMissedCompletionKeptByWorker` | sources/server/algorithm_runner.cpp:216-221 | no worker step leaves a finished job's sleeping waiter without a broadcast to come |
| `EngineRefinement.EngineRefinesStore` | sources/server/algorithm_runner.cpp:188-390 | for every worker count and schedule in which no id is reissued while open, the answers are ones the store gives, and between requests the table holds exactly the store's open tickets |
| `EngineRefinement.TicketAnsweredOnce` | sources/server/algorithm_runner.cpp:333-390 | over every run in which no open id is reissued, the messages for a ticket are NOT_FINISHED any number of times, then the outcome once, then INVALID_INPUT, with wait modes mixed freely |
| `EngineRefinement.AsyncRefinesBlocking` | sources/server/algorithm_runner.cpp:205-221 | under every such schedule a ticket delivers what a blocking submit of that payload returns |
| `EngineCalls.StepKeepsBooks` | sources/server/algorithm_runner.cpp:297-390 | every step keeps requests and answers in step: the request in progress is the one the server thread works on, its deadline was computed from the clock after it was made, a job is put off only while it is not done, and every answer fits its request |
| `EngineAnswers.AnswersAreInTime` | sources/server/algorithm_runner.cpp:360-377 | in every run, NOT_FINISHED to a WAIT_UP_TO request is answered no earlier than its milliseconds after the call |
| `EngineAnswers.OnlyTimedGetsSleep` | sources/server/algorithm_runner.cpp:344-377 | the server thread sleeps only in a request with WAIT_UP_TO; NO_WAIT never does |
| `EngineAnswers.EngineIsARunner` | sources/server/algorithm_runner.cpp:188-390 | for every worker count and schedule, the k-th answer and the table it leaves are what `run` and `get` give to the k-th request of the schedule, with the id that the schedule's clock readings call for, and final exactly if the job asked for was done by then |
| `EngineAnswers.NotFinishedMeansNotDone` | sources/server/algorithm_runner.cpp:346-350 | in every reachable state, a step that answers NOT_FINISHED finds the job behind the ticket not done |
| `EngineAnswers.FinishedJobIsDelivered` | sources/server/algorithm_runner.cpp:344-386 | a get with either wait mode, made after the outcome of its job was stored, is answered with the outcome of the payload submitted under every schedule, and is answered once the threads have done what they can |
| `EngineAnswers.PuttingOffTakesTime` | sources/server/algorithm_runner.cpp:360-377 | a WAIT_UP_TO request is put off only in a schedule in which at least its milliseconds pass |
| `EngineAnswers.TimeOutIff` | sources/server/algorithm_runner.cpp:364-371 | a sleeping get can time out exactly from its milliseconds after its clock reading on |
| `EngineAnswers.RunStamps` | sources/server/algorithm_runner.cpp:229-234 | the jobs of a run carry the clock readings of the submits of its schedule, in order |
| `EngineAnswers.IdsComeFromTheClock` | sources/server/algorithm_runner.cpp:229-234 | in every run a ticket's id is made of the clock reading of its own submit and the number of tickets before it |
| `EngineAnswers.DistinctIffClockAdvances` | sources/server/algorithm_runner.cpp:225-238 | in every run whose submits read a monotone clock, all ids are distinct exactly when these readings move within any 65536 submits, and then an insert never replaces a table entry |
| `EngineProgress.JobInExactlyOneStage` | sources/server/algorithm_runner.cpp:188-246 | every job ever made is in exactly one stage, and while not collected can be found in the table |
| `EngineProgress.StartsAreFifo` | sources/server/algorithm_runner.cpp:193-201 | jobs start in order of submission, each at most once, and the front of an empty queue is never taken |
| `EngineProgress.AtMostOneMutex` | sources/server/algorithm_runner.cpp:188-254 | a thread holds at most one mutex, and none while it asks for one |
| `EngineProgress.QueueIsGuarded` | sources/server/algorithm_runner.cpp:192-202 | a step of a thread without the queue mutex commutes with any change of the queue: it neither reads nor writes it |
| `EngineProgress.TableIsGuarded` | sources/server/algorithm_runner.cpp:236-254 | the same for the table and its mutex |
| `EngineProgress.ResultIsGuarded` | sources/server/algorithm_runner.cpp:345-384 | the same for a job's `done`, status and result and its mutex |
| `EngineProgress.QuietMeansAsleep` | sources/server/algorithm_runner.cpp:188-285 | no deadlock: if no thread can move, workers are asleep or gone and the server thread waits for a request, a completion or the joins |
| `EngineProgress.NoWakeUpIsLost` | sources/server/algorithm_runner.cpp:240-244 | while a worker sleeps, queued jobs are at most the rechecking workers plus the signal due; a finished job with a sleeping waiter has its broadcast still to come |
| `EngineProgress.NoWorkLeftBehind` | sources/server/algorithm_runner.cpp:188-246 | with a worker and before shutdown, whenever no thread can move the server is idle, the queue is empty and every job has its outcome stored |
| `EngineWork.WorkIsFinished` | sources/server/algorithm_runner.cpp:188-246 | before shutdown, without new requests and spurious wake-ups, the threads take at most a bound of steps computed from queue and positions; when none can move the request in progress is answered and every job is done |
| `EngineWork.StepDoesWork` | sources/server/algorithm_runner.cpp:188-246 | every step that the threads take by themselves, time-outs included, lowers that bound, and time alone does not change it |
| `EngineShutdown.DeinitHangsIff` | sources/server/algorithm_runner.cpp:274-285 | over all schedules, spurious wake-ups included, a call of `deinit` can hang exactly when some worker has passed its test of the flag, has an empty queue before it and has not yet gone to sleep |
| `EngineShutdown.JoinHangsIff` | sources/server/algorithm_runner.cpp:279-282 | over all schedules, once the flag is cleared, the join can hang exactly when a worker stands between its test and its wait, or sleeps although the broadcast is over |
| `EngineShutdown.DeinitCanHang` | sources/server/algorithm_runner.cpp:193-194 | a concrete schedule with one worker reaches a state in which the call can hang |
| `EngineShutdown.DeinitReturns` | sources/server/algorithm_runner.cpp:274-285 | outside that window, every schedule from the call of `deinit` takes at most 16 steps per worker plus 2 (the passing of time is no step), and when no thread can move `deinit` has returned and every worker is gone |
| `EngineShutdown.ShutdownIsBounded` | sources/server/algorithm_runner.cpp:188-285 | from any state with the flag down, hanging or not, no schedule is longer than the bound left |
| `EngineShutdown.AtMostOneMoreJobEach` | sources/server/algorithm_runner.cpp:188-202 | after the flag is cleared a worker takes at most one more job, and none if it is past its pop |
| `EngineShutdown.NoJobHalfDone` | sources/server/algorithm_runner.cpp:188-223 | when the workers are gone every job is finished with its outcome or untouched |
| `Deadline.Timespec.AddMs` | sources/server/algorithm_runner.cpp:287-295 | in place, the deadline becomes the exact sum; a normal reading after the epoch stays normal |
| `Deadline.PlusIsExact` | sources/server/algorithm_runner.cpp:287-295 | the sum is exact, and normalised exactly when it is not a fraction of a second before the epoch |
| `Server.GateTestsOperationBit` | sources/server/application.cpp:94-118 | the gate admits exactly the known operations whose own bit, by their number in the wire enums, is set |
| `Server.ValidMaskIff` | sources/ipc.cpp:7-16 | valid masks are the non-zero ones below 64 |
| `Server.AdmittedIsKnown` | sources/server/application.cpp:100-117 | an admitted operation never ends as INVALID_INPUT |
| `Server.ReceiveKeepsAccounts` | sources/server/application.cpp:159-220 | each message keeps the accounts: replies to each client equal those owed by counting its messages, its mask is the first handshake it sent cut to 8 bits, and every operation executed was in its mask |
| `Server.ServeKeepsAccounts` | sources/server/application.cpp:159-220 | the accounts hold after every sequence of messages |
| `Server.MaskIsWrittenOnce` | sources/server/application.cpp:182-198 | a stored mask never changes |
| `Server.BadMessagesAreRefused` | sources/server/application.cpp:169-204 | messages that do not parse, envelopes without a request and invalid masks are answered with a get response INVALID_INPUT without a result; all but the last change nothing |
| `Server.RejectedMaskIsUsed` | sources/server/application.cpp:189-206 | a handshake of 0x41 is answered with an error and registered, and an addition is then served under that mask |
| `Server.EmptyMaskIsStored` | sources/server/application.cpp:189-206 | a handshake of 0x100 is cut to the empty mask, answered with an error and registered, and every submit is then refused |
| `Server.OversizedMaskIsAccepted` | sources/server/application.cpp:189-196 | a handshake of 0x101 is cut to a valid mask and accepted without a reply |
| `Server.StoredMaskIsValidIff` | sources/server/application.cpp:189-196 | in every history a stored mask is valid exactly when the first handshake has one of bits 0 to 5 and neither of bits 6 and 7 |
| `Server.ReceiveByRunner` | sources/server/application.cpp:125-145 | a message that reaches the runner is answered with the runner's answer and leaves the runner's table |
| `Server.ReceiveWithoutRunner` | sources/server/application.cpp:182-204 | any other message is answered without regard to the runner and leaves it unchanged |
| `ServerLoop.Application.Process` | sources/server/application.cpp:164-220 | one iteration of the loop computes the state and reply of the specification, with ids and completion decided by the clock and the worker passes of that moment, and leaves the runner as far as those call for |
| `ServerLoop.Application.Dispatch` | sources/server/application.cpp:120-150 | every envelope gets the reply of its kind, and only admitted submits reach the runner |
| `ServerLoop.Application.Run` | sources/server/application.cpp:152-241 | over any sequence of arrivals the messages handled, the ids and completions decided and the runner's progress are those that the arrivals, their clock readings and their worker passes call for; replies and accounts follow |
| `ServerLoop.Application.Work` | sources/server/algorithm_runner.cpp:188-223 | the queue loses exactly the smaller of passes and its length, from its front, and no ticket opens or closes |
| `ServerLoop.IdsFollowTheClock` | sources/server/algorithm_runner.cpp:225-246 | the id decided for each arrival is made of that arrival's own clock reading and the number of tickets in the replies before it |
| `ServerLoop.DoneIffPasses` | sources/server/algorithm_runner.cpp:188-223 | a job that is there at one arrival is done by a later one exactly if enough worker passes are made in between, waits of other requests included |
| `ServerLoop.TicketAnsweredIffReached` | sources/server/algorithm_runner.cpp:333-390 | a get of an open ticket is answered with the outcome of what was submitted for it exactly if fewer jobs were queued ahead of it at its submit than passes were made since, those before its own deadline included with WAIT_UP_TO; otherwise NOT_FINISHED |
| `ServerLoop.RepliesAreSent` | sources/server/application.cpp:206-220 | the replies sent are the replies to the arrivals, in order |
| `Client.PendingIff` | sources/client/application.cpp:425-435 | a ticket is pending exactly when some round opened it (a non-blocking submit answered with it) and no later round closed it (a get answered with a final status) |
| `Client.SessionIsSettled` | sources/client/application.cpp:350-545 | whatever is typed and whatever arrives, time-outs and wrong replies included, pending tickets are those the rounds left open, and every get sent was for a ticket then pending |
| `Client.RepliesTakenInOrder` | sources/client/application.cpp:130-144 | replies are taken in the order they arrive, none skipped, invented or taken twice |
| `Client.PairedIffNoTimeOut` | sources/client/application.cpp:130-231 | the reply taken for the k-th envelope is the k-th one received exactly when no earlier receive timed out |
| `Client.LateTicketIsLost` | sources/client/application.cpp:184-202 | after one time-out a late ticket is taken for the answer to the next envelope and never becomes pending |
| `Client.TurnIsOneRound` | sources/client/application.cpp:146-231 | each command sends its own envelope once (payload and mode, or ticket, wait mode and milliseconds) and takes the first reply there is for it; a get of a ticket that is not pending sends nothing |
| `Client.SubmitsAreSent` | sources/client/application.cpp:350-545 | every submit typed is sent, in order and in its mode, unless a failed arithmetic one ended the session |
| `Client.EveryRoundIsSent` | sources/client/application.cpp:117-128 | the messages sent are the envelopes of the rounds, in order |
| `Client.Application.SubmitPayload` | sources/client/application.cpp:146-202 | the payload is sent unchanged in the mode asked for; the response is the first reply there is if it is a submit response, and is shown; its ticket becomes pending exactly after a non-blocking submit and no other ticket changes; `run` ends exactly after a failed arithmetic submit |
| `Client.Application.GetTicket` | sources/client/application.cpp:392-437 | an unknown ticket sends nothing; a known one is sent with its wait mode and milliseconds, the response is the first reply there is if it is a get response, and is shown whole; the ticket is dropped exactly on a final one; no other ticket changes |
| `Client.Application.Run` | sources/client/application.cpp:350-545 | the command loop computes the session of the specification, its pending tickets are exactly those opened and not closed since, and the answers shown are those of the rounds |
| `Protocol.StepKeepsInv` | sources/client/application.cpp:146-231 | every step of a client or the server keeps channels, pairing and ticket ownership consistent |
| `Protocol.TablesAgree` | sources/client/application.cpp:406-435 | in every run the server's table is the disjoint union of the clients' pending tickets with replies in flight applied, each owned by the client that submitted its payload |
| `Protocol.RepliesPairUp` | sources/client/application.cpp:146-231 | the reply taken for a client's k-th envelope answers it in kind and content, so no receive fails, and a waiting client's reply is on its way |
| `Protocol.NoTicketDroppedEarly` | sources/client/application.cpp:425-435 | a get of a pending ticket is never answered INVALID_INPUT, and the client drops a ticket only with the outcome of what it submitted |
| `Composition.StepRefines` | sources/server/application.cpp:159-220 | every step of clients, server thread and workers is at most one step of the protocol, and keeps the invariant that ties the message being served to the engine's current request |
| `Composition.SystemRefinesProtocol` | sources/server/application.cpp:152-241 | every run of clients, server loop and thread engine with distinct ids is a run of the protocol |
| `Composition.EngineTableMatchesClients` | sources/server/algorithm_runner.cpp:236-238 | between envelopes the engine's own `jobs` table is the disjoint union of what the clients count on, with the payload each submitted, under every thread schedule |
| `Composition.EngineRepliesPairUp` | sources/client/application.cpp:146-231 | every reply a client takes from the threads behind the server answers its envelope in kind and content |
| `Composition.IdsDistinctIffClockAdvances` | sources/server/algorithm_runner.cpp:225-238 | if the clock readings taken for admitted non-blocking submits are monotone, the ids of such a run are distinct exactly when these readings move within any 65536 submits |

## Left out

- Operations.RunMath: does not model undefined behaviour; an integer result outside 32 bits, including INT_MIN / -1, is wrapped, and its specification is claimed for results in range only.
- EngineShutdown.DeinitReturns: does not say that `deinit` always returns, because it does not; see `EngineShutdown.DeinitHangsIff`.
- Engine: the threads of `workerLoop`, `enqueue`, `get` and `deinit` are step functions on values, since they interleave; `Runner` has the same fields as a class that one thread at a time updates. Object lifetime by reference counting is not modelled: job objects are never freed.
- Engine: the clock of timed waits never goes back; `CLOCK_REALTIME` may be set back, and a deadline then comes later.
- Engine: a submit that the runner refuses at once (unknown mode, or non-blocking without payload) is no step of the engine; `TicketStore.MalformedIsRefused` and the server functions cover it.
- EngineAnswers.AnswersAreInTime: gives no upper bound on when the answer comes, which depends on the scheduler.
- Protocol: clients whose receive times out, lost messages, reconnection, and two clients with the same random identity.
- Protocol: `get` requests for tickets of another client, which the server does not forbid and the shipped client never sends (`Client.SessionIsSettled`).
- Composition: a message stays at the head of its channel until it is answered; nobody else reads that channel. Shutdown is not part of it.
- Composition: asks for ids that are distinct over the whole run, since its history of issued tickets is keyed by id; the engine's own theorems ask only that no open id is reissued.
- Client: `pending` maps each id to a ticket that holds the same id, so it is a set here. A failed send is not modelled.
- ZeroMQ sockets and multipart framing; ROUTER and DEALER are FIFO channels.
- Protobuf encoding: a message is what each parser makes of its bytes; failures to serialise are not modelled.
- Memory orderings weaker than sequential consistency: all mutex operations and the atomics of the runner are sequentially consistent by default.
- Creation of threads and of the singletons, `init` of the server, logging, option parsing, signal handlers, text parsing of commands, printing, Docker and the Python tests: input and output, or easy.
