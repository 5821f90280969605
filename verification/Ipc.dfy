/** The messages of protos/ipc.proto, and the names both processes share. */
module Ipc {
  datatype Option<+T> = None | Some(value: T)

  type int32 = x: int | -0x8000_0000 <= x < 0x8000_0000
  type uint32 = x: int | 0 <= x < 0x1_0000_0000
  type uint64 = x: int | 0 <= x < 0x1_0000_0000_0000_0000
  type Bytes = seq<bv8>
  type TicketId = nat
  type ClientId = string

  // proto3 enums are open: a peer may send a number that has no name.
  datatype MathOp = Add | Sub | Mul | Div | OtherMathOp(code: int)
  datatype StrOp = Concat | FindStart | OtherStrOp(code: int)
  datatype SubmitMode = Blocking | NonBlocking | OtherMode(code: int)
  datatype WaitMode = NoWait | WaitUpTo | OtherWait(code: int)

  datatype Status =
    | Success
    | InvalidInput
    | DivByZero
    | SubstrNotFound
    | StringTooLong
    | Internal
    | NotFinished

  datatype Result = NoValue | IntResult(i: int32) | Position(at: int32) | StrResult(text: Bytes)

  datatype Payload =
    | Math(op: MathOp, a: int32, b: int32)
    | Str(sop: StrOp, s1: Bytes, s2: Bytes)
    | NoPayload

  /** What an operation leaves behind: a status, and the `Result` message it filled in. */
  datatype Outcome = Outcome(status: Status, result: Result)

  datatype SubmitRequest = SubmitRequest(mode: SubmitMode, payload: Payload)
  datatype GetRequest = GetRequest(ticket: TicketId, wait: WaitMode, ms: uint32)
  datatype EnvelopeReq = SubmitReq(submit: SubmitRequest) | GetReq(get: GetRequest) | ReqNotSet

  datatype SubmitResponse = SubmitResponse(status: Status, ticket: Option<TicketId>, result: Option<Result>)
  datatype GetResponse = GetResponse(status: Status, result: Option<Result>)
  datatype EnvelopeResp = SubmitResp(submit: SubmitResponse) | GetResp(get: GetResponse)

  /** A message to the server: what each of its two parsers makes of the bytes. */
  datatype Message = Message(asHandshake: Option<bv32>, asEnvelope: Option<EnvelopeReq>)
}
