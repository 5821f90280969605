/** The arithmetic and string operations of the runner (`runMath`, `runStr`). */
module Operations {
  import opened Ipc

  const MAX_CONCAT := 32

  function Abs(x: int): nat { if x < 0 then -x else x }

  /** C++ integer division: the quotient is rounded toward zero. */
  function TruncDiv(a: int, b: int): int
    requires b != 0
  {
    if (a < 0) == (b < 0) then Abs(a) / Abs(b) else -(Abs(a) / Abs(b))
  }

  predicate InInt32(x: int) { -0x8000_0000 <= x < 0x8000_0000 }

  /** Two's-complement narrowing to 32 bits. */
  function Wrap32(x: int): int32 {
    if InInt32(x) then x else (x + 0x8000_0000) % 0x1_0000_0000 - 0x8000_0000
  }

  /** `std::string::find` from position `from` on: the first match, if there is one. */
  function FindFrom(hay: Bytes, needle: Bytes, from: nat): (pos: Option<nat>)
    decreases |hay| - from
  {
    if from + |needle| > |hay| then None
    else if hay[from..from + |needle|] == needle then Some(from)
    else FindFrom(hay, needle, from + 1)
  }

  function RunMath(op: MathOp, a: int32, b: int32): Outcome {
    match op
    case Add => Outcome(Success, IntResult(Wrap32(a + b)))
    case Sub => Outcome(Success, IntResult(Wrap32(a - b)))
    case Mul => Outcome(Success, IntResult(Wrap32(a * b)))
    case Div =>
      if b == 0 then Outcome(DivByZero, NoValue)
      else Outcome(Success, IntResult(Wrap32(TruncDiv(a, b))))
    case OtherMathOp(_) => Outcome(InvalidInput, NoValue)
  }

  function RunStr(op: StrOp, s1: Bytes, s2: Bytes): Outcome {
    match op
    case Concat =>
      var r := s1 + s2;
      if |r| > MAX_CONCAT then Outcome(StringTooLong, NoValue)
      else Outcome(Success, StrResult(r))
    case FindStart =>
      (match FindFrom(s1, s2, 0)
       case None => Outcome(SubstrNotFound, NoValue)
       case Some(pos) => Outcome(Success, Position(Wrap32(pos))))
    case OtherStrOp(_) => Outcome(InvalidInput, NoValue)
  }

  /** The dispatch that a worker and a blocking submit both perform. */
  function Execute(p: Payload): Outcome {
    match p
    case Math(op, a, b) => RunMath(op, a, b)
    case Str(op, s1, s2) => RunStr(op, s1, s2)
    case NoPayload => Outcome(InvalidInput, NoValue)
  }

  predicate KnownOperation(p: Payload) {
    match p
    case Math(op, _, _) => !op.OtherMathOp?
    case Str(op, _, _) => !op.OtherStrOp?
    case NoPayload => false
  }

  ghost predicate OccursAt(hay: Bytes, needle: Bytes, i: nat) {
    i + |needle| <= |hay| && hay[i..i + |needle|] == needle
  }

  /** `FindFrom` returns the least occurrence, and returns nothing exactly when there is none. */
  lemma {:induction false} FindIsLeastOccurrence(hay: Bytes, needle: Bytes, from: nat)
    ensures var pos := FindFrom(hay, needle, from);
            match pos
            case Some(p) => from <= p && OccursAt(hay, needle, p)
                            && forall i: nat :: from <= i < p ==> !OccursAt(hay, needle, i)
            case None => forall i: nat :: from <= i ==> !OccursAt(hay, needle, i)
    decreases |hay| - from
  {
    if from + |needle| <= |hay| && !OccursAt(hay, needle, from) {
      FindIsLeastOccurrence(hay, needle, from + 1);
    }
  }

  /** FIND_START is not a test for a prefix: "a" is found in "ba", which does not start with it. */
  lemma FoundElsewhere()
    ensures var hay: Bytes, needle: Bytes := [98, 97], [97];
            Execute(Str(FindStart, hay, needle)) == Outcome(Success, Position(1)) && !(needle <= hay)
  {
    var hay: Bytes, needle: Bytes := [98, 97], [97];
    assert hay[0..1] == [98] && hay[1..2] == needle;
    assert FindFrom(hay, needle, 1) == Some(1);
  }

  /** Position 0 is what tells a prefix: it is reported exactly when the needle starts the text. */
  lemma PositionZeroIffPrefix(hay: Bytes, needle: Bytes)
    requires |hay| < 0x1_0000_0000
    ensures Execute(Str(FindStart, hay, needle)) == Outcome(Success, Position(0)) <==> needle <= hay
  {
    FindIsLeastOccurrence(hay, needle, 0);
    assert OccursAt(hay, needle, 0) <==> needle <= hay;
    if FindFrom(hay, needle, 0).Some? { WrapsToZero(FindFrom(hay, needle, 0).value); }
  }

  lemma WrapsToZero(x: nat)
    requires x < 0x1_0000_0000
    ensures Wrap32(x) == 0 <==> x == 0
  {}

  lemma DivBounds(n: int, d: int)
    requires 0 <= n && 0 < d
    ensures d * (n / d) <= n < d * (n / d) + d
    ensures 0 <= n / d <= n
    ensures d >= 2 ==> 2 * (n / d) <= n
  {
    var q := n / d;
    assert n == d * q + n % d;
    if d >= 2 { assert d * q == 2 * q + (d - 2) * q; }
  }

  /** C++ `/`: the remainder is smaller than the divisor and has the sign of the dividend. */
  lemma TruncDivSpec(a: int, b: int)
    requires b != 0
    ensures var r := a - b * TruncDiv(a, b);
            Abs(r) < Abs(b) && (r == 0 || (r < 0) == (a < 0))
    ensures Abs(TruncDiv(a, b)) <= Abs(a)
    ensures Abs(b) >= 2 ==> 2 * Abs(TruncDiv(a, b)) <= Abs(a)
  {
    var q: int := Abs(a) / Abs(b);
    DivBounds(Abs(a), Abs(b));
    SignedProduct(b, q);
  }

  lemma SignedProduct(b: int, q: int)
    ensures b * q == if b < 0 then -(Abs(b) * q) else Abs(b) * q
    ensures b * -q == -(b * q)
  {}

  /** A search succeeds exactly when the needle occurs somewhere, and reports its first place. */
  ghost predicate FindMeetsSpec(hay: Bytes, needle: Bytes, o: Outcome) {
    if exists i: nat :: OccursAt(hay, needle, i) then
      && o.status == Success && o.result.Position?
      && (|hay| < 0x8000_0000 ==>
            && 0 <= o.result.at && OccursAt(hay, needle, o.result.at)
            && forall i: nat :: i < o.result.at ==> !OccursAt(hay, needle, i))
    else o.status == SubstrNotFound
  }

  ghost predicate MathMeetsSpec(op: MathOp, a: int32, b: int32, o: Outcome) {
    match op
    case Add => o.status == Success && (InInt32(a + b) ==> o.result == IntResult(a + b))
    case Sub => o.status == Success && (InInt32(a - b) ==> o.result == IntResult(a - b))
    case Mul => o.status == Success && (InInt32(a * b) ==> o.result == IntResult(a * b))
    case Div =>
      if b == 0 then o.status == DivByZero
      else
        && o.status == Success && o.result.IntResult?
        && (!(a == -0x8000_0000 && b == -1) ==>
              var r := a - b * o.result.i;
              Abs(r) < Abs(b) && (r == 0 || (r < 0) == (a < 0)))
    case OtherMathOp(_) => o.status == InvalidInput
  }

  ghost predicate StrMeetsSpec(op: StrOp, s1: Bytes, s2: Bytes, o: Outcome) {
    match op
    case Concat =>
      if |s1| + |s2| <= 32 then o == Outcome(Success, StrResult(s1 + s2))
      else o.status == StringTooLong
    case FindStart => FindMeetsSpec(s1, s2, o)
    case OtherStrOp(_) => o.status == InvalidInput
  }

  /** What each operation promises, in terms that do not mention how it computes. */
  ghost predicate MeetsSpec(p: Payload, o: Outcome) {
    match p
    case NoPayload => o.status == InvalidInput
    case Math(op, a, b) => MathMeetsSpec(op, a, b, o)
    case Str(op, s1, s2) => StrMeetsSpec(op, s1, s2, o)
  }

  lemma MathMeets(op: MathOp, a: int32, b: int32)
    ensures MathMeetsSpec(op, a, b, RunMath(op, a, b))
  {
    if op == Div && b != 0 { DivMeets(a, b); }
  }

  lemma DivMeets(a: int32, b: int32)
    requires b != 0
    ensures MathMeetsSpec(Div, a, b, RunMath(Div, a, b))
  {
    TruncDivSpec(a, b);
    if !(a == -0x8000_0000 && b == -1) { assert Wrap32(TruncDiv(a, b)) == TruncDiv(a, b); }
  }

  lemma StrMeets(op: StrOp, s1: Bytes, s2: Bytes)
    ensures StrMeetsSpec(op, s1, s2, RunStr(op, s1, s2))
  {
    if op == FindStart { FindIsLeastOccurrence(s1, s2, 0); }
  }

  /** Every operation meets its specification. */
  lemma ExecuteMeetsSpec(p: Payload)
    ensures MeetsSpec(p, Execute(p))
  {
    match p
    case NoPayload =>
    case Math(op, a, b) => MathMeets(op, a, b);
    case Str(op, s1, s2) => StrMeets(op, s1, s2);
  }

  /** A value comes back exactly on SUCCESS, and a request is refused exactly when its operation is unknown. */
  lemma StatusSoundness(p: Payload)
    ensures Execute(p).status == Success <==> Execute(p).result != NoValue
    ensures KnownOperation(p) <==> Execute(p).status != InvalidInput
    ensures Execute(p).status !in {NotFinished, Internal}
  {}
}
