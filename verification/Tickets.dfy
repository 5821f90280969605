/** Ticket ids: a clock reading and a sequence number packed into 64 bits by `enqueue`. */
module Tickets {
  import opened Ipc

  const SEQ_RANGE := 0x1_0000
  const CLOCK_RANGE := 0x1_0000_0000_0000
  const WORD := 0x1_0000_0000_0000_0000

  function Pow2(n: nat): (p: nat)
    ensures p >= 1
  { 
    if n == 0 then 1 else 2 * Pow2(n - 1)
  }

  function Bit(b: bool): nat { if b then 1 else 0 }

  /** Bitwise operators on the binary digits of a number. */
  function BitOr(a: nat, b: nat): nat
    decreases a + b
  {
    if a == 0 && b == 0 then 0 else 2 * BitOr(a / 2, b / 2) + Bit(a % 2 == 1 || b % 2 == 1)
  }

  function BitAnd(a: nat, b: nat): nat
    decreases a + b
  {
    if a == 0 && b == 0 then 0 else 2 * BitAnd(a / 2, b / 2) + Bit(a % 2 == 1 && b % 2 == 1)
  }

  function ShiftLeft16(x: uint64): uint64 { x * SEQ_RANGE % WORD }

  /** The id of the job made at clock reading `ts` with counter value `no`. */
  function Pack(ts: uint64, no: uint64): TicketId {
    BitOr(ShiftLeft16(ts), BitAnd(no, 0xFFFF))
  }

  /** A number shifted by `n` bits shares no bit with a number below 2^n. */
  lemma {:induction false} OrIsSum(h: nat, low: nat, n: nat)
    requires low < Pow2(n)
    ensures BitOr(h * Pow2(n), low) == h * Pow2(n) + low
  {
    if n == 0 {
      OrZero(h);
    } else {
      var p := Pow2(n - 1);
      assert h * Pow2(n) == 2 * (h * p);
      OrIsSum(h, low / 2, n - 1);
      if h * Pow2(n) == 0 && low == 0 {
      } else {
        assert 2 * (h * p) / 2 == h * p;
      }
    }
  }

  lemma {:induction false} OrZero(a: nat)
    ensures BitOr(a, 0) == a
  {
    if a != 0 { OrZero(a / 2); }
  }

  lemma {:induction false} AndMaskIsMod(a: nat, n: nat)
    ensures BitAnd(a, Pow2(n) - 1) == a % Pow2(n)
    decreases n
  {
    if n == 0 {
      AndZero(a);
    } else {
      var p := Pow2(n - 1);
      AndMaskIsMod(a / 2, n - 1);
      AndOdd(a, p - 1);
      HalveMod(a, p);
    }
  }

  lemma AndOdd(a: nat, b: nat)
    ensures BitAnd(a, 2 * b + 1) == 2 * BitAnd(a / 2, b) + a % 2
  {
    assert (2 * b + 1) / 2 == b;
  }

  lemma {:induction false} AndZero(a: nat)
    ensures BitAnd(a, 0) == 0
  {
    if a != 0 { AndZero(a / 2); }
  }

  lemma HalveMod(a: nat, p: nat)
    requires p > 0
    ensures a % (2 * p) == 2 * (a / 2 % p) + a % 2
  {
    var q, r := a / 2 / p, a / 2 % p;
    assert a / 2 == p * q + r;
    ModUnique(a, 2 * p, q, 2 * r + a % 2);
  }

  lemma ModUnique(a: int, m: int, q: int, r: int)
    requires 0 <= r < m && a == m * q + r
    ensures a % m == r
  {
    RemaindersAgree(m, q, r, a / m, a % m);
  }

  lemma RemaindersAgree(m: int, q: int, r: int, q': int, r': int)
    requires 0 <= r < m && 0 <= r' < m && m * q + r == m * q' + r'
    ensures r == r'
  {
    var d := q - q';
    assert m * d == r' - r;
    if d >= 1 {
      AtLeastOnce(m, d);
    } else if d <= -1 {
      AtLeastOnce(m, -d);
    }
  }

  lemma AtLeastOnce(m: int, d: int)
    requires m > 0 && d >= 1
    ensures m * d >= m
  {}

  /** Numbers less than `m` apart are not congruent mod `m`. */
  lemma CloseNumbersNotCongruent(x: int, y: int, m: int)
    requires x < y < x + m
    ensures x % m != y % m
  {
    if x % m == y % m {
      ModUnique(y - x, m, y / m - x / m, 0);
      ModUnique(y - x, m, 0, y - x);
    }
  }

  /** Wrapping the counter at 2^64 does not disturb its low 16 bits. */
  lemma WrapKeepsLowBits(k: nat)
    ensures k % WORD % SEQ_RANGE == k % SEQ_RANGE
  {
    var r := k % WORD;
    ModUnique(k, SEQ_RANGE, CLOCK_RANGE * (k / WORD) + r / SEQ_RANGE, r % SEQ_RANGE);
  }

  lemma PackIsArithmetic(ts: uint64, no: uint64)
    ensures Pack(ts, no) == (ts % CLOCK_RANGE) * SEQ_RANGE + no % SEQ_RANGE
    ensures Pack(ts, no) < WORD
  {
    Pow2At16();
    AndMaskIsMod(no, 16);
    OrIsSum(ts % CLOCK_RANGE, no % SEQ_RANGE, 16);
    ModUnique(ts * SEQ_RANGE, WORD, ts / CLOCK_RANGE, (ts % CLOCK_RANGE) * SEQ_RANGE);
  }

  lemma Pow2At16()
    ensures Pow2(16) == SEQ_RANGE
  {
    assert Pow2(4) == 16;
    assert Pow2(8) == 256;
    assert Pow2(12) == 4096;
  }

  /** Two ids collide exactly when the clock readings agree mod 2^48 and the counters mod 2^16. */
  lemma SameIdIff(ts: uint64, no: uint64, ts': uint64, no': uint64)
    ensures Pack(ts, no) == Pack(ts', no')
       <==> ts % CLOCK_RANGE == ts' % CLOCK_RANGE && no % SEQ_RANGE == no' % SEQ_RANGE
  {
    PackIsArithmetic(ts, no);
    PackIsArithmetic(ts', no');
  }

  /** The id of the `k`-th issue; the 64-bit counter starts at 0 and wraps. */
  function IssuedId(ts: uint64, k: nat): TicketId { Pack(ts, k % WORD) }

  /** The low 48 bits of the clock above the low 16 bits of a counter that starts at 0. */
  lemma IssuedIdIsArithmetic(ts: uint64, k: nat)
    ensures IssuedId(ts, k) == (ts % CLOCK_RANGE) * SEQ_RANGE + k % SEQ_RANGE
  {
    PackIsArithmetic(ts, k % WORD);
    WrapKeepsLowBits(k);
  }

  /** Fewer than 65536 issues apart, ids differ whatever the clock does. */
  lemma NearbyIssuesDiffer(ts: uint64, i: nat, ts': uint64, j: nat)
    requires i < j < i + SEQ_RANGE
    ensures IssuedId(ts, i) != IssuedId(ts', j)
  {
    SameIdIff(ts, i % WORD, ts', j % WORD);
    WrapKeepsLowBits(i);
    WrapKeepsLowBits(j);
    CloseNumbersNotCongruent(i, j, SEQ_RANGE);
  }

  /** The clock never goes back and spans less than 2^48 ns. */
  ghost predicate Monotone(stamps: seq<uint64>) {
    forall i, j :: 0 <= i < j < |stamps| ==> stamps[i] <= stamps[j] < stamps[i] + CLOCK_RANGE
  }

  /** The clock moves within any 65536 issues. */
  ghost predicate Advances(stamps: seq<uint64>) {
    forall i :: 0 <= i < |stamps| - SEQ_RANGE ==> stamps[i] < stamps[i + SEQ_RANGE]
  }

  ghost predicate Distinct(stamps: seq<uint64>) {
    forall i, j :: 0 <= i < j < |stamps| ==> IssuedId(stamps[i], i) != IssuedId(stamps[j], j)
  }

  lemma AdvancingClockGivesDistinctIds(stamps: seq<uint64>, i: nat, j: nat)
    requires Monotone(stamps) && Advances(stamps)
    requires i < j < |stamps|
    ensures IssuedId(stamps[i], i) != IssuedId(stamps[j], j)
  {
    if j < i + SEQ_RANGE {
      NearbyIssuesDiffer(stamps[i], i, stamps[j], j);
    } else {
      assert stamps[i] < stamps[i + SEQ_RANGE] <= stamps[j];
      CloseNumbersNotCongruent(stamps[i], stamps[j], CLOCK_RANGE);
      SameIdIff(stamps[i], i % WORD, stamps[j], j % WORD);
    }
  }

  /** A clock that stands still for 65536 issues repeats an id. */
  lemma StalledClockRepeatsAnId(ts: uint64, i: nat)
    ensures IssuedId(ts, i) == IssuedId(ts, i + SEQ_RANGE)
  {
    SameIdIff(ts, i % WORD, ts, (i + SEQ_RANGE) % WORD);
    WrapKeepsLowBits(i);
    WrapKeepsLowBits(i + SEQ_RANGE);
    ModUnique(i + SEQ_RANGE, SEQ_RANGE, i / SEQ_RANGE + 1, i % SEQ_RANGE);
  }

  /** For a monotone clock, ids are all distinct exactly when the clock moves within any 65536 issues. */
  lemma DistinctIffAdvances(stamps: seq<uint64>)
    requires Monotone(stamps)
    ensures Distinct(stamps) <==> Advances(stamps)
  {
    if Advances(stamps) {
      forall i, j | 0 <= i < j < |stamps| ensures IssuedId(stamps[i], i) != IssuedId(stamps[j], j) {
        AdvancingClockGivesDistinctIds(stamps, i, j);
      }
    }
    if Distinct(stamps) {
      forall i | 0 <= i < |stamps| - SEQ_RANGE ensures stamps[i] < stamps[i + SEQ_RANGE] {
        StalledClockRepeatsAnId(stamps[i], i);
        assert IssuedId(stamps[i], i) != IssuedId(stamps[i + SEQ_RANGE], i + SEQ_RANGE);
      }
    }
  }
}
