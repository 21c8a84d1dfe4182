/** Shifts, masks and disjunctions on unbounded integers, as Python computes them. */
module Bits {

  function Pow2(k: nat): (p: int)
    ensures p >= 1
  {
    if k == 0 then 1 else 2 * Pow2(k - 1)
  }

  function Shl(x: int, k: nat): int {
    x * Pow2(k)
  }

  /** Arithmetic shift: rounds down. */
  function Shr(x: int, k: nat): int {
    x / Pow2(k)
  }

  /** x | m for a non-negative m, bit by bit; x is in two's complement. */
  function BitOr(x: int, m: nat): int
    decreases m + 1
  {
    if m == 0 then x else 2 * BitOr(x / 2, m / 2) + if x % 2 == 1 || m % 2 == 1 then 1 else 0
  }

  /** x & m for a non-negative m, bit by bit. */
  function BitAnd(x: int, m: nat): int
    decreases m + 1
  {
    if m == 0 then 0 else 2 * BitAnd(x / 2, m / 2) + if x % 2 == 1 && m % 2 == 1 then 1 else 0
  }

  lemma Halves(x: int, p: int)
    ensures (x * (2 * p)) / 2 == x * p && (x * (2 * p)) % 2 == 0
  {
    assert x * (2 * p) == 2 * (x * p);
  }

  /** Or-ing into free low bits is addition. */
  lemma {:induction false} OrIsSum(h: int, low: nat, k: nat, p: int)
    requires p == Pow2(k) && low < p
    ensures BitOr(h * p, low) == h * p + low
    decreases k
  {
    if k > 0 && low > 0 {
      Halves(h, Pow2(k - 1));
      OrIsSum(h, low / 2, k - 1, Pow2(k - 1));
    }
  }

  lemma MulAtLeast(d: int, k: int)
    requires d >= 1
    ensures k >= 1 ==> d * k >= d
    ensures k <= -1 ==> d * k <= -d
  {}

  lemma {:induction false} DivUnique(x: int, d: int, q: int, r: int)
    requires d >= 1 && x == d * q + r && 0 <= r < d
    ensures x / d == q && x % d == r
  {
    var q', r' := x / d, x % d;
    assert x == d * q' + r' && 0 <= r' < d;
    assert d * (q - q') == d * q - d * q' == r' - r;
    MulAtLeast(d, q - q');
  }

  lemma {:induction false} ModTwice(x: int, p: int)
    requires p >= 1
    ensures x % (2 * p) == 2 * ((x / 2) % p) + x % 2
  {
    var h := x / 2;
    var q, r := h / p, h % p;
    assert h == p * q + r;
    assert (2 * p) * q == 2 * (p * q);
    DivUnique(x, 2 * p, q, 2 * r + x % 2);
  }

  lemma {:induction false} Pow2Sum(a: nat, b: nat)
    ensures Pow2(a + b) == Pow2(a) * Pow2(b)
    decreases a
  {
    if a > 0 {
      Pow2Sum(a - 1, b);
      assert Pow2(a + b) == 2 * Pow2(a - 1 + b);
      assert 2 * (Pow2(a - 1) * Pow2(b)) == (2 * Pow2(a - 1)) * Pow2(b);
    }
  }

  /** Masking with k ones is the remainder by 2^k. */
  lemma {:induction false} MaskIsMod(x: int, k: nat, p: int)
    requires p == Pow2(k)
    ensures BitAnd(x, p - 1) == x % p
    decreases k
  {
    if k > 0 {
      MaskIsMod(x / 2, k - 1, Pow2(k - 1));
      ModTwice(x, Pow2(k - 1));
    }
  }

  lemma ShiftValues(x: int, k: nat, p: int)
    requires p == Pow2(k)
    ensures Shl(x, k) == x * p && Shr(x, k) == x / p
  {}
}

/** The id generator of backend/utils/snowflake.py. The clock is the sequence of its readings; it may jump back. */
module Snowflake {
  import opened Bits

  const WORKER_ID_BITS := 5
  const DATACENTER_ID_BITS := 5
  const SEQUENCE_BITS := 12
  const MAX_WORKER_ID := 31
  const MAX_DATACENTER_ID := 31
  const SEQUENCE_MASK := 4095
  const WORKER_ID_SHIFT := SEQUENCE_BITS
  const DATACENTER_ID_SHIFT := SEQUENCE_BITS + WORKER_ID_BITS
  const TIMESTAMP_LEFT_SHIFT := SEQUENCE_BITS + WORKER_ID_BITS + DATACENTER_ID_BITS
  const EPOCH := 1262275200000
  const CLOCK_BACKWARD_TOLERANCE_MS := 10000
  const ID_LIMIT := 9223372036854775808     // 2^63
  const TIME_LIMIT := 2199023255552         // 2^41

  datatype Info = Info(timestamp: int, datacenterId: int, workerId: int, sequence: int)

  predicate ProperNode(datacenterId: int, workerId: int) {
    0 <= datacenterId <= MAX_DATACENTER_ID && 0 <= workerId <= MAX_WORKER_ID
  }

  predicate ProperInfo(i: Info) {
    ProperNode(i.datacenterId, i.workerId) && 0 <= i.sequence <= SEQUENCE_MASK
  }

  /** The fields in their places, as a number. */
  function Number(i: Info): int {
    (i.timestamp - EPOCH) * 4194304 + i.datacenterId * 131072 + i.workerId * 4096 + i.sequence
  }

  function Fields(id: int): Info {
    Info(id / 4194304 + EPOCH, (id / 131072) % 32, (id / 4096) % 32, id % 4096)
  }

  /** The id as `generate` composes it. */
  function Pack(i: Info): int
    requires ProperInfo(i)
  {
    BitOr(BitOr(BitOr(Shl(i.timestamp - EPOCH, TIMESTAMP_LEFT_SHIFT), Shl(i.datacenterId, DATACENTER_ID_SHIFT)),
                Shl(i.workerId, WORKER_ID_SHIFT)),
          i.sequence)
  }

  function Parse(id: int): Info {
    Info(Shr(id, TIMESTAMP_LEFT_SHIFT) + EPOCH,
         BitAnd(Shr(id, DATACENTER_ID_SHIFT), MAX_DATACENTER_ID),
         BitAnd(Shr(id, WORKER_ID_SHIFT), MAX_WORKER_ID),
         BitAnd(id, SEQUENCE_MASK))
  }

  /** The maxima are the all-ones numbers of their fields. */
  lemma Widths()
    ensures MAX_WORKER_ID == Pow2(WORKER_ID_BITS) - 1 && MAX_DATACENTER_ID == Pow2(DATACENTER_ID_BITS) - 1
    ensures SEQUENCE_MASK == Pow2(SEQUENCE_BITS) - 1
    ensures Pow2(WORKER_ID_SHIFT) == 4096 && Pow2(DATACENTER_ID_SHIFT) == 131072
            && Pow2(TIMESTAMP_LEFT_SHIFT) == 4194304
  {
    assert Pow2(5) == 32 && Pow2(12) == 4096;
    Pow2Sum(5, 12);
    Pow2Sum(5, 17);
  }

  /** Or-ing a shifted field under a shifted number. */
  lemma {:induction false} PutField(t: int, f: nat, high: nat, low: nat, p: int, q: int)
    requires p == Pow2(high) && q == Pow2(low) && f * q < p
    ensures BitOr(t * p, Shl(f, low)) == t * p + f * q
  {
    ShiftValues(f, low, q);
    OrIsSum(t, f * q, high, p);
  }

  lemma PackDatacenter(t: int, d: nat)
    requires d < 32
    ensures BitOr(Shl(t, TIMESTAMP_LEFT_SHIFT), Shl(d, DATACENTER_ID_SHIFT)) == (t * 32 + d) * 131072
  {
    Widths();
    ShiftValues(t, TIMESTAMP_LEFT_SHIFT, 4194304);
    PutField(t, d, TIMESTAMP_LEFT_SHIFT, DATACENTER_ID_SHIFT, 4194304, 131072);
  }

  lemma PackWorker(x: int, w: nat)
    requires w < 32
    ensures BitOr(x * 131072, Shl(w, WORKER_ID_SHIFT)) == (x * 32 + w) * 4096
  {
    Widths();
    PutField(x, w, DATACENTER_ID_SHIFT, WORKER_ID_SHIFT, 131072, 4096);
  }

  lemma PackSequence(x: int, q: nat)
    requires q < 4096
    ensures BitOr(x * 4096, q) == x * 4096 + q
  {
    Widths();
    OrIsSum(x, q, WORKER_ID_SHIFT, 4096);
  }

  /** The disjunctions put every field in its place. */
  lemma PackNumber(i: Info)
    requires ProperInfo(i)
    ensures Pack(i) == Number(i)
    ensures Pack(i) == (i.timestamp - 1262275200000) * 4194304 + i.datacenterId * 131072 + i.workerId * 4096
            + i.sequence
  {
    var t := i.timestamp - EPOCH;
    PackDatacenter(t, i.datacenterId);
    PackWorker(t * 32 + i.datacenterId, i.workerId);
    PackSequence((t * 32 + i.datacenterId) * 32 + i.workerId, i.sequence);
  }

  lemma ReadField(id: int, shift: nat, p: int, bits: nat, q: int)
    requires p == Pow2(shift) && q == Pow2(bits)
    ensures BitAnd(Shr(id, shift), q - 1) == (id / p) % q
  {
    MaskIsMod(id / p, bits, q);
  }

  lemma TimestampField(id: int)
    ensures Shr(id, TIMESTAMP_LEFT_SHIFT) == id / 4194304
  {
    Widths();
  }

  lemma DatacenterField(id: int)
    ensures BitAnd(Shr(id, DATACENTER_ID_SHIFT), MAX_DATACENTER_ID) == (id / 131072) % 32
  {
    Widths();
    ReadField(id, DATACENTER_ID_SHIFT, 131072, DATACENTER_ID_BITS, 32);
  }

  lemma {:induction false} WorkerField(id: int)
    ensures BitAnd(Shr(id, WORKER_ID_SHIFT), MAX_WORKER_ID) == (id / 4096) % 32
  {
    Widths();
    ReadField(id, WORKER_ID_SHIFT, 4096, WORKER_ID_BITS, 32);
  }

  lemma {:induction false} SequenceField(id: int)
    ensures BitAnd(id, SEQUENCE_MASK) == id % 4096
  {
    Widths();
    MaskIsMod(id, SEQUENCE_BITS, 4096);
  }

  /** The shifts and masks read every field from its place. */
  lemma {:induction false} ParseFields(id: int)
    ensures Parse(id) == Fields(id)
    ensures Parse(id).timestamp == id / 4194304 + 1262275200000 && Parse(id).sequence == id % 4096
    ensures Parse(id).datacenterId == id / 131072 % 32 && Parse(id).workerId == id / 4096 % 32
  {
    TimestampField(id);
    DatacenterField(id);
    WorkerField(id);
    SequenceField(id);
  }

  lemma {:induction false} FieldsOfNumber(i: Info)
    requires ProperInfo(i)
    ensures Fields(Number(i)) == i
  {
    var t, d, w, q := i.timestamp - EPOCH, i.datacenterId, i.workerId, i.sequence;
    var n := Number(i);
    DivUnique(n, 4194304, t, d * 131072 + w * 4096 + q);
    DivUnique(n, 131072, t * 32 + d, w * 4096 + q);
    DivUnique(n, 4096, (t * 32 + d) * 32 + w, q);
    DivUnique(t * 32 + d, 32, t, d);
    DivUnique((t * 32 + d) * 32 + w, 32, t * 32 + d, w);
  }

  /** Parsing recovers exactly what was packed, for timestamps before the epoch too. */
  lemma {:induction false} ParsePack(i: Info, id: int)
    requires ProperInfo(i) && id == Pack(i)
    ensures Parse(id) == i
  {
    PackNumber(i);
    FieldsOfNumber(i);
    ParseFields(id);
  }

  /** An id is a non-negative 63-bit number exactly while the clock is within 2^41 ms after the epoch. */
  lemma {:induction false} PackRange(i: Info)
    requires ProperInfo(i)
    ensures 0 <= Pack(i) < ID_LIMIT <==> 0 <= i.timestamp - EPOCH < TIME_LIMIT
  {
    PackNumber(i);
  }

  lemma {:induction false} LimitsArePowers()
    ensures ID_LIMIT == Pow2(63) && TIME_LIMIT == Pow2(41)
  {
    Widths();
    assert Pow2(10) == 1024 && Pow2(1) == 2;
    Pow2Sum(10, 10);
    Pow2Sum(20, 20);
    Pow2Sum(1, 40);
    Pow2Sum(22, 41);
  }

  lemma WrapsAtMask(sequence: int, p: int)
    requires 0 <= sequence < p
    ensures (sequence + 1) % p == if sequence == p - 1 then 0 else sequence + 1
  {}

  // ---------- generation ----------

  datatype Outcome = Id(id: int) | NotInitialized | ClockBackwards(ms: int) | StillWaiting

  /** What one call works on: the node and the generator's two counters. */
  datatype Generator = Generator(datacenterId: int, workerId: int, sequence: int, lastTimestamp: int)

  predicate Proper(g: Generator) {
    ProperNode(g.datacenterId, g.workerId) && 0 <= g.sequence <= SEQUENCE_MASK
  }

  function Stamp(g: Generator): Info {
    Info(g.lastTimestamp, g.datacenterId, g.workerId, g.sequence)
  }

  /** How many readings are spent until one is past `last`; all of them when none is. */
  function TillNext(clock: seq<int>, last: int): (n: nat)
    ensures n <= |clock|
    ensures forall i :: 0 <= i < n ==> clock[i] <= last
    ensures n < |clock| ==> clock[n] > last
  {
    if clock == [] || clock[0] > last then 0 else 1 + TillNext(clock[1..], last)
  }

  /** The wait of a call: its outcome, the generator after it and the readings left. */
  function AfterWait(g: Generator, clock: seq<int>): (Outcome, Generator, seq<int>)
    requires Proper(g)
  {
    var n := TillNext(clock, g.lastTimestamp);
    if n == |clock| then (StillWaiting, g, [])
    else
      var done := g.(sequence := 0, lastTimestamp := clock[n]);
      (Id(Number(Stamp(done))), done, clock[n + 1..])
  }

  function Generate(g: Generator, clock: seq<int>): (Outcome, Generator, seq<int>)
    requires Proper(g)
  {
    if clock == [] then (StillWaiting, g, [])
    else
      var now, rest := clock[0], clock[1..];
      if now < g.lastTimestamp then
        if g.lastTimestamp - now <= CLOCK_BACKWARD_TOLERANCE_MS then AfterWait(g, rest)
        else (ClockBackwards(g.lastTimestamp - now), g, rest)
      else if now == g.lastTimestamp then
        if g.sequence == SEQUENCE_MASK then AfterWait(g.(sequence := 0), rest)
        else
          var done := g.(sequence := g.sequence + 1);
          (Id(Number(Stamp(done))), done, rest)
      else
        var done := g.(sequence := 0, lastTimestamp := now);
        (Id(Number(Stamp(done))), done, rest)
  }

  class SnowflakeGenerator {
    var datacenterId: int
    var workerId: int
    var sequence: int
    var lastTimestamp: int
    var initialized: bool

    constructor ()
      ensures !initialized && sequence == 0 && lastTimestamp == -1
    {
      datacenterId, workerId, sequence, lastTimestamp, initialized := 0, 0, 0, -1, false;
    }

    function State(): Generator
      reads this
    {
      Generator(datacenterId, workerId, sequence, lastTimestamp)
    }

    predicate Valid()
      reads this
    {
      initialized ==> Proper(State())
    }

    /** The range check of init. */
    method Init(datacenter: int, worker: int) returns (ok: bool)
      requires Valid() && 0 <= sequence <= SEQUENCE_MASK
      modifies this
      ensures Valid() && sequence == old(sequence) && lastTimestamp == old(lastTimestamp)
      ensures ok <==> old(initialized) || ProperNode(datacenter, worker)
      ensures initialized <==> ok
      ensures old(initialized) ==> State() == old(State())
      ensures !old(initialized) && ok ==> datacenterId == datacenter && workerId == worker
    {
      if initialized {
        return true;
      }
      datacenterId, workerId := datacenter, worker;
      if !(0 <= datacenterId <= MAX_DATACENTER_ID) {
        return false;
      }
      if !(0 <= workerId <= MAX_WORKER_ID) {
        return false;
      }
      initialized := true;
      return true;
    }

    /** _till_next_ms: None when the readings run out while waiting. */
    method WaitPast(last: int, clock: seq<int>) returns (found: bool, timestamp: int, rest: seq<int>)
      ensures var n := TillNext(clock, last);
              && (found <==> n < |clock|)
              && (found ==> timestamp == clock[n] && rest == clock[n + 1..])
    {
      var i := 0;
      timestamp, rest := 0, [];
      while i < |clock| && clock[i] <= last
        invariant 0 <= i <= |clock| && TillNext(clock, last) == i + TillNext(clock[i..], last)
      {
        assert clock[i..][0] == clock[i] && clock[i..][1..] == clock[i + 1..];
        i := i + 1;
      }
      found := i < |clock|;
      if found {
        timestamp, rest := clock[i], clock[i + 1..];
      }
    }

    /** x & mask, for a mask of the sequence width. */
    method Masked(x: int, mask: nat, ghost p: int) returns (masked: int)
      requires p == Pow2(SEQUENCE_BITS) && mask == p - 1
      ensures masked == x % p
    {
      masked := BitAnd(x, mask);
      MaskIsMod(x, SEQUENCE_BITS, p);
    }

    method NextSequence() returns (next: int)
      requires 0 <= sequence <= SEQUENCE_MASK
      ensures next == if sequence == SEQUENCE_MASK then 0 else sequence + 1
    {
      Widths();
      next := Masked(sequence + 1, SEQUENCE_MASK, 4096);
      WrapsAtMask(sequence, 4096);
    }

    method Compose(timestamp: int) returns (id: int)
      requires Proper(State())
      ensures id == Number(Info(timestamp, datacenterId, workerId, sequence))
    {
      PackNumber(Info(timestamp, datacenterId, workerId, sequence));
      id := Pack(Info(timestamp, datacenterId, workerId, sequence));
    }

    method NextId(clock: seq<int>) returns (outcome: Outcome, rest: seq<int>)
      requires Valid()
      modifies this
      ensures Valid() && initialized == old(initialized)
      ensures !old(initialized) ==> outcome == NotInitialized && State() == old(State()) && rest == clock
      ensures old(initialized) ==> (outcome, State(), rest) == Generate(old(State()), clock)
    {
      if !initialized {
        return NotInitialized, clock;
      }
      if clock == [] {
        return StillWaiting, [];
      }
      var timestamp := clock[0];
      rest := clock[1..];
      var found;
      if timestamp < lastTimestamp {
        var back := lastTimestamp - timestamp;
        if back > CLOCK_BACKWARD_TOLERANCE_MS {
          return ClockBackwards(back), rest;
        }
        found, timestamp, rest := WaitPast(lastTimestamp, rest);
        if !found {
          return StillWaiting, [];
        }
      }
      if timestamp == lastTimestamp {
        sequence := NextSequence();
        if sequence == 0 {
          found, timestamp, rest := WaitPast(lastTimestamp, rest);
          if !found {
            return StillWaiting, [];
          }
        }
      } else {
        sequence := 0;
      }
      lastTimestamp := timestamp;
      var id := Compose(timestamp);
      outcome := Id(id);
    }
  }

  // ---------- whole runs ----------

  /** The ids that up to n successive calls return on one clock trace; refused calls return none. */
  function Ids(g: Generator, clock: seq<int>, n: nat): seq<int>
    requires Proper(g)
    decreases n
  {
    if n == 0 then []
    else
      var (outcome, after, rest) := Generate(g, clock);
      match outcome
      case Id(id) => [id] + Ids(after, rest, n - 1)
      case StillWaiting => []
      case _ => Ids(after, rest, n - 1)
  }

  /** One call: a returned id is the packing of the new state and greater than that of the old one. */
  lemma OneCall(g: Generator, clock: seq<int>)
    requires Proper(g)
    ensures var (outcome, after, rest) := Generate(g, clock);
            && Proper(after) && after.datacenterId == g.datacenterId && after.workerId == g.workerId
            && (outcome.Id? ==> outcome.id == Number(Stamp(after)) && Number(Stamp(after)) > Number(Stamp(g)))
            && outcome != NotInitialized && (outcome.ClockBackwards? ==> after == g)
            && (outcome.ClockBackwards? <==> clock != [] && g.lastTimestamp - clock[0] > CLOCK_BACKWARD_TOLERANCE_MS)
  {
  }

  /** The reading at place n is the first one past `last`. */
  predicate FirstPast(clock: seq<int>, last: int, n: nat) {
    n < |clock| && clock[n] > last && forall i :: 0 <= i < n ==> clock[i] <= last
  }

  /** Which id a call returns, reading by reading: on a later millisecond the sequence starts over, within one it counts
      on, and after 4095 or a jump back of at most ten seconds the call waits for the first later millisecond. */
  lemma {:induction false} CallSpelled(g: Generator, clock: seq<int>)
    requires Proper(g) && clock != []
    ensures var (outcome, after, rest) := Generate(g, clock);
            var now, last := clock[0], g.lastTimestamp;
            && (now > last ==> outcome == Id(Number(Info(now, g.datacenterId, g.workerId, 0))) && rest == clock[1..])
            && (now == last && g.sequence < 4095 ==>
                  outcome == Id(Number(Info(now, g.datacenterId, g.workerId, g.sequence + 1))) && rest == clock[1..])
            && ((now == last && g.sequence == 4095) || (now < last && last - now <= 10000) ==>
                  && ((forall t :: t in clock[1..] ==> t <= last) ==> outcome == StillWaiting && rest == [])
                  && forall n: nat :: FirstPast(clock[1..], last, n) ==>
                       outcome == Id(Number(Info(clock[n + 1], g.datacenterId, g.workerId, 0)))
                         && rest == clock[n + 2..])
            && (last - now > 10000 ==> outcome == ClockBackwards(last - now) && rest == clock[1..])
  {
    WaitSpelled(clock[1..], g.lastTimestamp);
  }

  lemma WaitSpelled(clock: seq<int>, last: int)
    ensures (forall t :: t in clock ==> t <= last) ==> TillNext(clock, last) == |clock|
    ensures forall n: nat :: FirstPast(clock, last, n) ==> TillNext(clock, last) == n
  {
    var n := TillNext(clock, last);
    if n < |clock| {
      assert clock[n] in clock;
    }
  }

  /** The first of n calls, without the generator's workings. */
  lemma FirstCall(g: Generator, clock: seq<int>, n: nat) returns (outcome: Outcome, after: Generator, rest: seq<int>)
    requires Proper(g) && n > 0
    ensures Proper(after) && after.datacenterId == g.datacenterId && after.workerId == g.workerId
    ensures outcome.Id? ==> Ids(g, clock, n) == [outcome.id] + Ids(after, rest, n - 1)
    ensures outcome.Id? ==> outcome.id == Number(Stamp(after)) && Number(Stamp(after)) > Number(Stamp(g))
    ensures outcome == StillWaiting ==> Ids(g, clock, n) == []
    ensures outcome != StillWaiting && !outcome.Id? ==> after == g && Ids(g, clock, n) == Ids(g, rest, n - 1)
  {
    OneCall(g, clock);
    var call := Generate(g, clock);
    outcome, after, rest := call.0, call.1, call.2;
  }

  ghost predicate IncreasingFrom(ids: seq<int>, floor: int) {
    && (forall i, k :: 0 <= i < k < |ids| ==> ids[i] < ids[k])
    && (forall i :: 0 <= i < |ids| ==> floor < ids[i])
  }

  ghost predicate OfNode(ids: seq<int>, datacenterId: int, workerId: int) {
    forall i :: 0 <= i < |ids| ==> Fields(ids[i]).datacenterId == datacenterId && Fields(ids[i]).workerId == workerId
  }

  lemma {:induction false} PutFirst(id: int, later: seq<int>, floor: int, g: Generator)
    requires Proper(g) && id == Number(Stamp(g)) && floor < id
    requires IncreasingFrom(later, id) && OfNode(later, g.datacenterId, g.workerId)
    ensures IncreasingFrom([id] + later, floor) && OfNode([id] + later, g.datacenterId, g.workerId)
  {
    FieldsOfNumber(Stamp(g));
  }

  /** Successive ids of a node increase strictly, whatever the clock does, and each carries its node. */
  lemma {:induction false} IdsIncrease(g: Generator, clock: seq<int>, n: nat)
    requires Proper(g)
    ensures IncreasingFrom(Ids(g, clock, n), Number(Stamp(g)))
    ensures OfNode(Ids(g, clock, n), g.datacenterId, g.workerId)
    decreases n
  {
    if n > 0 {
      var outcome, after, rest := FirstCall(g, clock, n);
      if outcome == StillWaiting {
      } else {
        IdsIncrease(after, rest, n - 1);
        if outcome.Id? {
          PutFirst(outcome.id, Ids(after, rest, n - 1), Number(Stamp(g)), after);
        }
      }
    }
  }

  /** All readings lie within 2^41 ms from the epoch on. */
  predicate WithinRange(clock: seq<int>) {
    forall i :: 0 <= i < |clock| ==> 0 <= clock[i] - EPOCH < TIME_LIMIT
  }

  /** The timestamp of a returned id is one of the readings, and the readings left are readings of the trace. */
  lemma StampIsReading(g: Generator, clock: seq<int>)
    requires Proper(g)
    ensures var (outcome, after, rest) := Generate(g, clock);
            && (outcome.Id? ==> after.lastTimestamp in clock)
            && (forall t :: t in rest ==> t in clock)
  {}

  lemma StampInRange(g: Generator)
    requires Proper(g) && 0 <= g.lastTimestamp - EPOCH < TIME_LIMIT
    ensures 0 <= Number(Stamp(g)) < ID_LIMIT
  {
    PackNumber(Stamp(g));
    PackRange(Stamp(g));
  }

  lemma FirstReading(g: Generator, clock: seq<int>, n: nat) returns (outcome: Outcome, after: Generator, rest: seq<int>)
    requires Proper(g) && n > 0 && WithinRange(clock)
    ensures Proper(after) && WithinRange(rest)
    ensures outcome.Id? ==> Ids(g, clock, n) == [outcome.id] + Ids(after, rest, n - 1) && 0 <= outcome.id < ID_LIMIT
    ensures !outcome.Id? ==> Ids(g, clock, n) == if outcome == StillWaiting then [] else Ids(after, rest, n - 1)
  {
    OneCall(g, clock);
    StampIsReading(g, clock);
    var call := Generate(g, clock);
    outcome, after, rest := call.0, call.1, call.2;
    if outcome.Id? {
      StampInRange(after);
    }
  }

  /** On every trace within that range, every id of a run is a non-negative 63-bit number. */
  lemma {:induction false} IdsInRange(g: Generator, clock: seq<int>, n: nat, i: int)
    requires Proper(g) && WithinRange(clock) && 0 <= i < |Ids(g, clock, n)|
    ensures 0 <= Ids(g, clock, n)[i] < ID_LIMIT
    decreases n
  {
    var outcome, after, rest := FirstReading(g, clock, n);
    if !outcome.Id? {
      IdsInRange(after, rest, n - 1, i);
    } else if i > 0 {
      IdsInRange(after, rest, n - 1, i - 1);
    }
  }

  /** The i-th id of a run parses back to its node. */
  lemma IdsParseToNode(g: Generator, clock: seq<int>, n: nat, i: int)
    requires Proper(g) && 0 <= i < |Ids(g, clock, n)|
    ensures Parse(Ids(g, clock, n)[i]).datacenterId == g.datacenterId
            && Parse(Ids(g, clock, n)[i]).workerId == g.workerId
  {
    IdsIncrease(g, clock, n);
    ParseFields(Ids(g, clock, n)[i]);
  }

  /** Nodes with different ids never produce the same id, on any two clocks. */
  lemma NodesNeverCollide(g: Generator, clock: seq<int>, n: nat, h: Generator, clock': seq<int>, n': nat, i: int,
                          k: int)
    requires Proper(g) && Proper(h) && (g.datacenterId != h.datacenterId || g.workerId != h.workerId)
    requires 0 <= i < |Ids(g, clock, n)| && 0 <= k < |Ids(h, clock', n')|
    ensures Ids(g, clock, n)[i] != Ids(h, clock', n')[k]
  {
    IdsIncrease(g, clock, n);
    IdsIncrease(h, clock', n');
  }
}
