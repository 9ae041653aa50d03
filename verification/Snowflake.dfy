/** Snowflake identifiers: signed 64-bit integers packed from a millisecond timestamp, a worker, a datacenter
    and a sequence number. Words are written as integers: a left shift multiplies and wraps, a right shift
    divides and rounds down, and masking the low k bits is the remainder by 2^k. */
module Snowflake {

  const WORD := 0x1_0000_0000_0000_0000
  const HALF_WORD := 0x8000_0000_0000_0000
  const MAX_SEQUENCE := 4095

  /** The first timestamp that no longer fits, 2^41. */
  const TIME_LIMIT := 0x200_0000_0000

  // ---------------------------------------------------------------- words

  function Pow2(k: nat): (p: nat)
    ensures p > 0
  {
    if k == 0 then 1 else 2 * Pow2(k - 1)
  }

  /** Bitwise or of two words. */
  function Or(a: nat, b: nat): nat {
    if a == 0 && b == 0 then 0
    else 2 * Or(a / 2, b / 2) + if a % 2 == 1 || b % 2 == 1 then 1 else 0
  }

  function ShiftLeft(x: int, k: nat): nat {
    (x * Pow2(k)) % WORD
  }

  /** The integer that a word stands for in two's complement. */
  function Signed(word: nat): int {
    if word < HALF_WORD then word else word - WORD
  }

  lemma PowersOfTwo()
    ensures Pow2(5) == 32 && Pow2(10) == 1024 && Pow2(12) == 4096 && Pow2(17) == 0x2_0000
    ensures Pow2(22) == 0x40_0000
  {
    assert Pow2(5) == 32;
    assert Pow2(10) == 32 * Pow2(5);
    assert Pow2(12) == 4 * Pow2(10) && Pow2(17) == 32 * Pow2(12) && Pow2(22) == 32 * Pow2(17);
  }

  lemma {:induction false} OrZero(a: nat)
    ensures Or(a, 0) == a && Or(0, a) == a
  {
    if a > 0 {
      OrZero(a / 2);
    }
  }

  /** Or is addition when one word lies below the lowest set bit of the other. */
  lemma {:induction false} OrDisjoint(a: nat, b: nat, k: nat)
    requires b < Pow2(k)
    ensures Or(a * Pow2(k), b) == a * Pow2(k) + b
  {
    if k == 0 {
      OrZero(a);
    } else {
      var x := a * Pow2(k - 1);
      assert a * Pow2(k) == 2 * x;
      OrDisjoint(a, b / 2, k - 1);
      assert (2 * x) / 2 == x && (2 * x) % 2 == 0;
    }
  }

  lemma OrUnfold(a: nat, b: nat)
    requires a % 2 == b % 2
    ensures Or(a, b) == 2 * Or(a / 2, b / 2) + a % 2
  {
  }

  /** `low` is the k lowest bits of a. */
  predicate LowBits(a: nat, low: nat, k: nat) {
    if k == 0 then low == 0 else low % 2 == a % 2 && LowBits(a / 2, low / 2, k - 1)
  }

  lemma {:induction false} RemainderIsLowBits(a: nat, k: nat)
    ensures LowBits(a, a % Pow2(k), k)
  {
    if k > 0 {
      HalfOfLowBits(a, k);
      RemainderIsLowBits(a / 2, k - 1);
    }
  }

  /** Bits that are already set stay as they are. */
  lemma {:induction false} OrAbsorbs(a: nat, low: nat, k: nat)
    requires LowBits(a, low, k)
    ensures Or(a, low) == a
    decreases k
  {
    if k == 0 {
      OrZero(a);
    } else {
      OrAbsorbs(a / 2, low / 2, k - 1);
      OrUnfold(a, low);
    }
  }

  lemma HalfOfLowBits(a: nat, k: nat)
    requires k > 0
    ensures (a % Pow2(k)) / 2 == (a / 2) % Pow2(k - 1) && (a % Pow2(k)) % 2 == a % 2
  {
    var p := Pow2(k - 1);
    var q, r := (a / 2) / p, (a / 2) % p;
    assert a == (2 * p) * q + (2 * r + a % 2);
    RemainderIs(a, 2 * p, q, 2 * r + a % 2);
  }

  lemma RemainderIs(a: int, m: int, q: int, r: int)
    requires a == m * q + r && 0 <= r < m
    ensures a % m == r && a / m == q
  {
    var p := a / m;
    assert m * (p - q) == m * p - m * q && m * (q - p) == m * q - m * p;
    if p > q {
      AtLeast(m, p - q);
    } else if p < q {
      AtLeast(m, q - p);
    }
  }

  lemma AtLeast(m: int, k: int)
    requires m > 0 && k >= 1
    ensures m * k >= m
  {
  }

  // ---------------------------------------------------------------- layout

  /** The worker and the datacenter, above a sequence of the configured width. */
  function Combined(worker: nat, datacenter: nat, sequenceBits: nat): nat {
    Or(ShiftLeft(worker, sequenceBits), ShiftLeft(datacenter, sequenceBits + 5))
  }

  /** The identifier: the timestamp always sits above 22 bits, whatever the configured width. */
  function Pack(timestamp: nat, combined: nat, sequence: nat): int {
    Signed(Or(Or(ShiftLeft(timestamp, 22), combined), sequence))
  }

  datatype Fields = Fields(timestamp: int, datacenter: nat, worker: nat, sequence: nat)

  function Parse(id: int): Fields {
    Fields(id / 0x40_0000, (id / 0x2_0000) % 32, (id / 4096) % 32, id % 4096)
  }

  predicate Validate(id: int) {
    id > 0
  }

  lemma CombinedIs(w: nat, d: nat)
    requires w <= 31 && d <= 31
    ensures Combined(w, d, 12) == w * 4096 + d * 0x2_0000
  {
    PowersOfTwo();
    assert ShiftLeft(w, 12) == w * 4096;
    assert ShiftLeft(d, 17) == d * 0x2_0000;
    OrComm(w * 4096, d * 0x2_0000);
    OrDisjoint(d, w * 4096, 17);
  }

  lemma {:induction false} OrComm(a: nat, b: nat)
    ensures Or(a, b) == Or(b, a)
    decreases a + b
  {
    if a + b > 0 {
      OrComm(a / 2, b / 2);
    }
  }

  /** The integer that the 42 bits left for a timestamp stand for. */
  function Wrapped(t: nat): int {
    var q := t % 0x400_0000_0000;
    if q < TIME_LIMIT then q else q - 0x400_0000_0000
  }

  lemma WrappedFits(t: nat)
    ensures Wrapped(t) == t <==> t < TIME_LIMIT
  {
  }

  function FieldSum(u: int, d: int, w: int, s: int): int {
    u * 0x40_0000 + d * 0x2_0000 + w * 4096 + s
  }

  /** The fields of an identifier add up, the timestamp wrapped to 42 bits. */
  lemma PackIs(t: nat, w: nat, d: nat, s: nat)
    requires w <= 31 && d <= 31 && s <= MAX_SEQUENCE
    ensures Pack(t, Combined(w, d, 12), s) == FieldSum(Wrapped(t), d, w, s)
  {
    var c, q := Combined(w, d, 12), t % 0x400_0000_0000;
    CombinedIs(w, d);
    BaseIs(t, c);
    SequenceIs(q * 1024 + d * 32 + w, s);
    SignedSum(q, d, w, s);
  }

  lemma SignedSum(q: nat, d: nat, w: nat, s: nat)
    requires q < 0x400_0000_0000 && w <= 31 && d <= 31 && s <= MAX_SEQUENCE
    ensures Signed(FieldSum(q, d, w, s))
      == FieldSum(if q < TIME_LIMIT then q else q - 0x400_0000_0000, d, w, s)
  {
  }

  /** The timestamp keeps its 42 low bits, above the worker bits. */
  lemma BaseIs(t: nat, c: nat)
    requires c < 0x40_0000
    ensures Or(ShiftLeft(t, 22), c) == (t % 0x400_0000_0000) * 0x40_0000 + c
  {
    PowersOfTwo();
    ShiftTimestamp(t);
    OrDisjoint(t % 0x400_0000_0000, c, 22);
  }

  lemma ShiftTimestamp(t: nat)
    ensures ShiftLeft(t, 22) == (t % 0x400_0000_0000) * 0x40_0000
  {
    PowersOfTwo();
    var q, r := t / 0x400_0000_0000, t % 0x400_0000_0000;
    RemainderIs(t * 0x40_0000, WORD, q, r * 0x40_0000);
  }

  lemma SequenceIs(high: nat, s: nat)
    requires s <= MAX_SEQUENCE
    ensures Or(high * 4096, s) == high * 4096 + s
  {
    PowersOfTwo();
    OrDisjoint(high, s, 12);
  }

  /** Parsing gives back the worker, the datacenter and the sequence that were packed, and the timestamp if
      and only if it is below 2^41. */
  lemma ParsePack(t: nat, w: nat, d: nat, s: nat)
    requires w <= 31 && d <= 31 && s <= MAX_SEQUENCE
    ensures var f := Parse(Pack(t, Combined(w, d, 12), s));
      f.worker == w && f.datacenter == d && f.sequence == s && (f.timestamp == t <==> t < TIME_LIMIT)
  {
    PackIs(t, w, d, s);
    FieldsOf(Wrapped(t), w, d, s);
    WrappedFits(t);
  }

  lemma FieldsOf(u: int, w: nat, d: nat, s: nat)
    requires w <= 31 && d <= 31 && s <= MAX_SEQUENCE
    ensures Parse(FieldSum(u, d, w, s)) == Fields(u, d, w, s)
  {
    var id := FieldSum(u, d, w, s);
    Digits(id, (u * 32 + d) * 32 + w, 4096, s);
    Digits(id, u * 32 + d, 0x2_0000, w * 4096 + s);
    Digits(id, u, 0x40_0000, d * 0x2_0000 + w * 4096 + s);
    Digits((u * 32 + d) * 32 + w, u * 32 + d, 32, w);
    Digits(u * 32 + d, u, 32, d);
  }

  lemma Digits(x: int, high: int, m: int, low: int)
    requires x == high * m + low && 0 <= low < m
    ensures x / m == high && x % m == low
  {
    RemainderIs(x, m, high, low);
  }

  /** Every 64-bit integer that is not negative is the packing of its own fields. */
  lemma PackParse(id: nat)
    requires id < HALF_WORD
    ensures var f := Parse(id);
      f.timestamp >= 0 && Pack(f.timestamp, Combined(f.worker, f.datacenter, 12), f.sequence) == id
  {
    FieldsAddUp(id);
    var f := Parse(id);
    PackOfFields(id, f.timestamp, f.datacenter, f.worker, f.sequence);
  }

  lemma PackOfFields(id: nat, t: nat, d: nat, w: nat, s: nat)
    requires id < HALF_WORD && w <= 31 && d <= 31 && s <= MAX_SEQUENCE && t < TIME_LIMIT
    requires id == FieldSum(t, d, w, s)
    ensures Pack(t, Combined(w, d, 12), s) == id
  {
    PackIs(t, w, d, s);
    WrappedFits(t);
  }

  lemma FieldsAddUp(id: nat)
    requires id < HALF_WORD
    ensures var f := Parse(id);
      && id == FieldSum(f.timestamp, f.datacenter, f.worker, f.sequence)
      && 0 <= f.timestamp < TIME_LIMIT
  {
    SplitAgain(id, 4096);
    SplitAgain(id, 0x2_0000);
  }

  lemma SplitAgain(x: nat, m: nat)
    requires m == 4096 || m == 0x2_0000
    ensures x / m == (x / (m * 32)) * 32 + (x / m) % 32
  {
  }

  /** An identifier is valid if and only if bit 41 of its timestamp is clear and it is not all zero. */
  lemma PackIsValid(t: nat, w: nat, d: nat, s: nat)
    requires w <= 31 && d <= 31 && s <= MAX_SEQUENCE
    ensures Validate(Pack(t, Combined(w, d, 12), s))
      <==> t % 0x400_0000_0000 < TIME_LIMIT && !(t % 0x400_0000_0000 == 0 && w == 0 && d == 0 && s == 0)
  {
    PackIs(t, w, d, s);
  }

  /** Identifiers of one millisecond are distinct. */
  ghost predicate DistinctInMillisecond(t: nat, c: nat) {
    forall s, s' :: 0 <= s < s' <= MAX_SEQUENCE ==> Pack(t, c, s) != Pack(t, c, s')
  }

  lemma DistinctIffAligned(t: nat, c: nat)
    requires c < 0x40_0000
    ensures DistinctInMillisecond(t, c) <==> c % 4096 == 0
  {
    var top := (t % 0x400_0000_0000) * 1024 + c / 4096;
    PackOver(t, c, 0);
    if c % 4096 == 0 {
      forall s, s' | 0 <= s < s' <= MAX_SEQUENCE ensures Pack(t, c, s) != Pack(t, c, s') {
        PackOver(t, c, s);
        PackOver(t, c, s');
      }
    } else {
      PackOver(t, c, c % 4096);
    }
  }

  /** A sequence lands on clear bits, or on bits that are already set. */
  lemma PackOver(t: nat, c: nat, s: nat)
    requires c < 0x40_0000 && s <= MAX_SEQUENCE && (c % 4096 == 0 || s == 0 || s == c % 4096)
    ensures var base := (t % 0x400_0000_0000) * 0x40_0000 + c;
      Pack(t, c, s) == Signed(if c % 4096 == 0 then base + s else base)
  {
    var q := t % 0x400_0000_0000;
    BaseIs(t, c);
    BaseLow(q, c);
    if c % 4096 == 0 {
      SequenceIs(q * 1024 + c / 4096, s);
    } else {
      OrSetBits(q * 0x40_0000 + c, s);
    }
  }

  lemma BaseLow(q: nat, c: nat)
    ensures (q * 0x40_0000 + c) % 4096 == c % 4096
    ensures c % 4096 == 0 ==> q * 0x40_0000 + c == (q * 1024 + c / 4096) * 4096
  {
  }

  lemma OrSetBits(base: nat, s: nat)
    requires s == 0 || s == base % 4096
    ensures Or(base, s) == base
  {
    PowersOfTwo();
    OrZero(base);
    RemainderIsLowBits(base, 12);
    OrAbsorbs(base, base % 4096, 12);
  }

  // ---------------------------------------------------------------- generating

  datatype Gen = Gen(timestamp: nat, combined: nat, sequence: nat)

  /** What one call reads from the clock: first `now`, and after a full millisecond `later`. */
  datatype Reading = Reading(now: nat, later: nat)

  predicate Full(g: Gen, now: nat) {
    now == g.timestamp && g.sequence + 1 > MAX_SEQUENCE
  }

  function After(g: Gen, r: Reading): Gen {
    if Full(g, r.now) then Gen(r.later, g.combined, 0)
    else if r.now == g.timestamp then g.(sequence := g.sequence + 1)
    else Gen(r.now, g.combined, 0)
  }

  function Id(g: Gen): int {
    Pack(g.timestamp, g.combined, g.sequence)
  }

  class Clock {
    const ticks: nat -> nat
    var next: nat

    constructor (ticks: nat -> nat)
      ensures this.ticks == ticks && next == 0
    {
      this.ticks := ticks;
      next := 0;
    }

    /** The clock never goes back, and always moves on eventually. */
    ghost predicate Runs() {
      && (forall i: nat, j: nat :: i <= j ==> ticks(i) <= ticks(j))
      && (forall i: nat :: MovesOn(i))
    }

    ghost predicate MovesOn(i: nat) {
      exists j: nat :: j > i && ticks(j) > ticks(i)
    }

    method Now() returns (t: nat)
      modifies this
      ensures t == ticks(old(next)) && next == old(next) + 1
    {
      t := ticks(next);
      next := next + 1;
    }

    /** Read until the clock has passed a time, then once more. */
    method SpinPast(now: nat) returns (later: nat)
      requires Runs() && next > 0 && now == ticks(next - 1)
      modifies this
      ensures next > old(next) && later == ticks(next - 1) && later > now
    {
      assert MovesOn(next - 1);
      ghost var wake: nat :| wake > next - 1 && ticks(wake) > now;
      var t := Now();
      while t <= now
        invariant next > old(next) && t == ticks(next - 1)
        invariant next <= wake + 1
        decreases wake + 1 - next
      {
        t := Now();
      }
      later := Now();
    }
  }

  datatype Settings = Settings(workerID: int, datacenterID: int, epoch: int, sequenceBits: nat)

  datatype Result<T> = Ok(value: T) | BadWorker | BadDatacenter | BadSequenceBits

  predicate InRange(x: int) {
    0 <= x <= 31
  }

  function Width(cfg: Settings): nat {
    if cfg.sequenceBits == 0 then 12 else cfg.sequenceBits
  }

  predicate Accepted(cfg: Settings) {
    InRange(cfg.workerID) && InRange(cfg.datacenterID) && cfg.sequenceBits <= 12
  }

  /** A new generator; the epoch of the settings is not used. */
  function New(cfg: Settings, started: nat): Gen
    requires Accepted(cfg)
  {
    Gen(started, Combined(cfg.workerID, cfg.datacenterID, Width(cfg)), 0)
  }

  method NewSnowflake(cfg: Settings, clock: Clock) returns (r: Result<Generator>)
    modifies clock
    ensures r.BadWorker? <==> !InRange(cfg.workerID)
    ensures r.BadDatacenter? <==> InRange(cfg.workerID) && !InRange(cfg.datacenterID)
    ensures r.BadSequenceBits? <==> InRange(cfg.workerID) && InRange(cfg.datacenterID) && cfg.sequenceBits > 12
    ensures r.Ok? ==> fresh(r.value) && r.value.seqBits == Width(cfg)
    ensures r.Ok? ==> r.value.seqBits == if cfg.sequenceBits == 0 then 12 else cfg.sequenceBits
    ensures r.Ok? ==> clock.next == old(clock.next) + 2
    ensures r.Ok? ==> r.value.State() == New(cfg, clock.ticks(clock.next - 1))
  {
    if cfg.workerID < 0 || cfg.workerID > 31 {
      return BadWorker;
    }
    if cfg.datacenterID < 0 || cfg.datacenterID > 31 {
      return BadDatacenter;
    }
    var bits := cfg.sequenceBits;
    if bits == 0 {
      bits := 12;
    }
    if bits > 12 {
      return BadSequenceBits;
    }
    var combined := Or(ShiftLeft(cfg.workerID, bits), ShiftLeft(cfg.datacenterID, bits + 5));
    var started := clock.Now();
    started := clock.Now();
    var g := new Generator(started, combined, bits);
    r := Ok(g);
  }

  class Generator {
    var timestamp: nat
    var workerID: nat
    var sequence: nat
    const seqBits: nat

    constructor (started: nat, combined: nat, bits: nat)
      ensures State() == Gen(started, combined, 0) && seqBits == bits
    {
      timestamp, workerID, sequence, seqBits := started, combined, 0, bits;
    }

    function State(): Gen
      reads this
    {
      Gen(timestamp, workerID, sequence)
    }

    /** The clock has not gone back behind this generator. */
    ghost predicate Follows(clock: Clock)
      reads this, clock
    {
      timestamp <= clock.ticks(clock.next)
    }

    method NextID(clock: Clock) returns (id: int, ghost r: Reading)
      requires clock.Runs() && Follows(clock)
      modifies this, clock
      ensures clock.next > old(clock.next) && clock.Runs() && Follows(clock)
      ensures id == Id(State()) && State() == After(old(State()), r)
      ensures r.now == clock.ticks(old(clock.next)) && r.later == clock.ticks(clock.next - 1)
      ensures Reads(old(State()), r)
      ensures !Full(old(State()), r.now) ==> clock.next == old(clock.next) + 1
      ensures timestamp == clock.ticks(clock.next - 1) && workerID == old(workerID)
      ensures sequence == if timestamp == old(timestamp) then old(sequence) + 1 else 0
    {
      var now := clock.Now();
      ghost var first := now;
      if now == timestamp {
        sequence := sequence + 1;
        if sequence > MAX_SEQUENCE {
          now := clock.SpinPast(now);
          timestamp := now;
          sequence := 0;
        }
      } else {
        timestamp := now;
        sequence := 0;
      }
      id := Signed(Or(Or(ShiftLeft(now, 22), workerID), sequence));
      r := Reading(first, now);
    }

    method WorkerID() returns (w: nat)
      ensures w == WorkerOf(workerID, seqBits)
    {
      w := (workerID / Pow2(seqBits)) % 32;
    }
  }

  function WorkerOf(combined: nat, sequenceBits: nat): nat {
    (combined / Pow2(sequenceBits)) % 32
  }

  lemma {:induction false} Pow2Grows(k: nat, n: nat)
    requires k <= n
    ensures Pow2(k) <= Pow2(n)
    decreases n - k
  {
    if k < n {
      Pow2Grows(k + 1, n);
    }
  }

  /** Whatever the width, a generator reports the worker it was configured with. */
  lemma WorkerIsReported(w: nat, d: nat, b: nat)
    requires w <= 31 && d <= 31 && b <= 12
    ensures WorkerOf(Combined(w, d, b), b) == w
  {
    var p := Pow2(b);
    CombinedAt(w, d, b, p);
    Digits(Combined(w, d, b), d * 32 + w, p, 0);
    Digits(d * 32 + w, d, 32, w);
  }

  lemma CombinedAt(w: nat, d: nat, b: nat, p: nat)
    requires w <= 31 && d <= 31 && b <= 12 && p == Pow2(b)
    ensures Combined(w, d, b) == (d * 32 + w) * p
  {
    PowersOfTwo();
    Pow2Grows(b, 12);
    ShiftSmall(w, b);
    ShiftSmall(d, b + 5);
    OrPlus(w * p, d, b + 5);
    Distribute(w, d, p);
  }

  lemma ShiftSmall(x: nat, k: nat)
    requires x <= 31 && Pow2(k) <= 0x2_0000
    ensures ShiftLeft(x, k) == x * Pow2(k) <= 31 * Pow2(k)
  {
    Product(x, Pow2(k));
  }

  lemma OrPlus(x: nat, d: nat, k: nat)
    requires x < Pow2(k)
    ensures Or(x, d * Pow2(k)) == d * Pow2(k) + x
  {
    OrComm(x, d * Pow2(k));
    OrDisjoint(d, x, k);
  }

  lemma Distribute(w: int, d: int, p: int)
    ensures (d * 32 + w) * p == d * (32 * p) + w * p
  {
  }

  /** With a sequence width below 12 the worker bits can cover sequence bits: the identifiers of one
      millisecond are distinct if and only if the shifted worker and datacenter leave the low 12 bits clear. */
  lemma DistinctIffWidthFits(t: nat, w: nat, d: nat, b: nat)
    requires w <= 31 && d <= 31 && b <= 12
    ensures DistinctInMillisecond(t, Combined(w, d, b)) <==> ((d * 32 + w) * Pow2(b)) % 4096 == 0
  {
    CombinedAt(w, d, b, Pow2(b));
    PowersOfTwo();
    Pow2Grows(b, 12);
    AtMostTimes(d * 32 + w, Pow2(b));
    DistinctIffAligned(t, Combined(w, d, b));
  }

  lemma AtMostTimes(x: nat, p: nat)
    requires x <= 1023 && p <= 4096
    ensures x * p < 0x40_0000
  {
    assert x * p <= 1023 * p;
  }

  lemma Product(x: nat, p: nat)
    requires x <= 31 && p <= 0x2_0000
    ensures x * p <= 31 * p < WORD && (x * p) % WORD == x * p
  {
  }

  // ---------------------------------------------------------------- runs

  /** The clock does not go back behind a generator, and after a full millisecond it has moved on. */
  predicate Reads(g: Gen, r: Reading) {
    g.timestamp <= r.now <= r.later && (Full(g, r.now) ==> r.now < r.later)
  }

  predicate CanRun(g: Gen, rs: seq<Reading>)
    decreases |rs|
  {
    rs == [] || (Reads(g, rs[0]) && CanRun(After(g, rs[0]), rs[1..]))
  }

  /** The states after each call of a run. */
  function States(g: Gen, rs: seq<Reading>): (gs: seq<Gen>)
    ensures |gs| == |rs|
    decreases |rs|
  {
    if rs == [] then [] else [After(g, rs[0])] + States(After(g, rs[0]), rs[1..])
  }

  predicate Before(g: Gen, h: Gen) {
    g.timestamp < h.timestamp || (g.timestamp == h.timestamp && g.sequence < h.sequence)
  }

  predicate Proper(g: Gen) {
    g.sequence <= MAX_SEQUENCE
  }

  /** Along a run, timestamp and sequence together only ever go up, and the sequence keeps to its bits. */
  lemma {:induction false} StatesAscend(g: Gen, rs: seq<Reading>)
    requires CanRun(g, rs) && Proper(g)
    ensures forall i :: 0 <= i < |rs| ==>
      var h := States(g, rs)[i]; Proper(h) && h.combined == g.combined && Before(g, h)
    ensures forall i, j :: 0 <= i < j < |rs| ==> Before(States(g, rs)[i], States(g, rs)[j])
    decreases |rs|
  {
    if rs != [] {
      var h := After(g, rs[0]);
      StatesAscend(h, rs[1..]);
      var later := States(h, rs[1..]);
      assert States(g, rs) == [h] + later;
      forall i, j | 0 <= i < j < |rs| ensures Before(States(g, rs)[i], States(g, rs)[j]) {
        assert States(g, rs)[j] == later[j - 1];
        assert i > 0 ==> States(g, rs)[i] == later[i - 1];
      }
    }
  }

  /** Identifiers of one generator compare as their wrapped timestamps and then their sequences do. */
  lemma IdsCompare(w: nat, d: nat, g: Gen, h: Gen)
    requires w <= 31 && d <= 31 && g.combined == Combined(w, d, 12) && h.combined == g.combined
    requires Proper(g) && Proper(h)
    ensures Id(g) < Id(h) <==>
      Wrapped(g.timestamp) < Wrapped(h.timestamp)
      || (Wrapped(g.timestamp) == Wrapped(h.timestamp) && g.sequence < h.sequence)
  {
    PackIs(g.timestamp, w, d, g.sequence);
    PackIs(h.timestamp, w, d, h.sequence);
    SumsCompare(Wrapped(g.timestamp), Wrapped(h.timestamp), d * 0x2_0000 + w * 4096, g.sequence, h.sequence);
  }

  lemma SumsCompare(u: int, v: int, c: nat, s: nat, s': nat)
    requires c <= 0x3F_F000 && s <= MAX_SEQUENCE && s' <= MAX_SEQUENCE
    ensures u * 0x40_0000 + c + s < v * 0x40_0000 + c + s' <==> u < v || (u == v && s < s')
  {
  }

  /** After a state whose timestamp fits, later states have greater identifiers exactly until 2^41; the next
      2^41 milliseconds give smaller ones. */
  lemma LaterIsGreater(w: nat, d: nat, g: Gen, h: Gen)
    requires w <= 31 && d <= 31 && g.combined == Combined(w, d, 12) && h.combined == g.combined
    requires Proper(g) && Proper(h) && Before(g, h) && g.timestamp < TIME_LIMIT
    ensures h.timestamp < TIME_LIMIT ==> Id(g) < Id(h)
    ensures TIME_LIMIT <= h.timestamp < 2 * TIME_LIMIT ==> Id(h) < 0 <= Id(g)
  {
    WrappedFits(g.timestamp);
    WrappedFits(h.timestamp);
    IdsCompare(w, d, g, h);
    PackIs(g.timestamp, w, d, g.sequence);
    PackIs(h.timestamp, w, d, h.sequence);
  }

  /** The identifiers of a run are positive and strictly increasing, as long as timestamps fit. */
  ghost predicate IdsAscend(g: Gen, rs: seq<Reading>) {
    && (forall i :: 0 <= i < |rs| && States(g, rs)[i].timestamp < TIME_LIMIT ==> 0 < Id(States(g, rs)[i]))
    && (forall i, j :: 0 <= i < j < |rs| && States(g, rs)[j].timestamp < TIME_LIMIT
          ==> Id(States(g, rs)[i]) < Id(States(g, rs)[j]))
  }

  /** Over every run of a generator with 12 sequence bits, on any clock that is positive and does not go back,
      identifiers are positive and strictly increasing up to 2^41; a full millisecond included. */
  lemma {:induction false} IdsIncrease(w: nat, d: nat, g: Gen, rs: seq<Reading>)
    requires w <= 31 && d <= 31 && g.combined == Combined(w, d, 12) && Proper(g) && g.timestamp > 0 && CanRun(g, rs)
    ensures IdsAscend(g, rs)
  {
    StatesAscend(g, rs);
    forall i | 0 <= i < |rs| && States(g, rs)[i].timestamp < TIME_LIMIT ensures 0 < Id(States(g, rs)[i]) {
      var h := States(g, rs)[i];
      assert Before(g, h);
      PackIs(h.timestamp, w, d, h.sequence);
      WrappedFits(h.timestamp);
    }
    forall i, j | 0 <= i < j < |rs| && States(g, rs)[j].timestamp < TIME_LIMIT
      ensures Id(States(g, rs)[i]) < Id(States(g, rs)[j])
    {
      LaterIsGreater(w, d, States(g, rs)[i], States(g, rs)[j]);
    }
  }

  ghost predicate NoSharedId(g: Gen, rs: seq<Reading>, g': Gen, rs': seq<Reading>) {
    forall i, j :: 0 <= i < |rs| && 0 <= j < |rs'| ==> Id(States(g, rs)[i]) != Id(States(g', rs')[j])
  }

  /** Two generators with different workers or datacenters never issue the same identifier, whatever their
      clocks. */
  lemma {:induction false} GeneratorsNeverCollide(
    w: nat, d: nat, g: Gen, rs: seq<Reading>, w': nat, d': nat, g': Gen, rs': seq<Reading>)
    requires w <= 31 && d <= 31 && g.combined == Combined(w, d, 12) && Proper(g) && CanRun(g, rs)
    requires w' <= 31 && d' <= 31 && g'.combined == Combined(w', d', 12) && Proper(g') && CanRun(g', rs')
    requires w != w' || d != d'
    ensures NoSharedId(g, rs, g', rs')
  {
    StatesAscend(g, rs);
    StatesAscend(g', rs');
    forall i, j | 0 <= i < |rs| && 0 <= j < |rs'| ensures Id(States(g, rs)[i]) != Id(States(g', rs')[j]) {
      var h, h' := States(g, rs)[i], States(g', rs')[j];
      ParsePack(h.timestamp, w, d, h.sequence);
      ParsePack(h'.timestamp, w', d', h'.sequence);
    }
  }

  // ---------------------------------------------------------------- what an identifier carries

  /** The timestamp of a call is the clock's reading: the first one, or the one after the wait if the calls before
      have used up the sequence of that millisecond. The sequence counts on within a millisecond and starts again
      at 0 in the next. */
  lemma {:induction false} StampIsReading(g: Gen, rs: seq<Reading>, i: nat)
    requires CanRun(g, rs) && Proper(g) && i < |rs|
    ensures var before, h := if i == 0 then g else States(g, rs)[i - 1], States(g, rs)[i];
      && h.timestamp ==
         (if rs[i].now == before.timestamp && before.sequence == 4095 then rs[i].later else rs[i].now)
      && h.sequence == (if h.timestamp == before.timestamp then before.sequence + 1 else 0)
    decreases |rs|
  {
    if i > 0 {
      var h := After(g, rs[0]);
      StampIsReading(h, rs[1..], i - 1);
      assert States(g, rs) == [h] + States(h, rs[1..]);
    }
  }

  /** Every identifier that a new generator issues, on any clock, carries the worker and the datacenter of its settings,
      the sequence of the call, and the timestamp wrapped to 42 bits. */
  lemma {:induction false} IssuedFields(cfg: Settings, started: nat, rs: seq<Reading>, i: nat)
    requires Accepted(cfg) && Width(cfg) == 12 && CanRun(New(cfg, started), rs) && i < |rs|
    ensures var h := States(New(cfg, started), rs)[i];
      Parse(Id(h)) == Fields(Wrapped(h.timestamp), cfg.datacenterID, cfg.workerID, h.sequence)
  {
    StatesAscend(New(cfg, started), rs);
    var h := States(New(cfg, started), rs)[i];
    PackIs(h.timestamp, cfg.workerID, cfg.datacenterID, h.sequence);
    FieldsOf(Wrapped(h.timestamp), cfg.workerID, cfg.datacenterID, h.sequence);
  }

  // ---------------------------------------------------------------- the epoch

  /** Parsed timestamps count from the configured epoch. */
  ghost predicate CountsFromEpoch(cfg: Settings)
    requires Accepted(cfg)
  {
    forall started: nat, rs: seq<Reading>, i: nat ::
      CanRun(New(cfg, started), rs) && i < |rs| && States(New(cfg, started), rs)[i].timestamp < TIME_LIMIT
      ==> Parse(Id(States(New(cfg, started), rs)[i])).timestamp
          == States(New(cfg, started), rs)[i].timestamp - cfg.epoch
  }

  /** The timestamp parsed from an identifier that fits is the clock's own. */
  lemma {:induction false} ParsedTimestamp(cfg: Settings, started: nat, rs: seq<Reading>, i: nat)
    requires Accepted(cfg) && Width(cfg) == 12 && CanRun(New(cfg, started), rs) && i < |rs|
    requires States(New(cfg, started), rs)[i].timestamp < TIME_LIMIT
    ensures Parse(Id(States(New(cfg, started), rs)[i])).timestamp == States(New(cfg, started), rs)[i].timestamp
  {
    StatesAscend(New(cfg, started), rs);
    var h := States(New(cfg, started), rs)[i];
    ParsePack(h.timestamp, cfg.workerID, cfg.datacenterID, h.sequence);
  }

  /** The configured epoch has no effect: identifiers of a generator with 12 sequence bits carry the time since
      that epoch if and only if the epoch is 0. */
  lemma EpochIsIgnored(cfg: Settings)
    requires Accepted(cfg) && Width(cfg) == 12
    ensures CountsFromEpoch(cfg) <==> cfg.epoch == 0
  {
    forall started: nat, rs: seq<Reading>, i: nat |
      CanRun(New(cfg, started), rs) && i < |rs| && States(New(cfg, started), rs)[i].timestamp < TIME_LIMIT
      ensures Parse(Id(States(New(cfg, started), rs)[i])).timestamp == States(New(cfg, started), rs)[i].timestamp
    {
      ParsedTimestamp(cfg, started, rs, i);
    }
    var once := [Reading(2, 2)];
    assert CanRun(New(cfg, 1), once);
    assert States(New(cfg, 1), once)[0] == After(New(cfg, 1), once[0]);
    assert CountsFromEpoch(cfg) ==> 2 == 2 - cfg.epoch;
  }
}
