/**
 Ordering of numbered audio packets on an unreliable connection
 (`AudioPacketManager` in src/audio/oboe.rs).

 The manager keeps one bit of each 32-bit counter as a wrap flag and compares
 the other bits. As coded the flag is bit 15, and removing it leaves bits 16 to
 31 in the comparison; `Bit31` is the same algorithm with the flag in the top bit.
 */
module AudioPackets {
  import opened Bytes

  datatype WrapBit = Bit15 | Bit31 {
    function Mask(): U32 {
      if Bit15? then 0x8000 else 0x8000_0000
    }

    /** All bits except the wrap bit. */
    function MaxCount(): U32 {
      0xFFFF_FFFF - Mask()
    }

    predicate IsSet(counter: U32) {
      if Bit15? then counter / 0x8000 % 2 == 1 else counter / 0x8000_0000 % 2 == 1
    }

    function Clear(counter: U32): (count: U32)
      ensures count <= MaxCount()
    {
      if IsSet(counter) then counter - Mask() else counter
    }

    /** The number of counters that the flag and the bits below it can tell apart. */
    function Window(): int {
      2 * Mask()
    }
  }

  datatype PacketStatus = Normal | PacketLoss(lost: U32) | Discard

  datatype Expected = Expected(count: U32, wrap: bool) {
    predicate Reachable(bit: WrapBit) {
      count <= bit.MaxCount() + 1
    }

    /** The counter expected next, when only the flag and the bits below it are in use. */
    function Position(bit: WrapBit): int {
      count + if wrap then bit.Mask() else 0
    }
  }

  function After(bit: WrapBit, count: U32, wrap: bool): (next: Expected)
    requires count <= bit.MaxCount()
    ensures next.Reachable(bit)
  {
    if count + 1 == bit.Mask() then Expected(0, !wrap) else Expected(count + 1, wrap)
  }

  /** The state and the verdict after one packet; the subtraction wraps as an unchecked build does. */
  function Check(bit: WrapBit, e: Expected, counter: U32): (result: (Expected, PacketStatus))
    ensures e.Reachable(bit) ==> result.0.Reachable(bit)
  {
    var wrap, count := bit.IsSet(counter), bit.Clear(counter);
    if e.wrap == wrap then
      if count == e.count then (After(bit, count, wrap), Normal)
      else if count < e.count then (e, Discard)
      else (After(bit, count, wrap), PacketLoss(count - e.count))
    else
      if count < e.count then
        (Expected(count + 1, wrap), PacketLoss((bit.MaxCount() - e.count + count) % TWO_TO_THE_32))
      else (e, Discard)
  }

  function Next(bit: WrapBit, e: Expected, counter: U32): Expected {
    Check(bit, e, counter).0
  }

  function Status(bit: WrapBit, e: Expected, counter: U32): PacketStatus {
    Check(bit, e, counter).1
  }

  predicate Accepts(bit: WrapBit, e: Expected, counter: U32) {
    !Status(bit, e, counter).Discard?
  }

  /** An overflow-checking build panics here instead of wrapping. */
  predicate Underflows(bit: WrapBit, e: Expected, counter: U32) {
    bit.IsSet(counter) != e.wrap && bit.Clear(counter) < e.count && bit.MaxCount() < e.count
  }

  const START := Expected(0, false)

  class AudioPacketManager {
    const WRAP_BIT := Bit15

    var expectedNextPacketCount: U32
    var expectedNextCounterWrapByte: bool

    function State(): Expected
      reads this
    {
      Expected(expectedNextPacketCount, expectedNextCounterWrapByte)
    }

    constructor ()
      ensures State() == START
    {
      expectedNextPacketCount, expectedNextCounterWrapByte := 0, false;
    }

    method CheckPacket(counter: U32) returns (status: PacketStatus)
      modifies this
      ensures (State(), status) == Check(Bit15, old(State()), counter)
    {
      var wrap := WRAP_BIT.IsSet(counter);
      var count := WRAP_BIT.Clear(counter);

      if expectedNextCounterWrapByte == wrap {
        if count < expectedNextPacketCount {
          return Discard;
        }
        var packetLoss := count - expectedNextPacketCount;
        var next := count + 1;
        if next == WRAP_BIT.Mask() {
          expectedNextPacketCount, expectedNextCounterWrapByte := 0, !expectedNextCounterWrapByte;
        } else {
          expectedNextPacketCount := next;
        }
        status := if packetLoss == 0 then Normal else PacketLoss(packetLoss);
      } else if count < expectedNextPacketCount {
        var packetLoss := (WRAP_BIT.MaxCount() - expectedNextPacketCount + count) % TWO_TO_THE_32;
        expectedNextPacketCount := count + 1;
        expectedNextCounterWrapByte := wrap;
        status := PacketLoss(packetLoss);
      } else {
        // Just assume that this is an old packet.
        status := Discard;
      }
    }
  }

  // ----- Serial number arithmetic -----

  /** "Less than" of section 3.2 of RFC 1982, for serial numbers below `window`. */
  predicate SerialLess(window: int, a: int, b: int) {
    || (a < b && b - a < window / 2)
    || (a > b && a - b > window / 2)
  }

  /** How far `counter` is ahead of `position`, modulo the window. */
  function Ahead(bit: WrapBit, e: Expected, counter: U32): (distance: nat)
    ensures distance < bit.Window()
  {
    var difference := counter - e.Position(bit);
    if bit.Bit15? then difference % 0x1_0000 else difference % 0x1_0000_0000
  }

  lemma InWindow(bit: WrapBit, e: Expected, counter: U32)
    requires e.count < bit.Mask() && counter < bit.Window()
    ensures bit.IsSet(counter) <==> counter >= bit.Mask()
    ensures Ahead(bit, e, counter) ==
              counter - e.Position(bit) + if counter < e.Position(bit) then bit.Window() else 0
  {
    match bit
    case Bit15 =>
    case Bit31 =>
  }

  /**
   On counters that fit the flag and the bits below it, the wrap-flag arithmetic
   is the serial number comparison: a packet is kept when it is the expected one
   or serially after it, the undefined distance of half a window is dropped, and
   the expected position becomes the successor of the packet kept.
   */
  lemma SerialArithmetic(bit: WrapBit, e: Expected, counter: U32)
    requires e.count < bit.Mask() && counter < bit.Window()
    ensures Accepts(bit, e, counter) <==> Ahead(bit, e, counter) < bit.Mask()
    ensures Accepts(bit, e, counter) <==>
              counter == e.Position(bit) || SerialLess(bit.Window(), e.Position(bit), counter)
    ensures Status(bit, e, counter) == Normal <==> counter == e.Position(bit)
    ensures Next(bit, e, counter).count < bit.Mask()
    ensures Next(bit, e, counter).Position(bit) ==
              if !Accepts(bit, e, counter) then e.Position(bit)
              else if counter + 1 == bit.Window() then 0
              else counter + 1
  {
    InWindow(bit, e, counter);
    match bit
    case Bit15 =>
    case Bit31 =>
  }

  /** The verdict crosses the wrap when the kept packet has the other flag. */
  predicate CrossesWrap(bit: WrapBit, e: Expected, counter: U32) {
    Accepts(bit, e, counter) && bit.IsSet(counter) != e.wrap
  }

  /**
   The loss reported for one packet is the number of missing packets, except
   that a loss seen across the wrap is misreported by a constant.
   */
  lemma ReportedLoss(bit: WrapBit, e: Expected, counter: U32)
    requires e.count < bit.Mask() && counter < bit.Window()
    requires Accepts(bit, e, counter)
    ensures var reported := if Status(bit, e, counter).PacketLoss? then Status(bit, e, counter).lost else 0;
            reported == Ahead(bit, e, counter) +
                        if CrossesWrap(bit, e, counter) then Misreported(bit, 1) else 0
    ensures !Underflows(bit, e, counter)
  {
    InWindow(bit, e, counter);
    match bit
    case Bit15 =>
    case Bit31 =>
  }

  /** What one run of arrivals adds up to. */
  datatype Tally = Tally(expected: Expected, accepted: nat, missing: nat, reported: int, crossings: nat)

  function Account(bit: WrapBit, e: Expected, counters: seq<U32>): Tally {
    if counters == [] then
      Tally(e, 0, 0, 0, 0)
    else
      Record(bit, Account(bit, e, counters[..|counters| - 1]), counters[|counters| - 1])
  }

  function Record(bit: WrapBit, t: Tally, counter: U32): Tally {
    var expected := Next(bit, t.expected, counter);
    match Status(bit, t.expected, counter)
    case Discard => t.(expected := expected)
    case Normal => t.(expected := expected, accepted := t.accepted + 1)
    case PacketLoss(lost) =>
      Tally(expected, t.accepted + 1, t.missing + Ahead(bit, t.expected, counter), t.reported + lost,
            t.crossings + if CrossesWrap(bit, t.expected, counter) then 1 else 0)
  }

  /**
   What `n` losses seen across the wrap are misreported by: `MAX_COUNT` less the
   wrap bit each time, which is one too few even when the flag is the top bit.
   */
  function Misreported(bit: WrapBit, n: nat): (error: int)
    ensures n == 1 ==> error == bit.MaxCount() - bit.Mask()
  {
    if bit.Bit15? then 0xFFFE_FFFF * n else 0 - n
  }

  /** Reduction modulo the window, written with constant divisors. */
  function Wrapped(bit: WrapBit, n: int): int {
    if bit.Bit15? then n % 0x1_0000 else n % 0x1_0000_0000
  }

  /** A run that started at position `start` adds up. */
  ghost predicate Accounted(bit: WrapBit, start: int, t: Tally) {
    && t.expected.count < bit.Mask()
    && t.expected.Position(bit) == Wrapped(bit, start + t.accepted + t.missing)
    && t.reported == t.missing + Misreported(bit, t.crossings)
  }

  /**
   Whole-run accounting: every number from the first expected one to the last is
   either an accepted packet or a missing one, and the total reported differs
   from the total missing by the same constant for each loss seen across the wrap.
   */
  lemma {:induction false} LossAccounting(bit: WrapBit, e: Expected, counters: seq<U32>)
    requires e.count < bit.Mask()
    requires forall i :: 0 <= i < |counters| ==> counters[i] < bit.Window()
    ensures Accounted(bit, e.Position(bit), Account(bit, e, counters))
  {
    if counters == [] {
      WrappedSmall(bit, e.Position(bit), 0);
    } else {
      var last := |counters| - 1;
      var front := counters[..last];
      LossAccounting(bit, e, front);
      AccountStep(bit, Account(bit, e, front), counters[last], e.Position(bit));
    }
  }

  lemma AccountStep(bit: WrapBit, t: Tally, counter: U32, start: int)
    requires counter < bit.Window() && Accounted(bit, start, t)
    ensures Accounted(bit, start, Record(bit, t, counter))
  {
    SerialArithmetic(bit, t.expected, counter);
    if Accepts(bit, t.expected, counter) {
      ReportedLoss(bit, t.expected, counter);
      AdvanceWrapped(bit, t.expected, counter, start + t.accepted + t.missing);
      assert Status(bit, t.expected, counter).Normal? ==> Ahead(bit, t.expected, counter) == 0;
    }
  }

  lemma AdvanceWrapped(bit: WrapBit, e: Expected, counter: U32, n: int)
    requires e.count < bit.Mask() && counter < bit.Window() && Accepts(bit, e, counter)
    requires e.Position(bit) == Wrapped(bit, n)
    ensures Next(bit, e, counter).Position(bit) == Wrapped(bit, n + 1 + Ahead(bit, e, counter))
  {
    SerialArithmetic(bit, e, counter);
    InWindow(bit, e, counter);
    var ahead := Ahead(bit, e, counter);
    WrappedSum(bit, n, 1 + ahead);
    assert e.Position(bit) + ahead == counter + if counter < e.Position(bit) then bit.Window() else 0;
    WrappedSmall(bit, counter, 1);
    if counter < e.Position(bit) {
      WrappedSum(bit, bit.Window(), counter + 1);
    }
  }

  lemma WrappedSum(bit: WrapBit, n: int, d: int)
    ensures Wrapped(bit, n + d) == Wrapped(bit, Wrapped(bit, n) + d)
  {
    match bit
    case Bit15 =>
      var r := n % 0x1_0000 + d;
      Remainder16(n, n / 0x1_0000, n % 0x1_0000);
      Remainder16(n + d, n / 0x1_0000 + r / 0x1_0000, r % 0x1_0000);
    case Bit31 =>
      var r := n % 0x1_0000_0000 + d;
      Remainder32(n + d, n / 0x1_0000_0000 + r / 0x1_0000_0000, r % 0x1_0000_0000);
  }

  lemma Remainder16(n: int, quotient: int, remainder: int)
    requires n == 0x1_0000 * quotient + remainder && 0 <= remainder < 0x1_0000
    ensures n % 0x1_0000 == remainder
  {
  }

  lemma Remainder32(n: int, quotient: int, remainder: int)
    requires n == 0x1_0000_0000 * quotient + remainder && 0 <= remainder < 0x1_0000_0000
    ensures n % 0x1_0000_0000 == remainder
  {
  }

  lemma WrappedSmall(bit: WrapBit, n: int, d: int)
    requires 0 <= n < bit.Window() && 0 <= d <= 1
    ensures Wrapped(bit, n + d) == if n + d == bit.Window() then 0 else n + d
    ensures Wrapped(bit, bit.Window()) == 0
  {
  }

  /** The count of lost packets is exact precisely when no loss was seen across the wrap. */
  lemma LossCountExact(bit: WrapBit, e: Expected, counters: seq<U32>)
    requires e.count < bit.Mask()
    requires forall i :: 0 <= i < |counters| ==> counters[i] < bit.Window()
    ensures var t := Account(bit, e, counters); t.reported == t.missing <==> t.crossings == 0
  {
    LossAccounting(bit, e, counters);
  }

  // ----- The sender's own counters, in order and without loss -----

  /** The state after the counters 0 to n - 1 arrived in order. */
  ghost function InOrder(n: nat): Expected
    requires n <= TWO_TO_THE_32
  {
    if n == 0 then START else Next(Bit15, InOrder(n - 1), n - 1)
  }

  ghost function InOrderClosed(n: nat): Expected
    requires n <= TWO_TO_THE_32
  {
    if n < 0x8000 then Expected(n, false)
    else if n < 0x1_0000 then Expected(n - 0x8000, true)
    else if n == 0x1_0000 then START
    else if n <= 0x1_8000 then Expected(n, false)
    else if n < 0x2_0000 || n % 0x1_0000 > 0x8000 then Expected(n - 0x8000, true)
    else Expected(n - n % 0x1_0000 - 0x8000, true)
  }

  /** The verdicts on the loss-free in-order run, for every 32-bit counter. */
  ghost function InOrderStatus(n: U32): PacketStatus {
    if n < 0x1_0000 then Normal
    else if n == 0x1_0000 then PacketLoss(0x1_0000)
    else if n == 0x1_8000 then PacketLoss(0xFFFE_FFFF)
    else if n < 0x2_0000 then Normal
    else if n % 0x1_0000 < 0x8000 then Discard
    else if n % 0x1_0000 == 0x8000 then PacketLoss(0x8000)
    else Normal
  }

  /** Bit 15 says which half of its block of 65536 a counter is in. */
  lemma Bit15Halves(n: U32)
    ensures Bit15.IsSet(n) <==> n % 0x1_0000 >= 0x8000
  {
    var q, r := n / 0x1_0000, n % 0x1_0000;
    assert n == 0x8000 * (2 * q) + r;
    assert n / 0x8000 == 2 * q + r / 0x8000;
  }

  lemma InOrderStep(n: U32)
    ensures Check(Bit15, InOrderClosed(n), n) == (InOrderClosed(n + 1), InOrderStatus(n))
  {
    Bit15Halves(n);
    var q, r := n / 0x1_0000, n % 0x1_0000;
    assert n == 0x1_0000 * q + r;
    if r == 0xFFFF {
      assert n + 1 == 0x1_0000 * (q + 1);
      assert (n + 1) % 0x1_0000 == 0;
    } else {
      assert n + 1 == 0x1_0000 * q + (r + 1);
      assert (n + 1) % 0x1_0000 == r + 1;
    }
  }

  lemma {:induction false} InOrderRun(n: nat)
    requires n <= TWO_TO_THE_32
    ensures InOrder(n) == InOrderClosed(n)
  {
    if n > 0 {
      InOrderRun(n - 1);
      InOrderStep(n - 1);
    }
  }

  /**
   The exact limits of the detector on a loss-free in-order run: the first 65536
   packets are all normal and packet 65536 is the first one reported as a loss;
   from packet 131072 on, the first half of every 65536 packets is thrown away.
   */
  lemma InOrderVerdicts(n: U32)
    ensures Status(Bit15, InOrder(n), n) == InOrderStatus(n)
    ensures !Underflows(Bit15, InOrder(n), n)
  {
    InOrderRun(n);
    InOrderStep(n);
    Bit15Halves(n);
  }

  /** Packet `n` of the loss-free in-order run is played. */
  ghost predicate KeptInOrder(n: U32) {
    Accepts(Bit15, InOrder(n), n)
  }

  /** A loss-free in-order run is played in full precisely when it has at most 131072 packets. */
  lemma InOrderKeepsAll(n: nat)
    requires n <= TWO_TO_THE_32
    ensures (forall i: U32 :: i < n ==> KeptInOrder(i)) <==> n <= 0x2_0000
  {
    hide InOrder, Status;
    if n > 0x2_0000 {
      var first: U32 :| first == 0x2_0000;
      InOrderVerdicts(first);
      assert !KeptInOrder(first);
    } else {
      forall i: U32 | i < n ensures KeptInOrder(i) {
        InOrderVerdicts(i);
      }
    }
  }

  /** After the last 32-bit counter the expected count has passed `MAX_COUNT`, so packet 0 underflows. */
  lemma InOrderWrapUnderflows(n: nat)
    requires n == TWO_TO_THE_32
    ensures Underflows(Bit15, InOrder(n), 0)
    ensures Check(Bit15, InOrder(n), 0) == (Expected(1, false), PacketLoss(0xFFFF_FFFF))
  {
    hide InOrder;
    InOrderRun(n);
  }

  /** With the flag in the top bit, the loss-free in-order run is normal for every 32-bit counter. */
  ghost function InOrderTopBit(n: nat): Expected
    requires n <= TWO_TO_THE_32
  {
    if n == 0 then START else Next(Bit31, InOrderTopBit(n - 1), n - 1)
  }

  lemma {:induction false} InOrderTopBitNormal(n: U32)
    ensures InOrderTopBit(n).count < Bit31.Mask() && InOrderTopBit(n).Position(Bit31) == n
    ensures Status(Bit31, InOrderTopBit(n), n) == Normal
  {
    if n > 0 {
      InOrderTopBitNormal(n - 1);
      SerialArithmetic(Bit31, InOrderTopBit(n - 1), n - 1);
    }
    SerialArithmetic(Bit31, InOrderTopBit(n), n);
  }

  // ----- Loss, duplication and reordering -----

  /**
   `e` expects the packet numbered `expected` of a stream of at most one window
   of packets. A packet is kept only if it is new, unless it is late by more
   than half a window, and then it is kept although it is old.
   */
  lemma LatePackets(bit: WrapBit, e: Expected, expected: nat, counter: U32)
    requires e.count < bit.Mask() && counter < bit.Window()
    requires expected <= bit.Window() && e.Position(bit) == Wrapped(bit, expected)
    ensures counter < expected ==> (Accepts(bit, e, counter) <==> expected - counter > bit.Mask())
    ensures counter >= expected ==> (Accepts(bit, e, counter) <==> counter - expected < bit.Mask())
    ensures Accepts(bit, e, counter) ==> Next(bit, e, counter).Position(bit) == Wrapped(bit, counter + 1)
    ensures !Accepts(bit, e, counter) ==> Next(bit, e, counter) == e
  {
    SerialArithmetic(bit, e, counter);
    InWindow(bit, e, counter);
    WrappedSmall(bit, counter, 1);
    if expected < bit.Window() {
      WrappedSmall(bit, expected, 0);
    }
  }

  /** The state after a whole run of arrivals. */
  function AfterAll(bit: WrapBit, e: Expected, counters: seq<U32>): Expected {
    if counters == [] then e
    else Next(bit, AfterAll(bit, e, counters[..|counters| - 1]), counters[|counters| - 1])
  }

  /** The positions of the packets that a run of arrivals keeps. */
  function Kept(bit: WrapBit, e: Expected, counters: seq<U32>): (kept: seq<nat>)
    ensures forall k :: 0 <= k < |kept| ==> kept[k] < |counters|
    ensures forall k, m :: 0 <= k < m < |kept| ==> kept[k] < kept[m]
  {
    if counters == [] then []
    else
      var last := |counters| - 1;
      var before := Kept(bit, e, counters[..last]);
      if Accepts(bit, AfterAll(bit, e, counters[..last]), counters[last]) then before + [last] else before
  }

  /** The number after the last one kept, without wrapping. */
  function ExpectedNumber(bit: WrapBit, counters: seq<U32>): (number: nat)
    ensures number <= TWO_TO_THE_32
    ensures (forall i :: 0 <= i < |counters| ==> counters[i] < bit.Window()) ==> number <= bit.Window()
  {
    var kept := Kept(bit, START, counters);
    if kept == [] then 0
    else
      var last: int := counters[kept[|kept| - 1]];
      last + 1
  }

  ghost predicate IncreasingNumbers(counters: seq<U32>, kept: seq<nat>)
    requires forall k :: 0 <= k < |kept| ==> kept[k] < |counters|
  {
    forall k, m :: 0 <= k < m < |kept| ==> counters[kept[k]] < counters[kept[m]]
  }

  // ----- Exactly when the numbers kept increase -----

  /**
   An old packet that is kept all the same, where `expected` follows the newest one
   kept: in the same window when it is late by more than half of it, and in an
   earlier one whenever its flag is the other one.
   */
  predicate Stale(bit: WrapBit, expected: nat, counter: U32)
    requires expected <= TWO_TO_THE_32
  {
    && counter < expected
    && if (expected - 1) / bit.Window() == counter / bit.Window() then expected - counter > bit.Mask()
       else bit.IsSet(expected - 1) != bit.IsSet(counter)
  }

  ghost predicate NeverStale(bit: WrapBit, counters: seq<U32>) {
    forall n :: 0 <= n < |counters| ==> !Stale(bit, ExpectedNumber(bit, counters[..n]), counters[n])
  }

  /** The state that an increasing run leaves behind. */
  function StateFor(bit: WrapBit, expected: nat): Expected
    requires expected <= TWO_TO_THE_32
  {
    if expected == 0 then START else After(bit, bit.Clear(expected - 1), bit.IsSet(expected - 1))
  }

  lemma WindowOf(bit: WrapBit, n: U32)
    ensures bit.Bit15? ==> n / bit.Window() == n / 0x1_0000 && (bit.IsSet(n) <==> n % 0x1_0000 >= 0x8000)
    ensures bit.Bit31? ==> n / bit.Window() == 0 && (bit.IsSet(n) <==> n >= bit.Mask())
  {
    if bit.Bit15? {
      Bit15Halves(n);
    }
  }

  lemma OldPackets(bit: WrapBit, expected: nat, counter: U32)
    requires counter < expected <= TWO_TO_THE_32
    ensures Accepts(bit, StateFor(bit, expected), counter) <==> Stale(bit, expected, counter)
  {
    WindowOf(bit, counter);
    WindowOf(bit, expected - 1);
  }

  lemma NewPackets(bit: WrapBit, expected: nat, counter: U32)
    requires expected <= counter
    ensures Accepts(bit, StateFor(bit, expected), counter) ==>
              Next(bit, StateFor(bit, expected), counter) == StateFor(bit, counter + 1)
  {
    WindowOf(bit, counter);
    if expected > 0 {
      WindowOf(bit, expected - 1);
    }
  }

  lemma KeptSnoc(bit: WrapBit, front: seq<U32>, counter: U32)
    ensures var counters := front + [counter];
            var e, before := AfterAll(bit, START, front), Kept(bit, START, front);
            && AfterAll(bit, START, counters) == Next(bit, e, counter)
            && Kept(bit, START, counters) == if Accepts(bit, e, counter) then before + [|front|] else before
  {
    assert (front + [counter])[..|front|] == front;
  }

  lemma ExpectedSnoc(bit: WrapBit, front: seq<U32>, counter: U32)
    ensures ExpectedNumber(bit, front + [counter]) ==
              if Accepts(bit, AfterAll(bit, START, front), counter) then counter as int + 1 else ExpectedNumber(bit, front)
  {
    hide AfterAll, Kept, Accepts, Check;
    KeptSnoc(bit, front, counter);
  }

  /** One more packet: the numbers still increase if it is not kept, or newer than all kept before. */
  lemma IncreasingSnoc(front: seq<U32>, before: seq<nat>, counter: U32, keep: bool)
    requires forall k :: 0 <= k < |before| ==> before[k] < |front|
    ensures IncreasingNumbers(front + [counter], if keep then before + [|front|] else before) <==>
            && IncreasingNumbers(front, before)
            && (keep && before != [] ==> front[before[|before| - 1]] < counter)
  {
    var counters, kept := front + [counter], if keep then before + [|front|] else before;
    if IncreasingNumbers(front, before) && (keep && before != [] ==> front[before[|before| - 1]] < counter) {
      forall k, m | 0 <= k < m < |kept| ensures counters[kept[k]] < counters[kept[m]] {
        if m == |before| && k < m - 1 {
          assert front[before[k]] < front[before[m - 1]];
        }
      }
    }
    if IncreasingNumbers(counters, kept) {
      forall k, m | 0 <= k < m < |before| ensures front[before[k]] < front[before[m]] {
        assert counters[kept[k]] < counters[kept[m]];
      }
      if keep && before != [] {
        assert counters[kept[|before| - 1]] < counters[kept[|before|]];
      }
    }
  }

  lemma NeverStaleSnoc(bit: WrapBit, front: seq<U32>, counter: U32)
    ensures NeverStale(bit, front + [counter]) <==>
            NeverStale(bit, front) && !Stale(bit, ExpectedNumber(bit, front), counter)
  {
    hide ExpectedNumber, Stale;
    var counters := front + [counter];
    assert forall n :: 0 <= n < |front| ==> counters[..n] == front[..n] && counters[n] == front[n];
    assert counters[..|front|] == front && counters[|front|] == counter;
    if NeverStale(bit, counters) {
      forall n | 0 <= n < |front| ensures !Stale(bit, ExpectedNumber(bit, front[..n]), front[n]) {
        assert !Stale(bit, ExpectedNumber(bit, counters[..n]), counters[n]);
      }
    }
  }

  /** The newest packet kept, if there is one, is the one before the expected number. */
  lemma NewestKept(bit: WrapBit, counters: seq<U32>)
    ensures var kept, expected := Kept(bit, START, counters), ExpectedNumber(bit, counters);
            if kept == [] then expected == 0 else counters[kept[|kept| - 1]] as int + 1 == expected
  {
  }

  lemma StaleStep(bit: WrapBit, front: seq<U32>, counter: U32)
    requires AfterAll(bit, START, front) == StateFor(bit, ExpectedNumber(bit, front))
    requires IncreasingNumbers(front, Kept(bit, START, front))
    ensures var counters := front + [counter];
            var increasing := IncreasingNumbers(counters, Kept(bit, START, counters));
            && (increasing <==> !Stale(bit, ExpectedNumber(bit, front), counter))
            && (increasing ==> AfterAll(bit, START, counters) == StateFor(bit, ExpectedNumber(bit, counters)))
  {
    hide *;
    var e, expected := AfterAll(bit, START, front), ExpectedNumber(bit, front);
    KeptSnoc(bit, front, counter);
    ExpectedSnoc(bit, front, counter);
    NewestKept(bit, front);
    IncreasingSnoc(front, Kept(bit, START, front), counter, Accepts(bit, e, counter));
    NotKept(bit, e, counter);
    if counter < expected {
      OldPackets(bit, expected, counter);
    } else {
      NewPackets(bit, expected, counter);
      NotStale(bit, expected, counter);
    }
  }

  lemma NotKept(bit: WrapBit, e: Expected, counter: U32)
    ensures !Accepts(bit, e, counter) ==> Next(bit, e, counter) == e
  {
  }

  lemma NotStale(bit: WrapBit, expected: nat, counter: U32)
    requires expected <= counter
    ensures !Stale(bit, expected, counter)
  {
  }

  /**
   For all 32-bit counters, under any loss, duplication and reordering: the numbers
   of the packets kept strictly increase if and only if no packet arrives stale.
   */
  lemma {:induction false} IncreasingExactly(bit: WrapBit, counters: seq<U32>)
    ensures IncreasingNumbers(counters, Kept(bit, START, counters)) <==> NeverStale(bit, counters)
    ensures NeverStale(bit, counters) ==>
              AfterAll(bit, START, counters) == StateFor(bit, ExpectedNumber(bit, counters))
  {
    hide Kept, AfterAll, IncreasingNumbers, NeverStale, StateFor, Stale, ExpectedNumber, Accepts;
    if counters == [] {
      NothingArrived(bit);
    } else {
      var front, counter := counters[..|counters| - 1], counters[|counters| - 1];
      assert counters == front + [counter];
      IncreasingExactly(bit, front);
      NeverStaleSnoc(bit, front, counter);
      if NeverStale(bit, front) {
        StaleStep(bit, front, counter);
      } else {
        KeptSnoc(bit, front, counter);
        IncreasingSnoc(front, Kept(bit, START, front), counter, Accepts(bit, AfterAll(bit, START, front), counter));
      }
    }
  }

  lemma NothingArrived(bit: WrapBit)
    ensures IncreasingNumbers([], Kept(bit, START, [])) && NeverStale(bit, [])
    ensures AfterAll(bit, START, []) == StateFor(bit, ExpectedNumber(bit, []))
  {
  }

  /** At the edge of a window, two neighbours that have changed places are both kept. */
  lemma NeighboursSwapped()
    ensures Kept(Bit15, START, [0x1_0000, 0xFFFF]) == [0, 1]
    ensures !NeverStale(Bit15, [0x1_0000, 0xFFFF])
  {
    hide Kept, AfterAll, NeverStale, ExpectedNumber, IncreasingNumbers;
    var first: U32, second: U32 := 0x1_0000, 0xFFFF;
    assert [] + [first] == [first] && [first] + [second] == [first, second];
    NothingKept(Bit15);
    KeptSnoc(Bit15, [], first);
    KeptSnoc(Bit15, [first], second);
    IncreasingExactly(Bit15, [first, second]);
    NotIncreasing([first, second], [0, 1]);
  }

  lemma NothingKept(bit: WrapBit)
    ensures Kept(bit, START, []) == [] && AfterAll(bit, START, []) == START
  {
  }

  lemma NotIncreasing(counters: seq<U32>, kept: seq<nat>)
    requires |counters| == 2 && kept == [0, 1] && counters[0] > counters[1]
    ensures !IncreasingNumbers(counters, kept)
  {
    assert counters[kept[0]] > counters[kept[1]];
  }

  // ----- Within one window -----

  ghost predicate InOneWindow(bit: WrapBit, counters: seq<U32>) {
    forall i :: 0 <= i < |counters| ==> counters[i] < bit.Window()
  }

  /** Every packet is at most half a window behind the expected number when it arrives. */
  ghost predicate LateAtMost(bit: WrapBit, counters: seq<U32>) {
    && InOneWindow(bit, counters)
    && forall n :: 0 <= n < |counters| ==> ExpectedNumber(bit, counters[..n]) - counters[n] <= bit.Mask()
  }

  lemma StaleIsLate(bit: WrapBit, expected: nat, counter: U32)
    requires expected <= bit.Window() && counter < bit.Window()
    ensures Stale(bit, expected, counter) <==> expected - counter > bit.Mask()
  {
    WindowOf(bit, counter);
    if expected > 0 {
      WindowOf(bit, expected - 1);
    }
  }

  /** Within one window the numbers kept increase if and only if no packet is late by more than half of it. */
  lemma LateExactly(bit: WrapBit, counters: seq<U32>)
    requires InOneWindow(bit, counters)
    ensures NeverStale(bit, counters) <==> LateAtMost(bit, counters)
    ensures IncreasingNumbers(counters, Kept(bit, START, counters)) <==> LateAtMost(bit, counters)
  {
    hide ExpectedNumber, Stale, IncreasingNumbers;
    IncreasingExactly(bit, counters);
    forall n | 0 <= n < |counters|
      ensures Stale(bit, ExpectedNumber(bit, counters[..n]), counters[n]) <==>
              ExpectedNumber(bit, counters[..n]) - counters[n] > bit.Mask()
    {
      StaleIsLate(bit, ExpectedNumber(bit, counters[..n]), counters[n]);
    }
  }

  /** The manager's state names the packet after the last one kept, and the numbers kept increase. */
  ghost predicate Tracks(bit: WrapBit, counters: seq<U32>) {
    var e, expected := AfterAll(bit, START, counters), ExpectedNumber(bit, counters);
    && e.count < bit.Mask()
    && expected <= bit.Window()
    && e.Position(bit) == Wrapped(bit, expected)
    && IncreasingNumbers(counters, Kept(bit, START, counters))
  }

  lemma StateInWindow(bit: WrapBit, expected: nat)
    requires expected <= bit.Window()
    ensures StateFor(bit, expected).count < bit.Mask()
    ensures StateFor(bit, expected).Position(bit) == Wrapped(bit, expected)
  {
    if expected > 0 {
      WindowOf(bit, expected - 1);
      WrappedSmall(bit, expected - 1, 1);
    } else {
      WrappedSmall(bit, 0, 0);
    }
  }

  lemma LateTracks(bit: WrapBit, counters: seq<U32>)
    requires LateAtMost(bit, counters)
    ensures Tracks(bit, counters)
  {
    hide AfterAll, Kept, IncreasingNumbers, StateFor;
    LateExactly(bit, counters);
    IncreasingExactly(bit, counters);
    StateInWindow(bit, ExpectedNumber(bit, counters));
  }

  /**
   Under any loss, duplication and reordering in which no packet is more than half a
   window behind the expected number, the numbers kept strictly increase, and a packet
   is kept exactly when its number is new and less than half a window ahead.
   */
  lemma KeptIncreasing(bit: WrapBit, counters: seq<U32>)
    requires LateAtMost(bit, counters)
    ensures Tracks(bit, counters)
    ensures counters != [] ==>
              var last := |counters| - 1;
              var expected := ExpectedNumber(bit, counters[..last]);
              var isNew := expected <= counters[last] < expected + bit.Mask();
              Kept(bit, START, counters) == Kept(bit, START, counters[..last]) + if isNew then [last] else []
  {
    hide Kept, AfterAll, ExpectedNumber, IncreasingNumbers, Wrapped, Check;
    LateTracks(bit, counters);
    if counters != [] {
      var last := |counters| - 1;
      var front := counters[..last];
      assert counters == front + [counters[last]];
      LateEarlier(bit, front, counters[last]);
      LateTracks(bit, front);
      KeptSnoc(bit, front, counters[last]);
      LatePackets(bit, AfterAll(bit, START, front), ExpectedNumber(bit, front), counters[last]);
    }
  }

  lemma LateEarlier(bit: WrapBit, front: seq<U32>, counter: U32)
    requires LateAtMost(bit, front + [counter])
    ensures LateAtMost(bit, front)
    ensures ExpectedNumber(bit, front) - counter <= bit.Mask() && counter < bit.Window()
  {
    hide ExpectedNumber;
    var counters := front + [counter];
    assert counters[..|front|] == front && counters[|front|] == counter;
    forall n | 0 <= n < |front|
      ensures front[n] < bit.Window() && ExpectedNumber(bit, front[..n]) - front[n] <= bit.Mask()
    {
      assert counters[..n] == front[..n] && counters[n] == front[n];
    }
  }

  /** No packet arrives half a window or more after a later-numbered one, kept or not. */
  ghost predicate BoundedDelay(bit: WrapBit, counters: seq<U32>) {
    && InOneWindow(bit, counters)
    && forall i, j :: 0 <= i < j < |counters| ==> counters[i] - counters[j] < bit.Mask()
  }

  /** A bound on the delay between any two packets bounds how late each one is. */
  lemma BoundedIsLate(bit: WrapBit, counters: seq<U32>)
    requires BoundedDelay(bit, counters)
    ensures LateAtMost(bit, counters)
  {
    hide Kept;
    forall n | 0 <= n < |counters| ensures ExpectedNumber(bit, counters[..n]) - counters[n] <= bit.Mask() {
      var front := counters[..n];
      var before := Kept(bit, START, front);
      if before != [] {
        var newest := before[|before| - 1];
        assert counters[newest] == front[newest];
        assert counters[newest] - counters[n] < bit.Mask();
      }
    }
  }
}
