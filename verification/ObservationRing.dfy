/**
 The observation-ring loader of `examples/bulk_storage_bench.rs`: a program that
 reads the ring's cardinality out of slot 0 and then returns the whole ring.
 How many turns its loop takes depends on storage, not on calldata.
 */
module ObservationRing {
  import opened Words
  import opened Evm
  import Extractor

  // Cardinality and counter; exit test; load and store; advance; return.
  const SETUP: Bytes := [0x5f, 0x54, 0x60, 0xc8, 0x1c, 0x61, 0xff, 0xff, 0x16, 0x5f]
  const TEST: Bytes := [0x5b, 0x81, 0x81, 0x14, 0x60, 0x21, 0x57]
  const LOAD: Bytes := [0x80, 0x60, 0x08, 0x01, 0x54, 0x81, 0x60, 0x05, 0x1b, 0x52]
  const NEXT: Bytes := [0x60, 0x01, 0x01, 0x60, 0x0a, 0x56]
  const LEAVE: Bytes := [0x5b, 0x50, 0x60, 0x05, 0x1b, 0x5f, 0xf3]

  /** `OBSERVATION_RING_PROGRAM`. */
  const RING: Bytes := SETUP + TEST + LOAD + NEXT + LEAVE

  const FIRST_SLOT := 8

  /** Bits 200 to 215 of slot 0. */
  function Cardinality(slot0: Word): (n: nat)
    ensures n < 65536
  {
    slot0 / Pow2(200) % 65536
  }

  /** The slots of the ring. */
  function RingSlots(n: nat): (slots: seq<Word>)
    requires n <= 65536
    ensures |slots| == n && forall i :: 0 <= i < n ==> slots[i] == FIRST_SLOT + i
  {
    seq(n, i requires 0 <= i < n => FIRST_SLOT + i)
  }

  // ----- Shifts and masks -----

  lemma DivTwice(v: nat, p: nat)
    requires p > 0
    ensures v / 2 / p == v / (2 * p)
  {
    var q, r := v / 2 / p, v / 2 % p;
    assert v / 2 == p * q + r;
    assert v == (2 * p) * q + (2 * r + v % 2) by {
      assert 2 * (p * q) == (2 * p) * q;
    }
    DivUnique(v, 2 * p, q, 2 * r + v % 2);
  }

  lemma DivUnique(v: nat, d: nat, q: nat, r: nat)
    requires d > 0 && v == d * q + r && r < d
    ensures v / d == q
  {
    var q', r' := v / d, v % d;
    assert d * q + r == d * q' + r';
    if q < q' {
      ScaledGap(d, q, q');
    } else if q' < q {
      ScaledGap(d, q', q);
    }
  }

  lemma {:induction false} HalvedDivides(v: nat, n: nat)
    ensures Halved(v, n) == v / Pow2(n)
    decreases n
  {
    if n == 0 {
    } else {
      HalvedDivides(v / 2, n - 1);
      DivTwice(v, Pow2(n - 1));
    }
  }

  /** Masking with n ones keeps the n low bits. */
  lemma {:induction false} MaskIsModulo(n: nat, x: nat)
    ensures BitAnd(Pow2(n) - 1, x) == x % Pow2(n)
    decreases n
  {
    if n == 0 {
      assert x % 1 == 0;
    } else {
      var p := Pow2(n - 1);
      MaskIsModulo(n - 1, x / 2);
      assert (2 * p - 1) / 2 == p - 1 && (2 * p - 1) % 2 == 1;
      LowBits(x, p);
    }
  }

  lemma LowBits(x: nat, p: nat)
    requires p > 0
    ensures x % (2 * p) == 2 * (x / 2 % p) + x % 2
  {
    var q, r := x / 2 / p, x / 2 % p;
    assert x / 2 == p * q + r;
    assert x == (2 * p) * q + (2 * r + x % 2) by {
      assert 2 * (p * q) == (2 * p) * q;
    }
    DivUnique(x, 2 * p, q, 2 * r + x % 2);
  }

  lemma CardinalityOnStack(slot0: Word)
    ensures BitAnd(65535, ShiftRight(200, slot0)) == Cardinality(slot0)
  {
    HalvedDivides(slot0, 200);
    assert Pow2(8) == 256 && Pow2(16) == 65536;
    MaskIsModulo(16, slot0 / Pow2(200));
  }

  lemma ShiftByFive(i: Word)
    requires i <= 65536
    ensures ShiftLeft(5, i) == 32 * i
  {
    assert Pow2(5) == 32;
  }

  // ----- The program, piece by piece -----

  predicate IsEntry(code: Bytes) {
    && |code| == 40
    && code[0] == 0x5f && code[1] == 0x54 && code[2] == 0x60 && code[3] == 0xc8 && code[4] == 0x1c
    && code[5] == 0x61 && code[6] == 0xff && code[7] == 0xff && code[8] == 0x16 && code[9] == 0x5f
  }

  predicate IsBody(code: Bytes) {
    && |code| == 40
    && code[10] == 0x5b && code[11] == 0x81 && code[12] == 0x81 && code[13] == 0x14
    && code[14] == 0x60 && code[15] == 33 && code[16] == 0x57
    && code[17] == 0x80 && code[18] == 0x60 && code[19] == 8 && code[20] == 0x01 && code[21] == 0x54
    && code[22] == 0x81 && code[23] == 0x60 && code[24] == 5 && code[25] == 0x1b && code[26] == 0x52
    && code[27] == 0x60 && code[28] == 1 && code[29] == 0x01 && code[30] == 0x60 && code[31] == 10 && code[32] == 0x56
    && code[33] == 0x5b
  }

  predicate IsLoop(code: Bytes) {
    IsBody(code) && ValidTarget(code, 10) && ValidTarget(code, 33)
  }

  predicate IsTail(code: Bytes) {
    && |code| == 40
    && code[33] == 0x5b && code[34] == 0x50 && code[35] == 0x60 && code[36] == 5 && code[37] == 0x1b
    && code[38] == 0x5f && code[39] == 0xf3
  }

  lemma Hop(code: Bytes, at: nat, next: nat, dest: nat)
    requires at < dest && at < |code| && next == at + 1 + ImmediateWidth(code[at]) && StartsInstr(code, next, dest)
    ensures StartsInstr(code, at, dest)
  {
  }

  /** Both jump targets start an instruction. */
  lemma EntryHops(code: Bytes, dest: nat)
    requires IsEntry(code) && dest >= 10 && StartsInstr(code, 10, dest)
    ensures StartsInstr(code, 0, dest)
  {
    Hop(code, 9, 10, dest);
    Hop(code, 8, 9, dest);
    Hop(code, 5, 8, dest);
    Hop(code, 4, 5, dest);
    Hop(code, 2, 4, dest);
    Hop(code, 1, 2, dest);
    Hop(code, 0, 1, dest);
  }

  lemma BodyHops(code: Bytes)
    requires IsBody(code)
    ensures StartsInstr(code, 10, 33)
  {
    Hop(code, 32, 33, 33);
    Hop(code, 30, 32, 33);
    Hop(code, 29, 30, 33);
    Hop(code, 27, 29, 33);
    Hop(code, 26, 27, 33);
    Hop(code, 25, 26, 33);
    Hop(code, 23, 25, 33);
    Hop(code, 22, 23, 33);
    Hop(code, 21, 22, 33);
    LoadHops(code);
  }

  lemma LoadHops(code: Bytes)
    requires IsBody(code) && StartsInstr(code, 21, 33)
    ensures StartsInstr(code, 10, 33)
  {
    Hop(code, 20, 21, 33);
    Hop(code, 18, 20, 33);
    Hop(code, 17, 18, 33);
    Hop(code, 16, 17, 33);
    Hop(code, 14, 16, 33);
    Hop(code, 13, 14, 33);
    Hop(code, 12, 13, 33);
    Hop(code, 11, 12, 33);
    Hop(code, 10, 11, 33);
  }

  lemma RingIsLoop(code: Bytes)
    requires IsEntry(code) && IsBody(code)
    ensures IsLoop(code)
  {
    BodyHops(code);
    EntryHops(code, 33);
    assert StartsInstr(code, 10, 10);
    EntryHops(code, 10);
  }

  lemma ReadSlot0(f: Machine -> Machine, code: Bytes, ctx: Context, shifted: Word)
    requires Runs(f, code, ctx) && IsEntry(code) && shifted == ShiftRight(200, ctx.storage(0))
    ensures Steps(f, START, 4) == Running(5, Item(shifted, Bottom), [])
  {
    var slot0 := ctx.storage(0);
    var m1 := Running(1, Item(0, Bottom), []);
    var m2 := Running(2, Item(slot0, Bottom), []);
    var m3 := Running(4, Item(200, Item(slot0, Bottom)), []);
    var m4 := Running(5, Item(shifted, Bottom), []);
    assert Step(code, ctx, START) == m1;
    assert Step(code, ctx, m1) == m2;
    assert Step(code, ctx, m2) == m3;
    assert Step(code, ctx, m3) == m4;
    Four(f, START, m1, m2, m3, m4);
  }

  lemma MaskCardinality(f: Machine -> Machine, code: Bytes, ctx: Context, shifted: Word, n: Word)
    requires Runs(f, code, ctx) && IsEntry(code) && n == BitAnd(65535, shifted)
    ensures Steps(f, Running(5, Item(shifted, Bottom), []), 3) == Running(10, Item(0, Item(n, Bottom)), [])
  {
    var m4 := Running(5, Item(shifted, Bottom), []);
    var m5 := Running(8, Item(65535, Item(shifted, Bottom)), []);
    var m6 := Running(9, Item(n, Bottom), []);
    var m7 := Running(10, Item(0, Item(n, Bottom)), []);
    assert Step(code, ctx, m4) == m5;
    assert Step(code, ctx, m5) == m6;
    assert Step(code, ctx, m6) == m7;
    Three(f, m4, m5, m6, m7);
  }

  /** Load the cardinality and a zero counter. */
  lemma Enter(f: Machine -> Machine, code: Bytes, ctx: Context)
    requires Runs(f, code, ctx) && IsEntry(code)
    ensures Steps(f, START, 7) == Running(10, Item(0, Item(Cardinality(ctx.storage(0)), Bottom)), [])
  {
    var slot0 := ctx.storage(0);
    var shifted, n := ShiftRight(200, slot0), Cardinality(slot0);
    CardinalityOnStack(slot0);
    ReadSlot0(f, code, ctx, shifted);
    MaskCardinality(f, code, ctx, shifted, n);
    Then(f, START, 4, Running(5, Item(shifted, Bottom), []), 3, Running(10, Item(0, Item(n, Bottom)), []));
  }

  /** The exit test. */
  lemma Head(f: Machine -> Machine, code: Bytes, ctx: Context, i: Word, n: Word, memory: Bytes)
    requires Runs(f, code, ctx) && IsLoop(code)
    ensures Steps(f, Running(10, Item(i, Item(n, Bottom)), memory), 6)
         == Running(if i == n then 33 else 17, Item(i, Item(n, Bottom)), memory)
  {
    var s := Item(i, Item(n, Bottom));
    var m0 := Running(10, s, memory);
    var m1 := Running(11, s, memory);
    var m2 := Running(12, Item(n, s), memory);
    var m3 := Running(13, Item(i, Item(n, s)), memory);
    var m4 := Running(14, Item(if i == n then 1 else 0, s), memory);
    var m5 := Running(16, Item(33, m4.stack), memory);
    var m6 := Running(if i == n then 33 else 17, s, memory);
    assert Step(code, ctx, m0) == m1;
    assert Step(code, ctx, m1) == m2;
    assert Step(code, ctx, m2) == m3;
    assert Step(code, ctx, m3) == m4;
    assert Step(code, ctx, m4) == m5;
    assert Step(code, ctx, m5) == m6;
    Three(f, m0, m1, m2, m3);
    Three(f, m3, m4, m5, m6);
    Then(f, m0, 3, m3, 3, m6);
  }

  /** Load the observation at the counter. */
  lemma LoadObservation(f: Machine -> Machine, code: Bytes, ctx: Context, i: Word, n: Word, memory: Bytes)
    requires Runs(f, code, ctx) && IsLoop(code) && i < 65536
    ensures Steps(f, Running(17, Item(i, Item(n, Bottom)), memory), 4)
         == Running(22, Item(ctx.storage(FIRST_SLOT + i), Item(i, Item(n, Bottom))), memory)
  {
    var s := Item(i, Item(n, Bottom));
    var m0 := Running(17, s, memory);
    var m1 := Running(18, Item(i, s), memory);
    var m2 := Running(20, Item(8, Item(i, s)), memory);
    var m3 := Running(21, Item(8 + i, s), memory);
    var m4 := Running(22, Item(ctx.storage(FIRST_SLOT + i), s), memory);
    assert Step(code, ctx, m0) == m1;
    assert Step(code, ctx, m1) == m2;
    Adds(f, code, ctx, 20, 8, i, 8 + i, s, memory);
    assert Step(code, ctx, m3) == m4;
    Four(f, m0, m1, m2, m3, m4);
  }

  /** PUSH1 5, SHL: the byte offset of a word index. */
  lemma Scale(f: Machine -> Machine, code: Bytes, ctx: Context, p: nat, i: Word, s: Stack, memory: Bytes, offset: Word)
    requires Runs(f, code, ctx) && p + 2 < |code| && code[p] == 0x60 && code[p + 1] == 5 && code[p + 2] == 0x1b
    requires i <= 65536 && offset == 32 * i
    ensures Steps(f, Running(p, Item(i, s), memory), 2) == Running(p + 3, Item(offset, s), memory)
  {
    ShiftByFive(i);
    var m1 := Running(p + 2, Item(5, Item(i, s)), memory);
    var m2 := Running(p + 3, Item(offset, s), memory);
    assert Step(code, ctx, Running(p, Item(i, s), memory)) == m1;
    assert Step(code, ctx, m1) == m2;
    assert Steps(f, m1, 1) == m2;
  }

  lemma StoreStep(f: Machine -> Machine, code: Bytes, ctx: Context, offset: Word, v: Word, s: Stack, memory: Bytes)
    requires Runs(f, code, ctx) && IsBody(code)
    ensures Steps(f, Running(26, Item(offset, Item(v, s)), memory), 1) == Running(27, s, StoreWord(memory, offset, v))
  {
    Stores(f, code, ctx, 26, offset, v, s, memory);
  }

  lemma CopyCounter(f: Machine -> Machine, code: Bytes, ctx: Context, i: Word, v: Word, s: Stack, memory: Bytes)
    requires Runs(f, code, ctx) && IsBody(code)
    ensures Steps(f, Running(22, Item(v, Item(i, s)), memory), 1) == Running(23, Item(i, Item(v, Item(i, s))), memory)
  {
    var after := Item(i, Item(v, Item(i, s)));
    assert Step(code, ctx, Running(22, Item(v, Item(i, s)), memory)) == Running(23, after, memory);
  }

  /** Write it at 32 times the counter. */
  lemma StoreObservation(f: Machine -> Machine, code: Bytes, ctx: Context, i: Word, v: Word, n: Word, memory: Bytes,
                         offset: Word, after: Bytes)
    requires Runs(f, code, ctx) && IsLoop(code) && i < 65536
    requires offset == 32 * i && after == StoreWord(memory, offset, v)
    ensures Steps(f, Running(22, Item(v, Item(i, Item(n, Bottom))), memory), 4)
         == Running(27, Item(i, Item(n, Bottom)), after)
  {
    var s := Item(i, Item(n, Bottom));
    var m0 := Running(22, Item(v, s), memory);
    var m1 := Running(23, Item(i, Item(v, s)), memory);
    var m3 := Running(26, Item(offset, Item(v, s)), memory);
    CopyCounter(f, code, ctx, i, v, Item(n, Bottom), memory);
    Scale(f, code, ctx, 23, i, Item(v, s), memory, offset);
    Then(f, m0, 1, m1, 2, m3);
    StoreStep(f, code, ctx, offset, v, s, memory);
    Then(f, m0, 3, m3, 1, Running(27, s, after));
  }

  lemma Advance(f: Machine -> Machine, code: Bytes, ctx: Context, i: Word, n: Word, memory: Bytes)
    requires Runs(f, code, ctx) && IsLoop(code) && i < 65536
    ensures Steps(f, Running(27, Item(i, Item(n, Bottom)), memory), 4)
         == Running(10, Item(i + 1, Item(n, Bottom)), memory)
  {
    var s := Item(i, Item(n, Bottom));
    var next := Item(i + 1, Item(n, Bottom));
    var m0 := Running(27, s, memory);
    var m1 := Running(29, Item(1, s), memory);
    var m2 := Running(30, next, memory);
    var m3 := Running(32, Item(10, next), memory);
    var m4 := Running(10, next, memory);
    assert Step(code, ctx, m0) == m1;
    Adds(f, code, ctx, 29, 1, i, i + 1, Item(n, Bottom), memory);
    assert Step(code, ctx, m2) == m3;
    assert Step(code, ctx, m3) == m4;
    Four(f, m0, m1, m2, m3, m4);
  }

  /** One turn of 18 steps. */
  lemma Turn(f: Machine -> Machine, code: Bytes, ctx: Context, i: Word, n: Word, memory: Bytes, after: Bytes)
    requires Runs(f, code, ctx) && IsLoop(code) && i < n < 65536
    requires after == StoreWord(memory, 32 * i, ctx.storage(FIRST_SLOT + i))
    ensures Steps(f, Running(10, Item(i, Item(n, Bottom)), memory), 18)
         == Running(10, Item(i + 1, Item(n, Bottom)), after)
  {
    var s, v := Item(i, Item(n, Bottom)), ctx.storage(FIRST_SLOT + i);
    var m0 := Running(10, s, memory);
    Head(f, code, ctx, i, n, memory);
    LoadObservation(f, code, ctx, i, n, memory);
    Then(f, m0, 6, Running(17, s, memory), 4, Running(22, Item(v, s), memory));
    StoreObservation(f, code, ctx, i, v, n, memory, 32 * i, after);
    Then(f, m0, 10, Running(22, Item(v, s), memory), 4, Running(27, s, after));
    Advance(f, code, ctx, i, n, after);
    Then(f, m0, 14, Running(27, s, after), 4, Running(10, Item(i + 1, Item(n, Bottom)), after));
  }

  function MemoryAt(ctx: Context, n: nat): Bytes
    requires n <= 65536
  {
    Pack(Extractor.Loads(ctx.storage, RingSlots(n)))
  }

  lemma MemoryGrows(ctx: Context, i: nat)
    requires i < 65536
    ensures MemoryAt(ctx, i + 1) == StoreWord(MemoryAt(ctx, i), 32 * i, ctx.storage(FIRST_SLOT + i))
  {
    var slots := RingSlots(i + 1);
    assert slots[..i] == RingSlots(i) && slots[..i + 1] == slots;
    Extractor.LoadsPrefix(ctx.storage, slots, i);
    StoreNext(Extractor.Loads(ctx.storage, RingSlots(i)), 32 * i, ctx.storage(FIRST_SLOT + i));
  }

  /** The loop head after `i` turns. */
  function AtHead(ctx: Context, n: nat, i: nat): Machine
    requires n < 65536 && i <= n
  {
    Running(10, Item(i, Item(n, Bottom)), MemoryAt(ctx, i))
  }

  lemma TurnAt(f: Machine -> Machine, code: Bytes, ctx: Context, n: nat, i: nat)
    requires Runs(f, code, ctx) && IsLoop(code) && i < n < 65536
    ensures Steps(f, AtHead(ctx, n, i), 18) == AtHead(ctx, n, i + 1)
  {
    MemoryGrows(ctx, i);
    Turn(f, code, ctx, i, n, MemoryAt(ctx, i), MemoryAt(ctx, i + 1));
  }

  lemma {:induction false} Turns(f: Machine -> Machine, code: Bytes, ctx: Context, n: nat, i: nat)
    requires Runs(f, code, ctx) && IsLoop(code) && i <= n < 65536
    ensures Steps(f, AtHead(ctx, n, 0), 18 * i) == AtHead(ctx, n, i)
  {
    if i == 0 {
    } else {
      Turns(f, code, ctx, n, i - 1);
      TurnAt(f, code, ctx, n, i - 1);
      Then(f, AtHead(ctx, n, 0), 18 * (i - 1), AtHead(ctx, n, i - 1), 18, AtHead(ctx, n, i));
    }
  }

  lemma DropCounter(f: Machine -> Machine, code: Bytes, ctx: Context, i: Word, s: Stack, memory: Bytes)
    requires Runs(f, code, ctx) && IsTail(code)
    ensures Steps(f, Running(33, Item(i, s), memory), 2) == Running(35, s, memory)
  {
    assert Step(code, ctx, Running(33, Item(i, s), memory)) == Running(34, Item(i, s), memory);
    assert Step(code, ctx, Running(34, Item(i, s), memory)) == Running(35, s, memory);
    assert Steps(f, Running(34, Item(i, s), memory), 1) == Running(35, s, memory);
  }

  lemma ReturnMemory(f: Machine -> Machine, code: Bytes, ctx: Context, size: Word, memory: Bytes)
    requires Runs(f, code, ctx) && IsTail(code) && |memory| == size
    ensures Steps(f, Running(38, Item(size, Bottom), memory), 2) == Returned(memory)
  {
    var m1 := Running(39, Item(0, Item(size, Bottom)), memory);
    assert Step(code, ctx, Running(38, Item(size, Bottom), memory)) == m1;
    Returns(f, code, ctx, 39, size, Bottom, memory);
    assert Steps(f, m1, 1) == Returned(memory);
  }

  /** Drop the counter and return 32 bytes per observation. */
  lemma Leave(f: Machine -> Machine, code: Bytes, ctx: Context, n: Word, memory: Bytes, size: Word)
    requires Runs(f, code, ctx) && IsTail(code) && n < 65536 && |memory| == size == 32 * n
    ensures Steps(f, Running(33, Item(n, Item(n, Bottom)), memory), 6) == Returned(memory)
  {
    var m0 := Running(33, Item(n, Item(n, Bottom)), memory);
    var m2 := Running(35, Item(n, Bottom), memory);
    var m4 := Running(38, Item(size, Bottom), memory);
    DropCounter(f, code, ctx, n, Item(n, Bottom), memory);
    Scale(f, code, ctx, 35, n, Bottom, memory, size);
    Then(f, m0, 2, m2, 2, m4);
    ReturnMemory(f, code, ctx, size, memory);
    Then(f, m0, 4, m4, 2, Returned(memory));
  }

  /** Entry and all turns. */
  lemma RunToExit(f: Machine -> Machine, code: Bytes, ctx: Context, n: nat, memory: Bytes)
    requires Runs(f, code, ctx) && IsEntry(code) && IsLoop(code)
    requires n == Cardinality(ctx.storage(0)) && memory == MemoryAt(ctx, n)
    ensures Steps(f, START, 18 * n + 13) == Running(33, Item(n, Item(n, Bottom)), memory)
  {
    Enter(f, code, ctx);
    EmptyRing(ctx, n);
    Turns(f, code, ctx, n, n);
    Then(f, START, 7, AtHead(ctx, n, 0), 18 * n, AtHead(ctx, n, n));
    Head(f, code, ctx, n, n, memory);
    Then(f, START, 7 + 18 * n, AtHead(ctx, n, n), 6, Running(33, Item(n, Item(n, Bottom)), memory));
    assert 7 + 18 * n + 6 == 18 * n + 13;
  }

  lemma EmptyRing(ctx: Context, n: nat)
    requires n < 65536
    ensures AtHead(ctx, n, 0) == Running(10, Item(0, Item(n, Bottom)), [])
  {
    assert RingSlots(0) == [];
  }

  lemma RingSteps(f: Machine -> Machine, code: Bytes, ctx: Context, n: nat, memory: Bytes)
    requires Runs(f, code, ctx) && IsEntry(code) && IsLoop(code) && IsTail(code)
    requires n == Cardinality(ctx.storage(0)) && memory == MemoryAt(ctx, n)
    ensures Steps(f, START, 18 * n + 19) == Returned(memory)
  {
    var leaving := Running(33, Item(n, Item(n, Bottom)), memory);
    RunToExit(f, code, ctx, n, memory);
    Leave(f, code, ctx, n, memory, 32 * n);
    Then(f, START, 18 * n + 13, leaving, 6, Returned(memory));
    assert 18 * n + 13 + 6 == 18 * n + 19;
  }

  lemma RingEntry()
    ensures IsEntry(RING)
  {
  }

  lemma RingBody()
    ensures IsBody(RING)
  {
  }

  lemma RingTail()
    ensures IsTail(RING)
  {
  }

  /** For every storage, the program returns the whole ring: as many words as
      slot 0 says, from slot 8 on, in order. */
  lemma RingReturnsObservations(ctx: Context)
    ensures var n := Cardinality(ctx.storage(0));
            Outcome(RING, ctx) == Some(Pack(Extractor.Loads(ctx.storage, RingSlots(n))))
  {
    RingEntry();
    RingBody();
    RingTail();
    RingIsLoop(RING);
    RingOutcome(RING, ctx, Cardinality(ctx.storage(0)));
  }

  lemma RingOutcome(code: Bytes, ctx: Context, n: nat)
    requires IsEntry(code) && IsLoop(code) && IsTail(code) && n == Cardinality(ctx.storage(0))
    ensures Outcome(code, ctx) == Some(MemoryAt(ctx, n))
  {
    RingSteps(Stepper(code, ctx), code, ctx, n, MemoryAt(ctx, n));
    OutcomeOfRun(code, ctx, 18 * n + 19);
  }

  /** The same bytes as extracting the ring's slots from a list. */
  lemma RingMatchesExtraction(ring: Context, list: Context)
    requires ring.storage == list.storage
    requires CarriesWords(list, RingSlots(Cardinality(ring.storage(0))))
    ensures Outcome(RING, ring) == Outcome(Extractor.EXTRACTOR, list)
  {
    RingReturnsObservations(ring);
    Extractor.ExtractorReturnsLoads(Extractor.EXTRACTOR, list, RingSlots(Cardinality(ring.storage(0))));
  }
}
