/**
 The account-fields extractor of `src/bulk_storage.rs`: for each padded address
 in calldata it returns the balance and the code hash, two words per address.
 */
module AccountFields {
  import opened Words
  import opened Evm

  /** `ACCOUNT_FIELDS_EXTRACTOR_CODE`. */
  const ACCOUNT_FIELDS: Bytes := [
    0x5f, 0x5b, 0x80, 0x36, 0x14, 0x60, 0x20, 0x57, 0x80, 0x35, 0x80, 0x31, 0x82, 0x60, 0x01, 0x1b,
    0x52, 0x3f, 0x81, 0x60, 0x01, 0x1b, 0x60, 0x20, 0x01, 0x52, 0x60, 0x20, 0x01, 0x60, 0x01, 0x56,
    0x5b, 0x36, 0x60, 0x01, 0x1b, 0x5f, 0xf3]

  /** The program, byte by byte. */
  predicate IsProgram(code: Bytes) {
    |code| == 39 && LoopHead(code) && BalancePart(code) && HashPart(code) && TailPart(code)
  }

  predicate LoopHead(code: Bytes)
    requires |code| == 39
  {
    && code[0] == 0x5f && code[1] == 0x5b && code[2] == 0x80 && code[3] == 0x36
    && code[4] == 0x14 && code[5] == 0x60 && code[6] == 0x20 && code[7] == 0x57
  }

  predicate BalancePart(code: Bytes)
    requires |code| == 39
  {
    && code[8] == 0x80 && code[9] == 0x35 && code[10] == 0x80 && code[11] == 0x31
    && code[12] == 0x82 && code[13] == 0x60 && code[14] == 0x01 && code[15] == 0x1b && code[16] == 0x52
  }

  predicate HashPart(code: Bytes)
    requires |code| == 39
  {
    && code[17] == 0x3f && code[18] == 0x81 && code[19] == 0x60 && code[20] == 0x01 && code[21] == 0x1b
    && code[22] == 0x60 && code[23] == 0x20 && code[24] == 0x01 && code[25] == 0x52
  }

  predicate TailPart(code: Bytes)
    requires |code| == 39
  {
    && code[26] == 0x60 && code[27] == 0x20 && code[28] == 0x01
    && code[29] == 0x60 && code[30] == 0x01 && code[31] == 0x56
    && code[32] == 0x5b && code[33] == 0x36 && code[34] == 0x60 && code[35] == 0x01
    && code[36] == 0x1b && code[37] == 0x5f && code[38] == 0xf3
  }

  lemma HeadBytes()
    ensures |ACCOUNT_FIELDS| == 39 && LoopHead(ACCOUNT_FIELDS)
  {
  }

  lemma BalanceBytes()
    ensures |ACCOUNT_FIELDS| == 39 && BalancePart(ACCOUNT_FIELDS)
  {
  }

  lemma HashBytes()
    ensures |ACCOUNT_FIELDS| == 39 && HashPart(ACCOUNT_FIELDS)
  {
  }

  lemma TailBytes()
    ensures |ACCOUNT_FIELDS| == 39 && TailPart(ACCOUNT_FIELDS)
  {
  }

  lemma ProgramBytes()
    ensures IsProgram(ACCOUNT_FIELDS)
  {
    HeadBytes();
    BalanceBytes();
    HashBytes();
    TailBytes();
  }

  /** Both jump targets are JUMPDEST instructions. */
  lemma JumpTargets(code: Bytes)
    requires IsProgram(code)
    ensures ValidTarget(code, 1) && ValidTarget(code, 32)
  {
    assert StartsInstr(code, 29, 32);
    assert StartsInstr(code, 26, 32);
    assert StartsInstr(code, 22, 32);
    assert StartsInstr(code, 19, 32);
    assert StartsInstr(code, 17, 32);
    assert StartsInstr(code, 15, 32);
    assert StartsInstr(code, 12, 32);
    assert StartsInstr(code, 10, 32);
    assert StartsInstr(code, 8, 32);
    assert StartsInstr(code, 5, 32);
    assert StartsInstr(code, 3, 32);
    assert StartsInstr(code, 1, 32);
  }

  lemma Doubled(c: Word)
    requires 2 * c < WORD_MODULUS
    ensures ShiftLeft(1, c) == 2 * c
  {
    assert Pow2(1) == 2;
  }

  /** The exit test: six steps that leave the counter where it was. */
  lemma Head(f: Machine -> Machine, code: Bytes, ctx: Context, c: Word, memory: Bytes)
    requires Runs(f, code, ctx) && IsProgram(code)
    ensures Steps(f, Running(1, Item(c, Bottom), memory), 6)
         == Running(if c == ctx.calldataSize then 32 else 8, Item(c, Bottom), memory)
  {
    JumpTargets(code);
    var s := Item(c, Bottom);
    var m0 := Running(1, s, memory);
    var m1 := Running(2, s, memory);
    var m2 := Running(3, Item(c, s), memory);
    var m3 := Running(4, Item(ctx.calldataSize, Item(c, s)), memory);
    var m4 := Running(5, Item(if c == ctx.calldataSize then 1 else 0, s), memory);
    var m5 := Running(7, Item(32, m4.stack), memory);
    var m6 := Running(if c == ctx.calldataSize then 32 else 8, s, memory);
    assert Step(code, ctx, m0) == m1;
    assert Step(code, ctx, m1) == m2;
    assert Step(code, ctx, m2) == m3;
    assert Step(code, ctx, m3) == m4;
    assert Step(code, ctx, m4) == m5;
    assert Step(code, ctx, m5) == m6;
    Three(f, m0, m1, m2, m3);
    Three(f, m3, m4, m5, m6);
    Then(f, m0, 3, m3, 3, m6);
  }

  /** The address at the counter and its balance. */
  lemma ReadBalance(f: Machine -> Machine, code: Bytes, ctx: Context, c: Word, a: Address, memory: Bytes)
    requires Runs(f, code, ctx) && IsProgram(code) && ctx.calldata(c) == a
    ensures Steps(f, Running(8, Item(c, Bottom), memory), 4)
         == Running(12, Item(ctx.balance(a), Item(a, Item(c, Bottom))), memory)
  {
    var s := Item(c, Bottom);
    var m0 := Running(8, s, memory);
    var m1 := Running(9, Item(c, s), memory);
    var m2 := Running(10, Item(a, s), memory);
    var m3 := Running(11, Item(a, Item(a, s)), memory);
    var m4 := Running(12, Item(ctx.balance(a), Item(a, s)), memory);
    assert Step(code, ctx, m0) == m1;
    assert Step(code, ctx, m1) == m2;
    assert Step(code, ctx, m2) == m3;
    assert Step(code, ctx, m3) == m4;
    Four(f, m0, m1, m2, m3, m4);
  }

  /** Store the balance at twice the counter. */
  lemma StoreBalance(f: Machine -> Machine, code: Bytes, ctx: Context, c: Word, a: Word, balance: Word, memory: Bytes)
    requires Runs(f, code, ctx) && IsProgram(code) && 2 * c < WORD_MODULUS
    ensures Steps(f, Running(12, Item(balance, Item(a, Item(c, Bottom))), memory), 4)
         == Running(17, Item(a, Item(c, Bottom)), StoreWord(memory, 2 * c, balance))
  {
    var s := Item(a, Item(c, Bottom));
    var m0 := Running(12, Item(balance, s), memory);
    var m1 := Running(13, Item(c, Item(balance, s)), memory);
    var m2 := Running(15, Item(1, m1.stack), memory);
    var m3 := Running(16, Item(2 * c, Item(balance, s)), memory);
    assert Step(code, ctx, m0) == m1;
    assert Step(code, ctx, m1) == m2;
    Doubled(c);
    assert Step(code, ctx, m2) == m3;
    Three(f, m0, m1, m2, m3);
    StoreAt(f, code, ctx, 16, 2 * c, balance, s, memory);
    Then(f, m0, 3, m3, 1, Running(17, s, StoreWord(memory, 2 * c, balance)));
  }

  lemma StoreAt(f: Machine -> Machine, code: Bytes, ctx: Context, pc: nat, offset: Word, value: Word, s: Stack,
                memory: Bytes)
    requires Runs(f, code, ctx) && IsProgram(code) && (pc == 16 || pc == 25)
    ensures Steps(f, Running(pc, Item(offset, Item(value, s)), memory), 1)
         == Running(pc + 1, s, StoreWord(memory, offset, value))
  {
    Stores(f, code, ctx, pc, offset, value, s, memory);
  }

  /** The code hash, and where it goes. */
  lemma ReadHash(f: Machine -> Machine, code: Bytes, ctx: Context, c: Word, a: Address, memory: Bytes)
    requires Runs(f, code, ctx) && IsProgram(code) && 2 * c + 32 < WORD_MODULUS
    ensures Steps(f, Running(17, Item(a, Item(c, Bottom)), memory), 6)
         == Running(25, Item(2 * c + 32, Item(ctx.codeHash(a), Item(c, Bottom))), memory)
  {
    var s := Item(ctx.codeHash(a), Item(c, Bottom));
    var m0 := Running(17, Item(a, Item(c, Bottom)), memory);
    var m1 := Running(18, s, memory);
    var m2 := Running(19, Item(c, s), memory);
    var m3 := Running(21, Item(1, Item(c, s)), memory);
    var m4 := Running(22, Item(2 * c, s), memory);
    var m5 := Running(24, Item(32, m4.stack), memory);
    var m6 := Running(25, Item(2 * c + 32, s), memory);
    assert Step(code, ctx, m0) == m1;
    assert Step(code, ctx, m1) == m2;
    assert Step(code, ctx, m2) == m3;
    Three(f, m0, m1, m2, m3);
    Doubled(c);
    assert Step(code, ctx, m3) == m4;
    assert Step(code, ctx, m4) == m5;
    Adds(f, code, ctx, 24, 32, 2 * c, 2 * c + 32, s, memory);
    Three(f, m3, m4, m5, m6);
    Then(f, m0, 3, m3, 3, m6);
  }

  lemma Advance(f: Machine -> Machine, code: Bytes, ctx: Context, c: Word, memory: Bytes)
    requires Runs(f, code, ctx) && IsProgram(code) && c + 32 < WORD_MODULUS
    ensures Steps(f, Running(26, Item(c, Bottom), memory), 4) == Running(1, Item(c + 32, Bottom), memory)
  {
    JumpTargets(code);
    var m0 := Running(26, Item(c, Bottom), memory);
    var m1 := Running(28, Item(32, Item(c, Bottom)), memory);
    var m2 := Running(29, Item(c + 32, Bottom), memory);
    var m3 := Running(31, Item(1, m2.stack), memory);
    var m4 := Running(1, m2.stack, memory);
    assert Step(code, ctx, m0) == m1;
    assert Step(code, ctx, m1) == m2;
    assert Step(code, ctx, m2) == m3;
    assert Step(code, ctx, m3) == m4;
    Four(f, m0, m1, m2, m3, m4);
  }

  /** The 25 steps of a turn: two words stored for the address at the counter. */
  lemma Turn(f: Machine -> Machine, code: Bytes, ctx: Context, c: Word, a: Address, before: Bytes, half: Bytes,
             after: Bytes)
    requires Runs(f, code, ctx) && IsProgram(code)
    requires c != ctx.calldataSize && 2 * c + 32 < WORD_MODULUS && c + 32 < WORD_MODULUS
    requires ctx.calldata(c) == a
    requires half == StoreWord(before, 2 * c, ctx.balance(a))
    requires after == StoreWord(half, 2 * c + 32, ctx.codeHash(a))
    ensures Steps(f, Running(1, Item(c, Bottom), before), 25) == Running(1, Item(c + 32, Bottom), after)
  {
    var m0 := Running(1, Item(c, Bottom), before);
    var m6 := Running(8, Item(c, Bottom), before);
    var m10 := Running(12, Item(ctx.balance(a), Item(a, Item(c, Bottom))), before);
    var m14 := Running(17, Item(a, Item(c, Bottom)), half);
    var m20 := Running(25, Item(2 * c + 32, Item(ctx.codeHash(a), Item(c, Bottom))), half);
    var m21 := Running(26, Item(c, Bottom), after);
    Head(f, code, ctx, c, before);
    ReadBalance(f, code, ctx, c, a, before);
    Then(f, m0, 6, m6, 4, m10);
    StoreBalance(f, code, ctx, c, a, ctx.balance(a), before);
    Then(f, m0, 10, m10, 4, m14);
    ReadHash(f, code, ctx, c, a, half);
    Then(f, m0, 14, m14, 6, m20);
    StoreAt(f, code, ctx, 25, 2 * c + 32, ctx.codeHash(a), Item(c, Bottom), half);
    Then(f, m0, 20, m20, 1, m21);
    Advance(f, code, ctx, c, after);
    Then(f, m0, 21, m21, 4, Running(1, Item(c + 32, Bottom), after));
  }

  /** Balance and code hash of each address, interleaved. */
  function Fields(ctx: Context, addresses: seq<Address>): (ws: seq<Word>)
    ensures |ws| == 2 * |addresses|
  {
    if addresses == [] then []
    else
      var a := addresses[|addresses| - 1];
      Fields(ctx, addresses[..|addresses| - 1]) + [ctx.balance(a)] + [ctx.codeHash(a)]
  }

  lemma {:induction false} FieldsAt(ctx: Context, addresses: seq<Address>, i: nat)
    requires i < |addresses|
    ensures Fields(ctx, addresses)[2 * i] == ctx.balance(addresses[i])
    ensures Fields(ctx, addresses)[2 * i + 1] == ctx.codeHash(addresses[i])
  {
    var n := |addresses| - 1;
    if i < n {
      FieldsAt(ctx, addresses[..n], i);
    }
  }

  function MemoryAfter(ctx: Context, addresses: seq<Address>, i: nat): Bytes
    requires i <= |addresses|
  {
    Pack(Fields(ctx, addresses[..i]))
  }

  lemma MemoryGrows(ctx: Context, addresses: seq<Address>, i: nat)
    requires i < |addresses|
    ensures |MemoryAfter(ctx, addresses, i)| == 64 * i
    ensures MemoryAfter(ctx, addresses, i + 1)
         == StoreWord(StoreWord(MemoryAfter(ctx, addresses, i), 64 * i, ctx.balance(addresses[i])),
                      64 * i + 32, ctx.codeHash(addresses[i]))
  {
    var a := addresses[i];
    var before := Fields(ctx, addresses[..i]);
    FieldsGrow(ctx, addresses, i);
    assert 32 * |before| == 64 * i;
    StoreTwo(before, ctx.balance(a), ctx.codeHash(a));
  }

  lemma FieldsGrow(ctx: Context, addresses: seq<Address>, i: nat)
    requires i < |addresses|
    ensures Fields(ctx, addresses[..i + 1])
         == Fields(ctx, addresses[..i]) + [ctx.balance(addresses[i])] + [ctx.codeHash(addresses[i])]
  {
    assert addresses[..i + 1][..i] == addresses[..i];
  }

  lemma StoreTwo(ws: seq<Word>, x: Word, y: Word)
    ensures Pack(ws + [x] + [y])
         == StoreWord(StoreWord(Pack(ws), 32 * |ws|, x), 32 * |ws| + 32, y)
  {
    var half := ws + [x];
    StoreNext(ws, 32 * |ws|, x);
    StoreNext(half, 32 * |ws| + 32, y);
  }

  /** The loop head after `i` turns. */
  function AtHead(ctx: Context, addresses: seq<Address>, i: nat): Machine
    requires i <= |addresses| && 32 * i < WORD_MODULUS
  {
    Running(1, Item(32 * i, Bottom), MemoryAfter(ctx, addresses, i))
  }

  lemma TurnAt(f: Machine -> Machine, code: Bytes, ctx: Context, addresses: seq<Address>, i: nat)
    requires Runs(f, code, ctx) && IsProgram(code)
    requires CarriesWords(ctx, addresses) && 64 * |addresses| < WORD_MODULUS && i < |addresses|
    ensures Steps(f, AtHead(ctx, addresses, i), 25) == AtHead(ctx, addresses, i + 1)
  {
    var a, c := addresses[i], 32 * i;
    MemoryGrows(ctx, addresses, i);
    var before := MemoryAfter(ctx, addresses, i);
    var after := MemoryAfter(ctx, addresses, i + 1);
    assert 64 * i == 2 * c && 64 * i + 32 == 2 * c + 32;
    var half := StoreWord(before, 2 * c, ctx.balance(a));
    assert AtHead(ctx, addresses, i + 1) == Running(1, Item(c + 32, Bottom), after);
    Turn(f, code, ctx, c, a, before, half, after);
  }

  lemma {:induction false} LoopRuns(f: Machine -> Machine, code: Bytes, ctx: Context, addresses: seq<Address>, i: nat)
    requires Runs(f, code, ctx) && IsProgram(code)
    requires CarriesWords(ctx, addresses) && 64 * |addresses| < WORD_MODULUS && i <= |addresses|
    ensures Steps(f, AtHead(ctx, addresses, 0), 25 * i) == AtHead(ctx, addresses, i)
  {
    if i == 0 {
    } else {
      LoopRuns(f, code, ctx, addresses, i - 1);
      TurnAt(f, code, ctx, addresses, i - 1);
      Then(f, AtHead(ctx, addresses, 0), 25 * (i - 1), AtHead(ctx, addresses, i - 1), 25, AtHead(ctx, addresses, i));
    }
  }

  /** RETURN(0, 2 * CALLDATASIZE). */
  lemma ExitReturns(f: Machine -> Machine, code: Bytes, ctx: Context, c: Word, memory: Bytes)
    requires Runs(f, code, ctx) && IsProgram(code)
    requires |memory| == 2 * ctx.calldataSize < WORD_MODULUS
    ensures Steps(f, Running(32, Item(c, Bottom), memory), 6) == Returned(memory)
  {
    var s, size := Item(c, Bottom), ctx.calldataSize;
    var m0 := Running(32, s, memory);
    var m3 := Running(36, Item(1, Item(size, s)), memory);
    var m4 := Running(37, Item(2 * size, s), memory);
    var m5 := Running(38, Item(0, m4.stack), memory);
    ReadSize(f, code, ctx, s, memory);
    DoubleSize(f, code, ctx, size, s, memory);
    Returns(f, code, ctx, 38, 2 * size, s, memory);
    Three(f, m3, m4, m5, Returned(memory));
    Then(f, m0, 3, m3, 3, Returned(memory));
  }

  lemma ReadSize(f: Machine -> Machine, code: Bytes, ctx: Context, s: Stack, memory: Bytes)
    requires Runs(f, code, ctx) && IsProgram(code)
    ensures Steps(f, Running(32, s, memory), 3) == Running(36, Item(1, Item(ctx.calldataSize, s)), memory)
  {
    var m0 := Running(32, s, memory);
    var m1 := Running(33, s, memory);
    var m2 := Running(34, Item(ctx.calldataSize, s), memory);
    var m3 := Running(36, Item(1, Item(ctx.calldataSize, s)), memory);
    assert Step(code, ctx, m0) == m1;
    assert Step(code, ctx, m1) == m2;
    assert Step(code, ctx, m2) == m3;
    Three(f, m0, m1, m2, m3);
  }

  lemma DoubleSize(f: Machine -> Machine, code: Bytes, ctx: Context, size: Word, s: Stack, memory: Bytes)
    requires Runs(f, code, ctx) && IsProgram(code) && 2 * size < WORD_MODULUS
    ensures f(Running(36, Item(1, Item(size, s)), memory)) == Running(37, Item(2 * size, s), memory)
    ensures f(Running(37, Item(2 * size, s), memory)) == Running(38, Item(0, Item(2 * size, s)), memory)
  {
    Doubled(size);
    assert Step(code, ctx, Running(36, Item(1, Item(size, s)), memory)) == Running(37, Item(2 * size, s), memory);
    assert Step(code, ctx, Running(37, Item(2 * size, s), memory)) == Running(38, Item(0, Item(2 * size, s)), memory);
  }

  lemma ProgramRuns(f: Machine -> Machine, code: Bytes, ctx: Context, addresses: seq<Address>, n: nat)
    requires Runs(f, code, ctx) && IsProgram(code)
    requires CarriesWords(ctx, addresses) && 64 * n < WORD_MODULUS && n == |addresses|
    ensures Steps(f, START, 1 + 25 * n + 6 + 6) == Returned(Pack(Fields(ctx, addresses)))
  {
    var memory := MemoryAfter(ctx, addresses, n);
    var start, done := AtHead(ctx, addresses, 0), AtHead(ctx, addresses, n);
    assert addresses[..n] == addresses;
    assert addresses[..0] == [];
    assert start == Running(1, Item(0, Bottom), []);
    assert Step(code, ctx, START) == start;
    assert Steps(f, START, 1) == start;
    LoopRuns(f, code, ctx, addresses, n);
    Then(f, START, 1, start, 25 * n, done);
    var exiting := Running(32, Item(32 * n, Bottom), memory);
    Head(f, code, ctx, 32 * n, memory);
    Then(f, START, 1 + 25 * n, done, 6, exiting);
    ExitReturns(f, code, ctx, 32 * n, memory);
    Then(f, START, 1 + 25 * n + 6, exiting, 6, Returned(memory));
  }

  /** Bytecode correctness: two words per queried address, in order. */
  lemma AccountFieldsReturns(ctx: Context, addresses: seq<Address>)
    requires CarriesWords(ctx, addresses) && 64 * |addresses| < WORD_MODULUS
    ensures Outcome(ACCOUNT_FIELDS, ctx) == Some(Pack(Fields(ctx, addresses)))
  {
    ProgramBytes();
    var n := |addresses|;
    ProgramRuns(Stepper(ACCOUNT_FIELDS, ctx), ACCOUNT_FIELDS, ctx, addresses, n);
    OutcomeOfRun(ACCOUNT_FIELDS, ctx, 1 + 25 * n + 6 + 6);
  }
}
