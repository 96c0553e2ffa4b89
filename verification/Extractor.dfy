/**
 The storage extractors of `src/bulk_storage.rs`: byte for byte the two injected
 programs, executed on the EVM fragment of `Evm`.
 */
module Extractor {
  import opened Words
  import opened Evm

  /** `STORAGE_EXTRACTOR_CODE`. */
  const EXTRACTOR: Bytes := [
    0x5f, 0x5b, 0x80, 0x36, 0x14, 0x60, 0x13, 0x57, 0x80, 0x35, 0x54, 0x81,
    0x52, 0x60, 0x20, 0x01, 0x60, 0x01, 0x56, 0x5b, 0x36, 0x5f, 0xf3]

  /** `STORAGE_EXTRACTOR_CODE_PRE_SHANGHAI`. */
  const EXTRACTOR_PRE_SHANGHAI: Bytes := [
    0x60, 0x00, 0x5b, 0x80, 0x36, 0x14, 0x60, 0x14, 0x57, 0x80, 0x35, 0x54, 0x81,
    0x52, 0x60, 0x20, 0x01, 0x60, 0x02, 0x56, 0x5b, 0x36, 0x60, 0x00, 0xf3]

  /** The extraction loop, assembled with its head at byte `p`: exit when the
      counter equals CALLDATASIZE, else load, store, advance and jump back. */
  predicate LoopAt(code: Bytes, p: nat) {
    && p + 20 <= |code|
    && p < 200
    && code[p] == 0x5b && code[p + 1] == 0x80 && code[p + 2] == 0x36 && code[p + 3] == 0x14
    && code[p + 4] == 0x60 && code[p + 5] == p + 18 && code[p + 6] == 0x57
    && code[p + 7] == 0x80 && code[p + 8] == 0x35 && code[p + 9] == 0x54
    && code[p + 10] == 0x81 && code[p + 11] == 0x52
    && code[p + 12] == 0x60 && code[p + 13] == 0x20 && code[p + 14] == 0x01
    && code[p + 15] == 0x60 && code[p + 16] == p && code[p + 17] == 0x56
    && code[p + 18] == 0x5b && code[p + 19] == 0x36
    && StartsInstr(code, 0, p)
    && StartsInstr(code, 0, p + 18)
  }

  lemma ShanghaiLoop()
    ensures LoopAt(EXTRACTOR, 1)
  {
    var c := EXTRACTOR;
    assert StartsInstr(c, 16, 19);
    assert StartsInstr(c, 13, 19);
    assert StartsInstr(c, 10, 19);
    assert StartsInstr(c, 7, 19);
    assert StartsInstr(c, 4, 19);
    assert StartsInstr(c, 2, 19);
  }

  lemma PreShanghaiLoop()
    ensures LoopAt(EXTRACTOR_PRE_SHANGHAI, 2)
  {
    var d := EXTRACTOR_PRE_SHANGHAI;
    assert StartsInstr(d, 17, 20);
    assert StartsInstr(d, 14, 20);
    assert StartsInstr(d, 11, 20);
    assert StartsInstr(d, 8, 20);
    assert StartsInstr(d, 5, 20);
    assert StartsInstr(d, 3, 20);
  }

  /** The exit test: six steps that leave the counter where it was. */
  lemma LoopHead(f: Machine -> Machine, code: Bytes, ctx: Context, p: nat, c: Word, memory: Bytes)
    requires Runs(f, code, ctx) && LoopAt(code, p)
    ensures Steps(f, Running(p, Item(c, Bottom), memory), 6)
         == Running(if c == ctx.calldataSize then p + 18 else p + 7, Item(c, Bottom), memory)
  {
    var s := Item(c, Bottom);
    var m0 := Running(p, s, memory);
    var m1 := Running(p + 1, s, memory);
    var m2 := Running(p + 2, Item(c, s), memory);
    var m3 := Running(p + 3, Item(ctx.calldataSize, Item(c, s)), memory);
    var m4 := Running(p + 4, Item(if c == ctx.calldataSize then 1 else 0, s), memory);
    var m5 := Running(p + 6, Item(p + 18, m4.stack), memory);
    var m6 := Running(if c == ctx.calldataSize then p + 18 else p + 7, s, memory);
    assert Step(code, ctx, m0) == m1;
    assert Step(code, ctx, m1) == m2;
    assert Step(code, ctx, m2) == m3;
    assert Step(code, ctx, m3) == m4;
    assert Step(code, ctx, m4) == m5;
    assert Step(code, ctx, m5) == m6;
    Three(f, m0, m1, m2, m3);
    Three(f, m3, m4, m5, m6);
    Then(f, m0, 3, m3, 3, m6);
  }

  /** Load the key at the counter and read it from storage. */
  lemma LoadSteps(f: Machine -> Machine, code: Bytes, ctx: Context, p: nat, c: Word, memory: Bytes)
    requires Runs(f, code, ctx) && LoopAt(code, p)
    ensures Steps(f, Running(p + 7, Item(c, Bottom), memory), 4)
         == Running(p + 11, Item(c, Item(ctx.storage(ctx.calldata(c)), Item(c, Bottom))), memory)
  {
    var s := Item(c, Bottom);
    var key := ctx.calldata(c);
    var m0 := Running(p + 7, s, memory);
    var m1 := Running(p + 8, Item(c, s), memory);
    var m2 := Running(p + 9, Item(key, s), memory);
    var m3 := Running(p + 10, Item(ctx.storage(key), s), memory);
    var m4 := Running(p + 11, Item(c, Item(ctx.storage(key), s)), memory);
    assert Step(code, ctx, m0) == m1;
    assert Step(code, ctx, m1) == m2;
    assert Step(code, ctx, m2) == m3;
    assert Step(code, ctx, m3) == m4;
    Four(f, m0, m1, m2, m3, m4);
  }

  lemma StoreStep(f: Machine -> Machine, code: Bytes, ctx: Context, p: nat, c: Word, value: Word, s: Stack,
                  memory: Bytes)
    requires Runs(f, code, ctx) && LoopAt(code, p)
    ensures Steps(f, Running(p + 11, Item(c, Item(value, s)), memory), 1)
         == Running(p + 12, s, StoreWord(memory, c, value))
  {
    Stores(f, code, ctx, p + 11, c, value, s, memory);
  }

  /** Advance the counter by one word and jump back to the head. */
  lemma LoopAdvance(f: Machine -> Machine, code: Bytes, ctx: Context, p: nat, c: Word, memory: Bytes)
    requires Runs(f, code, ctx) && LoopAt(code, p) && c + 32 < WORD_MODULUS
    ensures Steps(f, Running(p + 12, Item(c, Bottom), memory), 4)
         == Running(p, Item(c + 32, Bottom), memory)
  {
    var s := Item(c, Bottom);
    var m0 := Running(p + 12, s, memory);
    var m1 := Running(p + 14, Item(32, s), memory);
    var m2 := Running(p + 15, Item(c + 32, Bottom), memory);
    var m3 := Running(p + 17, Item(p, m2.stack), memory);
    var m4 := Running(p, m2.stack, memory);
    assert Step(code, ctx, m0) == m1;
    Adds(f, code, ctx, p + 14, 32, c, c + 32, Bottom, memory);
    assert Step(code, ctx, m2) == m3;
    assert Step(code, ctx, m3) == m4;
    Four(f, m0, m1, m2, m3, m4);
  }

  /** The storage values of `slots`, in order. */
  function Loads(storage: Word -> Word, slots: seq<Word>): (values: seq<Word>)
    ensures |values| == |slots|
    ensures forall i :: 0 <= i < |slots| ==> values[i] == storage(slots[i])
  {
    if slots == [] then [] else Loads(storage, slots[..|slots| - 1]) + [storage(slots[|slots| - 1])]
  }

  lemma LoadsPrefix(storage: Word -> Word, slots: seq<Word>, i: nat)
    requires i < |slots|
    ensures Loads(storage, slots[..i + 1]) == Loads(storage, slots[..i]) + [storage(slots[i])]
  {
    assert slots[..i + 1][..i] == slots[..i];
  }

  /** The 15 steps of a turn that does not exit. */
  lemma TurnSteps(f: Machine -> Machine, code: Bytes, ctx: Context, p: nat, c: Word, before: Bytes, value: Word,
                  after: Bytes)
    requires Runs(f, code, ctx) && LoopAt(code, p)
    requires c != ctx.calldataSize && c + 32 < WORD_MODULUS
    requires value == ctx.storage(ctx.calldata(c))
    requires after == StoreWord(before, c, value)
    ensures Steps(f, Running(p, Item(c, Bottom), before), 15)
         == Running(p, Item(c + 32, Bottom), after)
  {
    var m0 := Running(p, Item(c, Bottom), before);
    var m6 := Running(p + 7, Item(c, Bottom), before);
    var m10 := Running(p + 11, Item(c, Item(value, Item(c, Bottom))), before);
    var m11 := Running(p + 12, Item(c, Bottom), after);
    var m15 := Running(p, Item(c + 32, Bottom), after);
    LoopHead(f, code, ctx, p, c, before);
    LoadSteps(f, code, ctx, p, c, before);
    Then(f, m0, 6, m6, 4, m10);
    StoreStep(f, code, ctx, p, c, value, Item(c, Bottom), before);
    Then(f, m0, 10, m10, 1, m11);
    LoopAdvance(f, code, ctx, p, c, after);
    Then(f, m0, 11, m11, 4, m15);
  }

  /** The loop head after `i` turns, `memories[i]` having been written. */
  function AtHead(p: nat, memories: seq<Bytes>, i: nat): Machine
    requires i < |memories| && 32 * i < WORD_MODULUS
  {
    Running(p, Item(32 * i, Bottom), memories[i])
  }

  /** `memories[i]` is the memory after `i` turns. */
  ghost predicate TurnByTurn(ctx: Context, memories: seq<Bytes>) {
    && |memories| > 0
    && memories[0] == []
    && ctx.calldataSize == 32 * (|memories| - 1)
    && forall i :: 0 <= i < |memories| - 1 ==> AppendsValue(ctx, memories, i)
  }

  ghost predicate AppendsValue(ctx: Context, memories: seq<Bytes>, i: nat)
    requires i < |memories| - 1
  {
    && 32 * i < WORD_MODULUS
    && memories[i + 1] == StoreWord(memories[i], 32 * i, ctx.storage(ctx.calldata(32 * i)))
  }

  lemma LoopTurn(f: Machine -> Machine, code: Bytes, ctx: Context, p: nat, memories: seq<Bytes>, i: nat)
    requires Runs(f, code, ctx) && LoopAt(code, p) && TurnByTurn(ctx, memories) && i < |memories| - 1
    ensures Steps(f, AtHead(p, memories, i), 15) == AtHead(p, memories, i + 1)
  {
    assert AppendsValue(ctx, memories, i);
    assert AtHead(p, memories, i + 1) == Running(p, Item(32 * i + 32, Bottom), memories[i + 1]);
    TurnSteps(f, code, ctx, p, 32 * i, memories[i], ctx.storage(ctx.calldata(32 * i)), memories[i + 1]);
  }

  lemma {:induction false} LoopRuns(f: Machine -> Machine, code: Bytes, ctx: Context, p: nat, memories: seq<Bytes>,
                                    i: nat)
    requires Runs(f, code, ctx) && LoopAt(code, p) && TurnByTurn(ctx, memories) && i < |memories|
    ensures Steps(f, AtHead(p, memories, 0), 15 * i) == AtHead(p, memories, i)
  {
    if i == 0 {
    } else {
      LoopRuns(f, code, ctx, p, memories, i - 1);
      LoopTurn(f, code, ctx, p, memories, i - 1);
      Then(f, AtHead(p, memories, 0), 15 * (i - 1), AtHead(p, memories, i - 1), 15, AtHead(p, memories, i));
    }
  }

  /** All `n` turns and the exit test: counter and memory are complete. */
  lemma LoopCompletes(f: Machine -> Machine, code: Bytes, ctx: Context, p: nat, memories: seq<Bytes>, n: nat)
    requires Runs(f, code, ctx) && LoopAt(code, p) && TurnByTurn(ctx, memories) && n == |memories| - 1
    ensures Steps(f, Running(p, Item(0, Bottom), []), 15 * n + 6)
         == Running(p + 18, Item(32 * n, Bottom), memories[n])
  {
    LoopHead(f, code, ctx, p, 32 * n, memories[n]);
    LoopRuns(f, code, ctx, p, memories, n);
    assert AtHead(p, memories, 0) == Running(p, Item(0, Bottom), []);
    Then(f, Running(p, Item(0, Bottom), []), 15 * n, AtHead(p, memories, n), 6,
         Running(p + 18, Item(32 * n, Bottom), memories[n]));
  }

  /** The memory after `i` turns holds the first `i` loaded values. */
  function MemoryAfter(storage: Word -> Word, slots: seq<Word>, i: nat): Bytes
    requires i <= |slots|
  {
    Pack(Loads(storage, slots[..i]))
  }

  lemma MemoryGrows(storage: Word -> Word, slots: seq<Word>, i: nat)
    requires i < |slots|
    ensures MemoryAfter(storage, slots, i + 1) == StoreWord(MemoryAfter(storage, slots, i), 32 * i, storage(slots[i]))
  {
    var before := Loads(storage, slots[..i]);
    LoadsPrefix(storage, slots, i);
    StoreNext(before, 32 * i, storage(slots[i]));
  }

  lemma Memories(ctx: Context, slots: seq<Word>) returns (memories: seq<Bytes>)
    requires CarriesWords(ctx, slots)
    ensures TurnByTurn(ctx, memories) && |memories| == |slots| + 1
    ensures memories[|slots|] == Pack(Loads(ctx.storage, slots))
  {
    memories := seq(|slots| + 1, i requires 0 <= i <= |slots| => MemoryAfter(ctx.storage, slots, i));
    assert slots[..|slots|] == slots && slots[..0] == [];
    forall i | 0 <= i < |slots|
      ensures AppendsValue(ctx, memories, i)
    {
      MemoryGrows(ctx.storage, slots, i);
    }
  }

  /** The bytes after the loop return memory up to CALLDATASIZE: with the
      exit JUMPDEST and CALLDATASIZE, then a zero offset and RETURN. */
  predicate ReturnAt(code: Bytes, p: nat) {
    && p + 21 < |code|
    && ((code[p + 20] == 0x5f && code[p + 21] == 0xf3)
        || (p + 22 < |code| && code[p + 20] == 0x60 && code[p + 21] == 0 && code[p + 22] == 0xf3))
  }

  lemma ExitReturns(f: Machine -> Machine, code: Bytes, ctx: Context, p: nat, memory: Bytes, c: Word)
    requires Runs(f, code, ctx) && LoopAt(code, p) && ReturnAt(code, p)
    requires |memory| == ctx.calldataSize
    ensures Steps(f, Running(p + 18, Item(c, Bottom), memory), 3).Running?
    ensures Steps(f, Running(p + 18, Item(c, Bottom), memory), 4) == Returned(memory)
  {
    var s := Item(c, Bottom);
    var m0 := Running(p + 18, s, memory);
    var m1 := Running(p + 19, s, memory);
    var m2 := Running(p + 20, Item(ctx.calldataSize, s), memory);
    var m3 := Running(if code[p + 20] == 0x5f then p + 21 else p + 22, Item(0, m2.stack), memory);
    assert Step(code, ctx, m0) == m1;
    assert Step(code, ctx, m1) == m2;
    assert Step(code, ctx, m2) == m3;
    assert Steps(f, m1, 2) == m3;
    assert Steps(f, m0, 3) == m3;
    Returns(f, code, ctx, m3.pc, ctx.calldataSize, s, memory);
    Four(f, m0, m1, m2, m3, Returned(memory));
  }

  /** Either extractor: the entry push, `n` turns of 15 steps, exit and return. */
  lemma ExtractorRuns(f: Machine -> Machine, code: Bytes, ctx: Context, slots: seq<Word>)
    requires Runs(f, code, ctx)
    requires code == EXTRACTOR || code == EXTRACTOR_PRE_SHANGHAI
    requires CarriesWords(ctx, slots)
    ensures Steps(f, START, 15 * |slots| + 10).Running?
    ensures Steps(f, START, 15 * |slots| + 11) == Returned(Pack(Loads(ctx.storage, slots)))
  {
    var p := Layout(code);
    Entry(f, code, ctx);
    FromLoop(f, code, ctx, p, slots);
  }

  lemma FromLoop(f: Machine -> Machine, code: Bytes, ctx: Context, p: nat, slots: seq<Word>)
    requires Runs(f, code, ctx) && LoopAt(code, p) && ReturnAt(code, p) && CarriesWords(ctx, slots)
    requires Steps(f, START, 1) == Running(p, Item(0, Bottom), [])
    ensures Steps(f, START, 15 * |slots| + 10).Running?
    ensures Steps(f, START, 15 * |slots| + 11) == Returned(Pack(Loads(ctx.storage, slots)))
  {
    var n, memory := |slots|, Pack(Loads(ctx.storage, slots));
    var memories := Memories(ctx, slots);
    var k := 15 * |slots| + 10;
    FromEntry(f, code, ctx, p, memories, n, memory, k);
    assert Steps(f, START, k).Running?;
    assert k + 1 == 15 * |slots| + 11;
  }

  lemma FromEntry(f: Machine -> Machine, code: Bytes, ctx: Context, p: nat, memories: seq<Bytes>, n: nat, memory: Bytes,
                  k: nat)
    requires Runs(f, code, ctx) && LoopAt(code, p) && ReturnAt(code, p)
    requires TurnByTurn(ctx, memories) && n == |memories| - 1 && memories[n] == memory && |memory| == 32 * n
    requires Steps(f, START, 1) == Running(p, Item(0, Bottom), [])
    requires k == 15 * n + 10
    ensures Steps(f, START, k).Running? && Steps(f, START, k + 1) == Returned(memory)
  {
    assert k == 1 + (15 * n + 6) + 3 && k + 1 == 1 + (15 * n + 6) + 4;
    var entered := Running(p, Item(0, Bottom), []);
    var exiting := Running(p + 18, Item(32 * n, Bottom), memory);
    LoopCompletes(f, code, ctx, p, memories, n);
    Then(f, START, 1, entered, 15 * n + 6, exiting);
    ExitReturns(f, code, ctx, p, memory, 32 * n);
    Then(f, START, 1 + (15 * n + 6), exiting, 3, Steps(f, exiting, 3));
    Then(f, START, 1 + (15 * n + 6), exiting, 4, Returned(memory));
  }

  /** Where the loop head sits in either program. */
  lemma Layout(code: Bytes) returns (p: nat)
    requires code == EXTRACTOR || code == EXTRACTOR_PRE_SHANGHAI
    ensures p == (if |code| == 23 then 1 else 2)
    ensures LoopAt(code, p) && ReturnAt(code, p)
  {
    if code == EXTRACTOR {
      ShanghaiLoop();
      p := 1;
    } else {
      PreShanghaiLoop();
      p := 2;
    }
  }

  lemma Entry(f: Machine -> Machine, code: Bytes, ctx: Context)
    requires Runs(f, code, ctx)
    requires code == EXTRACTOR || code == EXTRACTOR_PRE_SHANGHAI
    ensures Steps(f, START, 1) == Running(if |code| == 23 then 1 else 2, Item(0, Bottom), [])
  {
    assert code[0] == 0x5f || (code[0] == 0x60 && code[1] == 0);
    assert Steps(f, START, 1) == Step(code, ctx, START);
  }

  /** Bytecode correctness: for every key list and every storage, calling either
      extractor returns exactly the SLOAD values packed in order. */
  lemma ExtractorReturnsLoads(code: Bytes, ctx: Context, slots: seq<Word>)
    requires code == EXTRACTOR || code == EXTRACTOR_PRE_SHANGHAI
    requires CarriesWords(ctx, slots)
    ensures Outcome(code, ctx) == Some(Pack(Loads(ctx.storage, slots)))
  {
    ExtractorRuns(Stepper(code, ctx), code, ctx, slots);
    OutcomeOfRun(code, ctx, 15 * |slots| + 11);
  }

  /** The two extractors are observationally equal. */
  lemma ExtractorsAgree(ctx: Context, slots: seq<Word>)
    requires CarriesWords(ctx, slots)
    ensures Outcome(EXTRACTOR, ctx) == Outcome(EXTRACTOR_PRE_SHANGHAI, ctx)
  {
    ExtractorReturnsLoads(EXTRACTOR, ctx, slots);
    ExtractorReturnsLoads(EXTRACTOR_PRE_SHANGHAI, ctx, slots);
  }
}
