/**
 The fragment of the EVM the injected extraction programs are written in:
 opcodes as in Appendix H.2 of the Ethereum Yellow Paper, with PUSH0 from
 EIP-3855, SHL and SHR from EIP-145 and EXTCODEHASH from EIP-1052.
 Any other opcode, a stack underflow or a bad jump fails the execution.
 */
module Evm {
  import opened Words

  datatype Stack = Bottom | Item(top: Word, below: Stack)

  datatype Machine =
    | Running(pc: nat, stack: Stack, memory: Bytes)
    | Returned(data: Bytes)
    | Failed

  /** Everything an execution can read: its caller, the size of its calldata and
      the word at each calldata offset, the storage of the executing account,
      and the balance and code hash of any account. */
  datatype Context = Context(caller: Address,
                             calldataSize: Word,
                             calldata: Word -> Word,
                             storage: Word -> Word,
                             balance: Address -> Word,
                             codeHash: Address -> Word)

  /** The context of a call whose input is `data`. */
  function CallContext(caller: Address, data: Bytes, storage: Word -> Word, balance: Address -> Word,
                       codeHash: Address -> Word): Context
  {
    Context(caller, |data| % WORD_MODULUS, (offset: Word) => LoadCalldata(data, offset), storage, balance, codeHash)
  }

  /** The calldata is exactly `ws`, one word after the other. */
  ghost predicate CarriesWords(ctx: Context, ws: seq<Word>) {
    && ctx.calldataSize == 32 * |ws|
    && forall i :: 0 <= i < |ws| ==> ctx.calldata(32 * i) == ws[i]
  }

  lemma PackedCalldata(caller: Address, ws: seq<Word>, storage: Word -> Word, balance: Address -> Word,
                       codeHash: Address -> Word)
    requires 32 * |ws| < WORD_MODULUS
    ensures CarriesWords(CallContext(caller, Pack(ws), storage, balance, codeHash), ws)
  {
    var data := Pack(ws);
    forall i | 0 <= i < |ws|
      ensures LoadCalldata(data, 32 * i) == ws[i]
    {
      CalldataWordAt(ws, i);
    }
    CarriesLoaded(caller, data, ws, storage, balance, codeHash);
  }

  lemma CarriesLoaded(caller: Address, data: Bytes, ws: seq<Word>, storage: Word -> Word, balance: Address -> Word,
                      codeHash: Address -> Word)
    requires |data| == 32 * |ws| < WORD_MODULUS
    requires forall i :: 0 <= i < |ws| ==> LoadCalldata(data, 32 * i) == ws[i]
    ensures CarriesWords(CallContext(caller, data, storage, balance, codeHash), ws)
  {
  }

  datatype Instr =
    | Push(value: Word, width: nat)
    | Dup(n: nat)
    | Pop | JumpDest | Jump | JumpI
    | Add | Eq | And | Shl | Shr
    | Caller | CallDataSize | CallDataLoad | SLoad | MStore | Balance | ExtCodeHash
    | Return | Invalid

  const CALLER: byte := 0x33
  const EXTCODEHASH: byte := 0x3f

  function Decode(code: Bytes, pc: nat): Instr
    requires pc < |code|
  {
    var op := code[pc];
    if op == 0x01 then Add
    else if op == 0x14 then Eq
    else if op == 0x16 then And
    else if op == 0x1b then Shl
    else if op == 0x1c then Shr
    else if op == 0x31 then Balance
    else if op == CALLER then Caller
    else if op == 0x35 then CallDataLoad
    else if op == 0x36 then CallDataSize
    else if op == EXTCODEHASH then ExtCodeHash
    else if op == 0x50 then Pop
    else if op == 0x52 then MStore
    else if op == 0x54 then SLoad
    else if op == 0x56 then Jump
    else if op == 0x57 then JumpI
    else if op == 0x5b then JumpDest
    else if op == 0x5f then Push(0, 0)
    else if op == 0x60 then Push(CodeAt(code, pc + 1), 1)
    else if op == 0x61 then Push(CodeAt(code, pc + 1) * 256 + CodeAt(code, pc + 2), 2)
    else if op == 0x80 then Dup(1)
    else if op == 0x81 then Dup(2)
    else if op == 0x82 then Dup(3)
    else if op == 0xf3 then Return
    else Invalid
  }

  /** Code reads as zero past its end. */
  function CodeAt(code: Bytes, i: nat): byte {
    if i < |code| then code[i] else 0
  }

  /** Bytes of immediate data following the opcode (PUSH1 to PUSH32). */
  function ImmediateWidth(op: byte): nat {
    if 0x60 <= op <= 0x7f then op - 0x5f else 0
  }

  /** Whether `at` starts an instruction when decoding begins at `from`. */
  predicate StartsInstr(code: Bytes, from: nat, at: nat)
    decreases at - from
  {
    from == at ||
    (from < at && from < |code| && StartsInstr(code, from + 1 + ImmediateWidth(code[from]), at))
  }

  /** Jumps may only land on a JUMPDEST that is an instruction, not push data. */
  predicate ValidTarget(code: Bytes, dest: Word) {
    dest < |code| && code[dest] == 0x5b && StartsInstr(code, 0, dest)
  }

  function Zeros(n: nat): (b: Bytes)
    ensures |b| == n && forall i :: 0 <= i < n ==> b[i] == 0
  {
    seq(n, _ => 0)
  }

  /** Memory grows in whole zeroed words, far enough to cover `upTo`. */
  function Expand(memory: Bytes, upTo: nat): (m: Bytes)
    ensures upTo <= |m| && memory <= m
  {
    if upTo <= |memory| then memory
    else memory + Zeros((upTo + 31) / 32 * 32 - |memory|)
  }

  function StoreWord(memory: Bytes, offset: nat, value: Word): Bytes {
    var m := Expand(memory, offset + 32);
    m[..offset] + WordBytes(value) + m[offset + 32..]
  }

  function ReadMemory(memory: Bytes, offset: nat, size: nat): (data: Bytes)
    ensures |data| == size
  {
    if size == 0 then [] else Expand(memory, offset + size)[offset..offset + size]
  }

  /** The 32 bytes of `data` at `offset`, zero past the end. */
  function Window(data: Bytes, offset: nat): (b: Bytes)
    ensures |b| == 32
  {
    ((if offset <= |data| then data[offset..] else []) + Zeros(32))[..32]
  }

  function LoadCalldata(data: Bytes, offset: nat): Word {
    WordOf(Window(data, offset))
  }

  function Pow2(n: nat): (p: nat)
    ensures p > 0
  {
    if n == 0 then 1 else 2 * Pow2(n - 1)
  }

  function ShiftLeft(shift: Word, value: Word): Word {
    if shift >= 256 then 0 else value * Pow2(shift) % WORD_MODULUS
  }

  /** Drop the `n` low bits. */
  function Halved(value: nat, n: nat): (r: nat)
    ensures r <= value
    decreases n
  {
    if n == 0 then value else Halved(value / 2, n - 1)
  }

  function ShiftRight(shift: Word, value: Word): Word {
    if shift >= 256 then 0 else Halved(value, shift)
  }

  function BitAnd(a: nat, b: nat): (r: nat)
    ensures r <= a
  {
    if a == 0 then 0 else 2 * BitAnd(a / 2, b / 2) + (if a % 2 == 1 && b % 2 == 1 then 1 else 0)
  }

  function Step(code: Bytes, ctx: Context, m: Machine): Machine {
    if !m.Running? then m
    else if m.pc >= |code| then Returned([])
    else Apply(Decode(code, m.pc), code, ctx, m.pc, m.stack, m.memory)
  }

  function Apply(instr: Instr, code: Bytes, ctx: Context, pc: nat, s: Stack, memory: Bytes): Machine {
    match instr
    case Push(v, width) => Running(pc + 1 + width, Item(v, s), memory)
    case JumpDest => Running(pc + 1, s, memory)
    case Caller => Running(pc + 1, Item(ctx.caller, s), memory)
    case CallDataSize => Running(pc + 1, Item(ctx.calldataSize, s), memory)
    case Invalid => Failed
    case _ =>
      match s
      case Bottom => Failed
      case Item(x, s1) => Apply1(instr, code, ctx, pc, x, s1, memory)
  }

  /** Instructions that need a top-of-stack operand `x`. */
  function Apply1(instr: Instr, code: Bytes, ctx: Context, pc: nat, x: Word, s: Stack, memory: Bytes): Machine {
    match instr
    case Pop => Running(pc + 1, s, memory)
    case Dup(1) => Running(pc + 1, Item(x, Item(x, s)), memory)
    case CallDataLoad => Running(pc + 1, Item(ctx.calldata(x), s), memory)
    case SLoad => Running(pc + 1, Item(ctx.storage(x), s), memory)
    case Balance => Running(pc + 1, Item(ctx.balance(x % ADDRESS_MODULUS), s), memory)
    case ExtCodeHash => Running(pc + 1, Item(ctx.codeHash(x % ADDRESS_MODULUS), s), memory)
    case Jump => if ValidTarget(code, x) then Running(x, s, memory) else Failed
    case _ =>
      match s
      case Bottom => Failed
      case Item(y, s2) => Apply2(instr, code, pc, x, y, s2, memory)
  }

  /** Instructions that need two operands, `x` on top of `y`. */
  function Apply2(instr: Instr, code: Bytes, pc: nat, x: Word, y: Word, s: Stack, memory: Bytes): Machine {
    match instr
    case Add => Running(pc + 1, Item((x + y) % WORD_MODULUS, s), memory)
    case Eq => Running(pc + 1, Item(if x == y then 1 else 0, s), memory)
    case And => Running(pc + 1, Item(BitAnd(x, y), s), memory)
    case Shl => Running(pc + 1, Item(ShiftLeft(x, y), s), memory)
    case Shr => Running(pc + 1, Item(ShiftRight(x, y), s), memory)
    case MStore => Running(pc + 1, s, StoreWord(memory, x, y))
    case JumpI =>
      if y == 0 then Running(pc + 1, s, memory)
      else if ValidTarget(code, x) then Running(x, s, memory)
      else Failed
    case Return => Returned(ReadMemory(memory, x, y))
    case Dup(2) => Running(pc + 1, Item(y, Item(x, Item(y, s))), memory)
    case Dup(3) =>
      (match s
       case Bottom => Failed
       case Item(z, s3) => Running(pc + 1, Item(z, Item(x, Item(y, Item(z, s3)))), memory))
    case _ => Failed
  }

  const START: Machine := Running(0, Bottom, [])

  function Stepper(code: Bytes, ctx: Context): Machine -> Machine {
    m => Step(code, ctx, m)
  }

  /** `f` is the step function of `code` in `ctx`.  Composite proofs carry `f`
      and instantiate this fact only where a concrete step is named. */
  ghost predicate Runs(f: Machine -> Machine, code: Bytes, ctx: Context) {
    forall m {:trigger Step(code, ctx, m)} :: f(m) == Step(code, ctx, m)
  }

  /** The machine after `n` steps of `f`. */
  function Steps(f: Machine -> Machine, m: Machine, n: nat): Machine
    decreases n
  {
    if n == 0 then m else Steps(f, f(m), n - 1)
  }

  lemma {:induction false} StepsCompose(f: Machine -> Machine, m: Machine, a: nat, b: nat)
    ensures Steps(f, m, a + b) == Steps(f, Steps(f, m, a), b)
    decreases a
  {
    if a == 0 {
    } else {
      StepsCompose(f, f(m), a - 1, b);
    }
  }

  lemma Then(f: Machine -> Machine, a: Machine, i: nat, b: Machine, j: nat, c: Machine)
    requires Steps(f, a, i) == b && Steps(f, b, j) == c
    ensures Steps(f, a, i + j) == c
  {
    StepsCompose(f, a, i, j);
  }

  /** One ADD that does not wrap. */
  lemma Adds(f: Machine -> Machine, code: Bytes, ctx: Context, pc: nat, x: Word, y: Word, sum: Word, s: Stack,
             memory: Bytes)
    requires Runs(f, code, ctx) && pc < |code| && code[pc] == 0x01 && sum == x + y
    ensures f(Running(pc, Item(x, Item(y, s)), memory)) == Running(pc + 1, Item(sum, s), memory)
  {
    var m := Running(pc, Item(x, Item(y, s)), memory);
    assert Decode(code, pc) == Add;
    assert Step(code, ctx, m) == Apply(Add, code, ctx, pc, m.stack, memory);
  }

  /** One MSTORE. */
  lemma Stores(f: Machine -> Machine, code: Bytes, ctx: Context, pc: nat, offset: Word, value: Word, s: Stack,
               memory: Bytes)
    requires Runs(f, code, ctx) && pc < |code| && code[pc] == 0x52
    ensures f(Running(pc, Item(offset, Item(value, s)), memory)) == Running(pc + 1, s, StoreWord(memory, offset, value))
  {
    var m := Running(pc, Item(offset, Item(value, s)), memory);
    assert Decode(code, pc) == MStore;
    assert Step(code, ctx, m) == Apply(MStore, code, ctx, pc, m.stack, memory);
  }

  /** One RETURN of the whole memory. */
  lemma Returns(f: Machine -> Machine, code: Bytes, ctx: Context, pc: nat, size: Word, s: Stack, memory: Bytes)
    requires Runs(f, code, ctx) && pc < |code| && code[pc] == 0xf3 && |memory| == size
    ensures f(Running(pc, Item(0, Item(size, s)), memory)) == Returned(memory)
  {
    var m := Running(pc, Item(0, Item(size, s)), memory);
    assert Decode(code, pc) == Return;
    assert Step(code, ctx, m) == Apply(Return, code, ctx, pc, m.stack, memory);
    ReadAll(memory);
  }

  lemma Three(f: Machine -> Machine, m0: Machine, m1: Machine, m2: Machine, m3: Machine)
    requires f(m0) == m1 && f(m1) == m2 && f(m2) == m3
    ensures Steps(f, m0, 3) == m3
  {
    assert Steps(f, m2, 1) == m3;
    assert Steps(f, m1, 2) == m3;
  }

  lemma Four(f: Machine -> Machine, m0: Machine, m1: Machine, m2: Machine, m3: Machine, m4: Machine)
    requires f(m0) == m1 && f(m1) == m2 && f(m2) == m3 && f(m3) == m4
    ensures Steps(f, m0, 4) == m4
  {
    Three(f, m1, m2, m3, m4);
  }

  lemma {:induction false} HaltedStays(f: Machine -> Machine, m: Machine, n: nat)
    requires f(m) == m
    ensures Steps(f, m, n) == m
  {
    if n == 0 {
    } else {
      HaltedStays(f, m, n - 1);
    }
  }

  /** What a call to `code` produces: its return data, or `None` when it fails
      or never halts. */
  ghost function Outcome(code: Bytes, ctx: Context): Option<Bytes> {
    var f := Stepper(code, ctx);
    if exists n: nat :: Steps(f, START, n).Returned? then
      var n: nat :| Steps(f, START, n).Returned?;
      Some(Steps(f, START, n).data)
    else None
  }

  /** Executions are deterministic: any halting run gives the outcome. */
  lemma OutcomeOfRun(code: Bytes, ctx: Context, n: nat)
    requires Steps(Stepper(code, ctx), START, n).Returned?
    ensures Outcome(code, ctx) == Some(Steps(Stepper(code, ctx), START, n).data)
  {
    var f := Stepper(code, ctx);
    var k: nat :| Steps(f, START, k).Returned? && Outcome(code, ctx) == Some(Steps(f, START, k).data);
    var lo, hi := if k <= n then k else n, if k <= n then n else k;
    StepsCompose(f, START, lo, hi - lo);
    HaltedStays(f, Steps(f, START, lo), hi - lo);
  }

  /** Storing one word at the end of word-aligned memory appends it. */
  lemma StoreAppends(memory: Bytes, k: nat, offset: nat, value: Word)
    requires offset == |memory| == 32 * k
    ensures StoreWord(memory, offset, value) == memory + WordBytes(value)
  {
    var m := Expand(memory, offset + 32);
    assert (offset + 32 + 31) / 32 == k + 1;
    assert |m| == offset + 32;
    assert m[offset + 32..] == [];
    assert m[..offset] == memory;
  }

  /** The same, for memory holding packed words: the next word is appended. */
  lemma StoreNext(ws: seq<Word>, offset: nat, value: Word)
    requires offset == 32 * |ws|
    ensures StoreWord(Pack(ws), offset, value) == Pack(ws + [value])
  {
    PackAppend(ws, value);
    StoreAppends(Pack(ws), |ws|, offset, value);
  }

  lemma WindowInside(data: Bytes, offset: nat)
    requires offset + 32 <= |data|
    ensures Window(data, offset) == data[offset..offset + 32]
  {
  }

  lemma CalldataWordAt(ws: seq<Word>, i: nat)
    requires i < |ws|
    ensures LoadCalldata(Pack(ws), 32 * i) == ws[i]
  {
    PackedWordAt(ws, i);
    WindowInside(Pack(ws), 32 * i);
  }

  /** A whole-memory RETURN from offset zero. */
  lemma ReadAll(memory: Bytes)
    ensures ReadMemory(memory, 0, |memory|) == memory
  {
  }
}
