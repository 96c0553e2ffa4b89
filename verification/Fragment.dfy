/**
 Programs of the EVM fragment.  A program belongs to it when every instruction
 it consists of does; such a program never meets an opcode the model leaves
 out, and what it computes depends on its context only through the
 instructions it contains.
 */
module Fragment {
  import opened Words
  import opened Evm
  import opened Extractor
  import AccountFields
  import ObservationRing

  /** No instruction from `pc` on decodes to `instr`. */
  predicate Avoids(code: Bytes, pc: nat, instr: Instr)
    decreases |code| - pc
  {
    pc >= |code| || (Decode(code, pc) != instr && Avoids(code, pc + 1 + ImmediateWidth(code[pc]), instr))
  }

  predicate InFragment(code: Bytes) {
    Avoids(code, 0, Invalid)
  }

  predicate HashFree(code: Bytes) {
    Avoids(code, 0, ExtCodeHash)
  }

  predicate CallerFree(code: Bytes) {
    Avoids(code, 0, Caller)
  }

  // ----- Executions stay on instruction starts -----

  lemma {:induction false} AvoidsAt(code: Bytes, from: nat, at: nat, instr: Instr)
    requires Avoids(code, from, instr) && StartsInstr(code, from, at) && at < |code|
    ensures Decode(code, at) != instr
    decreases at - from
  {
    if from == at {
    } else {
      AvoidsAt(code, from + 1 + ImmediateWidth(code[from]), at, instr);
    }
  }

  lemma {:induction false} NextStart(code: Bytes, from: nat, at: nat)
    requires StartsInstr(code, from, at) && at < |code|
    ensures StartsInstr(code, from, at + 1 + ImmediateWidth(code[at]))
    decreases at - from
  {
    if from == at {
    } else {
      NextStart(code, from + 1 + ImmediateWidth(code[from]), at);
    }
  }

  predicate OnStart(code: Bytes, m: Machine) {
    m.Running? ==> StartsInstr(code, 0, m.pc)
  }

  lemma StepOnStart(code: Bytes, ctx: Context, m: Machine)
    requires OnStart(code, m)
    ensures OnStart(code, Step(code, ctx, m))
  {
    if m.Running? && m.pc < |code| {
      NextStart(code, 0, m.pc);
    }
  }

  lemma {:induction false} StepsOnStart(code: Bytes, ctx: Context, m: Machine, n: nat)
    requires OnStart(code, m)
    ensures OnStart(code, Steps(Stepper(code, ctx), m, n))
    decreases n
  {
    if n == 0 {
    } else {
      StepOnStart(code, ctx, m);
      StepsOnStart(code, ctx, Step(code, ctx, m), n - 1);
    }
  }

  /** A fragment program never reaches an opcode outside the fragment. */
  lemma FragmentSuffices(code: Bytes, ctx: Context, n: nat)
    requires InFragment(code)
    ensures var m := Steps(Stepper(code, ctx), START, n);
            m.Running? && m.pc < |code| ==> Decode(code, m.pc) != Invalid
  {
    StepsOnStart(code, ctx, START, n);
    var m := Steps(Stepper(code, ctx), START, n);
    if m.Running? && m.pc < |code| {
      AvoidsAt(code, 0, m.pc, Invalid);
    }
  }

  // ----- What an execution can tell apart -----

  /** Contexts that agree on everything `code` has an instruction for. */
  ghost predicate SameView(code: Bytes, a: Context, b: Context) {
    && a.calldataSize == b.calldataSize && a.calldata == b.calldata
    && a.storage == b.storage && a.balance == b.balance
    && (CallerFree(code) || a.caller == b.caller)
    && (HashFree(code) || forall x: Address :: a.codeHash(x) == b.codeHash(x))
  }

  lemma SameStep(code: Bytes, a: Context, b: Context, m: Machine)
    requires SameView(code, a, b) && OnStart(code, m)
    ensures Step(code, a, m) == Step(code, b, m)
  {
    if m.Running? && m.pc < |code| {
      if CallerFree(code) {
        AvoidsAt(code, 0, m.pc, Caller);
      }
      if HashFree(code) {
        AvoidsAt(code, 0, m.pc, ExtCodeHash);
      }
    }
  }

  lemma {:induction false} SameSteps(code: Bytes, a: Context, b: Context, m: Machine, n: nat)
    requires SameView(code, a, b) && OnStart(code, m)
    ensures Steps(Stepper(code, a), m, n) == Steps(Stepper(code, b), m, n)
    decreases n
  {
    if n == 0 {
    } else {
      SameStep(code, a, b, m);
      StepOnStart(code, a, m);
      SameSteps(code, a, b, Step(code, a, m), n - 1);
    }
  }

  lemma SameOutcome(code: Bytes, a: Context, b: Context)
    requires SameView(code, a, b)
    ensures Outcome(code, a) == Outcome(code, b)
  {
    forall n: nat ensures Steps(Stepper(code, a), START, n) == Steps(Stepper(code, b), START, n) {
      SameSteps(code, a, b, START, n);
    }
    if n: nat :| Steps(Stepper(code, a), START, n).Returned? {
      OutcomeOfRun(code, a, n);
      OutcomeOfRun(code, b, n);
    }
  }

  // ----- The shipped programs belong to the fragment -----

  /** One more instruction in front. */
  lemma Before(code: Bytes, pc: nat, next: nat, instr: Instr)
    requires pc < |code| && next == pc + 1 + ImmediateWidth(code[pc])
    requires Decode(code, pc) != instr && Avoids(code, next, instr)
    ensures Avoids(code, pc, instr)
  {
  }

  /** The extraction loop from the exit on. */
  lemma ExitInFragment(code: Bytes, p: nat, instr: Instr)
    requires LoopAt(code, p) && ReturnAt(code, p)
    requires |code| == (if code[p + 20] == 0x5f then p + 22 else p + 23) && Absent(instr, code[p + 20])
    ensures Avoids(code, p + 12, instr)
  {
    if code[p + 20] == 0x5f {
      Before(code, p + 21, p + 22, instr);
      Before(code, p + 20, p + 21, instr);
    } else {
      Before(code, p + 22, p + 23, instr);
      Before(code, p + 20, p + 22, instr);
    }
    Before(code, p + 19, p + 20, instr);
    Before(code, p + 18, p + 19, instr);
    Before(code, p + 17, p + 18, instr);
    Before(code, p + 15, p + 17, instr);
    Before(code, p + 14, p + 15, instr);
    Before(code, p + 12, p + 14, instr);
  }

  lemma LoopInFragment(code: Bytes, p: nat, instr: Instr)
    requires LoopAt(code, p) && Avoids(code, p + 12, instr) && (instr == Invalid || instr == PUSH0)
    ensures Avoids(code, p, instr)
  {
    Before(code, p + 11, p + 12, instr);
    Before(code, p + 10, p + 11, instr);
    Before(code, p + 9, p + 10, instr);
    Before(code, p + 8, p + 9, instr);
    Before(code, p + 7, p + 8, instr);
    Before(code, p + 6, p + 7, instr);
    Before(code, p + 4, p + 6, instr);
    Before(code, p + 3, p + 4, instr);
    Before(code, p + 2, p + 3, instr);
    Before(code, p + 1, p + 2, instr);
    Before(code, p, p + 1, instr);
  }

  lemma AssembledInFragment(code: Bytes, p: nat, instr: Instr)
    requires LoopAt(code, p) && ReturnAt(code, p)
    requires (code[0] == 0x5f && p == 1) || (code[0] == 0x60 && p == 2)
    requires |code| == (if code[p + 20] == 0x5f then p + 22 else p + 23)
    requires Absent(instr, code[0]) && Absent(instr, code[p + 20])
    ensures Avoids(code, 0, instr)
  {
    ExitInFragment(code, p, instr);
    LoopInFragment(code, p, instr);
    Before(code, 0, p, instr);
  }

  lemma ExtractorsInFragment(code: Bytes)
    requires code == EXTRACTOR || code == EXTRACTOR_PRE_SHANGHAI
    ensures InFragment(code)
  {
    var p := Layout(code);
    ExtractorBytes(code, p);
    AssembledInFragment(code, p, Invalid);
  }

  /** The pre-Shanghai extractor also has no PUSH0, so it is a program of the
      fragment as it was before EIP-3855. */
  lemma PreShanghaiHasNoPush0()
    ensures InFragment(EXTRACTOR_PRE_SHANGHAI) && Avoids(EXTRACTOR_PRE_SHANGHAI, 0, PUSH0)
  {
    var code := EXTRACTOR_PRE_SHANGHAI;
    ExtractorsInFragment(code);
    var p := Layout(code);
    ExtractorBytes(code, p);
    AssembledInFragment(code, p, PUSH0);
  }

  const PUSH0: Instr := Push(0, 0)

  /** `instr` is one of the two that are looked for, and `op` does not decode to it. */
  predicate Absent(instr: Instr, op: byte) {
    instr == Invalid || (instr == PUSH0 && op != 0x5f)
  }


  lemma ExtractorBytes(code: Bytes, p: nat)
    requires code == EXTRACTOR || code == EXTRACTOR_PRE_SHANGHAI
    requires p == (if |code| == 23 then 1 else 2) && LoopAt(code, p) && ReturnAt(code, p)
    ensures (code[0] == 0x5f && p == 1) || (code[0] == 0x60 && p == 2)
    ensures |code| == (if code[p + 20] == 0x5f then p + 22 else p + 23)
    ensures code == EXTRACTOR_PRE_SHANGHAI ==> code[0] != 0x5f && code[p + 20] != 0x5f
  {
    if code == EXTRACTOR {
      assert code[0] == 0x5f && code[21] == 0x5f;
    } else {
      assert code[0] == 0x60 && code[22] == 0x60;
    }
  }

  lemma FieldsTail(code: Bytes)
    requires AccountFields.IsProgram(code)
    ensures Avoids(code, 26, Invalid)
  {
    Before(code, 38, 39, Invalid);
    Before(code, 37, 38, Invalid);
    Before(code, 36, 37, Invalid);
    Before(code, 34, 36, Invalid);
    Before(code, 33, 34, Invalid);
    Before(code, 32, 33, Invalid);
    Before(code, 31, 32, Invalid);
    Before(code, 29, 31, Invalid);
    Before(code, 28, 29, Invalid);
    Before(code, 26, 28, Invalid);
  }

  lemma FieldsHashes(code: Bytes)
    requires AccountFields.IsProgram(code) && Avoids(code, 26, Invalid)
    ensures Avoids(code, 17, Invalid)
  {
    Before(code, 25, 26, Invalid);
    Before(code, 24, 25, Invalid);
    Before(code, 22, 24, Invalid);
    Before(code, 21, 22, Invalid);
    Before(code, 19, 21, Invalid);
    Before(code, 18, 19, Invalid);
    Before(code, 17, 18, Invalid);
  }

  lemma FieldsBalances(code: Bytes)
    requires AccountFields.IsProgram(code) && Avoids(code, 17, Invalid)
    ensures Avoids(code, 8, Invalid)
  {
    Before(code, 16, 17, Invalid);
    Before(code, 15, 16, Invalid);
    Before(code, 13, 15, Invalid);
    Before(code, 12, 13, Invalid);
    Before(code, 11, 12, Invalid);
    Before(code, 10, 11, Invalid);
    Before(code, 9, 10, Invalid);
    Before(code, 8, 9, Invalid);
  }

  lemma FieldsHead(code: Bytes)
    requires AccountFields.IsProgram(code) && Avoids(code, 8, Invalid)
    ensures Avoids(code, 0, Invalid)
  {
    Before(code, 7, 8, Invalid);
    Before(code, 5, 7, Invalid);
    Before(code, 4, 5, Invalid);
    Before(code, 3, 4, Invalid);
    Before(code, 2, 3, Invalid);
    Before(code, 1, 2, Invalid);
    Before(code, 0, 1, Invalid);
  }

  lemma AccountFieldsInFragment()
    ensures InFragment(AccountFields.ACCOUNT_FIELDS)
  {
    var code := AccountFields.ACCOUNT_FIELDS;
    AccountFields.ProgramBytes();
    AllFields(code);
  }

  lemma AllFields(code: Bytes)
    requires AccountFields.IsProgram(code)
    ensures InFragment(code)
  {
    FieldsTail(code);
    FieldsHashes(code);
    FieldsBalances(code);
    FieldsHead(code);
  }

  lemma RingExit(code: Bytes)
    requires ObservationRing.IsBody(code) && ObservationRing.IsTail(code)
    ensures Avoids(code, 33, Invalid)
  {
    Before(code, 39, 40, Invalid);
    Before(code, 38, 39, Invalid);
    Before(code, 37, 38, Invalid);
    Before(code, 35, 37, Invalid);
    Before(code, 34, 35, Invalid);
    Before(code, 33, 34, Invalid);
  }

  lemma RingLoads(code: Bytes)
    requires ObservationRing.IsBody(code) && Avoids(code, 33, Invalid)
    ensures Avoids(code, 20, Invalid)
  {
    Before(code, 32, 33, Invalid);
    Before(code, 30, 32, Invalid);
    Before(code, 29, 30, Invalid);
    Before(code, 27, 29, Invalid);
    Before(code, 26, 27, Invalid);
    Before(code, 25, 26, Invalid);
    Before(code, 23, 25, Invalid);
    Before(code, 22, 23, Invalid);
    Before(code, 21, 22, Invalid);
    Before(code, 20, 21, Invalid);
  }

  lemma RingTest(code: Bytes)
    requires ObservationRing.IsBody(code) && Avoids(code, 20, Invalid)
    ensures Avoids(code, 10, Invalid)
  {
    Before(code, 18, 20, Invalid);
    Before(code, 17, 18, Invalid);
    Before(code, 16, 17, Invalid);
    Before(code, 14, 16, Invalid);
    Before(code, 13, 14, Invalid);
    Before(code, 12, 13, Invalid);
    Before(code, 11, 12, Invalid);
    Before(code, 10, 11, Invalid);
  }

  lemma RingSetup(code: Bytes)
    requires ObservationRing.IsEntry(code) && Avoids(code, 10, Invalid)
    ensures Avoids(code, 0, Invalid)
  {
    Before(code, 9, 10, Invalid);
    Before(code, 8, 9, Invalid);
    Before(code, 5, 8, Invalid);
    Before(code, 4, 5, Invalid);
    Before(code, 2, 4, Invalid);
    Before(code, 1, 2, Invalid);
    Before(code, 0, 1, Invalid);
  }

  lemma RingInFragment()
    ensures InFragment(ObservationRing.RING)
  {
    var code := ObservationRing.RING;
    ObservationRing.RingEntry();
    ObservationRing.RingBody();
    ObservationRing.RingTail();
    WholeRing(code);
  }

  lemma WholeRing(code: Bytes)
    requires ObservationRing.IsEntry(code) && ObservationRing.IsBody(code) && ObservationRing.IsTail(code)
    ensures InFragment(code)
  {
    RingExit(code);
    RingLoads(code);
    RingTest(code);
    RingSetup(code);
  }
}
