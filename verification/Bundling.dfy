/**
 When a storage program can tell that it shares its call with others
 (`run_storage_programs` of `src/bulk_storage.rs`): bundled, it is called by the
 dispatcher and runs next to other overrides; alone, by the sender and by
 itself.
 */
module Bundling {
  import opened Words
  import opened Evm
  import opened Fragment
  import opened BulkPlan
  import opened BulkCalls
  import opened IdealNode

  datatype StorageProgram = StorageProgram(target: Address, code: Bytes, calldata: Bytes)

  /** What the program returns when it runs alone. */
  ghost function Solo(chain: Chain, p: StorageProgram): Option<Bytes> {
    MessageCall(chain, map[p.target := Program(p.code)], chain.sender, p.target, p.calldata)
  }

  /** What it returns as a subcall of the dispatcher under a shared override map. */
  ghost function Bundled(chain: Chain, overrides: Overrides, p: StorageProgram): Option<Bytes> {
    MessageCall(chain, overrides, MULTICALL3, p.target, p.calldata)
  }

  /** The other overrides leave every code hash as it was. */
  ghost predicate HashesAgree(chain: Chain, overrides: Overrides, target: Address) {
    forall a :: a in overrides && a != target ==> chain.hashOf(overrides[a]) == chain.codeHash(a)
  }

  /** Nothing the program has an instruction for differs. */
  ghost predicate Transparent(chain: Chain, overrides: Overrides, p: StorageProgram) {
    || p.target in chain.precompiles
    || (&& (CallerFree(p.code) || chain.sender == MULTICALL3)
        && (HashFree(p.code) || HashesAgree(chain, overrides, p.target)))
  }

  lemma TransparentRunsAsSolo(chain: Chain, overrides: Overrides, p: StorageProgram)
    requires p.target in overrides && overrides[p.target] == Program(p.code)
    requires Transparent(chain, overrides, p)
    ensures Bundled(chain, overrides, p) == Solo(chain, p)
  {
    if p.target in chain.precompiles {
    } else {
      var alone := map[p.target := Program(p.code)];
      SameOutcome(p.code, ContextAt(chain, overrides, MULTICALL3, p.target, p.calldata),
                  ContextAt(chain, alone, chain.sender, p.target, p.calldata));
    }
  }

  // ----- Two programs that can tell -----

  /** PUSH0, MSTORE, PUSH1 32, PUSH0, RETURN at `p`: return the top of the stack. */
  predicate ReturnsTop(code: Bytes, p: nat) {
    && p + 6 == |code|
    && code[p] == 0x5f && code[p + 1] == 0x52 && code[p + 2] == 0x60 && code[p + 3] == 32
    && code[p + 4] == 0x5f && code[p + 5] == 0xf3
  }

  lemma TopReturned(f: Machine -> Machine, code: Bytes, ctx: Context, p: nat, w: Word)
    requires Runs(f, code, ctx) && ReturnsTop(code, p)
    ensures Steps(f, Running(p, Item(w, Bottom), []), 5) == Returned(WordBytes(w))
  {
    var memory := WordBytes(w);
    StoreAppends([], 0, 0, w);
    assert [] + memory == memory;
    var m0 := Running(p, Item(w, Bottom), []);
    var m1 := Running(p + 1, Item(0, Item(w, Bottom)), []);
    var m2 := Running(p + 2, Bottom, memory);
    var m3 := Running(p + 4, Item(32, Bottom), memory);
    var m4 := Running(p + 5, Item(0, Item(32, Bottom)), memory);
    assert Step(code, ctx, m0) == m1;
    Stores(f, code, ctx, p + 1, 0, w, Bottom, []);
    assert Step(code, ctx, m2) == m3;
    assert Step(code, ctx, m3) == m4;
    Returns(f, code, ctx, p + 5, 32, Bottom, memory);
    Three(f, m2, m3, m4, Returned(memory));
    assert Steps(f, m1, 1) == m2;
    assert Steps(f, m0, 2) == m2;
    Then(f, m0, 2, m2, 3, Returned(memory));
  }

  /** PUSH0, CALLDATALOAD, EXTCODEHASH, and return it. */
  const HASH_OF_ARGUMENT: Bytes := [0x5f, 0x35, 0x3f, 0x5f, 0x52, 0x60, 0x20, 0x5f, 0xf3]

  /** CALLER, and return it. */
  const OWN_CALLER: Bytes := [0x33, 0x5f, 0x52, 0x60, 0x20, 0x5f, 0xf3]

  lemma HashReturned(ctx: Context)
    ensures Outcome(HASH_OF_ARGUMENT, ctx) == Some(WordBytes(ctx.codeHash(ctx.calldata(0) % ADDRESS_MODULUS)))
  {
    var code, f := HASH_OF_ARGUMENT, Stepper(HASH_OF_ARGUMENT, ctx);
    var x := ctx.calldata(0);
    var h := ctx.codeHash(x % ADDRESS_MODULUS);
    var m1 := Running(1, Item(0, Bottom), []);
    var m2 := Running(2, Item(x, Bottom), []);
    var m3 := Running(3, Item(h, Bottom), []);
    assert Step(code, ctx, START) == m1;
    assert Step(code, ctx, m1) == m2;
    assert Step(code, ctx, m2) == m3;
    Three(f, START, m1, m2, m3);
    assert ReturnsTop(code, 3);
    TopReturned(f, code, ctx, 3, h);
    Then(f, START, 3, m3, 5, Returned(WordBytes(h)));
    OutcomeOfRun(code, ctx, 8);
  }

  lemma CallerReturned(ctx: Context)
    ensures Outcome(OWN_CALLER, ctx) == Some(WordBytes(ctx.caller))
  {
    var code, f := OWN_CALLER, Stepper(OWN_CALLER, ctx);
    var m1 := Running(1, Item(ctx.caller, Bottom), []);
    assert Step(code, ctx, START) == m1;
    assert Steps(f, START, 1) == m1;
    assert ReturnsTop(code, 1);
    TopReturned(f, code, ctx, 1, ctx.caller);
    Then(f, START, 1, m1, 5, Returned(WordBytes(ctx.caller)));
    OutcomeOfRun(code, ctx, 6);
  }

  lemma TopInFragment(code: Bytes, p: nat)
    requires ReturnsTop(code, p)
    ensures Avoids(code, p, Invalid) && Avoids(code, p, Caller)
  {
    assert Avoids(code, p + 5, Invalid) && Avoids(code, p + 5, Caller);
    assert Avoids(code, p + 4, Invalid) && Avoids(code, p + 4, Caller);
    assert Avoids(code, p + 2, Invalid) && Avoids(code, p + 2, Caller);
    assert Avoids(code, p + 1, Invalid) && Avoids(code, p + 1, Caller);
  }

  /** The hash witness, byte by byte. */
  predicate HashesArgument(code: Bytes) {
    |code| == 9 && code[0] == 0x5f && code[1] == 0x35 && code[2] == 0x3f && ReturnsTop(code, 3)
  }

  lemma HashWitnessInFragment(code: Bytes)
    requires HashesArgument(code)
    ensures InFragment(code) && CallerFree(code)
  {
    TopInFragment(code, 3);
    assert Avoids(code, 2, Invalid) && Avoids(code, 2, Caller);
    assert Avoids(code, 1, Invalid) && Avoids(code, 1, Caller);
  }

  lemma WitnessesInFragment()
    ensures InFragment(HASH_OF_ARGUMENT) && CallerFree(HASH_OF_ARGUMENT)
    ensures InFragment(OWN_CALLER)
  {
    assert HashesArgument(HASH_OF_ARGUMENT);
    HashWitnessInFragment(HASH_OF_ARGUMENT);
    assert ReturnsTop(OWN_CALLER, 1);
    TopInFragment(OWN_CALLER, 1);
  }

  lemma ArgumentIs(chain: Chain, overrides: Overrides, caller: Address, to: Address, a: Address)
    ensures ContextAt(chain, overrides, caller, to, WordBytes(a)).calldata(0) % ADDRESS_MODULUS == a
  {
    var data := WordBytes(a);
    WindowInside(data, 0);
    assert data[0..32] == data;
    WordRoundTrip(a);
  }

  lemma WordBytesInjective(x: Word, y: Word)
    requires WordBytes(x) == WordBytes(y)
    ensures x == y
  {
    WordRoundTrip(x);
    WordRoundTrip(y);
  }

  // ----- Exactly when bundling is invisible -----

  function At(target: Address, code: Bytes, data: Bytes): StorageProgram {
    StorageProgram(target, code, data)
  }

  /** Injected at `target` of this bundle, the program returns what it does alone. */
  ghost predicate Alike(chain: Chain, overrides: Overrides, p: StorageProgram) {
    Bundled(chain, overrides[p.target := Program(p.code)], p) == Solo(chain, p)
  }

  ghost predicate AllAlike(chain: Chain, overrides: Overrides, target: Address) {
    forall code, data :: InFragment(code) ==> Alike(chain, overrides, At(target, code, data))
  }

  ghost predicate CallerFreeAlike(chain: Chain, overrides: Overrides, target: Address) {
    forall code, data :: InFragment(code) && CallerFree(code) ==> Alike(chain, overrides, At(target, code, data))
  }

  lemma AlikeWhenTransparent(chain: Chain, overrides: Overrides, p: StorageProgram)
    requires HashesAgree(chain, overrides, p.target) && (CallerFree(p.code) || chain.sender == MULTICALL3)
    ensures Alike(chain, overrides, p)
  {
    TransparentRunsAsSolo(chain, overrides[p.target := Program(p.code)], p);
  }

  /** The hash witness, pointed at `a`, tells whether `a`'s hash is unchanged. */
  lemma HashWitness(chain: Chain, overrides: Overrides, target: Address, a: Address)
    requires target !in chain.precompiles && a in overrides && a != target
    requires Alike(chain, overrides, At(target, HASH_OF_ARGUMENT, WordBytes(a)))
    ensures chain.hashOf(overrides[a]) == chain.codeHash(a)
  {
    var bundled, alone := overrides[target := Program(HASH_OF_ARGUMENT)], map[target := Program(HASH_OF_ARGUMENT)];
    ArgumentIs(chain, bundled, MULTICALL3, target, a);
    ArgumentIs(chain, alone, chain.sender, target, a);
    HashReturned(ContextAt(chain, bundled, MULTICALL3, target, WordBytes(a)));
    HashReturned(ContextAt(chain, alone, chain.sender, target, WordBytes(a)));
    WordBytesInjective(chain.hashOf(overrides[a]), chain.codeHash(a));
  }

  lemma CallerWitness(chain: Chain, overrides: Overrides, target: Address)
    requires target !in chain.precompiles && Alike(chain, overrides, At(target, OWN_CALLER, []))
    ensures chain.sender == MULTICALL3
  {
    var bundled, alone := overrides[target := Program(OWN_CALLER)], map[target := Program(OWN_CALLER)];
    CallerReturned(ContextAt(chain, bundled, MULTICALL3, target, []));
    CallerReturned(ContextAt(chain, alone, chain.sender, target, []));
    WordBytesInjective(MULTICALL3, chain.sender);
  }

  /** Fragment programs that do not read their caller behave bundled as alone if
      and only if no other override of the bundle changes a code hash. */
  lemma CallerFreeAlikeIff(chain: Chain, overrides: Overrides, target: Address)
    requires target !in chain.precompiles
    ensures CallerFreeAlike(chain, overrides, target) <==> HashesAgree(chain, overrides, target)
  {
    if HashesAgree(chain, overrides, target) {
      forall code, data | InFragment(code) && CallerFree(code) ensures Alike(chain, overrides, At(target, code, data)) {
        AlikeWhenTransparent(chain, overrides, At(target, code, data));
      }
    }
    if CallerFreeAlike(chain, overrides, target) {
      WitnessesInFragment();
      forall a | a in overrides && a != target ensures chain.hashOf(overrides[a]) == chain.codeHash(a) {
        assert Alike(chain, overrides, At(target, HASH_OF_ARGUMENT, WordBytes(a)));
        HashWitness(chain, overrides, target, a);
      }
    }
  }

  /** All fragment programs do if and only if, besides, the sender is the
      dispatcher itself. */
  lemma AllAlikeIff(chain: Chain, overrides: Overrides, target: Address)
    requires target !in chain.precompiles
    ensures AllAlike(chain, overrides, target) <==> HashesAgree(chain, overrides, target) && chain.sender == MULTICALL3
  {
    if HashesAgree(chain, overrides, target) && chain.sender == MULTICALL3 {
      forall code, data | InFragment(code) ensures Alike(chain, overrides, At(target, code, data)) {
        AlikeWhenTransparent(chain, overrides, At(target, code, data));
      }
    }
    if AllAlike(chain, overrides, target) {
      WitnessesInFragment();
      assert Alike(chain, overrides, At(target, OWN_CALLER, []));
      CallerWitness(chain, overrides, target);
      CallerFreeAlikeIff(chain, overrides, target);
    }
  }
}
