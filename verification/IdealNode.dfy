/**
 An ideal node: `eth_call` runs the injected programs on the EVM fragment over
 the chain's real storage, and Multicall3 maps over its subcalls.  A planned
 call against it answers exactly the point reads.
 */
module IdealNode {
  import opened Words
  import opened Evm
  import opened Extractor
  import opened Fragment
  import opened BulkPlan
  import opened BulkCalls

  /** The state at the queried block, and the account calls are sent from.
      Nothing is assumed of what a precompile answers. */
  datatype Chain = Chain(sender: Address,
                         storage: Address -> Word -> Word,
                         balance: Address -> Word,
                         codeHash: Address -> Word,
                         hashOf: Code -> Word,
                         precompiles: set<Address>,
                         precompile: (Address, Bytes) -> Option<Bytes>)

  /** EXTCODEHASH sees the override, where there is one. */
  function CodeHashAt(chain: Chain, overrides: Overrides, a: Address): Word {
    if a in overrides then chain.hashOf(overrides[a]) else chain.codeHash(a)
  }

  function CodeHashes(chain: Chain, overrides: Overrides): Address -> Word {
    (a: Address) => CodeHashAt(chain, overrides, a)
  }

  function ContextAt(chain: Chain, overrides: Overrides, caller: Address, to: Address, data: Bytes): Context {
    CallContext(caller, data, chain.storage(to), chain.balance, CodeHashes(chain, overrides))
  }

  /** A message call that runs a precompile, which ignores any code override, or
      an injected program.  Other calls are outside the model, see `Modelled`. */
  ghost function MessageCall(chain: Chain, overrides: Overrides, caller: Address, to: Address,
                             data: Bytes): Option<Bytes> {
    if to in chain.precompiles then chain.precompile(to, data)
    else if to in overrides && overrides[to].Program? then
      Outcome(overrides[to].bytes, ContextAt(chain, overrides, caller, to, data))
    else None
  }

  /** A subcall of the dispatcher, which is its caller. */
  ghost function SubOutcome(chain: Chain, overrides: Overrides, call: Call3): SubResult {
    match MessageCall(chain, overrides, MULTICALL3, call.target, call.callData)
    case Some(data) => SubResult(true, data)
    case None => SubResult(false, [])
  }

  ghost function SubOutcomes(chain: Chain, overrides: Overrides, calls: seq<Call3>): (rs: seq<SubResult>)
    ensures |rs| == |calls|
    ensures forall i :: 0 <= i < |calls| ==> rs[i] == SubOutcome(chain, overrides, calls[i])
  {
    if calls == [] then []
    else SubOutcomes(chain, overrides, calls[..|calls| - 1]) + [SubOutcome(chain, overrides, calls[|calls| - 1])]
  }

  /** `aggregate3`: every subcall in order; a failure reverts the whole call
      unless that subcall allows it. */
  ghost function Aggregate(chain: Chain, abi: Abi, overrides: Overrides, data: Bytes): Option<Bytes> {
    match abi.decodeCalls(data)
    case None => None
    case Some(calls) =>
      var results := SubOutcomes(chain, overrides, calls);
      if exists i :: 0 <= i < |calls| && !results[i].success && !calls[i].allowFailure then None
      else Some(abi.encodeReturns(results))
  }

  ghost function EthCall(chain: Chain, abi: Abi, overrides: Overrides, to: Address, data: Bytes): Option<Bytes> {
    if to !in chain.precompiles && to in overrides && overrides[to].Multicall3Runtime? then
      Aggregate(chain, abi, overrides, data)
    else MessageCall(chain, overrides, chain.sender, to, data)
  }

  /** Calling `a` runs a precompile or an injected fragment program. */
  predicate RunsFragment(chain: Chain, overrides: Overrides, a: Address) {
    a in chain.precompiles || (a in overrides && overrides[a].Program? && InFragment(overrides[a].bytes))
  }

  /** The calls the model speaks about: a fragment program or a precompile called
      directly, or the dispatcher calling only such targets. */
  predicate Modelled(chain: Chain, abi: Abi, overrides: Overrides, to: Address, data: Bytes) {
    || RunsFragment(chain, overrides, to)
    || (&& to in overrides && overrides[to].Multicall3Runtime?
        && abi.decodeCalls(data).Some?
        && forall i :: 0 <= i < |abi.decodeCalls(data).value| ==>
            RunsFragment(chain, overrides, abi.decodeCalls(data).value[i].target))
  }

  /** What point reads (`eth_getStorageAt`) of the same pairs return. */
  function PointReads(chain: Chain, keys: seq<SlotKey>): (rs: seq<SlotResult>)
    ensures |rs| == |keys|
    ensures forall i :: 0 <= i < |keys| ==> rs[i] == PointRead(chain, keys[i])
  {
    if keys == [] then [] else PointReads(chain, keys[..|keys| - 1]) + [PointRead(chain, keys[|keys| - 1])]
  }

  function PointRead(chain: Chain, key: SlotKey): SlotResult {
    SlotResult(key.address, key.slot, Ok(chain.storage(key.address)(key.slot)))
  }

  lemma PointReadsConcat(chain: Chain, a: seq<SlotKey>, b: seq<SlotKey>)
    ensures PointReads(chain, a + b) == PointReads(chain, a) + PointReads(chain, b)
  {
    var left, right := PointReads(chain, a + b), PointReads(chain, a) + PointReads(chain, b);
    forall i | 0 <= i < |left| ensures left[i] == right[i] {
      if i < |a| {
        assert (a + b)[i] == a[i];
      } else {
        assert (a + b)[i] == b[i - |a|];
      }
    }
  }

  predicate IsExtractor(code: Bytes) {
    code == EXTRACTOR || code == EXTRACTOR_PRE_SHANGHAI
  }

  /** The configured program: without PUSH0 exactly when that is asked for. */
  lemma ExtractorChoice(c: BulkCallConfig)
    ensures IsExtractor(ExtractorCode(c)) && InFragment(ExtractorCode(c))
    ensures c.preShanghaiExtractor <==> Avoids(ExtractorCode(c), 0, PUSH0)
  {
    ExtractorsInFragment(ExtractorCode(c));
    if c.preShanghaiExtractor {
      PreShanghaiHasNoPush0();
    } else {
      assert Decode(EXTRACTOR, 0) == PUSH0;
    }
  }

  /** An overridden target answers its packed storage values, whoever calls. */
  lemma TargetAnswers(chain: Chain, overrides: Overrides, caller: Address, a: Address, slots: seq<Word>,
                      extractor: Bytes)
    requires IsExtractor(extractor) && a !in chain.precompiles
    requires a in overrides && overrides[a] == Program(extractor)
    requires 32 * |slots| < WORD_MODULUS
    ensures MessageCall(chain, overrides, caller, a, Pack(slots)) == Some(Pack(Loads(chain.storage(a), slots)))
  {
    PackedCalldata(caller, slots, chain.storage(a), chain.balance, CodeHashes(chain, overrides));
    ExtractorReturnsLoads(extractor, ContextAt(chain, overrides, caller, a, Pack(slots)), slots);
  }

  /** Every result off the precompiles is the value in storage. */
  ghost predicate TrueValues(chain: Chain, rs: seq<SlotResult>) {
    forall r :: r in rs && r.address !in chain.precompiles ==> r.result == Ok(chain.storage(r.address)(r.slot))
  }

  lemma PointReadsTrue(chain: Chain, keys: seq<SlotKey>)
    ensures TrueValues(chain, PointReads(chain, keys))
  {
  }

  lemma DecodedAnswer(chain: Chain, a: Address, slots: seq<Word>)
    ensures DecodeExtractor(a, slots, Pack(Loads(chain.storage(a), slots))) == PointReads(chain, KeysAt(a, slots))
  {
    var values := Loads(chain.storage(a), slots);
    UnpackOfPack(values);
    DecodedValues(chain, a, slots, values);
  }

  lemma DecodedValues(chain: Chain, a: Address, slots: seq<Word>, values: seq<Word>)
    requires |values| == |slots| && forall i :: 0 <= i < |slots| ==> values[i] == chain.storage(a)(slots[i])
    ensures Answers(a, slots, values) == PointReads(chain, KeysAt(a, slots))
  {
  }

  /** The override map gives every address of the plan the code it needs. */
  ghost predicate Serves(overrides: Overrides, plan: CallPlan, extractor: Bytes) {
    var own := OverridesFor(plan, extractor);
    forall a :: a in own ==> a in overrides && overrides[a] == own[a]
  }

  predicate IsTarget(targets: seq<Target>, a: Address) {
    exists t :: t in targets && t.address == a
  }

  lemma {:induction false} InsertedTargets(base: Overrides, targets: seq<Target>, extractor: Bytes)
    ensures var all := InsertTargets(base, targets, extractor);
            && (forall t :: t in targets ==> t.address in all && all[t.address] == Program(extractor))
            && (forall a :: a in all && !IsTarget(targets, a) ==> a in base && all[a] == base[a])
            && (forall a :: a in base && !IsTarget(targets, a) ==> a in all && all[a] == base[a])
  {
    if targets == [] {
    } else {
      var front, last := targets[..|targets| - 1], targets[|targets| - 1];
      InsertedTargets(base, front, extractor);
      assert forall t :: t in targets <==> t in front || t == last;
    }
  }

  /** Every plan asks for the extractor everywhere but at the dispatcher. */
  lemma MultiOverrides(targets: seq<Target>, extractor: Bytes)
    requires forall t :: t in targets ==> t.address != MULTICALL3
    ensures var own := OverridesFor(Multi(targets), extractor);
            && MULTICALL3 in own && own[MULTICALL3] == Multicall3Runtime
            && (forall t :: t in targets ==> t.address in own)
            && (forall a :: a in own && a != MULTICALL3 ==> own[a] == Program(extractor))
  {
    InsertedTargets(map[MULTICALL3 := Multicall3Runtime], targets, extractor);
  }

  /** One target's answer, at the dispatcher or alone: nothing is said about a
      precompile, and it does not disturb the others. */
  lemma SubAnswer(chain: Chain, overrides: Overrides, t: Target, extractor: Bytes, r: SubResult)
    requires IsExtractor(extractor) && 32 * |t.slots| < WORD_MODULUS
    requires t.address in overrides && overrides[t.address] == Program(extractor)
    requires r == SubOutcome(chain, overrides, Call3(t.address, true, Pack(t.slots)))
    ensures TrueValues(chain, DecodeSub(t, r))
  {
    if t.address !in chain.precompiles {
      TargetAnswers(chain, overrides, MULTICALL3, t.address, t.slots, extractor);
      DecodedAnswer(chain, t.address, t.slots);
      PointReadsTrue(chain, KeysAt(t.address, t.slots));
    } else {
      SubAddresses(t, r);
    }
  }

  lemma SubAddresses(t: Target, r: SubResult)
    ensures forall x :: x in DecodeSub(t, r) ==> x.address == t.address
  {
    if r.success {
      ExtractorAddresses(t.address, t.slots, r.returnData);
    }
  }

  lemma ExtractorAddresses(a: Address, slots: seq<Word>, data: Bytes)
    ensures forall x :: x in DecodeExtractor(a, slots, data) ==> x.address == a
  {
    if |data| == |slots| * 32 {
      UnpackLength(data, |slots|);
    }
  }

  lemma {:induction false} SubAnswers(chain: Chain, overrides: Overrides, targets: seq<Target>, extractor: Bytes)
    requires IsExtractor(extractor)
    requires forall t :: t in targets ==>
               32 * |t.slots| < WORD_MODULUS && t.address in overrides && overrides[t.address] == Program(extractor)
    ensures TrueValues(chain, DecodeTargets(targets, SubOutcomes(chain, overrides, SubCalls(targets))))
  {
    if targets == [] {
    } else {
      var n := |targets| - 1;
      var front, t := targets[..n], targets[n];
      var calls := SubCalls(targets);
      var rs := SubOutcomes(chain, overrides, calls);
      SubAnswers(chain, overrides, front, extractor);
      assert t in targets;
      SubAnswer(chain, overrides, t, extractor, rs[n]);
      assert calls[..n] == SubCalls(front);
      assert rs[..n] == SubOutcomes(chain, overrides, SubCalls(front));
    }
  }

  /** One call, end to end: under any override map that serves the plan, the call
      is one the model speaks about, and every result off the precompiles is the
      point read, whatever else the plan targets. */
  lemma CallAnswersPointReads(chain: Chain, abi: Abi, c: BulkCallConfig, plan: CallPlan, overrides: Overrides,
                              extractor: Bytes, e: StorageFetchError)
    requires Faithful(abi) && IsExtractor(extractor) && MULTICALL3 !in chain.precompiles
    requires WithinBudget(c, plan) && Serves(overrides, plan, extractor)
    ensures Modelled(chain, abi, overrides, CallTo(plan), CallData(plan, abi))
    ensures TrueValues(chain,
                       DecodeReply(plan, abi, EthCall(chain, abi, overrides, CallTo(plan), CallData(plan, abi)), e))
  {
    ExtractorsInFragment(extractor);
    match plan
    case Single(target, slots) => SingleAnswers(chain, abi, plan, overrides, extractor, e);
    case Multi(targets) =>
      SlotsBounded(c, targets);
      MultiAnswers(chain, abi, targets, overrides, extractor);
  }

  lemma SingleAnswers(chain: Chain, abi: Abi, plan: CallPlan, overrides: Overrides, extractor: Bytes,
                      e: StorageFetchError)
    requires IsExtractor(extractor) && InFragment(extractor) && plan.Single? && 32 * |plan.slots| < WORD_MODULUS
    requires Serves(overrides, plan, extractor)
    ensures RunsFragment(chain, overrides, CallTo(plan))
    ensures TrueValues(chain,
                       DecodeReply(plan, abi, EthCall(chain, abi, overrides, CallTo(plan), CallData(plan, abi)), e))
  {
    var a, slots := plan.target, plan.slots;
    assert a in OverridesFor(plan, extractor);
    if a in chain.precompiles {
      SingleAddresses(plan, abi, EthCall(chain, abi, overrides, CallTo(plan), CallData(plan, abi)), e);
    } else {
      TargetAnswers(chain, overrides, chain.sender, a, slots, extractor);
      DecodedAnswer(chain, a, slots);
      PointReadsTrue(chain, KeysAt(a, slots));
    }
  }

  lemma SingleAddresses(plan: CallPlan, abi: Abi, reply: Option<Bytes>, e: StorageFetchError)
    requires plan.Single?
    ensures forall x :: x in DecodeReply(plan, abi, reply, e) ==> x.address == plan.target
  {
    match reply
    case Some(data) => ExtractorAddresses(plan.target, plan.slots, data);
    case None => SingleFailures(plan.target, plan.slots, e);
  }

  lemma SingleFailures(a: Address, slots: seq<Word>, e: StorageFetchError)
    ensures PlanFailures(Single(a, slots), e) == Failures(a, slots, e)
  {
    var ts := [Target(a, slots)];
    assert ts[..|ts| - 1] == [];
    assert TargetFailures(ts, e) == [] + Failures(a, slots, e);
  }

  /** The dispatcher, whose subcalls may all fail, answers with all outcomes. */
  lemma MultiReply(chain: Chain, abi: Abi, targets: seq<Target>, overrides: Overrides, extractor: Bytes)
    requires Faithful(abi) && MULTICALL3 !in chain.precompiles && Serves(overrides, Multi(targets), extractor)
    requires forall t :: t in targets ==> t.address != MULTICALL3
    ensures MULTICALL3 in overrides && overrides[MULTICALL3] == Multicall3Runtime
    ensures forall t :: t in targets ==> t.address in overrides && overrides[t.address] == Program(extractor)
    ensures abi.decodeCalls(MultiData(abi, targets)) == Some(SubCalls(targets))
    ensures var results := SubOutcomes(chain, overrides, SubCalls(targets));
            && EthCall(chain, abi, overrides, MULTICALL3, MultiData(abi, targets)) == Some(abi.encodeReturns(results))
            && DecodeMulti(targets, abi, abi.encodeReturns(results)) == DecodeTargets(targets, results)
  {
    MultiOverrides(targets, extractor);
    var own := OverridesFor(Multi(targets), extractor);
    assert overrides[MULTICALL3] == own[MULTICALL3];
    forall t | t in targets ensures t.address in overrides && overrides[t.address] == Program(extractor) {
      assert t.address in own;
    }
    AggregateAnswers(chain, abi, overrides, SubCalls(targets));
  }

  lemma MultiAnswers(chain: Chain, abi: Abi, targets: seq<Target>, overrides: Overrides, extractor: Bytes)
    requires Faithful(abi) && IsExtractor(extractor) && InFragment(extractor) && MULTICALL3 !in chain.precompiles
    requires Serves(overrides, Multi(targets), extractor)
    requires forall t :: t in targets ==> t.address != MULTICALL3 && 32 * |t.slots| < WORD_MODULUS
    ensures Modelled(chain, abi, overrides, MULTICALL3, MultiData(abi, targets))
    ensures var reply := EthCall(chain, abi, overrides, MULTICALL3, MultiData(abi, targets));
            reply.Some? && TrueValues(chain, DecodeMulti(targets, abi, reply.value))
  {
    MultiReply(chain, abi, targets, overrides, extractor);
    SubAnswers(chain, overrides, targets, extractor);
    forall i | 0 <= i < |SubCalls(targets)| ensures RunsFragment(chain, overrides, SubCalls(targets)[i].target) {
      assert targets[i] in targets;
    }
  }

  lemma AggregateAnswers(chain: Chain, abi: Abi, overrides: Overrides, calls: seq<Call3>)
    requires Faithful(abi) && forall i :: 0 <= i < |calls| ==> calls[i].allowFailure
    ensures Aggregate(chain, abi, overrides, abi.encodeCalls(calls))
         == Some(abi.encodeReturns(SubOutcomes(chain, overrides, calls)))
    ensures abi.decodeReturns(abi.encodeReturns(SubOutcomes(chain, overrides, calls)))
         == Some(SubOutcomes(chain, overrides, calls))
  {
  }

  lemma SlotsBounded(c: BulkCallConfig, targets: seq<Target>)
    requires SlotTotal(targets) <= c.maxSlotsPerCall
    ensures forall t :: t in targets ==> 32 * |t.slots| < WORD_MODULUS
  {
    forall t | t in targets ensures 32 * |t.slots| < WORD_MODULUS {
      PartOfTotal(targets, t);
    }
  }

  lemma {:induction false} PartOfTotal(targets: seq<Target>, t: Target)
    requires t in targets
    ensures |t.slots| <= SlotTotal(targets)
  {
    if targets[|targets| - 1] != t {
      PartOfTotal(targets[..|targets| - 1], t);
    }
  }
}
