/**
 Storage requested at precompile addresses (`src/bulk_storage.rs`).  A precompile
 ignores the injected code, so its slots are whatever its output decodes to.
 */
module Precompiles {
  import opened Words
  import opened BulkPlan
  import opened BulkCalls
  import opened IdealNode
  import opened BulkFetch

  /** What one target's part of an answer decodes to. */
  function PartFor(x: Target, output: Option<Bytes>, e: StorageFetchError): seq<SlotResult> {
    match output
    case Some(data) => DecodeExtractor(x.address, x.slots, data)
    case None => Failures(x.address, x.slots, e)
  }

  /** The precompile's own answer to the packed keys. */
  function OutputAt(chain: Chain, x: Target): Option<Bytes> {
    chain.precompile(x.address, Pack(x.slots))
  }

  /** The results at `a` are those of `part`. */
  ghost predicate PartAt(rs: seq<SlotResult>, a: Address, part: seq<SlotResult>) {
    forall r :: r in rs && r.address == a <==> r in part
  }

  // ----- A precompile's part of a call -----

  /** With distinct targets, each target's results are its own part. */
  lemma {:induction false} TargetPart(targets: seq<Target>, rs: seq<SubResult>, i: nat)
    requires |targets| == |rs| && i < |targets| && DistinctTargets(targets)
    ensures PartAt(DecodeTargets(targets, rs), targets[i].address, DecodeSub(targets[i], rs[i]))
  {
    var n := |targets| - 1;
    SubAddresses(targets[n], rs[n]);
    SubAddresses(targets[i], rs[i]);
    if i == n {
      OtherTargets(targets[..n], rs[..n], targets[n].address);
    } else {
      TargetPart(targets[..n], rs[..n], i);
    }
  }

  lemma {:induction false} OtherTargets(targets: seq<Target>, rs: seq<SubResult>, a: Address)
    requires |targets| == |rs| && forall i :: 0 <= i < |targets| ==> targets[i].address != a
    ensures forall r :: r in DecodeTargets(targets, rs) ==> r.address != a
  {
    if targets == [] {
    } else {
      var n := |targets| - 1;
      OtherTargets(targets[..n], rs[..n], a);
      SubAddresses(targets[n], rs[n]);
    }
  }

  /** The error kind a plan reports for a target that fails. */
  function FailureKind(plan: CallPlan): StorageFetchError {
    if plan.Single? then StorageFetchError.Provider else Custom
  }

  lemma SinglePart(chain: Chain, abi: Abi, plan: CallPlan, x: Target, extractor: Bytes)
    requires plan.Single? && x == Target(plan.target, plan.slots) && x.address in chain.precompiles
    ensures var reply := EthCall(chain, abi, OverridesFor(plan, extractor), CallTo(plan), CallData(plan, abi));
            PartAt(DecodeReply(plan, abi, reply, StorageFetchError.Provider), x.address,
                   PartFor(x, OutputAt(chain, x), StorageFetchError.Provider))
  {
    SingleFailures(x.address, x.slots, StorageFetchError.Provider);
    SingleAddresses(plan, abi, OutputAt(chain, x), StorageFetchError.Provider);
  }

  lemma MultiPart(chain: Chain, abi: Abi, c: BulkCallConfig, targets: seq<Target>, i: nat, extractor: Bytes)
    requires Faithful(abi) && MULTICALL3 !in chain.precompiles && WithinBudget(c, Multi(targets))
    requires i < |targets| && targets[i].address in chain.precompiles
    ensures var plan := Multi(targets);
            var reply := EthCall(chain, abi, OverridesFor(plan, extractor), CallTo(plan), CallData(plan, abi));
            PartAt(DecodeReply(plan, abi, reply, StorageFetchError.Provider), targets[i].address,
                   PartFor(targets[i], OutputAt(chain, targets[i]), Custom))
  {
    var overrides := OverridesFor(Multi(targets), extractor);
    MultiReply(chain, abi, targets, overrides, extractor);
    TargetPart(targets, SubOutcomes(chain, overrides, SubCalls(targets)), i);
  }

  lemma IdealReply(node: Node, t: nat, chain: Chain, abi: Abi, c: BulkCallConfig, plan: CallPlan, extractor: Bytes)
    requires Ideal(node, chain, abi) && IsExtractor(extractor) && WithinBudget(c, plan)
    ensures node.call(t, RequestFor(plan, abi, extractor))
         == EthCall(chain, abi, OverridesFor(plan, extractor), CallTo(plan), CallData(plan, abi))
  {
    var request := RequestFor(plan, abi, extractor);
    CallAnswersPointReads(chain, abi, c, plan, request.overrides, extractor, StorageFetchError.Provider);
    assert Modelled(chain, abi, request.overrides, request.to, request.data);
  }

  /** Alone or inside a multicall, the results at a precompile are its decoded
      output, whatever the other targets are. */
  lemma PrecompilePart(node: Node, t: nat, chain: Chain, abi: Abi, c: BulkCallConfig, plan: CallPlan, x: Target,
                       extractor: Bytes)
    requires Ideal(node, chain, abi) && IsExtractor(extractor) && WithinBudget(c, plan)
    requires x in Targets(plan) && x.address in chain.precompiles
    ensures PartAt(ExecutePlan(node, t, abi, plan, extractor), x.address,
                   PartFor(x, OutputAt(chain, x), FailureKind(plan)))
  {
    IdealReply(node, t, chain, abi, c, plan, extractor);
    match plan
    case Single(a, slots) => SinglePart(chain, abi, plan, x, extractor);
    case Multi(targets) =>
      var i :| 0 <= i < |targets| && targets[i] == x;
      MultiPart(chain, abi, c, targets, i, extractor);
  }

  // ----- Which precompiles the length check catches -----

  /** Every result at `a` is an error. */
  ghost predicate AllFailAt(rs: seq<SlotResult>, a: Address) {
    forall r :: r in rs && r.address == a ==> r.result.Err?
  }

  predicate FitsOutput(chain: Chain, x: Target) {
    OutputAt(chain, x).Some? && |OutputAt(chain, x).value| == 32 * |x.slots|
  }

  lemma PartFails(x: Target, output: Option<Bytes>, e: StorageFetchError)
    requires x.slots != []
    ensures (forall r :: r in PartFor(x, output, e) ==> r.result.Err?) <==>
              !(output.Some? && |output.value| == 32 * |x.slots|)
  {
    var part := PartFor(x, output, e);
    if output.Some? && |output.value| == 32 * |x.slots| {
      UnpackLength(output.value, |x.slots|);
      assert part[0].result.Ok? && part[0] in part;
    }
  }

  /** The slots at a precompile surface as errors if and only if its output is
      missing or has another length, in any plan. */
  lemma PrecompileErrorsIff(node: Node, t: nat, chain: Chain, abi: Abi, c: BulkCallConfig, plan: CallPlan, x: Target,
                            extractor: Bytes)
    requires Ideal(node, chain, abi) && IsExtractor(extractor) && WithinBudget(c, plan)
    requires x in Targets(plan) && x.address in chain.precompiles
    ensures AllFailAt(ExecutePlan(node, t, abi, plan, extractor), x.address) <==> !FitsOutput(chain, x)
  {
    PrecompilePart(node, t, chain, abi, c, plan, x, extractor);
    PartFails(x, OutputAt(chain, x), FailureKind(plan));
    var rs, part := ExecutePlan(node, t, abi, plan, extractor), PartFor(x, OutputAt(chain, x), FailureKind(plan));
    assert AllFailAt(rs, x.address) <==> forall r :: r in part ==> r.result.Err?;
  }

  /** What a caller knows of a precompile from its address: the identity
      precompile echoes its input, a hash precompile returns a fixed number of
      words whatever its input. */
  datatype PrecompileKind = Echo | Digest(words: nat)

  ghost predicate Behaves(chain: Chain, a: Address, kind: PrecompileKind) {
    forall data: Bytes :: Gives(chain.precompile(a, data), data, kind)
  }

  predicate Gives(output: Option<Bytes>, data: Bytes, kind: PrecompileKind) {
    match kind
    case Echo => output == Some(data)
    case Digest(words) => output.Some? && |output.value| == 32 * words
  }

  /** So the length check catches exactly the hash precompiles, and only when the
      number of requested slots is not the number of words they return: the
      identity precompile is never caught, a one-word hash not for one slot. */
  lemma CaughtIff(node: Node, t: nat, chain: Chain, abi: Abi, c: BulkCallConfig, plan: CallPlan, x: Target,
                  extractor: Bytes,
                  kind: PrecompileKind)
    requires Ideal(node, chain, abi) && IsExtractor(extractor) && WithinBudget(c, plan)
    requires x in Targets(plan) && x.address in chain.precompiles && Behaves(chain, x.address, kind)
    ensures AllFailAt(ExecutePlan(node, t, abi, plan, extractor), x.address) <==>
              kind.Digest? && |x.slots| != kind.words
  {
    PrecompileErrorsIff(node, t, chain, abi, c, plan, x, extractor);
    assert Gives(OutputAt(chain, x), Pack(x.slots), kind);
  }

  /** The identity precompile reports each slot key as that slot's value. */
  lemma EchoIsMisread(node: Node, t: nat, chain: Chain, abi: Abi, c: BulkCallConfig, plan: CallPlan, x: Target,
                      extractor: Bytes)
    requires Ideal(node, chain, abi) && IsExtractor(extractor) && WithinBudget(c, plan)
    requires x in Targets(plan) && x.address in chain.precompiles && Behaves(chain, x.address, Echo)
    ensures forall r :: r in ExecutePlan(node, t, abi, plan, extractor) && r.address == x.address ==>
              r.result == Ok(r.slot)
  {
    PrecompilePart(node, t, chain, abi, c, plan, x, extractor);
    assert Gives(OutputAt(chain, x), Pack(x.slots), Echo);
    EchoedPart(x, FailureKind(plan));
  }

  lemma EchoedPart(x: Target, e: StorageFetchError)
    ensures forall r :: r in PartFor(x, Some(Pack(x.slots)), e) ==> r.result == Ok(r.slot)
  {
    UnpackOfPack(x.slots);
  }
}
