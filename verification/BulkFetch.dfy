/**
 `fetch_slots_bulk` of `src/bulk_storage.rs`: dispatch of the planned calls,
 alone or bundled, against a node that may answer anything at all.
 */
module BulkFetch {
  import opened Words
  import opened BulkPlan
  import opened Planner
  import opened PlanCosts
  import opened BulkCalls
  import opened IdealNode

  datatype BlockId = Number(number: nat) | Hash(hash: Word)

  datatype Transaction = Transaction(to: Address, data: Bytes)
  datatype BundleRequest = BundleRequest(transactions: seq<Transaction>, overrides: Overrides)

  /** A node at the pinned block.  Each call carries its ordinal, so that equal
      requests may be answered differently; `None` is a provider error, and in
      a bundle's entries a transaction without a value. */
  datatype Node = Node(call: (nat, CallRequest) -> Option<Bytes>,
                       callMany: (nat, BundleRequest) -> Option<seq<seq<Option<Bytes>>>>)

  // ----- What an ideal node answers -----

  ghost predicate AnswersBundle(chain: Chain, abi: Abi, bundle: BundleRequest, entries: seq<Option<Bytes>>) {
    && |entries| == |bundle.transactions|
    && forall i :: 0 <= i < |entries| ==>
         entries[i] == EthCall(chain, abi, bundle.overrides, bundle.transactions[i].to, bundle.transactions[i].data)
  }

  predicate ModelledBundle(chain: Chain, abi: Abi, bundle: BundleRequest) {
    forall i :: 0 <= i < |bundle.transactions| ==>
      Modelled(chain, abi, bundle.overrides, bundle.transactions[i].to, bundle.transactions[i].data)
  }

  /** Runs every call that only executes fragment programs and precompiles on
      `chain`; `eth_callMany` may be unsupported, at any time.  Nothing is asked
      of any other call. */
  ghost predicate Ideal(node: Node, chain: Chain, abi: Abi) {
    && Faithful(abi)
    && MULTICALL3 !in chain.precompiles
    && (forall t, r: CallRequest :: Modelled(chain, abi, r.overrides, r.to, r.data) ==>
          node.call(t, r) == EthCall(chain, abi, r.overrides, r.to, r.data))
    && (forall t, b: BundleRequest :: node.callMany(t, b).Some? && ModelledBundle(chain, abi, b) ==>
          AnswersBundle(chain, abi, b, Concat(node.callMany(t, b).value)))
  }

  lemma ReadsAre(chain: Chain, rs: seq<SlotResult>)
    requires TrueValues(chain, rs) && forall r :: r in rs ==> r.address !in chain.precompiles
    ensures rs == PointReads(chain, KeysOf(rs))
  {
    forall i | 0 <= i < |rs| ensures rs[i] == PointReads(chain, KeysOf(rs))[i] {
      assert rs[i] in rs;
    }
  }

  // ----- One call -----

  function RequestFor(plan: CallPlan, abi: Abi, extractor: Bytes): CallRequest {
    CallRequest(CallTo(plan), CallData(plan, abi), OverridesFor(plan, extractor))
  }

  /** `execute_plan`. */
  function ExecutePlan(node: Node, t: nat, abi: Abi, plan: CallPlan, extractor: Bytes): seq<SlotResult> {
    DecodeReply(plan, abi, node.call(t, RequestFor(plan, abi, extractor)), StorageFetchError.Provider)
  }

  lemma ExecutePlanKeys(node: Node, t: nat, abi: Abi, plan: CallPlan, extractor: Bytes)
    ensures KeysOf(ExecutePlan(node, t, abi, plan, extractor)) == KeyList(Targets(plan))
  {
    DecodeReplyKeys(plan, abi, node.call(t, RequestFor(plan, abi, extractor)), StorageFetchError.Provider);
  }

  lemma ExecutePlanReads(node: Node, t: nat, abi: Abi, plan: CallPlan, extractor: Bytes, chain: Chain,
                         c: BulkCallConfig)
    requires Ideal(node, chain, abi) && IsExtractor(extractor) && WithinBudget(c, plan)
    ensures TrueValues(chain, ExecutePlan(node, t, abi, plan, extractor))
  {
    CallAnswersPointReads(chain, abi, c, plan, OverridesFor(plan, extractor), extractor, StorageFetchError.Provider);
    var request := RequestFor(plan, abi, extractor);
    assert Modelled(chain, abi, request.overrides, request.to, request.data);
  }

  // ----- One bundle -----

  function MergedOverrides(plans: seq<CallPlan>, extractor: Bytes): Overrides {
    if plans == [] then map[]
    else MergedOverrides(plans[..|plans| - 1], extractor) + OverridesFor(plans[|plans| - 1], extractor)
  }

  function TransactionOf(plan: CallPlan, abi: Abi): Transaction {
    Transaction(CallTo(plan), CallData(plan, abi))
  }

  /** A plan that may share an override map: it does not put the extractor at
      the dispatcher. */
  predicate Bundleable(plan: CallPlan) {
    match plan
    case Single(target, _) => target != MULTICALL3
    case Multi(targets) => forall t :: t in targets ==> t.address != MULTICALL3
  }

  function SharedCode(a: Address, extractor: Bytes): Code {
    if a == MULTICALL3 then Multicall3Runtime else Program(extractor)
  }

  lemma OwnOverridesShared(plan: CallPlan, extractor: Bytes)
    requires Bundleable(plan)
    ensures forall a :: a in OverridesFor(plan, extractor) ==>
              OverridesFor(plan, extractor)[a] == SharedCode(a, extractor)
  {
    match plan
    case Single(target, _) =>
    case Multi(targets) => MultiOverrides(targets, extractor);
  }

  lemma {:induction false} MergedShared(plans: seq<CallPlan>, extractor: Bytes)
    requires forall p :: p in plans ==> Bundleable(p)
    ensures forall a :: a in MergedOverrides(plans, extractor) ==>
              MergedOverrides(plans, extractor)[a] == SharedCode(a, extractor)
    ensures forall p, a :: p in plans && a in OverridesFor(p, extractor) ==> a in MergedOverrides(plans, extractor)
  {
    if plans == [] {
    } else {
      var front, last := plans[..|plans| - 1], plans[|plans| - 1];
      MergedShared(front, extractor);
      OwnOverridesShared(last, extractor);
    }
  }

  /** Shared override maps never conflict: the merged map of a bundle agrees
      with each plan's own map on all of that plan's addresses. */
  lemma MergedOverridesServe(plans: seq<CallPlan>, extractor: Bytes, plan: CallPlan)
    requires forall p :: p in plans ==> Bundleable(p)
    requires plan in plans
    ensures Serves(MergedOverrides(plans, extractor), plan, extractor)
  {
    MergedShared(plans, extractor);
    OwnOverridesShared(plan, extractor);
  }

  lemma {:induction false} KeyListConcat(a: seq<Target>, b: seq<Target>)
    ensures KeyList(a + b) == KeyList(a) + KeyList(b)
  {
    if b == [] {
      assert a + b == a;
    } else {
      var front, t := b[..|b| - 1], b[|b| - 1];
      SplitLast(a, b);
      KeyListConcat(a, front);
      assert KeyList((a + front) + [t]) == KeyList(a + front) + KeysAt(t.address, t.slots) by {
        assert ((a + front) + [t])[..|a + front|] == a + front;
      }
      Associate(KeyList(a), KeyList(front), KeysAt(t.address, t.slots));
    }
  }

  lemma KeysGrow(out: seq<SlotResult>, more: seq<SlotResult>, plans: seq<CallPlan>, plan: CallPlan)
    requires KeysOf(out) == KeyList(Flatten(plans)) && KeysOf(more) == KeyList(Targets(plan))
    ensures KeysOf(out + more) == KeyList(Flatten(plans + [plan]))
  {
    KeysOfConcat(out, more);
    FlattenAppend(plans, plan);
    KeyListConcat(Flatten(plans), Targets(plan));
  }

  /** Decoding one entry of a bundle's answer. */
  function DecodeEntry(plan: CallPlan, abi: Abi, entry: Option<Bytes>): seq<SlotResult> {
    DecodeReply(plan, abi, entry, Custom)
  }

  function TransactionsOf(plans: seq<CallPlan>, abi: Abi): (ts: seq<Transaction>)
    ensures |ts| == |plans| && forall i :: 0 <= i < |plans| ==> ts[i] == TransactionOf(plans[i], abi)
  {
    if plans == [] then [] else TransactionsOf(plans[..|plans| - 1], abi) + [TransactionOf(plans[|plans| - 1], abi)]
  }

  function BundleFor(plans: seq<CallPlan>, abi: Abi, extractor: Bytes): BundleRequest {
    BundleRequest(TransactionsOf(plans, abi), MergedOverrides(plans, extractor))
  }

  /** Plans that may share one `eth_callMany` request. */
  predicate CanBundle(c: BulkCallConfig, plans: seq<CallPlan>) {
    forall p :: p in plans ==> WithinBudget(c, p) && Bundleable(p)
  }

  lemma BundleServed(chain: Chain, abi: Abi, c: BulkCallConfig, plans: seq<CallPlan>, i: nat, extractor: Bytes)
    requires Faithful(abi) && IsExtractor(extractor) && MULTICALL3 !in chain.precompiles
    requires CanBundle(c, plans) && i < |plans|
    ensures var o := MergedOverrides(plans, extractor);
            && Modelled(chain, abi, o, CallTo(plans[i]), CallData(plans[i], abi))
            && TrueValues(chain,
                          DecodeEntry(plans[i], abi, EthCall(chain, abi, o, CallTo(plans[i]), CallData(plans[i], abi))))
  {
    assert plans[i] in plans;
    MergedOverridesServe(plans, extractor, plans[i]);
    CallAnswersPointReads(chain, abi, c, plans[i], MergedOverrides(plans, extractor), extractor, Custom);
  }

  lemma BundleModelled(chain: Chain, abi: Abi, c: BulkCallConfig, plans: seq<CallPlan>, extractor: Bytes)
    requires Faithful(abi) && IsExtractor(extractor) && MULTICALL3 !in chain.precompiles && CanBundle(c, plans)
    ensures ModelledBundle(chain, abi, BundleFor(plans, abi, extractor))
  {
    forall i | 0 <= i < |plans|
      ensures Modelled(chain, abi, MergedOverrides(plans, extractor), CallTo(plans[i]), CallData(plans[i], abi))
    {
      BundleServed(chain, abi, c, plans, i, extractor);
    }
  }

  // ----- Where a result comes from -----

  /** `r` was decoded from the reply to a call of its own plan. */
  ghost predicate FromCall(node: Node, abi: Abi, extractor: Bytes, c: BulkCallConfig, r: SlotResult) {
    exists t: nat, plan :: WithinBudget(c, plan) && r in ExecutePlan(node, t, abi, plan, extractor)
  }

  ghost predicate InReply(node: Node, t: nat, abi: Abi, extractor: Bytes, plans: seq<CallPlan>, i: nat, r: SlotResult) {
    var reply := node.callMany(t, BundleFor(plans, abi, extractor));
    && reply.Some? && i < |plans| == |Concat(reply.value)|
    && r in DecodeEntry(plans[i], abi, Concat(reply.value)[i])
  }

  /** `r` was decoded from its plan's entry of a bundle's reply. */
  ghost predicate FromBundle(node: Node, abi: Abi, extractor: Bytes, c: BulkCallConfig, r: SlotResult) {
    exists t: nat, plans, i: nat :: CanBundle(c, plans) && InReply(node, t, abi, extractor, plans, i, r)
  }

  /** Every result is one the node's answers account for. */
  ghost predicate Reported(node: Node, abi: Abi, extractor: Bytes, c: BulkCallConfig, rs: seq<SlotResult>) {
    forall r :: r in rs ==> FromCall(node, abi, extractor, c, r) || FromBundle(node, abi, extractor, c, r)
  }

  lemma CallReported(node: Node, t: nat, abi: Abi, extractor: Bytes, c: BulkCallConfig, plan: CallPlan)
    requires WithinBudget(c, plan)
    ensures Reported(node, abi, extractor, c, ExecutePlan(node, t, abi, plan, extractor))
    ensures ByCalls(node, abi, extractor, c, ExecutePlan(node, t, abi, plan, extractor))
  {
    forall r | r in ExecutePlan(node, t, abi, plan, extractor) ensures FromCall(node, abi, extractor, c, r) {
    }
  }

  lemma EntryReported(node: Node, t: nat, abi: Abi, extractor: Bytes, c: BulkCallConfig, plans: seq<CallPlan>, i: nat)
    requires CanBundle(c, plans)
    requires var reply := node.callMany(t, BundleFor(plans, abi, extractor));
             reply.Some? && i < |plans| == |Concat(reply.value)|
    ensures var reply := node.callMany(t, BundleFor(plans, abi, extractor));
            ByBundles(node, abi, extractor, c, DecodeEntry(plans[i], abi, Concat(reply.value)[i]))
  {
    var entry := Concat(node.callMany(t, BundleFor(plans, abi, extractor)).value)[i];
    forall r | r in DecodeEntry(plans[i], abi, entry) ensures FromBundle(node, abi, extractor, c, r) {
      assert InReply(node, t, abi, extractor, plans, i, r);
    }
  }

  /** `r` is a success that some reply of the node contains: the word at its slot's
      position in its own target's return data. */
  ghost predicate InSomeReply(node: Node, abi: Abi, extractor: Bytes, c: BulkCallConfig, r: SlotResult) {
    || (exists t: nat, plan, reply ::
          WithinBudget(c, plan) && ReplyIs(node, t, abi, extractor, plan, reply) && Backed(plan, abi, reply, r))
    || (exists t: nat, plans, i: nat, reply ::
          CanBundle(c, plans) && EntryIs(node, t, abi, extractor, plans, i, reply) && Backed(plans[i], abi, reply, r))
  }

  ghost predicate ReplyIs(node: Node, t: nat, abi: Abi, extractor: Bytes, plan: CallPlan, reply: Bytes) {
    node.call(t, RequestFor(plan, abi, extractor)) == Some(reply)
  }

  ghost predicate EntryIs(node: Node, t: nat, abi: Abi, extractor: Bytes, plans: seq<CallPlan>, i: nat, entry: Bytes) {
    var reply := node.callMany(t, BundleFor(plans, abi, extractor));
    reply.Some? && i < |plans| == |Concat(reply.value)| && Concat(reply.value)[i] == Some(entry)
  }

  /** Whatever the node: nothing is reported as a success that is not in a reply. */
  lemma SuccessesInReplies(node: Node, abi: Abi, extractor: Bytes, c: BulkCallConfig, rs: seq<SlotResult>)
    requires Reported(node, abi, extractor, c, rs)
    ensures forall r :: r in rs && r.result.Ok? ==> InSomeReply(node, abi, extractor, c, r)
  {
    forall r | r in rs && r.result.Ok? ensures InSomeReply(node, abi, extractor, c, r) {
      if FromCall(node, abi, extractor, c, r) {
        SuccessInCall(node, abi, extractor, c, r);
      } else {
        SuccessInBundle(node, abi, extractor, c, r);
      }
    }
  }

  lemma SuccessInCall(node: Node, abi: Abi, extractor: Bytes, c: BulkCallConfig, r: SlotResult)
    requires FromCall(node, abi, extractor, c, r) && r.result.Ok?
    ensures InSomeReply(node, abi, extractor, c, r)
  {
    var t: nat, plan :| WithinBudget(c, plan) && r in ExecutePlan(node, t, abi, plan, extractor);
    var reply := node.call(t, RequestFor(plan, abi, extractor));
    FailureKinds(Targets(plan), StorageFetchError.Provider);
    assert ReplyIs(node, t, abi, extractor, plan, reply.value);
    SuccessIsBacked(plan, abi, reply.value, r);
  }

  lemma SuccessInBundle(node: Node, abi: Abi, extractor: Bytes, c: BulkCallConfig, r: SlotResult)
    requires FromBundle(node, abi, extractor, c, r) && r.result.Ok?
    ensures InSomeReply(node, abi, extractor, c, r)
  {
    var t: nat, plans, i: nat :| CanBundle(c, plans) && InReply(node, t, abi, extractor, plans, i, r);
    var entry := Concat(node.callMany(t, BundleFor(plans, abi, extractor)).value)[i];
    FailureKinds(Targets(plans[i]), Custom);
    assert entry.Some?;
    SuccessIsBacked(plans[i], abi, entry.value, r);
    assert EntryIs(node, t, abi, extractor, plans, i, entry.value);
  }

  /** A provider that ignores the overrides answers calls to code-less targets with
      no bytes. */
  ghost predicate IgnoresOverrides(node: Node) {
    (forall t, r :: node.call(t, r) == Some([])) && forall t, b :: node.callMany(t, b).None?
  }

  /** None of its slots is reported as a success. */
  lemma IgnoredOverridesFail(node: Node, abi: Abi, extractor: Bytes, c: BulkCallConfig, rs: seq<SlotResult>)
    requires IgnoresOverrides(node) && abi.decodeReturns([]).None? && Reported(node, abi, extractor, c, rs)
    ensures forall r :: r in rs ==> r.result.Err?
  {
    forall r | r in rs ensures r.result.Err? {
      assert FromCall(node, abi, extractor, c, r);
      IgnoredCallFails(node, abi, extractor, c, r);
    }
  }

  lemma IgnoredCallFails(node: Node, abi: Abi, extractor: Bytes, c: BulkCallConfig, r: SlotResult)
    requires IgnoresOverrides(node) && abi.decodeReturns([]).None? && FromCall(node, abi, extractor, c, r)
    ensures r.result.Err?
  {
    var t: nat, plan :| WithinBudget(c, plan) && r in ExecutePlan(node, t, abi, plan, extractor);
    NothingBacked(c, plan, abi, r);
    if r.result.Ok? {
      SuccessIsBacked(plan, abi, [], r);
    }
  }

  lemma NothingBacked(c: BulkCallConfig, plan: CallPlan, abi: Abi, r: SlotResult)
    requires WithinBudget(c, plan) && abi.decodeReturns([]).None?
    ensures !Backed(plan, abi, [], r)
  {
    forall i: nat, j: nat | i < |Targets(plan)| && j < |Targets(plan)[i].slots|
      ensures !BackedAt(plan, abi, [], r, i, j)
    {
      assert Targets(plan)[i] in Targets(plan);
    }
  }

  /** Every result was decoded from the reply to a plain `eth_call`. */
  ghost predicate ByCalls(node: Node, abi: Abi, extractor: Bytes, c: BulkCallConfig, rs: seq<SlotResult>) {
    forall r :: r in rs ==> FromCall(node, abi, extractor, c, r)
  }

  /** Every result was decoded from its plan's entry of a bundle's reply. */
  ghost predicate ByBundles(node: Node, abi: Abi, extractor: Bytes, c: BulkCallConfig, rs: seq<SlotResult>) {
    forall r :: r in rs ==> FromBundle(node, abi, extractor, c, r)
  }

  /** A node that accepts every bundle, with one entry per transaction. */
  ghost predicate AcceptsBundles(node: Node, abi: Abi, extractor: Bytes) {
    forall t, plans :: AcceptsBundle(node.callMany(t, BundleFor(plans, abi, extractor)), plans)
  }

  ghost predicate AcceptsBundle(reply: Option<seq<seq<Option<Bytes>>>>, plans: seq<CallPlan>) {
    reply.Some? && |Concat(reply.value)| == |plans|
  }

  /** Against an ideal node every reported result off the precompiles is true. */
  lemma ReportedTrue(node: Node, chain: Chain, abi: Abi, extractor: Bytes, c: BulkCallConfig, rs: seq<SlotResult>)
    requires Ideal(node, chain, abi) && IsExtractor(extractor) && Reported(node, abi, extractor, c, rs)
    ensures TrueValues(chain, rs)
  {
    forall r | r in rs ensures TrueValues(chain, [r]) {
      if FromCall(node, abi, extractor, c, r) {
        CallTrue(node, chain, abi, extractor, c, r);
      } else {
        BundleTrue(node, chain, abi, extractor, c, r);
      }
    }
    forall r | r in rs && r.address !in chain.precompiles ensures r.result == Ok(chain.storage(r.address)(r.slot)) {
      assert r in [r] && TrueValues(chain, [r]);
    }
  }

  lemma CallTrue(node: Node, chain: Chain, abi: Abi, extractor: Bytes, c: BulkCallConfig, r: SlotResult)
    requires Ideal(node, chain, abi) && IsExtractor(extractor) && FromCall(node, abi, extractor, c, r)
    ensures TrueValues(chain, [r])
  {
    var t: nat, plan :| WithinBudget(c, plan) && r in ExecutePlan(node, t, abi, plan, extractor);
    ExecutePlanReads(node, t, abi, plan, extractor, chain, c);
  }

  lemma BundleTrue(node: Node, chain: Chain, abi: Abi, extractor: Bytes, c: BulkCallConfig, r: SlotResult)
    requires Ideal(node, chain, abi) && IsExtractor(extractor) && FromBundle(node, abi, extractor, c, r)
    ensures TrueValues(chain, [r])
  {
    var t: nat, plans, i: nat :| CanBundle(c, plans) && InReply(node, t, abi, extractor, plans, i, r);
    var bundle := BundleFor(plans, abi, extractor);
    BundleModelled(chain, abi, c, plans, extractor);
    BundleServed(chain, abi, c, plans, i, extractor);
    assert AnswersBundle(chain, abi, bundle, Concat(node.callMany(t, bundle).value));
    assert bundle.transactions[i] == TransactionOf(plans[i], abi);
  }

  /** A node that refuses every request makes every result a provider error. */
  ghost predicate Refuses(node: Node) {
    (forall t, r :: node.call(t, r).None?) && forall t, b :: node.callMany(t, b).None?
  }

  lemma RefusedReports(node: Node, abi: Abi, extractor: Bytes, c: BulkCallConfig, rs: seq<SlotResult>)
    requires Refuses(node) && Reported(node, abi, extractor, c, rs)
    ensures forall r :: r in rs ==> r.result == Err(StorageFetchError.Provider)
  {
    forall r | r in rs ensures r.result == Err(StorageFetchError.Provider) {
      var t: nat, plan :| WithinBudget(c, plan) && r in ExecutePlan(node, t, abi, plan, extractor);
      FailureKinds(Targets(plan), StorageFetchError.Provider);
    }
  }

  lemma {:induction false} FailureKinds(ts: seq<Target>, e: StorageFetchError)
    ensures forall r :: r in TargetFailures(ts, e) ==> r.result == Err(e)
  {
    if ts == [] {
    } else {
      FailureKinds(ts[..|ts| - 1], e);
    }
  }

  /** A node that answers every call, with whatever bytes, causes none. */
  ghost predicate Replies(node: Node) {
    forall t, r :: node.call(t, r).Some?
  }

  lemma RepliedReports(node: Node, abi: Abi, extractor: Bytes, c: BulkCallConfig, rs: seq<SlotResult>)
    requires Replies(node) && Reported(node, abi, extractor, c, rs)
    ensures forall r :: r in rs ==> r.result != Err(StorageFetchError.Provider)
  {
    forall r | r in rs ensures r.result != Err(StorageFetchError.Provider) {
      if FromCall(node, abi, extractor, c, r) {
        var t: nat, plan :| WithinBudget(c, plan) && r in ExecutePlan(node, t, abi, plan, extractor);
        DecodedKinds(plan, abi, node.call(t, RequestFor(plan, abi, extractor)).value);
      } else {
        var t: nat, plans, i: nat :| CanBundle(c, plans) && InReply(node, t, abi, extractor, plans, i, r);
        EntryKinds(plans[i], abi, Concat(node.callMany(t, BundleFor(plans, abi, extractor)).value)[i]);
      }
    }
  }

  lemma EntryKinds(plan: CallPlan, abi: Abi, entry: Option<Bytes>)
    ensures forall r :: r in DecodeEntry(plan, abi, entry) ==> r.result != Err(StorageFetchError.Provider)
  {
    match entry
    case Some(data) => DecodedKinds(plan, abi, data);
    case None => FailureKinds(Targets(plan), Custom);
  }

  /** Decoding reports values and decoding errors, never a provider error. */
  lemma DecodedKinds(plan: CallPlan, abi: Abi, data: Bytes)
    ensures forall r :: r in DecodePlan(plan, abi, data) ==> r.result != Err(StorageFetchError.Provider)
  {
    match plan
    case Single(target, slots) => ExtractorKinds(target, slots, data);
    case Multi(targets) =>
      FailureKinds(targets, Custom);
      match abi.decodeReturns(data)
      case None =>
      case Some(results) =>
        if |results| == |targets| {
          TargetKinds(targets, results);
        }
  }

  lemma ExtractorKinds(a: Address, slots: seq<Word>, data: Bytes)
    ensures forall r :: r in DecodeExtractor(a, slots, data) ==> r.result.Ok? || r.result == Err(Custom)
  {
    if |data| == |slots| * 32 {
      UnpackLength(data, |slots|);
    }
  }

  lemma {:induction false} TargetKinds(ts: seq<Target>, rs: seq<SubResult>)
    requires |ts| == |rs|
    ensures forall r :: r in DecodeTargets(ts, rs) ==> r.result.Ok? || r.result == Err(Custom)
  {
    if ts == [] {
    } else {
      var n := |ts| - 1;
      TargetKinds(ts[..n], rs[..n]);
      ExtractorKinds(ts[n].address, ts[n].slots, rs[n].returnData);
    }
  }

  // ----- Bundles and jobs -----

  /** The request `execute_plans_call_many` builds, plan by plan. */
  method BuildBundle(plans: seq<CallPlan>, abi: Abi, extractor: Bytes) returns (bundle: BundleRequest)
    ensures bundle == BundleFor(plans, abi, extractor)
  {
    var overrides: Overrides := map[];
    var transactions: seq<Transaction> := [];
    for i := 0 to |plans|
      invariant overrides == MergedOverrides(plans[..i], extractor)
      invariant transactions == TransactionsOf(plans[..i], abi)
    {
      assert plans[..i + 1][..i] == plans[..i];
      overrides := overrides + OverridesFor(plans[i], extractor);
      transactions := transactions + [TransactionOf(plans[i], abi)];
    }
    assert plans[..|plans|] == plans;
    bundle := BundleRequest(transactions, overrides);
  }

  /** `execute_plans_call_many`: `None` is a request-level failure. */
  method ExecutePlansCallMany(node: Node, t: nat, abi: Abi, plans: seq<CallPlan>, extractor: Bytes,
                              ghost c: BulkCallConfig)
    returns (r: Option<seq<SlotResult>>)
    requires CanBundle(c, plans)
    ensures r.Some? ==> KeysOf(r.value) == KeyList(Flatten(plans)) && ByBundles(node, abi, extractor, c, r.value)
    ensures r.None? ==> var reply := node.callMany(t, BundleFor(plans, abi, extractor));
                        reply.None? || |Concat(reply.value)| != |plans|
  {
    var bundle := BuildBundle(plans, abi, extractor);
    var response := node.callMany(t, bundle);
    if response.None? {
      return None;
    }
    var entries := Concat(response.value);
    if |entries| != |plans| {
      return None;
    }
    var out: seq<SlotResult> := [];
    for i := 0 to |plans|
      invariant KeysOf(out) == KeyList(Flatten(plans[..i]))
      invariant ByBundles(node, abi, extractor, c, out)
    {
      var more := DecodeEntry(plans[i], abi, entries[i]);
      DecodeReplyKeys(plans[i], abi, entries[i], Custom);
      KeysGrow(out, more, plans[..i], plans[i]);
      Prefix(plans, i);
      EntryReported(node, t, abi, extractor, c, plans, i);
      out := out + more;
    }
    assert plans[..|plans|] == plans;
    r := Some(out);
  }

  /** A job of the dispatch stream sends its plans one by one, or (when `bundled`)
      first as a single `eth_callMany`, re-dispatching per call if that fails. */
  method RunJob(node: Node, clock: nat, abi: Abi, job: seq<CallPlan>, bundled: bool, extractor: Bytes,
                ghost c: BulkCallConfig)
    returns (out: seq<SlotResult>, clock': nat)
    requires forall p :: p in job ==> WithinBudget(c, p)
    requires bundled ==> CanBundle(c, job)
    ensures KeysOf(out) == KeyList(Flatten(job))
    ensures Reported(node, abi, extractor, c, out) && (!bundled ==> ByCalls(node, abi, extractor, c, out))
    ensures bundled && AcceptsBundles(node, abi, extractor) ==> ByBundles(node, abi, extractor, c, out)
  {
    clock' := clock;
    if bundled {
      var r := ExecutePlansCallMany(node, clock', abi, job, extractor, c);
      clock' := clock' + 1;
      if r.Some? {
        return r.value, clock';
      }
      assert !AcceptsBundle(node.callMany(clock, BundleFor(job, abi, extractor)), job);
    }
    out := [];
    for i := 0 to |job|
      invariant KeysOf(out) == KeyList(Flatten(job[..i]))
      invariant Reported(node, abi, extractor, c, out) && ByCalls(node, abi, extractor, c, out)
    {
      var more := ExecutePlan(node, clock', abi, job[i], extractor);
      ExecutePlanKeys(node, clock', abi, job[i], extractor);
      KeysGrow(out, more, job[..i], job[i]);
      Prefix(job, i);
      CallReported(node, clock', abi, extractor, c, job[i]);
      out := out + more;
      clock' := clock' + 1;
    }
    assert job[..|job|] == job;
  }

  function JobBag(jobs: seq<seq<CallPlan>>): multiset<SlotKey> {
    if jobs == [] then multiset{} else JobBag(jobs[..|jobs| - 1]) + KeyBag(Flatten(jobs[|jobs| - 1]))
  }

  lemma {:induction false} JobBagConcat(jobs: seq<seq<CallPlan>>)
    ensures JobBag(jobs) == KeyBag(Flatten(Concat(jobs)))
  {
    if jobs == [] {
    } else {
      var front, last := jobs[..|jobs| - 1], jobs[|jobs| - 1];
      JobBagConcat(front);
      FlattenConcat(Concat(front), last);
      KeyBagConcat(Flatten(Concat(front)), Flatten(last));
    }
  }

  lemma JobBagAppend(jobs: seq<seq<CallPlan>>, job: seq<CallPlan>)
    ensures JobBag(jobs + [job]) == JobBag(jobs) + KeyBag(Flatten(job))
  {
    assert (jobs + [job])[..|jobs|] == jobs;
  }

  lemma {:induction false} JobBagRemove(jobs: seq<seq<CallPlan>>, k: nat)
    requires k < |jobs|
    ensures JobBag(jobs) == JobBag(jobs[..k] + jobs[k + 1..]) + KeyBag(Flatten(jobs[k]))
  {
    var n := |jobs| - 1;
    SplitLast([], jobs);
    JobBagAppend(jobs[..n], jobs[n]);
    if k == n {
      assert jobs[..k] + jobs[k + 1..] == jobs[..n];
    } else {
      JobBagRemove(jobs[..n], k);
      RemoveBeforeLast(jobs, k);
      var rest := jobs[..n][..k] + jobs[..n][k + 1..];
      JobBagAppend(rest, jobs[n]);
      SwapBags(JobBag(rest), KeyBag(Flatten(jobs[k])), KeyBag(Flatten(jobs[n])));
    }
  }

  lemma RemoveBeforeLast<T>(s: seq<T>, k: nat)
    requires k < |s| - 1
    ensures s[..k] + s[k + 1..] == (s[..|s| - 1][..k] + s[..|s| - 1][k + 1..]) + [s[|s| - 1]]
  {
  }

  lemma SwapBags<T>(a: multiset<T>, b: multiset<T>, d: multiset<T>)
    ensures (a + b) + d == (a + d) + b
  {
  }

  lemma KeyBagOfJob(out: seq<SlotResult>, more: seq<SlotResult>, job: seq<CallPlan>)
    requires KeysOf(more) == KeyList(Flatten(job))
    ensures multiset(KeysOf(out + more)) == multiset(KeysOf(out)) + KeyBag(Flatten(job))
  {
    KeysOfConcat(out, more);
    KeyListBag(Flatten(job));
  }

  /** The unordered stream: jobs complete in an arbitrary order. */
  method RunJobs(node: Node, clock: nat, abi: Abi, jobs: seq<seq<CallPlan>>, bundled: bool, extractor: Bytes,
                 ghost c: BulkCallConfig)
    returns (out: seq<SlotResult>, clock': nat)
    requires forall j, p :: j in jobs && p in j ==> WithinBudget(c, p)
    requires bundled ==> forall j :: j in jobs ==> CanBundle(c, j)
    ensures multiset(KeysOf(out)) == JobBag(jobs)
    ensures Reported(node, abi, extractor, c, out) && (!bundled ==> ByCalls(node, abi, extractor, c, out))
    ensures bundled && AcceptsBundles(node, abi, extractor) ==> ByBundles(node, abi, extractor, c, out)
  {
    out, clock' := [], clock;
    var remaining := jobs;
    while remaining != []
      invariant multiset(KeysOf(out)) + JobBag(remaining) == JobBag(jobs)
      invariant forall j :: j in remaining ==> j in jobs
      invariant Reported(node, abi, extractor, c, out) && (!bundled ==> ByCalls(node, abi, extractor, c, out))
      invariant bundled && AcceptsBundles(node, abi, extractor) ==> ByBundles(node, abi, extractor, c, out)
      decreases |remaining|
    {
      var k :| 0 <= k < |remaining|;
      var job := remaining[k];
      assert job in jobs;
      var more;
      more, clock' := RunJob(node, clock', abi, job, bundled, extractor, c);
      KeyBagOfJob(out, more, job);
      JobBagRemove(remaining, k);
      JobStep(multiset(KeysOf(out)), JobBag(remaining[..k] + remaining[k + 1..]), KeyBag(Flatten(job)));
      out := out + more;
      remaining := remaining[..k] + remaining[k + 1..];
    }
  }

  lemma JobStep<T>(done: multiset<T>, rest: multiset<T>, job: multiset<T>)
    ensures (done + job) + rest == done + (rest + job)
  {
  }

  // ----- The fetch -----

  function Alone(plans: seq<CallPlan>): seq<seq<CallPlan>> {
    if plans == [] then [] else Alone(plans[..|plans| - 1]) + [[plans[|plans| - 1]]]
  }

  lemma PlanBagAppend(plans: seq<CallPlan>, p: CallPlan)
    ensures KeyBag(Flatten(plans + [p])) == KeyBag(Flatten(plans)) + KeyBag(Targets(p))
  {
    FlattenAppend(plans, p);
    KeyBagConcat(Flatten(plans), Targets(p));
  }

  lemma {:induction false} AloneIsAll(plans: seq<CallPlan>)
    ensures JobBag(Alone(plans)) == KeyBag(Flatten(plans))
  {
    if plans == [] {
    } else {
      var front, last := plans[..|plans| - 1], plans[|plans| - 1];
      SplitLast([], plans);
      AloneIsAll(front);
      JobBagAppend(Alone(front), [last]);
      PlanBagAppend(front, last);
      FlattenAlone(last);
    }
  }

  lemma FlattenAlone(plan: CallPlan)
    ensures Flatten([plan]) == Targets(plan)
  {
    assert [plan][..0] == [];
  }

  lemma {:induction false} AloneMembers(plans: seq<CallPlan>)
    ensures forall j, p :: j in Alone(plans) && p in j ==> p in plans
  {
    if plans == [] {
    } else {
      AloneMembers(plans[..|plans| - 1]);
    }
  }

  /** Plans that target the dispatcher itself. */
  function Conflicting(plans: seq<CallPlan>): seq<CallPlan> {
    if plans == [] then []
    else
      var p := plans[|plans| - 1];
      Conflicting(plans[..|plans| - 1]) + (if p.Single? && p.target == MULTICALL3 then [p] else [])
  }

  function Sharing(plans: seq<CallPlan>): seq<CallPlan> {
    if plans == [] then []
    else
      var p := plans[|plans| - 1];
      Sharing(plans[..|plans| - 1]) + (if p.Single? && p.target == MULTICALL3 then [] else [p])
  }

  lemma {:induction false} PartitionMembers(plans: seq<CallPlan>)
    ensures forall p :: p in Sharing(plans) ==> p in plans && !(p.Single? && p.target == MULTICALL3)
    ensures forall p :: p in Conflicting(plans) ==> p in plans
  {
    if plans == [] {
    } else {
      PartitionMembers(plans[..|plans| - 1]);
    }
  }

  lemma {:induction false} PartitionConserves(plans: seq<CallPlan>)
    ensures KeyBag(Flatten(Sharing(plans))) + KeyBag(Flatten(Conflicting(plans))) == KeyBag(Flatten(plans))
  {
    if plans == [] {
    } else {
      var front, p := plans[..|plans| - 1], plans[|plans| - 1];
      SplitLast([], plans);
      PartitionConserves(front);
      PlanBagAppend(front, p);
      var s, k, b := KeyBag(Flatten(Sharing(front))), KeyBag(Flatten(Conflicting(front))), KeyBag(Targets(p));
      if p.Single? && p.target == MULTICALL3 {
        assert Sharing(plans) == Sharing(front);
        PlanBagAppend(Conflicting(front), p);
        AssociateBags(s, k, b);
      } else {
        assert Conflicting(plans) == Conflicting(front);
        PlanBagAppend(Sharing(front), p);
        SwapBags(s, b, k);
      }
    }
  }

  /** Off the precompiles, so that the injected code actually runs. */
  ghost predicate IdealFor(node: Node, chain: Chain, abi: Abi, requests: seq<SlotKey>) {
    Ideal(node, chain, abi) && OffPrecompiles(chain, requests)
  }

  predicate OffPrecompiles(chain: Chain, requests: seq<SlotKey>) {
    forall k :: k in requests ==> k.address !in chain.precompiles
  }

  /** The results are at the requested addresses. */
  lemma AtRequested(rs: seq<SlotResult>, requests: seq<SlotKey>, r: SlotResult)
    requires multiset(KeysOf(rs)) == multiset(requests) && r in rs
    ensures SlotKey(r.address, r.slot) in requests
  {
    var i :| 0 <= i < |rs| && rs[i] == r;
    assert KeysOf(rs)[i] in KeysOf(rs);
    assert KeysOf(rs)[i] in multiset(requests);
  }

  /** With no request at a precompile, true values are exactly the point reads. */
  lemma TrueIsPointReads(chain: Chain, rs: seq<SlotResult>, requests: seq<SlotKey>)
    requires TrueValues(chain, rs) && multiset(KeysOf(rs)) == multiset(requests)
    requires OffPrecompiles(chain, requests)
    ensures multiset(rs) == multiset(PointReads(chain, requests))
  {
    forall r | r in rs ensures r.address !in chain.precompiles {
      AtRequested(rs, requests, r);
    }
    ReadsAre(chain, rs);
    PointReadsPermute(chain, KeysOf(rs), requests);
  }

  /** Mapping a permutation gives a permutation. */
  lemma {:induction false} PointReadsPermute(chain: Chain, a: seq<SlotKey>, b: seq<SlotKey>)
    requires multiset(a) == multiset(b)
    ensures multiset(PointReads(chain, a)) == multiset(PointReads(chain, b))
    decreases |a|
  {
    if a == [] {
      assert |multiset(b)| == |b| == 0;
    } else {
      var n := |a| - 1;
      var front, k := a[..n], a[n];
      SplitLast([], a);
      assert k in multiset(a);
      var j :| 0 <= j < |b| && b[j] == k;
      var left, right := b[..j], b[j + 1..];
      assert b == left + [k] + right;
      RemoveOne(front, k, left, right);
      PointReadsPermute(chain, front, left + right);
      PointReadsConcat(chain, left, right);
      PointReadsConcat(chain, left + [k], right);
      PointReadsConcat(chain, left, [k]);
      PointReadsConcat(chain, front, [k]);
      InsertOne(PointReads(chain, left), PointReads(chain, [k]), PointReads(chain, right));
    }
  }

  lemma RemoveOne<T>(front: seq<T>, k: T, left: seq<T>, right: seq<T>)
    requires multiset(front + [k]) == multiset(left + [k] + right)
    ensures multiset(front) == multiset(left + right)
  {
    assert multiset(front + [k]) == multiset(front) + multiset{k};
    assert multiset(left + [k] + right) == multiset(left + right) + multiset{k};
    assert multiset(front) == (multiset(front) + multiset{k}) - multiset{k};
    assert multiset(left + right) == (multiset(left + right) + multiset{k}) - multiset{k};
  }

  lemma InsertOne<T>(left: seq<T>, mid: seq<T>, right: seq<T>)
    ensures multiset(left + mid + right) == multiset(left + right) + multiset(mid)
  {
  }

  /** Dispatch of a planned request, per call or bundled. */
  method DispatchPlans(node: Node, plans: seq<CallPlan>, block: BlockId, c: BulkCallConfig, abi: Abi)
    returns (out: seq<SlotResult>)
    requires forall p :: p in plans ==> WithinBudget(c, p)
    ensures multiset(KeysOf(out)) == KeyBag(Flatten(plans))
    ensures Reported(node, abi, ExtractorCode(c), c, out)
    ensures c.dispatch == PerCall || block.Hash? ==> ByCalls(node, abi, ExtractorCode(c), c, out)
    ensures c.dispatch == CallMany && block.Number? && AcceptsBundles(node, abi, ExtractorCode(c)) ==>
              forall r :: r in out && r.address != MULTICALL3 ==> FromBundle(node, abi, ExtractorCode(c), c, r)
  {
    var extractor := ExtractorCode(c);
    if !(c.dispatch == CallMany && block.Number?) {
      AloneIsAll(plans);
      AloneMembers(plans);
      var clock;
      out, clock := RunJobs(node, 0, abi, Alone(plans), false, extractor, c);
      return;
    }
    PartitionConserves(plans);
    PartitionMembers(plans);
    var conflicting, sharing := Conflicting(plans), Sharing(plans);
    var groups := GroupPlansForCallMany(sharing, c.maxSlotsPerRequest);
    JobBagConcat(groups);
    GroupsBundle(c, groups, sharing);
    var clock;
    out, clock := RunJobs(node, 0, abi, groups, true, extractor, c);
    var last;
    last, clock := RunJob(node, clock, abi, conflicting, false, extractor, c);
    KeyBagOfJob(out, last, conflicting);
    ConflictsAtDispatcher(plans);
    AddressesOf(last, KeyList(Flatten(conflicting)));
    out := out + last;
  }

  /** Only the dispatcher's own slots are kept out of the bundles. */
  lemma {:induction false} ConflictsAtDispatcher(plans: seq<CallPlan>)
    ensures forall k :: k in KeyList(Flatten(Conflicting(plans))) ==> k.address == MULTICALL3
  {
    if plans == [] {
    } else {
      var front, p := plans[..|plans| - 1], plans[|plans| - 1];
      ConflictsAtDispatcher(front);
      if p.Single? && p.target == MULTICALL3 {
        FlattenAppend(Conflicting(front), p);
        KeyListConcat(Flatten(Conflicting(front)), Targets(p));
        assert Targets(p)[..0] == [];
      } else {
        assert Conflicting(plans) == Conflicting(front);
      }
    }
  }

  lemma AddressesOf(rs: seq<SlotResult>, keys: seq<SlotKey>)
    requires KeysOf(rs) == keys && forall k :: k in keys ==> k.address == MULTICALL3
    ensures forall r :: r in rs ==> r.address == MULTICALL3
  {
    forall r | r in rs ensures r.address == MULTICALL3 {
      var i :| 0 <= i < |rs| && rs[i] == r;
      assert KeysOf(rs)[i] in keys;
    }
  }

  lemma GroupsBundle(c: BulkCallConfig, groups: seq<seq<CallPlan>>, sharing: seq<CallPlan>)
    requires Concat(groups) == sharing
    requires forall p :: p in sharing ==> WithinBudget(c, p) && !(p.Single? && p.target == MULTICALL3)
    ensures forall g :: g in groups ==> CanBundle(c, g)
    ensures forall g, p :: g in groups && p in g ==> WithinBudget(c, p)
  {
    InConcat(groups);
  }

  lemma {:induction false} InConcat(groups: seq<seq<CallPlan>>)
    ensures forall g, p :: g in groups && p in g ==> p in Concat(groups)
  {
    if groups == [] {
    } else {
      InConcat(groups[..|groups| - 1]);
    }
  }

  /** `fetch_slots_bulk`.  Whatever the node answers, one result per requested
      pair, with multiplicity, each accounted for by the node's answers: only by
      plain calls unless bundling is asked for at a numbered block, and no success
      that is not in a reply.  Against an ideal node every result off the precompiles is the point read, whatever
      else is requested; with no request there, the whole answer is exactly the
      point reads, in some order.  For every configuration and dispatch mode. */
  method FetchSlotsBulk(node: Node, requests: seq<SlotKey>, block: BlockId, config: BulkCallConfig, abi: Abi,
                        ghost chain: Chain)
    returns (out: seq<SlotResult>)
    ensures multiset(KeysOf(out)) == multiset(requests)
    ensures Reported(node, abi, ExtractorCode(config), Normalized(config), out)
    ensures config.dispatch == PerCall || block.Hash? ==>
              ByCalls(node, abi, ExtractorCode(config), Normalized(config), out)
    ensures forall r :: r in out && r.result.Ok? ==>
              InSomeReply(node, abi, ExtractorCode(config), Normalized(config), r)
    ensures Ideal(node, chain, abi) ==> TrueValues(chain, out)
    ensures IdealFor(node, chain, abi, requests) ==> multiset(out) == multiset(PointReads(chain, requests))
  {
    var c := Normalized(config);
    NormalizedIsSafe(config);
    if requests == [] {
      out := [];
      return;
    }
    var plans, _ := PlanCalls(requests, c);
    out := DispatchPlans(node, plans, block, c, abi);
    SuccessesInReplies(node, abi, ExtractorCode(config), c, out);
    if Ideal(node, chain, abi) {
      ReportedTrue(node, chain, abi, ExtractorCode(config), c, out);
    }
    if IdealFor(node, chain, abi, requests) {
      TrueIsPointReads(chain, out, requests);
    }
  }
}
