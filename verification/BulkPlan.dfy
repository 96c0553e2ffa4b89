/**
 The vocabulary of bulk storage planning (`src/bulk_storage.rs`): configuration
 and its clamping, call plans, and the grouping of requests by address.
 */
module BulkPlan {
  import opened Words

  type usize = n: int | 0 <= n < USIZE_MODULUS

  /** The canonical Multicall3 deployment, used as dispatcher. */
  const MULTICALL3: Address := 0xcA11bde05977b3631167028862bE2a173976CA11

  datatype Dispatch = PerCall | CallMany

  datatype BulkCallConfig = BulkCallConfig(
    maxSlotsPerCall: usize,
    maxTargetsPerCall: usize,
    maxConcurrentCalls: usize,
    pointReadThreshold: usize,
    preShanghaiExtractor: bool,
    dispatch: Dispatch,
    maxSlotsPerRequest: usize,
    maxRequestBytes: usize)

  const ENVELOPE_RESERVE: usize := 512
  const HEX_BYTES_PER_SLOT: usize := 64

  function Max(a: usize, b: usize): usize { if a >= b then a else b }
  function Min(a: usize, b: usize): usize { if a <= b then a else b }

  /** How many slots fit the request-body budget, and at least one. */
  function ByteLimitedSlots(c: BulkCallConfig): usize {
    Max((if c.maxRequestBytes >= ENVELOPE_RESERVE then c.maxRequestBytes - ENVELOPE_RESERVE else 0)
        / HEX_BYTES_PER_SLOT, 1)
  }

  function Normalized(c: BulkCallConfig): BulkCallConfig {
    var limit := ByteLimitedSlots(c);
    c.(maxSlotsPerCall := Min(Max(c.maxSlotsPerCall, 1), limit),
       maxTargetsPerCall := Max(c.maxTargetsPerCall, 1),
       maxConcurrentCalls := Max(c.maxConcurrentCalls, 1),
       maxSlotsPerRequest := Min(Max(c.maxSlotsPerRequest, 1), limit),
       maxRequestBytes := Max(c.maxRequestBytes, ENVELOPE_RESERVE + HEX_BYTES_PER_SLOT))
  }

  /** Every budget a plan relies on is at least one. */
  predicate Usable(c: BulkCallConfig) {
    && c.maxSlotsPerCall >= 1
    && c.maxTargetsPerCall >= 1
    && c.maxConcurrentCalls >= 1
    && c.maxSlotsPerRequest >= 1
  }

  /** A body carrying `slots` keys stays inside the request budget. */
  predicate FitsBody(c: BulkCallConfig, slots: nat) {
    ENVELOPE_RESERVE + HEX_BYTES_PER_SLOT * slots <= c.maxRequestBytes
  }

  /** Clamping is idempotent, leaves usable budgets, never raises a positive
      budget, makes a full call or a full request fit the body budget, lowers a
      slot budget only as far as that needs, and changes nothing else. */
  lemma NormalizedIsSafe(c: BulkCallConfig)
    ensures Normalized(Normalized(c)) == Normalized(c)
    ensures Usable(Normalized(c))
    ensures c.maxSlotsPerCall >= 1 ==> Normalized(c).maxSlotsPerCall <= c.maxSlotsPerCall
    ensures c.maxSlotsPerRequest >= 1 ==> Normalized(c).maxSlotsPerRequest <= c.maxSlotsPerRequest
    ensures FitsBody(Normalized(c), Normalized(c).maxSlotsPerCall)
    ensures FitsBody(Normalized(c), Normalized(c).maxSlotsPerRequest)
    ensures c.maxSlotsPerCall >= 1 && FitsBody(c, c.maxSlotsPerCall) ==>
              Normalized(c).maxSlotsPerCall == c.maxSlotsPerCall
    ensures c.maxSlotsPerRequest >= 1 && FitsBody(c, c.maxSlotsPerRequest) ==>
              Normalized(c).maxSlotsPerRequest == c.maxSlotsPerRequest
    ensures Normalized(c).maxSlotsPerCall < c.maxSlotsPerCall ==> !FitsBody(c, Normalized(c).maxSlotsPerCall + 1)
    ensures Normalized(c).maxSlotsPerRequest < c.maxSlotsPerRequest ==>
              !FitsBody(c, Normalized(c).maxSlotsPerRequest + 1)
    ensures c.maxTargetsPerCall >= 1 ==> Normalized(c).maxTargetsPerCall == c.maxTargetsPerCall
    ensures c.maxConcurrentCalls >= 1 ==> Normalized(c).maxConcurrentCalls == c.maxConcurrentCalls
    ensures FitsBody(c, 1) ==> Normalized(c).maxRequestBytes == c.maxRequestBytes
    ensures Normalized(c).pointReadThreshold == c.pointReadThreshold && Normalized(c).dispatch == c.dispatch
    ensures Normalized(c).preShanghaiExtractor == c.preShanghaiExtractor
  {
    var n := Normalized(c);
    assert ByteLimitedSlots(n) == ByteLimitedSlots(c);
  }

  datatype Target = Target(address: Address, slots: seq<Word>)

  /** One planned `eth_call`. */
  datatype CallPlan =
    | Single(target: Address, slots: seq<Word>)
    | Multi(targets: seq<Target>)

  /** The targets a plan reads, in order. */
  function Targets(plan: CallPlan): seq<Target> {
    match plan
    case Single(a, slots) => [Target(a, slots)]
    case Multi(targets) => targets
  }

  function SlotTotal(ts: seq<Target>): nat {
    if ts == [] then 0 else SlotTotal(ts[..|ts| - 1]) + |ts[|ts| - 1].slots|
  }

  /** `CallPlan::request_slot_count`. */
  function SlotCount(plan: CallPlan): (n: nat)
    ensures n == SlotTotal(Targets(plan))
  {
    match plan
    case Single(a, slots) =>
      assert Targets(plan)[..0] == [];
      |slots|
    case Multi(targets) => SlotTotal(targets)
  }

  /** The pairs `(a, s)` for each `s` in `slots`. */
  function KeysAt(a: Address, slots: seq<Word>): (keys: seq<SlotKey>)
    ensures |keys| == |slots|
    ensures forall i :: 0 <= i < |slots| ==> keys[i] == SlotKey(a, slots[i])
  {
    seq(|slots|, i requires 0 <= i < |slots| => SlotKey(a, slots[i]))
  }

  /** The pairs a list of targets covers, with multiplicity. */
  function KeyBag(ts: seq<Target>): multiset<SlotKey> {
    if ts == [] then multiset{}
    else KeyBag(ts[..|ts| - 1]) + BagOf(ts[|ts| - 1])
  }

  function Flatten(plans: seq<CallPlan>): seq<Target> {
    if plans == [] then [] else Flatten(plans[..|plans| - 1]) + Targets(plans[|plans| - 1])
  }

  predicate DistinctTargets(ts: seq<Target>) {
    forall i, j :: 0 <= i < j < |ts| ==> ts[i].address != ts[j].address
  }

  /** The budgets and shape every planned call respects. */
  predicate WithinBudget(c: BulkCallConfig, plan: CallPlan) {
    && 1 <= SlotCount(plan) <= c.maxSlotsPerCall
    && (forall t :: t in Targets(plan) ==> t.slots != [])
    && (plan.Multi? ==>
          && 2 <= |plan.targets| <= c.maxTargetsPerCall
          && DistinctTargets(plan.targets)
          && forall t :: t in plan.targets ==> t.address != MULTICALL3)
  }

  function BagOf(t: Target): multiset<SlotKey> {
    multiset(KeysAt(t.address, t.slots))
  }

  lemma KeyBagAppend(ts: seq<Target>, t: Target)
    ensures KeyBag(ts + [t]) == KeyBag(ts) + BagOf(t)
    ensures SlotTotal(ts + [t]) == SlotTotal(ts) + |t.slots|
  {
    assert (ts + [t])[..|ts|] == ts;
  }

  lemma {:induction false} KeyBagConcat(a: seq<Target>, b: seq<Target>)
    ensures KeyBag(a + b) == KeyBag(a) + KeyBag(b)
    ensures SlotTotal(a + b) == SlotTotal(a) + SlotTotal(b)
  {
    if b == [] {
      assert a + b == a;
    } else {
      var front, t := b[..|b| - 1], b[|b| - 1];
      SplitLast(a, b);
      KeyBagConcat(a, front);
      KeyBagAppend(a + front, t);
      KeyBagAppend(front, t);
      AssociateBags(KeyBag(a), KeyBag(front), BagOf(t));
    }
  }

  lemma FlattenAppend(plans: seq<CallPlan>, plan: CallPlan)
    ensures Flatten(plans + [plan]) == Flatten(plans) + Targets(plan)
  {
    assert (plans + [plan])[..|plans|] == plans;
  }

  lemma {:induction false} FlattenConcat(a: seq<CallPlan>, b: seq<CallPlan>)
    ensures Flatten(a + b) == Flatten(a) + Flatten(b)
  {
    if b == [] {
      assert a + b == a;
    } else {
      var front, plan := b[..|b| - 1], b[|b| - 1];
      SplitLast(a, b);
      FlattenConcat(a, front);
      FlattenAppend(a + front, plan);
      Associate(Flatten(a), Flatten(front), Targets(plan));
    }
  }

  // ----- Grouping -----

  /** Distinct addresses in the order they are first requested. */
  function FirstSeen(requests: seq<SlotKey>): (order: seq<Address>) {
    if requests == [] then []
    else
      var before := FirstSeen(requests[..|requests| - 1]);
      var a := requests[|requests| - 1].address;
      if a in before then before else before + [a]
  }

  /** The slots requested at `a`, in request order, duplicates included. */
  function SlotsOf(requests: seq<SlotKey>, a: Address): seq<Word> {
    if requests == [] then []
    else
      var before := SlotsOf(requests[..|requests| - 1], a);
      var last := requests[|requests| - 1];
      if last.address == a then before + [last.slot] else before
  }

  predicate Distinct(order: seq<Address>) {
    forall i, j :: 0 <= i < j < |order| ==> order[i] != order[j]
  }

  lemma {:induction false} FirstSeenComplete(requests: seq<SlotKey>)
    ensures Distinct(FirstSeen(requests))
    ensures forall r :: r in requests ==> r.address in FirstSeen(requests)
    ensures forall a :: a in FirstSeen(requests) ==> SlotsOf(requests, a) != []
  {
    if requests == [] {
    } else {
      var front := requests[..|requests| - 1];
      FirstSeenComplete(front);
      assert requests == front + [requests[|requests| - 1]];
    }
  }

  /** First-seen order: later requests only append to the order. */
  lemma {:induction false} FirstSeenGrows(requests: seq<SlotKey>, n: nat)
    requires n <= |requests|
    ensures FirstSeen(requests[..n]) <= FirstSeen(requests)
  {
    if n == |requests| {
      assert requests[..n] == requests;
    } else {
      var front := requests[..|requests| - 1];
      FirstSeenGrows(front, n);
      assert front[..n] == requests[..n];
    }
  }

  /** The grouped requests, one target per distinct address. */
  function Grouped(requests: seq<SlotKey>, order: seq<Address>): (ts: seq<Target>)
    ensures |ts| == |order|
    ensures forall i :: 0 <= i < |order| ==> ts[i] == Target(order[i], SlotsOf(requests, order[i]))
  {
    seq(|order|, i requires 0 <= i < |order| => Target(order[i], SlotsOf(requests, order[i])))
  }

  /** `r` itself if its address is in `order`, else nothing. */
  function Share(order: seq<Address>, r: SlotKey): multiset<SlotKey> {
    if r.address in order then multiset{r} else multiset{}
  }

  lemma ShareAppend(front: seq<Address>, a: Address, r: SlotKey)
    requires a !in front
    ensures Share(front + [a], r) == Share(front, r) + Share([a], r)
  {
  }

  /** One more request adds itself to the bag of exactly one group. */
  lemma {:induction false} GroupedExtend(requests: seq<SlotKey>, r: SlotKey, order: seq<Address>)
    requires Distinct(order)
    ensures KeyBag(Grouped(requests + [r], order)) == KeyBag(Grouped(requests, order)) + Share(order, r)
  {
    if order == [] {
    } else {
      var n := |order| - 1;
      var front, a := order[..n], order[n];
      SplitLast([], order);
      GroupedAppend(requests, front, a);
      GroupedAppend(requests + [r], front, a);
      GroupExtend(requests, r, a);
      GroupedExtend(requests, r, front);
      ShareAppend(front, a, r);
      RearrangeBags(KeyBag(Grouped(requests, front)), Share(front, r),
                    BagOf(Target(a, SlotsOf(requests, a))), Share([a], r));
    }
  }

  lemma GroupedAppend(requests: seq<SlotKey>, order: seq<Address>, a: Address)
    ensures KeyBag(Grouped(requests, order + [a]))
         == KeyBag(Grouped(requests, order)) + BagOf(Target(a, SlotsOf(requests, a)))
  {
    assert Grouped(requests, order + [a]) == Grouped(requests, order) + [Target(a, SlotsOf(requests, a))];
    KeyBagAppend(Grouped(requests, order), Target(a, SlotsOf(requests, a)));
  }

  lemma GroupExtend(requests: seq<SlotKey>, r: SlotKey, a: Address)
    ensures BagOf(Target(a, SlotsOf(requests + [r], a)))
         == BagOf(Target(a, SlotsOf(requests, a))) + Share([a], r)
  {
    var before, after := SlotsOf(requests, a), SlotsOf(requests + [r], a);
    assert (requests + [r])[..|requests|] == requests;
    if r.address == a {
      assert after == before + [r.slot];
      assert KeysAt(a, after) == KeysAt(a, before) + [r];
    } else {
      assert after == before;
    }
  }

  /** Grouping conserves the requests. */
  lemma {:induction false} GroupingConserves(requests: seq<SlotKey>)
    ensures KeyBag(Grouped(requests, FirstSeen(requests))) == multiset(requests)
  {
    if requests == [] {
    } else {
      var front, r := requests[..|requests| - 1], requests[|requests| - 1];
      SplitLast([], requests);
      GroupingConserves(front);
      GroupingStep(front, r);
    }
  }

  lemma GroupingStep(front: seq<SlotKey>, r: SlotKey)
    ensures KeyBag(Grouped(front + [r], FirstSeen(front + [r])))
         == KeyBag(Grouped(front, FirstSeen(front))) + multiset{r}
  {
    var before := FirstSeen(front);
    assert (front + [r])[..|front|] == front;
    FirstSeenComplete(front);
    GroupedExtend(front, r, before);
    if r.address !in before {
      NewGroup(front, r, before);
    }
  }

  lemma NewGroup(front: seq<SlotKey>, r: SlotKey, before: seq<Address>)
    requires r.address !in before && before == FirstSeen(front)
    ensures KeyBag(Grouped(front + [r], before + [r.address]))
         == KeyBag(Grouped(front + [r], before)) + multiset{r}
  {
    var requests, a := front + [r], r.address;
    GroupedAppend(requests, before, a);
    FirstSeenComplete(front);
    Unrequested(front, a);
    assert requests[..|front|] == front;
    assert SlotsOf(requests, a) == [r.slot];
    assert KeysAt(a, [r.slot]) == [r];
  }

  lemma {:induction false} Unrequested(requests: seq<SlotKey>, a: Address)
    requires a !in FirstSeen(requests)
    ensures SlotsOf(requests, a) == []
  {
    if requests == [] {
    } else {
      Unrequested(requests[..|requests| - 1], a);
    }
  }
}
