/**
 `plan_calls` of `src/bulk_storage.rs`: chunking and greedy packing, with the
 conservation and budget results about what is planned.
 */
module Planner {
  import opened Words
  import opened BulkPlan

  // ----- Chunking -----

  /** `slice::chunks`: pieces of `m`, the last one possibly shorter. */
  function Chunks(slots: seq<Word>, m: nat): (cs: seq<seq<Word>>)
    requires m >= 1
    ensures forall i :: 0 <= i < |cs| ==> 1 <= |cs[i]| <= m
    ensures forall i :: 0 <= i < |cs| - 1 ==> |cs[i]| == m
  {
    if slots == [] then []
    else if |slots| <= m then [slots]
    else [slots[..m]] + Chunks(slots[m..], m)
  }

  /** A full chunk, and any chunk of the dispatcher, gets a call of its own. */
  predicate Dedicated(a: Address, chunk: seq<Word>, m: nat) {
    |chunk| == m || a == MULTICALL3
  }

  function DirectOf(a: Address, cs: seq<seq<Word>>, m: nat): seq<CallPlan> {
    if cs == [] then []
    else
      var chunk := cs[|cs| - 1];
      DirectOf(a, cs[..|cs| - 1], m) + (if Dedicated(a, chunk, m) then [Single(a, chunk)] else [])
  }

  function RestOf(a: Address, cs: seq<seq<Word>>, m: nat): seq<Target> {
    if cs == [] then []
    else
      var chunk := cs[|cs| - 1];
      RestOf(a, cs[..|cs| - 1], m) + (if Dedicated(a, chunk, m) then [] else [Target(a, chunk)])
  }

  /** The dedicated calls for all grouped targets. */
  function DirectPlans(ts: seq<Target>, m: nat): seq<CallPlan>
    requires m >= 1
  {
    if ts == [] then []
    else
      var t := ts[|ts| - 1];
      DirectPlans(ts[..|ts| - 1], m) + DirectOf(t.address, Chunks(t.slots, m), m)
  }

  /** What is left of each target after its dedicated calls. */
  function Remainders(ts: seq<Target>, m: nat): seq<Target>
    requires m >= 1
  {
    if ts == [] then []
    else
      var t := ts[|ts| - 1];
      Remainders(ts[..|ts| - 1], m) + RestOf(t.address, Chunks(t.slots, m), m)
  }

  function ChunkBag(a: Address, cs: seq<seq<Word>>): multiset<SlotKey> {
    if cs == [] then multiset{}
    else ChunkBag(a, cs[..|cs| - 1]) + BagOf(Target(a, cs[|cs| - 1]))
  }

  lemma KeysSplit(a: Address, s: seq<Word>, t: seq<Word>)
    ensures BagOf(Target(a, s + t)) == BagOf(Target(a, s)) + BagOf(Target(a, t))
  {
    assert KeysAt(a, s + t) == KeysAt(a, s) + KeysAt(a, t);
  }

  lemma {:induction false} ChunkBagPrepend(a: Address, first: seq<Word>, cs: seq<seq<Word>>)
    ensures ChunkBag(a, [first] + cs) == BagOf(Target(a, first)) + ChunkBag(a, cs)
  {
    if cs == [] {
      assert [first] + cs == [first];
      assert [first][..0] == [];
    } else {
      SplitLast([first], cs);
      ChunkBagPrepend(a, first, cs[..|cs| - 1]);
      AssociateBags(BagOf(Target(a, first)), ChunkBag(a, cs[..|cs| - 1]), BagOf(Target(a, cs[|cs| - 1])));
    }
  }

  /** Chunking loses and invents nothing. */
  lemma {:induction false} ChunksConserve(a: Address, slots: seq<Word>, m: nat)
    requires m >= 1
    ensures ChunkBag(a, Chunks(slots, m)) == BagOf(Target(a, slots))
    decreases |slots|
  {
    if slots == [] {
    } else if |slots| <= m {
      assert [slots][..0] == [];
    } else {
      ChunksConserve(a, slots[m..], m);
      ChunkBagPrepend(a, slots[..m], Chunks(slots[m..], m));
      KeysSplit(a, slots[..m], slots[m..]);
      assert slots == slots[..m] + slots[m..];
    }
  }

  lemma {:induction false} SplitConserves(a: Address, cs: seq<seq<Word>>, m: nat)
    ensures KeyBag(Flatten(DirectOf(a, cs, m))) + KeyBag(RestOf(a, cs, m)) == ChunkBag(a, cs)
  {
    if cs == [] {
    } else {
      var front, chunk := cs[..|cs| - 1], cs[|cs| - 1];
      SplitConserves(a, front, m);
      var d, r := KeyBag(Flatten(DirectOf(a, front, m))), KeyBag(RestOf(a, front, m));
      if Dedicated(a, chunk, m) {
        FlattenAppend(DirectOf(a, front, m), Single(a, chunk));
        KeyBagAppend(Flatten(DirectOf(a, front, m)), Target(a, chunk));
        assert RestOf(a, cs, m) == RestOf(a, front, m);
        RearrangeBags(d, BagOf(Target(a, chunk)), r, multiset{});
      } else {
        assert DirectOf(a, cs, m) == DirectOf(a, front, m);
        KeyBagAppend(RestOf(a, front, m), Target(a, chunk));
        AssociateBags(d, r, BagOf(Target(a, chunk)));
      }
    }
  }

  /** Dedicated calls and remainders together cover exactly the groups. */
  lemma {:induction false} ChunkingConserves(ts: seq<Target>, m: nat)
    requires m >= 1
    ensures KeyBag(Flatten(DirectPlans(ts, m))) + KeyBag(Remainders(ts, m)) == KeyBag(ts)
  {
    if ts == [] {
    } else {
      var front, t := ts[..|ts| - 1], ts[|ts| - 1];
      var cs := Chunks(t.slots, m);
      ChunkingConserves(front, m);
      SplitConserves(t.address, cs, m);
      ChunksConserve(t.address, t.slots, m);
      FlattenConcat(DirectPlans(front, m), DirectOf(t.address, cs, m));
      KeyBagConcat(Flatten(DirectPlans(front, m)), Flatten(DirectOf(t.address, cs, m)));
      KeyBagConcat(Remainders(front, m), RestOf(t.address, cs, m));
      RearrangeBags(KeyBag(Flatten(DirectPlans(front, m))), KeyBag(Flatten(DirectOf(t.address, cs, m))),
                    KeyBag(Remainders(front, m)), KeyBag(RestOf(t.address, cs, m)));
    }
  }

  // ----- Shape of the two parts -----

  predicate DirectShape(plan: CallPlan, m: nat) {
    plan.Single? && 1 <= |plan.slots| <= m && (plan.target != MULTICALL3 ==> |plan.slots| == m)
  }

  predicate RestShape(t: Target, m: nat) {
    1 <= |t.slots| < m && t.address != MULTICALL3
  }

  lemma {:induction false} SplitShapes(a: Address, cs: seq<seq<Word>>, m: nat)
    requires forall i :: 0 <= i < |cs| ==> 1 <= |cs[i]| <= m
    ensures forall p :: p in DirectOf(a, cs, m) ==> DirectShape(p, m)
    ensures forall t :: t in RestOf(a, cs, m) ==> RestShape(t, m) && t.address == a
  {
    if cs == [] {
    } else {
      SplitShapes(a, cs[..|cs| - 1], m);
    }
  }

  lemma {:induction false} NoRestWhenFull(a: Address, cs: seq<seq<Word>>, m: nat)
    requires forall i :: 0 <= i < |cs| ==> |cs[i]| == m
    ensures RestOf(a, cs, m) == []
  {
    if cs == [] {
    } else {
      NoRestWhenFull(a, cs[..|cs| - 1], m);
    }
  }

  /** Only the final chunk can be partial: one remainder per target at most. */
  lemma AtMostOneRest(a: Address, slots: seq<Word>, m: nat)
    requires m >= 1
    ensures |RestOf(a, Chunks(slots, m), m)| <= 1
  {
    var cs := Chunks(slots, m);
    if cs != [] {
      NoRestWhenFull(a, cs[..|cs| - 1], m);
    }
  }

  function Addresses(ts: seq<Target>): set<Address> {
    set t | t in ts :: t.address
  }

  lemma {:induction false} ChunkingShapes(ts: seq<Target>, m: nat)
    requires m >= 1
    ensures forall p :: p in DirectPlans(ts, m) ==> DirectShape(p, m)
    ensures forall t :: t in Remainders(ts, m) ==> RestShape(t, m) && t.address in Addresses(ts)
  {
    if ts == [] {
    } else {
      var front, t := ts[..|ts| - 1], ts[|ts| - 1];
      ChunkingShapes(front, m);
      SplitShapes(t.address, Chunks(t.slots, m), m);
      assert Addresses(front) <= Addresses(ts);
      assert t in ts && t.address in Addresses(ts);
    }
  }

  lemma AppendDistinct(before: seq<Target>, last: seq<Target>, a: Address)
    requires DistinctTargets(before) && |last| <= 1
    requires forall t :: t in before ==> t.address != a
    requires forall t :: t in last ==> t.address == a
    ensures DistinctTargets(before + last)
  {
    if last != [] {
      assert last[0] in last;
      forall i | 0 <= i < |before| ensures before[i].address != a {
        assert before[i] in before;
      }
    }
  }

  lemma {:induction false} RemaindersDistinct(ts: seq<Target>, m: nat)
    requires m >= 1 && DistinctTargets(ts)
    ensures DistinctTargets(Remainders(ts, m)) && |Remainders(ts, m)| <= |ts|
  {
    if ts == [] {
    } else {
      var front, t := ts[..|ts| - 1], ts[|ts| - 1];
      RemaindersDistinct(front, m);
      ChunkingShapes(front, m);
      SplitShapes(t.address, Chunks(t.slots, m), m);
      AtMostOneRest(t.address, t.slots, m);
      assert t.address !in Addresses(front);
      AppendDistinct(Remainders(front, m), RestOf(t.address, Chunks(t.slots, m), m), t.address);
    }
  }

  // ----- Greedy packing -----

  /** `flush`: one target becomes a direct call, several a multicall. */
  function FlushPlan(current: seq<Target>): (plan: CallPlan)
    requires current != []
    ensures Targets(plan) == current
    ensures plan.Multi? <==> |current| > 1
  {
    if |current| == 1 then Single(current[0].address, current[0].slots) else Multi(current)
  }

  /** The plan at `i` was closed because its successor's first target no longer fit. */
  predicate ClosedByNext(c: BulkCallConfig, plans: seq<CallPlan>, i: nat)
    requires i + 1 < |plans|
  {
    Targets(plans[i + 1]) != [] && Overflows(c, Targets(plans[i]), Targets(plans[i + 1])[0])
  }

  predicate Overflows(c: BulkCallConfig, current: seq<Target>, next: Target) {
    SlotTotal(current) + |next.slots| > c.maxSlotsPerCall || |current| >= c.maxTargetsPerCall
  }

  predicate NextFit(c: BulkCallConfig, plans: seq<CallPlan>) {
    forall i :: 0 <= i < |plans| - 1 ==> ClosedByNext(c, plans, i)
  }

  lemma NextFitAppend(c: BulkCallConfig, plans: seq<CallPlan>, plan: CallPlan)
    requires NextFit(c, plans)
    requires plans != [] ==> ClosedByNext(c, [plans[|plans| - 1], plan], 0)
    ensures NextFit(c, plans + [plan])
  {
    var all := plans + [plan];
    forall i | 0 <= i < |all| - 1 ensures ClosedByNext(c, all, i) {
      if i < |plans| - 1 {
        assert ClosedByNext(c, plans, i);
      } else {
        assert ClosedByNext(c, [plans[|plans| - 1], plan], 0);
      }
    }
  }

  lemma {:induction false} SlotTotalPositive(ts: seq<Target>)
    requires ts != [] && forall t :: t in ts ==> |t.slots| >= 1
    ensures SlotTotal(ts) >= 1
  {
  }

  /** A flushed run of remainders is a well-formed plan. */
  lemma FlushedWithinBudget(c: BulkCallConfig, packable: seq<Target>, lo: nat, hi: nat)
    requires Packable(c, packable) && lo < hi <= |packable|
    requires SlotTotal(packable[lo..hi]) <= c.maxSlotsPerCall && hi - lo <= c.maxTargetsPerCall
    ensures WithinBudget(c, FlushPlan(packable[lo..hi]))
  {
    var current := packable[lo..hi];
    assert forall t :: t in current ==> t in packable;
    SlotTotalPositive(current);
    assert DistinctTargets(current);
  }

  /** The greedy loop's invariant: `plans` covers the first `lo` remainders and
      the open run `packable[lo..i]` still fits. */
  ghost predicate Packing(c: BulkCallConfig, packable: seq<Target>, plans: seq<CallPlan>, lo: nat, i: nat) {
    && lo <= i <= |packable|
    && (i > 0 ==> lo < i)
    && Flatten(plans) == packable[..lo]
    && SlotTotal(packable[lo..i]) <= c.maxSlotsPerCall
    && i - lo <= c.maxTargetsPerCall
    && (forall p :: p in plans ==> WithinBudget(c, p))
    && NextFit(c, plans)
    && (plans != [] ==> lo < i && Overflows(c, Targets(plans[|plans| - 1]), packable[lo]))
  }

  ghost predicate Packable(c: BulkCallConfig, packable: seq<Target>) {
    && Usable(c) && DistinctTargets(packable)
    && forall t :: t in packable ==> RestShape(t, c.maxSlotsPerCall)
  }

  /** Closing the open run. */
  lemma FlushRun(c: BulkCallConfig, packable: seq<Target>, plans: seq<CallPlan>, lo: nat, i: nat)
    requires Packable(c, packable) && Packing(c, packable, plans, lo, i) && lo < i
    ensures var flushed := plans + [FlushPlan(packable[lo..i])];
            && Flatten(flushed) == packable[..i]
            && (forall p :: p in flushed ==> WithinBudget(c, p))
            && NextFit(c, flushed)
  {
    var plan := FlushPlan(packable[lo..i]);
    FlushedWithinBudget(c, packable, lo, i);
    FlattenAppend(plans, plan);
    assert packable[..lo] + packable[lo..i] == packable[..i];
    if plans != [] {
      assert Targets(plan)[0] == packable[lo];
    }
    NextFitAppend(c, plans, plan);
  }

  /** Extending the open run by a remainder that fits. */
  lemma ExtendRun(c: BulkCallConfig, packable: seq<Target>, plans: seq<CallPlan>, lo: nat, i: nat)
    requires Packable(c, packable) && Packing(c, packable, plans, lo, i) && i < |packable|
    requires lo == i || !Overflows(c, packable[lo..i], packable[i])
    ensures Packing(c, packable, plans, lo, i + 1)
  {
    assert packable[i] in packable;
    RunGrows(packable, lo, i);
  }

  lemma RunGrows(packable: seq<Target>, lo: nat, i: nat)
    requires lo <= i < |packable|
    ensures packable[lo..i + 1] == packable[lo..i] + [packable[i]]
    ensures SlotTotal(packable[lo..i + 1]) == SlotTotal(packable[lo..i]) + |packable[i].slots|
  {
    assert packable[lo..i + 1] == packable[lo..i] + [packable[i]];
    KeyBagAppend(packable[lo..i], packable[i]);
  }

  /** Closing the run and opening a new one. */
  lemma RestartRun(c: BulkCallConfig, packable: seq<Target>, plans: seq<CallPlan>, lo: nat, i: nat)
    requires Packable(c, packable) && Packing(c, packable, plans, lo, i) && lo < i < |packable|
    requires Overflows(c, packable[lo..i], packable[i])
    ensures Packing(c, packable, plans + [FlushPlan(packable[lo..i])], i, i + 1)
    ensures packable[i..i] == [] && SlotTotal(packable[i..i]) == 0
  {
    FlushRun(c, packable, plans, lo, i);
    assert packable[i] in packable;
    RunGrows(packable, i, i);
  }

  /** The body of the packing loop. */
  method AddRemainder(plans: seq<CallPlan>, current: seq<Target>, currentSlots: nat, c: BulkCallConfig,
                      packable: seq<Target>, i: nat, ghost lo: nat)
    returns (plans': seq<CallPlan>, current': seq<Target>, currentSlots': nat, ghost lo': nat)
    requires Packable(c, packable) && i < |packable| && Packing(c, packable, plans, lo, i)
    requires current == packable[lo..i] && currentSlots == SlotTotal(current)
    ensures Packing(c, packable, plans', lo', i + 1)
    ensures current' == packable[lo'..i + 1] && currentSlots' == SlotTotal(current')
  {
    var next := packable[i];
    var wouldOverflow := currentSlots + |next.slots| > c.maxSlotsPerCall || |current| >= c.maxTargetsPerCall;
    if current != [] && wouldOverflow {
      RestartRun(c, packable, plans, lo, i);
      RunGrows(packable, i, i);
      plans', current', currentSlots', lo' := plans + [FlushPlan(current)], [next], |next.slots|, i;
    } else {
      ExtendRun(c, packable, plans, lo, i);
      RunGrows(packable, lo, i);
      plans', current', currentSlots', lo' := plans, current + [next], currentSlots + |next.slots|, lo;
    }
  }

  /** The greedy packing of `plan_calls`. */
  method PackRemainders(packable: seq<Target>, c: BulkCallConfig) returns (plans: seq<CallPlan>)
    requires Packable(c, packable)
    ensures Flatten(plans) == packable
    ensures forall p :: p in plans ==> WithinBudget(c, p)
    ensures NextFit(c, plans)
  {
    plans := [];
    var current: seq<Target> := [];
    var currentSlots := 0;
    ghost var lo: nat := 0;
    for i := 0 to |packable|
      invariant Packing(c, packable, plans, lo, i)
      invariant current == packable[lo..i] && currentSlots == SlotTotal(current)
    {
      plans, current, currentSlots, lo := AddRemainder(plans, current, currentSlots, c, packable, i, lo);
    }
    assert packable[..|packable|] == packable;
    if current != [] {
      FlushRun(c, packable, plans, lo, |packable|);
      plans := plans + [FlushPlan(current)];
    }
  }

  // ----- The planner -----

  method GroupByAddress(requests: seq<SlotKey>) returns (order: seq<Address>, groups: map<Address, seq<Word>>)
    ensures order == FirstSeen(requests)
    ensures forall a :: a in groups <==> a in order
    ensures forall a :: a in order ==> groups[a] == SlotsOf(requests, a)
  {
    order, groups := [], map[];
    for i := 0 to |requests|
      invariant order == FirstSeen(requests[..i])
      invariant forall a :: a in groups <==> a in order
      invariant forall a :: a in order ==> groups[a] == SlotsOf(requests[..i], a)
    {
      var r := requests[i];
      assert requests[..i + 1][..i] == requests[..i];
      if r.address !in groups {
        Unrequested(requests[..i], r.address);
        order := order + [r.address];
        groups := groups[r.address := []];
      }
      groups := groups[r.address := groups[r.address] + [r.slot]];
    }
    assert requests[..|requests|] == requests;
  }

  lemma DirectPlansAppend(ts: seq<Target>, t: Target, m: nat)
    requires m >= 1
    ensures DirectPlans(ts + [t], m) == DirectPlans(ts, m) + DirectOf(t.address, Chunks(t.slots, m), m)
    ensures Remainders(ts + [t], m) == Remainders(ts, m) + RestOf(t.address, Chunks(t.slots, m), m)
  {
    assert (ts + [t])[..|ts|] == ts;
  }

  /** The nested chunk loops: dedicated calls now, remainders for packing. */
  method SplitIntoChunks(order: seq<Address>, groups: map<Address, seq<Word>>, ghost ts: seq<Target>, c: BulkCallConfig)
    returns (plans: seq<CallPlan>, packable: seq<Target>)
    requires Usable(c)
    requires |ts| == |order| && forall i :: 0 <= i < |order| ==>
              order[i] in groups && ts[i] == Target(order[i], groups[order[i]])
    ensures plans == DirectPlans(ts, c.maxSlotsPerCall)
    ensures packable == Remainders(ts, c.maxSlotsPerCall)
  {
    plans, packable := [], [];
    var m := c.maxSlotsPerCall;
    for i := 0 to |order|
      invariant plans == DirectPlans(ts[..i], m)
      invariant packable == Remainders(ts[..i], m)
    {
      var address := order[i];
      var chunks := Chunks(groups[address], m);
      ghost var plans0, packable0 := plans, packable;
      for j := 0 to |chunks|
        invariant plans == plans0 + DirectOf(address, chunks[..j], m)
        invariant packable == packable0 + RestOf(address, chunks[..j], m)
      {
        var chunk := chunks[j];
        assert chunks[..j + 1][..j] == chunks[..j];
        if |chunk| == m || address == MULTICALL3 {
          plans := plans + [Single(address, chunk)];
        } else {
          packable := packable + [Target(address, chunk)];
        }
      }
      assert chunks[..|chunks|] == chunks;
      assert ts[..i + 1] == ts[..i] + [ts[i]];
      DirectPlansAppend(ts[..i], ts[i], m);
    }
    assert ts[..|order|] == ts;
  }

  lemma DirectWithinBudget(c: BulkCallConfig, plan: CallPlan)
    requires DirectShape(plan, c.maxSlotsPerCall)
    ensures WithinBudget(c, plan)
  {
  }

  lemma GroupedDistinct(requests: seq<SlotKey>)
    ensures DistinctTargets(Grouped(requests, FirstSeen(requests)))
  {
    FirstSeenComplete(requests);
  }

  /** `plan_calls`.  The first `direct` plans are dedicated calls, the rest come
      from greedy packing. */
  method PlanCalls(requests: seq<SlotKey>, c: BulkCallConfig) returns (plans: seq<CallPlan>, ghost direct: nat)
    requires Usable(c)
    ensures KeyBag(Flatten(plans)) == multiset(requests)
    ensures forall p :: p in plans ==> WithinBudget(c, p)
    ensures direct <= |plans|
    ensures plans[..direct] == DirectPlans(Grouped(requests, FirstSeen(requests)), c.maxSlotsPerCall)
    ensures Flatten(plans[direct..]) == Remainders(Grouped(requests, FirstSeen(requests)), c.maxSlotsPerCall)
    ensures NextFit(c, plans[direct..])
  {
    var order, groups := GroupByAddress(requests);
    ghost var ts := Grouped(requests, order);
    var first, packable := SplitIntoChunks(order, groups, ts, c);
    GroupedDistinct(requests);
    ChunkingShapes(ts, c.maxSlotsPerCall);
    RemaindersDistinct(ts, c.maxSlotsPerCall);
    var packed := PackRemainders(packable, c);
    plans, direct := first + packed, |first|;
    assert plans[..direct] == first && plans[direct..] == packed;
    forall p | p in plans ensures WithinBudget(c, p) {
      if p in first {
        DirectWithinBudget(c, p);
      }
    }
    FlattenConcat(first, packed);
    KeyBagConcat(Flatten(first), packable);
    ChunkingConserves(ts, c.maxSlotsPerCall);
    GroupingConserves(requests);
  }
}
