/**
 How many calls and requests the planner can produce, and the grouping of
 plans into `eth_callMany` requests (`src/bulk_storage.rs`).
 */
module PlanCosts {
  import opened Words
  import opened BulkPlan
  import opened Planner

  // ----- Next-fit cost of the packed calls -----

  lemma {:induction false} FirstWithinTotal(ts: seq<Target>)
    requires ts != []
    ensures |ts[0].slots| <= SlotTotal(ts)
  {
    if |ts| == 1 {
    } else {
      FirstWithinTotal(ts[..|ts| - 1]);
    }
  }

  lemma NextFitPrefix(c: BulkCallConfig, plans: seq<CallPlan>)
    requires NextFit(c, plans) && plans != []
    ensures NextFit(c, plans[..|plans| - 1])
    ensures |plans| > 1 ==> ClosedByNext(c, plans, |plans| - 2)
  {
    var front := plans[..|plans| - 1];
    forall i | 0 <= i < |front| - 1 ensures ClosedByNext(c, front, i) {
      assert ClosedByNext(c, plans, i);
    }
  }

  /** `k` copies of `d`, added up. */
  function Times(k: nat, d: nat): nat {
    if k == 0 then 0 else Times(k - 1, d) + d
  }

  lemma {:induction false} TimesIsProduct(k: nat, d: nat)
    ensures Times(k, d) == k * d
  {
    if k == 0 {
    } else {
      TimesIsProduct(k - 1, d);
    }
  }

  lemma {:induction false} TimesAdd(a: nat, b: nat, d: nat)
    ensures Times(a + b, d) == Times(a, d) + Times(b, d)
  {
    if b == 0 {
    } else {
      TimesAdd(a, b - 1, d);
    }
  }

  /** How plan `last` came to be opened after `front`, in numbers. */
  lemma ChargeStep(c: BulkCallConfig, before: CallPlan, last: CallPlan, s: nat, t: nat, slots: nat, count: nat)
    returns (bySlots: nat, byTargets: nat)
    requires Targets(last) != [] && Overflows(c, Targets(before), Targets(last)[0])
    requires Times(s, c.maxSlotsPerCall + 1) + SlotCount(before) <= 2 * slots
    requires Times(t, c.maxTargetsPerCall) + |Targets(before)| <= count
    ensures bySlots + byTargets == s + t + 1
    ensures Times(bySlots, c.maxSlotsPerCall + 1) + SlotCount(last) <= 2 * (slots + SlotCount(last))
    ensures Times(byTargets, c.maxTargetsPerCall) + |Targets(last)| <= count + |Targets(last)|
  {
    FirstWithinTotal(Targets(last));
    if |Targets(before)| >= c.maxTargetsPerCall {
      bySlots, byTargets := s, t + 1;
    } else {
      bySlots, byTargets := s + 1, t;
    }
  }

  /** Each plan but the last was closed by the slot budget or by the target
      budget; the counts carry the last plan's own size, so that the induction
      charges each plan at most twice. */
  lemma {:induction false} NextFitCharges(c: BulkCallConfig, plans: seq<CallPlan>)
    returns (bySlots: nat, byTargets: nat)
    requires NextFit(c, plans) && plans != []
    requires forall p :: p in plans ==> Targets(p) != []
    ensures |plans| - 1 == bySlots + byTargets
    ensures Times(bySlots, c.maxSlotsPerCall + 1) + SlotCount(plans[|plans| - 1]) <= 2 * SlotTotal(Flatten(plans))
    ensures Times(byTargets, c.maxTargetsPerCall) + |Targets(plans[|plans| - 1])| <= |Flatten(plans)|
  {
    var n := |plans| - 1;
    var front, last := plans[..n], plans[n];
    LastPlan(plans);
    if n == 0 {
      bySlots, byTargets := 0, 0;
    } else {
      NextFitPrefix(c, plans);
      var s, t := NextFitCharges(c, front);
      bySlots, byTargets := ChargeStep(c, plans[n - 1], last, s, t, SlotTotal(Flatten(front)), |Flatten(front)|);
    }
  }

  lemma LastPlan(plans: seq<CallPlan>)
    requires plans != []
    ensures var front, last := plans[..|plans| - 1], plans[|plans| - 1];
            && SlotTotal(Flatten(plans)) == SlotTotal(Flatten(front)) + SlotCount(last)
            && |Flatten(plans)| == |Flatten(front)| + |Targets(last)|
  {
    KeyBagConcat(Flatten(plans[..|plans| - 1]), Targets(plans[|plans| - 1]));
  }

  /** k packed calls over t slots in r remainders: k - 1 is a sum of two counts,
      the first at most 2t/(M+1) and the second at most r/T. */
  lemma NextFitBound(c: BulkCallConfig, plans: seq<CallPlan>) returns (bySlots: nat, byTargets: nat)
    requires NextFit(c, plans) && plans != []
    requires forall p :: p in plans ==> Targets(p) != []
    ensures |plans| - 1 == bySlots + byTargets
    ensures bySlots * (c.maxSlotsPerCall + 1) <= 2 * SlotTotal(Flatten(plans))
    ensures byTargets * c.maxTargetsPerCall <= |Flatten(plans)|
  {
    bySlots, byTargets := NextFitCharges(c, plans);
    TimesIsProduct(bySlots, c.maxSlotsPerCall + 1);
    TimesIsProduct(byTargets, c.maxTargetsPerCall);
  }

  // ----- Dedicated calls -----

  /** Room for the one dedicated call that may be partial: the dispatcher's last. */
  function Slack(a: Address, m: nat): nat {
    if a == MULTICALL3 then m else 0
  }

  lemma FlattenSlots(plans: seq<CallPlan>, plan: CallPlan)
    ensures SlotTotal(Flatten(plans + [plan])) == SlotTotal(Flatten(plans)) + SlotCount(plan)
  {
    FlattenAppend(plans, plan);
    KeyBagConcat(Flatten(plans), Targets(plan));
  }

  lemma {:induction false} FullChunksExact(a: Address, cs: seq<seq<Word>>, m: nat)
    requires forall i :: 0 <= i < |cs| ==> |cs[i]| == m
    ensures Times(|DirectOf(a, cs, m)|, m) == SlotTotal(Flatten(DirectOf(a, cs, m)))
  {
    if cs == [] {
    } else {
      var front, chunk := cs[..|cs| - 1], cs[|cs| - 1];
      FullChunksExact(a, front, m);
      FlattenSlots(DirectOf(a, front, m), Single(a, chunk));
    }
  }

  lemma DirectOfCount(a: Address, slots: seq<Word>, m: nat)
    requires m >= 1
    ensures Times(|DirectOf(a, Chunks(slots, m), m)|, m)
         <= SlotTotal(Flatten(DirectOf(a, Chunks(slots, m), m))) + Slack(a, m)
  {
    var cs := Chunks(slots, m);
    if cs != [] {
      var front, chunk := cs[..|cs| - 1], cs[|cs| - 1];
      FullChunksExact(a, front, m);
      if Dedicated(a, chunk, m) {
        FlattenSlots(DirectOf(a, front, m), Single(a, chunk));
      } else {
        assert DirectOf(a, cs, m) == DirectOf(a, front, m);
      }
    }
  }

  /** `kd` calls over `td` slots and `ke` over `te`, each with its slack. */
  lemma JoinCounts(kd: nat, ke: nat, m: nat, td: nat, te: nat, sd: nat, se: nat)
    requires Times(kd, m) <= td + sd && Times(ke, m) <= te + se
    ensures Times(kd + ke, m) <= td + te + sd + se
  {
    TimesAdd(kd, ke, m);
  }

  lemma TotalOfConcat(d: seq<CallPlan>, e: seq<CallPlan>)
    ensures SlotTotal(Flatten(d + e)) == SlotTotal(Flatten(d)) + SlotTotal(Flatten(e))
  {
    FlattenConcat(d, e);
    KeyBagConcat(Flatten(d), Flatten(e));
  }

  /** The slack of a whole list: only the dispatcher's group contributes. */
  function ListSlack(ts: seq<Target>, m: nat): nat {
    if ts == [] then 0 else ListSlack(ts[..|ts| - 1], m) + Slack(ts[|ts| - 1].address, m)
  }

  lemma {:induction false} SlackOnce(ts: seq<Target>, m: nat)
    requires DistinctTargets(ts)
    ensures ListSlack(ts, m) == if MULTICALL3 in Addresses(ts) then m else 0
  {
    if ts == [] {
    } else {
      SlackOnce(ts[..|ts| - 1], m);
      SplitAddresses(ts);
    }
  }

  lemma {:induction false} DirectCount(ts: seq<Target>, m: nat)
    requires m >= 1
    ensures Times(|DirectPlans(ts, m)|, m) <= SlotTotal(Flatten(DirectPlans(ts, m))) + ListSlack(ts, m)
  {
    if ts == [] {
    } else {
      var front, t := ts[..|ts| - 1], ts[|ts| - 1];
      DirectCount(front, m);
      DirectOfCount(t.address, t.slots, m);
      var d, e := DirectPlans(front, m), DirectOf(t.address, Chunks(t.slots, m), m);
      TotalOfConcat(d, e);
      JoinCounts(|d|, |e|, m, SlotTotal(Flatten(d)), SlotTotal(Flatten(e)), ListSlack(front, m), Slack(t.address, m));
    }
  }

  lemma SplitAddresses(ts: seq<Target>)
    requires ts != [] && DistinctTargets(ts)
    ensures Addresses(ts) == Addresses(ts[..|ts| - 1]) + {ts[|ts| - 1].address}
    ensures ts[|ts| - 1].address !in Addresses(ts[..|ts| - 1])
  {
    SplitLast([], ts);
  }

  // ----- The whole plan -----

  lemma {:induction false} BagSize(ts: seq<Target>)
    ensures |KeyBag(ts)| == SlotTotal(ts)
  {
    if ts == [] {
    } else {
      BagSize(ts[..|ts| - 1]);
    }
  }

  /** What `PlanCalls` promises about its two parts. */
  ghost predicate Planned(c: BulkCallConfig, requests: seq<SlotKey>, first: seq<CallPlan>, packed: seq<CallPlan>) {
    var ts := Grouped(requests, FirstSeen(requests));
    && Usable(c)
    && first == DirectPlans(ts, c.maxSlotsPerCall)
    && Flatten(packed) == Remainders(ts, c.maxSlotsPerCall)
    && NextFit(c, packed)
    && (forall p :: p in packed ==> Targets(p) != [])
    && SlotTotal(Flatten(first)) + SlotTotal(Flatten(packed)) == |requests|
  }

  /** `planned_call_count` is bounded by the request size alone: n requests over
      g distinct addresses take at most n/M + 2n/(M+1) + g/T + 2 calls, the three
      quotients given here as the counts that witness them. */
  lemma PlannedCallBound(c: BulkCallConfig, requests: seq<SlotKey>, first: seq<CallPlan>, packed: seq<CallPlan>)
    returns (full: nat, bySlots: nat, byTargets: nat)
    requires Planned(c, requests, first, packed)
    ensures |first + packed| <= full + bySlots + byTargets + 2
    ensures full * c.maxSlotsPerCall <= |requests|
    ensures bySlots * (c.maxSlotsPerCall + 1) <= 2 * |requests|
    ensures byTargets * c.maxTargetsPerCall <= |FirstSeen(requests)|
  {
    full := DirectBound(c, requests, first, packed);
    bySlots, byTargets := PackedBound(c, requests, first, packed);
    TimesIsProduct(full, c.maxSlotsPerCall);
    TimesIsProduct(bySlots, c.maxSlotsPerCall + 1);
    TimesIsProduct(byTargets, c.maxTargetsPerCall);
  }

  lemma DirectBound(c: BulkCallConfig, requests: seq<SlotKey>, first: seq<CallPlan>, packed: seq<CallPlan>)
    returns (full: nat)
    requires Planned(c, requests, first, packed)
    ensures |first| <= full + 1 && Times(full, c.maxSlotsPerCall) <= |requests|
  {
    GroupedDistinct(requests);
    DirectCount(Grouped(requests, FirstSeen(requests)), c.maxSlotsPerCall);
    SlackOnce(Grouped(requests, FirstSeen(requests)), c.maxSlotsPerCall);
    full := if first == [] then 0 else |first| - 1;
  }

  lemma PackedBound(c: BulkCallConfig, requests: seq<SlotKey>, first: seq<CallPlan>, packed: seq<CallPlan>)
    returns (bySlots: nat, byTargets: nat)
    requires Planned(c, requests, first, packed)
    ensures |packed| <= bySlots + byTargets + 1
    ensures Times(bySlots, c.maxSlotsPerCall + 1) <= 2 * |requests|
    ensures Times(byTargets, c.maxTargetsPerCall) <= |FirstSeen(requests)|
  {
    if packed == [] {
      bySlots, byTargets := 0, 0;
    } else {
      bySlots, byTargets := NextFitCharges(c, packed);
      GroupedDistinct(requests);
      RemaindersDistinct(Grouped(requests, FirstSeen(requests)), c.maxSlotsPerCall);
    }
  }

  lemma Quotient(k: nat, d: nat, n: nat)
    requires d > 0 && k * d <= n
    ensures k <= n / d
  {
    var q, r := n / d, n % d;
    assert n == d * q + r;
    if k > q {
      ScaledGap(d, q, k);
    }
  }

  lemma PlansAreAll(requests: seq<SlotKey>, first: seq<CallPlan>, packed: seq<CallPlan>)
    requires KeyBag(Flatten(first + packed)) == multiset(requests)
    ensures SlotTotal(Flatten(first)) + SlotTotal(Flatten(packed)) == |requests|
  {
    TotalOfConcat(first, packed);
    BagSize(Flatten(first + packed));
    assert |multiset(requests)| == |requests|;
  }

  /** n/M + 2n/(M+1) + g/T + 2, for n requests over g distinct addresses. */
  function CallBound(c: BulkCallConfig, requests: seq<SlotKey>): int
    requires Usable(c)
  {
    Bound(|requests|, |FirstSeen(requests)|, c.maxSlotsPerCall, c.maxTargetsPerCall)
  }

  function Bound(n: nat, g: nat, m: nat, t: nat): int
    requires m > 0 && t > 0
  {
    n / m + 2 * n / (m + 1) + g / t + 2
  }

  lemma CountBound(c: BulkCallConfig, requests: seq<SlotKey>, first: seq<CallPlan>, packed: seq<CallPlan>)
    requires Planned(c, requests, first, packed)
    ensures |first + packed| <= CallBound(c, requests)
  {
    var n, g, m, t := |requests|, |FirstSeen(requests)|, c.maxSlotsPerCall, c.maxTargetsPerCall;
    var full, bySlots, byTargets := PlannedCallBound(c, requests, first, packed);
    Quotients(n, g, m, t, full, bySlots, byTargets);
    assert |first + packed| <= full + bySlots + byTargets + 2 <= Bound(n, g, m, t);
  }

  lemma Quotients(n: nat, g: nat, m: nat, t: nat, full: nat, bySlots: nat, byTargets: nat)
    requires m > 0 && t > 0 && full * m <= n && bySlots * (m + 1) <= 2 * n && byTargets * t <= g
    ensures full + bySlots + byTargets + 2 <= Bound(n, g, m, t)
  {
    Quotient(full, m, n);
    Quotient(bySlots, m + 1, 2 * n);
    Quotient(byTargets, t, g);
  }

  lemma PlansBounded(c: BulkCallConfig, requests: seq<SlotKey>, plans: seq<CallPlan>, first: seq<CallPlan>,
                     packed: seq<CallPlan>)
    requires Usable(c) && plans == first + packed
    requires KeyBag(Flatten(plans)) == multiset(requests) && forall p :: p in plans ==> WithinBudget(c, p)
    requires first == DirectPlans(Grouped(requests, FirstSeen(requests)), c.maxSlotsPerCall)
    requires Flatten(packed) == Remainders(Grouped(requests, FirstSeen(requests)), c.maxSlotsPerCall)
    requires NextFit(c, packed)
    ensures |plans| <= CallBound(c, requests)
  {
    PlansAreAll(requests, first, packed);
    forall p | p in packed ensures Targets(p) != [] {
      assert p in plans && WithinBudget(c, p);
    }
    CountBound(c, requests, first, packed);
  }

  lemma {:induction false} PlansHold(c: BulkCallConfig, plans: seq<CallPlan>)
    requires forall p :: p in plans ==> WithinBudget(c, p)
    ensures SlotTotal(Flatten(plans)) <= Times(|plans|, c.maxSlotsPerCall)
  {
    if plans == [] {
    } else {
      var n := |plans| - 1;
      PlansHold(c, plans[..n]);
      SplitLast([], plans);
      FlattenSlots(plans[..n], plans[n]);
      assert WithinBudget(c, plans[n]);
    }
  }

  /** Enough calls to hold every request. */
  lemma PlansSuffice(c: BulkCallConfig, requests: seq<SlotKey>, plans: seq<CallPlan>)
    requires KeyBag(Flatten(plans)) == multiset(requests) && forall p :: p in plans ==> WithinBudget(c, p)
    ensures |requests| <= |plans| * c.maxSlotsPerCall
  {
    PlansHold(c, plans);
    TimesIsProduct(|plans|, c.maxSlotsPerCall);
    BagSize(Flatten(plans));
    assert |multiset(requests)| == |requests|;
  }

  /** `planned_call_count`: bounded on both sides by the size of the request. */
  method PlannedCallCount(requests: seq<SlotKey>, config: BulkCallConfig) returns (calls: nat)
    ensures CountFits(Normalized(config), requests, calls)
  {
    var c := Normalized(config);
    NormalizedIsSafe(config);
    ghost var direct;
    var plans;
    plans, direct := PlanCalls(requests, c);
    PlansFit(c, requests, plans, direct);
    calls := |plans|;
  }

  /** Enough calls for the requests, and not many more. */
  ghost predicate CountFits(c: BulkCallConfig, requests: seq<SlotKey>, calls: nat) {
    Usable(c) && |requests| <= calls * c.maxSlotsPerCall && calls <= CallBound(c, requests)
  }

  lemma PlansFit(c: BulkCallConfig, requests: seq<SlotKey>, plans: seq<CallPlan>, direct: nat)
    requires Usable(c) && direct <= |plans|
    requires KeyBag(Flatten(plans)) == multiset(requests) && forall p :: p in plans ==> WithinBudget(c, p)
    requires plans[..direct] == DirectPlans(Grouped(requests, FirstSeen(requests)), c.maxSlotsPerCall)
    requires Flatten(plans[direct..]) == Remainders(Grouped(requests, FirstSeen(requests)), c.maxSlotsPerCall)
    requires NextFit(c, plans[direct..])
    ensures CountFits(c, requests, |plans|)
  {
    assert plans == plans[..direct] + plans[direct..];
    PlansBounded(c, requests, plans, plans[..direct], plans[direct..]);
    PlansSuffice(c, requests, plans);
  }

  // ----- eth_callMany grouping -----

  function PlanSlots(plans: seq<CallPlan>): nat {
    SlotTotal(Flatten(plans))
  }

  /** The group at `i` was closed because the next plan would overflow it. */
  predicate GroupClosed(groups: seq<seq<CallPlan>>, budget: nat, i: nat)
    requires i + 1 < |groups|
  {
    groups[i + 1] != [] && PlanSlots(groups[i]) + SlotCount(groups[i + 1][0]) > budget
  }

  predicate GroupFits(group: seq<CallPlan>, budget: nat) {
    group != [] && (PlanSlots(group) <= budget || |group| == 1)
  }

  ghost predicate GreedyGroups(groups: seq<seq<CallPlan>>, budget: nat) {
    && (forall i :: 0 <= i < |groups| ==> GroupFits(groups[i], budget))
    && forall i :: 0 <= i < |groups| - 1 ==> GroupClosed(groups, budget, i)
  }

  lemma CloseGroup(groups: seq<seq<CallPlan>>, current: seq<CallPlan>, budget: nat)
    requires GreedyGroups(groups, budget) && GroupFits(current, budget)
    requires groups != [] ==> PlanSlots(groups[|groups| - 1]) + SlotCount(current[0]) > budget
    ensures GreedyGroups(groups + [current], budget)
  {
    var all := groups + [current];
    forall i | 0 <= i < |all| ensures GroupFits(all[i], budget) {
      if i < |groups| {
        assert all[i] == groups[i];
      }
    }
    forall i | 0 <= i < |all| - 1 ensures GroupClosed(all, budget, i) {
      assert all[i] == groups[i];
      if i < |groups| - 1 {
        assert GroupClosed(groups, budget, i) && all[i + 1] == groups[i + 1];
      } else {
        assert all[i + 1] == current;
      }
    }
  }

  lemma ConcatAppend(groups: seq<seq<CallPlan>>, current: seq<CallPlan>)
    ensures Concat(groups + [current]) == Concat(groups) + current
  {
    assert (groups + [current])[..|groups|] == groups;
  }

  /** The grouping loop's invariant: closed groups, and an open one that fits. */
  ghost predicate Grouping(done: seq<CallPlan>, groups: seq<seq<CallPlan>>, current: seq<CallPlan>, budget: nat) {
    && Concat(groups) + current == done
    && GreedyGroups(groups, budget)
    && (done != [] ==> GroupFits(current, budget))
    && (groups != [] ==> current != [] && PlanSlots(groups[|groups| - 1]) + SlotCount(current[0]) > budget)
  }

  lemma JoinGroup(done: seq<CallPlan>, groups: seq<seq<CallPlan>>, current: seq<CallPlan>, plan: CallPlan, budget: nat)
    requires Grouping(done, groups, current, budget)
    requires current == [] || PlanSlots(current) + SlotCount(plan) <= budget
    ensures Grouping(done + [plan], groups, current + [plan], budget)
  {
    Associate(Concat(groups), current, [plan]);
    FlattenSlots(current, plan);
    if current != [] {
      assert (current + [plan])[0] == current[0];
    }
  }

  lemma OpenGroup(done: seq<CallPlan>, groups: seq<seq<CallPlan>>, current: seq<CallPlan>, plan: CallPlan, budget: nat)
    requires Grouping(done, groups, current, budget)
    requires current != [] && PlanSlots(current) + SlotCount(plan) > budget
    ensures Grouping(done + [plan], groups + [current], [plan], budget)
  {
    CloseGroup(groups, current, budget);
    ConcatAppend(groups, current);
    assert done != [];
  }

  /** The body of the grouping loop. */
  method AddPlan(groups: seq<seq<CallPlan>>, current: seq<CallPlan>, currentSlots: nat, plan: CallPlan, budget: nat,
                 ghost done: seq<CallPlan>)
    returns (groups': seq<seq<CallPlan>>, current': seq<CallPlan>, currentSlots': nat)
    requires Grouping(done, groups, current, budget) && currentSlots == PlanSlots(current)
    ensures Grouping(done + [plan], groups', current', budget) && currentSlots' == PlanSlots(current')
  {
    var slots := SlotCount(plan);
    if current != [] && currentSlots + slots > budget {
      OpenGroup(done, groups, current, plan, budget);
      FlattenSlots([], plan);
      assert [] + [plan] == [plan];
      groups', current', currentSlots' := groups + [current], [plan], slots;
    } else {
      JoinGroup(done, groups, current, plan, budget);
      FlattenSlots(current, plan);
      groups', current', currentSlots' := groups, current + [plan], currentSlots + slots;
    }
  }

  /** `group_plans_for_call_many`: in order, within budget or a singleton, and
      closed only when the next plan would not fit. */
  method GroupPlansForCallMany(plans: seq<CallPlan>, maxSlotsPerRequest: nat) returns (requests: seq<seq<CallPlan>>)
    ensures Concat(requests) == plans
    ensures GreedyGroups(requests, maxSlotsPerRequest)
  {
    requests := [];
    var current: seq<CallPlan> := [];
    var currentSlots := 0;
    for i := 0 to |plans|
      invariant Grouping(plans[..i], requests, current, maxSlotsPerRequest)
      invariant currentSlots == PlanSlots(current)
    {
      Prefix(plans, i);
      requests, current, currentSlots :=
        AddPlan(requests, current, currentSlots, plans[i], maxSlotsPerRequest, plans[..i]);
    }
    assert plans[..|plans|] == plans;
    if current != [] {
      CloseGroup(requests, current, maxSlotsPerRequest);
      ConcatAppend(requests, current);
      requests := requests + [current];
    }
  }

  lemma Prefix(plans: seq<CallPlan>, i: nat)
    requires i < |plans|
    ensures plans[..i + 1] == plans[..i] + [plans[i]]
  {
  }

  /** Under a normalized configuration every call and every bundled request
      stays inside the request-body budget. */
  lemma EveryBodyFits(config: BulkCallConfig, groups: seq<seq<CallPlan>>, i: nat)
    requires i < |groups|
    requires GreedyGroups(groups, Normalized(config).maxSlotsPerRequest)
    requires forall p :: p in groups[i] ==> WithinBudget(Normalized(config), p)
    ensures FitsBody(Normalized(config), PlanSlots(groups[i]))
  {
    var c := Normalized(config);
    NormalizedIsSafe(config);
    assert GroupFits(groups[i], c.maxSlotsPerRequest);
    if |groups[i]| == 1 {
      var plan := groups[i][0];
      assert plan in groups[i];
      assert groups[i] == [plan];
      FlattenSlots([], plan);
      assert [] + [plan] == [plan];
    }
  }
}
