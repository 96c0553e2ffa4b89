/**
 `FreshnessController::run` of `src/freshness.rs`, and what its verdicts mean
 across policies and across runs.
 */
module FreshnessController {
  import opened Words
  import opened Simulation
  import opened Freshness
  import opened Validator

  // ----- What an accepted verdict means -----

  /** The results a caller ends up with. */
  function FinalResults(input: ValidatorInput, v: Validation): seq<SimResult> {
    if v.Corrected? then v.results else input.optimistic
  }

  /** The state the validator is after: every live slot at its true value. */
  function TrueValue(input: ValidatorInput, truth: SlotKey -> Word, k: SlotKey): Word {
    if Live(input, k) then truth(k) else ValueIn(input.snapshot.storage, k)
  }

  function TrueStore(input: ValidatorInput, truth: SlotKey -> Word): SlotKey -> Word {
    (k: SlotKey) => TrueValue(input, truth, k)
  }

  /** Soundness, absolutely: an accepted verdict backed by a truthful fetcher
      returns, for every request, its simulation on the true state, with the true
      block hashes whatever they are. */
  lemma AcceptedMeansTrue(input: ValidatorInput, fetched: map<SlotKey, Word>, v: Validation, truth: SlotKey -> Word,
                          hashes: map<nat, Word>, i: nat)
    requires Accepted(input, fetched, v) && Truthful(fetched, truth) && i < |input.requests|
    requires Extends(input.snapshot.hashes, hashes)
    ensures |FinalResults(input, v)| == |input.requests|
    ensures var e := Run(input.requests[i], TrueStore(input, truth), hashes);
            e.Done? && !e.hashMiss && FinalResults(input, v)[i] == ToSim(e)
  {
    var results, req := FinalResults(input, v), input.requests[i];
    assert TrustworthyAt(input, fetched, results, i);
    var e := Simulate(req, input.snapshot, fetched);
    forall k | k in e.slots ensures Overlay(input.snapshot, fetched)(k) == TrueStore(input, truth)(k) {
      if Live(input, k) {
        assert k in LiveReads(input, e);
      }
    }
    RunLocality(req, Overlay(input.snapshot, fetched), TrueStore(input, truth), input.snapshot.hashes);
    RunHashLocality(req, TrueStore(input, truth), input.snapshot.hashes, hashes);
  }

  /** Policy independence: two validations of the same sims that differ only in
      what the policy chose to verify give the same final results. */
  lemma PolicyIndependence(a: ValidatorInput, b: ValidatorInput, va: Validation, vb: Validation,
                           fa: map<SlotKey, Word>, fb: map<SlotKey, Word>, truth: SlotKey -> Word)
    requires a.snapshot == b.snapshot && a.requests == b.requests && a.registry == b.registry && a.now == b.now
    requires Accepted(a, fa, va) && Accepted(b, fb, vb) && Truthful(fa, truth) && Truthful(fb, truth)
    ensures FinalResults(a, va) == FinalResults(b, vb)
  {
    var ra, rb := FinalResults(a, va), FinalResults(b, vb);
    assert Trustworthy(a, fa, ra) && Trustworthy(b, fb, rb);
    forall i | 0 <= i < |ra| ensures ra[i] == rb[i] {
      AcceptedMeansTrue(a, fa, va, truth, a.snapshot.hashes, i);
      AcceptedMeansTrue(b, fb, vb, truth, b.snapshot.hashes, i);
      SameTruth(a, b, truth, i);
    }
  }

  lemma SameTruth(a: ValidatorInput, b: ValidatorInput, truth: SlotKey -> Word, i: nat)
    requires a.snapshot == b.snapshot && a.requests == b.requests && a.registry == b.registry && a.now == b.now
    requires i < |a.requests| && Run(a.requests[i], TrueStore(a, truth), a.snapshot.hashes).Done?
    ensures Run(a.requests[i], TrueStore(a, truth), a.snapshot.hashes)
         == Run(b.requests[i], TrueStore(b, truth), b.snapshot.hashes)
  {
    RunLocality(a.requests[i], TrueStore(a, truth), TrueStore(b, truth), a.snapshot.hashes);
  }

  // ----- Building the input -----

  /** `run`'s optimistic pass: every request simulated on the snapshot. */
  ghost predicate Built(input: ValidatorInput) {
    && |input.requests| == |input.readSets| == |input.optimistic|
    && (forall i :: 0 <= i < |input.requests| ==> BuiltAt(input, i))
    && forall i :: i in input.blockhashReaders ==> i < |input.requests|
  }

  ghost predicate BuiltAt(input: ValidatorInput, i: nat)
    requires i < |input.requests| == |input.readSets| == |input.optimistic|
  {
    var e := Simulate(input.requests[i], input.snapshot, map[]);
    && e.Done?
    && input.optimistic[i] == ToSim(e)
    && input.readSets[i] == LiveReads(input, e)
    && (i in input.blockhashReaders <==> e.hashMiss)
  }

  lemma BuiltIsConsistent(input: ValidatorInput)
    requires Built(input)
    ensures Consistent(input)
  {
    forall i | 0 <= i < |input.requests| && i !in input.blockhashReaders
      ensures RanUnder(input, i, map[], input.optimistic[i], input.readSets[i])
    {
      assert BuiltAt(input, i);
    }
  }

  /** The predicted live slots of all requests. */
  function Candidates(requests: seq<SimRequest>, registry: Registry, now: nat): set<SlotKey> {
    VolatileOnly(registry, set r, k | r in Predictions(requests) && k in r :: k, now)
  }

  function Predictions(requests: seq<SimRequest>): (ps: seq<seq<SlotKey>>)
    ensures |ps| == |requests|
  {
    seq(|requests|, i requires 0 <= i < |requests| =>
      match requests[i].accessList case Some(keys) => keys case None => [])
  }

  /** Exactly the live slots some request predicts. */
  lemma CandidatesAre(requests: seq<SimRequest>, registry: Registry, now: nat, k: SlotKey)
    ensures k in Candidates(requests, registry, now) <==>
            IsVolatile(registry, k, now) && exists i :: 0 <= i < |requests| && Predicts(requests[i], k)
  {
    var ps := Predictions(requests);
    if exists i :: 0 <= i < |requests| && Predicts(requests[i], k) {
      var i :| 0 <= i < |requests| && Predicts(requests[i], k);
      assert k in ps[i] && ps[i] in ps;
    }
    if p :| p in ps && k in p {
      var i :| 0 <= i < |ps| && ps[i] == p;
      assert Predicts(requests[i], k);
    }
  }

  predicate Predicts(req: SimRequest, k: SlotKey) {
    req.accessList.Some? && k in req.accessList.value
  }

  datatype Policy =
    | AlwaysVerify
    | NeverVerify
    | Other(choose: (seq<SlotKey>, Tracker, nat) -> seq<SlotKey>)

  /** `FreshnessPolicy::select`. */
  function Select(policy: Policy, candidates: seq<SlotKey>, tracker: Tracker, now: nat): seq<SlotKey> {
    match policy
    case AlwaysVerify => candidates
    case NeverVerify => []
    case Other(choose) => choose(candidates, tracker, now)
  }

  /** The policy's choice among the candidates, offered in some order. */
  ghost predicate ChosenFrom(policy: Policy, candidates: set<SlotKey>, tracker: Tracker, now: nat, chosen: seq<SlotKey>)
    requires policy.Other?
  {
    exists q :: Enumerates(q, candidates) && chosen == policy.choose(q, tracker, now)
  }

  /** Draining the queue: each correction is written, in order. */
  function Apply(storage: map<SlotKey, Word>, changes: seq<SlotChange>): map<SlotKey, Word> {
    if changes == [] then storage
    else Apply(storage, changes[..|changes| - 1])[changes[|changes| - 1].key := changes[|changes| - 1].after]
  }

  /** Request `i` cannot execute on the snapshot. */
  predicate CannotRun(requests: seq<SimRequest>, snapshot: Snapshot, i: nat) {
    i < |requests| && Simulate(requests[i], snapshot, map[]).HostError?
  }

  class Cache {
    var storage: map<SlotKey, Word>
    var hashes: map<nat, Word>
    const fetcher: Option<BatchFetcher>

    constructor (storage: map<SlotKey, Word>, hashes: map<nat, Word>, fetcher: Option<BatchFetcher>)
      ensures this.storage == storage && this.hashes == hashes && this.fetcher == fetcher
    {
      this.storage, this.hashes, this.fetcher := storage, hashes, fetcher;
    }
  }

  class Controller {
    var registry: Registry
    var clock: nat
    const policy: Policy
    const shared: Shared

    constructor (registry: Registry, policy: Policy, tracker: Tracker)
      ensures this.registry == registry && this.policy == policy && clock == 0
      ensures fresh(shared) && shared.tracker == tracker && shared.pending == [] && shared.rerunCount == 0
    {
      this.registry, this.policy, clock := registry, policy, 0;
      shared := new Shared(tracker);
    }

    /** `run`: drain the corrections, snapshot, simulate optimistically, and ask
        the policy.  `Err` is a simulation that could not execute. */
    method Run(cache: Cache, requests: seq<SimRequest>) returns (r: Result<ValidatorInput, nat>)
      modifies shared`pending, cache`storage
      ensures cache.storage == Apply(old(cache.storage), old(shared.pending))
      ensures shared.pending == []
      ensures r.Ok? ==> Built(r.value)
      ensures r.Ok? ==> r.value.snapshot == Snapshot(cache.storage, cache.hashes) && r.value.requests == requests
      ensures r.Ok? ==> r.value.registry == registry && r.value.now == clock && r.value.fetcher == cache.fetcher
      ensures r.Ok? && policy.AlwaysVerify? ==> SetOf(r.value.verifySet) == Candidates(requests, registry, clock)
      ensures r.Ok? && policy.NeverVerify? ==> r.value.verifySet == []
      ensures r.Ok? && policy.Other? ==>
                ChosenFrom(policy, Candidates(requests, registry, clock), shared.tracker, clock, r.value.verifySet)
      ensures r.Err? ==> CannotRun(requests, Snapshot(cache.storage, cache.hashes), r.error)
    {
      DrainPending(cache);
      var snapshot := Snapshot(cache.storage, cache.hashes);
      var input := ValidatorInput(snapshot, cache.fetcher, requests, [], registry, clock, [], [], []);
      for i := 0 to |requests|
        invariant input == ValidatorInput(snapshot, cache.fetcher, requests, input.readSets, registry, clock, [],
                                          input.optimistic, input.blockhashReaders)
        invariant |input.readSets| == |input.optimistic| == i
        invariant forall j :: 0 <= j < i ==> SimulatedAt(input, j)
        invariant forall j :: j in input.blockhashReaders ==> j < i
      {
        var e := Simulate(requests[i], snapshot, map[]);
        if e.HostError? {
          return Err(i);
        }
        input := Recorded(input, e, i);
      }
      var candidates := Enumerate(Candidates(requests, registry, clock));
      var chosen := Select(policy, candidates, shared.tracker, clock);
      BuiltFromRuns(input, chosen);
      r := Ok(input.(verifySet := chosen));
    }

    method DrainPending(cache: Cache)
      modifies shared`pending, cache`storage
      ensures cache.storage == Apply(old(cache.storage), old(shared.pending))
      ensures shared.pending == []
    {
      var changes := shared.pending;
      for i := 0 to |changes|
        invariant cache.storage == Apply(old(cache.storage), changes[..i])
        invariant shared.pending == changes == old(shared.pending)
      {
        assert changes[..i + 1][..i] == changes[..i];
        cache.storage := cache.storage[changes[i].key := changes[i].after];
      }
      assert changes[..|changes|] == changes;
      shared.pending := [];
    }
  }

  /** The entry of request `j`, while the lists are still growing. */
  ghost predicate SimulatedAt(input: ValidatorInput, j: nat) {
    && j < |input.requests| && j < |input.readSets| && j < |input.optimistic|
    && var e := Simulate(input.requests[j], input.snapshot, map[]);
       && e.Done?
       && input.optimistic[j] == ToSim(e)
       && input.readSets[j] == LiveReads(input, e)
       && (j in input.blockhashReaders <==> e.hashMiss)
  }

  /** Recording one optimistic run. */
  function Recorded(input: ValidatorInput, e: Execution, i: nat): (after: ValidatorInput)
    requires e.Done? && i < |input.requests| && |input.readSets| == |input.optimistic| == i
    requires e == Simulate(input.requests[i], input.snapshot, map[])
    requires forall j :: j in input.blockhashReaders ==> j < i
    ensures SimulatedAt(after, i)
    ensures forall j :: 0 <= j < i && SimulatedAt(input, j) ==> SimulatedAt(after, j)
    ensures forall j :: j in after.blockhashReaders ==> j <= i
  {
    input.(readSets := input.readSets + [LiveReads(input, e)],
           optimistic := input.optimistic + [ToSim(e)],
           blockhashReaders := if e.hashMiss then input.blockhashReaders + [i] else input.blockhashReaders)
  }

  lemma BuiltFromRuns(input: ValidatorInput, chosen: seq<SlotKey>)
    requires |input.requests| == |input.readSets| == |input.optimistic|
    requires forall i :: 0 <= i < |input.requests| ==> SimulatedAt(input, i)
    requires forall i :: i in input.blockhashReaders ==> i < |input.requests|
    ensures Built(input.(verifySet := chosen))
  {
    forall i | 0 <= i < |input.requests| ensures BuiltAt(input.(verifySet := chosen), i) {
      assert SimulatedAt(input, i);
    }
  }

  // ----- Convergence across runs -----

  lemma {:induction false} AppliedValue(storage: map<SlotKey, Word>, changes: seq<SlotChange>, k: SlotKey)
    requires forall i, j :: 0 <= i < j < |changes| ==> changes[i].key != changes[j].key
    ensures (forall i :: 0 <= i < |changes| ==> changes[i].key != k) ==>
              ValueIn(Apply(storage, changes), k) == ValueIn(storage, k)
    ensures forall i :: 0 <= i < |changes| && changes[i].key == k ==>
              ValueIn(Apply(storage, changes), k) == changes[i].after
  {
    if changes == [] {
    } else {
      var front := changes[..|changes| - 1];
      assert forall i :: 0 <= i < |front| ==> front[i] == changes[i];
      AppliedValue(storage, front, k);
    }
  }

  /** Writing the corrections back gives the verified state, slot by slot. */
  lemma CorrectionsCompleteTheState(snapshot: Snapshot, fetched: map<SlotKey, Word>, changes: seq<SlotChange>,
                                    k: SlotKey)
    requires ListsChanges(changes, snapshot, Diff(snapshot, fetched))
    ensures ValueIn(Apply(snapshot.storage, changes), k) == ReadOverlay(snapshot, fetched, k)
  {
    var changed := Diff(snapshot, fetched);
    AppliedValue(snapshot.storage, changes, k);
    if k in changed {
      assert Mentions(changes, k);
      var i :| 0 <= i < |changes| && changes[i].key == k;
    }
  }

  /** The next run of the same requests starts from the corrected state. */
  ghost predicate NextRun(first: ValidatorInput, v: Validation, second: ValidatorInput)
    requires v.Corrected?
  {
    && Built(second)
    && second.requests == first.requests && second.registry == first.registry && second.now == first.now
    && second.snapshot == Snapshot(Apply(first.snapshot.storage, v.changedSlots), first.snapshot.hashes)
  }

  lemma RerunsAgree(first: ValidatorInput, fetched: map<SlotKey, Word>, v: Validation, second: ValidatorInput, i: nat)
    requires Accepted(first, fetched, v) && v.Corrected? && NextRun(first, v, second) && i < |second.requests|
    ensures Simulate(second.requests[i], second.snapshot, map[]) == Simulate(first.requests[i], first.snapshot, fetched)
    ensures second.optimistic[i] == v.results[i] && i !in second.blockhashReaders
    ensures second.readSets[i] <= fetched.Keys
  {
    var req := first.requests[i];
    var verified, corrected := Overlay(first.snapshot, fetched), Overlay(second.snapshot, map[]);
    assert TrustworthyAt(first, fetched, v.results, i);
    forall k ensures verified(k) == corrected(k) {
      CorrectionsCompleteTheState(first.snapshot, fetched, v.changedSlots, k);
    }
    RunLocality(req, verified, corrected, first.snapshot.hashes);
    assert BuiltAt(second, i);
  }

  lemma SomeReader(readers: seq<nat>)
    ensures readers == [] || exists i: nat :: i in readers
  {
    if readers != [] {
      assert readers[0] in readers;
    }
  }

  /** Convergence: re-running the same requests on the corrected cache gives the
      corrected results optimistically, and nothing is left to correct, as long
      as the policy asks for nothing that was not already verified. */
  lemma Converges(first: ValidatorInput, fetched: map<SlotKey, Word>, v: Validation, second: ValidatorInput,
                  truth: SlotKey -> Word)
    requires Accepted(first, fetched, v) && v.Corrected? && Truthful(fetched, truth)
    requires NextRun(first, v, second) && second.fetcher.Some? && AnswersBy(second.fetcher.value, truth)
    requires forall k :: k in second.verifySet && Live(second, k) ==> k in fetched
    ensures second.optimistic == v.results
    ensures Calm(second, truth)
  {
    assert Trustworthy(first, fetched, v.results);
    forall i | 0 <= i < |second.requests|
      ensures second.optimistic[i] == v.results[i] && i !in second.blockhashReaders
      ensures second.readSets[i] <= fetched.Keys
    {
      RerunsAgree(first, fetched, v, second, i);
    }
    SomeReader(second.blockhashReaders);
    forall k | k in InitialVerify(second) ensures truth(k) == ValueIn(second.snapshot.storage, k) {
      assert k in fetched;
      CorrectionsCompleteTheState(first.snapshot, fetched, v.changedSlots, k);
    }
  }

  /** What one uncancelled cycle leaves behind. */
  ghost predicate CycleDone(c: Controller, input: ValidatorInput, v: Validation, fetched: map<SlotKey, Word>,
                            truth: SlotKey -> Word)
    reads c, c.shared
  {
    && Built(input)
    && input.registry == c.registry && input.now == c.clock
    && (!v.Unverified? ==> Accepted(input, fetched, v))
    && Truthful(fetched, truth)
    && (Calm(input, truth) ==> v.ConfirmedStorage?)
    && c.shared.pending == (if v.Corrected? then v.changedSlots else [])
    && (c.policy.AlwaysVerify? ==> SetOf(input.verifySet) == Candidates(input.requests, c.registry, c.clock))
    && (c.policy.NeverVerify? ==> input.verifySet == [])
  }

  /** One cycle: run, then validate with no cancellation. */
  method Cycle(c: Controller, cache: Cache, requests: seq<SimRequest>, ghost truth: SlotKey -> Word)
    returns (r: Result<(ValidatorInput, Validation), nat>, ghost fetched: map<SlotKey, Word>)
    requires cache.fetcher.Some? ==> Honest(cache.fetcher.value, truth)
    modifies c.shared, cache`storage
    ensures cache.storage == Apply(old(cache.storage), old(c.shared.pending))
    ensures r.Ok? ==> CycleDone(c, r.value.0, r.value.1, fetched, truth)
    ensures r.Ok? ==> r.value.0.snapshot == Snapshot(cache.storage, cache.hashes)
    ensures r.Ok? ==> r.value.0.requests == requests && r.value.0.fetcher == cache.fetcher
    ensures r.Err? ==> CannotRun(requests, Snapshot(cache.storage, cache.hashes), r.error)
  {
    fetched := map[];
    var built := c.Run(cache, requests);
    if built.Err? {
      return Err(built.error), map[];
    }
    BuiltIsConsistent(built.value);
    ghost var drained := (c.shared.tracker, c.shared.pending, c.shared.rerunCount);
    var v := RunValidator(built.value, c.shared, _ => false, truth);
    ghost var after := (c.shared.tracker, c.shared.pending, c.shared.rerunCount);
    ghost var values, batches, saw :| Contract(built.value, truth, _ => false, v, values, batches, saw, drained, after);
    fetched := values;
    r := Ok((built.value, v));
  }

  /** Two consecutive cycles of one controller, with nothing cancelled and a
      fetcher that keeps answering by the same truth.  Under `AlwaysVerify` or
      `NeverVerify` the second cycle confirms what the first corrected. */
  method TwoCycles(c: Controller, cache: Cache, requests: seq<SimRequest>, ghost truth: SlotKey -> Word)
    returns (one: Result<(ValidatorInput, Validation), nat>, two: Result<(ValidatorInput, Validation), nat>)
    requires c.policy.AlwaysVerify? || c.policy.NeverVerify?
    requires cache.fetcher.Some? && AnswersBy(cache.fetcher.value, truth)
    modifies c.shared, cache`storage
    ensures one.Ok? && one.value.1.Corrected? ==>
              && two.Ok? && two.value.0.optimistic == one.value.1.results && two.value.1 == ConfirmedStorage
              && c.shared.pending == []
  {
    ghost var fetched, fetched2;
    one, fetched := Cycle(c, cache, requests, truth);
    ghost var queued := c.shared.pending;
    two, fetched2 := Cycle(c, cache, requests, truth);
    if one.Ok? && one.value.1.Corrected? {
      var first, v := one.value.0, one.value.1;
      assert cache.storage == Apply(first.snapshot.storage, v.changedSlots);
      if two.Err? {
        SecondRunSucceeds(first, fetched, v, Snapshot(cache.storage, cache.hashes), two.error);
      }
      SameChoice(c.policy, first, two.value.0, fetched);
      Converges(first, fetched, v, two.value.0, truth);
    }
  }

  /** Two controllers that differ in their policy, on the same cache, with nothing
      cancelled and an honest fetcher that may fail: whenever neither verdict is
      `Unverified`, both callers end up with the same results. */
  method TwoPolicies(c: Controller, d: Controller, cache: Cache, requests: seq<SimRequest>,
                     ghost truth: SlotKey -> Word)
    returns (one: Result<(ValidatorInput, Validation), nat>, two: Result<(ValidatorInput, Validation), nat>)
    requires c.shared != d.shared && c.registry == d.registry && c.clock == d.clock && d.shared.pending == []
    requires cache.fetcher.Some? ==> Honest(cache.fetcher.value, truth)
    modifies c.shared, d.shared, cache`storage
    ensures one.Ok? && two.Ok? && !one.value.1.Unverified? && !two.value.1.Unverified? ==>
              FinalResults(one.value.0, one.value.1) == FinalResults(two.value.0, two.value.1)
  {
    ghost var fetched, fetched2;
    one, fetched := Cycle(c, cache, requests, truth);
    two, fetched2 := Cycle(d, cache, requests, truth);
    if one.Ok? && two.Ok? && !one.value.1.Unverified? && !two.value.1.Unverified? {
      PolicyIndependence(one.value.0, two.value.0, one.value.1, two.value.1, fetched, fetched2, truth);
    }
  }

  lemma SameChoice(policy: Policy, first: ValidatorInput, second: ValidatorInput, fetched: map<SlotKey, Word>)
    requires policy.AlwaysVerify? || policy.NeverVerify?
    requires first.registry == second.registry && first.now == second.now
    requires InitialVerify(first) <= fetched.Keys
    requires policy.AlwaysVerify? ==> SetOf(first.verifySet) == SetOf(second.verifySet)
    requires policy.NeverVerify? ==> second.verifySet == []
    ensures forall k :: k in second.verifySet && Live(second, k) ==> k in fetched
  {
    forall k | k in second.verifySet && Live(second, k) ensures k in fetched {
      assert k in SetOf(second.verifySet);
      assert k in SetOf(first.verifySet);
      assert k in InitialVerify(first);
    }
  }

  /** The corrected state runs every request the first cycle vouched for. */
  lemma SecondRunSucceeds(first: ValidatorInput, fetched: map<SlotKey, Word>, v: Validation, snapshot: Snapshot, i: nat)
    requires Accepted(first, fetched, v) && v.Corrected? && i < |first.requests|
    requires snapshot == Snapshot(Apply(first.snapshot.storage, v.changedSlots), first.snapshot.hashes)
    ensures Simulate(first.requests[i], snapshot, map[]).Done?
  {
    var verified, corrected := Overlay(first.snapshot, fetched), Overlay(snapshot, map[]);
    assert TrustworthyAt(first, fetched, v.results, i);
    forall k ensures verified(k) == corrected(k) {
      CorrectionsCompleteTheState(first.snapshot, fetched, v.changedSlots, k);
    }
    RunLocality(first.requests[i], verified, corrected, first.snapshot.hashes);
  }
}
