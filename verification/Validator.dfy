/**
 `run_validator` of `src/freshness.rs`: fetch the live read set, re-run what a
 change touches, verify what the re-runs newly read, until nothing is left.
 */
module Validator {
  import opened Words
  import opened Simulation
  import opened Freshness

  // ----- Reasoning about one request -----

  predicate Submap(a: map<SlotKey, Word>, b: map<SlotKey, Word>) {
    forall k :: k in a ==> k in b && b[k] == a[k]
  }

  /** A request that read no changed slot need not be re-run. */
  lemma CarryOver(input: ValidatorInput, i: nat, base: map<SlotKey, Word>, changed: map<SlotKey, Word>,
                  result: SimResult, live: set<SlotKey>)
    requires i < |input.requests| && RanUnder(input, i, base, result, live)
    requires Submap(base, changed) && (forall k :: k in changed ==> Live(input, k)) && live !! changed.Keys
    ensures RanUnder(input, i, changed, result, live)
  {
    var e := Simulate(input.requests[i], input.snapshot, base);
    forall k | k in e.slots ensures ReadOverlay(input.snapshot, base, k) == ReadOverlay(input.snapshot, changed, k) {
      if Live(input, k) {
        assert k in live;
      }
    }
    OverlayLocality(input.requests[i], input.snapshot, base, changed);
  }

  lemma DiffReadsSame(snapshot: Snapshot, values: map<SlotKey, Word>, k: SlotKey)
    ensures ReadOverlay(snapshot, Diff(snapshot, values), k) == ReadOverlay(snapshot, values, k)
  {
  }

  /** Applying only the changed values is applying all the fetched ones. */
  lemma DiffRunsSame(input: ValidatorInput, i: nat, fetched: map<SlotKey, Word>, result: SimResult, live: set<SlotKey>)
    requires i < |input.requests| && RanUnder(input, i, Diff(input.snapshot, fetched), result, live)
    ensures RanUnder(input, i, fetched, result, live)
  {
    var d := Diff(input.snapshot, fetched);
    forall k ensures ReadOverlay(input.snapshot, d, k) == ReadOverlay(input.snapshot, fetched, k) {
      DiffReadsSame(input.snapshot, fetched, k);
    }
    OverlayLocality(input.requests[i], input.snapshot, d, fetched);
  }

  // ----- Reasoning about a round -----

  /** Every result is current under `changed`. */
  ghost predicate UpToDate(input: ValidatorInput, changed: map<SlotKey, Word>, results: seq<SimResult>,
                           live: seq<set<SlotKey>>) {
    && |results| == |live| == |input.requests|
    && forall i :: 0 <= i < |results| ==> RanUnder(input, i, changed, results[i], live[i])
  }

  /** The fetched values and what follows from them. */
  ghost predicate Verified(input: ValidatorInput, fetched: map<SlotKey, Word>, changed: map<SlotKey, Word>) {
    changed == Diff(input.snapshot, fetched) && forall k :: k in fetched ==> Live(input, k)
  }

  /** Each result came from a run under some earlier part of `changed`, and its
      live reads are verified. */
  ghost predicate Traced(input: ValidatorInput, fetched: map<SlotKey, Word>, changed: map<SlotKey, Word>,
                         results: seq<SimResult>, live: seq<set<SlotKey>>, bases: seq<map<SlotKey, Word>>) {
    && |results| == |live| == |bases| == |input.requests|
    && forall i :: 0 <= i < |results| ==> TracedAt(input, fetched, changed, results[i], live[i], bases[i], i)
  }

  ghost predicate TracedAt(input: ValidatorInput, fetched: map<SlotKey, Word>, changed: map<SlotKey, Word>,
                           result: SimResult, live: set<SlotKey>, base: map<SlotKey, Word>, i: nat)
    requires i < |input.requests|
  {
    RanUnder(input, i, base, result, live) && Submap(base, changed) && live <= fetched.Keys
  }

  /** Only affected requests have been re-run, the others read as they did. */
  ghost predicate Selective(input: ValidatorInput, changed: map<SlotKey, Word>, live: seq<set<SlotKey>>,
                            rerun: set<nat>) {
    && |input.readSets| == |live| == |input.requests|
    && rerun <= Affected(input, changed)
    && forall i :: 0 <= i < |live| && i !in rerun ==> live[i] == input.readSets[i]
  }

  predicate Touched(live: set<SlotKey>, changed: map<SlotKey, Word>) {
    exists k :: k in live && k in changed
  }

  lemma AffectedGrows(input: ValidatorInput, a: map<SlotKey, Word>, b: map<SlotKey, Word>)
    requires |input.readSets| == |input.requests| && a.Keys <= b.Keys
    ensures Affected(input, a) <= Affected(input, b)
  {
    forall i | i in Affected(input, a) ensures i in Affected(input, b) {
      var k :| k in input.readSets[i] * a.Keys;
      assert k in input.readSets[i] * b.Keys;
    }
  }

  /** Current results whose live reads are verified are trustworthy. */
  lemma Settle(input: ValidatorInput, fetched: map<SlotKey, Word>, results: seq<SimResult>, live: seq<set<SlotKey>>)
    requires UpToDate(input, Diff(input.snapshot, fetched), results, live)
    requires forall i :: 0 <= i < |live| ==> live[i] <= fetched.Keys
    ensures Trustworthy(input, fetched, results)
  {
    forall i | 0 <= i < |results| ensures TrustworthyAt(input, fetched, results, i) {
      DiffRunsSame(input, i, fetched, results[i], live[i]);
    }
  }

  /** The pass over the requests, after the first `i`. */
  ghost predicate Passed(input: ValidatorInput, verified: set<SlotKey>, changed: map<SlotKey, Word>,
                         results: seq<SimResult>, live: seq<set<SlotKey>>, rerun: set<nat>,
                         results': seq<SimResult>, live': seq<set<SlotKey>>, rerun': set<nat>,
                         candidates: set<SlotKey>, i: nat)
    requires |input.readSets| == |input.requests|
  {
    && |results'| == |live'| == |results| == |live| == |input.requests|
    && i <= |results'|
    && (forall j :: 0 <= j < i ==> RanUnder(input, j, changed, results'[j], live'[j]))
    && (forall j :: i <= j < |results'| ==> results'[j] == results[j] && live'[j] == live[j])
    && (forall j :: i <= j < |results'| ==> (j in rerun' <==> j in rerun))
    && rerun' <= Affected(input, changed)
    && (forall j :: 0 <= j < i && j !in rerun' ==> live'[j] == input.readSets[j] && !Touched(live'[j], changed))
    && (forall k :: k in candidates <==> k !in verified && ReadBefore(live', i, k))
  }

  ghost predicate ReadBefore(live: seq<set<SlotKey>>, i: nat, k: SlotKey)
    requires i <= |live|
  {
    exists j :: 0 <= j < i && k in live[j]
  }

  lemma PassOver(input: ValidatorInput, fetched: map<SlotKey, Word>, changed: map<SlotKey, Word>,
                 bases: seq<map<SlotKey, Word>>,
                 results: seq<SimResult>, live: seq<set<SlotKey>>, rerun: set<nat>,
                 results': seq<SimResult>, live': seq<set<SlotKey>>, rerun': set<nat>, candidates: set<SlotKey>, i: nat)
    requires Verified(input, fetched, changed)
    requires Traced(input, fetched, changed, results, live, bases) && Selective(input, changed, live, rerun)
    requires Passed(input, fetched.Keys, changed, results, live, rerun, results', live', rerun', candidates, i)
    requires i < |results| && !Touched(live[i], changed)
    ensures Passed(input, fetched.Keys, changed, results, live, rerun, results', live', rerun', candidates, i + 1)
  {
    assert TracedAt(input, fetched, changed, results[i], live[i], bases[i], i);
    CarryOver(input, i, bases[i], changed, results[i], live[i]);
    forall k ensures k !in fetched ==> (ReadBefore(live', i + 1, k) <==> ReadBefore(live', i, k)) {
      assert live'[i] <= fetched.Keys;
    }
  }

  lemma PassRerun(input: ValidatorInput, verified: set<SlotKey>, changed: map<SlotKey, Word>, e: Execution,
                  results: seq<SimResult>, live: seq<set<SlotKey>>, rerun: set<nat>,
                  results': seq<SimResult>, live': seq<set<SlotKey>>, rerun': set<nat>, candidates: set<SlotKey>,
                  i: nat)
    requires Selective(input, changed, live, rerun)
    requires Passed(input, verified, changed, results, live, rerun, results', live', rerun', candidates, i)
    requires i < |results| && Touched(live[i], changed)
    requires e == Simulate(input.requests[i], input.snapshot, changed) && e.Done? && !e.hashMiss
    ensures Passed(input, verified, changed, results, live, rerun,
                   results'[i := ToSim(e)], live'[i := LiveReads(input, e)], rerun' + {i},
                   candidates + (LiveReads(input, e) - verified), i + 1)
  {
    JustTouched(input, changed, live, rerun, i);
    var after := live'[i := LiveReads(input, e)];
    forall k ensures ReadBefore(after, i + 1, k) <==> ReadBefore(live', i, k) || k in LiveReads(input, e) {
      if ReadBefore(live', i, k) {
        var j :| 0 <= j < i && k in live'[j];
        assert k in after[j];
      } else if k in LiveReads(input, e) {
        assert k in after[i];
      }
    }
  }

  /** The re-run pass of one round. */
  method RerunAffected(input: ValidatorInput, verified: set<SlotKey>, changed: map<SlotKey, Word>,
                       results: seq<SimResult>, live: seq<set<SlotKey>>, rerun: set<nat>,
                       ghost fetched: map<SlotKey, Word>, ghost bases: seq<map<SlotKey, Word>>)
    returns (failure: Option<Reason>, results': seq<SimResult>, live': seq<set<SlotKey>>, rerun': set<nat>,
             candidates: set<SlotKey>)
    requires Verified(input, fetched, changed) && verified == fetched.Keys
    requires Traced(input, fetched, changed, results, live, bases) && Selective(input, changed, live, rerun)
    ensures failure.Some? ==> FailedRerun(input, changed, failure.value)
    ensures failure.None? ==> UpToDate(input, changed, results', live') && rerun' == Affected(input, changed)
    ensures failure.None? ==> Selective(input, changed, live', rerun')
    ensures failure.None? ==> forall k :: k in candidates <==> k !in verified && ReadBefore(live', |live'|, k)
  {
    results', live', rerun', candidates := results, live, rerun, {};
    for i := 0 to |input.requests|
      invariant Passed(input, verified, changed, results, live, rerun, results', live', rerun', candidates, i)
    {
      if !Touched(live'[i], changed) {
        PassOver(input, fetched, changed, bases, results, live, rerun, results', live', rerun', candidates, i);
        continue;
      }
      var e := Simulate(input.requests[i], input.snapshot, changed);
      if e.HostError? {
        failure := Some(RerunFailed(i));
        return;
      }
      if e.hashMiss {
        failure := Some(RerunReadBlockhash(i));
        return;
      }
      PassRerun(input, verified, changed, e, results, live, rerun, results', live', rerun', candidates, i);
      rerun' := rerun' + {i};
      results' := results'[i := ToSim(e)];
      live', candidates := live'[i := LiveReads(input, e)], candidates + (LiveReads(input, e) - verified);
    }
    failure := None;
    PassComplete(input, verified, changed, results, live, rerun, results', live', rerun', candidates);
  }

  lemma PassComplete(input: ValidatorInput, verified: set<SlotKey>, changed: map<SlotKey, Word>,
                     results: seq<SimResult>, live: seq<set<SlotKey>>, rerun: set<nat>,
                     results': seq<SimResult>, live': seq<set<SlotKey>>, rerun': set<nat>, candidates: set<SlotKey>)
    requires |input.readSets| == |input.requests|
    requires Passed(input, verified, changed, results, live, rerun, results', live', rerun', candidates,
                    |input.requests|)
    ensures UpToDate(input, changed, results', live') && rerun' == Affected(input, changed)
    ensures Selective(input, changed, live', rerun')
    ensures forall k :: k in candidates <==> k !in verified && ReadBefore(live', |live'|, k)
  {
    AllAffected(input, changed, live', rerun');
  }

  /** Why a re-run pass gave up. */
  ghost predicate FailedRerun(input: ValidatorInput, changed: map<SlotKey, Word>, reason: Reason) {
    match reason
    case RerunFailed(i) => i < |input.requests| && Simulate(input.requests[i], input.snapshot, changed).HostError?
    case RerunReadBlockhash(i) =>
      && i < |input.requests|
      && Simulate(input.requests[i], input.snapshot, changed).Done?
      && Simulate(input.requests[i], input.snapshot, changed).hashMiss
    case _ => false
  }

  lemma JustTouched(input: ValidatorInput, changed: map<SlotKey, Word>, live: seq<set<SlotKey>>, rerun: set<nat>,
                    i: nat)
    requires Selective(input, changed, live, rerun) && i < |live| && Touched(live[i], changed)
    ensures i in Affected(input, changed)
  {
    if i !in rerun {
      var k :| k in live[i] && k in changed;
      assert k in input.readSets[i] * changed.Keys;
    }
  }

  lemma AllAffected(input: ValidatorInput, changed: map<SlotKey, Word>, live: seq<set<SlotKey>>, rerun: set<nat>)
    requires |live| == |input.readSets| == |input.requests| && rerun <= Affected(input, changed)
    requires forall j :: 0 <= j < |live| && j !in rerun ==> live[j] == input.readSets[j] && !Touched(live[j], changed)
    ensures rerun == Affected(input, changed)
  {
    forall j | j in Affected(input, changed) ensures j in rerun {
      var k :| k in input.readSets[j] * changed.Keys;
      assert Touched(input.readSets[j], changed);
    }
  }

  // ----- Fetching and observing a batch -----

  ghost predicate Enumerates(q: seq<SlotKey>, s: set<SlotKey>) {
    && (forall k :: k in q <==> k in s)
    && forall i, j :: 0 <= i < j < |q| ==> q[i] != q[j]
  }

  /** A hash set's elements, in whatever order it yields them. */
  method Enumerate(s: set<SlotKey>) returns (q: seq<SlotKey>)
    ensures Enumerates(q, s)
  {
    q := [];
    var rest := s;
    while rest != {}
      invariant rest <= s && Enumerates(q, s - rest)
      decreases rest
    {
      var k :| k in rest;
      q := q + [k];
      rest := rest - {k};
    }
  }

  /** The requested part of an answer. */
  function Restrict(values: map<SlotKey, Word>, keys: set<SlotKey>): map<SlotKey, Word> {
    map k | k in keys && k in values :: values[k]
  }

  /** The fetcher, asked for `asked` in some order as its `t`-th batch, gave
      `v` for `k`. */
  ghost predicate Answered(fetcher: BatchFetcher, t: nat, asked: set<SlotKey>, k: SlotKey, v: Word) {
    exists q :: Enumerates(q, asked) && Gives(fetcher(t, q), k, v)
  }

  ghost predicate Gives(answers: seq<Fetched>, k: SlotKey, v: Word) {
    Collected(answers).Some? && k in Collected(answers).value && Collected(answers).value[k] == v
  }

  /** The fetcher's answer to its `t`-th batch, asked in some order, had to be
      rejected for `reason`. */
  ghost predicate Refused(fetcher: BatchFetcher, t: nat, asked: set<SlotKey>, reason: Reason) {
    exists q :: Enumerates(q, asked) && Rejected(q, Collected(fetcher(t, q)), reason)
  }

  method FetchBatch(fetcher: BatchFetcher, t: nat, keys: set<SlotKey>)
    returns (batch: seq<SlotKey>, r: Result<map<SlotKey, Word>, Reason>)
    ensures Enumerates(batch, keys)
    ensures r.Ok? ==> keys <= r.value.Keys && forall k :: k in keys ==> Answered(fetcher, t, keys, k, r.value[k])
    ensures r.Err? ==> Refused(fetcher, t, keys, r.error)
    ensures Complete(fetcher) ==> r.Ok?
  {
    batch := Enumerate(keys);
    var answers := fetcher(t, batch);
    r := CollectFetchResults(batch, answers);
    if r.Ok? {
      forall k | k in keys ensures Answered(fetcher, t, keys, k, r.value[k]) {
        assert Gives(fetcher(t, batch), k, r.value[k]);
      }
    }
    if Complete(fetcher) {
      CompleteBatch(batch, fetcher, t);
    }
  }

  /** A complete answer is never rejected. */
  lemma CompleteBatch(batch: seq<SlotKey>, fetcher: BatchFetcher, t: nat)
    requires Complete(fetcher)
    ensures var answers := fetcher(t, batch);
            Collected(answers).Some? && forall k :: k in batch ==> k in Collected(answers).value
  {
    var answers := fetcher(t, batch);
    assert CompleteAnswers(answers, batch);
    CollectedAll(answers);
    forall k | k in batch ensures k in Collected(answers).value {
      var i :| 0 <= i < |answers| && answers[i].key == k;
    }
  }

  /** Every fetched value is what the fetcher answered to the batch that asked. */
  ghost predicate Sourced(fetcher: BatchFetcher, batches: seq<set<SlotKey>>, fetched: map<SlotKey, Word>) {
    forall k :: k in fetched ==> SourcedAt(fetcher, batches, fetched, k)
  }

  ghost predicate SourcedAt(fetcher: BatchFetcher, batches: seq<set<SlotKey>>, fetched: map<SlotKey, Word>, k: SlotKey)
    requires k in fetched
  {
    exists b: nat :: b < |batches| && Answered(fetcher, b, batches[b], k, fetched[k])
  }

  lemma SourcedIsTrue(fetcher: BatchFetcher, batches: seq<set<SlotKey>>, fetched: map<SlotKey, Word>,
                      truth: SlotKey -> Word)
    requires Sourced(fetcher, batches, fetched) && Honest(fetcher, truth)
    ensures Truthful(fetched, truth)
  {
    forall k | k in fetched ensures fetched[k] == truth(k) {
      assert SourcedAt(fetcher, batches, fetched, k);
      var b: nat :| b < |batches| && Answered(fetcher, b, batches[b], k, fetched[k]);
      var q :| Enumerates(q, batches[b]) && Gives(fetcher(b, q), k, fetched[k]);
      assert HonestAnswers(fetcher(b, q), truth);
      CollectedTruth(fetcher(b, q), truth);
    }
  }

  lemma SourcedMore(fetcher: BatchFetcher, batches: seq<set<SlotKey>>, fetched: map<SlotKey, Word>, asked: set<SlotKey>,
                    values: map<SlotKey, Word>)
    requires Sourced(fetcher, batches, fetched)
    requires forall k :: k in values ==> Answered(fetcher, |batches|, asked, k, values[k])
    ensures Sourced(fetcher, batches + [asked], fetched + values)
  {
    var all, both := batches + [asked], fetched + values;
    forall k | k in both ensures SourcedAt(fetcher, all, both, k) {
      if k in values {
        assert all[|batches|] == asked;
      } else {
        assert SourcedAt(fetcher, batches, fetched, k);
        var b: nat :| b < |batches| && Answered(fetcher, b, batches[b], k, fetched[k]);
        assert all[b] == batches[b];
      }
    }
  }

  /** The state a validator shares with its controller. */
  class Shared {
    var tracker: Tracker
    var pending: seq<SlotChange>
    var rerunCount: nat

    constructor (tracker: Tracker)
      ensures this.tracker == tracker && pending == [] && rerunCount == 0
    {
      this.tracker, pending, rerunCount := tracker, [], 0;
    }
  }

  /** Compare each fetched slot with the snapshot, and observe it. */
  method DiffAndObserve(batch: seq<SlotKey>, ghost keys: set<SlotKey>, answer: map<SlotKey, Word>, snapshot: Snapshot,
                        changed: map<SlotKey, Word>, tracker: Tracker, now: nat)
    returns (changed': map<SlotKey, Word>, tracker': Tracker, grew: bool)
    requires Enumerates(batch, keys) && keys <= answer.Keys
    ensures tracker' == ObserveAll(tracker, Restrict(answer, keys), now)
    ensures changed' == changed + Diff(snapshot, Restrict(answer, keys))
    ensures grew <==> Diff(snapshot, Restrict(answer, keys)) != map[]
  {
    changed', tracker', grew := changed, tracker, false;
    ghost var done: set<SlotKey> := {};
    ObserveNothing(tracker, now);
    assert Restrict(answer, {}) == map[];
    for i := 0 to |batch|
      invariant forall k :: k in done <==> k in batch[..i]
      invariant tracker' == ObserveAll(tracker, Restrict(answer, done), now)
      invariant changed' == changed + Diff(snapshot, Restrict(answer, done))
      invariant grew <==> Diff(snapshot, Restrict(answer, done)) != map[]
    {
      var k := batch[i];
      NextKey(batch, keys, done, i);
      var current, cached := answer[k], ValueIn(snapshot.storage, k);
      ObserveStep(tracker, answer, done, k, now);
      DiffStep(snapshot, answer, done, k, changed);
      tracker' := tracker'[k := Observed(tracker', k, current, now)];
      if current != cached {
        changed', grew := changed'[k := current], true;
      }
      done := done + {k};
    }
    assert batch[..|batch|] == batch;
    assert done == keys;
  }

  lemma NextKey(batch: seq<SlotKey>, keys: set<SlotKey>, done: set<SlotKey>, i: nat)
    requires Enumerates(batch, keys) && i < |batch| && forall k :: k in done <==> k in batch[..i]
    ensures batch[i] in keys && batch[i] !in done
    ensures forall k :: k in done + {batch[i]} <==> k in batch[..i + 1]
  {
    assert batch[..i + 1] == batch[..i] + [batch[i]];
    assert batch[i] in batch;
  }

  lemma ObserveStep(tracker: Tracker, answer: map<SlotKey, Word>, done: set<SlotKey>, k: SlotKey, now: nat)
    requires k in answer && k !in done
    ensures var before := ObserveAll(tracker, Restrict(answer, done), now);
            before[k := Observed(before, k, answer[k], now)] == ObserveAll(tracker, Restrict(answer, done + {k}), now)
  {
  }

  lemma DiffStep(snapshot: Snapshot, answer: map<SlotKey, Word>, done: set<SlotKey>, k: SlotKey,
                 changed: map<SlotKey, Word>)
    requires k in answer && k !in done
    ensures var before, after := Diff(snapshot, Restrict(answer, done)), Diff(snapshot, Restrict(answer, done + {k}));
            if answer[k] != ValueIn(snapshot.storage,
                                    k) then changed + after == (changed + before)[k := answer[k]] && after != map[]
            else after == before
  {
    var before, after := Diff(snapshot, Restrict(answer, done)), Diff(snapshot, Restrict(answer, done + {k}));
    if answer[k] != ValueIn(snapshot.storage, k) {
      assert after == before[k := answer[k]];
      assert k in after;
    }
  }

  // ----- Rounds -----

  /** The loop's variables: the changed set, current results and live read sets,
      the re-run requests, and the verified slots. */
  datatype Work = Work(changed: map<SlotKey, Word>, results: seq<SimResult>, live: seq<set<SlotKey>>, rerun: set<nat>,
                       verified: set<SlotKey>)

  /** Loop invariant. */
  ghost predicate Progress(input: ValidatorInput, w: Work, fetched: map<SlotKey, Word>,
                           bases: seq<map<SlotKey, Word>>) {
    && Verified(input, fetched, w.changed) && w.verified == fetched.Keys
    && Traced(input, fetched, w.changed, w.results, w.live, bases)
    && Selective(input, w.changed, w.live, w.rerun)
  }

  /** The fixed point. */
  ghost predicate Final(input: ValidatorInput, w: Work, fetched: map<SlotKey, Word>) {
    && Verified(input, fetched, w.changed)
    && Trustworthy(input, fetched, w.results)
    && |input.readSets| == |input.requests|
    && w.rerun == Affected(input, w.changed)
  }

  ghost predicate Truthful(values: map<SlotKey, Word>, truth: SlotKey -> Word) {
    forall k :: k in values ==> values[k] == truth(k)
  }

  lemma DiffSplits(snapshot: Snapshot, a: map<SlotKey, Word>, b: map<SlotKey, Word>)
    requires a.Keys !! b.Keys
    ensures Diff(snapshot, a + b) == Diff(snapshot, a) + Diff(snapshot, b)
    ensures Submap(Diff(snapshot, a), Diff(snapshot, a + b))
  {
  }

  /** The slots newly read by an up-to-date round. */
  ghost predicate NewReads(candidates: set<SlotKey>, fetched: map<SlotKey, Word>, live: seq<set<SlotKey>>) {
    forall k :: k in candidates <==> k !in fetched && ReadBefore(live, |live|, k)
  }

  lemma CandidatesLive(input: ValidatorInput, fetched: map<SlotKey, Word>, changed: map<SlotKey, Word>,
                       results: seq<SimResult>, live: seq<set<SlotKey>>, candidates: set<SlotKey>)
    requires UpToDate(input, changed, results, live) && NewReads(candidates, fetched, live)
    ensures candidates !! fetched.Keys
    ensures forall k :: k in candidates ==> Live(input, k)
    ensures forall i :: 0 <= i < |live| ==> live[i] <= fetched.Keys + candidates
  {
    forall k | k in candidates ensures Live(input, k) {
      var j :| 0 <= j < |live| && k in live[j];
      assert RanUnder(input, j, changed, results[j], live[j]);
    }
    forall i, k | 0 <= i < |live| && k in live[i] ensures k in fetched.Keys + candidates {
      assert ReadBefore(live, |live|, k);
    }
  }

  /** Folding a newly fetched batch into the loop state. */
  lemma AfterFetch(input: ValidatorInput, w: Work, fetched: map<SlotKey, Word>, candidates: set<SlotKey>,
                   values: map<SlotKey, Word>)
    requires Verified(input, fetched, w.changed) && UpToDate(input, w.changed, w.results, w.live)
    requires Selective(input, w.changed, w.live, w.rerun)
    requires NewReads(candidates, fetched, w.live) && values.Keys == candidates
    ensures var w' := w.(changed := w.changed + Diff(input.snapshot, values), verified := fetched.Keys + candidates);
            Progress(input, w', fetched + values, seq(|w.results|, _ => w.changed)) && Submap(w.changed, w'.changed)
  {
    CandidatesLive(input, fetched, w.changed, w.results, w.live, candidates);
    DiffSplits(input.snapshot, fetched, values);
    var changed' := w.changed + Diff(input.snapshot, values);
    var bases := seq(|w.results|, _ => w.changed);
    forall i | 0 <= i < |w.results|
      ensures TracedAt(input, fetched + values, changed', w.results[i], w.live[i], bases[i], i)
    {
      assert RanUnder(input, i, w.changed, w.results[i], w.live[i]);
    }
    AffectedGrows(input, w.changed, changed');
  }

  /** A round that finds nothing new, or nothing new that changed, is the last. */
  lemma Finished(input: ValidatorInput, w: Work, fetched: map<SlotKey, Word>, candidates: set<SlotKey>,
                 values: map<SlotKey, Word>)
    requires Verified(input, fetched, w.changed) && UpToDate(input, w.changed, w.results, w.live)
    requires |input.readSets| == |input.requests| && w.rerun == Affected(input, w.changed)
    requires NewReads(candidates, fetched, w.live) && values.Keys == candidates
    requires Diff(input.snapshot, values) == map[]
    ensures Final(input, w, fetched + values)
  {
    CandidatesLive(input, fetched, w.changed, w.results, w.live, candidates);
    DiffSplits(input.snapshot, fetched, values);
    assert Diff(input.snapshot, fetched + values) == w.changed;
    Settle(input, fetched + values, w.results, w.live);
  }

  datatype Step = Again | Settled | Exit(verdict: Validation)

  /** What a round may leave with: a reason not to trust, or a cancellation. */
  ghost predicate Exits(input: ValidatorInput, fetcher: BatchFetcher, fetched: map<SlotKey, Word>, round: nat,
                        cancelled: bool, asked: set<SlotKey>, v: Validation) {
    match v
    case ConfirmedStorage => cancelled
    case Unverified(reason) =>
      (match reason
       case RoundCapExceeded => round >= MAX_VALIDATION_ROUNDS && Unsettled(input, fetched)
       case FetchFailed => asked != {} && Refused(fetcher, 1 + round, asked, reason)
       case SlotOmitted(k) => asked != {} && Refused(fetcher, 1 + round, asked, reason)
       case _ => FailedRerun(input, Diff(input.snapshot, fetched), reason))
    case _ => false
  }

  /** On the state verified so far some request reads a live slot that was never
      fetched. */
  ghost predicate Unsettled(input: ValidatorInput, fetched: map<SlotKey, Word>) {
    exists i: nat :: i < |input.requests| && ReadsUnverified(input, fetched, i)
  }

  ghost predicate ReadsUnverified(input: ValidatorInput, fetched: map<SlotKey, Word>, i: nat)
    requires i < |input.requests|
  {
    var e := Simulate(input.requests[i], input.snapshot, Diff(input.snapshot, fetched));
    e.Done? && exists k :: k in LiveReads(input, e) && k !in fetched
  }

  lemma CandidatesUnsettle(input: ValidatorInput, fetched: map<SlotKey, Word>, changed: map<SlotKey, Word>,
                           results: seq<SimResult>, live: seq<set<SlotKey>>, candidates: set<SlotKey>)
    requires Verified(input, fetched, changed) && UpToDate(input, changed, results, live)
    requires NewReads(candidates, fetched, live) && candidates != {}
    ensures Unsettled(input, fetched)
  {
    var k :| k in candidates;
    var i :| 0 <= i < |live| && k in live[i];
    assert RanUnder(input, i, changed, results[i], live[i]);
    assert ReadsUnverified(input, fetched, i);
  }

  /** What one round does: it asks only for live slots not fetched before, takes
      the whole answer or nothing, and goes on, settles, or gives up. */
  ghost predicate RoundResult(input: ValidatorInput, fetcher: BatchFetcher, cancelled: bool, round: nat,
                              w: Work, fetched: map<SlotKey, Word>, step: Step, w': Work, asked: set<SlotKey>,
                              values: map<SlotKey, Word>) {
    && asked !! fetched.Keys && (forall k :: k in asked ==> Live(input, k))
    && (values == map[] || values.Keys == asked)
    && (round >= MAX_VALIDATION_ROUNDS || cancelled ==> asked == {})
    && (forall k :: k in values ==> Answered(fetcher, 1 + round, asked, k, values[k]))
    && match step
       case Again =>
         && round < MAX_VALIDATION_ROUNDS && values.Keys == asked != {}
         && Progress(input, w', fetched + values, seq(|input.requests|, _ => w.changed))
         && Submap(w.changed, w'.changed)
       case Settled => Final(input, w', fetched + values) && Submap(w.changed, w'.changed)
       case Exit(v) => Exits(input, fetcher, fetched, round, cancelled, asked, v) && values == map[]
  }

  /** One iteration of the fixed-point loop.  `asked` is the batch it fetched. */
  method ValidationRound(input: ValidatorInput, fetcher: BatchFetcher, shared: Shared, cancelled: bool, t: nat,
                         round: nat, w: Work,
                         ghost fetched: map<SlotKey, Word>, ghost bases: seq<map<SlotKey, Word>>)
    returns (step: Step, w': Work, ghost asked: set<SlotKey>, ghost values: map<SlotKey, Word>)
    requires Progress(input, w, fetched, bases) && t == 1 + round
    modifies shared`tracker
    ensures shared.tracker == ObserveAll(old(shared.tracker), values, input.now)
    ensures RoundResult(input, fetcher, cancelled, round, w, fetched, step, w', asked, values)
  {
    w', asked, values := w, {}, map[];
    ObserveNothing(shared.tracker, input.now);
    assert fetched + map[] == fetched;
    var failure, results, live, rerun, candidates :=
      RerunAffected(input, w.verified, w.changed, w.results, w.live, w.rerun, fetched, bases);
    if failure.Some? {
      step := Exit(Unverified(failure.value));
      return;
    }
    w' := Work(w.changed, results, live, rerun, w.verified);
    assert NewReads(candidates, fetched, live);
    if candidates == {} {
      Finished(input, w', fetched, candidates, map[]);
      step := Settled;
      return;
    }
    if round >= MAX_VALIDATION_ROUNDS {
      CandidatesUnsettle(input, fetched, w.changed, results, live, candidates);
      step := Exit(Unverified(RoundCapExceeded));
      return;
    }
    if cancelled {
      step := Exit(ConfirmedStorage);
      return;
    }
    CandidatesLive(input, fetched, w.changed, results, live, candidates);
    asked := candidates;
    var batch, r := FetchBatch(fetcher, t, candidates);
    if r.Err? {
      step := Exit(Unverified(r.error));
      return;
    }
    values := Restrict(r.value, candidates);
    assert values.Keys == candidates;
    var changed', tracker', grew := DiffAndObserve(batch, candidates, r.value, input.snapshot, w.changed,
                                                   shared.tracker, input.now);
    shared.tracker := tracker';
    if grew {
      AfterFetch(input, w', fetched, candidates, values);
      w' := w'.(changed := changed', verified := w.verified + candidates);
      step := Again;
    } else {
      Finished(input, w', fetched, candidates, values);
      step := Settled;
    }
  }

  // ----- The validator -----

  ghost predicate Disjoint(batches: seq<set<SlotKey>>) {
    forall i, j :: 0 <= i < j < |batches| ==> batches[i] !! batches[j]
  }

  /** Every fetched slot came from one of the batches, all of live slots. */
  ghost predicate FetchedOnce(input: ValidatorInput, batches: seq<set<SlotKey>>, fetched: map<SlotKey, Word>) {
    && |batches| <= 1 + MAX_VALIDATION_ROUNDS
    && Disjoint(batches)
    && (forall b, k :: b in batches && k in b ==> Live(input, k))
    && forall k :: k in fetched ==> exists b :: b in batches && k in b
  }

  /** All batches so far were accepted. */
  ghost predicate AllAccepted(batches: seq<set<SlotKey>>, fetched: map<SlotKey, Word>) {
    forall b :: b in batches ==> b <= fetched.Keys
  }

  lemma StillDisjoint(batches: seq<set<SlotKey>>, fetched: map<SlotKey, Word>, asked: set<SlotKey>)
    requires Disjoint(batches) && AllAccepted(batches, fetched) && asked !! fetched.Keys
    ensures Disjoint(batches + [asked])
  {
    var all := batches + [asked];
    forall i, j | 0 <= i < j < |all| ensures all[i] !! all[j] {
      if j == |batches| {
        assert batches[i] in batches;
      }
    }
  }

  lemma NextBatch(input: ValidatorInput, batches: seq<set<SlotKey>>, fetched: map<SlotKey, Word>, asked: set<SlotKey>,
                  values: map<SlotKey, Word>)
    requires FetchedOnce(input, batches, fetched) && AllAccepted(batches, fetched) && |batches| <= MAX_VALIDATION_ROUNDS
    requires asked !! fetched.Keys && (forall k :: k in asked ==> Live(input, k)) && values.Keys <= asked
    ensures FetchedOnce(input, batches + [asked], fetched + values)
    ensures values.Keys == asked ==> AllAccepted(batches + [asked], fetched + values)
  {
    var all := batches + [asked];
    StillDisjoint(batches, fetched, asked);
    forall k | k in fetched + values ensures exists b :: b in all && k in b {
      if k in values {
        assert asked in all;
      } else {
        var b :| b in batches && k in b;
        assert b in all;
      }
    }
  }

  ghost predicate Mentions(changes: seq<SlotChange>, k: SlotKey) {
    exists i :: 0 <= i < |changes| && changes[i].key == k
  }

  /** The changed slots, each once, with the snapshot's and the fetched value. */
  ghost predicate ListsChanges(changes: seq<SlotChange>, snapshot: Snapshot, changed: map<SlotKey, Word>) {
    && |changes| == |changed|
    && (forall i, j :: 0 <= i < j < |changes| ==> changes[i].key != changes[j].key)
    && (forall i :: 0 <= i < |changes| ==>
          changes[i].key in changed && changes[i] == SlotChange(changes[i].key,
                                                                ValueIn(snapshot.storage,
                                                                        changes[i].key), changed[changes[i].key]))
    && forall k :: k in changed ==> Mentions(changes, k)
  }

  method ListChanges(changed: map<SlotKey, Word>, snapshot: Snapshot) returns (changes: seq<SlotChange>)
    ensures ListsChanges(changes, snapshot, changed)
  {
    var keys := Enumerate(changed.Keys);
    EnumerationSize(keys, changed.Keys);
    changes := seq(|keys|, i requires 0 <= i < |keys| && keys[i] in changed =>
      SlotChange(keys[i], ValueIn(snapshot.storage, keys[i]), changed[keys[i]]));
    forall k | k in changed ensures Mentions(changes, k) {
      var i :| 0 <= i < |keys| && keys[i] == k;
      assert changes[i].key == k;
    }
  }

  lemma {:induction false} EnumerationSize(q: seq<SlotKey>, s: set<SlotKey>)
    requires Enumerates(q, s)
    ensures |q| == |s|
    decreases |q|
  {
    if q == [] {
      assert s == {};
    } else {
      var n := |q| - 1;
      var front, k := q[..n], q[n];
      SplitLast([], q);
      assert forall x :: x in front <==> x in s - {k};
      EnumerationSize(front, s - {k});
    }
  }

  // ----- The ledger of what was fetched and observed -----

  ghost predicate Ledger(input: ValidatorInput, batches: seq<set<SlotKey>>, fetched: map<SlotKey, Word>,
                         first: map<SlotKey, Word>,
                         tracker0: Tracker, tracker: Tracker) {
    && |batches| >= 1 && batches[0] == first.Keys
    && FetchedOnce(input, batches, fetched)
    && Submap(first, fetched)
    && tracker == ObserveAll(tracker0, fetched - first.Keys, input.now)
  }

  ghost function Logged(batches: seq<set<SlotKey>>, asked: set<SlotKey>): seq<set<SlotKey>> {
    if asked == {} then batches else batches + [asked]
  }

  lemma LedgerStep(input: ValidatorInput, batches: seq<set<SlotKey>>, fetched: map<SlotKey, Word>,
                   first: map<SlotKey, Word>,
                   tracker0: Tracker, tracker: Tracker, asked: set<SlotKey>, values: map<SlotKey, Word>)
    requires Ledger(input, batches, fetched, first, tracker0, tracker) && AllAccepted(batches, fetched)
    requires asked !! fetched.Keys && (forall k :: k in asked ==> Live(input, k))
    requires (values == map[] || values.Keys == asked)
    requires asked != {} ==> |batches| <= MAX_VALIDATION_ROUNDS
    ensures Ledger(input, Logged(batches, asked), fetched + values, first, tracker0,
                   ObserveAll(tracker, values, input.now))
    ensures values.Keys == asked ==> AllAccepted(Logged(batches, asked), fetched + values)
  {
    ObserveMore(tracker0, first, fetched, values, input.now);
    if asked != {} {
      NextBatch(input, batches, fetched, asked, values);
    } else {
      assert values == map[];
      assert fetched + values == fetched;
    }
  }

  /** The ledger is in order and holds what the fetcher answered. */
  ghost predicate Booked(input: ValidatorInput, fetcher: BatchFetcher, first: map<SlotKey, Word>,
                         fetched: map<SlotKey, Word>, batches: seq<set<SlotKey>>, tracker0: Tracker, tracker: Tracker) {
    && Ledger(input, batches, fetched, first, tracker0, tracker)
    && Sourced(fetcher, batches, fetched)
  }

  /** The state at the head of round `round`. */
  ghost predicate AtRound(input: ValidatorInput, w: Work, fetched: map<SlotKey, Word>, bases: seq<map<SlotKey, Word>>,
                          batches: seq<set<SlotKey>>, round: nat) {
    && round <= MAX_VALIDATION_ROUNDS && |batches| == 1 + round
    && Progress(input, w, fetched, bases) && w.changed != map[]
    && AllAccepted(batches, fetched)
  }

  /** Leaving without a fixed point: cancelled, or a reason not to trust. */
  ghost predicate GaveUp(input: ValidatorInput, fetched: map<SlotKey, Word>, batches: seq<set<SlotKey>>, v: Validation,
                         cancelled: bool) {
    (v.ConfirmedStorage? && cancelled) || (v.Unverified? && Justified(input, fetched, batches, v.reason))
  }

  /** At most one more fetch, and none once stopped. */
  ghost predicate Fetches(batches: seq<set<SlotKey>>, batches': seq<set<SlotKey>>, stop: bool) {
    |batches'| == |batches| || (|batches'| == |batches| + 1 && !stop)
  }

  /** How the run answered to the cancel flag, read at its checkpoints in turn:
      0 on entry, 1 before the first fetch, 2 before the first comparison, and
      3 + r before the fetch of round r.  A set flag stops the next fetch, and a
      run that stopped for it saw it. */
  ghost predicate Obeyed(cancelled: nat -> bool, batches: seq<set<SlotKey>>, fetched: map<SlotKey, Word>,
                         sawCancel: bool) {
    && (batches != [] ==> !cancelled(0) && !cancelled(1))
    && (fetched != map[] ==> !cancelled(2))
    && (forall n :: 3 <= n < 2 + |batches| ==> !cancelled(n))
    && (sawCancel ==> exists n :: 0 <= n <= 2 + |batches| && cancelled(n))
  }

  /** A round together with its bookkeeping. */
  method LoggedRound(input: ValidatorInput, fetcher: BatchFetcher, shared: Shared, stop: bool, round: nat, w: Work,
                     ghost first: map<SlotKey, Word>, ghost fetched: map<SlotKey, Word>,
                     ghost bases: seq<map<SlotKey, Word>>,
                     ghost batches: seq<set<SlotKey>>, ghost tracker0: Tracker)
    returns (step: Step, w': Work, ghost fetched': map<SlotKey, Word>, ghost batches': seq<set<SlotKey>>)
    requires AtRound(input, w, fetched, bases, batches, round)
    requires input.fetcher == Some(fetcher) && Booked(input, fetcher, first, fetched, batches, tracker0, shared.tracker)
    modifies shared`tracker
    ensures Booked(input, fetcher, first, fetched', batches', tracker0, shared.tracker)
    ensures step.Again? ==> round < MAX_VALIDATION_ROUNDS
    ensures step.Again? ==> AtRound(input, w', fetched', seq(|input.requests|, _ => w.changed), batches', round + 1)
    ensures step.Settled? ==> Final(input, w', fetched') && w'.changed != map[]
    ensures step.Exit? ==> GaveUp(input, fetched', batches', step.verdict, stop)
    ensures Fetches(batches, batches', stop)
  {
    ghost var observed := shared.tracker;
    ghost var asked, values;
    step, w', asked, values := ValidationRound(input, fetcher, shared, stop, 1 + round, round, w, fetched, bases);
    fetched', batches' := fetched + values, Logged(batches, asked);
    BookRound(input, fetcher, fetched, asked, values, first, batches, tracker0, observed);
    LeaveRound(input, fetcher, stop, round, w, fetched, bases, step, w', asked, values, batches);
  }

  lemma BookRound(input: ValidatorInput, fetcher: BatchFetcher,
                  fetched: map<SlotKey, Word>, asked: set<SlotKey>, values: map<SlotKey, Word>,
                  first: map<SlotKey, Word>, batches: seq<set<SlotKey>>, tracker0: Tracker, tracker: Tracker)
    requires asked !! fetched.Keys && (forall k :: k in asked ==> Live(input, k))
    requires (values == map[] || values.Keys == asked)
    requires forall k :: k in values ==> Answered(fetcher, |batches|, asked, k, values[k])
    requires AllAccepted(batches, fetched) && (asked != {} ==> |batches| <= MAX_VALIDATION_ROUNDS)
    requires Booked(input, fetcher, first, fetched, batches, tracker0, tracker)
    ensures Booked(input, fetcher, first, fetched + values, Logged(batches, asked), tracker0,
                   ObserveAll(tracker, values, input.now))
    ensures values.Keys == asked ==> AllAccepted(Logged(batches, asked), fetched + values)
  {
    LedgerStep(input, batches, fetched, first, tracker0, tracker, asked, values);
    SourcedLogged(fetcher, batches, fetched, asked, values);
  }

  lemma SourcedLogged(fetcher: BatchFetcher, batches: seq<set<SlotKey>>, fetched: map<SlotKey, Word>,
                      asked: set<SlotKey>, values: map<SlotKey, Word>)
    requires Sourced(fetcher, batches, fetched) && (values == map[] || values.Keys == asked)
    requires forall k :: k in values ==> Answered(fetcher, |batches|, asked, k, values[k])
    ensures Sourced(fetcher, Logged(batches, asked), fetched + values)
  {
    if asked == {} {
      assert fetched + values == fetched;
    } else {
      SourcedMore(fetcher, batches, fetched, asked, values);
    }
  }

  lemma LeaveRound(input: ValidatorInput, fetcher: BatchFetcher, cancelled: bool, round: nat,
                   w: Work, fetched: map<SlotKey, Word>, bases: seq<map<SlotKey, Word>>, step: Step, w': Work,
                   asked: set<SlotKey>, values: map<SlotKey, Word>,
                   batches: seq<set<SlotKey>>)
    requires RoundResult(input, fetcher, cancelled, round, w, fetched, step, w', asked, values)
    requires input.fetcher == Some(fetcher)
    requires AtRound(input, w, fetched, bases, batches, round)
    requires values.Keys == asked ==> AllAccepted(Logged(batches, asked), fetched + values)
    ensures step.Again? ==>
              AtRound(input, w', fetched + values, seq(|input.requests|, _ => w.changed), Logged(batches, asked),
                      round + 1)
    ensures step.Settled? ==> Final(input, w', fetched + values) && w'.changed != map[]
    ensures step.Exit? ==> GaveUp(input, fetched + values, Logged(batches, asked), step.verdict, cancelled)
  {
    if step.Exit? {
      ExitJustified(input, fetcher, round, cancelled, asked, Logged(batches, asked), fetched, values, step.verdict);
    } else {
      StillChanged(w.changed, w'.changed);
    }
  }

  lemma RoundObeyed(cancelled: nat -> bool, batches: seq<set<SlotKey>>, batches': seq<set<SlotKey>>,
                    fetched': map<SlotKey, Word>, gaveUp: bool)
    requires Fetches(batches, batches', cancelled(2 + |batches|)) && (gaveUp ==> cancelled(2 + |batches|))
    requires batches != [] && Obeyed(cancelled, batches, map[], false) && !cancelled(2)
    ensures Obeyed(cancelled, batches', fetched', gaveUp)
  {
  }

  /** The fixed-point loop, from a first batch that found a change. */
  method FixedPoint(input: ValidatorInput, fetcher: BatchFetcher, shared: Shared, cancelled: nat -> bool, start: Work,
                    ghost first: map<SlotKey, Word>)
    returns (exit: Option<Validation>, w: Work, ghost fetched: map<SlotKey, Word>, ghost batches: seq<set<SlotKey>>,
             ghost sawCancel: bool)
    requires AtRound(input, start, first, seq(|input.requests|, _ => map[]), [first.Keys], 0)
    requires input.fetcher == Some(fetcher)
    requires Sourced(fetcher, [first.Keys], first) && Obeyed(cancelled, [first.Keys], first, false) && !cancelled(2)
    modifies shared`tracker
    ensures Booked(input, fetcher, first, fetched, batches, old(shared.tracker), shared.tracker)
    ensures exit.None? ==> Final(input, w, fetched) && w.changed != map[]
    ensures exit.Some? ==> GaveUp(input, fetched, batches, exit.value, sawCancel)
    ensures sawCancel ==> exit == Some(ConfirmedStorage)
    ensures Obeyed(cancelled, batches, fetched, sawCancel)
  {
    w, fetched, batches, sawCancel := start, first, [first.Keys], false;
    ghost var bases: seq<map<SlotKey, Word>> := seq(|input.requests|, _ => map[]);
    var round := 0;
    ObserveNothing(shared.tracker, input.now);
    FirstBatch(input, first);
    while true
      invariant AtRound(input, w, fetched, bases, batches, round)
      invariant Booked(input, fetcher, first, fetched, batches, old(shared.tracker), shared.tracker)
      invariant Obeyed(cancelled, batches, fetched, false)
      decreases MAX_VALIDATION_ROUNDS - round
    {
      var stop := cancelled(3 + round);
      ghost var changed, asked := w.changed, batches;
      var step;
      step, w, fetched, batches := LoggedRound(input, fetcher, shared, stop, round, w, first, fetched, bases, batches,
                                               old(shared.tracker));
      RoundObeyed(cancelled, asked, batches, fetched, step.Exit? && step.verdict.ConfirmedStorage?);
      if step.Exit? {
        exit, sawCancel := Some(step.verdict), step.verdict.ConfirmedStorage?;
        return;
      }
      if step.Settled? {
        exit := None;
        return;
      }
      bases := seq(|input.requests|, _ => changed);
      round := round + 1;
    }
  }

  lemma ExitJustified(input: ValidatorInput, fetcher: BatchFetcher, round: nat, cancelled: bool, asked: set<SlotKey>,
                      batches: seq<set<SlotKey>>, fetched: map<SlotKey, Word>, values: map<SlotKey, Word>,
                      v: Validation)
    requires input.fetcher == Some(fetcher) && Exits(input, fetcher, fetched, round, cancelled, asked, v)
    requires batches != [] && (asked != {} ==> |batches| == 2 + round && batches[|batches| - 1] == asked)
    requires v.Unverified? ==> values == map[]
    requires round >= MAX_VALIDATION_ROUNDS ==> |batches| == 1 + MAX_VALIDATION_ROUNDS
    ensures v.ConfirmedStorage? || (v.Unverified? && Justified(input, fetched + values, batches, v.reason))
  {
    if v.Unverified? {
      assert fetched + values == fetched;
    }
  }

  /** Why an unverified verdict was given, in terms of the run. */
  ghost predicate Justified(input: ValidatorInput, fetched: map<SlotKey, Word>, batches: seq<set<SlotKey>>,
                            reason: Reason) {
    match reason
    case BlockhashRead(i) => input.blockhashReaders != [] && i == input.blockhashReaders[0]
    case NoFetcher => input.fetcher.None? && input.blockhashReaders == []
    case FetchFailed => LastRefused(input, batches, reason)
    case SlotOmitted(k) => LastRefused(input, batches, reason)
    case RoundCapExceeded => |batches| == 1 + MAX_VALIDATION_ROUNDS && Unsettled(input, fetched)
    case _ => FailedRerun(input, Diff(input.snapshot, fetched), reason)
  }

  /** The answer to the last batch had to be rejected. */
  ghost predicate LastRefused(input: ValidatorInput, batches: seq<set<SlotKey>>, reason: Reason) {
    input.fetcher.Some? && batches != [] && Refused(input.fetcher.value, |batches| - 1, batches[|batches| - 1], reason)
  }

  lemma FirstBatch(input: ValidatorInput, first: map<SlotKey, Word>)
    requires forall k :: k in first ==> Live(input, k)
    ensures FetchedOnce(input, [first.Keys], first) && AllAccepted([first.Keys], first)
    ensures first - first.Keys == map[]
  {
    forall k | k in first ensures exists b :: b in [first.Keys] && k in b {
      assert first.Keys in [first.Keys];
    }
  }

  lemma ObserveMore(tracker: Tracker, first: map<SlotKey, Word>, fetched: map<SlotKey, Word>,
                    values: map<SlotKey, Word>, now: nat)
    requires Submap(first, fetched) && values.Keys !! fetched.Keys
    ensures ObserveAll(ObserveAll(tracker, fetched - first.Keys, now), values, now)
         == ObserveAll(tracker, (fetched + values) - first.Keys, now)
    ensures Submap(first, fetched + values)
  {
    ObserveInTurn(tracker, fetched - first.Keys, values, now);
    assert (fetched - first.Keys) + values == (fetched + values) - first.Keys;
  }

  /** The changed set only grows. */
  lemma StillChanged(before: map<SlotKey, Word>, after: map<SlotKey, Word>)
    requires before != map[] && Submap(before, after)
    ensures after != map[]
  {
    var k :| k in before;
    assert k in after;
  }

  /** The first verification: nothing re-run yet, every result from the snapshot. */
  lemma StartsTraced(input: ValidatorInput, first: map<SlotKey, Word>, w: Work)
    requires Consistent(input) && input.blockhashReaders == []
    requires first.Keys == InitialVerify(input)
    requires w == Work(Diff(input.snapshot, first), input.optimistic, input.readSets, {}, first.Keys)
    ensures Progress(input, w, first, seq(|input.requests|, _ => map[]))
  {
    var bases: seq<map<SlotKey, Word>> := seq(|input.requests|, _ => map[]);
    forall i | 0 <= i < |input.requests|
      ensures TracedAt(input, first, w.changed, w.results[i], w.live[i], bases[i], i)
    {
      ReadsVerified(input, i);
    }
  }

  lemma ReadsVerified(input: ValidatorInput, i: nat)
    requires Consistent(input) && i < |input.requests| && i !in input.blockhashReaders
    ensures RanUnder(input, i, map[], input.optimistic[i], input.readSets[i])
    ensures input.readSets[i] <= InitialVerify(input)
  {
    assert input.readSets[i] in input.readSets;
    assert forall k :: k in input.readSets[i] ==> Live(input, k);
  }

  /** When no verified slot differs, the optimistic results stand. */
  lemma NothingChanged(input: ValidatorInput, first: map<SlotKey, Word>)
    requires Consistent(input) && input.blockhashReaders == []
    requires first.Keys == InitialVerify(input) && Diff(input.snapshot, first) == map[]
    ensures Trustworthy(input, first, input.optimistic)
  {
    forall i | 0 <= i < |input.requests|
      ensures RanUnder(input, i, Diff(input.snapshot, first), input.optimistic[i], input.readSets[i])
    {
      ReadsVerified(input, i);
    }
    forall i | 0 <= i < |input.requests| ensures input.readSets[i] <= first.Keys {
      ReadsVerified(input, i);
    }
    Settle(input, first, input.optimistic, input.readSets);
  }

  /** What an uncancelled, trusted verdict promises about the final results. */
  ghost predicate Accepted(input: ValidatorInput, fetched: map<SlotKey, Word>, v: Validation) {
    && InitialVerify(input) <= fetched.Keys
    && (forall k :: k in fetched ==> Live(input, k))
    && match v
       case ConfirmedStorage =>
         Trustworthy(input, fetched, input.optimistic) && Diff(input.snapshot, fetched) == map[]
       case Corrected(results, changes) =>
         && Trustworthy(input, fetched, results)
         && Diff(input.snapshot, fetched) != map[]
         && ListsChanges(changes, input.snapshot, Diff(input.snapshot, fetched))
       case _ => false
  }

  /** What a verdict does to the shared state: a correction queues exactly the
      changed slots and counts exactly the affected requests; nothing else does
      either.  Every fetched slot is observed exactly once. */
  ghost predicate Effects(input: ValidatorInput, fetched: map<SlotKey, Word>, v: Validation,
                          before: (Tracker, seq<SlotChange>, nat), after: (Tracker, seq<SlotChange>, nat))
    requires |input.readSets| == |input.requests|
  {
    && after.0 == ObserveAll(before.0, fetched, input.now)
    && (if v.Corrected? then
          after.1 == before.1 + v.changedSlots && after.2 == before.2 + |Affected(input, Diff(input.snapshot, fetched))|
        else after.1 == before.1 && after.2 == before.2)
  }

  /** The fetcher answers truthfully and agrees with the snapshot on every slot
      that is verified first. */
  ghost predicate Calm(input: ValidatorInput, truth: SlotKey -> Word) {
    && input.blockhashReaders == []
    && input.fetcher.Some? && AnswersBy(input.fetcher.value, truth)
    && forall k :: k in InitialVerify(input) ==> truth(k) == ValueIn(input.snapshot.storage, k)
  }

  lemma CalmConfirms(input: ValidatorInput, first: map<SlotKey, Word>, truth: SlotKey -> Word)
    requires first.Keys == InitialVerify(input) && Truthful(first, truth) && Calm(input, truth)
    ensures Diff(input.snapshot, first) == map[]
  {
  }

  /** The outcome of the first phase: an early verdict, or a first batch that
      found a change. */
  ghost predicate FirstOutcome(input: ValidatorInput, truth: SlotKey -> Word, early: Option<Validation>,
                               changed: map<SlotKey, Word>,
                               first: map<SlotKey, Word>, batches: seq<set<SlotKey>>, sawCancel: bool) {
    && (forall k :: k in first ==> Live(input, k))
    && FetchedOnce(input, batches, first)
    && AllSourced(input, batches, first)
    && match early
       case None => !sawCancel && batches == [first.Keys] && Continues(input, changed, first) && !Calm(input, truth)
       case Some(v) =>
         if v.ConfirmedStorage? then sawCancel || (CanValidate(input) && Accepted(input, first, ConfirmedStorage))
         else !sawCancel && v.Unverified? && Justified(input, first, batches, v.reason) && !Calm(input, truth)
  }

  /** Neither of the two reasons not even to start. */
  predicate CanValidate(input: ValidatorInput) {
    input.blockhashReaders == [] && input.fetcher.Some?
  }

  /** Everything fetched came from the fetcher. */
  ghost predicate AllSourced(input: ValidatorInput, batches: seq<set<SlotKey>>, fetched: map<SlotKey, Word>) {
    if input.fetcher.Some? then Sourced(input.fetcher.value, batches, fetched) else fetched == map[]
  }

  ghost predicate Continues(input: ValidatorInput, changed: map<SlotKey, Word>, first: map<SlotKey, Word>) {
    && input.fetcher.Some? && input.blockhashReaders == []
    && first.Keys == InitialVerify(input)
    && changed == Diff(input.snapshot, first) != map[]
  }

  lemma NothingFetched(input: ValidatorInput)
    ensures FetchedOnce(input, [], map[])
    ensures forall k :: k in InitialVerify(input) ==> Live(input, k)
    ensures FetchedOnce(input, [InitialVerify(input)], map[])
  {
  }

  /** The first fetch and comparison. */
  method FirstFetch(input: ValidatorInput, shared: Shared, cancelled: bool, verify: set<SlotKey>,
                    ghost truth: SlotKey -> Word)
    returns (early: Option<Validation>, changed: map<SlotKey, Word>, ghost first: map<SlotKey, Word>,
             ghost sawCancel: bool)
    requires Consistent(input) && input.blockhashReaders == [] && input.fetcher.Some? && verify == InitialVerify(input)
    modifies shared`tracker
    ensures shared.tracker == ObserveAll(old(shared.tracker), first, input.now)
    ensures FirstOutcome(input, truth, early, changed, first, [verify], sawCancel)
    ensures sawCancel ==> cancelled
    ensures cancelled ==> first == map[] && early.Some?
  {
    early, changed, first, sawCancel := None, map[], map[], false;
    ObserveNothing(shared.tracker, input.now);
    NothingFetched(input);
    var batch, r := FetchBatch(input.fetcher.value, 0, verify);
    if r.Err? {
      early := Some(Unverified(r.error));
      return;
    }
    if cancelled {
      early, sawCancel := Some(ConfirmedStorage), true;
      return;
    }
    early, changed, first := CompareFirst(input, shared, verify, batch, r.value, truth);
  }

  /** The first comparison, once the batch has been accepted. */
  method CompareFirst(input: ValidatorInput, shared: Shared, verify: set<SlotKey>, batch: seq<SlotKey>,
                      answer: map<SlotKey, Word>, ghost truth: SlotKey -> Word)
    returns (early: Option<Validation>, changed: map<SlotKey, Word>, ghost first: map<SlotKey, Word>)
    requires Consistent(input) && input.blockhashReaders == [] && input.fetcher.Some? && verify == InitialVerify(input)
    requires Enumerates(batch, verify) && verify <= answer.Keys
    requires forall k :: k in verify ==> Answered(input.fetcher.value, 0, verify, k, answer[k])
    modifies shared`tracker
    ensures shared.tracker == ObserveAll(old(shared.tracker), first, input.now)
    ensures FirstOutcome(input, truth, early, changed, first, [verify], false)
  {
    first := Restrict(answer, verify);
    assert first.Keys == verify;
    var grew, tracker;
    changed, tracker, grew := DiffAndObserve(batch, verify, answer, input.snapshot, map[], shared.tracker, input.now);
    shared.tracker := tracker;
    assert changed == Diff(input.snapshot, first);
    FirstSourced(input.fetcher.value, verify, first);
    FirstSettled(input, truth, first, changed);
    early := if changed == map[] then Some(ConfirmedStorage) else None;
  }

  lemma FirstSourced(fetcher: BatchFetcher, verify: set<SlotKey>, first: map<SlotKey, Word>)
    requires forall k :: k in first ==> Answered(fetcher, 0, verify, k, first[k])
    ensures Sourced(fetcher, [verify], first)
  {
    forall k | k in first ensures SourcedAt(fetcher, [verify], first, k) {
      assert [verify][0] == verify;
    }
  }

  lemma FirstSettled(input: ValidatorInput, truth: SlotKey -> Word, first: map<SlotKey, Word>,
                     changed: map<SlotKey, Word>)
    requires Consistent(input) && input.blockhashReaders == [] && input.fetcher.Some?
    requires first.Keys == InitialVerify(input) && changed == Diff(input.snapshot, first)
    requires Sourced(input.fetcher.value, [first.Keys], first)
    ensures FirstOutcome(input, truth, if changed == map[] then Some(ConfirmedStorage) else None, changed, first,
                         [InitialVerify(input)], false)
  {
    FirstBatch(input, first);
    if changed == map[] {
      NothingChanged(input, first);
    } else if Calm(input, truth) {
      SourcedIsTrue(input.fetcher.value, [first.Keys], first, truth);
      CalmConfirms(input, first, truth);
    }
  }

  /** The first phase, up to the first comparison. */
  method FirstPass(input: ValidatorInput, shared: Shared, cancelled: nat -> bool, ghost truth: SlotKey -> Word)
    returns (early: Option<Validation>, changed: map<SlotKey, Word>, ghost first: map<SlotKey, Word>,
             ghost batches: seq<set<SlotKey>>, ghost sawCancel: bool)
    requires Consistent(input)
    modifies shared`tracker
    ensures shared.tracker == ObserveAll(old(shared.tracker), first, input.now)
    ensures FirstOutcome(input, truth, early, changed, first, batches, sawCancel)
    ensures Obeyed(cancelled, batches, first, sawCancel) && (early.None? ==> !cancelled(2))
  {
    early, changed, first, batches, sawCancel := None, map[], map[], [], false;
    ObserveNothing(shared.tracker, input.now);
    NothingFetched(input);
    if cancelled(0) {
      early, sawCancel := Some(ConfirmedStorage), true;
      return;
    }
    if input.blockhashReaders != [] {
      early := Some(Unverified(BlockhashRead(input.blockhashReaders[0])));
      return;
    }
    if input.fetcher.None? {
      early := Some(Unverified(NoFetcher));
      return;
    }
    var verify := InitialVerify(input);
    if verify == {} {
      NothingChanged(input, map[]);
      early := Some(ConfirmedStorage);
      return;
    }
    if cancelled(1) {
      early, sawCancel := Some(ConfirmedStorage), true;
      return;
    }
    batches := [verify];
    early, changed, first, sawCancel := FirstFetch(input, shared, cancelled(2), verify, truth);
  }

  lemma StartRound(input: ValidatorInput, first: map<SlotKey, Word>, w: Work)
    requires Consistent(input) && Continues(input, w.changed, first)
    requires w == Work(w.changed, input.optimistic, input.readSets, {}, first.Keys)
    ensures AtRound(input, w, first, seq(|input.requests|, _ => map[]), [first.Keys], 0)
  {
    StartsTraced(input, first, w);
    FirstBatch(input, first);
  }

  /** A correction: results that can be trusted, and exactly what changed. */
  ghost predicate Corrects(input: ValidatorInput, fetched: map<SlotKey, Word>, v: Validation) {
    && v.Corrected?
    && Trustworthy(input, fetched, v.results)
    && Diff(input.snapshot, fetched) != map[]
    && ListsChanges(v.changedSlots, input.snapshot, Diff(input.snapshot, fetched))
  }

  /** The outcome of the second phase: a correction that is queued and counted,
      or no correction and no effect. */
  ghost predicate SecondOutcome(input: ValidatorInput, fetched: map<SlotKey, Word>, batches: seq<set<SlotKey>>,
                                v: Validation, sawCancel: bool,
                                pending0: seq<SlotChange>, count0: nat, pending: seq<SlotChange>, count: nat)
    requires |input.readSets| == |input.requests|
  {
    if v.Corrected? then
      && Corrects(input, fetched, v) && !sawCancel
      && pending == pending0 + v.changedSlots && count == count0 + |Affected(input, Diff(input.snapshot, fetched))|
    else GaveUp(input, fetched, batches, v, sawCancel) && pending == pending0 && count == count0
  }

  /** The end of the second phase. */
  method Conclude(input: ValidatorInput, shared: Shared, exit: Option<Validation>, w: Work,
                  ghost fetched: map<SlotKey, Word>, ghost batches: seq<set<SlotKey>>, ghost sawCancel: bool)
    returns (verdict: Validation)
    requires |input.readSets| == |input.requests|
    requires exit.None? ==> Final(input, w, fetched) && w.changed != map[] && !sawCancel
    requires exit.Some? ==> GaveUp(input, fetched, batches, exit.value, sawCancel)
    modifies shared`pending, shared`rerunCount
    ensures exit.Some? ==> verdict == exit.value
    ensures SecondOutcome(input, fetched, batches, verdict, sawCancel,
                          old(shared.pending), old(shared.rerunCount), shared.pending, shared.rerunCount)
  {
    if exit.Some? {
      verdict := exit.value;
    } else {
      verdict := Publish(input, shared, w, fetched, batches);
    }
  }

  /** Count the re-runs, queue the corrections, and report them. */
  method Publish(input: ValidatorInput, shared: Shared, w: Work, ghost fetched: map<SlotKey, Word>,
                 ghost batches: seq<set<SlotKey>>)
    returns (verdict: Validation)
    requires Final(input, w, fetched) && w.changed != map[]
    modifies shared`pending, shared`rerunCount
    ensures verdict.Corrected?
    ensures SecondOutcome(input, fetched, batches, verdict, false,
                          old(shared.pending), old(shared.rerunCount), shared.pending, shared.rerunCount)
  {
    shared.rerunCount := shared.rerunCount + |w.rerun|;
    var changes := ListChanges(w.changed, input.snapshot);
    shared.pending := shared.pending + changes;
    verdict := Corrected(w.results, changes);
  }

  /** Everything a run of the validator promises. */
  ghost predicate Contract(input: ValidatorInput, truth: SlotKey -> Word, cancelled: nat -> bool, v: Validation,
                           fetched: map<SlotKey, Word>,
                           batches: seq<set<SlotKey>>, sawCancel: bool,
                           before: (Tracker, seq<SlotChange>, nat), after: (Tracker, seq<SlotChange>, nat))
    requires |input.readSets| == |input.requests|
  {
    // A verdict that no cancellation cut short can be trusted, or says why not.
    && (!sawCancel && !v.Unverified? ==> CanValidate(input) && Accepted(input, fetched, v))
    && (v.Unverified? ==> Justified(input, fetched, batches, v.reason))
    && (sawCancel ==> v.ConfirmedStorage?)
    && Obeyed(cancelled, batches, fetched, sawCancel)
    // Few, disjoint batches of live slots; each slot fetched and observed once.
    && FetchedOnce(input, batches, fetched)
    && Effects(input, fetched, v, before, after)
    // Every fetched value is one the fetcher gave, an honest fetcher's are the
    // truth, and a complete answer that agrees with the snapshot confirms.
    && AllSourced(input, batches, fetched)
    && (input.fetcher.Some? && Honest(input.fetcher.value, truth) ==> Truthful(fetched, truth))
    && (Calm(input, truth) ==> v.ConfirmedStorage?)
  }

  lemma EarlyVerdict(input: ValidatorInput, truth: SlotKey -> Word, cancelled: nat -> bool, v: Validation,
                     changed: map<SlotKey, Word>, first: map<SlotKey, Word>,
                     batches: seq<set<SlotKey>>, sawCancel: bool, tracker: Tracker, pending: seq<SlotChange>,
                     count: nat)
    requires |input.readSets| == |input.requests|
    requires FirstOutcome(input, truth, Some(v), changed, first, batches, sawCancel)
    requires Obeyed(cancelled, batches, first, sawCancel)
    ensures Contract(input, truth, cancelled, v, first, batches, sawCancel, (tracker, pending, count),
                     (ObserveAll(tracker, first, input.now), pending, count))
  {
    AllTrue(input, truth, batches, first);
  }

  lemma AllTrue(input: ValidatorInput, truth: SlotKey -> Word, batches: seq<set<SlotKey>>, fetched: map<SlotKey, Word>)
    requires AllSourced(input, batches, fetched)
    ensures input.fetcher.Some? && Honest(input.fetcher.value, truth) ==> Truthful(fetched, truth)
  {
    if input.fetcher.Some? && Honest(input.fetcher.value, truth) {
      SourcedIsTrue(input.fetcher.value, batches, fetched, truth);
    }
  }

  lemma LateVerdict(input: ValidatorInput, truth: SlotKey -> Word, cancelled: nat -> bool, v: Validation,
                    changed: map<SlotKey, Word>, first: map<SlotKey, Word>,
                    fetched: map<SlotKey, Word>, batches: seq<set<SlotKey>>, sawCancel: bool,
                    before: (Tracker, seq<SlotChange>, nat), after: (Tracker, seq<SlotChange>, nat))
    requires |input.readSets| == |input.requests|
    requires Continues(input, changed, first) && !Calm(input, truth)
    requires Booked(input, input.fetcher.value, first, fetched, batches, ObserveAll(before.0, first, input.now),
                    after.0)
    requires SecondOutcome(input, fetched, batches, v, sawCancel, before.1, before.2, after.1, after.2)
    requires (sawCancel ==> v.ConfirmedStorage?) && Obeyed(cancelled, batches, fetched, sawCancel)
    ensures Contract(input, truth, cancelled, v, fetched, batches, sawCancel, before, after)
  {
    ObserveBoth(before.0, first, fetched, input.now);
    AllTrue(input, truth, batches, fetched);
    if v.Corrected? {
      CorrectionAccepted(input, first, fetched, batches, v);
    }
  }

  /** There is a set of fetched values, and a log of batches, that make the
      verdict and the new shared state what they are. */
  ghost predicate Lawful(input: ValidatorInput, truth: SlotKey -> Word, cancelled: nat -> bool, v: Validation,
                         before: (Tracker, seq<SlotChange>, nat), after: (Tracker, seq<SlotChange>, nat))
    requires |input.readSets| == |input.requests|
  {
    exists fetched, batches, sawCancel :: Contract(input, truth, cancelled, v, fetched, batches, sawCancel, before,
                                                   after)
  }

  /** `run_validator`.  `truth` is any function the fetcher may be answering by. */
  method RunValidator(input: ValidatorInput, shared: Shared, cancelled: nat -> bool, ghost truth: SlotKey -> Word)
    returns (verdict: Validation)
    requires Consistent(input)
    modifies shared
    ensures Lawful(input, truth, cancelled, verdict,
                   old((shared.tracker, shared.pending, shared.rerunCount)), (shared.tracker, shared.pending,
                                                                              shared.rerunCount))
  {
    var early, changed;
    ghost var first, batches, sawCancel;
    early, changed, first, batches, sawCancel := FirstPass(input, shared, cancelled, truth);
    if early.Some? {
      verdict := early.value;
      EarlyVerdict(input, truth, cancelled, verdict, changed, first, batches, sawCancel, old(shared.tracker),
                   shared.pending, shared.rerunCount);
    } else {
      var start := Work(changed, input.optimistic, input.readSets, {}, InitialVerify(input));
      StartRound(input, first, start);
      var exit, w;
      ghost var fetched;
      exit, w, fetched, batches, sawCancel := FixedPoint(input, input.fetcher.value, shared, cancelled, start, first);
      verdict := Conclude(input, shared, exit, w, fetched, batches, sawCancel);
      LateVerdict(input, truth, cancelled, verdict, changed, first, fetched, batches, sawCancel,
                  old((shared.tracker, shared.pending, shared.rerunCount)), (shared.tracker, shared.pending,
                                                                             shared.rerunCount));
    }
  }

  lemma CorrectionAccepted(input: ValidatorInput, first: map<SlotKey, Word>, fetched: map<SlotKey, Word>,
                           batches: seq<set<SlotKey>>, v: Validation)
    requires Corrects(input, fetched, v) && first.Keys == InitialVerify(input) && Submap(first, fetched)
    requires FetchedOnce(input, batches, fetched)
    ensures Accepted(input, fetched, v)
  {
  }

  lemma ObserveBoth(tracker: Tracker, first: map<SlotKey, Word>, fetched: map<SlotKey, Word>, now: nat)
    requires Submap(first, fetched)
    ensures ObserveAll(ObserveAll(tracker, first, now), fetched - first.Keys, now) == ObserveAll(tracker, fetched, now)
  {
    ObserveInTurn(tracker, first, fetched - first.Keys, now);
    assert first + (fetched - first.Keys) == fetched;
  }

  // ----- When a change must be answered -----

  /** The only ways out for a run whose fetches all succeed: a re-run that cannot
      execute or reads an unknown block hash on the state verified so far, or the
      round cap with a live read still unverified. */
  ghost predicate Stuck(input: ValidatorInput, fetched: map<SlotKey, Word>, batches: seq<set<SlotKey>>,
                        reason: Reason) {
    || FailedRerun(input, Diff(input.snapshot, fetched), reason)
    || (reason.RoundCapExceeded? && |batches| == 1 + MAX_VALIDATION_ROUNDS && Unsettled(input, fetched))
  }

  lemma NeverRefused(input: ValidatorInput, fetched: map<SlotKey, Word>, batches: seq<set<SlotKey>>, reason: Reason)
    requires input.fetcher.Some? && Complete(input.fetcher.value) && input.blockhashReaders == []
    requires Justified(input, fetched, batches, reason)
    ensures Stuck(input, fetched, batches, reason)
  {
    if LastRefused(input, batches, reason) {
      var t: nat, fetcher := |batches| - 1, input.fetcher.value;
      var q :| Enumerates(q, batches[t]) && Rejected(q, Collected(fetcher(t, q)), reason);
      CompleteBatch(q, fetcher, t);
    }
  }

  /** Stuck on true values. */
  ghost predicate ReallyStuck(input: ValidatorInput, truth: SlotKey -> Word, reason: Reason) {
    exists fetched, batches :: Truthful(fetched, truth) && Stuck(input, fetched, batches, reason)
  }

  /** Some slot that is verified first has changed. */
  ghost predicate Stirred(input: ValidatorInput, truth: SlotKey -> Word) {
    exists k :: k in InitialVerify(input) && truth(k) != ValueIn(input.snapshot.storage, k)
  }

  /** Completeness: an uncancelled run over a fetcher that answers everything, with
      no block-hash reader and a changed slot among those verified first, returns
      `Corrected` unless it is really stuck; without a change it confirms. */
  lemma ChangeIsAnswered(input: ValidatorInput, truth: SlotKey -> Word, cancelled: nat -> bool, v: Validation,
                         before: (Tracker, seq<SlotChange>, nat), after: (Tracker, seq<SlotChange>, nat))
    requires |input.readSets| == |input.requests| && Lawful(input, truth, cancelled, v, before, after)
    requires input.fetcher.Some? && AnswersBy(input.fetcher.value, truth) && input.blockhashReaders == []
    requires forall n :: !cancelled(n)
    ensures Stirred(input, truth) ==>
              v.Corrected? || (v.Unverified? && ReallyStuck(input, truth, v.reason))
    ensures !Stirred(input, truth) ==> v.ConfirmedStorage?
  {
    var fetched, batches, sawCancel :| Contract(input, truth, cancelled, v, fetched, batches, sawCancel, before, after);
    if v.Unverified? {
      NeverRefused(input, fetched, batches, v.reason);
    } else if Stirred(input, truth) {
      var k :| k in InitialVerify(input) && truth(k) != ValueIn(input.snapshot.storage, k);
      assert k in Diff(input.snapshot, fetched);
    }
    if !Stirred(input, truth) {
      assert Calm(input, truth);
    }
  }
}
