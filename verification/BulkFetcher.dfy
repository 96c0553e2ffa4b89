/**
 The synchronous bulk fetcher of `src/bulk_storage.rs` (`make_fetcher`): bulk
 attempt, latch bookkeeping, and repair of failed pairs through a fallback.
 */
module BulkFetcher {
  import opened Words
  import opened BulkPlan
  import opened BulkCalls
  import opened IdealNode
  import opened BulkFetch

  /** Consecutive all-failed batches after which bulk extraction is abandoned. */
  const OVERRIDE_FAILURE_LATCH: nat := 2

  /** A batch fetcher; the ordinal lets equal batches be answered differently. */
  type Fallback = (nat, seq<SlotKey>) -> seq<SlotResult>

  /** One result per requested pair, with multiplicity. */
  ghost predicate OnePerRequest(f: Fallback) {
    forall t, keys :: multiset(KeysOf(f(t, keys))) == multiset(keys)
  }

  /** Answers with the values in storage. */
  ghost predicate Exact(f: Fallback, chain: Chain) {
    forall t, keys :: multiset(f(t, keys)) == multiset(PointReads(chain, keys))
  }

  predicate HasSuccess(rs: seq<SlotResult>) {
    exists i :: 0 <= i < |rs| && rs[i].result.Ok?
  }

  predicate HasProviderError(rs: seq<SlotResult>) {
    exists i :: 0 <= i < |rs| && rs[i].result == Err(StorageFetchError.Provider)
  }

  /** A batch that counts toward the latch. */
  predicate Strike(rs: seq<SlotResult>) {
    !HasSuccess(rs) && HasProviderError(rs)
  }

  /** The failure counter after a bulk attempt that returned `rs`. */
  function CounterAfter(counter: nat, rs: seq<SlotResult>): nat {
    if HasSuccess(rs) then 0 else if HasProviderError(rs) then counter + 1 else counter
  }

  function Succeeded(rs: seq<SlotResult>): seq<SlotResult> {
    if rs == [] then []
    else Succeeded(rs[..|rs| - 1]) + (if rs[|rs| - 1].result.Ok? then [rs[|rs| - 1]] else [])
  }

  function FailedKeys(rs: seq<SlotResult>): seq<SlotKey> {
    if rs == [] then []
    else
      var r := rs[|rs| - 1];
      FailedKeys(rs[..|rs| - 1]) + (if r.result.Ok? then [] else [SlotKey(r.address, r.slot)])
  }

  lemma {:induction false} RepairConserves(rs: seq<SlotResult>)
    ensures multiset(KeysOf(Succeeded(rs))) + multiset(FailedKeys(rs)) == multiset(KeysOf(rs))
  {
    if rs == [] {
    } else {
      var front, r := rs[..|rs| - 1], rs[|rs| - 1];
      var key := SlotKey(r.address, r.slot);
      RepairConserves(front);
      SplitLast([], rs);
      KeysOfConcat(front, [r]);
      assert KeysOf([r]) == [key];
      if r.result.Ok? {
        KeysOfConcat(Succeeded(front), [r]);
        assert FailedKeys(rs) == FailedKeys(front);
        SwapBags(multiset(KeysOf(Succeeded(front))), multiset{key}, multiset(FailedKeys(front)));
      } else {
        assert Succeeded(rs) == Succeeded(front);
        AssociateBags(multiset(KeysOf(Succeeded(front))), multiset(FailedKeys(front)), multiset{key});
      }
    }
  }

  /** The indices below `n` of one kind, each once and in order. */
  ghost predicate Picks(indices: seq<nat>, rs: seq<SlotResult>, ok: bool) {
    && (forall i, j :: 0 <= i < j < |indices| ==> indices[i] < indices[j])
    && (forall i :: i in indices <==> 0 <= i < |rs| && rs[i].result.Ok? == ok)
  }

  lemma PickNext(indices: seq<nat>, rs: seq<SlotResult>, r: SlotResult, ok: bool)
    requires Picks(indices, rs, ok)
    ensures Picks(if r.result.Ok? == ok then indices + [|rs|] else indices, rs + [r], ok)
  {
    var longer := if r.result.Ok? == ok then indices + [|rs|] else indices;
    forall i | 0 <= i < |indices| ensures indices[i] < |rs| {
      assert indices[i] in indices;
    }
    assert forall i :: i in longer <==> i in indices || (r.result.Ok? == ok && i == |rs|);
  }

  /** Repair keeps every success, each once and in order. */
  lemma {:induction false} SuccessesKept(rs: seq<SlotResult>) returns (good: seq<nat>)
    ensures Picks(good, rs, true) && |Succeeded(rs)| == |good|
    ensures forall j :: 0 <= j < |good| ==> good[j] < |rs| && Succeeded(rs)[j] == rs[good[j]]
  {
    if rs == [] {
      good := [];
    } else {
      var n := |rs| - 1;
      good := SuccessesKept(rs[..n]);
      SplitLast([], rs);
      PickNext(good, rs[..n], rs[n], true);
      good := if rs[n].result.Ok? then good + [n] else good;
    }
  }

  /** It sends exactly the failed pairs to the fallback, each once and in order: no
      successful pair is asked for again. */
  lemma {:induction false} FailuresSent(rs: seq<SlotResult>) returns (bad: seq<nat>)
    ensures Picks(bad, rs, false) && |FailedKeys(rs)| == |bad|
    ensures forall j :: 0 <= j < |bad| ==>
              bad[j] < |rs| && FailedKeys(rs)[j] == SlotKey(rs[bad[j]].address, rs[bad[j]].slot)
  {
    if rs == [] {
      bad := [];
    } else {
      var n := |rs| - 1;
      bad := FailuresSent(rs[..n]);
      SplitLast([], rs);
      PickNext(bad, rs[..n], rs[n], false);
      bad := if rs[n].result.Ok? then bad else bad + [n];
    }
  }

  lemma {:induction false} SucceededIn(rs: seq<SlotResult>)
    ensures forall r :: r in Succeeded(rs) ==> r in rs
  {
    if rs == [] {
    } else {
      SucceededIn(rs[..|rs| - 1]);
    }
  }

  /** Repairing true results with an exact fallback leaves true results. */
  lemma RepairTrue(chain: Chain, bulk: seq<SlotResult>, fallback: Fallback, at: nat)
    requires TrueValues(chain, bulk) && Exact(fallback, chain)
    ensures TrueValues(chain, Repaired(bulk, fallback, at))
  {
    SucceededIn(bulk);
    ExactTrue(chain, fallback, at, FailedKeys(bulk));
  }

  /** True off the precompiles, and the point reads when no request is at one. */
  ghost predicate Genuine(chain: Chain, requests: seq<SlotKey>, rs: seq<SlotResult>) {
    && TrueValues(chain, rs)
    && (OffPrecompiles(chain, requests) ==> multiset(rs) == multiset(PointReads(chain, requests)))
  }

  lemma TrueIsGenuine(chain: Chain, requests: seq<SlotKey>, rs: seq<SlotResult>)
    requires TrueValues(chain, rs) && multiset(KeysOf(rs)) == multiset(requests)
    ensures Genuine(chain, requests, rs)
  {
    if OffPrecompiles(chain, requests) {
      TrueIsPointReads(chain, rs, requests);
    }
  }

  lemma ExactGenuine(chain: Chain, fallback: Fallback, at: nat, requests: seq<SlotKey>)
    requires Exact(fallback, chain)
    ensures Genuine(chain, requests, fallback(at, requests))
  {
    ExactTrue(chain, fallback, at, requests);
    ExactCounts(chain, fallback);
    TrueIsGenuine(chain, requests, fallback(at, requests));
  }

  lemma RepairGenuine(chain: Chain, bulk: seq<SlotResult>, fallback: Fallback, at: nat, requests: seq<SlotKey>)
    requires TrueValues(chain, bulk) && multiset(KeysOf(bulk)) == multiset(requests) && Exact(fallback, chain)
    ensures Genuine(chain, requests, Repaired(bulk, fallback, at))
  {
    RepairTrue(chain, bulk, fallback, at);
    ExactCounts(chain, fallback);
    RepairCounts(bulk, fallback, at, requests);
    TrueIsGenuine(chain, requests, Repaired(bulk, fallback, at));
  }

  lemma ExactTrue(chain: Chain, fallback: Fallback, at: nat, keys: seq<SlotKey>)
    requires Exact(fallback, chain)
    ensures TrueValues(chain, fallback(at, keys))
  {
    PointReadsTrue(chain, keys);
    forall r | r in fallback(at, keys) ensures r in PointReads(chain, keys) {
      assert r in multiset(fallback(at, keys));
      assert r in multiset(PointReads(chain, keys));
    }
  }

  /** An exact fallback returns one result per request. */
  lemma ExactCounts(chain: Chain, fallback: Fallback)
    requires Exact(fallback, chain)
    ensures OnePerRequest(fallback)
  {
    forall t, keys ensures multiset(KeysOf(fallback(t, keys))) == multiset(keys) {
      KeysPermute(fallback(t, keys), PointReads(chain, keys));
      assert KeysOf(PointReads(chain, keys)) == keys;
    }
  }

  lemma {:induction false} KeysPermute(a: seq<SlotResult>, b: seq<SlotResult>)
    requires multiset(a) == multiset(b)
    ensures multiset(KeysOf(a)) == multiset(KeysOf(b))
    decreases |a|
  {
    if a == [] {
      assert |multiset(b)| == |b| == 0;
    } else {
      var n := |a| - 1;
      var front, k := a[..n], a[n];
      SplitLast([], a);
      assert k in multiset(a);
      var j :| 0 <= j < |b| && b[j] == k;
      var left, right := b[..j], b[j + 1..];
      assert b == left + [k] + right;
      RemoveOne(front, k, left, right);
      KeysPermute(front, left + right);
      KeysOfConcat(front, [k]);
      KeysOfConcat(left, right);
      KeysOfConcat(left + [k], right);
      KeysOfConcat(left, [k]);
      InsertOne(KeysOf(left), KeysOf([k]), KeysOf(right));
    }
  }

  /** What one call of the fetcher did. */
  datatype Attempt =
    | Nothing
    | FallbackOnly
    | Bulk(results: seq<SlotResult>)

  /** The errors of a batch that could not even be attempted. */
  function GuardErrors(requests: seq<SlotKey>): (rs: seq<SlotResult>)
    ensures KeysOf(rs) == requests
    ensures forall i :: 0 <= i < |rs| ==> rs[i].result == Err(Runtime)
  {
    var rs := seq(|requests|, i requires 0 <= i < |requests| =>
      SlotResult(requests[i].address, requests[i].slot, Err(Runtime)));
    rs
  }

  datatype Batch = Batch(requests: seq<SlotKey>, block: BlockId, runtime: bool)

  /** What a bulk attempt on `b` can have returned: one result per request, and
      each accounted for by the node's answers, or by the missing runtime. */
  ghost predicate Attempts(f: Fetcher, b: Batch, rs: seq<SlotResult>) {
    && multiset(KeysOf(rs)) == multiset(b.requests)
    && (if b.runtime then Reported(f.node, f.abi, ExtractorCode(f.config), Normalized(f.config), rs)
        else rs == GuardErrors(b.requests))
  }

  class Fetcher {
    const config: BulkCallConfig
    const node: Node
    const abi: Abi
    const fallback: Option<Fallback>
    var consecutiveFailures: nat

    constructor (node: Node, config: BulkCallConfig, abi: Abi, fallback: Option<Fallback>)
      ensures this.node == node && this.config == Normalized(config) && this.abi == abi && this.fallback == fallback
      ensures consecutiveFailures == 0
    {
      this.node, this.config, this.abi, this.fallback := node, Normalized(config), abi, fallback;
      consecutiveFailures := 0;
    }

    /** `BulkFetcherStatus::fallback_latched`. */
    predicate Latched()
      reads this
    {
      consecutiveFailures >= OVERRIDE_FAILURE_LATCH
    }

    /** Whether a batch of `n` pairs goes straight to the fallback. */
    predicate RoutesToFallback(n: nat)
      reads this
    {
      fallback.Some? && (n < config.pointReadThreshold || Latched())
    }

    /** The fetcher closure.  `at` is the ordinal of this call, and `runtime`
        says whether the asynchronous core can be entered at all. */
    method Fetch(requests: seq<SlotKey>, block: BlockId, at: nat, runtime: bool, ghost chain: Chain)
      returns (out: seq<SlotResult>, ghost attempt: Attempt)
      modifies this`consecutiveFailures
      ensures attempt.Nothing? <==> requests == []
      ensures attempt.FallbackOnly? <==> requests != [] && old(RoutesToFallback(|requests|))
      ensures attempt.Bulk? ==> Attempts(this, Batch(requests, block, runtime), attempt.results)
      ensures attempt.Nothing? ==> out == []
      ensures consecutiveFailures == (if attempt.Bulk? && fallback.Some?
                                      then CounterAfter(old(consecutiveFailures), attempt.results)
                                      else old(consecutiveFailures))
      ensures attempt.Bulk? && fallback.None? ==> out == attempt.results
      ensures attempt.Bulk? && fallback.Some? ==> out == Repaired(attempt.results, fallback.value, at)
      ensures attempt.FallbackOnly? ==> out == fallback.value(at, requests)
      ensures (fallback.Some? ==> OnePerRequest(fallback.value)) ==> multiset(KeysOf(out)) == multiset(requests)
      ensures Ideal(node, chain, abi) && (if fallback.Some? then Exact(fallback.value, chain) else runtime) ==>
                Genuine(chain, requests, out)
    {
      if requests == [] {
        out, attempt := [], Nothing;
        return;
      }
      if fallback.Some? && (|requests| < config.pointReadThreshold || consecutiveFailures >= OVERRIDE_FAILURE_LATCH) {
        out, attempt := fallback.value(at, requests), FallbackOnly;
        if Exact(fallback.value, chain) {
          ExactGenuine(chain, fallback.value, at, requests);
        }
        return;
      }
      var bulk := GuardErrors(requests);
      if runtime {
        bulk := FetchSlotsBulk(node, requests, block, config, abi, chain);
      }
      attempt := Bulk(bulk);
      if fallback.None? {
        out := bulk;
        return;
      }
      if HasSuccess(bulk) {
        consecutiveFailures := 0;
      } else if HasProviderError(bulk) {
        consecutiveFailures := consecutiveFailures + 1;
      }
      out := Repair(bulk, fallback.value, at);
      RepairCounts(bulk, fallback.value, at, requests);
      if Ideal(node, chain, abi) && Exact(fallback.value, chain) {
        if runtime {
          RepairGenuine(chain, bulk, fallback.value, at, requests);
        } else {
          GuardAllFail(requests);
          ExactGenuine(chain, fallback.value, at, requests);
        }
      }
    }
  }

  function Repaired(bulk: seq<SlotResult>, fallback: Fallback, at: nat): seq<SlotResult> {
    Succeeded(bulk) + (if FailedKeys(bulk) == [] then [] else fallback(at, FailedKeys(bulk)))
  }

  /** Repair of the failed pairs, with multiplicity. */
  method Repair(bulk: seq<SlotResult>, fallback: Fallback, at: nat) returns (repaired: seq<SlotResult>)
    ensures repaired == Repaired(bulk, fallback, at)
  {
    repaired := [];
    var failed: seq<SlotKey> := [];
    for i := 0 to |bulk|
      invariant repaired == Succeeded(bulk[..i])
      invariant failed == FailedKeys(bulk[..i])
    {
      assert bulk[..i + 1][..i] == bulk[..i];
      var r := bulk[i];
      if r.result.Ok? {
        repaired := repaired + [r];
      } else {
        failed := failed + [SlotKey(r.address, r.slot)];
      }
    }
    assert bulk[..|bulk|] == bulk;
    if failed != [] {
      repaired := repaired + fallback(at, failed);
    }
  }

  /** Repair keeps one result per request, given a fallback that does. */
  lemma RepairCounts(bulk: seq<SlotResult>, fallback: Fallback, at: nat, requests: seq<SlotKey>)
    requires multiset(KeysOf(bulk)) == multiset(requests)
    ensures OnePerRequest(fallback) ==> multiset(KeysOf(Repaired(bulk, fallback, at))) == multiset(requests)
  {
    RepairConserves(bulk);
    if FailedKeys(bulk) == [] {
      assert Repaired(bulk, fallback, at) == Succeeded(bulk);
    } else {
      KeysOfConcat(Succeeded(bulk), fallback(at, FailedKeys(bulk)));
    }
  }

  lemma GuardAllFail(requests: seq<SlotKey>)
    ensures Succeeded(GuardErrors(requests)) == [] && FailedKeys(GuardErrors(requests)) == requests
  {
    AllFail(GuardErrors(requests));
  }

  lemma {:induction false} AllFail(rs: seq<SlotResult>)
    requires !HasSuccess(rs)
    ensures Succeeded(rs) == [] && FailedKeys(rs) == KeysOf(rs)
  {
    if rs == [] {
    } else {
      var front, r := rs[..|rs| - 1], rs[|rs| - 1];
      AllFail(front);
      SplitLast([], rs);
      KeysOfConcat(front, [r]);
      assert KeysOf([r]) == [SlotKey(r.address, r.slot)];
    }
  }

  // ----- The latch over whole runs -----

  /** One call as the latch sees it: its size, and what a bulk attempt would
      return if it were made. */
  datatype Call = Call(size: nat, bulk: seq<SlotResult>)

  /** The fixed parameters of a fetcher. */
  datatype Setup = Setup(hasFallback: bool, pointReadThreshold: nat)

  /** Whether a call arriving at `counter` makes a bulk attempt. */
  predicate AttemptsBulk(s: Setup, counter: nat, call: Call) {
    && call.size > 0
    && !(s.hasFallback && (call.size < s.pointReadThreshold || counter >= OVERRIDE_FAILURE_LATCH))
  }

  /** The counter after a whole sequence of non-overlapping calls. */
  function Counter(s: Setup, calls: seq<Call>): nat {
    if calls == [] then 0
    else
      var before := Counter(s, calls[..|calls| - 1]);
      var call := calls[|calls| - 1];
      if AttemptsBulk(s, before, call) && s.hasFallback then CounterAfter(before, call.bulk) else before
  }

  /** Call `i` of the sequence made a bulk attempt. */
  predicate Attempted(s: Setup, calls: seq<Call>, i: nat)
    requires i < |calls|
  {
    AttemptsBulk(s, Counter(s, calls[..i]), calls[i])
  }

  predicate StrikeAt(s: Setup, calls: seq<Call>, i: nat)
    requires i < |calls|
  {
    Attempted(s, calls, i) && Strike(calls[i].bulk)
  }

  predicate SuccessAt(s: Setup, calls: seq<Call>, i: nat)
    requires i < |calls|
  {
    Attempted(s, calls, i) && HasSuccess(calls[i].bulk)
  }

  /** Two strikes with no successful attempt between them. */
  ghost predicate TwoStrikes(s: Setup, calls: seq<Call>, i: nat, j: nat)
    requires i < j < |calls|
  {
    && StrikeAt(s, calls, i) && StrikeAt(s, calls, j)
    && forall k :: i < k < j ==> !SuccessAt(s, calls, k)
  }

  lemma {:induction false} CounterBounds(s: Setup, calls: seq<Call>)
    ensures Counter(s, calls) <= OVERRIDE_FAILURE_LATCH
    ensures !s.hasFallback ==> Counter(s, calls) == 0
  {
    if calls == [] {
    } else {
      CounterBounds(s, calls[..|calls| - 1]);
    }
  }

  lemma CounterStep(s: Setup, calls: seq<Call>, n: nat)
    requires n < |calls|
    ensures Counter(s, calls[..n + 1])
         == (if Attempted(s, calls, n) && s.hasFallback then CounterAfter(Counter(s, calls[..n]), calls[n].bulk)
             else Counter(s, calls[..n]))
  {
    assert calls[..n + 1][..n] == calls[..n];
  }

  /** The latch is sticky: it stays set, and every later non-empty batch goes
      to the fallback alone. */
  lemma {:induction false} LatchSticky(s: Setup, calls: seq<Call>, n: nat, m: nat)
    requires n <= m <= |calls| && Counter(s, calls[..n]) == OVERRIDE_FAILURE_LATCH
    ensures Counter(s, calls[..m]) == OVERRIDE_FAILURE_LATCH
    ensures m < |calls| ==> !Attempted(s, calls, m)
    decreases m
  {
    CounterBounds(s, calls[..n]);
    if n == m {
    } else {
      LatchSticky(s, calls, n, m - 1);
      CounterStep(s, calls, m - 1);
    }
  }

  /** Between strikes nothing lowers the counter but a success. */
  lemma {:induction false} NoResetWithoutSuccess(s: Setup, calls: seq<Call>, n: nat, m: nat)
    requires n <= m <= |calls|
    requires forall k :: n <= k < m ==> !SuccessAt(s, calls, k)
    ensures Counter(s, calls[..n]) <= Counter(s, calls[..m])
    decreases m
  {
    if n == m {
    } else {
      NoResetWithoutSuccess(s, calls, n, m - 1);
      CounterStep(s, calls, m - 1);
      assert !SuccessAt(s, calls, m - 1);
    }
  }

  /** A counter of one has a strike behind it with no success since. */
  lemma {:induction false} OneStrike(s: Setup, calls: seq<Call>, n: nat) returns (i: nat)
    requires n <= |calls| && Counter(s, calls[..n]) == 1
    ensures i < n && StrikeAt(s, calls, i) && forall k :: i < k < n ==> !SuccessAt(s, calls, k)
    decreases n
  {
    CounterBounds(s, calls[..n]);
    CounterStep(s, calls, n - 1);
    if Counter(s, calls[..n - 1]) == 1 {
      i := OneStrike(s, calls, n - 1);
    } else {
      CounterBounds(s, calls[..n - 1]);
      i := n - 1;
    }
  }

  /** What latches it: exactly two strikes with no successful attempt between. */
  lemma {:induction false} LatchedOnlyByStrikes(s: Setup, calls: seq<Call>, n: nat) returns (i: nat, j: nat)
    requires n <= |calls| && Counter(s, calls[..n]) == OVERRIDE_FAILURE_LATCH
    ensures i < j < n && TwoStrikes(s, calls, i, j)
    decreases n
  {
    CounterStep(s, calls, n - 1);
    CounterBounds(s, calls[..n - 1]);
    if Counter(s, calls[..n - 1]) == OVERRIDE_FAILURE_LATCH {
      i, j := LatchedOnlyByStrikes(s, calls, n - 1);
    } else {
      i := OneStrike(s, calls, n - 1);
      j := n - 1;
    }
  }

  lemma StrikesLatch(s: Setup, calls: seq<Call>, n: nat, i: nat, j: nat)
    requires s.hasFallback && i < j < n <= |calls| && TwoStrikes(s, calls, i, j)
    ensures Counter(s, calls[..n]) == OVERRIDE_FAILURE_LATCH
  {
    CounterStep(s, calls, i);
    NoResetWithoutSuccess(s, calls, i + 1, j);
    CounterStep(s, calls, j);
    CounterBounds(s, calls[..j]);
    LatchSticky(s, calls, j + 1, n);
  }

  /** The latch, over every sequence of non-overlapping calls. */
  lemma LatchIff(s: Setup, calls: seq<Call>)
    ensures Counter(s, calls) == OVERRIDE_FAILURE_LATCH
       <==> s.hasFallback && exists i, j :: 0 <= i < j < |calls| && TwoStrikes(s, calls, i, j)
  {
    var n := |calls|;
    assert calls[..n] == calls;
    CounterBounds(s, calls);
    if Counter(s, calls) == OVERRIDE_FAILURE_LATCH {
      var i, j := LatchedOnlyByStrikes(s, calls, n);
    }
    if s.hasFallback && exists i, j :: 0 <= i < j < |calls| && TwoStrikes(s, calls, i, j) {
      var i, j :| 0 <= i < j < |calls| && TwoStrikes(s, calls, i, j);
      StrikesLatch(s, calls, n, i, j);
    }
  }

  // ----- The latch of a fetcher -----

  function SetupOf(f: Fetcher): Setup {
    Setup(f.fallback.Some?, f.config.pointReadThreshold)
  }

  /** What became of batch `i`.  An attempted one was answered from results the
      node's answers account for, repaired if there is a fallback; any other went
      to the fallback alone, or was empty. */
  ghost predicate Served(f: Fetcher, batches: seq<Batch>, calls: seq<Call>, outs: seq<seq<SlotResult>>, i: nat) {
    && i < |batches| && i < |calls| && i < |outs|
    && calls[i].size == |batches[i].requests|
    && var b := batches[i];
       if Attempted(SetupOf(f), calls, i) then
         && Attempts(f, b, calls[i].bulk)
         && outs[i] == (if f.fallback.Some? then Repaired(calls[i].bulk, f.fallback.value, i) else calls[i].bulk)
       else if b.requests == [] then outs[i] == []
       else f.fallback.Some? && outs[i] == f.fallback.value(i, b.requests)
  }

  ghost predicate AllServed(f: Fetcher, batches: seq<Batch>, calls: seq<Call>, outs: seq<seq<SlotResult>>) {
    && |outs| == |calls| == |batches|
    && forall i :: 0 <= i < |batches| ==> Served(f, batches, calls, outs, i)
  }

  lemma StillServed(f: Fetcher, batches: seq<Batch>, calls: seq<Call>, outs: seq<seq<SlotResult>>, call: Call,
                    out: seq<SlotResult>)
    ensures forall j :: 0 <= j < |calls| && Served(f, batches, calls, outs, j) ==>
              Served(f, batches, calls + [call], outs + [out], j)
  {
    forall j | 0 <= j < |calls| && Served(f, batches, calls, outs, j)
      ensures Served(f, batches, calls + [call], outs + [out], j)
    {
      assert (calls + [call])[..j] == calls[..j];
    }
  }

  /** A fresh fetcher serving any sequence of batches.  Its counter is that of the
      latch machine on what its attempts returned, so it is latched exactly when
      there is a fallback and two strikes have no success between them. */
  method Serve(f: Fetcher, batches: seq<Batch>, ghost chain: Chain)
    returns (outs: seq<seq<SlotResult>>, ghost calls: seq<Call>)
    requires f.consecutiveFailures == 0
    modifies f`consecutiveFailures
    ensures AllServed(f, batches, calls, outs)
    ensures f.consecutiveFailures == Counter(SetupOf(f), calls)
    ensures f.Latched() <==>
            f.fallback.Some? && exists i, j :: 0 <= i < j < |calls| && TwoStrikes(SetupOf(f), calls, i, j)
  {
    outs, calls := [], [];
    for i := 0 to |batches|
      invariant |outs| == |calls| == i
      invariant f.consecutiveFailures == Counter(SetupOf(f), calls)
      invariant forall j :: 0 <= j < i ==> Served(f, batches, calls, outs, j)
    {
      var out;
      ghost var call;
      out, call := ServeOne(f, batches, calls, outs, i, chain);
      StillServed(f, batches, calls, outs, call, out);
      calls := calls + [call];
      outs := outs + [out];
    }
    CounterBounds(SetupOf(f), calls);
    LatchIff(SetupOf(f), calls);
  }

  method ServeOne(f: Fetcher, batches: seq<Batch>, ghost calls: seq<Call>, ghost outs: seq<seq<SlotResult>>, i: nat,
                  ghost chain: Chain)
    returns (out: seq<SlotResult>, ghost call: Call)
    requires |calls| == |outs| == i < |batches| && f.consecutiveFailures == Counter(SetupOf(f), calls)
    modifies f`consecutiveFailures
    ensures f.consecutiveFailures == Counter(SetupOf(f), calls + [call])
    ensures Served(f, batches, calls + [call], outs + [out], i)
  {
    var b := batches[i];
    ghost var attempt;
    out, attempt := f.Fetch(b.requests, b.block, i, b.runtime, chain);
    call := Call(|b.requests|, if attempt.Bulk? then attempt.results else []);
    assert (calls + [call])[..i] == calls;
    assert Attempted(SetupOf(f), calls + [call], i) == attempt.Bulk?;
  }

  /** Calls big enough for a bulk attempt. */
  function Eligible(s: Setup, calls: seq<Call>): nat {
    if calls == [] then 0
    else
      var call := calls[|calls| - 1];
      Eligible(s, calls[..|calls| - 1]) + if call.size > 0 && call.size >= s.pointReadThreshold then 1 else 0
  }

  lemma {:induction false} StrikesCount(s: Setup, calls: seq<Call>, n: nat)
    requires s.hasFallback && n <= |calls|
    requires forall i :: 0 <= i < |calls| && Attempted(s, calls, i) ==> Strike(calls[i].bulk)
    ensures Counter(s, calls[..n]) == (if Eligible(s, calls[..n]) >= 2 then 2 else Eligible(s, calls[..n]))
  {
    if n == 0 {
    } else {
      StrikesCount(s, calls, n - 1);
      CounterStep(s, calls, n - 1);
      assert calls[..n][..n - 1] == calls[..n - 1];
    }
  }

  /** An endpoint that refuses every request latches the fetcher on its second
      eligible batch, and not before. */
  lemma RefusalLatches(f: Fetcher, batches: seq<Batch>, calls: seq<Call>, outs: seq<seq<SlotResult>>)
    requires AllServed(f, batches, calls, outs) && f.fallback.Some? && Refuses(f.node)
    requires forall i :: 0 <= i < |batches| ==> batches[i].runtime
    ensures Counter(SetupOf(f), calls) == (if Eligible(SetupOf(f), calls) >= 2 then 2 else Eligible(SetupOf(f), calls))
  {
    var s := SetupOf(f);
    forall i | 0 <= i < |calls| && Attempted(s, calls, i) ensures Strike(calls[i].bulk) {
      assert Served(f, batches, calls, outs, i);
      RefusedReports(f.node, f.abi, ExtractorCode(f.config), Normalized(f.config), calls[i].bulk);
      SomeResult(calls[i].bulk, batches[i].requests);
      assert calls[i].bulk[0] in calls[i].bulk;
    }
    StrikesCount(s, calls, |calls|);
    assert calls[..|calls|] == calls;
  }

  lemma SomeResult(rs: seq<SlotResult>, requests: seq<SlotKey>)
    requires multiset(KeysOf(rs)) == multiset(requests) && requests != []
    ensures rs != []
  {
    assert requests[0] in multiset(requests);
    assert requests[0] in multiset(KeysOf(rs));
  }

  lemma {:induction false} NoStrikeNoCount(s: Setup, calls: seq<Call>, n: nat)
    requires n <= |calls|
    requires forall i :: 0 <= i < |calls| && Attempted(s, calls, i) ==> !HasProviderError(calls[i].bulk)
    ensures Counter(s, calls[..n]) == 0
  {
    if n == 0 {
    } else {
      NoStrikeNoCount(s, calls, n - 1);
      CounterStep(s, calls, n - 1);
    }
  }

  /** An endpoint that answers every call, with whatever bytes, never moves it. */
  lemma RepliesNeverLatch(f: Fetcher, batches: seq<Batch>, calls: seq<Call>, outs: seq<seq<SlotResult>>)
    requires AllServed(f, batches, calls, outs) && Replies(f.node)
    ensures Counter(SetupOf(f), calls) == 0
  {
    var s := SetupOf(f);
    forall i | 0 <= i < |calls| && Attempted(s, calls, i) ensures !HasProviderError(calls[i].bulk) {
      assert Served(f, batches, calls, outs, i);
      if batches[i].runtime {
        RepliedReports(f.node, f.abi, ExtractorCode(f.config), Normalized(f.config), calls[i].bulk);
      }
    }
    NoStrikeNoCount(s, calls, |calls|);
    assert calls[..|calls|] == calls;
  }

  // ----- The documented rule -----

  /** Everything failed at the provider level, as the comment puts it. */
  predicate AllProvider(rs: seq<SlotResult>) {
    rs != [] && forall i :: 0 <= i < |rs| ==> rs[i].result == Err(StorageFetchError.Provider)
  }

  function DocumentedAfter(counter: nat, rs: seq<SlotResult>): nat {
    if HasSuccess(rs) then 0 else if AllProvider(rs) then counter + 1 else counter
  }

  /** The counter of a fetcher that followed the documented rule. */
  function DocumentedCounter(s: Setup, calls: seq<Call>): nat {
    if calls == [] then 0
    else
      var before := DocumentedCounter(s, calls[..|calls| - 1]);
      var call := calls[|calls| - 1];
      if AttemptsBulk(s, before, call) && s.hasFallback then DocumentedAfter(before, call.bulk) else before
  }

  /** No success, and provider errors next to others. */
  predicate Mixed(rs: seq<SlotResult>) {
    !HasSuccess(rs) && HasProviderError(rs) && !AllProvider(rs)
  }

  lemma DocumentedStep(s: Setup, calls: seq<Call>, n: nat)
    requires n < |calls|
    ensures DocumentedCounter(s, calls[..n + 1])
         == (if AttemptsBulk(s, DocumentedCounter(s, calls[..n]), calls[n]) && s.hasFallback
             then DocumentedAfter(DocumentedCounter(s, calls[..n]), calls[n].bulk)
             else DocumentedCounter(s, calls[..n]))
  {
    assert calls[..n + 1][..n] == calls[..n];
  }

  lemma MixedIff(counter: nat, rs: seq<SlotResult>)
    ensures CounterAfter(counter, rs) == DocumentedAfter(counter, rs) <==> !Mixed(rs)
  {
    if AllProvider(rs) {
      assert rs[0].result == Err(StorageFetchError.Provider);
    }
  }

  ghost predicate NeverMixed(s: Setup, calls: seq<Call>, n: nat)
    requires n <= |calls|
  {
    forall i :: 0 <= i < n && s.hasFallback && Attempted(s, calls, i) ==> !Mixed(calls[i].bulk)
  }

  lemma {:induction false} UnmixedAgree(s: Setup, calls: seq<Call>, n: nat)
    requires n <= |calls| && NeverMixed(s, calls, n)
    ensures Counter(s, calls[..n]) == DocumentedCounter(s, calls[..n])
  {
    if n == 0 {
    } else {
      UnmixedAgree(s, calls, n - 1);
      CounterStep(s, calls, n - 1);
      DocumentedStep(s, calls, n - 1);
      MixedIff(Counter(s, calls[..n - 1]), calls[n - 1].bulk);
    }
  }

  /** The counter is the documented one throughout a sequence of calls if and
      only if no attempted batch without a success mixes provider errors with
      others. */
  lemma DocumentedIff(s: Setup, calls: seq<Call>)
    ensures (forall n :: 0 <= n <= |calls| ==> Counter(s, calls[..n]) == DocumentedCounter(s, calls[..n]))
       <==> NeverMixed(s, calls, |calls|)
  {
    if NeverMixed(s, calls, |calls|) {
      forall n | 0 <= n <= |calls| ensures Counter(s, calls[..n]) == DocumentedCounter(s, calls[..n]) {
        UnmixedAgree(s, calls, n);
      }
    } else {
      var i :| 0 <= i < |calls| && s.hasFallback && Attempted(s, calls, i) && Mixed(calls[i].bulk);
      MixedDiffer(s, calls, i);
    }
  }

  lemma MixedDiffer(s: Setup, calls: seq<Call>, i: nat)
    requires i < |calls| && s.hasFallback && Attempted(s, calls, i) && Mixed(calls[i].bulk)
    ensures exists n :: 0 <= n <= |calls| && Counter(s, calls[..n]) != DocumentedCounter(s, calls[..n])
  {
    if Counter(s, calls[..i]) == DocumentedCounter(s, calls[..i]) {
      CounterStep(s, calls, i);
      DocumentedStep(s, calls, i);
      MixedIff(Counter(s, calls[..i]), calls[i].bulk);
      assert Counter(s, calls[..i + 1]) != DocumentedCounter(s, calls[..i + 1]);
    }
  }

  /** Without such batches the latch is the documented one: two attempts that
      failed entirely at the provider, no success between them. */
  lemma DocumentedLatchIff(s: Setup, calls: seq<Call>)
    requires NeverMixed(s, calls, |calls|)
    ensures Counter(s, calls) == OVERRIDE_FAILURE_LATCH
       <==> s.hasFallback && exists i, j :: 0 <= i < j < |calls| && TwoRefusals(s, calls, i, j)
  {
    LatchIff(s, calls);
    if s.hasFallback {
      forall i, j | 0 <= i < j < |calls| ensures TwoStrikes(s, calls, i, j) <==> TwoRefusals(s, calls, i, j) {
        RefusalIsStrike(s, calls, i);
        RefusalIsStrike(s, calls, j);
      }
    }
  }

  ghost predicate TwoRefusals(s: Setup, calls: seq<Call>, i: nat, j: nat)
    requires i < j < |calls|
  {
    && Attempted(s, calls, i) && AllProvider(calls[i].bulk) && Attempted(s, calls, j) && AllProvider(calls[j].bulk)
    && forall k :: i < k < j ==> !SuccessAt(s, calls, k)
  }

  lemma RefusalIsStrike(s: Setup, calls: seq<Call>, i: nat)
    requires s.hasFallback && NeverMixed(s, calls, |calls|) && i < |calls|
    ensures StrikeAt(s, calls, i) <==> Attempted(s, calls, i) && AllProvider(calls[i].bulk)
  {
    if AllProvider(calls[i].bulk) {
      assert calls[i].bulk[0].result == Err(StorageFetchError.Provider);
    }
  }

  // ----- Where the two rules part -----

  /** Refuses calls to `a` and answers every other with no bytes. */
  function HalfRefusing(a: Address): Node {
    Node((t, r: CallRequest) => if r.to == a then None else Some([]), (t, b) => None)
  }

  /** Any configuration that sends one target per call. */
  predicate OneByOne(c: BulkCallConfig) {
    c.maxTargetsPerCall == 1
  }

  lemma HalfRefusedCall(a: Address, t: nat, abi: Abi, plan: CallPlan, extractor: Bytes, r: SlotResult)
    requires plan.Single? && plan.slots != [] && r in ExecutePlan(HalfRefusing(a), t, abi, plan, extractor)
    ensures r.result == (if r.address == a then Err(StorageFetchError.Provider) else Err(Custom))
  {
    if plan.target == a {
      SingleFailures(a, plan.slots, StorageFetchError.Provider);
    }
  }

  lemma HalfRefused(a: Address, abi: Abi, extractor: Bytes, c: BulkCallConfig, r: SlotResult)
    requires OneByOne(c) && FromCall(HalfRefusing(a), abi, extractor, c, r)
    ensures r.result == (if r.address == a then Err(StorageFetchError.Provider) else Err(Custom))
  {
    var t: nat, plan :| WithinBudget(c, plan) && r in ExecutePlan(HalfRefusing(a), t, abi, plan, extractor);
    SingleNotEmpty(c, plan);
    HalfRefusedCall(a, t, abi, plan, extractor, r);
  }

  lemma SingleNotEmpty(c: BulkCallConfig, plan: CallPlan)
    requires OneByOne(c) && WithinBudget(c, plan)
    ensures plan.Single? && plan.slots != []
  {
  }

  lemma HalfRefusedAll(a: Address, abi: Abi, extractor: Bytes, c: BulkCallConfig, rs: seq<SlotResult>)
    requires OneByOne(c) && Reported(HalfRefusing(a), abi, extractor, c, rs)
    ensures forall r :: r in rs ==>
              r.result == (if r.address == a then Err(StorageFetchError.Provider) else Err(Custom))
  {
    forall r | r in rs ensures r.result == (if r.address == a then Err(StorageFetchError.Provider) else Err(Custom)) {
      assert FromCall(HalfRefusing(a), abi, extractor, c, r);
      HalfRefused(a, abi, extractor, c, r);
    }
  }

  /** A batch over `a` and another account comes back mixed. */
  lemma HalfRefusedIsMixed(f: Fetcher, a: Address, b: Address, batch: Batch, rs: seq<SlotResult>)
    requires a != b && f.node == HalfRefusing(a) && OneByOne(Normalized(f.config))
    requires batch.runtime && batch.requests == [SlotKey(a, 0), SlotKey(b, 0)] && Attempts(f, batch, rs)
    ensures Mixed(rs)
  {
    HalfRefusedAll(a, f.abi, ExtractorCode(f.config), Normalized(f.config), rs);
    var i := ResultFor(rs, batch.requests, SlotKey(a, 0));
    var j := ResultFor(rs, batch.requests, SlotKey(b, 0));
    assert rs[i] in rs && rs[j] in rs;
    forall k | 0 <= k < |rs| ensures !rs[k].result.Ok? {
      assert rs[k] in rs;
    }
  }

  lemma ResultFor(rs: seq<SlotResult>, requests: seq<SlotKey>, k: SlotKey) returns (i: nat)
    requires multiset(KeysOf(rs)) == multiset(requests) && k in requests
    ensures i < |rs| && rs[i].address == k.address && rs[i].slot == k.slot
  {
    assert k in multiset(requests);
    assert k in multiset(KeysOf(rs));
    i :| 0 <= i < |rs| && KeysOf(rs)[i] == k;
  }

  /** Two mixed batches latch a fetcher that the documented rule would not even
      have started to count. */
  method MixedBatchesLatch(a: Address, b: Address, config: BulkCallConfig, abi: Abi, fallback: Fallback,
                           ghost chain: Chain)
    returns (f: Fetcher, ghost calls: seq<Call>)
    requires a != b && OneByOne(Normalized(config)) && config.pointReadThreshold <= 2
    ensures f.Latched() && f.consecutiveFailures == Counter(SetupOf(f), calls)
    ensures DocumentedCounter(SetupOf(f), calls) == 0
  {
    f := new Fetcher(HalfRefusing(a), config, abi, Some(fallback));
    var batch := Batch([SlotKey(a, 0), SlotKey(b, 0)], Number(0), true);
    var batches := [batch, batch];
    var outs;
    outs, calls := Serve(f, batches, chain);
    NormalizedIsSafe(config);
    BothMixed(f, a, b, batches, calls, outs);
  }

  lemma BothMixed(f: Fetcher, a: Address, b: Address, batches: seq<Batch>, calls: seq<Call>, outs: seq<seq<SlotResult>>)
    requires a != b && f.node == HalfRefusing(a) && OneByOne(Normalized(f.config))
    requires f.fallback.Some? && f.config.pointReadThreshold <= 2
    requires |batches| == 2 && AllServed(f, batches, calls, outs)
    requires forall i :: 0 <= i < 2 ==> batches[i].runtime && batches[i].requests == [SlotKey(a, 0), SlotKey(b, 0)]
    ensures Counter(SetupOf(f), calls) == 2 && DocumentedCounter(SetupOf(f), calls) == 0
  {
    var s := SetupOf(f);
    assert Served(f, batches, calls, outs, 0) && Served(f, batches, calls, outs, 1);
    assert calls[..0] == [] && calls[..2] == calls;
    assert Attempted(s, calls, 0);
    HalfRefusedIsMixed(f, a, b, batches[0], calls[0].bulk);
    CounterStep(s, calls, 0);
    DocumentedStep(s, calls, 0);
    assert Attempted(s, calls, 1);
    HalfRefusedIsMixed(f, a, b, batches[1], calls[1].bulk);
    CounterStep(s, calls, 1);
    DocumentedStep(s, calls, 1);
  }
}
