/**
 Caller-supplied extraction programs: `run_storage_program` and
 `run_storage_programs` of `src/bulk_storage.rs`.
 */
module StoragePrograms {
  import opened Words
  import opened BulkPlan
  import opened BulkCalls
  import opened IdealNode
  import opened BulkFetch
  import opened Fragment
  import opened Bundling

  type ProgramResult = Result<Bytes, StorageFetchError>

  function SoloRequest(p: StorageProgram): CallRequest {
    CallRequest(p.target, p.calldata, map[p.target := Program(p.code)])
  }

  /** `run_storage_program`. */
  function RunStorageProgram(node: Node, t: nat, p: StorageProgram): ProgramResult {
    match node.call(t, SoloRequest(p))
    case Some(data) => Ok(data)
    case None => Err(StorageFetchError.Provider)
  }

  // ----- Choosing the bundle -----

  predicate Increasing(indices: seq<nat>, n: nat) {
    && (forall k :: 0 <= k < |indices| ==> indices[k] < n)
    && forall k, l :: 0 <= k < l < |indices| ==> indices[k] < indices[l]
  }

  /** What may share one override map: distinct targets, none the dispatcher. */
  predicate CanShare(programs: seq<StorageProgram>, bundle: seq<nat>) {
    && Increasing(bundle, |programs|)
    && (forall k :: 0 <= k < |bundle| ==> programs[bundle[k]].target != MULTICALL3)
    && forall k, l :: 0 <= k < l < |bundle| ==> programs[bundle[k]].target != programs[bundle[l]].target
  }

  predicate FirstOfTarget(programs: seq<StorageProgram>, i: nat)
    requires i < |programs|
  {
    programs[i].target != MULTICALL3 && forall j :: 0 <= j < i ==> programs[j].target != programs[i].target
  }

  /** The first pass: the first program of each non-dispatcher target, in input
      order, and everything else. */
  method SelectBundle(programs: seq<StorageProgram>) returns (bundle: seq<nat>, individual: seq<nat>)
    ensures CanShare(programs, bundle)
    ensures forall i :: i in bundle ==> i < |programs| && FirstOfTarget(programs, i)
    ensures forall i :: 0 <= i < |programs| && FirstOfTarget(programs, i) ==> i in bundle
    ensures forall i :: i in individual <==> 0 <= i < |programs| && !FirstOfTarget(programs, i)
    ensures Increasing(individual, |programs|)
  {
    bundle, individual := [], [];
    var seen: set<Address> := {};
    for i := 0 to |programs|
      invariant seen == set j | 0 <= j < i && programs[j].target != MULTICALL3 :: programs[j].target
      invariant Increasing(bundle, i) && Increasing(individual, i)
      invariant forall k :: k in bundle <==> 0 <= k < i && FirstOfTarget(programs, k)
      invariant forall k :: k in individual <==> 0 <= k < i && !FirstOfTarget(programs, k)
    {
      var p := programs[i];
      if p.target != MULTICALL3 && p.target !in seen {
        seen := seen + {p.target};
        bundle := bundle + [i];
      } else {
        individual := individual + [i];
      }
    }
    forall k | 0 <= k < |bundle| ensures FirstOfTarget(programs, bundle[k]) {
      assert bundle[k] in bundle;
    }
  }

  // ----- The bundled request -----

  function BundleOverrides(programs: seq<StorageProgram>, bundle: seq<nat>): Overrides
    requires forall k :: 0 <= k < |bundle| ==> bundle[k] < |programs|
  {
    if bundle == [] then map[MULTICALL3 := Multicall3Runtime]
    else
      var p := programs[bundle[|bundle| - 1]];
      BundleOverrides(programs, bundle[..|bundle| - 1])[p.target := Program(p.code)]
  }

  function BundleCalls(programs: seq<StorageProgram>, bundle: seq<nat>): (calls: seq<Call3>)
    requires forall k :: 0 <= k < |bundle| ==> bundle[k] < |programs|
    ensures |calls| == |bundle|
    ensures forall k :: 0 <= k < |bundle| ==>
              calls[k] == Call3(programs[bundle[k]].target, true, programs[bundle[k]].calldata)
  {
    seq(|bundle|, k requires 0 <= k < |bundle| => Call3(programs[bundle[k]].target, true, programs[bundle[k]].calldata))
  }

  /** The outcome of the `k`-th of `n` bundled programs in a reply. */
  function BundleResult(abi: Abi, reply: Option<Bytes>, n: nat, k: nat): ProgramResult {
    match reply
    case None => Err(StorageFetchError.Provider)
    case Some(data) =>
      match abi.decodeReturns(data)
      case None => Err(Custom)
      case Some(results) =>
        if |results| != n || k >= n then Err(Custom)
        else if results[k].success then Ok(results[k].returnData)
        else Err(Custom)
  }

  /** A bundled program succeeds exactly when the reply decodes to one entry per
      bundled program and its own entry succeeded; the result is that entry's
      data.  A refused request is a provider error, anything else a custom one. */
  lemma BundleResultIff(abi: Abi, reply: Option<Bytes>, n: nat, k: nat, data: Bytes)
    requires k < n
    ensures BundleResult(abi, reply, n, k) == Ok(data) <==>
            && reply.Some? && abi.decodeReturns(reply.value).Some?
            && |abi.decodeReturns(reply.value).value| == n
            && abi.decodeReturns(reply.value).value[k] == SubResult(true, data)
    ensures BundleResult(abi, reply, n, k) == Err(StorageFetchError.Provider) <==> reply.None?
    ensures BundleResult(abi, reply, n, k).Ok? || BundleResult(abi, reply, n,
                                                               k).error in {StorageFetchError.Provider, Custom}
  {
  }

  /** A program sent alone succeeds exactly with the reply it gets. */
  lemma SoloResultIff(node: Node, t: nat, p: StorageProgram, data: Bytes)
    ensures RunStorageProgram(node, t, p) == Ok(data) <==>
            node.call(t, CallRequest(p.target, p.calldata, map[p.target := Program(p.code)])) == Some(data)
    ensures RunStorageProgram(node, t, p).Err? ==> RunStorageProgram(node, t, p).error == StorageFetchError.Provider
  {
  }

  lemma {:induction false} BundleOverridesServe(programs: seq<StorageProgram>, bundle: seq<nat>)
    requires CanShare(programs, bundle)
    ensures var o := BundleOverrides(programs, bundle);
            && MULTICALL3 in o && o[MULTICALL3] == Multicall3Runtime
            && forall k :: 0 <= k < |bundle| ==>
                 programs[bundle[k]].target in o && o[programs[bundle[k]].target] == Program(programs[bundle[k]].code)
  {
    if bundle == [] {
    } else {
      var front := bundle[..|bundle| - 1];
      assert forall k :: 0 <= k < |front| ==> front[k] == bundle[k];
      BundleOverridesServe(programs, front);
    }
  }

  // ----- What an ideal node answers -----

  ghost predicate Matches(r: ProgramResult, outcome: Option<Bytes>) {
    if outcome.Some? then r == Ok(outcome.value) else r.Err?
  }

  /** What program `i` returns, bundled or alone. */
  ghost function AsSent(chain: Chain, programs: seq<StorageProgram>, bundle: seq<nat>, i: nat): Option<Bytes>
    requires i < |programs| && forall k :: 0 <= k < |bundle| ==> bundle[k] < |programs|
  {
    if i in bundle then Bundled(chain, BundleOverrides(programs, bundle), programs[i]) else Solo(chain, programs[i])
  }

  lemma BundleModelled(chain: Chain, abi: Abi, programs: seq<StorageProgram>, bundle: seq<nat>)
    requires Faithful(abi) && CanShare(programs, bundle)
    requires forall k :: 0 <= k < |bundle| ==> InFragment(programs[bundle[k]].code)
    ensures Modelled(chain, abi, BundleOverrides(programs, bundle), MULTICALL3,
                     abi.encodeCalls(BundleCalls(programs, bundle)))
  {
    BundleOverridesServe(programs, bundle);
    var calls := BundleCalls(programs, bundle);
    assert abi.decodeCalls(abi.encodeCalls(calls)) == Some(calls);
  }

  /** A bundled program's entry is what the program returns in the bundle. */
  lemma BundleAnswers(chain: Chain, abi: Abi, programs: seq<StorageProgram>, bundle: seq<nat>, k: nat)
    requires Faithful(abi) && MULTICALL3 !in chain.precompiles && CanShare(programs, bundle) && k < |bundle|
    ensures var overrides := BundleOverrides(programs, bundle);
            var reply := EthCall(chain, abi, overrides, MULTICALL3, abi.encodeCalls(BundleCalls(programs, bundle)));
            Matches(BundleResult(abi, reply, |bundle|, k), Bundled(chain, overrides, programs[bundle[k]]))
  {
    BundleOverridesServe(programs, bundle);
    AggregateAnswers(chain, abi, BundleOverrides(programs, bundle), BundleCalls(programs, bundle));
  }

  lemma SentAsSolo(chain: Chain, programs: seq<StorageProgram>, bundle: seq<nat>)
    requires CanShare(programs, bundle)
    ensures forall i :: 0 <= i < |programs| && (i !in bundle || Transparent(chain, BundleOverrides(programs, bundle),
                                                                            programs[i])) ==>
              AsSent(chain, programs, bundle, i) == Solo(chain, programs[i])
  {
    forall i | 0 <= i < |programs| && i in bundle && Transparent(chain, BundleOverrides(programs, bundle), programs[i])
      ensures AsSent(chain, programs, bundle, i) == Solo(chain, programs[i])
    {
      BundleOverridesServe(programs, bundle);
      var k :| 0 <= k < |bundle| && bundle[k] == i;
      TransparentRunsAsSolo(chain, BundleOverrides(programs, bundle), programs[i]);
    }
  }

  // ----- run_storage_programs -----

  /** `run_storage_programs`.  Every program is resolved exactly once, in input
      order: a bundled one from its own entry of the single reply, any other by
      a call of its own.  Against an ideal node the results of fragment programs
      are what each returns bundled or alone, as it was sent; and a bundled one
      that nothing can show the bundle to returns what it does alone. */
  method RunStoragePrograms(node: Node, programs: seq<StorageProgram>, abi: Abi, ghost chain: Chain)
    returns (out: seq<ProgramResult>, ghost bundle: seq<nat>, ghost reply: Option<Bytes>, ghost alone: seq<nat>)
    ensures |out| == |programs|
    ensures CanShare(programs, bundle) && |bundle| != 1 && TakesFirsts(programs, bundle)
    ensures Unrepeated(alone) && forall i :: i in alone <==> 0 <= i < |programs| && i !in bundle
    ensures forall k :: 0 <= k < |bundle| ==> out[bundle[k]] == BundleResult(abi, reply, |bundle|, k)
    ensures bundle != [] ==>
              reply == node.call(0, CallRequest(MULTICALL3, abi.encodeCalls(BundleCalls(programs, bundle)),
                                                               BundleOverrides(programs, bundle)))
    ensures forall j :: 0 <= j < |alone| ==>
              alone[j] < |programs| && out[alone[j]] == RunStorageProgram(node, 1 + j, programs[alone[j]])
    ensures Ideal(node, chain, abi) && (forall p :: p in programs ==> InFragment(p.code)) ==>
              forall i :: 0 <= i < |programs| ==> Matches(out[i], AsSent(chain, programs, bundle, i))
    ensures Ideal(node, chain, abi) && (forall p :: p in programs ==> InFragment(p.code)) ==>
              forall i :: 0 <= i < |programs| && (i !in bundle || Transparent(chain, BundleOverrides(programs, bundle),
                                                                              programs[i])) ==>
                Matches(out[i], Solo(chain, programs[i]))
  {
    var selected, individual := ChooseBundle(programs);
    bundle, reply, alone := selected, None, individual;
    var slots: seq<Option<ProgramResult>> := seq(|programs|, _ => None);
    if selected != [] {
      var response := node.call(0, CallRequest(MULTICALL3, abi.encodeCalls(BundleCalls(programs, selected)),
                                               BundleOverrides(programs, selected)));
      reply := response;
      slots := FillBundle(slots, selected, abi, response);
    }
    slots := FillIndividual(node, programs, slots, individual);
    out := Resolve(programs, slots, selected, individual, node);
    forall j | 0 <= j < |alone|
      ensures alone[j] < |programs| && out[alone[j]] == RunStorageProgram(node, 1 + j, programs[alone[j]])
    {
      assert ByItself(node, programs, slots, individual, j);
    }
    if Ideal(node, chain, abi) && forall p :: p in programs ==> InFragment(p.code) {
      IdealOutcomes(node, chain, abi, programs, bundle, reply, alone, out);
      SentAsSolo(chain, programs, bundle);
    }
  }

  /** The bundle and the rest; a bundle of one is just an ordinary call. */
  method ChooseBundle(programs: seq<StorageProgram>) returns (bundle: seq<nat>, individual: seq<nat>)
    ensures CanShare(programs, bundle) && |bundle| != 1 && TakesFirsts(programs, bundle)
    ensures forall i :: i in individual <==> 0 <= i < |programs| && i !in bundle
    ensures Unrepeated(individual)
  {
    bundle, individual := SelectBundle(programs);
    if |bundle| == 1 {
      MoveLast(programs, bundle[0], individual);
      individual, bundle := individual + bundle, [];
    }
  }

  /** The bundle holds the first program of every target but the dispatcher, and is
      left empty only when there are not two of them. */
  predicate TakesFirsts(programs: seq<StorageProgram>, bundle: seq<nat>) {
    if bundle != [] then forall i :: 0 <= i < |programs| && FirstOfTarget(programs, i) ==> i in bundle
    else forall i, j :: 0 <= i < j < |programs| ==> !(FirstOfTarget(programs, i) && FirstOfTarget(programs, j))
  }

  predicate Unrepeated(indices: seq<nat>) {
    forall k, l :: 0 <= k < l < |indices| ==> indices[k] != indices[l]
  }

  lemma MoveLast(programs: seq<StorageProgram>, i: nat, individual: seq<nat>)
    requires Increasing(individual, |programs|) && i !in individual
    ensures Unrepeated(individual + [i])
  {
    forall k | 0 <= k < |individual| ensures individual[k] != i {
      assert individual[k] in individual;
    }
  }

  method FillIndividual(node: Node, programs: seq<StorageProgram>, before: seq<Option<ProgramResult>>,
                        individual: seq<nat>)
    returns (slots: seq<Option<ProgramResult>>)
    requires |before| == |programs| && Unrepeated(individual) && forall i :: i in individual ==> i < |programs|
    ensures |slots| == |programs|
    ensures forall i :: 0 <= i < |programs| && i !in individual ==> slots[i] == before[i]
    ensures forall j :: 0 <= j < |individual| ==> ByItself(node, programs, slots, individual, j)
  {
    slots := before;
    for j := 0 to |individual|
      invariant |slots| == |programs|
      invariant forall i :: 0 <= i < |programs| && i !in individual ==> slots[i] == before[i]
      invariant forall l :: 0 <= l < j ==> ByItself(node, programs, slots, individual, l)
    {
      var i := individual[j];
      assert i in individual;
      ghost var earlier := slots;
      slots := slots[i := Some(RunStorageProgram(node, 1 + j, programs[i]))];
      forall l | 0 <= l < j ensures ByItself(node, programs, slots, individual, l) {
        assert ByItself(node, programs, earlier, individual, l);
      }
    }
  }

  /** The final unwrapping: no entry is left unresolved. */
  method Resolve(programs: seq<StorageProgram>, slots: seq<Option<ProgramResult>>, bundle: seq<nat>,
                 individual: seq<nat>, node: Node)
    returns (out: seq<ProgramResult>)
    requires |slots| == |programs|
    requires forall i :: 0 <= i < |programs| ==> i in bundle || i in individual
    requires forall k :: 0 <= k < |bundle| ==> bundle[k] < |programs| && slots[bundle[k]].Some?
    requires forall j :: 0 <= j < |individual| ==> ByItself(node, programs, slots, individual, j)
    ensures |out| == |slots| && forall i :: 0 <= i < |slots| ==> slots[i] == Some(out[i])
  {
    forall i | 0 <= i < |slots| ensures slots[i].Some? {
      if i in bundle {
        var k :| 0 <= k < |bundle| && bundle[k] == i;
      } else {
        var j :| 0 <= j < |individual| && individual[j] == i;
        assert ByItself(node, programs, slots, individual, j);
      }
    }
    out := seq(|slots|, i requires 0 <= i < |slots| && slots[i].Some? => slots[i].value);
  }

  /** The `j`-th individual program was resolved by the `j`-th call after the bundle's. */
  ghost predicate ByItself(node: Node, programs: seq<StorageProgram>, slots: seq<Option<ProgramResult>>,
                           individual: seq<nat>, j: nat) {
    && j < |individual| && individual[j] < |programs| == |slots|
    && slots[individual[j]] == Some(RunStorageProgram(node, 1 + j, programs[individual[j]]))
  }

  method FillBundle(empty: seq<Option<ProgramResult>>, bundle: seq<nat>, abi: Abi, reply: Option<Bytes>)
    returns (slots: seq<Option<ProgramResult>>)
    requires Increasing(bundle, |empty|)
    ensures |slots| == |empty|
    ensures forall k :: 0 <= k < |bundle| ==> slots[bundle[k]] == Some(BundleResult(abi, reply, |bundle|, k))
  {
    slots := empty;
    for k := 0 to |bundle|
      invariant |slots| == |empty|
      invariant forall l :: 0 <= l < k ==> slots[bundle[l]] == Some(BundleResult(abi, reply, |bundle|, l))
    {
      slots := slots[bundle[k] := Some(BundleResult(abi, reply, |bundle|, k))];
    }
  }

  lemma IdealOutcomes(node: Node, chain: Chain, abi: Abi, programs: seq<StorageProgram>, bundle: seq<nat>,
                      reply: Option<Bytes>,
                      alone: seq<nat>, out: seq<ProgramResult>)
    requires Ideal(node, chain, abi) && |out| == |programs| && CanShare(programs, bundle)
    requires forall p :: p in programs ==> InFragment(p.code)
    requires forall k :: 0 <= k < |bundle| ==> out[bundle[k]] == BundleResult(abi, reply, |bundle|, k)
    requires bundle != [] ==>
              reply == node.call(0, CallRequest(MULTICALL3, abi.encodeCalls(BundleCalls(programs, bundle)),
                                                                BundleOverrides(programs, bundle)))
    requires forall i :: 0 <= i < |programs| && i !in bundle ==> i in alone
    requires forall j :: 0 <= j < |alone| ==>
              alone[j] < |programs| && out[alone[j]] == RunStorageProgram(node, 1 + j, programs[alone[j]])
    ensures forall i :: 0 <= i < |programs| ==> Matches(out[i], AsSent(chain, programs, bundle, i))
  {
    forall i | 0 <= i < |programs| ensures Matches(out[i], AsSent(chain, programs, bundle, i)) {
      assert programs[i] in programs;
      if i in bundle {
        var k :| 0 <= k < |bundle| && bundle[k] == i;
        BundleModelled(chain, abi, programs, bundle);
        var request := CallRequest(MULTICALL3, abi.encodeCalls(BundleCalls(programs, bundle)),
                                   BundleOverrides(programs, bundle));
        assert Modelled(chain, abi, request.overrides, request.to, request.data);
        BundleAnswers(chain, abi, programs, bundle, k);
      } else {
        var j :| 0 <= j < |alone| && alone[j] == i;
        SoloAnswers(node, chain, abi, 1 + j, programs[i]);
      }
    }
  }

  lemma SoloAnswers(node: Node, chain: Chain, abi: Abi, t: nat, p: StorageProgram)
    requires Ideal(node, chain, abi) && InFragment(p.code)
    ensures Matches(RunStorageProgram(node, t, p), Solo(chain, p))
  {
    var request := SoloRequest(p);
    assert RunsFragment(chain, request.overrides, request.to);
    assert Modelled(chain, abi, request.overrides, request.to, request.data);
  }

  // ----- Two bundles that show -----

  /** Alone, the hash witness pointed at account 2 sees the deployed code;
      bundled with a program at account 2 it sees the injected one. */
  lemma BundlingShowsThroughHashes(chain: Chain, other: StorageProgram)
    requires 1 !in chain.precompiles && other.target == 2
    ensures var p := StorageProgram(1, HASH_OF_ARGUMENT, WordBytes(2));
            && CanShare([p, other], [0, 1])
            && Solo(chain, p) == Some(WordBytes(chain.codeHash(2)))
            && Bundled(chain, BundleOverrides([p, other], [0, 1]),
                       p) == Some(WordBytes(chain.hashOf(Program(other.code))))
  {
    var p := StorageProgram(1, HASH_OF_ARGUMENT, WordBytes(2));
    var bundle := [0, 1];
    assert CanShare([p, other], bundle);
    BundleOverridesServe([p, other], bundle);
    var overrides, alone := BundleOverrides([p, other], bundle), map[1 := Program(p.code)];
    assert [p, other][bundle[0]] == p && [p, other][bundle[1]] == other;
    ArgumentIs(chain, overrides, MULTICALL3, 1, 2);
    ArgumentIs(chain, alone, chain.sender, 1, 2);
    HashReturned(ContextAt(chain, overrides, MULTICALL3, 1, WordBytes(2)));
    HashReturned(ContextAt(chain, alone, chain.sender, 1, WordBytes(2)));
  }

  /** Alone, the caller witness returns the sender; in any bundle, the dispatcher. */
  lemma BundlingShowsThroughCaller(chain: Chain, other: StorageProgram)
    requires 1 !in chain.precompiles && other.target == 2
    ensures var p := StorageProgram(1, OWN_CALLER, []);
            && CanShare([p, other], [0, 1])
            && Solo(chain, p) == Some(WordBytes(chain.sender))
            && Bundled(chain, BundleOverrides([p, other], [0, 1]), p) == Some(WordBytes(MULTICALL3))
  {
    var p := StorageProgram(1, OWN_CALLER, []);
    var bundle := [0, 1];
    assert CanShare([p, other], bundle);
    BundleOverridesServe([p, other], bundle);
    assert [p, other][bundle[0]] == p;
    CallerReturned(ContextAt(chain, BundleOverrides([p, other], bundle), MULTICALL3, 1, []));
    CallerReturned(ContextAt(chain, map[1 := Program(p.code)], chain.sender, 1, []));
  }
}
