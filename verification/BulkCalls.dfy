/**
 One planned call of `src/bulk_storage.rs`, end to end: its override set and
 calldata, what a node answers, and how the answer is decoded.
 */
module BulkCalls {
  import opened Words
  import opened Extractor
  import opened BulkPlan

  datatype StorageFetchError = Runtime | Provider | Serialization | BatchSend | Custom

  type FetchResult = Result<Word, StorageFetchError>

  datatype SlotResult = SlotResult(address: Address, slot: Word, result: FetchResult)

  // ----- Requests -----

  /** Code injected by an override: program bytes, or the Multicall3 runtime. */
  datatype Code = Program(bytes: Bytes) | Multicall3Runtime

  type Overrides = map<Address, Code>

  datatype Call3 = Call3(target: Address, allowFailure: bool, callData: Bytes)
  datatype SubResult = SubResult(success: bool, returnData: Bytes)

  /** The ABI coding of `aggregate3`, a library concern: any coder that decodes
      what it encodes. */
  datatype Abi = Abi(encodeCalls: seq<Call3> -> Bytes,
                     decodeCalls: Bytes -> Option<seq<Call3>>,
                     encodeReturns: seq<SubResult> -> Bytes,
                     decodeReturns: Bytes -> Option<seq<SubResult>>)

  ghost predicate Faithful(abi: Abi) {
    && (forall calls :: abi.decodeCalls(abi.encodeCalls(calls)) == Some(calls))
    && forall results :: abi.decodeReturns(abi.encodeReturns(results)) == Some(results)
  }

  datatype CallRequest = CallRequest(to: Address, data: Bytes, overrides: Overrides)

  function ExtractorCode(c: BulkCallConfig): Bytes {
    if c.preShanghaiExtractor then EXTRACTOR_PRE_SHANGHAI else EXTRACTOR
  }

  /** `overrides_for_plan`. */
  function OverridesFor(plan: CallPlan, extractor: Bytes): Overrides {
    match plan
    case Single(target, _) => map[target := Program(extractor)]
    case Multi(targets) => InsertTargets(map[MULTICALL3 := Multicall3Runtime], targets, extractor)
  }

  function InsertTargets(base: Overrides, targets: seq<Target>, extractor: Bytes): Overrides {
    if targets == [] then base
    else InsertTargets(base, targets[..|targets| - 1], extractor)[targets[|targets| - 1].address := Program(extractor)]
  }

  /** `encode_multi_target_calldata`, before ABI coding. */
  function SubCalls(targets: seq<Target>): (calls: seq<Call3>)
    ensures |calls| == |targets|
    ensures forall i :: 0 <= i < |targets| ==> calls[i] == Call3(targets[i].address, true, Pack(targets[i].slots))
  {
    if targets == [] then []
    else
      var t := targets[|targets| - 1];
      SubCalls(targets[..|targets| - 1]) + [Call3(t.address, true, Pack(t.slots))]
  }

  function MultiData(abi: Abi, targets: seq<Target>): Bytes {
    abi.encodeCalls(SubCalls(targets))
  }

  function CallTo(plan: CallPlan): Address {
    match plan
    case Single(target, _) => target
    case Multi(_) => MULTICALL3
  }

  function CallData(plan: CallPlan, abi: Abi): Bytes {
    match plan
    case Single(_, slots) => Pack(slots)
    case Multi(targets) => MultiData(abi, targets)
  }

  /** `pack_slots_calldata`. */
  method PackSlotsCalldata(slots: seq<Word>) returns (data: Bytes)
    ensures data == Pack(slots)
  {
    data := [];
    for i := 0 to |slots|
      invariant data == Pack(slots[..i])
    {
      assert slots[..i + 1] == slots[..i] + [slots[i]];
      PackAppend(slots[..i], slots[i]);
      data := data + WordBytes(slots[i]);
    }
    assert slots[..|slots|] == slots;
  }

  // ----- Decoding -----

  function Unpack(data: Bytes): seq<Word>
    requires |data| % 32 == 0
  {
    if data == [] then [] else Unpack(data[..|data| - 32]) + [WordOf(data[|data| - 32..])]
  }

  /** `decode_packed_values`. */
  function DecodePackedValues(data: Bytes, expected: nat): (values: Option<seq<Word>>) {
    if |data| != expected * 32 then None else Some(Unpack(data))
  }

  lemma {:induction false} UnpackLength(data: Bytes, n: nat)
    requires |data| == n * 32
    ensures |Unpack(data)| == n
  {
    if n == 0 {
    } else {
      UnpackLength(data[..|data| - 32], n - 1);
    }
  }

  /** Packing and decoding are inverse. */
  lemma {:induction false} UnpackOfPack(values: seq<Word>)
    ensures Unpack(Pack(values)) == values
  {
    if values == [] {
    } else {
      var front, last := values[..|values| - 1], values[|values| - 1];
      var data := Pack(values);
      assert data[..|data| - 32] == Pack(front);
      assert data[|data| - 32..] == WordBytes(last);
      WordRoundTrip(last);
      UnpackOfPack(front);
      SplitLast([], values);
    }
  }

  function Answers(a: Address, slots: seq<Word>, values: seq<Word>): (rs: seq<SlotResult>)
    requires |values| == |slots|
    ensures |rs| == |slots|
    ensures forall i :: 0 <= i < |slots| ==> rs[i] == SlotResult(a, slots[i], Ok(values[i]))
  {
    seq(|slots|, i requires 0 <= i < |slots| => SlotResult(a, slots[i], Ok(values[i])))
  }

  function Failures(a: Address, slots: seq<Word>, e: StorageFetchError): (rs: seq<SlotResult>)
    ensures |rs| == |slots|
    ensures forall i :: 0 <= i < |slots| ==> rs[i] == SlotResult(a, slots[i], Err(e))
  {
    seq(|slots|, i requires 0 <= i < |slots| => SlotResult(a, slots[i], Err(e)))
  }

  /** One extractor's return data, for one target. */
  function DecodeExtractor(a: Address, slots: seq<Word>, data: Bytes): seq<SlotResult> {
    match DecodePackedValues(data, |slots|)
    case Some(values) =>
      UnpackLength(data, |slots|);
      Answers(a, slots, values)
    case None => Failures(a, slots, Custom)
  }

  function DecodeTargets(targets: seq<Target>, results: seq<SubResult>): seq<SlotResult>
    requires |targets| == |results|
  {
    if targets == [] then []
    else
      var n := |targets| - 1;
      var t, r := targets[n], results[n];
      DecodeTargets(targets[..n], results[..n]) + DecodeSub(t, r)
  }

  /** One target's part of an `aggregate3` answer. */
  function DecodeSub(t: Target, r: SubResult): seq<SlotResult> {
    if r.success then DecodeExtractor(t.address, t.slots, r.returnData) else Failures(t.address, t.slots, Custom)
  }

  /** `per_target_errors`, and `plan_error_results` for several targets. */
  function TargetFailures(targets: seq<Target>, e: StorageFetchError): seq<SlotResult> {
    if targets == [] then []
    else
      var t := targets[|targets| - 1];
      TargetFailures(targets[..|targets| - 1], e) + Failures(t.address, t.slots, e)
  }

  /** `decode_multi_target_response`. */
  function DecodeMulti(targets: seq<Target>, abi: Abi, response: Bytes): seq<SlotResult> {
    match abi.decodeReturns(response)
    case Some(results) =>
      if |results| == |targets| then DecodeTargets(targets, results) else TargetFailures(targets, Custom)
    case None => TargetFailures(targets, Custom)
  }

  /** `decode_plan_response`. */
  function DecodePlan(plan: CallPlan, abi: Abi, data: Bytes): seq<SlotResult> {
    match plan
    case Single(target, slots) => DecodeExtractor(target, slots, data)
    case Multi(targets) => DecodeMulti(targets, abi, data)
  }

  /** `plan_error_results`. */
  function PlanFailures(plan: CallPlan, e: StorageFetchError): seq<SlotResult> {
    TargetFailures(Targets(plan), e)
  }

  /** A plan's results from one reply: decoded, or the error `e` throughout. */
  function DecodeReply(plan: CallPlan, abi: Abi, reply: Option<Bytes>, e: StorageFetchError): seq<SlotResult> {
    match reply
    case Some(data) => DecodePlan(plan, abi, data)
    case None => PlanFailures(plan, e)
  }

  // ----- One result per requested pair, whatever comes back -----

  function KeysOf(rs: seq<SlotResult>): (keys: seq<SlotKey>)
    ensures |keys| == |rs|
    ensures forall i :: 0 <= i < |rs| ==> keys[i] == SlotKey(rs[i].address, rs[i].slot)
  {
    seq(|rs|, i requires 0 <= i < |rs| => SlotKey(rs[i].address, rs[i].slot))
  }

  /** The requested pairs of a target list, in order. */
  function KeyList(ts: seq<Target>): seq<SlotKey> {
    if ts == [] then []
    else KeyList(ts[..|ts| - 1]) + KeysAt(ts[|ts| - 1].address, ts[|ts| - 1].slots)
  }

  lemma {:induction false} KeyListBag(ts: seq<Target>)
    ensures multiset(KeyList(ts)) == KeyBag(ts)
  {
    if ts == [] {
    } else {
      KeyListBag(ts[..|ts| - 1]);
    }
  }

  lemma KeysOfConcat(a: seq<SlotResult>, b: seq<SlotResult>)
    ensures KeysOf(a + b) == KeysOf(a) + KeysOf(b)
  {
  }

  lemma ExtractorKeys(a: Address, slots: seq<Word>, data: Bytes)
    ensures KeysOf(DecodeExtractor(a, slots, data)) == KeysAt(a, slots)
  {
    if |data| == |slots| * 32 {
      UnpackLength(data, |slots|);
    }
  }

  lemma {:induction false} TargetFailureKeys(ts: seq<Target>, e: StorageFetchError)
    ensures KeysOf(TargetFailures(ts, e)) == KeyList(ts)
  {
    if ts == [] {
    } else {
      var n := |ts| - 1;
      var t := ts[n];
      TargetFailureKeys(ts[..n], e);
      KeysOfConcat(TargetFailures(ts[..n], e), Failures(t.address, t.slots, e));
      assert KeysOf(Failures(t.address, t.slots, e)) == KeysAt(t.address, t.slots);
    }
  }

  lemma {:induction false} DecodeTargetsKeys(ts: seq<Target>, rs: seq<SubResult>)
    requires |ts| == |rs|
    ensures KeysOf(DecodeTargets(ts, rs)) == KeyList(ts)
  {
    if ts == [] {
    } else {
      var n := |ts| - 1;
      var t, r := ts[n], rs[n];
      DecodeTargetsKeys(ts[..n], rs[..n]);
      KeysOfConcat(DecodeTargets(ts[..n], rs[..n]), DecodeSub(t, r));
      ExtractorKeys(t.address, t.slots, r.returnData);
      assert KeysOf(Failures(t.address, t.slots, Custom)) == KeysAt(t.address, t.slots);
    }
  }

  /** Result-count contract of one call: for any returned bytes, exactly one
      result per requested pair, in request order. */
  lemma DecodePlanKeys(plan: CallPlan, abi: Abi, data: Bytes)
    ensures KeysOf(DecodePlan(plan, abi, data)) == KeyList(Targets(plan))
  {
    match plan
    case Single(target, slots) =>
      ExtractorKeys(target, slots, data);
      assert Targets(plan)[..0] == [];
      assert [] + KeysAt(target, slots) == KeysAt(target, slots);
    case Multi(targets) =>
      TargetFailureKeys(targets, Custom);
      match abi.decodeReturns(data)
      case None =>
      case Some(results) =>
        if |results| == |targets| {
          DecodeTargetsKeys(targets, results);
        }
  }

  lemma PlanFailureKeys(plan: CallPlan, e: StorageFetchError)
    ensures KeysOf(PlanFailures(plan, e)) == KeyList(Targets(plan))
  {
    TargetFailureKeys(Targets(plan), e);
  }

  lemma DecodeReplyKeys(plan: CallPlan, abi: Abi, reply: Option<Bytes>, e: StorageFetchError)
    ensures KeysOf(DecodeReply(plan, abi, reply, e)) == KeyList(Targets(plan))
  {
    match reply
    case Some(data) => DecodePlanKeys(plan, abi, data);
    case None => PlanFailureKeys(plan, e);
  }

  // ----- What each result is -----

  /** A target's own return data: the whole reply of a direct call; in a multicall
      its entry, if the reply decodes to one entry per target and that entry
      succeeded. */
  function ReturnDataFor(plan: CallPlan, abi: Abi, reply: Bytes, i: nat): Option<Bytes>
    requires i < |Targets(plan)|
  {
    match plan
    case Single(_, _) => Some(reply)
    case Multi(targets) =>
      match abi.decodeReturns(reply)
      case None => None
      case Some(entries) =>
        if |entries| == |targets| && entries[i].success then Some(entries[i].returnData) else None
  }

  /** The result for the `j`-th slot of a target whose return data is `data`: the
      word at that position if there are 32 bytes per slot, an error otherwise. */
  function ResultAt(t: Target, data: Option<Bytes>, j: nat): SlotResult
    requires j < |t.slots|
  {
    SlotResult(t.address, t.slots[j],
               if data.Some? && |data.value| == 32 * |t.slots| then Ok(WordOf(data.value[32 * j..32 * j + 32]))
               else Err(Custom))
  }

  lemma {:induction false} UnpackAt(data: Bytes, n: nat, j: nat)
    requires |data| == 32 * n && j < n
    ensures |Unpack(data)| == n && Unpack(data)[j] == WordOf(data[32 * j..32 * j + 32])
  {
    UnpackLength(data, n);
    var front := data[..|data| - 32];
    UnpackLength(front, n - 1);
    if j == n - 1 {
      assert data[32 * j..32 * j + 32] == data[|data| - 32..];
    } else {
      UnpackAt(front, n - 1, j);
      assert front[32 * j..32 * j + 32] == data[32 * j..32 * j + 32];
    }
  }

  lemma ExtractorAt(t: Target, data: Bytes, j: nat)
    requires j < |t.slots|
    ensures |DecodeExtractor(t.address, t.slots, data)| == |t.slots|
    ensures DecodeExtractor(t.address, t.slots, data)[j] == ResultAt(t, Some(data), j)
  {
    if |data| == 32 * |t.slots| {
      UnpackAt(data, |t.slots|, j);
    }
  }

  lemma {:induction false} TargetResults(ts: seq<Target>, rs: seq<SubResult>)
    requires |ts| == |rs|
    ensures |DecodeTargets(ts, rs)| == SlotTotal(ts)
  {
    if ts == [] {
    } else {
      var n := |ts| - 1;
      TargetResults(ts[..n], rs[..n]);
      if rs[n].success {
        ExtractorKeys(ts[n].address, ts[n].slots, rs[n].returnData);
        assert |KeysAt(ts[n].address, ts[n].slots)| == |ts[n].slots|;
      }
    }
  }

  lemma {:induction false} PrefixTotal(ts: seq<Target>, i: nat)
    requires i < |ts|
    ensures SlotTotal(ts[..i]) + |ts[i].slots| <= SlotTotal(ts)
  {
    var n := |ts| - 1;
    if i == n {
    } else {
      PrefixTotal(ts[..n], i);
      assert ts[..n][..i] == ts[..i];
    }
  }

  /** What an `aggregate3` entry leaves a target with. */
  function EntryData(r: SubResult): Option<Bytes> {
    if r.success then Some(r.returnData) else None
  }

  lemma SubAt(t: Target, r: SubResult, j: nat)
    requires j < |t.slots|
    ensures |DecodeSub(t, r)| == |t.slots| && DecodeSub(t, r)[j] == ResultAt(t, EntryData(r), j)
  {
    if r.success {
      ExtractorAt(t, r.returnData, j);
    }
  }

  lemma LastTargetAt(ts: seq<Target>, rs: seq<SubResult>, j: nat)
    requires |ts| == |rs| > 0 && j < |ts[|ts| - 1].slots|
    ensures var n := |ts| - 1;
            && SlotTotal(ts[..n]) + j < |DecodeTargets(ts, rs)|
            && DecodeTargets(ts, rs)[SlotTotal(ts[..n]) + j] == ResultAt(ts[n], EntryData(rs[n]), j)
  {
    var n := |ts| - 1;
    TargetResults(ts[..n], rs[..n]);
    SubAt(ts[n], rs[n], j);
  }

  lemma {:induction false} TargetsAt(ts: seq<Target>, rs: seq<SubResult>, i: nat, j: nat, p: nat)
    requires |ts| == |rs| && i < |ts| && j < |ts[i].slots| && p == SlotTotal(ts[..i]) + j
    ensures p < |DecodeTargets(ts, rs)| && DecodeTargets(ts, rs)[p] == ResultAt(ts[i], EntryData(rs[i]), j)
  {
    var n := |ts| - 1;
    if i == n {
      LastTargetAt(ts, rs, j);
    } else {
      var front, entries := ts[..n], rs[..n];
      assert front[..i] == ts[..i];
      TargetsAt(front, entries, i, j, p);
      EarlierTargets(ts, rs, p);
    }
  }

  lemma EarlierTargets(ts: seq<Target>, rs: seq<SubResult>, p: nat)
    requires |ts| == |rs| > 0 && p < |DecodeTargets(ts[..|ts| - 1], rs[..|ts| - 1])|
    ensures p < |DecodeTargets(ts, rs)| && DecodeTargets(ts, rs)[p] == DecodeTargets(ts[..|ts| - 1], rs[..|ts| - 1])[p]
  {
  }

  lemma {:induction false} FailuresAt(ts: seq<Target>, e: StorageFetchError, i: nat, j: nat)
    requires i < |ts| && j < |ts[i].slots|
    ensures SlotTotal(ts[..i]) + j < |TargetFailures(ts, e)|
    ensures TargetFailures(ts, e)[SlotTotal(ts[..i]) + j] == SlotResult(ts[i].address, ts[i].slots[j], Err(e))
  {
    var n := |ts| - 1;
    if i == n {
      FailureCount(ts[..n], e);
    } else {
      assert ts[..n][..i] == ts[..i];
      FailuresAt(ts[..n], e, i, j);
    }
  }

  lemma {:induction false} FailureCount(ts: seq<Target>, e: StorageFetchError)
    ensures |TargetFailures(ts, e)| == SlotTotal(ts)
  {
    if ts == [] {
    } else {
      FailureCount(ts[..|ts| - 1], e);
    }
  }

  /** Decoding, position by position, for any reply: the result of the `j`-th slot
      of the `i`-th target is the word at its position in that target's own
      return data, and an error in every other case. */
  lemma DecodedAt(plan: CallPlan, abi: Abi, reply: Bytes, i: nat, j: nat)
    requires i < |Targets(plan)| && j < |Targets(plan)[i].slots|
    ensures |DecodePlan(plan, abi, reply)| == SlotTotal(Targets(plan))
    ensures SlotTotal(Targets(plan)[..i]) + j < SlotTotal(Targets(plan))
    ensures DecodePlan(plan, abi, reply)[SlotTotal(Targets(plan)[..i]) + j]
         == ResultAt(Targets(plan)[i], ReturnDataFor(plan, abi, reply, i), j)
  {
    var ts := Targets(plan);
    PrefixTotal(ts, i);
    match plan
    case Single(a, slots) =>
      assert ts[..0] == [];
      ExtractorAt(ts[0], reply, j);
    case Multi(targets) =>
      FailuresAt(targets, Custom, i, j);
      FailureCount(targets, Custom);
      match abi.decodeReturns(reply)
      case None =>
      case Some(entries) =>
        if |entries| == |targets| {
          TargetResults(targets, entries);
          TargetsAt(targets, entries, i, j, SlotTotal(targets[..i]) + j);
        }
  }

  /** Every position belongs to one slot of one target. */
  lemma {:induction false} Locate(ts: seq<Target>, p: nat) returns (i: nat, j: nat)
    requires p < SlotTotal(ts)
    ensures i < |ts| && j < |ts[i].slots| && p == SlotTotal(ts[..i]) + j
  {
    var n := |ts| - 1;
    if p < SlotTotal(ts[..n]) {
      i, j := Locate(ts[..n], p);
      assert ts[..n][..i] == ts[..i];
    } else {
      i, j := n, p - SlotTotal(ts[..n]);
    }
  }

  /** `r` is the successful word at its slot's position in its target's own return
      data. */
  ghost predicate Backed(plan: CallPlan, abi: Abi, reply: Bytes, r: SlotResult) {
    exists i: nat, j: nat :: i < |Targets(plan)| && j < |Targets(plan)[i].slots| && BackedAt(plan, abi, reply, r, i, j)
  }

  ghost predicate BackedAt(plan: CallPlan, abi: Abi, reply: Bytes, r: SlotResult, i: nat, j: nat)
    requires i < |Targets(plan)| && j < |Targets(plan)[i].slots|
  {
    var t, data := Targets(plan)[i], ReturnDataFor(plan, abi, reply, i);
    && r.address == t.address && r.slot == t.slots[j]
    && data.Some? && |data.value| == 32 * |t.slots|
    && r.result == Ok(WordOf(data.value[32 * j..32 * j + 32]))
  }

  /** A success is always backed; anything else is an error. */
  lemma SuccessIsBacked(plan: CallPlan, abi: Abi, reply: Bytes, r: SlotResult)
    requires r in DecodePlan(plan, abi, reply) && r.result.Ok?
    ensures Backed(plan, abi, reply, r)
  {
    var p :| 0 <= p < |DecodePlan(plan, abi, reply)| && DecodePlan(plan, abi, reply)[p] == r;
    DecodedCount(plan, abi, reply);
    var i, j := Locate(Targets(plan), p);
    DecodedAt(plan, abi, reply, i, j);
    SuccessAt(plan, abi, reply, r, i, j);
  }

  lemma SuccessAt(plan: CallPlan, abi: Abi, reply: Bytes, r: SlotResult, i: nat, j: nat)
    requires i < |Targets(plan)| && j < |Targets(plan)[i].slots| && r.result.Ok?
    requires r == ResultAt(Targets(plan)[i], ReturnDataFor(plan, abi, reply, i), j)
    ensures Backed(plan, abi, reply, r)
  {
    assert BackedAt(plan, abi, reply, r, i, j);
  }

  lemma DecodedCount(plan: CallPlan, abi: Abi, reply: Bytes)
    ensures |DecodePlan(plan, abi, reply)| == SlotTotal(Targets(plan))
  {
    match plan
    case Single(a, slots) =>
      ExtractorKeys(a, slots, reply);
      assert |KeysAt(a, slots)| == |slots|;
      assert Targets(plan)[..0] == [];
    case Multi(targets) =>
      FailureCount(targets, Custom);
      match abi.decodeReturns(reply)
      case None =>
      case Some(entries) =>
        if |entries| == |targets| {
          TargetResults(targets, entries);
        }
  }
}
