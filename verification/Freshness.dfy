/**
 Classification, observation, and the vocabulary of the optimistic
 verify-and-rerun loop (`src/freshness.rs`).
 */
module Freshness {
  import opened Words
  import opened Simulation

  datatype Validity = Pinned | Volatile | ValidThrough(limit: nat)

  /** `FreshnessRegistry`, as cloned into a validator. */
  datatype Registry = Registry(default: Validity, accounts: map<Address, Validity>, slots: map<SlotKey, Validity>)

  /** Slot before account before default. */
  function ValidityOf(r: Registry, k: SlotKey): Validity {
    if k in r.slots then r.slots[k]
    else if k.address in r.accounts then r.accounts[k.address]
    else r.default
  }

  predicate IsVolatile(r: Registry, k: SlotKey, now: nat) {
    match ValidityOf(r, k)
    case Pinned => false
    case Volatile => true
    case ValidThrough(limit) => now > limit
  }

  /** The classification that governs a slot: its own, else its account's, else
      the default. */
  predicate Governs(r: Registry, k: SlotKey, v: Validity) {
    || (k in r.slots && v == r.slots[k])
    || (k !in r.slots && k.address in r.accounts && v == r.accounts[k.address])
    || (k !in r.slots && k.address !in r.accounts && v == r.default)
  }

  /** A slot is live exactly when what governs it is `Volatile`, or a validity
      whose limit has passed. */
  lemma VolatileIff(r: Registry, k: SlotKey, now: nat)
    ensures IsVolatile(r, k, now) <==>
            exists v :: Governs(r, k, v) && (v.Volatile? || (v.ValidThrough? && v.limit < now))
    ensures exists v :: Governs(r, k, v)
    ensures forall v, u :: Governs(r, k, v) && Governs(r, k, u) ==> v == u
  {
    assert Governs(r, k, ValidityOf(r, k));
  }

  function VolatileOnly(r: Registry, keys: set<SlotKey>, now: nat): (kept: set<SlotKey>)
    ensures kept <= keys
  {
    set k | k in keys && IsVolatile(r, k, now)
  }

  /** Absent slots read as zero: a slot the snapshot does not hold counts as
      unchanged exactly when its fetched value is zero. */
  lemma AbsentReadsZero(snapshot: Snapshot, values: map<SlotKey, Word>, k: SlotKey)
    requires k in values && k !in snapshot.storage
    ensures k in Diff(snapshot, values) <==> values[k] != 0
    ensures Overlay(snapshot, map[])(k) == 0
  {
  }

  // ----- Observation -----

  datatype Observation = Observation(lastValue: Word, observations: nat, changes: nat, lastChecked: nat,
                                     lastChanged: nat)

  type Tracker = map<SlotKey, Observation>

  /** `SlotObservationTracker::observe`, for one slot. */
  function Observed(tracker: Tracker, k: SlotKey, value: Word, now: nat): Observation {
    if k in tracker then
      var o := tracker[k];
      if o.lastValue != value then Observation(value, o.observations + 1, o.changes + 1, now, now)
      else Observation(o.lastValue, o.observations + 1, o.changes, now, o.lastChanged)
    else Observation(value, 1, 0, now, 0)
  }

  /** A first observation is a baseline; later ones count, and a different value
      is a change at `now`. */
  lemma ObservedCounts(tracker: Tracker, k: SlotKey, value: Word, now: nat)
    ensures var o := Observed(tracker, k, value, now);
            && o.lastValue == value && o.lastChecked == now
            && (k !in tracker ==> o.observations == 1 && o.changes == 0 && o.lastChanged == 0)
            && (k in tracker ==>
                  && o.observations == tracker[k].observations + 1
                  && (o.changes == tracker[k].changes + 1 <==> value != tracker[k].lastValue)
                  && (value == tracker[k].lastValue ==>
                        o.changes == tracker[k].changes && o.lastChanged == tracker[k].lastChanged)
                  && (value != tracker[k].lastValue ==> o.lastChanged == now))
  {
  }

  /** Each slot of `values` observed exactly once. */
  function ObserveAll(tracker: Tracker, values: map<SlotKey, Word>, now: nat): Tracker {
    map k | k in tracker.Keys + values.Keys ::
      if k in values then Observed(tracker, k, values[k], now) else tracker[k]
  }

  lemma ObserveNothing(tracker: Tracker, now: nat)
    ensures ObserveAll(tracker, map[], now) == tracker
  {
  }

  lemma ObserveInTurn(tracker: Tracker, a: map<SlotKey, Word>, b: map<SlotKey, Word>, now: nat)
    requires a.Keys !! b.Keys
    ensures ObserveAll(ObserveAll(tracker, a, now), b, now) == ObserveAll(tracker, a + b, now)
  {
  }

  // ----- Verdicts -----

  datatype SlotChange = SlotChange(key: SlotKey, before: Word, after: Word)

  datatype Reason =
    | BlockhashRead(request: nat)
    | NoFetcher
    | FetchFailed
    | SlotOmitted(key: SlotKey)
    | RerunFailed(request: nat)
    | RerunReadBlockhash(request: nat)
    | RoundCapExceeded

  datatype Validation =
    | ConfirmedStorage
    | ConfirmedFull
    | Corrected(results: seq<SimResult>, changedSlots: seq<SlotChange>)
    | Unverified(reason: Reason)

  const MAX_VALIDATION_ROUNDS: nat := 8

  // ----- Fetching -----

  /** One entry of a fetcher's answer; `None` is a fetch error. */
  datatype Fetched = Fetched(key: SlotKey, value: Option<Word>)

  /** A batch fetcher; the ordinal lets equal batches be answered differently. */
  type BatchFetcher = (nat, seq<SlotKey>) -> seq<Fetched>

  /** The answers as a map, later entries winning, up to the first error. */
  function Collected(answers: seq<Fetched>): Option<map<SlotKey, Word>> {
    if answers == [] then Some(map[])
    else
      var last := answers[|answers| - 1];
      match Collected(answers[..|answers| - 1])
      case None => None
      case Some(m) => if last.value.Some? then Some(m[last.key := last.value.value]) else None
  }

  lemma {:induction false} CollectedError(answers: seq<Fetched>, i: nat)
    requires i <= |answers| && Collected(answers[..i]).None?
    ensures Collected(answers).None?
  {
    if i < |answers| {
      var front := answers[..|answers| - 1];
      assert front[..i] == answers[..i];
      CollectedError(front, i);
    } else {
      assert answers[..i] == answers;
    }
  }

  /** Why an answer is not accepted. */
  predicate Rejected(requested: seq<SlotKey>, collected: Option<map<SlotKey, Word>>, reason: Reason) {
    match reason
    case FetchFailed => collected.None?
    case SlotOmitted(k) => k in requested && collected.Some? && k !in collected.value
    case _ => false
  }

  /** `collect_fetch_results`: every requested slot, or the reason why not. */
  method CollectFetchResults(requested: seq<SlotKey>, answers: seq<Fetched>)
    returns (r: Result<map<SlotKey, Word>, Reason>)
    ensures r.Ok? ==> Collected(answers) == Some(r.value) && forall k :: k in requested ==> k in r.value
    ensures r.Err? ==> Rejected(requested, Collected(answers), r.error)
  {
    var m: map<SlotKey, Word> := map[];
    for i := 0 to |answers|
      invariant Collected(answers[..i]) == Some(m)
    {
      var a := answers[i];
      assert answers[..i + 1][..i] == answers[..i];
      match a.value
      case Some(v) => m := m[a.key := v];
      case None =>
        CollectedError(answers, i + 1);
        return Err(FetchFailed);
    }
    assert answers[..|answers|] == answers;
    for i := 0 to |requested|
      invariant forall j :: 0 <= j < i ==> requested[j] in m
    {
      if requested[i] !in m {
        return Err(SlotOmitted(requested[i]));
      }
    }
    r := Ok(m);
  }

  /** A fetcher whose values, whenever it gives any, are those of `truth`; it may
      still fail or omit a slot. */
  ghost predicate Honest(fetcher: BatchFetcher, truth: SlotKey -> Word) {
    forall t, keys :: HonestAnswers(fetcher(t, keys), truth)
  }

  ghost predicate HonestAnswers(answers: seq<Fetched>, truth: SlotKey -> Word) {
    forall i :: 0 <= i < |answers| && answers[i].value.Some? ==> answers[i].value.value == truth(answers[i].key)
  }

  /** A fetcher that never fails and answers every requested slot. */
  ghost predicate Complete(fetcher: BatchFetcher) {
    forall t, keys :: CompleteAnswers(fetcher(t, keys), keys)
  }

  ghost predicate CompleteAnswers(answers: seq<Fetched>, keys: seq<SlotKey>) {
    && (forall i :: 0 <= i < |answers| ==> answers[i].value.Some?)
    && forall k :: k in keys ==> exists i :: 0 <= i < |answers| && answers[i].key == k
  }

  ghost predicate AnswersBy(fetcher: BatchFetcher, truth: SlotKey -> Word) {
    Honest(fetcher, truth) && Complete(fetcher)
  }

  /** Honest answers that collect at all collect to the truth. */
  lemma {:induction false} CollectedTruth(answers: seq<Fetched>, truth: SlotKey -> Word)
    requires HonestAnswers(answers, truth) && Collected(answers).Some?
    ensures forall k :: k in Collected(answers).value ==> Collected(answers).value[k] == truth(k)
  {
    if answers == [] {
    } else {
      CollectedTruth(answers[..|answers| - 1], truth);
    }
  }

  lemma {:induction false} CollectedAll(answers: seq<Fetched>)
    requires forall i :: 0 <= i < |answers| ==> answers[i].value.Some?
    ensures Collected(answers).Some?
    ensures forall i :: 0 <= i < |answers| ==> answers[i].key in Collected(answers).value
  {
    if answers == [] {
    } else {
      CollectedAll(answers[..|answers| - 1]);
    }
  }

  // ----- Validator input -----

  datatype ValidatorInput = ValidatorInput(
    snapshot: Snapshot,
    fetcher: Option<BatchFetcher>,
    requests: seq<SimRequest>,
    readSets: seq<set<SlotKey>>,
    registry: Registry,
    now: nat,
    verifySet: seq<SlotKey>,
    optimistic: seq<SimResult>,
    blockhashReaders: seq<nat>)

  predicate Live(input: ValidatorInput, k: SlotKey) {
    IsVolatile(input.registry, k, input.now)
  }

  function LiveReads(input: ValidatorInput, e: Execution): set<SlotKey>
    requires e.Done?
  {
    VolatileOnly(input.registry, e.slots, input.now)
  }

  /** `result` and `reads` are those of executing request `i` under `overrides`. */
  ghost predicate RanUnder(input: ValidatorInput, i: nat, overrides: map<SlotKey, Word>, result: SimResult,
                           live: set<SlotKey>)
    requires i < |input.requests|
  {
    var e := Simulate(input.requests[i], input.snapshot, overrides);
    e.Done? && !e.hashMiss && result == ToSim(e) && live == LiveReads(input, e)
  }

  /** What `FreshnessController::run` hands over: the optimistic results and read
      sets are those of the snapshot, and block-hash readers are listed. */
  ghost predicate Consistent(input: ValidatorInput) {
    && |input.requests| == |input.readSets| == |input.optimistic|
    && (forall i :: 0 <= i < |input.requests| && i !in input.blockhashReaders ==>
          RanUnder(input, i, map[], input.optimistic[i], input.readSets[i]))
  }

  /** The slots of `values` that differ from the snapshot, with their new value. */
  function Diff(snapshot: Snapshot, values: map<SlotKey, Word>): map<SlotKey, Word> {
    map k | k in values && values[k] != ValueIn(snapshot.storage, k) :: values[k]
  }

  function SetOf(q: seq<SlotKey>): (s: set<SlotKey>)
    ensures forall k :: k in s <==> k in q
  {
    set k | k in q
  }

  /** The slots verified first: the policy's choice and every live read. */
  function InitialVerify(input: ValidatorInput): set<SlotKey> {
    VolatileOnly(input.registry, SetOf(input.verifySet) + (set s, k | s in input.readSets && k in s :: k), input.now)
  }

  /** The guarantee: each result is the request simulated on the snapshot with
      every verified slot at its fetched value, read no unresolved block hash,
      and read no live slot that was not verified. */
  ghost predicate Trustworthy(input: ValidatorInput, fetched: map<SlotKey, Word>, results: seq<SimResult>) {
    && |results| == |input.requests|
    && forall i :: 0 <= i < |results| ==> TrustworthyAt(input, fetched, results, i)
  }

  ghost predicate TrustworthyAt(input: ValidatorInput, fetched: map<SlotKey, Word>, results: seq<SimResult>, i: nat)
    requires i < |results| == |input.requests|
  {
    var e := Simulate(input.requests[i], input.snapshot, fetched);
    e.Done? && !e.hashMiss && results[i] == ToSim(e) && LiveReads(input, e) <= fetched.Keys
  }

  /** Requests whose optimistic live reads meet a changed slot. */
  function Affected(input: ValidatorInput, changed: map<SlotKey, Word>): set<nat>
    requires |input.readSets| == |input.requests|
  {
    set i | 0 <= i < |input.requests| && input.readSets[i] * changed.Keys != {}
  }
}
