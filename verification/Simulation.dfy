/**
 Simulated calls as the freshness validator sees them (`src/freshness.rs`): a
 deterministic, gas-bounded reader of a total storage.  Nothing is assumed of
 the contract code: the next action may depend on everything read so far.
 */
module Simulation {
  import opened Words

  /** What an execution ends in (`ExecutionResult`). */
  datatype ExecutionResult =
    | Success(gasUsed: nat, logs: seq<Bytes>, output: Bytes)
    | Revert(gasUsed: nat, output: Bytes)
    | Halt(gasUsed: nat, reason: string)

  datatype Action =
    | Load(key: SlotKey)
    | LoadBlockHash(number: nat)
    | Finish(result: ExecutionResult)
    | HostFailure(error: string)

  /** The request: its code and inputs as a strategy from the words loaded so far
      to the next action, a gas budget, and the predicted read set. */
  datatype SimRequest = SimRequest(program: seq<Word> -> Action, gas: nat, accessList: Option<seq<SlotKey>>)

  /** A completed execution, the slots it read, and whether it read a block hash
      that was not resident; or a host error. */
  datatype Execution =
    | Done(result: ExecutionResult, slots: set<SlotKey>, hashMiss: bool)
    | HostError(error: string)

  function Execute(program: seq<Word> -> Action, gas: nat, store: SlotKey -> Word, hashes: map<nat, Word>,
                   loaded: seq<Word>, slots: set<SlotKey>, miss: bool): Execution
    decreases gas
  {
    if gas == 0 then Done(Halt(|loaded|, "OutOfGas"), slots, miss)
    else
      match program(loaded)
      case Load(k) => Execute(program, gas - 1, store, hashes, loaded + [store(k)], slots + {k}, miss)
      case LoadBlockHash(n) =>
        if n in hashes then Execute(program, gas - 1, store, hashes, loaded + [hashes[n]], slots, miss)
        else Execute(program, gas - 1, store, hashes, loaded + [0], slots, true)
      case Finish(r) => Done(r, slots, miss)
      case HostFailure(e) => HostError(e)
  }

  lemma {:induction false} ReadsGrow(program: seq<Word> -> Action, gas: nat, store: SlotKey -> Word,
                                     hashes: map<nat, Word>,
                                     loaded: seq<Word>, slots: set<SlotKey>, miss: bool)
    ensures var e := Execute(program, gas, store, hashes, loaded, slots, miss);
            e.Done? ==> slots <= e.slots
    decreases gas
  {
    if gas == 0 {
    } else {
      match program(loaded)
      case Load(k) => ReadsGrow(program, gas - 1, store, hashes, loaded + [store(k)], slots + {k}, miss);
      case LoadBlockHash(n) =>
        if n in hashes {
          ReadsGrow(program, gas - 1, store, hashes, loaded + [hashes[n]], slots, miss);
        } else {
          ReadsGrow(program, gas - 1, store, hashes, loaded + [0], slots, true);
        }
      case Finish(r) =>
      case HostFailure(e) =>
    }
  }

  /** Locality: a store that agrees on everything a completed execution read
      gives the same execution. */
  lemma {:induction false} Locality(program: seq<Word> -> Action, gas: nat, store: SlotKey -> Word,
                                    other: SlotKey -> Word,
                                    hashes: map<nat, Word>, loaded: seq<Word>, slots: set<SlotKey>, miss: bool)
    requires Execute(program, gas, store, hashes, loaded, slots, miss).Done?
    requires forall k :: k in Execute(program, gas, store, hashes, loaded, slots, miss).slots ==> store(k) == other(k)
    ensures Execute(program, gas, other, hashes, loaded, slots, miss)
         == Execute(program, gas, store, hashes, loaded, slots, miss)
    decreases gas
  {
    if gas == 0 {
    } else {
      match program(loaded)
      case Load(k) =>
        ReadsGrow(program, gas - 1, store, hashes, loaded + [store(k)], slots + {k}, miss);
        Locality(program, gas - 1, store, other, hashes, loaded + [store(k)], slots + {k}, miss);
      case LoadBlockHash(n) =>
        if n in hashes {
          Locality(program, gas - 1, store, other, hashes, loaded + [hashes[n]], slots, miss);
        } else {
          Locality(program, gas - 1, store, other, hashes, loaded + [0], slots, true);
        }
      case Finish(r) =>
      case HostFailure(e) =>
    }
  }

  lemma {:induction false} MissStays(program: seq<Word> -> Action, gas: nat, store: SlotKey -> Word,
                                     hashes: map<nat, Word>, loaded: seq<Word>, slots: set<SlotKey>)
    ensures var e := Execute(program, gas, store, hashes, loaded, slots, true);
            e.Done? ==> e.hashMiss
    decreases gas
  {
    if gas == 0 {
    } else {
      match program(loaded)
      case Load(k) => MissStays(program, gas - 1, store, hashes, loaded + [store(k)], slots + {k});
      case LoadBlockHash(n) =>
        MissStays(program, gas - 1, store, hashes, loaded + [if n in hashes then hashes[n] else 0], slots);
      case Finish(r) =>
      case HostFailure(e) =>
    }
  }

  ghost predicate Extends(hashes: map<nat, Word>, more: map<nat, Word>) {
    forall n :: n in hashes ==> n in more && more[n] == hashes[n]
  }

  /** The flag is real: an execution that missed no block hash is the same when
      every missing hash is supplied, whatever its value. */
  lemma {:induction false} HashLocality(program: seq<Word> -> Action, gas: nat, store: SlotKey -> Word,
                                        hashes: map<nat, Word>, more: map<nat, Word>, loaded: seq<Word>,
                                        slots: set<SlotKey>)
    requires Extends(hashes, more)
    requires Execute(program, gas, store, hashes, loaded, slots, false).Done?
    requires !Execute(program, gas, store, hashes, loaded, slots, false).hashMiss
    ensures Execute(program, gas, store, more, loaded, slots, false)
         == Execute(program, gas, store, hashes, loaded, slots, false)
    decreases gas
  {
    if gas == 0 {
    } else {
      match program(loaded)
      case Load(k) => HashLocality(program, gas - 1, store, hashes, more, loaded + [store(k)], slots + {k});
      case LoadBlockHash(n) =>
        if n in hashes {
          HashLocality(program, gas - 1, store, hashes, more, loaded + [hashes[n]], slots);
        } else {
          MissStays(program, gas - 1, store, hashes, loaded + [0], slots);
        }
      case Finish(r) =>
      case HostFailure(e) =>
    }
  }

  /** A point-in-time cache snapshot; a slot it does not hold reads as zero. */
  datatype Snapshot = Snapshot(storage: map<SlotKey, Word>, hashes: map<nat, Word>)

  function ValueIn(m: map<SlotKey, Word>, k: SlotKey): Word {
    if k in m then m[k] else 0
  }

  function ReadOverlay(snapshot: Snapshot, overrides: map<SlotKey, Word>, k: SlotKey): Word {
    if k in overrides then overrides[k] else ValueIn(snapshot.storage, k)
  }

  /** The storage an overlay presents. */
  function Overlay(snapshot: Snapshot, overrides: map<SlotKey, Word>): SlotKey -> Word {
    (k: SlotKey) => ReadOverlay(snapshot, overrides, k)
  }

  /** `call_raw_with_access_list_with` on a store. */
  function Run(req: SimRequest, store: SlotKey -> Word, hashes: map<nat, Word>): Execution {
    Execute(req.program, req.gas, store, hashes, [], {}, false)
  }

  function Simulate(req: SimRequest, snapshot: Snapshot, overrides: map<SlotKey, Word>): Execution {
    Run(req, Overlay(snapshot, overrides), snapshot.hashes)
  }

  lemma RunLocality(req: SimRequest, store: SlotKey -> Word, other: SlotKey -> Word, hashes: map<nat, Word>)
    requires Run(req, store, hashes).Done?
    requires forall k :: k in Run(req, store, hashes).slots ==> store(k) == other(k)
    ensures Run(req, other, hashes) == Run(req, store, hashes)
  {
    Locality(req.program, req.gas, store, other, hashes, [], {}, false);
  }

  lemma RunHashLocality(req: SimRequest, store: SlotKey -> Word, hashes: map<nat, Word>, more: map<nat, Word>)
    requires Extends(hashes, more) && Run(req, store, hashes).Done? && !Run(req, store, hashes).hashMiss
    ensures Run(req, store, more) == Run(req, store, hashes)
  {
    HashLocality(req.program, req.gas, store, hashes, more, [], {});
  }

  /** Overlays that agree on the slots read give the same execution. */
  lemma OverlayLocality(req: SimRequest, snapshot: Snapshot, a: map<SlotKey, Word>, b: map<SlotKey, Word>)
    requires Simulate(req, snapshot, a).Done?
    requires forall k :: k in Simulate(req, snapshot, a).slots ==>
              ReadOverlay(snapshot, a, k) == ReadOverlay(snapshot, b, k)
    ensures Simulate(req, snapshot, b) == Simulate(req, snapshot, a)
  {
    RunLocality(req, Overlay(snapshot, a), Overlay(snapshot, b), snapshot.hashes);
  }

  datatype SimStatus = Succeeded | Reverted | Halted(reason: string)

  datatype SimResult = SimResult(status: SimStatus, gasUsed: nat, logs: seq<Bytes>, output: Bytes,
                                 accessList: set<SlotKey>)

  /** `result_to_sim`. */
  function ToSim(e: Execution): SimResult
    requires e.Done?
  {
    match e.result
    case Success(gas, logs, output) => SimResult(Succeeded, gas, logs, output, e.slots)
    case Revert(gas, output) => SimResult(Reverted, gas, [], output, e.slots)
    case Halt(gas, reason) => SimResult(Halted(reason), gas, [], [], e.slots)
  }

  /** The reported status, payload and read set, case by case: only a success
      carries logs, and a halt carries no payload. */
  lemma SimReports(e: Execution)
    requires e.Done?
    ensures ToSim(e).status == Succeeded <==> e.result.Success?
    ensures ToSim(e).status == Reverted <==> e.result.Revert?
    ensures e.result.Halt? ==> ToSim(e).status == Halted(e.result.reason)
    ensures ToSim(e).gasUsed == e.result.gasUsed && ToSim(e).accessList == e.slots
    ensures ToSim(e).output == (if e.result.Halt? then [] else e.result.output)
    ensures ToSim(e).logs == (if e.result.Success? then e.result.logs else [])
  {
  }
}
