/**
 ERC-20 transfer capture and balance deltas (`src/inspector.rs`).  A delta is
 the raw 256-bit pattern of an `I256`; its arithmetic wraps.
 */
module TransferDeltas {
  import opened Words

  datatype Log = Log(address: Address, topics: seq<Word>, data: Bytes)
  datatype Transfer = Transfer(token: Address, from: Address, recipient: Address, value: Word)

  /** keccak256("Transfer(address,address,uint256)"). */
  const TRANSFER_SIGNATURE: Word := 0xddf252ad_1be2c89b_69c2b068_fc378daa_952ba7f1_63c4a116_28f55a4d_f523b3ef

  type Deltas = map<Address, Word>

  /** `parse_transfer`. */
  function ParseTransfer(log: Log): Option<Transfer> {
    if |log.topics| < 3 then None
    else if log.topics[0] != TRANSFER_SIGNATURE then None
    else if |log.data| < 32 then None
    else Some(Transfer(log.address, log.topics[1] % ADDRESS_MODULUS, log.topics[2] % ADDRESS_MODULUS,
                       WordOf(log.data[..32])))
  }

  /** The standard event layout is read back, whatever follows it. */
  lemma ParseOfEvent(t: Transfer, moreTopics: seq<Word>, moreData: Bytes)
    ensures ParseTransfer(Log(t.token, [TRANSFER_SIGNATURE, t.from, t.recipient] + moreTopics,
                              WordBytes(t.value) + moreData)) == Some(t)
  {
    WordRoundTrip(t.value);
    assert (WordBytes(t.value) + moreData)[..32] == WordBytes(t.value);
  }

  /** The log is a `Transfer` event of `t` in the standard layout, possibly with more
      topics or data behind it. */
  ghost predicate IsEventOf(log: Log, t: Transfer) {
    && |log.topics| >= 3 && log.topics[0] == 0xddf252ad_1be2c89b_69c2b068_fc378daa_952ba7f1_63c4a116_28f55a4d_f523b3ef
    && log.topics[1] % ADDRESS_MODULUS == t.from && log.topics[2] % ADDRESS_MODULUS == t.recipient
    && |log.data| >= 32 && log.data[..32] == WordBytes(t.value)
    && log.address == t.token
  }

  /** Exactly the `Transfer` events are decoded, and to exactly what they say. */
  lemma ParseIff(log: Log, t: Transfer)
    ensures ParseTransfer(log) == Some(t) <==> IsEventOf(log, t)
  {
    if |log.data| >= 32 {
      BytesRoundTrip(log.data[..32]);
      WordRoundTrip(t.value);
    }
  }

  /** Any other log, an approval for one, decodes to nothing. */
  lemma ParsesNothingIff(log: Log)
    ensures ParseTransfer(log).None? <==> forall t :: !IsEventOf(log, t)
  {
    match ParseTransfer(log)
    case Some(t) => ParseIff(log, t);
    case None =>
      forall t ensures !IsEventOf(log, t) {
        ParseIff(log, t);
      }
  }

  /** The transfers a log list decodes to, in order. */
  function Decoded(logs: seq<Log>): seq<Transfer> {
    if logs == [] then []
    else
      var n := |logs| - 1;
      match ParseTransfer(logs[n])
      case Some(t) => Decoded(logs[..n]) + [t]
      case None => Decoded(logs[..n])
  }

  ghost predicate EventAt(logs: seq<Log>, i: nat)
    requires i < |logs|
  {
    exists t :: IsEventOf(logs[i], t)
  }

  /** The decoded list holds one transfer for every event among the logs, in order,
      and nothing else. */
  lemma {:induction false} DecodedAre(logs: seq<Log>) returns (indices: seq<nat>)
    ensures forall i, j :: 0 <= i < j < |indices| ==> indices[i] < indices[j]
    ensures forall i :: i in indices <==> 0 <= i < |logs| && EventAt(logs, i)
    ensures |Decoded(logs)| == |indices|
    ensures forall j :: 0 <= j < |indices| ==> indices[j] < |logs| && IsEventOf(logs[indices[j]], Decoded(logs)[j])
  {
    if logs == [] {
      indices := [];
    } else {
      var n := |logs| - 1;
      indices := DecodedAre(logs[..n]);
      forall i | 0 <= i < n ensures EventAt(logs, i) <==> EventAt(logs[..n], i) {
        assert logs[..n][i] == logs[i];
      }
      EventIff(logs, n);
      indices := Extended(indices, n, ParseTransfer(logs[n]).Some?);
    }
  }

  lemma EventIff(logs: seq<Log>, i: nat)
    requires i < |logs|
    ensures EventAt(logs, i) <==> ParseTransfer(logs[i]).Some?
    ensures ParseTransfer(logs[i]).Some? ==> IsEventOf(logs[i], ParseTransfer(logs[i]).value)
  {
    ParsesNothingIff(logs[i]);
    if ParseTransfer(logs[i]).Some? {
      ParseIff(logs[i], ParseTransfer(logs[i]).value);
    }
  }

  ghost function Extended(indices: seq<nat>, n: nat, more: bool): (longer: seq<nat>)
    ensures forall i :: i in longer <==> i in indices || (more && i == n)
  {
    if more then indices + [n] else indices
  }

  // ----- What a delta means -----

  /** Received minus sent, as unbounded integers. */
  function Effect(t: Transfer, owner: Address, token: Address): int {
    if t.token != token then 0
    else (if t.recipient == owner then t.value else 0) - (if t.from == owner then t.value else 0)
  }

  function Net(ts: seq<Transfer>, owner: Address, token: Address): int {
    if ts == [] then 0 else Net(ts[..|ts| - 1], owner, token) + Effect(ts[|ts| - 1], owner, token)
  }

  predicate Involves(t: Transfer, owner: Address, token: Address) {
    t.token == token && (t.from == owner || t.recipient == owner)
  }

  predicate Touched(ts: seq<Transfer>, owner: Address, token: Address) {
    exists i :: 0 <= i < |ts| && Involves(ts[i], owner, token)
  }

  function Wrap(x: int): (w: Word) {
    x % WORD_MODULUS
  }

  /** `deltas` has exactly the tokens `owner` transacted in, each at its net
      change modulo 2^256. */
  ghost predicate AreDeltas(deltas: Deltas, ts: seq<Transfer>, owner: Address) {
    forall token: Address :: IsDelta(deltas, ts, owner, token)
  }

  ghost predicate IsDelta(deltas: Deltas, ts: seq<Transfer>, owner: Address, token: Address) {
    && (token in deltas <==> Touched(ts, owner, token))
    && (token in deltas ==> deltas[token] == Wrap(Net(ts, owner, token)))
  }

  /** That determines the map. */
  lemma DeltasUnique(a: Deltas, b: Deltas, ts: seq<Transfer>, owner: Address)
    requires AreDeltas(a, ts, owner) && AreDeltas(b, ts, owner)
    ensures a == b
  {
    forall token: Address ensures (token in a <==> token in b) && (token in a ==> a[token] == b[token]) {
      assert IsDelta(a, ts, owner, token) && IsDelta(b, ts, owner, token);
    }
  }

  lemma {:induction false} UntouchedIsZero(ts: seq<Transfer>, owner: Address, token: Address)
    requires !Touched(ts, owner, token)
    ensures Net(ts, owner, token) == 0
  {
    if ts == [] {
    } else {
      var n := |ts| - 1;
      assert ts == ts[..n] + [ts[n]];
      TouchedAppend(ts[..n], ts[n], owner, token);
      UntouchedIsZero(ts[..n], owner, token);
    }
  }

  lemma TouchedAppend(ts: seq<Transfer>, t: Transfer, owner: Address, token: Address)
    ensures Touched(ts + [t], owner, token) <==> Touched(ts, owner, token) || Involves(t, owner, token)
  {
    var all := ts + [t];
    if Touched(ts, owner, token) {
      var i :| 0 <= i < |ts| && Involves(ts[i], owner, token);
      assert Involves(all[i], owner, token);
    }
    if Involves(t, owner, token) {
      assert Involves(all[|ts|], owner, token);
    }
  }

  lemma NetAppend(ts: seq<Transfer>, t: Transfer, owner: Address, token: Address)
    ensures Net(ts + [t], owner, token) == Net(ts, owner, token) + Effect(t, owner, token)
  {
    assert (ts + [t])[..|ts|] == ts;
  }

  lemma WrapAdds(x: int, y: int)
    ensures Wrap(Wrap(x) + y) == Wrap(x + y)
  {
  }

  // ----- One step of either loop -----

  function Entry(deltas: Deltas, token: Address): Word {
    if token in deltas then deltas[token] else 0
  }

  function Debited(deltas: Deltas, t: Transfer, owner: Address): Deltas {
    if t.from == owner then deltas[t.token := Wrap(Entry(deltas, t.token) - t.value)] else deltas
  }

  function Credited(deltas: Deltas, t: Transfer, owner: Address): Deltas {
    if t.recipient == owner then deltas[t.token := Wrap(Entry(deltas, t.token) + t.value)] else deltas
  }

  lemma StepEntry(deltas: Deltas, t: Transfer, owner: Address, token: Address)
    ensures var after := Credited(Debited(deltas, t, owner), t, owner);
            && (token in after <==> token in deltas || Involves(t, owner, token))
            && Entry(after, token) == Wrap(Entry(deltas, token) + Effect(t, owner, token))
  {
    if t.token == token {
      WrapAdds(Entry(deltas, token) - t.value, t.value);
    }
  }

  lemma StepKeeps(deltas: Deltas, ts: seq<Transfer>, t: Transfer, owner: Address)
    requires AreDeltas(deltas, ts, owner)
    ensures AreDeltas(Credited(Debited(deltas, t, owner), t, owner), ts + [t], owner)
  {
    forall token: Address ensures IsDelta(Credited(Debited(deltas, t, owner), t, owner), ts + [t], owner, token) {
      assert IsDelta(deltas, ts, owner, token);
      EntryIsNet(deltas, ts, owner, token);
      StepEntry(deltas, t, owner, token);
      TouchedAppend(ts, t, owner, token);
      NetAppend(ts, t, owner, token);
      WrapAdds(Net(ts, owner, token), Effect(t, owner, token));
    }
  }

  /** Read with absent as zero, every entry is the wrapped net. */
  lemma EntryIsNet(deltas: Deltas, ts: seq<Transfer>, owner: Address, token: Address)
    requires IsDelta(deltas, ts, owner, token)
    ensures Entry(deltas, token) == Wrap(Net(ts, owner, token))
  {
    if token !in deltas {
      UntouchedIsZero(ts, owner, token);
    }
  }

  // ----- The inspector -----

  class TransferInspector {
    var transfers: seq<Transfer>
    var logs: seq<Log>

    /** What the hook maintains; `balance_deltas` does not depend on it. */
    ghost predicate Valid()
      reads this
    {
      transfers == Decoded(logs)
    }

    constructor ()
      ensures Valid() && transfers == [] && logs == []
    {
      transfers, logs := [], [];
    }

    /** The `log` hook. */
    method OnLog(log: Log)
      requires Valid()
      modifies this
      ensures Valid() && logs == old(logs) + [log]
      ensures forall t :: IsEventOf(log, t) ==> transfers == old(transfers) + [t]
      ensures (forall t :: !IsEventOf(log, t)) ==> transfers == old(transfers)
    {
      ParsesNothingIff(log);
      forall t ensures IsEventOf(log, t) <==> ParseTransfer(log) == Some(t) {
        ParseIff(log, t);
      }
      var parsed := ParseTransfer(log);
      if parsed.Some? {
        transfers := transfers + [parsed.value];
      }
      assert (logs + [log])[..|logs|] == logs;
      logs := logs + [log];
    }

    method Clear()
      modifies this
      ensures Valid() && transfers == [] && logs == []
    {
      transfers, logs := [], [];
    }

    method BalanceDeltas(owner: Address) returns (deltas: Deltas)
      ensures AreDeltas(deltas, transfers, owner)
    {
      deltas := map[];
      for i := 0 to |transfers|
        invariant AreDeltas(deltas, transfers[..i], owner)
      {
        var t := transfers[i];
        assert transfers[..i + 1] == transfers[..i] + [t];
        StepKeeps(deltas, transfers[..i], t, owner);
        if t.from == owner {
          deltas := deltas[t.token := Wrap(Entry(deltas, t.token) - t.value)];
        }
        if t.recipient == owner {
          deltas := deltas[t.token := Wrap(Entry(deltas, t.token) + t.value)];
        }
      }
      assert transfers[..|transfers|] == transfers;
    }

    method BalanceDeltasForTokens(owner: Address, tokens: seq<Address>) returns (deltas: Deltas)
      ensures forall token: Address :: token in deltas <==> token in tokens && Touched(transfers, owner, token)
      ensures forall token: Address :: token in deltas ==> deltas[token] == Wrap(Net(transfers, owner, token))
    {
      var all := BalanceDeltas(owner);
      deltas := map token | token in all && token in tokens :: all[token];
      forall token: Address
        ensures token in deltas <==> token in tokens && Touched(transfers, owner, token)
        ensures token in deltas ==> deltas[token] == Wrap(Net(transfers, owner, token))
      {
        assert IsDelta(all, transfers, owner, token);
      }
    }
  }

  /** `parse_receipt_deltas`. */
  method ParseReceiptDeltas(logs: seq<Log>, owner: Address) returns (deltas: Deltas)
    ensures AreDeltas(deltas, Decoded(logs), owner)
  {
    deltas := map[];
    for i := 0 to |logs|
      invariant AreDeltas(deltas, Decoded(logs[..i]), owner)
    {
      assert logs[..i + 1][..i] == logs[..i];
      var parsed := ParseTransfer(logs[i]);
      if parsed.Some? {
        var t := parsed.value;
        StepKeeps(deltas, Decoded(logs[..i]), t, owner);
        if t.from == owner {
          deltas := deltas[t.token := Wrap(Entry(deltas, t.token) - t.value)];
        }
        if t.recipient == owner {
          deltas := deltas[t.token := Wrap(Entry(deltas, t.token) + t.value)];
        }
      }
    }
    assert logs[..|logs|] == logs;
  }

  /** Receipt parsing and the inspector agree: feeding the logs to the hook and
      asking for the deltas gives the same map. */
  method BothWays(logs: seq<Log>, owner: Address) returns (inspected: Deltas, parsed: Deltas)
    ensures inspected == parsed
    ensures AreDeltas(parsed, Decoded(logs), owner)
  {
    var inspector := new TransferInspector();
    for i := 0 to |logs|
      invariant inspector.Valid() && inspector.logs == logs[..i] && fresh(inspector)
    {
      inspector.OnLog(logs[i]);
    }
    assert logs[..|logs|] == logs;
    inspected := inspector.BalanceDeltas(owner);
    parsed := ParseReceiptDeltas(logs, owner);
    DeltasUnique(inspected, parsed, Decoded(logs), owner);
  }

  // ----- The signed reading -----

  const HALF: int := 0x80000000_00000000_00000000_00000000_00000000_00000000_00000000_00000000

  /** The `I256` a raw pattern stands for. */
  function Signed(w: Word): int {
    if w < HALF then w else w - WORD_MODULUS
  }

  /** A reported delta is the true net change exactly when that change fits. */
  lemma SignedDeltaIff(deltas: Deltas, ts: seq<Transfer>, owner: Address, token: Address)
    requires AreDeltas(deltas, ts, owner)
    ensures Signed(Entry(deltas, token)) == Net(ts, owner, token) <==> -HALF <= Net(ts, owner, token) < HALF
  {
    assert IsDelta(deltas, ts, owner, token);
    EntryIsNet(deltas, ts, owner, token);
    SignedWrap(Net(ts, owner, token));
  }

  lemma SignedWrap(x: int)
    ensures Signed(Wrap(x)) == x <==> -HALF <= x < HALF
  {
    assert WORD_MODULUS == 2 * HALF;
  }

  /** An owner who only sends to itself shows a zero. */
  lemma {:induction false} SelfTransfersNetZero(ts: seq<Transfer>, owner: Address, token: Address)
    requires forall i :: 0 <= i < |ts| && Involves(ts[i], owner, token) ==> ts[i].from == ts[i].recipient
    ensures Net(ts, owner, token) == 0
  {
    if ts == [] {
    } else {
      var n := |ts| - 1;
      forall i | 0 <= i < n && Involves(ts[..n][i], owner, token) ensures ts[..n][i].from == ts[..n][i].recipient {
        assert Involves(ts[i], owner, token);
      }
      SelfTransfersNetZero(ts[..n], owner, token);
      assert Involves(ts[n], owner, token) || Effect(ts[n], owner, token) == 0;
    }
  }

  // ----- Conservation -----

  function SumNet(parties: seq<Address>, ts: seq<Transfer>, token: Address): int {
    if parties == [] then 0
    else SumNet(parties[..|parties| - 1], ts, token) + Net(ts, parties[|parties| - 1], token)
  }

  /** `v` counted once for every occurrence of `a`. */
  function Tally(parties: seq<Address>, a: Address, v: int): int {
    if parties == [] then 0
    else Tally(parties[..|parties| - 1], a, v) + if parties[|parties| - 1] == a then v else 0
  }

  ghost predicate Distinct(parties: seq<Address>) {
    forall i, j :: 0 <= i < j < |parties| ==> parties[i] != parties[j]
  }

  lemma {:induction false} TallyOnce(parties: seq<Address>, a: Address, v: int)
    requires Distinct(parties)
    ensures Tally(parties, a, v) == if a in parties then v else 0
  {
    if parties == [] {
    } else {
      var n := |parties| - 1;
      assert parties == parties[..n] + [parties[n]];
      TallyOnce(parties[..n], a, v);
    }
  }

  /** What one transfer adds to the sum over `parties`. */
  function Moved(parties: seq<Address>, t: Transfer, token: Address): int {
    if t.token == token then Tally(parties, t.recipient, t.value) - Tally(parties, t.from, t.value) else 0
  }

  lemma {:induction false} SumNetStep(parties: seq<Address>, ts: seq<Transfer>, t: Transfer, token: Address)
    ensures SumNet(parties, ts + [t], token) == SumNet(parties, ts, token) + Moved(parties, t, token)
  {
    if parties == [] {
    } else {
      var n := |parties| - 1;
      SumNetStep(parties[..n], ts, t, token);
      NetAppend(ts, t, parties[n], token);
    }
  }

  lemma {:induction false} SumOfNothing(parties: seq<Address>, token: Address)
    ensures SumNet(parties, [], token) == 0
  {
    if parties == [] {
    } else {
      SumOfNothing(parties[..|parties| - 1], token);
    }
  }

  ghost predicate Covers(parties: seq<Address>, ts: seq<Transfer>, token: Address) {
    forall i :: 0 <= i < |ts| && ts[i].token == token ==> ts[i].from in parties && ts[i].recipient in parties
  }

  /** Transfers move value and create none. */
  lemma {:induction false} NetsCancel(parties: seq<Address>, ts: seq<Transfer>, token: Address)
    requires Distinct(parties) && Covers(parties, ts, token)
    ensures SumNet(parties, ts, token) == 0
  {
    if ts == [] {
      SumOfNothing(parties, token);
    } else {
      var n := |ts| - 1;
      var t := ts[n];
      assert ts == ts[..n] + [t];
      NetsCancel(parties, ts[..n], token);
      SumNetStep(parties, ts[..n], t, token);
      TallyOnce(parties, t.from, t.value);
      TallyOnce(parties, t.recipient, t.value);
    }
  }

  function SumEntries(reports: seq<Deltas>, token: Address): int {
    if reports == [] then 0 else SumEntries(reports[..|reports| - 1], token) + Entry(reports[|reports| - 1], token)
  }

  lemma {:induction false} EntriesFollowNets(parties: seq<Address>, reports: seq<Deltas>, ts: seq<Transfer>,
                                             token: Address)
    requires |reports| == |parties| && forall i :: 0 <= i < |parties| ==> AreDeltas(reports[i], ts, parties[i])
    ensures Wrap(SumEntries(reports, token)) == Wrap(SumNet(parties, ts, token))
  {
    if parties == [] {
    } else {
      var n := |parties| - 1;
      EntriesFollowNets(parties[..n], reports[..n], ts, token);
      assert IsDelta(reports[n], ts, parties[n], token);
      EntryIsNet(reports[n], ts, parties[n], token);
      WrapSum(SumEntries(reports[..n], token), SumNet(parties[..n], ts, token), Net(ts, parties[n], token));
    }
  }

  lemma WrapSum(a: int, b: int, x: int)
    requires Wrap(a) == Wrap(b)
    ensures Wrap(a + Wrap(x)) == Wrap(b + x)
  {
    WrapAdds(x, a);
    WrapAdds(a, x);
    WrapAdds(b, x);
  }

  /** Conservation: over any duplicate-free list of accounts that includes every
      party of the token, the reported deltas sum to zero modulo 2^256. */
  lemma DeltasConserve(parties: seq<Address>, reports: seq<Deltas>, ts: seq<Transfer>, token: Address)
    requires |reports| == |parties| && forall i :: 0 <= i < |parties| ==> AreDeltas(reports[i], ts, parties[i])
    requires Distinct(parties) && Covers(parties, ts, token)
    ensures Wrap(SumEntries(reports, token)) == 0
  {
    EntriesFollowNets(parties, reports, ts, token);
    NetsCancel(parties, ts, token);
  }
}
