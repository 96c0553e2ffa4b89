/**
 `fetch_account_fields_bulk` of `src/bulk_storage.rs`: balances and code hashes
 of many accounts in one call.
 */
module AccountQuery {
  import opened Words
  import opened Evm
  import opened AccountFields
  import opened Fragment
  import opened BulkPlan
  import opened BulkCalls
  import opened IdealNode
  import opened BulkFetch
  import opened Bundling
  import opened StoragePrograms

  datatype AccountSample = AccountSample(address: Address, balance: Word, codeHash: Word)

  lemma PaddedAddress(a: Address)
    ensures Zeros(12) + ToBytes(a, 20) == WordBytes(a)
  {
    var b := Zeros(12) + ToBytes(a, 20);
    PowWidths();
    DecodeOfEncode(a, 20);
    ZeroPrefix(Zeros(12), ToBytes(a, 20));
    EncodeOfDecode(b);
  }

  method PadAddresses(addresses: seq<Address>) returns (calldata: Bytes)
    ensures calldata == Pack(addresses)
  {
    calldata := [];
    for i := 0 to |addresses|
      invariant calldata == Pack(addresses[..i])
    {
      assert addresses[..i + 1] == addresses[..i] + [addresses[i]];
      PackAppend(addresses[..i], addresses[i]);
      PaddedAddress(addresses[i]);
      Associate(calldata, Zeros(12), ToBytes(addresses[i], 20));
      calldata := calldata + Zeros(12) + ToBytes(addresses[i], 20);
    }
    assert addresses[..|addresses|] == addresses;
  }

  /** The `i*64` slicing of the host code. */
  function SampleAt(addresses: seq<Address>, data: Bytes, i: nat): AccountSample
    requires i < |addresses| && |data| == 64 * |addresses|
  {
    AccountSample(addresses[i], WordOf(data[i * 64..i * 64 + 32]), WordOf(data[i * 64 + 32..i * 64 + 64]))
  }

  /** The slicing recovers exactly the pair the program wrote for address `i`. */
  lemma SlicingRecovers(ctx: Context, addresses: seq<Address>, i: nat)
    requires i < |addresses|
    ensures SampleAt(addresses, Pack(Fields(ctx, addresses)), i)
         == AccountSample(addresses[i], ctx.balance(addresses[i]), ctx.codeHash(addresses[i]))
  {
    var ws := Fields(ctx, addresses);
    FieldsAt(ctx, addresses, i);
    SlicedSample(addresses, ws, Pack(ws), i);
  }

  lemma SlicedSample(addresses: seq<Address>, ws: seq<Word>, data: Bytes, i: nat)
    requires |ws| == 2 * |addresses| && data == Pack(ws) && i < |addresses|
    ensures |data| == 64 * |addresses|
    ensures SampleAt(addresses, data, i) == AccountSample(addresses[i], ws[2 * i], ws[2 * i + 1])
  {
    WordSlice(ws, 2 * i, i * 64, i * 64 + 32);
    WordSlice(ws, 2 * i + 1, i * 64 + 32, i * 64 + 64);
  }

  lemma WordSlice(ws: seq<Word>, k: nat, lo: nat, hi: nat)
    requires k < |ws| && lo == 32 * k && hi == lo + 32
    ensures hi <= |Pack(ws)| && WordOf(Pack(ws)[lo..hi]) == ws[k]
  {
    PackedWordAt(ws, k);
  }

  ghost predicate AreSlices(addresses: seq<Address>, data: Bytes, samples: seq<AccountSample>) {
    && |samples| == |addresses| && |data| == 64 * |addresses|
    && forall i :: 0 <= i < |addresses| ==> IsSlice(addresses[i], data, samples[i], i)
  }

  /** The sample is the address with the two words at byte `64 * i`. */
  ghost predicate IsSlice(address: Address, data: Bytes, sample: AccountSample, i: nat) {
    && i * 64 + 64 <= |data|
    && sample.address == address
    && sample.balance == WordOf(data[i * 64..i * 64 + 32])
    && sample.codeHash == WordOf(data[i * 64 + 32..i * 64 + 64])
  }

  /** One call to the host with the program injected and the padded addresses. */
  function HostRequest(addresses: seq<Address>): CallRequest {
    CallRequest(MULTICALL3, Pack(addresses), HostOverrides())
  }

  /** What the query reports for `a`: the true fields, except that the host of
      the injected program reports the program's own code hash. */
  function Expected(chain: Chain, a: Address): AccountSample {
    AccountSample(a, chain.balance(a),
                  if a == MULTICALL3 then chain.hashOf(Program(ACCOUNT_FIELDS)) else chain.codeHash(a))
  }

  function HostOverrides(): (o: Overrides)
    ensures MULTICALL3 in o && o[MULTICALL3] == Program(ACCOUNT_FIELDS)
    ensures forall a :: a in o ==> a == MULTICALL3
  {
    map[MULTICALL3 := Program(ACCOUNT_FIELDS)]
  }

  lemma QueryAnswers(chain: Chain, abi: Abi, addresses: seq<Address>)
    requires MULTICALL3 !in chain.precompiles && 64 * |addresses| < WORD_MODULUS
    ensures Modelled(chain, abi, HostOverrides(), MULTICALL3, Pack(addresses))
    ensures EthCall(chain, abi, HostOverrides(), MULTICALL3, Pack(addresses))
         == Some(Pack(Fields(HostContext(chain, addresses), addresses)))
  {
    var overrides := HostOverrides();
    AccountFieldsInFragment();
    PackedCalldata(chain.sender, addresses, chain.storage(MULTICALL3), chain.balance, CodeHashes(chain, overrides));
    AccountFieldsReturns(HostContext(chain, addresses), addresses);
    ProgramCall(chain, abi, overrides, MULTICALL3, Pack(addresses), ACCOUNT_FIELDS);
  }

  /** What the injected program runs in. */
  function HostContext(chain: Chain, addresses: seq<Address>): Context {
    ContextAt(chain, HostOverrides(), chain.sender, MULTICALL3, Pack(addresses))
  }

  lemma ProgramCall(chain: Chain, abi: Abi, overrides: Overrides, a: Address, data: Bytes, code: Bytes)
    requires a !in chain.precompiles && a in overrides && overrides[a] == Program(code)
    ensures EthCall(chain, abi, overrides, a, data) == Outcome(code, ContextAt(chain, overrides, chain.sender, a, data))
  {
  }

  lemma QueryReply(node: Node, chain: Chain, abi: Abi, addresses: seq<Address>)
    requires Ideal(node, chain, abi) && 64 * |addresses| < WORD_MODULUS
    ensures RunStorageProgram(node, 0, StorageProgram(MULTICALL3, ACCOUNT_FIELDS, Pack(addresses)))
         == Ok(Pack(Fields(HostContext(chain, addresses), addresses)))
  {
    QueryAnswers(chain, abi, addresses);
    var request := SoloRequest(StorageProgram(MULTICALL3, ACCOUNT_FIELDS, Pack(addresses)));
    assert request.overrides == HostOverrides();
    assert Modelled(chain, abi, request.overrides, request.to, request.data);
  }

  /** How the answer follows from the reply, whatever it is. */
  ghost predicate FollowsFrom(addresses: seq<Address>, reply: Option<Bytes>, r: Result<seq<AccountSample>,
                              StorageFetchError>) {
    && (r.Ok? <==> reply.Some? && |reply.value| == 64 * |addresses|)
    && (r.Ok? ==> AreSlices(addresses, reply.value, r.value))
    && (r == Err(StorageFetchError.Provider) <==> reply.None?)
  }

  function Samples(addresses: seq<Address>, data: Bytes): (samples: seq<AccountSample>)
    requires |data| == 64 * |addresses|
    ensures AreSlices(addresses, data, samples)
  {
    seq(|addresses|, i requires 0 <= i < |addresses| => SampleAt(addresses, data, i))
  }

  lemma SliceIsSample(addresses: seq<Address>, data: Bytes, sample: AccountSample, i: nat)
    requires i < |addresses| && |data| == 64 * |addresses| && IsSlice(addresses[i], data, sample, i)
    ensures sample == SampleAt(addresses, data, i)
  {
  }

  lemma HostFields(chain: Chain, addresses: seq<Address>, a: Address)
    ensures var ctx := HostContext(chain, addresses);
            AccountSample(a, ctx.balance(a), ctx.codeHash(a)) == Expected(chain, a)
  {
  }

  lemma TrueSample(chain: Chain, addresses: seq<Address>, data: Bytes, sample: AccountSample, i: nat)
    requires i < |addresses| && |data| == 64 * |addresses| && IsSlice(addresses[i], data, sample, i)
    requires data == Pack(Fields(HostContext(chain, addresses), addresses))
    ensures sample == Expected(chain, addresses[i])
  {
    var ctx := HostContext(chain, addresses);
    SlicingRecovers(ctx, addresses, i);
    SliceIsSample(addresses, data, sample, i);
    HostFields(chain, addresses, addresses[i]);
  }

  lemma HostRequestIs(addresses: seq<Address>)
    ensures SoloRequest(StorageProgram(MULTICALL3, ACCOUNT_FIELDS, Pack(addresses))) == HostRequest(addresses)
  {
    assert HostOverrides() == map[MULTICALL3 := Program(ACCOUNT_FIELDS)];
  }

  /** `fetch_account_fields_bulk`. */
  method FetchAccountFieldsBulk(node: Node, addresses: seq<Address>, ghost chain: Chain, ghost abi: Abi)
    returns (r: Result<seq<AccountSample>, StorageFetchError>)
    requires |addresses| < USIZE_MODULUS
    ensures if addresses == [] then r == Ok([]) else FollowsFrom(addresses, node.call(0, HostRequest(addresses)), r)
    ensures Ideal(node, chain, abi) ==>
              r.Ok? && |r.value| == |addresses| && forall i :: 0 <= i < |addresses| ==>
                  r.value[i] == Expected(chain, addresses[i])
  {
    if addresses == [] {
      return Ok([]);
    }
    var calldata := PadAddresses(addresses);
    var program := StorageProgram(MULTICALL3, ACCOUNT_FIELDS, calldata);
    var reply := RunStorageProgram(node, 0, program);
    HostRequestIs(addresses);
    if Ideal(node, chain, abi) {
      QueryReply(node, chain, abi, addresses);
    }
    if reply.Err? {
      return Err(reply.error);
    }
    var data := reply.value;
    if |data| != |addresses| * 64 {
      return Err(Custom);
    }
    r := Ok(Samples(addresses, data));
    if Ideal(node, chain, abi) {
      forall i | 0 <= i < |addresses| ensures r.value[i] == Expected(chain, addresses[i]) {
        TrueSample(chain, addresses, data, r.value[i], i);
      }
    }
  }
}
