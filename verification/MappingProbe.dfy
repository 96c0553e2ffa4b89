/**
 Factoring of hash-derived storage slots (`src/mapping_probe.rs`): the probe
 that records preimages and loads, the resolver that climbs from a slot through
 recorded preimages to a base slot, and the descriptor that rebuilds slots.
 `keccak` is an arbitrary function from bytes to 32-byte words.
 */
module MappingProbe {
  import opened Words

  type Hash = h: Bytes | |h| == 32 witness seq(32, _ => 0)
  type Table = map<Hash, Bytes>
  type Keccak = Bytes -> Hash

  datatype Layout = SolidityMapping | VyperMapping | Nested | PackedSeed(seed: Word) | ArrayPointer | Opaque
  datatype Confidence = Low | Heuristic | Medium | High

  datatype Access = Access(slot: Hash, value: Word, keys: seq<Hash>, base: Word, layout: Layout,
                           depth: nat, confidence: Confidence)

  datatype TrackedMapping = TrackedMapping(contract: Address, base: Word, layout: Layout)

  /** What the probe guarantees of its table. */
  ghost predicate Recorded(keccak: Keccak, pre: Table) {
    forall h :: h in pre ==> keccak(pre[h]) == h
  }

  // ----- Words and addresses -----

  /** `Address::from_word`: the low 20 bytes. */
  function AddressPart(w: Hash): (a: Bytes)
    ensures |a| == 20
  {
    w[12..]
  }

  /** `Address::into_word`: left-padded with zeros. */
  function Padded(a: Bytes): (w: Hash)
    requires |a| == 20
    ensures AddressPart(w) == a
  {
    ZEROS + a
  }

  const ZEROS: Bytes := [0, 0, 0, 0, 0, 0, 0, 0, 0, 0, 0, 0]
  const NO_ADDRESS: Bytes := ZEROS + [0, 0, 0, 0, 0, 0, 0, 0]

  predicate WordMatches(a: Hash, b: Hash) {
    a == b || AddressPart(a) == AddressPart(b)
  }

  predicate IsKnown(known: seq<Hash>, w: Hash) {
    exists i :: 0 <= i < |known| && WordMatches(known[i], w)
  }

  predicate IsKnownAddress(known: seq<Hash>, a: Bytes) {
    exists i :: 0 <= i < |known| && AddressPart(known[i]) == a
  }

  /** Number of bytes from the first non-zero one on. */
  function Sig(b: Bytes): (n: nat)
    ensures n <= |b|
  {
    if b == [] then 0 else if b[0] != 0 then |b| else Sig(b[1..])
  }

  lemma {:induction false} PowMonotone(m: nat, n: nat)
    requires m <= n
    ensures Pow256(m) <= Pow256(n)
  {
    if m == n {
    } else {
      PowMonotone(m, n - 1);
    }
  }

  lemma {:induction false} LeadingByte(b: Bytes)
    requires b != [] && b[0] != 0
    ensures FromBytes(b) >= Pow256(|b| - 1)
  {
    if |b| == 1 {
    } else {
      LeadingByte(b[..|b| - 1]);
    }
  }

  /** `Sig` is exactly the byte length of the number. */
  lemma {:induction false} SigIsByteLength(b: Bytes, n: nat)
    ensures FromBytes(b) < Pow256(n) <==> Sig(b) <= n
  {
    if b == [] {
      assert Pow256(n) > 0;
    } else if b[0] != 0 {
      LeadingByte(b);
      if |b| <= n {
        PowMonotone(|b|, n);
      } else {
        PowMonotone(n, |b| - 1);
      }
    } else {
      SigIsByteLength(b[1..], n);
      assert b == [b[0]] + b[1..];
      ZeroPrefix([b[0]], b[1..]);
    }
  }

  // ----- Splitting a 64-byte preimage -----

  function First(p: Bytes): (h: Hash)
    requires |p| == 64
  {
    p[..32]
  }

  function Second(p: Bytes): (h: Hash)
    requires |p| == 64
  {
    p[32..]
  }

  datatype Split = Split(base: Hash, key: Hash, keyFirst: bool, confidence: Confidence)

  /** The preimage with the key on the chosen side. */
  function Joined(keyFirst: bool, key: Hash, other: Hash): (p: Bytes)
    ensures |p| == 64
  {
    if keyFirst then key + other else other + key
  }

  /** `split_key_slot`. */
  function SplitKeySlot(a: Hash, b: Hash, known: seq<Hash>): (s: Split)
    ensures Joined(s.keyFirst, s.key, s.base) == a + b
    ensures s.confidence == High <==> IsKnown(known, a) != IsKnown(known, b)
    ensures s.confidence == High ==> IsKnown(known, s.key) && !IsKnown(known, s.base)
    ensures s.confidence != Heuristic
  {
    var aKnown, bKnown := IsKnown(known, a), IsKnown(known, b);
    if aKnown && !bKnown then Split(b, a, true, High)
    else if !aKnown && bKnown then Split(a, b, false, High)
    else if Sig(a) < Sig(b) then Split(a, b, false, Medium)
    else if Sig(b) < Sig(a) then Split(b, a, true, Medium)
    else Split(a, b, false, Low)
  }

  /** Decided by magnitude, the base is the numerically smaller half. */
  lemma MediumPicksSmaller(a: Hash, b: Hash, known: seq<Hash>)
    requires SplitKeySlot(a, b, known).confidence == Medium
    ensures WordOf(SplitKeySlot(a, b, known).base) < WordOf(SplitKeySlot(a, b, known).key)
  {
    var s := SplitKeySlot(a, b, known);
    FewerBytesIsSmaller(s.base, s.key);
    BytesRoundTrip(s.base);
    BytesRoundTrip(s.key);
  }

  /** With no anchor, the base is the numerically smaller half exactly when the
      byte counts differ or the first half is not the larger one: a tie takes
      the first half whatever its value. */
  lemma SmallerIsBaseIff(a: Hash, b: Hash, known: seq<Hash>)
    requires IsKnown(known, a) == IsKnown(known, b)
    ensures var s := SplitKeySlot(a, b, known);
            WordOf(s.base) <= WordOf(s.key) <==> Sig(a) != Sig(b) || WordOf(a) <= WordOf(b)
  {
    if Sig(a) != Sig(b) {
      MediumPicksSmaller(a, b, known);
    }
  }

  function Small(n: byte): Hash {
    ZEROS + ZEROS + [0, 0, 0, 0, 0, 0, 0] + [n]
  }

  lemma SmallValue(n: byte)
    requires n > 0
    ensures WordOf(Small(n)) == n && Sig(Small(n)) == 1
  {
    ZeroPrefix(ZEROS + ZEROS + [0, 0, 0, 0, 0, 0, 0], [n]);
    assert [n][..0] == [];
    assert FromBytes([n]) == n;
    BytesRoundTrip(Small(n));
    assert Pow256(0) == 1 && Pow256(1) == 256;
    SigIsByteLength(Small(n), 1);
    SigIsByteLength(Small(n), 0);
  }

  /** Such a tie: slot 2 before key 1 is read as base 2. */
  lemma TieTakesLarger()
    ensures var s := SplitKeySlot(Small(2), Small(1), []);
            s.confidence == Low && WordOf(s.base) == 2 && WordOf(s.key) == 1
  {
    SmallValue(1);
    SmallValue(2);
  }

  lemma FewerBytesIsSmaller(a: Bytes, b: Bytes)
    requires Sig(a) < Sig(b)
    ensures FromBytes(a) < FromBytes(b)
  {
    SigIsByteLength(a, Sig(a));
    SigIsByteLength(b, Sig(a));
  }

  // ----- Climbing the preimage table -----

  datatype Position = Position(cur: Hash, keys: seq<Hash>)

  /** The location one hash further in and the key that was hashed with it:
      defined when exactly one half of the preimage is itself recorded. */
  function Parent(pre: Table, cur: Hash): Option<Split> {
    if cur !in pre || |pre[cur]| != 64 then None
    else
      var a, b := First(pre[cur]), Second(pre[cur]);
      if (a in pre) == (b in pre) then None
      else if a in pre then Some(Split(a, b, false, High))
      else Some(Split(b, a, true, High))
  }

  /** The resolver's state after `n` turns, if it takes that many. */
  function Climb(pre: Table, slot: Hash, n: nat): Option<Position> {
    if n == 0 then Some(Position(slot, []))
    else
      match Climb(pre, slot, n - 1)
      case None => None
      case Some(at) =>
        match Parent(pre, at.cur)
        case None => None
        case Some(s) => Some(Position(s.base, at.keys + [s.key]))
  }

  /** The climb from `slot` comes to an end. */
  ghost predicate Grounded(pre: Table, slot: Hash) {
    exists n: nat :: Climb(pre, slot, n).None?
  }

  /** No location is its own ancestor. */
  ghost predicate Acyclic(pre: Table) {
    forall h: Hash, n: nat :: n > 0 && Climb(pre, h, n).Some? ==> Climb(pre, h, n).value.cur != h
  }

  ghost predicate NeverRevisits(pre: Table, slot: Hash) {
    forall i: nat, j: nat :: i < j ==> !SameLocation(pre, slot, i, j)
  }

  lemma {:induction false} ClimbBefore(pre: Table, slot: Hash, i: nat, j: nat)
    requires i <= j && Climb(pre, slot, j).Some?
    ensures Climb(pre, slot, i).Some? && |Climb(pre, slot, i).value.keys| == i
    ensures i < j ==> Climb(pre, slot, i).value.cur in pre
    ensures 0 < i ==> Climb(pre, slot, i).value.cur in pre
    decreases j
  {
    if i < j {
      ClimbBefore(pre, slot, i, j - 1);
    } else if 0 < i {
      ClimbBefore(pre, slot, i - 1, i - 1);
    }
  }

  /** Climbing on from where a climb got to. */
  lemma {:induction false} ClimbOn(pre: Table, slot: Hash, i: nat, m: nat)
    requires Climb(pre, slot, i).Some?
    ensures Climb(pre, slot, i + m).Some? <==> Climb(pre, Climb(pre, slot, i).value.cur, m).Some?
    ensures Climb(pre, slot, i + m).Some? ==>
              Climb(pre, slot, i + m).value.cur == Climb(pre, Climb(pre, slot, i).value.cur, m).value.cur
  {
    if m == 0 {
    } else {
      ClimbOn(pre, slot, i, m - 1);
      assert i + m - 1 == i + (m - 1);
    }
  }

  /** The turn at which the climb from `slot` stops. */
  ghost function Top(pre: Table, slot: Hash): (t: nat)
    requires Grounded(pre, slot)
    ensures Climb(pre, slot, t).Some? && Climb(pre, slot, t + 1).None?
  {
    var n: nat :| Climb(pre, slot, n).None?;
    LastTurn(pre, slot, n)
  }

  ghost function LastTurn(pre: Table, slot: Hash, n: nat): (t: nat)
    requires Climb(pre, slot, n).None?
    ensures Climb(pre, slot, t).Some? && Climb(pre, slot, t + 1).None?
  {
    if Climb(pre, slot, n - 1).Some? then n - 1 else LastTurn(pre, slot, n - 1)
  }

  lemma TurnsBelowTop(pre: Table, slot: Hash, n: nat)
    requires Grounded(pre, slot)
    ensures Climb(pre, slot, n).Some? <==> n <= Top(pre, slot)
  {
    var t := Top(pre, slot);
    if n <= t {
      ClimbBefore(pre, slot, n, t);
    } else if Climb(pre, slot, n).Some? {
      ClimbBefore(pre, slot, t + 1, n);
    }
  }

  lemma TopIsLast(pre: Table, slot: Hash, n: nat)
    requires Grounded(pre, slot) && Climb(pre, slot, n).Some?
    ensures n <= Top(pre, slot)
    ensures Parent(pre, Climb(pre, slot, n).value.cur).None? <==> n == Top(pre, slot)
  {
    TurnsBelowTop(pre, slot, n);
    TurnsBelowTop(pre, slot, n + 1);
  }

  // ----- The climb ends exactly when it never revisits a location -----

  ghost predicate SameLocation(pre: Table, slot: Hash, i: nat, j: nat) {
    && Climb(pre, slot, i).Some? && Climb(pre, slot, j).Some?
    && Climb(pre, slot, i).value.cur == Climb(pre, slot, j).value.cur
  }

  /** Two equal locations have the same future. */
  lemma SameFuture(pre: Table, slot: Hash, i: nat, j: nat, m: nat)
    requires SameLocation(pre, slot, i, j)
    ensures Climb(pre, slot, i + m).Some? <==> Climb(pre, slot, j + m).Some?
  {
    ClimbOn(pre, slot, i, m);
    ClimbOn(pre, slot, j, m);
  }

  lemma GroundedNeverRevisits(pre: Table, slot: Hash, i: nat, j: nat)
    requires Grounded(pre, slot) && i < j
    ensures !SameLocation(pre, slot, i, j)
  {
    if SameLocation(pre, slot, i, j) {
      var t := Top(pre, slot);
      TurnsBelowTop(pre, slot, j);
      SameFuture(pre, slot, i, j, t + 1 - j);
      TurnsBelowTop(pre, slot, i + (t + 1 - j));
    }
  }

  ghost predicate SeenBefore(pre: Table, slot: Hash, n: nat, h: Hash) {
    exists i: nat :: i < n && Climb(pre, slot, i).Some? && Climb(pre, slot, i).value.cur == h
  }

  /** The locations of the first `n` turns are distinct, so they can be counted. */
  lemma {:induction false} VisitedCount(pre: Table, slot: Hash, n: nat) returns (seen: set<Hash>)
    requires NeverRevisits(pre, slot)
    requires n > 0 ==> Climb(pre, slot, n - 1).Some? && Climb(pre, slot, n - 1).value.cur in pre
    ensures |seen| == n && seen <= pre.Keys
    ensures forall h :: h in seen ==> SeenBefore(pre, slot, n, h)
  {
    if n == 0 {
      return {};
    }
    var h := Climb(pre, slot, n - 1).value.cur;
    if n > 1 {
      ClimbBefore(pre, slot, n - 2, n - 1);
    }
    seen := VisitedCount(pre, slot, n - 1);
    NotSeen(pre, slot, n - 1);
    forall g | g in seen ensures SeenBefore(pre, slot, n, g) {
      assert SeenBefore(pre, slot, n - 1, g);
    }
    assert SeenBefore(pre, slot, n, h);
    seen := seen + {h};
  }

  lemma NotSeen(pre: Table, slot: Hash, n: nat)
    requires NeverRevisits(pre, slot) && Climb(pre, slot, n).Some?
    ensures !SeenBefore(pre, slot, n, Climb(pre, slot, n).value.cur)
  {
    forall i: nat | i < n && Climb(pre, slot, i).Some?
      ensures Climb(pre, slot, i).value.cur != Climb(pre, slot, n).value.cur
    {
      assert !SameLocation(pre, slot, i, n);
    }
  }

  /** At most one turn per recorded preimage. */
  lemma TurnsWithinTable(pre: Table, slot: Hash, n: nat)
    requires NeverRevisits(pre, slot) && n > 0 && Climb(pre, slot, n - 1).Some?
    requires Climb(pre, slot, n - 1).value.cur in pre
    ensures n <= |pre|
  {
    var seen := VisitedCount(pre, slot, n);
    SubsetSize(seen, pre.Keys);
  }

  lemma {:induction false} SubsetSize<T>(a: set<T>, b: set<T>)
    requires a <= b
    ensures |a| <= |b|
  {
    if a != {} {
      var x :| x in a;
      SubsetSize(a - {x}, b - {x});
    }
  }

  /** The loop terminates exactly when the climb never comes back to a location
      it has already seen. */
  lemma GroundedIff(pre: Table, slot: Hash)
    ensures Grounded(pre, slot) <==> NeverRevisits(pre, slot)
  {
    if Grounded(pre, slot) {
      forall i: nat, j: nat | i < j ensures !SameLocation(pre, slot, i, j) {
        GroundedNeverRevisits(pre, slot, i, j);
      }
    } else if NeverRevisits(pre, slot) {
      var n := |pre| + 1;
      assert Climb(pre, slot, n).Some?;
      ClimbBefore(pre, slot, n - 1, n);
      TurnsWithinTable(pre, slot, n);
    }
  }

  /** In an acyclic table every climb ends. */
  lemma AcyclicGrounds(pre: Table, slot: Hash)
    requires Acyclic(pre)
    ensures Grounded(pre, slot)
  {
    forall i: nat, j: nat | i < j ensures !SameLocation(pre, slot, i, j) {
      if SameLocation(pre, slot, i, j) {
        ClimbOn(pre, slot, i, j - i);
      }
    }
    GroundedIff(pre, slot);
  }

  /** And a table in which every climb ends is acyclic. */
  lemma GroundedIsAcyclic(pre: Table)
    requires forall slot: Hash :: Grounded(pre, slot)
    ensures Acyclic(pre)
  {
    forall h: Hash, n: nat | n > 0 && Climb(pre, h, n).Some? ensures Climb(pre, h, n).value.cur != h {
      GroundedNeverRevisits(pre, h, 0, n);
    }
  }

  // ----- The resolver -----

  function Depth(keys: seq<Hash>): (d: nat) {
    if |keys| < 1 then 1 else |keys|
  }

  /** What the resolver reports from the position where the climb stops. */
  function Finish(pre: Table, known: seq<Hash>, slot: Hash, value: Word, at: Position): Access {
    if at.cur !in pre then
      Access(slot, value, at.keys, WordOf(at.cur), if at.keys == [] then Opaque else Nested, Depth(at.keys), High)
    else if |pre[at.cur]| == 64 then
      var s := SplitKeySlot(First(pre[at.cur]), Second(pre[at.cur]), known);
      Access(slot, value, at.keys + [s.key], WordOf(s.base),
             if at.keys != [] then Nested else if s.keyFirst then SolidityMapping else VyperMapping,
             |at.keys| + 1, s.confidence)
    else if |pre[at.cur]| == 32 then
      FinishWord(known, slot, value, at.keys, pre[at.cur])
    else
      Access(slot, value, at.keys, WordOf(at.cur), Opaque, Depth(at.keys), Low)
  }

  /** The 32-byte preimage: packed address and seed, or a pointer. */
  function FinishWord(known: seq<Hash>, slot: Hash, value: Word, keys: seq<Hash>, p: Hash): Access {
    var hi := p[..20];
    if hi != NO_ADDRESS && IsKnownAddress(known, hi) then
      Access(slot, value, keys + [Padded(hi)], SeedOf(p), PackedSeed(SeedOf(p)), |keys| + 1, Medium)
    else
      Access(slot, value, keys, WordOf(p), if keys == [] then ArrayPointer else Nested, Depth(keys), Heuristic)
  }

  function SeedOf(p: Hash): (seed: Word) {
    PowWidths();
    FromBytes(p[20..])
  }

  ghost function Resolved(pre: Table, known: seq<Hash>, slot: Hash, value: Word): Access
    requires Grounded(pre, slot)
  {
    Finish(pre, known, slot, value, Climb(pre, slot, Top(pre, slot)).value)
  }

  function Lower(a: Confidence, b: Confidence): Confidence {
    if a.Low? || b.Low? then Low
    else if a.Heuristic? || b.Heuristic? then Heuristic
    else if a.Medium? || b.Medium? then Medium
    else High
  }

  /** The arms of the loop that leave it. */
  method Classify(pre: Table, known: seq<Hash>, ghost slot: Hash, ghost value: Word, cur: Hash, climbed: seq<Hash>,
                  start: Confidence)
    returns (keys: seq<Hash>, base: Word, layout: Layout, confidence: Confidence)
    requires start == High
    ensures Access(slot, value, keys, base, layout, Depth(keys), confidence)
         == Finish(pre, known, slot, value, Position(cur, climbed))
  {
    keys, confidence := climbed, start;
    if cur !in pre {
      base, layout := WordOf(cur), if keys == [] then Opaque else Nested;
    } else if |pre[cur]| == 64 {
      var s := SplitKeySlot(First(pre[cur]), Second(pre[cur]), known);
      confidence := Lower(confidence, s.confidence);
      keys := keys + [s.key];
      layout := if |keys| > 1 then Nested else if s.keyFirst then SolidityMapping else VyperMapping;
      base := WordOf(s.base);
    } else if |pre[cur]| == 32 {
      var p := pre[cur];
      if p[..20] != NO_ADDRESS && IsKnownAddress(known, p[..20]) {
        keys := keys + [Padded(p[..20])];
        confidence := Lower(confidence, Medium);
        base, layout := SeedOf(p), PackedSeed(SeedOf(p));
      } else {
        confidence := Lower(confidence, Heuristic);
        base, layout := WordOf(p), if keys == [] then ArrayPointer else Nested;
      }
    } else {
      confidence := Low;
      base, layout := WordOf(cur), Opaque;
    }
  }

  /** `resolve`. */
  method Resolve(pre: Table, known: seq<Hash>, slot: Hash, value: Word) returns (access: Access)
    requires Grounded(pre, slot)
    ensures access == Resolved(pre, known, slot, value)
    ensures |access.keys| <= |pre|
  {
    var keys: seq<Hash>, confidence, cur := [], High, slot;
    var base: Word, layout := 0, Opaque;
    var climbing := true;
    ghost var top := Top(pre, slot);
    while climbing
      invariant climbing ==> confidence == High && Climb(pre, slot, |keys|) == Some(Position(cur, keys))
      invariant !climbing ==>
                Access(slot, value, keys, base, layout, Depth(keys), confidence) == Resolved(pre, known, slot, value)
      decreases climbing, top - |keys|
    {
      TopIsLast(pre, slot, |keys|);
      var up := Parent(pre, cur);
      if up.Some? {
        keys, cur := keys + [up.value.key], up.value.base;
      } else {
        climbing := false;
        keys, base, layout, confidence := Classify(pre, known, slot, value, cur, keys, confidence);
      }
    }
    access := Access(slot, value, keys, base, layout, Depth(keys), confidence);
    KeysWithinTable(pre, known, slot, value);
  }

  /** A climb from a recorded slot ends at a recorded location: the resolver's
      arm for an unrecorded location with keys in hand is never taken. */
  lemma EndsRecorded(pre: Table, slot: Hash)
    requires Grounded(pre, slot)
    ensures Climb(pre, slot, Top(pre, slot)).value.cur in pre <==> slot in pre
  {
    var t := Top(pre, slot);
    ClimbBefore(pre, slot, t, t);
    ClimbBefore(pre, slot, 0, t);
    assert Climb(pre, slot, 0) == Some(Position(slot, []));
  }

  /** At most one key per recorded preimage. */
  lemma KeysWithinTable(pre: Table, known: seq<Hash>, slot: Hash, value: Word)
    requires Grounded(pre, slot)
    ensures |Resolved(pre, known, slot, value).keys| <= |pre|
  {
    var t := Top(pre, slot);
    GroundedIff(pre, slot);
    ClimbBefore(pre, slot, t, t);
    if Climb(pre, slot, t).value.cur in pre {
      TurnsWithinTable(pre, slot, t + 1);
    }
  }

  // ----- Rebuilding the slot -----

  /** Hash the key chain onto `root`, innermost key (the last) first. */
  function Hashed(keccak: Keccak, root: Hash, keys: seq<Hash>, keyFirst: seq<bool>): Hash
    requires |keys| == |keyFirst|
    decreases |keys|
  {
    if keys == [] then root
    else
      var n := |keys| - 1;
      Hashed(keccak, keccak(Joined(keyFirst[n], keys[n], root)), keys[..n], keyFirst[..n])
  }

  ghost predicate Rebuilds(keccak: Keccak, root: Hash, keys: seq<Hash>, slot: Hash) {
    exists keyFirst: seq<bool> :: |keyFirst| == |keys| && Hashed(keccak, root, keys, keyFirst) == slot
  }

  /** A chain that reaches `slot` from the hash of `key` and `root` reaches it
      from `root` with one more key. */
  lemma ExtendChain(keccak: Keccak, root: Hash, keys: seq<Hash>, slot: Hash, key: Hash, first: bool)
    requires Rebuilds(keccak, keccak(Joined(first, key, root)), keys, slot)
    ensures Rebuilds(keccak, root, keys + [key], slot)
  {
    var order: seq<bool> :| |order| == |keys| && Hashed(keccak, keccak(Joined(first, key, root)), keys, order) == slot;
    var longer := order + [first];
    assert longer[..|keys|] == order && (keys + [key])[..|keys|] == keys;
    assert Hashed(keccak, root, keys + [key], longer) == slot;
  }

  lemma HalvesJoin(p: Bytes)
    requires |p| == 64
    ensures First(p) + Second(p) == p
  {
  }

  /** Wherever the climb stands, the keys so far lead back to the slot. */
  lemma {:induction false} ClimbRebuilds(keccak: Keccak, pre: Table, slot: Hash, n: nat)
    requires Recorded(keccak, pre) && Climb(pre, slot, n).Some?
    ensures Rebuilds(keccak, Climb(pre, slot, n).value.cur, Climb(pre, slot, n).value.keys, slot)
  {
    if n == 0 {
      assert Hashed(keccak, slot, [], []) == slot;
    } else {
      ClimbRebuilds(keccak, pre, slot, n - 1);
      var at := Climb(pre, slot, n - 1).value;
      var s := Parent(pre, at.cur).value;
      HalvesJoin(pre[at.cur]);
      assert Joined(s.keyFirst, s.key, s.base) == pre[at.cur];
      ExtendChain(keccak, s.base, at.keys, slot, s.key, s.keyFirst);
    }
  }

  /** The preimage of a packed entry: address, then the low 12 seed bytes. */
  function PackedPreimage(key: Hash, seed: Word): (p: Hash) {
    AddressPart(key) + WordBytes(seed)[20..]
  }

  /** How the reported access determines the slot, layout by layout.  The
      confidence says whether a nested chain ends in a pointer. */
  ghost predicate Explains(keccak: Keccak, a: Access) {
    var root := WordBytes(a.base);
    match a.layout
    case SolidityMapping => |a.keys| == 1 && a.slot == keccak(a.keys[0] + root)
    case VyperMapping => |a.keys| == 1 && a.slot == keccak(root + a.keys[0])
    case Nested => a.keys != [] && Rebuilds(keccak, if a.confidence.Heuristic? then keccak(root) else root, a.keys,
                                            a.slot)
    case PackedSeed(seed) =>
      && seed == a.base && a.keys != []
      && Rebuilds(keccak, keccak(PackedPreimage(a.keys[|a.keys| - 1], seed)), a.keys[..|a.keys| - 1], a.slot)
    case ArrayPointer => a.keys == [] && a.slot == keccak(root)
    case Opaque => Rebuilds(keccak, root, a.keys, a.slot)
  }

  lemma SeedBytes(low: Bytes)
    requires |low| == 12
    ensures FromBytes(low) < WORD_MODULUS
    ensures ToBytes(FromBytes(low), 32)[20..] == low
  {
    PowWidths();
    EncodeOfDecode(low);
    EncodeSuffix(FromBytes(low), 12, 32);
  }

  lemma PackedFromParts(p: Hash, seed: Word, low: Bytes)
    requires low == p[20..] && WordBytes(seed)[20..] == low
    ensures PackedPreimage(Padded(p[..20]), seed) == p
  {
    assert p == p[..20] + low;
  }

  lemma SeedRoundTrip(p: Hash)
    ensures PackedPreimage(Padded(p[..20]), SeedOf(p)) == p
  {
    var low := p[20..];
    SeedBytes(low);
    PackedFromParts(p, FromBytes(low), low);
  }

  lemma ChainOfNone(keccak: Keccak, root: Hash, slot: Hash)
    requires Rebuilds(keccak, root, [], slot)
    ensures root == slot
  {
    var order: seq<bool> :| |order| == 0 && Hashed(keccak, root, [], order) == slot;
  }

  lemma FinishSplitExplains(keccak: Keccak, pre: Table, known: seq<Hash>, slot: Hash, value: Word, at: Position)
    requires Recorded(keccak, pre) && Rebuilds(keccak, at.cur, at.keys, slot)
    requires at.cur in pre && |pre[at.cur]| == 64
    ensures Explains(keccak, Finish(pre, known, slot, value, at))
  {
    HalvesJoin(pre[at.cur]);
    var s := SplitKeySlot(First(pre[at.cur]), Second(pre[at.cur]), known);
    BytesRoundTrip(s.base);
    assert Joined(s.keyFirst, s.key, s.base) == pre[at.cur];
    if at.keys == [] {
      ChainOfNone(keccak, at.cur, slot);
    } else {
      ExtendChain(keccak, s.base, at.keys, slot, s.key, s.keyFirst);
    }
  }

  lemma FinishWordExplains(keccak: Keccak, known: seq<Hash>, slot: Hash, value: Word, keys: seq<Hash>, p: Hash)
    requires Rebuilds(keccak, keccak(p), keys, slot)
    ensures Explains(keccak, FinishWord(known, slot, value, keys, p))
  {
    var hi := p[..20];
    if hi != NO_ADDRESS && IsKnownAddress(known, hi) {
      SeedRoundTrip(p);
      assert (keys + [Padded(hi)])[..|keys|] == keys;
    } else {
      BytesRoundTrip(p);
      if keys == [] {
        ChainOfNone(keccak, keccak(p), slot);
      }
    }
  }

  /** Every result, whatever its layout and confidence, explains its slot. */
  lemma ResolvedExplains(keccak: Keccak, pre: Table, known: seq<Hash>, slot: Hash, value: Word)
    requires Recorded(keccak, pre) && Grounded(pre, slot)
    ensures Explains(keccak, Resolved(pre, known, slot, value))
    ensures Resolved(pre, known, slot, value).slot == slot && Resolved(pre, known, slot, value).value == value
  {
    var t := Top(pre, slot);
    var at := Climb(pre, slot, t).value;
    ClimbRebuilds(keccak, pre, slot, t);
    if at.cur in pre && |pre[at.cur]| == 64 {
      FinishSplitExplains(keccak, pre, known, slot, value, at);
    } else if at.cur in pre && |pre[at.cur]| == 32 {
      FinishWordExplains(keccak, known, slot, value, at.keys, pre[at.cur]);
    } else {
      BytesRoundTrip(at.cur);
    }
  }

  // ----- Tracked mappings -----

  /** `as_tracked`. */
  function AsTracked(a: Access, contract: Address): Option<TrackedMapping> {
    if |a.keys| != 1 then None
    else if a.layout.SolidityMapping? || a.layout.VyperMapping? || a.layout.PackedSeed? then
      Some(TrackedMapping(contract, a.base, a.layout))
    else None
  }

  /** The bytes hashed for an entry, for the layouts that have one. */
  function EntryPreimage(m: TrackedMapping, key: Hash): Option<Bytes> {
    match m.layout
    case SolidityMapping => Some(key + WordBytes(m.base))
    case VyperMapping => Some(WordBytes(m.base) + key)
    case PackedSeed(seed) => Some(PackedPreimage(key, seed))
    case _ => None
  }

  ghost function SlotOf(keccak: Keccak, m: TrackedMapping, key: Hash): Option<Hash> {
    match EntryPreimage(m, key)
    case Some(p) => Some(keccak(p))
    case None => None
  }

  method CopyInto(buffer: array<byte>, at: nat, data: Bytes)
    requires at + |data| <= buffer.Length
    modifies buffer
    ensures buffer[..] == old(buffer[..at]) + data + old(buffer[at + |data|..])
  {
    for i := 0 to |data|
      invariant forall k :: 0 <= k < buffer.Length ==>
                  buffer[k] == if at <= k < at + i then data[k - at] else old(buffer[k])
    {
      buffer[at + i] := data[i];
    }
  }

  /** `slot_for`: fill a buffer half by half and hash it. */
  method SlotFor(keccak: Keccak, m: TrackedMapping, key: Hash) returns (slot: Option<Hash>)
    ensures slot == SlotOf(keccak, m, key)
  {
    match m.layout
    case SolidityMapping =>
      var buffer := new byte[64](_ => 0);
      CopyInto(buffer, 0, key);
      CopyInto(buffer, 32, WordBytes(m.base));
      assert buffer[..] == key + WordBytes(m.base);
      slot := Some(keccak(buffer[..]));
    case VyperMapping =>
      var buffer := new byte[64](_ => 0);
      CopyInto(buffer, 0, WordBytes(m.base));
      CopyInto(buffer, 32, key);
      assert buffer[..] == WordBytes(m.base) + key;
      slot := Some(keccak(buffer[..]));
    case PackedSeed(seed) =>
      var buffer := new byte[32](_ => 0);
      CopyInto(buffer, 0, AddressPart(key));
      CopyInto(buffer, 20, WordBytes(seed)[20..]);
      assert buffer[..] == PackedPreimage(key, seed);
      slot := Some(keccak(buffer[..]));
    case _ =>
      slot := None;
  }

  /** Round trip: an access that can be tracked rebuilds its own slot, at every
      confidence. */
  lemma TrackedRebuilds(keccak: Keccak, pre: Table, known: seq<Hash>, slot: Hash, value: Word, contract: Address)
    requires Recorded(keccak, pre) && Grounded(pre, slot)
    requires AsTracked(Resolved(pre, known, slot, value), contract).Some?
    ensures var a := Resolved(pre, known, slot, value);
            SlotOf(keccak, AsTracked(a, contract).value, a.keys[0]) == Some(slot)
  {
    ResolvedExplains(keccak, pre, known, slot, value);
    var a := Resolved(pre, known, slot, value);
    if a.layout.PackedSeed? {
      assert a.keys[..0] == [];
      ChainOfNone(keccak, keccak(PackedPreimage(a.keys[0], a.base)), slot);
    }
  }

  /** A slot whose climb stops at once is reported from the slot itself. */
  lemma StopsAtOnce(pre: Table, known: seq<Hash>, slot: Hash, value: Word)
    requires Parent(pre, slot).None?
    ensures Grounded(pre, slot)
    ensures Resolved(pre, known, slot, value) == Finish(pre, known, slot, value, Position(slot, []))
  {
    assert Climb(pre, slot, 0) == Some(Position(slot, []));
    assert Climb(pre, slot, 1).None?;
    TurnsBelowTop(pre, slot, 1);
    assert Top(pre, slot) == 0;
  }

  /** A single-level layout is only reported when the climb stopped at once. */
  lemma SingleLevelStops(pre: Table, known: seq<Hash>, slot: Hash, value: Word)
    requires Grounded(pre, slot)
    requires var l := Resolved(pre, known, slot, value).layout; l.SolidityMapping? || l.VyperMapping?
    ensures Parent(pre, slot).None? && slot in pre && |pre[slot]| == 64
  {
    var t := Top(pre, slot);
    ClimbBefore(pre, slot, t, t);
    assert t == 0;
    assert Climb(pre, slot, 0) == Some(Position(slot, []));
  }

  /** Exactly when a slot is read as a single-level entry with an anchored key:
      its preimage is key and base in the layout's order, the halves are
      recorded together or not at all, and the key alone matches a known word. */
  ghost predicate AnchoredEntry(pre: Table, known: seq<Hash>, slot: Hash, keyFirst: bool, key: Hash, base: Hash) {
    && slot in pre && pre[slot] == Joined(keyFirst, key, base)
    && ((key in pre) <==> (base in pre))
    && IsKnown(known, key) && !IsKnown(known, base)
  }

  lemma JoinedHalves(keyFirst: bool, key: Hash, base: Hash)
    ensures First(Joined(keyFirst, key, base)) == (if keyFirst then key else base)
    ensures Second(Joined(keyFirst, key, base)) == (if keyFirst then base else key)
  {
  }

  lemma FinishAtOnce(pre: Table, known: seq<Hash>, slot: Hash, value: Word)
    requires slot in pre && |pre[slot]| == 64
    ensures var s := SplitKeySlot(First(pre[slot]), Second(pre[slot]), known);
            Finish(pre, known, slot, value, Position(slot, [])) ==
            Access(slot, value, [s.key], WordOf(s.base), if s.keyFirst then SolidityMapping else VyperMapping, 1,
                   s.confidence)
  {
    var s := SplitKeySlot(First(pre[slot]), Second(pre[slot]), known);
    assert [] + [s.key] == [s.key];
  }

  ghost function Anchored(slot: Hash, value: Word, keyFirst: bool, key: Hash, base: Hash): Access {
    Access(slot, value, [key], WordOf(base), if keyFirst then SolidityMapping else VyperMapping, 1, High)
  }

  lemma AnchoredResolves(pre: Table, known: seq<Hash>, slot: Hash, value: Word, keyFirst: bool, key: Hash, base: Hash)
    requires AnchoredEntry(pre, known, slot, keyFirst, key, base)
    ensures Grounded(pre, slot) && Resolved(pre, known, slot, value) == Anchored(slot, value, keyFirst, key, base)
  {
    JoinedHalves(keyFirst, key, base);
    StopsAtOnce(pre, known, slot, value);
    FinishAtOnce(pre, known, slot, value);
  }

  lemma AnchoredWasRecorded(pre: Table, known: seq<Hash>, slot: Hash, value: Word, keyFirst: bool, key: Hash,
                            base: Hash)
    requires Grounded(pre, slot) && Resolved(pre, known, slot, value) == Anchored(slot, value, keyFirst, key, base)
    ensures AnchoredEntry(pre, known, slot, keyFirst, key, base)
  {
    SingleLevelStops(pre, known, slot, value);
    StopsAtOnce(pre, known, slot, value);
    FinishAtOnce(pre, known, slot, value);
    var s := SplitKeySlot(First(pre[slot]), Second(pre[slot]), known);
    assert [s.key][0] == [key][0];
    BytesRoundTrip(s.base);
    BytesRoundTrip(base);
    HalvesJoin(pre[slot]);
    JoinedHalves(keyFirst, key, base);
  }

  lemma AnchoredIff(pre: Table, known: seq<Hash>, slot: Hash, value: Word, keyFirst: bool, key: Hash, base: Hash)
    requires Grounded(pre, slot)
    ensures AnchoredEntry(pre, known, slot, keyFirst, key, base) <==>
            Resolved(pre, known, slot, value) == Anchored(slot, value, keyFirst, key, base)
  {
    if AnchoredEntry(pre, known, slot, keyFirst, key, base) {
      AnchoredResolves(pre, known, slot, value, keyFirst, key, base);
    } else if Resolved(pre, known, slot, value) == Anchored(slot, value, keyFirst, key, base) {
      AnchoredWasRecorded(pre, known, slot, value, keyFirst, key, base);
    }
  }

  // ----- Chains -----

  /** `next` is hashed with `key` into `cur`, and is the only half recorded. */
  ghost predicate Link(pre: Table, cur: Hash, next: Hash, key: Hash, keyFirst: bool) {
    cur in pre && pre[cur] == Joined(keyFirst, key, next) && next in pre && key !in pre
  }

  ghost predicate LinkAt(pre: Table, places: seq<Hash>, keys: seq<Hash>, keyFirst: seq<bool>, i: nat)
    requires |places| == |keys| + 1 == |keyFirst| + 1 && i < |keys|
  {
    Link(pre, places[i], places[i + 1], keys[i], keyFirst[i])
  }

  /** A derivation as the source describes nested mappings: each place is the hash
      of a key and the next place, outermost first. */
  ghost predicate Chain(pre: Table, places: seq<Hash>, keys: seq<Hash>, keyFirst: seq<bool>) {
    && |places| == |keys| + 1 == |keyFirst| + 1
    && forall i :: 0 <= i < |keys| ==> LinkAt(pre, places, keys, keyFirst, i)
  }

  lemma LinkIsParent(pre: Table, cur: Hash, next: Hash, key: Hash, keyFirst: bool)
    requires Link(pre, cur, next, key, keyFirst)
    ensures Parent(pre, cur) == Some(Split(next, key, keyFirst, High))
  {
    JoinedHalves(keyFirst, key, next);
  }

  lemma {:induction false} ChainClimbs(pre: Table, places: seq<Hash>, keys: seq<Hash>, keyFirst: seq<bool>, n: nat)
    requires Chain(pre, places, keys, keyFirst) && n <= |keys|
    ensures Climb(pre, places[0], n) == Some(Position(places[n], keys[..n]))
  {
    if n == 0 {
    } else {
      ChainClimbs(pre, places, keys, keyFirst, n - 1);
      assert LinkAt(pre, places, keys, keyFirst, n - 1);
      LinkIsParent(pre, places[n - 1], places[n], keys[n - 1], keyFirst[n - 1]);
      assert keys[..n] == keys[..n - 1] + [keys[n - 1]];
    }
  }

  /** Where a chain ends: not at a 64-byte preimage with one recorded half. */
  ghost predicate Ends(pre: Table, place: Hash) {
    place in pre && |pre[place]| == 64 ==> (First(pre[place]) in pre <==> Second(pre[place]) in pre)
  }

  lemma ChainResolves(pre: Table, known: seq<Hash>, places: seq<Hash>, keys: seq<Hash>, keyFirst: seq<bool>,
                      value: Word)
    requires Chain(pre, places, keys, keyFirst) && Ends(pre, places[|keys|])
    ensures Grounded(pre, places[0])
    ensures Resolved(pre, known, places[0], value)
         == Finish(pre, known, places[0], value, Position(places[|keys|], keys))
  {
    var n := |keys|;
    ChainClimbs(pre, places, keys, keyFirst, n);
    assert keys[..n] == keys;
    assert Climb(pre, places[0], n + 1).None?;
    TopIsLast(pre, places[0], n);
  }

  /** Every level of a nested mapping is found: a chain that ends in a mapping entry
      resolves to all its keys, the entry's key last, and the entry's base. */
  lemma NestedIsFound(pre: Table, known: seq<Hash>, places: seq<Hash>, keys: seq<Hash>, keyFirst: seq<bool>,
                      value: Word,
                      entryFirst: bool, key: Hash, base: Hash)
    requires Chain(pre, places, keys, keyFirst) && keys != []
    requires AnchoredEntry(pre, known, places[|keys|], entryFirst, key, base)
    ensures Grounded(pre, places[0])
    ensures Resolved(pre, known, places[0], value)
         == Access(places[0], value, keys + [key], WordOf(base), Nested, |keys| + 1, High)
  {
    JoinedHalves(entryFirst, key, base);
    ChainResolves(pre, known, places, keys, keyFirst, value);
  }

  /** A 32-byte preimage whose high 20 bytes are a known address other than zero. */
  predicate NamesKnown(known: seq<Hash>, p: Hash) {
    p[..20] != NO_ADDRESS && exists i :: 0 <= i < |known| && known[i][12..] == p[..20]
  }

  /** A chain that ends in a pointer: an array or base pointer, at the value of the
      32 bytes that were hashed. */
  lemma PointerIsFound(pre: Table, known: seq<Hash>, places: seq<Hash>, keys: seq<Hash>, keyFirst: seq<bool>,
                       value: Word)
    requires Chain(pre, places, keys, keyFirst) && places[|keys|] in pre
    requires |pre[places[|keys|]]| == 32 && !NamesKnown(known, pre[places[|keys|]])
    ensures Grounded(pre, places[0])
    ensures Resolved(pre, known, places[0], value)
         == Access(places[0], value, keys, WordOf(pre[places[|keys|]]), if keys == [] then ArrayPointer else Nested,
                   if keys == [] then 1 else |keys|, Heuristic)
  {
    ChainResolves(pre, known, places, keys, keyFirst, value);
  }

  /** A chain that ends in a packed word: the address as a last key, and the seed. */
  lemma PackedIsFound(pre: Table, known: seq<Hash>, places: seq<Hash>, keys: seq<Hash>, keyFirst: seq<bool>,
                      value: Word)
    requires Chain(pre, places, keys, keyFirst) && places[|keys|] in pre
    requires |pre[places[|keys|]]| == 32 && NamesKnown(known, pre[places[|keys|]])
    ensures Grounded(pre, places[0])
    ensures var p, a := pre[places[|keys|]], Resolved(pre, known, places[0], value);
            && a.keys == keys + [ZEROS + p[..20]] && a.base == FromBytes(p[20..]) && a.layout == PackedSeed(a.base)
            && a.depth == |keys| + 1 && a.confidence == Medium
  {
    ChainResolves(pre, known, places, keys, keyFirst, value);
  }

  /** A chain that ends in a preimage of any other length is opaque there. */
  lemma OpaqueIsFound(pre: Table, known: seq<Hash>, places: seq<Hash>, keys: seq<Hash>, keyFirst: seq<bool>,
                      value: Word)
    requires Chain(pre, places, keys, keyFirst) && places[|keys|] in pre
    requires |pre[places[|keys|]]| != 32 && |pre[places[|keys|]]| != 64
    ensures Grounded(pre, places[0])
    ensures Resolved(pre, known, places[0], value)
         == Access(places[0], value, keys, WordOf(places[|keys|]), Opaque, if keys == [] then 1 else |keys|, Low)
  {
    ChainResolves(pre, known, places, keys, keyFirst, value);
  }

  /** Matching is agreement in the low 20 bytes. */
  lemma KnownIff(known: seq<Hash>, w: Hash)
    ensures IsKnown(known, w) <==> exists i :: 0 <= i < |known| && known[i][12..] == w[12..]
  {
    if i :| 0 <= i < |known| && known[i][12..] == w[12..] {
      assert WordMatches(known[i], w);
    }
  }

  /** A recorded slot can be tracked exactly when it is a single-level entry: a
      64-byte preimage whose halves are recorded together or not at all, or a
      packed word of a known address. */
  lemma TrackedIff(pre: Table, known: seq<Hash>, slot: Hash, value: Word, contract: Address)
    requires Grounded(pre, slot) && slot in pre
    ensures AsTracked(Resolved(pre, known, slot, value), contract).Some? <==>
            || (|pre[slot]| == 64 && (First(pre[slot]) in pre <==> Second(pre[slot]) in pre))
            || (|pre[slot]| == 32 && NamesKnown(known, pre[slot]))
  {
    if Parent(pre, slot).None? {
      StopsAtOnce(pre, known, slot, value);
    } else {
      NestedNotTracked(pre, known, slot, value);
    }
  }

  lemma NestedNotTracked(pre: Table, known: seq<Hash>, slot: Hash, value: Word)
    requires Grounded(pre, slot) && Parent(pre, slot).Some?
    ensures var a := Resolved(pre, known, slot, value);
            |a.keys| != 1 || a.layout == Nested || a.layout == Opaque
  {
    var t := Top(pre, slot);
    assert Climb(pre, slot, 0) == Some(Position(slot, []));
    TopIsLast(pre, slot, 0);
    ClimbBefore(pre, slot, t, t);
  }

  /** What must be known, and unknown, for an entry of `m` to be read back. */
  ghost predicate Recognisable(pre: Table, known: seq<Hash>, m: TrackedMapping, key: Hash) {
    match m.layout
    case PackedSeed(seed) =>
      && seed == m.base < Pow256(12) && key == Padded(AddressPart(key))
      && AddressPart(key) != NO_ADDRESS && IsKnownAddress(known, AddressPart(key))
    case _ =>
      var base := WordBytes(m.base);
      ((key in pre) <==> (base in pre)) && IsKnown(known, key) && !IsKnown(known, base)
  }

  /** The other round trip: the slot rebuilt for a key, once its hash has been
      recorded, factors back into that key and that mapping. */
  lemma RebuiltIsTracked(keccak: Keccak, pre: Table, known: seq<Hash>, m: TrackedMapping, key: Hash, value: Word)
    requires EntryPreimage(m, key).Some? && Recognisable(pre, known, m, key)
    requires var slot := SlotOf(keccak, m, key).value; slot in pre && pre[slot] == EntryPreimage(m, key).value
    ensures var slot := SlotOf(keccak, m, key).value;
            && Grounded(pre, slot)
            && Resolved(pre, known, slot, value).keys == [key]
            && AsTracked(Resolved(pre, known, slot, value), m.contract) == Some(m)
  {
    var slot := SlotOf(keccak, m, key).value;
    if m.layout.PackedSeed? {
      StopsAtOnce(pre, known, slot, value);
      PackedParts(key, m.base);
    } else {
      var keyFirst, base := m.layout.SolidityMapping?, WordBytes(m.base);
      assert pre[slot] == Joined(keyFirst, key, base);
      AnchoredResolves(pre, known, slot, value, keyFirst, key, base);
      WordRoundTrip(m.base);
    }
  }

  lemma PackedParts(key: Hash, seed: Word)
    requires seed < Pow256(12)
    ensures PackedPreimage(key, seed)[..20] == AddressPart(key)
    ensures SeedOf(PackedPreimage(key, seed)) == seed
  {
    var p := PackedPreimage(key, seed);
    EncodeSuffix(seed, 12, 32);
    assert p[20..] == ToBytes(seed, 12);
    DecodeOfEncode(seed, 12);
  }

  // ----- The probe -----

  datatype Load = Load(slot: Hash, value: Word)

  const OP_KECCAK256: byte := 0x20
  const OP_SLOAD: byte := 0x54
  const MAX_PREIMAGE_LEN := 4096

  /** `read_mem`: memory past its end reads as zero. */
  function ReadMemory(memory: Bytes, offset: nat, len: nat): (b: Bytes)
    ensures |b| == len
    ensures forall i :: 0 <= i < len ==> b[i] == if offset + i < |memory| then memory[offset + i] else 0
  {
    if offset >= |memory| then seq(len, _ => 0)
    else
      var avail := if |memory| - offset < len then |memory| - offset else len;
      memory[offset..offset + avail] + seq(len - avail, _ => 0)
  }

  /** `p` is the region of `size` bytes at `offset`, zero past the end of memory. */
  ghost predicate IsRegion(memory: Bytes, offset: nat, size: nat, p: Bytes) {
    |p| == size && forall i :: 0 <= i < size ==> p[i] == if offset + i < |memory| then memory[offset + i] else 0
  }

  /** A `KECCAK256` step whose operands, offset on top and size below it, the probe
      records. */
  predicate Hashes(opcode: byte, stack: seq<Word>) {
    && opcode == 0x20 && |stack| >= 2
    && stack[|stack| - 1] < USIZE_MODULUS && 1 <= stack[|stack| - 2] <= 4096
  }

  /** The indices of the loads whose slot is a recorded hash, in order. */
  ghost predicate HashedIndices(indices: seq<nat>, pre: Table, loads: seq<Load>) {
    && (forall i, j :: 0 <= i < j < |indices| ==> indices[i] < indices[j])
    && (forall i :: i in indices <==> 0 <= i < |loads| && loads[i].slot in pre)
  }

  lemma NextIndex(indices: seq<nat>, pre: Table, loads: seq<Load>, load: Load)
    requires HashedIndices(indices, pre, loads)
    ensures HashedIndices(if load.slot in pre then indices + [|loads|] else indices, pre, loads + [load])
  {
    forall i | 0 <= i < |indices| ensures indices[i] < |loads| {
      assert indices[i] in indices;
    }
    var longer := if load.slot in pre then indices + [|loads|] else indices;
    assert forall i :: i in longer <==> i in indices || (load.slot in pre && i == |loads|);
  }

  /** `a` is the factoring of `load`, and it explains the slot. */
  ghost predicate Factors(keccak: Keccak, pre: Table, known: seq<Hash>, load: Load, a: Access) {
    && Grounded(pre, load.slot)
    && a == Resolved(pre, known, load.slot, load.value)
    && a.slot == load.slot && a.value == load.value
    && Explains(keccak, a)
    && |a.keys| <= |pre|
  }

  lemma ResolvedFactors(keccak: Keccak, pre: Table, known: seq<Hash>, load: Load)
    requires Recorded(keccak, pre) && Grounded(pre, load.slot)
    ensures Factors(keccak, pre, known, load, Resolved(pre, known, load.slot, load.value))
  {
    ResolvedExplains(keccak, pre, known, load.slot, load.value);
    KeysWithinTable(pre, known, load.slot, load.value);
  }

  class HashStorageProbe {
    const keccak: Keccak
    var preimages: Table
    var loads: seq<Load>
    var pending: Option<Hash>

    ghost predicate Valid()
      reads this
    {
      Recorded(keccak, preimages)
    }

    constructor (keccak: Keccak)
      ensures Valid() && this.keccak == keccak && preimages == map[] && loads == [] && pending == None
    {
      this.keccak, preimages, loads, pending := keccak, map[], [], None;
    }

    /** `step`: before an instruction executes.  The stack's top is its last element. */
    method Step(opcode: byte, stack: seq<Word>, memory: Bytes)
      requires Valid()
      modifies this`preimages, this`pending
      ensures Valid()
      ensures Hashes(opcode, stack) ==>
                forall p :: IsRegion(memory, stack[|stack| - 1], stack[|stack| - 2], p) ==>
                  preimages == old(preimages)[keccak(p) := p]
      ensures !Hashes(opcode, stack) ==> preimages == old(preimages)
      ensures pending == if opcode == OP_SLOAD && stack != [] then Some(WordBytes(stack[|stack| - 1])) else old(pending)
    {
      if opcode == OP_KECCAK256 {
        if |stack| < 2 {
          return;
        }
        var offset, size := stack[|stack| - 1], stack[|stack| - 2];
        if offset >= USIZE_MODULUS || size >= USIZE_MODULUS || size == 0 || size > MAX_PREIMAGE_LEN {
          return;
        }
        var preimage := ReadMemory(memory, offset, size);
        preimages := preimages[keccak(preimage) := preimage];
        forall p | IsRegion(memory, offset, size, p) ensures p == preimage {
        }
      } else if opcode == OP_SLOAD && stack != [] {
        pending := Some(WordBytes(stack[|stack| - 1]));
      }
    }

    /** `step_end`: the pending load's result is now on top of the stack. */
    method StepEnd(stack: seq<Word>)
      requires Valid()
      modifies this`loads, this`pending
      ensures Valid() && pending == None
      ensures old(pending).Some? && stack != [] ==> loads == old(loads) + [Load(old(pending).value, stack[|stack| - 1])]
      ensures old(pending).None? || stack == [] ==> loads == old(loads)
    {
      if pending.Some? {
        if stack != [] {
          loads := loads + [Load(pending.value, stack[|stack| - 1])];
        }
        pending := None;
      }
    }

    /** `accesses`: every load of a recorded hash is factored, in observation order
        and with none left out; each access explains its slot. */
    method Accesses(known: seq<Hash>) returns (found: seq<Access>)
      requires Valid() && Acyclic(preimages)
      ensures Factored(keccak, preimages, known, loads, found)
    {
      found := FactorLoads(keccak, preimages, known, loads);
    }
  }

  /** Exactly the hashed loads are factored, in order: `found[j]` is the factoring of
      the load at `indices[j]`. */
  ghost predicate AllFactored(keccak: Keccak, pre: Table, known: seq<Hash>, loads: seq<Load>, found: seq<Access>,
                              indices: seq<nat>) {
    && HashedIndices(indices, pre, loads) && |found| == |indices|
    && forall j :: 0 <= j < |found| ==> FactoredAt(keccak, pre, known, loads, indices[j], found[j])
  }

  ghost predicate FactoredAt(keccak: Keccak, pre: Table, known: seq<Hash>, loads: seq<Load>, i: nat, a: Access) {
    i < |loads| && Factors(keccak, pre, known, loads[i], a)
  }

  lemma NothingFactored(keccak: Keccak, pre: Table, known: seq<Hash>)
    ensures AllFactored(keccak, pre, known, [], [], [])
  {
  }

  lemma FactoredNext(keccak: Keccak, pre: Table, known: seq<Hash>, loads: seq<Load>, found: seq<Access>,
                     indices: seq<nat>, load: Load, more: seq<Access>)
    requires AllFactored(keccak, pre, known, loads, found, indices)
    requires load.slot !in pre ==> more == []
    requires load.slot in pre ==> |more| == 1 && Factors(keccak, pre, known, load, more[0])
    ensures AllFactored(keccak, pre, known, loads + [load], found + more,
                        if load.slot in pre then indices + [|loads|] else indices)
  {
    NextIndex(indices, pre, loads, load);
    var all, places := found + more, if load.slot in pre then indices + [|loads|] else indices;
    forall j | 0 <= j < |all| ensures FactoredAt(keccak, pre, known, loads + [load], places[j], all[j]) {
      if j < |found| {
        assert FactoredAt(keccak, pre, known, loads, indices[j], found[j]);
      }
    }
  }

  ghost predicate Factored(keccak: Keccak, pre: Table, known: seq<Hash>, loads: seq<Load>, found: seq<Access>) {
    exists indices :: AllFactored(keccak, pre, known, loads, found, indices)
  }

  method FactorLoads(ghost keccak: Keccak, pre: Table, known: seq<Hash>, loads: seq<Load>) returns (found: seq<Access>)
    requires Recorded(keccak, pre) && Acyclic(pre)
    ensures Factored(keccak, pre, known, loads, found)
  {
    found := [];
    NothingFactored(keccak, pre, known);
    assert loads[..0] == [];
    for i := 0 to |loads|
      invariant Factored(keccak, pre, known, loads[..i], found)
    {
      found := FactorNext(keccak, pre, known, loads[..i], found, loads[i]);
      assert loads[..i + 1] == loads[..i] + [loads[i]];
    }
    assert loads[..|loads|] == loads;
  }

  method FactorNext(ghost keccak: Keccak, pre: Table, known: seq<Hash>, ghost loads: seq<Load>, before: seq<Access>,
                    load: Load)
    returns (found: seq<Access>)
    requires Recorded(keccak, pre) && Acyclic(pre) && Factored(keccak, pre, known, loads, before)
    ensures Factored(keccak, pre, known, loads + [load], found)
  {
    ghost var indices :| AllFactored(keccak, pre, known, loads, before, indices);
    if load.slot in pre {
      var a := FactorLoad(keccak, pre, known, load);
      FactoredNext(keccak, pre, known, loads, before, indices, load, [a]);
      found := before + [a];
    } else {
      FactoredNext(keccak, pre, known, loads, before, indices, load, []);
      found := before + [];
    }
  }

  method FactorLoad(ghost keccak: Keccak, pre: Table, known: seq<Hash>, load: Load) returns (a: Access)
    requires Recorded(keccak, pre) && Acyclic(pre)
    ensures Factors(keccak, pre, known, load, a)
  {
    AcyclicGrounds(pre, load.slot);
    a := Resolve(pre, known, load.slot, load.value);
    ResolvedFactors(keccak, pre, known, load);
  }
}
