/**
 Bytes, 256-bit words, and the big-endian encodings every other module packs
 and unpacks.  Widths are explicit: a `Word` is an integer below 2^256 and an
 `Address` one below 2^160.
 */
module Words {

  const WORD_MODULUS: nat := 0x1_00000000_00000000_00000000_00000000_00000000_00000000_00000000_00000000
  const ADDRESS_MODULUS: nat := 0x1_00000000_00000000_00000000_00000000_00000000

  const USIZE_MODULUS: nat := 0x1_00000000_00000000

  type byte = b: int | 0 <= b < 256
  type Bytes = seq<byte>
  type Word = w: int | 0 <= w < WORD_MODULUS
  type Address = a: int | 0 <= a < ADDRESS_MODULUS

  /** One storage slot of one account. */
  datatype SlotKey = SlotKey(address: Address, slot: Word)

  datatype Option<+T> = None | Some(value: T)
  datatype Result<+T, +E> = Ok(value: T) | Err(error: E)

  /** The parts one after the other. */
  function Concat<T>(parts: seq<seq<T>>): seq<T> {
    if parts == [] then [] else Concat(parts[..|parts| - 1]) + parts[|parts| - 1]
  }

  /** A non-empty suffix contributes its last element last. */
  lemma SplitLast<T>(a: seq<T>, b: seq<T>)
    requires b != []
    ensures b == b[..|b| - 1] + [b[|b| - 1]]
    ensures a + b == (a + b[..|b| - 1]) + [b[|b| - 1]]
  {
  }

  lemma Associate<T>(a: seq<T>, b: seq<T>, c: seq<T>)
    ensures (a + b) + c == a + (b + c)
  {
  }

  lemma AssociateBags<T>(a: multiset<T>, b: multiset<T>, c: multiset<T>)
    ensures (a + b) + c == a + (b + c)
  {
  }

  lemma RearrangeBags<T>(a: multiset<T>, b: multiset<T>, c: multiset<T>, d: multiset<T>)
    ensures (a + b) + (c + d) == (a + c) + (b + d)
  {
  }

  lemma ScaledGap(d: nat, a: nat, b: nat)
    requires a < b
    ensures d * a + d <= d * b
  {
    assert d * (a + 1) + d * (b - a - 1) == d * b;
  }

  function Pow256(n: nat): (p: nat)
    ensures p > 0
  {
    if n == 0 then 1 else 256 * Pow256(n - 1)
  }

  /** Big-endian representation of `v` in exactly `n` bytes (high bytes dropped). */
  function ToBytes(v: nat, n: nat): (b: Bytes)
    ensures |b| == n
  {
    if n == 0 then [] else ToBytes(v / 256, n - 1) + [v % 256]
  }

  function FromBytes(b: Bytes): (v: nat)
    ensures v < Pow256(|b|)
  {
    if b == [] then 0 else FromBytes(b[..|b| - 1]) * 256 + b[|b| - 1]
  }

  lemma {:induction false} DecodeOfEncode(v: nat, n: nat)
    requires v < Pow256(n)
    ensures FromBytes(ToBytes(v, n)) == v
  {
    if n == 0 {
    } else {
      var high := ToBytes(v / 256, n - 1);
      DecodeOfEncode(v / 256, n - 1);
      assert ToBytes(v, n)[..n - 1] == high;
    }
  }

  lemma {:induction false} EncodeOfDecode(b: Bytes)
    ensures ToBytes(FromBytes(b), |b|) == b
  {
    if b == [] {
    } else {
      var high, low := b[..|b| - 1], b[|b| - 1];
      EncodeOfDecode(high);
      var v := FromBytes(b);
      assert v / 256 == FromBytes(high) && v % 256 == low;
      assert b == high + [low];
    }
  }

  /** The low `n` bytes of a wider encoding are the `n`-byte encoding. */
  lemma {:induction false} EncodeSuffix(v: nat, n: nat, wide: nat)
    requires n <= wide
    ensures ToBytes(v, wide)[wide - n..] == ToBytes(v, n)
  {
    if n == 0 {
    } else {
      EncodeSuffix(v / 256, n - 1, wide - 1);
      assert ToBytes(v, wide) == ToBytes(v / 256, wide - 1) + [v % 256];
    }
  }

  /** Leading zero bytes carry no value. */
  lemma {:induction false} ZeroPrefix(zeros: Bytes, b: Bytes)
    requires forall i :: 0 <= i < |zeros| ==> zeros[i] == 0
    ensures FromBytes(zeros + b) == FromBytes(b)
    decreases |b|, |zeros|
  {
    var all := zeros + b;
    if b != [] {
      assert all[..|all| - 1] == zeros + b[..|b| - 1];
      ZeroPrefix(zeros, b[..|b| - 1]);
    } else if zeros != [] {
      assert all == zeros;
      assert all[..|all| - 1] == zeros[..|zeros| - 1] + b;
      ZeroPrefix(zeros[..|zeros| - 1], b);
    }
  }

  lemma PowWidths()
    ensures Pow256(12) * Pow256(20) == Pow256(32) == WORD_MODULUS
    ensures Pow256(20) == ADDRESS_MODULUS
    ensures Pow256(12) <= WORD_MODULUS
  {
    assert Pow256(4) == 0x1_00000000;
    assert Pow256(8) == 0x1_00000000_00000000;
    assert Pow256(12) == 0x1_00000000_00000000_00000000;
    assert Pow256(16) == 0x1_00000000_00000000_00000000_00000000;
    assert Pow256(20) == ADDRESS_MODULUS;
    assert Pow256(24) == 0x1_00000000_00000000_00000000_00000000_00000000_00000000;
    assert Pow256(28) == 0x1_00000000_00000000_00000000_00000000_00000000_00000000_00000000;
    assert Pow256(32) == WORD_MODULUS;
  }

  /** A word as its 32 bytes (`U256::to_be_bytes::<32>`). */
  function WordBytes(w: Word): (b: Bytes)
    ensures |b| == 32
  {
    ToBytes(w, 32)
  }

  /** 32 bytes as a word (`U256::from_be_slice`). */
  function WordOf(b: Bytes): (w: Word)
    requires |b| == 32
  {
    FromBytes(b) % WORD_MODULUS
  }

  lemma WordRoundTrip(w: Word)
    ensures WordOf(WordBytes(w)) == w
  {
    PowWidths();
    DecodeOfEncode(w, 32);
  }

  lemma BytesRoundTrip(b: Bytes)
    requires |b| == 32
    ensures WordBytes(WordOf(b)) == b && WordOf(b) == FromBytes(b)
  {
    PowWidths();
    assert WordOf(b) == FromBytes(b);
    EncodeOfDecode(b);
  }

  /** Words laid out back to back, 32 bytes each. */
  function Pack(ws: seq<Word>): (b: Bytes)
    ensures |b| == 32 * |ws|
  {
    if ws == [] then [] else Pack(ws[..|ws| - 1]) + WordBytes(ws[|ws| - 1])
  }

  lemma PackAppend(ws: seq<Word>, w: Word)
    ensures Pack(ws + [w]) == Pack(ws) + WordBytes(w)
  {
    assert (ws + [w])[..|ws|] == ws;
  }

  lemma {:induction false} PackedWordAt(ws: seq<Word>, i: nat)
    requires i < |ws|
    ensures Pack(ws)[32 * i..32 * i + 32] == WordBytes(ws[i])
    ensures WordOf(Pack(ws)[32 * i..32 * i + 32]) == ws[i]
  {
    var n := |ws| - 1;
    if i < n {
      PackedWordAt(ws[..n], i);
      assert Pack(ws)[32 * i..32 * i + 32] == Pack(ws[..n])[32 * i..32 * i + 32];
    } else {
      assert Pack(ws)[32 * i..32 * i + 32] == WordBytes(ws[n]);
    }
    WordRoundTrip(ws[i]);
  }
}
