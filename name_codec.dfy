/** The byte encoding of setting names: every name is stored as a short
    sequence of dictionary indices, one byte each or as base-128 varints. */
module NameCodec {
  import opened Common

  /** The two encodings of a name, chosen at build time by
      SETTING_ENCODED_NAME_USES_BYTE_INDEXING. */
  datatype NameEncoding =
    | ByteIndexed  // every byte is one dictionary index
    | Varint       // every index is a little-endian base-128 number


  // ---------------------------------------------------------------------
  // Decoding bytes into dictionary indices
  // ---------------------------------------------------------------------

  /** What the decoder knows after some prefix of the encoded bytes: the
      indices completed so far and, for the varint encoding, the partial
      index `acc` (a `uint16_t`) and the bit position of its next group. */
  datatype DecodeState = DecodeState(done: seq<nat>, acc: u16, shift: nat)

  const Start := DecodeState([], 0, 0)

  /** One byte of input. A varint byte with the high bit set adds its low
      seven bits at `shift` and continues; one with the high bit clear adds
      itself, completes the index, and resets `acc` and `shift`. The C code
      ORs the groups in; they occupy disjoint bits (see
      `AccumulatorBelowShift`), so OR is addition, truncated to 16 bits. */
  function Step(enc: NameEncoding, s: DecodeState, b: byte): (r: DecodeState)
    ensures s.done <= r.done && |r.done| <= |s.done| + 1
  {
    match enc
    case ByteIndexed => s.(done := s.done + [b])
    case Varint =>
      if b >= 0x80 then
        s.(acc := AddGroup(s.acc, b - 0x80, s.shift), shift := s.shift + 7)
      else
        DecodeState(s.done + [AddGroup(s.acc, b, s.shift)], 0, 0)
  }

  /** C `n |= group << shift` on the `uint16_t` accumulator, for a group
      whose bits lie above those already in `acc`. */
  function AddGroup(acc: u16, group: nat, shift: nat): u16
  {
    ToU16(acc + group * Pow2(shift))
  }

  /** The decoder state after feeding `bytes`, in order, to state `s`. */
  function Run(enc: NameEncoding, s: DecodeState, bytes: seq<byte>): DecodeState
    decreases |bytes|
  {
    if bytes == [] then s
    else Step(enc, Run(enc, s, bytes[..|bytes| - 1]), bytes[|bytes| - 1])
  }

  /** The dictionary indices an encoded name holds (a trailing unfinished
      varint contributes nothing). */
  function Indices(enc: NameEncoding, bytes: seq<byte>): seq<nat>
  {
    Run(enc, Start, bytes).done
  }

  lemma {:induction false} RunAppend(enc: NameEncoding, s: DecodeState, a: seq<byte>, b: seq<byte>)
    ensures Run(enc, s, a + b) == Run(enc, Run(enc, s, a), b)
    decreases |b|
  {
    if b == [] {
      assert a + b == a;
    } else {
      assert (a + b)[..|a + b| - 1] == a + b[..|b| - 1];
      RunAppend(enc, s, a, b[..|b| - 1]);
    }
  }

  lemma RunCons(enc: NameEncoding, s: DecodeState, x: byte, rest: seq<byte>)
    ensures Run(enc, s, [x] + rest) == Run(enc, Step(enc, s, x), rest)
  {
    RunAppend(enc, s, [x], rest);
    assert [x][..0] == [];
  }

  /** Feeding more bytes only ever extends the list of completed indices. */
  lemma {:induction false} RunExtends(enc: NameEncoding, s: DecodeState, bytes: seq<byte>)
    ensures s.done <= Run(enc, s, bytes).done
    decreases |bytes|
  {
    if bytes != [] {
      RunExtends(enc, s, bytes[..|bytes| - 1]);
    }
  }

  /** The indices decoded from a prefix of the bytes are a prefix of the
      indices decoded from all of them. */
  lemma IndicesOfPrefix(enc: NameEncoding, bytes: seq<byte>, i: nat)
    requires i <= |bytes|
    ensures Indices(enc, bytes[..i]) <= Indices(enc, bytes)
  {
    assert bytes == bytes[..i] + bytes[i..];
    RunAppend(enc, Start, bytes[..i], bytes[i..]);
    RunExtends(enc, Run(enc, Start, bytes[..i]), bytes[i..]);
  }

  /** In the byte-indexed encoding every byte is taken as it is as a
      zero-based dictionary index. */
  lemma {:induction false} ByteIndicesAreBytes(bytes: seq<byte>)
    ensures Indices(ByteIndexed, bytes) == bytes
    decreases |bytes|
  {
    if bytes != [] {
      ByteIndicesAreBytes(bytes[..|bytes| - 1]);
      assert bytes == bytes[..|bytes| - 1] + [bytes[|bytes| - 1]];
    }
  }

  /** The partial index never has bits at or above `shift`: the seven-bit
      groups the C code ORs together never overlap, so the model's
      addition is the same as the source's OR. */
  lemma {:induction false} AccumulatorBelowShift(enc: NameEncoding, bytes: seq<byte>)
    ensures Run(enc, Start, bytes).acc < Pow2(Run(enc, Start, bytes).shift)
    decreases |bytes|
  {
    if bytes != [] {
      var prev := bytes[..|bytes| - 1];
      AccumulatorBelowShift(enc, prev);
      StepBelowShift(enc, Run(enc, Start, prev), bytes[|bytes| - 1]);
    }
  }

  /** One byte keeps the partial index below its shift. */
  lemma StepBelowShift(enc: NameEncoding, s: DecodeState, b: byte)
    requires s.acc < Pow2(s.shift)
    ensures Step(enc, s, b).acc < Pow2(Step(enc, s, b).shift)
  {
    if enc == Varint && b >= 0x80 {
      var p := Pow2(s.shift);
      var x := s.acc + (b - 0x80) * p;
      Pow2Add(s.shift, 7);
      Pow2Seven();
      GroupFits(s.acc, b - 0x80, p);
      ToU16Shrinks(x);
      assert Step(enc, s, b).acc == ToU16(x) <= x < 0x80 * p == Pow2(s.shift + 7);
    }
  }

  /** Varint bytes that all have the high bit set (an index cut off at the
      byte limit) emit no index. */
  lemma {:induction false} UnfinishedVarintEmitsNothing(prefix: seq<byte>, tail: seq<byte>)
    requires forall k :: 0 <= k < |tail| ==> tail[k] >= 0x80
    ensures Indices(Varint, prefix + tail) == Indices(Varint, prefix)
    decreases |tail|
  {
    if tail == [] {
      assert prefix + tail == prefix;
    } else {
      assert (prefix + tail)[..|prefix + tail| - 1] == prefix + tail[..|tail| - 1];
      UnfinishedVarintEmitsNothing(prefix, tail[..|tail| - 1]);
    }
  }

  /** A seven-bit group placed above a value below `p` stays below `128 * p`. */
  lemma GroupFits(acc: nat, c: nat, p: nat)
    requires acc < p && c < 0x80
    ensures acc + c * p < 0x80 * p
  {
    assert c * p <= 127 * p;
  }

  lemma Pow2Seven()
    ensures Pow2(7) == 0x80
  {
    assert Pow2(1) == 2;
    assert Pow2(3) == 8;
    assert Pow2(5) == 32;
  }

  lemma {:induction false} Pow2Add(a: nat, b: nat)
    ensures Pow2(a + b) == Pow2(a) * Pow2(b)
    decreases b
  {
    if b > 0 {
      Pow2Add(a, b - 1);
    }
  }

  // ---------------------------------------------------------------------
  // The encoder the table generator uses (the partner of the decoder)
  // ---------------------------------------------------------------------

  /** One index as a little-endian base-128 number. */
  function EncodeIndex(n: nat): (r: seq<byte>)
    ensures |r| >= 1
    decreases n
  {
    if n < 0x80 then [n] else [0x80 + n % 0x80] + EncodeIndex(n / 0x80)
  }

  /** One index in the chosen encoding. */
  function EncodeOne(enc: NameEncoding, n: nat): seq<byte>
    requires enc == ByteIndexed ==> n < 0x100
  {
    match enc
    case ByteIndexed => [n]
    case Varint => EncodeIndex(n)
  }

  /** The indices the decoder can hold: a byte, or its `uint16_t`
      accumulator. */
  function IndexLimit(enc: NameEncoding): nat
  {
    match enc
    case ByteIndexed => 0x100
    case Varint => 0x1_0000
  }

  /** Every index of `ids` survives an encode and decode. */
  predicate Encodable(enc: NameEncoding, ids: seq<nat>)
  {
    forall k :: 0 <= k < |ids| ==> ids[k] < IndexLimit(enc)
  }

  /** A sequence of indices in the chosen encoding. */
  function EncodeIndices(enc: NameEncoding, ids: seq<nat>): seq<byte>
    requires Encodable(enc, ids)
  {
    if ids == [] then [] else EncodeOne(enc, ids[0]) + EncodeIndices(enc, ids[1..])
  }

  /** Decoding one encoded index adds exactly that index to whatever the
      partial state held, and leaves the varint state reset. */
  lemma {:induction false} DecodeEncodeIndex(d: seq<nat>, acc: u16, shift: nat, n: nat)
    requires acc + n * Pow2(shift) < 0x1_0000
    ensures Run(Varint, DecodeState(d, acc, shift), EncodeIndex(n))
         == DecodeState(d + [acc + n * Pow2(shift)], 0, 0)
    decreases n
  {
    var s := DecodeState(d, acc, shift);
    var p := Pow2(shift);
    if n < 0x80 {
      assert EncodeIndex(n) == [] + [n];
      ToU16Fits(acc + n * p);
    } else {
      var lo, hi := n % 0x80, n / 0x80;
      SplitGroup(acc, n, p);
      var acc' := acc + lo * p;
      ToU16Fits(acc');
      assert Step(Varint, s, 0x80 + lo) == DecodeState(d, acc', shift + 7);
      Pow2Add(shift, 7);
      Pow2Seven();
      assert acc' + hi * Pow2(shift + 7) == acc + n * p;
      DecodeEncodeIndex(d, acc', shift + 7, hi);
      RunCons(Varint, s, 0x80 + lo, EncodeIndex(hi));
    }
  }

  /** The low group and the rest of an index, placed at `p` and `128 * p`,
      add up to the index placed at `p`. */
  lemma SplitGroup(acc: nat, n: nat, p: nat)
    ensures acc + (n % 0x80) * p + (n / 0x80) * (0x80 * p) == acc + n * p
    ensures (n % 0x80) * p <= n * p
  {
    var lo, hi := n % 0x80, n / 0x80;
    assert n == 0x80 * hi + lo;
    assert hi * (0x80 * p) == (0x80 * hi) * p;
    assert (0x80 * hi) * p + lo * p == n * p;
  }

  /** Decoding one encoded index, from a reset state, completes exactly
      that index. */
  lemma DecodeEncodeOne(enc: NameEncoding, d: seq<nat>, n: nat)
    requires enc == ByteIndexed ==> n < 0x100
    requires enc == Varint ==> n < 0x1_0000
    ensures Run(enc, DecodeState(d, 0, 0), EncodeOne(enc, n)) == DecodeState(d + [n], 0, 0)
  {
    if enc == Varint {
      DecodeEncodeIndex(d, 0, 0, n);
    } else {
      assert EncodeOne(enc, n) == [] + [n];
    }
  }

  /** Decoding an encoded index sequence, from a reset state, yields
      exactly those indices. */
  lemma {:induction false} DecodeEncodeIndices(enc: NameEncoding, d: seq<nat>, ids: seq<nat>)
    requires Encodable(enc, ids)
    ensures Run(enc, DecodeState(d, 0, 0), EncodeIndices(enc, ids)) == DecodeState(d + ids, 0, 0)
    decreases |ids|
  {
    if ids == [] {
      assert d + ids == d;
    } else {
      var rest := ids[1..];
      assert Encodable(enc, rest) by {
        assert forall k :: 0 <= k < |rest| ==> rest[k] == ids[k + 1];
      }
      var tail := EncodeIndices(enc, rest);
      DecodeEncodeFirst(enc, d, ids[0], tail);
      DecodeEncodeIndices(enc, d + [ids[0]], rest);
      assert (d + [ids[0]]) + rest == d + ids;
    }
  }

  /** Decoding an encoded index followed by more bytes decodes that index
      first and then the rest from a reset state. */
  lemma DecodeEncodeFirst(enc: NameEncoding, d: seq<nat>, n: nat, tail: seq<byte>)
    requires n < IndexLimit(enc)
    ensures Run(enc, DecodeState(d, 0, 0), EncodeOne(enc, n) + tail)
         == Run(enc, DecodeState(d + [n], 0, 0), tail)
  {
    RunAppend(enc, DecodeState(d, 0, 0), EncodeOne(enc, n), tail);
    DecodeEncodeOne(enc, d, n);
  }

}
