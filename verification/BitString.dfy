/** Models the bit packing of src/modules/credentials/services/status-list.service.ts: one status bit
    per index, most significant bit first (W3C Bitstring Status List v1.0, sections 3.3 and 3.4). */
module BitString {
  /** Where bit `o` of a byte sits, counted from the most significant end: 1 << (7 - o). */
  function Mask(o: nat): bv8
    requires o < 8
  {
    (1 as bv8) << (7 - o)
  }

  /** (byte >> (7 - o)) & 1. */
  function Bit(b: bv8, o: nat): bv8
    requires o < 8
  {
    (b >> (7 - o)) & 1
  }

  lemma ByteFromBits(a: bv8, b: bv8)
    requires forall o | 0 <= o < 8 :: Bit(a, o) == Bit(b, o)
    ensures a == b
  {
    assert Bit(a, 0) == Bit(b, 0) && Bit(a, 1) == Bit(b, 1) && Bit(a, 2) == Bit(b, 2) && Bit(a, 3) == Bit(b, 3);
    assert Bit(a, 4) == Bit(b, 4) && Bit(a, 5) == Bit(b, 5) && Bit(a, 6) == Bit(b, 6) && Bit(a, 7) == Bit(b, 7);
  }

  // ---------------------------------------------------------------------------------------------
  // The packed list
  // ---------------------------------------------------------------------------------------------

  datatype Entry = Entry(index: int, value: int)

  /** Math.ceil(maxSize / 8). */
  function ByteCount(size: nat): nat { (size + 7) / 8 }

  /** The indices a buffer of that many bytes can hold: up to seven more than maxSize. */
  predicate Holds(bytes: nat, index: int) { 0 <= index < 8 * bytes }

  /** The expression checkEntry returns; a read past the buffer is `undefined >> n`, which is 0. */
  function BitAt(bits: seq<bv8>, index: int): bv8 {
    if Holds(|bits|, index) then Bit(bits[index / 8], index % 8) else 0
  }

  ghost predicate Encodes(bits: seq<bv8>, ones: set<int>, size: nat) {
    && |bits| == ByteCount(size)
    && forall i | Holds(|bits|, i) :: BitAt(bits, i) == if i in ones then 1 else 0
  }

  function OnesOf(entries: seq<Entry>): set<int> {
    set e | e in entries && e.value == 1 :: e.index
  }

  function MaskIf(on: bool, o: nat): bv8
    requires o < 8
  {
    if on then Mask(o) else 0
  }

  function PackByte(ones: set<int>, k: int): bv8 {
    MaskIf(8 * k in ones, 0) | MaskIf(8 * k + 1 in ones, 1) | MaskIf(8 * k + 2 in ones, 2) | MaskIf(8 * k + 3 in ones, 3) |
    MaskIf(8 * k + 4 in ones, 4) | MaskIf(8 * k + 5 in ones, 5) | MaskIf(8 * k + 6 in ones, 6) | MaskIf(8 * k + 7 in ones, 7)
  }

  /** The one bit string of its length that has exactly the bits of `ones` set. */
  function Pack(ones: set<int>, size: nat): (bits: seq<bv8>) {
    seq(ByteCount(size), k => PackByte(ones, k))
  }

  lemma PackEncodes(ones: set<int>, size: nat)
    ensures Encodes(Pack(ones, size), ones, size)
  {
  }

  lemma EncodingIsUnique(a: seq<bv8>, b: seq<bv8>, ones: set<int>, size: nat)
    requires Encodes(a, ones, size) && Encodes(b, ones, size)
    ensures a == b
  {
    forall k | 0 <= k < |a| ensures a[k] == b[k] {
      forall o | 0 <= o < 8 ensures Bit(a[k], o) == Bit(b[k], o) {
        var i := 8 * k + o;
        assert i / 8 == k && i % 8 == o;
        assert BitAt(a, i) == BitAt(b, i);
      }
      ByteFromBits(a[k], b[k]);
    }
  }

  /** The bits of a byte from the left, as section 3.3 of the recommendation counts them. */
  const FROM_THE_LEFT: seq<bv8> := [0x80, 0x40, 0x20, 0x10, 0x08, 0x04, 0x02, 0x01]

  lemma BitFromTheLeft(b: bv8, o: nat)
    requires o < 8
    ensures Bit(b, o) == if b & FROM_THE_LEFT[o] != 0 then 1 else 0
  {
  }

  lemma ReadFromTheLeft(bits: seq<bv8>, i: int)
    ensures 0 <= i < 8 * |bits| ==> BitAt(bits, i) == if bits[i / 8] & FROM_THE_LEFT[i % 8] != 0 then 1 else 0
    ensures !(0 <= i < 8 * |bits|) ==> BitAt(bits, i) == 0
  {
    if 0 <= i < 8 * |bits| { BitFromTheLeft(bits[i / 8], i % 8); }
  }

  /** Index 0 is the left-most bit of the first byte: a packed list has, in byte i / 8 and i % 8 bits from its left,
      a one exactly for the indices packed. */
  lemma LeftmostFirst(ones: set<int>, size: nat, i: int)
    ensures |Pack(ones, size)| == if size % 8 == 0 then size / 8 else size / 8 + 1
    ensures 0 <= i < 8 * |Pack(ones, size)| ==> (Pack(ones, size)[i / 8] & FROM_THE_LEFT[i % 8] != 0 <==> i in ones)
  {
    var bits := Pack(ones, size);
    PackEncodes(ones, size);
    if Holds(|bits|, i) { ReadsIfPacked(bits, ones, size, i); }
  }

  lemma ReadsIfPacked(bits: seq<bv8>, ones: set<int>, size: nat, i: int)
    requires Encodes(bits, ones, size) && Holds(|bits|, i)
    ensures bits[i / 8] & FROM_THE_LEFT[i % 8] != 0 <==> i in ones
  {
    ReadFromTheLeft(bits, i);
  }

  /** One turn of the loop: `bits[byteIndex] |= 1 << bitOffset`, dropped when past the buffer. */
  function Mark(bits: seq<bv8>, e: Entry): (r: seq<bv8>)
    ensures |r| == |bits|
  {
    if e.value == 1 && Holds(|bits|, e.index)
    then bits[e.index / 8 := bits[e.index / 8] | Mask(e.index % 8)]
    else bits
  }

  lemma MarkSetsOneBit(bits: seq<bv8>, e: Entry, i: int)
    requires Holds(|bits|, i)
    ensures BitAt(Mark(bits, e), i) == if e.value == 1 && e.index == i then 1 else BitAt(bits, i)
  {
  }

  lemma MarkEncodes(bits: seq<bv8>, entries: seq<Entry>, e: Entry, size: nat)
    requires Encodes(bits, OnesOf(entries), size)
    ensures Encodes(Mark(bits, e), OnesOf(entries + [e]), size)
  {
    assert OnesOf(entries + [e]) == OnesOf(entries) + if e.value == 1 then {e.index} else {};
    forall i | Holds(|bits|, i) ensures BitAt(Mark(bits, e), i) == if i in OnesOf(entries + [e]) then 1 else 0 {
      MarkSetsOneBit(bits, e, i);
    }
  }

  lemma NothingSet(bits: seq<bv8>, size: nat)
    requires |bits| == ByteCount(size) && forall k | 0 <= k < |bits| :: bits[k] == 0
    ensures Encodes(bits, {}, size)
  {
  }

  /** The loop of encodeList, before compression; a write past the buffer is dropped. */
  method PackEntries(entries: seq<Entry>, maxSize: nat) returns (bits: seq<bv8>)
    ensures bits == Pack(OnesOf(entries), maxSize)
  {
    var buffer := new bv8[ByteCount(maxSize)](_ => 0);
    NothingSet(buffer[..], maxSize);
    for n := 0 to |entries|
      invariant Encodes(buffer[..], OnesOf(entries[..n]), maxSize)
    {
      var e := entries[n];
      ghost var before := buffer[..];
      if e.value == 1 {
        if Holds(buffer.Length, e.index) {
          buffer[e.index / 8] := buffer[e.index / 8] | Mask(e.index % 8);
        }
      }
      assert buffer[..] == Mark(before, e);
      MarkEncodes(before, entries[..n], e, maxSize);
      assert entries[..n + 1] == entries[..n] + [e];
    }
    assert entries[..|entries|] == entries;
    bits := buffer[..];
    PackEncodes(OnesOf(entries), maxSize);
    EncodingIsUnique(bits, Pack(OnesOf(entries), maxSize), OnesOf(entries), maxSize);
  }
}
