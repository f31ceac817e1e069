/** Transaction identifiers: the 32-bit packing of (epoch, count), its byte form,
    and the order that the election and the sync protocol rely on. */
module Zxid {

  type byte = x: int | 0 <= x < 0x100
  type uint16 = x: int | 0 <= x < 0x1_0000
  type uint32 = x: int | 0 <= x < 0x1_0000_0000

  /** The two halves are disjoint bit ranges, so the source's shift-and-or is this sum
      (ComposeIsShiftOr). */
  function Compose(epoch: uint16, count: uint16): (z: uint32) {
    epoch * 0x1_0000 + count
  }

  function Decompose(z: uint32): (r: (uint16, uint16)) {
    (z / 0x1_0000, z % 0x1_0000)
  }

  lemma ComposeIsShiftOr(epoch: bv32, count: bv32)
    requires epoch < 0x1_0000 && count < 0x1_0000
    ensures (epoch << 16) | count == epoch * 0x1_0000 + count
    ensures ((epoch << 16) | count) >> 16 == epoch
    ensures ((epoch << 16) | count) & 0xFFFF == count
  {
  }

  lemma ComposeDecompose(epoch: uint16, count: uint16, z: uint32)
    ensures Decompose(Compose(epoch, count)) == (epoch, count)
    ensures Compose(Decompose(z).0, Decompose(z).1) == z
  {
  }

  /** Numeric order of zxids is the lexicographic order of (epoch, count). */
  lemma ComposeOrder(e1: uint16, c1: uint16, e2: uint16, c2: uint16)
    ensures Compose(e1, c1) < Compose(e2, c2) <==> e1 < e2 || (e1 == e2 && c1 < c2)
    ensures Compose(e1, c1) == Compose(e2, c2) <==> e1 == e2 && c1 == c2
  {
  }

  /** `countNum++` on a 16-bit counter. */
  function Increment(x: uint16): uint16 {
    (x + 1) % 0x1_0000
  }

  /** A leader's next zxid exceeds its last one exactly while the count does not wrap. */
  lemma NextCountIsLarger(epoch: uint16, count: uint16)
    ensures Compose(epoch, Increment(count)) > Compose(epoch, count) <==> count < 0xFFFF
  {
  }

  /** Native byte order is fixed to little-endian. */
  function Uint32ToBytes(z: uint32): (b: seq<byte>)
    ensures |b| == 4
  {
    [z % 0x100, z / 0x100 % 0x100, z / 0x1_0000 % 0x100, z / 0x100_0000]
  }

  function BytesToUint32(b: seq<byte>): uint32
    requires |b| >= 4
  {
    var b0: int, b1: int, b2: int, b3: int := b[0], b[1], b[2], b[3];
    b0 + b1 * 0x100 + b2 * 0x1_0000 + b3 * 0x100_0000
  }

  lemma Uint32RoundTrip(z: uint32, tail: seq<byte>)
    ensures BytesToUint32(Uint32ToBytes(z) + tail) == z
    ensures BytesToUint32(Uint32ToBytes(z)) == z
  {
    var q1, q2, q3 := z / 0x100, z / 0x1_0000, z / 0x100_0000;
    assert z == q1 * 0x100 + z % 0x100;
    assert q1 == q2 * 0x100 + q1 % 0x100;
    assert q2 == q3 * 0x100 + q2 % 0x100;
  }
}
