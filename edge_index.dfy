/**
 * The 64-bit dedup key `index(edge)` of GdsReadJob: `(left << 33) | (right & 0x00000000FFFFFFFF)`.
 * The mask is a Java `int` literal whose value is -1; widened to `long` it has every bit set, so
 * it clears nothing and the right id is OR-ed in whole. Arithmetic is on two's-complement `long`
 * bits, i.e. `bv64`.
 */
module EdgeIndex {
  import opened GraphModel

  /** The 32 bits of the Java `int` literal `0x00000000FFFFFFFF`. */
  const IntLiteralMask: bv32 := 0xFFFF_FFFF

  /** Java's `int` to `long` widening, which copies the sign bit into the upper half. */
  function WidenToLong(b: bv32): (r: bv64)
    ensures b & 0x8000_0000 != 0 ==> r >> 32 == 0xFFFF_FFFF
    ensures b & 0x8000_0000 == 0 ==> r >> 32 == 0
    ensures r & 0xFFFF_FFFF == b as bv64
  {
    if b & 0x8000_0000 == 0 then b as bv64 else (b as bv64) | 0xFFFF_FFFF_0000_0000
  }

  /** `index` as written: shift by 33, AND with the widened literal, OR together. */
  function Index(left: bv64, right: bv64): bv64
  {
    (left << 33) | (right & WidenToLong(IntLiteralMask))
  }

  /** The key of a re-oriented pair. */
  function Key(p: Pair): bv64
  {
    Index(p.left, p.right)
  }

  /** The high part of a key: the left id, when it fits in 31 bits. */
  function KeyLeft(key: bv64): bv64
  {
    key >> 33
  }

  /** The low 33 bits of a key: the right id, when it fits in 33 bits. */
  function KeyRight(key: bv64): bv64
  {
    key & 0x1_FFFF_FFFF
  }

  /** The mask has no effect: the key is `(left << 33) | right`. */
  lemma MaskClearsNoBits(left: bv64, right: bv64)
    ensures WidenToLong(IntLiteralMask) == 0xFFFF_FFFF_FFFF_FFFF
    ensures Index(left, right) == (left << 33) | right
  {
  }

  /** Within the bit ranges that do not overlap, both ids can be read back from the key. */
  lemma IndexRoundTrip(left: bv64, right: bv64)
    requires left < 1 << 31 && right < 1 << 33
    ensures KeyLeft(Index(left, right)) == left
    ensures KeyRight(Index(left, right)) == right
  {
    MaskClearsNoBits(left, right);
  }

  /** Hence `index` is injective for left ids below 2^31 and right ids below 2^33. */
  lemma IndexInjective(l1: bv64, r1: bv64, l2: bv64, r2: bv64)
    requires l1 < 1 << 31 && r1 < 1 << 33
    requires l2 < 1 << 31 && r2 < 1 << 33
    ensures Index(l1, r1) == Index(l2, r2) <==> l1 == l2 && r1 == r2
  {
    IndexRoundTrip(l1, r1);
    IndexRoundTrip(l2, r2);
  }

  /**
   * Outside those ranges keys collide, even among ids that fit in 32 bits: a left id of 2^31 is
   * shifted out of the word entirely, and a right id of 2^33 lands on the left id's lowest bit.
   */
  lemma IndexCollisions()
    ensures Index(1 << 31, 0) == Index(0, 0)
    ensures Index(0, 1 << 33) == Index(1, 0)
  {
    MaskClearsNoBits(1 << 31, 0);
    MaskClearsNoBits(0, 0);
    MaskClearsNoBits(0, 1 << 33);
    MaskClearsNoBits(1, 0);
  }

  /** A pair whose left id is below 2^31 and right id below 2^33. */
  predicate KeyFits(p: Pair)
  {
    p.left < 1 << 31 && p.right < 1 << 33
  }

  /** Pairs of in-range ids have equal keys exactly when they are the same pair. */
  lemma KeyInjective(p: Pair, q: Pair)
    requires KeyFits(p) && KeyFits(q)
    ensures Key(p) == Key(q) <==> p == q
  {
    IndexInjective(p.left, p.right, q.left, q.right);
  }

  /** Ids below 2^31 keep that bound as `long` bit patterns. */
  lemma LongOfBelow(n: NodeId)
    ensures n < TWO_31 ==> LongOf(n) < 1 << 31
  {
  }
}
