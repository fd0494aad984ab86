/**
 * Address rounding used by the block allocator: MEMMGR_ALIGN_LOWER,
 * MEMMGR_ALIGN_UPPER and MEMMGR_NEXT_BLOCK_ADDR, with the default machine
 * alignment of 8 bytes and its mask 7.
 *
 * Addresses are unbounded integers.  Dafny's `%` is Euclidean, so
 * `a - a % 8` clears the three low bits exactly as the two's-complement
 * `a & ~7` does; MaskIsRemainder states this for 64-bit words.
 */
module Alignment {

  /** MEMMGR_MACHINE_ALIGNMENT and MEMMGR_MACHINE_ALIGNMENT_MASK. */
  const ALIGNMENT: int := 8
  const ALIGNMENT_MASK: bv64 := 7

  predicate Aligned(a: int) {
    a % ALIGNMENT == 0
  }

  /** `a & ~MASK`: the multiple of 8 at or just below `a`. */
  function AlignLower(a: int): (r: int)
    ensures Aligned(r) && r <= a < r + ALIGNMENT
  {
    a - a % ALIGNMENT
  }

  /** `(a & MASK) != 0 ? ALIGN_LOWER(a + 8) : a`: the multiple of 8 at or just above `a`. */
  function AlignUpper(a: int): (r: int)
    ensures Aligned(r) && a <= r < a + ALIGNMENT
  {
    if a % ALIGNMENT != 0 then AlignLower(a + ALIGNMENT) else a
  }

  /**
   * The address of the block that follows a block at `addr` whose header
   * is `hdr` bytes long and whose payload is `offset` bytes long.
   */
  function NextBlockAddr(addr: int, offset: int, hdr: int): (r: int)
    ensures Aligned(r)
    ensures addr + hdr + offset <= r < addr + hdr + offset + 2 * ALIGNMENT
    ensures AlignUpper(addr + hdr) + offset <= r
  {
    AlignUpper(AlignUpper(addr + hdr) + offset)
  }

  /** The low-bit mask and the remainder agree on machine words. */
  lemma MaskIsRemainder(x: bv64)
    ensures x & ALIGNMENT_MASK == x % 8
    ensures x & !ALIGNMENT_MASK == x - x % 8
  {
  }

  /** AlignUpper yields the least multiple of 8 that is not below `a`. */
  lemma AlignUpperLeast(a: int, m: int)
    requires Aligned(m) && a <= m
    ensures AlignUpper(a) <= m
  {
  }

  /** Both roundings leave an aligned address where it is. */
  lemma AlignedFixed(a: int)
    requires Aligned(a)
    ensures AlignLower(a) == a && AlignUpper(a) == a
  {
  }

  /** Rounding commutes with a shift by an aligned amount. */
  lemma AlignUpperShift(b: int, x: int)
    requires Aligned(b)
    ensures AlignUpper(b + x) == b + AlignUpper(x)
  {
    assert (b + x) % ALIGNMENT == x % ALIGNMENT;
  }

  /** Rounding down commutes with a shift by an aligned amount. */
  lemma AlignLowerShift(b: int, x: int)
    requires Aligned(b)
    ensures AlignLower(b + x) == b + AlignLower(x)
  {
    assert (b + x) % ALIGNMENT == x % ALIGNMENT;
  }

  /**
   * From an aligned block the next block lies one fixed stride further on:
   * the stride is NextBlockAddr(0, offset, hdr), i.e.
   * align-up(align-up(hdr) + offset).
   */
  lemma NextBlockStride(b: int, offset: int, hdr: int)
    requires Aligned(b)
    ensures NextBlockAddr(b, offset, hdr) == b + NextBlockAddr(0, offset, hdr)
  {
    AlignUpperShift(b, hdr);
    AlignUpperShift(b, AlignUpper(hdr) + offset);
  }

  /**
   * Going from an aligned block header to its aligned payload (align-up of
   * header + hdr) and back (align-down of payload - hdr) returns the block.
   */
  lemma PayloadRoundTrip(b: int, hdr: int)
    requires Aligned(b)
    ensures AlignLower(AlignUpper(b + hdr) - hdr) == b
  {
    AlignUpperShift(b, hdr);
    AlignLowerShift(b, AlignUpper(hdr) - hdr);
    assert 0 <= AlignUpper(hdr) - hdr < ALIGNMENT;
  }
}
