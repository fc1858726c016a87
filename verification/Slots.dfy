/** src/runtime/slots.rs: slot sizes, the flag word and the boundary-aware
    offset computation. */
module Slots {
  import opened Bits

  const PRIMARY_BYTES: nat := 128
  const TRAILING_BYTES: nat := 1024
  const SLOT_BYTES: nat := PRIMARY_BYTES + TRAILING_BYTES
  const HEADER_BYTES: nat := 4

  // ---- the flag word -------------------------------------------------------

  const U32: nat := 0x1_0000_0000
  const READY_BIT: nat := 1
  const COUNT_MASK: nat := 0xFFFF_FFFE

  type u32 = x: nat | x < U32

  /** ((count << 1) & COUNT_MASK) | ready */
  function PackReadyCount(ready: bool, count: u32): u32
  {
    PackIsSum(ready, count);
    BitOr(BitAnd((count * 2) % U32, COUNT_MASK), if ready then 1 else 0)
  }

  /** word & READY_BIT != 0 */
  predicate Ready(word: u32)
  {
    BitAnd(word, READY_BIT) != 0
  }

  /** (word & COUNT_MASK) >> 1 */
  function Count(word: u32): u32
  {
    MaskClearsReady(word);
    BitAnd(word, COUNT_MASK) / 2
  }

  lemma MaskClearsReady(word: u32)
    ensures BitAnd(word, COUNT_MASK) == word - word % 2
  {
    var w := WordWidth(U32);
    AndNotMask(word, 1, w);
    assert BitNot(Pow2(1) - 1, Pow2(w)) == COUNT_MASK;
  }

  lemma PackIsSum(ready: bool, count: u32)
    ensures BitOr(BitAnd((count * 2) % U32, COUNT_MASK), if ready then 1 else 0)
         == (count * 2) % U32 + (if ready then 1 else 0) < U32
  {
    MaskClearsReady((count * 2) % U32);
    OrBitZero((count * 2) % U32, if ready then 1 else 0);
  }

  /** A flag word is exactly a pair of a ready bit and a 31-bit count: every word is
      the packing of its own parts, the ready bit of a packing is the one packed, and
      its count is the one packed if and only if that fits in 31 bits. */
  lemma WordIsPair(word: u32, ready: bool, count: u32)
    ensures PackReadyCount(Ready(word), Count(word)) == word
    ensures Ready(PackReadyCount(ready, count)) == ready
    ensures Count(PackReadyCount(ready, count)) == count <==> count < 0x8000_0000
  {
    WordParts(word);
    WordParts(PackReadyCount(ready, count));
    PackIsSum(Ready(word), Count(word));
    PackIsSum(ready, count);
    hide Ready, Count;
  }

  /** A count is read back modulo 2^31. */
  lemma CountIsTruncated(ready: bool, count: u32)
    ensures Count(PackReadyCount(ready, count)) == count % 0x8000_0000
  {
    hide Count, Ready, BitAnd, BitOr;
    PackIsSum(ready, count);
    WordParts(PackReadyCount(ready, count));
    HalfOfPacked(count, if ready then 1 else 0);
  }

  lemma HalfOfPacked(count: u32, bit: nat)
    requires bit < 2
    ensures ((count * 2) % U32 + bit) / 2 == count % 0x8000_0000
  {
    if count < 0x8000_0000 {
      EuclidUnique(count * 2, U32, 0, count * 2);
    } else {
      EuclidUnique(count * 2, U32, 1, count * 2 - U32);
    }
  }

  lemma WordParts(word: u32)
    ensures Ready(word) <==> word % 2 == 1
    ensures Count(word) == word / 2
  {
    MaskClearsReady(word);
    AndBitZero(word);
  }

  // ---- boundary-aware offsets ----------------------------------------------

  /** usize is 64 bits wide and wraps. */
  const USIZE_BITS: nat := 64
  const USIZE: nat := 0x1_0000_0000_0000_0000

  function Wrap(x: nat): nat
  {
    x % USIZE
  }

  function Mask(align: nat): nat
  {
    (if align > 1 then align else 1) - 1
  }

  /** y & !mask */
  function ClearLow(y: nat, align: nat): nat
    requires Mask(align) < USIZE
  {
    BitAnd(y, BitNot(Mask(align), USIZE))
  }

  /** (x + mask) & !mask */
  function AlignUp(x: nat, align: nat): nat
    requires Mask(align) < USIZE
  {
    ClearLow(Wrap(x + Mask(align)), align)
  }

  function NextBoundaryOffset(cursor: nat, size: nat, align: nat): nat
    requires Mask(align) < USIZE
  {
    var start := AlignUp(cursor, align);
    if start < PRIMARY_BYTES && Wrap(start + size) > PRIMARY_BYTES then
      AlignUp(PRIMARY_BYTES, align)
    else
      start
  }

  /** `align` is a power of two that a usize can hold, or 0, which counts as 1. */
  ghost predicate ValidAlign(align: nat)
  {
    align == 0 || exists k: nat :: k < USIZE_BITS && align == Pow2(k)
  }

  function EffectiveAlign(align: nat): nat
  {
    Mask(align) + 1
  }

  /** The written rule: aligned, not before the cursor, and not across byte 128. */
  predicate Admissible(off: nat, cursor: nat, size: nat, align: nat)
  {
    && off >= cursor
    && off % EffectiveAlign(align) == 0
    && (off < PRIMARY_BYTES ==> off + size <= PRIMARY_BYTES)
  }

  ghost predicate LeastAdmissible(off: nat, cursor: nat, size: nat, align: nat)
  {
    && Admissible(off, cursor, size, align)
    && forall other: nat :: Admissible(other, cursor, size, align) ==> off <= other
  }

  /** No usize addition in the computation wraps. */
  ghost predicate NoWrap(cursor: nat, size: nat, align: nat)
  {
    && cursor + Mask(align) < USIZE
    && (AlignUpExact(cursor, align) < PRIMARY_BYTES ==>
          AlignUpExact(cursor, align) + size < USIZE)
  }

  /** The least multiple of the alignment that is >= x. */
  function AlignUpExact(x: nat, align: nat): nat
  {
    x + Mask(align) - (x + Mask(align)) % EffectiveAlign(align)
  }

  lemma AlignExponent(align: nat) returns (k: nat)
    requires ValidAlign(align)
    ensures k < USIZE_BITS && EffectiveAlign(align) == Pow2(k)
    ensures 2 * EffectiveAlign(align) <= USIZE
  {
    if align <= 1 {
      k := 0;
    } else {
      k :| k < USIZE_BITS && align == Pow2(k);
    }
    var w := WordWidth(USIZE);
    Pow2Mono(k + 1, w);
  }

  lemma ClearLowIsRoundDown(y: nat, align: nat)
    requires ValidAlign(align) && y < USIZE
    ensures 2 * EffectiveAlign(align) <= USIZE
    ensures ClearLow(y, align) == y - y % EffectiveAlign(align)
  {
    var k := AlignExponent(align);
    var w := WordWidth(USIZE);
    AndNotMask(y, k, w);
  }

  lemma AlignUpIsExact(x: nat, align: nat)
    requires ValidAlign(align) && Mask(align) < USIZE
    requires x + Mask(align) < USIZE
    ensures AlignUp(x, align) == AlignUpExact(x, align)
  {
    var y := x + Mask(align);
    assert Wrap(y) == y;
    ClearLowIsRoundDown(y, align);
  }

  lemma AlignUpBound(x: nat, align: nat)
    requires ValidAlign(align) && Mask(align) < USIZE
    ensures AlignUp(x, align) <= Wrap(x + Mask(align))
  {
    var y := Wrap(x + Mask(align));
    assert y < USIZE;
    ClearLowIsRoundDown(y, align);
  }

  lemma {:induction false} ExactIsLeast(x: nat, align: nat, other: nat)
    requires other >= x && other % EffectiveAlign(align) == 0
    ensures x <= AlignUpExact(x, align) <= other
    ensures AlignUpExact(x, align) % EffectiveAlign(align) == 0
  {
    var a := EffectiveAlign(align);
    var y := x + a - 1;
    var q, r := y / a, y % a;
    assert y == a * q + r && r < a;
    assert AlignUpExact(x, align) == a * q;
    var p := other / a;
    assert other == a * p;
    EuclidUnique(a * q, a, q, 0);
    if p < q {
      MulAtLeast(a, q - p);
    } else if q < p {
      MulAtLeast(a, p - q);
    }
  }

  /** `next_boundary_offset` returns the least admissible offset if and only if none of
      its usize additions wraps. */
  lemma NextBoundaryIsLeast(cursor: nat, size: nat, align: nat)
    requires ValidAlign(align) && cursor < USIZE && size < USIZE
    ensures Mask(align) < USIZE
    ensures LeastAdmissible(NextBoundaryOffset(cursor, size, align), cursor, size, align)
       <==> NoWrap(cursor, size, align)
  {
    var k := AlignExponent(align);
    if cursor + Mask(align) >= USIZE {
      WrappedStartIsTooLow(cursor, size, align);
    } else if NoWrap(cursor, size, align) {
      UnwrappedSize(cursor, size, align);
    } else {
      WrappedSize(cursor, size, align);
    }
  }

  lemma WrappedStartIsTooLow(cursor: nat, size: nat, align: nat)
    requires ValidAlign(align) && cursor < USIZE && size < USIZE
    requires 2 * EffectiveAlign(align) <= USIZE && cursor + Mask(align) >= USIZE
    ensures NextBoundaryOffset(cursor, size, align) < cursor
  {
    AlignUpBound(cursor, align);
    assert Wrap(cursor + Mask(align)) == cursor + Mask(align) - USIZE;
    AlignUpIsExact(PRIMARY_BYTES, align);
    if EffectiveAlign(align) >= PRIMARY_BYTES {
      EuclidUnique(EffectiveAlign(align), EffectiveAlign(align), 1, 0);
      ExactIsLeast(PRIMARY_BYTES, align, EffectiveAlign(align));
    }
  }

  /** At the last address of all, rounding up wraps to the start. */
  lemma WrapBreaksRule()
    ensures Mask(8) < USIZE && NextBoundaryOffset(USIZE - 1, 0, 8) < USIZE - 1
  {
    assert Pow2(3) == 8;
    WrappedStartIsTooLow(USIZE - 1, 0, 8);
  }

  lemma NoWrapFacts(cursor: nat, size: nat, align: nat)
    requires NoWrap(cursor, size, align)
    ensures cursor + Mask(align) < USIZE
    ensures AlignUpExact(cursor, align) < PRIMARY_BYTES ==> AlignUpExact(cursor, align) + size < USIZE
  {
  }

  lemma UnwrappedSize(cursor: nat, size: nat, align: nat)
    requires ValidAlign(align) && 2 * EffectiveAlign(align) <= USIZE && NoWrap(cursor, size, align)
    ensures LeastAdmissible(NextBoundaryOffset(cursor, size, align), cursor, size, align)
  {
    hide AlignUp, AlignUpExact, LeastAdmissible, ValidAlign, NoWrap, Wrap;
    NoWrapFacts(cursor, size, align);
    AlignUpIsExact(cursor, align);
    AlignUpIsExact(PRIMARY_BYTES, align);
    var start := AlignUpExact(cursor, align);
    if start < PRIMARY_BYTES {
      WrapSmall(start + size);
    }
    if start >= PRIMARY_BYTES || start + size <= PRIMARY_BYTES {
      FirstFits(cursor, size, align);
    } else {
      SecondFits(cursor, size, align);
    }
  }

  lemma AlignUpBelow(cursor: nat, align: nat)
    ensures AlignUpExact(cursor, align) >= cursor && EffectiveAlign(align) == Mask(align) + 1
  {
    ExactSelf(cursor, align);
  }

  lemma WrappedSize(cursor: nat, size: nat, align: nat)
    requires ValidAlign(align) && size < USIZE && cursor + Mask(align) < USIZE
    requires AlignUpExact(cursor, align) < PRIMARY_BYTES && AlignUpExact(cursor, align) + size >= USIZE
    ensures Mask(align) < USIZE
    ensures !Admissible(NextBoundaryOffset(cursor, size, align), cursor, size, align)
  {
    hide AlignUp, AlignUpExact, ValidAlign, Wrap;
    AlignUpIsExact(cursor, align);
    AlignUpBelow(cursor, align);
    WrapOnce(AlignUpExact(cursor, align) + size);
  }

  lemma WrapSmall(x: nat)
    requires x < USIZE
    ensures Wrap(x) == x
  {
  }

  lemma WrapOnce(x: nat)
    requires USIZE <= x < 2 * USIZE
    ensures Wrap(x) == x - USIZE
  {
  }

  lemma FirstFits(cursor: nat, size: nat, align: nat)
    requires AlignUpExact(cursor, align) >= PRIMARY_BYTES || AlignUpExact(cursor, align) + size <= PRIMARY_BYTES
    ensures LeastAdmissible(AlignUpExact(cursor, align), cursor, size, align)
  {
    ExactSelf(cursor, align);
    forall other: nat | Admissible(other, cursor, size, align)
      ensures AlignUpExact(cursor, align) <= other
    {
      ExactIsLeast(cursor, align, other);
    }
  }

  lemma SecondFits(cursor: nat, size: nat, align: nat)
    requires AlignUpExact(cursor, align) < PRIMARY_BYTES < AlignUpExact(cursor, align) + size
    ensures LeastAdmissible(AlignUpExact(PRIMARY_BYTES, align), cursor, size, align)
  {
    ExactSelf(cursor, align);
    ExactSelf(PRIMARY_BYTES, align);
    forall other: nat | Admissible(other, cursor, size, align)
      ensures AlignUpExact(PRIMARY_BYTES, align) <= other
    {
      ExactIsLeast(cursor, align, other);
      ExactIsLeast(PRIMARY_BYTES, align, other);
    }
  }

  lemma ExactSelf(x: nat, align: nat)
    ensures x <= AlignUpExact(x, align) && AlignUpExact(x, align) % EffectiveAlign(align) == 0
  {
    var far := x * EffectiveAlign(align);
    EuclidUnique(far, EffectiveAlign(align), x, 0);
    assert far >= x by { if x > 0 { MulAtLeast(x, EffectiveAlign(align)); } }
    ExactIsLeast(x, align, far);
  }
}
