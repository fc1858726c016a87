/** The allocating writer of src/runtime/serialization.rs: where it places things in a
    slot, and what a sequence of its allocations looks like. */
module SlotWriters {
  import opened Wrappers
  import opened Bytes
  import opened Slots
  import Bits

  /** What Rust promises of every type and slice: at most isize::MAX bytes, and an
      alignment that is a power of two up to 2^29. */
  ghost predicate LayoutOk(size: nat, align: nat)
  {
    size < 0x8000_0000_0000_0000 && ValidAlign(align) && align <= 0x2000_0000
  }

  datatype Layout = Layout(size: nat, align: nat)

  /** A region at or after `cursor`, aligned and in one block. */
  ghost predicate RegionOk(cursor: nat, l: Layout, pos: nat)
  {
    && cursor <= pos
    && pos % EffectiveAlign(l.align) == 0
    && (pos + l.size <= PRIMARY_BYTES || PRIMARY_BYTES <= pos)
  }

  /** The least admissible offset, without bit masks or wrap-around. */
  function Place(cursor: nat, size: nat, align: nat): nat
  {
    var start := AlignUpExact(cursor, align);
    if start < PRIMARY_BYTES < start + size then AlignUpExact(PRIMARY_BYTES, align) else start
  }

  lemma PlaceFits(cursor: nat, size: nat, align: nat)
    requires LayoutOk(size, align) && cursor <= SLOT_BYTES
    ensures RegionOk(cursor, Layout(size, align), Place(cursor, size, align))
  {
    ExactSelf(cursor, align);
    ExactSelf(PRIMARY_BYTES, align);
  }

  lemma SmallLayoutNoWrap(cursor: nat, size: nat, align: nat)
    requires LayoutOk(size, align) && cursor <= SLOT_BYTES
    ensures ValidAlign(align) && NoWrap(cursor, size, align) && PRIMARY_BYTES + Mask(align) < USIZE && size < USIZE
  {
    assert Mask(align) < 0x2000_0000;
  }

  /** For every layout Rust allows, `next_boundary_offset` computes it. */
  lemma PlaceIsComputed(cursor: nat, size: nat, align: nat)
    requires LayoutOk(size, align) && cursor <= SLOT_BYTES
    ensures Mask(align) < USIZE
    ensures NextBoundaryOffset(cursor, size, align) == Place(cursor, size, align)
  {
    hide AlignUp, AlignUpExact, LayoutOk, ValidAlign, Wrap, NoWrap;
    SmallLayoutNoWrap(cursor, size, align);
    NoWrapFacts(cursor, size, align);
    AlignUpIsExact(cursor, align);
    AlignUpIsExact(PRIMARY_BYTES, align);
    var start := AlignUpExact(cursor, align);
    if start < PRIMARY_BYTES {
      WrapSmall(start + size);
    }
  }

  lemma RustLayout(size: nat, align: nat, k: nat)
    requires size < 0x8000_0000_0000_0000 && (align == 0 || (k <= 29 && align == Bits.Pow2(k)))
    ensures LayoutOk(size, align)
  {
    hide Bits.Pow2;
    if align != 0 {
      Bits.Pow2Mono(k, 29);
      LargestAlign();
    }
  }

  lemma LargestAlign()
    ensures Bits.Pow2(29) == 0x2000_0000
  {
    assert Bits.Pow2(4) == 16 && Bits.Pow2(5) == 32;
    hide Bits.Pow2;
    Bits.Pow2Add(4, 4);
    Bits.Pow2Add(8, 8);
    Bits.Pow2Add(16, 8);
    Bits.Pow2Add(24, 5);
  }

  /** The rule in numbers, for every layout Rust allows and any cursor in the slot: aligned,
      not before the cursor, not across byte 128, and no other such offset is smaller. */
  lemma BoundaryRule(cursor: nat, size: nat, align: nat, k: nat, other: nat)
    requires size < 0x8000_0000_0000_0000 && (align == 0 || (k <= 29 && align == Bits.Pow2(k))) && cursor <= 1152
    ensures Mask(align) < USIZE
    ensures var off := NextBoundaryOffset(cursor, size, align);
            && off >= cursor && (align > 1 ==> off % align == 0)
            && (off + size <= 128 || 128 <= off)
            && (other >= cursor && (align > 1 ==> other % align == 0) && (other + size <= 128 || 128 <= other) ==> off <= other)
  {
    hide LayoutOk, ValidAlign, NoWrap, NextBoundaryOffset, Bits.Pow2;
    RustLayout(size, align, k);
    SmallLayoutNoWrap(cursor, size, align);
    NextBoundaryIsLeast(cursor, size, align);
    assert EffectiveAlign(align) == if align > 1 then align else 1;
    var off := NextBoundaryOffset(cursor, size, align);
    assert Admissible(off, cursor, size, align);
    if other >= cursor && (align > 1 ==> other % align == 0) && (other + size <= 128 || 128 <= other) {
      assert Admissible(other, cursor, size, align);
    }
  }

  method NextOffset(cursor: nat, size: nat, align: nat) returns (off: nat)
    requires LayoutOk(size, align) && cursor <= SLOT_BYTES
    ensures off == Place(cursor, size, align)
  {
    PlaceIsComputed(cursor, size, align);
    off := NextBoundaryOffset(cursor, size, align);
  }

  // ---- sequences of allocations --------------------------------------------

  ghost predicate LayoutsOk(reqs: seq<Layout>)
  {
    forall l :: l in reqs ==> LayoutOk(l.size, l.align)
  }

  /** The offsets that successive `alloc_aligned` calls return, or None once one of
      them overflows the slot. */
  ghost function AllocAll(cursor: nat, reqs: seq<Layout>): Option<seq<nat>>
    requires LayoutsOk(reqs) && cursor <= SLOT_BYTES
    decreases |reqs|
  {
    if reqs == [] then Some([])
    else
      assert LayoutOk(reqs[0].size, reqs[0].align);
      var pos := Place(cursor, reqs[0].size, reqs[0].align);
      if pos + reqs[0].size > SLOT_BYTES then None
      else
        var rest := AllocAll(pos + reqs[0].size, reqs[1..]);
        if rest.None? then None else Some([pos] + rest.value)
  }

  /** Regions that are all good, in order, and pairwise disjoint. */
  ghost predicate Separated(cursor: nat, reqs: seq<Layout>, at: seq<nat>)
  {
    && |at| == |reqs|
    && (forall i :: 0 <= i < |at| ==> RegionOk(cursor, reqs[i], at[i]) && at[i] + reqs[i].size <= SLOT_BYTES)
    && (forall i, j :: 0 <= i < j < |at| ==> at[i] + reqs[i].size <= at[j])
  }

  lemma {:induction false} AllocationsAreDisjoint(cursor: nat, reqs: seq<Layout>)
    requires LayoutsOk(reqs) && cursor <= SLOT_BYTES && AllocAll(cursor, reqs).Some?
    ensures Separated(cursor, reqs, AllocAll(cursor, reqs).value)
    decreases |reqs|
  {
    hide Place, LayoutOk, RegionOk;
    if reqs != [] {
      var l := reqs[0];
      assert LayoutOk(l.size, l.align);
      PlaceFits(cursor, l.size, l.align);
      var pos := Place(cursor, l.size, l.align);
      AllocationsAreDisjoint(pos + l.size, reqs[1..]);
      SeparatedCons(cursor, reqs, pos, AllocAll(pos + l.size, reqs[1..]).value);
    }
  }

  lemma SeparatedCons(cursor: nat, reqs: seq<Layout>, pos: nat, rest: seq<nat>)
    requires reqs != [] && RegionOk(cursor, reqs[0], pos) && pos + reqs[0].size <= SLOT_BYTES
    requires Separated(pos + reqs[0].size, reqs[1..], rest)
    ensures Separated(cursor, reqs, [pos] + rest)
  {
    var at := [pos] + rest;
    forall i | 0 <= i < |at|
      ensures RegionOk(cursor, reqs[i], at[i]) && at[i] + reqs[i].size <= SLOT_BYTES
      ensures i > 0 ==> pos + reqs[0].size <= at[i]
    {
      if i > 0 {
        assert RegionOk(pos + reqs[0].size, reqs[1..][i - 1], rest[i - 1]);
      }
    }
    forall i, j | 0 <= i < j < |at|
      ensures at[i] + reqs[i].size <= at[j]
    {
      if i > 0 {
        assert rest[i - 1] + reqs[1..][i - 1].size <= rest[j - 1];
      }
    }
  }

  /** `s` with `bytes` written over it at offset `at`. */
  function Splice(s: seq<byte>, at: nat, bytes: seq<byte>): (t: seq<byte>)
    requires at + |bytes| <= |s|
    ensures |t| == |s|
  {
    s[..at] + bytes + s[at + |bytes|..]
  }

  // ---- the writer ----------------------------------------------------------

  class SlotWriter {
    const buf: array<byte>
    const base: nat
    var cursor: nat

    ghost predicate Valid()
      reads this
    {
      buf.Length == SLOT_BYTES && 0 < base && base + SLOT_BYTES < USIZE && cursor <= SLOT_BYTES
    }

    constructor (buf: array<byte>, base: nat, cursor: nat)
      requires buf.Length == SLOT_BYTES && 0 < base && base + SLOT_BYTES < USIZE && cursor <= SLOT_BYTES
      ensures Valid() && this.buf == buf && this.base == base && this.cursor == cursor
    {
      this.buf := buf;
      this.base := base;
      this.cursor := cursor;
    }

    /** None is the "slot overflow" panic; the cursor has already moved by then. */
    method AllocAligned(size: nat, align: nat) returns (pos: Option<nat>)
      requires Valid() && LayoutOk(size, align)
      modifies this`cursor
      ensures cursor == Place(old(cursor), size, align) + size
      ensures pos == if cursor <= SLOT_BYTES then Some(cursor - size) else None
      ensures old(cursor) <= cursor - size && (cursor <= 128 || 128 <= cursor - size)
      ensures pos.Some? <==> cursor <= 1152
    {
      PlaceFits(cursor, size, align);
      var at := NextOffset(cursor, size, align);
      cursor := at + size;
      pos := if cursor <= buf.Length then Some(at) else None;
    }

    /** copy_nonoverlapping into the slot. */
    method CopyIn(bytes: seq<byte>, at: nat)
      requires Valid() && at + |bytes| <= SLOT_BYTES
      modifies buf
      ensures buf[..] == Splice(old(buf[..]), at, bytes)
    {
      var i := 0;
      while i < |bytes|
        invariant 0 <= i <= |bytes|
        invariant buf[..at] == old(buf[..at])
        invariant buf[at..at + i] == bytes[..i]
        invariant buf[at + |bytes|..] == old(buf[at + |bytes|..])
      {
        buf[at + i] := bytes[i];
        i := i + 1;
        assert buf[at..at + i] == buf[at..at + i - 1] + [bytes[i - 1]];
      }
      assert buf[..] == buf[..at] + buf[at..at + |bytes|] + buf[at + |bytes|..];
      assert buf[..] == Splice(old(buf[..]), at, bytes);
    }

    method WriteBytes(bytes: seq<byte>) returns (pos: Option<nat>)
      requires Valid() && LayoutOk(|bytes|, 1)
      modifies this`cursor, buf
      ensures cursor == Place(old(cursor), |bytes|, 1) + |bytes|
      ensures pos == if cursor <= SLOT_BYTES then Some(cursor - |bytes|) else None
      ensures pos.Some? ==> old(cursor) <= pos.value
      ensures pos.Some? ==> buf[..] == Splice(old(buf[..]), pos.value, bytes)
      ensures pos.None? ==> buf[..] == old(buf[..])
    {
      hide Place, AlignUpExact, LayoutOk;
      pos := AllocAligned(|bytes|, 1);
      if pos.Some? {
        CopyIn(bytes, pos.value);
      }
    }
  }
}
