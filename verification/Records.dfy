/** One request record from the client's writes to the trustee's reads:
    `encode_closure`, the record-writing prologue every `Remote` operation shares, and
    the offsets the worker loop recomputes. */
module Records {
  import opened Wrappers
  import opened Bytes
  import opened Slots
  import opened Codec
  import opened SlotWriters
  import Bits

  /** What the shims behind a vtable know statically about the closure type. */
  datatype VTable = VTable(envSize: nat, envAlign: nat)

  /** The abstract content of a record. */
  datatype Record = Record(vtable: nat, property: PropertyPtr, env: seq<byte>, args: seq<byte>, repeat: u32)

  const RECORD_OFFSET: nat := 8

  /** Where the client puts, and the trustee looks for, the first record header. */
  lemma RecordOffset()
    ensures LayoutOk(RECORD_BYTES, RECORD_ALIGN)
    ensures Mask(RECORD_ALIGN) < USIZE
    ensures NextBoundaryOffset(HEADER_BYTES, RECORD_BYTES, RECORD_ALIGN) == RECORD_OFFSET
    ensures Place(HEADER_BYTES, RECORD_BYTES, RECORD_ALIGN) == RECORD_OFFSET
  {
    assert Bits.Pow2(3) == RECORD_ALIGN;
    PlaceIsComputed(HEADER_BYTES, RECORD_BYTES, RECORD_ALIGN);
  }

  // ---- the trustee's side --------------------------------------------------

  /** The environment bytes a shim reads: none for a zero-sized closure. */
  function EnvAt(s: seq<byte>, base: nat, data: nat, size: nat): Option<seq<byte>>
  {
    if size == 0 then Some([])
    else if base <= data && data - base + size <= |s| then Some(s[data - base..data - base + size])
    else None
  }

  function ArgsAt(s: seq<byte>, off: nat, len: nat): Option<seq<byte>>
  {
    if off + len <= |s| then Some(s[off..off + len]) else None
  }

  /** The record whose header is at offset `at` of a slot with contents `s` at address `base`. */
  function RecordAt(s: seq<byte>, at: nat, base: nat, vtables: nat -> VTable): Option<Record>
    requires at + RECORD_BYTES <= |s|
  {
    var hdr := DecodeHeader(s[at..at + RECORD_BYTES]);
    if hdr.None? then None
    else
      var h := hdr.value;
      var env := EnvAt(s, base, h.data, vtables(h.vtable).envSize);
      var args := ArgsAt(s, h.argsOffset, h.argsLen);
      if env.None? || args.None? then None
      else Some(Record(h.vtable, h.property, env.value, args.value, h.repeatCount))
  }

  function ReadRecord(s: seq<byte>, base: nat, vtables: nat -> VTable): Option<Record>
    requires |s| == SLOT_BYTES
  {
    RecordAt(s, RECORD_OFFSET, base, vtables)
  }

  /** The worker loop's first record read: it recomputes the header offset itself. */
  method TrusteeRead(slot: array<byte>, base: nat, vtables: nat -> VTable) returns (r: Option<Record>)
    requires slot.Length == SLOT_BYTES
    ensures r == ReadRecord(slot[..], base, vtables)
  {
    hide Place, AlignUpExact, NextBoundaryOffset, DecodeHeader, LayoutOk;
    RecordOffset();
    var cursor := NextOffset(HEADER_BYTES, RECORD_BYTES, RECORD_ALIGN);
    r := RecordAt(slot[..], cursor, base, vtables);
  }

  function LoadWord(s: seq<byte>): nat
    requires |s| == SLOT_BYTES
  {
    FromLE(s[..HEADER_BYTES])
  }

  // ---- the client's side ---------------------------------------------------

  /** Environment and arguments both fit behind `cursor`. */
  ghost predicate Fits(cursor: nat, envSize: nat, envAlign: nat, argsLen: nat)
  {
    var env := Place(cursor, envSize, envAlign);
    env + envSize <= SLOT_BYTES && Place(env + envSize, argsLen, 1) + argsLen <= SLOT_BYTES
  }

  /** The exact capacity behind the first header, which ends at byte 48, for alignments up
      to 16: an environment of up to 80 bytes stays in the primary block, a larger one starts
      at byte 128, and the slot ends at byte 1152. */
  lemma CapacityExactly(envSize: nat, envAlign: nat, argsLen: nat)
    requires envAlign in {1, 2, 4, 8, 16}
    ensures RECORD_OFFSET + RECORD_BYTES == 48 && SLOT_BYTES == 1152
    ensures Place(48, envSize, envAlign) == if envSize <= 80 then 48 else 128
    ensures Fits(48, envSize, envAlign, argsLen) <==> if envSize <= 80 then argsLen <= 1024 else envSize + argsLen <= 1024
    ensures Fits(48, envSize, envAlign, 0) <==> envSize <= 1024
  {
    hide Place, AlignUpExact;
    PlaceAligned(48, envSize, envAlign);
    PlaceAligned(Place(48, envSize, envAlign) + envSize, argsLen, 1);
    PlaceAligned(Place(48, envSize, envAlign) + envSize, 0, 1);
  }

  lemma PlaceAligned(x: nat, size: nat, align: nat)
    requires align == 1 || (x == 48 && align in {2, 4, 8, 16})
    ensures Place(x, size, align) == if x < 128 < x + size then 128 else x
  {
    hide AlignUpExact;
    SmallDivides(align);
    AlignedAlready(x, align);
    AlignedAlready(128, align);
  }

  lemma SmallDivides(align: nat)
    requires align in {1, 2, 4, 8, 16}
    ensures 48 % align == 0 && 128 % align == 0 && forall x: nat :: x % 1 == 0
  {
  }

  lemma AlignedAlready(x: nat, align: nat)
    requires align > 0 && x % align == 0
    ensures AlignUpExact(x, align) == x
  {
    Bits.EuclidUnique(x + (align - 1), align, x / align, align - 1);
  }

  /** Header `h` points at the parts of `r` in the bytes `s`, all at offset `from` or later. */
  ghost predicate Describes(h: Header, s: seq<byte>, base: nat, from: nat, r: Record)
  {
    && h.Valid()
    && h.vtable == r.vtable && h.property == r.property && h.repeatCount == r.repeat
    && h.capturedLen == |r.env| && h.argsLen == |r.args|
    && (r.env == [] ==> h.data == DANGLING)
    && (r.env != [] ==> base + from <= h.data && EnvAt(s, base, h.data, |r.env|) == Some(r.env))
    && from <= h.argsOffset && ArgsAt(s, h.argsOffset, |r.args|) == Some(r.args)
  }

  /** A description only depends on the bytes from `from` on. */
  lemma DescribesFrame(h: Header, s: seq<byte>, t: seq<byte>, base: nat, from: nat, r: Record)
    requires Describes(h, s, base, from, r) && |s| == |t| && from <= |s| && s[from..] == t[from..]
    ensures Describes(h, t, base, from, r)
  {
    if r.env != [] {
      var at := h.data - base;
      assert s[from..][at - from..at - from + |r.env|] == s[at..at + |r.env|];
      assert t[from..][at - from..at - from + |r.env|] == t[at..at + |r.env|];
    }
    var at := h.argsOffset;
    assert s[from..][at - from..at - from + |r.args|] == s[at..at + |r.args|];
    assert t[from..][at - from..at - from + |r.args|] == t[at..at + |r.args|];
  }

  lemma SpliceRead(s: seq<byte>, at: nat, bytes: seq<byte>)
    requires at + |bytes| <= |s|
    ensures Splice(s, at, bytes)[at..at + |bytes|] == bytes
  {
  }

  lemma SpliceBefore(s: seq<byte>, at: nat, bytes: seq<byte>, lo: nat, hi: nat)
    requires at + |bytes| <= |s| && lo <= hi <= at
    ensures Splice(s, at, bytes)[lo..hi] == s[lo..hi]
  {
  }

  lemma SpliceAfter(s: seq<byte>, at: nat, bytes: seq<byte>, lo: nat)
    requires at + |bytes| <= lo <= |s|
    ensures Splice(s, at, bytes)[lo..] == s[lo..]
  {
  }

  /** Environment at `e`, arguments behind it at `a`: the header `encode_closure` returns
      describes the record. */
  lemma EncodedParts(s0: seq<byte>, base: nat, from: nat, e: nat, a: nat, r: Record)
    requires |s0| == SLOT_BYTES && 0 < base && base + SLOT_BYTES < USIZE && r.vtable < USIZE && r.repeat == 1
    requires from <= e && e + |r.env| <= a && a + |r.args| <= SLOT_BYTES
    ensures |r.env| < U32 && |r.args| < U32
    ensures var s2 := Splice(Splice(s0, e, r.env), a, r.args);
            var data := if |r.env| == 0 then DANGLING else base + e;
            Describes(Header(data, r.vtable, r.property, |r.env|, |r.args|, a, 1), s2, base, from, r)
  {
    var s1 := Splice(s0, e, r.env);
    SpliceRead(s0, e, r.env);
    SpliceRead(s1, a, r.args);
    SpliceBefore(s1, a, r.args, e, e + |r.env|);
  }

  /** `encode_closure`: None when an allocation panics with "slot overflow". */
  method EncodeClosure(w: SlotWriter, r: Record, envAlign: nat) returns (hdr: Option<Header>)
    requires w.Valid() && r.vtable < USIZE && r.repeat == 1
    requires LayoutOk(|r.env|, envAlign) && LayoutOk(|r.args|, 1)
    modifies w`cursor, w.buf
    ensures hdr.Some? <==> Fits(old(w.cursor), |r.env|, envAlign, |r.args|)
    ensures w.buf[..old(w.cursor)] == old(w.buf[..])[..old(w.cursor)]
    ensures hdr.Some? ==> w.Valid() && Describes(hdr.value, w.buf[..], w.base, old(w.cursor), r)
    ensures hdr.Some? ==>
      var e := Place(old(w.cursor), |r.env|, envAlign);
      && hdr.value.data == (if r.env == [] then 1 else w.base + e)
      && hdr.value.argsOffset == Place(e + |r.env|, |r.args|, 1)
  {
    hide Place, AlignUpExact, LayoutOk, Describes;
    var from := w.cursor;
    ghost var s0 := w.buf[..];
    var envPos := w.AllocAligned(|r.env|, envAlign);
    if envPos.None? {
      return None;
    }
    var e := envPos.value;
    assert e == Place(from, |r.env|, envAlign);
    w.CopyIn(r.env, e);
    ghost var s1 := w.buf[..];
    SpliceBefore(s0, e, r.env, 0, from);
    var argsPos := w.WriteBytes(r.args);
    if argsPos.None? {
      return None;
    }
    var a := argsPos.value;
    SpliceBefore(s1, a, r.args, 0, from);
    EncodedParts(s0, w.base, from, e, a, r);
    var data := if |r.env| == 0 then DANGLING else w.base + e;
    hdr := Some(Header(data, r.vtable, r.property, |r.env|, |r.args|, a, 1));
  }

  /** The four flag bytes at the start of the slot. */
  method StoreWord(slot: array<byte>, word: u32)
    requires slot.Length == SLOT_BYTES
    modifies slot
    ensures LoadWord(slot[..]) == word
    ensures slot[..4] == ToLE(word, 4) && slot[4..] == old(slot[4..])
  {
    var bytes := ToLE(word, 4);
    WidthOf4();
    FromToLE(word, 4);
    slot[0], slot[1], slot[2], slot[3] := bytes[0], bytes[1], bytes[2], bytes[3];
    assert slot[..HEADER_BYTES] == bytes;
    assert slot[..][..HEADER_BYTES] == bytes;
  }

  /** The record-writing prologue of `apply`, `apply_with`, `with`, `launch`,
      `apply_batch_mut` and `into_inner`, up to but not including the flag store.
      `repeat` overrides the header's count as `apply_batch_mut` does. */
  method WriteRecord(slot: array<byte>, base: nat, r: Record, envAlign: nat, vtables: nat -> VTable)
    returns (ok: bool)
    requires slot.Length == SLOT_BYTES && 0 < base && base + SLOT_BYTES < USIZE && r.vtable < USIZE
    requires LayoutOk(|r.env|, envAlign) && LayoutOk(|r.args|, 1)
    requires vtables(r.vtable).envSize == |r.env|
    modifies slot
    ensures ok <==> Fits(RECORD_OFFSET + RECORD_BYTES, |r.env|, envAlign, |r.args|)
    ensures slot[..HEADER_BYTES] == old(slot[..HEADER_BYTES])
    ensures !ok ==> slot[..RECORD_OFFSET + RECORD_BYTES] == old(slot[..RECORD_OFFSET + RECORD_BYTES])
    ensures ok ==> ReadRecord(slot[..], base, vtables) == Some(r) && Holds(slot[..], base, r)
  {
    hide Place, AlignUpExact, NextBoundaryOffset, ReadRecord, Holds, Fits, Describes, DecodeHeader, EncodeHeader, LayoutOk;
    RecordOffset();
    var hdrOffset := NextOffset(HEADER_BYTES, RECORD_BYTES, RECORD_ALIGN);
    var payload := hdrOffset + RECORD_BYTES;
    var w := new SlotWriter(slot, base, payload);
    ghost var s0 := slot[..];
    var encoded := EncodeClosure(w, r.(repeat := 1), envAlign);
    ghost var s1 := slot[..];
    assert s1[..HEADER_BYTES] == s1[..payload][..HEADER_BYTES] == s0[..payload][..HEADER_BYTES] == s0[..HEADER_BYTES];
    if encoded.None? {
      return false;
    }
    var hdr := encoded.value.(repeatCount := r.repeat);
    DescribesRepeat(encoded.value, s1, base, payload, r);
    w.CopyIn(EncodeHeader(hdr), hdrOffset);
    SpliceBefore(s1, hdrOffset, EncodeHeader(hdr), 0, HEADER_BYTES);
    HeaderWritten(hdr, s1, base, vtables, r);
    ok := true;
  }

  lemma DescribesRepeat(h: Header, s: seq<byte>, base: nat, from: nat, r: Record)
    requires Describes(h, s, base, from, r.(repeat := 1))
    ensures Describes(h.(repeatCount := r.repeat), s, base, from, r)
  {
  }

  /** Writing the header last completes the record. */
  lemma HeaderWritten(hdr: Header, s1: seq<byte>, base: nat, vtables: nat -> VTable, r: Record)
    requires |s1| == SLOT_BYTES && Describes(hdr, s1, base, RECORD_OFFSET + RECORD_BYTES, r)
    requires vtables(r.vtable).envSize == |r.env|
    ensures ReadRecord(Splice(s1, RECORD_OFFSET, EncodeHeader(hdr)), base, vtables) == Some(r)
    ensures Holds(Splice(s1, RECORD_OFFSET, EncodeHeader(hdr)), base, r)
  {
    var s2 := Splice(s1, RECORD_OFFSET, EncodeHeader(hdr));
    SpliceRead(s1, RECORD_OFFSET, EncodeHeader(hdr));
    SpliceAfter(s1, RECORD_OFFSET, EncodeHeader(hdr), RECORD_OFFSET + RECORD_BYTES);
    DescribesFrame(hdr, s1, s2, base, RECORD_OFFSET + RECORD_BYTES, r);
    HeaderRoundTrip(hdr);
  }

  /** The slot's header decodes and describes `r`. */
  ghost predicate Holds(s: seq<byte>, base: nat, r: Record)
    requires |s| == SLOT_BYTES
  {
    exists h :: DecodeHeader(s[RECORD_OFFSET..RECORD_OFFSET + RECORD_BYTES]) == Some(h) && Describes(h, s, base, RECORD_OFFSET + RECORD_BYTES, r)
  }

  /** The record a slot holds does not depend on its flag bytes. */
  lemma FlagIsSeparate(s: seq<byte>, t: seq<byte>, base: nat, vtables: nat -> VTable, r: Record)
    requires |s| == |t| == SLOT_BYTES && s[HEADER_BYTES..] == t[HEADER_BYTES..]
    requires Holds(s, base, r) && vtables(r.vtable).envSize == |r.env|
    ensures ReadRecord(t, base, vtables) == Some(r)
  {
    hide DecodeHeader;
    var from := RECORD_OFFSET + RECORD_BYTES;
    var h :| DecodeHeader(s[RECORD_OFFSET..from]) == Some(h) && Describes(h, s, base, from, r);
    SameTail(s, t, RECORD_OFFSET, from);
    DescribesFrame(h, s, t, base, from, r);
  }

  lemma HoldsKept(s: seq<byte>, t: seq<byte>, base: nat, r: Record)
    requires |s| == |t| == SLOT_BYTES && s[HEADER_BYTES..] == t[HEADER_BYTES..] && Holds(s, base, r)
    ensures Holds(t, base, r)
  {
    hide DecodeHeader;
    var from := RECORD_OFFSET + RECORD_BYTES;
    var h :| DecodeHeader(s[RECORD_OFFSET..from]) == Some(h) && Describes(h, s, base, from, r);
    SameTail(s, t, RECORD_OFFSET, from);
    DescribesFrame(h, s, t, base, from, r);
  }

  lemma SameTail(s: seq<byte>, t: seq<byte>, lo: nat, hi: nat)
    requires |s| == |t| && HEADER_BYTES <= lo <= hi <= |s| && s[HEADER_BYTES..] == t[HEADER_BYTES..]
    ensures s[lo..hi] == t[lo..hi] && s[hi..] == t[hi..]
  {
    forall i | HEADER_BYTES <= i < |s| ensures s[i] == t[i] {
      assert s[HEADER_BYTES..][i - HEADER_BYTES] == t[HEADER_BYTES..][i - HEADER_BYTES];
    }
  }

  /** The flag word of a request slot that offers one record. */
  predicate Announces(word: nat, ready: bool)
  {
    word < U32 && Ready(word) == ready && Count(word) == 1
  }

  /** From the client's `write` to the flag store. If the record does not fit, the panic
      comes before the store and before the header: the word, and the whole region
      up to the payload, are as they were. Otherwise the word announces one record with
      the ready bit opposite to the response's, and the trustee reads back exactly `r`. */
  method Publish(slot: array<byte>, base: nat, r: Record, envAlign: nat, vtables: nat -> VTable, respWord: u32)
    returns (ok: bool)
    requires slot.Length == SLOT_BYTES && 0 < base && base + SLOT_BYTES < USIZE && r.vtable < USIZE
    requires LayoutOk(|r.env|, envAlign) && LayoutOk(|r.args|, 1)
    requires vtables(r.vtable).envSize == |r.env|
    modifies slot
    ensures ok <==> Fits(RECORD_OFFSET + RECORD_BYTES, |r.env|, envAlign, |r.args|)
    ensures envAlign in {1, 2, 4, 8, 16} ==>
      (ok <==> if |r.env| <= 80 then |r.args| <= 1024 else |r.env| + |r.args| <= 1024)
    ensures !ok ==> slot[..RECORD_OFFSET + RECORD_BYTES] == old(slot[..RECORD_OFFSET + RECORD_BYTES])
    ensures ok ==>
      && ReadRecord(slot[..], base, vtables) == Some(r)
      && Announces(LoadWord(slot[..]), !Ready(respWord))
  {
    hide Place, AlignUpExact, NextBoundaryOffset, ReadRecord, Holds, Fits, LayoutOk, PackReadyCount, Ready, Count, Splice, AlignUp;
    if envAlign in {1, 2, 4, 8, 16} {
      CapacityExactly(|r.env|, envAlign, |r.args|);
    }
    ok := WriteRecord(slot, base, r, envAlign, vtables);
    if ok {
      ghost var s := slot[..];
      var word := PackReadyCount(!Ready(respWord), 1);
      WordIsPair(word, !Ready(respWord), 1);
      StoreWord(slot, word);
      assert s[HEADER_BYTES..] == slot[..][HEADER_BYTES..];
      FlagIsSeparate(s, slot[..], base, vtables, r);
    }
  }
}
