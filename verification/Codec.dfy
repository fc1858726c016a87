/** The record header of src/runtime/slots.rs as bytes. */
module Codec {
  import opened Wrappers
  import opened Bytes
  import opened Slots

  /** RequestRecordHeader: repr(C), two pointers, one u64 and four u32. */
  const RECORD_BYTES: nat := 40
  const RECORD_ALIGN: nat := 8

  /** The least alignment-free address a `NonNull::<u8>::dangling()` can hold. */
  const DANGLING: nat := 1

  datatype PropertyPtr =
    CallMutRetUnit | CallMutOutPtr | CallMutArgsOutPtr | IntoInner | Launch | Terminate

  function PropertyCode(p: PropertyPtr): (code: nat)
    ensures code < Slots.USIZE
  {
    match p
    case CallMutRetUnit => 0
    case CallMutOutPtr => 1
    case CallMutArgsOutPtr => 2
    case IntoInner => 3
    case Launch => 4
    case Terminate => Slots.USIZE - 1
  }

  function PropertyOf(code: nat): Option<PropertyPtr>
  {
    if code == 0 then Some(CallMutRetUnit)
    else if code == 1 then Some(CallMutOutPtr)
    else if code == 2 then Some(CallMutArgsOutPtr)
    else if code == 3 then Some(IntoInner)
    else if code == 4 then Some(Launch)
    else if code == Slots.USIZE - 1 then Some(Terminate)
    else None
  }

  /** Pointers are addresses; every field is below the bound of its Rust type. */
  datatype Header = Header(
    data: nat, vtable: nat, property: PropertyPtr,
    capturedLen: u32, argsLen: u32, argsOffset: u32, repeatCount: u32)
  {
    predicate Valid() {
      data < USIZE && vtable < USIZE
    }
  }

  function EncodeHeader(h: Header): (s: seq<byte>)
    ensures |s| == RECORD_BYTES
  {
    ToLE(h.data, 8) + ToLE(h.vtable, 8) + ToLE(PropertyCode(h.property), 8)
    + ToLE(h.capturedLen, 4) + ToLE(h.argsLen, 4) + ToLE(h.argsOffset, 4) + ToLE(h.repeatCount, 4)
  }

  function FieldAt(s: seq<byte>, off: nat, width: nat): nat
    requires off + width <= |s|
  {
    FromLE(s[off..off + width])
  }

  function DecodeHeader(s: seq<byte>): Option<Header>
    requires |s| == RECORD_BYTES
  {
    var property := PropertyOf(FieldAt(s, 16, 8));
    var (captured, argsLen, argsOffset, repeat) :=
      (FieldAt(s, 24, 4), FieldAt(s, 28, 4), FieldAt(s, 32, 4), FieldAt(s, 36, 4));
    if property.Some? && captured < U32 && argsLen < U32 && argsOffset < U32 && repeat < U32 then
      Some(Header(FieldAt(s, 0, 8), FieldAt(s, 8, 8), property.value, captured, argsLen, argsOffset, repeat))
    else
      None
  }

  lemma HeaderRoundTrip(h: Header)
    requires h.Valid()
    ensures DecodeHeader(EncodeHeader(h)) == Some(h)
  {
    WidthOf4();
    WidthOf8();
    var s := EncodeHeader(h);
    assert s[0..8] == ToLE(h.data, 8);
    assert s[8..16] == ToLE(h.vtable, 8);
    assert s[16..24] == ToLE(PropertyCode(h.property), 8);
    assert s[24..28] == ToLE(h.capturedLen, 4);
    assert s[28..32] == ToLE(h.argsLen, 4);
    assert s[32..36] == ToLE(h.argsOffset, 4);
    assert s[36..40] == ToLE(h.repeatCount, 4);
    FromToLE(h.data, 8);
    FromToLE(h.vtable, 8);
    FromToLE(PropertyCode(h.property), 8);
    FromToLE(h.capturedLen, 4);
    FromToLE(h.argsLen, 4);
    FromToLE(h.argsOffset, 4);
    FromToLE(h.repeatCount, 4);
  }

  /** Where each field of the header lies, least significant byte first. */
  lemma HeaderLayout(h: Header, k: nat)
    ensures |EncodeHeader(h)| == 40
    ensures k < 8 ==> EncodeHeader(h)[k] == h.data / Pow256(k) % 256
    ensures k < 8 ==> EncodeHeader(h)[8 + k] == h.vtable / Pow256(k) % 256
    ensures k < 4 ==> EncodeHeader(h)[24 + k] == h.capturedLen / Pow256(k) % 256
    ensures k < 4 ==> EncodeHeader(h)[28 + k] == h.argsLen / Pow256(k) % 256
    ensures k < 4 ==> EncodeHeader(h)[32 + k] == h.argsOffset / Pow256(k) % 256
    ensures k < 4 ==> EncodeHeader(h)[36 + k] == h.repeatCount / Pow256(k) % 256
  {
    hide ToLE, Pow256, PropertyCode;
    if k < 8 {
      ToLEDigit(h.data, 8, k);
      ToLEDigit(h.vtable, 8, k);
    }
    if k < 4 {
      ToLEDigit(h.capturedLen, 4, k);
      ToLEDigit(h.argsLen, 4, k);
      ToLEDigit(h.argsOffset, 4, k);
      ToLEDigit(h.repeatCount, 4, k);
    }
  }

  /** The eight bytes of the property tag: 0 to 4, and all ones. */
  lemma TagLayout(h: Header)
    ensures EncodeHeader(h)[16..24] ==
      match h.property
      case CallMutRetUnit => [0, 0, 0, 0, 0, 0, 0, 0]
      case CallMutOutPtr => [1, 0, 0, 0, 0, 0, 0, 0]
      case CallMutArgsOutPtr => [2, 0, 0, 0, 0, 0, 0, 0]
      case IntoInner => [3, 0, 0, 0, 0, 0, 0, 0]
      case Launch => [4, 0, 0, 0, 0, 0, 0, 0]
      case Terminate => [255, 255, 255, 255, 255, 255, 255, 255]
  {
    var code := PropertyCode(h.property);
    assert EncodeHeader(h)[16..24] == ToLE(code, 8);
    hide EncodeHeader;
    if code < 256 {
      ByteLE(code);
    } else {
      WidthOf8();
      OnesLE(8);
    }
  }

  lemma ByteLE(b: byte)
    ensures ToLE(b, 8) == [b, 0, 0, 0, 0, 0, 0, 0]
  {
    ZerosLE(7);
    assert ToLE(b, 8) == [b] + ToLE(0, 7);
    hide ToLE;
  }
}
