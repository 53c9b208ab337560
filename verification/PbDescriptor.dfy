/** Message descriptors, and the messages they describe. */
module Descriptor {
  import opened Varint

  datatype LType =
    | TBool | TVarint | TUvarint | TSvarint | TFixed32 | TFixed64
    | TBytes | TString | TSubmessage | TExtension | TFixedBytes

  datatype HType = Required | Optional | Repeated | Oneof

  /** pb_field_t for a statically allocated field. The offsets are relative: dataOffset to
    the end of the field before, sizeOffset from the data to the has_ flag, the count or
    the which_ tag, 0 if there is none. sub is the descriptor of a submessage, default the
    value behind ptr, Unset if ptr is null. */
  datatype Field = Field(tag: nat, ltype: LType, htype: HType, dataOffset: nat, sizeOffset: int,
                         dataSize: nat, arraySize: nat, sub: seq<Field>, default: Value)

  datatype Value = Num(n: int) | Blob(bytes: seq<byte>) | Sub(slots: seq<Slot>) | Unset

  /** What the struct holds for a field; the members of a oneof share one slot. */
  datatype Slot = One(value: Value) | Opt(has: bool, value: Value) | Rep(items: seq<Value>)
                | Choice(which: nat, value: Value)

  /** Offset of the data in a pb_bytes_array_t with 32-bit pb_size_t. */
  const BYTES_OFFSET: nat := 4

  /** PB_SIZE_MAX for 32-bit pb_size_t. As a data offset it marks the members of a union. */
  const SIZE_MAX: nat := 0xFFFF_FFFF

  const MAX_TAG: nat := 0x1FFF_FFFF

  /** An optional field with a has_ flag; without one, zero means absent. */
  predicate Tracked(f: Field) {
    f.htype.Optional? && f.sizeOffset != 0
  }

  /** The fields this model covers: no extension placeholder, no array without a count of its
    own. Tag 0 marks the end of a descriptor and belongs to no field. */
  predicate Covered(f: Field) {
    f.tag != 0 && !f.ltype.TExtension? && (f.htype.Repeated? ==> f.sizeOffset != 0)
  }

  /** Every field is covered, at any depth. */
  predicate Supported(fields: seq<Field>)
    decreases fields
  {
    forall i :: 0 <= i < |fields| ==> Covered(fields[i]) && Supported(fields[i].sub)
  }

  /** No two fields of a message, at any depth, share a tag. */
  predicate DistinctTags(fields: seq<Field>)
    decreases fields
  {
    && (forall i, j :: 0 <= i < j < |fields| ==> fields[i].tag != fields[j].tag)
    && forall i :: 0 <= i < |fields| ==> DistinctTags(fields[i].sub)
  }

  /** PB_LTYPE_LAST_PACKABLE: the types a packed array may hold. */
  predicate Packable(t: LType) {
    t.TBool? || t.TVarint? || t.TUvarint? || t.TSvarint? || t.TFixed32? || t.TFixed64?
  }

  /** Field i lies in the same union as the field before it. */
  predicate Joined(fields: seq<Field>, i: nat)
    requires i < |fields|
  {
    i > 0 && fields[i - 1].htype.Oneof? && fields[i].htype.Oneof? && fields[i].dataOffset == SIZE_MAX
  }

  /** The slot of field i. */
  function SlotOf(fields: seq<Field>, i: nat): (k: nat)
    requires i < |fields|
    ensures k <= i
  {
    if i == 0 then 0 else SlotOf(fields, i - 1) + if Joined(fields, i) then 0 else 1
  }

  function SlotCount(fields: seq<Field>): nat {
    if fields == [] then 0 else SlotOf(fields, |fields| - 1) + 1
  }

  // Integers of the widths data_size can name.

  predicate IntSize(size: nat) {
    size == 1 || size == 2 || size == 4 || size == 8
  }

  predicate FitsSigned(n: int, size: nat) {
    if size == 1 then -0x80 <= n < 0x80
    else if size == 2 then -0x8000 <= n < 0x8000
    else if size == 4 then -0x8000_0000 <= n < 0x8000_0000
    else size == 8 && -0x8000_0000_0000_0000 <= n < 0x8000_0000_0000_0000
  }

  predicate FitsUnsigned(n: int, size: nat) {
    if size == 1 then 0 <= n < 0x100
    else if size == 2 then 0 <= n < 0x1_0000
    else if size == 4 then 0 <= n < 0x1_0000_0000
    else size == 8 && 0 <= n < 0x1_0000_0000_0000_0000
  }

  // Defaults.

  function Zeros(n: nat): (s: seq<byte>)
    ensures |s| == n
  {
    seq(n, _ => 0)
  }

  function ZeroValue(f: Field): Value {
    match f.ltype
    case TBytes => Blob([])
    case TString => Blob([])
    case TFixedBytes => Blob(Zeros(f.dataSize))
    case _ => Num(0)
  }

  /** pb_field_set_to_default, for the data of a field. */
  function DefaultValue(f: Field): Value
    decreases f, 0
  {
    if f.ltype.TSubmessage? then Sub(Defaults(f.sub, |f.sub|))
    else if f.default != Unset then f.default
    else ZeroValue(f)
  }

  function DefaultSlot(f: Field): Slot
    decreases f, 1
  {
    match f.htype
    case Required => One(DefaultValue(f))
    case Optional => if Tracked(f) then Opt(false, DefaultValue(f)) else One(DefaultValue(f))
    case Repeated => Rep([])
    case Oneof => Choice(0, Unset)
  }

  /** pb_message_set_to_defaults: the slots of the first n fields. */
  function Defaults(fields: seq<Field>, n: nat): (slots: seq<Slot>)
    requires n <= |fields|
    ensures |slots| == if n == 0 then 0 else SlotOf(fields, n - 1) + 1
    decreases fields, n
  {
    if n == 0 then []
    else if Joined(fields, n - 1) then Defaults(fields, n - 1)
    else Defaults(fields, n - 1) + [DefaultSlot(fields[n - 1])]
  }
}
