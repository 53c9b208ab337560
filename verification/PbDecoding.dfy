/** What pb_decode makes of a sequence of bytes. */
module Decoding {
  import Bits
  import opened Varint
  import opened Descriptor

  const MAX_REQUIRED_FIELDS: nat := 64

  // Numbers.

  /** Conversion of a 64-bit value to int32_t. */
  function Signed32(v: nat): int {
    var low := Bits.Low32(v);
    if low < 0x8000_0000 then low else low - 0x1_0000_0000
  }

  /** pb_dec_varint: narrow fields go through int32_t first, and must not change on the way
    to their own width. */
  function IntFrom(v: nat, size: nat): (r: Parsed<Value>)
    ensures r.Done? ==> r.rest == []
  {
    var n := if size == 8 then Signed64(v) else Signed32(v);
    if IntSize(size) && FitsSigned(n, size) then Done(Num(n), []) else Fail
  }

  function WithRest<T>(p: Parsed<T>, rest: seq<byte>): Parsed<T> {
    if p.Done? then Done(p.value, rest) else Fail
  }

  /** The number in the first bytes, least significant first. */
  function FromLittleEndian(s: seq<byte>): nat {
    if s == [] then 0 else s[0] + 256 * FromLittleEndian(s[1..])
  }

  function ReadFixed(s: seq<byte>, n: nat): (r: Parsed<Value>)
    ensures r.Done? ==> |r.rest| + n == |s|
  {
    if n <= |s| then Done(Num(FromLittleEndian(s[..n])), s[n..]) else Fail
  }

  /** pb_dec_bool to pb_dec_fixed64. */
  function ReadNumber(f: Field, s: seq<byte>): (r: Parsed<Value>)
    ensures r.Done? ==> |r.rest| < |s|
  {
    match f.ltype
    case TBool =>
      var p := Read32(s);
      if p.Done? then Done(Num(if p.value != 0 then 1 else 0), p.rest) else Fail
    case TVarint =>
      var p := Read(s);
      if p.Done? then WithRest(IntFrom(p.value, f.dataSize), p.rest) else Fail
    case TUvarint =>
      var p := Read(s);
      if p.Done? && FitsUnsigned(p.value, f.dataSize) then Done(Num(p.value), p.rest) else Fail
    case TSvarint =>
      var p := Read(s);
      if p.Done? && FitsSigned(UnZigZag(p.value), f.dataSize)
      then Done(Num(UnZigZag(p.value)), p.rest) else Fail
    case TFixed32 => ReadFixed(s, 4)
    case TFixed64 => ReadFixed(s, 8)
    case _ => Fail
  }

  // Length-delimited data.

  /** pb_make_string_substream: the next length bytes, and what follows them. */
  function ReadDelimited(s: seq<byte>): (r: Parsed<seq<byte>>)
    ensures r.Done? ==> |r.value| + |r.rest| < |s|
  {
    var p := Read32(s);
    if p.Done? && p.value <= |p.rest| then Done(p.rest[..p.value], p.rest[p.value..]) else Fail
  }

  /** pb_dec_bytes, pb_dec_string and pb_dec_fixed_length_bytes. Lengths that do not fit are
    refused before the data is looked for. */
  function ReadBlob(f: Field, s: seq<byte>): (r: Parsed<Value>)
    ensures r.Done? ==> |r.rest| < |s|
  {
    var p := Read32(s);
    if p.Fail? then
      Fail
    else
      match f.ltype
      case TBytes => if p.value + BYTES_OFFSET > f.dataSize then Fail else BlobOf(ReadDelimited(s))
      case TString =>
        if p.value + 1 >= 0x1_0000_0000 || p.value + 1 > f.dataSize then Fail else BlobOf(ReadDelimited(s))
      case TFixedBytes =>
        if p.value == 0 then Done(Blob(Zeros(f.dataSize)), p.rest)
        else if p.value != f.dataSize then Fail
        else BlobOf(ReadDelimited(s))
      case _ => Fail
  }

  function BlobOf(p: Parsed<seq<byte>>): Parsed<Value> {
    if p.Done? then Done(Blob(p.value), p.rest) else Fail
  }

  // Tags.

  datatype Tag = Tag(tag: nat, wireType: nat) | EndOfMessage

  /** pb_decode_tag: a zero tag ends the message. */
  function ReadTag(s: seq<byte>): (r: Parsed<Tag>)
    ensures r.Done? ==> |r.rest| < |s|
  {
    var p := Read32(s);
    if p.Fail? then Fail
    else if p.value == 0 then Done(EndOfMessage, p.rest)
    else Done(Tag(p.value / 8, p.value % 8), p.rest)
  }

  function SkipVarint(s: seq<byte>): (r: Parsed<Tag>)
    ensures r.Done? ==> |r.rest| < |s|
  {
    if s == [] then Fail else if s[0] < 128 then Done(EndOfMessage, s[1..]) else SkipVarint(s[1..])
  }

  function SkipBytes(s: seq<byte>, n: nat): (r: Parsed<Tag>)
    ensures r.Done? ==> |r.rest| <= |s|
  {
    if n <= |s| then Done(EndOfMessage, s[n..]) else Fail
  }

  /** pb_skip_field. */
  function SkipField(s: seq<byte>, wireType: nat): (r: Parsed<Tag>)
    ensures r.Done? ==> |r.rest| <= |s|
  {
    if wireType == 0 then SkipVarint(s)
    else if wireType == 1 then SkipBytes(s, 8)
    else if wireType == 2 then
      var p := ReadDelimited(s);
      if p.Done? then Done(EndOfMessage, p.rest) else Fail
    else if wireType == 5 then SkipBytes(s, 4)
    else Fail
  }

  // Fields and messages.

  predicate Matches(f: Field, tag: nat) {
    f.tag == tag && !f.ltype.TExtension?
  }

  /** In a message type without fields the iterator stands at the end mark from the start, and
    a search for tag 0 finds it. */
  predicate FindsEnd(fields: seq<Field>, tag: nat) {
    fields == [] && tag == 0
  }

  /** The end mark has type 0, a required bool: whatever the wire type, a varint is read. The
    model's struct has no slot for its value. */
  function ReadEnd(s: seq<byte>): (r: Parsed<Tag>)
    ensures r.Done? ==> |r.rest| <= |s|
  {
    var p := Read32(s);
    if p.Done? then Done(EndOfMessage, p.rest) else Fail
  }

  /** A record that belongs to no field. */
  function PassOver(fields: seq<Field>, tag: nat, wireType: nat, s: seq<byte>): (r: Parsed<Tag>)
    ensures r.Done? ==> |r.rest| <= |s|
  {
    if FindsEnd(fields, tag) then ReadEnd(s) else SkipField(s, wireType)
  }

  /** The first field with the tag, or |fields|. */
  function Find(fields: seq<Field>, tag: nat): (i: nat)
    ensures i <= |fields|
    ensures i < |fields| ==> Matches(fields[i], tag)
    ensures forall j :: 0 <= j < i ==> !Matches(fields[j], tag)
  {
    FindFrom(fields, tag, 0)
  }

  function FindFrom(fields: seq<Field>, tag: nat, from: nat): (i: nat)
    requires from <= |fields|
    ensures from <= i <= |fields|
    ensures i < |fields| ==> Matches(fields[i], tag)
    ensures forall j :: from <= j < i ==> !Matches(fields[j], tag)
    decreases |fields| - from
  {
    if from == |fields| || Matches(fields[from], tag) then from else FindFrom(fields, tag, from + 1)
  }

  /** The struct so far, and the required fields seen in this call. */
  datatype Progress = Progress(slots: seq<Slot>, seen: set<nat>)

  /** The decoder function of the field's type, PB_DECODERS. dest is what the destination
    holds: a submessage is decoded into it. */
  function ReadValue(f: Field, s: seq<byte>, dest: Value): (r: Parsed<Value>)
    ensures r.Done? ==> |r.rest| < |s|
    decreases |s|, 2
  {
    if f.ltype.TSubmessage? then
      var p := ReadDelimited(s);
      if p.Done? && dest.Sub? then
        var q := DecodeNoinit(f.sub, p.value, dest.slots);
        if q.Done? then Done(Sub(q.value), p.rest) else Fail
      else
        Fail
    else if f.ltype.TBytes? || f.ltype.TString? || f.ltype.TFixedBytes? then
      ReadBlob(f, s)
    else
      ReadNumber(f, s)
  }

  /** A packed array: items to the end of the bytes, as long as there is room. */
  function ReadPacked(f: Field, s: seq<byte>, items: seq<Value>): Parsed<seq<Value>>
    decreases |s|, 3
  {
    if s == [] then
      Done(items, [])
    else if |items| >= f.arraySize then
      Fail
    else
      var p := ReadValue(f, s, Unset);
      if p.Done? then ReadPacked(f, p.rest, items + [p.value]) else Fail
  }

  /** decode_static_field. */
  function DecodeField(f: Field, s: seq<byte>, wireType: nat, slot: Slot): (r: Parsed<Slot>)
    ensures r.Done? ==> |r.rest| < |s|
    decreases |s|, 4
  {
    match slot
    case One(dest) =>
      var p := ReadValue(f, s, dest);
      if p.Done? then Done(One(p.value), p.rest) else Fail
    case Opt(_, dest) =>
      var p := ReadValue(f, s, dest);
      if p.Done? then Done(Opt(true, p.value), p.rest) else Fail
    case Rep(items) =>
      if wireType == 2 && Packable(f.ltype) then
        var p := ReadDelimited(s);
        if p.Fail? then Fail
        else
          var q := ReadPacked(f, p.value, items);
          if q.Done? then Done(Rep(q.value), p.rest) else Fail
      else if |items| >= f.arraySize then
        Fail
      else
        var p := ReadValue(f, s, DefaultValue(f));
        if p.Done? then Done(Rep(items + [p.value]), p.rest) else Fail
    case Choice(_, _) =>
      var p := ReadValue(f, s, DefaultValue(f));
      if p.Done? then Done(Choice(f.tag, p.value), p.rest) else Fail
  }

  /** The loop of pb_decode_noinit, to the end of the bytes or a zero tag. */
  function DecodeLoop(fields: seq<Field>, s: seq<byte>, at: Progress): (r: Parsed<Progress>)
    ensures r.Done? ==> |r.rest| <= |s|
    decreases |s|, 0
  {
    if s == [] then
      Done(at, [])
    else
      var t := ReadTag(s);
      if t.Fail? then Fail
      else if t.value.EndOfMessage? then Done(at, t.rest)
      else
        var p := DecodeOne(fields, t.value.tag, t.value.wireType, t.rest, at);
        if p.Done? then DecodeLoop(fields, p.rest, p.value) else Fail
  }

  /** One pass of the loop, after the tag. */
  function DecodeOne(fields: seq<Field>, tag: nat, wireType: nat, s: seq<byte>, at: Progress): (r: Parsed<Progress>)
    ensures r.Done? ==> |r.rest| <= |s|
    decreases |s|, 5
  {
    var i := Find(fields, tag);
    if i == |fields| then
      var p := PassOver(fields, tag, wireType, s);
      if p.Done? then Done(at, p.rest) else Fail
    else
      var k := SlotOf(fields, i);
      if k >= |at.slots| then Fail
      else
        var p := DecodeField(fields[i], s, wireType, at.slots[k]);
        if p.Done? then
          Done(Progress(at.slots[k := p.value], if fields[i].htype.Required? then at.seen + {i} else at.seen), p.rest)
        else
          Fail
  }

  /** How many required fields come before field i: the iterator's required_field_index. */
  function RequiredBefore(fields: seq<Field>, i: nat): (n: nat)
    requires i <= |fields|
    ensures n <= i
  {
    if i == 0 then 0 else RequiredBefore(fields, i - 1) + if fields[i - 1].htype.Required? then 1 else 0
  }

  /** Every required field that the bitmap covers has been seen. */
  predicate RequiredSeen(fields: seq<Field>, seen: set<nat>) {
    forall i :: 0 <= i < |fields| && fields[i].htype.Required? && RequiredBefore(fields, i) < MAX_REQUIRED_FIELDS
      ==> i in seen
  }

  /** pb_decode_noinit. */
  function DecodeNoinit(fields: seq<Field>, s: seq<byte>, slots: seq<Slot>): (r: Parsed<seq<Slot>>)
    ensures r.Done? ==> |r.rest| <= |s|
    decreases |s|, 1
  {
    var p := DecodeLoop(fields, s, Progress(slots, {}));
    if p.Done? && RequiredSeen(fields, p.value.seen) then Done(p.value.slots, p.rest) else Fail
  }

  /** pb_decode. */
  function Decode(fields: seq<Field>, s: seq<byte>): Parsed<seq<Slot>> {
    DecodeNoinit(fields, s, Defaults(fields, |fields|))
  }

  /** A length-prefixed message, as pb_decode_delimited reads it: the message, and what follows
    the prefix and the bytes it announces. */
  function DecodeDelimited(fields: seq<Field>, s: seq<byte>, dest: seq<Slot>): Parsed<seq<Slot>> {
    var p := ReadDelimited(s);
    if p.Done? && DecodeNoinit(fields, p.value, dest).Done?
    then Done(DecodeNoinit(fields, p.value, dest).value, p.rest)
    else Fail
  }
}
