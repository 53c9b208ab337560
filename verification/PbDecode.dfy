/** pb_decode: the decoder as it runs, moving along a stream; it makes of the bytes what
  Decoding says. Nested messages are decoded in substreams, and the parent ends up exactly
  behind the length prefix and the bytes it announces. */
module Decode {
  import Bits
  import opened Varint
  import opened Descriptor
  import opened Decoding
  import opened Streams
  import opened FieldIter
  import opened RequiredFields

  /** The outcome p, as a result and where it leaves the stream. */
  ghost predicate Yields<T>(p: Parsed<T>, ok: bool, value: T, stream: IStream, end: nat)
    reads stream
  {
    && stream.Valid() && stream.End() == end
    && (ok <==> p.Done?)
    && (ok ==> value == p.value && stream.Rest() == p.rest)
  }

  // Tags and skipping.

  method DecodeTag(stream: IStream) returns (ok: bool, t: Tag)
    requires stream.Valid()
    modifies stream
    ensures Yields(ReadTag(old(stream.Rest())), ok, t, stream, old(stream.End()))
  {
    var temp;
    ok, temp := stream.DecodeVarint32();
    t := if temp == 0 then EndOfMessage else Tag(temp / 8, temp % 8);
  }

  method SkipVarintField(stream: IStream) returns (ok: bool)
    requires stream.Valid()
    modifies stream
    ensures Yields(SkipVarint(old(stream.Rest())), ok, EndOfMessage, stream, old(stream.End()))
  {
    var b: byte := 128;
    while b >= 128
      invariant stream.Valid() && stream.End() == old(stream.End())
      invariant b >= 128 ==> SkipVarint(stream.Rest()) == SkipVarint(old(stream.Rest()))
      invariant b < 128 ==> SkipVarint(old(stream.Rest())) == Done(EndOfMessage, stream.Rest())
      decreases b >= 128, stream.bytesLeft
    {
      var got;
      got, b := stream.ReadByte();
      if !got {
        return false;
      }
    }
    ok := true;
  }

  method SkipString(stream: IStream) returns (ok: bool)
    requires stream.Valid()
    modifies stream
    ensures stream.Valid() && stream.End() == old(stream.End())
    ensures ok <==> ReadDelimited(old(stream.Rest())).Done?
    ensures ok ==> stream.Rest() == ReadDelimited(old(stream.Rest())).rest
  {
    var length, skipped;
    ok, length := stream.DecodeVarint32();
    if ok {
      ok, skipped := stream.Read(length);
    }
  }

  method Skip(stream: IStream, wireType: nat) returns (ok: bool)
    requires stream.Valid()
    modifies stream
    ensures Yields(SkipField(old(stream.Rest()), wireType), ok, EndOfMessage, stream, old(stream.End()))
  {
    var skipped;
    if wireType == 0 {
      ok := SkipVarintField(stream);
    } else if wireType == 1 {
      ok, skipped := stream.Read(8);
    } else if wireType == 2 {
      ok := SkipString(stream);
    } else if wireType == 5 {
      ok, skipped := stream.Read(4);
    } else {
      ok := false;
    }
  }

  // Substreams.

  /** pb_make_string_substream: the substream gets the announced bytes, the parent keeps
    what comes after them. */
  method MakeSubstream(stream: IStream) returns (ok: bool, sub: IStream)
    requires stream.Valid()
    modifies stream
    ensures stream.Valid()
    ensures ok <==> ReadDelimited(old(stream.Rest())).Done?
    ensures !ok ==> stream.End() == old(stream.End())
    ensures ok ==> fresh(sub) && sub.buf == stream.buf && sub.Valid()
    ensures ok ==> sub.Rest() == ReadDelimited(old(stream.Rest())).value
    ensures ok ==> Behind(stream, sub.End(), ReadDelimited(old(stream.Rest())).rest, old(stream.End()))
  {
    var size;
    ok, size := stream.DecodeVarint32();
    if !ok || stream.bytesLeft < size {
      sub := stream;
      return false, sub;
    }
    sub := new IStream(stream.buf, stream.state, size);
    stream.bytesLeft := stream.bytesLeft - size;
    assert stream.buf[sub.End()..sub.End() + stream.bytesLeft] ==
           stream.buf[stream.state..stream.state + size + stream.bytesLeft][size..];
  }

  /** Once the substream is done at position at, the parent will have rest left, up to end. */
  ghost predicate Behind(stream: IStream, at: nat, rest: seq<byte>, end: nat)
    reads stream
  {
    && at + stream.bytesLeft == end <= |stream.buf|
    && stream.buf[at..end] == rest
  }

  /** pb_close_string_substream: what the substream left unread is skipped. */
  method CloseSubstream(stream: IStream, sub: IStream) returns (ok: bool)
    requires stream != sub && sub.Valid() && sub.buf == stream.buf && sub.End() + stream.bytesLeft <= |stream.buf|
    modifies stream, sub
    ensures ok && stream.Valid() && stream.bytesLeft == old(stream.bytesLeft)
    ensures stream.state == old(sub.End())
  {
    ok := true;
    if sub.bytesLeft != 0 {
      var skipped;
      ok, skipped := sub.Read(sub.bytesLeft);
    }
    stream.state := sub.state;
  }

  // Values.

  method ReadLittleEndian(bytes: seq<byte>) returns (v: nat)
    ensures v == FromLittleEndian(bytes)
  {
    v := 0;
    var i := |bytes|;
    while i > 0
      invariant 0 <= i <= |bytes| && v == FromLittleEndian(bytes[i..])
    {
      i := i - 1;
      assert bytes[i..][1..] == bytes[i + 1..];
      v := bytes[i] + 256 * v;
    }
    assert bytes[0..] == bytes;
  }

  method DecFixed(stream: IStream, width: nat) returns (ok: bool, v: Value)
    requires stream.Valid()
    modifies stream
    ensures Yields(ReadFixed(old(stream.Rest()), width), ok, v, stream, old(stream.End()))
  {
    var bytes;
    ok, bytes := stream.Read(width);
    v := Unset;
    if ok {
      var n := ReadLittleEndian(bytes);
      v := Num(n);
    }
  }

  method DecBool(stream: IStream, f: Field) returns (ok: bool, v: Value)
    requires stream.Valid() && f.ltype.TBool?
    modifies stream
    ensures Yields(ReadNumber(f, old(stream.Rest())), ok, v, stream, old(stream.End()))
  {
    var n;
    ok, n := stream.DecodeVarint32();
    v := Num(if n != 0 then 1 else 0);
  }

  /** pb_dec_varint, pb_dec_uvarint and pb_dec_svarint. */
  method DecVarint(stream: IStream, f: Field) returns (ok: bool, v: Value)
    requires stream.Valid() && (f.ltype.TVarint? || f.ltype.TUvarint? || f.ltype.TSvarint?)
    modifies stream
    ensures Yields(ReadNumber(f, old(stream.Rest())), ok, v, stream, old(stream.End()))
  {
    var n;
    ok, n := stream.DecodeVarint();
    v := Unset;
    if !ok {
      return;
    }
    match f.ltype {
      case TVarint =>
        var svalue := if f.dataSize == 8 then Signed64(n) else Signed32(n);
        ok := IntSize(f.dataSize) && FitsSigned(svalue, f.dataSize);
        v := Num(svalue);
      case TUvarint =>
        ok := FitsUnsigned(n, f.dataSize);
        v := Num(n);
      case TSvarint =>
        ok := FitsSigned(UnZigZag(n), f.dataSize);
        v := Num(UnZigZag(n));
    }
  }

  method DecNumber(stream: IStream, f: Field) returns (ok: bool, v: Value)
    requires stream.Valid()
    modifies stream
    ensures Yields(ReadNumber(f, old(stream.Rest())), ok, v, stream, old(stream.End()))
  {
    match f.ltype {
      case TBool => ok, v := DecBool(stream, f);
      case TFixed32 => ok, v := DecFixed(stream, 4);
      case TFixed64 => ok, v := DecFixed(stream, 8);
      case TVarint => ok, v := DecVarint(stream, f);
      case TUvarint => ok, v := DecVarint(stream, f);
      case TSvarint => ok, v := DecVarint(stream, f);
      case _ => ok, v := false, Unset;
    }
  }

  /** pb_dec_bytes, pb_dec_string and pb_dec_fixed_length_bytes. */
  method DecBlob(stream: IStream, f: Field) returns (ok: bool, v: Value)
    requires stream.Valid() && (f.ltype.TBytes? || f.ltype.TString? || f.ltype.TFixedBytes?)
    modifies stream
    ensures Yields(ReadBlob(f, old(stream.Rest())), ok, v, stream, old(stream.End()))
  {
    var size, bytes;
    v := Unset;
    ok, size := stream.DecodeVarint32();
    if !ok {
      return;
    }
    match f.ltype {
      case TBytes => ok := size + BYTES_OFFSET <= f.dataSize;
      case TString =>
        // For the longest length the sum wraps to zero.
        var allocSize := Bits.Low32(size + 1);
        ok := size <= allocSize <= f.dataSize;
        Read32Sized(old(stream.Rest()));
      case TFixedBytes =>
        if size == 0 {
          v := Blob(Zeros(f.dataSize));
          return;
        }
        ok := size == f.dataSize;
    }
    if ok {
      ok, bytes := stream.Read(size);
      v := Blob(bytes);
    }
  }

  lemma {:induction false} Read32Sized(s: seq<byte>)
    ensures Read32(s).Done? ==> Read32(s).value < 0x1_0000_0000
  {
    if s != [] && s[0] >= 128 {
      Read32Bound(s[1..], 7, Low7(s[0]));
    }
  }

  // Nested messages, arrays, fields.

  /** pb_dec_submessage. */
  method DecSubmessage(stream: IStream, f: Field, dest: Value) returns (ok: bool, v: Value)
    requires stream.Valid() && f.ltype.TSubmessage?
    requires DistinctTags(f.sub) && Supported(f.sub)
    modifies stream
    ensures Yields(ReadValue(f, old(stream.Rest()), dest), ok, v, stream, old(stream.End()))
    decreases stream.bytesLeft, 2
  {
    var sub;
    v := Unset;
    ok, sub := MakeSubstream(stream);
    if !ok {
      return;
    }
    ghost var p := ReadDelimited(old(stream.Rest()));
    var status := dest.Sub?;
    if status {
      var slots;
      status, slots := PbDecodeNoinit(sub, f.sub, dest.slots);
      v := Sub(slots);
    }
    ok := CloseSubstream(stream, sub);
    ok := status;
  }

  method DecValue(stream: IStream, f: Field, dest: Value) returns (ok: bool, v: Value)
    requires stream.Valid()
    requires DistinctTags(f.sub) && Supported(f.sub)
    modifies stream
    ensures Yields(ReadValue(f, old(stream.Rest()), dest), ok, v, stream, old(stream.End()))
    decreases stream.bytesLeft, 3
  {
    if f.ltype.TSubmessage? {
      ok, v := DecSubmessage(stream, f, dest);
    } else if f.ltype.TBytes? || f.ltype.TString? || f.ltype.TFixedBytes? {
      ok, v := DecBlob(stream, f);
    } else {
      ok, v := DecNumber(stream, f);
    }
  }

  /** The items of a packed array, to the end of its substream. */
  method DecPackedItems(sub: IStream, f: Field, before: seq<Value>) returns (ok: bool, items: seq<Value>)
    requires sub.Valid()
    requires DistinctTags(f.sub) && Supported(f.sub)
    modifies sub
    ensures sub.Valid() && sub.End() == old(sub.End())
    ensures ok <==> ReadPacked(f, old(sub.Rest()), before).Done?
    ensures ok ==> items == ReadPacked(f, old(sub.Rest()), before).value
    decreases sub.bytesLeft, 4
  {
    items := before;
    ok := true;
    while ok && sub.bytesLeft > 0 && |items| < f.arraySize
      invariant sub.Valid() && sub.End() == old(sub.End()) && (ok ==> sub.bytesLeft <= old(sub.bytesLeft))
      invariant ok ==> ReadPacked(f, sub.Rest(), items) == ReadPacked(f, old(sub.Rest()), before)
      invariant !ok ==> ReadPacked(f, old(sub.Rest()), before) == Fail
      decreases ok, sub.bytesLeft
    {
      var v;
      ok, v := DecValue(sub, f, Unset);
      if ok {
        items := items + [v];
      }
    }
    if sub.bytesLeft != 0 {
      ok := false;
    }
  }

  method DecPacked(stream: IStream, f: Field, before: seq<Value>) returns (ok: bool, slot: Slot)
    requires stream.Valid() && Packable(f.ltype)
    requires DistinctTags(f.sub) && Supported(f.sub)
    modifies stream
    ensures Yields(DecodeField(f, old(stream.Rest()), 2, Rep(before)), ok, slot, stream, old(stream.End()))
    decreases stream.bytesLeft, 5
  {
    var sub, items;
    slot := Rep([]);
    ok, sub := MakeSubstream(stream);
    if !ok {
      return;
    }
    ok, items := DecPackedItems(sub, f, before);
    var closed := CloseSubstream(stream, sub);
    slot := Rep(items);
  }

  /** decode_static_field. */
  method DecField(stream: IStream, f: Field, wireType: nat, slot: Slot) returns (ok: bool, r: Slot)
    requires stream.Valid()
    requires DistinctTags(f.sub) && Supported(f.sub)
    modifies stream
    ensures Yields(DecodeField(f, old(stream.Rest()), wireType, slot), ok, r, stream, old(stream.End()))
    decreases stream.bytesLeft, 6
  {
    var v;
    r := slot;
    match slot {
      case One(dest) =>
        ok, v := DecValue(stream, f, dest);
        r := One(v);
      case Opt(_, dest) =>
        ok, v := DecValue(stream, f, dest);
        r := Opt(true, v);
      case Rep(items) =>
        if wireType == 2 && Packable(f.ltype) {
          ok, r := DecPacked(stream, f, items);
        } else if |items| >= f.arraySize {
          ok := false;
        } else {
          ok, v := DecValue(stream, f, DefaultValue(f));
          r := Rep(items + [v]);
        }
      case Choice(_, _) =>
        // A submessage starts from its defaults, whatever the union held.
        ok, v := DecValue(stream, f, DefaultValue(f));
        r := Choice(f.tag, v);
    }
  }

  // Messages.

  lemma {:induction false} FoundIsFind(fields: seq<Field>, i: nat, tag: nat)
    requires DistinctTags(fields) && i < |fields| && Matches(fields[i], tag)
    ensures Find(fields, tag) == i
  {
    var j := Find(fields, tag);
    assert j <= i;
  }

  lemma {:induction false} NotFoundIsFind(fields: seq<Field>, tag: nat)
    requires forall i :: 0 <= i < |fields| ==> !Matches(fields[i], tag)
    ensures Find(fields, tag) == |fields|
  {
  }

  /** The bitmap after seeing the field the iterator is at. */
  method MarkSeen(words: seq<nat>, iter: Iter, ghost seen: set<nat>) returns (marked: seq<nat>)
    requires iter.Valid() && iter.pos < |iter.start| && Records(words, iter.start, seen)
    ensures Records(marked, iter.start, if iter.start[iter.pos].htype.Required? then seen + {iter.pos} else seen)
  {
    marked := words;
    if iter.start[iter.pos].htype.Required? {
      if iter.requiredFieldIndex < MAX_REQUIRED_FIELDS {
        marked := Mark(words, iter.requiredFieldIndex);
        RecordsMark(words, marked, iter.start, seen, iter.pos);
      } else {
        RecordsBeyond(words, iter.start, seen, iter.pos);
      }
    }
  }

  /** Required fields the bitmap does not cover leave no trace in it. */
  lemma {:induction false} RecordsBeyond(words: seq<nat>, fields: seq<Field>, seen: set<nat>, at: nat)
    requires Records(words, fields, seen) && at < |fields| && RequiredBefore(fields, at) >= MAX_REQUIRED_FIELDS
    ensures Records(words, fields, seen + {at})
  {
  }

  /** pb_dec_bool for the end mark of a message type without fields. */
  method DecEnd(stream: IStream) returns (ok: bool)
    requires stream.Valid()
    modifies stream
    ensures Yields(ReadEnd(old(stream.Rest())), ok, EndOfMessage, stream, old(stream.End()))
  {
    var value;
    ok, value := stream.DecodeVarint32();
  }

  /** One pass of the loop, after the tag: a known field or an unknown one. */
  method DecodeRecord(stream: IStream, iter: Iter, tag: nat, wireType: nat, words: seq<nat>, slots: seq<Slot>,
                      ghost seen: set<nat>)
    returns (ok: bool, marked: seq<nat>, r: seq<Slot>, ghost now: set<nat>)
    requires stream.Valid() && iter.Valid() && DistinctTags(iter.start) && Supported(iter.start)
    requires Records(words, iter.start, seen)
    modifies stream, iter
    ensures Yields(DecodeOne(iter.start, tag, wireType, old(stream.Rest()), Progress(slots, seen)), ok,
                   Progress(r, now),
                   stream, old(stream.End()))
    ensures ok ==> iter.Valid() && Records(marked, iter.start, now)
    decreases stream.bytesLeft, 7
  {
    marked, r, now := words, slots, seen;
    var found := iter.FindTag(tag);
    if !found {
      NotFoundIsFind(iter.start, tag);
      ok := Skip(stream, wireType);
      return;
    }
    if iter.start == [] {
      NotFoundIsFind(iter.start, tag);
      ok := DecEnd(stream);
      return;
    }
    var i := iter.pos;
    var f := iter.start[i];
    FoundIsFind(iter.start, i, tag);
    marked := MarkSeen(words, iter, seen);
    now := if f.htype.Required? then seen + {i} else seen;
    var k := SlotOf(iter.start, i);
    ok := k < |slots|;
    if ok {
      var slot;
      ok, slot := DecField(stream, f, wireType, slots[k]);
      r := slots[k := slot];
    }
  }

  /** pb_decode_noinit. */
  method PbDecodeNoinit(stream: IStream, fields: seq<Field>, dest: seq<Slot>) returns (ok: bool, slots: seq<Slot>)
    requires stream.Valid() && DistinctTags(fields) && Supported(fields)
    modifies stream
    ensures Yields(DecodeNoinit(fields, old(stream.Rest()), dest), ok, slots, stream, old(stream.End()))
    decreases stream.bytesLeft, 1
  {
    var iter := new Iter(fields, 0);
    var words;
    ghost var seen;
    ok, words, slots, seen := DecodeFields(stream, iter, dest);
    if ok {
      var count := iter.CountRequired();
      RecordsDecide(words, fields, seen);
      ok := CheckRequired(words, count);
    }
  }

  /** The loop of pb_decode_noinit: every pass consumes at least one byte. */
  method DecodeFields(stream: IStream, iter: Iter, dest: seq<Slot>)
    returns (ok: bool, words: seq<nat>, slots: seq<Slot>, ghost seen: set<nat>)
    requires stream.Valid() && iter.Valid() && DistinctTags(iter.start) && Supported(iter.start)
    modifies stream, iter
    ensures Yields(DecodeLoop(iter.start, old(stream.Rest()), Progress(dest, {})), ok, Progress(slots, seen),
                   stream, old(stream.End()))
    ensures ok ==> iter.Valid() && Records(words, iter.start, seen)
    decreases stream.bytesLeft, 0
  {
    ok, words, slots, seen := true, NONE_SEEN, dest, {};
    RecordsNone(iter.start);
    while stream.bytesLeft > 0
      invariant stream.Valid() && stream.End() == old(stream.End()) && stream.bytesLeft <= old(stream.bytesLeft)
      invariant iter.Valid() && Records(words, iter.start, seen)
      invariant DecodeLoop(iter.start, stream.Rest(), Progress(slots, seen)) ==
                DecodeLoop(iter.start, old(stream.Rest()), Progress(dest, {}))
      decreases stream.bytesLeft
    {
      var t;
      ok, t := DecodeTag(stream);
      if !ok {
        return;
      }
      if t.EndOfMessage? {
        return;
      }
      ok, words, slots, seen := DecodeRecord(stream, iter, t.tag, t.wireType, words, slots, seen);
      if !ok {
        return;
      }
    }
  }

  /** pb_decode. */
  method PbDecode(stream: IStream, fields: seq<Field>) returns (ok: bool, slots: seq<Slot>)
    requires stream.Valid() && DistinctTags(fields) && Supported(fields)
    modifies stream
    ensures Yields(Decoding.Decode(fields, old(stream.Rest())), ok, slots, stream, old(stream.End()))
  {
    ok, slots := PbDecodeNoinit(stream, fields, Defaults(fields, |fields|));
  }

  /** From s to rest is a varint of some length, and the number of bytes it states. */
  predicate BehindPrefixed(s: seq<byte>, rest: seq<byte>) {
    var p := Read32(s);
    p.Done? && p.value <= |p.rest| && rest == p.rest[p.value..]
  }

  /** pb_decode_delimited_noinit: on success the parent has advanced by exactly the prefix and
    the announced length, even when the message ended early at a zero tag. */
  method PbDecodeDelimitedNoinit(stream: IStream, fields: seq<Field>, dest: seq<Slot>)
    returns (ok: bool, slots: seq<Slot>)
    requires stream.Valid() && DistinctTags(fields) && Supported(fields)
    modifies stream
    ensures Yields(DecodeDelimited(fields, old(stream.Rest()), dest), ok, slots, stream, old(stream.End()))
    ensures ok ==> BehindPrefixed(old(stream.Rest()), stream.Rest())
  {
    var sub;
    slots := [];
    ok, sub := MakeSubstream(stream);
    if !ok {
      return;
    }
    var status;
    status, slots := PbDecodeNoinit(sub, fields, dest);
    ok := CloseSubstream(stream, sub);
    ok := ok && status;
  }

  /** pb_decode_delimited. */
  method PbDecodeDelimited(stream: IStream, fields: seq<Field>) returns (ok: bool, slots: seq<Slot>)
    requires stream.Valid() && DistinctTags(fields) && Supported(fields)
    modifies stream
    ensures Yields(DecodeDelimited(fields, old(stream.Rest()), Defaults(fields, |fields|)), ok, slots, stream,
                   old(stream.End()))
    ensures ok ==> BehindPrefixed(old(stream.Rest()), stream.Rest())
  {
    ok, slots := PbDecodeDelimitedNoinit(stream, fields, Defaults(fields, |fields|));
  }
}
