/** pb_encode: the encoder as it runs, writing to a stream; it writes the bytes of Encoding,
  whether it only counts or fills a buffer. */
module Encode {
  import opened Descriptor
  import opened Encoding
  import opened OutputStreams
  import Varint
  import FieldIter

  method EncodeTagNumber(stream: OStream, wt: WireType, tag: nat) returns (ok: bool)
    requires stream.Valid() && tag <= MAX_TAG
    modifies stream, stream.Target()
    ensures stream.Emitted(Bytes(EncodeTag(wt, tag)), ok)
  {
    ok := stream.EncodeVarint(8 * tag + WireNumber(wt));
  }

  /** pb_encode_string. */
  method EncodeString(stream: OStream, s: seq<byte>) returns (ok: bool)
    requires stream.Valid() && |s| < 0x1_0000_0000_0000_0000
    modifies stream, stream.Target()
    ensures stream.Emitted(Bytes(LengthPrefixed(s)), ok)
  {
    ok := stream.EncodeVarint(|s|);
    if ok {
      ok := stream.Write(s);
    }
  }

  method EncodeLittleEndian(v: nat, n: nat) returns (bytes: seq<byte>)
    ensures bytes == LittleEndian(v, n)
  {
    bytes := [];
    var value, i := v, 0;
    while i < n
      invariant i <= n && bytes + LittleEndian(value, n - i) == LittleEndian(v, n)
    {
      assert bytes + LittleEndian(value, n - i) == (bytes + [value % 256]) + LittleEndian(value / 256, n - i - 1);
      bytes := bytes + [value % 256];
      value := value / 256;
      i := i + 1;
    }
  }

  /** pb_enc_bool to pb_enc_fixed64. */
  method EncNumber(stream: OStream, f: Field, n: int) returns (ok: bool)
    requires stream.Valid()
    modifies stream, stream.Target()
    ensures stream.Emitted(EncodeNumber(f, n), ok)
  {
    match f.ltype {
      case TBool => ok := stream.EncodeVarint(if n != 0 then 1 else 0);
      case TVarint =>
        ok := IntSize(f.dataSize) && FitsSigned(n, f.dataSize);
        if ok {
          ok := stream.EncodeVarint(Unsigned64(n));
        }
      case TUvarint =>
        ok := IntSize(f.dataSize) && FitsUnsigned(n, f.dataSize);
        if ok {
          ok := stream.EncodeVarint(n);
        }
      case TSvarint =>
        ok := IntSize(f.dataSize) && FitsSigned(n, f.dataSize);
        if ok {
          Varint.ZigZagIs(n);
          ok := stream.EncodeVarint(Varint.ZigZag(n));
        }
      case TFixed32 =>
        ok := FitsUnsigned(n, 4);
        if ok {
          var bytes := EncodeLittleEndian(n, 4);
          ok := stream.Write(bytes);
        }
      case TFixed64 =>
        ok := FitsUnsigned(n, 8);
        if ok {
          var bytes := EncodeLittleEndian(n, 8);
          ok := stream.Write(bytes);
        }
      case _ => ok := false;
    }
  }

  /** The loop of pb_enc_string that looks for the terminator. */
  method StringLength(s: seq<byte>, max: nat) returns (size: nat)
    ensures size <= |s| && s[..size] == CString(s, max)
  {
    size := 0;
    while size < |s| && size < max && s[size] != 0
      invariant size <= |s| && size <= max
      invariant CString(s, max) == s[..size] + CString(s[size..], max - size)
    {
      assert s[size..][1..] == s[size + 1..];
      assert s[..size] + [s[size]] == s[..size + 1];
      size := size + 1;
    }
  }

  /** pb_enc_bytes, pb_enc_string and pb_enc_fixed_length_bytes. */
  method EncBlob(stream: OStream, f: Field, s: seq<byte>) returns (ok: bool)
    requires stream.Valid() && |s| < 0x1_0000_0000_0000_0000
    modifies stream, stream.Target()
    ensures stream.Emitted(EncodeBlob(f, s), ok)
  {
    match f.ltype {
      case TBytes =>
        ok := |s| + BYTES_OFFSET <= f.dataSize;
        if ok {
          ok := EncodeString(stream, s);
        }
      case TString =>
        var size := StringLength(s, f.dataSize);
        ok := EncodeString(stream, s[..size]);
      case TFixedBytes =>
        ok := |s| == f.dataSize;
        if ok {
          ok := EncodeString(stream, s);
        }
      case _ => ok := false;
    }
  }

  /** The encoder function of the field's type. */
  method EncValue(stream: OStream, f: Field, v: Value) returns (ok: bool)
    requires stream.Valid() && SizedValue(f, v)
    modifies stream, stream.Target()
    ensures stream.Emitted(EncodeValue(f, v), ok)
    decreases f, 0
  {
    match v {
      case Num(n) => ok := EncNumber(stream, f, n);
      case Blob(s) => ok := EncBlob(stream, f, s);
      case Sub(slots) =>
        ok := f.ltype.TSubmessage?;
        if ok {
          ok := EncodeSubmessage(stream, f.sub, slots);
        }
      case Unset => ok := false;
    }
  }

  /** pb_encode_submessage: a first pass only measures; the second writes to a substream
    with exactly that much room. The size never changes between the two. */
  method EncodeSubmessage(stream: OStream, fields: seq<Field>, slots: seq<Slot>) returns (ok: bool)
    requires stream.Valid() && SizedFields(fields, slots) && IsSize(EncodeMessage(fields, slots))
    modifies stream, stream.Target()
    ensures stream.Emitted(Prefixed(EncodeMessage(fields, slots)), ok)
    decreases fields, 9
  {
    var size;
    ok, size := GetEncodedSize(fields, slots);
    if !ok {
      return false;
    }
    ok := stream.EncodeVarint(size);
    if !ok {
      return false;
    }
    if stream.buf == null {
      stream.bytesWritten := stream.bytesWritten + size;
    } else {
      ok := WriteSubmessage(stream, fields, slots, size);
    }
  }

  /** pb_get_encoded_size. */
  method GetEncodedSize(fields: seq<Field>, slots: seq<Slot>) returns (ok: bool, size: nat)
    requires SizedFields(fields, slots)
    ensures ok <==> EncodeMessage(fields, slots).Bytes?
    ensures ok ==> size == |EncodeMessage(fields, slots).bytes|
    decreases fields, 8
  {
    var sizing := new OStream(null, 0, 0);
    ok := PbEncode(sizing, fields, slots);
    size := sizing.bytesWritten;
  }

  method WriteSubmessage(stream: OStream, fields: seq<Field>, slots: seq<Slot>, size: nat) returns (ok: bool)
    requires stream.Valid() && stream.buf != null && SizedFields(fields, slots)
    requires EncodeMessage(fields, slots).Bytes? && |EncodeMessage(fields, slots).bytes| == size
    modifies stream, stream.Target()
    ensures stream.Emitted(EncodeMessage(fields, slots), ok)
    decreases fields, 8
  {
    if stream.bytesWritten + size > stream.maxSize {
      return false;
    }
    var substream := new OStream(stream.buf, stream.state, size);
    ok := PbEncode(substream, fields, slots);
    stream.bytesWritten := stream.bytesWritten + substream.bytesWritten;
    stream.state := substream.state;
    assert ok && substream.bytesWritten == size;
  }

  method EncTagged(stream: OStream, f: Field, v: Value) returns (ok: bool)
    requires stream.Valid() && SizedValue(f, v) && f.tag <= MAX_TAG
    modifies stream, stream.Target()
    ensures stream.Emitted(EncodeTagged(f, v), ok)
    decreases f, 1
  {
    ok := EncodeTagNumber(stream, WireTypeOf(f.ltype), f.tag);
    if ok {
      ok := EncValue(stream, f, v);
    }
  }

  /** The loops of encode_array over the items. */
  method EncItems(stream: OStream, f: Field, items: seq<Value>, tagged: bool) returns (ok: bool)
    requires stream.Valid() && f.tag <= MAX_TAG && forall i :: 0 <= i < |items| ==> SizedValue(f, items[i])
    modifies stream, stream.Target()
    ensures stream.Emitted(EncodeItems(f, items, |items|, tagged), ok)
    decreases f, 3
  {
    ghost var count, out := stream.bytesWritten, if stream.buf == null then [] else stream.Written();
    ok := EncItemsLoop(stream, f, items, tagged, count, out);
  }

  /** One loop over the items; count and out are what the stream held before. */
  method EncItemsLoop(stream: OStream, f: Field, items: seq<Value>, tagged: bool, ghost count: nat,
                      ghost out: seq<byte>) returns (ok: bool)
    requires f.tag <= MAX_TAG && forall i :: 0 <= i < |items| ==> SizedValue(f, items[i])
    requires stream.Since(Bytes([]), count, out)
    modifies stream, stream.Target()
    ensures ok ==> stream.Since(EncodeItems(f, items, |items|, tagged), count, out)
    ensures !ok ==> stream.Valid() && stream.Refuses(EncodeItems(f, items, |items|, tagged), count)
    decreases f, 3, 0
  {
    ok := true;
    var i := 0;
    while i < |items|
      invariant i <= |items|
      invariant stream.Since(EncodeItems(f, items, i, tagged), count, out)
    {
      ok := EncItemAt(stream, f, items, i, tagged, count, out);
      if !ok {
        RefusedItems(stream, f, items, i + 1, tagged, count);
        return;
      }
      i := i + 1;
    }
  }

  lemma {:induction false} RefusedItems(stream: OStream, f: Field, items: seq<Value>, n: nat, tagged: bool, count: nat)
    requires n <= |items| && stream.Refuses(EncodeItems(f, items, n, tagged), count)
    ensures stream.Refuses(EncodeItems(f, items, |items|, tagged), count)
  {
    ItemsGrow(f, items, n, |items|, tagged);
  }

  /** One more item behind the first i. */
  method EncItemAt(stream: OStream, f: Field, items: seq<Value>, i: nat, tagged: bool, ghost count: nat,
                   ghost out: seq<byte>)
    returns (ok: bool)
    requires i < |items| && f.tag <= MAX_TAG && SizedValue(f, items[i])
    requires stream.Since(EncodeItems(f, items, i, tagged), count, out)
    modifies stream, stream.Target()
    ensures ok ==> stream.Since(EncodeItems(f, items, i + 1, tagged), count, out)
    ensures !ok ==> stream.Valid() && stream.Refuses(EncodeItems(f, items, i + 1, tagged), count)
    decreases f, 2, 1
  {
    ok := EncItem(stream, f, items[i], tagged);
  }

  method EncItem(stream: OStream, f: Field, v: Value, tagged: bool) returns (ok: bool)
    requires stream.Valid() && f.tag <= MAX_TAG && SizedValue(f, v)
    modifies stream, stream.Target()
    ensures stream.Emitted(if tagged then EncodeTagged(f, v) else EncodeValue(f, v), ok)
    decreases f, 2, 0
  {
    if tagged {
      ok := EncTagged(stream, f, v);
    } else {
      ok := EncValue(stream, f, v);
    }
  }

  /** The size of a packed array: known for fixed widths, measured for varints. */
  method PackedSize(f: Field, items: seq<Value>) returns (ok: bool, size: nat)
    requires SizedSlot(f, Rep(items)) && Packable(f.ltype) && items != []
    ensures ok <==> EncodeItems(f, items, |items|, false).Bytes?
    ensures ok ==> size == |EncodeItems(f, items, |items|, false).bytes|
    decreases f, 4
  {
    if f.ltype.TFixed32? {
      FixedItemsSize(f, items, |items|);
      return true, 4 * |items|;
    } else if f.ltype.TFixed64? {
      FixedItemsSize(f, items, |items|);
      return true, 8 * |items|;
    }
    var sizestream := new OStream(null, 0, 0);
    ok := EncItems(sizestream, f, items, false);
    size := sizestream.bytesWritten;
  }

  /** encode_array. */
  method EncArray(stream: OStream, f: Field, items: seq<Value>) returns (ok: bool)
    requires stream.Valid() && SizedSlot(f, Rep(items))
    modifies stream, stream.Target()
    ensures stream.Emitted(EncodeArray(f, items), ok)
    decreases f, 6
  {
    if items == [] {
      return true;
    }
    if |items| > f.arraySize {
      return false;
    }
    if Packable(f.ltype) {
      ok := EncPacked(stream, f, items);
    } else {
      ok := EncItems(stream, f, items, true);
    }
  }

  method EncPacked(stream: OStream, f: Field, items: seq<Value>) returns (ok: bool)
    requires stream.Valid() && SizedSlot(f, Rep(items)) && Packable(f.ltype) && 0 < |items| <= f.arraySize
    modifies stream, stream.Target()
    ensures stream.Emitted(EncodeArray(f, items), ok)
    decreases f, 5
  {
    ok := EncodeTagNumber(stream, WtString, f.tag);
    if !ok {
      return;
    }
    var size;
    ok, size := PackedSize(f, items);
    if !ok {
      return;
    }
    ok := stream.EncodeVarint(size);
    if !ok {
      return;
    }
    if stream.buf == null {
      stream.bytesWritten := stream.bytesWritten + size;
    } else {
      ok := EncItems(stream, f, items, false);
    }
  }

  /** encode_basic_field. */
  method EncField(stream: OStream, f: Field, slot: Slot) returns (ok: bool)
    requires stream.Valid() && SizedSlot(f, slot)
    modifies stream, stream.Target()
    ensures stream.Emitted(EncodeField(f, slot), ok)
    decreases f, 7
  {
    if Absent(f, slot) {
      return true;
    }
    match slot {
      case One(v) => ok := EncTagged(stream, f, v);
      case Opt(_, v) => ok := EncTagged(stream, f, v);
      case Rep(items) => ok := EncArray(stream, f, items);
      case Choice(_, v) => ok := EncTagged(stream, f, v);
    }
  }

  /** pb_encode. It succeeds if and only if no field is in error and the buffer, if there is
    one, has room; the bytes counted are the bytes written. */
  method PbEncode(stream: OStream, fields: seq<Field>, slots: seq<Slot>) returns (ok: bool)
    requires stream.Valid() && SizedFields(fields, slots)
    modifies stream, stream.Target()
    ensures stream.Emitted(EncodeMessage(fields, slots), ok)
    decreases fields, 7
  {
    var iter := new FieldIter.Iter(fields, 0);
    ok := EncodeAll(stream, iter, slots);
  }

  /** The loop of pb_encode, from the first field on. */
  method EncodeAll(stream: OStream, iter: FieldIter.Iter, slots: seq<Slot>) returns (ok: bool)
    requires stream.Valid() && iter.Valid() && iter.pos == 0 && SizedFields(iter.start, slots)
    modifies stream, stream.Target(), iter
    ensures stream.Emitted(EncodeMessage(iter.start, slots), ok)
    decreases iter.start, 6
  {
    ghost var count, out := stream.bytesWritten, if stream.buf == null then [] else stream.Written();
    ok := EncodeLoop(stream, iter, slots, count, out);
  }

  /** The loop of pb_encode; count and out are what the stream held before. */
  method EncodeLoop(stream: OStream, iter: FieldIter.Iter, slots: seq<Slot>, ghost count: nat, ghost out: seq<byte>)
    returns (ok: bool)
    requires iter.Valid() && iter.pos == 0 && SizedFields(iter.start, slots)
    requires stream.Since(Bytes([]), count, out)
    modifies stream, stream.Target(), iter
    ensures ok ==> stream.Since(EncodeMessage(iter.start, slots), count, out)
    ensures !ok ==> stream.Valid() && stream.Refuses(EncodeMessage(iter.start, slots), count)
    decreases iter.start, 5
  {
    ok := true;
    var more := iter.start != [];
    ghost var n := 0;
    while more
      invariant iter.Valid() && n <= |iter.start| && more == (n < |iter.start|) && (more ==> n == iter.pos)
      invariant stream.Since(EncodeFields(iter.start, slots, n), count, out)
      decreases |iter.start| - n
    {
      ok, more := EncodeNext(stream, iter, slots, count, out);
      if !ok {
        RefusedStays(stream, iter.start, slots, n + 1, count);
        return;
      }
      n := n + 1;
    }
  }

  lemma {:induction false} RefusedStays(stream: OStream, fields: seq<Field>, slots: seq<Slot>, n: nat, count: nat)
    requires n <= |fields| && stream.Refuses(EncodeFields(fields, slots, n), count)
    ensures stream.Refuses(EncodeMessage(fields, slots), count)
  {
    FieldsGrow(fields, slots, n, |fields|);
  }

  /** One pass of the loop: the field at the iterator, and on to the next. */
  method EncodeNext(stream: OStream, iter: FieldIter.Iter, slots: seq<Slot>, ghost count: nat, ghost out: seq<byte>)
    returns (ok: bool, more: bool)
    requires iter.Valid() && iter.pos < |iter.start| && SizedFields(iter.start, slots)
    requires stream.Since(EncodeFields(iter.start, slots, iter.pos), count, out)
    modifies stream, stream.Target(), iter
    ensures ok ==> stream.Since(EncodeFields(iter.start, slots, old(iter.pos) + 1), count, out)
    ensures !ok ==> stream.Valid() && stream.Refuses(EncodeFields(iter.start, slots, old(iter.pos) + 1), count)
    ensures ok ==> iter.Valid() && more == (old(iter.pos) + 1 < |iter.start|)
    ensures ok && more ==> iter.pos == old(iter.pos) + 1
    decreases iter.start, 4
  {
    more := false;
    ok := EncodeAt(stream, iter.start, slots, iter.pos);
    if ok {
      more := iter.Next();
    }
  }

  method EncodeAt(stream: OStream, fields: seq<Field>, slots: seq<Slot>, i: nat) returns (ok: bool)
    requires stream.Valid() && i < |fields| && SizedFields(fields, slots)
    modifies stream, stream.Target()
    ensures stream.Emitted(FieldOutput(fields, slots, i), ok)
    decreases fields, 3
  {
    ok := SlotOf(fields, i) < |slots|;
    assert SizedField(fields, slots, i);
    if ok {
      ok := EncField(stream, fields[i], slots[SlotOf(fields, i)]);
    }
  }
}
