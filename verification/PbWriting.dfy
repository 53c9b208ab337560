/** What the encoder makes of a struct: when it refuses it, and that a message is its fields'
  records in the order of the descriptor. */
module Writing {
  import opened Descriptor
  import opened Encoding
  import opened Reading
  import opened WireFormat

  // Which structs can be written.

  /** A number in the range of its field, bytes that leave room for the size in front of them,
    fixed bytes of their own length, a submessage that can be written; a string always. */
  predicate Writable(f: Field, v: Value)
    decreases f, 0
  {
    match f.ltype
    case TBool => v.Num?
    case TVarint => v.Num? && InRange(f, v.n)
    case TUvarint => v.Num? && InRange(f, v.n)
    case TSvarint => v.Num? && InRange(f, v.n)
    case TFixed32 => v.Num? && 0 <= v.n < 0x1_0000_0000
    case TFixed64 => v.Num? && 0 <= v.n < 0x1_0000_0000_0000_0000
    case TBytes => v.Blob? && |v.bytes| + 4 <= f.dataSize
    case TString => v.Blob?
    case TFixedBytes => v.Blob? && |v.bytes| == f.dataSize
    case TSubmessage => v.Sub? && StructWritable(f.sub, v.slots)
    case TExtension => false
  }

  /** Of an array no more items than it has entries. */
  predicate SlotWritable(f: Field, slot: Slot)
    decreases f, 1
  {
    match slot
    case Rep(items) => |items| <= f.arraySize && forall j :: 0 <= j < |items| ==> Writable(f, items[j])
    case _ => Absent(f, slot) || Writable(f, slot.value)
  }

  predicate FieldWritable(fields: seq<Field>, slots: seq<Slot>, i: nat)
    requires i < |fields|
    decreases fields, 2
  {
    SlotOf(fields, i) < |slots| && SlotWritable(fields[i], slots[SlotOf(fields, i)])
  }

  predicate StructWritable(fields: seq<Field>, slots: seq<Slot>)
    decreases fields, 3
  {
    forall i :: 0 <= i < |fields| ==> FieldWritable(fields, slots, i)
  }

  lemma {:induction false} ValueIsWritten(f: Field, v: Value)
    ensures EncodeValue(f, v).Bytes? <==> Writable(f, v)
    decreases f, 0
  {
    if v.Sub? && f.ltype.TSubmessage? {
      WrittenIfWritable(f.sub, v.slots);
    }
  }

  lemma {:induction false} ItemsAreWritten(f: Field, items: seq<Value>, n: nat, tagged: bool)
    requires n <= |items|
    ensures EncodeItems(f, items, n, tagged).Bytes? <==> forall j :: 0 <= j < n ==> Writable(f, items[j])
    decreases f, 1, n
  {
    if n == 0 {
    } else {
      ItemsAreWritten(f, items, n - 1, tagged);
      ValueIsWritten(f, items[n - 1]);
    }
  }

  lemma {:induction false} SlotIsWritten(f: Field, slot: Slot)
    ensures EncodeField(f, slot).Bytes? <==> SlotWritable(f, slot)
    decreases f, 2
  {
    match slot
    case Rep(items) =>
      ItemsAreWritten(f, items, |items|, true);
      ItemsAreWritten(f, items, |items|, false);
    case _ => ValueIsWritten(f, slot.value);
  }

  lemma {:induction false} FieldIsWritten(fields: seq<Field>, slots: seq<Slot>, i: nat)
    requires i < |fields|
    ensures FieldOutput(fields, slots, i).Bytes? <==> FieldWritable(fields, slots, i)
    decreases fields, 3
  {
    if SlotOf(fields, i) < |slots| {
      SlotIsWritten(fields[i], slots[SlotOf(fields, i)]);
    }
  }

  lemma {:induction false} FieldsAreWritten(fields: seq<Field>, slots: seq<Slot>, n: nat)
    requires n <= |fields|
    ensures EncodeFields(fields, slots, n).Bytes? <==> forall i :: 0 <= i < n ==> FieldWritable(fields, slots, i)
    decreases fields, 4, n
  {
    if n == 0 {
    } else {
      FieldsAreWritten(fields, slots, n - 1);
      FieldIsWritten(fields, slots, n - 1);
      assert EncodeFields(fields, slots, n).Bytes? <==>
             EncodeFields(fields, slots, n - 1).Bytes? && FieldWritable(fields, slots, n - 1);
    }
  }

  /** A message is encoded if and only if every field that is present can be written: nothing
    that fits is refused, and nothing that does not fit is cut. */
  lemma {:induction false} WrittenIfWritable(fields: seq<Field>, slots: seq<Slot>)
    ensures EncodeMessage(fields, slots).Bytes? <==> StructWritable(fields, slots)
    decreases fields, 5
  {
    FieldsAreWritten(fields, slots, |fields|);
    if EncodeFields(fields, slots, |fields|).Bytes? {
      assert StructWritable(fields, slots);
    }
  }

  // Messages.

  /** Records of one field, one after another. */
  ghost predicate Records(s: seq<byte>, tag: nat) {
    s == [] ||
    exists n: nat, wireType: nat, payload: seq<byte> ::
      0 < n <= |s| && IsRecord(s[..n], tag, wireType, payload) && IsPayload(wireType, payload) && Records(s[n..], tag)
  }

  /** The records of the first n fields, in their order. */
  ghost predicate InOrder(fields: seq<Field>, n: nat, s: seq<byte>)
    requires n <= |fields|
    decreases n
  {
    if n == 0 then s == []
    else exists k: nat :: k <= |s| && InOrder(fields, n - 1, s[..k]) && Records(s[k..], fields[n - 1].tag)
  }

  lemma {:induction false} OneMore(s: seq<byte>, record: seq<byte>, tag: nat, wireType: nat, payload: seq<byte>)
    requires Records(s, tag)
    requires record != [] && IsRecord(record, tag, wireType, payload) && IsPayload(wireType, payload)
    ensures Records(s + record, tag)
    decreases |s|
  {
    if s == [] {
      assert s + record == record && record[..|record|] == record && record[|record|..] == [];
      assert Records(record[|record|..], tag);
    } else {
      var n: nat, w: nat, p: seq<byte> :|
        0 < n <= |s| && IsRecord(s[..n], tag, w, p) && IsPayload(w, p) && Records(s[n..], tag);
      OneMore(s[n..], record, tag, wireType, payload);
      assert (s + record)[..n] == s[..n] && (s + record)[n..] == s[n..] + record;
    }
  }

  lemma {:induction false} TaggedItems(f: Field, items: seq<Value>, n: nat)
    requires n <= |items| && EncodeItems(f, items, n, true).Bytes?
    ensures Records(EncodeItems(f, items, n, true).bytes, f.tag)
  {
    if n == 0 {
    } else {
      var v := items[n - 1];
      TaggedItems(f, items, n - 1);
      RecordsAreWireFormat(f, v);
      OneMore(EncodeItems(f, items, n - 1, true).bytes, EncodeTagged(f, v).bytes, f.tag, GuideType(f.ltype),
              EncodeValue(f, v).bytes);
    }
  }

  lemma {:induction false} OneRecord(f: Field, v: Value)
    requires EncodeTagged(f, v).Bytes?
    ensures Records(EncodeTagged(f, v).bytes, f.tag)
  {
    RecordsAreWireFormat(f, v);
    OneMore([], EncodeTagged(f, v).bytes, f.tag, GuideType(f.ltype), EncodeValue(f, v).bytes);
    assert [] + EncodeTagged(f, v).bytes == EncodeTagged(f, v).bytes;
  }

  lemma {:induction false} ArrayIsRecords(f: Field, items: seq<Value>)
    requires EncodeArray(f, items).Bytes?
    ensures Records(EncodeArray(f, items).bytes, f.tag)
  {
    if items == [] {
    } else if Packable(f.ltype) {
      var s, data := EncodeArray(f, items).bytes, EncodeItems(f, items, |items|, false).bytes;
      PackedIsWireFormat(f, items);
      OneMore([], s, f.tag, 2, LengthPrefixed(data));
      assert [] + s == s;
    } else {
      TaggedItems(f, items, |items|);
    }
  }

  lemma {:induction false} FieldIsRecords(f: Field, slot: Slot)
    requires EncodeField(f, slot).Bytes?
    ensures Records(EncodeField(f, slot).bytes, f.tag)
  {
    if !Absent(f, slot) {
      match slot
      case Rep(items) => ArrayIsRecords(f, items);
      case _ => OneRecord(f, slot.value);
    }
  }

  lemma {:induction false} FieldsAreInOrder(fields: seq<Field>, slots: seq<Slot>, n: nat)
    requires n <= |fields| && EncodeFields(fields, slots, n).Bytes?
    ensures InOrder(fields, n, EncodeFields(fields, slots, n).bytes)
  {
    if n == 0 {
    } else {
      var s, front := EncodeFields(fields, slots, n).bytes, EncodeFields(fields, slots, n - 1).bytes;
      FieldsAreInOrder(fields, slots, n - 1);
      FieldIsRecords(fields[n - 1], slots[SlotOf(fields, n - 1)]);
      assert s[..|front|] == front && s[|front|..] == FieldOutput(fields, slots, n - 1).bytes;
    }
  }

  /** What is encoded is wire format from end to end: the records of the fields, in the order of
    the descriptor, and nothing in between. */
  lemma {:induction false} MessagesAreWireFormat(fields: seq<Field>, slots: seq<Slot>)
    requires EncodeMessage(fields, slots).Bytes?
    ensures InOrder(fields, |fields|, EncodeMessage(fields, slots).bytes)
  {
    FieldsAreInOrder(fields, slots, |fields|);
  }
}
