/** Decoding proceeds field by field: it looks no further than the field at hand, so inputs
  can be cut, joined and extended at field boundaries. */
module Merging {
  import opened Varint
  import opened Descriptor
  import opened Decoding

  // Reading sees no further than what it reads.

  lemma {:induction false} ReadLocal(s: seq<byte>, more: seq<byte>)
    requires Read(s).Done?
    ensures Read(s + more) == Done(Read(s).value, Read(s).rest + more)
  {
    ReadFromLocal(s, more, 0, 0);
  }

  lemma {:induction false} ReadFixedLocal(s: seq<byte>, more: seq<byte>, n: nat)
    requires ReadFixed(s, n).Done?
    ensures ReadFixed(s + more, n) == Done(ReadFixed(s, n).value, ReadFixed(s, n).rest + more)
  {
    assert (s + more)[..n] == s[..n] && (s + more)[n..] == s[n..] + more;
  }

  lemma {:induction false} ReadNumberLocal(f: Field, s: seq<byte>, more: seq<byte>)
    requires ReadNumber(f, s).Done?
    ensures ReadNumber(f, s + more) == Done(ReadNumber(f, s).value, ReadNumber(f, s).rest + more)
  {
    match f.ltype
    case TBool => Read32Local(s, more);
    case TVarint => ReadLocal(s, more);
    case TUvarint => ReadLocal(s, more);
    case TSvarint => ReadLocal(s, more);
    case TFixed32 => ReadFixedLocal(s, more, 4);
    case TFixed64 => ReadFixedLocal(s, more, 8);
  }

  lemma {:induction false} ReadDelimitedLocal(s: seq<byte>, more: seq<byte>)
    requires ReadDelimited(s).Done?
    ensures ReadDelimited(s + more) == Done(ReadDelimited(s).value, ReadDelimited(s).rest + more)
  {
    Read32Local(s, more);
    var p := Read32(s);
    assert (p.rest + more)[..p.value] == p.rest[..p.value];
    assert (p.rest + more)[p.value..] == p.rest[p.value..] + more;
  }

  lemma {:induction false} ReadBlobLocal(f: Field, s: seq<byte>, more: seq<byte>)
    requires ReadBlob(f, s).Done?
    ensures ReadBlob(f, s + more) == Done(ReadBlob(f, s).value, ReadBlob(f, s).rest + more)
  {
    Read32Local(s, more);
    if ReadDelimited(s).Done? {
      ReadDelimitedLocal(s, more);
    }
  }

  lemma {:induction false} ReadTagLocal(s: seq<byte>, more: seq<byte>)
    requires ReadTag(s).Done?
    ensures ReadTag(s + more) == Done(ReadTag(s).value, ReadTag(s).rest + more)
  {
    Read32Local(s, more);
  }

  lemma {:induction false} SkipVarintLocal(s: seq<byte>, more: seq<byte>)
    requires SkipVarint(s).Done?
    ensures SkipVarint(s + more) == Done(EndOfMessage, SkipVarint(s).rest + more)
  {
    assert (s + more)[1..] == s[1..] + more;
    if s[0] < 128 {
    } else {
      SkipVarintLocal(s[1..], more);
    }
  }

  lemma {:induction false} SkipFieldLocal(s: seq<byte>, more: seq<byte>, wireType: nat)
    requires SkipField(s, wireType).Done?
    ensures SkipField(s + more, wireType) == Done(EndOfMessage, SkipField(s, wireType).rest + more)
  {
    if wireType == 0 {
      SkipVarintLocal(s, more);
    } else if wireType == 1 {
      assert (s + more)[8..] == s[8..] + more;
    } else if wireType == 2 {
      ReadDelimitedLocal(s, more);
    } else {
      assert (s + more)[4..] == s[4..] + more;
    }
  }

  lemma {:induction false} PassOverLocal(fields: seq<Field>, tag: nat, wireType: nat, s: seq<byte>, more: seq<byte>)
    requires PassOver(fields, tag, wireType, s).Done?
    ensures PassOver(fields, tag, wireType, s + more) ==
            Done(EndOfMessage, PassOver(fields, tag, wireType, s).rest + more)
  {
    if FindsEnd(fields, tag) {
      Read32Local(s, more);
    } else {
      SkipFieldLocal(s, more, wireType);
    }
  }

  lemma {:induction false} ReadValueLocal(f: Field, s: seq<byte>, more: seq<byte>, dest: Value)
    requires ReadValue(f, s, dest).Done?
    ensures ReadValue(f, s + more, dest) == Done(ReadValue(f, s, dest).value, ReadValue(f, s, dest).rest + more)
  {
    match f.ltype
    case TSubmessage => ReadDelimitedLocal(s, more);
    case TBytes => ReadBlobLocal(f, s, more);
    case TString => ReadBlobLocal(f, s, more);
    case TFixedBytes => ReadBlobLocal(f, s, more);
    case _ => ReadNumberLocal(f, s, more);
  }

  lemma {:induction false} DecodeFieldLocal(f: Field, s: seq<byte>, more: seq<byte>, wireType: nat, slot: Slot)
    requires DecodeField(f, s, wireType, slot).Done?
    ensures DecodeField(f, s + more, wireType, slot) ==
            Done(DecodeField(f, s, wireType, slot).value, DecodeField(f, s, wireType, slot).rest + more)
  {
    match slot
    case One(dest) => ReadValueLocal(f, s, more, dest);
    case Opt(_, dest) => ReadValueLocal(f, s, more, dest);
    case Rep(items) =>
      if wireType == 2 && Packable(f.ltype) {
        ReadDelimitedLocal(s, more);
      } else {
        ReadValueLocal(f, s, more, DefaultValue(f));
      }
    case Choice(_, _) => ReadValueLocal(f, s, more, DefaultValue(f));
  }

  lemma {:induction false} DecodeOneLocal(fields: seq<Field>, tag: nat, wireType: nat, s: seq<byte>, more: seq<byte>,
                                          at: Progress)
    requires DecodeOne(fields, tag, wireType, s, at).Done?
    ensures DecodeOne(fields, tag, wireType, s + more, at) ==
            Done(DecodeOne(fields, tag, wireType, s, at).value, DecodeOne(fields, tag, wireType, s, at).rest + more)
  {
    var i := Find(fields, tag);
    if i == |fields| {
      PassOverLocal(fields, tag, wireType, s, more);
    } else {
      DecodeFieldLocal(fields[i], s, more, wireType, at.slots[SlotOf(fields, i)]);
    }
  }

  // Joining inputs.

  /** The bytes are whole records, none of them a zero tag, and the loop accepts them all. */
  predicate Complete(fields: seq<Field>, s: seq<byte>, at: Progress)
    decreases |s|
  {
    s == [] ||
    var t := ReadTag(s);
    t.Done? && t.value.Tag? &&
    var p := DecodeOne(fields, t.value.tag, t.value.wireType, t.rest, at);
    p.Done? && Complete(fields, p.rest, p.value)
  }

  /** After whole records the loop goes on as if it had started there. */
  lemma {:induction false} LoopGoesOn(fields: seq<Field>, a: seq<byte>, b: seq<byte>, at: Progress)
    requires Complete(fields, a, at)
    ensures DecodeLoop(fields, a, at).Done?
    ensures DecodeLoop(fields, a + b, at) == DecodeLoop(fields, b, DecodeLoop(fields, a, at).value)
    decreases |a|
  {
    if a == [] {
      assert a + b == b;
    } else {
      var t := ReadTag(a);
      var p := DecodeOne(fields, t.value.tag, t.value.wireType, t.rest, at);
      ReadTagLocal(a, b);
      DecodeOneLocal(fields, t.value.tag, t.value.wireType, t.rest, b, at);
      LoopGoesOn(fields, p.rest, b, p.value);
    }
  }

  lemma {:induction false} CompleteJoins(fields: seq<Field>, a: seq<byte>, b: seq<byte>, at: Progress)
    requires Complete(fields, a, at) && DecodeLoop(fields, a, at).Done?
    requires Complete(fields, b, DecodeLoop(fields, a, at).value)
    ensures Complete(fields, a + b, at)
    decreases |a|
  {
    if a == [] {
      assert a + b == b;
    } else {
      var t := ReadTag(a);
      var p := DecodeOne(fields, t.value.tag, t.value.wireType, t.rest, at);
      ReadTagLocal(a, b);
      DecodeOneLocal(fields, t.value.tag, t.value.wireType, t.rest, b, at);
      CompleteJoins(fields, p.rest, b, p.value);
    }
  }

  /** The required fields already seen do not influence the loop; they only add up. */
  function MoreSeen(p: Parsed<Progress>, seen: set<nat>): Parsed<Progress> {
    if p.Done? then Done(Progress(p.value.slots, seen + p.value.seen), p.rest) else Fail
  }

  lemma {:induction false} DecodeOneSeen(fields: seq<Field>, tag: nat, wireType: nat, s: seq<byte>, slots: seq<Slot>,
                                         seen: set<nat>, more: set<nat>)
    ensures DecodeOne(fields, tag, wireType, s, Progress(slots, more + seen)) ==
            MoreSeen(DecodeOne(fields, tag, wireType, s, Progress(slots, seen)), more)
  {
    var i := Find(fields, tag);
    assert more + (seen + {i}) == more + seen + {i};
  }

  lemma {:induction false} LoopSeen(fields: seq<Field>, s: seq<byte>, slots: seq<Slot>, seen: set<nat>, more: set<nat>)
    ensures DecodeLoop(fields, s, Progress(slots, more + seen)) ==
            MoreSeen(DecodeLoop(fields, s, Progress(slots, seen)), more)
    decreases |s|
  {
    if s == [] {
    } else {
      var t := ReadTag(s);
      if t.Done? && t.value.Tag? {
        DecodeOneSeen(fields, t.value.tag, t.value.wireType, t.rest, slots, seen, more);
        var p := DecodeOne(fields, t.value.tag, t.value.wireType, t.rest, Progress(slots, seen));
        if p.Done? {
          LoopSeen(fields, p.rest, p.value.slots, p.value.seen, more);
        }
      }
    }
  }

  /** Decoding composes as merging: decoding a and then b into the same struct is decoding
    their concatenation. */
  lemma {:induction false} DecodingMerges(fields: seq<Field>, a: seq<byte>, b: seq<byte>, slots: seq<Slot>)
    requires Supported(fields) && Complete(fields, a, Progress(slots, {}))
    requires DecodeNoinit(fields, a, slots).Done?
    requires DecodeNoinit(fields, b, DecodeNoinit(fields, a, slots).value).Done?
    ensures DecodeNoinit(fields, a + b, slots) == DecodeNoinit(fields, b, DecodeNoinit(fields, a, slots).value)
  {
    var mid := DecodeLoop(fields, a, Progress(slots, {})).value;
    LoopGoesOn(fields, a, b, Progress(slots, {}));
    assert mid.seen + {} == mid.seen;
    LoopSeen(fields, b, mid.slots, {}, mid.seen);
  }

  /** A zero byte at a field boundary ends the message: what follows is left unread. */
  lemma {:induction false} ZeroEnds(fields: seq<Field>, a: seq<byte>, b: seq<byte>, slots: seq<Slot>)
    requires Supported(fields) && Complete(fields, a, Progress(slots, {}))
    ensures DecodeNoinit(fields, a + [0] + b, slots) ==
            if DecodeNoinit(fields, a, slots).Done? then Done(DecodeNoinit(fields, a, slots).value, b) else Fail
  {
    var at := Progress(slots, {});
    LoopGoesOn(fields, a, [0] + b, at);
    assert a + [0] + b == a + ([0] + b);
    assert a + [] == a;
    LoopGoesOn(fields, a, [], at);
    assert ([0] + b)[1..] == b;
  }

  // Unknown fields.

  /** A record no field of the message is declared for. */
  predicate UnknownRecord(fields: seq<Field>, u: seq<byte>) {
    var t := ReadTag(u);
    t.Done? && t.value.Tag? && Find(fields, t.value.tag) == |fields| && !FindsEnd(fields, t.value.tag)
    && SkipField(t.rest, t.value.wireType).Done? && SkipField(t.rest, t.value.wireType).rest == []
  }

  lemma {:induction false} UnknownIsSkipped(fields: seq<Field>, u: seq<byte>, b: seq<byte>, at: Progress)
    requires UnknownRecord(fields, u)
    ensures DecodeLoop(fields, u + b, at) == DecodeLoop(fields, b, at)
  {
    var t := ReadTag(u);
    ReadTagLocal(u, b);
    SkipFieldLocal(t.rest, b, t.value.wireType);
    assert [] + b == b;
  }

  /** Unknown fields are transparent: inserting one at a field boundary changes neither
    whether decoding succeeds, nor the struct, nor what is left unread. */
  lemma {:induction false} UnknownIsTransparent(fields: seq<Field>, a: seq<byte>, u: seq<byte>, b: seq<byte>,
                                                slots: seq<Slot>)
    requires Supported(fields) && Complete(fields, a, Progress(slots, {})) && UnknownRecord(fields, u)
    ensures DecodeNoinit(fields, a + u + b, slots) == DecodeNoinit(fields, a + b, slots)
  {
    var at := Progress(slots, {});
    LoopGoesOn(fields, a, b, at);
    LoopGoesOn(fields, a, u + b, at);
    assert a + u + b == a + (u + b);
    UnknownIsSkipped(fields, u, b, DecodeLoop(fields, a, at).value);
  }
}
