/** A submessage field that occurs twice. The encoding guide merges the occurrences: two records
  with payloads a and b stand for one record with payload a + b. When pb_decode agrees, for the
  singular fields it merges and for the oneof members it starts over. */
module Repetition {
  import opened Varint
  import opened Descriptor
  import opened Encoding
  import opened Decoding
  import opened Merging
  import opened Conforming
  import opened RoundTrip
  import opened NormalForm

  /** One occurrence of a submessage field. */
  function Occurrence(f: Field, payload: seq<byte>): seq<byte> {
    EncodeTag(WtString, f.tag) + LengthPrefixed(payload)
  }

  /** What the field's slot hands to the nested decoder, and what it holds afterwards. */
  function Base(f: Field, slot: Slot): Value {
    match slot
    case One(dest) => dest
    case Opt(_, dest) => dest
    case _ => DefaultValue(f)
  }

  function Filled(f: Field, slot: Slot, v: Value): Slot {
    match slot
    case One(_) => One(v)
    case Opt(_, _) => Opt(true, v)
    case Rep(items) => Rep(items + [v])
    case Choice(_, _) => Choice(f.tag, v)
  }

  /** A field of a message that holds at most one submessage, and its slot at the moment. */
  predicate HoldsOne(fields: seq<Field>, i: nat, at: Progress) {
    && i < |fields| && SlotOf(fields, i) < |at.slots|
    && fields[i].ltype.TSubmessage? && !at.slots[SlotOf(fields, i)].Rep?
    && Base(fields[i], at.slots[SlotOf(fields, i)]).Sub?
  }

  /** The struct after payload has been decoded into the field. */
  function After(fields: seq<Field>, i: nat, at: Progress, payload: seq<byte>): Parsed<Progress>
    requires HoldsOne(fields, i, at)
  {
    var f, k := fields[i], SlotOf(fields, i);
    var p := DecodeNoinit(f.sub, payload, Base(f, at.slots[k]).slots);
    if p.Done?
    then Done(Progress(at.slots[k := Filled(f, at.slots[k], Sub(p.value))], SeenWith(fields, i, at.seen)), [])
    else Fail
  }

  /** The decoder of the field sees the payload and nothing of what follows. */
  lemma {:induction false} FieldOfOccurrence(f: Field, slot: Slot, payload: seq<byte>, rest: seq<byte>)
    requires f.ltype.TSubmessage? && !slot.Rep? && Base(f, slot).Sub? && |payload| < 0x1_0000_0000
    ensures DecodeField(f, LengthPrefixed(payload) + rest, 2, slot) ==
            var p := DecodeNoinit(f.sub, payload, Base(f, slot).slots);
            if p.Done? then Done(Filled(f, slot, Sub(p.value)), rest) else Fail
  {
    DelimitedRoundTrip(payload);
    ReadDelimitedLocal(LengthPrefixed(payload), rest);
    assert [] + rest == rest;
  }

  lemma {:induction false} OccurrenceIs(fields: seq<Field>, i: nat, at: Progress, payload: seq<byte>, rest: seq<byte>)
    requires WellFormed(fields) && HoldsOne(fields, i, at) && |payload| < 0x1_0000_0000
    ensures DecodeLoop(fields, Occurrence(fields[i], payload) + rest, at) ==
            var p := After(fields, i, at, payload);
            if p.Done? then DecodeLoop(fields, rest, p.value) else Fail
  {
    var f, behind := fields[i], LengthPrefixed(payload) + rest;
    FieldIsOk(fields, i);
    FindIs(fields, i);
    assert Occurrence(f, payload) + rest == EncodeTag(WtString, f.tag) + behind;
    TagRoundTrip(WtString, f.tag, behind);
    FieldOfOccurrence(f, at.slots[SlotOf(fields, i)], payload, rest);
    assert Occurrence(f, payload) + rest != [];
  }

  /** Two occurrences, one after the other. */
  lemma {:induction false} TwoOccurrences(fields: seq<Field>, i: nat, at: Progress, a: seq<byte>, b: seq<byte>)
    requires WellFormed(fields) && HoldsOne(fields, i, at) && |a| + |b| < 0x1_0000_0000
    requires After(fields, i, at, a).Done?
    ensures HoldsOne(fields, i, After(fields, i, at, a).value)
    ensures DecodeLoop(fields, Occurrence(fields[i], a) + Occurrence(fields[i], b), at) ==
            After(fields, i, After(fields, i, at, a).value, b)
  {
    OccurrenceIs(fields, i, at, a, Occurrence(fields[i], b));
    OneOccurrence(fields, i, After(fields, i, at, a).value, b);
  }

  /** A singular field hands the first submessage on to the second; a oneof member does not. */
  lemma {:induction false} SecondStartsFrom(fields: seq<Field>, i: nat, at: Progress, a: seq<byte>, b: seq<byte>)
    requires HoldsOne(fields, i, at) && After(fields, i, at, a).Done?
    ensures HoldsOne(fields, i, After(fields, i, at, a).value)
    ensures After(fields, i, After(fields, i, at, a).value, b) ==
            var f, k := fields[i], SlotOf(fields, i);
            var first := DecodeNoinit(f.sub, a, Base(f, at.slots[k]).slots).value;
            var p := DecodeNoinit(f.sub, b, if at.slots[k].Choice? then Defaults(f.sub, |f.sub|) else first);
            if p.Done?
            then Done(Progress(at.slots[k := Filled(f, at.slots[k], Sub(p.value))], SeenWith(fields, i, at.seen)), [])
            else Fail
  {
    var k := SlotOf(fields, i);
    var mid := After(fields, i, at, a).value;
    var p := DecodeNoinit(fields[i].sub, b, Base(fields[i], mid.slots[k]).slots);
    assert at.seen + {i} + {i} == at.seen + {i};
    if p.Done? {
      var slot := Filled(fields[i], at.slots[k], Sub(p.value));
      assert mid.slots[k := slot] == at.slots[k := slot];
    }
  }

  lemma {:induction false} OneOccurrence(fields: seq<Field>, i: nat, at: Progress, payload: seq<byte>)
    requires WellFormed(fields) && HoldsOne(fields, i, at) && |payload| < 0x1_0000_0000
    ensures DecodeLoop(fields, Occurrence(fields[i], payload), at) == After(fields, i, at, payload)
  {
    OccurrenceIs(fields, i, at, payload, []);
    assert Occurrence(fields[i], payload) + [] == Occurrence(fields[i], payload);
  }

  // The rule.

  /** Payload a is whole records, and decodes into what the slot holds. */
  predicate Arrives(fields: seq<Field>, i: nat, at: Progress, a: seq<byte>) {
    && HoldsOne(fields, i, at)
    && Complete(fields[i].sub, a, Progress(Base(fields[i], at.slots[SlotOf(fields, i)]).slots, {}))
    && After(fields, i, at, a).Done?
  }

  /** The rule of the encoding guide: b in a record of its own is as good as b behind a. */
  predicate Merges(fields: seq<Field>, i: nat, at: Progress, a: seq<byte>, b: seq<byte>)
    requires i < |fields|
  {
    DecodeLoop(fields, Occurrence(fields[i], a) + Occurrence(fields[i], b), at) ==
    DecodeLoop(fields, Occurrence(fields[i], a + b), at)
  }

  ghost predicate AlwaysMerges(fields: seq<Field>, i: nat, at: Progress, a: seq<byte>)
    requires i < |fields|
  {
    forall b :: |a| + |b| < 0x1_0000_0000 ==> Merges(fields, i, at, a, b)
  }

  /** Without required fields any bytes the loop accepts are a message, so decoding a + b is
    decoding b into what a left. */
  lemma {:induction false} GoesOnWithoutRequired(fields: seq<Field>, a: seq<byte>, b: seq<byte>, slots: seq<Slot>)
    requires Complete(fields, a, Progress(slots, {})) && RequiredSeen(fields, {})
    ensures DecodeNoinit(fields, a, slots).Done?
    ensures DecodeNoinit(fields, a + b, slots) == DecodeNoinit(fields, b, DecodeNoinit(fields, a, slots).value)
  {
    LoopGoesOn(fields, a, b, Progress(slots, {}));
    var mid := DecodeLoop(fields, a, Progress(slots, {})).value;
    assert mid.seen + {} == mid.seen;
    LoopSeen(fields, b, mid.slots, {}, mid.seen);
  }

  /** Singular fields: both occurrences decode, so they merge. */
  lemma {:induction false} SingularMerges(fields: seq<Field>, i: nat, at: Progress, a: seq<byte>, b: seq<byte>)
    requires WellFormed(fields) && Arrives(fields, i, at, a) && |a| + |b| < 0x1_0000_0000
    requires !at.slots[SlotOf(fields, i)].Choice?
    requires After(fields, i, After(fields, i, at, a).value, b).Done?
    ensures Merges(fields, i, at, a, b)
  {
    FieldIsOk(fields, i);
    WellFormedIsDecodable(fields[i].sub);
    DecodingMerges(fields[i].sub, a, b, Base(fields[i], at.slots[SlotOf(fields, i)]).slots);
    TwoOccurrences(fields, i, at, a, b);
    SecondStartsFrom(fields, i, at, a, b);
    OneOccurrence(fields, i, at, a + b);
  }

  /** An empty second occurrence shows what is lost. */
  lemma {:induction false} EmptySecond(fields: seq<Field>, i: nat, at: Progress, a: seq<byte>)
    requires WellFormed(fields) && Arrives(fields, i, at, a) && |a| < 0x1_0000_0000
    ensures Merges(fields, i, at, a, []) <==>
            After(fields, i, After(fields, i, at, a).value, []) == After(fields, i, at, a)
  {
    TwoOccurrences(fields, i, at, a, []);
    OneOccurrence(fields, i, at, a);
    assert a + [] == a;
  }

  /** For a singular field the rule holds whatever follows if and only if the submessage has
    no required fields: each occurrence is checked for its own. */
  lemma {:induction false} SingularMergesIff(fields: seq<Field>, i: nat, at: Progress, a: seq<byte>)
    requires WellFormed(fields) && Arrives(fields, i, at, a) && |a| < 0x1_0000_0000
    requires !at.slots[SlotOf(fields, i)].Choice?
    ensures AlwaysMerges(fields, i, at, a) <==> RequiredSeen(fields[i].sub, {})
  {
    EmptySecond(fields, i, at, a);
    if RequiredSeen(fields[i].sub, {}) {
      forall b | |a| + |b| < 0x1_0000_0000
        ensures Merges(fields, i, at, a, b)
      {
        GoesOnWithoutRequired(fields[i].sub, a, b, Base(fields[i], at.slots[SlotOf(fields, i)]).slots);
        TwoOccurrences(fields, i, at, a, b);
        SecondStartsFrom(fields, i, at, a, b);
        OneOccurrence(fields, i, at, a + b);
      }
    }
  }

  /** A oneof member starts over: its first occurrence leaves no trace. */
  lemma {:induction false} OneofStartsOver(fields: seq<Field>, i: nat, at: Progress, a: seq<byte>, b: seq<byte>)
    requires WellFormed(fields) && HoldsOne(fields, i, at) && |a| + |b| < 0x1_0000_0000
    requires at.slots[SlotOf(fields, i)].Choice? && After(fields, i, at, a).Done?
    ensures DecodeLoop(fields, Occurrence(fields[i], a) + Occurrence(fields[i], b), at) ==
            DecodeLoop(fields, Occurrence(fields[i], b), at)
  {
    TwoOccurrences(fields, i, at, a, b);
    SecondStartsFrom(fields, i, at, a, b);
    OneOccurrence(fields, i, at, b);
  }

  /** So the rule holds for it, whatever follows, if and only if the submessage has no required
    fields and its first occurrence said nothing. */
  lemma {:induction false} OneofMergesIff(fields: seq<Field>, i: nat, at: Progress, a: seq<byte>)
    requires WellFormed(fields) && Arrives(fields, i, at, a) && |a| < 0x1_0000_0000
    requires at.slots[SlotOf(fields, i)].Choice?
    ensures AlwaysMerges(fields, i, at, a) <==>
            RequiredSeen(fields[i].sub, {})
            && Decode(fields[i].sub, a).value == Defaults(fields[i].sub, |fields[i].sub|)
  {
    EmptySecond(fields, i, at, a);
    if RequiredSeen(fields[i].sub, {}) && Decode(fields[i].sub, a).value == Defaults(fields[i].sub, |fields[i].sub|) {
      forall b | |a| + |b| < 0x1_0000_0000
        ensures Merges(fields, i, at, a, b)
      {
        GoesOnWithoutRequired(fields[i].sub, a, b, Base(fields[i], at.slots[SlotOf(fields, i)]).slots);
        TwoOccurrences(fields, i, at, a, b);
        SecondStartsFrom(fields, i, at, a, b);
        OneOccurrence(fields, i, at, a + b);
      }
    }
  }

  // Fields that hold no submessage, and oneof members of any type.

  /** The value replaces whatever the slot held: it is not merged, and no array. */
  predicate Replaces(f: Field, slot: Slot) {
    slot.Choice? || (!slot.Rep? && !f.ltype.TSubmessage?)
  }

  lemma {:induction false} ValueReplaces(fields: seq<Field>, i: nat, v: Value, at: Progress)
    requires WellFormed(fields) && i < |fields| && SlotOf(fields, i) < |at.slots|
    requires ValueOk(fields[i], v) && Replaces(fields[i], at.slots[SlotOf(fields, i)])
    ensures EncodeTagged(fields[i], v).Bytes?
    ensures |EncodeTagged(fields[i], v).bytes| < 0x1_0000_0000 ==>
              var f, k := fields[i], SlotOf(fields, i);
              Leads(fields, EncodeTagged(f, v).bytes, at,
                    Progress(at.slots[k := Filled(f, at.slots[k], NormValue(f, v))], SeenWith(fields, i, at.seen)))
  {
    var f, k := fields[i], SlotOf(fields, i);
    FieldIsOk(fields, i);
    ValueRoundTrip(f, v);
    var payload := EncodeValue(f, v).bytes;
    if |EncodeTagged(f, v).bytes| < 0x1_0000_0000 {
      RecordDecodes(fields, i, WireTypeOf(f.ltype), payload, at, Filled(f, at.slots[k], NormValue(f, v)));
    }
  }

  /** The last one wins: of two values for one field, or for two members of one oneof, the
    second is what the struct holds. */
  lemma {:induction false} LastOneWins(fields: seq<Field>, i: nat, v: Value, j: nat, w: Value, at: Progress)
    requires WellFormed(fields) && i < |fields| && j < |fields|
    requires SlotOf(fields, i) == SlotOf(fields, j) < |at.slots|
    requires ValueOk(fields[i], v) && Replaces(fields[i], at.slots[SlotOf(fields, i)])
    requires ValueOk(fields[j], w) && Replaces(fields[j], at.slots[SlotOf(fields, j)])
    ensures EncodeTagged(fields[i], v).Bytes? && EncodeTagged(fields[j], w).Bytes?
    ensures var a, b := EncodeTagged(fields[i], v).bytes, EncodeTagged(fields[j], w).bytes;
            |a| < 0x1_0000_0000 && |b| < 0x1_0000_0000 ==>
              var k := SlotOf(fields, j);
              DecodeLoop(fields, a + b, at) ==
              Done(Progress(at.slots[k := Filled(fields[j], at.slots[k], NormValue(fields[j], w))],
                            SeenWith(fields, j, SeenWith(fields, i, at.seen))), [])
  {
    var k := SlotOf(fields, i);
    var mid := Progress(at.slots[k := Filled(fields[i], at.slots[k], NormValue(fields[i], v))],
                        SeenWith(fields, i, at.seen));
    ValueReplaces(fields, i, v, at);
    ValueReplaces(fields, j, w, mid);
    var a, b := EncodeTagged(fields[i], v).bytes, EncodeTagged(fields[j], w).bytes;
    if |a| < 0x1_0000_0000 && |b| < 0x1_0000_0000 {
      var last := Filled(fields[j], at.slots[k], NormValue(fields[j], w));
      LeadsOn(fields, a, b, at, mid, Progress(mid.slots[k := last], SeenWith(fields, j, mid.seen)));
      assert mid.slots[k := last] == at.slots[k := last];
    }
  }

  // An instance: a message whose field 3 is a oneof member with two optional numbers.

  predicate TwoNumbers(fields: seq<Field>) {
    |fields| == 2 && forall i :: 0 <= i < 2 ==> fields[i] == Field(i + 1, TVarint, Optional, 4, -4, 4, 0, [], Unset)
  }

  predicate ChoiceOfNumbers(fields: seq<Field>) {
    |fields| == 1 && TwoNumbers(fields[0].sub)
    && fields == [Field(3, TSubmessage, Oneof, 4, -4, 16, 0, fields[0].sub, Unset)]
  }

  lemma {:induction false} NumberRecord(pair: seq<Field>, i: nat, n: nat, s: seq<byte>, rest: seq<byte>, at: Progress)
    requires TwoNumbers(pair) && i < 2 && n < 128 && |at.slots| == 2 && at.slots[i].Opt?
    requires s == [8 * i + 8, n] + rest
    ensures DecodeLoop(pair, s, at) == DecodeLoop(pair, rest, Progress(at.slots[i := Opt(true, Num(n))], at.seen))
  {
    assert s[1..] == [n] + rest && ([n] + rest)[1..] == rest;
    assert SlotOf(pair, 1) == SlotOf(pair, 0) + 1;
    assert ReadTag(s) == Done(Tag(i + 1, 0), [n] + rest);
    assert Find(pair, i + 1) <= i && Matches(pair[i], i + 1);
    assert Read([n] + rest) == Done(n, rest);
    assert ReadNumber(pair[i], [n] + rest) == Done(Num(n), rest);
    assert DecodeField(pair[i], [n] + rest, 0, at.slots[i]) == Done(Opt(true, Num(n)), rest);
  }

  lemma {:induction false} NumbersStart(pair: seq<Field>)
    requires TwoNumbers(pair)
    ensures Defaults(pair, |pair|) == [Opt(false, Num(0)), Opt(false, Num(0))]
    ensures RequiredSeen(pair, {})
  {
    assert Defaults(pair, 0) == [];
    assert Defaults(pair, 1) == [DefaultSlot(pair[0])];
    assert DefaultSlot(pair[0]) == DefaultSlot(pair[1]) == Opt(false, Num(0));
  }

  /** One number on its own. */
  lemma {:induction false} OneNumber(pair: seq<Field>, i: nat, n: nat, s: seq<byte>)
    requires TwoNumbers(pair) && i < 2 && n < 128 && s == [8 * i + 8, n]
    ensures Decode(pair, s) == Done([Opt(false, Num(0)), Opt(false, Num(0))][i := Opt(true, Num(n))], [])
  {
    NumbersStart(pair);
    NumberRecord(pair, i, n, s, [], Progress([Opt(false, Num(0)), Opt(false, Num(0))], {}));
  }

  /** Both numbers. */
  lemma {:induction false} BothNumbers(pair: seq<Field>, n: nat, k: nat, s: seq<byte>)
    requires TwoNumbers(pair) && n < 128 && k < 128 && s == [8, n, 16, k]
    ensures Decode(pair, s) == Done([Opt(true, Num(n)), Opt(true, Num(k))], [])
  {
    var none, first := [Opt(false, Num(0)), Opt(false, Num(0))], [Opt(true, Num(n)), Opt(false, Num(0))];
    NumbersStart(pair);
    NumberRecord(pair, 0, n, s, [16, k], Progress(none, {}));
    assert none[0 := Opt(true, Num(n))] == first;
    NumberRecord(pair, 1, k, [16, k], [], Progress(first, {}));
    assert first[1 := Opt(true, Num(k))] == [Opt(true, Num(n)), Opt(true, Num(k))];
  }

  lemma {:induction false} ChoiceOfNumbersOk(fields: seq<Field>)
    requires ChoiceOfNumbers(fields)
    ensures WellFormed(fields) && HoldsOne(fields, 0, Progress([Choice(0, Unset)], {}))
    ensures Defaults(fields, 1) == [Choice(0, Unset)]
  {
    var pair := fields[0].sub;
    assert FieldOk(pair[0]) && FieldOk(pair[1]) && WellFormed(pair);
    assert FieldOk(fields[0]);
    assert Defaults(fields, 0) == [];
  }

  lemma {:induction false} OccurrenceBytes(f: Field, payload: seq<byte>)
    requires f.tag == 3 && |payload| < 128
    ensures Occurrence(f, payload) == [26, |payload|] + payload
  {
  }

  /** One record, from the start. */
  lemma {:induction false} ChoiceIs(fields: seq<Field>, s: seq<byte>, payload: seq<byte>, r: seq<Slot>)
    requires ChoiceOfNumbers(fields) && |payload| < 128 && s == [26, |payload|] + payload
    requires Decode(fields[0].sub, payload) == Done(r, [])
    ensures Decode(fields, s) == Done([Choice(3, Sub(r))], [])
  {
    var at := Progress([Choice(0, Unset)], {});
    ChoiceOfNumbersOk(fields);
    OccurrenceBytes(fields[0], payload);
    OneOccurrence(fields, 0, at, payload);
    assert at.slots[0 := Choice(3, Sub(r))] == [Choice(3, Sub(r))];
  }

  lemma {:induction false} SecondStays(fields: seq<Field>, s: seq<byte>, a: seq<byte>, b: seq<byte>, r: seq<Slot>)
    requires ChoiceOfNumbers(fields) && |a| < 128 && |b| < 128 && s == [26, |a|] + a + [26, |b|] + b
    requires Decode(fields[0].sub, a).Done? && Decode(fields[0].sub, b) == Done(r, [])
    ensures Decode(fields, s) == Done([Choice(3, Sub(r))], [])
  {
    ChoiceOfNumbersOk(fields);
    OccurrenceBytes(fields[0], a);
    OccurrenceBytes(fields[0], b);
    assert s == Occurrence(fields[0], a) + Occurrence(fields[0], b);
    OneofStartsOver(fields, 0, Progress([Choice(0, Unset)], {}), a, b);
    ChoiceIs(fields, Occurrence(fields[0], b), b, r);
  }

  /** The first record sets the first number, the second record the second: the first is lost.
    One record that sets both keeps both. */
  lemma {:induction false} SecondClearsFirst(fields: seq<Field>, twice: seq<byte>, once: seq<byte>)
    requires ChoiceOfNumbers(fields)
    requires twice == [26, 2, 8, 1, 26, 2, 16, 2] && once == [26, 4, 8, 1, 16, 2]
    ensures Decode(fields, twice) == Done([Choice(3, Sub([Opt(false, Num(0)), Opt(true, Num(2))]))], [])
    ensures Decode(fields, once) == Done([Choice(3, Sub([Opt(true, Num(1)), Opt(true, Num(2))]))], [])
  {
    var a, b, both := twice[2..4], twice[6..], once[2..];
    OneNumber(fields[0].sub, 0, 1, a);
    OneNumber(fields[0].sub, 1, 2, b);
    assert [Opt(false, Num(0)), Opt(false, Num(0))][1 := Opt(true, Num(2))] == [Opt(false, Num(0)), Opt(true, Num(2))];
    SecondStays(fields, twice, a, b, [Opt(false, Num(0)), Opt(true, Num(2))]);
    BothNumbers(fields[0].sub, 1, 2, both);
    ChoiceIs(fields, once, both, [Opt(true, Num(1)), Opt(true, Num(2))]);
  }
}
