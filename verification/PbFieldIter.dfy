/** pb_field_iter_t: a circular walk over a descriptor that keeps its place in the struct. */
module FieldIter {
  import opened Descriptor
  import opened Decoding

  // Where a straight walk from the first field arrives.

  /** Bytes the field takes in the struct. */
  function Extent(f: Field): nat {
    if f.htype.Repeated? then f.dataSize * f.arraySize else f.dataSize
  }

  /** Address of the data of field i. */
  function DataAt(fields: seq<Field>, base: int, i: nat): int
    requires i < |fields|
  {
    if i == 0 then base + fields[0].dataOffset
    else if Joined(fields, i) then DataAt(fields, base, i - 1)
    else DataAt(fields, base, i - 1) + Extent(fields[i - 1]) + fields[i].dataOffset
  }

  /** Address of its has_ flag, count or which_ tag. */
  function SizeAt(fields: seq<Field>, base: int, i: nat): int
    requires i < |fields|
  {
    if i > 0 && Joined(fields, i) then SizeAt(fields, base, i - 1)
    else DataAt(fields, base, i) + fields[i].sizeOffset
  }

  lemma {:induction false} DataAscends(fields: seq<Field>, base: int, i: nat, j: nat)
    requires i <= j < |fields|
    ensures DataAt(fields, base, i) <= DataAt(fields, base, j)
  {
    if i == j {
    } else {
      DataAscends(fields, base, i, j - 1);
    }
  }

  /** No two fields overlap, unless they are members of one union: those share an address. An
    array takes the bytes of all its entries. */
  lemma {:induction false} FieldsAreApart(fields: seq<Field>, base: int, i: nat, j: nat)
    requires i < j < |fields|
    ensures var f := fields[i];
            var bytes := if f.htype.Repeated? then f.dataSize * f.arraySize else f.dataSize;
            !Joined(fields, i + 1) ==> DataAt(fields, base, i) + bytes <= DataAt(fields, base, j)
    ensures Joined(fields, i + 1) ==>
              DataAt(fields, base, i + 1) == DataAt(fields, base, i)
              && SizeAt(fields, base, i + 1) == SizeAt(fields, base, i)
  {
    DataAscends(fields, base, i + 1, j);
  }

  class Iter {
    const start: seq<Field>
    const destStruct: int
    var pos: nat
    var requiredFieldIndex: nat
    var pData: int
    var pSize: int

    /** The iterator is where a straight walk to pos would have put it. */
    predicate Valid()
      reads this
    {
      if start == [] then
        pos == 0 && requiredFieldIndex == 0
      else
        && pos < |start|
        && pData == DataAt(start, destStruct, pos)
        && pSize == SizeAt(start, destStruct, pos)
        && requiredFieldIndex == RequiredBefore(start, pos)
    }

    constructor (fields: seq<Field>, base: int)
      ensures start == fields && destStruct == base && pos == 0 && Valid()
    {
      start, destStruct := fields, base;
      pos, requiredFieldIndex := 0, 0;
      pData := base + if fields == [] then 0 else fields[0].dataOffset;
      pSize := base + if fields == [] then 0 else fields[0].dataOffset + fields[0].sizeOffset;
    }

    /** pb_field_iter_begin. */
    method Begin() returns (ok: bool)
      modifies this
      ensures Valid() && pos == 0 && ok == (start != [])
    {
      pos, requiredFieldIndex := 0, 0;
      ok := start != [];
      if ok {
        pData := destStruct + start[0].dataOffset;
        pSize := pData + start[0].sizeOffset;
      }
    }

    /** pb_field_iter_next: one field on, or back to the beginning. */
    method Next() returns (ok: bool)
      requires Valid()
      modifies this
      ensures Valid()
      ensures ok == (old(pos) + 1 < |start|)
      ensures pos == if ok then old(pos) + 1 else 0
    {
      if start == [] {
        return false;
      }
      var prev := start[pos];
      pos := pos + 1;
      if pos == |start| {
        ok := Begin();
        return false;
      }
      var prevSize := prev.dataSize;
      if prev.htype.Oneof? && start[pos].htype.Oneof? && start[pos].dataOffset == SIZE_MAX {
        return true;
      } else if prev.htype.Repeated? {
        prevSize := prevSize * prev.arraySize;
      }
      if prev.htype.Required? {
        requiredFieldIndex := requiredFieldIndex + 1;
      }
      pData := pData + prevSize + start[pos].dataOffset;
      pSize := pData + start[pos].sizeOffset;
      return true;
    }

    /** pb_field_iter_find. Wherever the iterator stands, the search ends within one lap;
      it succeeds if and only if some field matches, and then everything the iterator
      holds is what a straight walk to that field gives. Without fields the iterator stays
      at the end mark, which tag 0 matches. */
    method FindTag(tag: nat) returns (found: bool)
      requires Valid()
      modifies this
      ensures Valid()
      ensures found <==> FindsEnd(start, tag) || exists i :: 0 <= i < |start| && Matches(start[i], tag)
      ensures found && start != [] ==> pos < |start| && Matches(start[pos], tag)
      ensures found && start != [] ==>
                pData == DataAt(start, destStruct, pos) && pSize == SizeAt(start, destStruct, pos)
      ensures found ==> requiredFieldIndex == RequiredBefore(start, pos)
      ensures !found ==> pos == old(pos)
    {
      if start == [] {
        return tag == 0;
      }
      var first := pos;
      ghost var steps := 0;
      while true
        invariant Valid() && first < |start|
        invariant steps < |start|
        invariant pos == Around(first, steps, |start|)
        invariant forall j :: 0 <= j < steps ==> !Matches(start[Around(first, j, |start|)], tag)
        decreases |start| - steps
      {
        if Matches(start[pos], tag) {
          return true;
        }
        var ok := Next();
        steps := steps + 1;
        if pos == first {
          break;
        }
      }
      NoneInLap(start, first, steps, tag);
      found := false;
    }

    /** The end of pb_decode_noinit: how many required fields there are, counted by running
      on to the last field from wherever the iterator stands. */
    method CountRequired() returns (count: nat)
      requires Valid()
      modifies this
      ensures Valid() && count == RequiredBefore(start, |start|)
    {
      if start == [] {
        return 0;
      }
      var last := start[pos].htype;
      count := requiredFieldIndex;
      var more := Next();
      while more
        invariant Valid()
        invariant more ==> pos > 0 && count == RequiredBefore(start, pos - 1) && last == start[pos - 1].htype
        invariant !more ==> pos == 0 && count == RequiredBefore(start, |start| - 1) && last == start[|start| - 1].htype
        decreases more, |start| - pos
      {
        count := requiredFieldIndex;
        last := start[pos].htype;
        more := Next();
      }
      if last.Required? {
        count := count + 1;
      }
    }
  }

  /** The position j steps after first, going round. */
  function Around(first: nat, j: nat, n: nat): (p: nat)
    requires first < n && j <= n
    ensures p < n
  {
    if first + j < n then first + j else first + j - n
  }

  /** A lap visits every position. */
  lemma {:induction false} NoneInLap(fields: seq<Field>, first: nat, steps: nat, tag: nat)
    requires first < |fields| && 0 < steps <= |fields| && Around(first, steps, |fields|) == first
    requires forall j :: 0 <= j < steps ==> !Matches(fields[Around(first, j, |fields|)], tag)
    ensures forall i :: 0 <= i < |fields| ==> !Matches(fields[i], tag)
  {
    assert steps == |fields|;
    forall i | 0 <= i < |fields|
      ensures !Matches(fields[i], tag)
    {
      var j := if first <= i then i - first else i + |fields| - first;
      assert Around(first, j, |fields|) == i;
    }
  }
}
