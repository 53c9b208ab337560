/** Output streams: a buffer with a limit, or no buffer at all when only the size matters. */
module OutputStreams {
  import opened Encoding
  import Varint

  /** pb_ostream_t. buf is null for PB_OSTREAM_SIZING; otherwise the next byte goes to
    buf[state], and at most maxSize bytes may be written in all. */
  class OStream {
    const buf: array?<byte>
    const maxSize: nat
    var state: nat
    var bytesWritten: nat

    constructor (buf: array?<byte>, state: nat, maxSize: nat)
      requires buf != null ==> state + maxSize <= buf.Length
      ensures this.buf == buf && this.maxSize == maxSize && this.state == state && bytesWritten == 0
      ensures Valid()
    {
      this.buf, this.maxSize, this.state, this.bytesWritten := buf, maxSize, state, 0;
    }

    predicate Valid()
      reads this
    {
      buf != null ==> bytesWritten <= maxSize && state + (maxSize - bytesWritten) <= buf.Length
    }

    function Target(): set<object> {
      if buf == null then {} else {buf}
    }

    function Written(): seq<byte>
      reads this, Target()
      requires Valid() && buf != null
    {
      buf[..state]
    }

    /** There is room for n more bytes. */
    predicate Fits(n: nat)
      reads this
    {
      buf == null || bytesWritten + n <= maxSize
    }

    /** The outcome of writing e: success if and only if e is no error and fits; then the
      count has grown by its length, and a buffer has got exactly its bytes. */
    twostate predicate Emitted(e: Output, ok: bool)
      reads this, Target()
    {
      && old(Valid()) && Valid()
      && (ok <==> e.Bytes? && old(Fits(|e.bytes|)))
      && (ok ==> bytesWritten == old(bytesWritten) + |e.bytes|)
      && (ok && buf != null ==> state == old(state) + |e.bytes| && Written() == old(Written()) + e.bytes)
    }

    /** e has been written since the count was count and the buffer held out. */
    ghost predicate Since(e: Output, count: nat, out: seq<byte>)
      reads this, Target()
    {
      && Valid() && e.Bytes? && bytesWritten == count + |e.bytes|
      && (buf != null ==> Written() == out + e.bytes)
    }

    /** e is in error, or too long for what was left then. */
    predicate Refuses(e: Output, count: nat)
    {
      e.Error? || (buf != null && count + |e.bytes| > maxSize)
    }

    /** pb_write. */
    method Write(bytes: seq<byte>) returns (ok: bool)
      requires Valid()
      modifies this, Target()
      ensures Emitted(Bytes(bytes), ok)
    {
      if |bytes| > 0 && buf != null {
        if bytesWritten + |bytes| > maxSize {
          return false;
        }
        var dest := state;
        state := dest + |bytes|;
        var i := 0;
        while i < |bytes|
          invariant i <= |bytes|
          invariant buf[..dest] == old(buf[..state]) && buf[dest..dest + i] == bytes[..i]
          modifies buf
        {
          buf[dest + i] := bytes[i];
          i := i + 1;
        }
        assert buf[..state] == buf[..dest] + buf[dest..state];
      }
      bytesWritten := bytesWritten + |bytes|;
      ok := true;
    }

    /** pb_encode_varint: the groups go to a ten-byte buffer, all with the top bit set; then
      the last one loses it. */
    method EncodeVarint(v: nat) returns (ok: bool)
      requires Valid() && v < 0x1_0000_0000_0000_0000
      modifies this, Target()
      ensures Emitted(Bytes(Varint.Encode(v)), ok)
    {
      if v <= 0x7F {
        ok := Write([v]);
        return;
      }
      var groups := VarintGroups(v);
      ok := Write(groups);
    }
  }

  /** s holds the groups taken off v so far, value is what is left. */
  predicate Groups(s: seq<byte>, value: nat, v: nat) {
    if value != 0 then Varint.Encode(v) == s + Varint.Encode(value)
    else s != [] && s[|s| - 1] >= 128 && Varint.Encode(v) == s[..|s| - 1] + [s[|s| - 1] - 128]
  }

  lemma {:induction false} GroupStep(s: seq<byte>, value: nat, v: nat)
    requires value != 0 && Groups(s, value, v)
    ensures |s| < |Varint.Encode(v)|
    ensures Groups(s + [value % 128 + 128], value / 128, v)
  {
    var next := s + [value % 128 + 128];
    assert next[..|s|] == s;
  }

  method VarintGroups(v: nat) returns (groups: seq<byte>)
    requires 0x7F < v < 0x1_0000_0000_0000_0000
    ensures groups == Varint.Encode(v)
  {
    var buffer := new byte[10](_ => 0);
    var i := TakeGroups(v, buffer);
    ghost var last := buffer[..i];
    buffer[i - 1] := buffer[i - 1] - 128;
    groups := buffer[..i];
    assert groups == last[..i - 1] + [last[i - 1] - 128];
  }

  method TakeGroups(v: nat, buffer: array<byte>) returns (i: nat)
    requires 0 < v < 0x1_0000_0000_0000_0000 && buffer.Length == 10
    modifies buffer
    ensures i <= 10 && Groups(buffer[..i], 0, v)
  {
    var value := v;
    i := 0;
    Varint.EncodeFits(v);
    while value != 0
      invariant i <= 10 && Groups(buffer[..i], value, v)
      decreases value
    {
      ghost var before := buffer[..i];
      GroupStep(before, value, v);
      buffer[i] := value % 128 + 128;
      assert buffer[..i + 1] == before + [value % 128 + 128];
      value := value / 128;
      i := i + 1;
    }
  }
}
