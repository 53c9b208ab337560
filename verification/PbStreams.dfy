/** Input and output streams over a buffer, and the primitives that move along them. */
module Streams {
  import opened Bits
  import opened Varint

  /** pb_istream_t over a buffer: what is left is the next bytesLeft bytes from state on.
    A substream shares the buffer. */
  class IStream {
    const buf: seq<byte>
    var state: nat
    var bytesLeft: nat

    constructor (buf: seq<byte>, state: nat, bytesLeft: nat)
      requires state + bytesLeft <= |buf|
      ensures this.buf == buf && this.state == state && this.bytesLeft == bytesLeft
    {
      this.buf, this.state, this.bytesLeft := buf, state, bytesLeft;
    }

    predicate Valid()
      reads this
    {
      state + bytesLeft <= |buf|
    }

    function Rest(): (r: seq<byte>)
      reads this
      requires Valid()
      ensures |r| == bytesLeft
    {
      buf[state..state + bytesLeft]
    }

    /** Where the stream ends; no read moves it. */
    function End(): nat
      reads this
    {
      state + bytesLeft
    }

    method ReadByte() returns (ok: bool, b: byte)
      requires Valid()
      modifies this
      ensures Valid() && End() == old(End())
      ensures ok <==> old(Rest()) != []
      ensures ok ==> b == old(Rest())[0] && Rest() == old(Rest())[1..]
      ensures !ok ==> Rest() == []
    {
      ok, b := bytesLeft != 0, 0;
      if ok {
        b := buf[state];
        state := state + 1;
        bytesLeft := bytesLeft - 1;
      }
    }

    /** pb_read, which also skips: the bytes read, or none at all. */
    method Read(count: nat) returns (ok: bool, bytes: seq<byte>)
      requires Valid()
      modifies this
      ensures Valid() && End() == old(End())
      ensures ok <==> count <= |old(Rest())|
      ensures ok ==> bytes == old(Rest())[..count] && Rest() == old(Rest())[count..]
      ensures !ok ==> Rest() == old(Rest())
    {
      ok, bytes := count == 0 || count <= bytesLeft, [];
      if ok {
        bytes := buf[state..state + count];
        state := state + count;
        bytesLeft := bytesLeft - count;
      }
    }

    /** pb_decode_varint. */
    method DecodeVarint() returns (ok: bool, dest: nat)
      requires Valid()
      modifies this
      ensures Valid() && End() == old(End())
      ensures ok <==> Varint.Read(old(Rest())).Done?
      ensures ok ==> Done(dest, Rest()) == Varint.Read(old(Rest()))
    {
      var bitpos := 0;
      var result := 0;
      var b: byte := 128;
      dest := 0;
      while b >= 128
        invariant Valid() && End() == old(End())
        invariant b >= 128 ==> ReadFrom(Rest(), bitpos, result) == Varint.Read(old(Rest()))
        invariant b < 128 ==> Done(result, Rest()) == Varint.Read(old(Rest()))
        decreases b >= 128, bytesLeft
      {
        if bitpos >= 64 {
          return false, 0;
        }
        var got;
        got, b := ReadByte();
        if !got {
          return false, 0;
        }
        result := Low64(OrShl(result, Low7(b), bitpos));
        bitpos := bitpos + 7;
      }
      ok, dest := true, result;
    }

    /** pb_decode_varint32_eof. The counter is a uint_fast8_t. */
    method DecodeVarint32() returns (ok: bool, dest: nat)
      requires Valid()
      modifies this
      ensures Valid() && End() == old(End())
      ensures ok <==> Read32(old(Rest())).Done?
      ensures ok ==> Done(dest, Rest()) == Read32(old(Rest()))
    {
      var got, b := ReadByte();
      if !got {
        return false, 0;
      }
      if b < 128 {
        return true, b;
      }
      var bitpos: nat := 7;
      var result: nat := Low7(b);
      while b >= 128
        invariant Valid() && End() == old(End())
        invariant b >= 128 ==> Read32From(Rest(), bitpos, result) == Read32(old(Rest()))
        invariant b < 128 ==>
                    Read32(old(Rest())) == if bitpos == 35 && b >= 16 then Fail else Done(result, Rest())
        decreases b >= 128, bytesLeft
      {
        got, b := ReadByte();
        if !got {
          return false, 0;
        }
        if bitpos >= 32 {
          var signExtension := if bitpos < 63 then 0xFF else 0x01;
          if Low7(b) != 0 && (result < 0x8000_0000 || b != signExtension) {
            return false, 0;
          }
        } else {
          result := Low32(OrShl(result, Low7(b), bitpos));
        }
        bitpos := (bitpos + 7) % 256;
      }
      if bitpos == 35 && b >= 16 {
        return false, 0;
      }
      ok, dest := true, result;
    }
  }
}
