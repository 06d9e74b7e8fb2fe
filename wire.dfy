/** The packet writer and reader the formats serialise with.
    The writer's own source is not part of this model; its encodings are
    stated here as assumptions:
    - a byte is appended as itself;
    - a 16-bit value (`short` or `ushort`) is appended as its low sixteen
      bits, most significant byte first;
    - `WriteStringA` appends one length byte (the length truncated to a
      byte) followed by the string's bytes, one byte per character. */
module Wire {
  import opened Common

  /** The two bytes a 16-bit write appends for `v`. */
  function U16(v: int): (r: seq<u8>)
    ensures |r| == 2
  {
    var w := ToUShort(v);
    [(w / 0x100), (w % 0x100)]
  }

  /** A 16-bit write reads back as the low sixteen bits of the value. */
  lemma DecodeU16Of(v: int, rest: seq<u8>)
    ensures DecodeU16(U16(v) + rest) == ToUShort(v)
  {
  }

  /** Reads back a 16-bit value from the first two bytes of `s`. */
  function DecodeU16(s: seq<u8>): u16
    requires |s| >= 2
  {
    s[0] as int * 0x100 + s[1] as int
  }

  /** The bytes of a string, one per character (its code truncated to a byte). */
  function StringBytes(s: string): (r: seq<u8>)
    ensures |r| == |s|
    ensures forall i :: 0 <= i < |s| ==> r[i] == ToByte(s[i] as int)
  {
    seq(|s|, i requires 0 <= i < |s| => ToByte(s[i] as int))
  }

  /** What `WriteStringA` appends: a length byte, then the bytes. */
  function StringA(b: seq<u8>): (r: seq<u8>)
    ensures |r| == 1 + |b|
    ensures r[0] == ToByte(|b|)
    ensures r[1..] == b
  {
    [ToByte(|b|)] + b
  }

  /** The bytes each element contributes, in order. */
  function Flatten<T>(xs: seq<T>, f: T -> seq<u8>): seq<u8> {
    if xs == [] then [] else f(xs[0]) + Flatten(xs[1..], f)
  }

  /** Appending an element appends its bytes: the step of a writing loop. */
  lemma {:induction false} FlattenSnoc<T>(xs: seq<T>, x: T, f: T -> seq<u8>)
    ensures Flatten(xs + [x], f) == Flatten(xs, f) + f(x)
  {
    if xs != [] {
      assert (xs + [x])[1..] == xs[1..] + [x];
      FlattenSnoc(xs[1..], x, f);
    }
  }

  lemma AppendAssoc(a: seq<u8>, b: seq<u8>, c: seq<u8>)
    ensures (a + b) + c == a + (b + c)
  {
  }

  /** An outgoing packet's payload: every write appends to `buffer`. */
  class PacketWriter {
    var buffer: seq<u8>

    constructor ()
      ensures buffer == []
    {
      buffer := [];
    }

    method WriteByte(b: u8)
      modifies this
      ensures buffer == old(buffer) + [b]
    {
      buffer := buffer + [b];
    }

    method WriteUInt16(v: int)
      modifies this
      ensures buffer == old(buffer) + U16(v)
    {
      buffer := buffer + U16(v);
    }

    method WriteStringA(s: string)
      modifies this
      ensures buffer == old(buffer) + StringA(StringBytes(s))
    {
      buffer := buffer + StringA(StringBytes(s));
    }
  }

  /** An incoming packet's payload and the read position in it. */
  class PacketReader {
    var data: seq<u8>
    var position: nat

    constructor (payload: seq<u8>)
      ensures data == payload && position == 0
    {
      data := payload;
      position := 0;
    }
  }
}
