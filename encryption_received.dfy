/** The encryption acknowledgement packet (opcode 0x57): its bytes depend
    only on whether the negotiated type is zero. */
module EncryptionAck {
  import opened Common
  import opened Wire

  /** What `Serialize` appends for type `t`: byte, byte, 16-bit zero for
      type 0; byte 1, 16-bit zero, 16-bit zero otherwise. */
  function AckBytes(t: u8): (r: seq<u8>)
    ensures t == 0 ==> r == [0x00, 0x00, 0x00, 0x00]
    ensures t != 0 ==> r == [0x01, 0x00, 0x00, 0x00, 0x00]
    ensures |r| == if t == 0 then 4 else 5
    ensures r[0] == 0 <==> t == 0
  {
    if t == 0 then [0x00] + [0x00] + U16(0) else [0x01] + U16(0) + U16(0)
  }

  /** Every non-zero type gives the same bytes. */
  lemma NonZeroTypesAgree(t1: u8, t2: u8)
    requires t1 != 0 && t2 != 0
    ensures AckBytes(t1) == AckBytes(t2)
  {
  }

  class EncryptionReceived {
    const ackType: u8
    const secured: bool := true
    const command: u8 := 0x57

    constructor (t: u8)
      ensures ackType == t
    {
      ackType := t;
    }

    /** The reader overload consumes nothing. */
    method Read(reader: PacketReader)
      ensures reader.position == old(reader.position) && reader.data == old(reader.data)
    {
    }

    method Serialize(writer: PacketWriter)
      modifies writer
      ensures writer.buffer == old(writer.buffer) + AckBytes(ackType)
    {
      if ackType == 0 {
        writer.WriteByte(0x00);
        writer.WriteByte(0x00);
        writer.WriteUInt16(0x00);
      } else {
        writer.WriteByte(0x01);
        writer.WriteUInt16(0x00);
        writer.WriteUInt16(0x00);
      }
    }
  }
}
