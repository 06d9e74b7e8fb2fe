/** The single-zero-byte packet (opcode 0x49). */
module Keepalive {
  import opened Common
  import opened Wire

  class ServerFormat49 {
    var secured: bool
    var command: u8

    /** The constructor marks the packet secured with command 0x49. */
    constructor ()
      ensures secured && command == 0x49
    {
      secured := true;
      command := 0x49;
    }

    /** The reader overload consumes nothing. */
    method Read(reader: PacketReader)
      ensures reader.position == old(reader.position) && reader.data == old(reader.data)
    {
    }

    /** Appends exactly one byte, `byte.MinValue`, whatever the object's state. */
    method Serialize(writer: PacketWriter)
      modifies writer
      ensures |writer.buffer| == |old(writer.buffer)| + 1
      ensures writer.buffer[..|old(writer.buffer)|] == old(writer.buffer)
      ensures writer.buffer[|old(writer.buffer)|] == 0x00
    {
      writer.WriteByte(0x00);
    }
  }
}
