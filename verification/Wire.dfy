// Fixed-width types, constants and packets shared by every part of the model
// (src/protocol.h, src/window.h, src/client.h, src/server.h).

module Wrappers {
  datatype Option<+T> = None | Some(value: T)

  datatype Result<+T> = Ok(value: T) | Err
}

module Wire {
  type Byte = b: int | 0 <= b < 0x100
  type U16 = n: int | 0 <= n < 0x1_0000
  type U32 = n: int | 0 <= n < 0x1_0000_0000

  const FLAG_SYN: Byte := 1
  const FLAG_ACK: Byte := 2
  const FLAG_FIN: Byte := 4
  const FLAG_DATA: Byte := 8
  const FLAG_SYN_ACK: Byte := 3
  const FLAG_FIN_ACK: Byte := 6

  const HEADER_SIZE: nat := 15
  const MAX_PACKET_SIZE: nat := 1200
  const MAX_PAYLOAD: nat := 1185
  const WINDOW_SIZE: nat := 30
  const ISN_LIMIT: nat := 10000

  // Exit codes of sysexits.h.
  const EX_OK := 0
  const EX_DATAERR := 65
  const EX_SOFTWARE := 70
  const EX_OSERR := 71
  const EX_IOERR := 74
  const EX_PROTOCOL := 76

  type Payload = s: seq<Byte> | |s| <= MAX_PAYLOAD

  // What one successful call of read_chunk yields: 1 to 1185 bytes.
  type Chunk = s: seq<Byte> | 1 <= |s| <= MAX_PAYLOAD witness [0]

  // A packet as both machines see it. The length field is |payload| and the
  // checksum field is computed when the packet is serialized.
  datatype Packet = Packet(seqNum: U32, ackNum: U32, connId: U16, flags: Byte, payload: Payload)

  // Where a datagram comes from or goes to: the other party, or any other address.
  datatype Host = Peer | Stranger

  // The big-endian 16-bit word of two bytes.
  function Word16(hi: Byte, lo: Byte): U16
  {
    (hi as int) * 0x100 + lo as int
  }

  // uint32_t addition.
  function Add32(a: U32, b: U32): (r: U32)
    ensures a + b < 0x1_0000_0000 ==> r == a + b
    ensures a + b >= 0x1_0000_0000 ==> r == a + b - 0x1_0000_0000
  {
    (a + b) % 0x1_0000_0000
  }
}
