// The wire format (src/protocol.c): a 15-byte big-endian header with the
// checksum at offset 10, then the payload.

module Codec {
  import opened Wrappers
  import opened Wire
  import opened Checksum

  function Bytes16(n: U16): (b: seq<Byte>)
    ensures |b| == 2
  {
    [n / 0x100, n % 0x100]
  }

  function Bytes32(n: U32): (b: seq<Byte>)
    ensures |b| == 4
  {
    Bytes16(n / 0x1_0000) + Bytes16(n % 0x1_0000)
  }

  function Read16(b: seq<Byte>, at: nat): U16
    requires at + 2 <= |b|
  {
    Word16(b[at], b[at + 1])
  }

  function Read32(b: seq<Byte>, at: nat): U32
    requires at + 4 <= |b|
  {
    (Read16(b, at) as int) * 0x1_0000 + Read16(b, at + 2) as int
  }

  lemma RoundTrip16(b: seq<Byte>, at: nat, n: U16)
    requires at + 2 <= |b|
    ensures b[at..at + 2] == Bytes16(n) <==> Read16(b, at) == n
  {
    if b[at..at + 2] == Bytes16(n) {
      assert b[at] == b[at..at + 2][0] && b[at + 1] == b[at..at + 2][1];
    }
  }

  lemma RoundTrip32(b: seq<Byte>, at: nat, n: U32)
    requires at + 4 <= |b|
    ensures b[at..at + 4] == Bytes32(n) <==> Read32(b, at) == n
  {
    var hi, lo := n / 0x1_0000, n % 0x1_0000;
    RoundTrip16(b, at, hi);
    RoundTrip16(b, at + 2, lo);
    assert Bytes32(n) == Bytes16(hi) + Bytes16(lo) && n == hi * 0x1_0000 + lo;
    hide Bytes16, Bytes32;
    assert b[at..at + 4] == b[at..at + 2] + b[at + 2..at + 4];
    if b[at..at + 4] == Bytes16(hi) + Bytes16(lo) {
      assert b[at..at + 2] == (Bytes16(hi) + Bytes16(lo))[..2] == Bytes16(hi);
      assert b[at + 2..at + 4] == (Bytes16(hi) + Bytes16(lo))[2..] == Bytes16(lo);
    }
  }

  // The header and payload of p around a given checksum field.
  function Layout(p: Packet, checksum: U16): (b: seq<Byte>)
    ensures |b| == HEADER_SIZE + |p.payload|
  {
    Bytes32(p.seqNum) + Bytes32(p.ackNum) + Bytes16(p.connId) + Bytes16(checksum)
    + Bytes16(|p.payload|) + [p.flags] + p.payload
  }

  function Serialize(p: Packet): seq<Byte>
  {
    Layout(p, 0xFFFF - OnesSum(Layout(p, 0)))
  }

  function Cleared(b: seq<Byte>): (z: seq<Byte>)
    requires HEADER_SIZE <= |b|
    ensures |z| == |b|
  {
    b[10 := 0][11 := 0]
  }

  // The integrity check: clear the field, recompute, compare.
  predicate ChecksumMatches(b: seq<Byte>)
    requires HEADER_SIZE <= |b|
  {
    0xFFFF - OnesSum(Cleared(b)) == Read16(b, 10)
  }

  function Parse(b: seq<Byte>): Result<Packet>
  {
    if |b| < HEADER_SIZE || |b| > MAX_PACKET_SIZE then Err
    else if !ChecksumMatches(b) then Err
    else
      var len := Read16(b, 12);
      if |b| < HEADER_SIZE + len then Err
      else Ok(Packet(Read32(b, 0), Read32(b, 4), Read16(b, 8), b[14], b[HEADER_SIZE..HEADER_SIZE + len]))
  }

  lemma LayoutFields(p: Packet, checksum: U16)
    ensures var b := Layout(p, checksum);
            && Read32(b, 0) == p.seqNum && Read32(b, 4) == p.ackNum && Read16(b, 8) == p.connId
            && Read16(b, 10) == checksum && Read16(b, 12) == |p.payload| && b[14] == p.flags
            && b[HEADER_SIZE..] == p.payload
  {
    hide Bytes16, Bytes32, Read16, Read32;
    var b := Layout(p, checksum);
    assert b[0..4] == Bytes32(p.seqNum) && b[4..8] == Bytes32(p.ackNum);
    assert b[8..10] == Bytes16(p.connId) && b[10..12] == Bytes16(checksum);
    assert b[12..14] == Bytes16(|p.payload|);
    RoundTrip32(b, 0, p.seqNum);
    RoundTrip32(b, 4, p.ackNum);
    RoundTrip16(b, 8, p.connId);
    RoundTrip16(b, 10, checksum);
    RoundTrip16(b, 12, |p.payload|);
  }

  // The header on the wire, byte by byte: every number big-endian.
  predicate HeaderIs(b: seq<Byte>, seqNum: U32, ackNum: U32, connId: U16, flags: Byte, len: nat)
    requires HEADER_SIZE <= |b|
  {
    && b[0] as int * 0x100_0000 + b[1] as int * 0x1_0000 + b[2] as int * 0x100 + b[3] as int == seqNum
    && b[4] as int * 0x100_0000 + b[5] as int * 0x1_0000 + b[6] as int * 0x100 + b[7] as int == ackNum
    && b[8] as int * 0x100 + b[9] as int == connId
    && b[12] as int * 0x100 + b[13] as int == len
    && b[14] == flags
  }

  lemma HeaderFromReads(b: seq<Byte>)
    requires HEADER_SIZE <= |b|
    ensures HeaderIs(b, Read32(b, 0), Read32(b, 4), Read16(b, 8), b[14], Read16(b, 12))
  {
  }

  // What build_packet puts on the wire: header, checksum complement, payload.
  lemma WireImage(p: Packet)
    ensures var b := Serialize(p);
            && |b| == 15 + |p.payload| && HeaderIs(b, p.seqNum, p.ackNum, p.connId, p.flags, |p.payload|) && b[15..] == p.payload
            && b[10] as int * 0x100 + b[11] as int + OnesSum(b[10 := 0][11 := 0]) == 0xFFFF
  {
    hide Bytes16, Bytes32, OnesSum;
    var checksum := 0xFFFF - OnesSum(Layout(p, 0));
    LayoutFields(p, checksum);
    LayoutCleared(p, checksum);
    HeaderFromReads(Serialize(p));
  }

  // What parse_packet takes off it; bytes after the payload are ignored.
  lemma ParsedFields(b: seq<Byte>)
    requires Parse(b).Ok?
    ensures var p := Parse(b).value;
            && 15 + |p.payload| <= |b| <= 1200 && HeaderIs(b, p.seqNum, p.ackNum, p.connId, p.flags, |p.payload|)
            && p.payload == b[15..15 + |p.payload|]
  {
    hide OnesSum;
    HeaderFromReads(b);
  }

  lemma LayoutCleared(p: Packet, checksum: U16)
    ensures Cleared(Layout(p, checksum)) == Layout(p, 0)
  {
    hide Bytes32;
    var b := Layout(p, checksum);
    assert b[10 := 0][11 := 0] == b[..10] + [0, 0] + b[12..];
    LayoutPatch(p, checksum);
    assert Bytes16(0) == [0, 0];
    hide Bytes16;
    assert b[..10] == Layout(p, 0)[..10] && b[12..] == Layout(p, 0)[12..];
  }

  lemma LayoutPatch(p: Packet, checksum: U16)
    ensures Layout(p, 0)[..10] + Bytes16(checksum) + Layout(p, 0)[12..] == Layout(p, checksum)
  {
    hide Bytes16, Bytes32;
  }

  // Parsing what build_packet wrote gives back every field and the payload.
  lemma ParseSerialize(p: Packet)
    ensures Parse(Serialize(p)) == Ok(p)
  {
    hide Bytes16, Bytes32, Read32, OnesSum;
    var checksum := 0xFFFF - OnesSum(Layout(p, 0));
    LayoutFields(p, checksum);
    LayoutCleared(p, checksum);
    hide Layout;
    var b := Layout(p, checksum);
    assert b[HEADER_SIZE..HEADER_SIZE + |p.payload|] == b[HEADER_SIZE..];
  }

  // Rebuilding an accepted buffer with no bytes after the payload gives it back exactly.
  lemma SerializeParse(b: seq<Byte>)
    requires Parse(b).Ok? && |b| == HEADER_SIZE + |Parse(b).value.payload|
    ensures Serialize(Parse(b).value) == b
  {
    hide Bytes16, Bytes32, Read16, Read32, OnesSum;
    var p := Parse(b).value;
    var checksum := Read16(b, 10);
    RoundTrip32(b, 0, p.seqNum);
    RoundTrip32(b, 4, p.ackNum);
    RoundTrip16(b, 8, p.connId);
    RoundTrip16(b, 10, checksum);
    RoundTrip16(b, 12, |p.payload|);
    assert b == b[0..4] + b[4..8] + b[8..10] + b[10..12] + b[12..14] + [b[14]] + b[HEADER_SIZE..];
    assert b == Layout(p, checksum);
    LayoutCleared(p, checksum);
  }

  // Different packets never share a wire image.
  lemma SerializeInjective(p: Packet, q: Packet)
    requires Serialize(p) == Serialize(q)
    ensures p == q
  {
    ParseSerialize(p);
    ParseSerialize(q);
  }

  lemma {:induction false} ClearedWordSum(b: seq<Byte>)
    requires HEADER_SIZE <= |b|
    ensures WordSum(b) == WordSum(Cleared(b)) + Read16(b, 10)
  {
    WordSumUpdate(b, 10, 0);
    WordSumUpdate(b[10 := 0], 11, 0);
    assert b[10 := 0][11] == b[11];
  }

  // The check of parse_packet against the check of section 1 of RFC 1071
  // ("the sum over everything, field included, is all ones"): the same set of
  // buffers, less those whose field is FFFF while the rest already sums to FFFF.
  lemma {:induction false} ReceiverCheck(b: seq<Byte>)
    requires HEADER_SIZE <= |b|
    ensures ChecksumMatches(b) <==>
            OnesSum(b) == 0xFFFF && !(Read16(b, 10) == 0xFFFF && OnesSum(Cleared(b)) == 0xFFFF)
  {
    ClearedWordSum(b);
    OnesSumIsCanonical(b);
    OnesSumIsCanonical(Cleared(b));
    CanonStep(WordSum(Cleared(b)), Read16(b, 10));
  }

  // ---- the two functions over caller-supplied buffers ----

  method CopyBytes(src: array<Byte>, from: nat, dst: array<Byte>, to: nat, n: nat)
    requires src != dst && from + n <= src.Length && to + n <= dst.Length
    modifies dst
    ensures dst[..to] == old(dst[..to]) && dst[to..to + n] == src[from..from + n]
    ensures dst[to + n..] == old(dst[to + n..])
  {
    forall i | 0 <= i < n {
      dst[to + i] := src[from + i];
    }
  }

  method StoreBytes(bytes: seq<Byte>, dst: array<Byte>, to: nat)
    requires to + |bytes| <= dst.Length
    modifies dst
    ensures dst[..] == old(dst[..to]) + bytes + old(dst[to + |bytes|..])
  {
    forall i | 0 <= i < |bytes| {
      dst[to + i] := bytes[i];
    }
  }

  // Stores the checksum field of a packet laid out with the field clear.
  method PatchChecksum(out: array<Byte>, n: nat, checksum: U16, ghost p: Packet)
    requires n <= out.Length && out[..n] == Layout(p, 0)
    modifies out
    ensures out[..n] == Layout(p, checksum) && out[n..] == old(out[n..])
  {
    ghost var filled := out[..];
    StoreBytes(Bytes16(checksum), out, 10);
    assert out[..] == filled[..10] + Bytes16(checksum) + filled[12..];
    assert out[n..] == filled[n..];
    assert out[..n] == filled[..n][..10] + Bytes16(checksum) + filled[..n][12..];
    LayoutPatch(p, checksum);
  }

  // The packet the caller asks for: a null payload leaves that area of the buffer as it was.
  ghost function Requested(seqNum: U32, ackNum: U32, connId: U16, flags: Byte,
                           payload: array?<Byte>, payloadLen: U16, out: array<Byte>): Packet
    requires payloadLen <= MAX_PAYLOAD && HEADER_SIZE + payloadLen <= out.Length
    requires payload != null ==> payloadLen <= payload.Length
    reads payload, out
  {
    Packet(seqNum, ackNum, connId, flags,
           if payload != null then payload[..payloadLen] else out[HEADER_SIZE..HEADER_SIZE + payloadLen])
  }

  // The two memcpy calls of build_packet: header with a clear checksum field, then payload.
  method LayOut(seqNum: U32, ackNum: U32, connId: U16, flags: Byte,
                payload: array?<Byte>, payloadLen: U16, out: array<Byte>)
    requires payloadLen <= MAX_PAYLOAD && HEADER_SIZE + payloadLen <= out.Length
    requires payload != null ==> payload != out && payloadLen <= payload.Length
    modifies out
    ensures out[..HEADER_SIZE + payloadLen] == Layout(old(Requested(seqNum, ackNum, connId, flags, payload, payloadLen, out)), 0)
    ensures out[HEADER_SIZE + payloadLen..] == old(out[HEADER_SIZE + payloadLen..])
  {
    hide Bytes16, Bytes32;
    ghost var p := Requested(seqNum, ackNum, connId, flags, payload, payloadLen, out);
    var header := Bytes32(seqNum) + Bytes32(ackNum) + Bytes16(connId) + Bytes16(0) + Bytes16(payloadLen) + [flags];
    ghost var was := out[..];
    StoreBytes(header, out, 0);
    assert out[..HEADER_SIZE] == header && out[HEADER_SIZE..] == was[HEADER_SIZE..];
    label stored:
    if payloadLen > 0 && payload != null {
      CopyBytes(payload, 0, out, HEADER_SIZE, payloadLen);
    }
    assert out[HEADER_SIZE + payloadLen..] == old@stored(out[HEADER_SIZE..])[payloadLen..];
    assert out[..HEADER_SIZE] == header && out[HEADER_SIZE..HEADER_SIZE + payloadLen] == p.payload;
    assert out[..HEADER_SIZE + payloadLen] == out[..HEADER_SIZE] + out[HEADER_SIZE..HEADER_SIZE + payloadLen];
  }

  // build_packet.
  method BuildPacket(seqNum: U32, ackNum: U32, connId: U16, flags: Byte,
                     payload: array?<Byte>, payloadLen: U16, out: array<Byte>) returns (n: nat)
    requires payloadLen <= MAX_PAYLOAD && HEADER_SIZE + payloadLen <= out.Length
    requires payload != null ==> payload != out && payloadLen <= payload.Length
    modifies out
    ensures n == HEADER_SIZE + payloadLen
    ensures out[..n] == Serialize(old(Requested(seqNum, ackNum, connId, flags, payload, payloadLen, out)))
    ensures HeaderIs(out[..n], seqNum, ackNum, connId, flags, payloadLen)
    ensures out[n..] == old(out[n..])
  {
    hide HeaderIs, Serialize, Bytes16, Bytes32;
    n := HEADER_SIZE + payloadLen;
    ghost var p := Requested(seqNum, ackNum, connId, flags, payload, payloadLen, out);
    LayOut(seqNum, ackNum, connId, flags, payload, payloadLen, out);
    var checksum := CalculateChecksum(out, n);
    PatchChecksum(out, n, checksum, p);
    SerializeLayout(p, checksum);
    WireImage(p);
  }

  lemma SerializeLayout(p: Packet, checksum: U16)
    requires checksum == 0xFFFF - OnesSum(Layout(p, 0))
    ensures Layout(p, checksum) == Serialize(p)
  {
  }

  // The integrity check on a scratch copy, as parse_packet makes it.
  method CheckIntegrity(input: array<Byte>, totalLen: nat) returns (intact: bool)
    requires HEADER_SIZE <= totalLen <= MAX_PACKET_SIZE && totalLen <= input.Length
    ensures intact == ChecksumMatches(input[..totalLen])
  {
    var scratch := new Byte[MAX_PACKET_SIZE];
    CopyBytes(input, 0, scratch, 0, totalLen);
    var obtained := Word16(scratch[10], scratch[11]);
    ghost var wire := input[..totalLen];
    assert scratch[..totalLen] == wire;
    scratch[10], scratch[11] := 0, 0;
    assert scratch[..totalLen] == Cleared(wire);
    var checksum := CalculateChecksum(scratch, totalLen);
    intact := checksum == obtained;
  }

  // parse_packet. The result code is 0 or -EX_DATAERR; payload bytes are copied
  // out only when the whole packet is accepted.
  method ParsePacket(input: array<Byte>, payload: array?<Byte>, totalLen: nat)
    returns (code: int, seqNum: U32, ackNum: U32, connId: U16, flags: Byte, payloadLen: nat)
    requires totalLen <= input.Length
    requires payload != null ==> payload != input && MAX_PAYLOAD <= payload.Length
    modifies payload
    ensures code == 0 || code == -EX_DATAERR
    ensures code == 0 <==> Parse(input[..totalLen]).Ok?
    ensures code == 0 ==>
              var p := Parse(input[..totalLen]).value;
              && (seqNum, ackNum, connId, flags, payloadLen) == (p.seqNum, p.ackNum, p.connId, p.flags, |p.payload|)
              && (payload != null ==> payload[..payloadLen] == p.payload && payload[payloadLen..] == old(payload[payloadLen..]))
    ensures code == 0 ==> totalLen >= HEADER_SIZE && HeaderIs(input[..totalLen], seqNum, ackNum, connId, flags, payloadLen)
    ensures code != 0 && payload != null ==> payload[..] == old(payload[..])
  {
    code, seqNum, ackNum, connId, flags, payloadLen := -EX_DATAERR, 0, 0, 0, 0, 0;
    if totalLen < HEADER_SIZE || totalLen > MAX_PACKET_SIZE {
      return;
    }
    var intact := CheckIntegrity(input, totalLen);
    if !intact {
      return;
    }
    var wire := input[..totalLen];
    seqNum, ackNum, connId, flags := Read32(wire, 0), Read32(wire, 4), Read16(wire, 8), wire[14];
    var len := Read16(wire, 12);
    if totalLen < HEADER_SIZE + len {
      return;
    }
    code, payloadLen := 0, len;
    assert forall i :: HEADER_SIZE <= i < HEADER_SIZE + len ==> input[i] == wire[i];
    assert input[HEADER_SIZE..HEADER_SIZE + len] == wire[HEADER_SIZE..HEADER_SIZE + len];
    ParsedFields(wire);
    hide Bytes16, Bytes32, Read16, Read32, HeaderIs;
    if len > 0 && payload != null {
      CopyBytes(input, HEADER_SIZE, payload, 0, len);
    }
  }
}
