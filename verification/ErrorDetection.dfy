// Which damaged copies of a built packet the receiver drops
// (src/protocol.c, parse_packet; src/utils.c, calculate_checksum).

module ErrorDetection {
  import opened Wrappers
  import opened Wire
  import opened Checksum
  import opened Codec

  // d differs from b at most in the two adjacent bytes i and i + 1.
  predicate AdjacentChange(b: seq<Byte>, d: seq<Byte>, i: nat)
  {
    |d| == |b| && i + 1 < |b| && d == b[i := d[i]][i + 1 := d[i + 1]]
  }

  // Both bytes go from 00 to FF or both from FF to 00.
  predicate Flip(b: seq<Byte>, d: seq<Byte>, i: nat)
    requires AdjacentChange(b, d, i)
  {
    || (b[i] == 0 && b[i + 1] == 0 && d[i] == 0xFF && d[i + 1] == 0xFF)
    || (b[i] == 0xFF && b[i + 1] == 0xFF && d[i] == 0 && d[i + 1] == 0)
  }

  lemma {:induction false} MatchMeansMultiple(b: seq<Byte>) returns (k: nat)
    requires HEADER_SIZE <= |b| && ChecksumMatches(b)
    ensures WordSum(b) == 0xFFFF * k
  {
    ClearedWordSum(b);
    OnesSumIsCanonical(Cleared(b));
    k := CanonMultiple(WordSum(Cleared(b)));
    k := k + 1;
  }

  lemma {:induction false} ChangeInSum(b: seq<Byte>, d: seq<Byte>, i: nat)
    requires AdjacentChange(b, d, i)
    ensures WordSum(d) - WordSum(b)
         == (d[i] as int - b[i]) * (if i % 2 == 0 then 0x100 else 1)
            + (d[i + 1] as int - b[i + 1]) * (if i % 2 == 0 then 1 else 0x100)
  {
    WordSumUpdate(b, i, d[i]);
    WordSumUpdate(b[i := d[i]], i + 1, d[i + 1]);
  }

  // Two multiples of 65535 that differ by one word change are equal or a full flip apart.
  lemma SmallDifference(j: nat, k: nat, x: int, y: int)
    requires 0xFFFF * k - 0xFFFF * j == 0x100 * x + y
    requires -0xFF <= x <= 0xFF && -0xFF <= y <= 0xFF
    ensures (x == 0 && y == 0) || (x == 0xFF && y == 0xFF) || (x == -0xFF && y == -0xFF)
  {
    assert -1 <= k - j <= 1;
  }

  // A full flip moves the plain sum by one multiple of 65535, which folding does not see.
  lemma FlipIsInvisible(m: nat, n: nat)
    requires m > 0 && n > 0 && (n - m == 0xFFFF || m - n == 0xFFFF)
    ensures Canon(m) == Canon(n)
  {
  }

  lemma {:induction false} DamageBreaksChecksum(b: seq<Byte>, d: seq<Byte>, i: nat)
    requires HEADER_SIZE <= |b| && ChecksumMatches(b)
    requires AdjacentChange(b, d, i) && d != b && !Flip(b, d, i)
    ensures !ChecksumMatches(d)
  {
    assert b[i := b[i]][i + 1 := b[i + 1]] == b;
    if ChecksumMatches(d) {
      var j := MatchMeansMultiple(b);
      var k := MatchMeansMultiple(d);
      ChangeInSum(b, d, i);
      var x, y := d[i] as int - b[i], d[i + 1] as int - b[i + 1];
      if i % 2 == 0 {
        SmallDifference(j, k, x, y);
      } else {
        SmallDifference(j, k, y, x);
      }
    }
  }

  // Every change confined to two adjacent bytes is dropped, in the header, the
  // checksum field, the payload or the odd tail and across word boundaries,
  // unless both bytes flip between 00 and FF.
  lemma {:induction false} DamageIsDetected(p: Packet, d: seq<Byte>, i: nat)
    requires AdjacentChange(Serialize(p), d, i) && d != Serialize(p) && !Flip(Serialize(p), d, i)
    ensures Parse(d) == Err
  {
    ParseSerialize(p);
    DamageBreaksChecksum(Serialize(p), d, i);
  }

  // Every proper truncation is dropped.
  lemma TruncationIsDetected(p: Packet, k: nat)
    requires k < |Serialize(p)|
    ensures Parse(Serialize(p)[..k]) == Err
  {
    var b := Serialize(p);
    LayoutFields(p, 0xFFFF - OnesSum(Layout(p, 0)));
    if HEADER_SIZE <= k {
      assert Read16(b[..k], 12) == Read16(b, 12);
    }
  }

  lemma {:induction false} FlipKeepsChecksum(b: seq<Byte>, d: seq<Byte>, i: nat)
    requires HEADER_SIZE <= i && AdjacentChange(b, d, i) && Flip(b, d, i)
    requires ChecksumMatches(b) && Read16(b, 12) != 0
    ensures ChecksumMatches(d)
  {
    var y, z := Cleared(b), Cleared(d);
    assert z == y[i := z[i]][i + 1 := z[i + 1]];
    ChangeInSum(y, z, i);
    OnesSumIsCanonical(y);
    OnesSumIsCanonical(z);
    assert y[12] == b[12] && y[13] == b[13] && z[12] == b[12] && z[13] == b[13];
    WordSumZero(y);
    WordSumZero(z);
    FlipIsInvisible(WordSum(y), WordSum(z));
    assert z[10] == y[10] && z[11] == y[11];
  }

  lemma SameHeader(b: seq<Byte>, d: seq<Byte>)
    requires Parse(b).Ok? && |d| == |b| == HEADER_SIZE + |Parse(b).value.payload|
    requires d[..HEADER_SIZE] == b[..HEADER_SIZE] && ChecksumMatches(d)
    ensures Parse(d) == Ok(Parse(b).value.(payload := d[HEADER_SIZE..]))
  {
    assert forall k :: 0 <= k < HEADER_SIZE ==> d[k] == d[..HEADER_SIZE][k] == b[..HEADER_SIZE][k] == b[k];
    assert d[HEADER_SIZE..|d|] == d[HEADER_SIZE..];
  }

  // The exception is real: a flip of two payload bytes is always accepted, as another payload.
  lemma {:induction false} PayloadFlipEscapes(p: Packet, d: seq<Byte>, i: nat)
    requires HEADER_SIZE <= i && AdjacentChange(Serialize(p), d, i) && Flip(Serialize(p), d, i)
    ensures |d| == HEADER_SIZE + |p.payload| && d[HEADER_SIZE..] != p.payload
    ensures Parse(d) == Ok(p.(payload := d[HEADER_SIZE..]))
  {
    var b := Serialize(p);
    assert b[HEADER_SIZE..] == p.payload && Read16(b, 12) == |p.payload| by {
      LayoutFields(p, 0xFFFF - OnesSum(Layout(p, 0)));
    }
    ParseSerialize(p);
    FlipKeepsChecksum(b, d, i);
    SameHeader(b, d);
    assert d[HEADER_SIZE..][i - HEADER_SIZE] != b[HEADER_SIZE..][i - HEADER_SIZE];
  }

  // Nothing but the checksum field is set.
  predicate RestIsZero(d: seq<Byte>)
  {
    forall k :: 0 <= k < |d| && k != 10 && k != 11 ==> d[k] == 0
  }

  // Among buffers whose words sum to a multiple of 65535 the check is decided
  // by the field: FFFF stands for a sum of zero and for nothing else.
  lemma {:induction false} FieldDecides(d: seq<Byte>, k: nat)
    requires HEADER_SIZE <= |d| && WordSum(d) == 0xFFFF * k
    ensures ChecksumMatches(d) <==> (Read16(d, 10) == 0xFFFF <==> RestIsZero(d))
  {
    var z := Cleared(d);
    ClearedWordSum(d);
    OnesSumIsCanonical(z);
    var m := CanonMultiple(WordSum(z));
    assert OnesSum(z) + Read16(d, 10) == 0xFFFF * (k - m);
    WordSumZero(z);
    assert z[10] == 0 && z[11] == 0;
    assert forall k :: 0 <= k < |d| && k != 10 && k != 11 ==> d[k] == z[k];
    assert RestIsZero(d) <==> forall k :: 0 <= k < |z| ==> z[k] == 0;
    Thrice(OnesSum(z) + Read16(d, 10), k - m);
  }

  // What parse_packet accepts, in arithmetic: 15 to 1200 bytes, no fewer than
  // the length field claims, whose words sum to a multiple of 65535, the
  // checksum field being FFFF exactly over all-zero data.
  lemma {:induction false} AcceptedBuffers(b: seq<Byte>)
    ensures Parse(b).Ok? <==>
            && 15 <= |b| <= 1200 && 15 + b[12] as int * 0x100 + b[13] as int <= |b|
            && WordSum(b) % 0xFFFF == 0
            && (b[10] as int * 0x100 + b[11] as int == 0xFFFF <==> RestIsZero(b))
  {
    hide OnesSum, WordSum, RestIsZero;
    if 15 <= |b| {
      if ChecksumMatches(b) {
        var k := MatchMeansMultiple(b);
        SameRemainder(0, k);
        FieldDecides(b, k);
      } else if WordSum(b) % 0xFFFF == 0 {
        FieldDecides(b, WordSum(b) / 0xFFFF);
      }
    }
  }

  lemma Thrice(sum: nat, k: int)
    requires sum == 0xFFFF * k && sum <= 0x1_FFFE
    ensures sum == 0 || sum == 0xFFFF || sum == 0x1_FFFE
  {
  }

  lemma {:induction false} FlipMovesSum(b: seq<Byte>, d: seq<Byte>, i: nat, j: nat) returns (k: nat)
    requires AdjacentChange(b, d, i) && Flip(b, d, i) && WordSum(b) == 0xFFFF * j
    ensures WordSum(d) == 0xFFFF * k
  {
    ChangeInSum(b, d, i);
    if b[i] == 0 {
      k := j + 1;
    } else {
      assert WordSum(d) == 0xFFFF * (j - 1) && j >= 1;
      k := j - 1;
    }
  }

  // Which flips escape, at every offset: not those that make the length field
  // claim more than was sent, and otherwise those that leave the checksum field
  // at FFFF exactly if they leave everything else zero.
  lemma {:induction false} FlipEscapes(p: Packet, d: seq<Byte>, i: nat)
    requires AdjacentChange(Serialize(p), d, i) && Flip(Serialize(p), d, i)
    ensures Parse(d).Ok? <==>
            i != 11 && i != 12 && !(i == 13 && d[13] == 0xFF) && (Read16(d, 10) == 0xFFFF <==> RestIsZero(d))
  {
    hide OnesSum, Layout, WordSum, Read32;
    var b := Serialize(p);
    SerializedLength(p);
    ParseSerialize(p);
    var j := MatchMeansMultiple(b);
    var k := FlipMovesSum(b, d, i, j);
    FieldDecides(d, k);
    LengthAfterFlip(b, d, i, |p.payload|);
  }

  lemma SerializedLength(p: Packet)
    ensures |Serialize(p)| == HEADER_SIZE + |p.payload| && Read16(Serialize(p), 12) == |p.payload|
  {
    LayoutFields(p, 0xFFFF - OnesSum(Layout(p, 0)));
  }

  lemma LengthAfterFlip(b: seq<Byte>, d: seq<Byte>, i: nat, len: nat)
    requires AdjacentChange(b, d, i) && Flip(b, d, i) && |b| == HEADER_SIZE + len && len <= MAX_PAYLOAD && Read16(b, 12) == len
    ensures Read16(d, 12) <= len <==> i != 11 && i != 12 && !(i == 13 && d[13] == 0xFF)
  {
  }

  // What the network may do to one copy of a buffer: pass it on, cut it short,
  // or damage up to two adjacent bytes short of a flip.
  ghost predicate Carried(b: seq<Byte>, d: seq<Byte>)
  {
    || d == b
    || (|d| < |b| && d == b[..|d|])
    || (exists i: nat :: AdjacentChange(b, d, i) && !Flip(b, d, i))
  }

  // So a receiver sees exactly the packet that was sent, or nothing.
  lemma CarriedCopy(p: Packet, d: seq<Byte>)
    requires Carried(Serialize(p), d)
    ensures Parse(d) == Ok(p) || Parse(d) == Err
  {
    ParseSerialize(p);
    var b := Serialize(p);
    if d == b {
    } else if |d| < |b| && d == b[..|d|] {
      TruncationIsDetected(p, |d|);
    } else {
      var i: nat :| AdjacentChange(b, d, i) && !Flip(b, d, i);
      DamageIsDetected(p, d, i);
    }
  }
}
