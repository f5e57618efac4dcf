// The Internet checksum (src/utils.c, calculate_checksum) against section 1 of RFC 1071.

module Checksum {
  import opened Wire

  // Place value of byte i in the 16-bit big-endian word that holds it.
  function Weight(i: nat): (w: nat)
  {
    if i % 2 == 0 then 0x100 else 1
  }

  // The plain integer sum of the words, a trailing odd byte being padded with zero.
  function WordSum(s: seq<Byte>): nat
  {
    if s == [] then 0
    else WordSum(s[..|s| - 1]) + Weight(|s| - 1) * s[|s| - 1]
  }

  // One's complement addition of 16-bit words: the carry is added back in.
  function OnesAdd(a: U16, b: U16): U16
  {
    if a + b > 0xFFFF then a + b - 0xFFFF else a + b
  }

  // The one's complement sum of section 1 of RFC 1071.
  function OnesSum(s: seq<Byte>): U16
  {
    if s == [] then 0
    else if |s| % 2 == 1 then OnesAdd(OnesSum(s[..|s| - 1]), Word16(s[|s| - 1], 0))
    else OnesAdd(OnesSum(s[..|s| - 2]), Word16(s[|s| - 2], s[|s| - 1]))
  }

  // The representative of n modulo 65535 that a carry-folding sum ends on: zero only for n == 0.
  function Canon(n: nat): (r: U16)
    ensures r == 0 <==> n == 0
  {
    if n <= 0xFFFF then n else Canon(n - 0xFFFF)
  }

  lemma {:induction false} CanonMultiple(n: nat) returns (k: nat)
    ensures n == Canon(n) + 0xFFFF * k
  {
    if n <= 0xFFFF {
      k := 0;
    } else {
      k := CanonMultiple(n - 0xFFFF);
      k := k + 1;
    }
  }

  lemma CanonCongruent(n: nat)
    ensures Canon(n) % 0xFFFF == n % 0xFFFF
  {
    var k := CanonMultiple(n);
    SameRemainder(Canon(n), k);
  }

  lemma {:induction false} SameRemainder(r: nat, k: nat)
    ensures (r + 0xFFFF * k) % 0xFFFF == r % 0xFFFF
  {
    if k > 0 {
      SameRemainder(r, k - 1);
      assert (r + 0xFFFF * (k - 1) + 0xFFFF) % 0xFFFF == (r + 0xFFFF * (k - 1)) % 0xFFFF;
    }
  }

  lemma {:induction false} CanonStep(n: nat, w: U16)
    ensures OnesAdd(Canon(n), w) == Canon(n + w)
  {
    if n > 0xFFFF {
      CanonStep(n - 0xFFFF, w);
    }
  }

  // Splitting off the carry of one 16-bit addition.
  lemma Carry(sum: nat)
    requires sum <= 0x1_FFFE
    ensures sum % 0x1_0000 == (if sum > 0xFFFF then sum - 0x1_0000 else sum)
    ensures sum / 0x1_0000 == (if sum > 0xFFFF then 1 else 0)
  {
  }

  lemma {:induction false} WordSumLastWord(s: seq<Byte>)
    requires |s| >= 2 && |s| % 2 == 0
    ensures WordSum(s) == WordSum(s[..|s| - 2]) + (0x100 * s[|s| - 2] as int + s[|s| - 1])
  {
    var front := s[..|s| - 1];
    assert front[..|front| - 1] == s[..|s| - 2];
    assert WordSum(front) == WordSum(s[..|s| - 2]) + 0x100 * s[|s| - 2] as int;
  }

  // The folded sum is determined by the plain sum: congruent modulo 65535,
  // and zero exactly when every byte is zero.
  lemma {:induction false} OnesSumIsCanonical(s: seq<Byte>)
    ensures OnesSum(s) == Canon(WordSum(s))
  {
    if s == [] {
    } else if |s| % 2 == 1 {
      OnesSumIsCanonical(s[..|s| - 1]);
      CanonStep(WordSum(s[..|s| - 1]), Word16(s[|s| - 1], 0));
    } else {
      WordSumLastWord(s);
      OnesSumIsCanonical(s[..|s| - 2]);
      CanonStep(WordSum(s[..|s| - 2]), Word16(s[|s| - 2], s[|s| - 1]));
    }
  }

  lemma {:induction false} WordSumZero(s: seq<Byte>)
    ensures WordSum(s) == 0 <==> forall i :: 0 <= i < |s| ==> s[i] == 0
  {
    if s != [] {
      WordSumZero(s[..|s| - 1]);
    }
  }

  // RFC 1071: the sum is congruent to the word sum, and it is +0 only for all-zero data.
  lemma ChecksumMeaning(s: seq<Byte>)
    ensures OnesSum(s) % 0xFFFF == WordSum(s) % 0xFFFF
    ensures OnesSum(s) == 0 <==> forall i :: 0 <= i < |s| ==> s[i] == 0
  {
    OnesSumIsCanonical(s);
    CanonCongruent(WordSum(s));
    WordSumZero(s);
  }

  lemma {:induction false} WordSumUpdate(s: seq<Byte>, i: nat, v: Byte)
    requires i < |s|
    ensures WordSum(s[i := v]) == WordSum(s) + (v as int - s[i]) * (if i % 2 == 0 then 0x100 else 1)
  {
    var n := |s| - 1;
    if i == n {
      assert s[i := v][..n] == s[..n];
    } else {
      assert s[i := v][..n] == s[..n][i := v];
      WordSumUpdate(s[..n], i, v);
    }
  }

  // calculate_checksum: fold-as-you-go over the first len bytes.
  method CalculateChecksum(data: array<Byte>, len: nat) returns (checksum: U16)
    requires len <= data.Length
    ensures checksum == 0xFFFF - OnesSum(data[..len])
  {
    var sum: int, at: nat, left: nat := 0, 0, len;
    while left > 1
      invariant at + left == len && at % 2 == 0
      invariant 0 <= sum <= 0xFFFF
      invariant sum == OnesSum(data[..at])
    {
      var word := Word16(data[at], data[at + 1]);
      sum := sum + word;
      Carry(sum);
      if sum > 0xFFFF {
        sum := sum % 0x1_0000 + 1;
      }
      assert data[..at + 2][..at] == data[..at];
      at, left := at + 2, left - 2;
    }
    if left > 0 {
      assert data[..len][..at] == data[..at];
      sum := sum + Word16(data[at], 0);
      Carry(sum);
      sum := sum % 0x1_0000 + sum / 0x1_0000;
    }
    assert data[..len] == if left > 0 then data[..at + 1] else data[..at];
    checksum := 0xFFFF - sum;
  }
}
