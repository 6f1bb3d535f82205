/**
  Internet checksums of the transmit path.

  Packets are byte buffers on a little-endian host: checksums are summed over
  little-endian 16-bit words while lengths, identifiers and sequence numbers are
  stored in network order.  The summing loops and the header writes work on the
  packet buffer in place.
 */
module Checksum {
  import opened Modular

  type byte = b: nat | b < 256

  // ------------------------------------------------------------------ reference

  // A 16-bit word from its low and its high byte.
  function Word(low: byte, high: byte): (v: nat)
    ensures v < 0x1_0000
  {
    low + 256 * (high as nat)
  }

  // The sum of the little-endian 16-bit words; an odd last byte is padded with zero.
  function WordSum(s: seq<byte>): nat
    decreases |s|
  {
    if |s| == 0 then 0
    else if |s| == 1 then s[0]
    else Word(s[0], s[1]) + WordSum(s[2..])
  }

  // The one's complement sum of section 1 of RFC 1071: carries are added back in.
  function OnesSum(x: nat): nat {
    if x < 0x1_0000 then x else OnesSum(x / 0x1_0000 + x % 0x1_0000)
  }

  // A received block is accepted when its one's complement sum is all ones.
  ghost predicate Verifies(s: seq<byte>) {
    OnesSum(WordSum(s)) == 0xffff
  }

  lemma {:induction false} OnesSumRange(x: nat)
    ensures OnesSum(x) <= 0xffff
    ensures OnesSum(x) % 0xffff == x % 0xffff
    ensures OnesSum(x) == 0 <==> x == 0
    decreases x
  {
    if x >= 0x1_0000 {
      var q, r := x / 0x1_0000, x % 0x1_0000;
      OnesSumRange(q + r);
      assert x == q + r + q * 0xffff;
      AddMultiple(q + r, q);
    }
  }

  lemma AddMultiple(x: nat, q: nat)
    ensures (x + q * 0xffff) % 0xffff == x % 0xffff
  {
    ModIs(x + q * 0xffff, 0xffff, x / 0xffff + q, x % 0xffff);
  }

  lemma Cancel(x: nat, o: nat)
    requires o <= 0xffff && x % 0xffff == o % 0xffff
    ensures (x + (0xffff - o)) % 0xffff == 0
  {
    ModIs(x + (0xffff - o), 0xffff, x / 0xffff - o / 0xffff + 1, 0);
  }

  lemma SumCongruent(s: nat, t: nat, r: nat, u: nat)
    requires r % 0xffff == s % 0xffff && u % 0xffff == t % 0xffff
    ensures (s + t) % 0xffff == (r + u) % 0xffff
  {
    ModAdd(s, t, 0xffff);
    ModAdd(r, u, 0xffff);
    ModAdd(t, r % 0xffff, 0xffff);
    ModAdd(u, r % 0xffff, 0xffff);
  }

  // All ones means a positive multiple of 2^16 - 1.
  lemma AllOnes(x: nat)
    ensures OnesSum(x) == 0xffff <==> x > 0 && x % 0xffff == 0
  {
    OnesSumRange(x);
  }

  // Sums may be folded separately before they are added.
  lemma OnesSumAdd(x: nat, y: nat)
    ensures OnesSum(OnesSum(x) + OnesSum(y)) == OnesSum(x + y)
  {
    OnesSumRange(x);
    OnesSumRange(y);
    OnesSumRange(x + y);
    OnesSumRange(OnesSum(x) + OnesSum(y));
    SumCongruent(x, y, OnesSum(x), OnesSum(y));
    SameResidue(OnesSum(x + y), OnesSum(OnesSum(x) + OnesSum(y)));
  }

  lemma SameResidue(x: nat, y: nat)
    requires x <= 0xffff && y <= 0xffff && x % 0xffff == y % 0xffff && (x == 0 <==> y == 0)
    ensures x == y
  {
  }

  // Adding the complement of the sum brings the sum to all ones.
  lemma ComplementSums(x: nat)
    ensures OnesSum(x) <= 0xffff && OnesSum(x + (0xffff - OnesSum(x))) == 0xffff
  {
    OnesSumRange(x);
    Cancel(x, OnesSum(x));
    AllOnes(x + (0xffff - OnesSum(x)));
  }

  // ------------------------------------------------------------------ word sums

  lemma {:induction false} WordSumBound(s: seq<byte>)
    ensures WordSum(s) <= 0x8000 * |s|
    decreases |s|
  {
    if |s| >= 2 {
      WordSumBound(s[2..]);
    }
  }

  lemma {:induction false} WordSumConcat(a: seq<byte>, b: seq<byte>)
    requires |a| % 2 == 0
    ensures WordSum(a + b) == WordSum(a) + WordSum(b)
    decreases |a|
  {
    if a == [] {
      assert a + b == b;
    } else {
      assert (a + b)[2..] == a[2..] + b;
      WordSumConcat(a[2..], b);
    }
  }

  lemma WordSumSlice(s: seq<byte>, i: nat, j: nat)
    requires i + 2 <= j <= |s|
    ensures WordSum(s[i..j]) == Word(s[i], s[i + 1]) + WordSum(s[i + 2..j])
  {
    assert s[i..j][2..] == s[i + 2..j];
  }

  // Storing a 16-bit word in host order.
  function PutLE16(s: seq<byte>, i: nat, v: nat): (r: seq<byte>)
    requires i + 2 <= |s| && v < 0x1_0000
    ensures |r| == |s|
  {
    s[i := v % 256][i + 1 := v / 256]
  }

  // Storing it in network order.
  function PutBE16(s: seq<byte>, i: nat, v: nat): (r: seq<byte>)
    requires i + 2 <= |s| && v < 0x1_0000
    ensures |r| == |s|
  {
    s[i := v / 256][i + 1 := v % 256]
  }

  function GetLE16(s: seq<byte>, i: nat): (v: nat)
    requires i + 2 <= |s|
    ensures v < 0x1_0000
  {
    Word(s[i], s[i + 1])
  }

  function GetBE16(s: seq<byte>, i: nat): (v: nat)
    requires i + 2 <= |s|
    ensures v < 0x1_0000
  {
    Word(s[i + 1], s[i])
  }

  // A word at an even offset contributes its own value to the sum.
  lemma {:induction false} WordSumPut(s: seq<byte>, i: nat, v: nat)
    requires i % 2 == 0 && i + 2 <= |s| && v < 0x1_0000
    ensures WordSum(PutLE16(s, i, v)) + GetLE16(s, i) == WordSum(s) + v
    decreases i
  {
    var t := PutLE16(s, i, v);
    if i == 0 {
      assert t[2..] == s[2..];
    } else {
      assert t[2..] == PutLE16(s[2..], i - 2, v);
      WordSumPut(s[2..], i - 2, v);
    }
  }

  // -------------------------------------------------------------------- the code

  // One fold of the carries, ((x & 0xffff0000) >> 16) + (x & 0xffff).
  function Fold(x: nat): nat
    requires x < 0x1_0000_0000
  {
    x / 0x1_0000 + x % 0x1_0000
  }

  // __rte_raw_cksum_reduce
  function Reduce(x: nat): (r: nat)
    requires x < 0x1_0000_0000
    ensures r < 0x1_0000
  {
    Fold(Fold(x)) % 0x1_0000
  }

  function Complement(x: nat): (r: nat)
    requires x < 0x1_0000
    ensures r < 0x1_0000
  {
    0xffff - x
  }

  lemma OneFold(y: nat)
    requires y <= 2 * 0xffff
    ensures Fold(y) < 0x1_0000 && OnesSum(y) == Fold(y)
  {
    if y >= 0x1_0000 {
      assert y / 0x1_0000 == 1;
      assert Fold(y) < 0x1_0000;
      assert OnesSum(Fold(y)) == Fold(y);
    }
  }

  lemma FoldBound(x: nat)
    requires x < 0x1_0000_0000
    ensures Fold(x) <= 2 * 0xffff && (x < 0x1_0000 ==> Fold(x) == x)
  {
  }

  // Two folds suffice for 32 bits.
  lemma ReduceIsOnesSum(x: nat)
    requires x < 0x1_0000_0000
    ensures Reduce(x) == OnesSum(x)
  {
    var y := Fold(x);
    FoldBound(x);
    OneFold(y);
    if x >= 0x1_0000 {
      assert OnesSum(x) == OnesSum(y);
    }
  }

  // The sum still to be added stays below 2^32.
  ghost predicate NoOverflow(len: nat, sum: nat) {
    sum + 0x8000 * len < 0x1_0000_0000
  }

  // Addition in uint32_t.
  function Add32(x: nat, y: nat): (r: nat)
    requires x < 0x1_0000_0000 && y < 0x1_0000_0000
    ensures r < 0x1_0000_0000
  {
    if x + y < 0x1_0000_0000 then x + y else x + y - 0x1_0000_0000
  }

  lemma Add32Wraps(x: nat, y: nat)
    requires x < 0x1_0000_0000 && y < 0x1_0000_0000
    ensures Add32(x, y) == Wrap(x + y, 0x1_0000_0000)
  {
    var z := x + y;
    if z >= 0x1_0000_0000 {
      assert Wrap(z, 0x1_0000_0000) == Wrap(z - 0x1_0000_0000, 0x1_0000_0000);
    }
  }

  lemma FourWords(s: seq<byte>, i: nat, j: nat)
    requires i + 8 <= j <= |s|
    ensures WordSum(s[i..j])
         == GetLE16(s, i) + GetLE16(s, i + 2) + GetLE16(s, i + 4) + GetLE16(s, i + 6)
            + WordSum(s[i + 8..j])
  {
    WordSumSlice(s, i, j);
    WordSumSlice(s, i + 2, j);
    WordSumSlice(s, i + 4, j);
    WordSumSlice(s, i + 6, j);
  }

  method LoadLE16(buf: array<byte>, i: nat) returns (v: nat)
    requires i + 2 <= buf.Length
    ensures v == GetLE16(buf[..], i)
  {
    v := Word(buf[i], buf[i + 1]);
  }

  /** __rte_raw_cksum: four words at a time, then one, then the odd byte, in
      32-bit arithmetic that never wraps. */
  method RawCksum(buf: array<byte>, off: nat, len: nat, sum0: nat) returns (sum: nat)
    requires off + len <= buf.Length && NoOverflow(len, sum0)
    ensures sum == sum0 + WordSum(buf[..][off..off + len]) && sum < 0x1_0000_0000
  {
    var i, left := off, len;
    sum := sum0;
    ghost var b, hi := buf[..], off + len;
    WordSumBound(b[off..hi]);
    ghost var all := sum0 + WordSum(b[off..hi]);
    while left >= 8
      invariant off <= i && i + left == hi
      invariant sum + WordSum(b[i..hi]) == all
    {
      FourWords(b, i, hi);
      var w0 := LoadLE16(buf, i);
      var w1 := LoadLE16(buf, i + 2);
      var w2 := LoadLE16(buf, i + 4);
      var w3 := LoadLE16(buf, i + 6);
      sum := Add32(Add32(Add32(Add32(sum, w0), w1), w2), w3);
      i, left := i + 8, left - 8;
    }
    sum := RawCksumTail(buf, i, left, sum);
  }

  // The rest of __rte_raw_cksum: word by word, then the odd byte.
  method RawCksumTail(buf: array<byte>, off: nat, len: nat, sum0: nat) returns (sum: nat)
    requires off + len <= buf.Length && sum0 + WordSum(buf[..][off..off + len]) < 0x1_0000_0000
    ensures sum == sum0 + WordSum(buf[..][off..off + len])
  {
    var i, left := off, len;
    sum := sum0;
    ghost var b, hi := buf[..], off + len;
    while left >= 2
      invariant off <= i && i + left == hi
      invariant sum + WordSum(b[i..hi]) == sum0 + WordSum(b[off..hi])
    {
      WordSumSlice(b, i, hi);
      var w := LoadLE16(buf, i);
      sum := Add32(sum, w);
      i, left := i + 2, left - 2;
    }
    if left == 1 {
      sum := Add32(sum, buf[i]);
    }
  }

  method StoreLE16(buf: array<byte>, i: nat, v: nat)
    requires i + 2 <= buf.Length && v < 0x1_0000
    modifies buf
    ensures buf[..] == PutLE16(old(buf[..]), i, v)
  {
    buf[i] := v % 256;
    buf[i + 1] := v / 256;
  }

  method StoreBE16(buf: array<byte>, i: nat, v: nat)
    requires i + 2 <= buf.Length && v < 0x1_0000
    modifies buf
    ensures buf[..] == PutBE16(old(buf[..]), i, v)
  {
    buf[i] := v / 256;
    buf[i + 1] := v % 256;
  }

  // ---------------------------------------------------------- a checksum in place

  // The complement of the one's complement sum of two blocks.
  ghost function ChecksumOf(block: seq<byte>, pseudo: seq<byte>): (v: nat)
    ensures v < 0x1_0000
  {
    OnesSumRange(WordSum(block) + WordSum(pseudo));
    0xffff - OnesSum(WordSum(block) + WordSum(pseudo))
  }

  // The buffer with the checksum word at `field` set for the block [lo, hi) and
  // a pseudo-header, taken with the word cleared.
  ghost function Sealed(b: seq<byte>, lo: nat, hi: nat, field: nat, pseudo: seq<byte>): (r: seq<byte>)
    requires lo <= field && field + 2 <= hi <= |b|
    ensures |r| == |b|
    ensures forall k {:trigger r[k]} :: 0 <= k < |b| && k != field && k != field + 1 ==> r[k] == b[k]
  {
    var z := PutLE16(b, field, 0);
    PutLE16(z, field, ChecksumOf(z[lo..hi], pseudo))
  }

  // A sealed block and its pseudo-header verify together.
  lemma SealedVerifies(b: seq<byte>, lo: nat, hi: nat, field: nat, pseudo: seq<byte>)
    requires lo <= field && field + 2 <= hi <= |b|
    requires (field - lo) % 2 == 0 && |pseudo| % 2 == 0
    ensures Verifies(pseudo + Sealed(b, lo, hi, field, pseudo)[lo..hi])
  {
    var block := PutLE16(b, field, 0)[lo..hi];
    var t := Sealed(b, lo, hi, field, pseudo)[lo..hi];
    SealedWord(b, lo, hi, field, pseudo);
    WordSumConcat(pseudo, t);
    VerifiesWhen(pseudo + t, WordSum(block) + WordSum(pseudo));
  }

  // What one byte contributes to the sum.
  lemma {:induction false} WordSumByte(s: seq<byte>, i: nat, b: byte)
    requires i < |s|
    ensures var w := if i % 2 == 0 then 1 else 256;
            WordSum(s[i := b]) + w * (s[i] as nat) == WordSum(s) + w * (b as nat)
    decreases |s|
  {
    if i < 2 {
      assert |s| >= 2 ==> s[i := b][2..] == s[2..];
    } else {
      assert s[i := b][2..] == s[2..][i - 2 := b];
      WordSumByte(s[2..], i - 2, b);
    }
  }

  /** What the checksum is for: a block that verifies does not verify any more with any one
      of its bytes changed. */
  lemma CorruptionDetected(s: seq<byte>, i: nat, b: byte)
    requires i < |s| && Verifies(s) && b != s[i]
    ensures !Verifies(s[i := b])
  {
    var x, y := WordSum(s), WordSum(s[i := b]);
    WordSumByte(s, i, b);
    OnesSumRange(x);
    OnesSumRange(y);
    if x < y {
      ModDistinct(x, y, 0xffff);
    } else {
      ModDistinct(y, x, 0xffff);
    }
  }

  lemma SealedWord(b: seq<byte>, lo: nat, hi: nat, field: nat, pseudo: seq<byte>)
    requires lo <= field && field + 2 <= hi <= |b| && (field - lo) % 2 == 0
    ensures var block := PutLE16(b, field, 0)[lo..hi];
            WordSum(Sealed(b, lo, hi, field, pseudo)[lo..hi]) == WordSum(block) + ChecksumOf(block, pseudo)
  {
    var z := PutLE16(b, field, 0);
    var v := ChecksumOf(z[lo..hi], pseudo);
    assert PutLE16(z, field, v)[lo..hi] == PutLE16(z[lo..hi], field - lo, v);
    WordSumPut(z[lo..hi], field - lo, v);
    assert GetLE16(z[lo..hi], field - lo) == 0;
  }

  lemma VerifiesWhen(s: seq<byte>, x: nat)
    requires WordSum(s) == x + 0xffff - OnesSum(x)
    ensures Verifies(s)
  {
    ComplementSums(x);
  }

  // rte_raw_cksum
  method RawCksumFolded(buf: array<byte>, off: nat, len: nat) returns (r: nat)
    requires off + len <= buf.Length && NoOverflow(len, 0)
    ensures r == OnesSum(WordSum(buf[..][off..off + len])) && r < 0x1_0000
  {
    var sum := RawCksum(buf, off, len, 0);
    ReduceIsOnesSum(sum);
    r := Reduce(sum);
  }

  // The word the code stores for two folded sums.
  lemma StoredChecksum(block: seq<byte>, pseudo: seq<byte>, r: nat, other: nat)
    requires r == OnesSum(WordSum(block)) && other == OnesSum(WordSum(pseudo))
    ensures r + other <= 2 * 0xffff && Fold(r + other) < 0x1_0000
    ensures Complement(Fold(r + other)) == ChecksumOf(block, pseudo)
  {
    OnesSumRange(WordSum(block));
    OnesSumRange(WordSum(pseudo));
    OnesSumAdd(WordSum(block), WordSum(pseudo));
    OneFold(r + other);
  }
}
