/**
  The header fix-ups of software segmentation: the IPv4 total length and the two
  checksums of a segment, and the sequence number and identifier of the next one.
 */
module TcpHeaders {
  import opened Checksum
  import opened Modular

  const IP_HEADER: nat := 20      // sizeof(struct ipv4_hdr)
  const IP_LENGTH: nat := 2
  const IP_ID: nat := 4
  const IP_PROTOCOL: nat := 9
  const IP_CHECKSUM: nat := 10
  const IP_ADDRESSES: nat := 12
  const TCP_HEADER: nat := 20     // sizeof(struct rte_tcp_hdr)
  const TCP_SEQUENCE: nat := 4
  const TCP_CHECKSUM: nat := 16
  const UDP_CHECKSUM: nat := 6

  /** Where the headers and the payload of a segment lie in the packet buffer:
      the arguments of xsum_tcpip_tso, within the widths of their types. */
  datatype Layout = Layout(ip: nat, iplen: nat, l4len: nat, paylen: nat)
  {
    predicate Fits(n: nat) {
      && IP_HEADER <= iplen < 256 && TCP_HEADER <= l4len < 256
      && paylen < 0x1_0000 && ip + iplen + l4len + paylen <= n
    }

    function Tcp(): nat { ip + iplen }

    function End(): nat { ip + iplen + l4len + paylen }

    function IpTotal(): nat { iplen + l4len + paylen }
  }

  // ------------------------------------------------------------ specification

  ghost function PutBE32(s: seq<byte>, i: nat, v: nat): (r: seq<byte>)
    requires i + 4 <= |s| && v < 0x1_0000_0000
    ensures |r| == |s|
  {
    PutBE16(PutBE16(s, i, v / 0x1_0000), i + 2, v % 0x1_0000)
  }

  ghost function GetBE32(s: seq<byte>, i: nat): (v: nat)
    requires i + 4 <= |s|
    ensures v < 0x1_0000_0000
  {
    GetBE16(s, i) * 0x1_0000 + GetBE16(s, i + 2)
  }

  lemma PutGetBE16(s: seq<byte>, i: nat, v: nat)
    requires i + 2 <= |s| && v < 0x1_0000
    ensures GetBE16(PutBE16(s, i, v), i) == v
  {
  }

  lemma PutGetBE32(s: seq<byte>, i: nat, v: nat)
    requires i + 4 <= |s| && v < 0x1_0000_0000
    ensures GetBE32(PutBE32(s, i, v), i) == v
  {
    var t := PutBE16(s, i, v / 0x1_0000);
    PutGetBE16(s, i, v / 0x1_0000);
    PutGetBE16(t, i + 2, v % 0x1_0000);
    var r := PutBE16(t, i + 2, v % 0x1_0000);
    assert r[i] == t[i] && r[i + 1] == t[i + 1];
  }

  // The next identifier, in uint16_t.
  function Next16(x: nat): (r: nat)
    requires x < 0x1_0000
    ensures r < 0x1_0000
  {
    if x + 1 < 0x1_0000 then x + 1 else 0
  }

  // The pseudo-header of section 3.1 of RFC 9293, for a segment of `len` bytes.
  ghost function PseudoHeader(b: seq<byte>, ip: nat, len: nat): (p: seq<byte>)
    requires ip + IP_HEADER <= |b| && len < 0x1_0000
    ensures |p| == 12 && p[..8] == b[ip + 12..ip + 20] && p[8] == 0 && p[9] == b[ip + 9]
    ensures 256 * (p[10] as nat) + p[11] == len
  {
    b[ip + IP_ADDRESSES..ip + IP_HEADER] + [0, b[ip + IP_PROTOCOL], len / 256, len % 256]
  }

  // The segment length rte_ipv4_phdr_cksum works with: it takes off a fixed
  // 20-byte IP header, in uint16_t.
  ghost function PseudoLength(b: seq<byte>, ip: nat): (len: nat)
    requires ip + IP_HEADER <= |b|
    ensures len < 0x1_0000
  {
    var total := GetBE16(b, ip + IP_LENGTH);
    if total >= IP_HEADER then total - IP_HEADER else total + 0x1_0000 - IP_HEADER
  }

  ghost function LengthSet(b: seq<byte>, l: Layout): (r: seq<byte>)
    requires l.Fits(|b|)
    ensures |r| == |b|
  {
    PutBE16(b, l.ip + IP_LENGTH, l.IpTotal() % 0x1_0000)
  }

  ghost function IpSealed(b: seq<byte>, l: Layout): (r: seq<byte>)
    requires l.Fits(|b|)
    ensures |r| == |b|
  {
    Sealed(LengthSet(b, l), l.ip, l.Tcp(), l.ip + IP_CHECKSUM, [])
  }

  // The pseudo-header the code sums, for the length the IP header holds.
  ghost function CodePseudo(b: seq<byte>, ip: nat): (p: seq<byte>)
    requires ip + IP_HEADER <= |b|
    ensures |p| == 12
  {
    PseudoHeader(b, ip, PseudoLength(b, ip))
  }

  ghost function TcpIpSealed(b: seq<byte>, l: Layout): (r: seq<byte>)
    requires l.Fits(|b|)
    ensures |r| == |b|
  {
    Sealed(b, l.Tcp(), l.End(), l.Tcp() + TCP_CHECKSUM, CodePseudo(b, l.ip))
  }

  // The buffer after xsum_tcpip_tso.
  ghost function FixedUp(b: seq<byte>, l: Layout): (r: seq<byte>)
    requires l.Fits(|b|)
    ensures |r| == |b|
  {
    TcpIpSealed(IpSealed(b, l), l)
  }

  // The buffer after tso_postupdate_header.
  ghost function Advanced(b: seq<byte>, l: Layout): (r: seq<byte>)
    requires l.Fits(|b|)
    ensures |r| == |b|
  {
    IdAdvanced(SequenceAdvanced(b, l), l)
  }

  ghost function SequenceAdvanced(b: seq<byte>, l: Layout): (r: seq<byte>)
    requires l.Fits(|b|)
    ensures |r| == |b|
  {
    var at := l.Tcp() + TCP_SEQUENCE;
    PutBE32(b, at, Add32(GetBE32(b, at), l.paylen))
  }

  ghost function IdAdvanced(b: seq<byte>, l: Layout): (r: seq<byte>)
    requires l.Fits(|b|)
    ensures |r| == |b|
  {
    var at := l.ip + IP_ID;
    PutBE16(b, at, Next16(GetBE16(b, at)))
  }

  predicate InLengthOrChecksum(l: Layout, k: int) {
    || l.ip + IP_LENGTH <= k < l.ip + IP_LENGTH + 2
    || l.ip + IP_CHECKSUM <= k < l.ip + IP_CHECKSUM + 2
    || l.Tcp() + TCP_CHECKSUM <= k < l.Tcp() + TCP_CHECKSUM + 2
  }

  predicate InIdOrSequence(l: Layout, k: int) {
    || l.ip + IP_ID <= k < l.ip + IP_ID + 2
    || l.Tcp() + TCP_SEQUENCE <= k < l.Tcp() + TCP_SEQUENCE + 4
  }

  /** What a receiver sees of xsum_tcpip_tso: `r` is `b` with the length and the two
      checksums set.  The TCP checksum is valid for the pseudo-header of RFC 9293 if
      and only if the IP header carries no options. */
  ghost predicate IsFixedUp(b: seq<byte>, r: seq<byte>, l: Layout) {
    && l.Fits(|b|) && |r| == |b|
    && (forall k {:trigger r[k]} :: 0 <= k < |b| && !InLengthOrChecksum(l, k) ==> r[k] == b[k])
    && GetBE16(r, l.ip + IP_LENGTH) == Wrap(l.IpTotal(), 0x1_0000)
    && Verifies(r[l.ip..l.Tcp()])
    && (l.IpTotal() < 0x1_0000 ==> TcpVerifies(r, l) == (l.iplen == IP_HEADER))
  }

  ghost predicate TcpVerifies(r: seq<byte>, l: Layout)
    requires l.Fits(|r|) && l.IpTotal() < 0x1_0000
  {
    Verifies(PseudoHeader(r, l.ip, l.l4len + l.paylen) + r[l.Tcp()..l.End()])
  }

  ghost function FixedUps(b: seq<byte>, l: Layout): iset<seq<byte>> {
    iset r: seq<byte> | IsFixedUp(b, r, l)
  }

  /** What tso_postupdate_header does: the next sequence number and identifier. */
  ghost predicate IsAdvanced(b: seq<byte>, r: seq<byte>, l: Layout) {
    && l.Fits(|b|) && |r| == |b|
    && (forall k {:trigger r[k]} :: 0 <= k < |b| && !InIdOrSequence(l, k) ==> r[k] == b[k])
    && GetBE32(r, l.Tcp() + TCP_SEQUENCE) == Wrap(GetBE32(b, l.Tcp() + TCP_SEQUENCE) + l.paylen, 0x1_0000_0000)
    && GetBE16(r, l.ip + IP_ID) == Wrap(GetBE16(b, l.ip + IP_ID) + 1, 0x1_0000)
  }

  ghost function Advances(b: seq<byte>, l: Layout): iset<seq<byte>> {
    iset r: seq<byte> | IsAdvanced(b, r, l)
  }

  // -------------------------------------------------------------------- the code

  method LoadBE16(buf: array<byte>, i: nat) returns (v: nat)
    requires i + 2 <= buf.Length
    ensures v == GetBE16(buf[..], i)
  {
    v := Word(buf[i + 1], buf[i]);
  }

  method LoadBE32(buf: array<byte>, i: nat) returns (v: nat)
    requires i + 4 <= buf.Length
    ensures v == GetBE32(buf[..], i)
  {
    var high := LoadBE16(buf, i);
    var low := LoadBE16(buf, i + 2);
    v := high * 0x1_0000 + low;
  }

  method StoreBE32(buf: array<byte>, i: nat, v: nat)
    requires i + 4 <= buf.Length && v < 0x1_0000_0000
    modifies buf
    ensures buf[..] == PutBE32(old(buf[..]), i, v)
  {
    StoreBE16(buf, i, v / 0x1_0000);
    StoreBE16(buf, i + 2, v % 0x1_0000);
  }

  // rte_ipv4_phdr_cksum
  method PhdrCksum(buf: array<byte>, ip: nat) returns (r: nat)
    requires ip + IP_HEADER <= buf.Length
    ensures r == OnesSum(WordSum(CodePseudo(buf[..], ip))) && r < 0x1_0000
  {
    var psd := new byte[12](_ => 0);
    for i := 0 to 8
      invariant forall k :: 0 <= k < i ==> psd[k] == buf[ip + IP_ADDRESSES + k]
      invariant forall k :: i <= k < 12 ==> psd[k] == 0
    {
      psd[i] := buf[ip + IP_ADDRESSES + i];
    }
    psd[9] := buf[ip + IP_PROTOCOL];
    assert psd[..8] == buf[..][ip + IP_ADDRESSES..ip + IP_HEADER];
    var total := LoadBE16(buf, ip + IP_LENGTH);
    StoreBE16(psd, 10, if total >= IP_HEADER then total - IP_HEADER else total + 0x1_0000 - IP_HEADER);
    assert psd[..] == PseudoHeader(buf[..], ip, PseudoLength(buf[..], ip));
    assert psd[..][0..0 + 12] == psd[..];
    r := RawCksumFolded(psd, 0, 12);
  }

  // Clearing the checksum word, summing and storing the complement.
  method SealInPlace(buf: array<byte>, lo: nat, len: nat, field: nat)
    requires lo <= field && field + 2 <= lo + len <= buf.Length && NoOverflow(len, 0)
    modifies buf
    ensures buf[..] == Sealed(old(buf[..]), lo, lo + len, field, [])
  {
    StoreLE16(buf, field, 0);
    var cksum := RawCksumFolded(buf, lo, len);
    StoredChecksum(buf[..][lo..lo + len], [], cksum, 0);
    StoreLE16(buf, field, Complement(Fold(cksum)));
  }

  /** xsum_tcpip_tso */
  method XsumTcpipTso(buf: array<byte>, l: Layout)
    requires l.Fits(buf.Length)
    modifies buf
    ensures buf[..] in FixedUps(old(buf[..]), l)
  {
    StoreBE16(buf, l.ip + IP_LENGTH, l.IpTotal() % 0x1_0000);
    SealInPlace(buf, l.ip, l.iplen, l.ip + IP_CHECKSUM);
    assert buf[..] == IpSealed(old(buf[..]), l);
    TcpPart(buf, l);
    FixUpIs(old(buf[..]), l);
  }

  // Its second half, the TCP checksum.
  method TcpPart(buf: array<byte>, l: Layout)
    requires l.Fits(buf.Length)
    modifies buf
    ensures buf[..] == TcpIpSealed(old(buf[..]), l)
  {
    StoreLE16(buf, l.Tcp() + TCP_CHECKSUM, 0);
    ghost var b, z := old(buf[..]), buf[..];
    assert l.Tcp() + (l.l4len + l.paylen) == l.End();
    var cksum := RawCksumFolded(buf, l.Tcp(), l.l4len + l.paylen);
    var phdr := PhdrCksum(buf, l.ip);
    ClearedPseudo(b, l);
    StoredChecksum(z[l.Tcp()..l.End()], CodePseudo(b, l.ip), cksum, phdr);
    StoreLE16(buf, l.Tcp() + TCP_CHECKSUM, Complement(Fold(cksum + phdr)));
  }

  // Clearing the TCP checksum does not touch the pseudo-header.
  lemma ClearedPseudo(b: seq<byte>, l: Layout)
    requires l.Fits(|b|)
    ensures CodePseudo(PutLE16(b, l.Tcp() + TCP_CHECKSUM, 0), l.ip) == CodePseudo(b, l.ip)
  {
    PseudoSame(b, PutLE16(b, l.Tcp() + TCP_CHECKSUM, 0), l.ip, PseudoLength(b, l.ip));
  }

  /** tso_postupdate_header */
  method PostupdateHeader(buf: array<byte>, l: Layout)
    requires l.Fits(buf.Length)
    modifies buf
    ensures buf[..] in Advances(old(buf[..]), l)
  {
    var seqno := LoadBE32(buf, l.Tcp() + TCP_SEQUENCE);
    StoreBE32(buf, l.Tcp() + TCP_SEQUENCE, Add32(seqno, l.paylen));
    var id := LoadBE16(buf, l.ip + IP_ID);
    StoreBE16(buf, l.ip + IP_ID, Next16(id));
    AdvanceIs(old(buf[..]), l);
  }

  /** xsum_tcp and xsum_udp: the checksum word at `field` is summed with whatever
      it holds. */
  method XsumL4(buf: array<byte>, l4: nat, len: nat, field: nat)
    requires field + 2 <= len && l4 + len <= buf.Length && NoOverflow(len, 0)
    modifies buf
    ensures buf[..] == L4Sealed(old(buf[..]), l4, len, field)
  {
    var cksum := RawCksumFolded(buf, l4, len);
    StoredChecksum(buf[..][l4..l4 + len], [], cksum, 0);
    StoreLE16(buf, l4 + field, Complement(Fold(cksum)));
  }

  ghost function L4Sealed(b: seq<byte>, l4: nat, len: nat, field: nat): (r: seq<byte>)
    requires field + 2 <= len && l4 + len <= |b|
    ensures |r| == |b|
  {
    PutLE16(b, l4 + field, ChecksumOf(b[l4..l4 + len], []))
  }

  // ------------------------------------------------------------------- properties

  // The pseudo-header only reads the IP header's first twenty bytes.
  lemma PseudoSame(b: seq<byte>, c: seq<byte>, ip: nat, len: nat)
    requires ip + IP_HEADER <= |b| && ip + IP_HEADER <= |c| && len < 0x1_0000
    requires forall k :: ip <= k < ip + IP_CHECKSUM ==> b[k] == c[k]
    requires forall k :: ip + IP_ADDRESSES <= k < ip + IP_HEADER ==> b[k] == c[k]
    ensures PseudoHeader(b, ip, len) == PseudoHeader(c, ip, len)
    ensures PseudoLength(b, ip) == PseudoLength(c, ip)
  {
    assert b[ip + IP_ADDRESSES..ip + IP_HEADER] == c[ip + IP_ADDRESSES..ip + IP_HEADER];
  }

  // Nothing but the length and the two checksums changes.
  lemma FixedUpFrame(b: seq<byte>, l: Layout)
    requires l.Fits(|b|)
    ensures forall k :: 0 <= k < |b| && !InLengthOrChecksum(l, k) ==> FixedUp(b, l)[k] == b[k]
  {
    var d, c, r := LengthSet(b, l), IpSealed(b, l), FixedUp(b, l);
    forall k | 0 <= k < |b| && !InLengthOrChecksum(l, k) ensures r[k] == b[k] {
      assert d[k] == b[k];
      assert c[k] == d[k];
      assert r[k] == c[k];
    }
  }

  lemma FixUpIs(b: seq<byte>, l: Layout)
    requires l.Fits(|b|)
    ensures IsFixedUp(b, FixedUp(b, l), l)
  {
    FixedUpFrame(b, l);
    IpHeaderVerifies(b, l);
    if l.IpTotal() < 0x1_0000 {
      TcpVerifiesIffNoOptions(b, l);
    }
  }

  // The IP header carries the segment's length and its own valid checksum.
  lemma IpHeaderVerifies(b: seq<byte>, l: Layout)
    requires l.Fits(|b|)
    ensures Verifies(FixedUp(b, l)[l.ip..l.Tcp()])
    ensures GetBE16(FixedUp(b, l), l.ip + IP_LENGTH) == Wrap(l.IpTotal(), 0x1_0000)
  {
    IpPart(b, l);
    IpLengthSet(b, l);
    SameIpHeader(IpSealed(b, l), l);
  }

  lemma SameIpHeader(c: seq<byte>, l: Layout)
    requires l.Fits(|c|)
    ensures TcpIpSealed(c, l)[l.ip..l.Tcp()] == c[l.ip..l.Tcp()]
    ensures forall k {:trigger TcpIpSealed(c, l)[k]} :: l.ip <= k < l.Tcp() ==> TcpIpSealed(c, l)[k] == c[k]
    ensures GetBE16(TcpIpSealed(c, l), l.ip + IP_LENGTH) == GetBE16(c, l.ip + IP_LENGTH)
  {
    SealedFrame(c, l.Tcp(), l.End(), l.Tcp() + TCP_CHECKSUM, CodePseudo(c, l.ip));
  }

  lemma SealedFrame(b: seq<byte>, lo: nat, hi: nat, field: nat, pseudo: seq<byte>)
    requires lo <= field && field + 2 <= hi <= |b|
    ensures forall k {:trigger Sealed(b, lo, hi, field, pseudo)[k]} ::
              0 <= k < field ==> Sealed(b, lo, hi, field, pseudo)[k] == b[k]
    ensures Sealed(b, lo, hi, field, pseudo)[..field] == b[..field]
  {
  }

  lemma IpPart(b: seq<byte>, l: Layout)
    requires l.Fits(|b|)
    ensures Verifies(IpSealed(b, l)[l.ip..l.Tcp()])
  {
    SealedVerifies(LengthSet(b, l), l.ip, l.Tcp(), l.ip + IP_CHECKSUM, []);
    assert [] + IpSealed(b, l)[l.ip..l.Tcp()] == IpSealed(b, l)[l.ip..l.Tcp()];
  }

  lemma IpLengthSet(b: seq<byte>, l: Layout)
    requires l.Fits(|b|)
    ensures GetBE16(IpSealed(b, l), l.ip + IP_LENGTH) == Wrap(l.IpTotal(), 0x1_0000)
  {
    WrapIsMod(l.IpTotal(), 0x1_0000);
    PutGetBE16(b, l.ip + IP_LENGTH, l.IpTotal() % 0x1_0000);
    SealedFrame(LengthSet(b, l), l.ip, l.Tcp(), l.ip + IP_CHECKSUM, []);
  }

  // Read as a host-order word, a network-order length is 256 times itself modulo 2^16 - 1.
  lemma SwapIsTimes256(x: nat)
    requires x < 0x1_0000
    ensures Word(x / 256, x % 256) % 0xffff == (256 * x) % 0xffff
  {
    assert 256 * x == Word(x / 256, x % 256) + (x / 256) * 0xffff;
    AddMultiple(Word(x / 256, x % 256), x / 256);
  }

  lemma FourByteSum(a: byte, b: byte, c: byte, d: byte)
    ensures WordSum([a, b, c, d]) == Word(a, b) + Word(c, d)
  {
    var s: seq<byte> := [a, b, c, d];
    assert s[2..] == [c, d];
    assert WordSum([c, d]) == Word(c, d) + WordSum([c, d][2..]);
  }

  lemma PseudoSum(b: seq<byte>, ip: nat, len: nat)
    requires ip + IP_HEADER <= |b| && len < 0x1_0000
    ensures WordSum(PseudoHeader(b, ip, len))
         == WordSum(b[ip + IP_ADDRESSES..ip + IP_HEADER]) + Word(0, b[ip + IP_PROTOCOL]) + Word(len / 256, len % 256)
  {
    WordSumConcat(b[ip + IP_ADDRESSES..ip + IP_HEADER], [0, b[ip + IP_PROTOCOL], len / 256, len % 256]);
    FourByteSum(0, b[ip + IP_PROTOCOL], len / 256, len % 256);
  }

  // The segment verifies exactly when the receiver's pseudo-header length is the
  // one the sum was made with, modulo the checksum's own modulus.
  lemma PseudoLengthMatters(b: seq<byte>, ip: nat, code: nat, len: nat, segment: seq<byte>)
    requires ip + IP_HEADER <= |b| && 0 < len <= code < 0x1_0000 && code < len + 236
    requires Verifies(PseudoHeader(b, ip, code) + segment)
    ensures Verifies(PseudoHeader(b, ip, len) + segment) <==> len == code
  {
    var fixed := WordSum(segment) + WordSum(b[ip + IP_ADDRESSES..ip + IP_HEADER]) + Word(0, b[ip + IP_PROTOCOL]);
    PseudoResidue(b, ip, code, segment, fixed);
    PseudoResidue(b, ip, len, segment, fixed);
    Shifted(fixed + 256 * len, 256 * (code - len));
  }

  lemma PseudoResidue(b: seq<byte>, ip: nat, len: nat, segment: seq<byte>, fixed: nat)
    requires ip + IP_HEADER <= |b| && 0 < len < 0x1_0000
    requires fixed == WordSum(segment) + WordSum(b[ip + IP_ADDRESSES..ip + IP_HEADER]) + Word(0, b[ip + IP_PROTOCOL])
    ensures Verifies(PseudoHeader(b, ip, len) + segment) <==> (fixed + 256 * len) % 0xffff == 0
  {
    var w := Word(len / 256, len % 256);
    WordSumConcat(PseudoHeader(b, ip, len), segment);
    PseudoSum(b, ip, len);
    AllOnes(fixed + w);
    SwapIsTimes256(len);
    SumCongruent(fixed, w, fixed, 256 * len);
  }

  lemma Shifted(x: nat, d: nat)
    requires d < 0xffff && (x + d) % 0xffff == 0
    ensures x % 0xffff == 0 <==> d == 0
  {
    ModAdd(x, d, 0xffff);
    ModSmall(d, 0xffff);
  }

  /** A segment no longer than an IPv4 packet can be: its TCP checksum is valid for
      the pseudo-header of RFC 9293 if and only if the IP header has no options. */
  lemma TcpVerifiesIffNoOptions(b: seq<byte>, l: Layout)
    requires l.Fits(|b|) && l.IpTotal() < 0x1_0000
    ensures TcpVerifies(FixedUp(b, l), l) <==> l.iplen == IP_HEADER
  {
    IpLengthSet(b, l);
    TcpIffNoOptions(IpSealed(b, l), l);
  }

  lemma TcpIffNoOptions(c: seq<byte>, l: Layout)
    requires l.Fits(|c|) && GetBE16(c, l.ip + IP_LENGTH) == l.IpTotal()
    ensures TcpVerifies(TcpIpSealed(c, l), l) <==> l.iplen == IP_HEADER
  {
    SegmentVerifies(c, l);
    OptionsMatter(TcpIpSealed(c, l), l);
  }

  lemma OptionsMatter(f: seq<byte>, l: Layout)
    requires l.Fits(|f|) && l.IpTotal() < 0x1_0000
    requires Verifies(PseudoHeader(f, l.ip, l.IpTotal() - IP_HEADER) + f[l.Tcp()..l.End()])
    ensures TcpVerifies(f, l) <==> l.iplen == IP_HEADER
  {
    PseudoLengthMatters(f, l.ip, l.IpTotal() - IP_HEADER, l.l4len + l.paylen, f[l.Tcp()..l.End()]);
  }

  lemma SamePseudo(c: seq<byte>, f: seq<byte>, ip: nat, end: nat, total: nat)
    requires ip + IP_HEADER <= end <= |c| == |f| && c[ip..end] == f[ip..end]
    requires IP_HEADER <= total < 0x1_0000 && GetBE16(c, ip + IP_LENGTH) == total
    ensures CodePseudo(c, ip) == PseudoHeader(f, ip, total - IP_HEADER)
  {
    forall k | ip <= k < ip + IP_HEADER ensures c[k] == f[k] {
      assert c[ip..end][k - ip] == f[ip..end][k - ip];
    }
    PseudoSame(c, f, ip, total - IP_HEADER);
  }

  // With the code's own pseudo-header the segment always verifies.
  lemma SegmentVerifies(c: seq<byte>, l: Layout)
    requires l.Fits(|c|) && IP_HEADER <= GetBE16(c, l.ip + IP_LENGTH)
    ensures var f := TcpIpSealed(c, l);
            Verifies(PseudoHeader(f, l.ip, GetBE16(c, l.ip + IP_LENGTH) - IP_HEADER) + f[l.Tcp()..l.End()])
  {
    SealedVerifies(c, l.Tcp(), l.End(), l.Tcp() + TCP_CHECKSUM, CodePseudo(c, l.ip));
    SameIpHeader(c, l);
    SamePseudo(c, TcpIpSealed(c, l), l.ip, l.Tcp(), GetBE16(c, l.ip + IP_LENGTH));
  }

  /** xsum_tcp: the segment verifies exactly when the driver had left the folded sum
      of the pseudo-header, or a word congruent to it, in the checksum field. */
  lemma XsumVerifiesIff(b: seq<byte>, l4: nat, len: nat, field: nat, pseudo: seq<byte>)
    requires field + 2 <= len && l4 + len <= |b| && field % 2 == 0
    requires |pseudo| % 2 == 0 && WordSum(pseudo) > 0
    ensures Verifies(pseudo + L4Sealed(b, l4, len, field)[l4..l4 + len])
            <==> GetLE16(b, l4 + field) % 0xffff == WordSum(pseudo) % 0xffff
  {
    var t := L4Sealed(b, l4, len, field)[l4..l4 + len];
    var f := GetLE16(b, l4 + field);
    L4SealedSum(b, l4, len, field);
    WordSumConcat(pseudo, t);
    VerifiesExactly(pseudo + t, f, WordSum(pseudo), WordSum(t) + f);
  }

  lemma VerifiesExactly(s: seq<byte>, f: nat, p: nat, z: nat)
    requires WordSum(s) + f == p + z && z % 0xffff == 0 && WordSum(s) > 0
    ensures Verifies(s) <==> f % 0xffff == p % 0xffff
  {
    AllOnes(WordSum(s));
    Exchange(WordSum(s), f, p, z);
  }

  // The segment and the old word together are a multiple of 2^16 - 1.
  lemma L4SealedSum(b: seq<byte>, l4: nat, len: nat, field: nat)
    requires field + 2 <= len && l4 + len <= |b| && field % 2 == 0
    ensures (WordSum(L4Sealed(b, l4, len, field)[l4..l4 + len]) + GetLE16(b, l4 + field)) % 0xffff == 0
  {
    var block, t := b[l4..l4 + len], L4Sealed(b, l4, len, field);
    var v := ChecksumOf(block, []);
    assert t[l4..l4 + len] == PutLE16(block, field, v);
    WordSumPut(block, field, v);
    ComplementSums(WordSum(block));
    AllOnes(WordSum(block) + v);
  }

  lemma Exchange(sum: nat, f: nat, p: nat, z: nat)
    requires sum + f == p + z && z % 0xffff == 0
    ensures sum % 0xffff == 0 <==> f % 0xffff == p % 0xffff
  {
    SumCongruent(p, z, p, 0);
    if sum % 0xffff == 0 {
      SumCongruent(sum, f, 0, f);
    }
    if f % 0xffff == p % 0xffff {
      Uncancel(sum, f);
    }
  }

  lemma Uncancel(sum: nat, f: nat)
    requires (sum + f) % 0xffff == f % 0xffff
    ensures sum % 0xffff == 0
  {
    ModIs(sum, 0xffff, (sum + f) / 0xffff - f / 0xffff, 0);
  }

  // The driver's usual preparation meets that condition.
  lemma FoldedPseudoVerifies(b: seq<byte>, l4: nat, len: nat, field: nat, pseudo: seq<byte>)
    requires field + 2 <= len && l4 + len <= |b| && field % 2 == 0
    requires |pseudo| % 2 == 0 && WordSum(pseudo) > 0
    requires GetLE16(b, l4 + field) == OnesSum(WordSum(pseudo))
    ensures Verifies(pseudo + L4Sealed(b, l4, len, field)[l4..l4 + len])
  {
    OnesSumRange(WordSum(pseudo));
    XsumVerifiesIff(b, l4, len, field, pseudo);
  }

  // The next segment's identifier and sequence number, and nothing else changes.
  lemma AdvanceIs(b: seq<byte>, l: Layout)
    requires l.Fits(|b|)
    ensures IsAdvanced(b, Advanced(b, l), l)
  {
    SequenceAdvances(b, l);
    IdAdvances(SequenceAdvanced(b, l), l);
  }

  lemma SequenceAdvances(b: seq<byte>, l: Layout)
    requires l.Fits(|b|)
    ensures var at, c := l.Tcp() + TCP_SEQUENCE, SequenceAdvanced(b, l);
            && GetBE32(c, at) == Wrap(GetBE32(b, at) + l.paylen, 0x1_0000_0000)
            && (forall k {:trigger c[k]} :: 0 <= k < |b| && !(at <= k < at + 4) ==> c[k] == b[k])
            && GetBE16(c, l.ip + IP_ID) == GetBE16(b, l.ip + IP_ID)
  {
    var at := l.Tcp() + TCP_SEQUENCE;
    var v := Add32(GetBE32(b, at), l.paylen);
    PutGetBE32(b, at, v);
    BE32Frame(b, at, v);
    Add32Wraps(GetBE32(b, at), l.paylen);
  }

  lemma IdAdvances(b: seq<byte>, l: Layout)
    requires l.Fits(|b|)
    ensures var at, c := l.ip + IP_ID, IdAdvanced(b, l);
            && GetBE16(c, at) == Wrap(GetBE16(b, at) + 1, 0x1_0000)
            && (forall k {:trigger c[k]} :: 0 <= k < |b| && !(at <= k < at + 2) ==> c[k] == b[k])
            && GetBE32(c, l.Tcp() + TCP_SEQUENCE) == GetBE32(b, l.Tcp() + TCP_SEQUENCE)
  {
    var id := Next16(GetBE16(b, l.ip + IP_ID));
    assert id == Wrap(GetBE16(b, l.ip + IP_ID) + 1, 0x1_0000);
    PutGetBE16(b, l.ip + IP_ID, id);
    BE16Apart(b, l.ip + IP_ID, id, l.Tcp() + TCP_SEQUENCE);
  }

  lemma BE32Frame(s: seq<byte>, i: nat, v: nat)
    requires i + 4 <= |s| && v < 0x1_0000_0000
    ensures forall k {:trigger PutBE32(s, i, v)[k]} ::
              0 <= k < |s| && !(i <= k < i + 4) ==> PutBE32(s, i, v)[k] == s[k]
  {
  }

  lemma BE16Apart(s: seq<byte>, i: nat, v: nat, j: nat)
    requires i + 2 <= j && j + 4 <= |s| && v < 0x1_0000
    ensures GetBE32(PutBE16(s, i, v), j) == GetBE32(s, j)
  {
  }
}
