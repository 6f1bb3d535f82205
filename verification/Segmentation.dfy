/**
  What TCP segmentation must put on the wire for a unit of header and payload, and
  what one round of the transmit path contributes to it.
 */
module Segmentation {
  import opened Checksum
  import opened TcpHeaders
  import opened Modular
  import opened Wrappers

  const MTU: nat := 9024

  /** The header lengths and segment size of a unit, from its descriptors. */
  datatype Format = Format(maclen: nat, iplen: nat, l4len: nat, mss: nat)
  {
    function Header(): nat { maclen + iplen + l4len }

    predicate Ok() {
      && IP_HEADER <= iplen < 256 && TCP_HEADER <= l4len < 256
      && Header() + mss <= MTU
    }

    function Segment(paylen: nat): Layout { Layout(maclen, iplen, l4len, paylen) }

    function Tcp(): nat { maclen + iplen }

    function Sequence(): nat { maclen + iplen + TCP_SEQUENCE }

    function Id(): nat { maclen + IP_ID }
  }

  // ---------------------------------------------------------------- specification

  // The header bytes that segmentation rewrites.
  predicate Rewritten(f: Format, i: int) {
    || f.maclen + IP_LENGTH <= i < f.maclen + IP_ID + 2
    || f.maclen + IP_CHECKSUM <= i < f.maclen + IP_CHECKSUM + 2
    || f.Tcp() + TCP_SEQUENCE <= i < f.Tcp() + TCP_SEQUENCE + 4
    || f.Tcp() + TCP_CHECKSUM <= i < f.Tcp() + TCP_CHECKSUM + 2
  }

  // The header of packet k, which starts at payload byte `done`: the sequence number
  // has advanced by all earlier payload bytes, the identifier by one for each packet.
  ghost predicate HeaderFor(p: seq<byte>, unit: seq<byte>, f: Format, k: nat, done: nat)
    requires f.Ok() && f.Header() <= |unit|
  {
    && f.Header() <= |p|
    && GetBE32(p, f.Sequence()) == Wrap(GetBE32(unit, f.Sequence()) + done, 0x1_0000_0000)
    && GetBE16(p, f.Id()) == Wrap(GetBE16(unit, f.Id()) + k, 0x1_0000)
    && forall i :: 0 <= i < f.Header() && !Rewritten(f, i) ==> p[i] == unit[i]
  }

  // Length and checksums, as a receiver checks them: the TCP checksum, over the
  // pseudo-header of RFC 9293, is valid exactly when the IP header has no options.
  ghost predicate Checked(p: seq<byte>, f: Format)
    requires f.Ok()
  {
    && f.Header() <= |p| <= MTU
    && GetBE16(p, f.maclen + IP_LENGTH) == |p| - f.maclen
    && Verifies(p[f.maclen..f.Tcp()])
    && (Verifies(PseudoHeader(p, f.maclen, |p| - f.Tcp()) + p[f.Tcp()..]) <==> f.iplen == IP_HEADER)
  }

  // The end of the packet that starts at `from`.
  function Limit(unit: seq<byte>, f: Format, from: nat): nat {
    Min(from + f.mss, |unit|)
  }

  /** Packet k of a unit, carrying the unit's bytes from `from` on. */
  ghost predicate IsPacket(p: seq<byte>, unit: seq<byte>, f: Format, k: nat, from: nat) {
    && f.Ok() && f.Header() <= from <= |unit|
    && HeaderFor(p, unit, f, k, from - f.Header())
    && p[f.Header()..] == unit[from..Limit(unit, f, from)]
    && Checked(p, f)
  }

  ghost function Carrying(unit: seq<byte>, f: Format, k: nat, from: nat): iset<seq<byte>> {
    iset p: seq<byte> | IsPacket(p, unit, f, k, from)
  }

  // Where packet k starts in the unit.
  function Start(f: Format, k: nat): nat {
    if k == 0 then f.Header() else Start(f, k - 1) + f.mss
  }

  // The first packets of a unit.
  ghost predicate Emitted(s: seq<seq<byte>>, unit: seq<byte>, f: Format) {
    forall k {:trigger s[k]} :: 0 <= k < |s| ==> s[k] in Carrying(unit, f, k, Start(f, k))
  }

  /** The packets that carry a unit: no more than it takes. */
  ghost predicate Segmented(s: seq<seq<byte>>, unit: seq<byte>, f: Format) {
    && Emitted(s, unit, f)
    && |s| > 0 && |unit| <= Start(f, |s| - 1) + f.mss
    && (|s| > 1 ==> Start(f, |s| - 1) < |unit|)
  }

  lemma EmittedAppend(s: seq<seq<byte>>, p: seq<byte>, unit: seq<byte>, f: Format)
    requires Emitted(s, unit, f) && p in Carrying(unit, f, |s|, Start(f, |s|))
    ensures Emitted(s + [p], unit, f)
  {
  }

  // ---------------------------------------------------------------- what it implies

  // The payloads of the first n packets, joined.
  ghost function Payloads(s: seq<seq<byte>>, n: nat, header: nat): seq<byte>
    requires n <= |s|
  {
    if n == 0 then []
    else Payloads(s, n - 1, header) + (if header <= |s[n - 1]| then s[n - 1][header..] else [])
  }

  /** The payloads concatenate to the unit's payload. */
  lemma StreamPreserved(s: seq<seq<byte>>, unit: seq<byte>, f: Format)
    requires Segmented(s, unit, f)
    ensures f.Header() <= |unit| && Payloads(s, |s|, f.Header()) == unit[f.Header()..]
  {
    AllCarried(s, |s|, unit, f);
    Joined(s, unit, f, |s| - 1, Start(f, |s| - 1));
  }

  // The packet's payload is the unit's bytes from `from` on.
  ghost predicate Carries(p: seq<byte>, unit: seq<byte>, f: Format, from: nat) {
    && f.Header() <= |p| && f.Header() <= from <= |unit|
    && p[f.Header()..] == unit[from..Limit(unit, f, from)]
  }

  // The first n packets carry the unit's bytes, one after the other.
  ghost predicate Carried(s: seq<seq<byte>>, n: nat, unit: seq<byte>, f: Format)
    requires n <= |s|
  {
    n == 0 || (Carried(s, n - 1, unit, f) && Carries(s[n - 1], unit, f, Start(f, n - 1)))
  }

  lemma {:induction false} AllCarried(s: seq<seq<byte>>, n: nat, unit: seq<byte>, f: Format)
    requires Emitted(s, unit, f) && n <= |s|
    ensures Carried(s, n, unit, f)
  {
    if n > 0 {
      AllCarried(s, n - 1, unit, f);
      CarryAt(s, n - 1, unit, f);
    }
  }

  lemma CarryAt(s: seq<seq<byte>>, k: nat, unit: seq<byte>, f: Format)
    requires Emitted(s, unit, f) && k < |s|
    ensures Carries(s[k], unit, f, Start(f, k))
  {
    PacketPayload(s[k], unit, f, k, Start(f, k));
  }

  lemma Joined(s: seq<seq<byte>>, unit: seq<byte>, f: Format, n: nat, from: nat)
    requires n + 1 == |s| && Carried(s, |s|, unit, f) && from == Start(f, n) && |unit| <= from + f.mss
    ensures f.Header() <= |unit| && Payloads(s, |s|, f.Header()) == unit[f.Header()..]
  {
    JoinedSoFar(s, n, unit, f);
    JoinEnd(s, n, unit, f, from);
  }

  lemma {:induction false} JoinedSoFar(s: seq<seq<byte>>, n: nat, unit: seq<byte>, f: Format)
    requires n <= |s| && Carried(s, n, unit, f) && Start(f, n) <= |unit|
    ensures f.Header() <= Start(f, n) && Payloads(s, n, f.Header()) == unit[f.Header()..Start(f, n)]
    decreases n
  {
    if n > 0 {
      JoinedSoFar(s, n - 1, unit, f);
      JoinFull(s, n - 1, unit, f, Start(f, n - 1), Start(f, n));
    }
  }

  lemma JoinFull(s: seq<seq<byte>>, n: nat, unit: seq<byte>, f: Format, from: nat, to: nat)
    requires n < |s| && Carries(s[n], unit, f, from) && to == from + f.mss <= |unit|
    requires Payloads(s, n, f.Header()) == unit[f.Header()..from]
    ensures Payloads(s, n + 1, f.Header()) == unit[f.Header()..to]
  {
    JoinNext(s, n, unit, f, from);
  }

  lemma JoinNext(s: seq<seq<byte>>, n: nat, unit: seq<byte>, f: Format, from: nat)
    requires n < |s| && Carries(s[n], unit, f, from)
    requires Payloads(s, n, f.Header()) == unit[f.Header()..from]
    ensures Payloads(s, n + 1, f.Header()) == unit[f.Header()..Limit(unit, f, from)]
  {
    SliceJoin(unit, f.Header(), from, Limit(unit, f, from));
  }

  lemma JoinEnd(s: seq<seq<byte>>, n: nat, unit: seq<byte>, f: Format, from: nat)
    requires n + 1 == |s| && Carries(s[n], unit, f, from) && |unit| <= from + f.mss
    requires Payloads(s, n, f.Header()) == unit[f.Header()..from]
    ensures Payloads(s, |s|, f.Header()) == unit[f.Header()..]
  {
    JoinNext(s, n, unit, f, from);
    WholeTail(unit, f.Header());
  }

  lemma WholeTail<T>(u: seq<T>, a: nat)
    requires a <= |u|
    ensures u[a..|u|] == u[a..]
  {
  }

  lemma SliceJoin<T>(u: seq<T>, a: nat, b: nat, c: nat)
    requires a <= b <= c <= |u|
    ensures u[a..c] == u[a..b] + u[b..c]
  {
  }

  lemma PacketPayload(p: seq<byte>, unit: seq<byte>, f: Format, k: nat, from: nat)
    requires p in Carrying(unit, f, k, from)
    ensures f.Header() <= from <= |unit| && f.Header() <= |p|
    ensures p[f.Header()..] == unit[from..Limit(unit, f, from)]
    ensures |p| == f.Header() + Limit(unit, f, from) - from
  {
    assert |p[f.Header()..]| == |p| - f.Header();
  }

  lemma {:induction false} StartIs(f: Format, k: nat)
    ensures Start(f, k) == f.Header() + k * f.mss
  {
    if k > 0 {
      StartIs(f, k - 1);
      assert (k - 1) * f.mss + f.mss == k * f.mss;
    }
  }

  /** All packets but the last carry exactly mss bytes. */
  lemma PacketLengths(s: seq<seq<byte>>, unit: seq<byte>, f: Format, k: nat)
    requires Segmented(s, unit, f) && k < |s|
    ensures k < |s| - 1 ==> |s[k]| == f.Header() + f.mss
    ensures k == |s| - 1 ==> |s[k]| == f.Header() + |unit| - Start(f, k) <= f.Header() + f.mss
  {
    StartMonotone(f, k, |s| - 1);
    PacketLength(s[k], unit, f, k, Start(f, k), Start(f, |s| - 1), k == |s| - 1);
  }

  lemma PacketLength(p: seq<byte>, unit: seq<byte>, f: Format, k: nat, from: nat, end: nat, last: bool)
    requires p in Carrying(unit, f, k, from) && |unit| <= end + f.mss
    requires if last then from == end else from + f.mss <= end < |unit|
    ensures !last ==> |p| == f.Header() + f.mss
    ensures last ==> |p| == f.Header() + |unit| - from <= f.Header() + f.mss
  {
    PacketPayload(p, unit, f, k, from);
  }

  lemma {:induction false} StartMonotone(f: Format, j: nat, k: nat)
    ensures j < k ==> Start(f, j) + f.mss <= Start(f, k)
  {
    if j < k - 1 {
      StartMonotone(f, j, k - 1);
    }
  }

  /** Packet k: the sequence number is seq0 + k * mss modulo 2^32, the identifier
      id0 + k modulo 2^16, and length and checksums are right. */
  lemma PacketNumbers(s: seq<seq<byte>>, unit: seq<byte>, f: Format, k: nat)
    requires Segmented(s, unit, f) && k < |s|
    ensures f.Ok() && f.Header() <= |unit|
    ensures HeaderFor(s[k], unit, f, k, Preceding(f, k)) && Checked(s[k], f)
  {
    PacketFields(s[k], unit, f, k, Preceding(f, k));
  }

  // The payload bytes before packet k.
  function Preceding(f: Format, k: nat): nat { k * f.mss }

  // The same with the operator of the source's arithmetic.
  lemma SequenceAndId(s: seq<seq<byte>>, unit: seq<byte>, f: Format, k: nat)
    requires Segmented(s, unit, f) && k < |s|
    ensures f.Ok() && f.Header() <= |unit| && f.Header() <= |s[k]|
    ensures GetBE32(s[k], f.Sequence()) == (GetBE32(unit, f.Sequence()) + Preceding(f, k)) % 0x1_0000_0000
    ensures GetBE16(s[k], f.Id()) == (GetBE16(unit, f.Id()) + k) % 0x1_0000
  {
    PacketNumbers(s, unit, f, k);
    WrapIsMod(GetBE32(unit, f.Sequence()) + Preceding(f, k), 0x1_0000_0000);
    WrapIsMod(GetBE16(unit, f.Id()) + k, 0x1_0000);
  }

  lemma PacketFields(p: seq<byte>, unit: seq<byte>, f: Format, k: nat, done: nat)
    requires p in Carrying(unit, f, k, Start(f, k)) && done == Preceding(f, k)
    ensures f.Ok() && f.Header() <= |unit| && HeaderFor(p, unit, f, k, done) && Checked(p, f)
  {
    StartIs(f, k);
  }

  // ---------------------------------------------------------------- one round

  // The whole unit's own header is the header of packet 0.
  lemma FirstHeader(p: seq<byte>, unit: seq<byte>, f: Format)
    requires f.Ok() && f.Header() <= |unit| && f.Header() <= |p| && p[..f.Header()] == unit[..f.Header()]
    ensures HeaderFor(p, unit, f, 0, 0)
  {
    forall i | 0 <= i < f.Header() ensures p[i] == unit[i] {
      assert p[..f.Header()][i] == unit[..f.Header()][i];
    }
    SameWords(p, unit, f.Id(), f.Sequence());
  }

  lemma SameWords(a: seq<byte>, b: seq<byte>, i: nat, j: nat)
    requires i + 2 <= |a| && i + 2 <= |b| && j + 4 <= |a| && j + 4 <= |b|
    requires a[i] == b[i] && a[i + 1] == b[i + 1]
    requires a[j] == b[j] && a[j + 1] == b[j + 1] && a[j + 2] == b[j + 2] && a[j + 3] == b[j + 3]
    ensures GetBE16(a, i) == GetBE16(b, i) && GetBE32(a, j) == GetBE32(b, j)
  {
  }

  // Only rewritten header bytes change.
  lemma FixedUpKeeps(b: seq<byte>, p: seq<byte>, f: Format, paylen: nat)
    requires f.Ok() && IsFixedUp(b, p, f.Segment(paylen))
    ensures forall i :: 0 <= i < |b| && !Rewritten(f, i) ==> p[i] == b[i]
    ensures GetBE32(p, f.Sequence()) == GetBE32(b, f.Sequence())
    ensures GetBE16(p, f.Id()) == GetBE16(b, f.Id())
  {
    var l := f.Segment(paylen);
    assert forall i :: InLengthOrChecksum(l, i) ==> Rewritten(f, i);
    SameWords(p, b, f.Id(), f.Sequence());
  }

  lemma FixedUpHeader(b: seq<byte>, p: seq<byte>, unit: seq<byte>, f: Format, k: nat, done: nat, paylen: nat)
    requires f.Ok() && f.Header() <= |unit| && IsFixedUp(b, p, f.Segment(paylen))
    requires HeaderFor(b, unit, f, k, done)
    ensures HeaderFor(p, unit, f, k, done)
  {
    FixedUpKeeps(b, p, f, paylen);
  }

  lemma AdvancedHeader(p: seq<byte>, q: seq<byte>, unit: seq<byte>, f: Format, k: nat, done: nat, paylen: nat)
    requires f.Ok() && f.Header() <= |unit| && IsAdvanced(p, q, f.Segment(paylen))
    requires HeaderFor(p, unit, f, k, done)
    ensures HeaderFor(q, unit, f, k + 1, done + paylen)
  {
    AdvancedNumbers(p, q, unit, f, k, done, paylen);
    AdvancedKeeps(p, q, unit, f, paylen);
  }

  lemma AdvancedNumbers(p: seq<byte>, q: seq<byte>, unit: seq<byte>, f: Format, k: nat, done: nat, paylen: nat)
    requires f.Ok() && f.Header() <= |unit| && IsAdvanced(p, q, f.Segment(paylen))
    requires GetBE32(p, f.Sequence()) == Wrap(GetBE32(unit, f.Sequence()) + done, 0x1_0000_0000)
    requires GetBE16(p, f.Id()) == Wrap(GetBE16(unit, f.Id()) + k, 0x1_0000)
    ensures GetBE32(q, f.Sequence()) == Wrap(GetBE32(unit, f.Sequence()) + (done + paylen), 0x1_0000_0000)
    ensures GetBE16(q, f.Id()) == Wrap(GetBE16(unit, f.Id()) + (k + 1), 0x1_0000)
  {
    WrapWrap(GetBE32(unit, f.Sequence()) + done, paylen, 0x1_0000_0000);
    WrapWrap(GetBE16(unit, f.Id()) + k, 1, 0x1_0000);
  }

  lemma AdvancedKeeps(p: seq<byte>, q: seq<byte>, unit: seq<byte>, f: Format, paylen: nat)
    requires f.Ok() && f.Header() <= |unit| && IsAdvanced(p, q, f.Segment(paylen))
    requires forall i :: 0 <= i < f.Header() && !Rewritten(f, i) ==> p[i] == unit[i]
    ensures forall i :: 0 <= i < f.Header() && !Rewritten(f, i) ==> q[i] == unit[i]
  {
    assert forall i :: InIdOrSequence(f.Segment(paylen), i) ==> Rewritten(f, i);
  }

  lemma PayloadKept(b: seq<byte>, p: seq<byte>, f: Format, paylen: nat)
    requires f.Ok() && IsFixedUp(b, p, f.Segment(paylen))
    ensures p[f.Header()..] == b[f.Header()..]
  {
    assert forall i :: f.Header() <= i ==> !InLengthOrChecksum(f.Segment(paylen), i);
  }

  lemma FixedUpChecked(b: seq<byte>, p: seq<byte>, f: Format, paylen: nat)
    requires f.Ok() && paylen <= f.mss && |b| == f.Header() + paylen && IsFixedUp(b, p, f.Segment(paylen))
    ensures Checked(p, f)
  {
    var l := f.Segment(paylen);
    assert p[l.Tcp()..l.End()] == p[f.Tcp()..];
  }

  /** A buffer with packet k's header and payload, fixed up, is packet k; advanced, it
      holds packet k + 1's header. */
  lemma Round(b: seq<byte>, p: seq<byte>, unit: seq<byte>, f: Format, k: nat, from: nat)
    requires f.Ok() && f.Header() <= from <= |unit|
    requires HeaderFor(b, unit, f, k, from - f.Header())
    requires |b| == f.Header() + Limit(unit, f, from) - from
    requires b[f.Header()..] == unit[from..Limit(unit, f, from)]
    requires IsFixedUp(b, p, f.Segment(Limit(unit, f, from) - from))
    ensures p in Carrying(unit, f, k, from)
    ensures HeaderFor(p, unit, f, k, from - f.Header())
  {
    var paylen := Limit(unit, f, from) - from;
    FixedUpHeader(b, p, unit, f, k, from - f.Header(), paylen);
    PayloadKept(b, p, f, paylen);
    FixedUpChecked(b, p, f, paylen);
  }

  // The fix-up only concerns the packet, not what lies behind it in the buffer.
  lemma FixedUpPrefix(b: seq<byte>, r: seq<byte>, l: Layout, n: nat)
    requires IsFixedUp(b, r, l) && l.End() <= n <= |b|
    ensures IsFixedUp(b[..n], r[..n], l)
  {
    assert r[..n][l.ip..l.Tcp()] == r[l.ip..l.Tcp()];
    assert r[..n][l.Tcp()..l.End()] == r[l.Tcp()..l.End()];
    if l.IpTotal() < 0x1_0000 {
      PseudoSame(r, r[..n], l.ip, l.l4len + l.paylen);
    }
  }

  lemma HeaderPrefix(b: seq<byte>, n: nat, unit: seq<byte>, f: Format, k: nat, done: nat)
    requires f.Ok() && f.Header() <= |unit| && f.Header() <= n <= |b|
    ensures HeaderFor(b[..n], unit, f, k, done) <==> HeaderFor(b, unit, f, k, done)
  {
    SameWords(b[..n], b, f.Id(), f.Sequence());
    assert forall i :: 0 <= i < f.Header() ==> b[..n][i] == b[i];
  }

  // Buffers that hold the header of packet k.
  ghost predicate IsHeading(b: seq<byte>, unit: seq<byte>, f: Format, k: nat, from: nat) {
    && f.Ok() && f.Header() <= from <= |unit|
    && HeaderFor(b, unit, f, k, from - f.Header())
  }

  ghost function Heading(unit: seq<byte>, f: Format, k: nat, from: nat): iset<seq<byte>> {
    iset b: seq<byte> | IsHeading(b, unit, f, k, from)
  }

  /** One packet: a buffer with packet k's header and payload, once fixed up, is packet k
      with anything behind it; advanced, it holds packet k + 1's header. */
  lemma SegmentRound(b: seq<byte>, r: seq<byte>, after: seq<byte>, n: nat, unit: seq<byte>, f: Format, k: nat, from: nat)
    requires b in Heading(unit, f, k, from) && n <= |b|
    requires n == f.Header() + Limit(unit, f, from) - from
    requires f.Header() <= n && from <= |unit| && b[f.Header()..n] == unit[from..Limit(unit, f, from)]
    requires r in FixedUps(b, f.Segment(Limit(unit, f, from) - from))
    requires after in Advances(r, f.Segment(Limit(unit, f, from) - from))
    ensures n <= |r| && r[..n] in Carrying(unit, f, k, from)
    ensures after in Heading(unit, f, k + 1, Limit(unit, f, from))
  {
    RoundPacket(b, r, n, unit, f, k, from);
    NextHeading(r, after, unit, f, k, from, Limit(unit, f, from));
  }

  lemma NextHeading(r: seq<byte>, after: seq<byte>, unit: seq<byte>, f: Format, k: nat, from: nat, to: nat)
    requires f.Ok() && f.Header() <= from <= to <= |unit|
    requires HeaderFor(r, unit, f, k, from - f.Header()) && after in Advances(r, f.Segment(to - from))
    ensures after in Heading(unit, f, k + 1, to)
  {
    AdvancedHeader(r, after, unit, f, k, from - f.Header(), to - from);
  }

  lemma RoundPacket(b: seq<byte>, r: seq<byte>, n: nat, unit: seq<byte>, f: Format, k: nat, from: nat)
    requires IsHeading(b, unit, f, k, from) && n <= |b|
    requires n == f.Header() + Limit(unit, f, from) - from
    requires b[f.Header()..n] == unit[from..Limit(unit, f, from)]
    requires IsFixedUp(b, r, f.Segment(Limit(unit, f, from) - from))
    ensures n <= |r| && r[..n] in Carrying(unit, f, k, from)
    ensures HeaderFor(r, unit, f, k, from - f.Header())
  {
    var l := f.Segment(Limit(unit, f, from) - from);
    FixedUpPrefix(b, r, l, n);
    HeaderPrefix(b, n, unit, f, k, from - f.Header());
    assert b[..n][f.Header()..] == b[f.Header()..n];
    Round(b[..n], r[..n], unit, f, k, from);
    HeaderPrefix(r, n, unit, f, k, from - f.Header());
  }
}
