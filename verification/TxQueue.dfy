/**
  The transmit queue: lan_queue_tx::trigger_tx_packet and trigger_tx.  A unit is one
  packet or one TCP unit to be segmented, described by an optional context descriptor
  and data descriptors up to the one marked end-of-packet.
 */
module TxQueue {
  import opened Checksum
  import opened TcpHeaders
  import opened Segmentation
  import opened TsoOffload
  import opened Modular
  import opened Wrappers

  // ------------------------------------------------------------------ descriptors

  datatype L4Type = NoL4 | Tcp | Udp

  datatype Desc =
    | Context(tso: bool, mss: nat)
    | Data(eop: bool, l4t: L4Type, maclen: nat, iplen: nat, l4len: nat, bytes: seq<byte>)

  // The search for the end of the unit.
  datatype Scan = Incomplete | NotData | Complete(end: nat)

  function Skip(ready: seq<Desc>): (n: nat)
    ensures n <= |ready|
  {
    if ready != [] && ready[0].Context? then 1 else 0
  }

  function ScanFrom(ready: seq<Desc>, i: nat): (s: Scan)
    requires i <= |ready|
    ensures s.Complete? ==> i < s.end <= |ready| && ready[s.end - 1].Data? && ready[s.end - 1].eop
    ensures s.Complete? ==> forall k :: i <= k < s.end ==> ready[k].Data?
    decreases |ready| - i
  {
    if i == |ready| then Incomplete
    else if ready[i].Context? then NotData
    else if ready[i].eop then Complete(i + 1)
    else ScanFrom(ready, i + 1)
  }

  function Find(ready: seq<Desc>): (s: Scan)
    ensures s.Complete? ==> 0 < s.end <= |ready|
  {
    ScanFrom(ready, Skip(ready))
  }

  // The bytes of descriptors lo to hi - 1.
  function BytesTo(ready: seq<Desc>, lo: nat, hi: nat): seq<byte>
    requires hi <= |ready| && forall k :: lo <= k < hi ==> ready[k].Data?
    decreases hi
  {
    if hi <= lo then [] else BytesTo(ready, lo, hi - 1) + ready[hi - 1].bytes
  }

  // Earlier descriptors hold a prefix of the bytes.
  lemma {:induction false} BytesPrefix(ready: seq<Desc>, lo: nat, mid: nat, hi: nat)
    requires lo <= mid <= hi <= |ready| && forall k :: lo <= k < hi ==> ready[k].Data?
    ensures |BytesTo(ready, lo, mid)| <= |BytesTo(ready, lo, hi)|
    ensures BytesTo(ready, lo, mid) == BytesTo(ready, lo, hi)[..|BytesTo(ready, lo, mid)|]
    decreases hi
  {
    if mid < hi {
      BytesPrefix(ready, lo, mid, hi - 1);
    }
  }

  /** A complete unit at the front of the queue. */
  datatype Job = Job(tso: bool, f: Format, l4t: L4Type, bytes: seq<byte>, end: nat)

  function FirstJob(ready: seq<Desc>): Job
    requires Find(ready).Complete?
  {
    var skip, end := Skip(ready), Find(ready).end;
    var last := ready[end - 1];
    var tso, mss := if skip == 1 then ready[0].tso else false, if skip == 1 then ready[0].mss else 0;
    Job(tso, Format(last.maclen, last.iplen, last.l4len, mss), last.l4t, BytesTo(ready, skip, end), end)
  }

  function ChecksumField(t: L4Type): nat { if t == Tcp then TCP_CHECKSUM else UDP_CHECKSUM }

  // A descriptor that is no data descriptor inside a unit, or a packet over the MTU.
  predicate MustAbort(ready: seq<Desc>) {
    var scan := Find(ready);
    scan.NotData? || (scan.Complete? && !FirstJob(ready).tso && |FirstJob(ready).bytes| > MTU)
  }

  // The first descriptor behind the optional context descriptor that is marked end-of-packet
  // or is no data descriptor.
  predicate Decides(ready: seq<Desc>, i: nat) {
    && Skip(ready) <= i < |ready| && (ready[i].Data? ==> ready[i].eop)
    && forall k :: Skip(ready) <= k < i ==> ready[k].Data? && !ready[k].eop
  }

  lemma {:induction false} ScanTo(ready: seq<Desc>, j: nat, i: nat)
    requires Skip(ready) <= j <= i && Decides(ready, i)
    ensures ScanFrom(ready, j) == if ready[i].Data? then Complete(i + 1) else NotData
    decreases i - j
  {
    if j < i {
      ScanTo(ready, j + 1, i);
    }
  }

  lemma {:induction false} ScanDecides(ready: seq<Desc>, j: nat) returns (i: nat)
    requires Skip(ready) <= j <= |ready| && forall k :: Skip(ready) <= k < j ==> ready[k].Data? && !ready[k].eop
    ensures !ScanFrom(ready, j).Incomplete? ==> Decides(ready, i)
    decreases |ready| - j
  {
    i := j;
    if j < |ready| && ready[j].Data? && !ready[j].eop {
      i := ScanDecides(ready, j + 1);
    }
  }

  /** The code waits while no descriptor decides; it sends the unit up to the first one marked
      end-of-packet; and it aborts if that is no data descriptor, or if an unsegmented packet
      is longer than 9024 bytes. */
  lemma UnitIs(ready: seq<Desc>)
    ensures Find(ready).Incomplete? <==> forall i: nat :: !Decides(ready, i)
    ensures forall i: nat :: Decides(ready, i) && ready[i].Data? ==> Find(ready) == Complete(i + 1)
    ensures MustAbort(ready) <==> exists i: nat :: Decides(ready, i) && (ready[i].Data? ==>
                    !(ready[0].Context? && ready[0].tso) && |BytesTo(ready, Skip(ready), i + 1)| > 9024)
  {
    var j := ScanDecides(ready, Skip(ready));
    forall i: nat | Decides(ready, i)
      ensures Find(ready) == if ready[i].Data? then Complete(i + 1) else NotData
    {
      ScanTo(ready, Skip(ready), i);
    }
  }

  // A unit the code goes on to send.
  predicate Sendable(ready: seq<Desc>) {
    Find(ready).Complete? && !MustAbort(ready)
  }

  // What the code relies on: headers that lie within the unit.
  ghost predicate JobOk(ready: seq<Desc>)
    requires Find(ready).Complete?
  {
    var j := FirstJob(ready);
    && (j.tso ==> j.f.Ok() && j.f.Header() <= |j.bytes|)
    && (!j.tso && j.l4t != NoL4 ==> j.f.maclen + j.f.iplen + ChecksumField(j.l4t) + 2 <= |j.bytes|)
  }

  // The same of every unit in the queue that is sent.
  ghost predicate AllOk(ready: seq<Desc>)
    decreases |ready|
  {
    Sendable(ready) ==> JobOk(ready) && AllOk(ready[Find(ready).end..])
  }

  // A unit that is sent and done with: it ends in a buffer that is not empty, and if it is
  // longer than its headers its segment size is not 0.
  predicate Finite(ready: seq<Desc>)
    requires Find(ready).Complete?
  {
    var j := FirstJob(ready);
    |ready[j.end - 1].bytes| > 0 && (j.tso && |j.bytes| > j.f.Header() ==> j.f.mss > 0)
  }

  // Every unit that is sent is.
  predicate Ends(ready: seq<Desc>)
    decreases |ready|
  {
    Sendable(ready) ==> Finite(ready) && Ends(ready[Find(ready).end..])
  }

  // All units that are sent have headers the code can rely on, and so has what a unit with
  // an empty last buffer leaves behind: no checksum is asked for it.
  ghost predicate Sound(ready: seq<Desc>)
    decreases |ready|
  {
    Sendable(ready) ==>
      && JobOk(ready)
      && (ready[Find(ready).end - 1].bytes == [] ==> ready[Find(ready).end - 1].l4t == NoL4)
      && Sound(ready[Find(ready).end..])
  }

  // --------------------------------------------------------------- what is transmitted

  // A packet that needs no segmentation.
  ghost function Plain(j: Job): seq<byte> {
    var l4 := j.f.maclen + j.f.iplen;
    if j.l4t == NoL4 || |j.bytes| < l4 + ChecksumField(j.l4t) + 2 then j.bytes
    else L4Sealed(j.bytes, l4, |j.bytes| - l4, ChecksumField(j.l4t))
  }

  /** How a unit was sent: if it was `offered` to the ports as a chain, with which answers;
      and the packets that were cut in software. */
  datatype Outcome = Outcome(offered: bool, answers: seq<bool>, chain: Chain, packets: seq<seq<byte>>)
  {
    // The number of ports, from the first on, that took the chain.
    function Copies(): nat { if offered then Accepted(answers) else 0 }
  }

  ghost function Packets(s: seq<seq<byte>>): (r: seq<Frame>)
    ensures |r| == |s|
  {
    seq(|s|, i requires 0 <= i < |s| => Packet(s[i]))
  }

  function Whole(j: Job, chain: Chain): Frame {
    Offloaded(chain, j.f.maclen, j.f.iplen, j.f.l4len, j.f.mss)
  }

  // What port p is given of a unit.
  ghost function OnPort(j: Job, o: Outcome, p: nat): seq<Frame> {
    (if p < o.Copies() then [Whole(j, o.chain)] else []) + Packets(o.packets)
  }

  // The wires of all ports with a unit added.
  ghost function Extended(wires: seq<seq<Frame>>, j: Job, o: Outcome): (r: seq<seq<Frame>>)
    ensures |r| == |wires|
  {
    seq(|wires|, p requires 0 <= p < |wires| => wires[p] + OnPort(j, o, p))
  }

  // A chain that was offered is the unit.
  ghost predicate ChainOk(j: Job, o: Outcome, ports: nat, capacity: nat) {
    o.offered ==> j.tso && |o.answers| == ports && o.chain.Valid(capacity) && o.chain.Bytes() == j.bytes
  }

  /** A finished unit: a plain packet; or a chain that every port took; or else, whether or
      not some ports took the chain, all its packets cut in software. */
  ghost predicate Done(j: Job, o: Outcome, ports: nat, capacity: nat) {
    && ChainOk(j, o, ports, capacity)
    && if !j.tso then o.packets == [Plain(j)]
       else if o.packets == [] then o.offered && AllAccepted(o.answers)
       else (o.offered ==> !AllAccepted(o.answers)) && Segmented(o.packets, j.bytes, j.f)
  }

  ghost function Outcomes(j: Job, ports: nat, capacity: nat): iset<Outcome> {
    iset o: Outcome | Done(j, o, ports, capacity)
  }

  // --------------------------------------------------------- in the descriptors' terms

  // Packet k of a unit with these header lengths and this segment size, after `done` bytes
  // of payload: the bytes it carries, and its header.
  ghost predicate SegmentOf(p: seq<byte>, unit: seq<byte>, maclen: nat, iplen: nat, l4len: nat, mss: nat, k: nat, done: nat) {
    var header := maclen + iplen + l4len;
    && iplen >= 20 && l4len >= 20 && header + done <= |unit| && header <= |p| <= MTU
    && p[header..] == unit[header + done..Min(header + done + mss, |unit|)]
    && NumberedAs(p, unit, maclen, maclen + iplen, header, k, done)
    && CheckedAs(p, maclen, maclen + iplen)
  }

  // Sequence number and identifier; all header bytes that are not updated are the unit's.
  ghost predicate NumberedAs(p: seq<byte>, unit: seq<byte>, ip: nat, tcp: nat, header: nat, k: nat, done: nat)
    requires ip + 20 <= tcp && tcp + 20 <= header <= |p| && header <= |unit|
  {
    && GetBE32(p, tcp + 4) == (GetBE32(unit, tcp + 4) + done) % 0x1_0000_0000
    && GetBE16(p, ip + 4) == (GetBE16(unit, ip + 4) + k) % 0x1_0000
    && forall i :: 0 <= i < header && !Updated(i, ip, tcp) ==> p[i] == unit[i]
  }

  // Total length, and the checksums of the IP header and of the TCP segment.
  ghost predicate CheckedAs(p: seq<byte>, ip: nat, tcp: nat)
    requires ip + 20 <= tcp <= |p| <= MTU
  {
    && GetBE16(p, ip + 2) == |p| - ip
    && Verifies(p[ip..tcp])
    && (Verifies(PseudoHeader(p, ip, |p| - tcp) + p[tcp..]) <==> tcp == ip + 20)
  }

  // The IP header's length, identifier and checksum, and TCP's sequence number and checksum.
  predicate Updated(i: nat, ip: nat, tcp: nat) {
    ip + 2 <= i < ip + 6 || ip + 10 <= i < ip + 12 || tcp + 4 <= i < tcp + 8 || tcp + 16 <= i < tcp + 18
  }

  // The payload bytes before packet k.
  function Earlier(k: nat, mss: nat): nat { k * mss }

  ghost function Segments(unit: seq<byte>, maclen: nat, iplen: nat, l4len: nat, mss: nat, k: nat): iset<seq<byte>> {
    iset p | SegmentOf(p, unit, maclen, iplen, l4len, mss, k, Earlier(k, mss))
  }

  // A packet sent as it is but for its checksum, which the code adds at byte 16 of a TCP
  // header and at byte 6 of a UDP header.
  ghost predicate PlainOf(p: seq<byte>, bytes: seq<byte>, l4t: L4Type, l4: nat) {
    match l4t
    case NoL4 => p == bytes
    case Tcp => l4 + 18 <= |bytes| ==> p == L4Sealed(bytes, l4, |bytes| - l4, 16)
    case Udp => l4 + 8 <= |bytes| ==> p == L4Sealed(bytes, l4, |bytes| - l4, 6)
  }

  // A unit that is segmented, in software or by the ports.
  ghost predicate CutAs(o: Outcome, unit: seq<byte>, d: Desc, mss: nat, job: Job)
    requires d.Data?
  {
    && (forall k :: 0 <= k < |o.packets| ==> o.packets[k] in Segments(unit, d.maclen, d.iplen, d.l4len, mss, k))
    && (o.offered ==> o.chain.Bytes() == unit)
    && (forall port: nat :: OnPort(job, o, port) ==
          (if port < o.Copies() then [Offloaded(o.chain, d.maclen, d.iplen, d.l4len, mss)] else []) + Packets(o.packets))
  }

  // A unit that is sent as one packet.
  ghost predicate SentAs(o: Outcome, unit: seq<byte>, d: Desc, job: Job)
    requires d.Data?
  {
    && !o.offered && |o.packets| == 1 && PlainOf(o.packets[0], unit, d.l4t, d.maclen + d.iplen)
    && forall port: nat :: OnPort(job, o, port) == [Packet(o.packets[0])]
  }

  /** What the unit at the front of the queue puts on the wires, told by its descriptors: the
      context descriptor says whether and how to segment, the last data descriptor where the
      headers are. */
  ghost predicate Described(queue: seq<Desc>, o: Outcome)
    requires Find(queue).Complete?
  {
    var d, unit := queue[Find(queue).end - 1], BytesTo(queue, Skip(queue), Find(queue).end);
    if queue[0].Context? && queue[0].tso then CutAs(o, unit, d, queue[0].mss, FirstJob(queue))
    else SentAs(o, unit, d, FirstJob(queue))
  }

  lemma SegmentIs(p: seq<byte>, unit: seq<byte>, f: Format, k: nat)
    requires p in Carrying(unit, f, k, Start(f, k))
    ensures p in Segments(unit, f.maclen, f.iplen, f.l4len, f.mss, k)
  {
    StartAfter(f, k);
    SegmentFrom(p, unit, f, k, Earlier(k, f.mss));
  }

  lemma StartAfter(f: Format, k: nat)
    ensures Start(f, k) == f.Header() + Earlier(k, f.mss)
  {
    StartIs(f, k);
  }

  lemma SegmentFrom(p: seq<byte>, unit: seq<byte>, f: Format, k: nat, done: nat)
    requires p in Carrying(unit, f, k, f.Header() + done)
    ensures SegmentOf(p, unit, f.maclen, f.iplen, f.l4len, f.mss, k, done)
  {
    assert IsPacket(p, unit, f, k, f.Header() + done);
    NumbersMod(p, unit, f, k, done);
    ChecksAs(p, f);
  }

  lemma ChecksAs(p: seq<byte>, f: Format)
    requires f.Ok() && Checked(p, f)
    ensures CheckedAs(p, f.maclen, f.maclen + f.iplen)
  {
  }

  lemma NumbersMod(p: seq<byte>, unit: seq<byte>, f: Format, k: nat, done: nat)
    requires f.Ok() && f.Header() <= |unit| && HeaderFor(p, unit, f, k, done)
    ensures NumberedAs(p, unit, f.maclen, f.maclen + f.iplen, f.Header(), k, done)
  {
    var tcp := f.maclen + f.iplen;
    assert GetBE32(p, tcp + 4) == (GetBE32(unit, tcp + 4) + done) % 0x1_0000_0000 by {
      Residue(GetBE32(p, f.Sequence()), GetBE32(unit, f.Sequence()), done, 0x1_0000_0000);
    }
    assert GetBE16(p, f.maclen + 4) == (GetBE16(unit, f.maclen + 4) + k) % 0x1_0000 by {
      Residue(GetBE16(p, f.Id()), GetBE16(unit, f.Id()), k, 0x1_0000);
    }
    OthersKept(p, unit, f, k, done);
  }

  lemma Residue(x: nat, y: nat, d: nat, n: nat)
    requires n > 0 && x == Wrap(y + d, n)
    ensures x == (y + d) % n
  {
    WrapIsMod(y + d, n);
  }

  lemma OthersKept(p: seq<byte>, unit: seq<byte>, f: Format, k: nat, done: nat)
    requires f.Ok() && f.Header() <= |unit| && HeaderFor(p, unit, f, k, done)
    ensures forall i :: 0 <= i < f.Header() && !Updated(i, f.maclen, f.Tcp()) ==> p[i] == unit[i]
  {
    assert forall i: nat :: Rewritten(f, i) <==> Updated(i, f.maclen, f.Tcp());
  }

  lemma CutDescribed(o: Outcome, j: Job, d: Desc, ports: nat, capacity: nat)
    requires d.Data? && j.tso && j.f == Format(d.maclen, d.iplen, d.l4len, j.f.mss)
    requires ChainOk(j, o, ports, capacity) && Emitted(o.packets, j.bytes, j.f)
    ensures CutAs(o, j.bytes, d, j.f.mss, j)
  {
    forall k | 0 <= k < |o.packets|
      ensures o.packets[k] in Segments(j.bytes, d.maclen, d.iplen, d.l4len, j.f.mss, k)
    {
      SegmentIs(o.packets[k], j.bytes, j.f, k);
    }
  }

  lemma PlainDescribed(o: Outcome, j: Job, d: Desc)
    requires d.Data? && !j.tso && j.f == Format(d.maclen, d.iplen, d.l4len, j.f.mss) && j.l4t == d.l4t
    requires !o.offered && o.packets == [Plain(j)]
    ensures SentAs(o, j.bytes, d, j)
  {
    assert Packets(o.packets) == [Packet(o.packets[0])];
  }

  // Complete units, and those of which some packets have been cut.
  lemma UnitDescribed(queue: seq<Desc>, o: Outcome, ports: nat, capacity: nat)
    requires Find(queue).Complete? && ChainOk(FirstJob(queue), o, ports, capacity)
    requires var j := FirstJob(queue);
             if j.tso then Emitted(o.packets, j.bytes, j.f) else o.packets == [Plain(j)]
    ensures Described(queue, o)
  {
    var j, d := FirstJob(queue), queue[Find(queue).end - 1];
    if j.tso {
      CutDescribed(o, j, d, ports, capacity);
    } else {
      PlainDescribed(o, j, d);
    }
  }

  lemma ReportDescribed(r: Report, ports: nat, capacity: nat)
    requires r.Ok(ports, capacity)
    ensures Described(r.queue, r.outcome)
  {
    assert Done(FirstJob(r.queue), r.outcome, ports, capacity);
    UnitDescribed(r.queue, r.outcome, ports, capacity);
  }

  // ---------------------------------------------------------------- once on every port

  /** The frames carry the unit once: as one chain, or as its packets. */
  ghost predicate CarriesOnce(frames: seq<Frame>, j: Job) {
    || (|frames| == 1 && frames[0].Offloaded? && frames[0].chain.Bytes() == j.bytes)
    || (exists s :: frames == Packets(s) && Segmented(s, j.bytes, j.f))
  }

  ghost predicate OnceEverywhere(j: Job, o: Outcome, ports: nat) {
    forall p :: 0 <= p < ports ==> CarriesOnce(OnPort(j, o, p), j)
  }

  /** Every port gets a segmented unit exactly once if and only if it was not offered in
      hardware, or the first port refused it, or all ports took it. */
  lemma OnceEverywhereIff(j: Job, o: Outcome, ports: nat, capacity: nat)
    requires j.tso && Done(j, o, ports, capacity)
    ensures OnceEverywhere(j, o, ports) <==> !o.offered || Accepted(o.answers) == 0 || AllAccepted(o.answers)
  {
    assert Packets([]) == [];
    if o.packets == [] {
      assert forall p :: 0 <= p < ports ==> OnPort(j, o, p) == [Whole(j, o.chain)];
    } else if o.Copies() == 0 {
      assert forall p :: 0 <= p < ports ==> OnPort(j, o, p) == Packets(o.packets);
    } else {
      SentTwice(j, o);
      assert !CarriesOnce(OnPort(j, o, 0), j);
    }
  }

  // A port that took the chain gets the packets all the same.
  lemma SentTwice(j: Job, o: Outcome)
    requires o.packets != [] && o.Copies() > 0
    ensures OnPort(j, o, 0) == [Whole(j, o.chain)] + Packets(o.packets)
    ensures !CarriesOnce(OnPort(j, o, 0), j)
  {
    var f := OnPort(j, o, 0);
    assert f[0] == Whole(j, o.chain) && |f| >= 2;
    forall s ensures f != Packets(s) {
      assert |Packets(s)| > 0 ==> Packets(s)[0] == Packet(s[0]);
    }
  }

  // What becomes of a unit that is offered, with these answers and software packets.
  function OutcomeFor(answers: seq<bool>, chain: Chain, packets: seq<seq<byte>>): Outcome {
    Outcome(true, answers, chain, if AllAccepted(answers) then [] else packets)
  }

  /** It is once on every port, for all answers of the ports, if and only if there is at
      most one port. */
  lemma OnceForAllAnswersIff(j: Job, chain: Chain, packets: seq<seq<byte>>, ports: nat, capacity: nat)
    requires j.tso && chain.Valid(capacity) && chain.Bytes() == j.bytes
    requires packets != [] && Segmented(packets, j.bytes, j.f)
    ensures (forall answers: seq<bool> :: |answers| == ports ==> OnceEverywhere(j, OutcomeFor(answers, chain, packets), ports))
            <==> ports <= 1
  {
    if ports <= 1 {
      forall answers: seq<bool> | |answers| == ports
        ensures OnceEverywhere(j, OutcomeFor(answers, chain, packets), ports)
      {
        OnceEverywhereIff(j, OutcomeFor(answers, chain, packets), ports, capacity);
      }
    } else {
      FirstPortTwice(j, chain, packets, ports, capacity);
    }
  }

  /** The first port accepts and the second refuses: the first gets the unit twice. */
  lemma FirstPortTwice(j: Job, chain: Chain, packets: seq<seq<byte>>, ports: nat, capacity: nat)
    requires j.tso && chain.Valid(capacity) && chain.Bytes() == j.bytes && ports >= 2
    requires packets != [] && Segmented(packets, j.bytes, j.f)
    ensures var o := OutcomeFor(FirstOnly(ports), chain, packets);
            && |o.answers| == ports && OnPort(j, o, 0) == [Whole(j, chain)] + Packets(packets)
            && !OnceEverywhere(j, o, ports)
  {
    var o := OutcomeFor(FirstOnly(ports), chain, packets);
    FirstOnlyAccepted(ports);
    SentTwice(j, o);
    OnceEverywhereIff(j, o, ports, capacity);
  }

  // ------------------------------------------------------------------- many units

  /** A unit that was sent: the queue it was at the front of, and how. */
  datatype Report = Report(queue: seq<Desc>, outcome: Outcome)
  {
    ghost predicate Ok(ports: nat, capacity: nat) {
      Find(queue).Complete? && outcome in Outcomes(FirstJob(queue), ports, capacity)
    }

    // What is left in the queue: the hardware path takes the whole unit off it, the
    // software path what its copy loop has seen.
    ghost function Rest(): seq<Desc> {
      if !Find(queue).Complete? then queue
      else if outcome.packets == [] then queue[Find(queue).end..]
      else queue[SoftEnd(queue)..]
    }

    ghost function Extend(wires: seq<seq<Frame>>): (r: seq<seq<Frame>>)
      ensures |r| == |wires|
    {
      if Find(queue).Complete? then Extended(wires, FirstJob(queue), outcome) else wires
    }
  }

  /** The queue went from `from` to `to` unit by unit, in order. */
  ghost predicate Sent(from: seq<Desc>, to: seq<Desc>, reports: seq<Report>, ports: nat, capacity: nat)
    decreases |reports|
  {
    if reports == [] then from == to
    else
      var last := reports[|reports| - 1];
      && last.Ok(ports, capacity) && to == last.Rest()
      && Sent(from, last.queue, reports[..|reports| - 1], ports, capacity)
  }

  // The wires of all ports after these units.
  ghost function AllWires(wires: seq<seq<Frame>>, reports: seq<Report>): (r: seq<seq<Frame>>)
    ensures |r| == |wires|
    decreases |reports|
  {
    if reports == [] then wires
    else reports[|reports| - 1].Extend(AllWires(wires, reports[..|reports| - 1]))
  }

  ghost function Reports(): iset<Report> {
    iset r: Report | Find(r.queue).Complete? && Described(r.queue, r.outcome)
  }

  lemma IsReport(r: Report, ports: nat, capacity: nat)
    requires r.Ok(ports, capacity)
    ensures r in Reports()
  {
    ReportDescribed(r, ports, capacity);
  }

  lemma {:induction false} SentDescribed(from: seq<Desc>, to: seq<Desc>, reports: seq<Report>, ports: nat, capacity: nat, k: nat)
    requires Sent(from, to, reports, ports, capacity) && k < |reports|
    ensures reports[k] in Reports()
    decreases |reports|
  {
    var n := |reports| - 1;
    if k == n {
      IsReport(reports[n], ports, capacity);
    } else {
      SentDescribed(from, reports[n].queue, reports[..n], ports, capacity, k);
    }
  }

  // One more unit.
  lemma SentAppend(from: seq<Desc>, to: seq<Desc>, reports: seq<Report>, r: Report, ports: nat, capacity: nat)
    requires Sent(from, to, reports, ports, capacity) && r.queue == to && r.Ok(ports, capacity)
    ensures Sent(from, r.Rest(), reports + [r], ports, capacity)
  {
    assert (reports + [r])[..|reports|] == reports;
  }

  lemma WiresAppend(wires: seq<seq<Frame>>, reports: seq<Report>, r: Report)
    ensures AllWires(wires, reports + [r]) == r.Extend(AllWires(wires, reports))
  {
    assert (reports + [r])[..|reports|] == reports;
  }

  // ---------------------------------------------------------------- where a unit ends

  // Where the copy loop stops that starts at descriptor k.
  function StopAt(ready: seq<Desc>, lo: nat, k: nat, end: nat, limit: nat): (r: nat)
    requires lo <= k <= end <= |ready| && forall i :: lo <= i < end ==> ready[i].Data?
    ensures k <= r <= end
    decreases end - k
  {
    if k == end || |BytesTo(ready, lo, k)| >= limit then k else StopAt(ready, lo, k + 1, end, limit)
  }

  // The descriptors that leave the queue with a unit sent in software.
  function SoftEnd(ready: seq<Desc>): (r: nat)
    requires Find(ready).Complete?
    ensures Skip(ready) <= r <= Find(ready).end
  {
    StopAt(ready, Skip(ready), Skip(ready), Find(ready).end, |FirstJob(ready).bytes|)
  }

  // Where descriptor k starts in the unit, if the one before starts below the limit.
  ghost predicate IsOffset(ready: seq<Desc>, lo: nat, k: nat, limit: nat, off: nat)
    requires lo <= k <= |ready| && forall i :: lo <= i < k ==> ready[i].Data?
  {
    off == |BytesTo(ready, lo, k)| && (k > lo ==> |BytesTo(ready, lo, k - 1)| < limit)
  }

  ghost function Offsets(ready: seq<Desc>, lo: nat, k: nat, limit: nat): iset<nat>
    requires lo <= k <= |ready| && forall i :: lo <= i < k ==> ready[i].Data?
  {
    iset off: nat | IsOffset(ready, lo, k, limit, off)
  }

  lemma AtDesc(ready: seq<Desc>, lo: nat, k: nat, limit: nat, off: nat)
    requires lo <= k <= |ready| && (forall i :: lo <= i < k ==> ready[i].Data?) && off in Offsets(ready, lo, k, limit)
    ensures off == |BytesTo(ready, lo, k)|
  {
  }

  lemma NextDesc(ready: seq<Desc>, lo: nat, k: nat, limit: nat, off: nat)
    requires lo <= k < |ready| && (forall i :: lo <= i < k + 1 ==> ready[i].Data?) && off in Offsets(ready, lo, k, limit) && off < limit
    ensures off + |ready[k].bytes| in Offsets(ready, lo, k + 1, limit)
  {
    assert IsOffset(ready, lo, k + 1, limit, off + |ready[k].bytes|);
  }

  lemma {:induction false} StopsFrom(ready: seq<Desc>, lo: nat, k: nat, end: nat, limit: nat, off: nat) returns (at: nat)
    requires lo <= k <= end <= |ready| && forall i :: lo <= i < end ==> ready[i].Data?
    requires limit <= |BytesTo(ready, lo, end)| && off in Offsets(ready, lo, k, limit)
    ensures at in Offsets(ready, lo, StopAt(ready, lo, k, end, limit), limit) && at >= limit
    decreases end - k
  {
    AtDesc(ready, lo, k, limit, off);
    if k < end && off < limit {
      NextDesc(ready, lo, k, limit, off);
      at := StopsFrom(ready, lo, k + 1, end, limit, off + |ready[k].bytes|);
    } else {
      at := off;
    }
  }

  lemma StopsAt(ready: seq<Desc>, lo: nat, end: nat, limit: nat)
    requires lo <= end <= |ready| && forall i :: lo <= i < end ==> ready[i].Data?
    requires limit <= |BytesTo(ready, lo, end)|
    ensures var r := StopAt(ready, lo, lo, end, limit);
            |BytesTo(ready, lo, r)| >= limit && (r > lo ==> |BytesTo(ready, lo, r - 1)| < limit)
  {
    assert IsOffset(ready, lo, lo, limit, 0);
    var at := StopsFrom(ready, lo, lo, end, limit, 0);
    assert IsOffset(ready, lo, StopAt(ready, lo, lo, end, limit), limit, at);
  }

  lemma {:induction false} StopIs(ready: seq<Desc>, lo: nat, k: nat, d: nat, end: nat, limit: nat)
    requires lo <= k <= d <= end <= |ready| && forall i :: lo <= i < end ==> ready[i].Data?
    requires |BytesTo(ready, lo, d)| >= limit && (d > lo ==> |BytesTo(ready, lo, d - 1)| < limit)
    ensures StopAt(ready, lo, k, end, limit) == d
    decreases d - k
  {
    if k < d {
      BytesPrefix(ready, lo, k, d - 1);
      StopIs(ready, lo, k + 1, d, end, limit);
    }
  }

  /** When a unit is finished, exactly its descriptors leave the queue if and only if its last
      buffer is not empty. */
  lemma SoftEndIff(ready: seq<Desc>)
    requires Find(ready).Complete?
    ensures SoftEnd(ready) == Find(ready).end <==> |ready[Find(ready).end - 1].bytes| > 0
  {
    var lo, end := Skip(ready), Find(ready).end;
    StopsAt(ready, lo, end, |FirstJob(ready).bytes|);
    if SoftEnd(ready) < end {
      BytesPrefix(ready, lo, SoftEnd(ready), end - 1);
    }
  }

  // ------------------------------------------------------------- does the loop end

  /** Where trigger_tx_packet stands between two calls: the queue and tso_off. */
  datatype Spot = Spot(ready: seq<Desc>, off: nat)

  // The end of the next packet of a unit.
  function NextOff(j: Job, off: nat): nat {
    Min((if off == 0 then j.f.Header() else off) + j.f.mss, |j.bytes|)
  }

  /** One call of trigger_tx_packet that sends something; `hardware` says that a unit offered
      to the ports is taken. */
  function SendOne(p: Spot, hardware: bool): Spot {
    if !Sendable(p.ready) then p
    else
      var j := FirstJob(p.ready);
      if !j.tso then Spot(p.ready[SoftEnd(p.ready)..], 0)
      else if hardware && p.off == 0 then Spot(p.ready[j.end..], 0)
      else if NextOff(j, p.off) < |j.bytes| then Spot(p.ready, NextOff(j, p.off))
      else Spot(p.ready[SoftEnd(p.ready)..], 0)
  }

  // The ports take nothing.
  function NoHardware(): nat -> bool { _ => false }

  // After n calls.
  function After(p: Spot, hardware: nat -> bool, n: nat): Spot {
    if n == 0 then p else SendOne(After(p, hardware, n - 1), hardware(n - 1))
  }

  // trigger_tx returns, or the program is aborted, whatever the hardware takes.
  ghost predicate Stops(ready: seq<Desc>, hardware: nat -> bool) {
    exists n: nat :: !Sendable(After(Spot(ready, 0), hardware, n).ready)
  }

  // Between two packets of a unit, or between units.
  predicate SpotOk(p: Spot) {
    p.off > 0 ==> Sendable(p.ready) && FirstJob(p.ready).tso && FirstJob(p.ready).f.Header() <= p.off < |FirstJob(p.ready).bytes|
  }

  // The bytes of the unit at the front that are still to be cut.
  function LeftOf(p: Spot): nat {
    if Find(p.ready).Complete? && p.off <= |FirstJob(p.ready).bytes| then |FirstJob(p.ready).bytes| - p.off else 0
  }

  lemma SendOneEnds(p: Spot, hardware: bool)
    requires SpotOk(p) && Ends(p.ready) && Sendable(p.ready)
    ensures var q := SendOne(p, hardware);
            && SpotOk(q) && Ends(q.ready)
            && (|q.ready| < |p.ready| || (q.ready == p.ready && LeftOf(q) < LeftOf(p)))
  {
    SoftEndIff(p.ready);
  }

  lemma {:induction false} EndsStops(p: Spot, hardware: nat -> bool, k: nat) returns (n: nat)
    requires var q := After(p, hardware, k); SpotOk(q) && Ends(q.ready)
    ensures !Sendable(After(p, hardware, n).ready)
    decreases |After(p, hardware, k).ready|, LeftOf(After(p, hardware, k))
  {
    if !Sendable(After(p, hardware, k).ready) {
      n := k;
    } else {
      SendOneEnds(After(p, hardware, k), hardware(k));
      n := EndsStops(p, hardware, k + 1);
    }
  }

  // In software, a queue with a unit that is never done with stays one.
  lemma SendOneStays(p: Spot)
    requires SpotOk(p) && !Ends(p.ready)
    ensures Sendable(p.ready) && SpotOk(SendOne(p, false)) && !Ends(SendOne(p, false).ready)
  {
    SoftEndIff(p.ready);
    if |p.ready[Find(p.ready).end - 1].bytes| == 0 {
      LeavesEmptyUnit(p.ready);
      EmptyUnitNotFinite(p.ready[SoftEnd(p.ready)..]);
    }
  }

  ghost predicate IsHopeless(p: Spot) {
    SpotOk(p) && !Ends(p.ready)
  }

  ghost function Hopeless(): iset<Spot> {
    iset p: Spot | IsHopeless(p)
  }

  lemma StaysHopeless(p: Spot)
    requires p in Hopeless()
    ensures Sendable(p.ready) && SendOne(p, false) in Hopeless()
  {
    SendOneStays(p);
  }

  lemma {:induction false} StaysForEver(p: Spot, n: nat)
    requires p in Hopeless()
    ensures After(p, NoHardware(), n) in Hopeless()
  {
    if n > 0 {
      StaysForEver(p, n - 1);
      StaysHopeless(After(p, NoHardware(), n - 1));
      OneMoreCall(p, n);
    }
  }

  lemma OneMoreCall(p: Spot, n: nat)
    requires n > 0
    ensures After(p, NoHardware(), n) == SendOne(After(p, NoHardware(), n - 1), false)
  {
  }

  /** The loop of trigger_tx ends, whatever the hardware takes, if and only if every unit it
      sends ends in a buffer that is not empty and every segmented unit longer than its
      headers has a segment size above 0. */
  lemma StopsIff(ready: seq<Desc>)
    requires Sound(ready)
    ensures (forall hardware: nat -> bool :: Stops(ready, hardware)) <==> Ends(ready)
  {
    if Ends(ready) {
      forall hardware: nat -> bool ensures Stops(ready, hardware) {
        var n := EndsStops(Spot(ready, 0), hardware, 0);
      }
    } else {
      var none := NoHardware();
      forall n: nat ensures Sendable(After(Spot(ready, 0), none, n).ready) {
        StaysForEver(Spot(ready, 0), n);
        StaysHopeless(After(Spot(ready, 0), none, n));
      }
      assert !Stops(ready, none);
    }
  }

  // Without bytes the unit at the front stays there, and is sent again and again.
  lemma EmptyUnitStays(ready: seq<Desc>)
    requires Find(ready).Complete? && Skip(ready) == 0 && FirstJob(ready).bytes == [] && FirstJob(ready).l4t == NoL4
    ensures Sendable(ready) && JobOk(ready) && SendOne(Spot(ready, 0), false) == Spot(ready, 0)
    ensures forall o: Outcome :: o.packets != [] ==> Report(ready, o).Rest() == ready
  {
  }

  lemma EmptyUnitNotFinite(ready: seq<Desc>)
    requires Find(ready).Complete? && Skip(ready) == 0 && FirstJob(ready).bytes == []
    ensures !Ends(ready)
  {
    BytesPrefix(ready, 0, Find(ready).end - 1, Find(ready).end);
  }

  // A unit to be cut into segments of size 0.
  function ZeroMss(bytes: seq<byte>): seq<Desc> {
    [Context(true, 0), Data(true, Tcp, 14, 20, 20, bytes)]
  }

  /** With a segment size of 0 the loop sends the unit's header for ever. */
  lemma ZeroMssNeverEnds(bytes: seq<byte>, n: nat)
    requires |bytes| > 54
    ensures Sound(ZeroMss(bytes)) && !Ends(ZeroMss(bytes))
    ensures var p := After(Spot(ZeroMss(bytes), 0), NoHardware(), n); p.ready == ZeroMss(bytes) && p.off == if n == 0 then 0 else 54
  {
    var q := ZeroMss(bytes);
    assert ScanFrom(q, 1) == Complete(2) && q[2..] == [];
    assert BytesTo(q, 1, 2) == BytesTo(q, 1, 1) + bytes == bytes;
    if n > 0 {
      ZeroMssNeverEnds(bytes, n - 1);
    }
  }

  // A unit whose last buffer is empty leaves a unit without bytes behind.
  lemma LeavesEmptyUnit(ready: seq<Desc>)
    requires Find(ready).Complete? && |ready[Find(ready).end - 1].bytes| == 0
    ensures var rest := ready[SoftEnd(ready)..];
            Find(rest).Complete? && Skip(rest) == 0 && FirstJob(rest).bytes == []
  {
    var lo, end, k := Skip(ready), Find(ready).end, SoftEnd(ready);
    SoftEndIff(ready);
    StopsAt(ready, lo, end, |FirstJob(ready).bytes|);
    ScanWithin(ready, lo, k);
    ScanShift(ready, k, k);
    BytesShift(ready, lo, k, end);
    BytesPrefix(ready, lo, k, end);
  }

  lemma {:induction false} ScanWithin(ready: seq<Desc>, lo: nat, k: nat)
    requires lo <= |ready| && ScanFrom(ready, lo).Complete? && lo <= k < ScanFrom(ready, lo).end
    ensures ScanFrom(ready, k) == ScanFrom(ready, lo)
    decreases k - lo
  {
    if lo < k {
      ScanWithin(ready, lo + 1, k);
    }
  }

  lemma {:induction false} ScanShift(ready: seq<Desc>, k: nat, i: nat)
    requires k <= i <= |ready|
    ensures ScanFrom(ready[k..], i - k)
         == match ScanFrom(ready, i) case Complete(end) => if end >= k then Complete(end - k) else Incomplete case x => x
    decreases |ready| - i
  {
    if i < |ready| {
      ScanShift(ready, k, i + 1);
    }
  }

  lemma {:induction false} BytesShift(ready: seq<Desc>, lo: nat, k: nat, hi: nat)
    requires lo <= k <= hi <= |ready| && forall i :: lo <= i < hi ==> ready[i].Data?
    ensures forall i :: 0 <= i < hi - k ==> ready[k..][i].Data?
    ensures |BytesTo(ready[k..], 0, hi - k)| + |BytesTo(ready, lo, k)| == |BytesTo(ready, lo, hi)|
    decreases hi
  {
    if hi > k {
      BytesShift(ready, lo, k, hi - 1);
      assert ready[k..][hi - 1 - k] == ready[hi - 1];
    }
  }

  // ------------------------------------------------------------------------ methods

  // The search loop: where the unit ends, and its length.
  method FindEop(ready: seq<Desc>) returns (scan: Scan, total: nat)
    ensures scan == Find(ready)
    ensures scan.Complete? ==> total == |FirstJob(ready).bytes|
  {
    var skip := Skip(ready);
    var dcnt, eop := skip, false;
    total := 0;
    while dcnt < |ready| && !eop
      invariant skip <= dcnt <= |ready|
      invariant forall k :: skip <= k < dcnt ==> ready[k].Data?
      invariant total == |BytesTo(ready, skip, dcnt)|
      invariant Find(ready) == if eop then Complete(dcnt) else ScanFrom(ready, dcnt)
      decreases |ready| - dcnt
    {
      if ready[dcnt].Context? {
        return NotData, 0;
      }
      eop := ready[dcnt].eop;
      total := total + |ready[dcnt].bytes|;
      dcnt := dcnt + 1;
    }
    scan := if eop then Complete(dcnt) else Incomplete;
  }

  // memcpy into a buffer.
  method CopyInto(dst: array<byte>, at: nat, src: seq<byte>)
    requires at + |src| <= dst.Length
    modifies dst
    ensures dst[..] == old(dst[..])[..at] + src + old(dst[..])[at + |src|..]
  {
    ghost var b := dst[..];
    for i := 0 to |src|
      invariant forall k :: 0 <= k < i ==> dst[at + k] == src[k]
      invariant forall k :: 0 <= k < at || at + i <= k < dst.Length ==> dst[k] == b[k]
    {
      dst[at + i] := src[i];
    }
    assert forall k :: at <= k < at + |src| ==> dst[k] == src[k - at];
  }

  // The end of the bytes that the copy loop has taken, at descriptor offset `off`.
  function Taken(start: nat, off: nat, limit: nat): nat {
    if off <= start then start else Min(off, limit)
  }

  lemma TakenNext(start: nat, off: nat, len: nat, limit: nat)
    requires start <= limit && off < limit
    ensures var t, next := Taken(start, off, limit), Taken(start, off + len, limit);
            && start <= t <= next <= limit
            && (if off <= t && off + len > t then next == Min(off + len, limit) else next == t)
  {
  }

  // The gathering loop's start: a buffer with `have` bytes, and the unit from `start` on.
  datatype Goal = Goal(before: seq<byte>, have: nat, unit: seq<byte>, start: nat)

  // The unit's bytes up to `off` have been put behind what the buffer held.
  ghost predicate Loaded(g: Goal, buf: seq<byte>, len: nat, off: nat) {
    && |buf| == |g.before| && g.have <= len <= |buf| && g.start <= off <= |g.unit|
    && len == g.have + off - g.start
    && buf[..g.have] == g.before[..g.have]
    && buf[g.have..len] == g.unit[g.start..off]
  }

  ghost function Loadings(g: Goal, len: nat, off: nat): iset<seq<byte>> {
    iset buf: seq<byte> | Loaded(g, buf, len, off)
  }

  lemma LoadedNone(g: Goal)
    requires g.have <= |g.before| && g.start <= |g.unit|
    ensures g.before in Loadings(g, g.have, g.start)
  {
  }

  lemma LoadedFacts(g: Goal, buf: seq<byte>, len: nat, off: nat)
    requires buf in Loadings(g, len, off)
    ensures g.have <= len <= |buf| == |g.before| && g.start <= off <= |g.unit|
    ensures buf[..g.have] == g.before[..g.have] && buf[g.have..len] == g.unit[g.start..off]
  {
  }

  lemma LoadedMore(g: Goal, b: seq<byte>, c: seq<byte>, len: nat, off: nat, chunk: seq<byte>)
    requires Loaded(g, b, len, off) && len + |chunk| <= |b| && off + |chunk| <= |g.unit|
    requires c == b[..len] + chunk + b[len + |chunk|..] && chunk == g.unit[off..off + |chunk|]
    ensures Loaded(g, c, len + |chunk|, off + |chunk|)
  {
    var n := |chunk|;
    assert c[..g.have] == b[..g.have];
    assert c[g.have..len] == b[g.have..len];
    assert c[len..len + n] == chunk;
    SliceJoin(c, g.have, len, len + n);
    SliceJoin(g.unit, g.start, off, off + n);
  }

  lemma StopsThere(ready: seq<Desc>, lo: nat, k: nat, end: nat, limit: nat, off: nat)
    requires lo <= k <= end <= |ready| && forall i :: lo <= i < end ==> ready[i].Data?
    requires off in Offsets(ready, lo, k, limit) && limit <= |BytesTo(ready, lo, end)| && (k == end || off >= limit)
    ensures k == StopAt(ready, lo, lo, end, limit) && off >= limit
  {
    StopIs(ready, lo, lo, k, end, limit);
  }

  // The bytes of descriptor i, in the unit.
  lemma BytesOf(ready: seq<Desc>, lo: nat, i: nat, hi: nat)
    requires lo <= i < hi <= |ready| && forall k :: lo <= k < hi ==> ready[k].Data?
    ensures |BytesTo(ready, lo, i + 1)| == |BytesTo(ready, lo, i)| + |ready[i].bytes|
    ensures var off, unit := |BytesTo(ready, lo, i)|, BytesTo(ready, lo, hi);
            off + |ready[i].bytes| <= |unit| && unit[off..off + |ready[i].bytes|] == ready[i].bytes
  {
    BytesPrefix(ready, lo, i + 1, hi);
    MiddleOf(BytesTo(ready, lo, hi), BytesTo(ready, lo, i), ready[i].bytes);
  }

  lemma MiddleOf<T>(u: seq<T>, a: seq<T>, b: seq<T>)
    requires |a| + |b| <= |u| && u[..|a| + |b|] == a + b
    ensures u[|a|..|a| + |b|] == b
  {
    assert u[..|a| + |b|][|a|..] == (a + b)[|a|..];
  }

  lemma SliceOf(unit: seq<byte>, off: nat, bytes: seq<byte>, from: nat, to: nat)
    requires off <= from <= to <= off + |bytes| <= |unit| && unit[off..off + |bytes|] == bytes
    ensures bytes[from - off..to - off] == unit[from..to]
  {
    SubSlice(unit, off, off + |bytes|, from - off, to - off);
  }

  lemma SubSlice<T>(u: seq<T>, a: nat, b: nat, i: nat, j: nat)
    requires a <= b <= |u| && i <= j <= b - a
    ensures u[a..b][i..j] == u[a + i..a + j]
  {
    forall k | 0 <= k < j - i ensures u[a..b][i..j][k] == u[a + i..a + j][k] {
      assert u[a..b][i..j][k] == u[a..b][i + k];
    }
  }

  /** The queue's state between two packets of a unit. */
  datatype Snap = Snap(tsoOff: nat, tsoLen: nat, buf: seq<byte>, wires: seq<seq<Frame>>, base: seq<seq<Frame>>, partial: Outcome)

  ghost predicate IsPause(s: Snap, j: Job, ports: nat, capacity: nat) {
    var k := |s.partial.packets|;
    && j.tso && j.f.Ok() && k > 0
    && s.tsoLen == j.f.Header() <= s.tsoOff == Start(j.f, k) < |j.bytes|
    && Emitted(s.partial.packets, j.bytes, j.f)
    && s.buf in Heading(j.bytes, j.f, k, s.tsoOff)
    && Attempted(j, s.partial, ports, capacity)
    && s.wires == Extended(s.base, j, s.partial)
  }

  ghost function Pauses(j: Job, ports: nat, capacity: nat): iset<Snap> {
    iset s: Snap | IsPause(s, j, ports, capacity)
  }

  // A unit is offered to the ports if the driver can do that, the headers lie in the first
  // mbuf, and there were enough mbufs.
  predicate Offers(j: Job, supported: bool, capacity: nat, misses: int) {
    supported && misses == 0 && j.f.Header() <= Min(capacity, |j.bytes|)
  }

  datatype Step = Waiting | Progress | Aborted

  class Queue {
    var ready: seq<Desc>
    var tsoOff: nat
    var tsoLen: nat
    const pktbuf: array<byte>
    const driver: Driver
    ghost var base: seq<seq<Frame>> // the wires when the current unit was begun
    ghost var partial: Outcome      // what has been sent of it

    ghost predicate Valid()
      reads this, pktbuf, driver
    {
      && pktbuf.Length == MTU
      && driver.Valid() && driver.tsoSeg == None
      && (tsoOff == 0 ==> tsoLen == 0)
      && (tsoOff > 0 ==> Find(ready).Complete? && MidUnit(FirstJob(ready)))
    }

    // Between two packets of a unit: the buffer holds the next packet's header.
    ghost predicate MidUnit(j: Job)
      reads this, pktbuf, driver
    {
      Snapshot() in Pauses(j, driver.ports, driver.capacity)
    }

    ghost function Snapshot(): Snap
      reads this, pktbuf, driver
    {
      Snap(tsoOff, tsoLen, pktbuf[..], driver.wires, base, partial)
    }

    constructor (driver: Driver)
      requires driver.Valid() && driver.tsoSeg == None
      ensures Valid() && ready == [] && tsoOff == 0 && fresh(pktbuf) && this.driver == driver
    {
      ready, tsoOff, tsoLen := [], 0, 0;
      pktbuf := new byte[MTU](_ => 0);
      this.driver := driver;
    }

    // Gathers the unit's bytes up to `limit` behind what the packet buffer holds.
    method Gather(skip: nat, ghost end: nat, limit: nat) returns (dcnt: nat)
      requires skip < end <= |ready| && forall k :: skip <= k < end ==> ready[k].Data?
      requires tsoOff <= limit <= |BytesTo(ready, skip, end)|
      requires tsoLen + limit - tsoOff <= pktbuf.Length
      modifies this`tsoOff, this`tsoLen, pktbuf
      ensures tsoOff == limit && tsoLen == old(tsoLen) + limit - old(tsoOff)
      ensures pktbuf[..][..old(tsoLen)] == old(pktbuf[..])[..old(tsoLen)]
      ensures pktbuf[..][old(tsoLen)..tsoLen] == BytesTo(ready, skip, end)[old(tsoOff)..limit]
      ensures dcnt == StopAt(ready, skip, skip, end, limit)
    {
      ghost var g := Goal(pktbuf[..], tsoLen, BytesTo(ready, skip, end), tsoOff);
      LoadedNone(g);
      ghost var off;
      dcnt, off := GatherLoop(skip, end, limit, g);
      StopsThere(ready, skip, dcnt, end, limit, off);
      LoadedFacts(g, pktbuf[..], tsoLen, tsoOff);
    }

    method GatherLoop(skip: nat, ghost end: nat, limit: nat, ghost g: Goal) returns (dcnt: nat, ghost at: nat)
      requires skip < end <= |ready| && forall k :: skip <= k < end ==> ready[k].Data?
      requires g.unit == BytesTo(ready, skip, end) && g.start == tsoOff <= limit <= |g.unit| && g.have == tsoLen
      requires g.have + limit - g.start <= pktbuf.Length && pktbuf[..] in Loadings(g, tsoLen, tsoOff)
      modifies this`tsoOff, this`tsoLen, pktbuf
      ensures skip <= dcnt <= end && at in Offsets(ready, skip, dcnt, limit) && (dcnt == end || at >= limit)
      ensures tsoOff == Taken(g.start, at, limit) && tsoLen == g.have + tsoOff - g.start
      ensures pktbuf[..] in Loadings(g, tsoLen, tsoOff)
    {
      var off := 0;
      dcnt := skip;
      assert IsOffset(ready, skip, skip, limit, 0);
      while dcnt < |ready| && off < limit
        invariant skip <= dcnt <= end && off in Offsets(ready, skip, dcnt, limit)
        invariant tsoOff == Taken(g.start, off, limit) && tsoLen == g.have + tsoOff - g.start
        invariant pktbuf[..] in Loadings(g, tsoLen, tsoOff)
        decreases |ready| - dcnt
      {
        AtDesc(ready, skip, dcnt, limit, off);
        off := GatherNext(skip, dcnt, off, end, limit, g);
        dcnt := dcnt + 1;
      }
      at := off;
    }

    // One round of the gathering loop.
    method GatherNext(ghost skip: nat, dcnt: nat, off: nat, ghost end: nat, limit: nat, ghost g: Goal) returns (next: nat)
      requires skip <= dcnt < end <= |ready| && forall k :: skip <= k < end ==> ready[k].Data?
      requires off in Offsets(ready, skip, dcnt, limit) && off < limit <= |g.unit| && g.unit == BytesTo(ready, skip, end)
      requires g.start <= limit && tsoOff == Taken(g.start, off, limit)
      requires g.have + limit - g.start <= pktbuf.Length && tsoLen == g.have + tsoOff - g.start
      requires pktbuf[..] in Loadings(g, tsoLen, tsoOff)
      modifies this`tsoOff, this`tsoLen, pktbuf
      ensures next in Offsets(ready, skip, dcnt + 1, limit)
      ensures tsoOff == Taken(g.start, next, limit) && tsoLen == g.have + tsoOff - g.start
      ensures pktbuf[..] in Loadings(g, tsoLen, tsoOff)
    {
      BytesOf(ready, skip, dcnt, end);
      GatherOne(ready[dcnt].bytes, off, limit, g);
      next := off + |ready[dcnt].bytes|;
    }

    // One descriptor of the gathering loop.
    method GatherOne(bytes: seq<byte>, off: nat, limit: nat, ghost g: Goal)
      requires g.start <= limit && off < limit <= |g.unit| && tsoOff == Taken(g.start, off, limit)
      requires off + |bytes| <= |g.unit| && g.unit[off..off + |bytes|] == bytes
      requires g.have + limit - g.start <= pktbuf.Length && tsoLen == g.have + tsoOff - g.start
      requires pktbuf[..] in Loadings(g, tsoLen, tsoOff)
      modifies this`tsoOff, this`tsoLen, pktbuf
      ensures tsoOff == Taken(g.start, off + |bytes|, limit) && tsoLen == g.have + tsoOff - g.start
      ensures pktbuf[..] in Loadings(g, tsoLen, tsoOff)
    {
      TakenNext(g.start, off, |bytes|, limit);
      if off <= tsoOff && off + |bytes| > tsoOff {
        var to := Min(off + |bytes|, limit);
        var chunk := bytes[tsoOff - off..to - off];
        SliceOf(g.unit, off, bytes, tsoOff, to);
        AppendChunk(chunk, to, g);
      }
    }

    // One memcpy of the gathering loop.
    method AppendChunk(chunk: seq<byte>, to: nat, ghost g: Goal)
      requires tsoLen + |chunk| <= pktbuf.Length && pktbuf[..] in Loadings(g, tsoLen, tsoOff)
      requires tsoOff <= to <= |g.unit| && chunk == g.unit[tsoOff..to]
      modifies this`tsoOff, this`tsoLen, pktbuf
      ensures tsoOff == to && tsoLen == old(tsoLen) + (to - old(tsoOff))
      ensures pktbuf[..] in Loadings(g, tsoLen, tsoOff)
    {
      ghost var b := pktbuf[..];
      CopyInto(pktbuf, tsoLen, chunk);
      LoadedMore(g, b, pktbuf[..], tsoLen, tsoOff, chunk);
      tsoOff, tsoLen := to, tsoLen + |chunk|;
    }

    // Offers the unit to the driver, buffer by buffer; `answers` are what the ports say to
    // the finished chain.
    method TryHardware(j: Job, answers: seq<bool>) returns (ok: bool, ghost attempt: Outcome)
      requires Valid() && tsoOff == 0 && Find(ready).Complete? && j == FirstJob(ready) && j.tso
      requires |answers| == driver.ports
      modifies driver`tsoSeg, driver`wires, driver`held, driver`releases, driver`misses
      ensures driver.Valid() && driver.tsoSeg == None
      ensures attempt.packets == [] && attempt.answers == answers
      ensures attempt.offered <==> Offers(j, driver.supported, driver.capacity, driver.misses - old(driver.misses))
      ensures driver.wires == Extended(old(driver.wires), j, attempt)
      ensures if ok then Done(j, attempt, driver.ports, driver.capacity)
              else Attempted(j, attempt, driver.ports, driver.capacity)
    {
      var skip := Skip(ready);
      var i := skip;
      attempt := Outcome(false, answers, Chain([], 0, 0), []);
      NothingAdded(driver.wires, j, attempt);
      while i < j.end
        invariant skip <= i <= j.end && attempt.packets == [] && attempt.answers == answers
        invariant driver.Valid() && (i == skip || i == j.end ==> driver.tsoSeg == None)
        invariant i < j.end ==> !attempt.offered && driver.Collected() == BytesTo(ready, skip, i)
        invariant driver.misses == old(driver.misses) && (i > skip ==> driver.supported)
        invariant i == j.end ==> attempt.offered && j.f.Header() <= Min(driver.capacity, |j.bytes|)
        invariant driver.wires == Extended(old(driver.wires), j, attempt)
        invariant i == j.end ==> Done(j, attempt, driver.ports, driver.capacity)
        decreases j.end - i
      {
        NothingAdded(old(driver.wires), j, attempt);
        var took, how, sent;
        took, how, sent := driver.SendTso(ready[i].bytes, i + 1 == j.end, j.f.maclen, j.f.iplen, j.f.l4len, j.f.mss, answers);
        if how == Burst {
          attempt := Outcome(true, answers, sent, []);
          ChainAdded(old(driver.wires), j, attempt);
        }
        if !took {
          return false, attempt;
        }
        i := i + 1;
      }
      ok := true;
    }

    // One packet of a unit: checksums, transmission, and the next packet's header.
    method SendSegment(f: Format, paylen: nat, ghost unit: seq<byte>, ghost k: nat, ghost from: nat)
        returns (ghost p: seq<byte>)
      requires pktbuf.Length == MTU && driver.Valid() && f.Ok() && tsoLen == f.Header() + paylen
      requires f.Header() <= from <= |unit| && paylen == Limit(unit, f, from) - from
      requires pktbuf[..] in Heading(unit, f, k, from)
      requires pktbuf[..][f.Header()..tsoLen] == unit[from..Limit(unit, f, from)]
      modifies pktbuf, driver`wires
      ensures driver.Valid() && driver.wires == Given(old(driver.wires), Packet(p), driver.ports)
      ensures p in Carrying(unit, f, k, from)
      ensures pktbuf[..] in Heading(unit, f, k + 1, Limit(unit, f, from))
    {
      ghost var b := pktbuf[..];
      XsumTcpipTso(pktbuf, f.Segment(paylen));
      ghost var fixed := pktbuf[..];
      p := fixed[..tsoLen];
      driver.Send(pktbuf[..tsoLen]);
      PostupdateHeader(pktbuf, f.Segment(paylen));
      SegmentRound(b, fixed, pktbuf[..], tsoLen, unit, f, k, from);
    }

    // A packet that is not segmented.
    method SendPlain(j: Job)
      requires pktbuf.Length == MTU && driver.Valid() && tsoLen == |j.bytes| <= MTU && pktbuf[..tsoLen] == j.bytes
      requires j.l4t != NoL4 ==> j.f.maclen + j.f.iplen + ChecksumField(j.l4t) + 2 <= |j.bytes|
      modifies pktbuf, driver`wires
      ensures driver.Valid() && driver.wires == Given(old(driver.wires), Packet(Plain(j)), driver.ports)
    {
      if j.l4t != NoL4 {
        var l4 := j.f.maclen + j.f.iplen;
        PlainPrefix(pktbuf[..], tsoLen, l4, ChecksumField(j.l4t));
        XsumL4(pktbuf, l4, tsoLen - l4, ChecksumField(j.l4t));
      }
      driver.Send(pktbuf[..tsoLen]);
    }

    // The wires at the start of the unit at the front.
    ghost function UnitBase(): seq<seq<Frame>>
      reads this, driver
    {
      if tsoOff == 0 then driver.wires else base
    }

    // A unit about to be cut, or between two of its packets.
    ghost predicate Cutting(j: Job)
      reads this, pktbuf, driver
    {
      && pktbuf.Length == MTU && driver.Valid() && driver.tsoSeg == None
      && Find(ready).Complete? && j == FirstJob(ready) && JobOk(ready) && j.tso
      && Snapshot() in Starts(j, driver.ports, driver.capacity)
    }

    // Brings the next packet's bytes into the packet buffer.
    method LoadSegment(j: Job) returns (dcnt: nat, ghost k: nat, ghost from: nat)
      requires Cutting(j)
      modifies this`tsoOff, this`tsoLen, pktbuf
      ensures k == |partial.packets| && from == Start(j.f, k) && j.f.Header() <= from <= |j.bytes|
      ensures old(tsoOff) > 0 ==> old(tsoOff) == from
      ensures tsoOff == Limit(j.bytes, j.f, from) == NextOff(j, old(tsoOff)) && tsoLen == j.f.Header() + tsoOff - from
      ensures pktbuf[..] in Heading(j.bytes, j.f, k, from)
      ensures pktbuf[..][j.f.Header()..tsoLen] == j.bytes[from..tsoOff]
      ensures tsoOff == |j.bytes| ==> dcnt == SoftEnd(ready)
    {
      k, from := |partial.packets|, Start(j.f, |partial.packets|);
      var total := |j.bytes|;
      var limit := if tsoOff == 0 then j.f.Header() + j.f.mss else tsoOff + j.f.mss;
      if limit > total {
        limit := total;
      }
      ghost var start := Snapshot();
      StartFacts(start, j, driver.ports, driver.capacity, from);
      dcnt := Gather(Skip(ready), j.end, limit);
      if start.tsoOff == 0 {
        LoadedFirst(pktbuf[..], j.bytes, j.f, limit);
      } else {
        LoadedNext(start.buf, pktbuf[..], j.bytes, j.f, k, from);
      }
    }

    // Loads and sends the next packet of a unit.
    method SendNext(j: Job) returns (dcnt: nat)
      requires Cutting(j)
      modifies this`tsoOff, this`tsoLen, this`partial, pktbuf, driver`wires
      ensures driver.Valid() && tsoOff == NextOff(j, old(tsoOff)) && j.f.Header() <= tsoOff
      ensures tsoOff < |j.bytes| ==>
        Snapshot().(tsoLen := j.f.Header()) in Pauses(j, driver.ports, driver.capacity)
      ensures driver.wires == Extended(base, j, partial) && partial.packets != []
      ensures partial == old(partial).(packets := partial.packets)
      ensures tsoOff == |j.bytes| ==> dcnt == SoftEnd(ready) && partial in Outcomes(j, driver.ports, driver.capacity)
    {
      ghost var k, from;
      ghost var start := Snapshot();
      dcnt, k, from := LoadSegment(j);
      SendLoaded(j, start, k, from);
    }

    // Sends the packet that was loaded.
    method SendLoaded(j: Job, ghost start: Snap, ghost k: nat, ghost from: nat)
      requires pktbuf.Length == MTU && driver.Valid() && j.tso && j.f.Ok()
      requires start in Starts(j, driver.ports, driver.capacity) && (start.tsoOff > 0 ==> start.tsoOff == from)
      requires start.base == base && start.partial == partial && start.wires == driver.wires
      requires k == |partial.packets| && from == Start(j.f, k) && j.f.Header() <= from <= |j.bytes|
      requires tsoOff == Limit(j.bytes, j.f, from) && tsoLen == j.f.Header() + tsoOff - from
      requires pktbuf[..] in Heading(j.bytes, j.f, k, from)
      requires pktbuf[..][j.f.Header()..tsoLen] == j.bytes[from..tsoOff]
      modifies this`partial, pktbuf, driver`wires
      ensures driver.Valid() && driver.wires == Extended(base, j, partial) && partial.packets != []
      ensures partial == old(partial).(packets := partial.packets)
      ensures tsoOff < |j.bytes| ==>
        Snapshot().(tsoLen := j.f.Header()) in Pauses(j, driver.ports, driver.capacity)
      ensures tsoOff == |j.bytes| ==> partial in Outcomes(j, driver.ports, driver.capacity)
    {
      var paylen := if tsoLen - j.f.Header() > j.f.mss then j.f.mss else tsoLen - j.f.Header();
      ghost var packet := SendSegment(j.f, paylen, j.bytes, k, from);
      partial := partial.(packets := partial.packets + [packet]);
      Advance(start, Snapshot(), packet, j, driver.ports, driver.capacity, from);
    }

    // One software packet of a unit.
    method SoftwareSegment(j: Job) returns (ghost done: bool)
      requires Cutting(j)
      modifies this`ready, this`tsoOff, this`tsoLen, this`partial, pktbuf, driver`wires
      ensures Valid() && driver.wires == Extended(base, j, partial) && partial.packets != []
      ensures partial == old(partial).(packets := partial.packets)
      ensures !done ==> ready == old(ready) && tsoOff == NextOff(j, old(tsoOff)) < |j.bytes|
      ensures done ==> NextOff(j, old(tsoOff)) >= |j.bytes| && tsoOff == 0 && ready == old(ready[SoftEnd(ready)..])
      ensures done ==> partial in Outcomes(j, driver.ports, driver.capacity)
    {
      var dcnt := SendNext(j);
      if tsoOff < |j.bytes| {
        tsoLen := j.f.Header();
        done := false;
      } else {
        ready := ready[dcnt..];
        tsoOff, tsoLen := 0, 0;
        done := true;
      }
    }

    // A unit that is not to be segmented: gathered, sent and taken off the queue.
    method PlainUnit(j: Job)
      requires Valid() && tsoOff == 0 && Find(ready).Complete? && j == FirstJob(ready) && JobOk(ready)
      requires !j.tso && |j.bytes| <= MTU
      modifies this`ready, this`tsoOff, this`tsoLen, pktbuf, driver`wires
      ensures Valid() && tsoOff == 0 && ready == old(ready[SoftEnd(ready)..])
      ensures driver.wires == Given(old(driver.wires), Packet(Plain(j)), driver.ports)
    {
      var dcnt := Gather(Skip(ready), j.end, |j.bytes|);
      assert pktbuf[..tsoLen] == pktbuf[..][0..tsoLen] == j.bytes[0..|j.bytes|] == j.bytes;
      SendPlain(j);
      ready := ready[dcnt..];
      tsoOff, tsoLen := 0, 0;
    }

    // The start of a unit to be segmented: the hardware takes it, or it is to be cut.
    method BeginUnit(j: Job, answers: seq<bool>) returns (hardware: bool, ghost o: Outcome)
      requires Valid() && tsoOff == 0 && Find(ready).Complete? && j == FirstJob(ready) && JobOk(ready) && j.tso
      requires |answers| == driver.ports
      modifies this`ready, this`base, this`partial
      modifies driver`tsoSeg, driver`wires, driver`held, driver`releases, driver`misses
      ensures o.packets == [] && o.answers == answers
      ensures o.offered <==> Offers(j, driver.supported, driver.capacity, driver.misses - old(driver.misses))
      ensures hardware ==> Valid() && ready == old(ready)[j.end..] && o in Outcomes(j, driver.ports, driver.capacity)
      ensures hardware ==> driver.wires == Extended(old(driver.wires), j, o)
      ensures !hardware ==> Cutting(j) && ready == old(ready) && base == old(driver.wires) && partial == o
    {
      ghost var wires := driver.wires;
      hardware, o := TryHardware(j, answers);
      if hardware {
        ready := ready[j.end..];
      } else {
        base, partial := wires, o;
      }
    }

    // A unit to be segmented, at its start or between two packets.
    method TsoUnit(j: Job, answers: seq<bool>) returns (ghost done: bool, ghost o: Outcome)
      requires Valid() && Find(ready).Complete? && j == FirstJob(ready) && JobOk(ready) && j.tso
      requires |answers| == driver.ports
      modifies this`ready, this`tsoOff, this`tsoLen, this`base, this`partial, pktbuf
      modifies driver`tsoSeg, driver`wires, driver`held, driver`releases, driver`misses
      ensures Valid()
      ensures !done ==> ready == old(ready) && tsoOff == NextOff(j, old(tsoOff)) < |j.bytes| && UnitBase() == old(UnitBase())
      ensures !done ==> tsoOff > 0
      ensures done ==> tsoOff == 0 && ready == Report(old(ready), o).Rest()
      ensures done ==> if o.packets == [] then old(tsoOff) == 0 else NextOff(j, old(tsoOff)) >= |j.bytes|
      ensures done ==> o in Outcomes(j, driver.ports, driver.capacity)
      ensures done ==> driver.wires == Extended(old(UnitBase()), j, o)
      ensures done && old(tsoOff) == 0 ==> o.answers == answers
      ensures !done ==> o == partial
      ensures old(tsoOff) == 0 ==> (o.offered <==> Offers(j, driver.supported, driver.capacity, driver.misses - old(driver.misses)))
      ensures old(tsoOff) > 0 ==> o.offered == old(partial.offered) && driver.misses == old(driver.misses)
    {
      if tsoOff == 0 {
        var hardware;
        hardware, o := BeginUnit(j, answers);
        if hardware {
          return true, o;
        }
      } else {
        PauseIsStart(Snapshot(), j, driver.ports, driver.capacity);
      }
      done, o := CutNext(j);
    }

    // The next packet of a unit that is being cut.
    method CutNext(j: Job) returns (ghost done: bool, ghost o: Outcome)
      requires Cutting(j)
      modifies this`ready, this`tsoOff, this`tsoLen, this`partial, pktbuf, driver`wires
      ensures Valid() && o.packets != [] && o == old(partial).(packets := o.packets)
      ensures !done ==> o == partial && ready == old(ready) && 0 < tsoOff == NextOff(j, old(tsoOff)) < |j.bytes|
      ensures done ==> tsoOff == 0 && ready == Report(old(ready), o).Rest() && NextOff(j, old(tsoOff)) >= |j.bytes|
      ensures done ==> o in Outcomes(j, driver.ports, driver.capacity) && driver.wires == Extended(base, j, o)
    {
      done := SoftwareSegment(j);
      o := partial;
    }

    /** lan_queue_tx::trigger_tx_packet; `answers` are what the ports say if a unit is offered
        to them. */
    method TriggerTxPacket(answers: seq<bool>) returns (step: Step, ghost report: Option<Report>)
      requires Valid() && (Sendable(ready) ==> JobOk(ready)) && |answers| == driver.ports
      modifies this`ready, this`tsoOff, this`tsoLen, this`base, this`partial, pktbuf
      modifies driver`tsoSeg, driver`wires, driver`held, driver`releases, driver`misses
      ensures step != Aborted ==> Valid()
      ensures step == Waiting <==> old(Find(ready)) == Incomplete
      ensures step == Aborted <==> old(MustAbort(ready))
      ensures step != Progress ==> ready == old(ready) && tsoOff == 0 && UnitBase() == old(UnitBase()) && report == None
      ensures step == Progress && report.None? ==>
        && ready == old(ready) && Find(ready).Complete? && UnitBase() == old(UnitBase())
        && 0 < tsoOff < |FirstJob(ready).bytes|
      ensures step == Progress && report.Some? ==>
        && report.value.queue == old(ready) && report.value.Ok(driver.ports, driver.capacity)
        && ready == report.value.Rest() && tsoOff == 0
        && driver.wires == report.value.Extend(old(UnitBase()))
      ensures step == Progress && old(tsoOff) == 0 && FirstJob(old(ready)).tso ==>
        ((if report.Some? then report.value.outcome else partial).offered
         <==> Offers(FirstJob(old(ready)), driver.supported, driver.capacity, driver.misses - old(driver.misses)))
      ensures report.Some? ==> Described(old(ready), report.value.outcome)
      ensures step == Progress && report.None? ==> Described(ready, partial)
      ensures step == Progress ==>
        Spot(ready, tsoOff) == SendOne(old(Spot(ready, tsoOff)), report.Some? && report.value.outcome.packets == [])
    {
      report := None;
      var scan, total := FindEop(ready);
      if tsoOff > 0 {
        PauseIsStart(Snapshot(), FirstJob(ready), driver.ports, driver.capacity);
      }
      if scan.Incomplete? {
        return Waiting, None;
      }
      if scan.NotData? {
        return Aborted, None;
      }
      var j := FirstJob(ready);
      ghost var queue := ready;
      if j.tso {
        ghost var done, o := TsoUnit(j, answers);
        report := if done then Some(Report(queue, o)) else None;
        if !done {
          PauseDescribed(Snapshot(), ready, driver.ports, driver.capacity);
        }
      } else {
        if total > MTU {
          return Aborted, None;
        }
        PlainUnit(j);
        ghost var o := Outcome(false, answers, Chain([], 0, 0), [Plain(j)]);
        PlainAdded(old(driver.wires), j, o);
        report := Some(Report(queue, o));
      }
      if report.Some? {
        ReportDescribed(report.value, driver.ports, driver.capacity);
      }
      step := Progress;
    }

    /** lan_queue_tx::trigger_tx: runs until no complete unit is left, and terminates.  The
        complete units leave the queue in order, and each port's wire gets exactly theirs. */
    method TriggerTx() returns (aborted: bool, ghost reports: seq<Report>)
      requires Valid() && tsoOff == 0 && AllOk(ready) && Ends(ready)
      modifies this`ready, this`tsoOff, this`tsoLen, this`base, this`partial, pktbuf
      modifies driver`tsoSeg, driver`wires, driver`held, driver`releases, driver`misses
      ensures Sent(old(ready), ready, reports, driver.ports, driver.capacity)
      ensures driver.wires == AllWires(old(driver.wires), reports)
      ensures forall k :: 0 <= k < |reports| ==> reports[k] in Reports()
      ensures !aborted ==> Valid() && tsoOff == 0 && Find(ready) == Incomplete
      ensures aborted ==> MustAbort(ready)
    {
      reports := [];
      var step := Progress;
      while step == Progress
        invariant step != Aborted ==> Valid() && AllOk(ready) && Ends(ready)
        invariant Sent(old(ready), ready, reports, driver.ports, driver.capacity)
        invariant UnitBase() == AllWires(old(driver.wires), reports)
        invariant step == Waiting ==> Find(ready) == Incomplete
        invariant step == Aborted ==> MustAbort(ready) && tsoOff == 0
        decreases step == Progress, |ready|, Left()
      {
        step, reports := TxRound(old(ready), reports, old(driver.wires));
      }
      aborted := step == Aborted;
      forall k | 0 <= k < |reports| ensures reports[k] in Reports() {
        SentDescribed(old(ready), ready, reports, driver.ports, driver.capacity, k);
      }
    }

    ghost function Left(): nat
      reads this
    {
      LeftOf(Spot(ready, tsoOff))
    }

    lemma SpotIsOk()
      requires Valid()
      ensures SpotOk(Spot(ready, tsoOff))
    {
      if tsoOff > 0 {
        PauseIsStart(Snapshot(), FirstJob(ready), driver.ports, driver.capacity);
      }
    }

    // One round of that loop.
    method TxRound(ghost from: seq<Desc>, ghost reports0: seq<Report>, ghost wires0: seq<seq<Frame>>)
        returns (step: Step, ghost reports: seq<Report>)
      requires Valid() && AllOk(ready) && Ends(ready) && Sent(from, ready, reports0, driver.ports, driver.capacity)
      requires UnitBase() == AllWires(wires0, reports0)
      modifies this`ready, this`tsoOff, this`tsoLen, this`base, this`partial, pktbuf
      modifies driver`tsoSeg, driver`wires, driver`held, driver`releases, driver`misses
      ensures step != Aborted ==> Valid() && AllOk(ready) && Ends(ready)
      ensures Sent(from, ready, reports, driver.ports, driver.capacity)
      ensures UnitBase() == AllWires(wires0, reports)
      ensures step == Waiting ==> Find(ready) == Incomplete && tsoOff == 0
      ensures step == Aborted ==> MustAbort(ready) && tsoOff == 0
      ensures step == Progress ==> |ready| < |old(ready)| || (ready == old(ready) && Left() < old(Left()))
    {
      ghost var queue, spot := ready, Spot(ready, tsoOff);
      ghost var report;
      var answers := driver.Answers();
      SpotIsOk();
      step, report := TriggerTxPacket(answers);
      if step == Progress {
        SendOneEnds(spot, report.Some? && report.value.outcome.packets == []);
      }
      if report.Some? {
        RestIsWhole(queue, report.value);
        SentAppend(from, queue, reports0, report.value, driver.ports, driver.capacity);
        WiresAppend(wires0, reports0, report.value);
        reports := reports0 + [report.value];
      } else {
        reports := reports0;
      }
    }
  }

  // Exactly the unit's descriptors leave the queue.
  lemma RestIsWhole(queue: seq<Desc>, r: Report)
    requires AllOk(queue) && Ends(queue) && Sendable(queue) && r.queue == queue
    ensures r.Rest() == queue[Find(queue).end..] && AllOk(r.Rest()) && Ends(r.Rest())
  {
    SoftEndIff(queue);
  }

  lemma NothingAdded(wires: seq<seq<Frame>>, j: Job, o: Outcome)
    requires !o.offered && o.packets == []
    ensures Extended(wires, j, o) == wires
  {
    var e := Extended(wires, j, o);
    forall p | 0 <= p < |wires| ensures e[p] == wires[p] {
      assert OnPort(j, o, p) == [];
    }
  }

  lemma ChainAdded(wires: seq<seq<Frame>>, j: Job, o: Outcome)
    requires o.offered && o.packets == []
    ensures Extended(wires, j, o) == Given(wires, Whole(j, o.chain), Accepted(o.answers))
  {
    var e, g := Extended(wires, j, o), Given(wires, Whole(j, o.chain), Accepted(o.answers));
    forall p | 0 <= p < |wires| ensures e[p] == g[p] {
      assert OnPort(j, o, p) == if p < Accepted(o.answers) then [Whole(j, o.chain)] else [];
    }
  }

  lemma PlainAdded(wires: seq<seq<Frame>>, j: Job, o: Outcome)
    requires !o.offered && o.packets == [Plain(j)]
    ensures Extended(wires, j, o) == Given(wires, Packet(Plain(j)), |wires|)
  {
    var e, g := Extended(wires, j, o), Given(wires, Packet(Plain(j)), |wires|);
    forall p | 0 <= p < |wires| ensures e[p] == g[p] {
      assert OnPort(j, o, p) == [Packet(Plain(j))];
    }
  }

  lemma PauseIsStart(s: Snap, j: Job, ports: nat, capacity: nat)
    requires s in Pauses(j, ports, capacity)
    ensures s in Starts(j, ports, capacity) && s.tsoOff > 0 && j.tso && j.f.Header() <= s.tsoOff < |j.bytes|
  {
  }

  lemma PauseDescribed(s: Snap, queue: seq<Desc>, ports: nat, capacity: nat)
    requires Find(queue).Complete? && s in Pauses(FirstJob(queue), ports, capacity)
    ensures Described(queue, s.partial)
  {
    UnitDescribed(queue, s.partial, ports, capacity);
  }

  // A unit of which nothing has been cut yet, or one between two packets.
  ghost predicate IsStart(s: Snap, j: Job, ports: nat, capacity: nat) {
    && (s.tsoOff > 0 ==> IsPause(s, j, ports, capacity))
    && (s.tsoOff == 0 ==> s.tsoLen == 0 && s.partial.packets == [])
    && Attempted(j, s.partial, ports, capacity)
    && s.wires == Extended(s.base, j, s.partial)
  }

  ghost function Starts(j: Job, ports: nat, capacity: nat): iset<Snap> {
    iset s: Snap | IsStart(s, j, ports, capacity)
  }

  lemma StartFacts(s: Snap, j: Job, ports: nat, capacity: nat, from: nat)
    requires s in Starts(j, ports, capacity) && from == Start(j.f, |s.partial.packets|)
    ensures s.tsoOff == 0 ==> s.tsoLen == 0 && from == j.f.Header()
    ensures s.tsoOff > 0 ==> s.tsoLen == j.f.Header() <= s.tsoOff == from < |j.bytes|
    ensures s.tsoOff > 0 ==> s.buf in Heading(j.bytes, j.f, |s.partial.packets|, from)
  {
  }

  // What one packet adds.
  lemma Advance(s: Snap, t: Snap, p: seq<byte>, j: Job, ports: nat, capacity: nat, from: nat)
    requires s in Starts(j, ports, capacity) && j.tso && j.f.Ok() && j.f.Header() <= from <= |j.bytes|
    requires from == Start(j.f, |s.partial.packets|) && p in Carrying(j.bytes, j.f, |s.partial.packets|, from)
    requires t.tsoOff == Limit(j.bytes, j.f, from) && t.base == s.base && t.wires == Given(s.wires, Packet(p), |s.wires|)
    requires t.buf in Heading(j.bytes, j.f, |s.partial.packets| + 1, t.tsoOff)
    requires t.partial == s.partial.(packets := s.partial.packets + [p])
    requires s.tsoOff > 0 ==> s.tsoOff == from
    ensures t.wires == Extended(t.base, j, t.partial)
    ensures t.tsoOff < |j.bytes| ==> t.(tsoLen := j.f.Header()) in Pauses(j, ports, capacity)
    ensures t.tsoOff == |j.bytes| ==> t.partial in Outcomes(j, ports, capacity)
  {
    PacketAdded(s.base, j, s.partial, p);
    CutMore(s.partial, p, j, from);
    if t.tsoOff == |j.bytes| {
      AllCut(j, t.partial, ports, capacity);
    }
  }

  lemma CutMore(o: Outcome, p: seq<byte>, j: Job, from: nat)
    requires j.f.Ok() && Emitted(o.packets, j.bytes, j.f) && from == Start(j.f, |o.packets|)
    requires j.f.Header() <= from <= |j.bytes| && p in Carrying(j.bytes, j.f, |o.packets|, from)
    requires o.packets != [] ==> from < |j.bytes|
    ensures Emitted(o.packets + [p], j.bytes, j.f)
    ensures Limit(j.bytes, j.f, from) == |j.bytes| ==> Segmented(o.packets + [p], j.bytes, j.f)
    ensures Limit(j.bytes, j.f, from) < |j.bytes| ==> Start(j.f, |o.packets| + 1) == Limit(j.bytes, j.f, from)
  {
    EmittedAppend(o.packets, p, j.bytes, j.f);
  }

  lemma AllCut(j: Job, o: Outcome, ports: nat, capacity: nat)
    requires j.tso && Attempted(j, o, ports, capacity) && o.packets != [] && Segmented(o.packets, j.bytes, j.f)
    ensures o in Outcomes(j, ports, capacity)
  {
  }

  lemma PacketAdded(wires: seq<seq<Frame>>, j: Job, o: Outcome, p: seq<byte>)
    ensures Given(Extended(wires, j, o), Packet(p), |wires|) == Extended(wires, j, o.(packets := o.packets + [p]))
  {
    var more := o.(packets := o.packets + [p]);
    var g, e := Given(Extended(wires, j, o), Packet(p), |wires|), Extended(wires, j, more);
    assert Packets(more.packets) == Packets(o.packets) + [Packet(p)];
    forall k | 0 <= k < |wires| ensures g[k] == e[k] {
      assert OnPort(j, more, k) == OnPort(j, o, k) + [Packet(p)];
      assert wires[k] + OnPort(j, o, k) + [Packet(p)] == wires[k] + (OnPort(j, o, k) + [Packet(p)]);
    }
  }

  lemma LoadedFirst(b: seq<byte>, unit: seq<byte>, f: Format, limit: nat)
    requires f.Ok() && f.Header() <= limit <= |unit| && limit <= |b| && b[0..limit] == unit[0..limit]
    ensures b in Heading(unit, f, 0, f.Header())
    ensures b[f.Header()..limit] == unit[f.Header()..limit]
  {
    SubSlice(b, 0, limit, 0, f.Header());
    SubSlice(unit, 0, limit, 0, f.Header());
    SubSlice(b, 0, limit, f.Header(), limit);
    SubSlice(unit, 0, limit, f.Header(), limit);
    assert b[..f.Header()] == unit[..f.Header()];
    FirstHeader(b, unit, f);
  }

  lemma LoadedNext(before: seq<byte>, b: seq<byte>, unit: seq<byte>, f: Format, k: nat, from: nat)
    requires before in Heading(unit, f, k, from) && |b| == |before| && f.Header() <= |b|
    requires b[..f.Header()] == before[..f.Header()]
    ensures b in Heading(unit, f, k, from)
  {
    HeaderPrefix(before, f.Header(), unit, f, k, from - f.Header());
    HeaderPrefix(b, f.Header(), unit, f, k, from - f.Header());
  }

  // The checksum of a packet does not depend on what lies behind it in the buffer.
  lemma PlainPrefix(b: seq<byte>, n: nat, l4: nat, field: nat)
    requires n <= |b| && l4 + field + 2 <= n
    ensures L4Sealed(b, l4, n - l4, field)[..n] == L4Sealed(b[..n], l4, n - l4, field)
  {
    assert b[..n][l4..n] == b[l4..n];
  }

  // The hardware attempt of a unit that is being cut in software.
  ghost predicate Attempted(j: Job, o: Outcome, ports: nat, capacity: nat) {
    ChainOk(j, o, ports, capacity) && (o.offered ==> !AllAccepted(o.answers))
  }
}
