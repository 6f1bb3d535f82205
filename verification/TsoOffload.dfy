/**
  The DPDK driver's transmit side.  Dpdk::send bursts a copy of a packet on every port;
  Dpdk::send_tso collects a unit's buffers in one chain of mbufs and bursts that chain on
  every port, in turn, once the unit is complete.
 */
module TsoOffload {
  import opened Checksum
  import opened Wrappers

  // ------------------------------------------------------------------- mbuf chains

  /** An mbuf chain: the bytes of each segment, and the first mbuf's two totals. */
  datatype Chain = Chain(segs: seq<seq<byte>>, pktLen: nat, nbSegs: nat)
  {
    // Totals agree, and only the last segment has room left.
    ghost predicate Valid(capacity: nat) {
      && |segs| > 0 && nbSegs == |segs| && pktLen == |Joined(segs)|
      && (forall k :: 0 <= k < |segs| ==> |segs[k]| <= capacity)
      && (forall k :: 0 <= k < |segs| - 1 ==> |segs[k]| == capacity)
    }

    function Bytes(): seq<byte> { Joined(segs) }
  }

  function Joined(segs: seq<seq<byte>>): seq<byte> {
    if segs == [] then [] else Joined(segs[..|segs| - 1]) + segs[|segs| - 1]
  }

  lemma JoinedAppend(segs: seq<seq<byte>>, last: seq<byte>)
    ensures Joined(segs + [last]) == Joined(segs) + last
  {
    assert (segs + [last])[..|segs|] == segs;
  }

  // Filling the last segment.
  lemma JoinedFill(segs: seq<seq<byte>>, more: seq<byte>)
    requires segs != []
    ensures Joined(segs[|segs| - 1 := segs[|segs| - 1] + more]) == Joined(segs) + more
  {
    var n := |segs| - 1;
    assert segs[n := segs[n] + more][..n] == segs[..n];
  }

  /** A frame handed to a port: a finished packet, or a unit for the hardware to cut. */
  datatype Frame = Packet(bytes: seq<byte>) | Offloaded(chain: Chain, l2: nat, l3: nat, l4: nat, mss: nat)

  // ------------------------------------------------------------- bursting on all ports

  // How many ports take the chain before the first refusal.
  function Accepted(answers: seq<bool>): (n: nat)
    ensures n <= |answers|
  {
    if answers == [] || !answers[0] then 0 else 1 + Accepted(answers[1..])
  }

  predicate AllAccepted(answers: seq<bool>) { Accepted(answers) == |answers| }

  // The wires of all ports after the first n of them have taken a frame.
  function Given(wires: seq<seq<Frame>>, f: Frame, n: nat): (r: seq<seq<Frame>>)
    ensures |r| == |wires|
  {
    seq(|wires|, p requires 0 <= p < |wires| => if p < n then wires[p] + [f] else wires[p])
  }

  lemma GivenNext(wires: seq<seq<Frame>>, f: Frame, n: nat)
    requires n < |wires|
    ensures Given(wires, f, n)[n := wires[n] + [f]] == Given(wires, f, n + 1)
  {
  }

  /** How often a finished chain is given up: once to each port that takes it, and once
      more to its pool if a port refuses it. */
  function Releases(answers: seq<bool>): nat {
    Accepted(answers) + if AllAccepted(answers) then 0 else 1
  }

  /** Exactly which answers release a chain once: the first port refuses, or the only one
      accepts.  Otherwise its mbufs are lost, or someone frees them while a port owns them. */
  lemma ReleasedOnceIff(answers: seq<bool>)
    ensures Releases(answers) == 1 <==> answers == [true] || (answers != [] && !answers[0])
  {
    if answers != [] && answers[0] && |answers| > 1 {
      var rest := answers[1..];
      assert Accepted(answers) == 1 + Accepted(rest);
    } else if answers != [] && answers[0] {
      assert answers[1..] == [];
    }
  }

  /** Every chain is released exactly once, whatever the ports answer, if and only if there
      is exactly one port. */
  lemma ReleasedOnceForAllAnswersIff(ports: nat)
    ensures (forall answers: seq<bool> :: |answers| == ports ==> Releases(answers) == 1) <==> ports == 1
  {
    if ports == 1 {
      forall answers: seq<bool> | |answers| == ports ensures Releases(answers) == 1 {
        ReleasedOnceIff(answers);
      }
    } else if ports == 0 {
      assert Releases([]) == 0;
    } else {
      var answers := FirstOnly(ports);
      ReleasedOnceIff(answers);
      assert Releases(answers) != 1;
    }
  }

  // The first port accepts, all others refuse.
  function FirstOnly(ports: nat): (answers: seq<bool>)
    ensures |answers| == ports
  {
    seq(ports, i => i == 0)
  }

  lemma FirstOnlyAccepted(ports: nat)
    requires ports >= 2
    ensures Accepted(FirstOnly(ports)) == 1
  {
    var answers := FirstOnly(ports);
    assert answers[0] && !answers[1..][0];
  }

  // -------------------------------------------------------------------- the driver

  /** What became of a call of send_tso. */
  datatype Progress =
    | NotStarted                  // no support, or no mbuf to begin with
    | Dropped                     // the chain was freed before it was complete
    | Collecting
    | Burst                       // the complete chain was offered to the ports

  class Driver {
    const supported: bool
    const capacity: nat
    const ports: nat
    var tsoSeg: Option<Chain>
    var wires: seq<seq<Frame>>    // what each port was given
    var held: nat                 // mbufs of the chain in progress
    var releases: seq<nat>        // how often each finished or dropped chain was given up
    var misses: nat               // how often no mbuf was to be had

    ghost predicate Valid()
      reads this
    {
      && capacity > 0 && |wires| == ports
      && (tsoSeg.None? ==> held == 0)
      && (tsoSeg.Some? ==> supported && tsoSeg.value.Valid(capacity) && held == tsoSeg.value.nbSegs)
    }

    // The bytes of the unit collected so far.
    ghost function Collected(): seq<byte>
      reads this
    {
      if tsoSeg.Some? then tsoSeg.value.Bytes() else []
    }

    constructor (supported: bool, capacity: nat, ports: nat)
      requires capacity > 0
      ensures Valid() && tsoSeg == None && wires == seq(ports, _ => []) && releases == [] && misses == 0
      ensures this.supported == supported && this.capacity == capacity && this.ports == ports
    {
      this.supported, this.capacity, this.ports := supported, capacity, ports;
      tsoSeg, wires, held, releases, misses := None, seq(ports, _ => []), 0, [], 0;
    }

    /** Dpdk::send: every port gets a copy of its own. */
    method Send(bytes: seq<byte>)
      requires Valid()
      modifies this`wires
      ensures Valid() && wires == Given(old(wires), Packet(bytes), ports)
    {
      ghost var before := wires;
      assert wires == Given(before, Packet(bytes), 0);
      for port := 0 to ports
        invariant |wires| == ports && wires == Given(before, Packet(bytes), port)
      {
        GivenNext(before, Packet(bytes), port);
        wires := wires[port := wires[port] + [Packet(bytes)]];
      }
    }

    // rte_pktmbuf_alloc may fail.
    method Alloc() returns (ok: bool)
      modifies this`held, this`misses
      ensures held == old(held) + if ok then 1 else 0
      ensures misses == old(misses) + if ok then 0 else 1
    {
      ok := *;
      if ok {
        held := held + 1;
      } else {
        misses := misses + 1;
      }
    }

    // The chain leaves this driver, given up `times` times.
    method Release(c: Chain, times: nat)
      requires c.nbSegs == held
      modifies this`held, this`tsoSeg, this`releases
      ensures held == 0 && tsoSeg == None && releases == old(releases) + [times]
    {
      held := held - c.nbSegs;
      tsoSeg := None;
      releases := releases + [times];
    }

    // The copy loop: fills the last mbuf and takes new ones as needed.
    method Fill(c0: Chain, buf: seq<byte>) returns (c: Chain, ok: bool)
      requires capacity > 0 && c0.Valid(capacity) && held == c0.nbSegs
      modifies this`held, this`misses
      ensures c.Valid(capacity) && held == c.nbSegs
      ensures ok ==> c.Bytes() == c0.Bytes() + buf
      ensures misses == old(misses) + if ok then 0 else 1
    {
      c, ok := c0, true;
      var copied := 0;
      assert buf[..0] == [];
      while copied < |buf|
        invariant copied <= |buf|
        invariant c.Valid(capacity) && held == c.nbSegs && misses == old(misses)
        invariant c.Bytes() == c0.Bytes() + buf[..copied]
        decreases |buf| - copied
      {
        if |c.segs[|c.segs| - 1]| == capacity {
          var got := Alloc();
          if !got {
            ok := false;
            return;
          }
          GrownKeeps(c, capacity);
          c := Grown(c);
        }
        var last := |c.segs| - 1;
        var n := if capacity - |c.segs[last]| <= |buf| - copied then capacity - |c.segs[last]| else |buf| - copied;
        FillStep(c, capacity, buf[copied..copied + n]);
        assert buf[..copied + n] == buf[..copied] + buf[copied..copied + n];
        c := Filled(c, buf[copied..copied + n]);
        copied := copied + n;
      }
      assert buf[..copied] == buf;
    }

    // RTE_ETH_FOREACH_DEV: the chain on every port until one refuses it.
    method BurstAll(f: Frame, answers: seq<bool>) returns (ok: bool, times: nat)
      requires |answers| == ports == |wires|
      modifies this`wires
      ensures wires == Given(old(wires), f, Accepted(answers)) && ok == AllAccepted(answers)
      ensures times == Releases(answers)
    {
      ghost var before := wires;
      var port := 0;
      assert answers[0..] == answers && wires == Given(before, f, 0);
      while port < ports
        invariant port <= ports == |wires| && wires == Given(before, f, port)
        invariant Accepted(answers) == port + Accepted(answers[port..])
        decreases ports - port
      {
        if !answers[port] {
          // the driver frees the chain, whoever owns it by now
          return false, port + 1;
        }
        assert answers[port..][1..] == answers[port + 1..];
        GivenNext(before, f, port);
        wires := wires[port := wires[port] + [f]];
        port := port + 1;
      }
      ok, times := true, ports;
    }

    // What each port would answer to a burst.
    method Answers() returns (answers: seq<bool>)
      ensures |answers| == ports
    {
      answers := [];
      while |answers| < ports
        invariant |answers| <= ports
        decreases ports - |answers|
      {
        var takes: bool := *;
        answers := answers + [takes];
      }
    }

    /** Dpdk::send_tso.  `answers` are the ports' answers to a burst of the finished unit.
        A call collects the buffer, or offers the whole unit to the ports as one chain
        `sent`, or gives up; unless it collects, nothing is left behind, and the chain was
        given up as often as `releases` records. */
    method SendTso(buf: seq<byte>, eop: bool, l2: nat, l3: nat, l4: nat, mss: nat, answers: seq<bool>)
        returns (ok: bool, how: Progress, sent: Chain)
      requires Valid() && |answers| == ports
      modifies this`tsoSeg, this`wires, this`held, this`releases, this`misses
      ensures Valid()
      ensures how == Collecting || how == Burst <==>
        && supported && misses == old(misses)
        && (eop ==> l2 + l3 + l4 <= Min(capacity, |old(Collected()) + buf|))
      ensures ok <==> how == Collecting || (how == Burst && AllAccepted(answers))
      ensures how == Collecting ==> !eop && tsoSeg.Some? && Collected() == old(Collected()) + buf
      ensures how == Burst ==> eop && sent.Valid(capacity) && sent.Bytes() == old(Collected()) + buf
      ensures how == Burst ==> l2 + l3 + l4 <= |sent.segs[0]|
      ensures how != Collecting ==> tsoSeg == None && held == 0
      ensures wires == if how == Burst then Given(old(wires), Offloaded(sent, l2, l3, l4, mss), Accepted(answers)) else old(wires)
      ensures releases == old(releases)
                          + if how == Burst then [Releases(answers)] else if how == Dropped then [1] else []
    {
      sent := Chain([[]], 0, 1);
      if !supported {
        return false, NotStarted, sent;
      }
      var first := sent;
      if tsoSeg.None? {
        var got := Alloc();
        if !got {
          return false, NotStarted, sent;
        }
        assert Joined([[]]) == Joined([[]][..0]) + [];
      } else {
        first := tsoSeg.value;
      }
      ghost var before := Collected();
      assert first.Bytes() == before;
      var c, filled := Fill(first, buf);
      if !filled {
        Release(c, 1);
        return false, Dropped, sent;
      }
      if !eop {
        tsoSeg := Some(c);
        return true, Collecting, sent;
      }
      FirstSegment(c, capacity);
      if l2 + l3 + l4 > |c.segs[0]| {
        Release(c, 1);
        return false, Dropped, sent;
      }
      sent := c;
      var times;
      ok, times := BurstAll(Offloaded(c, l2, l3, l4, mss), answers);
      Release(c, times);
      how := Burst;
    }
  }

  // The first segment is full, or it is the only one.
  lemma FirstSegment(c: Chain, capacity: nat)
    requires c.Valid(capacity)
    ensures |c.segs[0]| == Min(capacity, |c.Bytes()|)
  {
    if |c.segs| == 1 {
      assert c.segs[..0] == [] && Joined([]) + c.segs[0] == c.segs[0];
    } else {
      JoinedLonger(c.segs);
    }
  }

  lemma {:induction false} JoinedLonger(segs: seq<seq<byte>>)
    requires segs != []
    ensures |segs[0]| <= |Joined(segs)|
    decreases |segs|
  {
    if |segs| > 1 {
      JoinedLonger(segs[..|segs| - 1]);
    }
  }

  // A new, empty last segment.
  function Grown(c: Chain): Chain {
    Chain(c.segs + [[]], c.pktLen, c.nbSegs + 1)
  }

  function Filled(c: Chain, more: seq<byte>): Chain
    requires c.segs != []
  {
    var last := |c.segs| - 1;
    Chain(c.segs[last := c.segs[last] + more], c.pktLen + |more|, c.nbSegs)
  }

  lemma GrownKeeps(c: Chain, capacity: nat)
    requires c.Valid(capacity) && |c.segs[|c.segs| - 1]| == capacity
    ensures Grown(c).Valid(capacity) && Grown(c).Bytes() == c.Bytes()
  {
    JoinedAppend(c.segs, []);
  }

  lemma FillStep(c: Chain, capacity: nat, more: seq<byte>)
    requires c.Valid(capacity) && |c.segs[|c.segs| - 1]| + |more| <= capacity
    ensures Filled(c, more).Valid(capacity) && Filled(c, more).Bytes() == c.Bytes() + more
  {
    JoinedFill(c.segs, more);
  }
}
