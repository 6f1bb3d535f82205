/**
  The descriptor cache of the e1000 model (IGbE::DescCache): descriptors are fetched
  from the ring ahead of use, used in order, and written back in order, with delayed
  events and DMA completions in between.

  The registers and the cache pointer are ring indices; the proof follows them by
  counters that never wrap.
 */
module DescCache {
  import opened Modular
  import opened Wrappers

  /** A cached descriptor: the ring entry it was fetched from, what was read there, and what
      it holds now. */
  datatype Desc = Desc(entry: nat, read: int, content: int)

  /** A delayed event, then a DMA transfer. */
  datatype Phase = Off | Delayed | InFlight

  /** What was written where. */
  datatype Write = Write(entry: nat, desc: Desc)

  // ------------------------------------------------------------------ specification

  /** All of the cache's state.  `written` is the history of the ring's write-backs, `loaded`
      of what was fetched and `stored` of what packets stored in descriptors; `headCount`,
      `cacheCount` and `tailCount` are the unwrapped ring indices. */
  datatype State = State(
    used: seq<Desc>, unused: seq<Desc>, cachePnt: nat, size: nat,
    curFetching: nat, fetch: Phase, wbOut: nat, wb: Phase, moreToWb: bool, wbAlignment: nat,
    head: nat, tail: nat, len: nat,
    written: seq<Write>, loaded: seq<int>, stored: seq<int>, headCount: nat, cacheCount: nat, tailCount: nat)
  {
    function DescLeft(): nat {
      |unused| + (if cachePnt > tail then (if len >= cachePnt then len - cachePnt + tail else 0) else tail - cachePnt)
    }

    function DescUsed(): nat { |used| }
  }

  // The indices are the counters, and no transfer runs over the end of the ring.
  ghost predicate CountsOk(c: State) {
    && c.len > 0
    && c.head == Wrap(c.headCount, c.len) && c.cachePnt == Wrap(c.cacheCount, c.len) && c.tail == Wrap(c.tailCount, c.len)
    && c.headCount + |c.used| + |c.unused| == c.cacheCount
    && c.cacheCount + c.curFetching <= c.tailCount < c.headCount + c.len
    && |c.used| + |c.unused| + c.curFetching <= c.size
    && c.cachePnt + c.curFetching <= c.len
    && c.wbOut <= |c.used| && c.head + c.wbOut <= c.len
  }

  ghost predicate PhasesOk(c: State) {
    && (c.curFetching == 0 <==> c.fetch == Off)
    && (c.wbOut == 0 <==> c.wb == Off)
  }

  // The k-th cached descriptor comes from the k-th entry behind the head.
  ghost predicate EntriesOk(c: State)
    requires c.len > 0
  {
    && (forall k {:trigger c.used[k]} :: 0 <= k < |c.used| ==> c.used[k].entry == Wrap(c.headCount + k, c.len))
    && (forall k {:trigger c.unused[k]} :: 0 <= k < |c.unused| ==>
      c.unused[k].entry == Wrap(c.headCount + |c.used| + k, c.len))
  }

  // Entry by entry, in ring order, each descriptor went back to where it came from.
  ghost predicate HistoryOk(c: State)
    requires c.len > 0
  {
    && |c.written| == c.headCount + (if c.wb == InFlight then c.wbOut else 0)
    && forall k {:trigger c.written[k]} :: 0 <= k < |c.written| ==>
      c.written[k].entry == c.written[k].desc.entry == Wrap(k, c.len)
  }

  // A descriptor with the n-th content that was read, and the n-th a packet stored if it
  // has been used.
  ghost predicate HoldsNth(c: State, d: Desc, n: nat, used: bool) {
    && n < |c.loaded| && d.read == c.loaded[n]
    && if used then n < |c.stored| && d.content == c.stored[n] else d.content == d.read
  }

  ghost predicate ContentsOk(c: State) {
    && |c.loaded| == c.cacheCount && |c.stored| == c.headCount + |c.used|
    && (forall k {:trigger c.used[k]} :: 0 <= k < |c.used| ==> HoldsNth(c, c.used[k], c.headCount + k, true))
    && (forall k {:trigger c.unused[k]} :: 0 <= k < |c.unused| ==>
          HoldsNth(c, c.unused[k], c.headCount + |c.used| + k, false))
    && (forall k {:trigger c.written[k]} :: 0 <= k < |c.written| ==> HoldsNth(c, c.written[k].desc, k, true))
  }

  ghost function Faithful(): iset<State> {
    iset c: State | ContentsOk(c)
  }

  ghost predicate Ok(c: State) {
    CountsOk(c) && PhasesOk(c) && EntriesOk(c) && HistoryOk(c) && c in Faithful()
  }

  ghost function Good(): iset<State> {
    iset c: State | Ok(c)
  }

  // ------------------------------------------------------------------- ring arithmetic

  lemma WrapStep(a: nat, d: nat, n: nat)
    requires n > 0 && Wrap(a, n) + d <= n
    ensures Wrap(a + d, n) == if Wrap(a, n) + d == n then 0 else Wrap(a, n) + d
  {
    WrapAdd(a, d, n);
    if Wrap(a, n) + d < n {
      ModSmall(Wrap(a, n) + d, n);
    } else {
      ModIs(n, n, 1, 0);
    }
  }

  // The distance of two indices, less than a lap apart.
  lemma WrapGap(a: nat, b: nat, n: nat)
    requires n > 0 && a <= b < a + n
    ensures Wrap(b, n) >= Wrap(a, n) ==> Wrap(b, n) - Wrap(a, n) == b - a
    ensures Wrap(b, n) < Wrap(a, n) ==> n - Wrap(a, n) + Wrap(b, n) == b - a
  {
    var d := b - a;
    if Wrap(a, n) + d <= n {
      WrapStep(a, d, n);
    } else {
      var e := n - Wrap(a, n);
      WrapStep(a, e, n);
      assert Wrap(a + e, n) == 0;
      WrapStep(a + e, d - e, n);
    }
  }

  /** Conservation: the cache pointer is as far behind the head as descriptors are
      cached, and what is left and what is used make up the distance to the tail. */
  lemma Conserved(c: State)
    requires c in Good()
    ensures (c.head + |c.used| + |c.unused|) % c.len == c.cachePnt
    ensures c.DescLeft() + c.DescUsed() == (c.tail + c.len - c.head) % c.len
    ensures |c.used| + |c.unused| + c.curFetching <= c.size && c.wbOut <= |c.used|
    ensures c.cachePnt + c.curFetching <= c.len && c.head + c.wbOut <= c.len
  {
    WrapAdd(c.headCount, |c.used| + |c.unused|, c.len);
    WrapGap(c.cacheCount, c.tailCount, c.len);
    WrapGap(c.headCount, c.tailCount, c.len);
    var d := c.tailCount - c.headCount;
    if c.tail >= c.head {
      ModIs(c.tail + c.len - c.head, c.len, 1, d);
    } else {
      ModIs(c.tail + c.len - c.head, c.len, 0, d);
    }
  }

  /** Every descriptor was written back at most once, in ring order, to the entry it was
      fetched from, and with what its packet stored in it; with no write-back in flight
      exactly those before the head were. */
  lemma WrittenInOrder(c: State, k: nat)
    requires c in Good() && k < |c.written|
    ensures k < |c.loaded| && c.written[k].desc.read == c.loaded[k]
    ensures k < |c.stored| && c.written[k].desc.content == c.stored[k]
    ensures c.written[k].entry == c.written[k].desc.entry == k % c.len
    ensures c.headCount <= |c.written| <= c.headCount + c.wbOut
    ensures c.wb != InFlight ==> |c.written| % c.len == c.head
  {
    WrapIsMod(k, c.len);
    WrapIsMod(c.headCount, c.len);
    assert HoldsNth(c, c.written[k].desc, k, true);
  }

  // --------------------------------------------------------------------- transitions

  // x & ~mask
  function AndNot(x: nat, mask: nat): (r: nat)
    ensures r <= x
    ensures mask == 0 ==> r == x
  {
    if x == 0 then 0
    else 2 * AndNot(x / 2, mask / 2) + (if x % 2 == 1 && mask % 2 == 0 then 1 else 0)
  }

  /** With a mask of k ones: the largest multiple of 2^k up to x. */
  lemma {:induction false} AlignsDown(x: nat, k: nat) returns (q: nat)
    ensures AndNot(x, Pow2(k) - 1) == Times(q, Pow2(k)) <= x < Times(q, Pow2(k)) + Pow2(k)
    decreases k
  {
    if k == 0 {
      q := x;
    } else {
      q := AlignsDown(x / 2, k - 1);
      AlignStep(x, Pow2(k - 1), q);
    }
  }

  lemma AlignStep(x: nat, n: nat, q: nat)
    requires n > 0 && AndNot(x / 2, n - 1) == Times(q, n) <= x / 2 < Times(q, n) + n
    ensures AndNot(x, 2 * n - 1) == Times(q, 2 * n) <= x < Times(q, 2 * n) + 2 * n
  {
    AndNotTwice(x, n - 1);
    TimesTwice(q, n);
  }

  function Times(q: nat, n: nat): nat { q * n }

  lemma TimesTwice(q: nat, n: nat)
    ensures Times(q, 2 * n) == 2 * Times(q, n)
  {
  }

  lemma AndNotTwice(x: nat, mask: nat)
    ensures AndNot(x, 2 * mask + 1) == 2 * AndNot(x / 2, mask)
  {
    assert (2 * mask + 1) / 2 == mask && (2 * mask + 1) % 2 == 1;
  }

  // The number of descriptors writeback() starts on, when none is under way.
  function ToWriteBack(c: State, mask: nat): nat {
    if |c.used| + c.head >= c.len then (if c.len >= c.head then c.len - c.head else 0)
    else if mask != 0 then AndNot(|c.used|, mask)
    else |c.used|
  }

  function AfterWriteback(c: State, mask: nat): State {
    if c.wbOut > 0 then
      if mask < c.wbAlignment then c.(moreToWb := true, wbAlignment := mask) else c
    else
      var n := ToWriteBack(c, mask);
      c.(moreToWb := |c.used| + c.head >= c.len, wbAlignment := mask, wbOut := n, wb := if n > 0 then Delayed else Off)
  }

  // The number of descriptors fetchDescriptors() asks for, when none is under way.
  function ToFetch(c: State): nat {
    var most := if c.tail >= c.cachePnt then c.tail - c.cachePnt else c.len - c.cachePnt;
    Min(if most >= 0 then most else 0, if c.size >= |c.used| + |c.unused| then c.size - |c.used| - |c.unused| else 0)
  }

  function AfterFetchDescriptors(c: State): State {
    if c.curFetching > 0 then c
    else
      var n := ToFetch(c);
      c.(curFetching := n, fetch := if n > 0 then Delayed else Off)
  }

  lemma WritebackKeeps(c: State, mask: nat)
    requires c in Good()
    ensures AfterWriteback(c, mask) in Good()
  {
    SameContents(c, AfterWriteback(c, mask));
  }

  // What a write-back request leaves for later.
  lemma WritebackStarts(c: State, mask: nat)
    requires c in Good() && c.wbOut == 0
    ensures var t := AfterWriteback(c, mask);
            && (mask == 0 ==> t.wbOut == Min(|c.used|, c.len - c.head))
            && (t.wbOut < |c.used| && mask == 0 ==> t.moreToWb)
            && (|c.used| + c.head >= c.len ==> t.wbOut == c.len - c.head && t.moreToWb)
  {
  }

  // A request aligned to blocks of 2^k descriptors, away from the ring's end.
  lemma AlignedWriteback(c: State, k: nat) returns (q: nat)
    requires c in Good() && c.wbOut == 0 && |c.used| + c.head < c.len
    ensures var t := AfterWriteback(c, Pow2(k) - 1);
            t.wbOut == q * Pow2(k) <= |c.used| < q * Pow2(k) + Pow2(k) && !t.moreToWb
  {
    q := AlignsDown(|c.used|, k);
    assert Times(q, Pow2(k)) == q * Pow2(k);
  }

  lemma FetchKeeps(c: State)
    requires c in Good()
    ensures AfterFetchDescriptors(c) in Good()
  {
    SameContents(c, AfterFetchDescriptors(c));
    WrapGap(c.cacheCount, c.tailCount, c.len);
  }

  // What a fetch asks for: all that the host has posted and is not cached yet, as far as
  // there is room and up to the ring's end.
  lemma FetchStarts(c: State)
    requires c in Good() && c.curFetching == 0
    ensures AfterFetchDescriptors(c).curFetching
         == Min(Min(c.tailCount - c.cacheCount, c.len - c.cachePnt), c.size - |c.used| - |c.unused|)
  {
    WrapGap(c.cacheCount, c.tailCount, c.len);
  }

  // The DMA of a write-back: the first wbOut used descriptors, from the head on.
  function WriteBackLog(c: State): (w: seq<Write>)
    requires c.wbOut <= |c.used|
    ensures |w| == c.wbOut
  {
    seq(c.wbOut, x requires 0 <= x < c.wbOut => Write(c.head + x, c.used[x]))
  }

  function AfterWriteback1(c: State): State
    requires c.wbOut <= |c.used|
  {
    c.(wb := InFlight, written := c.written + WriteBackLog(c))
  }

  lemma Writeback1Faithful(c: State)
    requires c in Faithful() && c.wbOut <= |c.used| && |c.written| == c.headCount
    ensures AfterWriteback1(c) in Faithful()
  {
    var t := AfterWriteback1(c);
    forall k {:trigger t.written[k]} | 0 <= k < |t.written| ensures HoldsNth(t, t.written[k].desc, k, true) {
      if k < |c.written| {
        assert HoldsNth(c, c.written[k].desc, k, true);
      } else {
        assert t.written[k].desc == c.used[k - |c.written|];
      }
    }
  }

  lemma Writeback1Keeps(c: State)
    requires c in Good() && c.wb == Delayed
    ensures AfterWriteback1(c) in Good()
  {
    Writeback1Faithful(c);
    Writeback1History(c);
  }

  lemma Writeback1History(c: State)
    requires CountsOk(c) && EntriesOk(c) && HistoryOk(c) && c.wb == Delayed
    ensures HistoryOk(AfterWriteback1(c))
  {
    var t := AfterWriteback1(c);
    forall k | |c.written| <= k < |t.written| ensures t.written[k].entry == t.written[k].desc.entry == Wrap(k, c.len) {
      NextWrite(c, k - |c.written|);
      assert t.written[k] == WriteBackLog(c)[k - |c.written|];
    }
  }

  lemma NextWrite(c: State, x: nat)
    requires CountsOk(c) && EntriesOk(c) && x < c.wbOut
    ensures var w := WriteBackLog(c)[x]; w.entry == w.desc.entry == Wrap(c.headCount + x, c.len)
  {
    assert c.used[x].entry == Wrap(c.headCount + x, c.len);
    WrapStep(c.headCount, x, c.len);
  }

  // A completed fetch: the descriptors read from the entries at the cache pointer.
  function Fetched(c: State, contents: seq<int>): (d: seq<Desc>)
    ensures |d| == |contents|
  {
    seq(|contents|, x requires 0 <= x < |contents| => Desc(c.cachePnt + x, contents[x], contents[x]))
  }

  function AfterFetchComplete(c: State, contents: seq<int>): State {
    var pnt := c.cachePnt + c.curFetching;
    c.(unused := c.unused + Fetched(c, contents), cachePnt := if pnt == c.len then 0 else pnt,
       curFetching := 0, fetch := Off, cacheCount := c.cacheCount + c.curFetching, loaded := c.loaded + contents)
  }

  lemma FetchCompleteFaithful(c: State, contents: seq<int>)
    requires c in Faithful() && |contents| == c.curFetching && c.headCount + |c.used| + |c.unused| == c.cacheCount
    ensures AfterFetchComplete(c, contents) in Faithful()
  {
    var t := AfterFetchComplete(c, contents);
    forall k {:trigger t.unused[k]} | 0 <= k < |t.unused| ensures HoldsNth(t, t.unused[k], t.headCount + |t.used| + k, false) {
      if k < |c.unused| {
        assert HoldsNth(c, c.unused[k], c.headCount + |c.used| + k, false);
      }
    }
    forall k {:trigger t.written[k]} | 0 <= k < |t.written| ensures HoldsNth(t, t.written[k].desc, k, true) {
      assert HoldsNth(c, c.written[k].desc, k, true);
    }
  }

  lemma FetchCompleteKeeps(c: State, contents: seq<int>)
    requires c in Good() && |contents| == c.curFetching
    ensures AfterFetchComplete(c, contents) in Good()
  {
    FetchCompleteFaithful(c, contents);
    WrapStep(c.cacheCount, c.curFetching, c.len);
    FetchCompleteEntries(c, contents);
  }

  lemma FetchCompleteEntries(c: State, contents: seq<int>)
    requires CountsOk(c) && EntriesOk(c) && |contents| == c.curFetching
    ensures EntriesOk(AfterFetchComplete(c, contents))
  {
    var t := AfterFetchComplete(c, contents);
    forall k | 0 <= k < |t.unused| ensures t.unused[k].entry == Wrap(t.headCount + |t.used| + k, c.len) {
      if k >= |c.unused| {
        var x := k - |c.unused|;
        assert t.unused[k] == Desc(c.cachePnt + x, contents[x], contents[x]);
        WrapStep(c.cacheCount, x, c.len);
      }
    }
  }

  // A packet is done with the first unused descriptor.
  function AfterPacket(c: State, content: int): State
    requires c.unused != []
  {
    c.(unused := c.unused[1..], used := c.used + [c.unused[0].(content := content)], stored := c.stored + [content])
  }

  lemma PacketFaithful(c: State, content: int)
    requires c in Faithful() && c.unused != []
    ensures AfterPacket(c, content) in Faithful()
  {
    var t := AfterPacket(c, content);
    assert HoldsNth(c, c.unused[0], c.headCount + |c.used|, false);
    forall k {:trigger t.used[k]} | 0 <= k < |t.used| ensures HoldsNth(t, t.used[k], t.headCount + k, true) {
      if k < |c.used| {
        assert HoldsNth(c, c.used[k], c.headCount + k, true);
      }
    }
    forall k {:trigger t.unused[k]} | 0 <= k < |t.unused| ensures HoldsNth(t, t.unused[k], t.headCount + |t.used| + k, false) {
      assert HoldsNth(c, c.unused[k + 1], c.headCount + |c.used| + (k + 1), false);
    }
    forall k {:trigger t.written[k]} | 0 <= k < |t.written| ensures HoldsNth(t, t.written[k].desc, k, true) {
      assert HoldsNth(c, c.written[k].desc, k, true);
    }
  }

  lemma PacketKeeps(c: State, content: int)
    requires c in Good() && c.unused != []
    ensures AfterPacket(c, content) in Good()
  {
    var t := AfterPacket(c, content);
    PacketFaithful(c, content);
    assert c.unused[0].entry == Wrap(c.headCount + |c.used|, c.len);
    forall k | 0 <= k < |t.unused| ensures t.unused[k].entry == Wrap(t.headCount + |t.used| + k, c.len) {
      assert t.unused[k] == c.unused[k + 1];
    }
  }

  // A completed write-back frees exactly the descriptors it covered.
  function AfterWritten(c: State): State
    requires c.wbOut <= |c.used|
  {
    var h := c.head + c.wbOut;
    c.(used := c.used[c.wbOut..], head := if h >= c.len then h - c.len else h,
       wbOut := 0, wb := Off, headCount := c.headCount + c.wbOut)
  }

  lemma WrittenFaithful(c: State)
    requires c in Faithful() && c.wbOut <= |c.used|
    ensures AfterWritten(c) in Faithful()
  {
    var t := AfterWritten(c);
    forall k {:trigger t.used[k]} | 0 <= k < |t.used| ensures HoldsNth(t, t.used[k], t.headCount + k, true) {
      assert HoldsNth(c, c.used[k + c.wbOut], c.headCount + (k + c.wbOut), true);
    }
    forall k {:trigger t.unused[k]} | 0 <= k < |t.unused| ensures HoldsNth(t, t.unused[k], t.headCount + |t.used| + k, false) {
      assert HoldsNth(c, c.unused[k], c.headCount + |c.used| + k, false);
    }
    forall k {:trigger t.written[k]} | 0 <= k < |t.written| ensures HoldsNth(t, t.written[k].desc, k, true) {
      assert HoldsNth(c, c.written[k].desc, k, true);
    }
  }

  // The contents do not depend on the other fields.
  lemma SameContents(c: State, t: State)
    requires c in Faithful() && t.loaded == c.loaded && t.stored == c.stored && t.written == c.written
    requires t.used == c.used && t.unused == c.unused && t.headCount == c.headCount && t.cacheCount == c.cacheCount
    ensures t in Faithful()
  {
    forall k {:trigger t.used[k]} | 0 <= k < |t.used| ensures HoldsNth(t, t.used[k], t.headCount + k, true) {
      assert HoldsNth(c, c.used[k], c.headCount + k, true);
    }
    forall k {:trigger t.unused[k]} | 0 <= k < |t.unused| ensures HoldsNth(t, t.unused[k], t.headCount + |t.used| + k, false) {
      assert HoldsNth(c, c.unused[k], c.headCount + |c.used| + k, false);
    }
    forall k {:trigger t.written[k]} | 0 <= k < |t.written| ensures HoldsNth(t, t.written[k].desc, k, true) {
      assert HoldsNth(c, c.written[k].desc, k, true);
    }
  }

  lemma WrittenKeeps(c: State)
    requires c in Good() && c.wb == InFlight
    ensures AfterWritten(c) in Good()
  {
    var t := AfterWritten(c);
    WrittenFaithful(c);
    WrapStep(c.headCount, c.wbOut, c.len);
    forall k | 0 <= k < |t.used| ensures t.used[k].entry == Wrap(t.headCount + k, c.len) {
      assert t.used[k] == c.used[k + c.wbOut];
    }
  }

  // The host gives `more` descriptors; it never laps the head.
  function AfterTail(c: State, more: nat): State
    requires c.len > 0
  {
    c.(tail := (c.tail + more) % c.len, tailCount := c.tailCount + more)
  }

  lemma TailKeeps(c: State, more: nat)
    requires c in Good() && c.tailCount + more < c.headCount + c.len
    ensures AfterTail(c, more) in Good()
  {
    SameContents(c, AfterTail(c, more));
    WrapAdd(c.tailCount, more, c.len);
  }

  /** wbComplete: free, start the rest of the write-back, and fetch more. */
  function AfterWbComplete(c: State, ticking: bool): State
    requires c.wbOut <= |c.used|
  {
    var d := AfterWritten(c);
    var e := if d.moreToWb then AfterWriteback(d.(moreToWb := false), d.wbAlignment) else d;
    if ticking then e else AfterFetchDescriptors(e)
  }

  // -------------------------------------------------------------------- whole runs

  /** What can happen to the cache. */
  datatype Event =
    | Request(mask: nat)
    | StartWrite
    | AskFetch
    | StartFetch
    | EndFetch(contents: seq<int>)
    | Use(content: int)
    | Post(more: nat)
    | EndWrite(ticking: bool)

  predicate CanHappen(c: State, e: Event) {
    match e
    case Request(_) => true
    case StartWrite => c.wb == Delayed && c.wbOut <= |c.used|
    case AskFetch => true
    case StartFetch => c.fetch == Delayed
    case EndFetch(contents) => c.fetch == InFlight && |contents| == c.curFetching
    case Use(_) => c.unused != []
    case Post(more) => c.len > 0 && c.tailCount + more < c.headCount + c.len
    case EndWrite(_) => c.wb == InFlight && c.wbOut <= |c.used|
  }

  function Happened(c: State, e: Event): State
    requires CanHappen(c, e)
  {
    match e
    case Request(mask) => AfterWriteback(c, mask)
    case StartWrite => AfterWriteback1(c)
    case AskFetch => AfterFetchDescriptors(c)
    case StartFetch => c.(fetch := InFlight)
    case EndFetch(contents) => AfterFetchComplete(c, contents)
    case Use(content) => AfterPacket(c, content)
    case Post(more) => AfterTail(c, more)
    case EndWrite(ticking) => AfterWbComplete(c, ticking)
  }

  // d is reached from c by these events.
  predicate Leads(c: State, events: seq<Event>, d: State)
    decreases |events|
  {
    if events == [] then c == d else CanHappen(c, events[0]) && Leads(Happened(c, events[0]), events[1..], d)
  }

  lemma EventKeeps(c: State, e: Event)
    requires c in Good() && CanHappen(c, e)
    ensures Happened(c, e) in Good()
  {
    match e
    case Request(mask) => WritebackKeeps(c, mask);
    case StartWrite => Writeback1Keeps(c);
    case AskFetch => FetchKeeps(c);
    case StartFetch => StartFetchKeeps(c);
    case EndFetch(contents) => FetchCompleteKeeps(c, contents);
    case Use(content) => PacketKeeps(c, content);
    case Post(more) => TailKeeps(c, more);
    case EndWrite(ticking) => WbCompleteKeeps(c, ticking);
  }

  lemma StartFetchKeeps(c: State)
    requires c in Good() && c.fetch == Delayed
    ensures c.(fetch := InFlight) in Good()
  {
    SameContents(c, c.(fetch := InFlight));
  }

  lemma WbCompleteKeeps(c: State, ticking: bool)
    requires c in Good() && c.wb == InFlight
    ensures AfterWbComplete(c, ticking) in Good()
  {
    WrittenKeeps(c);
    var d := AfterWritten(c);
    FlagIrrelevant(d);
    WritebackKeeps(d.(moreToWb := false), d.wbAlignment);
    var e := if d.moreToWb then AfterWriteback(d.(moreToWb := false), d.wbAlignment) else d;
    FetchKeeps(e);
  }

  // A completed write-back is followed by a fetch of all that now fits, unless the state
  // machine is awake.
  lemma CompletionFetches(c: State, ticking: bool)
    requires c in Good() && c.wb == InFlight
    ensures var t := AfterWbComplete(c, ticking);
            t.curFetching == if ticking || c.curFetching > 0 then c.curFetching
                             else Min(Min(c.tailCount - c.cacheCount, c.len - c.cachePnt), c.size - |t.used| - |t.unused|)
  {
    WrittenKeeps(c);
    var d := AfterWritten(c);
    FlagIrrelevant(d);
    WritebackKeeps(d.(moreToWb := false), d.wbAlignment);
    var e := if d.moreToWb then AfterWriteback(d.(moreToWb := false), d.wbAlignment) else d;
    if !ticking && c.curFetching == 0 {
      FetchStarts(e);
    }
  }

  // What a run reads from the ring, and what its packets store.
  function Read(events: seq<Event>): seq<int> {
    if events == [] then [] else ReadBy(events[0]) + Read(events[1..])
  }

  function Stored(events: seq<Event>): seq<int> {
    if events == [] then [] else StoredBy(events[0]) + Stored(events[1..])
  }

  function ReadBy(e: Event): seq<int> { if e.EndFetch? then e.contents else [] }

  function StoredBy(e: Event): seq<int> { if e.Use? then [e.content] else [] }

  ghost function After(c: State, events: seq<Event>): iset<State> {
    iset d: State | Leads(c, events, d)
  }

  lemma FirstEvent(c: State, events: seq<Event>, d: State) returns (u: State)
    requires c in Good() && d in After(c, events) && events != []
    ensures u in Good() && d in After(u, events[1..]) && u.len == c.len
    ensures u.loaded == c.loaded + ReadBy(events[0]) && u.stored == c.stored + StoredBy(events[0])
  {
    EventKeeps(c, events[0]);
    u := Happened(c, events[0]);
    EventHistory(c, events[0], u);
  }

  lemma EventHistory(c: State, e: Event, u: State)
    requires CanHappen(c, e) && u == Happened(c, e)
    ensures u.len == c.len && u.loaded == c.loaded + ReadBy(e) && u.stored == c.stored + StoredBy(e)
  {
    match e
    case EndFetch(contents) =>
    case Use(content) =>
    case EndWrite(ticking) => EndHistory(c, ticking);
    case _ =>
  }

  lemma EndHistory(c: State, ticking: bool)
    requires c.wbOut <= |c.used|
    ensures var u := AfterWbComplete(c, ticking); u.len == c.len && u.loaded == c.loaded && u.stored == c.stored
  {
  }

  lemma {:induction false} RunHistory(c: State, events: seq<Event>, d: State)
    requires c in Good() && d in After(c, events)
    ensures d in Good() && d.len == c.len
    ensures d.loaded == c.loaded + Read(events) && d.stored == c.stored + Stored(events)
    decreases |events|
  {
    if events != [] {
      var u := FirstEvent(c, events, d);
      RunHistory(u, events[1..], d);
      Regroup(c.loaded, ReadBy(events[0]), Read(events[1..]));
      Regroup(c.stored, StoredBy(events[0]), Stored(events[1..]));
    }
  }

  /** In every run of a configured cache, the k-th descriptor written back goes to entry k of
      the ring, counted on; it is the k-th that was read, and holds what the k-th packet
      stored. */
  lemma WrittenAsStored(size: nat, len: nat, events: seq<Event>, d: State, k: nat)
    requires len > 0 && Leads(Configured(size, len), events, d) && k < |d.written|
    ensures d.written[k].entry == k % len
    ensures k < |Read(events)| && d.written[k].desc.read == Read(events)[k]
    ensures k < |Stored(events)| && d.written[k].desc.content == Stored(events)[k]
  {
    ConfiguredGood(size, len);
    RunHistory(Configured(size, len), events, d);
    WrittenInOrder(d, k);
  }

  lemma ConfiguredGood(size: nat, len: nat)
    requires len > 0
    ensures Configured(size, len) in Good()
  {
    assert Configured(size, len) in Faithful();
  }

  // ------------------------------------------------- requests while writing back

  // Once a full write-back is wanted, nothing before the completion changes what follows it.
  lemma {:induction false} FullRequestStands(c: State, events: seq<Event>, d: State)
    requires c in Good() && c.wbOut > 0 && c.wbAlignment == 0 && Leads(c, events, d)
    requires forall k :: 0 <= k < |events| ==> !events[k].EndWrite?
    ensures d in Good() && d.wbOut == c.wbOut && d.wbAlignment == 0 && d.moreToWb == c.moreToWb
    ensures d.head == c.head && d.len == c.len && |c.used| <= |d.used|
    decreases |events|
  {
    if events != [] {
      EventKeeps(c, events[0]);
      assert forall k :: 0 <= k < |events[1..]| ==> events[1..][k] == events[k + 1];
      FullRequestStands(Happened(c, events[0]), events[1..], d);
    }
  }

  /** A request to write everything back that comes while a write-back is prepared or in
      flight, followed by any events up to its completion: on the completion all descriptors
      used by then, up to the ring's end, are written back, if and only if the request was
      less restrictive than the one under way or that one already left something over;
      otherwise it is forgotten. */
  lemma FullRequestHonouredIff(c: State, events: seq<Event>, d: State, ticking: bool)
    requires c in Good() && c.wbOut > 0
    requires Leads(AfterWriteback(c, 0), events, d) && d.wb == InFlight && d.wbOut < |d.used|
    requires forall k :: 0 <= k < |events| ==> !events[k].EndWrite?
    ensures var t := AfterWbComplete(d, ticking);
            && (t.wbOut > 0 <==> c.wbAlignment > 0 || c.moreToWb)
            && (t.wbOut > 0 ==> t.wbOut == Min(|d.used| - d.wbOut, d.len - t.head))
  {
    WritebackKeeps(c, 0);
    FullRequestStands(AfterWriteback(c, 0), events, d);
    CompletionContinues(d, ticking);
  }

  // What a completed write-back is followed by, when a full one is wanted.
  lemma CompletionContinues(d: State, ticking: bool)
    requires d in Good() && d.wb == InFlight && d.wbAlignment == 0 && d.wbOut < |d.used|
    ensures var t := AfterWbComplete(d, ticking);
            t.wbOut == if d.moreToWb then Min(|d.used| - d.wbOut, d.len - t.head) else 0
    ensures AfterWbComplete(d, ticking).head < d.len
  {
    WrittenKeeps(d);
  }

  // The cache of a ring that has just been configured.
  function Configured(size: nat, len: nat): State {
    State([], [], 0, size, 0, Off, 0, Off, false, 0, 0, 0, len, [], [], [], 0, 0, 0)
  }

  /** A request can be forgotten, in a cache of any size: the host posts two descriptors and
      both are fetched; the first is used, and while it is being written back the second is
      used.  The second full request is not carried out, and a used descriptor is left with
      no write-back under way. */
  lemma RequestCanBeForgotten(size: nat, len: nat) returns (before: seq<Event>, c: State, d: State)
    requires size >= 2 && len >= 3
    ensures Leads(Configured(size, len), before, c)
    ensures Leads(c, [Use(1), Request(0), Use(1), Request(0), StartWrite], d) && d.wb == InFlight
    ensures AfterWbComplete(d, true).wbOut == 0 && |AfterWbComplete(d, true).used| == 1
  {
    before, c := TwoFetched(size, len);
    d := SecondRequest(c);
  }

  lemma TwoFetched(size: nat, len: nat) returns (before: seq<Event>, c: State)
    requires size >= 2 && len >= 3
    ensures Leads(Configured(size, len), before, c)
    ensures c.used == [] && |c.unused| == 2 && c.wbOut == 0 && c.head == 0 && c.len == len
  {
    var c0 := Configured(size, len);
    ModSmall(2, len);
    var c1 := Happened(c0, Post(2));
    var c2 := Happened(c1, AskFetch);
    var c3 := Happened(c2, StartFetch);
    c := Happened(c3, EndFetch([0, 0]));
    assert Leads(c, [], c);
    LeadsBack(c3, EndFetch([0, 0]), [], c);
    LeadsBack(c2, StartFetch, [EndFetch([0, 0])] + [], c);
    LeadsBack(c1, AskFetch, [StartFetch] + ([EndFetch([0, 0])] + []), c);
    before := [Post(2)] + ([AskFetch] + ([StartFetch] + ([EndFetch([0, 0])] + [])));
    LeadsBack(c0, Post(2), [AskFetch] + ([StartFetch] + ([EndFetch([0, 0])] + [])), c);
  }

  lemma SecondRequest(c4: State) returns (d: State)
    requires c4.used == [] && |c4.unused| == 2 && c4.wbOut == 0 && c4.head == 0 && c4.len >= 3
    ensures Leads(c4, [Use(1), Request(0), Use(1), Request(0), StartWrite], d) && d.wb == InFlight
    ensures AfterWbComplete(d, true).wbOut == 0 && |AfterWbComplete(d, true).used| == 1
  {
    var c5 := Happened(c4, Use(1));
    var c6 := Happened(c5, Request(0));
    var c7 := Happened(c6, Use(1));
    var c8 := Happened(c7, Request(0));
    assert c8 == c7 && c8.wbOut == 1 && |c8.used| == 2 && !c8.moreToWb;
    d := Happened(c8, StartWrite);
    assert Leads(d, [], d);
    LeadsBack(c8, StartWrite, [], d);
    LeadsBack(c7, Request(0), [StartWrite], d);
    LeadsBack(c6, Use(1), [Request(0), StartWrite], d);
    LeadsBack(c5, Request(0), [Use(1), Request(0), StartWrite], d);
    LeadsBack(c4, Use(1), [Request(0), Use(1), Request(0), StartWrite], d);
  }

  lemma LeadsBack(c: State, e: Event, rest: seq<Event>, d: State)
    requires CanHappen(c, e) && Leads(Happened(c, e), rest, d)
    ensures Leads(c, [e] + rest, d)
  {
    assert ([e] + rest)[1..] == rest;
  }

  lemma FlagIrrelevant(c: State)
    requires c in Good()
    ensures c.(moreToWb := false) in Good()
  {
    SameContents(c, c.(moreToWb := false));
  }

  // ------------------------------------------------------------------------ the class

  class Cache {
    var used: seq<Desc>
    var unused: seq<Desc>
    var cachePnt: nat
    const size: nat
    var curFetching: nat
    var fetch: Phase
    var wbOut: nat
    var wb: Phase
    var moreToWb: bool
    var wbAlignment: nat
    var head: nat
    var tail: nat
    const len: nat
    var ring: seq<Write>
    ghost var loaded: seq<int>
    ghost var stored: seq<int>
    ghost var headCount: nat
    ghost var cacheCount: nat
    ghost var tailCount: nat

    ghost function View(): State
      reads this
    {
      State(used, unused, cachePnt, size, curFetching, fetch, wbOut, wb, moreToWb, wbAlignment,
            head, tail, len, ring, loaded, stored, headCount, cacheCount, tailCount)
    }

    ghost predicate Valid()
      reads this
    {
      View() in Good()
    }

    // A ring configured with head 0 and an empty tail.
    constructor (size: nat, len: nat)
      requires len > 0
      ensures Valid() && used == unused == [] && head == tail == cachePnt == 0 && ring == [] && loaded == stored == []
      ensures this.size == size && this.len == len
    {
      this.size, this.len := size, len;
      used, unused, cachePnt, curFetching, fetch := [], [], 0, 0, Off;
      wbOut, wb, moreToWb, wbAlignment := 0, Off, false, 0;
      head, tail, ring := 0, 0, [];
      loaded, stored, headCount, cacheCount, tailCount := [], [], 0, 0, 0;
    }

    /** DescCache::writeback */
    method Writeback(mask: nat)
      requires Valid()
      modifies this`moreToWb, this`wbAlignment, this`wbOut, this`wb
      ensures Valid() && View() == AfterWriteback(old(View()), mask)
    {
      WritebackKeeps(View(), mask);
      RequestWriteback(mask);
    }

    method RequestWriteback(mask: nat)
      modifies this`moreToWb, this`wbAlignment, this`wbOut, this`wb
      requires wbOut == 0 ==> wb == Off
      ensures View() == AfterWriteback(old(View()), mask)
    {
      var most := |used|;
      if wbOut > 0 {
        if mask < wbAlignment {
          moreToWb, wbAlignment := true, mask;
        }
        return;
      }
      moreToWb, wbAlignment := false, mask;
      if most + head >= len {
        most, moreToWb := if len >= head then len - head else 0, true;
      } else if wbAlignment != 0 {
        most := AndNot(most, wbAlignment);
      }
      if most == 0 {
        return;
      }
      wbOut, wb := most, Delayed;
    }

    /** DescCache::writeback1, when the delay has passed. */
    method Writeback1()
      requires Valid() && wb == Delayed
      modifies this`wb, this`ring
      ensures Valid() && View() == AfterWriteback1(old(View()))
    {
      Writeback1Keeps(View());
      ghost var log := WriteBackLog(View());
      var wbBuf: seq<Write> := [];
      for x := 0 to wbOut
        invariant |wbBuf| == x && wbBuf == log[..x]
      {
        assert log[..x + 1] == log[..x] + [log[x]];
        wbBuf := wbBuf + [Write(head + x, used[x])];
      }
      assert wbBuf == log;
      ring, wb := ring + wbBuf, InFlight;
    }

    /** DescCache::fetchDescriptors */
    method FetchDescriptors()
      requires Valid()
      modifies this`curFetching, this`fetch
      ensures Valid() && View() == AfterFetchDescriptors(old(View()))
    {
      FetchKeeps(View());
      RequestFetch();
    }

    method RequestFetch()
      requires |used| + |unused| <= size && cachePnt <= len && (curFetching == 0 ==> fetch == Off)
      modifies this`curFetching, this`fetch
      ensures View() == AfterFetchDescriptors(old(View()))
    {
      if curFetching > 0 {
        return;
      }
      var most: int := if tail >= cachePnt then tail - cachePnt else len - cachePnt;
      var free := size - |used| - |unused|;
      most := if most <= free then most else free;
      if most == 0 {
        return;
      }
      curFetching, fetch := most, Delayed;
    }

    /** DescCache::fetchDescriptors1, when the delay has passed. */
    method FetchDescriptors1() returns (entry: nat, count: nat)
      requires Valid() && fetch == Delayed
      modifies this`fetch
      ensures Valid() && View() == old(View()).(fetch := InFlight)
      ensures entry == cachePnt && count == curFetching > 0 && entry + count <= len
    {
      StartFetchKeeps(View());
      entry, count, fetch := cachePnt, curFetching, InFlight;
    }

    /** DescCache::fetchComplete, with what the DMA read. */
    method FetchComplete(contents: seq<int>)
      requires Valid() && fetch == InFlight && |contents| == curFetching
      modifies this`unused, this`cachePnt, this`curFetching, this`fetch, this`cacheCount, this`loaded
      ensures Valid() && View() == AfterFetchComplete(old(View()), contents)
      ensures loaded == old(loaded) + contents
    {
      FetchCompleteKeeps(View(), contents);
      StoreFetched(contents);
    }

    method StoreFetched(contents: seq<int>)
      requires |contents| == curFetching
      modifies this`unused, this`cachePnt, this`curFetching, this`fetch, this`cacheCount, this`loaded
      ensures View() == AfterFetchComplete(old(View()), contents)
    {
      PushFetched(contents);
      MovePointer();
    }

    method MovePointer()
      modifies this`cachePnt, this`curFetching, this`fetch, this`cacheCount
      ensures cacheCount == old(cacheCount) + old(curFetching) && curFetching == 0 && fetch == Off
      ensures cachePnt == if old(cachePnt) + old(curFetching) == len then 0 else old(cachePnt) + old(curFetching)
    {
      cacheCount := cacheCount + curFetching;
      cachePnt := cachePnt + curFetching;
      if cachePnt == len {
        cachePnt := 0;
      }
      curFetching, fetch := 0, Off;
    }

    // Puts the fetched descriptors into the cache.
    method PushFetched(contents: seq<int>)
      requires |contents| == curFetching
      modifies this`unused, this`loaded
      ensures unused == old(unused) + Fetched(old(View()), contents) && loaded == old(loaded) + contents
    {
      ghost var read, before := Fetched(View(), contents), unused;
      for x := 0 to curFetching
        invariant unused == before + read[..x] && loaded == old(loaded)
      {
        assert read[..x + 1] == read[..x] + [read[x]];
        unused := unused + [Desc(cachePnt + x, contents[x], contents[x])];
      }
      assert read[..curFetching] == read;
      loaded := loaded + contents;
    }

    /** A packet has used the first unused descriptor: pktComplete, processContextDesc. */
    method PacketComplete(content: int)
      requires Valid() && unused != []
      modifies this`used, this`unused, this`stored
      ensures Valid() && View() == AfterPacket(old(View()), content)
      ensures stored == old(stored) + [content] && used == old(used) + [old(unused)[0].(content := content)]
    {
      PacketKeeps(View(), content);
      var desc := unused[0].(content := content);
      unused := unused[1..];
      used, stored := used + [desc], stored + [content];
    }

    /** DescCache::wbComplete; `ticking` says that the state machine is awake and fetches itself. */
    method WbComplete(ticking: bool)
      requires Valid() && wb == InFlight
      modifies this`used, this`head, this`wbOut, this`wb, this`headCount
      modifies this`moreToWb, this`wbAlignment, this`curFetching, this`fetch
      ensures Valid() && View() == AfterWbComplete(old(View()), ticking)
    {
      WrittenKeeps(View());
      PopWritten();
      if moreToWb {
        FlagIrrelevant(View());
        moreToWb := false;
        Writeback(wbAlignment);
      }
      if !ticking {
        FetchDescriptors();
      }
    }

    // Takes the written descriptors off the cache and moves the head.
    method PopWritten()
      requires wbOut <= |used|
      modifies this`used, this`head, this`wbOut, this`wb, this`headCount
      ensures View() == AfterWritten(old(View()))
    {
      PopUsed();
      headCount := headCount + wbOut;
      var h := head + wbOut;
      wbOut, wb := 0, Off;
      if h >= len {
        h := h - len;
      }
      head := h;
    }

    method PopUsed()
      requires wbOut <= |used|
      modifies this`used
      ensures used == old(used)[wbOut..]
    {
      ghost var before := used;
      for x := 0 to wbOut
        invariant used == before[x..]
      {
        used := used[1..];
      }
    }

    // The host writes the tail register.
    method WriteTail(more: nat)
      requires Valid() && tailCount + more < headCount + len
      modifies this`tail, this`tailCount
      ensures Valid() && View() == AfterTail(old(View()), more)
    {
      ghost var before := View();
      TailKeeps(before, more);
      tail, tailCount := (tail + more) % len, tailCount + more;
      assert View() == AfterTail(before, more);
    }
  }
}
