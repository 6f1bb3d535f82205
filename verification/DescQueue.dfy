/**
  The descriptor queue as it is kept in memory: 128 contexts used as a ring,
  the position and ring index of the first active one, and the count of active
  ones.  Every operation is proved to act on the descriptors exactly as the
  pipeline of module DescPipeline does, with its state assertions.
 */
module DescQueue {
  import opened DescPipeline
  import opened Modular
  import opened Wrappers

  // A DMA operation as issued: first context, number of descriptors, and the
  // ring entry its address is computed from.
  datatype Issued = Issued(pos: nat, n: nat, entry: nat)

  const U32_SIZE: nat := 0x1_0000_0000

  // Subtraction of 32-bit unsigned numbers.
  function U32Sub(a: nat, b: nat): nat { (a - b) % U32_SIZE }

  // ------------------------------------------------- the 32-bit tail difference

  lemma AvailExact(len: nat, fetched: nat, posted: nat)
    requires 0 < len <= U32_SIZE && U32_SIZE % len == 0 && fetched <= posted < fetched + len
    ensures U32Sub(posted % len, fetched % len) % len == posted - fetched
  {
    var t, n, d := posted % len, fetched % len, posted - fetched;
    ModAdd(fetched, d, len);
    if n + d < len {
      ModSmall(n + d, len);
      ModSmall(d, len);
    } else {
      ModIs(n + d, len, 1, n + d - len);
      assert t - n == d - len;
      var k := U32_SIZE / len;
      assert U32_SIZE == len * k;
      assert U32_SIZE + d - len == len * (k - 1) + d;
      ModIs(U32_SIZE + d - len, len, k - 1, d);
    }
  }

  // The distance from entry n to entry t going round the ring.
  function Distance(t: nat, n: nat, len: nat): int { if n <= t then t - n else t - n + len }

  /** The queue computes the number of available descriptors correctly for all
      positions if and only if its length divides 2^32, that is, if and only if
      it is a power of two. */
  lemma AvailExactIff(len: nat)
    requires 0 < len < U32_SIZE
    ensures (forall t: nat, n: nat :: t < len && n < len ==> U32Sub(t, n) % len == Distance(t, n, len))
            <==> U32_SIZE % len == 0
  {
    if U32_SIZE % len == 0 {
      forall t: nat, n: nat | t < len && n < len ensures U32Sub(t, n) % len == Distance(t, n, len) {
        var posted := n + Distance(t, n, len);
        ModSmall(n, len);
        if n <= t { ModSmall(t, len); } else { ModWrap(t, len); ModSmall(t, len); }
        AvailExact(len, n, posted);
      }
    } else {
      ModSmall(1, len + 1);
      LengthThatFails(len);
    }
  }

  lemma LengthThatFails(len: nat)
    requires 1 < len < U32_SIZE && U32_SIZE % len != 0
    ensures U32Sub(0, 1) % len != Distance(0, 1, len)
  {
    var q, r := U32_SIZE / len, U32_SIZE % len;
    assert U32_SIZE - 1 == len * q + (r - 1);
    ModIs(U32_SIZE - 1, len, q, r - 1);
  }

  // ---------------------------------------------------------- contexts as a ring

  // The contexts in window order: element k is the context of descriptor first + k.
  ghost function Unrolled<T>(ctxs: seq<T>, first: nat): (r: seq<T>)
    requires |ctxs| == MAX_ACTIVE
    ensures |r| == MAX_ACTIVE && forall k :: 0 <= k < MAX_ACTIVE ==> r[k] == ctxs[Wrap(first + k, MAX_ACTIVE)]
  {
    seq(MAX_ACTIVE, k requires 0 <= k => ctxs[Wrap(first + k, MAX_ACTIVE)])
  }

  lemma UnrolledUpdate<T>(ctxs: seq<T>, first: nat, k: nat, x: T)
    requires |ctxs| == MAX_ACTIVE && k < MAX_ACTIVE
    ensures Unrolled(ctxs[Wrap(first + k, MAX_ACTIVE) := x], first) == Unrolled(ctxs, first)[k := x]
  {
    var p := Wrap(first + k, MAX_ACTIVE);
    var u, w := Unrolled(ctxs[p := x], first), Unrolled(ctxs, first)[k := x];
    forall j | 0 <= j < MAX_ACTIVE ensures u[j] == w[j] {
      if Wrap(first + j, MAX_ACTIVE) == p {
        WrapInjective(first, j, k, MAX_ACTIVE);
      }
    }
  }

  // Moving the start of the window turns the unrolled ring.
  lemma UnrolledShift<T>(ctxs: seq<T>, first: nat, d: nat)
    requires |ctxs| == MAX_ACTIVE && d <= MAX_ACTIVE
    ensures Unrolled(ctxs, first + d) == Unrolled(ctxs, first)[d..] + Unrolled(ctxs, first)[..d]
  {
    var u, v := Unrolled(ctxs, first), Unrolled(ctxs, first + d);
    forall k | 0 <= k < MAX_ACTIVE ensures v[k] == (u[d..] + u[..d])[k] {
      if k + d >= MAX_ACTIVE {
        assert Wrap(first + d + k, MAX_ACTIVE) == Wrap(first + (d + k - MAX_ACTIVE), MAX_ACTIVE);
      } else {
        assert first + d + k == first + (d + k);
      }
    }
  }

  // Stages of the window followed by empty contexts.
  ghost function Padded(win: seq<Stage>): (r: seq<Stage>)
    requires |win| <= MAX_ACTIVE
    ensures |r| == MAX_ACTIVE
    ensures forall k :: 0 <= k < MAX_ACTIVE ==> r[k] == if k < |win| then win[k] else Empty
  {
    win + seq(MAX_ACTIVE - |win|, _ => Empty)
  }

  // ------------------------------------------------------- loops over contexts

  // One context of the window is written.
  method SetContext<T>(ctxs: array<T>, ghost first: nat, ghost k: nat, p: nat, x: T)
    requires ctxs.Length == MAX_ACTIVE && k < MAX_ACTIVE && p == Wrap(first + k, MAX_ACTIVE)
    modifies ctxs
    ensures Unrolled(ctxs[..], first) == Unrolled(old(ctxs[..]), first)[k := x]
  {
    UnrolledUpdate(ctxs[..], first, k, x);
    ctxs[p] := x;
    assert ctxs[..] == old(ctxs[..])[p := x];
  }

  // The contexts of the first n descriptors of the window know their ring entry.
  ghost predicate Indexed(indices: seq<nat>, first: nat, n: nat, len: nat)
    requires |indices| == MAX_ACTIVE && n <= MAX_ACTIVE && len > 0
  {
    forall k :: 0 <= k < n ==> Unrolled(indices, first)[k] == Wrap(first + k, len)
  }

  lemma IndexedMore(before: seq<nat>, after: seq<nat>, first: nat, n: nat, len: nat, x: nat)
    requires |before| == MAX_ACTIVE == |after| && n < MAX_ACTIVE && len > 0 && Indexed(before, first, n, len)
    requires Unrolled(after, first) == Unrolled(before, first)[n := x] && x == Wrap(first + n, len)
    ensures Indexed(after, first, n + 1, len)
  {
  }

  lemma PaddedMore(win: seq<Stage>, i: nat)
    requires |win| + i < MAX_ACTIVE
    ensures Padded(win + seq(i, _ => Fetching))[|win| + i] == Empty
    ensures Padded(win + seq(i, _ => Fetching))[|win| + i := Fetching] == Padded(win + seq(i + 1, _ => Fetching))
  {
  }

  // The loop of trigger_fetch: `pos` and `entry` are those of descriptor first + |win|.
  method MarkFetching(states: array<Stage>, indices: array<nat>, len: nat, pos: nat, entry: nat, n: nat,
                      ghost first: nat, ghost win: seq<Stage>)
    requires states.Length == MAX_ACTIVE && indices.Length == MAX_ACTIVE && len > 0 && |win| + n <= MAX_ACTIVE
    requires pos == Wrap(first + |win|, MAX_ACTIVE) && entry == Wrap(first + |win|, len)
    requires Unrolled(states[..], first) == Padded(win) && Indexed(indices[..], first, |win|, len)
    modifies states, indices
    ensures Unrolled(states[..], first) == Padded(win + seq(n, _ => Fetching))
    ensures Indexed(indices[..], first, |win| + n, len)
  {
    var i := 0;
    assert win + seq(0, _ => Fetching) == win;
    while i < n
      invariant 0 <= i <= n
      invariant Unrolled(states[..], first) == Padded(win + seq(i, _ => Fetching))
      invariant Indexed(indices[..], first, |win| + i, len)
    {
      ghost var k := |win| + i;
      var p, x := FetchSlot(pos, entry, i, len, first, |win|);
      PaddedMore(win, i);
      assert states[p] == Unrolled(states[..], first)[k] == Empty;
      ghost var before := indices[..];
      SetContext(states, first, k, p, Fetching);
      SetContext(indices, first, k, p, x);
      IndexedMore(before, indices[..], first, k, len, x);
      i := i + 1;
    }
  }

  method FetchSlot(pos: nat, entry: nat, i: nat, len: nat, ghost first: nat, ghost m: nat) returns (p: nat, x: nat)
    requires len > 0 && pos == Wrap(first + m, MAX_ACTIVE) && entry == Wrap(first + m, len)
    ensures p == Wrap(first + (m + i), MAX_ACTIVE) && x == Wrap(first + (m + i), len)
  {
    WrapAdd(first + m, i, MAX_ACTIVE);
    WrapAdd(first + m, i, len);
    assert first + m + i == first + (m + i);
    p, x := (pos + i) % MAX_ACTIVE, (entry + i) % len;
  }

  // Sets the stage of n consecutive contexts, checking what they were.
  method MarkRange(states: array<Stage>, pos: nat, n: nat, was: Stage, st: Stage, ghost first: nat, ghost win: seq<Stage>, ghost lo: nat)
    requires states.Length == MAX_ACTIVE && lo + n <= |win| <= MAX_ACTIVE && pos == Wrap(first + lo, MAX_ACTIVE)
    requires Unrolled(states[..], first) == Padded(win)
    requires forall k :: lo <= k < lo + n ==> win[k] == was
    modifies states
    ensures Unrolled(states[..], first) == Padded(SetRange(win, lo, lo + n, st))
  {
    var i := 0;
    assert SetRange(win, lo, lo, st) == win;
    while i < n
      invariant 0 <= i <= n
      invariant Unrolled(states[..], first) == Padded(SetRange(win, lo, lo + i, st))
    {
      var p := (pos + i) % MAX_ACTIVE;
      WrapAdd(first + lo, i, MAX_ACTIVE);
      assert first + lo + i == first + (lo + i);
      assert states[p] == Unrolled(states[..], first)[lo + i] == was;
      SetContext(states, first, lo + i, p, st);
      assert Padded(SetRange(win, lo, lo + i, st))[lo + i := st] == Padded(SetRange(win, lo, lo + i + 1, st));
      i := i + 1;
    }
  }

  // The first loop of trigger_process.
  method FirstToProcess(states: array<Stage>, firstPos: nat, cnt: nat, ghost first: nat, ghost win: seq<Stage>) returns (i: nat)
    requires states.Length == MAX_ACTIVE && cnt == |win| <= MAX_ACTIVE && firstPos == Wrap(first, MAX_ACTIVE)
    requires Unrolled(states[..], first) == Padded(win)
    ensures i == SkipDone(win, 0)
  {
    i := 0;
    while i < cnt
      invariant 0 <= i <= cnt && SkipDone(win, 0) == SkipDone(win, i)
    {
      WrapAdd(first, i, MAX_ACTIVE);
      assert states[(firstPos + i) % MAX_ACTIVE] == Unrolled(states[..], first)[i] == win[i];
      if Rank(states[(firstPos + i) % MAX_ACTIVE]) <= Rank(Prepared) {
        break;
      }
      i := i + 1;
    }
  }

  // The first loop of trigger_writeback.
  method LeadingProcessed(states: array<Stage>, firstPos: nat, cnt: nat, ghost first: nat, ghost win: seq<Stage>) returns (n: nat)
    requires states.Length == MAX_ACTIVE && cnt == |win| <= MAX_ACTIVE && firstPos == Wrap(first, MAX_ACTIVE)
    requires Unrolled(states[..], first) == Padded(win)
    ensures n == CountProcessed(win, 0)
  {
    n := 0;
    while n < cnt
      invariant 0 <= n <= cnt && CountProcessed(win, 0) == CountProcessed(win, n)
    {
      WrapAdd(first, n, MAX_ACTIVE);
      assert states[(firstPos + n) % MAX_ACTIVE] == Unrolled(states[..], first)[n] == win[n];
      if states[(firstPos + n) % MAX_ACTIVE] != Processed {
        break;
      }
      n := n + 1;
    }
  }

  // The second loop of writeback_done: frees the leading written-back contexts.
  method FreeWritten(states: array<Stage>, firstPos: nat, cnt: nat, ghost first: nat, ghost win: seq<Stage>) returns (bump: nat)
    requires states.Length == MAX_ACTIVE && cnt == |win| <= MAX_ACTIVE && firstPos == Wrap(first, MAX_ACTIVE)
    requires Unrolled(states[..], first) == Padded(win)
    modifies states
    ensures bump == CountWritten(win, 0)
    ensures Unrolled(states[..], first) == Padded(SetRange(win, 0, bump, Empty))
  {
    bump := 0;
    assert SetRange(win, 0, 0, Empty) == win;
    while bump < cnt
      invariant 0 <= bump <= cnt && CountWritten(win, 0) == CountWritten(win, bump)
      invariant Unrolled(states[..], first) == Padded(SetRange(win, 0, bump, Empty))
    {
      var p := (firstPos + bump) % MAX_ACTIVE;
      WrapAdd(first, bump, MAX_ACTIVE);
      assert states[p] == Unrolled(states[..], first)[bump] == win[bump];
      if states[p] != WrittenBack {
        break;
      }
      SetContext(states, first, bump, p, Empty);
      assert Padded(SetRange(win, 0, bump, Empty))[bump := Empty] == Padded(SetRange(win, 0, bump + 1, Empty));
      bump := bump + 1;
    }
  }

  // The loop of dma_fetch::done: a context is prepared at once unless its
  // data has to be fetched first.
  method MarkPrepared(states: array<Stage>, pos: nat, n: nat, preps: seq<bool>,
                      ghost first: nat, ghost win: seq<Stage>, ghost lo: nat)
    requires states.Length == MAX_ACTIVE && lo + n <= |win| <= MAX_ACTIVE && pos == Wrap(first + lo, MAX_ACTIVE)
    requires |preps| == n && Unrolled(states[..], first) == Padded(win)
    modifies states
    ensures Unrolled(states[..], first) == Padded(PreparedRange(win, lo, preps))
  {
    var i := 0;
    assert PreparedRange(win, lo, preps[..0]) == win;
    while i < n
      invariant 0 <= i <= n
      invariant Unrolled(states[..], first) == Padded(PreparedRange(win, lo, preps[..i]))
    {
      var p := (pos + i) % MAX_ACTIVE;
      WrapAdd(first + lo, i, MAX_ACTIVE);
      assert first + lo + i == first + (lo + i);
      SetContext(states, first, lo + i, p, Preparing);
      if !preps[i] {
        assert states[p] == Unrolled(states[..], first)[lo + i] == Preparing;
        SetContext(states, first, lo + i, p, Prepared);
      }
      PreparedMore(win, lo, preps, i);
      i := i + 1;
    }
    assert preps[..n] == preps;
  }

  ghost function PreparedRange(win: seq<Stage>, lo: nat, preps: seq<bool>): (r: seq<Stage>)
    requires lo + |preps| <= |win|
    ensures |r| == |win|
    ensures forall k :: 0 <= k < |win| ==>
              r[k] == if lo <= k < lo + |preps| then (if preps[k - lo] then Preparing else Prepared) else win[k]
  {
    seq(|win|, k requires 0 <= k < |win| =>
      if lo <= k < lo + |preps| then (if preps[k - lo] then Preparing else Prepared) else win[k])
  }

  lemma PreparedMore(win: seq<Stage>, lo: nat, preps: seq<bool>, i: nat)
    requires lo + |preps| <= |win| <= MAX_ACTIVE && i < |preps|
    ensures Padded(PreparedRange(win, lo, preps[..i]))[lo + i := if preps[i] then Preparing else Prepared]
            == Padded(PreparedRange(win, lo, preps[..i + 1]))
  {
  }

  lemma IndexedShift(indices: seq<nat>, first: nat, n: nat, len: nat, d: nat)
    requires |indices| == MAX_ACTIVE && d <= n <= MAX_ACTIVE && len > 0 && Indexed(indices, first, n, len)
    ensures Indexed(indices, first + d, n - d, len)
  {
    UnrolledShift(indices, first, d);
    var u, v := Unrolled(indices, first), Unrolled(indices, first + d);
    forall k | 0 <= k < n - d ensures v[k] == Wrap(first + d + k, len) {
      assert v[k] == u[k + d];
      assert first + d + k == first + (k + d);
    }
  }

  // Freed contexts come round to the end of the window.
  lemma FreedShift(ctxs: seq<Stage>, first: nat, win: seq<Stage>, bump: nat)
    requires |ctxs| == MAX_ACTIVE && bump <= |win| <= MAX_ACTIVE
    requires Unrolled(ctxs, first) == Padded(SetRange(win, 0, bump, Empty))
    ensures Unrolled(ctxs, first + bump) == Padded(win[bump..])
  {
    UnrolledShift(ctxs, first, bump);
  }

  // ----------------------------------------------------------------- the queue

  // The subclass still holds what it was handed and has not dealt with.
  ghost predicate Held(q: Queue) {
    && q.freed <= q.claimed <= q.started <= q.Fetched()
    && forall a: nat :: q.claimed <= a < q.started ==> q.St(a) == Processing
  }

  ghost predicate WaitingOk(waiting: seq<nat>, q: Queue) {
    && q.claimed <= q.started && |waiting| == q.started - q.claimed
    && forall k :: 0 <= k < |waiting| ==> waiting[k] == Wrap(q.claimed + k, MAX_ACTIVE)
  }

  lemma WaitingPush(waiting: seq<nat>, q: Queue)
    requires WaitingOk(waiting, q) && q.len > 0 && q.freed <= q.started < q.Fetched()
    ensures WaitingOk(waiting + [Wrap(q.started, MAX_ACTIVE)], Start(q))
  {
  }

  lemma WaitingPop(waiting: seq<nat>, q: Queue, op: Serving)
    requires WaitingOk(waiting, q) && waiting != [] && q.freed <= q.claimed && q.started <= q.Fetched()
    ensures WaitingOk(waiting[1..], ServeOne(q, op))
  {
    var t := ServeOne(q, op);
    forall k | 0 <= k < |waiting[1..]| ensures waiting[1..][k] == Wrap(t.claimed + k, MAX_ACTIVE) {
      assert waiting[1..][k] == waiting[k + 1];
      assert t.claimed + k == q.claimed + (k + 1);
    }
  }

  // The fields of a queue and the contents of its two arrays.
  datatype Memory = Memory(len: nat, states: seq<Stage>, indices: seq<nat>, firstPos: nat, firstIdx: nat,
                           cnt: nat, regTail: nat, waiting: seq<nat>)

  ghost predicate Numbers(m: Memory, q: Queue) {
    && 0 < m.len <= U32_SIZE && U32_SIZE % m.len == 0
    && |m.states| == MAX_ACTIVE && |m.indices| == MAX_ACTIVE
    && q.len == m.len && m.cnt == |q.win| <= MAX_ACTIVE
    && m.firstPos == Wrap(q.freed, MAX_ACTIVE) && m.firstIdx == Wrap(q.freed, m.len)
    && m.regTail == Wrap(q.posted, m.len)
    && WaitingOk(m.waiting, q)
  }

  ghost predicate Represents(m: Memory, q: Queue) {
    && Numbers(m, q)
    && Unrolled(m.states, q.freed) == Padded(q.win)
    && Indexed(m.indices, q.freed, m.cnt, m.len)
  }

  ghost function Memories(q: Queue): iset<Memory> {
    iset m | Represents(m, q)
  }

  // One call of process(), and the rest of the loop.
  lemma ProcessFromNext(q: Queue, k: nat, plan: seq<seq<Serving>>)
    requires q.len > 0 && q.freed <= q.claimed <= q.started == q.freed + k < q.Fetched() && q.win[k] == Prepared
    ensures var next := Serve(Start(q), if plan == [] then [] else plan[0]);
            ProcessFrom(q, k, plan) == ProcessFrom(next, k + 1, if plan == [] then [] else plan[1..])
  {
  }

  // What there is to show when the window's start has moved over d descriptors.
  lemma NewStart(m: Memory, q: Queue, m': Memory, q': Queue, win: seq<Stage>, d: nat)
    requires Numbers(m, q) && d <= |win| == m.cnt
    requires m' == m.(states := m'.states, firstPos := m'.firstPos, firstIdx := m'.firstIdx, cnt := m.cnt - d)
    requires q' == q.(win := win[d..], freed := q.freed + d, dmas := q'.dmas)
    requires m'.firstPos == Wrap(q.freed + d, MAX_ACTIVE) && m'.firstIdx == Wrap(q.freed + d, m.len)
    requires |m'.states| == MAX_ACTIVE && Unrolled(m'.states, q.freed + d) == Padded(win[d..])
    requires Indexed(m.indices, q.freed + d, m.cnt - d, m.len)
    ensures m' in Memories(q')
  {
  }

  // What there is to show when an operation changes stages but not the window.
  lemma NewStages(m: Memory, q: Queue, m': Memory, q': Queue)
    requires m in Memories(q) && m' == m.(states := m'.states, waiting := m'.waiting)
    requires q'.len == q.len && q'.freed == q.freed && q'.posted == q.posted && |q'.win| == |q.win|
    requires |m'.states| == MAX_ACTIVE && Unrolled(m'.states, q.freed) == Padded(q'.win)
    requires WaitingOk(m'.waiting, q')
    ensures m' in Memories(q')
  {
  }

  lemma WriteBackDoneIs(q: Queue, first: nat, n: nat, win: seq<Stage>)
    requires q.freed <= first && first + n <= q.Fetched()
    requires win == SetRange(q.win, first - q.freed, first - q.freed + n, WrittenBack)
    ensures var bump := CountWritten(win, 0);
            DescPipeline.WriteBackDone(q, first, n)
            == q.(win := win[bump..], freed := q.freed + bump, dmas := q.dmas - multiset{WriteBack(first, n)})
  {
  }

  // ... and when it adds descriptors to the window.
  lemma NewWindow(m: Memory, q: Queue, m': Memory, q': Queue)
    requires m in Memories(q) && m' == m.(states := m'.states, indices := m'.indices, cnt := m'.cnt)
    requires q' == q.(win := q'.win, dmas := q'.dmas) && m'.cnt == |q'.win| <= MAX_ACTIVE
    requires |m'.states| == MAX_ACTIVE == |m'.indices| && Unrolled(m'.states, q.freed) == Padded(q'.win)
    requires q.len > 0 && Indexed(m'.indices, q.freed, m'.cnt, q.len)
    ensures m' in Memories(q')
  {
  }

  lemma FetchDoneWin(q: Queue, first: nat, n: nat, preps: seq<bool>)
    requires q.freed <= first && first + n <= q.Fetched() && |preps| == n
    ensures DescPipeline.FetchDone(q, first, n, preps).win == PreparedRange(q.win, first - q.freed, preps)
  {
  }

  // The DMA for the next descriptors to fetch, if there are any.
  function FetchOf(q: Queue): Option<Issued>
    requires q.len > 0 && q.Fetched() <= q.posted && |q.win| <= MAX_ACTIVE
  {
    if FetchCount(q) == 0 then None
    else Some(Issued(Wrap(q.Fetched(), MAX_ACTIVE), FetchCount(q), Wrap(q.Fetched(), q.len)))
  }

  // The DMA for the leading processed descriptors, if there are any.
  function WriteBackOf(q: Queue): Option<Issued>
    requires q.len > 0
  {
    if WriteBackCount(q) == 0 then None
    else Some(Issued(Wrap(q.freed, MAX_ACTIVE), WriteBackCount(q), Wrap(q.freed, q.len)))
  }

  class QueueBase {
    const len: nat
    const states: array<Stage>
    const indices: array<nat>
    var firstPos: nat
    var firstIdx: nat
    var cnt: nat
    var regTail: nat
    var regHead: nat
    // contexts handed to process() that the subclass has not dealt with, oldest first
    var waiting: seq<nat>
    // the descriptors this object stands for
    ghost var q: Queue

    ghost function Snapshot(): Memory
      reads this, states, indices
    {
      Memory(len, states[..], indices[..], firstPos, firstIdx, cnt, regTail, waiting)
    }

    // The object's memory stands for the descriptors q.
    ghost predicate Rep()
      reads this, states, indices
    {
      states.Length == MAX_ACTIVE && indices.Length == MAX_ACTIVE && Snapshot() in Memories(q)
    }

    constructor (len: nat, tail: nat)
      requires 0 < len <= U32_SIZE && U32_SIZE % len == 0 && tail < len
      ensures Rep() && fresh(states) && fresh(indices) && this.len == len && q == Init(len, tail)
    {
      this.len := len;
      states := new Stage[MAX_ACTIVE](_ => Empty);
      indices := new nat[MAX_ACTIVE](_ => 0);
      firstPos, firstIdx, cnt, regTail, regHead := 0, 0, 0, tail, 0;
      waiting := [];
      q := Init(len, tail);
      new;
      assert Unrolled(states[..], q.freed) == Padded(q.win);
    }

    // The first half of trigger_fetch: where to fetch from, and how much.
    method FetchSize() returns (nextIdx: nat, n: nat)
      requires Rep() && Counters(q)
      ensures nextIdx == Wrap(q.Fetched(), len) && n == FetchCount(q)
    {
      nextIdx := (firstIdx + cnt) % len;
      var avail := U32Sub(regTail, nextIdx) % len;
      n := Min(avail, MAX_ACTIVE - cnt);
      if nextIdx + n > len {
        n := len - nextIdx;
      }
      WrapAdd(q.freed, cnt, len);
      WrapIsMod(q.Fetched(), len);
      WrapIsMod(q.posted, len);
      AvailExact(len, q.Fetched(), q.posted);
    }

    method TriggerFetch() returns (dma: Option<Issued>)
      requires Rep() && Counters(q)
      modifies this`cnt, this`q, states, indices
      ensures Rep() && q == DescPipeline.TriggerFetch(old(q))
      ensures dma == FetchOf(old(q))
    {
      var nextIdx, n := FetchSize();
      if n == 0 {
        return None;
      }
      var pos := (firstPos + cnt) % MAX_ACTIVE;
      WrapAdd(q.freed, cnt, MAX_ACTIVE);
      MarkFetching(states, indices, len, pos, nextIdx, n, q.freed, q.win);
      q := DescPipeline.TriggerFetch(q);
      cnt := cnt + n;
      NewWindow(old(Snapshot()), old(q), Snapshot(), q);
      return Some(Issued(pos, n, nextIdx));
    }

    // processed() on the oldest context the subclass holds.
    method FinishOldest()
      requires Rep() && Held(q) && q.claimed < q.started
      modifies this`waiting, this`q, states
      ensures Rep() && Held(q) && q == ServeOne(old(q), Complete)
    {
      var p := waiting[0];
      ghost var k := q.claimed - q.freed;
      assert q.St(q.claimed) == q.win[k] == Processing;
      assert p == Wrap(q.claimed + 0, MAX_ACTIVE) && q.claimed == q.freed + k;
      assert states[p] == Unrolled(states[..], q.freed)[k] == Processing;
      WaitingPop(waiting, q, Complete);
      SetContext(states, q.freed, k, p, Processed);
      assert Padded(q.win)[k := Processed] == Padded(q.win[k := Processed]);
      OneChanged(q, ServeOne(q, Complete), q.claimed, Processed);
      q := ServeOne(q, Complete);
      waiting := waiting[1..];
      NewStages(old(Snapshot()), old(q), Snapshot(), q);
    }

    // data_write() for the oldest context the subclass holds.
    method WriteOldest()
      requires Rep() && Held(q) && q.claimed < q.started
      modifies this`waiting, this`q
      ensures Rep() && Held(q) && q == ServeOne(old(q), WriteData)
    {
      WaitingPop(waiting, q, WriteData);
      assert forall a: nat :: ServeOne(q, WriteData).St(a) == q.St(a);
      q := ServeOne(q, WriteData);
      waiting := waiting[1..];
    }

    // ctx.state = PROCESSING; ctx.process()
    method StartContext(p: nat)
      requires Rep() && Held(q) && q.started < q.Fetched() && p == Wrap(q.started, MAX_ACTIVE)
      requires q.St(q.started) == Prepared
      modifies this`waiting, this`q, states
      ensures Rep() && Held(q) && q == Start(old(q))
    {
      ghost var k := q.started - q.freed;
      assert q.started == q.freed + k;
      WaitingPush(waiting, q);
      SetContext(states, q.freed, k, p, Processing);
      assert Padded(q.win)[k := Processing] == Padded(q.win[k := Processing]);
      OneChanged(q, Start(q), q.started, Processing);
      waiting := waiting + [p];
      q := Start(q);
    }

    // What the subclass does while process() runs.
    method ServeAll(ops: seq<Serving>)
      requires Rep() && Held(q)
      modifies this`waiting, this`q, states
      ensures Rep() && Held(q) && q == Serve(old(q), ops)
    {
      var rest := ops;
      while rest != [] && waiting != []
        invariant Rep() && Held(q) && Serve(q, rest) == Serve(old(q), ops)
        decreases rest
      {
        if rest[0].Complete? {
          FinishOldest();
        } else {
          WriteOldest();
        }
        rest := rest[1..];
      }
    }

    // The context of the window's k-th descriptor.
    method ContextAt(k: nat) returns (p: nat)
      requires Rep() && k < cnt
      ensures p == Wrap(q.freed + k, MAX_ACTIVE) && states[p] == q.win[k]
    {
      p := (firstPos + k) % MAX_ACTIVE;
      WrapAdd(q.freed, k, MAX_ACTIVE);
      assert states[p] == Unrolled(states[..], q.freed)[k];
    }

    // Position and ring index of the window's start after freeing d contexts.
    method MovedBy(d: nat) returns (pos: nat, idx: nat)
      requires Numbers(Snapshot(), q)
      ensures pos == Wrap(q.freed + d, MAX_ACTIVE) && idx == Wrap(q.freed + d, len)
    {
      WrapAdd(q.freed, d, MAX_ACTIVE);
      WrapAdd(q.freed, d, len);
      pos, idx := (firstPos + d) % MAX_ACTIVE, (firstIdx + d) % len;
    }

    method ProcessContext(p: nat, ops: seq<Serving>)
      requires Rep() && Held(q) && q.started < q.Fetched() && p == Wrap(q.started, MAX_ACTIVE)
      requires q.win[q.started - q.freed] == Prepared
      modifies this`waiting, this`q, states
      ensures Rep() && Held(q) && q == Serve(Start(old(q)), ops)
      ensures q.freed == old(q).freed && q.started == old(q).started + 1
    {
      assert q.St(q.started) == Prepared;
      StartContext(p);
      ServeAll(ops);
    }

    // The second loop of trigger_process, from the window's k-th descriptor on.
    method ProcessPrepared(from: nat, plan: seq<seq<Serving>>)
      requires Rep() && Held(q) && q.started == q.freed + from
      modifies this`waiting, this`q, states
      ensures Rep() && q == ProcessFrom(old(q), from, plan)
    {
      var k, rest, more := from, plan, true;
      while more && k < cnt
        invariant from <= k <= cnt && Rep() && Held(q) && q.started == q.freed + k
        invariant ProcessFrom(q, k, rest) == ProcessFrom(old(q), from, plan)
        invariant !more ==> ProcessFrom(q, k, rest) == q
        decreases more, cnt - k
      {
        more := ProcessNext(k, rest);
        if more {
          rest := if rest == [] then [] else rest[1..];
          k := k + 1;
        }
      }
    }

    // One round of that loop: it ends at the first descriptor that is not prepared.
    method ProcessNext(k: nat, plan: seq<seq<Serving>>) returns (more: bool)
      requires Rep() && Held(q) && q.started == q.freed + k && k < cnt
      modifies this`waiting, this`q, states
      ensures Rep() && Held(q) && cnt == old(cnt)
      ensures !more ==> q == old(q) && ProcessFrom(q, k, plan) == q
      ensures more ==> q.started == q.freed + k + 1
      ensures more ==> ProcessFrom(q, k + 1, if plan == [] then [] else plan[1..]) == ProcessFrom(old(q), k, plan)
    {
      var p := ContextAt(k);
      more := states[p] == Prepared;
      if more {
        ProcessFromNext(q, k, plan);
        ProcessContext(p, if plan == [] then [] else plan[0]);
      }
    }

    method TriggerProcess(plan: seq<seq<Serving>>)
      requires Rep() && Held(q) && q.started == q.freed + SkipDone(q.win, 0)
      modifies this`waiting, this`q, states
      ensures Rep() && q == DescPipeline.TriggerProcess(old(q), plan)
    {
      var i := FirstToProcess(states, firstPos, cnt, q.freed, q.win);
      ProcessPrepared(i, plan);
    }

    method TriggerWriteback() returns (dma: Option<Issued>)
      requires Rep()
      modifies this`q, states
      ensures Rep() && q == DescPipeline.TriggerWriteback(old(q))
      ensures dma == WriteBackOf(old(q))
    {
      var n := LeadingProcessed(states, firstPos, cnt, q.freed, q.win);
      if firstIdx + n > len {
        n := len - firstIdx;
      }
      if n == 0 {
        return None;
      }
      MarkRange(states, firstPos, n, Processed, WritingBack, q.freed, q.win, 0);
      q := DescPipeline.TriggerWriteback(q);
      NewStages(old(Snapshot()), old(q), Snapshot(), q);
      return Some(Issued(firstPos, n, firstIdx));
    }

    // The second half of writeback_done: frees the written-back prefix of `win`.
    method FreeFront(ghost win: seq<Stage>, ghost dmas: multiset<Dma>)
      requires states.Length == MAX_ACTIVE && indices.Length == MAX_ACTIVE && Numbers(Snapshot(), q)
      requires |win| == cnt && Unrolled(states[..], q.freed) == Padded(win) && Indexed(indices[..], q.freed, cnt, len)
      modifies this`firstPos, this`firstIdx, this`cnt, this`regHead, this`q, states
      ensures Rep() && regHead == Wrap(q.freed, len)
      ensures var bump := CountWritten(win, 0);
              q == old(q).(win := win[bump..], freed := old(q).freed + bump, dmas := dmas)
    {
      ghost var before, was := Snapshot(), q;
      var bump := FreeWritten(states, firstPos, cnt, q.freed, win);
      FreedShift(states[..], q.freed, win, bump);
      IndexedShift(indices[..], q.freed, cnt, len, bump);
      firstPos, firstIdx := MovedBy(bump);
      cnt := cnt - bump;
      regHead := firstIdx;
      q := q.(win := win[bump..], freed := q.freed + bump, dmas := dmas);
      NewStart(before, was, Snapshot(), q, win, bump);
    }

    method WritebackDone(pos: nat, n: nat, ghost first: nat)
      requires Rep() && q.freed <= first && first + n <= q.Fetched() && pos == Wrap(first, MAX_ACTIVE)
      requires forall a: nat :: first <= a < first + n ==> q.St(a) == WritingBack
      modifies this`firstPos, this`firstIdx, this`cnt, this`regHead, this`q, states
      ensures Rep() && q == DescPipeline.WriteBackDone(old(q), first, n)
      ensures regHead == Wrap(q.freed, len)
    {
      MarkWritten(pos, n, first);
      ghost var win := SetRange(q.win, first - q.freed, first - q.freed + n, WrittenBack);
      WriteBackDoneIs(q, first, n, win);
      FreeFront(win, q.dmas - multiset{WriteBack(first, n)});
    }

    // The first half of writeback_done.
    method MarkWritten(pos: nat, n: nat, ghost first: nat)
      requires Rep() && q.freed <= first && first + n <= q.Fetched() && pos == Wrap(first, MAX_ACTIVE)
      requires forall a: nat :: first <= a < first + n ==> q.St(a) == WritingBack
      modifies states
      ensures Numbers(Snapshot(), q) && Indexed(indices[..], q.freed, cnt, len)
      ensures Unrolled(states[..], q.freed)
              == Padded(SetRange(q.win, first - q.freed, first - q.freed + n, WrittenBack))
    {
      ghost var lo := first - q.freed;
      forall k | lo <= k < lo + n ensures q.win[k] == WritingBack {
        assert q.St(q.freed + k) == q.win[k];
      }
      assert first == q.freed + lo;
      MarkRange(states, pos, n, WritingBack, WrittenBack, q.freed, q.win, lo);
    }

    // dma_fetch::done up to its trigger
    method FetchDone(pos: nat, n: nat, preps: seq<bool>, ghost first: nat)
      requires Rep() && q.freed <= first && first + n <= q.Fetched() && pos == Wrap(first, MAX_ACTIVE) && |preps| == n
      modifies this`q, states
      ensures Rep() && q == DescPipeline.FetchDone(old(q), first, n, preps)
    {
      ghost var lo := first - q.freed;
      assert first == q.freed + lo;
      MarkPrepared(states, pos, n, preps, q.freed, q.win, lo);
      FetchDoneWin(q, first, n, preps);
      q := DescPipeline.FetchDone(q, first, n, preps);
      NewStages(old(Snapshot()), old(q), Snapshot(), q);
    }

    // prepared(), at the end of a data fetch
    method DataFetchDone(p: nat, ghost a: nat)
      requires Rep() && q.freed <= a < q.Fetched() && p == Wrap(a, MAX_ACTIVE) && q.St(a) == Preparing
      modifies this`q, states
      ensures Rep() && q == DescPipeline.DataFetchDone(old(q), a)
    {
      ghost var k := a - q.freed;
      assert a == q.freed + k && states[p] == Unrolled(states[..], q.freed)[k] == Preparing;
      SetContext(states, q.freed, k, p, Prepared);
      assert Padded(q.win)[k := Prepared] == Padded(q.win[k := Prepared]);
      q := DescPipeline.DataFetchDone(q, a);
    }

    // processed(), at the end of a data write
    method DataWriteDone(p: nat, ghost a: nat)
      requires Rep() && q.freed <= a < q.Fetched() && p == Wrap(a, MAX_ACTIVE) && q.St(a) == Processing
      modifies this`q, states
      ensures Rep() && q == DescPipeline.DataWriteDone(old(q), a)
    {
      ghost var k := a - q.freed;
      assert a == q.freed + k && states[p] == Unrolled(states[..], q.freed)[k] == Processing;
      SetContext(states, q.freed, k, p, Processed);
      assert Padded(q.win)[k := Processed] == Padded(q.win[k := Processed]);
      q := DescPipeline.DataWriteDone(q, a);
    }

    method Trigger(plan: seq<seq<Serving>>) returns (fetch: Option<Issued>, wb: Option<Issued>)
      requires Rep() && q in Consistent()
      modifies this`cnt, this`waiting, this`q, states, indices
      ensures Rep() && q in Triggered(old(q), plan)
      ensures q in Issuing(old(q).dmas, fetch, wb)
    {
      ghost var q0 := q;
      ConsistentParts(q0);
      fetch := TriggerFetch();
      FetchKeepsParts(q0);
      ghost var q1 := q;
      TriggerProcess(plan);
      ghost var q2 := q;
      wb := TriggerWriteback();
      TriggeredIs(q0, plan, q);
      TriggerIssues(q0, q1, q2, q, plan, fetch, wb);
    }

    // ------------------------------------------------ register writes and DMA completions

    method TailWritten(tail: nat, plan: seq<seq<Serving>>, ghost posted: nat)
      returns (fetch: Option<Issued>, wb: Option<Issued>)
      requires Rep() && q in AtRest() && q.posted <= posted < q.freed + q.len && tail == Wrap(posted, len)
      modifies this`cnt, this`regTail, this`waiting, this`q, states, indices
      ensures Rep() && q in Handled(old(q), TailWrite(posted, plan))
      ensures q in Issuing(old(q).dmas, fetch, wb)
    {
      TailReady(q, posted);
      regTail := tail;
      q := q.(posted := posted);
      fetch, wb := Trigger(plan);
      HandledTail(old(q), posted, plan, q);
    }

    method FetchCompleted(pos: nat, n: nat, preps: seq<bool>, plan: seq<seq<Serving>>, ghost first: nat)
      returns (fetch: Option<Issued>, wb: Option<Issued>)
      requires Rep() && q in AtRest() && Fetch(first, n) in q.dmas && |preps| == n && pos == Wrap(first, MAX_ACTIVE)
      modifies this`cnt, this`waiting, this`q, states, indices
      ensures Rep() && q in Handled(old(q), FetchComplete(first, n, preps, plan))
      ensures q in Issuing(old(q).dmas - multiset{Fetch(first, n)}, fetch, wb)
    {
      FetchReady(q, first, n, preps);
      FetchDone(pos, n, preps, first);
      FetchDoneOps(old(q), first, n, preps);
      ghost var before := q.dmas;
      fetch, wb := Trigger(plan);
      HandledFetch(old(q), first, n, preps, plan, q);
      IssuedSince(before, old(q).dmas - multiset{Fetch(first, n)}, fetch, wb, q);
    }

    method DataFetchCompleted(p: nat, plan: seq<seq<Serving>>, ghost a: nat)
      returns (fetch: Option<Issued>, wb: Option<Issued>)
      requires Rep() && q in AtRest() && DataFetch(a) in q.dmas && p == Wrap(a, MAX_ACTIVE)
      modifies this`cnt, this`waiting, this`q, states, indices
      ensures Rep() && q in Handled(old(q), DataFetchComplete(a, plan))
      ensures q in Issuing(old(q).dmas, fetch, wb)
    {
      DataFetchReady(q, a);
      DataFetchDone(p, a);
      ghost var before := q.dmas;
      assert SameOps(before, old(q).dmas);
      fetch, wb := Trigger(plan);
      HandledDataFetch(old(q), a, plan, q);
      IssuedSince(before, old(q).dmas, fetch, wb, q);
    }

    method DataWriteCompleted(p: nat, plan: seq<seq<Serving>>, ghost a: nat)
      returns (fetch: Option<Issued>, wb: Option<Issued>)
      requires Rep() && q in AtRest() && DataWrite(a) in q.dmas && p == Wrap(a, MAX_ACTIVE)
      modifies this`cnt, this`waiting, this`q, states, indices
      ensures Rep() && q in Handled(old(q), DataWriteComplete(a, plan))
      ensures q in Issuing(old(q).dmas, fetch, wb)
    {
      DataWriteReady(q, a);
      DataWriteDone(p, a);
      ghost var before := q.dmas;
      assert SameOps(before, old(q).dmas);
      fetch, wb := Trigger(plan);
      HandledDataWrite(old(q), a, plan, q);
      IssuedSince(before, old(q).dmas, fetch, wb, q);
    }

    method WriteBackCompleted(pos: nat, n: nat, plan: seq<seq<Serving>>, ghost first: nat)
      returns (fetch: Option<Issued>, wb: Option<Issued>)
      requires Rep() && q in AtRest() && WriteBack(first, n) in q.dmas && pos == Wrap(first, MAX_ACTIVE)
      modifies this, states, indices
      ensures Rep() && q in Handled(old(q), WriteBackComplete(first, n, plan))
      ensures q in Issuing(old(q).dmas - multiset{WriteBack(first, n)}, fetch, wb)
      ensures len > 0 && regHead == q.freed % len
    {
      WriteBackReady(q, first, n);
      WritebackDone(pos, n, first);
      fetch, wb := Trigger(plan);
      HandledWriteBack(old(q), first, n, plan, q);
      WrapIsMod(q.freed, len);
    }

    // packet_received() taking one buffer; with none left the packet is dropped
    method ReceivePacket() returns (ok: bool)
      requires Rep() && q in AtRest()
      modifies this`waiting, this`q
      ensures Rep() && (ok <==> old(q).claimed < old(q).started)
      ensures if ok then q in Handled(old(q), PacketReceived) else q == old(q)
    {
      RestHeld(q);
      ok := waiting != [];
      if ok {
        WriteOldest();
        HandledPacket(old(q), q);
      }
    }
  }

  // ------------------------------------------------------- the pipeline's events

  ghost function Consistent(): iset<Queue> {
    iset q | Inv(q)
  }

  ghost predicate IsTriggered(q: Queue, plan: seq<seq<Serving>>, r: Queue) {
    Inv(q) && r == DescPipeline.Trigger(q, plan)
  }

  ghost function Triggered(q: Queue, plan: seq<seq<Serving>>): iset<Queue> {
    iset r | IsTriggered(q, plan, r)
  }

  lemma ConsistentParts(q: Queue)
    requires q in Consistent()
    ensures Counters(q)
  {
  }

  lemma InvHeld(q: Queue)
    requires Inv(q)
    ensures Held(q) && q.started == q.freed + SkipDone(q.win, 0)
  {
    SkipsToStarted(q);
    forall a: nat | q.claimed <= a < q.started ensures q.St(a) == Processing { assert StageOk(q, a); }
  }

  lemma FetchKeepsParts(q: Queue)
    requires q in Consistent()
    ensures q.len > 0 && q.Fetched() <= q.posted && |q.win| <= MAX_ACTIVE
    ensures var q1 := DescPipeline.TriggerFetch(q); Held(q1) && q1.started == q1.freed + SkipDone(q1.win, 0)
  {
    TriggerFetchKeeps(q);
    InvHeld(DescPipeline.TriggerFetch(q));
  }

  // The fetch returned is the one that was added to the operations in flight before; it is
  // for the last descriptors of the window.  None: none was added.
  ghost predicate FetchAdded(before: multiset<Dma>, q: Queue, dma: Option<Issued>) {
    match dma
    case None => forall f: nat, n: nat :: q.dmas[Fetch(f, n)] == before[Fetch(f, n)]
    case Some(d) =>
      && 0 < d.n <= |q.win| && q.len > 0
      && d.pos == (q.Fetched() - d.n) % MAX_ACTIVE && d.entry == (q.Fetched() - d.n) % q.len && d.entry + d.n <= q.len
      && forall f: nat, n: nat ::
        q.dmas[Fetch(f, n)] == before[Fetch(f, n)] + if f == q.Fetched() - d.n && n == d.n then 1 else 0
  }

  // The same of the write-back, which is for the first ones.
  ghost predicate WriteBackAdded(before: multiset<Dma>, q: Queue, dma: Option<Issued>) {
    match dma
    case None => forall f: nat, n: nat :: q.dmas[WriteBack(f, n)] == before[WriteBack(f, n)]
    case Some(d) =>
      && 0 < d.n <= |q.win| && q.len > 0
      && d.pos == q.freed % MAX_ACTIVE && d.entry == q.freed % q.len && d.entry + d.n <= q.len
      && forall f: nat, n: nat ::
        q.dmas[WriteBack(f, n)] == before[WriteBack(f, n)] + if f == q.freed && n == d.n then 1 else 0
  }

  // What was issued, with these operations in flight before.
  ghost function Issuing(before: multiset<Dma>, fetch: Option<Issued>, wb: Option<Issued>): iset<Queue> {
    iset q | FetchAdded(before, q, fetch) && WriteBackAdded(before, q, wb)
  }

  // Only data transfers are not the same.
  ghost predicate SameOps(a: multiset<Dma>, b: multiset<Dma>) {
    && (forall f: nat, n: nat :: a[Fetch(f, n)] == b[Fetch(f, n)])
    && (forall f: nat, n: nat :: a[WriteBack(f, n)] == b[WriteBack(f, n)])
  }

  lemma IssuedSince(a: multiset<Dma>, b: multiset<Dma>, fetch: Option<Issued>, wb: Option<Issued>, q: Queue)
    requires SameOps(a, b) && q in Issuing(a, fetch, wb)
    ensures q in Issuing(b, fetch, wb)
  {
  }

  lemma FetchDoneOps(q: Queue, first: nat, n: nat, preps: seq<bool>)
    requires q.freed <= first && first + n <= q.Fetched() && |preps| == n
    ensures SameOps(DescPipeline.FetchDone(q, first, n, preps).dmas, q.dmas - multiset{Fetch(first, n)})
  {
  }

  // Nothing but data transfers is added or taken away.
  ghost predicate SameIssued(q: Queue, t: Queue) {
    && t.freed == q.freed && |t.win| == |q.win| && t.len == q.len
    && (forall f: nat, n: nat :: t.dmas[Fetch(f, n)] == q.dmas[Fetch(f, n)])
    && (forall f: nat, n: nat :: t.dmas[WriteBack(f, n)] == q.dmas[WriteBack(f, n)])
  }

  lemma {:induction false} ServeIssues(q: Queue, ops: seq<Serving>)
    requires q.freed <= q.claimed <= q.started <= q.Fetched()
    ensures SameIssued(q, Serve(q, ops))
    decreases ops
  {
    if ops != [] && q.claimed != q.started {
      ServeIssues(ServeOne(q, ops[0]), ops[1..]);
    }
  }

  lemma {:induction false} ProcessFromIssues(q: Queue, i: nat, plan: seq<seq<Serving>>)
    requires q.len > 0 && q.freed <= q.claimed <= q.started == q.freed + i <= q.Fetched()
    ensures SameIssued(q, ProcessFrom(q, i, plan))
    decreases |q.win| - i
  {
    if i < |q.win| && q.win[i] == Prepared {
      var ops := if plan == [] then [] else plan[0];
      ServeIssues(Start(q), ops);
      ProcessFromIssues(Serve(Start(q), ops), i + 1, if plan == [] then [] else plan[1..]);
    }
  }

  lemma ProcessIssues(q: Queue, plan: seq<seq<Serving>>)
    requires q.len > 0 && q.freed <= q.claimed <= q.started == q.freed + SkipDone(q.win, 0)
    ensures SameIssued(q, DescPipeline.TriggerProcess(q, plan))
  {
    ProcessFromIssues(q, SkipDone(q.win, 0), plan);
  }

  lemma TriggerIssues(q0: Queue, q1: Queue, q2: Queue, q: Queue, plan: seq<seq<Serving>>,
                      fetch: Option<Issued>, wb: Option<Issued>)
    requires q0.len > 0 && q0.Fetched() <= q0.posted && |q0.win| <= MAX_ACTIVE && q1 == DescPipeline.TriggerFetch(q0)
    requires q1.len > 0 && q1.freed <= q1.claimed <= q1.started == q1.freed + SkipDone(q1.win, 0)
    requires q2 == DescPipeline.TriggerProcess(q1, plan) && q2.len > 0 && q == DescPipeline.TriggerWriteback(q2)
    requires fetch == FetchOf(q0) && wb == WriteBackOf(q2)
    ensures q in Issuing(q0.dmas, fetch, wb)
  {
    ProcessIssues(q1, plan);
    FetchIssued(q0, fetch);
    WriteBackIssued(q2, wb);
    LaterKeepsFetch(q0.dmas, q1, q2, q, fetch);
  }

  lemma FetchIssued(q: Queue, dma: Option<Issued>)
    requires q.len > 0 && q.Fetched() <= q.posted && |q.win| <= MAX_ACTIVE && dma == FetchOf(q)
    ensures FetchAdded(q.dmas, DescPipeline.TriggerFetch(q), dma)
    ensures WriteBackAdded(q.dmas, DescPipeline.TriggerFetch(q), None)
  {
    WrapIsMod(q.Fetched(), q.len);
    WrapIsMod(q.Fetched(), MAX_ACTIVE);
  }

  lemma WriteBackIssued(q: Queue, dma: Option<Issued>)
    requires q.len > 0 && dma == WriteBackOf(q)
    ensures WriteBackAdded(q.dmas, DescPipeline.TriggerWriteback(q), dma)
    ensures FetchAdded(q.dmas, DescPipeline.TriggerWriteback(q), None)
  {
    WrapIsMod(q.freed, q.len);
    WrapIsMod(q.freed, MAX_ACTIVE);
  }

  lemma LaterKeepsFetch(before: multiset<Dma>, q1: Queue, q2: Queue, q: Queue, fetch: Option<Issued>)
    requires FetchAdded(before, q1, fetch) && SameIssued(q1, q2) && FetchAdded(q2.dmas, q, None)
    requires q.freed == q2.freed && |q.win| == |q2.win| && q.len == q2.len
    ensures FetchAdded(before, q, fetch)
  {
  }

  lemma TriggeredIs(q: Queue, plan: seq<seq<Serving>>, r: Queue)
    requires q in Consistent()
    requires q.len > 0 && q.Fetched() <= q.posted && |q.win| <= MAX_ACTIVE
    requires var q1 := DescPipeline.TriggerFetch(q);
             Held(q1) && q1.len > 0 && q1.started == q1.freed + SkipDone(q1.win, 0)
             && DescPipeline.TriggerProcess(q1, plan).len > 0
             && r == DescPipeline.TriggerWriteback(DescPipeline.TriggerProcess(q1, plan))
    ensures r in Triggered(q, plan)
  {
  }

  /** An event keeps a queue among the reachable states of the pipeline, to
      which the pipeline's results apply. */
  lemma HandledIsReachable(len: nat, q: Queue, e: Event, r: Queue)
    requires Reachable(len, q) && r in Handled(q, e)
    ensures Reachable(len, r) && r in AtRest()
  {
    var s :| s in Starts(len) && q in ReachableFrom(s);
    ReachableFromStep(s, q, e, r);
    HandledRests(q, e, r);
  }

  lemma RestHeld(q: Queue)
    requires q in AtRest()
    ensures Held(q)
  {
    InvHeld(q);
  }

  lemma TailReady(q: Queue, posted: nat)
    requires q in AtRest() && q.posted <= posted < q.freed + q.len
    ensures q.(posted := posted) in Consistent()
  {
    TailKeeps(q, posted);
  }

  lemma FetchReady(q: Queue, f: nat, n: nat, preps: seq<bool>)
    requires q in AtRest() && Fetch(f, n) in q.dmas && |preps| == n
    ensures q.freed <= f && f + n <= q.Fetched() && DescPipeline.FetchDone(q, f, n, preps) in Consistent()
  {
    FetchDoneKeeps(q, f, n, preps);
  }

  lemma DataFetchReady(q: Queue, a: nat)
    requires q in AtRest() && DataFetch(a) in q.dmas
    ensures q.freed <= a < q.Fetched() && q.St(a) == Preparing && DescPipeline.DataFetchDone(q, a) in Consistent()
  {
    DataFetchDoneKeeps(q, a);
  }

  lemma DataWriteReady(q: Queue, a: nat)
    requires q in AtRest() && DataWrite(a) in q.dmas
    ensures q.freed <= a < q.Fetched() && q.St(a) == Processing && DescPipeline.DataWriteDone(q, a) in Consistent()
  {
    DataWriteDoneKeeps(q, a);
  }

  lemma WriteBackReady(q: Queue, f: nat, n: nat)
    requires q in AtRest() && WriteBack(f, n) in q.dmas
    ensures q.freed <= f && f + n <= q.Fetched() && DescPipeline.WriteBackDone(q, f, n) in Consistent()
    ensures forall a: nat :: f <= a < f + n ==> q.St(a) == WritingBack
  {
    WriteBackDoneKeeps(q, f, n);
    WriteBackDoneEffect(q, f, n);
    forall a: nat | f <= a < f + n ensures q.St(a) == WritingBack { assert StageOk(q, a); }
  }

  lemma TriggeredValue(q: Queue, plan: seq<seq<Serving>>, r: Queue)
    requires r in Triggered(q, plan)
    ensures q in Consistent() && Inv(q) && r == DescPipeline.Trigger(q, plan)
  {
  }

  lemma HandledIs(q: Queue, e: Event, r: Queue)
    requires Inv(q) && Settled(q) && Enabled(q, e) && r == Handle(q, e)
    ensures r in Handled(q, e)
  {
  }

  lemma HandledTail(q: Queue, posted: nat, plan: seq<seq<Serving>>, r: Queue)
    requires q in AtRest() && q.posted <= posted < q.freed + q.len && r in Triggered(q.(posted := posted), plan)
    ensures r in Handled(q, TailWrite(posted, plan))
  {
    assert IsTriggered(q.(posted := posted), plan, r);
  }

  lemma HandledFetch(q: Queue, f: nat, n: nat, preps: seq<bool>, plan: seq<seq<Serving>>, r: Queue)
    requires q in AtRest() && Fetch(f, n) in q.dmas && |preps| == n && q.freed <= f && f + n <= q.Fetched()
    requires r in Triggered(DescPipeline.FetchDone(q, f, n, preps), plan)
    ensures r in Handled(q, FetchComplete(f, n, preps, plan))
  {
    TriggeredValue(DescPipeline.FetchDone(q, f, n, preps), plan, r);
    HandledIs(q, FetchComplete(f, n, preps, plan), r);
  }

  lemma HandledDataFetch(q: Queue, a: nat, plan: seq<seq<Serving>>, r: Queue)
    requires q in AtRest() && DataFetch(a) in q.dmas && q.freed <= a < q.Fetched()
    requires r in Triggered(DescPipeline.DataFetchDone(q, a), plan)
    ensures r in Handled(q, DataFetchComplete(a, plan))
  {
    TriggeredValue(DescPipeline.DataFetchDone(q, a), plan, r);
    HandledIs(q, DataFetchComplete(a, plan), r);
  }

  lemma HandledDataWrite(q: Queue, a: nat, plan: seq<seq<Serving>>, r: Queue)
    requires q in AtRest() && DataWrite(a) in q.dmas && q.freed <= a < q.Fetched()
    requires r in Triggered(DescPipeline.DataWriteDone(q, a), plan)
    ensures r in Handled(q, DataWriteComplete(a, plan))
  {
    TriggeredValue(DescPipeline.DataWriteDone(q, a), plan, r);
    HandledIs(q, DataWriteComplete(a, plan), r);
  }

  lemma HandledWriteBack(q: Queue, f: nat, n: nat, plan: seq<seq<Serving>>, r: Queue)
    requires q in AtRest() && WriteBack(f, n) in q.dmas && q.freed <= f && f + n <= q.Fetched()
    requires r in Triggered(DescPipeline.WriteBackDone(q, f, n), plan)
    ensures r in Handled(q, WriteBackComplete(f, n, plan))
  {
    assert IsTriggered(DescPipeline.WriteBackDone(q, f, n), plan, r);
    assert r == Handle(q, WriteBackComplete(f, n, plan));
  }

  lemma HandledPacket(q: Queue, r: Queue)
    requires q in AtRest() && q.freed <= q.claimed < q.started <= q.Fetched() && r == ServeOne(q, WriteData)
    ensures r in Handled(q, PacketReceived)
  {
    assert IsHandled(q, PacketReceived, r);
  }
}
