/**
  The descriptor pipeline of a queue, over descriptor numbers.

  Descriptors are numbered from 0 in ring order as the host posts them; number a
  sits in ring entry a modulo the ring length and, while active, in context a
  modulo MAX_ACTIVE.  The active descriptors form a window that starts at the
  first one not yet freed.  DMA completions arrive in any order; every completion
  handler ends by triggering fetch, processing and write-back once.

  The subclass hooks are parameters of the events: whether `prepare` needs a data
  fetch, and which of the descriptors handed to `process` it completes, directly
  or through a data write.  Subclasses complete them first in, first out.
 */
module DescPipeline {
  import opened Modular
  import opened Wrappers

  const MAX_ACTIVE: nat := 128

  datatype Stage = Empty | Fetching | Preparing | Prepared | Processing | Processed | WritingBack | WrittenBack

  function Rank(s: Stage): nat {
    match s
    case Empty => 0
    case Fetching => 1
    case Preparing => 2
    case Prepared => 3
    case Processing => 4
    case Processed => 5
    case WritingBack => 6
    case WrittenBack => 7
  }

  // DMA operations in flight, by descriptor number.
  datatype Dma =
    | Fetch(first: nat, n: nat)
    | DataFetch(a: nat)
    | DataWrite(a: nat)
    | WriteBack(first: nat, n: nat)

  // What a subclass does with the oldest descriptor it was handed.
  datatype Serving = Complete | WriteData

  /** `freed` descriptors are done with; `win` holds the stages of the active
      ones.  Before `writing` they are being written back, before `claimed` the
      subclass has dealt with them, before `started` they were handed to it.  The
      host has posted the descriptors before `posted`. */
  datatype Queue = Queue(
    len: nat, freed: nat, win: seq<Stage>, posted: nat,
    writing: nat, claimed: nat, started: nat,
    dmas: multiset<Dma>, processLog: seq<nat>, writeLog: seq<nat>)
  {
    function Fetched(): nat { freed + |win| }

    // The stage of any descriptor; outside the window it has no context.
    function St(a: nat): Stage {
      if freed <= a < Fetched() then win[a - freed] else Empty
    }
  }

  function Init(len: nat, posted: nat): Queue {
    Queue(len, 0, [], posted, 0, 0, 0, multiset{}, [], [])
  }

  // ---------------------------------------------------------------- operations

  function SetRange(win: seq<Stage>, lo: nat, hi: nat, st: Stage): (r: seq<Stage>)
    ensures |r| == |win|
    ensures forall k :: 0 <= k < |win| ==> r[k] == if lo <= k < hi then st else win[k]
  {
    seq(|win|, k requires 0 <= k < |win| => if lo <= k < hi then st else win[k])
  }

  // Never past the tail, the contexts or the end of the ring.
  function FetchCount(q: Queue): nat
    requires q.len > 0 && q.Fetched() <= q.posted && |q.win| <= MAX_ACTIVE
  {
    Min(Min(q.posted - q.Fetched(), MAX_ACTIVE - |q.win|), q.len - Wrap(q.Fetched(), q.len))
  }

  function TriggerFetch(q: Queue): Queue
    requires q.len > 0 && q.Fetched() <= q.posted && |q.win| <= MAX_ACTIVE
  {
    var n := FetchCount(q);
    if n == 0 then q
    else q.(win := q.win + seq(n, _ => Fetching), dmas := q.dmas + multiset{Fetch(q.Fetched(), n)})
  }

  // One step of the subclass on the oldest descriptor it still holds.
  function ServeOne(q: Queue, op: Serving): Queue
    requires q.freed <= q.claimed < q.Fetched()
  {
    match op
    case Complete => q.(win := q.win[q.claimed - q.freed := Processed], claimed := q.claimed + 1)
    case WriteData => q.(dmas := q.dmas + multiset{DataWrite(q.claimed)}, claimed := q.claimed + 1)
  }

  function Serve(q: Queue, ops: seq<Serving>): (r: Queue)
    requires q.freed <= q.claimed <= q.started <= q.Fetched()
    ensures r.freed == q.freed && |r.win| == |q.win| && r.started == q.started && r.len == q.len
    ensures q.claimed <= r.claimed <= r.started
    decreases ops
  {
    if ops == [] || q.claimed == q.started then q
    else Serve(ServeOne(q, ops[0]), ops[1..])
  }

  // Handing one prepared descriptor to the subclass.
  function Start(q: Queue): Queue
    requires q.len > 0 && q.freed <= q.started < q.Fetched()
  {
    q.(win := q.win[q.started - q.freed := Processing], started := q.started + 1,
       processLog := q.processLog + [Wrap(q.started, q.len)])
  }

  // `i` counts from the start of the window; `plan` gives the subclass's
  // actions during each call of process().
  function ProcessFrom(q: Queue, i: nat, plan: seq<seq<Serving>>): (r: Queue)
    requires q.len > 0 && q.freed <= q.claimed <= q.started == q.freed + i <= q.Fetched()
    decreases |q.win| - i
  {
    if i < |q.win| && q.win[i] == Prepared then
      var ops := if plan == [] then [] else plan[0];
      ProcessFrom(Serve(Start(q), ops), i + 1, if plan == [] then [] else plan[1..])
    else q
  }

  function SkipDone(win: seq<Stage>, i: nat): (r: nat)
    requires i <= |win|
    ensures i <= r <= |win| && (forall k :: i <= k < r ==> Rank(win[k]) > Rank(Prepared))
    ensures r < |win| ==> Rank(win[r]) <= Rank(Prepared)
    decreases |win| - i
  {
    if i < |win| && Rank(win[i]) > Rank(Prepared) then SkipDone(win, i + 1) else i
  }

  function CountProcessed(win: seq<Stage>, i: nat): (r: nat)
    requires i <= |win|
    ensures i <= r <= |win| && (forall k :: i <= k < r ==> win[k] == Processed)
    ensures r < |win| ==> win[r] != Processed
    decreases |win| - i
  {
    if i < |win| && win[i] == Processed then CountProcessed(win, i + 1) else i
  }

  function WriteBackCount(q: Queue): nat
    requires q.len > 0
  {
    Min(CountProcessed(q.win, 0), q.len - Wrap(q.freed, q.len))
  }

  function RingEntries(first: nat, n: nat, len: nat): (r: seq<nat>)
    requires len > 0
    ensures |r| == n && forall k :: 0 <= k < n ==> r[k] == Wrap(first + k, len)
  {
    seq<nat>(n, k requires 0 <= k => Wrap(first + k, len))
  }

  function TriggerWriteback(q: Queue): Queue
    requires q.len > 0
  {
    var n := WriteBackCount(q);
    if n == 0 then q
    else q.(win := SetRange(q.win, 0, n, WritingBack), writing := q.freed + n,
            dmas := q.dmas + multiset{WriteBack(q.freed, n)},
            writeLog := q.writeLog + RingEntries(q.freed, n, q.len))
  }

  // dma_fetch::done before its trigger; `preps[k]`: prepare needs a data fetch.
  function FetchDone(q: Queue, first: nat, n: nat, preps: seq<bool>): Queue
    requires q.freed <= first && first + n <= q.Fetched() && |preps| == n
  {
    q.(win := seq(|q.win|, k requires 0 <= k < |q.win| =>
                if first <= q.freed + k < first + n
                then (if preps[q.freed + k - first] then Preparing else Prepared) else q.win[k]),
       dmas := q.dmas - multiset{Fetch(first, n)} + DataFetches(first, preps))
  }

  function DataFetches(first: nat, preps: seq<bool>): (r: multiset<Dma>)
    ensures forall d :: r[d] == if d.DataFetch? && first <= d.a < first + |preps| && preps[d.a - first] then 1 else 0
    decreases |preps|
  {
    if preps == [] then multiset{}
    else
      var n := |preps| - 1;
      var rest := DataFetches(first, preps[..n]);
      if preps[n] then rest + multiset{DataFetch(first + n)} else rest
  }

  function DataFetchDone(q: Queue, a: nat): Queue
    requires q.freed <= a < q.Fetched()
  {
    q.(win := q.win[a - q.freed := Prepared], dmas := q.dmas - multiset{DataFetch(a)})
  }

  function DataWriteDone(q: Queue, a: nat): Queue
    requires q.freed <= a < q.Fetched()
  {
    q.(win := q.win[a - q.freed := Processed], dmas := q.dmas - multiset{DataWrite(a)})
  }

  function CountWritten(win: seq<Stage>, i: nat): (r: nat)
    requires i <= |win|
    ensures i <= r <= |win| && (forall k :: i <= k < r ==> win[k] == WrittenBack)
    ensures r < |win| ==> win[r] != WrittenBack
    decreases |win| - i
  {
    if i < |win| && win[i] == WrittenBack then CountWritten(win, i + 1) else i
  }

  // writeback_done: mark the range, then free the leading written-back contexts.
  function WriteBackDone(q: Queue, first: nat, n: nat): Queue
    requires q.freed <= first && first + n <= q.Fetched()
  {
    var win := SetRange(q.win, first - q.freed, first - q.freed + n, WrittenBack);
    var bump := CountWritten(win, 0);
    q.(win := win[bump..], freed := q.freed + bump, dmas := q.dmas - multiset{WriteBack(first, n)})
  }

  // ----------------------------------------------------------------- invariant

  ghost predicate Counters(q: Queue) {
    && q.len > 0 && |q.win| <= MAX_ACTIVE
    && q.freed <= q.writing <= q.claimed <= q.started <= q.Fetched() <= q.posted < q.freed + q.len
  }

  // The window is a written-back prefix, then descriptors the subclass has dealt
  // with, then those it holds, then those still on their way to it.
  ghost predicate StageOk(q: Queue, a: nat) {
    var st := q.St(a);
    if a < q.freed || q.Fetched() <= a then st == Empty
    else if a < q.writing then st == WritingBack
    else if a < q.claimed then st == Processed || st == Processing
    else if a < q.started then st == Processing
    else st == Fetching || st == Preparing || st == Prepared
  }

  ghost predicate Shape(q: Queue) {
    forall a: nat :: StageOk(q, a)
  }

  // A data write in flight for every claimed descriptor not yet completed.
  ghost predicate DataWritesOk(q: Queue) {
    forall a: nat :: q.dmas[DataWrite(a)] == if a < q.claimed && q.St(a) == Processing then 1 else 0
  }

  ghost predicate DataFetchesOk(q: Queue) {
    forall a: nat :: q.dmas[DataFetch(a)] == if q.St(a) == Preparing then 1 else 0
  }

  // At most one write-back in flight, covering exactly the prefix.
  ghost predicate WriteBacksOk(q: Queue)
    requires Counters(q)
  {
    forall f: nat, n: nat :: q.dmas[WriteBack(f, n)]
                             == if f == q.freed < q.writing && n == q.writing - q.freed then 1 else 0
  }

  ghost predicate FetchOk(q: Queue, f: nat, n: nat) {
    n > 0 && q.dmas[Fetch(f, n)] == 1 && forall a: nat :: f <= a < f + n ==> q.St(a) == Fetching
  }

  ghost predicate Covered(q: Queue, a: nat) {
    exists f: nat, n: nat :: Fetch(f, n) in q.dmas && f <= a < f + n
  }

  ghost predicate Disjoint(f: nat, n: nat, f': nat, n': nat) {
    (f == f' && n == n') || f + n <= f' || f' + n' <= f
  }

  // The fetches in flight partition the descriptors being fetched.
  ghost predicate FetchesOk(q: Queue) {
    && (forall f: nat, n: nat :: Fetch(f, n) in q.dmas ==> FetchOk(q, f, n))
    && (forall f: nat, n: nat, f': nat, n': nat ::
          Fetch(f, n) in q.dmas && Fetch(f', n') in q.dmas ==> Disjoint(f, n, f', n'))
    && (forall a: nat :: q.St(a) == Fetching ==> Covered(q, a))
  }

  ghost predicate LogsOk(q: Queue)
    requires q.len > 0
  {
    && q.processLog == RingEntries(0, q.started, q.len)
    && q.writeLog == RingEntries(0, q.writing, q.len)
  }

  ghost predicate Inv(q: Queue) {
    Counters(q) && Shape(q) && DataWritesOk(q) && DataFetchesOk(q) && WriteBacksOk(q) && FetchesOk(q) && LogsOk(q)
  }

  // -------------------------------------------------------------- preservation

  // Every fetch in flight lies inside the window, behind the started part.
  lemma FetchInside(q: Queue, f: nat, n: nat)
    requires Inv(q) && Fetch(f, n) in q.dmas
    ensures q.started <= f && f + n <= q.Fetched() && FetchOk(q, f, n)
  {
    assert FetchOk(q, f, n);
    assert StageOk(q, f) && StageOk(q, f + n - 1);
    assert q.St(f) == Fetching && q.St(f + n - 1) == Fetching;
  }

  lemma TriggerFetchFetches(q: Queue)
    requires Inv(q) && FetchCount(q) > 0
    ensures FetchesOk(TriggerFetch(q))
  {
    var t := TriggerFetch(q);
    var e, m := q.Fetched(), FetchCount(q);
    assert q.dmas[Fetch(e, m)] == 0 by {
      assert q.St(e) == Empty;
      assert !FetchOk(q, e, m);
    }
    assert forall a: nat :: t.St(a) == if e <= a < e + m then Fetching else q.St(a);
    forall f: nat, n: nat | Fetch(f, n) in t.dmas
      ensures FetchOk(t, f, n) && (Fetch(f, n) in q.dmas ==> f + n <= e)
    {
      if Fetch(f, n) in q.dmas {
        FetchInside(q, f, n);
        assert forall a: nat :: f <= a < f + n ==> q.St(a) == Fetching;
      }
    }
    forall a: nat | t.St(a) == Fetching ensures Covered(t, a) {
      if a < e {
        assert Covered(q, a);
        var f: nat, n: nat :| Fetch(f, n) in q.dmas && f <= a < f + n;
        assert Fetch(f, n) in t.dmas;
      } else {
        assert Fetch(e, m) in t.dmas;
      }
    }
  }

  lemma TriggerFetchKeeps(q: Queue)
    requires Inv(q)
    ensures Inv(TriggerFetch(q))
  {
    var t := TriggerFetch(q);
    if FetchCount(q) > 0 {
      forall a: nat ensures StageOk(t, a) && (a < q.Fetched() ==> t.St(a) == q.St(a)) {
        assert StageOk(q, a);
      }
      TriggerFetchFetches(q);
    }
  }

  // Fetches do not notice changes of descriptors that are not being fetched.
  lemma OthersKeepFetches(q: Queue, t: Queue)
    requires FetchesOk(q)
    requires forall a: nat :: (t.St(a) == Fetching) == (q.St(a) == Fetching)
    requires forall f: nat, n: nat :: t.dmas[Fetch(f, n)] == q.dmas[Fetch(f, n)]
    ensures FetchesOk(t)
  {
    forall f: nat, n: nat | Fetch(f, n) in t.dmas ensures FetchOk(t, f, n) {
      assert Fetch(f, n) in q.dmas && FetchOk(q, f, n);
    }
    forall f: nat, n: nat, f': nat, n': nat | Fetch(f, n) in t.dmas && Fetch(f', n') in t.dmas
      ensures Disjoint(f, n, f', n')
    {
      assert Fetch(f, n) in q.dmas && Fetch(f', n') in q.dmas;
    }
    forall a: nat | t.St(a) == Fetching ensures Covered(t, a) {
      assert Covered(q, a);
      var f: nat, n: nat :| Fetch(f, n) in q.dmas && f <= a < f + n;
      assert Fetch(f, n) in t.dmas;
    }
  }

  // The effect of changing one context on all stages.
  lemma OneChanged(q: Queue, t: Queue, a0: nat, st: Stage)
    requires q.freed <= a0 < q.Fetched() && t.freed == q.freed && t.win == q.win[a0 - q.freed := st]
    ensures forall a: nat :: t.St(a) == if a == a0 then st else q.St(a)
  {
  }

  lemma ServeOneKeeps(q: Queue, op: Serving)
    requires Inv(q) && q.claimed < q.started
    ensures Inv(ServeOne(q, op))
  {
    var t := ServeOne(q, op);
    assert StageOk(q, q.claimed);
    if op.Complete? {
      OneChanged(q, t, q.claimed, Processed);
    } else {
      assert forall a: nat :: t.St(a) == q.St(a);
    }
    forall a: nat ensures StageOk(t, a) { assert StageOk(q, a); }
    OthersKeepFetches(q, t);
  }

  lemma {:induction false} ServeKeeps(q: Queue, ops: seq<Serving>)
    requires Inv(q)
    ensures Inv(Serve(q, ops))
    decreases ops
  {
    if ops != [] && q.claimed != q.started {
      ServeOneKeeps(q, ops[0]);
      ServeKeeps(ServeOne(q, ops[0]), ops[1..]);
    }
  }

  lemma StartKeeps(q: Queue)
    requires Inv(q) && q.started < q.Fetched() && q.St(q.started) == Prepared
    ensures Inv(Start(q))
  {
    var t := Start(q);
    OneChanged(q, t, q.started, Processing);
    forall a: nat ensures StageOk(t, a) { assert StageOk(q, a); }
    OthersKeepFetches(q, t);
    assert t.processLog == RingEntries(0, t.started, t.len);
  }

  lemma {:induction false} ProcessKeeps(q: Queue, i: nat, plan: seq<seq<Serving>>)
    requires Inv(q) && q.started == q.freed + i
    ensures Inv(ProcessFrom(q, i, plan))
    decreases |q.win| - i
  {
    if i < |q.win| && q.win[i] == Prepared {
      var ops := if plan == [] then [] else plan[0];
      assert q.St(q.started) == Prepared;
      StartKeeps(q);
      ServeKeeps(Start(q), ops);
      ProcessKeeps(Serve(Start(q), ops), i + 1, if plan == [] then [] else plan[1..]);
    }
  }

  // What a write-back changes: a processed prefix of the window, all of it
  // already dealt with by the subclass, while no other write-back is in flight.
  lemma WritebackEffect(q: Queue)
    requires Inv(q) && WriteBackCount(q) > 0
    ensures q.writing == q.freed && q.freed + WriteBackCount(q) <= q.claimed
    ensures forall a: nat :: q.freed <= a < q.freed + WriteBackCount(q) ==> q.St(a) == Processed
    ensures forall a: nat :: TriggerWriteback(q).St(a)
                             == if q.freed <= a < q.freed + WriteBackCount(q) then WritingBack else q.St(a)
  {
    var n, t := WriteBackCount(q), TriggerWriteback(q);
    assert StageOk(q, q.freed);
    forall a: nat | q.freed <= a < q.freed + n ensures q.St(a) == Processed && a < q.claimed {
      assert q.win[a - q.freed] == Processed;
      assert StageOk(q, a);
    }
    var last := q.freed + n - 1;
    assert q.St(last) == Processed && last < q.claimed;
    forall a: nat ensures t.St(a) == if q.freed <= a < q.freed + n then WritingBack else q.St(a) {}
  }

  lemma WritebackShape(q: Queue)
    requires Inv(q) && WriteBackCount(q) > 0
    ensures Counters(TriggerWriteback(q)) && Shape(TriggerWriteback(q))
  {
    WritebackEffect(q);
    var t := TriggerWriteback(q);
    forall a: nat ensures StageOk(t, a) { assert StageOk(q, a); }
  }

  lemma WritebackDmas(q: Queue)
    requires Inv(q) && WriteBackCount(q) > 0 && Counters(TriggerWriteback(q))
    ensures DataWritesOk(TriggerWriteback(q)) && DataFetchesOk(TriggerWriteback(q)) && WriteBacksOk(TriggerWriteback(q))
  {
    WritebackEffect(q);
  }

  lemma TriggerWritebackKeeps(q: Queue)
    requires Inv(q)
    ensures Inv(TriggerWriteback(q))
  {
    if WriteBackCount(q) > 0 {
      var t := TriggerWriteback(q);
      WritebackShape(q);
      WritebackDmas(q);
      WritebackEffect(q);
      OthersKeepFetches(q, t);
      assert t.writeLog == RingEntries(0, t.writing, t.len);
    }
  }

  lemma DataFetchDoneKeeps(q: Queue, a0: nat)
    requires Inv(q) && DataFetch(a0) in q.dmas
    ensures q.freed <= a0 < q.Fetched() && Inv(DataFetchDone(q, a0))
  {
    assert StageOk(q, a0);
    var t := DataFetchDone(q, a0);
    OneChanged(q, t, a0, Prepared);
    forall a: nat ensures StageOk(t, a) { assert StageOk(q, a); }
    OthersKeepFetches(q, t);
  }

  lemma DataWriteDoneKeeps(q: Queue, a0: nat)
    requires Inv(q) && DataWrite(a0) in q.dmas
    ensures q.freed <= a0 < q.Fetched() && Inv(DataWriteDone(q, a0))
  {
    assert StageOk(q, a0);
    var t := DataWriteDone(q, a0);
    OneChanged(q, t, a0, Processed);
    forall a: nat ensures StageOk(t, a) { assert StageOk(q, a); }
    OthersKeepFetches(q, t);
  }

  // The write-back that completes is the one in flight, and it frees exactly
  // the prefix it covers.
  lemma WriteBackDoneEffect(q: Queue, f: nat, n: nat)
    requires Inv(q) && WriteBack(f, n) in q.dmas
    ensures f == q.freed && f + n == q.writing && n > 0
    ensures WriteBackDone(q, f, n).freed == q.writing && WriteBackDone(q, f, n).win == q.win[n..]
  {
    var win := SetRange(q.win, 0, n, WrittenBack);
    var bump := CountWritten(win, 0);
    assert forall k :: 0 <= k < n ==> win[k] == WrittenBack;
    if n < |q.win| {
      assert StageOk(q, q.freed + n);
      assert win[n] == q.St(q.freed + n);
    }
    assert bump == n;
  }

  lemma WriteBackUnique(q: Queue, f: nat, n: nat)
    requires Counters(q) && WriteBacksOk(q) && WriteBack(f, n) in q.dmas
    ensures q.dmas[WriteBack(f, n)] == 1
    ensures forall g: nat, m: nat :: WriteBack(g, m) in q.dmas ==> g == f && m == n
  {
  }

  lemma WriteBackDoneKeeps(q: Queue, f: nat, n: nat)
    requires Inv(q) && WriteBack(f, n) in q.dmas
    ensures q.freed <= f && f + n <= q.Fetched() && Inv(WriteBackDone(q, f, n))
  {
    WriteBackDoneEffect(q, f, n);
    var t := WriteBackDone(q, f, n);
    forall a: nat ensures t.St(a) == if a < q.writing then Empty else q.St(a) {}
    forall a: nat ensures StageOk(t, a) { assert StageOk(q, a); }
    forall a: nat ensures a < q.writing ==> q.St(a) == Empty || q.St(a) == WritingBack { assert StageOk(q, a); }
    OthersKeepFetches(q, t);
  }

  lemma FetchDoneEffect(q: Queue, f: nat, n: nat, preps: seq<bool>)
    requires q.freed <= f && f + n <= q.Fetched() && |preps| == n
    ensures forall a: nat :: FetchDone(q, f, n, preps).St(a)
                             == if f <= a < f + n then (if preps[a - f] then Preparing else Prepared) else q.St(a)
  {
  }

  lemma FetchDoneFetches(q: Queue, f0: nat, n0: nat, preps: seq<bool>)
    requires Inv(q) && Fetch(f0, n0) in q.dmas && |preps| == n0
    requires q.freed <= f0 && f0 + n0 <= q.Fetched()
    ensures FetchesOk(FetchDone(q, f0, n0, preps))
  {
    var t := FetchDone(q, f0, n0, preps);
    FetchDoneEffect(q, f0, n0, preps);
    assert FetchOk(q, f0, n0);
    forall f: nat, n: nat | Fetch(f, n) in t.dmas ensures FetchOk(t, f, n) {
      assert Fetch(f, n) in q.dmas && FetchOk(q, f, n);
      assert Fetch(f, n) != Fetch(f0, n0);
      assert Disjoint(f, n, f0, n0);
    }
    forall f: nat, n: nat, f': nat, n': nat | Fetch(f, n) in t.dmas && Fetch(f', n') in t.dmas
      ensures Disjoint(f, n, f', n')
    {
      assert Fetch(f, n) in q.dmas && Fetch(f', n') in q.dmas;
    }
    forall a: nat | t.St(a) == Fetching ensures Covered(t, a) {
      assert Covered(q, a);
      var f: nat, n: nat :| Fetch(f, n) in q.dmas && f <= a < f + n;
      assert Fetch(f, n) in t.dmas;
    }
  }

  lemma FetchDoneMultiset(q: Queue, f: nat, n: nat, preps: seq<bool>)
    requires q.freed <= f && f + n <= q.Fetched() && |preps| == n
    ensures var dmas := FetchDone(q, f, n, preps).dmas;
            && (forall a: nat :: dmas[DataWrite(a)] == q.dmas[DataWrite(a)])
            && (forall a: nat :: dmas[DataFetch(a)]
                                 == q.dmas[DataFetch(a)] + if f <= a < f + n && preps[a - f] then 1 else 0)
            && (forall g: nat, m: nat :: dmas[WriteBack(g, m)] == q.dmas[WriteBack(g, m)])
  {
  }

  lemma FetchDoneDmas(q: Queue, f: nat, n: nat, preps: seq<bool>)
    requires DataWritesOk(q) && DataFetchesOk(q) && FetchOk(q, f, n) && |preps| == n
    requires q.freed <= f && f + n <= q.Fetched()
    ensures DataWritesOk(FetchDone(q, f, n, preps)) && DataFetchesOk(FetchDone(q, f, n, preps))
    ensures forall g: nat, m: nat :: FetchDone(q, f, n, preps).dmas[WriteBack(g, m)] == q.dmas[WriteBack(g, m)]
  {
    FetchDoneEffect(q, f, n, preps);
    FetchDoneMultiset(q, f, n, preps);
    forall a: nat ensures f <= a < f + n ==> q.St(a) == Fetching {}
  }

  lemma FetchDoneShape(q: Queue, f: nat, n: nat, preps: seq<bool>)
    requires Inv(q) && Fetch(f, n) in q.dmas && |preps| == n
    requires q.started <= f && f + n <= q.Fetched()
    ensures Counters(FetchDone(q, f, n, preps)) && Shape(FetchDone(q, f, n, preps))
  {
    FetchDoneEffect(q, f, n, preps);
    var t := FetchDone(q, f, n, preps);
    forall a: nat ensures StageOk(t, a) { assert StageOk(q, a); }
  }

  lemma FetchDoneKeeps(q: Queue, f: nat, n: nat, preps: seq<bool>)
    requires Inv(q) && Fetch(f, n) in q.dmas && |preps| == n
    ensures q.freed <= f && f + n <= q.Fetched() && Inv(FetchDone(q, f, n, preps))
  {
    FetchInside(q, f, n);
    FetchDoneShape(q, f, n, preps);
    FetchDoneDmas(q, f, n, preps);
    FetchDoneFetches(q, f, n, preps);
  }

  // ------------------------------------------------------------------- trigger

  // What trigger_fetch, trigger_process and trigger_writeback each leave behind.
  ghost predicate FetchSettled(q: Queue) {
    q.Fetched() == q.posted || |q.win| == MAX_ACTIVE || exists f: nat, n: nat :: Fetch(f, n) in q.dmas
  }

  ghost predicate ProcessSettled(q: Queue) {
    q.started == q.Fetched() || q.St(q.started) == Fetching || q.St(q.started) == Preparing
  }

  ghost predicate WriteSettled(q: Queue) {
    q.freed < q.writing || q.St(q.freed) != Processed
  }

  ghost predicate Settled(q: Queue) {
    FetchSettled(q) && ProcessSettled(q) && WriteSettled(q)
  }

  lemma TriggerFetchSettles(q: Queue)
    requires Inv(q)
    ensures FetchSettled(TriggerFetch(q))
  {
    if FetchCount(q) > 0 {
      assert Fetch(q.Fetched(), FetchCount(q)) in TriggerFetch(q).dmas;
    }
  }

  // The subclass neither fetches nor moves the window.
  ghost predicate SameFetches(q: Queue, t: Queue) {
    && t.freed == q.freed && |t.win| == |q.win| && t.posted == q.posted && t.len == q.len && t.writing == q.writing
    && forall f: nat, n: nat :: t.dmas[Fetch(f, n)] == q.dmas[Fetch(f, n)]
  }

  lemma {:induction false} ServeFrame(q: Queue, ops: seq<Serving>)
    requires q.freed <= q.claimed <= q.started <= q.Fetched()
    ensures SameFetches(q, Serve(q, ops))
    ensures forall a: nat :: q.started <= a ==> Serve(q, ops).St(a) == q.St(a)
    decreases ops
  {
    if ops != [] && q.claimed != q.started {
      ServeFrame(ServeOne(q, ops[0]), ops[1..]);
    }
  }

  lemma {:induction false} ProcessSettles(q: Queue, i: nat, plan: seq<seq<Serving>>)
    requires Inv(q) && q.started == q.freed + i
    ensures SameFetches(q, ProcessFrom(q, i, plan)) && ProcessSettled(ProcessFrom(q, i, plan))
    decreases |q.win| - i
  {
    if i < |q.win| && q.win[i] == Prepared {
      var ops := if plan == [] then [] else plan[0];
      assert q.St(q.started) == Prepared;
      StartKeeps(q);
      ServeKeeps(Start(q), ops);
      ServeFrame(Start(q), ops);
      ProcessSettles(Serve(Start(q), ops), i + 1, if plan == [] then [] else plan[1..]);
    } else {
      assert StageOk(q, q.started);
    }
  }

  // The first descriptor trigger_process looks at is the first not yet started.
  lemma SkipsToStarted(q: Queue)
    requires Inv(q)
    ensures SkipDone(q.win, 0) == q.started - q.freed
  {
    var i := SkipDone(q.win, 0);
    forall k | 0 <= k < |q.win| ensures Rank(q.win[k]) > Rank(Prepared) <==> k < q.started - q.freed {
      assert StageOk(q, q.freed + k);
      assert q.St(q.freed + k) == q.win[k];
    }
    var p := q.started - q.freed;
    assert i < |q.win| ==> (Rank(q.win[i]) > Rank(Prepared) <==> i < p);
    assert p < |q.win| ==> (Rank(q.win[p]) > Rank(Prepared) <==> p < p);
  }

  function TriggerProcess(q: Queue, plan: seq<seq<Serving>>): Queue
    requires q.len > 0 && q.freed <= q.claimed <= q.started == q.freed + SkipDone(q.win, 0)
  {
    ProcessFrom(q, SkipDone(q.win, 0), plan)
  }

  function Trigger(q: Queue, plan: seq<seq<Serving>>): (r: Queue)
    requires Inv(q)
    ensures Inv(r) && Settled(r) && r.posted == q.posted && r.len == q.len
  {
    TriggerFetchKeeps(q);
    TriggerFetchSettles(q);
    var q1 := TriggerFetch(q);
    SkipsToStarted(q1);
    ProcessKeeps(q1, SkipDone(q1.win, 0), plan);
    ProcessSettles(q1, SkipDone(q1.win, 0), plan);
    var q2 := TriggerProcess(q1, plan);
    TriggerWritebackKeeps(q2);
    WritebackSettles(q1, q2);
    TriggerWriteback(q2)
  }

  lemma WritebackSettles(q1: Queue, q2: Queue)
    requires Inv(q2) && FetchSettled(q1) && SameFetches(q1, q2) && ProcessSettled(q2)
    ensures Settled(TriggerWriteback(q2))
    ensures TriggerWriteback(q2).posted == q1.posted && TriggerWriteback(q2).len == q1.len
  {
    var t := TriggerWriteback(q2);
    assert FetchSettled(t) by {
      if f: nat, n: nat :| Fetch(f, n) in q1.dmas {
        assert q2.dmas[Fetch(f, n)] > 0;
        assert Fetch(f, n) in t.dmas;
      }
    }
    if WriteBackCount(q2) > 0 {
      WritebackEffect(q2);
    }
  }

  // -------------------------------------------------------------------- events

  datatype Event =
    | TailWrite(posted: nat, plan: seq<seq<Serving>>)
    | FetchComplete(first: nat, n: nat, preps: seq<bool>, plan: seq<seq<Serving>>)
    | DataFetchComplete(a: nat, plan: seq<seq<Serving>>)
    | DataWriteComplete(a: nat, plan: seq<seq<Serving>>)
    | WriteBackComplete(first: nat, n: nat, plan: seq<seq<Serving>>)
    | PacketReceived

  // A completion needs its operation in flight; the host moves the tail forward
  // and never laps the head; a received packet takes the oldest buffer.
  ghost predicate Enabled(q: Queue, e: Event) {
    match e
    case TailWrite(posted, _) => q.posted <= posted < q.freed + q.len
    case FetchComplete(f, n, preps, _) => Fetch(f, n) in q.dmas && |preps| == n
    case DataFetchComplete(a, _) => DataFetch(a) in q.dmas
    case DataWriteComplete(a, _) => DataWrite(a) in q.dmas
    case WriteBackComplete(f, n, _) => WriteBack(f, n) in q.dmas
    case PacketReceived => q.claimed < q.started
  }

  ghost function Handle(q: Queue, e: Event): (r: Queue)
    requires Inv(q) && Settled(q) && Enabled(q, e)
    ensures Inv(r) && Settled(r) && r.len == q.len
  {
    match e
    case TailWrite(posted, plan) =>
      TailKeeps(q, posted);
      Trigger(q.(posted := posted), plan)
    case FetchComplete(f, n, preps, plan) =>
      FetchDoneKeeps(q, f, n, preps);
      Trigger(FetchDone(q, f, n, preps), plan)
    case DataFetchComplete(a, plan) =>
      DataFetchDoneKeeps(q, a);
      Trigger(DataFetchDone(q, a), plan)
    case DataWriteComplete(a, plan) =>
      DataWriteDoneKeeps(q, a);
      Trigger(DataWriteDone(q, a), plan)
    case WriteBackComplete(f, n, plan) =>
      WriteBackDoneKeeps(q, f, n);
      Trigger(WriteBackDone(q, f, n), plan)
    case PacketReceived =>
      ServeOneKeeps(q, WriteData);
      ReceiveSettled(q);
      ServeOne(q, WriteData)
  }

  lemma TailKeeps(q: Queue, posted: nat)
    requires Inv(q) && q.posted <= posted < q.freed + q.len
    ensures Inv(q.(posted := posted))
  {
    var t := q.(posted := posted);
    assert forall a: nat :: t.St(a) == q.St(a);
    forall a: nat ensures StageOk(t, a) { assert StageOk(q, a); }
    OthersKeepFetches(q, t);
  }

  lemma ReceiveSettled(q: Queue)
    requires Inv(q) && Settled(q) && q.claimed < q.started
    ensures Settled(ServeOne(q, WriteData))
  {
    var t := ServeOne(q, WriteData);
    assert t.St(t.started) == q.St(q.started) && t.St(t.freed) == q.St(q.freed);
    if f: nat, n: nat :| Fetch(f, n) in q.dmas {
      assert Fetch(f, n) in t.dmas;
    }
  }

  // The queues between two events.
  ghost function AtRest(): iset<Queue> {
    iset q | Inv(q) && Settled(q)
  }

  ghost predicate IsHandled(q: Queue, e: Event, r: Queue) {
    Inv(q) && Settled(q) && Enabled(q, e) && r == Handle(q, e)
  }

  // What the pipeline makes of an event.
  ghost function Handled(q: Queue, e: Event): iset<Queue> {
    iset r | IsHandled(q, e, r)
  }

  lemma HandledRests(q: Queue, e: Event, r: Queue)
    requires r in Handled(q, e)
    ensures q in AtRest() && r in AtRest() && r.len == q.len
  {
    assert IsHandled(q, e, r);
  }

  // t is reached from s by exactly these events.
  ghost predicate Leads(s: Queue, events: seq<Event>, t: Queue)
    decreases events
  {
    if events == [] then s == t
    else exists m :: m in Handled(s, events[0]) && Leads(m, events[1..], t)
  }

  // The queue is enabled with an empty window and triggered once.
  ghost function Enable(len: nat, posted: nat, plan: seq<seq<Serving>>): (r: Queue)
    requires posted < len
    ensures Inv(r) && Settled(r) && r.len == len
  {
    var q := Init(len, posted);
    assert forall a: nat :: q.St(a) == Empty && StageOk(q, a);
    Trigger(q, plan)
  }

  lemma {:induction false} LeadsKeeps(s: Queue, events: seq<Event>, t: Queue)
    requires s in AtRest() && Leads(s, events, t)
    ensures t in AtRest() && t.len == s.len
    decreases events
  {
    if events != [] {
      var m :| m in Handled(s, events[0]) && Leads(m, events[1..], t);
      HandledRests(s, events[0], m);
      LeadsKeeps(m, events[1..], t);
    }
  }

  ghost predicate Enabling(len: nat, s: Queue) {
    exists posted: nat, plan :: posted < len && s == Enable(len, posted, plan)
  }

  // A queue with `len` ring entries that has just been enabled.
  ghost function Starts(len: nat): iset<Queue> {
    iset s | Enabling(len, s)
  }

  ghost predicate LeadsTo(s: Queue, q: Queue) {
    s in AtRest() && exists events :: Leads(s, events, q)
  }

  ghost function ReachableFrom(s: Queue): iset<Queue> {
    iset q | LeadsTo(s, q)
  }

  ghost predicate LeadsFromStart(len: nat, q: Queue) {
    exists s :: s in Starts(len) && q in ReachableFrom(s)
  }

  // The states of a queue with `len` ring entries after any run of events.
  ghost function Reached(len: nat): iset<Queue> {
    iset q | LeadsFromStart(len, q)
  }

  ghost predicate Reachable(len: nat, q: Queue) {
    q in Reached(len)
  }

  lemma ReachableInv(len: nat, q: Queue)
    requires Reachable(len, q)
    ensures Inv(q) && Settled(q) && q.len == len
  {
    var s :| s in Starts(len) && q in ReachableFrom(s);
    StartLen(len, s);
    var events :| Leads(s, events, q);
    LeadsKeeps(s, events, q);
  }

  lemma StartLen(len: nat, s: Queue)
    requires s in Starts(len)
    ensures s.len == len
  {
  }

  lemma {:induction false} LeadsAppend(s: Queue, events: seq<Event>, q: Queue, e: Event, r: Queue)
    requires Leads(s, events, q) && r in Handled(q, e)
    ensures Leads(s, events + [e], r)
    decreases events
  {
    TailOfAppend(events, e);
    if events == [] {
      assert Leads(r, [], r);
    } else {
      var m :| m in Handled(s, events[0]) && Leads(m, events[1..], q);
      LeadsAppend(m, events[1..], q, e, r);
    }
  }

  lemma TailOfAppend<T>(s: seq<T>, x: T)
    ensures s == [] ==> (s + [x])[0] == x && (s + [x])[1..] == []
    ensures s != [] ==> (s + [x])[0] == s[0] && (s + [x])[1..] == s[1..] + [x]
  {
  }

  lemma ReachableFromStep(s: Queue, q: Queue, e: Event, r: Queue)
    requires q in ReachableFrom(s) && r in Handled(q, e)
    ensures r in ReachableFrom(s)
  {
    var events :| Leads(s, events, q);
    LeadsAppend(s, events, q, e, r);
  }

  // The runs are not empty: every enabled queue is reachable, and one that was given
  // nothing is idle.
  lemma EnabledIsReachable(len: nat, posted: nat, plan: seq<seq<Serving>>)
    requires posted < len
    ensures Reachable(len, Enable(len, posted, plan))
  {
    var s := Enable(len, posted, plan);
    assert Enabling(len, s);
    SelfReachable(s);
    assert s in Starts(len) && s in ReachableFrom(s);
  }

  lemma SelfReachable(s: Queue)
    requires Inv(s) && Settled(s)
    ensures s in ReachableFrom(s)
  {
    assert Leads(s, [], s);
  }

  // -------------------------------------------------------------- main results

  /** A fetch takes all it can: it stops at the last descriptor posted, with all contexts in
      use, or at the end of the ring. */
  lemma FetchesAll(q: Queue)
    requires Inv(q)
    ensures var t := TriggerFetch(q);
            t.Fetched() == t.posted || |t.win| == MAX_ACTIVE || t.Fetched() % t.len == 0
  {
    var t := TriggerFetch(q);
    if t.Fetched() != t.posted && |t.win| != MAX_ACTIVE {
      AtRingEnd(q.Fetched(), q.len);
    }
  }

  /** And so does a write-back: it stops at the first descriptor that is not processed, or at
      the end of the ring.  While one is in flight no other is begun. */
  lemma WritesBackAll(q: Queue)
    requires Inv(q)
    ensures var t := TriggerWriteback(q);
            if q.freed < q.writing then t == q
            else t.writing == t.Fetched() || t.St(t.writing) != Processed || t.writing % t.len == 0
  {
    var n := WriteBackCount(q);
    if q.freed < q.writing {
      assert StageOk(q, q.freed) && q.win[0] == WritingBack;
    } else {
      assert q.freed + n < q.Fetched() ==> TriggerWriteback(q).St(q.freed + n) == q.win[n];
      AtRingEnd(q.freed, q.len);
    }
  }

  lemma AtRingEnd(a: nat, len: nat)
    requires len > 0
    ensures (a + (len - Wrap(a, len))) % len == 0
  {
    WrapIsMod(a, len);
    assert a == len * (a / len) + a % len;
    ModIs(a + (len - Wrap(a, len)), len, a / len + 1, 0);
  }

  lemma StageAt(q: Queue, k: nat)
    requires Counters(q) && Shape(q) && k < |q.win|
    ensures q.freed + k < q.writing <==> q.win[k] == WritingBack
    ensures q.writing <= q.freed + k < q.started <==> q.win[k] == Processing || q.win[k] == Processed
    ensures q.started <= q.freed + k <==> q.win[k] == Fetching || q.win[k] == Preparing || q.win[k] == Prepared
  {
    assert StageOk(q, q.freed + k) && q.St(q.freed + k) == q.win[k];
  }

  /** In-order pipeline.  For every order of DMA completions, tail writes and
      packets: the contexts of the window are a prefix being written back, then
      descriptors handed to process(), then descriptors still being fetched or
      prepared; there are never more than 128 and never as many as the ring has
      entries. */
  lemma InOrderPipeline(len: nat, q: Queue)
    requires Reachable(len, q)
    ensures q.freed <= q.writing <= q.started <= q.Fetched() <= q.posted
    ensures |q.win| <= MAX_ACTIVE && |q.win| < len
    ensures forall k :: 0 <= k < |q.win| ==>
              && (q.freed + k < q.writing <==> q.win[k] == WritingBack)
              && (q.writing <= q.freed + k < q.started <==> q.win[k] == Processing || q.win[k] == Processed)
              && (q.started <= q.freed + k <==> q.win[k] == Fetching || q.win[k] == Preparing || q.win[k] == Prepared)
  {
    ReachableInv(len, q);
    forall k | 0 <= k < |q.win|
      ensures && (q.freed + k < q.writing <==> q.win[k] == WritingBack)
              && (q.writing <= q.freed + k < q.started <==> q.win[k] == Processing || q.win[k] == Processed)
              && (q.started <= q.freed + k <==> q.win[k] == Fetching || q.win[k] == Preparing || q.win[k] == Prepared)
    {
      StageAt(q, k);
    }
  }

  /** process() runs exactly once for each descriptor, in ring order, and so does
      the write-back; a write-back only covers descriptors already processed. */
  lemma OncePerDescriptor(len: nat, q: Queue)
    requires Reachable(len, q)
    ensures |q.writeLog| <= |q.processLog| <= q.posted && len > 0
    ensures forall k :: 0 <= k < |q.processLog| ==> q.processLog[k] == k % len
    ensures forall k :: 0 <= k < |q.writeLog| ==> q.writeLog[k] == k % len
    ensures |q.processLog| == q.started && |q.writeLog| == q.writing
  {
    ReachableInv(len, q);
    forall k | 0 <= k < q.started ensures q.processLog[k] == k % len && (k < q.writing ==> q.writeLog[k] == k % len) {
      WrapIsMod(0 + k, len);
    }
  }

  /** At most one write-back is ever in flight, and its completion frees exactly
      the descriptors it covers. */
  lemma OneWriteBack(len: nat, q: Queue, f: nat, n: nat)
    requires Reachable(len, q) && WriteBack(f, n) in q.dmas
    ensures f == q.freed && f + n == q.writing <= q.Fetched() && n > 0 && q.dmas[WriteBack(f, n)] == 1
    ensures forall g: nat, m: nat :: WriteBack(g, m) in q.dmas ==> g == f && m == n
    ensures WriteBackDone(q, f, n).freed == f + n && WriteBackDone(q, f, n).win == q.win[n..]
  {
    ReachableInv(len, q);
    WriteBackUnique(q, f, n);
    WriteBackDoneEffect(q, f, n);
  }

  lemma QuietStages(q: Queue)
    requires Inv(q) && Settled(q) && q.dmas == multiset{}
    ensures q.started == q.Fetched() && q.writing == q.freed && q.claimed == q.freed
    ensures !exists f: nat, n: nat :: Fetch(f, n) in q.dmas
  {
    assert q.dmas[WriteBack(q.freed, q.writing - q.freed)] == 0;
    assert !Covered(q, q.started) && q.dmas[DataFetch(q.started)] == 0;
    assert StageOk(q, q.freed) && q.dmas[DataWrite(q.freed)] == 0;
  }

  /** No lost wake-up.  Whenever no DMA is in flight, every active descriptor
      waits in the subclass, and either all contexts are in use or everything
      the host posted has been fetched. */
  lemma NoLostWakeup(len: nat, q: Queue)
    requires Reachable(len, q) && q.dmas == multiset{}
    ensures forall k :: 0 <= k < |q.win| ==> q.win[k] == Processing
    ensures q.claimed == q.freed && q.started == q.Fetched()
    ensures |q.win| == MAX_ACTIVE || q.Fetched() == q.posted
  {
    ReachableInv(len, q);
    QuietStages(q);
    forall k | 0 <= k < |q.win| ensures q.win[k] == Processing {
      QuietStage(q, k);
    }
  }

  lemma QuietStage(q: Queue, k: nat)
    requires Shape(q) && Counters(q) && k < |q.win|
    requires q.started == q.Fetched() && q.writing == q.freed && q.claimed == q.freed
    ensures q.win[k] == Processing
  {
    assert StageOk(q, q.freed + k) && q.St(q.freed + k) == q.win[k];
  }
}
