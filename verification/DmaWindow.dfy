/**
  The Runner's window of outstanding DMA operations: at most 64 are with the host, the
  others wait in a queue.  A completion handler of the device may issue more operations
  before its own operation is taken off the count.
 */
module DmaWindow {

  const MAX_PENDING: nat := 64

  type Op = int

  // ---------------------------------------------------------------- specification

  /** `sent` is the history of what went to the host. */
  datatype Window = Window(pending: nat, queue: seq<Op>, sent: seq<Op>)

  function Send(w: Window, op: Op): Window {
    w.(pending := w.pending + 1, sent := w.sent + [op])
  }

  function Issue(w: Window, op: Op): Window {
    if w.pending < MAX_PENDING then Send(w, op) else w.(queue := w.queue + [op])
  }

  function IssueAll(w: Window, ops: seq<Op>): Window {
    if ops == [] then w else Issue(IssueAll(w, ops[..|ops| - 1]), ops[|ops| - 1])
  }

  function Trigger(w: Window): Window {
    if w.queue == [] || w.pending == MAX_PENDING then w
    else Send(w.(queue := w.queue[1..]), w.queue[0])
  }

  // A completion whose handler issues `more`.
  function Complete(w: Window, more: seq<Op>): Window {
    if w.pending == 0 then w            // nothing to complete
    else
      var h := IssueAll(w, more);
      if h.pending == 0 then h else Trigger(h.(pending := h.pending - 1))
  }

  /** What the host or the device does between two steps of the Runner. */
  datatype Event = Issued(op: Op) | Completed(more: seq<Op>)

  function Step(w: Window, e: Event): Window {
    match e
    case Issued(op) => Issue(w, op)
    case Completed(more) => Complete(w, more)
  }

  function Run(events: seq<Event>): Window {
    if events == [] then Window(0, [], []) else Step(Run(events[..|events| - 1]), events[|events| - 1])
  }

  // The host completes only what it was sent.
  predicate Possible(events: seq<Event>) {
    events == [] || (
      && Possible(events[..|events| - 1])
      && (events[|events| - 1].Completed? ==> Run(events[..|events| - 1]).pending > 0))
  }

  // All operations issued, in order.
  function AllIssued(events: seq<Event>): seq<Op> {
    if events == [] then []
    else
      var e := events[|events| - 1];
      AllIssued(events[..|events| - 1]) + match e case Issued(op) => [op] case Completed(more) => more
  }

  function Completions(events: seq<Event>): nat {
    if events == [] then 0
    else Completions(events[..|events| - 1]) + if events[|events| - 1].Completed? then 1 else 0
  }

  // --------------------------------------------------------------------- invariant

  predicate Full(w: Window) {
    w.pending <= MAX_PENDING && (w.queue != [] ==> w.pending == MAX_PENDING)
  }

  lemma IssueKeeps(w: Window, op: Op)
    requires Full(w)
    ensures var h := Issue(w, op);
            && Full(h) && h.pending >= w.pending && h.sent + h.queue == w.sent + w.queue + [op]
            && |h.sent| - h.pending == |w.sent| - w.pending
  {
    assert w.sent + (w.queue + [op]) == w.sent + w.queue + [op];
    assert w.queue == [] ==> w.sent + [op] + w.queue == w.sent + w.queue + [op];
  }

  lemma {:induction false} IssueAllKeeps(w: Window, ops: seq<Op>)
    requires Full(w)
    ensures var h := IssueAll(w, ops);
            && Full(h) && h.pending >= w.pending && h.sent + h.queue == w.sent + w.queue + ops
            && |h.sent| - h.pending == |w.sent| - w.pending
    decreases |ops|
  {
    if ops == [] {
      assert w.sent + w.queue + ops == w.sent + w.queue;
    } else {
      IssueAllKeeps(w, ops[..|ops| - 1]);
      IssueKeeps(IssueAll(w, ops[..|ops| - 1]), ops[|ops| - 1]);
      assert ops == ops[..|ops| - 1] + [ops[|ops| - 1]];
    }
  }

  lemma CompleteKeeps(w: Window, more: seq<Op>)
    requires Full(w) && w.pending > 0
    ensures var t := Complete(w, more);
            && Full(t) && t.sent + t.queue == w.sent + w.queue + more
            && |t.sent| - t.pending == |w.sent| - w.pending + 1
  {
    IssueAllKeeps(w, more);
    var h := IssueAll(w, more);
    if h.queue != [] {
      assert h.queue == [h.queue[0]] + h.queue[1..];
      assert h.sent + [h.queue[0]] + h.queue[1..] == h.sent + h.queue;
    }
  }

  /** After any run: the window is respected and never left unused while something waits,
      and every operation issued was sent or waits, once and in issue order. */
  lemma {:induction false} SentOnceInOrder(events: seq<Event>)
    requires Possible(events)
    ensures var w := Run(events);
            && w.pending <= MAX_PENDING
            && (w.queue != [] ==> w.pending == MAX_PENDING)
            && w.sent + w.queue == AllIssued(events)
            && |w.sent| == w.pending + Completions(events)
    decreases |events|
  {
    if events != [] {
      var n := |events| - 1;
      SentOnceInOrder(events[..n]);
      var w := Run(events[..n]);
      match events[n]
      case Issued(op) =>
        IssueKeeps(w, op);
      case Completed(more) => CompleteKeeps(w, more);
    }
  }

  // When the host has completed everything, nothing was left behind.
  lemma AllSentWhenDrained(events: seq<Event>)
    requires Possible(events) && Run(events).pending == 0
    ensures Run(events).sent == AllIssued(events)
  {
    SentOnceInOrder(events);
  }

  /** No starvation: with k operations ahead of it in the queue, an operation is with the
      host after k + 1 further completions, whatever their handlers issue. */
  lemma {:induction false} QueueAdvances(w: Window, rounds: seq<seq<Op>>)
    requires Full(w) && |rounds| <= |w.queue|
    ensures var t := CompleteAll(w, rounds);
            && Full(t) && |w.sent| + |rounds| <= |t.sent| && w.sent + w.queue <= t.sent + t.queue
    decreases |rounds|
  {
    if rounds != [] {
      var n := |rounds| - 1;
      QueueAdvances(w, rounds[..n]);
      var t := CompleteAll(w, rounds[..n]);
      assert |t.sent + t.queue| >= |w.sent + w.queue|;
      OneCompletion(t, rounds[n]);
      if t.queue == [] {
        assert |t.sent| >= |w.sent| + |w.queue|;
      }
    }
  }

  function CompleteAll(w: Window, rounds: seq<seq<Op>>): Window {
    if rounds == [] then w else Complete(CompleteAll(w, rounds[..|rounds| - 1]), rounds[|rounds| - 1])
  }

  lemma OneCompletion(w: Window, more: seq<Op>)
    requires Full(w)
    ensures var t := Complete(w, more);
            && Full(t) && w.sent + w.queue <= t.sent + t.queue && |t.sent| >= |w.sent|
            && (w.queue != [] ==> |t.sent| >= |w.sent| + 1)
  {
    IssueAllKeeps(w, more);
    if w.pending > 0 {
      CompleteKeeps(w, more);
    }
  }

  // ------------------------------------------------------------------------ the Runner

  class Runner {
    var pending: nat
    var queue: seq<Op>
    var sent: seq<Op>

    ghost function View(): Window
      reads this
    {
      Window(pending, queue, sent)
    }

    ghost predicate Valid()
      reads this
    {
      Full(View())
    }

    constructor ()
      ensures Valid() && View() == Window(0, [], [])
    {
      pending, queue, sent := 0, [], [];
    }

    /** Runner::IssueDma */
    method IssueDma(op: Op)
      requires Valid()
      modifies this
      ensures Valid() && View() == Issue(old(View()), op)
    {
      if pending < MAX_PENDING {
        DmaDo(op);
      } else {
        queue := queue + [op];
      }
    }

    /** Runner::DmaTrigger */
    method DmaTrigger()
      modifies this
      ensures View() == Trigger(old(View()))
    {
      if queue == [] || pending == MAX_PENDING {
        return;
      }
      var op := queue[0];
      queue := queue[1..];
      DmaDo(op);
    }

    /** Runner::DmaDo, while the peer has not terminated. */
    method DmaDo(op: Op)
      modifies this
      ensures View() == Send(old(View()), op)
    {
      pending := pending + 1;
      sent := sent + [op];
    }

    /** Runner::H2DReadcomp and H2DWritecomp: the device's handler issues `more`. */
    method DmaCompleted(more: seq<Op>)
      requires Valid() && pending > 0
      modifies this
      ensures Valid() && View() == Complete(old(View()), more)
    {
      CompleteKeeps(View(), more);
      IssueAllKeeps(View(), more);
      ghost var before := View();
      assert more[..0] == [];
      for i := 0 to |more|
        invariant Valid() && View() == IssueAll(before, more[..i])
      {
        assert more[..i + 1][..i] == more[..i];
        IssueDma(more[i]);
      }
      assert more[..|more|] == more;
      pending := pending - 1;
      DmaTrigger();
    }
  }
}
