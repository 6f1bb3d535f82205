/**
  The shared-memory message ring between two simulators.

  Each slot carries one ownership bit.  The producer takes the slot at its
  position when the bit says PRO, fills it and flips the bit; the consumer takes
  the slot at its position when the bit says CON, reads it and flips the bit
  back.  Reserving a slot and polling a slot leave the bit alone: the positions
  alone tell the two ends which slots are open.

  Messages are numbered in the order of their allocation; message k lives in
  slot k modulo the number of slots.  Sends and completions may come in any
  order, since a handler can allocate further messages before it sends the first.
 */
module OwnershipRing {
  import opened Modular
  import opened Wrappers

  // The header's timestamp and type, and the payload behind them.
  datatype Content = Content(stamp: nat, kind: nat, payload: int)

  // `con`: the ownership bit reads CON.
  datatype Slot = Slot(con: bool, data: Content)

  // What the two simulators hold: the shared slots and a position each.
  datatype View = View(slots: seq<Slot>, outPos: nat, inPos: nat)
  {
    predicate Valid() {
      outPos < |slots| && inPos < |slots|
    }
  }

  // ---------------------------------------------------------------- operations

  predicate CanAlloc(v: View)
    requires v.Valid()
  {
    !v.slots[v.outPos].con
  }

  function AllocView(v: View, stamp: nat): View
    requires v.Valid()
  {
    var slot := v.slots[v.outPos];
    v.(slots := v.slots[v.outPos := slot.(data := slot.data.(stamp := stamp))],
       outPos := (v.outPos + 1) % |v.slots|)
  }

  function FillView(v: View, p: nat, payload: int): View
    requires p < |v.slots|
  {
    v.(slots := v.slots[p := v.slots[p].(data := v.slots[p].data.(payload := payload))])
  }

  function SendView(v: View, p: nat, kind: nat): View
    requires p < |v.slots|
  {
    v.(slots := v.slots[p := Slot(true, v.slots[p].data.(kind := kind))])
  }

  predicate CanPoll(v: View)
    requires v.Valid()
  {
    v.slots[v.inPos].con
  }

  function PollView(v: View): View
    requires v.Valid()
  {
    v.(inPos := (v.inPos + 1) % |v.slots|)
  }

  function DoneView(v: View, p: nat): View
    requires p < |v.slots|
  {
    v.(slots := v.slots[p := v.slots[p].(con := false)])
  }

  /** One end of the ring in memory: the slots are updated in place. */
  class Ring {
    const slots: array<Slot>
    var outPos: nat
    var inPos: nat

    ghost predicate Valid()
      reads this, slots
    {
      AsView().Valid()
    }

    ghost function AsView(): View
      reads this, slots
    {
      View(slots[..], outPos, inPos)
    }

    constructor (n: nat)
      requires n > 0
      ensures Valid() && fresh(slots)
      ensures AsView() == EmptyView(n)
    {
      slots := new Slot[n](_ => EmptySlot());
      outPos, inPos := 0, 0;
    }

    method OutAlloc(timestamp: nat, latency: nat) returns (r: Option<nat>)
      requires Valid()
      modifies this`outPos, slots
      ensures Valid()
      ensures r.Some? <==> old(CanAlloc(AsView()))
      ensures r.Some? ==> r.value == old(outPos) && AsView() == AllocView(old(AsView()), timestamp + latency)
      ensures r.Some? ==> slots[r.value].data.stamp == timestamp + latency && !slots[r.value].con
      ensures forall i :: 0 <= i < slots.Length ==> slots[i].con == old(slots[i].con)
      ensures forall i :: 0 <= i < slots.Length ==>
        slots[i].data.kind == old(slots[i].data.kind) && slots[i].data.payload == old(slots[i].data.payload)
      ensures forall i :: 0 <= i < slots.Length && r != Some(i) ==> slots[i] == old(slots[i])
      ensures r.None? ==> AsView() == old(AsView())
    {
      if slots[outPos].con {
        return None;
      }
      r := Some(outPos);
      slots[outPos] := slots[outPos].(data := slots[outPos].data.(stamp := timestamp + latency));
      outPos := (outPos + 1) % slots.Length;
    }

    method OutSend(msg: nat, kind: nat)
      requires Valid() && msg < slots.Length
      modifies slots
      ensures Valid() && AsView() == SendView(old(AsView()), msg, kind)
      ensures slots[msg].con && slots[msg].data.kind == kind
      ensures slots[msg].data.stamp == old(slots[msg].data.stamp) && slots[msg].data.payload == old(slots[msg].data.payload)
      ensures forall i :: 0 <= i < slots.Length && i != msg ==> slots[i] == old(slots[i])
    {
      slots[msg] := Slot(true, slots[msg].data.(kind := kind));
    }

    method InPoll() returns (r: Option<nat>)
      requires Valid()
      modifies this`inPos
      ensures Valid()
      ensures r.Some? <==> old(CanPoll(AsView()))
      ensures r.Some? ==> r.value == old(inPos) && AsView() == PollView(old(AsView()))
      ensures r.Some? ==> slots[r.value].con && inPos == if r.value + 1 == slots.Length then 0 else r.value + 1
      ensures r.None? ==> AsView() == old(AsView())
    {
      if !slots[inPos].con {
        return None;
      }
      r := Some(inPos);
      inPos := (inPos + 1) % slots.Length;
    }

    method InDone(msg: nat)
      requires Valid() && msg < slots.Length
      modifies slots
      ensures Valid() && AsView() == DoneView(old(AsView()), msg)
      ensures !slots[msg].con && slots[msg].data == old(slots[msg].data)
      ensures forall i :: 0 <= i < slots.Length && i != msg ==> slots[i] == old(slots[i])
    {
      slots[msg] := slots[msg].(con := false);
    }
  }

  // --------------------------------------------------------- transition system

  datatype Stage = Reserved | Sent | Held | Done

  // Per message ever allocated: its stage, what the producer has put into it so
  // far, and what it was sent with; `log` lists what the consumer polled.
  datatype State = State(view: View, stages: seq<Stage>, drafts: seq<Content>, vals: seq<Option<Content>>, log: seq<Content>)

  datatype Action =
    | Alloc(stamp: nat)
    | Fill(k: nat, payload: int)
    | Send(k: nat, kind: nat)
    | Poll
    | Finish(k: nat)

  function EmptySlot(): Slot { Slot(false, Content(0, 0, 0)) }

  function EmptyView(n: nat): View { View(seq(n, _ => EmptySlot()), 0, 0) }

  function Init(n: nat): State {
    State(EmptyView(n), [], [], [], [])
  }

  ghost predicate Shaped(s: State) {
    s.view.Valid() && |s.stages| == |s.drafts| == |s.vals|
  }

  function SlotOf(s: State, k: nat): nat
    requires |s.view.slots| > 0
  {
    k % |s.view.slots|
  }

  // What the code checks.
  ghost predicate Enabled(s: State, a: Action)
    requires Shaped(s)
  {
    match a
    case Alloc(_) => CanAlloc(s.view)
    case Fill(k, _) => k < |s.stages| && s.stages[k] == Reserved
    case Send(k, _) => k < |s.stages| && s.stages[k] == Reserved
    case Poll => CanPoll(s.view)
    case Finish(k) => k < |s.stages| && s.stages[k] == Held
  }

  // What the code takes for granted: no reservation and no polled message
  // stays open for a full lap of the ring.
  ghost predicate Prompt(s: State, a: Action)
    requires Shaped(s)
  {
    var n := |s.view.slots|;
    match a
    case Alloc(_) => |s.stages| >= n ==> s.stages[|s.stages| - n] != Reserved
    case Poll => |s.log| >= n && |s.log| - n < |s.stages| ==> s.stages[|s.log| - n] != Held
    case _ => true
  }

  function MarkHeld(s: State): seq<Stage> {
    if |s.log| < |s.stages| then s.stages[|s.log| := Held] else s.stages
  }

  function Apply(s: State, a: Action): State
    requires Shaped(s) && Enabled(s, a)
  {
    match a
    case Alloc(stamp) =>
      var left := s.view.slots[s.view.outPos].data;
      State(AllocView(s.view, stamp), s.stages + [Reserved], s.drafts + [left.(stamp := stamp)], s.vals + [None], s.log)
    case Fill(k, payload) =>
      s.(view := FillView(s.view, SlotOf(s, k), payload),
         drafts := s.drafts[k := s.drafts[k].(payload := payload)])
    case Send(k, kind) =>
      s.(view := SendView(s.view, SlotOf(s, k), kind), stages := s.stages[k := Sent],
         vals := s.vals[k := Some(s.drafts[k].(kind := kind))])
    case Poll =>
      s.(view := PollView(s.view), stages := MarkHeld(s), log := s.log + [s.view.slots[s.view.inPos].data])
    case Finish(k) => s.(view := DoneView(s.view, SlotOf(s, k)), stages := s.stages[k := Done])
  }

  ghost predicate Leads(s: State, acts: seq<Action>, t: State)
    requires Shaped(s)
    decreases acts
  {
    if acts == [] then s == t
    else Enabled(s, acts[0]) && Prompt(s, acts[0])
         && Shaped(Apply(s, acts[0])) && Leads(Apply(s, acts[0]), acts[1..], t)
  }

  // ----------------------------------------------------------------- invariant

  // Message k is the latest one allocated in its slot.
  ghost predicate Live(s: State, k: int) {
    0 <= k < |s.stages| && |s.stages| <= k + |s.view.slots|
  }

  ghost predicate OpenStage(st: Stage) { st == Sent || st == Held }

  ghost predicate Positions(s: State) {
    && s.view.Valid() && |s.stages| == |s.drafts| == |s.vals| && |s.log| <= |s.stages|
    && s.view.outPos == |s.stages| % |s.view.slots|
    && s.view.inPos == |s.log| % |s.view.slots|
  }

  ghost predicate StagesOk(s: State)
    requires |s.stages| == |s.vals|
  {
    && (forall k :: 0 <= k < |s.stages| ==> (k < |s.log| <==> s.stages[k] == Held || s.stages[k] == Done))
    && (forall k :: 0 <= k < |s.stages| && !Live(s, k) ==> s.stages[k] == Done)
    && (forall k :: 0 <= k < |s.stages| ==> (s.vals[k].None? <==> s.stages[k] == Reserved))
  }

  ghost predicate SlotsOk(s: State)
    requires s.view.Valid() && |s.stages| == |s.drafts| == |s.vals|
  {
    && (forall k :: Live(s, k) && s.stages[k] == Reserved ==> s.view.slots[SlotOf(s, k)].data == s.drafts[k])
    && (forall k :: Live(s, k) ==> s.view.slots[SlotOf(s, k)].con == OpenStage(s.stages[k]))
    && (forall k :: Live(s, k) && s.stages[k] != Reserved ==> s.vals[k] == Some(s.view.slots[SlotOf(s, k)].data))
    && (forall j :: |s.stages| <= j < |s.view.slots| ==> s.view.slots[j] == EmptySlot())
  }

  ghost predicate LogOk(s: State)
    requires |s.stages| == |s.vals| && |s.log| <= |s.stages|
  {
    forall k :: 0 <= k < |s.log| ==> s.vals[k] == Some(s.log[k])
  }

  ghost predicate Inv(s: State) {
    Positions(s) && StagesOk(s) && SlotsOk(s) && LogOk(s)
  }

  // Two live messages lie in different slots.
  lemma LiveDistinct(s: State, j: nat, k: nat)
    requires |s.view.slots| > 0 && Live(s, j) && Live(s, k) && j != k
    ensures SlotOf(s, j) != SlotOf(s, k)
  {
    if j < k { ModDistinct(j, k, |s.view.slots|); } else { ModDistinct(k, j, |s.view.slots|); }
  }

  // -------------------------------------------------------------- preservation

  // The slot at the producer's position is either untouched or that of the
  // message allocated one lap earlier.
  lemma AllocSlot(s: State)
    requires Inv(s)
    ensures |s.stages| < |s.view.slots| ==> s.view.outPos == |s.stages|
    ensures |s.stages| >= |s.view.slots| ==>
              Live(s, |s.stages| - |s.view.slots|) && SlotOf(s, |s.stages| - |s.view.slots|) == s.view.outPos
  {
    var n, a := |s.view.slots|, |s.stages|;
    if a < n { ModSmall(a, n); } else { ModWrap(a - n, n); }
  }

  lemma AllocKeeps(s: State, stamp: nat)
    requires Inv(s) && Enabled(s, Alloc(stamp)) && Prompt(s, Alloc(stamp))
    ensures Inv(Apply(s, Alloc(stamp)))
  {
    var t := Apply(s, Alloc(stamp));
    var n, a := |s.view.slots|, |s.stages|;
    AllocSlot(s);
    ModAdd(a, 1, n);
    assert SlotOf(t, a) == s.view.outPos;
    forall k | Live(t, k) && k != a ensures Live(s, k) && SlotOf(t, k) != s.view.outPos {
      LiveDistinct(t, k, a);
    }
    assert StagesOk(t) by {
      forall k | 0 <= k < |t.stages| && !Live(t, k) ensures t.stages[k] == Done {
        if Live(s, k) { assert k == a - n; }
      }
    }
  }

  lemma FillKeeps(s: State, k: nat, payload: int)
    requires Inv(s) && Enabled(s, Fill(k, payload))
    ensures Inv(Apply(s, Fill(k, payload)))
  {
    var t := Apply(s, Fill(k, payload));
    assert Live(s, k);
    if |s.stages| < |s.view.slots| { ModSmall(k, |s.view.slots|); }
    forall j | Live(t, j) && j != k ensures Live(s, j) && SlotOf(t, j) != SlotOf(s, k) {
      LiveDistinct(s, j, k);
    }
  }

  lemma SendKeeps(s: State, k: nat, kind: nat)
    requires Inv(s) && Enabled(s, Send(k, kind))
    ensures Inv(Apply(s, Send(k, kind)))
  {
    var t := Apply(s, Send(k, kind));
    assert Live(s, k);
    forall j | Live(t, j) && j != k ensures Live(s, j) && SlotOf(t, j) != SlotOf(s, k) {
      LiveDistinct(s, j, k);
    }
    if |s.stages| < |s.view.slots| { ModSmall(k, |s.view.slots|); }
  }

  lemma FinishKeeps(s: State, k: nat)
    requires Inv(s) && Enabled(s, Finish(k))
    ensures Inv(Apply(s, Finish(k)))
  {
    var t := Apply(s, Finish(k));
    assert Live(s, k);
    forall j | Live(t, j) && j != k ensures Live(s, j) && SlotOf(t, j) != SlotOf(s, k) {
      LiveDistinct(s, j, k);
    }
  }

  // A slot marked CON at the consumer's position holds the oldest message not
  // yet polled, or one polled a full lap ago and still held.
  lemma PollSlot(s: State)
    requires Inv(s) && CanPoll(s.view)
    ensures || (|s.log| < |s.stages| && Live(s, |s.log|) && s.stages[|s.log|] == Sent
                && SlotOf(s, |s.log|) == s.view.inPos)
            || (|s.log| == |s.stages| >= |s.view.slots| && s.stages[|s.log| - |s.view.slots|] == Held)
  {
    var n, p, a := |s.view.slots|, |s.log|, |s.stages|;
    if p < a {
      assert Live(s, p);
    } else if p < n {
      ModSmall(p, n);
    } else {
      ModWrap(p - n, n);
      assert Live(s, p - n);
    }
  }

  lemma PollKeeps(s: State)
    requires Inv(s) && Enabled(s, Poll) && Prompt(s, Poll)
    ensures Inv(Apply(s, Poll))
  {
    var t := Apply(s, Poll);
    PollSlot(s);
    ModAdd(|s.log|, 1, |s.view.slots|);
    assert t.stages == s.stages[|s.log| := Held];
    forall k ensures Live(t, k) == Live(s, k) {}
  }

  lemma StepKeeps(s: State, a: Action)
    requires Inv(s) && Enabled(s, a) && Prompt(s, a)
    ensures Inv(Apply(s, a))
  {
    match a
    case Alloc(stamp) => AllocKeeps(s, stamp);
    case Fill(k, payload) => FillKeeps(s, k, payload);
    case Send(k, kind) => SendKeeps(s, k, kind);
    case Poll => PollKeeps(s);
    case Finish(k) => FinishKeeps(s, k);
  }

  lemma {:induction false} LeadsKeeps(s: State, acts: seq<Action>, t: State)
    requires Inv(s) && Leads(s, acts, t)
    ensures Inv(t) && |t.view.slots| == |s.view.slots|
    decreases acts
  {
    if acts != [] {
      StepKeeps(s, acts[0]);
      LeadsKeeps(Apply(s, acts[0]), acts[1..], t);
    }
  }

  lemma InitInv(n: nat)
    requires n > 0
    ensures Inv(Init(n))
  {
    ModSmall(0, n);
  }

  // ------------------------------------------------------------- main results

  // The FIFO the ring stands for: the messages not yet polled in the order of
  // their allocation, each without a value until it is sent.
  ghost function Fifo(s: State): seq<Option<Content>>
    requires |s.log| <= |s.vals|
  {
    s.vals[|s.log|..]
  }

  // The FIFO's own steps; `first` is the number of its head, `drafts` what the
  // producer has written into the messages it reserved.
  ghost predicate FifoStep(q: seq<Option<Content>>, first: nat, drafts: seq<Content>, a: Action,
                           q': seq<Option<Content>>, out: Option<Content>) {
    match a
    case Alloc(_) => q' == q + [None] && out.None?
    case Send(k, kind) =>
      first <= k < first + |q| && k < |drafts| && q[k - first].None? && out.None?
      && q' == q[k - first := Some(drafts[k].(kind := kind))]
    case Poll => q != [] && q[0].Some? && q' == q[1..] && out == q[0]
    case Fill(_, _) | Finish(_) => q' == q && out.None?
  }

  ghost function Output(s: State, a: Action): Option<Content>
    requires Shaped(s)
  {
    if a.Poll? then Some(s.view.slots[s.view.inPos].data) else None
  }

  /** Every step of the ring is a step of the FIFO: a poll returns the oldest
      message, and only once it has been sent. */
  lemma RingRefinesFifo(s: State, a: Action)
    requires Inv(s) && Enabled(s, a) && Prompt(s, a)
    ensures Inv(Apply(s, a))
    ensures FifoStep(Fifo(s), |s.log|, s.drafts, a, Fifo(Apply(s, a)), Output(s, a))
  {
    StepKeeps(s, a);
    var t := Apply(s, a);
    match a
    case Send(k, kind) =>
      assert Fifo(t) == Fifo(s)[k - |s.log| := t.vals[k]];
    case Poll => PollRefines(s);
    case Alloc(_) =>
      assert Fifo(t) == Fifo(s) + [None];
    case _ =>
  }

  lemma PollRefines(s: State)
    requires Inv(s) && Enabled(s, Poll) && Prompt(s, Poll)
    ensures Inv(Apply(s, Poll))
    ensures FifoStep(Fifo(s), |s.log|, s.drafts, Poll, Fifo(Apply(s, Poll)), Output(s, Poll))
  {
    StepKeeps(s, Poll);
    PollSlot(s);
    assert Fifo(Apply(s, Poll)) == Fifo(s)[1..];
  }

  /** Over every interleaving: what was polled is, in order and once each, what
      was sent in the slots allocated first; a message the consumer holds still
      has the contents it was sent with; no slot is open to the producer while
      the consumer holds it. */
  lemma DeliveredOnceUnmodified(n: nat, acts: seq<Action>, t: State)
    requires n > 0 && Leads(Init(n), acts, t)
    ensures |t.log| <= |t.stages| == |t.vals| && |t.view.slots| == n
    ensures forall k :: 0 <= k < |t.log| ==> t.vals[k] == Some(t.log[k])
    ensures forall k :: 0 <= k < |t.stages| && t.stages[k] == Held ==>
                          k < |t.log| && t.view.slots[k % n].data == t.log[k]
    ensures forall j, k :: 0 <= j < |t.stages| && 0 <= k < |t.stages| && t.stages[j] == Reserved && t.stages[k] == Held
                           ==> j % n != k % n
  {
    InitInv(n);
    LeadsKeeps(Init(n), acts, t);
    forall k | 0 <= k < |t.stages| && t.stages[k] == Held
      ensures k < |t.log| && t.view.slots[k % n].data == t.log[k]
    {
      assert Live(t, k);
    }
    forall j, k | 0 <= j < |t.stages| && 0 <= k < |t.stages| && t.stages[j] == Reserved && t.stages[k] == Held
      ensures j % n != k % n
    {
      assert Live(t, j) && Live(t, k);
      LiveDistinct(t, j, k);
    }
  }

  // What a run wrote, read off its actions: the stamps in the order of the allocations, the
  // payload last written into message k, and the type it was sent with.
  function Stamps(acts: seq<Action>): seq<nat> {
    if acts == [] then []
    else
      var a := acts[|acts| - 1];
      Stamps(acts[..|acts| - 1]) + if a.Alloc? then [a.stamp] else []
  }

  function LastFill(acts: seq<Action>, k: nat): Option<int> {
    if acts == [] then None
    else
      var a := acts[|acts| - 1];
      if a.Fill? && a.k == k then Some(a.payload) else LastFill(acts[..|acts| - 1], k)
  }

  function SentAs(acts: seq<Action>, k: nat): Option<nat> {
    if acts == [] then None
    else
      var a := acts[|acts| - 1];
      if a.Send? && a.k == k then Some(a.kind) else SentAs(acts[..|acts| - 1], k)
  }

  // The drafts and the messages sent are what the actions so far wrote.
  ghost predicate AsWritten(acts: seq<Action>, s: State)
    requires |s.stages| == |s.drafts| == |s.vals|
  {
    && |Stamps(acts)| == |s.stages|
    && (forall k :: 0 <= k < |s.stages| ==> DraftOk(acts, s, k) && SentOk(acts, s, k))
    && (forall k: nat :: k >= |s.stages| ==> LastFill(acts, k).None? && SentAs(acts, k).None?)
  }

  ghost predicate DraftOk(acts: seq<Action>, s: State, k: nat)
    requires k < |s.drafts| == |Stamps(acts)|
  {
    var n := |s.view.slots|;
    && s.drafts[k].stamp == Stamps(acts)[k]
    && s.drafts[k].payload == match LastFill(acts, k)
                              case Some(p) => p
                              case None => if k < n then 0 else s.drafts[k - n].payload
  }

  ghost predicate SentOk(acts: seq<Action>, s: State, k: nat)
    requires k < |s.vals| == |s.drafts|
  {
    match s.vals[k]
    case Some(m) => SentAs(acts, k) == Some(m.kind) && m.stamp == s.drafts[k].stamp && m.payload == s.drafts[k].payload
    case None => SentAs(acts, k).None?
  }

  lemma OneMore(acts: seq<Action>, a: Action)
    ensures Stamps(acts + [a]) == Stamps(acts) + if a.Alloc? then [a.stamp] else []
    ensures forall k: nat :: LastFill(acts + [a], k) == if a.Fill? && a.k == k then Some(a.payload) else LastFill(acts, k)
    ensures forall k: nat :: SentAs(acts + [a], k) == if a.Send? && a.k == k then Some(a.kind) else SentAs(acts, k)
  {
    assert (acts + [a])[..|acts|] == acts;
  }

  // The payload found in a slot that is handed out is that of the message a lap earlier.
  lemma SlotLeftover(s: State, stamp: nat)
    requires Inv(s) && Enabled(s, Alloc(stamp)) && Prompt(s, Alloc(stamp))
    ensures var n, a, p := |s.view.slots|, |s.stages|, s.view.slots[s.view.outPos].data.payload;
            if a < n then p == 0 else s.vals[a - n].Some? && p == s.vals[a - n].value.payload
  {
    AllocSlot(s);
  }

  lemma AllocWrites(acts: seq<Action>, s: State, stamp: nat)
    requires Shaped(s) && Enabled(s, Alloc(stamp)) && AsWritten(acts, s)
    requires var n, a, p := |s.view.slots|, |s.stages|, s.view.slots[s.view.outPos].data.payload;
             p == if a < n then 0 else s.drafts[a - n].payload
    ensures AsWritten(acts + [Alloc(stamp)], Apply(s, Alloc(stamp)))
  {
    var t, more := Apply(s, Alloc(stamp)), acts + [Alloc(stamp)];
    OneMore(acts, Alloc(stamp));
    forall k | 0 <= k < |t.stages| ensures DraftOk(more, t, k) && SentOk(more, t, k) {
      if k < |s.stages| {
        assert DraftOk(acts, s, k) && SentOk(acts, s, k);
      }
    }
  }

  // Only a message that is not sent yet, and not a lap old, is written to.
  lemma FillWrites(acts: seq<Action>, s: State, j: nat, payload: int)
    requires Shaped(s) && Enabled(s, Fill(j, payload)) && AsWritten(acts, s)
    requires s.vals[j].None? && |s.stages| <= j + |s.view.slots|
    ensures AsWritten(acts + [Fill(j, payload)], Apply(s, Fill(j, payload)))
  {
    var t, more := Apply(s, Fill(j, payload)), acts + [Fill(j, payload)];
    OneMore(acts, Fill(j, payload));
    forall k | 0 <= k < |t.stages| ensures DraftOk(more, t, k) && SentOk(more, t, k) {
      assert DraftOk(acts, s, k) && SentOk(acts, s, k);
    }
  }

  lemma SendWrites(acts: seq<Action>, s: State, j: nat, kind: nat)
    requires Shaped(s) && Enabled(s, Send(j, kind)) && AsWritten(acts, s)
    ensures AsWritten(acts + [Send(j, kind)], Apply(s, Send(j, kind)))
  {
    var t, more := Apply(s, Send(j, kind)), acts + [Send(j, kind)];
    OneMore(acts, Send(j, kind));
    forall k | 0 <= k < |t.stages| ensures DraftOk(more, t, k) && SentOk(more, t, k) {
      assert DraftOk(acts, s, k) && SentOk(acts, s, k);
    }
  }

  lemma ReadWrites(acts: seq<Action>, s: State, a: Action, t: State)
    requires Shaped(s) && AsWritten(acts, s) && (a.Poll? || a.Finish?)
    requires t.drafts == s.drafts && t.vals == s.vals && |t.stages| == |s.stages| && |t.view.slots| == |s.view.slots|
    ensures AsWritten(acts + [a], t)
  {
    OneMore(acts, a);
    forall k | 0 <= k < |t.stages| ensures DraftOk(acts + [a], t, k) && SentOk(acts + [a], t, k) {
      assert DraftOk(acts, s, k) && SentOk(acts, s, k);
    }
  }

  // The payload of a message that is sent is the draft's.
  lemma SentDraft(acts: seq<Action>, s: State, k: nat)
    requires Shaped(s) && AsWritten(acts, s) && k < |s.vals| && s.vals[k].Some?
    ensures s.drafts[k].payload == s.vals[k].value.payload
  {
    assert SentOk(acts, s, k);
  }

  lemma StepWrites(acts: seq<Action>, s: State, a: Action)
    requires Inv(s) && Enabled(s, a) && Prompt(s, a) && AsWritten(acts, s)
    ensures Shaped(Apply(s, a)) && AsWritten(acts + [a], Apply(s, a))
  {
    match a
    case Alloc(stamp) =>
      SlotLeftover(s, stamp);
      if |s.stages| >= |s.view.slots| {
        SentDraft(acts, s, |s.stages| - |s.view.slots|);
      }
      AllocWrites(acts, s, stamp);
    case Fill(k, payload) =>
      assert Live(s, k);
      FillWrites(acts, s, k, payload);
    case Send(k, kind) => SendWrites(acts, s, k, kind);
    case Poll => ReadWrites(acts, s, Poll, Apply(s, a));
    case Finish(k) => ReadWrites(acts, s, a, Apply(s, a));
  }

  ghost function Written(acts: seq<Action>): iset<State> {
    iset s | Shaped(s) && AsWritten(acts, s)
  }

  lemma {:induction false} RunWrites(before: seq<Action>, s: State, acts: seq<Action>, t: State)
    requires Inv(s) && s in Written(before) && Leads(s, acts, t)
    ensures t in Written(before + acts)
    decreases acts
  {
    if acts == [] {
      assert before + acts == before;
    } else {
      StepWrites(before, s, acts[0]);
      StepKeeps(s, acts[0]);
      RunWrites(before + [acts[0]], Apply(s, acts[0]), acts[1..], t);
      assert before + [acts[0]] + acts[1..] == before + acts;
    }
  }

  lemma MessageAsWritten(acts: seq<Action>, t: State, k: nat)
    requires t in Written(acts) && k < |t.log| <= |t.vals| && LogOk(t)
    ensures k < |Stamps(acts)| && t.log[k].stamp == Stamps(acts)[k]
    ensures SentAs(acts, k) == Some(t.log[k].kind)
    ensures t.log[k].payload == match LastFill(acts, k)
                                case Some(p) => p
                                case None => if k < |t.view.slots| then 0 else t.log[k - |t.view.slots|].payload
  {
    assert AsWritten(acts, t);
    assert DraftOk(acts, t, k) && SentOk(acts, t, k);
    if k >= |t.view.slots| > 0 {
      SentDraft(acts, t, k - |t.view.slots|);
    }
  }

  /** Over every interleaving, the message polled as the k-th carries the stamp of the k-th
      allocation, the type it was sent with and the payload last written into it; if none
      was, the payload of the message that was in its slot before. */
  lemma PolledAsWritten(n: nat, acts: seq<Action>, t: State, k: nat)
    requires n > 0 && Leads(Init(n), acts, t) && k < |t.log|
    ensures k < |Stamps(acts)| && t.log[k].stamp == Stamps(acts)[k]
    ensures SentAs(acts, k) == Some(t.log[k].kind)
    ensures t.log[k].payload == match LastFill(acts, k)
                                case Some(p) => p
                                case None => if k < n then 0 else t.log[k - n].payload
  {
    InitInv(n);
    LeadsKeeps(Init(n), acts, t);
    assert Init(n) in Written([]);
    RunWrites([], Init(n), acts, t);
    assert [] + acts == acts;
    MessageAsWritten(acts, t, k);
  }

  /** The proviso is exact.  When the code allows an allocation, the slot it
      hands out is one that an older message still reserves if and only if a
      reservation has stayed open for a full lap. */
  lemma AllocClobbersIff(s: State, stamp: nat)
    requires Inv(s) && Enabled(s, Alloc(stamp))
    ensures !Prompt(s, Alloc(stamp)) <==>
            exists k :: 0 <= k < |s.stages| && s.stages[k] == Reserved && SlotOf(s, k) == s.view.outPos
  {
    AllocSlot(s);
    var n, a := |s.view.slots|, |s.stages|;
    forall k | 0 <= k < a && s.stages[k] == Reserved && SlotOf(s, k) == s.view.outPos
      ensures a >= n && k == a - n
    {
      assert Live(s, k);
      if a < n {
        ModSmall(k, n);
      } else if k != a - n {
        LiveDistinct(s, k, a - n);
      }
    }
  }

  /** When the code allows a poll, it returns the oldest unpolled message if and
      only if the message polled a full lap ago is no longer held. */
  lemma PollDuplicatesIff(s: State)
    requires Inv(s) && Enabled(s, Poll)
    ensures Prompt(s, Poll) <==> |s.log| < |s.vals| && s.vals[|s.log|] == Output(s, Poll)
    ensures !Prompt(s, Poll) ==> |s.log| >= |s.view.slots| && s.log[|s.log| - |s.view.slots|] == Output(s, Poll).value
  {
    PollSlot(s);
    var n, p := |s.view.slots|, |s.log|;
    if p == |s.stages| {
      ModWrap(p - n, n);
      assert Live(s, p - n);
    } else if p >= n {
      assert !Live(s, p - n);
    }
  }

  /** When a slot can be had: a first lap, or the message a lap earlier is done with, or is
      still reserved. */
  lemma CanAllocIff(s: State)
    requires Inv(s)
    ensures var n, a := |s.view.slots|, |s.stages|;
            CanAlloc(s.view) <==> a < n || s.stages[a - n] == Done || s.stages[a - n] == Reserved
  {
    AllocSlot(s);
  }

  /** When there is something to poll: the oldest message not polled has been sent, or there
      is none and the message a lap earlier is still held. */
  lemma CanPollIff(s: State)
    requires Inv(s)
    ensures var n, p := |s.view.slots|, |s.log|;
            CanPoll(s.view) <==> (p < |s.stages| && s.stages[p] == Sent) || (p == |s.stages| >= n && s.stages[p - n] == Held)
  {
    var n, p := |s.view.slots|, |s.log|;
    if p < |s.stages| {
      assert Live(s, p);
    } else if p >= n {
      ModWrap(p - n, n);
      assert Live(s, p - n);
    } else {
      ModSmall(p, n);
    }
  }

  /** Both happen: in a ring of one slot a second message is allocated over one that is still
      reserved, */
  lemma AllocCanClobber(stamp: nat) returns (s: State)
    ensures Leads(Init(1), [Alloc(stamp)], s) && Shaped(s)
    ensures Enabled(s, Alloc(stamp)) && !Prompt(s, Alloc(stamp))
  {
    s := Apply(Init(1), Alloc(stamp));
    assert [Alloc(stamp)][1..] == [];
    assert Leads(s, [], s);
  }

  /** and a message that is still held is polled again. */
  lemma PollCanDuplicate(stamp: nat, kind: nat) returns (s: State)
    ensures Leads(Init(1), [Alloc(stamp), Send(0, kind), Poll], s) && Shaped(s)
    ensures Enabled(s, Poll) && !Prompt(s, Poll)
  {
    var s1 := Apply(Init(1), Alloc(stamp));
    var s2 := Apply(s1, Send(0, kind));
    s := Apply(s2, Poll);
    assert Leads(s, [], s);
    assert [Poll][1..] == [];
    assert Leads(s2, [Poll], s);
    assert [Send(0, kind), Poll][1..] == [Poll];
    assert Leads(s1, [Send(0, kind), Poll], s);
    assert [Alloc(stamp), Send(0, kind), Poll][1..] == [Send(0, kind), Poll];
  }
}
