/**
  Conservative clock synchronisation between simulators.

  Every simulator owns a clock and talks to its peers over one-way links.  A
  message is stamped with the sender's clock plus the latency of the link; a
  receiver consumes it once its own clock has reached the stamp and never moves
  its clock past the stamp of the last message it looked at.  An idle sender
  emits SYNC messages so that the stamps its peer sees keep growing.

  The model is a transition system over any number of simulators and links.  A
  delivered message and a timed event start a handler (a register access, a packet, a
  timer), which sends messages and schedules events one by one; a handler that finds
  the queue full waits for room, and its simulator polls nothing meanwhile.
 */
module ClockSync {
  import opened Wrappers
  import opened TimedEvents

  // The largest step of the main loop, in picoseconds.
  const MAX_STEP: nat := 10000

  // A one-way link: the sender's latency and sync interval, the receiver's queue size.
  datatype Link = Link(src: nat, dst: nat, latency: nat, interval: nat, capacity: nat)

  datatype Net = Net(size: nat, links: seq<Link>)
  {
    ghost predicate Valid() {
      forall c :: 0 <= c < |links| ==> links[c].src < size && links[c].dst < size
    }

    // The condition under which idle simulators keep each other running.
    ghost predicate Live() {
      forall c :: 0 <= c < |links| ==> 0 < links[c].interval <= links[c].latency
    }
  }

  datatype Body = SyncBody | DataBody(payload: int)

  datatype Msg = Msg(ts: nat, sentAt: nat, body: Body)

  datatype Delivery = Delivery(msg: Msg, at: nat)

  // `queue`, `inTs` and `outTs` are the state of the two ends of the link;
  // `sent` and `log` record its whole history.
  datatype Chan = Chan(queue: seq<Msg>, inTs: nat, outTs: nat, sent: seq<Msg>, log: seq<Delivery>)

  // What a handler does.
  datatype Op = Send(link: nat, payload: int) | Ask(req: Request)

  // Where a simulator is in its main loop: `Syncing(k)` has run OutSync on the
  // links before k, `Polling` is the inner loop, and `Handling` a handler that has
  // these operations left to do.
  datatype Phase = Syncing(next: nat) | Polling | Handling(ops: seq<Op>)

  datatype Sim = Sim(clock: nat, phase: Phase, agenda: Agenda)

  datatype State = State(sims: seq<Sim>, chans: seq<Chan>)

  // A step of one simulator; `h` is what the handler will do that it starts, if any.
  datatype Action =
    | SyncStep(i: nat)
    | Poll(c: nat, h: seq<Op>)
    | Trigger(i: nat, h: seq<Op>)
    | HandlerStep(i: nat)
    | Advance(i: nat)

  // ---------------------------------------------------------------- operations

  // `events` are those the devices' set-up asks for.
  function Init(net: Net, events: seq<seq<Request>>): State
    requires |events| == net.size
  {
    State(seq(net.size, i requires 0 <= i < net.size => Sim(0, Syncing(0), ScheduleAll(events[i], 0))),
          seq(|net.links|, _ => Chan([], 0, 0, [], [])))
  }

  // OutAlloc followed by OutSend.
  function Enqueue(l: Link, ch: Chan, clock: nat, body: Body): Chan {
    var m := Msg(clock + l.latency, clock, body);
    ch.(queue := ch.queue + [m], outTs := clock, sent := ch.sent + [m])
  }

  // The test of OutSync; a link that has never sent is always due.
  predicate SyncDue(l: Link, ch: Chan, clock: nat) {
    ch.outTs == 0 || clock - ch.outTs >= l.interval
  }

  // InPeek, and InPoll with InDone when the message is due.
  function Receive(ch: Chan, clock: nat): Chan {
    if ch.queue == [] then ch
    else
      var m := ch.queue[0];
      if m.ts > clock then ch.(inTs := m.ts)
      else ch.(inTs := m.ts, queue := ch.queue[1..], log := ch.log + [Delivery(m, clock)])
  }

  // The least of `bound`, the incoming stamps and the outgoing sync deadlines
  // of simulator i over the first k links.
  function LinkBound(net: Net, s: State, i: nat, k: nat, bound: nat): (r: nat)
    requires k <= |net.links| == |s.chans|
    ensures r <= bound
    ensures forall c :: 0 <= c < k && net.links[c].dst == i ==> r <= s.chans[c].inTs
    ensures forall c :: 0 <= c < k && net.links[c].src == i ==> r <= s.chans[c].outTs + net.links[c].interval
    ensures r == bound
            || (exists c :: 0 <= c < k && net.links[c].dst == i && r == s.chans[c].inTs)
            || (exists c :: 0 <= c < k && net.links[c].src == i && r == s.chans[c].outTs + net.links[c].interval)
  {
    if k == 0 then bound
    else
      var r0 := LinkBound(net, s, i, k - 1, bound);
      var l, ch := net.links[k - 1], s.chans[k - 1];
      var r1 := if l.dst == i then Min(r0, ch.inTs) else r0;
      if l.src == i then Min(r1, ch.outTs + l.interval) else r1
  }

  /** Where the main loop moves the clock: to the least of the largest step, the incoming
      stamps, the deadlines of the next SYNCs and the first event. */
  function NextTimestamp(net: Net, s: State, i: nat): (r: nat)
    requires |net.links| == |s.chans| && i < |s.sims|
    ensures r <= s.sims[i].clock + MAX_STEP
    ensures forall c :: 0 <= c < |net.links| && net.links[c].dst == i ==> r <= s.chans[c].inTs
    ensures forall c :: 0 <= c < |net.links| && net.links[c].src == i ==> r <= s.chans[c].outTs + net.links[c].interval
    ensures s.sims[i].agenda.events != [] ==> r <= s.sims[i].agenda.events[0].req.time
    ensures || r == s.sims[i].clock + MAX_STEP
            || (exists c :: 0 <= c < |net.links| && net.links[c].dst == i && r == s.chans[c].inTs)
            || (exists c :: 0 <= c < |net.links| && net.links[c].src == i && r == s.chans[c].outTs + net.links[c].interval)
            || (s.sims[i].agenda.events != [] && r == s.sims[i].agenda.events[0].req.time)
  {
    var sim := s.sims[i];
    var r := LinkBound(net, s, i, |net.links|, sim.clock + MAX_STEP);
    if sim.agenda.events != [] && sim.agenda.events[0].req.time < r then sim.agenda.events[0].req.time else r
  }

  predicate Shaped(net: Net, s: State) {
    |s.sims| == net.size && |s.chans| == |net.links|
  }

  // A handler sends on its own simulator's links.
  predicate OpsOk(net: Net, i: nat, ops: seq<Op>) {
    forall k :: 0 <= k < |ops| && ops[k].Send? ==> ops[k].link < |net.links| && net.links[ops[k].link].src == i
  }

  // Polling the channel at this clock delivers a data message.
  predicate Delivers(ch: Chan, clock: nat) {
    ch.queue != [] && ch.queue[0].ts <= clock && ch.queue[0].body.DataBody?
  }

  predicate Enabled(net: Net, s: State, a: Action)
    requires Shaped(net, s)
  {
    match a
    case SyncStep(i) => i < net.size && s.sims[i].phase.Syncing? && s.sims[i].phase.next <= |net.links|
    case Poll(c, h) =>
      && c < |net.links| && net.links[c].dst < net.size && s.sims[net.links[c].dst].phase.Polling?
      && OpsOk(net, net.links[c].dst, h) && (h != [] ==> Delivers(s.chans[c], s.sims[net.links[c].dst].clock))
    case Trigger(i, h) =>
      && i < net.size && s.sims[i].phase.Polling? && Due(s.sims[i].agenda, s.sims[i].clock)
      && OpsOk(net, i, h)
    case HandlerStep(i) => i < net.size && s.sims[i].phase.Handling? && CanDo(net, s, i)
    case Advance(i) =>
      i < net.size && s.sims[i].phase.Polling? && NextTimestamp(net, s, i) > s.sims[i].clock
  }

  // The handler's next operation does not have to wait for room.
  predicate CanDo(net: Net, s: State, i: nat)
    requires Shaped(net, s) && i < net.size && s.sims[i].phase.Handling?
  {
    var ops := s.sims[i].phase.ops;
    && ops != []
    && (ops[0].Send? ==> ops[0].link < |net.links| && |s.chans[ops[0].link].queue| < net.links[ops[0].link].capacity)
  }

  // The phase of a simulator with these operations left to do.
  function Doing(ops: seq<Op>): Phase {
    if ops == [] then Polling else Handling(ops)
  }

  // OutSync on one link of simulator i, or the end of the sync phase.
  function SyncOne(net: Net, s: State, i: nat): State
    requires Shaped(net, s) && Enabled(net, s, SyncStep(i))
  {
    var sim := s.sims[i];
    var k := sim.phase.next;
    if k == |net.links| then s.(sims := s.sims[i := sim.(phase := Polling)])
    else
      var l, ch := net.links[k], s.chans[k];
      var on := s.(sims := s.sims[i := sim.(phase := Syncing(k + 1))]);
      if l.src != i || !SyncDue(l, ch, sim.clock) then on
      else if |ch.queue| < l.capacity then on.(chans := s.chans[k := Enqueue(l, ch, sim.clock, SyncBody)])
      else s.(sims := s.sims[i := sim.(phase := Syncing(0))])
  }

  function Apply(net: Net, s: State, a: Action): (t: State)
    requires Shaped(net, s) && Enabled(net, s, a)
    ensures Shaped(net, t)
  {
    match a
    case SyncStep(i) => SyncOne(net, s, i)
    case Poll(c, h) =>
      var i := net.links[c].dst;
      State(s.sims[i := s.sims[i].(phase := Doing(h))], s.chans[c := Receive(s.chans[c], s.sims[i].clock)])
    case Trigger(i, h) =>
      s.(sims := s.sims[i := s.sims[i].(agenda := Fire(s.sims[i].agenda, s.sims[i].clock), phase := Doing(h))])
    case HandlerStep(i) => HandleOne(net, s, i)
    case Advance(i) =>
      s.(sims := s.sims[i := s.sims[i].(clock := NextTimestamp(net, s, i), phase := Syncing(0))])
  }

  // One operation of a handler.
  function HandleOne(net: Net, s: State, i: nat): (t: State)
    requires Shaped(net, s) && Enabled(net, s, HandlerStep(i))
    ensures Shaped(net, t)
  {
    var sim := s.sims[i];
    var rest := sim.(phase := Doing(sim.phase.ops[1..]));
    match sim.phase.ops[0]
    case Send(c, p) =>
      State(s.sims[i := rest], s.chans[c := Enqueue(net.links[c], s.chans[c], sim.clock, DataBody(p))])
    case Ask(req) => s.(sims := s.sims[i := rest.(agenda := Schedule(sim.agenda, req, sim.clock))])
  }

  // t is reached from s by exactly these actions.
  predicate Leads(net: Net, s: State, acts: seq<Action>, t: State)
    requires Shaped(net, s)
    decreases acts
  {
    if acts == [] then s == t
    else Enabled(net, s, acts[0]) && Leads(net, Apply(net, s, acts[0]), acts[1..], t)
  }

  // ----------------------------------------------------------------- invariant

  ghost predicate Stamped(l: Link, sent: seq<Msg>) {
    forall k :: 0 <= k < |sent| ==> sent[k].ts == sent[k].sentAt + l.latency
  }

  ghost predicate Ordered(sent: seq<Msg>) {
    forall j, k :: 0 <= j <= k < |sent| ==> sent[j].ts <= sent[k].ts
  }

  ghost predicate Spaced(l: Link, sent: seq<Msg>) {
    forall j, k :: 0 <= j < k < |sent| && k == j + 1 ==> sent[k].sentAt <= sent[j].sentAt + l.interval
  }

  // A SYNC is only sent a sync interval after the last message, or if that was sent at 0.
  ghost predicate SyncsDue(l: Link, sent: seq<Msg>) {
    forall j, k :: 0 <= j < k < |sent| && k == j + 1 && sent[k].body.SyncBody? ==>
      sent[j].sentAt == 0 || sent[j].sentAt + l.interval <= sent[k].sentAt
  }

  // What was delivered is a prefix of what was sent, each message at its stamp.
  ghost predicate Delivered(sent: seq<Msg>, log: seq<Delivery>) {
    |log| <= |sent| && forall k :: 0 <= k < |log| ==> log[k].msg == sent[k] && log[k].at == sent[k].ts
  }

  ghost predicate HistoryInv(l: Link, ch: Chan) {
    && Stamped(l, ch.sent) && Ordered(ch.sent) && Spaced(l, ch.sent) && SyncsDue(l, ch.sent)
    && Delivered(ch.sent, ch.log)
    && ch.queue == ch.sent[|ch.log|..]
  }

  ghost predicate ClockInv(l: Link, ch: Chan, src: nat, dst: nat) {
    && dst <= ch.inTs
    && ch.outTs <= src <= ch.outTs + l.interval
    && (ch.sent == [] ==> ch.outTs == 0 && ch.inTs == 0 && src == 0)
    && (ch.sent != [] ==> ch.outTs == ch.sent[|ch.sent| - 1].sentAt && ch.sent[0].sentAt == 0)
    && (ch.queue != [] ==> ch.inTs <= ch.queue[0].ts)
    && (ch.sent != [] && ch.queue == [] ==> ch.inTs == ch.sent[|ch.sent| - 1].ts)
    && (ch.queue == [] ==> ch.inTs <= dst)
    && (ch.queue != [] && ch.inTs > dst ==> ch.inTs == ch.queue[0].ts)
  }

  // The sender has passed this link in the current round of OutSync calls.
  predicate Passed(phase: Phase, c: nat) {
    phase.Polling? || phase.Handling? || (phase.Syncing? && c < phase.next)
  }

  ghost predicate SyncInv(l: Link, ch: Chan, src: nat, phase: Phase, c: nat) {
    Passed(phase, c) ==> ch.sent != [] && (l.interval > 0 ==> src < ch.outTs + l.interval)
  }

  // `src` and `dst` are the clocks of the two ends, `phase` is that of the sender.
  ghost predicate ChanInv(l: Link, ch: Chan, src: nat, phase: Phase, dst: nat, c: nat) {
    HistoryInv(l, ch) && ClockInv(l, ch, src, dst) && SyncInv(l, ch, src, phase, c) && |ch.queue| <= l.capacity
  }

  ghost predicate ChanOk(net: Net, s: State, c: nat)
    requires net.Valid() && Shaped(net, s) && c < |net.links|
  {
    var src, dst := s.sims[net.links[c].src], s.sims[net.links[c].dst];
    ChanInv(net.links[c], s.chans[c], src.clock, src.phase, dst.clock, c)
  }

  predicate PhaseOk(net: Net, i: nat, phase: Phase) {
    match phase
    case Syncing(k) => k <= |net.links|
    case Polling => true
    case Handling(ops) => ops != [] && OpsOk(net, i, ops)
  }

  ghost predicate AgendaOk(s: State, i: nat)
    requires i < |s.sims|
  {
    s.sims[i].agenda in Kept(s.sims[i].clock)
  }

  ghost predicate Inv(net: Net, s: State)
    requires net.Valid()
  {
    && Shaped(net, s)
    && (forall c :: 0 <= c < |net.links| ==> ChanOk(net, s, c))
    && (forall i :: 0 <= i < net.size ==> PhaseOk(net, i, s.sims[i].phase))
    && (forall i :: 0 <= i < net.size ==> AgendaOk(s, i))
  }

  lemma AppendOrdered(sent: seq<Msg>, m: Msg)
    requires Ordered(sent) && (sent != [] ==> sent[|sent| - 1].ts <= m.ts)
    ensures Ordered(sent + [m])
  {
    forall j, k | 0 <= j <= k < |sent + [m]| ensures (sent + [m])[j].ts <= (sent + [m])[k].ts {
      if j < |sent| == k {
        assert sent[j].ts <= sent[|sent| - 1].ts;
      }
    }
  }

  lemma EnqueueHistory(l: Link, ch: Chan, src: nat, body: Body)
    requires HistoryInv(l, ch)
    requires ch.sent != [] ==> ch.sent[|ch.sent| - 1].sentAt <= src <= ch.sent[|ch.sent| - 1].sentAt + l.interval
    requires ch.sent != [] && body.SyncBody? ==>
      ch.sent[|ch.sent| - 1].sentAt == 0 || ch.sent[|ch.sent| - 1].sentAt + l.interval <= src
    ensures HistoryInv(l, Enqueue(l, ch, src, body))
  {
    var m := Msg(src + l.latency, src, body);
    AppendOrdered(ch.sent, m);
    AppendSpaced(l, ch.sent, m);
    AppendDue(l, ch.sent, m);
    DropOfAppend(ch.sent, |ch.log|, m);
  }

  lemma AppendSpaced(l: Link, sent: seq<Msg>, m: Msg)
    requires Spaced(l, sent) && (sent != [] ==> m.sentAt <= sent[|sent| - 1].sentAt + l.interval)
    ensures Spaced(l, sent + [m])
  {
  }

  lemma AppendDue(l: Link, sent: seq<Msg>, m: Msg)
    requires SyncsDue(l, sent)
    requires sent != [] && m.body.SyncBody? ==>
      sent[|sent| - 1].sentAt == 0 || sent[|sent| - 1].sentAt + l.interval <= m.sentAt
    ensures SyncsDue(l, sent + [m])
  {
  }

  lemma DropOfAppend<T>(s: seq<T>, k: nat, x: T)
    requires k <= |s|
    ensures (s + [x])[k..] == s[k..] + [x]
  {
  }

  lemma EnqueueClock(l: Link, ch: Chan, src: nat, dst: nat, body: Body)
    requires ClockInv(l, ch, src, dst) && |ch.queue| <= |ch.sent|
    requires ch.queue == [] && ch.sent != [] ==> ch.sent[|ch.sent| - 1].ts == ch.outTs + l.latency
    ensures ClockInv(l, Enqueue(l, ch, src, body), src, dst)
  {
  }

  // Sending keeps the channel well formed, whatever the phase of the sender.
  lemma EnqueueKeeps(l: Link, ch: Chan, src: nat, dst: nat, body: Body)
    requires HistoryInv(l, ch) && ClockInv(l, ch, src, dst) && (body.SyncBody? ==> SyncDue(l, ch, src))
    ensures HistoryInv(l, Enqueue(l, ch, src, body))
    ensures ClockInv(l, Enqueue(l, ch, src, body), src, dst)
  {
    EnqueueHistory(l, ch, src, body);
    EnqueueClock(l, ch, src, dst, body);
  }

  lemma PopKeeps(sent: seq<Msg>, log: seq<Delivery>)
    requires Ordered(sent) && Delivered(sent, log) && |log| < |sent|
    ensures Delivered(sent, log + [Delivery(sent[|log|], sent[|log|].ts)])
    ensures sent[|log|..][1..] == sent[|log| + 1..] && sent[|log|..][0] == sent[|log|]
    ensures |log| + 1 < |sent| ==> sent[|log|].ts <= sent[|log| + 1..][0].ts
  {
  }

  lemma ReceiveHistory(l: Link, ch: Chan, dst: nat)
    requires HistoryInv(l, ch) && (ch.queue != [] ==> dst <= ch.queue[0].ts)
    ensures HistoryInv(l, Receive(ch, dst))
  {
    if ch.queue != [] {
      PopKeeps(ch.sent, ch.log);
    }
  }

  lemma ReceiveClock(l: Link, ch: Chan, src: nat, dst: nat)
    requires HistoryInv(l, ch) && ClockInv(l, ch, src, dst)
    ensures ClockInv(l, Receive(ch, dst), src, dst)
  {
    if ch.queue != [] {
      PopKeeps(ch.sent, ch.log);
    }
  }

  // Receiving delivers a message exactly when the clock equals its stamp.
  lemma ReceiveKeeps(l: Link, ch: Chan, src: nat, dst: nat)
    requires HistoryInv(l, ch) && ClockInv(l, ch, src, dst)
    ensures HistoryInv(l, Receive(ch, dst))
    ensures ClockInv(l, Receive(ch, dst), src, dst)
  {
    ReceiveHistory(l, ch, dst);
    ReceiveClock(l, ch, src, dst);
  }

  lemma SyncStepSends(l: Link, ch: Chan, src: nat, dst: nat, k: nat)
    requires HistoryInv(l, ch) && ClockInv(l, ch, src, dst) && SyncDue(l, ch, src) && |ch.queue| < l.capacity
    ensures ChanInv(l, Enqueue(l, ch, src, SyncBody), src, Syncing(k + 1), dst, k)
  {
    EnqueueKeeps(l, ch, src, dst, SyncBody);
  }

  lemma SyncStepChan(net: Net, s: State, i: nat, c: nat)
    requires net.Valid() && Shaped(net, s) && Enabled(net, s, SyncStep(i)) && c < |net.links| && ChanOk(net, s, c)
    ensures ChanOk(net, SyncOne(net, s, i), c)
  {
    var t := SyncOne(net, s, i);
    var l, ch := net.links[c], s.chans[c];
    var src := s.sims[l.src].clock;
    assert t.sims[l.src].clock == src && t.sims[l.dst].clock == s.sims[l.dst].clock;
    if c == s.sims[i].phase.next && l.src == i && SyncDue(l, ch, src) && |ch.queue| < l.capacity {
      SyncStepSends(l, ch, src, s.sims[l.dst].clock, c);
    } else {
      assert t.chans[c] == ch;
      assert SyncInv(l, ch, src, t.sims[l.src].phase, c);
    }
  }

  lemma SyncStepKeeps(net: Net, s: State, i: nat)
    requires net.Valid() && Inv(net, s) && Enabled(net, s, SyncStep(i))
    ensures Inv(net, SyncOne(net, s, i))
  {
    forall j | 0 <= j < net.size ensures AgendaOk(SyncOne(net, s, i), j) { assert AgendaOk(s, j); }
    forall c | 0 <= c < |net.links| ensures ChanOk(net, SyncOne(net, s, i), c) {
      assert ChanOk(net, s, c);
      SyncStepChan(net, s, i, c);
    }
  }

  lemma AdvanceKeeps(net: Net, s: State, i: nat)
    requires net.Valid() && Inv(net, s) && Enabled(net, s, Advance(i))
    ensures Inv(net, Apply(net, s, Advance(i)))
  {
    var t := Apply(net, s, Advance(i));
    assert AgendaOk(s, i);
    WaitKeeps(s.sims[i].agenda, s.sims[i].clock, t.sims[i].clock);
    forall j | 0 <= j < net.size ensures AgendaOk(t, j) { assert AgendaOk(s, j); }
    var bound := LinkBound(net, s, i, |net.links|, s.sims[i].clock + MAX_STEP);
    assert t.sims[i].clock <= bound;
    forall c | 0 <= c < |net.links| ensures ChanOk(net, t, c) {
      assert ChanOk(net, s, c);
    }
  }

  lemma PollKeeps(net: Net, s: State, c0: nat, h: seq<Op>)
    requires net.Valid() && Inv(net, s) && Enabled(net, s, Poll(c0, h))
    ensures Inv(net, Apply(net, s, Poll(c0, h)))
  {
    var t := Apply(net, s, Poll(c0, h));
    forall j | 0 <= j < net.size ensures AgendaOk(t, j) { assert AgendaOk(s, j); }
    forall c | 0 <= c < |net.links| ensures ChanOk(net, t, c) {
      assert ChanOk(net, s, c);
      PollChan(net, s, c0, h, c);
    }
  }

  lemma PollChan(net: Net, s: State, c0: nat, h: seq<Op>, c: nat)
    requires net.Valid() && Shaped(net, s) && Enabled(net, s, Poll(c0, h)) && c < |net.links| && ChanOk(net, s, c)
    ensures ChanOk(net, Apply(net, s, Poll(c0, h)), c)
  {
    var l, t := net.links[c], Apply(net, s, Poll(c0, h));
    assert t.sims[l.src].clock == s.sims[l.src].clock && t.sims[l.dst].clock == s.sims[l.dst].clock;
    if c == c0 {
      ReceiveKeeps(l, s.chans[c], s.sims[l.src].clock, s.sims[l.dst].clock);
    }
  }

  lemma TriggerKeeps(net: Net, s: State, i: nat, h: seq<Op>)
    requires net.Valid() && Inv(net, s) && Enabled(net, s, Trigger(i, h))
    ensures Inv(net, Apply(net, s, Trigger(i, h)))
  {
    var t := Apply(net, s, Trigger(i, h));
    assert AgendaOk(s, i);
    FireKeeps(s.sims[i].agenda, s.sims[i].clock);
    forall j | 0 <= j < net.size ensures AgendaOk(t, j) { assert AgendaOk(s, j); }
    forall c | 0 <= c < |net.links| ensures ChanOk(net, t, c) {
      assert ChanOk(net, s, c);
    }
  }

  lemma HandlerKeeps(net: Net, s: State, i: nat)
    requires net.Valid() && Inv(net, s) && Enabled(net, s, HandlerStep(i))
    ensures Inv(net, HandleOne(net, s, i))
  {
    var t := HandleOne(net, s, i);
    forall c | 0 <= c < |net.links| ensures ChanOk(net, t, c) {
      assert ChanOk(net, s, c);
      HandlerChan(net, s, i, c);
    }
    var ops := s.sims[i].phase.ops;
    assert forall k :: 0 <= k < |ops[1..]| ==> ops[1..][k] == ops[k + 1];
    forall j | 0 <= j < net.size ensures AgendaOk(t, j) {
      assert AgendaOk(s, j);
      HandlerAgenda(net, s, i, j);
    }
  }

  lemma HandlerAgenda(net: Net, s: State, i: nat, j: nat)
    requires Shaped(net, s) && Enabled(net, s, HandlerStep(i)) && j < net.size && AgendaOk(s, j)
    ensures AgendaOk(HandleOne(net, s, i), j)
  {
    var op := s.sims[i].phase.ops[0];
    if op.Ask? && i == j {
      ScheduleKeeps(s.sims[i].agenda, op.req, s.sims[i].clock);
    }
  }

  lemma HandlerChan(net: Net, s: State, i: nat, c: nat)
    requires net.Valid() && Shaped(net, s) && Enabled(net, s, HandlerStep(i)) && PhaseOk(net, i, s.sims[i].phase)
    requires c < |net.links| && ChanOk(net, s, c)
    ensures ChanOk(net, HandleOne(net, s, i), c)
  {
    var l, op, t := net.links[c], s.sims[i].phase.ops[0], HandleOne(net, s, i);
    assert t.sims[l.src].clock == s.sims[l.src].clock && t.sims[l.dst].clock == s.sims[l.dst].clock;
    if op.Send? && op.link == c {
      EnqueueKeeps(l, s.chans[c], s.sims[l.src].clock, s.sims[l.dst].clock, DataBody(op.payload));
    }
  }

  lemma StepKeeps(net: Net, s: State, a: Action)
    requires net.Valid() && Inv(net, s) && Enabled(net, s, a)
    ensures Inv(net, Apply(net, s, a))
  {
    match a
    case SyncStep(i) => SyncStepKeeps(net, s, i);
    case Advance(i) => AdvanceKeeps(net, s, i);
    case Poll(c, h) => PollKeeps(net, s, c, h);
    case HandlerStep(i) => HandlerKeeps(net, s, i);
    case Trigger(i, h) => TriggerKeeps(net, s, i, h);
  }

  lemma {:induction false} LeadsKeeps(net: Net, s: State, acts: seq<Action>, t: State)
    requires net.Valid() && Inv(net, s) && Leads(net, s, acts, t)
    ensures Inv(net, t)
    decreases acts
  {
    if acts != [] {
      StepKeeps(net, s, acts[0]);
      LeadsKeeps(net, Apply(net, s, acts[0]), acts[1..], t);
    }
  }

  lemma InitInv(net: Net, events: seq<seq<Request>>)
    requires net.Valid() && |events| == net.size
    ensures Inv(net, Init(net, events))
  {
    forall i | 0 <= i < net.size ensures AgendaOk(Init(net, events), i) {
      ScheduleAllOk(events[i], 0);
    }
  }

  // -------------------------------------------------------------------- safety

  /** In every run, every message is delivered in the order it was sent, once,
      exactly one link latency after the sender's clock at the send, and never
      in the receiver's past. */
  lemma ExactLatency(net: Net, events: seq<seq<Request>>, acts: seq<Action>, t: State, c: nat)
    requires net.Valid() && |events| == net.size && Leads(net, Init(net, events), acts, t) && c < |net.links|
    ensures Shaped(net, t)
    ensures var ch := t.chans[c];
            && |ch.sent| == |ch.log| + |ch.queue|
            && (forall k :: 0 <= k < |ch.log| ==> ch.log[k].msg == ch.sent[k])
            && (forall k :: 0 <= k < |ch.queue| ==> ch.queue[k] == ch.sent[|ch.log| + k])
            && (forall k :: 0 <= k < |ch.log| ==> ch.log[k].at == ch.sent[k].sentAt + net.links[c].latency)
            && (forall k :: 0 <= k < |ch.queue| ==> ch.queue[k].ts >= t.sims[net.links[c].dst].clock)
  {
    InitInv(net, events);
    LeadsKeeps(net, Init(net, events), acts, t);
    assert ChanOk(net, t, c);
    var ch := t.chans[c];
    assert forall k :: 0 <= k < |ch.queue| ==> ch.queue[k] == ch.sent[|ch.log| + k];
    forall k | 0 <= k < |ch.queue| ensures ch.queue[k].ts >= t.sims[net.links[c].dst].clock {
      assert ch.sent[|ch.log|].ts <= ch.sent[|ch.log| + k].ts;
    }
  }

  /** In every run no clock passes the incoming stamp of any of its links, a
      receiver is never more than one latency ahead of a sender, the stamps of
      consecutive messages differ by at most the sync interval, and by exactly that
      if the second is a SYNC, unless the first was sent at 0; and the sender is never
      more than one interval past its last message. */
  lemma BoundedSkew(net: Net, events: seq<seq<Request>>, acts: seq<Action>, t: State, c: nat)
    requires net.Valid() && |events| == net.size && Leads(net, Init(net, events), acts, t) && c < |net.links|
    ensures Shaped(net, t)
    ensures var l, ch := net.links[c], t.chans[c];
            && t.sims[l.dst].clock <= ch.inTs
            && t.sims[l.dst].clock <= t.sims[l.src].clock + l.latency
            && (forall j, k :: 0 <= j < k < |ch.sent| && k == j + 1 ==>
                && ch.sent[j].ts <= ch.sent[k].ts <= ch.sent[j].ts + l.interval
                && (ch.sent[k].body.SyncBody? && ch.sent[j].sentAt > 0 ==> ch.sent[k].ts == ch.sent[j].ts + l.interval))
            && (ch.sent != [] ==> ch.sent[0].sentAt == 0
                                  && t.sims[l.src].clock <= ch.sent[|ch.sent| - 1].sentAt + l.interval)
  {
    InitInv(net, events);
    LeadsKeeps(net, Init(net, events), acts, t);
    assert ChanOk(net, t, c);
    var ch := t.chans[c];
    if ch.queue != [] {
      assert ch.queue[0] == ch.sent[|ch.log|];
      assert ch.sent[|ch.log|].ts <= ch.sent[|ch.sent| - 1].ts;
    }
  }

  // ------------------------------------------------------------------ progress

  lemma TailOfConcat<T>(a: seq<T>, b: seq<T>)
    requires a != []
    ensures (a + b)[0] == a[0] && (a + b)[1..] == a[1..] + b
  {
  }

  lemma {:induction false} LeadsConcat(net: Net, s: State, as1: seq<Action>, t: State, as2: seq<Action>, u: State)
    requires Shaped(net, s) && Leads(net, s, as1, t)
    requires Shaped(net, t) && Leads(net, t, as2, u)
    ensures Leads(net, s, as1 + as2, u)
    decreases as1
  {
    if as1 == [] {
      assert as1 + as2 == as2;
    } else {
      var s1 := Apply(net, s, as1[0]);
      TailOfConcat(as1, as2);
      LeadsConcat(net, s1, as1[1..], t, as2, u);
    }
  }

  ghost predicate LeadsFromInit(net: Net, s: State) {
    Shaped(net, s) && exists events, acts :: |events| == net.size && Leads(net, Init(net, events), acts, s)
  }

  ghost function Reached(net: Net): iset<State> {
    iset s | LeadsFromInit(net, s)
  }

  ghost predicate Reachable(net: Net, s: State) {
    s in Reached(net)
  }

  lemma ReachableInv(net: Net, s: State)
    requires net.Valid() && Reachable(net, s)
    ensures Inv(net, s)
  {
    var events, acts :| |events| == net.size && Leads(net, Init(net, events), acts, s);
    InitInv(net, events);
    LeadsKeeps(net, Init(net, events), acts, s);
  }

  lemma ReachableStep(net: Net, s: State, a: Action)
    requires Reachable(net, s) && Enabled(net, s, a)
    ensures Reachable(net, Apply(net, s, a))
    ensures Leads(net, s, [a], Apply(net, s, a))
  {
    var events, acts :| |events| == net.size && Leads(net, Init(net, events), acts, s);
    var t := Apply(net, s, a);
    assert [a][1..] == [];
    assert Leads(net, s, [a], t);
    LeadsConcat(net, Init(net, events), acts, s, [a], t);
  }

  // The simulators reach t from s on their own: no handler that is started has to do
  // anything.
  ghost predicate LeadsIdly(net: Net, s: State, t: State)
    requires Shaped(net, s)
  {
    exists acts :: Leads(net, s, acts, t) && IdleActs(acts)
  }

  ghost function IdleReach(net: Net, s: State): iset<State>
    requires Shaped(net, s)
  {
    iset t | LeadsIdly(net, s, t)
  }

  ghost predicate Idles(net: Net, s: State, t: State)
    requires Shaped(net, s)
  {
    t in IdleReach(net, s)
  }

  ghost predicate IdleActs(acts: seq<Action>) {
    forall k :: 0 <= k < |acts| ==> Started(acts[k]) == []
  }

  // What the handler does that an action starts.
  function Started(a: Action): seq<Op> {
    match a
    case Poll(_, h) => h
    case Trigger(_, h) => h
    case _ => []
  }

  lemma IdlesRefl(net: Net, s: State)
    requires Shaped(net, s)
    ensures Idles(net, s, s)
  {
    assert Leads(net, s, [], s) && IdleActs([]);
  }

  lemma IdlesTrans(net: Net, s: State, t: State, u: State)
    requires Shaped(net, s) && Idles(net, s, t) && Shaped(net, t) && Idles(net, t, u)
    ensures Idles(net, s, u)
  {
    var as1 :| Leads(net, s, as1, t) && IdleActs(as1);
    var as2 :| Leads(net, t, as2, u) && IdleActs(as2);
    LeadsConcat(net, s, as1, t, as2, u);
    assert IdleActs(as1 + as2);
  }

  lemma IdlesStep(net: Net, s: State, a: Action, u: State)
    requires Reachable(net, s) && Enabled(net, s, a) && Started(a) == []
    requires Idles(net, Apply(net, s, a), u)
    ensures Idles(net, s, u)
  {
    ReachableStep(net, s, a);
    assert IdleActs([a]);
    IdlesTrans(net, s, Apply(net, s, a), u);
  }

  ghost predicate Least(s: State, i: nat) {
    i < |s.sims| && forall j :: 0 <= j < |s.sims| ==> s.sims[i].clock <= s.sims[j].clock
  }

  // The messages a handler still has to send on link c.
  function SendsOn(ops: seq<Op>, c: nat): nat {
    if ops == [] then 0 else (if ops[0].Send? && ops[0].link == c then 1 else 0) + SendsOn(ops[1..], c)
  }

  // Link c has room for what its sender is about to send: a SYNC that is due and still to
  // be sent in this round, or the rest of a handler's messages.
  predicate HasRoom(net: Net, s: State, c: nat)
    requires net.Valid() && Shaped(net, s) && c < |net.links|
  {
    var l, ch := net.links[c], s.chans[c];
    var sim := s.sims[l.src];
    match sim.phase
    case Syncing(_) => !Passed(sim.phase, c) && SyncDue(l, ch, sim.clock) ==> |ch.queue| < l.capacity
    case Handling(ops) => |ch.queue| + SendsOn(ops, c) <= l.capacity
    case Polling => true
  }

  // No simulator at this clock will have to wait for room in an outgoing queue.
  ghost predicate Unjammed(net: Net, s: State, clock: nat)
    requires net.Valid() && Shaped(net, s)
  {
    forall c :: 0 <= c < |net.links| && s.sims[net.links[c].src].clock == clock ==> HasRoom(net, s, c)
  }

  // The sender of link c waits for room now: for a SYNC, or in a handler.
  predicate Blocked(net: Net, s: State, c: nat)
    requires net.Valid() && Shaped(net, s) && c < |net.links|
  {
    var l, ch := net.links[c], s.chans[c];
    var sim := s.sims[l.src];
    |ch.queue| >= l.capacity &&
    match sim.phase
    case Syncing(_) => !Passed(sim.phase, c) && SyncDue(l, ch, sim.clock)
    case Handling(ops) => ops != [] && ops[0].Send? && ops[0].link == c
    case Polling => false
  }

  ghost predicate NoneBlocked(net: Net, s: State, clock: nat)
    requires net.Valid() && Shaped(net, s)
  {
    forall c :: 0 <= c < |net.links| && s.sims[net.links[c].src].clock == clock ==> !Blocked(net, s, c)
  }

  lemma RoomIsNotBlocked(net: Net, s: State, clock: nat)
    requires net.Valid() && Shaped(net, s) && Unjammed(net, s, clock)
    ensures NoneBlocked(net, s, clock)
  {
    forall c | 0 <= c < |net.links| && s.sims[net.links[c].src].clock == clock ensures !Blocked(net, s, c) {
      assert HasRoom(net, s, c);
    }
  }

  ghost predicate LastIsAhead(ch: Chan, clock: nat) {
    ch.sent != [] && ch.sent[|ch.sent| - 1].ts > clock
  }

  ghost predicate LeastSynced(s: State, clock: nat) {
    forall j :: 0 <= j < |s.sims| && s.sims[j].clock == clock ==> !s.sims[j].phase.Syncing?
  }

  // Once every simulator at the least clock has synced, every stamp on its way
  // to one of them lies beyond that clock.
  lemma SyncedIsAhead(net: Net, s: State, i: nat, c: nat)
    requires net.Valid() && net.Live() && Reachable(net, s) && Least(s, i)
    requires LeastSynced(s, s.sims[i].clock) && c < |net.links| && net.links[c].dst == i
    ensures LastIsAhead(s.chans[c], s.sims[i].clock)
  {
    ReachableInv(net, s);
    assert ChanOk(net, s, c);
  }

  lemma CanAdvance(net: Net, s: State, i: nat)
    requires net.Valid() && net.Live() && Reachable(net, s) && i < net.size && s.sims[i].phase.Polling?
    requires forall c :: 0 <= c < |net.links| && net.links[c].dst == i ==> s.chans[c].inTs > s.sims[i].clock
    requires !Due(s.sims[i].agenda, s.sims[i].clock)
    ensures Enabled(net, s, Advance(i))
  {
    ReachableInv(net, s);
    forall c | 0 <= c < |net.links| && net.links[c].src == i
      ensures s.chans[c].outTs + net.links[c].interval > s.sims[i].clock
    {
      assert ChanOk(net, s, c);
    }
  }

  // ------------------------------------------------------- work left at a clock

  // Messages a receiver at this clock still has to consume.
  function DueMsgs(queue: seq<Msg>, clock: nat): nat {
    if queue == [] then 0 else (if queue[0].ts <= clock then 1 else 0) + DueMsgs(queue[1..], clock)
  }

  function DueEvents(events: seq<Timer>, clock: nat): nat {
    if events == [] then 0 else (if events[0].req.time <= clock then 1 else 0) + DueEvents(events[1..], clock)
  }

  function ChanWork(ch: Chan, clock: nat): nat {
    DueMsgs(ch.queue, clock) + if ch.inTs <= clock then 1 else 0
  }

  // The steps of a simulator's round of OutSync calls, its due events, and what its handler
  // has left to do, which may make further events due.
  function SimWork(links: nat, sim: Sim, clock: nat): nat {
    if sim.clock != clock then 0
    else
      DueEvents(sim.agenda.events, clock) + match sim.phase
      case Syncing(k) => if k <= links then links + 1 - k else 0
      case Polling => 0
      case Handling(ops) => 2 * |ops|
  }

  ghost function ChansWork(chans: seq<Chan>, clock: nat): nat {
    if chans == [] then 0 else ChansWork(chans[..|chans| - 1], clock) + ChanWork(chans[|chans| - 1], clock)
  }

  ghost function SimsWork(links: nat, sims: seq<Sim>, clock: nat): nat {
    if sims == [] then 0 else SimsWork(links, sims[..|sims| - 1], clock) + SimWork(links, sims[|sims| - 1], clock)
  }

  /** What the simulators at this clock have left to do before they can advance. */
  ghost function Work(net: Net, s: State, clock: nat): nat {
    SimsWork(|net.links|, s.sims, clock) + ChansWork(s.chans, clock)
  }

  lemma {:induction false} ChansWorkUpdate(chans: seq<Chan>, clock: nat, c: nat, x: Chan)
    requires c < |chans|
    ensures ChansWork(chans[c := x], clock) + ChanWork(chans[c], clock) == ChansWork(chans, clock) + ChanWork(x, clock)
    decreases |chans|
  {
    var n := |chans| - 1;
    if c == n {
      assert chans[c := x][..n] == chans[..n];
    } else {
      assert chans[c := x][..n] == chans[..n][c := x];
      ChansWorkUpdate(chans[..n], clock, c, x);
    }
  }

  lemma {:induction false} SimsWorkUpdate(links: nat, sims: seq<Sim>, clock: nat, i: nat, x: Sim)
    requires i < |sims|
    ensures SimsWork(links, sims[i := x], clock) + SimWork(links, sims[i], clock)
         == SimsWork(links, sims, clock) + SimWork(links, x, clock)
    decreases |sims|
  {
    var n := |sims| - 1;
    if i == n {
      assert sims[i := x][..n] == sims[..n];
    } else {
      assert sims[i := x][..n] == sims[..n][i := x];
      SimsWorkUpdate(links, sims[..n], clock, i, x);
    }
  }

  lemma {:induction false} DueAppend(queue: seq<Msg>, m: Msg, clock: nat)
    requires m.ts > clock
    ensures DueMsgs(queue + [m], clock) == DueMsgs(queue, clock)
    decreases |queue|
  {
    if queue == [] {
      assert (queue + [m])[1..] == [];
    } else {
      TailOfConcat(queue, [m]);
      DueAppend(queue[1..], m, clock);
    }
  }

  // A new message is never due at the least clock.
  lemma EnqueueWork(l: Link, ch: Chan, src: nat, body: Body, clock: nat)
    requires l.latency > 0 && clock <= src
    ensures ChanWork(Enqueue(l, ch, src, body), clock) == ChanWork(ch, clock)
  {
    DueAppend(ch.queue, Msg(src + l.latency, src, body), clock);
  }

  lemma ReceiveWork(l: Link, ch: Chan, src: nat, dst: nat, clock: nat)
    requires ClockInv(l, ch, src, dst) && clock <= dst
    ensures ChanWork(Receive(ch, dst), clock) <= ChanWork(ch, clock)
    ensures dst == clock && Receive(ch, dst) != ch ==> ChanWork(Receive(ch, dst), clock) < ChanWork(ch, clock)
  {
  }

  // The simulator that takes a step.
  function Actor(net: Net, a: Action): nat {
    match a
    case Poll(c, _) => if c < |net.links| then net.links[c].dst else 0
    case _ => a.i
  }

  // Not an advance of a simulator at the clock.
  predicate Waiting(net: Net, s: State, a: Action, clock: nat)
    requires Shaped(net, s)
  {
    a.Advance? && a.i < net.size ==> s.sims[a.i].clock != clock
  }

  // A step of a simulator at the clock that changes something.
  predicate Effective(net: Net, s: State, a: Action, clock: nat)
    requires Shaped(net, s) && Enabled(net, s, a)
  {
    Actor(net, a) < net.size && s.sims[Actor(net, a)].clock == clock && Apply(net, s, a) != s
  }

  lemma {:induction false} InsertDue(events: seq<Timer>, e: Timer, clock: nat)
    ensures DueEvents(Insert(events, e), clock) == DueEvents(events, clock) + if e.req.time <= clock then 1 else 0
    decreases |events|
  {
    if events == [] || Before(e.req, events[0].req) {
      assert ([e] + events)[1..] == events;
    } else {
      InsertDue(events[1..], e, clock);
      assert ([events[0]] + Insert(events[1..], e))[1..] == Insert(events[1..], e);
    }
  }

  lemma ScheduleDue(a: Agenda, req: Request, now: nat, clock: nat)
    ensures DueEvents(Schedule(a, req, now).events, clock) == DueEvents(a.events, clock) + if req.time <= clock then 1 else 0
  {
    InsertDue(a.events, Timer(req, now, |a.made|, |a.fired|), clock);
  }

  /** A step of a simulator at the least clock uses up work, if it changes anything at all,
      except for the work of a handler it starts; no other step adds any. */
  lemma StepUsesWork(net: Net, s: State, a: Action, clock: nat)
    requires net.Valid() && net.Live() && Reachable(net, s) && Enabled(net, s, a)
    requires (forall j :: 0 <= j < net.size ==> clock <= s.sims[j].clock) && NoneBlocked(net, s, clock)
    requires Waiting(net, s, a, clock)
    ensures var now, next := Work(net, s, clock), Work(net, Apply(net, s, a), clock);
            && next <= now + 2 * |Started(a)|
            && (Effective(net, s, a, clock) ==> next < now + 2 * |Started(a)|)
  {
    ReachableInv(net, s);
    match a
    case SyncStep(i) => SyncUsesWork(net, s, i, clock);
    case Poll(c, h) => PollUsesWork(net, s, c, h, clock);
    case HandlerStep(i) => HandlerUsesWork(net, s, i, clock);
    case Trigger(i, h) =>
      SimsWorkUpdate(|net.links|, s.sims, clock, i, Apply(net, s, a).sims[i]);
    case Advance(i) =>
      SimsWorkUpdate(|net.links|, s.sims, clock, i, Apply(net, s, a).sims[i]);
  }

  lemma PollUsesWork(net: Net, s: State, c: nat, h: seq<Op>, clock: nat)
    requires net.Valid() && Inv(net, s) && Enabled(net, s, Poll(c, h)) && clock <= s.sims[net.links[c].dst].clock
    ensures var now, next := Work(net, s, clock), Work(net, Apply(net, s, Poll(c, h)), clock);
            && next <= now + 2 * |h|
            && (Effective(net, s, Poll(c, h), clock) ==> next < now + 2 * |h|)
  {
    assert ChanOk(net, s, c);
    var l := net.links[c];
    var i := l.dst;
    var r := Receive(s.chans[c], s.sims[i].clock);
    ReceiveWork(l, s.chans[c], s.sims[l.src].clock, s.sims[i].clock, clock);
    ChansWorkUpdate(s.chans, clock, c, r);
    SimsWorkUpdate(|net.links|, s.sims, clock, i, s.sims[i].(phase := Doing(h)));
    if r == s.chans[c] && h == [] {
      assert s.chans[c := r] == s.chans && s.sims[i := s.sims[i].(phase := Polling)] == s.sims;
    }
    assert Delivers(s.chans[c], s.sims[i].clock) ==> |r.queue| < |s.chans[c].queue|;
  }

  lemma HandlerUsesWork(net: Net, s: State, i: nat, clock: nat)
    requires net.Valid() && net.Live() && Inv(net, s) && Enabled(net, s, HandlerStep(i)) && clock <= s.sims[i].clock
    ensures Work(net, HandleOne(net, s, i), clock) <= Work(net, s, clock)
    ensures s.sims[i].clock == clock ==> Work(net, HandleOne(net, s, i), clock) < Work(net, s, clock)
  {
    var sim, t := s.sims[i], HandleOne(net, s, i);
    SimsWorkUpdate(|net.links|, s.sims, clock, i, t.sims[i]);
    match sim.phase.ops[0]
    case Send(c, p) =>
      EnqueueWork(net.links[c], s.chans[c], sim.clock, DataBody(p), clock);
      ChansWorkUpdate(s.chans, clock, c, Enqueue(net.links[c], s.chans[c], sim.clock, DataBody(p)));
    case Ask(req) => ScheduleDue(sim.agenda, req, sim.clock, clock);
  }

  lemma SyncUsesWork(net: Net, s: State, i: nat, clock: nat)
    requires net.Valid() && net.Live() && Inv(net, s) && Enabled(net, s, SyncStep(i))
    requires clock <= s.sims[i].clock && NoneBlocked(net, s, clock)
    ensures Work(net, SyncOne(net, s, i), clock) <= Work(net, s, clock)
    ensures s.sims[i].clock == clock ==> Work(net, SyncOne(net, s, i), clock) < Work(net, s, clock)
  {
    var sim, t := s.sims[i], SyncOne(net, s, i);
    SimsWorkUpdate(|net.links|, s.sims, clock, i, t.sims[i]);
    SyncChansWork(net, s, i, clock);
    var k := sim.phase.next;
    assert k < |net.links| && net.links[k].src == i && sim.clock == clock ==> !Blocked(net, s, k);
  }

  lemma SyncChansWork(net: Net, s: State, i: nat, clock: nat)
    requires net.Valid() && net.Live() && Shaped(net, s) && Enabled(net, s, SyncStep(i)) && clock <= s.sims[i].clock
    ensures ChansWork(SyncOne(net, s, i).chans, clock) == ChansWork(s.chans, clock)
  {
    var sim := s.sims[i];
    var k := sim.phase.next;
    if k < |net.links| {
      var x := Enqueue(net.links[k], s.chans[k], sim.clock, SyncBody);
      EnqueueWork(net.links[k], s.chans[k], sim.clock, SyncBody, clock);
      ChansWorkUpdate(s.chans, clock, k, x);
    }
  }

  // A step that starts no work never jams a simulator at the least clock.
  lemma StepKeepsRoom(net: Net, s: State, a: Action, clock: nat)
    requires net.Valid() && Inv(net, s) && Enabled(net, s, a) && !a.Advance? && Started(a) == []
    requires Unjammed(net, s, clock)
    ensures Unjammed(net, Apply(net, s, a), clock)
    ensures forall j :: 0 <= j < net.size ==> Apply(net, s, a).sims[j].clock == s.sims[j].clock
  {
    var t := Apply(net, s, a);
    forall c | 0 <= c < |net.links| && t.sims[net.links[c].src].clock == clock ensures HasRoom(net, t, c) {
      assert HasRoom(net, s, c);
      assert PhaseOk(net, net.links[c].src, s.sims[net.links[c].src].phase);
    }
  }

  /** As long as a simulator at the least clock cannot advance, and none at it waits for
      room, one of them has a step that uses up work. */
  lemma SomeWorkToDo(net: Net, s: State, i: nat) returns (a: Action)
    requires net.Valid() && net.Live() && Reachable(net, s) && Least(s, i) && NoneBlocked(net, s, s.sims[i].clock)
    requires !Enabled(net, s, Advance(i))
    ensures Enabled(net, s, a) && !a.Advance? && Started(a) == []
    ensures Actor(net, a) < net.size && s.sims[Actor(net, a)].clock == s.sims[i].clock
    ensures Work(net, Apply(net, s, a), s.sims[i].clock) < Work(net, s, s.sims[i].clock)
  {
    ReachableInv(net, s);
    var clock := s.sims[i].clock;
    if j :| 0 <= j < net.size && s.sims[j].clock == clock && s.sims[j].phase.Syncing? {
      a := SyncStep(j);
      assert PhaseOk(net, j, s.sims[j].phase);
      SyncUsesWork(net, s, j, clock);
    } else if s.sims[i].phase.Handling? {
      a := HandlerStep(i);
      HandlerCanStep(net, s, i);
      HandlerUsesWork(net, s, i, clock);
    } else if c :| 0 <= c < |net.links| && net.links[c].dst == i && s.chans[c].inTs <= clock {
      a := Poll(c, []);
      PollIsWork(net, s, i, c);
    } else if Due(s.sims[i].agenda, clock) {
      a := Trigger(i, []);
      StepUsesWork(net, s, a, clock);
    } else {
      CanAdvance(net, s, i);
      a := Advance(i);
    }
  }

  // Polling a link whose last stamp read is due is such a step.
  lemma PollIsWork(net: Net, s: State, i: nat, c: nat)
    requires net.Valid() && net.Live() && Reachable(net, s) && Least(s, i) && c < |net.links| && net.links[c].dst == i
    requires forall j :: 0 <= j < net.size && s.sims[j].clock == s.sims[i].clock ==> !s.sims[j].phase.Syncing?
    requires !s.sims[i].phase.Handling? && s.chans[c].inTs <= s.sims[i].clock
    ensures Enabled(net, s, Poll(c, []))
    ensures Work(net, Apply(net, s, Poll(c, [])), s.sims[i].clock) < Work(net, s, s.sims[i].clock)
  {
    ReachableInv(net, s);
    SyncedIsAhead(net, s, i, c);
    assert ChanOk(net, s, c);
    var clock := s.sims[i].clock;
    assert Apply(net, s, Poll(c, [])).chans[c] == Receive(s.chans[c], clock) != s.chans[c];
    PollUsesWork(net, s, c, [], clock);
  }

  lemma HandlerCanStep(net: Net, s: State, i: nat)
    requires net.Valid() && Inv(net, s) && i < net.size && s.sims[i].phase.Handling?
    requires NoneBlocked(net, s, s.sims[i].clock)
    ensures Enabled(net, s, HandlerStep(i))
  {
    var ops := s.sims[i].phase.ops;
    assert PhaseOk(net, i, s.sims[i].phase);
    if ops[0].Send? {
      assert !Blocked(net, s, ops[0].link);
    }
  }

  // ---------------------------------------------------------------- inevitability

  // The effective steps at the clock in a run, and the operations of all handlers it starts.
  ghost function StepsAt(net: Net, s: State, acts: seq<Action>, clock: nat): nat
    requires Shaped(net, s)
    decreases acts
  {
    if acts == [] || !Enabled(net, s, acts[0]) then 0
    else
      (if Effective(net, s, acts[0], clock) then 1 else 0) + StepsAt(net, Apply(net, s, acts[0]), acts[1..], clock)
  }

  function Handled(acts: seq<Action>): nat {
    if acts == [] then 0 else |Started(acts[0])| + Handled(acts[1..])
  }

  // A run in which no simulator at the clock advances, or waits for room.
  ghost predicate WaitingRun(net: Net, s: State, acts: seq<Action>, clock: nat)
    requires net.Valid() && Shaped(net, s)
    decreases acts
  {
    acts == [] || (
      && Enabled(net, s, acts[0]) && Waiting(net, s, acts[0], clock) && NoneBlocked(net, s, clock)
      && WaitingRun(net, Apply(net, s, acts[0]), acts[1..], clock))
  }

  lemma StepClocks(net: Net, s: State, a: Action, clock: nat)
    requires Shaped(net, s) && Enabled(net, s, a) && Waiting(net, s, a, clock)
    requires forall j :: 0 <= j < net.size ==> clock <= s.sims[j].clock
    ensures forall j :: 0 <= j < net.size ==> clock <= Apply(net, s, a).sims[j].clock
    ensures forall j :: 0 <= j < net.size && s.sims[j].clock == clock ==> Apply(net, s, a).sims[j].clock == clock
  {
  }

  /** The least clock advances inevitably.  However the main loops and their handlers are
      interleaved: until a simulator at the least clock advances, or has to wait for room in
      a queue, they take at most Work effective steps and two for each operation of a handler
      that is started; and by SomeWorkToDo they are not at rest before each can advance. */
  lemma {:induction false} LeastMustAdvance(net: Net, s: State, acts: seq<Action>, t: State, clock: nat)
    requires net.Valid() && net.Live() && Reachable(net, s) && Leads(net, s, acts, t)
    requires forall j :: 0 <= j < net.size ==> clock <= s.sims[j].clock
    requires WaitingRun(net, s, acts, clock)
    ensures StepsAt(net, s, acts, clock) + Work(net, t, clock) <= Work(net, s, clock) + 2 * Handled(acts)
    ensures Reachable(net, t)
    ensures forall j :: 0 <= j < net.size ==> clock <= t.sims[j].clock
    ensures forall j :: 0 <= j < net.size && s.sims[j].clock == clock ==> t.sims[j].clock == clock
    decreases acts
  {
    if acts != [] {
      StepUsesWork(net, s, acts[0], clock);
      StepClocks(net, s, acts[0], clock);
      ReachableStep(net, s, acts[0]);
      LeastMustAdvance(net, Apply(net, s, acts[0]), acts[1..], t, clock);
    }
  }

  /** No global deadlock: when every sync interval is positive and at most the latency of
      its link, every simulator with the least clock can be advanced from every reachable
      state in which every simulator at that clock has room in its outgoing queues for what
      it is about to send; no handler that is started has to do anything, and no other clock
      moves. */
  lemma {:induction false} LeastCanAdvance(net: Net, s: State, i: nat) returns (t: State)
    requires net.Valid() && net.Live() && Reachable(net, s)
    requires Least(s, i) && Unjammed(net, s, s.sims[i].clock)
    ensures Reachable(net, t) && Idles(net, s, t)
    ensures t.sims[i].clock > s.sims[i].clock
    ensures forall j :: 0 <= j < net.size && j != i ==> t.sims[j].clock == s.sims[j].clock
    decreases Work(net, s, s.sims[i].clock)
  {
    if Enabled(net, s, Advance(i)) {
      t := Apply(net, s, Advance(i));
      ReachableStep(net, s, Advance(i));
      IdlesRefl(net, t);
      IdlesStep(net, s, Advance(i), t);
    } else {
      RoomIsNotBlocked(net, s, s.sims[i].clock);
      var a := SomeWorkToDo(net, s, i);
      var s1 := Apply(net, s, a);
      ReachableInv(net, s);
      StepKeepsRoom(net, s, a, s.sims[i].clock);
      ReachableStep(net, s, a);
      t := LeastCanAdvance(net, s1, i);
      IdlesStep(net, s, a, t);
    }
  }
}
