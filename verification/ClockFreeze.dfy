/**
  When the clocks of a network stop for ever.

  Two linked simulators that are idle stop if the sync interval is 0 or longer than the
  latency, or the latency is 0.  Otherwise they stop exactly when both need room in a full
  queue; in any network, simulators that need room in each other's queues never move again.
 */
module ClockFreeze {
  import opened Wrappers
  import opened TimedEvents
  import opened ClockSync

  // ------------------------------------------- when the condition does not hold

  // Two simulators linked both ways.
  function Pair(latency: nat, interval: nat, capacity: nat): Net {
    Net(2, [Link(0, 1, latency, interval, capacity), Link(1, 0, latency, interval, capacity)])
  }

  ghost predicate IsPair(net: Net) {
    |net.links| == 2 && net == Pair(net.links[0].latency, net.links[0].interval, net.links[0].capacity)
  }

  // Both simulators, and both links, in the same state.
  function Both(clock: nat, phase: Phase, ch: Chan): State {
    State([Sim(clock, phase, Blank), Sim(clock, phase, Blank)], [ch, ch])
  }

  function SyncedChan(l: Link, ch: Chan, clock: nat): Chan {
    if SyncDue(l, ch, clock) then Enqueue(l, ch, clock, SyncBody) else ch
  }

  // The start, with the same events on both sides.
  lemma AtStart(net: Net, events: seq<Request>)
    requires IsPair(net)
    ensures var ch, sim := Chan([], 0, 0, [], []), Sim(0, Syncing(0), ScheduleAll(events, 0));
            Reachable(net, State([sim, sim], [ch, ch]))
  {
    var ch, sim := Chan([], 0, 0, [], []), Sim(0, Syncing(0), ScheduleAll(events, 0));
    var s := State([sim, sim], [ch, ch]);
    assert Init(net, [events, events]) == s;
    assert Leads(net, Init(net, [events, events]), [], s);
  }

  lemma PairSync(net: Net, s: State, i: nat)
    requires IsPair(net)
    requires Reachable(net, s) && |s.sims| == 2 && |s.chans| == 2 && i < 2
    requires s.sims[i].phase == Syncing(0)
    requires SyncDue(net.links[i], s.chans[i], s.sims[i].clock) ==> |s.chans[i].queue| < net.links[0].capacity
    ensures Reachable(net, State(s.sims[i := s.sims[i].(phase := Polling)],
                                 s.chans[i := SyncedChan(net.links[i], s.chans[i], s.sims[i].clock)]))
  {
    var a, sim := SyncStep(i), s.sims[i];
    ReachableStep(net, s, a);
    var s1 := Apply(net, s, a);
    ReachableStep(net, s1, a);
    var s2 := Apply(net, s1, a);
    ReachableStep(net, s2, a);
    var s3 := Apply(net, s2, a);
    assert s3.sims == s.sims[i := sim.(phase := Polling)];
    assert s3.chans == s.chans[i := SyncedChan(net.links[i], s.chans[i], sim.clock)];
  }

  lemma BothSync(net: Net, clock: nat, ch: Chan)
    requires IsPair(net)
    requires Reachable(net, Both(clock, Syncing(0), ch))
    requires SyncDue(net.links[0], ch, clock) ==> |ch.queue| < net.links[0].capacity
    ensures Reachable(net, Both(clock, Polling, SyncedChan(net.links[0], ch, clock)))
  {
    var s := Both(clock, Syncing(0), ch);
    var ch' := SyncedChan(net.links[0], ch, clock);
    PairSync(net, s, 0);
    var s1 := State(s.sims[0 := Sim(clock, Polling, Blank)], s.chans[0 := ch']);
    PairSync(net, s1, 1);
    assert ch' == SyncedChan(net.links[1], ch, clock);
    assert State(s1.sims[1 := Sim(clock, Polling, Blank)], s1.chans[1 := ch']) == Both(clock, Polling, ch');
  }

  lemma BothPoll(net: Net, clock: nat, ch: Chan)
    requires IsPair(net)
    requires Reachable(net, Both(clock, Polling, ch))
    ensures Reachable(net, Both(clock, Polling, Receive(ch, clock)))
  {
    var s, ch' := Both(clock, Polling, ch), Receive(ch, clock);
    ReachableStep(net, s, Poll(0, []));
    var s1 := Apply(net, s, Poll(0, []));
    ReachableStep(net, s1, Poll(1, []));
    assert Apply(net, s1, Poll(1, [])) == Both(clock, Polling, ch');
  }

  lemma PairNext(net: Net, s: State, i: nat)
    requires IsPair(net)
    requires Shaped(net, s) && i < 2 && s.sims[i].agenda.events == []
    ensures NextTimestamp(net, s, i)
            == Min(Min(s.sims[i].clock + MAX_STEP, s.chans[1 - i].inTs), s.chans[i].outTs + net.links[0].interval)
  {
    var b := s.sims[i].clock + MAX_STEP;
    assert LinkBound(net, s, i, 0, b) == b;
    var r1 := LinkBound(net, s, i, 1, b);
    assert LinkBound(net, s, i, 2, b) == NextTimestamp(net, s, i);
  }

  lemma BothAdvance(net: Net, clock: nat, ch: Chan)
    requires IsPair(net)
    requires Reachable(net, Both(clock, Polling, ch))
    requires clock < ch.inTs <= ch.outTs + net.links[0].interval
    ensures Reachable(net, Both(Min(clock + MAX_STEP, ch.inTs), Syncing(0), ch))
  {
    var s, next := Both(clock, Polling, ch), Min(clock + MAX_STEP, ch.inTs);
    OneAdvance(net, s, 0, next);
    var s1 := State(s.sims[0 := Sim(next, Syncing(0), Blank)], s.chans);
    OneAdvance(net, s1, 1, next);
    assert s1.sims[1 := Sim(next, Syncing(0), Blank)] == [Sim(next, Syncing(0), Blank), Sim(next, Syncing(0), Blank)];
  }

  lemma OneAdvance(net: Net, s: State, i: nat, next: nat)
    requires IsPair(net) && Reachable(net, s) && |s.sims| == |s.chans| == 2 && i < 2
    requires s.sims[i].phase.Polling? && s.sims[i].agenda == Blank
    requires s.sims[i].clock < s.chans[1 - i].inTs <= s.chans[i].outTs + net.links[0].interval
    requires next == Min(s.sims[i].clock + MAX_STEP, s.chans[1 - i].inTs)
    ensures Reachable(net, State(s.sims[i := Sim(next, Syncing(0), Blank)], s.chans))
  {
    PairNext(net, s, i);
    ReachableStep(net, s, Advance(i));
  }

  // Step by step to the next incoming stamp, with no SYNC due on the way.
  lemma {:induction false} WalkToStamp(net: Net, clock: nat, ch: Chan)
    requires IsPair(net) && Reachable(net, Both(clock, Polling, ch))
    requires clock <= ch.inTs < ch.outTs + net.links[0].interval && ch.outTs > 0
    ensures Reachable(net, Both(ch.inTs, Polling, ch))
    decreases ch.inTs - clock
  {
    if clock < ch.inTs {
      var next := Min(clock + MAX_STEP, ch.inTs);
      BothAdvance(net, clock, ch);
      BothSync(net, next, ch);
      WalkToStamp(net, next, ch);
    }
  }

  // Every step leaves the state as it is.
  ghost predicate Stuck(net: Net, s: State)
    requires Shaped(net, s)
  {
    forall a: Action :: Enabled(net, s, a) ==> Apply(net, s, a) == s
  }

  ghost predicate SameClocks(s: State, t: State) {
    |s.sims| == |t.sims| && forall i :: 0 <= i < |s.sims| ==> s.sims[i].clock == t.sims[i].clock
  }

  /** Whatever steps are taken and whatever handlers do, no clock ever moves again. */
  ghost predicate Frozen(net: Net, s: State)
    requires Shaped(net, s)
  {
    forall acts, t :: Leads(net, s, acts, t) ==> SameClocks(s, t)
  }

  lemma StuckIsFrozen(net: Net, s: State)
    requires Shaped(net, s) && Stuck(net, s)
    ensures Frozen(net, s)
  {
    forall acts, t | Leads(net, s, acts, t) ensures SameClocks(s, t) {
      StuckStays(net, s, acts, t);
    }
  }

  lemma {:induction false} StuckStays(net: Net, s: State, acts: seq<Action>, t: State)
    requires Shaped(net, s) && Stuck(net, s) && Leads(net, s, acts, t)
    ensures t == s
    decreases acts
  {
    if acts != [] {
      StuckStays(net, s, acts[1..], t);
    }
  }

  // The link after both simulators have sent at 0 and looked at the stamp.
  function FirstRound(l: nat): Chan {
    Chan([Msg(l, 0, SyncBody)], l, 0, [Msg(l, 0, SyncBody)], [])
  }

  // The link after both have sent once more, at x.
  function SecondSend(l: nat, x: nat): Chan {
    var m1, m2 := Msg(l, 0, SyncBody), Msg(x + l, x, SyncBody);
    Chan([m1, m2], l, x, [m1, m2], [])
  }

  // The link after both have read the first stamp and looked at the second.
  function SecondRound(l: nat, x: nat): Chan {
    var m1, m2 := Msg(l, 0, SyncBody), Msg(x + l, x, SyncBody);
    Chan([m2], x + l, x, [m1, m2], [Delivery(m1, l)])
  }

  // A link that last sent at 0 counts as one that never sent: both send again at the
  // end of their first step.
  lemma ReachSecondSend(net: Net, l: nat, x: nat)
    requires IsPair(net) && l == net.links[0].latency && 0 < l < net.links[0].interval && x == Min(MAX_STEP, l)
    requires net.links[0].capacity >= 2
    ensures Reachable(net, Both(x, Polling, SecondSend(l, x)))
  {
    ReachFirstRound(net, l);
    BothAdvance(net, 0, FirstRound(l));
    BothSync(net, x, FirstRound(l));
    assert SyncedChan(net.links[0], FirstRound(l), x) == SecondSend(l, x);
  }

  lemma ReachFirstRound(net: Net, l: nat)
    requires IsPair(net) && l == net.links[0].latency && 0 < l && net.links[0].capacity >= 1
    ensures Reachable(net, Both(0, Polling, FirstRound(l)))
  {
    var ch0, ch1 := Chan([], 0, 0, [], []), FirstRound(l).(inTs := 0);
    AtStart(net, []);
    BothSync(net, 0, ch0);
    assert ch1 == SyncedChan(net.links[0], ch0, 0);
    BothPoll(net, 0, ch1);
    assert Receive(ch1, 0) == FirstRound(l);
  }

  lemma ReachSecondRound(net: Net, l: nat, x: nat)
    requires IsPair(net) && l == net.links[0].latency && 0 < l < net.links[0].interval && x == Min(MAX_STEP, l)
    requires net.links[0].capacity >= 2
    ensures Reachable(net, Both(x + l, Polling, SecondRound(l, x)))
  {
    ReachSecondSend(net, l, x);
    WalkToStamp(net, x, SecondSend(l, x));
    BothRead(net, l, x);
    WalkToStamp(net, l, SecondRound(l, x));
  }

  lemma BothRead(net: Net, l: nat, x: nat)
    requires IsPair(net) && 0 < x && Reachable(net, Both(l, Polling, SecondSend(l, x)))
    ensures Reachable(net, Both(l, Polling, SecondRound(l, x)))
  {
    BothPoll(net, l, SecondSend(l, x));
    var ch := SecondRound(l, x).(inTs := l);
    assert ch == Receive(SecondSend(l, x), l);
    BothPoll(net, l, ch);
    assert Receive(ch, l) == SecondRound(l, x);
  }

  lemma WaitingIsStuck(net: Net, clock: nat, ch: Chan)
    requires IsPair(net) && Receive(ch, clock) == ch
    requires ch.inTs <= clock || ch.outTs + net.links[0].interval <= clock
    ensures Stuck(net, Both(clock, Polling, ch))
  {
    var s := Both(clock, Polling, ch);
    PairNext(net, s, 0);
    PairNext(net, s, 1);
    forall a: Action | Enabled(net, s, a) ensures Apply(net, s, a) == s {
      OnlyPolls(net, clock, ch, a);
    }
  }

  // The one thing both can do is look at the queue again.
  lemma OnlyPolls(net: Net, clock: nat, ch: Chan, a: Action)
    requires IsPair(net) && Receive(ch, clock) == ch && !a.Advance? && Enabled(net, Both(clock, Polling, ch), a)
    ensures Apply(net, Both(clock, Polling, ch), a) == Both(clock, Polling, ch)
  {
    var s := Both(clock, Polling, ch);
    assert s.chans[0 := ch] == s.chans && s.chans[1 := ch] == s.chans;
    assert s.sims[0 := Sim(clock, Polling, Blank)] == s.sims && s.sims[1 := Sim(clock, Polling, Blank)] == s.sims;
    assert Delivers(ch, clock) ==> |Receive(ch, clock).queue| < |ch.queue|;
  }

  /** An interval above the latency: two idle simulators come to a state in which neither
      ever moves. */
  lemma LongIntervalFreezes(latency: nat, interval: nat, capacity: nat) returns (s: State)
    requires 0 < latency < interval && capacity >= 2
    ensures Reachable(Pair(latency, interval, capacity), s) && Shaped(Pair(latency, interval, capacity), s)
    ensures Stuck(Pair(latency, interval, capacity), s) && s.sims[0].phase.Polling? && s.sims[1].phase.Polling?
  {
    var net, x := Pair(latency, interval, capacity), Min(MAX_STEP, latency);
    var clock, ch := x + latency, SecondRound(latency, x);
    // less than an interval after the last send: nobody sends, both wait
    ReachSecondRound(net, latency, x);
    BothPoll(net, clock, ch);
    var waiting := Receive(ch, clock);
    WaitingIsStuck(net, clock, waiting);
    s := Both(clock, Polling, waiting);
  }

  /** Without latency, or with interval 0, they do not even leave time 0. */
  lemma ZeroFreezes(latency: nat, interval: nat, capacity: nat) returns (s: State)
    requires (latency == 0 || interval == 0) && capacity >= 1
    ensures Reachable(Pair(latency, interval, capacity), s) && Shaped(Pair(latency, interval, capacity), s)
    ensures Stuck(Pair(latency, interval, capacity), s) && s.sims[0].phase.Polling? && s.sims[1].phase.Polling?
  {
    var net, ch0 := Pair(latency, interval, capacity), Chan([], 0, 0, [], []);
    AtStart(net, []);
    BothSync(net, 0, ch0);
    var ch1 := SyncedChan(net.links[0], ch0, 0);
    BothPoll(net, 0, ch1);
    var ch2 := Receive(ch1, 0);
    WaitingIsStuck(net, 0, ch2);
    s := Both(0, Polling, ch2);
  }

  // ------------------------------------------------------------------ full queues

  /** A set of simulators each of which needs room, for a SYNC or in a handler, in a queue
      whose reader is one of them. */
  ghost predicate JamSet(net: Net, s: State, J: set<nat>)
    requires net.Valid() && Shaped(net, s)
  {
    forall i {:trigger JamSim(net, s, J, i)} :: i in J ==> JamSim(net, s, J, i)
  }

  ghost predicate JamSim(net: Net, s: State, J: set<nat>, i: nat)
    requires net.Valid() && Shaped(net, s)
  {
    i < net.size && exists c :: JamLink(net, s, J, i, c)
  }

  ghost predicate JamLink(net: Net, s: State, J: set<nat>, i: nat, c: int)
    requires net.Valid() && Shaped(net, s)
  {
    0 <= c < |net.links| && net.links[c].src == i && net.links[c].dst in J && !HasRoom(net, s, c)
  }

  ghost predicate SameClocksOf(s: State, t: State, J: set<nat>) {
    forall i :: i in J && i < |s.sims| ==> i < |t.sims| && s.sims[i].clock == t.sims[i].clock
  }

  // A handler that needs more room than there is never gets to its end.
  lemma HandlerStaysJammed(net: Net, s: State, i: nat, c: nat)
    requires net.Valid() && Shaped(net, s) && Enabled(net, s, HandlerStep(i)) && PhaseOk(net, i, s.sims[i].phase)
    requires c < |net.links| && net.links[c].src == i && |s.chans[c].queue| <= net.links[c].capacity && !HasRoom(net, s, c)
    ensures !HasRoom(net, HandleOne(net, s, i), c)
  {
    var ops := s.sims[i].phase.ops;
    assert SendsOn(ops, c) == (if ops[0].Send? && ops[0].link == c then 1 else 0) + SendsOn(ops[1..], c);
  }

  // A SYNC that finds no room is tried again, from the first link on.
  lemma SyncStaysJammed(net: Net, s: State, i: nat, c: nat)
    requires net.Valid() && Shaped(net, s) && Enabled(net, s, SyncStep(i)) && PhaseOk(net, i, s.sims[i].phase)
    requires c < |net.links| && net.links[c].src == i && !HasRoom(net, s, c)
    ensures !HasRoom(net, SyncOne(net, s, i), c)
  {
    var t := SyncOne(net, s, i);
    assert t.chans[c] == s.chans[c];
  }

  // A step of anyone else changes neither the sender nor a link that is not polled.
  lemma OthersLeaveIt(net: Net, s: State, a: Action, i: nat, c: nat)
    requires net.Valid() && Inv(net, s) && Enabled(net, s, a) && Actor(net, a) != i
    requires c < |net.links| && net.links[c].src == i && !s.sims[net.links[c].dst].phase.Polling?
    ensures Apply(net, s, a).sims[i] == s.sims[i] && Apply(net, s, a).chans[c] == s.chans[c]
  {
    if a.HandlerStep? {
      assert PhaseOk(net, a.i, s.sims[a.i].phase);
    }
  }

  lemma JamLinkStays(net: Net, s: State, a: Action, J: set<nat>, i: nat, c: nat)
    requires net.Valid() && Inv(net, s) && Enabled(net, s, a) && JamLink(net, s, J, i, c)
    requires !s.sims[net.links[c].dst].phase.Polling?
    ensures JamLink(net, Apply(net, s, a), J, i, c) && Apply(net, s, a).sims[i].clock == s.sims[i].clock
  {
    assert ChanOk(net, s, c) && PhaseOk(net, i, s.sims[i].phase);
    if a == HandlerStep(i) {
      HandlerStaysJammed(net, s, i, c);
    } else if a == SyncStep(i) {
      SyncStaysJammed(net, s, i, c);
    } else {
      OthersLeaveIt(net, s, a, i, c);
    }
  }

  lemma OneStaysJammed(net: Net, s: State, a: Action, J: set<nat>, i: nat)
    requires net.Valid() && Inv(net, s) && JamSet(net, s, J) && Enabled(net, s, a) && i in J
    ensures JamSim(net, Apply(net, s, a), J, i)
    ensures i < net.size && Apply(net, s, a).sims[i].clock == s.sims[i].clock
  {
    assert JamSim(net, s, J, i);
    var c :| JamLink(net, s, J, i, c);
    var d := net.links[c].dst;
    assert JamSim(net, s, J, d);
    var e :| JamLink(net, s, J, d, e);
    JamLinkStays(net, s, a, J, i, c);
  }

  lemma JamStays(net: Net, s: State, a: Action, J: set<nat>)
    requires net.Valid() && Inv(net, s) && JamSet(net, s, J) && Enabled(net, s, a)
    ensures JamSet(net, Apply(net, s, a), J) && SameClocksOf(s, Apply(net, s, a), J)
  {
    var t := Apply(net, s, a);
    forall i | i in J ensures JamSim(net, t, J, i) && i < net.size && t.sims[i].clock == s.sims[i].clock {
      OneStaysJammed(net, s, a, J, i);
    }
  }

  /** In any network, simulators that need room in each other's queues wait for ever: whatever
      steps are taken, their clocks never move again. */
  lemma {:induction false} JamIsForEver(net: Net, s: State, acts: seq<Action>, t: State, J: set<nat>)
    requires net.Valid() && Inv(net, s) && JamSet(net, s, J) && Leads(net, s, acts, t)
    ensures SameClocksOf(s, t, J)
    decreases acts
  {
    if acts != [] {
      JamStays(net, s, acts[0], J);
      StepKeeps(net, s, acts[0]);
      JamIsForEver(net, Apply(net, s, acts[0]), acts[1..], t, J);
    }
  }

  /** In any network with 0 < interval <= latency a standstill of all clocks takes a simulator
      at the least clock that needs room which is not there. */
  lemma FrozenNeedsJam(net: Net, s: State, i: nat)
    requires net.Valid() && net.Live() && Reachable(net, s) && Shaped(net, s) && Least(s, i) && Frozen(net, s)
    ensures exists c :: 0 <= c < |net.links| && s.sims[net.links[c].src].clock == s.sims[i].clock && !HasRoom(net, s, c)
  {
    if Unjammed(net, s, s.sims[i].clock) {
      UnjammedMoves(net, s, i);
    }
  }

  lemma UnjammedMoves(net: Net, s: State, i: nat)
    requires net.Valid() && net.Live() && Reachable(net, s) && Shaped(net, s) && Least(s, i)
    requires Unjammed(net, s, s.sims[i].clock)
    ensures !Frozen(net, s)
  {
    var t := LeastCanAdvance(net, s, i);
    var acts :| Leads(net, s, acts, t) && IdleActs(acts);
    assert !SameClocks(s, t);
  }

  // ------------------------------------------------------------ full queues of a pair

  // Simulator i needs room for a SYNC, or more room for its handler than there is.
  ghost predicate Jammed(net: Net, s: State, i: nat)
    requires IsPair(net) && Shaped(net, s) && i < 2
  {
    !HasRoom(net, s, i)
  }

  ghost predicate BothJammed(net: Net, s: State)
    requires IsPair(net) && Shaped(net, s)
  {
    Jammed(net, s, 0) && Jammed(net, s, 1)
  }

  lemma BothAreJamSet(net: Net, s: State)
    requires IsPair(net) && Shaped(net, s) && BothJammed(net, s)
    ensures JamSet(net, s, {0, 1})
  {
    assert JamLink(net, s, {0, 1}, 0, 0) && JamLink(net, s, {0, 1}, 1, 1);
    assert JamSim(net, s, {0, 1}, 0) && JamSim(net, s, {0, 1}, 1);
  }

  // A handler that sends k messages on link c.
  function Burst(c: nat, k: nat): seq<Op> {
    seq(k, _ => Send(c, 0))
  }

  lemma {:induction false} BurstSends(c: nat, k: nat)
    ensures SendsOn(Burst(c, k), c) == k
  {
    if k > 0 {
      BurstSends(c, k - 1);
      assert Burst(c, k)[1..] == Burst(c, k - 1);
    }
  }

  // A single event, at time 0.
  const AtZero: seq<Request> := [Request(0, 0)]

  // Both simulators with these events, polling at time 0 after their first SYNC.
  function Polls(l: nat, events: seq<Request>): State {
    var sim := Sim(0, Polling, ScheduleAll(events, 0));
    State([sim, sim], [FirstRound(l), FirstRound(l)])
  }

  lemma ReachPolls(net: Net, events: seq<Request>)
    requires IsPair(net) && net.Live() && net.links[0].capacity >= 1
    ensures Reachable(net, Polls(net.links[0].latency, events))
  {
    var l, ch0 := net.links[0].latency, Chan([], 0, 0, [], []);
    var sim0 := Sim(0, Syncing(0), ScheduleAll(events, 0));
    var sim1 := sim0.(phase := Polling);
    var s := State([sim0, sim0], [ch0, ch0]);
    var ch1 := FirstRound(l).(inTs := 0);
    AtStart(net, events);
    assert ch1 == SyncedChan(net.links[0], ch0, 0);
    PairSync(net, s, 0);
    var s1 := State(s.sims[0 := sim1], s.chans[0 := ch1]);
    PairSync(net, s1, 1);
    var s2 := State([sim1, sim1], [ch1, ch1]);
    assert State(s1.sims[1 := sim1], s1.chans[1 := ch1]) == s2;
    ReachableStep(net, s2, Poll(0, []));
    var s3 := Apply(net, s2, Poll(0, []));
    ReachableStep(net, s3, Poll(1, []));
    assert Apply(net, s3, Poll(1, [])) == Polls(l, events);
  }

  lemma OneEvent()
    ensures Due(ScheduleAll(AtZero, 0), 0) && |ScheduleAll(AtZero, 0).events| == 1
  {
    assert ScheduleAll(AtZero[..0], 0) == Blank;
  }

  /** Handlers can jam: both devices have an event at time 0 whose handler sends as many
      messages as a queue holds, behind the first SYNC. */
  lemma HandlersCanJam(net: Net) returns (s: State)
    requires IsPair(net) && net.Live() && net.links[0].capacity >= 1
    ensures Reachable(net, s) && Shaped(net, s) && BothJammed(net, s)
    ensures s.sims[0].phase.Handling? && s.sims[1].phase.Handling?
  {
    var l, cap := net.links[0].latency, net.links[0].capacity;
    var s0 := Polls(l, AtZero);
    ReachPolls(net, AtZero);
    BurstSends(0, cap);
    BurstSends(1, cap);
    OneEvent();
    ReachableStep(net, s0, Trigger(0, Burst(0, cap)));
    var s1 := Apply(net, s0, Trigger(0, Burst(0, cap)));
    ReachableStep(net, s1, Trigger(1, Burst(1, cap)));
    s := Apply(net, s1, Trigger(1, Burst(1, cap)));
  }

  // The handler of simulator i sends its last k messages, all of which fit.
  lemma {:induction false} BurstDone(net: Net, s: State, i: nat, k: nat) returns (t: State)
    requires IsPair(net) && Reachable(net, s) && Shaped(net, s) && i < 2 && |s.chans[i].queue| + k <= net.links[0].capacity
    requires s.sims[i].phase == Doing(Burst(i, k)) && s.chans[i].queue != []
    ensures Reachable(net, t) && Shaped(net, t) && |t.chans[i].queue| == |s.chans[i].queue| + k
    ensures t.sims == s.sims[i := s.sims[i].(phase := Polling)] && t.chans[1 - i] == s.chans[1 - i]
    ensures t.chans[i].inTs == s.chans[i].inTs
    ensures t.chans[i].outTs == if k == 0 then s.chans[i].outTs else s.sims[i].clock
    decreases k
  {
    if k == 0 {
      assert s.sims == s.sims[i := s.sims[i].(phase := Polling)];
      t := s;
    } else {
      ReachableStep(net, s, HandlerStep(i));
      var s1 := Apply(net, s, HandlerStep(i));
      assert Burst(i, k)[1..] == Burst(i, k - 1);
      t := BurstDone(net, s1, i, k - 1);
      assert s1.sims[i := s1.sims[i].(phase := Polling)] == s.sims[i := s.sims[i].(phase := Polling)];
    }
  }

  /** SYNCs can jam: the handlers just fill both queues, and the next SYNC is due before
      anything is read. */
  lemma SyncsCanJam(net: Net) returns (s: State)
    requires IsPair(net) && net.Live() && net.links[0].capacity >= 1
    ensures Reachable(net, s) && Shaped(net, s) && BothJammed(net, s)
    ensures s.sims[0].phase.Syncing? && s.sims[1].phase.Syncing?
  {
    var now := FullQueues(net);
    s := FirstDeadline(net, now);
  }

  lemma FullQueues(net: Net) returns (s: State)
    requires IsPair(net) && net.Live() && net.links[0].capacity >= 1
    ensures Reachable(net, s) && Shaped(net, s)
    ensures Filled(net, s, 0) && Filled(net, s, 1)
  {
    var k := net.links[0].capacity - 1;
    ReachPolls(net, AtZero);
    OneEvent();
    var s1 := HandlerSends(net, Polls(net.links[0].latency, AtZero), 0, k);
    s := HandlerSends(net, s1, 1, k);
  }

  // The simulator has nothing to do, and its queue is full.
  ghost predicate Filled(net: Net, s: State, i: nat)
    requires IsPair(net) && Shaped(net, s) && i < 2
  {
    && AtRest(s.sims[i]) && s.chans[i].outTs == 0 && s.chans[i].inTs == net.links[0].latency
    && |s.chans[i].queue| >= net.links[0].capacity
  }

  // At time 0, with no event left.
  predicate AtRest(sim: Sim) {
    sim.clock == 0 && sim.phase.Polling? && sim.agenda.events == []
  }

  // The event of simulator i at time 0 sends k messages, all of which fit.
  lemma HandlerSends(net: Net, s: State, i: nat, k: nat) returns (t: State)
    requires IsPair(net) && Reachable(net, s) && Shaped(net, s) && i < 2
    requires s.sims[i].clock == 0 && s.sims[i].phase.Polling? && Due(s.sims[i].agenda, 0) && |s.sims[i].agenda.events| == 1
    requires |s.chans[i].queue| + k == net.links[0].capacity
    requires s.chans[i].queue != [] && s.chans[i].outTs == 0
    ensures Reachable(net, t) && Shaped(net, t) && AtRest(t.sims[i])
    ensures t.sims[1 - i] == s.sims[1 - i]
    ensures t.chans[1 - i] == s.chans[1 - i] && t.chans[i].outTs == 0 && t.chans[i].inTs == s.chans[i].inTs
    ensures |t.chans[i].queue| == net.links[0].capacity
  {
    var a := Trigger(i, Burst(i, k));
    ReachableStep(net, s, a);
    var s1 := Apply(net, s, a);
    t := BurstDone(net, s1, i, k);
  }

  lemma FirstDeadline(net: Net, now: State) returns (s: State)
    requires IsPair(net) && net.Live() && Reachable(net, now) && Shaped(net, now)
    requires Filled(net, now, 0) && Filled(net, now, 1)
    ensures Reachable(net, s) && Shaped(net, s) && BothJammed(net, s)
    ensures s.sims[0].phase.Syncing? && s.sims[1].phase.Syncing?
  {
    PairNext(net, now, 0);
    ReachableStep(net, now, Advance(0));
    var s1 := Apply(net, now, Advance(0));
    PairNext(net, s1, 1);
    ReachableStep(net, s1, Advance(1));
    s := Apply(net, s1, Advance(1));
  }

  // What simulator o has left to do at its clock, its incoming link i included.
  function OwnWork(s: State, o: nat, i: nat): nat
    requires o < |s.sims| && i < |s.chans|
  {
    SimWork(2, s.sims[o], s.sims[o].clock) + ChanWork(s.chans[i], s.sims[o].clock)
  }

  // The operations a handler has left.
  function OpsLeft(s: State, i: nat): nat
    requires i < |s.sims|
  {
    if s.sims[i].phase.Handling? then |s.sims[i].phase.ops| else 0
  }

  // One simulator needs room, the other does not: the other has a step that uses up its
  // work, or it can advance, or it has to wait for what the first one can still send.
  lemma OtherSteps(net: Net, s: State, i: nat) returns (a: Action)
    requires IsPair(net) && net.Live() && net.links[0].capacity >= 1 && Reachable(net, s) && i < 2
    requires Shaped(net, s) && Jammed(net, s, i) && !Jammed(net, s, 1 - i)
    ensures Enabled(net, s, a) && Started(a) == []
    ensures var t := Apply(net, s, a);
            a != Advance(1 - i) ==> SameClocks(s, t) && !Jammed(net, t, 1 - i) && Closer(s, t, i)
  {
    ReachableInv(net, s);
    var o := 1 - i;
    var sim := s.sims[o];
    assert PhaseOk(net, o, sim.phase) && PhaseOk(net, i, s.sims[i].phase);
    if sim.phase.Syncing? {
      a := SyncStep(o);
      OtherSyncs(net, s, i);
    } else if sim.phase.Handling? {
      a := HandlerStep(o);
      OtherHandles(net, s, i);
    } else if s.chans[i].inTs <= sim.clock && s.chans[i].queue != [] {
      a := Poll(i, []);
      OtherPolls(net, s, i);
    } else if s.chans[i].inTs <= sim.clock {
      a := HandlerStep(i);
      FirstSends(net, s, i);
    } else if Due(sim.agenda, sim.clock) {
      a := Trigger(o, []);
      OtherTriggers(net, s, i);
    } else {
      CanAdvance(net, s, o);
      a := Advance(o);
    }
  }

  lemma FirstSends(net: Net, s: State, i: nat)
    requires IsPair(net) && Inv(net, s) && i < 2 && Jammed(net, s, i) && s.chans[i].queue == [] && net.links[0].capacity >= 1
    requires s.sims[1 - i].phase.Polling?
    ensures Enabled(net, s, HandlerStep(i))
    ensures var t := HandleOne(net, s, i); SameClocks(s, t) && !Jammed(net, t, 1 - i) && Closer(s, t, i)
  {
    assert PhaseOk(net, i, s.sims[i].phase);
  }

  lemma OtherTriggers(net: Net, s: State, i: nat)
    requires IsPair(net) && Inv(net, s) && i < 2 && Enabled(net, s, Trigger(1 - i, []))
    ensures var t := Apply(net, s, Trigger(1 - i, [])); SameClocks(s, t) && !Jammed(net, t, 1 - i) && Closer(s, t, i)
  {
  }

  predicate Closer(s: State, t: State, i: nat)
    requires i < 2 && |s.sims| == |t.sims| == |s.chans| == |t.chans| == 2
  {
    || OpsLeft(t, i) < OpsLeft(s, i)
    || (OpsLeft(t, i) == OpsLeft(s, i) && OwnWork(t, 1 - i, i) < OwnWork(s, 1 - i, i))
  }

  lemma OtherSyncs(net: Net, s: State, i: nat)
    requires IsPair(net) && Inv(net, s) && i < 2 && !Jammed(net, s, 1 - i) && s.sims[1 - i].phase.Syncing?
    ensures Enabled(net, s, SyncStep(1 - i))
    ensures var t := SyncOne(net, s, 1 - i);
            SameClocks(s, t) && !Jammed(net, t, 1 - i) && Closer(s, t, i)
  {
    var o := 1 - i;
    var t := SyncOne(net, s, o);
    assert PhaseOk(net, o, s.sims[o].phase);
    assert t.chans[i] == s.chans[i];
  }

  lemma OtherHandles(net: Net, s: State, i: nat)
    requires IsPair(net) && Inv(net, s) && i < 2 && !Jammed(net, s, 1 - i) && s.sims[1 - i].phase.Handling?
    ensures Enabled(net, s, HandlerStep(1 - i))
    ensures var t := HandleOne(net, s, 1 - i);
            SameClocks(s, t) && !Jammed(net, t, 1 - i) && Closer(s, t, i)
  {
    var o := 1 - i;
    var ops := s.sims[o].phase.ops;
    assert PhaseOk(net, o, s.sims[o].phase);
    assert SendsOn(ops, o) == (if ops[0].Send? && ops[0].link == o then 1 else 0) + SendsOn(ops[1..], o);
    if ops[0].Ask? {
      ScheduleDue(s.sims[o].agenda, ops[0].req, s.sims[o].clock, s.sims[o].clock);
    }
    assert HandleOne(net, s, o).chans[i] == s.chans[i];
  }

  lemma OtherPolls(net: Net, s: State, i: nat)
    requires IsPair(net) && Inv(net, s) && i < 2 && s.sims[1 - i].phase.Polling?
    requires s.chans[i].queue != [] && s.chans[i].inTs <= s.sims[1 - i].clock
    ensures Enabled(net, s, Poll(i, []))
    ensures var t := Apply(net, s, Poll(i, []));
            SameClocks(s, t) && !Jammed(net, t, 1 - i) && Closer(s, t, i)
  {
    assert ChanOk(net, s, i);
    var dst := s.sims[1 - i].clock;
    ReceiveWork(net.links[i], s.chans[i], s.sims[i].clock, dst, dst);
    PollChanges(net.links[i], s.chans[i], s.sims[i].clock, dst);
  }

  lemma PollChanges(l: Link, ch: Chan, src: nat, dst: nat)
    requires ClockInv(l, ch, src, dst) && ch.queue != [] && ch.inTs <= dst
    ensures Receive(ch, dst) != ch
  {
    assert |ch.queue[1..]| < |ch.queue|;
  }

  /** Unless both need room, some clock can still move, without any new work for handlers. */
  lemma {:induction false} SomeClockMoves(net: Net, s: State) returns (t: State)
    requires IsPair(net) && net.Live() && net.links[0].capacity >= 1
    requires Reachable(net, s) && Shaped(net, s) && !BothJammed(net, s)
    ensures Idles(net, s, t) && !SameClocks(s, t)
    decreases Jammed(net, s, 0) || Jammed(net, s, 1),
              if Jammed(net, s, 0) then OpsLeft(s, 0) else OpsLeft(s, 1),
              if Jammed(net, s, 0) then OwnWork(s, 1, 0) else OwnWork(s, 0, 1)
  {
    if !Jammed(net, s, 0) && !Jammed(net, s, 1) {
      var i := if s.sims[0].clock <= s.sims[1].clock then 0 else 1;
      NoneJammed(net, s, s.sims[i].clock);
      t := LeastCanAdvance(net, s, i);
    } else {
      var i := if Jammed(net, s, 0) then 0 else 1;
      var a := OtherSteps(net, s, i);
      var s1 := Apply(net, s, a);
      ReachableStep(net, s, a);
      if a == Advance(1 - i) {
        t := s1;
        IdlesRefl(net, t);
      } else {
        t := SomeClockMoves(net, s1);
      }
      IdlesStep(net, s, a, t);
    }
  }

  lemma NoneJammed(net: Net, s: State, clock: nat)
    requires IsPair(net) && Shaped(net, s) && !Jammed(net, s, 0) && !Jammed(net, s, 1)
    ensures Unjammed(net, s, clock)
  {
  }

  /** With 0 < interval <= latency two linked simulators stop for ever exactly in the states
      in which both need room in their queues that is not there: for a SYNC that is due, or
      for the messages of a handler. */
  lemma FrozenIffJammed(net: Net, s: State)
    requires IsPair(net) && net.Live() && net.links[0].capacity >= 1 && Reachable(net, s) && Shaped(net, s)
    ensures Frozen(net, s) <==> BothJammed(net, s)
  {
    if BothJammed(net, s) {
      JamFreezes(net, s);
    } else {
      MovingIsNotFrozen(net, s);
    }
  }

  lemma JamFreezes(net: Net, s: State)
    requires IsPair(net) && Reachable(net, s) && Shaped(net, s) && BothJammed(net, s)
    ensures Frozen(net, s)
  {
    ReachableInv(net, s);
    BothAreJamSet(net, s);
    forall acts, t | Leads(net, s, acts, t) ensures SameClocks(s, t) {
      JamIsForEver(net, s, acts, t, {0, 1});
      LeadsShaped(net, s, acts, t);
      assert 0 in {0, 1} && 1 in {0, 1};
    }
  }

  lemma MovingIsNotFrozen(net: Net, s: State)
    requires IsPair(net) && net.Live() && net.links[0].capacity >= 1 && Reachable(net, s) && Shaped(net, s)
    requires !BothJammed(net, s)
    ensures !Frozen(net, s)
  {
    var t := SomeClockMoves(net, s);
    var acts :| Leads(net, s, acts, t) && IdleActs(acts);
  }

  lemma {:induction false} LeadsShaped(net: Net, s: State, acts: seq<Action>, t: State)
    requires Shaped(net, s) && Leads(net, s, acts, t)
    ensures Shaped(net, t)
    decreases acts
  {
    if acts != [] {
      LeadsShaped(net, Apply(net, s, acts[0]), acts[1..], t);
    }
  }

  // Whatever happens, the pair only stops when both need room in their queues.
  ghost predicate KeepsRunning(net: Net)
    requires IsPair(net)
  {
    forall s :: s in Reached(net) && Shaped(net, s) && !BothJammed(net, s) ==> !Frozen(net, s)
  }

  /** The condition on the sync interval is exact.  (With queues of one entry both are full
      from the first step on.) */
  lemma KeepsRunningIff(latency: nat, interval: nat, capacity: nat)
    requires capacity >= 2
    ensures KeepsRunning(Pair(latency, interval, capacity)) <==> 0 < interval <= latency
  {
    var net := Pair(latency, interval, capacity);
    if 0 < interval <= latency {
      forall s | s in Reached(net) && Shaped(net, s) && !BothJammed(net, s) ensures !Frozen(net, s) {
        FrozenIffJammed(net, s);
      }
    } else {
      var s;
      if latency == 0 || interval == 0 {
        s := ZeroFreezes(latency, interval, capacity);
      } else {
        s := LongIntervalFreezes(latency, interval, capacity);
      }
      StuckIsFrozen(net, s);
      assert s in Reached(net) && !BothJammed(net, s) && Frozen(net, s);
    }
  }
}
