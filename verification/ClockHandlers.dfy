/**
  What the handlers of a run ask for, and what becomes of it.

  The handlers are read off the actions of the run.  What they send is what is sent on the
  links, in their order; the events they ask for, after those of the set-up, are the events
  that are scheduled; and every event fires on time.
 */
module ClockHandlers {
  import opened Wrappers
  import opened TimedEvents
  import opened ClockSync

  /** Timed events.  In every run an event fires exactly at its time, or at once if that had
      passed when it was scheduled.  Of two events that were pending together the earlier
      fires first; if both have the same time, the one with the lower priority value; if
      they have that in common too, the one scheduled first.  No clock passes an event that
      is still pending, and every event scheduled is either pending or has fired, once. */
  lemma EventsOnTime(net: Net, events: seq<seq<Request>>, acts: seq<Action>, t: State, i: nat)
    requires net.Valid() && |events| == net.size && Leads(net, Init(net, events), acts, t) && i < net.size
    ensures Shaped(net, t)
    ensures var a := t.sims[i].agenda;
            && (forall k :: 0 <= k < |a.fired| ==>
                  var e := a.fired[k].timer;
                  a.fired[k].at == if e.since <= e.req.time then e.req.time else e.since)
            && (forall j, k :: 0 <= j < k < |a.fired| && a.fired[k].timer.born <= j ==>
                  var d, e := a.fired[j].timer, a.fired[k].timer;
                  && d.req.time <= e.req.time
                  && (d.req.time == e.req.time ==> d.req.priority <= e.req.priority)
                  && (d.req == e.req ==> d.id < e.id))
            && (forall k :: 0 <= k < |a.events| ==>
                  var e := a.events[k];
                  e.since <= t.sims[i].clock && (t.sims[i].clock <= e.req.time || t.sims[i].clock == e.since))
            && (forall k :: 0 <= k < |a.made| ==> a.made[k].id == k)
            && multiset(a.made) == multiset(a.events) + multiset(Timers(a.fired))
  {
    InitInv(net, events);
    LeadsKeeps(net, Init(net, events), acts, t);
    assert AgendaOk(t, i);
    assert TimedEvents.Ok(t.sims[i].agenda, t.sims[i].clock);
  }

  // ------------------------------------------------------------- what is asked for

  // What the handler does that simulator i starts in this step, if it is a step of i.
  function Own(net: Net, a: Action, i: nat): seq<Op> {
    if Actor(net, a) == i then Started(a) else []
  }

  // The operations of the handlers that simulator i starts in a run.
  function Begun(net: Net, acts: seq<Action>, i: nat): seq<Op> {
    if acts == [] then [] else Own(net, acts[0], i) + Begun(net, acts[1..], i)
  }

  // Those its current handler has left to do.
  function Left(sim: Sim): seq<Op> {
    if sim.phase.Handling? then sim.phase.ops else []
  }

  function Asked(ops: seq<Op>): seq<Request> {
    if ops == [] then [] else (if ops[0].Ask? then [ops[0].req] else []) + Asked(ops[1..])
  }

  function PayloadsOn(ops: seq<Op>, c: nat): seq<int> {
    if ops == [] then []
    else (if ops[0].Send? && ops[0].link == c then [ops[0].payload] else []) + PayloadsOn(ops[1..], c)
  }

  // The payloads of the data messages.
  function Data(sent: seq<Msg>): seq<int> {
    if sent == [] then []
    else
      var m := sent[|sent| - 1];
      Data(sent[..|sent| - 1]) + if m.body.DataBody? then [m.body.payload] else []
  }

  lemma {:induction false} AskedConcat(a: seq<Op>, b: seq<Op>)
    ensures Asked(a + b) == Asked(a) + Asked(b)
    decreases |a|
  {
    if a == [] {
      assert a + b == b;
    } else {
      TailOfConcat(a, b);
      AskedConcat(a[1..], b);
    }
  }

  lemma {:induction false} PayloadsConcat(a: seq<Op>, b: seq<Op>, c: nat)
    ensures PayloadsOn(a + b, c) == PayloadsOn(a, c) + PayloadsOn(b, c)
    decreases |a|
  {
    if a == [] {
      assert a + b == b;
    } else {
      TailOfConcat(a, b);
      PayloadsConcat(a[1..], b, c);
    }
  }

  lemma DataAppend(sent: seq<Msg>, m: Msg)
    ensures Data(sent + [m]) == Data(sent) + if m.body.DataBody? then [m.body.payload] else []
  {
    assert (sent + [m])[..|sent|] == sent;
  }

  // ------------------------------------------------------------- what becomes of it

  // The events a simulator has scheduled and those its handler has yet to schedule.
  function Asking(sim: Sim): seq<Request> {
    Requests(sim.agenda.made) + Asked(Left(sim))
  }

  // The data sent on link c and what its sender's handler has yet to send.
  function Sending(sim: Sim, ch: Chan, c: nat): seq<int> {
    Data(ch.sent) + PayloadsOn(Left(sim), c)
  }

  // The first operation is done, the others are left.
  lemma LeftNext(sim: Sim, next: Sim)
    requires sim.phase.Handling? && sim.phase.ops != [] && next.phase == Doing(sim.phase.ops[1..])
    ensures Left(next) == Left(sim)[1..]
  {
  }

  lemma StepAsks(net: Net, s: State, a: Action, i: nat)
    requires Shaped(net, s) && Enabled(net, s, a) && i < net.size && AgendaOk(s, i)
    ensures Asking(Apply(net, s, a).sims[i]) == Asking(s.sims[i]) + Asked(Own(net, a, i))
  {
    if a.HandlerStep? && a.i == i {
      HandlerAsks(net, s, i);
    } else {
      SameAsking(s.sims[i], Apply(net, s, a).sims[i], Own(net, a, i));
    }
  }

  // A step that schedules nothing.
  lemma SameAsking(sim: Sim, next: Sim, ops: seq<Op>)
    requires Left(next) == Left(sim) + ops && next.agenda.made == sim.agenda.made
    ensures Asking(next) == Asking(sim) + Asked(ops)
  {
    AskedConcat(Left(sim), ops);
  }

  lemma HandlerAsks(net: Net, s: State, i: nat)
    requires Shaped(net, s) && Enabled(net, s, HandlerStep(i)) && AgendaOk(s, i)
    ensures Asking(HandleOne(net, s, i).sims[i]) == Asking(s.sims[i])
  {
    var sim, next := s.sims[i], HandleOne(net, s, i).sims[i];
    LeftNext(sim, next);
    if sim.phase.ops[0].Ask? {
      ScheduleKeeps(sim.agenda, sim.phase.ops[0].req, sim.clock);
    }
  }

  function Onto(net: Net, s: State, c: nat): seq<int>
    requires net.Valid() && Shaped(net, s) && c < |net.links|
  {
    Sending(s.sims[net.links[c].src], s.chans[c], c)
  }

  // The states in which that is `data`.
  ghost function SendingThis(net: Net, c: nat, data: seq<int>): iset<State>
    requires net.Valid() && c < |net.links|
  {
    iset s | Shaped(net, s) && Onto(net, s, c) == data
  }

  lemma StepSends(net: Net, s: State, a: Action, c: nat)
    requires net.Valid() && Shaped(net, s) && Enabled(net, s, a) && c < |net.links|
    requires a.HandlerStep? ==> PhaseOk(net, a.i, s.sims[a.i].phase)
    ensures Onto(net, Apply(net, s, a), c) == Onto(net, s, c) + PayloadsOn(Own(net, a, net.links[c].src), c)
  {
    var i, t := net.links[c].src, Apply(net, s, a);
    var sim, next := s.sims[i], t.sims[i];
    match a
    case HandlerStep(j) => HandlerSends(net, s, j, c);
    case SyncStep(j) => SyncSends(net, s, j, c);
    case Advance(_) => SameSending(sim, next, s.chans[c], t.chans[c], [], c);
    case Poll(_, h) => SameSending(sim, next, s.chans[c], t.chans[c], Own(net, a, i), c);
    case Trigger(_, h) => SameSending(sim, next, s.chans[c], t.chans[c], Own(net, a, i), c);
  }

  // A step that sends no data.
  lemma SameSending(sim: Sim, next: Sim, ch: Chan, ch': Chan, ops: seq<Op>, c: nat)
    requires Left(next) == Left(sim) + ops && Data(ch'.sent) == Data(ch.sent)
    ensures Sending(next, ch', c) == Sending(sim, ch, c) + PayloadsOn(ops, c)
  {
    PayloadsConcat(Left(sim), ops, c);
  }

  lemma SyncSends(net: Net, s: State, j: nat, c: nat)
    requires net.Valid() && Shaped(net, s) && Enabled(net, s, SyncStep(j)) && c < |net.links|
    ensures Onto(net, SyncOne(net, s, j), c) == Onto(net, s, c)
  {
    var i, t := net.links[c].src, SyncOne(net, s, j);
    DataAppend(s.chans[c].sent, Msg(s.sims[j].clock + net.links[c].latency, s.sims[j].clock, SyncBody));
    SameSending(s.sims[i], t.sims[i], s.chans[c], t.chans[c], [], c);
  }

  lemma HandlerSends(net: Net, s: State, j: nat, c: nat)
    requires net.Valid() && Shaped(net, s) && Enabled(net, s, HandlerStep(j)) && c < |net.links|
    requires PhaseOk(net, j, s.sims[j].phase)
    ensures Onto(net, HandleOne(net, s, j), c) == Onto(net, s, c)
  {
    var i, t, op := net.links[c].src, HandleOne(net, s, j), s.sims[j].phase.ops[0];
    if j == i {
      LeftNext(s.sims[i], t.sims[i]);
    }
    if op.Send? && op.link == c {
      DataAppend(s.chans[c].sent, Msg(s.sims[j].clock + net.links[c].latency, s.sims[j].clock, DataBody(op.payload)));
    } else {
      assert t.chans[c] == s.chans[c];
    }
  }

  ghost function Good(net: Net): iset<State>
    requires net.Valid()
  {
    iset s | Inv(net, s)
  }

  ghost function After(net: Net, s: State, acts: seq<Action>): iset<State>
    requires Shaped(net, s)
  {
    iset t | Leads(net, s, acts, t)
  }

  // The first step of a run.
  lemma FirstStep(net: Net, s: State, acts: seq<Action>, t: State) returns (u: State)
    requires net.Valid() && s in Good(net) && Shaped(net, s) && t in After(net, s, acts) && acts != []
    ensures u in Good(net) && Shaped(net, u) && t in After(net, u, acts[1..])
    ensures forall i :: 0 <= i < net.size ==> Asking(u.sims[i]) == Asking(s.sims[i]) + Asked(Own(net, acts[0], i))
  {
    var a := acts[0];
    u := Apply(net, s, a);
    StepKeeps(net, s, a);
    forall i | 0 <= i < net.size ensures Asking(u.sims[i]) == Asking(s.sims[i]) + Asked(Own(net, a, i)) {
      assert AgendaOk(s, i);
      StepAsks(net, s, a, i);
    }
  }

  lemma FirstSend(net: Net, s: State, acts: seq<Action>, t: State, c: nat, data: seq<int>) returns (u: State)
    requires net.Valid() && s in Good(net) && Shaped(net, s) && t in After(net, s, acts) && acts != []
    requires c < |net.links| && s in SendingThis(net, c, data)
    ensures u in Good(net) && Shaped(net, u) && t in After(net, u, acts[1..])
    ensures u in SendingThis(net, c, data + PayloadsOn(Own(net, acts[0], net.links[c].src), c))
  {
    u := Apply(net, s, acts[0]);
    StepKeeps(net, s, acts[0]);
    StepSends(net, s, acts[0], c);
  }

  lemma {:induction false} RunAsks(net: Net, s: State, acts: seq<Action>, t: State, i: nat)
    requires net.Valid() && s in Good(net) && Shaped(net, s) && t in After(net, s, acts) && i < net.size
    ensures Shaped(net, t)
    ensures Asking(t.sims[i]) == Asking(s.sims[i]) + Asked(Begun(net, acts, i))
    decreases acts
  {
    if acts != [] {
      var u := FirstStep(net, s, acts, t);
      RunAsks(net, u, acts[1..], t, i);
      AskedConcat(Own(net, acts[0], i), Begun(net, acts[1..], i));
    }
  }

  lemma {:induction false} RunSends(net: Net, s: State, acts: seq<Action>, t: State, c: nat, data: seq<int>)
    requires net.Valid() && s in Good(net) && Shaped(net, s) && t in After(net, s, acts) && c < |net.links|
    requires s in SendingThis(net, c, data)
    ensures t in SendingThis(net, c, data + PayloadsOn(Begun(net, acts, net.links[c].src), c))
    decreases acts
  {
    var i := net.links[c].src;
    if acts == [] {
      assert data + [] == data;
    } else {
      var u := FirstSend(net, s, acts, t, c, data);
      RunSends(net, u, acts[1..], t, c, data + PayloadsOn(Own(net, acts[0], i), c));
      PayloadsConcat(Own(net, acts[0], i), Begun(net, acts[1..], i), c);
      Regroup(data, PayloadsOn(Own(net, acts[0], i), c), PayloadsOn(Begun(net, acts[1..], i), c));
    }
  }

  lemma Start(net: Net, events: seq<seq<Request>>)
    requires net.Valid() && |events| == net.size
    ensures Init(net, events) in Good(net)
    ensures forall i :: 0 <= i < net.size ==> Asking(Init(net, events).sims[i]) == events[i]
    ensures forall c :: 0 <= c < |net.links| ==> Init(net, events) in SendingThis(net, c, [])
  {
    InitInv(net, events);
    forall i | 0 <= i < net.size ensures Asking(Init(net, events).sims[i]) == events[i] {
      ScheduleAllOk(events[i], 0);
    }
  }

  /** In every run the events scheduled are those of the set-up and then those the handlers
      ask for, in that order, except what the current handler has left to do. */
  lemma ScheduledAsAsked(net: Net, events: seq<seq<Request>>, acts: seq<Action>, t: State, i: nat)
    requires net.Valid() && |events| == net.size && Leads(net, Init(net, events), acts, t) && i < net.size
    ensures Shaped(net, t)
    ensures Requests(t.sims[i].agenda.made) + Asked(Left(t.sims[i])) == events[i] + Asked(Begun(net, acts, i))
  {
    Start(net, events);
    RunAsks(net, Init(net, events), acts, t, i);
  }

  /** In every run the data messages sent on a link are those the handlers of its sender
      send on it, in that order, except what the current handler has left to do. */
  lemma SentAsAsked(net: Net, events: seq<seq<Request>>, acts: seq<Action>, t: State, c: nat)
    requires net.Valid() && |events| == net.size && Leads(net, Init(net, events), acts, t) && c < |net.links|
    ensures Shaped(net, t)
    ensures var i := net.links[c].src;
            Data(t.chans[c].sent) + PayloadsOn(Left(t.sims[i]), c) == PayloadsOn(Begun(net, acts, i), c)
  {
    Start(net, events);
    RunSends(net, Init(net, events), acts, t, c, []);
  }
}
