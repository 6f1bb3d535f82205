/**
  The timed events of one simulator.

  A device schedules events for a point in time; the runner keeps them in a multiset
  ordered by time and priority, fires the first one once the clock has reached it, and
  never lets the clock pass it.  Beside the pending events the model records every event
  that was ever scheduled, in that order, and every one that fired.
 */
module TimedEvents {
  // What a device asks for.
  datatype Request = Request(time: nat, priority: int)

  // A scheduled event: the clock at which it was scheduled, how many were scheduled and
  // how many had fired before.
  datatype Timer = Timer(req: Request, since: nat, id: nat, born: nat)

  datatype Firing = Firing(timer: Timer, at: nat)

  // `events` are pending, in the order of the multiset; `made` and `fired` are the history.
  datatype Agenda = Agenda(events: seq<Timer>, made: seq<Timer>, fired: seq<Firing>)

  const Blank: Agenda := Agenda([], [], [])

  // ---------------------------------------------------------------- operations

  // The multiset's order.
  predicate Before(a: Request, b: Request) {
    a.time < b.time || (a.time == b.time && a.priority < b.priority)
  }

  // Insertion behind all events that are not after the new one.
  function Insert(events: seq<Timer>, e: Timer): seq<Timer> {
    if events == [] || Before(e.req, events[0].req) then [e] + events
    else [events[0]] + Insert(events[1..], e)
  }

  // EventSchedule.
  function Schedule(a: Agenda, req: Request, clock: nat): Agenda {
    var e := Timer(req, clock, |a.made|, |a.fired|);
    a.(events := Insert(a.events, e), made := a.made + [e])
  }

  function ScheduleAll(reqs: seq<Request>, clock: nat): Agenda {
    if reqs == [] then Blank
    else Schedule(ScheduleAll(reqs[..|reqs| - 1], clock), reqs[|reqs| - 1], clock)
  }

  // The test of EventTrigger.
  predicate Due(a: Agenda, clock: nat) {
    a.events != [] && a.events[0].req.time <= clock
  }

  // EventTrigger on an event that is due.
  function Fire(a: Agenda, clock: nat): Agenda
    requires Due(a, clock)
  {
    a.(events := a.events[1..], fired := a.fired + [Firing(a.events[0], clock)])
  }

  // ----------------------------------------------------------------- invariant

  // Ahead of another event: by time, then priority, then order of scheduling.
  predicate Ahead(a: Timer, b: Timer) {
    Before(a.req, b.req) || (a.req == b.req && a.id < b.id)
  }

  function Max(a: nat, b: nat): nat { if a < b then b else a }

  // When an event has to fire.
  function OnTime(e: Timer): nat { Max(e.req.time, e.since) }

  function Timers(fired: seq<Firing>): seq<Timer> {
    seq(|fired|, k requires 0 <= k < |fired| => fired[k].timer)
  }

  // The requests behind the events scheduled so far.
  function Requests(made: seq<Timer>): seq<Request> {
    seq(|made|, k requires 0 <= k < |made| => made[k].req)
  }

  ghost predicate Sorted(events: seq<Timer>) {
    forall j, k :: 0 <= j < k < |events| ==> Ahead(events[j], events[k])
  }

  ghost predicate PendingOk(a: Agenda, clock: nat) {
    forall k :: 0 <= k < |a.events| ==>
      && a.events[k].since <= clock <= OnTime(a.events[k])
      && a.events[k].id < |a.made| && a.events[k].born <= |a.fired|
  }

  ghost predicate FiredOk(a: Agenda) {
    && (forall k :: 0 <= k < |a.fired| ==> a.fired[k].at == OnTime(a.fired[k].timer))
    && (forall j, k :: 0 <= j < k < |a.fired| && a.fired[k].timer.born <= j ==> Ahead(a.fired[j].timer, a.fired[k].timer))
    && (forall j, k :: 0 <= j < |a.fired| && 0 <= k < |a.events| && a.events[k].born <= j ==>
          Ahead(a.fired[j].timer, a.events[k]))
  }

  ghost predicate Accounted(a: Agenda) {
    && (forall k :: 0 <= k < |a.made| ==> a.made[k].id == k)
    && multiset(a.made) == multiset(a.events) + multiset(Timers(a.fired))
  }

  /** The pending events ascend and the clock has passed none that was ahead of it; every
      event that fired did so on time and in order; and each event ever scheduled is pending
      or has fired, once. */
  ghost predicate Ok(a: Agenda, clock: nat) {
    Sorted(a.events) && PendingOk(a, clock) && FiredOk(a) && Accounted(a)
  }

  ghost function Kept(clock: nat): iset<Agenda> {
    iset a | Ok(a, clock)
  }

  // -------------------------------------------------------------- preservation

  lemma {:induction false} InsertAll(events: seq<Timer>, e: Timer)
    ensures multiset(Insert(events, e)) == multiset(events) + multiset{e}
    ensures |Insert(events, e)| == |events| + 1
    decreases |events|
  {
    if events != [] && !Before(e.req, events[0].req) {
      InsertAll(events[1..], e);
      assert events == [events[0]] + events[1..];
    }
  }

  lemma InsertFrom(events: seq<Timer>, e: Timer, k: nat)
    requires k < |Insert(events, e)|
    ensures Insert(events, e)[k] == e || Insert(events, e)[k] in events
  {
    InsertAll(events, e);
    assert Insert(events, e)[k] in multiset(Insert(events, e));
  }

  lemma {:induction false} InsertSorted(events: seq<Timer>, e: Timer)
    requires Sorted(events) && forall k :: 0 <= k < |events| ==> events[k].id < e.id
    ensures Sorted(Insert(events, e))
    decreases |events|
  {
    if events != [] && !Before(e.req, events[0].req) {
      var rest := Insert(events[1..], e);
      InsertSorted(events[1..], e);
      forall k | 0 <= k < |rest| ensures Ahead(events[0], rest[k]) {
        InsertFrom(events[1..], e, k);
      }
    }
  }

  lemma ScheduleKeeps(a: Agenda, req: Request, clock: nat)
    requires a in Kept(clock)
    ensures Schedule(a, req, clock) in Kept(clock)
    ensures Requests(Schedule(a, req, clock).made) == Requests(a.made) + [req]
  {
    var e, b := Timer(req, clock, |a.made|, |a.fired|), Schedule(a, req, clock);
    InsertSorted(a.events, e);
    ScheduleAccounted(a, b, e);
    SchedulePending(a, b, e, clock);
  }

  lemma ScheduleAccounted(a: Agenda, b: Agenda, e: Timer)
    requires Accounted(a) && e.id == |a.made| && b == a.(events := Insert(a.events, e), made := a.made + [e])
    ensures Accounted(b)
  {
    InsertAll(a.events, e);
  }

  lemma SchedulePending(a: Agenda, b: Agenda, e: Timer, clock: nat)
    requires PendingOk(a, clock) && FiredOk(a) && e.since == clock && e.id == |a.made| && e.born == |a.fired|
    requires b == a.(events := Insert(a.events, e), made := a.made + [e])
    ensures PendingOk(b, clock) && FiredOk(b)
  {
    forall k | 0 <= k < |b.events| ensures b.events[k] == e || b.events[k] in a.events {
      InsertFrom(a.events, e, k);
    }
  }

  lemma FireKeeps(a: Agenda, clock: nat)
    requires a in Kept(clock) && Due(a, clock)
    ensures Fire(a, clock) in Kept(clock)
  {
    var b := Fire(a, clock);
    FireAccounted(a, b, clock);
    FireOrdered(a, b, clock);
  }

  lemma FireAccounted(a: Agenda, b: Agenda, clock: nat)
    requires Accounted(a) && Due(a, clock) && b == Fire(a, clock)
    ensures Accounted(b)
  {
    assert a.events == [a.events[0]] + b.events;
    assert Timers(b.fired) == Timers(a.fired) + [a.events[0]];
  }

  lemma FireOrdered(a: Agenda, b: Agenda, clock: nat)
    requires Sorted(a.events) && PendingOk(a, clock) && FiredOk(a) && Due(a, clock) && b == Fire(a, clock)
    ensures Sorted(b.events) && PendingOk(b, clock) && FiredOk(b)
  {
    assert forall k :: 0 <= k < |b.events| ==> b.events[k] == a.events[k + 1];
  }

  // The clock moves on, and no further than the first event.
  lemma WaitKeeps(a: Agenda, clock: nat, next: nat)
    requires a in Kept(clock) && clock < next && (a.events != [] ==> next <= a.events[0].req.time)
    ensures a in Kept(next)
  {
    forall k | 0 <= k < |a.events| ensures next <= OnTime(a.events[k]) {
      assert k > 0 ==> Ahead(a.events[0], a.events[k]);
    }
  }

  lemma {:induction false} ScheduleAllOk(reqs: seq<Request>, clock: nat)
    ensures ScheduleAll(reqs, clock) in Kept(clock) && Requests(ScheduleAll(reqs, clock).made) == reqs
    decreases |reqs|
  {
    if reqs != [] {
      var n := |reqs| - 1;
      ScheduleAllOk(reqs[..n], clock);
      ScheduleKeeps(ScheduleAll(reqs[..n], clock), reqs[n], clock);
    }
  }
}
