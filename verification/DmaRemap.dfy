/**
  The DMA remapping handshake of vDPDK: polling threads keep a device's mapping lock
  shared almost all the time and cache the translated address of their ring; the
  vfio-user thread of the device raises a flag to get the lock exclusively.

  A poller serves one device, or two in turn.  std::shared_mutex is modelled by the
  rule that the exclusive lock is granted when nobody shares it, and the shared lock
  when nobody holds it exclusively; who shares it follows from the pollers' positions.
 */
module DmaRemap {
  import opened Wrappers

  // The translations of a device's memory, by bus address.
  type Mapping = map<int, int>

  function Translate(m: Mapping, iova: int): Option<int> {
    if iova in m then Some(m[iova]) else None
  }

  // -------------------------------------------------------------------- the state

  /** dma_register_cb and dma_unregister_cb, between their statements. */
  datatype VfioPc = Idle | Flagged | Exclusive | Cleared | Mapped

  datatype Device = Device(flag: bool, pc: VfioPc, mapping: Mapping)
  {
    predicate Locked() { pc.Exclusive? || pc.Cleared? || pc.Mapped? }
  }

  /** A queue object: the ring's bus address and its cached translation. */
  datatype Queue = Queue(id: nat, iova: int, ring: Option<int>)

  /** A polling thread, between its statements, while it serves its device number `at`. */
  datatype PollPc =
    | Acquire(at: nat)                          // taking the locks, one after the other
    | Check(at: nat)                            // about to test the flag
    | Unlock(at: nat)
    | Spin(at: nat)
    | Relock(at: nat)
    | Body(at: nat, invalidated: bool)          // in the poll function, about to load the queue
    | Lookup(at: nat, queue: Queue)             // about to translate the ring's address
    | Reading(at: nat, queue: Queue)            // using the cached ring

  /** `since` counts the poll bodies finished since the device's flag was last raised. */
  datatype Poller = Poller(devs: seq<nat>, slots: seq<Option<Queue>>, since: seq<nat>, pc: PollPc)
  {
    predicate Polling() { pc.Body? || pc.Lookup? || pc.Reading? }

    // Whether this thread shares the lock of its device number i.
    predicate Holds(i: nat) {
      match pc
      case Acquire(at) => i < at
      case Spin(at) => i != at
      case Relock(at) => i != at
      case _ => true
    }

    function Next(): nat {
      if pc.at + 1 < |devs| then pc.at + 1 else 0
    }
  }

  datatype State = State(devs: seq<Device>, pollers: seq<Poller>, nextId: nat)

  datatype Action =
    | SetFlag(d: nat)
    | AcquireExclusive(d: nat)
    | ClearFlag(d: nat)
    | Remap(d: nat, mapping: Mapping)
    | UnlockExclusive(d: nat)
    | StartQueue(d: nat, p: nat, i: nat, iova: int)
    | StopQueue(d: nat, p: nat, i: nat)
    | Poll(p: nat)

  // -------------------------------------------------------------------- the steps

  predicate Shared(s: State, d: nat) {
    exists p, i :: 0 <= p < |s.pollers| && 0 <= i < |s.pollers[p].devs| && s.pollers[p].devs[i] == d && s.pollers[p].Holds(i)
  }

  // The device the poller is at.
  function Here(s: State, P: Poller): Device {
    if P.pc.at < |P.devs| && P.devs[P.pc.at] < |s.devs| then s.devs[P.devs[P.pc.at]] else Device(false, Idle, map[])
  }

  predicate Enabled(s: State, a: Action) {
    match a
    case SetFlag(d) => d < |s.devs| && s.devs[d].pc.Idle?
    case AcquireExclusive(d) => d < |s.devs| && s.devs[d].pc.Flagged? && !Shared(s, d)
    case ClearFlag(d) => d < |s.devs| && s.devs[d].pc.Exclusive?
    case Remap(d, _) => d < |s.devs| && s.devs[d].pc.Cleared?
    case UnlockExclusive(d) => d < |s.devs| && s.devs[d].pc.Mapped?
    case StartQueue(d, p, i, _) =>
      && d < |s.devs| && s.devs[d].pc.Idle?
      && p < |s.pollers| && i < |s.pollers[p].devs| && i < |s.pollers[p].slots| && s.pollers[p].devs[i] == d
    case StopQueue(d, p, i) =>
      && d < |s.devs| && s.devs[d].pc.Idle?
      && p < |s.pollers| && i < |s.pollers[p].devs| && i < |s.pollers[p].slots| && s.pollers[p].devs[i] == d
    case Poll(p) => p < |s.pollers| && CanStep(s, s.pollers[p])
  }

  // A thread waits for a lock, or spins on the flag.
  predicate CanStep(s: State, P: Poller) {
    match P.pc
    case Acquire(at) => !Here(s, P).Locked()
    case Relock(at) => !Here(s, P).Locked()
    case Spin(at) => !Here(s, P).flag
    case _ => true
  }

  function SetDevice(s: State, d: nat, x: Device): State
    requires d < |s.devs|
  {
    s.(devs := s.devs[d := x])
  }

  function SetPoller(s: State, p: nat, P: Poller): State
    requires p < |s.pollers|
  {
    s.(pollers := s.pollers[p := P])
  }

  // The counters of device d start again.
  function Restarted(P: Poller, d: nat): Poller {
    P.(since := seq(|P.since|, i requires 0 <= i < |P.since| =>
      if i < |P.devs| && P.devs[i] == d then 0 else P.since[i]))
  }

  function AllRestarted(pollers: seq<Poller>, d: nat): (r: seq<Poller>)
    ensures |r| == |pollers|
  {
    seq(|pollers|, p requires 0 <= p < |pollers| => Restarted(pollers[p], d))
  }

  function Apply(s: State, a: Action): State
    requires Enabled(s, a)
  {
    match a
    case SetFlag(d) =>
      var t := SetDevice(s, d, s.devs[d].(flag := true, pc := Flagged));
      t.(pollers := AllRestarted(s.pollers, d))
    case AcquireExclusive(d) => SetDevice(s, d, s.devs[d].(pc := Exclusive))
    case ClearFlag(d) => SetDevice(s, d, s.devs[d].(flag := false, pc := Cleared))
    case Remap(d, m) => SetDevice(s, d, s.devs[d].(mapping := m, pc := Mapped))
    case UnlockExclusive(d) => SetDevice(s, d, s.devs[d].(pc := Idle))
    case StartQueue(d, p, i, iova) =>
      var P := s.pollers[p];
      SetPoller(s, p, P.(slots := P.slots[i := Some(Queue(s.nextId, iova, None))])).(nextId := s.nextId + 1)
    case StopQueue(d, p, i) =>
      var P := s.pollers[p];
      SetPoller(s, p, P.(slots := P.slots[i := None]))
    case Poll(p) => SetPoller(s, p, Polled(Here(s, s.pollers[p]), s.pollers[p]))
  }

  // The end of a poll function.
  function Finished(P: Poller): Poller {
    var n := P.pc.at;
    P.(pc := Check(P.Next()), since := if n < |P.since| then P.since[n := P.since[n] + 1] else P.since)
  }

  /** One step of a polling thread at a device. */
  function Polled(dev: Device, P: Poller): Poller {
    match P.pc
    case Acquire(i) => P.(pc := if i + 1 < |P.devs| then Acquire(i + 1) else Check(0))
    case Check(i) => P.(pc := if dev.flag then Unlock(i) else Body(i, false))
    case Unlock(i) => P.(pc := Spin(i))
    case Spin(i) => P.(pc := Relock(i))
    case Relock(i) => P.(pc := Body(i, true))
    case Body(i, invalidated) =>
      if i >= |P.slots| || P.slots[i].None? then Finished(P)
      else if invalidated || P.slots[i].value.ring.None? then P.(pc := Lookup(i, P.slots[i].value))
      else P.(pc := Reading(i, P.slots[i].value))
    case Lookup(i, q) =>
      var ring := Translate(dev.mapping, q.iova);
      if i >= |P.slots| then P
      else if ring.None? then Finished(P.(slots := P.slots[i := None]))
      else
        // the store goes to the loaded object, which may no longer be the current one
        var same := P.slots[i].Some? && P.slots[i].value.id == q.id;
        P.(pc := Reading(i, q.(ring := ring)),
           slots := if same then P.slots[i := Some(q.(ring := ring))] else P.slots)
    case Reading(i, q) => Finished(P)
  }

  // --------------------------------------------------------------------- invariant

  predicate PollerShape(P: Poller, devices: nat) {
    && |P.devs| > 0 && |P.slots| == |P.since| == |P.devs| && P.pc.at < |P.devs|
    && (forall i :: 0 <= i < |P.devs| ==> P.devs[i] < devices)
    && (forall i, j :: 0 <= i < j < |P.devs| ==> P.devs[i] != P.devs[j])
  }

  // A cached ring that the thread may use without a new look-up is up to date.
  ghost predicate CacheOk(P: Poller, i: nat, m: Mapping)
    requires i < |P.slots|
  {
    && (P.slots[i].Some? && P.slots[i].value.ring.Some? && !Excused(P, i)
        ==> P.slots[i].value.ring == Translate(m, P.slots[i].value.iova))
    && (P.pc.Acquire? && P.slots[i].Some? ==> P.slots[i].value.ring.None?)
    && (P.pc.Lookup? && P.pc.at == i && P.slots[i].Some? && P.slots[i].value.id != P.pc.queue.id
        ==> P.slots[i].value.ring.None?)
    && (P.pc.Reading? && P.pc.at == i
        ==> P.pc.queue.ring.Some? && P.pc.queue.ring == Translate(m, P.pc.queue.iova))
  }

  // While the lock is released, and until the look-up after taking it again.
  predicate Excused(P: Poller, i: nat) {
    P.pc.at == i && (P.pc.Spin? || P.pc.Relock? || P.pc.Lookup? || (P.pc.Body? && P.pc.invalidated))
  }

  // At most one body has finished since the flag was raised, and none if one may follow.
  ghost predicate CountOk(P: Poller, i: nat, dev: Device)
    requires i < |P.since|
  {
    dev.pc.Flagged? ==>
      P.since[i] <= (if P.pc.at == i && (P.Polling() || P.pc.Relock?) then 0 else 1)
  }

  predicate DeviceOk(dev: Device) {
    dev.flag <==> dev.pc.Flagged? || dev.pc.Exclusive?
  }

  // The poller and one of its devices.
  ghost predicate PairOk(P: Poller, i: nat, dev: Device)
    requires i < |P.slots| && i < |P.since|
  {
    && CacheOk(P, i, dev.mapping) && CountOk(P, i, dev)
    && (dev.Locked() ==> !P.Holds(i))
  }

  ghost predicate PollerOk(s: State, P: Poller) {
    && PollerShape(P, |s.devs|)
    && forall i :: 0 <= i < |P.devs| ==> PairOk(P, i, s.devs[P.devs[i]])
  }

  ghost predicate Inv(s: State) {
    && (forall d :: 0 <= d < |s.devs| ==> DeviceOk(s.devs[d]))
    && (forall p :: 0 <= p < |s.pollers| ==> PollerOk(s, s.pollers[p]))
  }

  // At start nothing is flagged, no queue exists and no lock is taken.
  ghost predicate Initial(s: State) {
    && (forall d :: 0 <= d < |s.devs| ==> s.devs[d].pc.Idle? && !s.devs[d].flag)
    && (forall p :: 0 <= p < |s.pollers| ==> PollerShape(s.pollers[p], |s.devs|) && Fresh(s.pollers[p]))
  }

  ghost predicate Fresh(P: Poller) {
    && P.pc == Acquire(0)
    && (forall i :: 0 <= i < |P.slots| ==> P.slots[i].None?)
    && (forall i :: 0 <= i < |P.since| ==> P.since[i] == 0)
  }

  lemma InitialInv(s: State)
    requires Initial(s)
    ensures Inv(s)
  {
  }

  // ------------------------------------------------------------------ one step keeps it

  // A poller's own step.
  lemma PolledPair(P: Poller, i: nat, dev: Device, here: Device)
    requires |P.devs| > 0 && |P.slots| == |P.since| == |P.devs| && P.pc.at < |P.devs| && i < |P.devs|
    requires PairOk(P, i, dev) && DeviceOk(dev)
    requires P.pc.at == i ==> here == dev
    requires P.pc.Acquire? || P.pc.Relock? ==> !here.Locked()
    requires P.pc.Spin? ==> !here.flag
    ensures PairOk(Polled(here, P), i, dev)
  {
    var Q := Polled(here, P);
    PolledCache(P, i, dev, here);
    if P.pc.at != i {
      assert Q.pc.at == i ==> Q.pc.Check? || Q.pc.Acquire?;
    }
  }

  lemma PolledCache(P: Poller, i: nat, dev: Device, here: Device)
    requires |P.devs| > 0 && |P.slots| == |P.since| == |P.devs| && P.pc.at < |P.devs| && i < |P.devs|
    requires CacheOk(P, i, dev.mapping)
    requires P.pc.at == i ==> here == dev
    ensures |Polled(here, P).slots| == |P.slots| && CacheOk(Polled(here, P), i, dev.mapping)
  {
  }

  lemma PolledShape(P: Poller, here: Device, devices: nat)
    requires PollerShape(P, devices)
    ensures PollerShape(Polled(here, P), devices)
  {
  }

  lemma PollKeeps(s: State, p: nat)
    requires Inv(s) && Enabled(s, Poll(p))
    ensures Inv(Apply(s, Poll(p)))
  {
    var P, t := s.pollers[p], Apply(s, Poll(p));
    var Q := t.pollers[p];
    assert PollerOk(s, P);
    PolledShape(P, Here(s, P), |s.devs|);
    forall i | 0 <= i < |Q.devs| ensures PairOk(Q, i, t.devs[Q.devs[i]]) {
      PolledPair(P, i, s.devs[P.devs[i]], Here(s, P));
    }
    forall k | 0 <= k < |t.pollers| ensures PollerOk(t, t.pollers[k]) {
      assert PollerOk(s, s.pollers[k]);
    }
  }

  // A device's step that leaves the pollers alone.
  lemma DeviceKeeps(s: State, d: nat, x: Device)
    requires Inv(s) && d < |s.devs| && DeviceOk(x)
    requires x.mapping == s.devs[d].mapping || !Shared(s, d)
    requires x.Locked() ==> !Shared(s, d)
    requires x.pc.Flagged? ==> s.devs[d].pc.Flagged?
    requires x.mapping != s.devs[d].mapping ==> s.devs[d].Locked()
    ensures Inv(SetDevice(s, d, x))
  {
    var t := SetDevice(s, d, x);
    forall p | 0 <= p < |t.pollers| ensures PollerOk(t, t.pollers[p]) {
      var P := s.pollers[p];
      assert PollerOk(s, P);
      forall i | 0 <= i < |P.devs| ensures PairOk(P, i, t.devs[P.devs[i]]) {
        assert PairOk(P, i, s.devs[P.devs[i]]);
        if P.devs[i] == d {
          assert !Shared(s, d) ==> !P.Holds(i);
        }
      }
    }
  }

  // While the device is locked exclusively no poller shares its lock.
  lemma LockedNotShared(s: State, d: nat)
    requires Inv(s) && d < |s.devs| && s.devs[d].Locked()
    ensures !Shared(s, d)
  {
    forall p, i | 0 <= p < |s.pollers| && 0 <= i < |s.pollers[p].devs| && s.pollers[p].devs[i] == d
      ensures !s.pollers[p].Holds(i)
    {
      assert PollerOk(s, s.pollers[p]);
      assert PairOk(s.pollers[p], i, s.devs[d]);
    }
  }

  lemma SetFlagKeeps(s: State, d: nat)
    requires Inv(s) && Enabled(s, SetFlag(d))
    ensures Inv(Apply(s, SetFlag(d)))
  {
    var t := Apply(s, SetFlag(d));
    forall p | 0 <= p < |t.pollers| ensures PollerOk(t, t.pollers[p]) {
      var P := s.pollers[p];
      assert PollerOk(s, P);
      forall i | 0 <= i < |P.devs| ensures PairOk(t.pollers[p], i, t.devs[P.devs[i]]) {
        assert PairOk(P, i, s.devs[P.devs[i]]);
      }
    }
  }

  // The vfio-user thread replaces a queue object: the new one has no cached ring.
  lemma SlotKeeps(s: State, d: nat, p: nat, i: nat, q: Option<Queue>)
    requires Inv(s) && p < |s.pollers| && i < |s.pollers[p].slots|
    requires q.Some? ==> q.value.ring.None?
    ensures Inv(SetPoller(s, p, s.pollers[p].(slots := s.pollers[p].slots[i := q])))
  {
    var P := s.pollers[p];
    var Q := P.(slots := P.slots[i := q]);
    var t := SetPoller(s, p, Q);
    assert PollerOk(s, P);
    forall k | 0 <= k < |Q.devs| ensures PairOk(Q, k, t.devs[Q.devs[k]]) {
      assert PairOk(P, k, s.devs[P.devs[k]]);
    }
    forall k | 0 <= k < |t.pollers| ensures PollerOk(t, t.pollers[k]) {
      assert PollerOk(s, s.pollers[k]);
    }
  }

  lemma StepKeeps(s: State, a: Action)
    requires Inv(s) && Enabled(s, a)
    ensures Inv(Apply(s, a))
  {
    match a
    case SetFlag(d) => SetFlagKeeps(s, d);
    case AcquireExclusive(d) => DeviceKeeps(s, d, s.devs[d].(pc := Exclusive));
    case ClearFlag(d) =>
      LockedNotShared(s, d);
      DeviceKeeps(s, d, s.devs[d].(flag := false, pc := Cleared));
    case Remap(d, m) =>
      LockedNotShared(s, d);
      DeviceKeeps(s, d, s.devs[d].(mapping := m, pc := Mapped));
    case UnlockExclusive(d) =>
      DeviceKeeps(s, d, s.devs[d].(pc := Idle));
    case StartQueue(d, p, i, iova) => SlotKeeps(s, d, p, i, Some(Queue(s.nextId, iova, None)));
    case StopQueue(d, p, i) => SlotKeeps(s, d, p, i, None);
    case Poll(p) => PollKeeps(s, p);
  }

  // -------------------------------------------------------------------- whole runs

  /** A run: any interleaving of the vfio-user threads and the pollers. */
  ghost predicate Run(states: seq<State>, acts: seq<Action>) {
    && |states| == |acts| + 1 && Initial(states[0])
    && forall k {:trigger acts[k]} :: 0 <= k < |acts| ==>
      Enabled(states[k], acts[k]) && states[k + 1] == Apply(states[k], acts[k])
  }

  lemma {:induction false} RunInv(states: seq<State>, acts: seq<Action>, k: nat)
    requires Run(states, acts) && k < |states|
    ensures Inv(states[k])
  {
    if k == 0 {
      InitialInv(states[0]);
    } else {
      RunInv(states, acts, k - 1);
      assert Enabled(states[k - 1], acts[k - 1]);
      StepKeeps(states[k - 1], acts[k - 1]);
    }
  }

  // The mapping last given to device d among the first k actions, or the one it began with.
  function LastMapping(s: State, acts: seq<Action>, k: nat, d: nat): Mapping
    requires k <= |acts| && d < |s.devs|
  {
    if k == 0 then s.devs[d].mapping
    else if acts[k - 1].Remap? && acts[k - 1].d == d then acts[k - 1].mapping
    else LastMapping(s, acts, k - 1, d)
  }

  /** A device's mapping is the one it was last given; nothing else changes it. */
  lemma {:induction false} MappingIsLast(states: seq<State>, acts: seq<Action>, k: nat, d: nat)
    requires Run(states, acts) && k < |states| && d < |states[0].devs|
    ensures |states[k].devs| == |states[0].devs| && states[k].devs[d].mapping == LastMapping(states[0], acts, k, d)
  {
    if k > 0 {
      MappingIsLast(states, acts, k - 1, d);
      assert states[k] == Apply(states[k - 1], acts[k - 1]);
    }
  }

  // Among the first k actions, a queue of device d was started in slot i of poller p with
  // this bus address.
  ghost predicate WasStarted(acts: seq<Action>, k: nat, d: nat, p: nat, i: nat, iova: int)
    requires k <= |acts|
  {
    exists j :: 0 <= j < k && acts[j] == StartQueue(d, p, i, iova)
  }

  // The bus address of the queue last started in slot i of poller p, unless it was stopped.
  function LastStarted(acts: seq<Action>, k: nat, p: nat, i: nat): Option<int>
    requires k <= |acts|
  {
    if k == 0 then None
    else
      match acts[k - 1]
      case StartQueue(_, p', i', iova) => if p' == p && i' == i then Some(iova) else LastStarted(acts, k - 1, p, i)
      case StopQueue(_, p', i') => if p' == p && i' == i then None else LastStarted(acts, k - 1, p, i)
      case _ => LastStarted(acts, k - 1, p, i)
  }

  // A queue in a slot is the one last started there, and the queue a poller has loaded was
  // started; queues with the same number are the same.
  ghost predicate Origins(acts: seq<Action>, k: nat, p: nat, P: Poller, nextId: nat)
    requires k <= |acts|
  {
    && (forall i :: 0 <= i < |P.slots| && P.slots[i].Some? ==>
          LastStarted(acts, k, p, i) == Some(P.slots[i].value.iova) && P.slots[i].value.id < nextId)
    && (P.pc.Lookup? || P.pc.Reading? ==>
          && P.pc.at < |P.devs| && WasStarted(acts, k, P.devs[P.pc.at], p, P.pc.at, P.pc.queue.iova)
          && P.pc.queue.id < nextId
          && (P.pc.at < |P.slots| && P.slots[P.pc.at].Some? && P.slots[P.pc.at].value.id == P.pc.queue.id ==>
                P.slots[P.pc.at].value.iova == P.pc.queue.iova))
  }

  // A queue in a slot was started for the slot's device.
  ghost predicate SlotsStarted(acts: seq<Action>, k: nat, p: nat, P: Poller)
    requires k <= |acts|
  {
    forall i :: 0 <= i < |P.slots| && i < |P.devs| && P.slots[i].Some? ==>
      WasStarted(acts, k, P.devs[i], p, i, P.slots[i].value.iova)
  }

  lemma OriginsStep(acts: seq<Action>, k: nat, p: nat, s: State)
    requires k < |acts| && p < |s.pollers| && PollerShape(s.pollers[p], |s.devs|) && Enabled(s, acts[k])
    requires Origins(acts, k, p, s.pollers[p], s.nextId) && SlotsStarted(acts, k, p, s.pollers[p])
    ensures var t := Apply(s, acts[k]);
            && |t.pollers| == |s.pollers| && Origins(acts, k + 1, p, t.pollers[p], t.nextId)
            && SlotsStarted(acts, k + 1, p, t.pollers[p])
  {
    var P, Q := s.pollers[p], Apply(s, acts[k]).pollers[p];
    match acts[k]
    case StartQueue(d, p0, i, iova) => OriginsSlot(acts, k, p, P, Q, s.nextId);
    case StopQueue(d, p0, i) => OriginsSlot(acts, k, p, P, Q, s.nextId);
    case Poll(p0) =>
      OriginsSame(acts, k, p, P, P, s.nextId);
      if p0 == p {
        OriginsPolled(acts, k + 1, p, P, Here(s, P), s.nextId);
      }
    case _ => OriginsSame(acts, k, p, P, Q, s.nextId);
  }

  // A step that starts and stops no queue, and changes none.
  lemma OriginsSame(acts: seq<Action>, k: nat, p: nat, P: Poller, Q: Poller, nextId: nat)
    requires k < |acts| && !acts[k].StartQueue? && !acts[k].StopQueue?
    requires Q.slots == P.slots && Q.pc == P.pc && Q.devs == P.devs
    requires Origins(acts, k, p, P, nextId) && SlotsStarted(acts, k, p, P)
    ensures Origins(acts, k + 1, p, Q, nextId) && SlotsStarted(acts, k + 1, p, Q)
  {
  }

  // A queue is started or stopped.
  lemma OriginsSlot(acts: seq<Action>, k: nat, p: nat, P: Poller, Q: Poller, nextId: nat)
    requires k < |acts| && (acts[k].StartQueue? || acts[k].StopQueue?) && |P.slots| == |P.devs|
    requires Origins(acts, k, p, P, nextId) && SlotsStarted(acts, k, p, P)
    requires var a := acts[k];
             if a.p != p then Q == P
             else
               && a.i < |P.slots| && P.devs[a.i] == a.d
               && Q == P.(slots := P.slots[a.i := if a.StartQueue? then Some(Queue(nextId, a.iova, None)) else None])
    ensures Origins(acts, k + 1, p, Q, if acts[k].StartQueue? then nextId + 1 else nextId)
    ensures SlotsStarted(acts, k + 1, p, Q)
  {
    var a := acts[k];
    assert a.StartQueue? ==> WasStarted(acts, k + 1, a.d, a.p, a.i, a.iova);
  }

  lemma OriginsPolled(acts: seq<Action>, k: nat, p: nat, P: Poller, here: Device, nextId: nat)
    requires k <= |acts| && |P.slots| == |P.devs| && P.pc.at < |P.devs|
    requires Origins(acts, k, p, P, nextId) && SlotsStarted(acts, k, p, P)
    ensures Origins(acts, k, p, Polled(here, P), nextId) && SlotsStarted(acts, k, p, Polled(here, P))
  {
  }

  lemma {:induction false} RunOrigins(states: seq<State>, acts: seq<Action>, k: nat, p: nat)
    requires Run(states, acts) && k < |states| && p < |states[0].pollers|
    ensures |states[k].pollers| == |states[0].pollers|
    ensures Origins(acts, k, p, states[k].pollers[p], states[k].nextId) && SlotsStarted(acts, k, p, states[k].pollers[p])
  {
    if k > 0 {
      RunOrigins(states, acts, k - 1, p);
      RunInv(states, acts, k - 1);
      assert PollerOk(states[k - 1], states[k - 1].pollers[p]);
      assert Enabled(states[k - 1], acts[k - 1]);
      OriginsStep(acts, k - 1, p, states[k - 1]);
    }
  }

  /** In every run, the queue a poller finds in a slot is the one last started there. */
  lemma SlotIsLatest(states: seq<State>, acts: seq<Action>, k: nat, p: nat, i: nat)
    requires Run(states, acts) && k < |states| && p < |states[0].pollers|
    ensures |states[k].pollers| == |states[0].pollers|
    ensures var P := states[k].pollers[p];
            i < |P.slots| && P.slots[i].Some? ==> LastStarted(acts, k, p, i) == Some(P.slots[i].value.iova)
  {
    RunOrigins(states, acts, k, p);
  }

  /** And a poll does use it: with the flag down, two steps lead from the test of the flag to
      the ring if its address is cached; else a third looks it up and stores it, or takes the
      queue off if it is not mapped.  After the lock was given away the address is looked up
      in any case. */
  lemma PollUsesRing(s: State, p: nat)
    requires Inv(s) && p < |s.pollers| && (s.pollers[p].pc.Check? || s.pollers[p].pc.Relock?)
    requires var P := s.pollers[p]; P.slots[P.pc.at].Some? && (P.pc.Check? ==> !Here(s, P).flag)
    ensures var P, dev := s.pollers[p], Here(s, s.pollers[p]);
            var i, q := P.pc.at, P.slots[P.pc.at].value;
            var two := Polled(dev, Polled(dev, P));
            var three := Polled(dev, two);
            if P.pc.Check? && q.ring.Some? then q.iova in dev.mapping && two.pc == Reading(i, q.(ring := Some(dev.mapping[q.iova])))
            else if q.iova in dev.mapping then
              var found := q.(ring := Some(dev.mapping[q.iova]));
              three.pc == Reading(i, found) && three.slots == P.slots[i := Some(found)]
            else three.pc == Check(P.Next()) && three.slots == P.slots[i := None]
  {
    var P := s.pollers[p];
    assert PollerOk(s, P);
    assert PairOk(P, P.pc.at, s.devs[P.devs[P.pc.at]]);
  }

  /** Whenever a poller uses a ring, its bus address is one the guest started a queue with,
      for that device and that poller; and the address it uses is what the device's mapping,
      the last one it was given, has for it. */
  lemma RingNeverStale(states: seq<State>, acts: seq<Action>, k: nat, p: nat)
    requires Run(states, acts) && k < |states| && p < |states[0].pollers|
    ensures |states[k].pollers| == |states[0].pollers| && |states[k].devs| == |states[0].devs|
    ensures var P := states[k].pollers[p];
            P.pc.Reading? ==>
              && P.pc.at < |P.devs| && P.devs[P.pc.at] < |states[0].devs|
              && var d, iova := P.devs[P.pc.at], P.pc.queue.iova;
              var m := states[k].devs[d].mapping;
              && m == LastMapping(states[0], acts, k, d)
              && iova in m && P.pc.queue.ring == Some(m[iova])
              && WasStarted(acts, k, d, p, P.pc.at, iova)
  {
    RunInv(states, acts, k);
    RunOrigins(states, acts, k, p);
    RunSize(states, acts, k);
    var P := states[k].pollers[p];
    assert PollerOk(states[k], P);
    assert PairOk(P, P.pc.at, states[k].devs[P.devs[P.pc.at]]);
    MappingIsLast(states, acts, k, P.devs[P.pc.at]);
  }

  lemma {:induction false} RunSize(states: seq<State>, acts: seq<Action>, k: nat)
    requires Run(states, acts) && k < |states|
    ensures |states[k].devs| == |states[0].devs|
  {
    if k > 0 {
      RunSize(states, acts, k - 1);
      assert states[k] == Apply(states[k - 1], acts[k - 1]);
    }
  }

  function MappingOf(s: State, d: nat): Mapping {
    if d < |s.devs| then s.devs[d].mapping else map[]
  }

  predicate PollingAt(P: Poller, d: nat) {
    P.Polling() && P.pc.at < |P.devs| && P.devs[P.pc.at] == d
  }

  /** A mapping changes only while no poller is in a poll body of that device. */
  lemma NoRemapDuringPoll(states: seq<State>, acts: seq<Action>, k: nat, p: nat, d: nat)
    requires Run(states, acts) && k < |acts| && p < |states[k].pollers|
    requires MappingOf(states[k], d) != MappingOf(states[k + 1], d)
    ensures !PollingAt(states[k].pollers[p], d)
  {
    RunInv(states, acts, k);
    var s, P := states[k], states[k].pollers[p];
    assert PollerOk(s, P) && Enabled(s, acts[k]);
    assert PairOk(P, P.pc.at, s.devs[P.devs[P.pc.at]]);
    assert d < |s.devs| && s.devs[d].Locked();
  }

  predicate InBody(s: State, p: nat, i: nat) {
    p < |s.pollers| && s.pollers[p].Polling() && s.pollers[p].pc.at == i
  }

  // The poll bodies of its device number i that poller p has finished since the device's
  // flag was last raised, in a run.
  ghost function BodiesSince(states: seq<State>, acts: seq<Action>, k: nat, p: nat, i: nat, d: nat): nat
    requires k <= |acts| && |states| == |acts| + 1
  {
    if k == 0 || acts[k - 1] == SetFlag(d) then 0
    else
      BodiesSince(states, acts, k - 1, p, i, d)
      + if acts[k - 1] == Poll(p) && InBody(states[k - 1], p, i) && !InBody(states[k], p, i) then 1 else 0
  }

  lemma SinceStep(s: State, a: Action, p: nat, i: nat)
    requires Enabled(s, a) && p < |s.pollers| && PollerShape(s.pollers[p], |s.devs|) && i < |s.pollers[p].devs|
    ensures var t := Apply(s, a);
            && |t.pollers| == |s.pollers| && t.pollers[p].devs == s.pollers[p].devs && |t.pollers[p].since| == |s.pollers[p].since|
            && t.pollers[p].since[i] == if a == SetFlag(s.pollers[p].devs[i]) then 0
               else s.pollers[p].since[i] + if a == Poll(p) && InBody(s, p, i) && !InBody(t, p, i) then 1 else 0
  {
  }

  lemma {:induction false} SinceCounts(states: seq<State>, acts: seq<Action>, k: nat, p: nat, i: nat)
    requires Run(states, acts) && k < |states| && p < |states[0].pollers| && i < |states[0].pollers[p].devs|
    ensures |states[k].pollers| == |states[0].pollers| && states[k].pollers[p].devs == states[0].pollers[p].devs
    ensures i < |states[k].pollers[p].since|
    ensures states[k].pollers[p].since[i] == BodiesSince(states, acts, k, p, i, states[0].pollers[p].devs[i])
  {
    if k > 0 {
      SinceCounts(states, acts, k - 1, p, i);
      RunInv(states, acts, k - 1);
      assert PollerOk(states[k - 1], states[k - 1].pollers[p]);
      assert Enabled(states[k - 1], acts[k - 1]);
      SinceStep(states[k - 1], acts[k - 1], p, i);
    }
  }

  /** Once the flag is raised a poller finishes at most one more poll body on that
      device before the vfio-user thread has the lock. */
  lemma OneMoreBodyAtMost(states: seq<State>, acts: seq<Action>, k: nat, p: nat, i: nat)
    requires Run(states, acts) && k < |states| && p < |states[0].pollers| && i < |states[0].pollers[p].devs|
    ensures var d := states[0].pollers[p].devs[i];
            d < |states[k].devs| && (states[k].devs[d].pc.Flagged? ==> BodiesSince(states, acts, k, p, i, d) <= 1)
  {
    RunInv(states, acts, k);
    SinceCounts(states, acts, k, p, i);
    assert PollerOk(states[k], states[k].pollers[p]);
    assert PairOk(states[k].pollers[p], i, states[k].devs[states[k].pollers[p].devs[i]]);
  }

  // The steps the vfio-user thread has left to take.
  function VfioLeft(pc: VfioPc): nat {
    match pc
    case Idle => 0
    case Flagged => 4
    case Exclusive => 3
    case Cleared => 2
    case Mapped => 1
  }

  /** A remap is done in four steps of its own once the flag is up: it takes the lock, lowers
      the flag, changes the mapping and lets go.  No other thread's step adds to them. */
  lemma RemapCountsDown(s: State, a: Action, d: nat)
    requires Enabled(s, a) && d < |s.devs|
    ensures var before, after := s.devs[d].pc, Apply(s, a).devs[d].pc;
            if a == SetFlag(d) then before == Idle && VfioLeft(after) == 4
            else if a in {AcquireExclusive(d), ClearFlag(d), UnlockExclusive(d)} || (a.Remap? && a.d == d) then
              VfioLeft(after) == VfioLeft(before) - 1
            else after == before
  {
  }

  // -------------------------------------------------------------- hand-over and deadlock

  // The steps a single-device poller still takes before it has released its lock.
  function Todo(P: Poller): nat {
    match P.pc
    case Relock(_) => 6
    case Body(_, _) => 5
    case Lookup(_, _) => 4
    case Acquire(_) => 3
    case Reading(_, _) => 3
    case Check(_) => 2
    case Unlock(_) => 1
    case Spin(_) => 0
  }

  // All the steps before device d is free.
  ghost function Remaining(pollers: seq<Poller>, d: nat): nat {
    if pollers == [] then 0
    else Remaining(pollers[..|pollers| - 1], d) + (if pollers[|pollers| - 1].devs == [d] then Todo(pollers[|pollers| - 1]) else 0)
  }

  lemma {:induction false} RemainingUpdate(pollers: seq<Poller>, d: nat, p: nat, Q: Poller)
    requires p < |pollers| && Q.devs == pollers[p].devs
    ensures Remaining(pollers[p := Q], d)
         == Remaining(pollers, d) + (if Q.devs == [d] then Todo(Q) - Todo(pollers[p]) else 0)
    decreases |pollers|
  {
    var n := |pollers| - 1;
    if p == n {
      assert pollers[p := Q][..n] == pollers[..n];
    } else {
      assert pollers[p := Q][..n] == pollers[..n][p := Q];
      RemainingUpdate(pollers[..n], d, p, Q);
    }
  }

  lemma {:induction false} RemainingZero(pollers: seq<Poller>, d: nat, p: nat)
    requires p < |pollers| && Remaining(pollers, d) == 0 && pollers[p].devs == [d]
    ensures Todo(pollers[p]) == 0
    decreases |pollers|
  {
    var n := |pollers| - 1;
    if p < n {
      RemainingZero(pollers[..n], d, p);
    }
  }

  lemma {:induction false} RemainingPositive(pollers: seq<Poller>, d: nat) returns (p: nat)
    requires Remaining(pollers, d) > 0
    ensures p < |pollers| && pollers[p].devs == [d] && Todo(pollers[p]) > 0
    decreases |pollers|
  {
    var n := |pollers| - 1;
    if pollers[n].devs == [d] && Todo(pollers[n]) > 0 {
      p := n;
    } else {
      p := RemainingPositive(pollers[..n], d);
    }
  }

  lemma {:induction false} RemainingBound(pollers: seq<Poller>, d: nat)
    ensures Remaining(pollers, d) <= 6 * |pollers|
    decreases |pollers|
  {
    if pollers != [] {
      RemainingBound(pollers[..|pollers| - 1], d);
    }
  }

  // Every poller serves one device only.
  ghost predicate AllSingle(s: State) {
    forall p :: 0 <= p < |s.pollers| ==> |s.pollers[p].devs| == 1
  }

  /** The hand-over is bounded: while device d is flagged, each step of one of its pollers
      uses up one of the remaining steps, and no other thread's step adds any. */
  lemma HandOverCountsDown(s: State, a: Action, d: nat)
    requires Inv(s) && AllSingle(s) && Enabled(s, a)
    requires d < |s.devs| && s.devs[d].pc.Flagged?
    ensures a.Poll? && s.pollers[a.p].devs == [d] ==> Remaining(Apply(s, a).pollers, d) < Remaining(s.pollers, d)
    ensures Remaining(Apply(s, a).pollers, d) <= Remaining(s.pollers, d)
  {
    match a
    case Poll(p) => PollCountsDown(s, p, d);
    case SetFlag(e) => RestartedRemaining(s.pollers, d, e);
    case StartQueue(_, p, i, iova) =>
      RemainingUpdate(s.pollers, d, p, s.pollers[p].(slots := s.pollers[p].slots[i := Some(Queue(s.nextId, iova, None))]));
    case StopQueue(_, p, i) =>
      RemainingUpdate(s.pollers, d, p, s.pollers[p].(slots := s.pollers[p].slots[i := None]));
    case _ =>
  }

  lemma PollCountsDown(s: State, p: nat, d: nat)
    requires Inv(s) && AllSingle(s) && Enabled(s, Poll(p))
    requires d < |s.devs| && s.devs[d].pc.Flagged?
    ensures s.pollers[p].devs == [d] ==> Remaining(Apply(s, Poll(p)).pollers, d) < Remaining(s.pollers, d)
    ensures Remaining(Apply(s, Poll(p)).pollers, d) <= Remaining(s.pollers, d)
  {
    var P := s.pollers[p];
    assert PollerOk(s, P) && DeviceOk(s.devs[d]);
    if P.devs == [d] {
      TodoCountsDown(P, s.devs[d]);
    }
    RemainingUpdate(s.pollers, d, p, Polled(Here(s, P), P));
  }

  lemma TodoCountsDown(P: Poller, dev: Device)
    requires |P.devs| == |P.slots| == |P.since| == 1 && P.pc.at == 0
    requires dev.flag && !dev.Locked() && !P.pc.Spin?
    ensures Todo(Polled(dev, P)) < Todo(P)
  {
  }

  lemma {:induction false} RestartedRemaining(pollers: seq<Poller>, d: nat, e: nat)
    ensures Remaining(AllRestarted(pollers, e), d) == Remaining(pollers, d)
    decreases |pollers|
  {
    if pollers != [] {
      var n := |pollers| - 1;
      RestartedRemaining(pollers[..n], d, e);
      assert AllRestarted(pollers, e)[..n] == AllRestarted(pollers[..n], e);
    }
  }

  // A step of the vfio-user thread of device d, or of a poller that serves it.
  predicate Concerns(s: State, a: Action, d: nat) {
    match a
    case Poll(p) => p < |s.pollers| && d in s.pollers[p].devs
    case StartQueue(_, _, _, _) => false
    case StopQueue(_, _, _) => false
    case _ => a.d == d
  }

  /** No deadlock with single-device pollers: a vfio-user thread in the middle of a remap
      can step, or one of the pollers it waits for can. */
  lemma RemapNeverStuck(s: State, d: nat) returns (a: Action)
    requires Inv(s) && AllSingle(s) && d < |s.devs| && !s.devs[d].pc.Idle?
    ensures Enabled(s, a) && Concerns(s, a, d)
  {
    match s.devs[d].pc
    case Exclusive => a := ClearFlag(d);
    case Cleared => a := Remap(d, map[]);
    case Mapped => a := UnlockExclusive(d);
    case Flagged =>
      if Remaining(s.pollers, d) > 0 {
        var p := RemainingPositive(s.pollers, d);
        assert PollerOk(s, s.pollers[p]);
        a := Poll(p);
      } else {
        AllReleased(s, d);
        a := AcquireExclusive(d);
      }
  }

  lemma AllReleased(s: State, d: nat)
    requires Inv(s) && AllSingle(s) && Remaining(s.pollers, d) == 0
    ensures !Shared(s, d)
  {
    forall p, i | 0 <= p < |s.pollers| && 0 <= i < |s.pollers[p].devs| && s.pollers[p].devs[i] == d
      ensures !s.pollers[p].Holds(i)
    {
      assert PollerOk(s, s.pollers[p]);
      assert s.pollers[p].devs == [d];
      RemainingZero(s.pollers, d, p);
    }
  }

  /** A poller that cannot step waits for a remap that can go on. */
  lemma PollerNeverStuck(s: State, p: nat) returns (a: Action)
    requires Inv(s) && AllSingle(s) && p < |s.pollers|
    ensures Enabled(s, a) && (a == Poll(p) || Concerns(s, a, s.pollers[p].devs[0]))
  {
    assert PollerOk(s, s.pollers[p]);
    var d := s.pollers[p].devs[0];
    assert DeviceOk(s.devs[d]);
    if CanStep(s, s.pollers[p]) {
      a := Poll(p);
    } else {
      a := RemapNeverStuck(s, d);
    }
  }

  /** Over whole runs: with single-device pollers a remap, once begun, is never stuck. */
  lemma RunNeverStuck(states: seq<State>, acts: seq<Action>, k: nat, d: nat) returns (a: Action)
    requires Run(states, acts) && AllSingle(states[0]) && k < |states|
    requires d < |states[k].devs| && !states[k].devs[d].pc.Idle?
    ensures Enabled(states[k], a) && Concerns(states[k], a, d)
  {
    RunInv(states, acts, k);
    RunSingle(states, acts, k);
    a := RemapNeverStuck(states[k], d);
  }

  lemma {:induction false} RunSingle(states: seq<State>, acts: seq<Action>, k: nat)
    requires Run(states, acts) && AllSingle(states[0]) && k < |states|
    ensures AllSingle(states[k])
  {
    if k > 0 {
      RunSingle(states, acts, k - 1);
      assert Enabled(states[k - 1], acts[k - 1]);
      SameDevices(states[k - 1], acts[k - 1]);
    }
  }

  // A poller keeps serving the same devices.
  lemma SameDevices(s: State, a: Action)
    requires Enabled(s, a)
    ensures var t := Apply(s, a);
            && |t.devs| == |s.devs| && |t.pollers| == |s.pollers|
            && forall p :: 0 <= p < |s.pollers| ==> t.pollers[p].devs == s.pollers[p].devs
  {
  }

  // ------------------------------------------------------------------ blocked for ever

  // t is reached from s by these actions.
  ghost predicate Leads(s: State, acts: seq<Action>, t: State)
    decreases acts
  {
    if acts == [] then s == t else Enabled(s, acts[0]) && Leads(Apply(s, acts[0]), acts[1..], t)
  }

  ghost predicate Reaches(s: State, t: State) {
    exists acts :: Leads(s, acts, t)
  }

  lemma {:induction false} LeadsStep(s: State, acts: seq<Action>, t: State, a: Action)
    requires Leads(s, acts, t) && Enabled(t, a)
    ensures Leads(s, acts + [a], Apply(t, a))
    decreases acts
  {
    var all := acts + [a];
    if acts == [] {
      assert all[0] == a && all[1..] == [];
    } else {
      assert all[0] == acts[0] && all[1..] == acts[1..] + [a];
      LeadsStep(Apply(s, acts[0]), acts[1..], t, a);
    }
  }

  lemma ReachesStep(s: State, t: State, a: Action)
    requires Reaches(s, t) && Enabled(t, a)
    ensures Reaches(s, Apply(t, a))
  {
    var acts :| Leads(s, acts, t);
    LeadsStep(s, acts, t, a);
  }

  lemma {:induction false} LeadsInv(s: State, acts: seq<Action>, t: State)
    requires Inv(s) && Leads(s, acts, t)
    ensures Inv(t) && (AllSingle(s) ==> AllSingle(t)) && |t.devs| == |s.devs|
    decreases acts
  {
    if acts != [] {
      StepKeeps(s, acts[0]);
      SameDevices(s, acts[0]);
      LeadsInv(Apply(s, acts[0]), acts[1..], t);
    }
  }

  /** The vfio-user thread of device d waits for the lock, and never gets it. */
  ghost predicate BlockedForEver(s: State, d: nat) {
    forall t :: Reaches(s, t) ==> d < |t.devs| && t.devs[d].pc.Flagged?
  }

  // Poller p, at its device number i, spins on that device's flag.
  predicate Spins(s: State, p: nat, i: nat) {
    p < |s.pollers| && s.pollers[p].pc == Spin(i)
  }

  /** Two pollers of the same two devices, each spinning on the flag of one and sharing the
      lock of the other. */
  ghost predicate Crossed(s: State, d: nat, e: nat, p: nat, q: nat) {
    && d < |s.devs| && e < |s.devs| && s.devs[d].pc.Flagged? && s.devs[e].pc.Flagged?
    && s.devs[d].flag && s.devs[e].flag
    && p < |s.pollers| && q < |s.pollers| && s.pollers[p].devs == s.pollers[q].devs == [d, e]
    && Spins(s, p, 0) && Spins(s, q, 1)
  }

  // Whatever anyone does.
  lemma CrossedStays(s: State, a: Action, d: nat, e: nat, p: nat, q: nat)
    requires Crossed(s, d, e, p, q) && Enabled(s, a)
    ensures Crossed(Apply(s, a), d, e, p, q)
  {
    assert s.pollers[p].devs[1] == e && s.pollers[p].Holds(1);
    assert s.pollers[q].devs[0] == d && s.pollers[q].Holds(0);
    assert Shared(s, d) && Shared(s, e);
  }

  lemma {:induction false} CrossedForEver(s: State, acts: seq<Action>, t: State, d: nat, e: nat, p: nat, q: nat)
    requires Crossed(s, d, e, p, q) && Leads(s, acts, t)
    ensures Crossed(t, d, e, p, q)
    decreases acts
  {
    if acts != [] {
      CrossedStays(s, acts[0], d, e, p, q);
      CrossedForEver(Apply(s, acts[0]), acts[1..], t, d, e, p, q);
    }
  }

  lemma CrossedBlocks(s: State, d: nat, e: nat, p: nat, q: nat)
    requires Crossed(s, d, e, p, q)
    ensures BlockedForEver(s, d) && BlockedForEver(s, e)
  {
    forall t | Reaches(s, t) ensures Crossed(t, d, e, p, q) {
      var acts :| Leads(s, acts, t);
      CrossedForEver(s, acts, t, d, e, p, q);
    }
  }

  // ------------------------------------------------------- how two pollers get there

  // A poller of d and e that has taken its locks and has no queue.
  predicate Ready(P: Poller, d: nat, e: nat, pc: PollPc) {
    P.devs == [d, e] && P.pc == pc && |P.slots| == |P.since| == 2 && P.slots[0].None? && P.slots[1].None?
  }

  // One step of poller p, all else unchanged.
  lemma OnePoll(s0: State, s: State, p: nat) returns (t: State)
    requires Reaches(s0, s) && Enabled(s, Poll(p))
    ensures Reaches(s0, t) && t.devs == s.devs && |t.pollers| == |s.pollers|
    ensures t.pollers[p] == Polled(Here(s, s.pollers[p]), s.pollers[p])
    ensures forall k :: 0 <= k < |s.pollers| && k != p ==> t.pollers[k] == s.pollers[k]
  {
    ReachesStep(s0, s, Poll(p));
    t := Apply(s, Poll(p));
  }

  lemma TakesLocks(s0: State, s: State, p: nat, d: nat, e: nat) returns (t: State)
    requires Reaches(s0, s) && p < |s.pollers| && Ready(s.pollers[p], d, e, Acquire(0))
    requires d < |s.devs| && e < |s.devs| && !s.devs[d].Locked() && !s.devs[e].Locked()
    ensures Reaches(s0, t) && t.devs == s.devs && |t.pollers| == |s.pollers|
    ensures Ready(t.pollers[p], d, e, Check(0))
    ensures forall k :: 0 <= k < |s.pollers| && k != p ==> t.pollers[k] == s.pollers[k]
  {
    var s1 := OnePoll(s0, s, p);
    t := OnePoll(s0, s1, p);
  }

  // An empty poll body on the first device.
  lemma MovesOn(s0: State, s: State, q: nat, d: nat, e: nat) returns (t: State)
    requires Reaches(s0, s) && q < |s.pollers| && Ready(s.pollers[q], d, e, Check(0))
    requires d < |s.devs| && !s.devs[d].flag
    ensures Reaches(s0, t) && t.devs == s.devs && |t.pollers| == |s.pollers|
    ensures Ready(t.pollers[q], d, e, Check(1))
    ensures forall k :: 0 <= k < |s.pollers| && k != q ==> t.pollers[k] == s.pollers[k]
  {
    var s1 := OnePoll(s0, s, q);
    t := OnePoll(s0, s1, q);
  }

  // Sees the flag and lets go.
  lemma LetsGo(s0: State, s: State, p: nat, d: nat, e: nat, i: nat) returns (t: State)
    requires Reaches(s0, s) && p < |s.pollers| && i < 2 && Ready(s.pollers[p], d, e, Check(i))
    requires d < |s.devs| && e < |s.devs| && s.devs[if i == 0 then d else e].flag
    ensures Reaches(s0, t) && t.devs == s.devs && |t.pollers| == |s.pollers|
    ensures Ready(t.pollers[p], d, e, Spin(i))
    ensures forall k :: 0 <= k < |s.pollers| && k != p ==> t.pollers[k] == s.pollers[k]
  {
    var s1 := OnePoll(s0, s, p);
    t := OnePoll(s0, s1, p);
  }

  lemma RaisesFlag(s0: State, s: State, x: nat) returns (t: State)
    requires Reaches(s0, s) && x < |s.devs| && s.devs[x].pc.Idle?
    ensures Reaches(s0, t) && t.devs == s.devs[x := s.devs[x].(flag := true, pc := Flagged)] && |t.pollers| == |s.pollers|
    ensures forall k, d, e, pc :: 0 <= k < |s.pollers| && Ready(s.pollers[k], d, e, pc) ==> Ready(t.pollers[k], d, e, pc)
  {
    ReachesStep(s0, s, SetFlag(x));
    t := Apply(s, SetFlag(x));
  }

  /** In any system, two pollers of the same two devices can block both devices for ever,
      whatever all other threads go on doing. */
  lemma SharedPairCanBlock(s0: State, d: nat, e: nat, p: nat, q: nat) returns (t: State)
    requires Initial(s0) && p < |s0.pollers| && q < |s0.pollers| && p != q
    requires s0.pollers[p].devs == s0.pollers[q].devs == [d, e]
    ensures Reaches(s0, t) && Crossed(t, d, e, p, q) && BlockedForEver(t, d) && BlockedForEver(t, e)
  {
    assert PollerShape(s0.pollers[p], |s0.devs|) && PollerShape(s0.pollers[q], |s0.devs|);
    assert s0.pollers[p].devs[0] == d && s0.pollers[p].devs[1] == e && d != e;
    assert Leads(s0, [], s0);
    var s := TakesLocks(s0, s0, p, d, e);
    s := TakesLocks(s0, s, q, d, e);
    s := MovesOn(s0, s, q, d, e);
    s := RaisesFlag(s0, s, d);
    s := RaisesFlag(s0, s, e);
    s := LetsGo(s0, s, p, d, e, 0);
    t := LetsGo(s0, s, q, d, e, 1);
    CrossedBlocks(t, d, e, p, q);
  }

  /** With single-device pollers the lock is handed over on some continuation, so no device is
      ever blocked for ever. */
  lemma {:induction false} HandOverHappens(s: State, d: nat) returns (t: State)
    requires Inv(s) && AllSingle(s) && d < |s.devs| && s.devs[d].pc.Flagged?
    ensures Reaches(s, t) && d < |t.devs| && !t.devs[d].pc.Flagged?
    decreases Remaining(s.pollers, d)
  {
    if Remaining(s.pollers, d) == 0 {
      AllReleased(s, d);
      assert Leads(s, [], s);
      ReachesStep(s, s, AcquireExclusive(d));
      t := Apply(s, AcquireExclusive(d));
    } else {
      var p := RemainingPositive(s.pollers, d);
      assert PollerOk(s, s.pollers[p]) && DeviceOk(s.devs[d]);
      var a := Poll(p);
      PollCountsDown(s, p, d);
      StepKeeps(s, a);
      SameDevices(s, a);
      t := HandOverHappens(Apply(s, a), d);
      ReachesFirst(s, a, t);
    }
  }

  lemma ReachesFirst(s: State, a: Action, t: State)
    requires Enabled(s, a) && Reaches(Apply(s, a), t)
    ensures Reaches(s, t)
  {
    var acts :| Leads(Apply(s, a), acts, t);
    assert ([a] + acts)[1..] == acts;
    assert Leads(s, [a] + acts, t);
  }

  lemma SingleNeverBlocked(s: State, d: nat)
    requires Inv(s) && AllSingle(s)
    ensures !BlockedForEver(s, d)
  {
    assert Leads(s, [], s);
    assert Reaches(s, s);
    if d < |s.devs| && s.devs[d].pc.Flagged? {
      var t := HandOverHappens(s, d);
    }
  }

  // ------------------------------------------------------- the threads that are started

  function NewPoller(devs: seq<nat>): Poller {
    Poller(devs, seq(|devs|, _ => None), seq(|devs|, _ => 0), Acquire(0))
  }

  /** The pollers VdpdkThreads::start creates for `count` devices: a receive and a transmit
      thread for each device, or, above the threshold, for each pair from the two ends. */
  function Started(count: nat, threshold: nat): seq<Poller> {
    if count > threshold then Paired(count, count / 2) + Middle(count) else Singles(count)
  }

  function Paired(count: nat, pairs: nat): seq<Poller>
    requires 2 * pairs <= count
  {
    if pairs == 0 then []
    else Paired(count, pairs - 1) + [NewPoller([pairs - 1, count - pairs]), NewPoller([pairs - 1, count - pairs])]
  }

  function Middle(count: nat): seq<Poller> {
    if count % 2 == 0 then [] else [NewPoller([count / 2]), NewPoller([count / 2])]
  }

  function Singles(count: nat): seq<Poller> {
    if count == 0 then [] else Singles(count - 1) + [NewPoller([count - 1]), NewPoller([count - 1])]
  }

  function StartState(count: nat, threshold: nat, mappings: seq<Mapping>): State
    requires |mappings| == count
  {
    State(seq(count, d requires 0 <= d < count => Device(false, Idle, mappings[d])), Started(count, threshold), 0)
  }

  // How many pollers serve device d.
  function Serving(pollers: seq<Poller>, d: nat): nat {
    if pollers == [] then 0
    else Serving(pollers[..|pollers| - 1], d) + if d in pollers[|pollers| - 1].devs then 1 else 0
  }

  lemma ServingTwo(pollers: seq<Poller>, P: Poller, Q: Poller, d: nat)
    ensures Serving(pollers + [P, Q], d)
         == Serving(pollers, d) + (if d in P.devs then 1 else 0) + (if d in Q.devs then 1 else 0)
  {
    assert (pollers + [P, Q])[..|pollers| + 1] == pollers + [P];
    assert (pollers + [P])[..|pollers|] == pollers;
  }

  lemma {:induction false} PairedServe(count: nat, pairs: nat, d: nat)
    requires 2 * pairs <= count
    ensures Serving(Paired(count, pairs), d) == if d < pairs || count - pairs <= d < count then 2 else 0
  {
    if pairs > 0 {
      PairedServe(count, pairs - 1, d);
      ServingTwo(Paired(count, pairs - 1), NewPoller([pairs - 1, count - pairs]), NewPoller([pairs - 1, count - pairs]), d);
    }
  }

  lemma {:induction false} SinglesServe(n: nat, d: nat)
    ensures Serving(Singles(n), d) == if d < n then 2 else 0
  {
    if n > 0 {
      SinglesServe(n - 1, d);
      ServingTwo(Singles(n - 1), NewPoller([n - 1]), NewPoller([n - 1]), d);
    }
  }

  /** Every device gets a receive and a transmit poller, shared or not. */
  lemma ServedTwice(count: nat, threshold: nat, d: nat)
    requires d < count
    ensures Serving(Started(count, threshold), d) == 2
  {
    if count <= threshold {
      SinglesServe(count, d);
    } else {
      PairedServe(count, count / 2, d);
      if count % 2 == 0 {
        assert Paired(count, count / 2) + [] == Paired(count, count / 2);
      } else {
        ServingTwo(Paired(count, count / 2), NewPoller([count / 2]), NewPoller([count / 2]), d);
      }
    }
  }

  lemma NewPollerOk(devs: seq<nat>, count: nat)
    requires |devs| > 0 && (forall i :: 0 <= i < |devs| ==> devs[i] < count)
    requires forall i, j :: 0 <= i < j < |devs| ==> devs[i] != devs[j]
    ensures PollerShape(NewPoller(devs), count) && Fresh(NewPoller(devs))
  {
  }

  lemma {:induction false} PairedOk(count: nat, pairs: nat, p: nat)
    requires 2 * pairs <= count && p < |Paired(count, pairs)|
    ensures PollerShape(Paired(count, pairs)[p], count) && Fresh(Paired(count, pairs)[p])
  {
    if p < |Paired(count, pairs - 1)| {
      PairedOk(count, pairs - 1, p);
    } else {
      NewPollerOk([pairs - 1, count - pairs], count);
    }
  }

  lemma {:induction false} SinglesOk(n: nat, count: nat, p: nat)
    requires n <= count && p < |Singles(n)|
    ensures PollerShape(Singles(n)[p], count) && Fresh(Singles(n)[p]) && |Singles(n)[p].devs| == 1
  {
    if p < |Singles(n - 1)| {
      SinglesOk(n - 1, count, p);
    } else {
      NewPollerOk([n - 1], count);
    }
  }

  lemma StartIsInitial(count: nat, threshold: nat, mappings: seq<Mapping>)
    requires |mappings| == count
    ensures Initial(StartState(count, threshold, mappings))
  {
    var s := StartState(count, threshold, mappings);
    forall p | 0 <= p < |s.pollers| ensures PollerShape(s.pollers[p], count) && Fresh(s.pollers[p]) {
      if count <= threshold {
        SinglesOk(count, count, p);
      } else if p < |Paired(count, count / 2)| {
        PairedOk(count, count / 2, p);
      } else {
        NewPollerOk([count / 2], count);
      }
    }
  }

  // The first two pollers serve the first and the last device.
  lemma {:induction false} FirstPair(count: nat, pairs: nat)
    requires 0 < pairs && 2 * pairs <= count
    ensures |Paired(count, pairs)| >= 2
    ensures Paired(count, pairs)[0].devs == Paired(count, pairs)[1].devs == [0, count - 1]
  {
    if pairs > 1 {
      FirstPair(count, pairs - 1);
    } else {
      assert Paired(count, 0) == [];
    }
  }

  // Some device can be blocked for ever.
  ghost predicate CanBlock(s0: State) {
    exists t, d: nat :: Reaches(s0, t) && BlockedForEver(t, d)
  }

  /** The threads that are started can block a device for ever if and only if devices share
      pollers: at least two devices, and more than the threshold. */
  lemma StartCanBlockIff(count: nat, threshold: nat, mappings: seq<Mapping>)
    requires |mappings| == count
    ensures CanBlock(StartState(count, threshold, mappings)) <==> count > threshold && count >= 2
  {
    var s0 := StartState(count, threshold, mappings);
    StartIsInitial(count, threshold, mappings);
    if count > threshold && count >= 2 {
      FirstPair(count, count / 2);
      var t := SharedPairCanBlock(s0, 0, count - 1, 0, 1);
      assert Reaches(s0, t) && BlockedForEver(t, 0);
    } else {
      InitialInv(s0);
      StartsSingle(count, threshold);
      forall t, d: nat | Reaches(s0, t) ensures !BlockedForEver(t, d) {
        var acts :| Leads(s0, acts, t);
        LeadsInv(s0, acts, t);
        SingleNeverBlocked(t, d);
      }
    }
  }

  lemma StartsSingle(count: nat, threshold: nat)
    requires count <= threshold || count < 2
    ensures forall p :: 0 <= p < |Started(count, threshold)| ==> |Started(count, threshold)[p].devs| == 1
  {
    forall p | 0 <= p < |Started(count, threshold)| ensures |Started(count, threshold)[p].devs| == 1 {
      if count <= threshold {
        SinglesOk(count, count, p);
      }
    }
  }

  // ------------------------------------------------------------------ global deadlock

  // No thread can do anything but spin.
  ghost predicate Deadlocked(s: State) {
    && (forall d :: 0 <= d < |s.devs| ==> s.devs[d].pc.Flagged? && Shared(s, d))
    && (forall p :: 0 <= p < |s.pollers| ==> !CanStep(s, s.pollers[p]))
  }

  lemma DeadlockIsFinal(s: State, a: Action)
    requires Deadlocked(s)
    ensures !Enabled(s, a)
  {
  }

  /** It takes two pollers that serve more than one device each. */
  lemma DeadlockNeedsTwo(s: State) returns (p: nat, q: nat)
    requires Inv(s) && Deadlocked(s) && |s.devs| > 0
    ensures p < q < |s.pollers| && |s.pollers[p].devs| > 1 && |s.pollers[q].devs| > 1
  {
    var a, i := HolderOf(s, 0);
    var e := s.pollers[a].devs[s.pollers[a].pc.at];
    var b, k := HolderOf(s, e);
    assert a != b;
    p, q := if a < b then a else b, if a < b then b else a;
  }

  predicate OnlyThere(P: Poller, at: nat)
    requires at < |P.devs|
  {
    forall k :: 0 <= k < |P.devs| && k != at ==> P.devs[k] != P.devs[at]
  }

  // In a deadlock whoever shares a device's lock spins on the flag of another one.
  lemma HolderOf(s: State, d: nat) returns (p: nat, i: nat)
    requires Inv(s) && Deadlocked(s) && d < |s.devs|
    ensures p < |s.pollers| && i < |s.pollers[p].devs| && s.pollers[p].devs[i] == d && s.pollers[p].Holds(i)
    ensures s.pollers[p].pc.Spin? && s.pollers[p].pc.at < |s.pollers[p].devs| && i != s.pollers[p].pc.at
    ensures s.pollers[p].devs[s.pollers[p].pc.at] < |s.devs| && |s.pollers[p].devs| > 1
    ensures OnlyThere(s.pollers[p], s.pollers[p].pc.at)
  {
    assert Shared(s, d);
    var p0, i0 :| 0 <= p0 < |s.pollers| && 0 <= i0 < |s.pollers[p0].devs| && s.pollers[p0].devs[i0] == d && s.pollers[p0].Holds(i0);
    p, i := p0, i0;
    assert PollerOk(s, s.pollers[p]) && !CanStep(s, s.pollers[p]);
  }

  /** And two suffice, when they are all there is: the pair of two shared devices. */
  lemma SharedPairCanDeadlock(mappings: seq<Mapping>) returns (t: State)
    requires |mappings| == 2
    ensures Reaches(StartState(2, 0, mappings), t) && Deadlocked(t)
  {
    var s0 := StartState(2, 0, mappings);
    StartIsInitial(2, 0, mappings);
    FirstPair(2, 1);
    assert Paired(2, 0) == [];
    t := SharedPairCanBlock(s0, 0, 1, 0, 1);
    var acts :| Leads(s0, acts, t);
    LeadsSame(s0, acts, t);
    CrossedIsDeadlock(t);
  }

  lemma CrossedIsDeadlock(t: State)
    requires |t.devs| == |t.pollers| == 2 && Crossed(t, 0, 1, 0, 1)
    ensures Deadlocked(t)
  {
    assert t.pollers[1].devs[0] == 0 && t.pollers[1].Holds(0);
    assert t.pollers[0].devs[1] == 1 && t.pollers[0].Holds(1);
  }

  lemma {:induction false} LeadsSame(s: State, acts: seq<Action>, t: State)
    requires Leads(s, acts, t)
    ensures |t.devs| == |s.devs| && |t.pollers| == |s.pollers|
    decreases acts
  {
    if acts != [] {
      SameDevices(s, acts[0]);
      LeadsSame(Apply(s, acts[0]), acts[1..], t);
    }
  }
}
