/**
  Connection establishment of SimBricks base interfaces: the connection states, the two
  introductions a listener and a connecter exchange, and the loop that brings a set of
  interfaces up.  Sockets, polling and shared memory are inputs.
 */
module Handshake {

  const VERSION: nat := 1

  datatype Conn = Closed | Listening | Connecting | AwaitRxTx | AwaitRx | AwaitTx | Open

  datatype SyncMode = Disabled | Optional | Required

  /** One direction of the channel, in the shared memory pool. */
  datatype Ring = Ring(offset: nat, elen: nat, entries: nat)

  /** struct SimbricksBaseIf, as far as the handshake goes. */
  datatype Interface = Interface(
    listener: bool, mode: SyncMode, proto: nat, conn: Conn, sync: bool, incoming: Ring, outgoing: Ring)

  datatype Intro =
    | ListenerIntro(version: nat, sync: bool, force: bool, l2c: Ring, c2l: Ring, proto: nat)
    | ConnecterIntro(version: nat, sync: bool, force: bool, proto: nat)

  // ------------------------------------------------------------------- environment

  datatype Attempt = Success | TryAgain | Failure

  datatype Received = Nothing | ReceiveError | Message(intro: Intro, fits: bool, mapped: bool)

  /** What the system calls of one pass return for one interface. */
  datatype Input = Input(connect: Attempt, sent: bool, received: Received)

  // A listener hears from a connecter and the other way round.
  predicate Fitting(b: Interface, r: Received) {
    r.Message? ==> (b.listener <==> r.intro.ConnecterIntro?)
  }

  // ---------------------------------------------------------------------- the calls

  // A call's return value: -1, 0 or 1.
  datatype Ret = Error | Ok | Wait

  datatype Result = Result(b: Interface, ret: Ret)

  /** SimbricksBaseIfConnected, with accept4, or poll and getsockopt, as input. */
  function Connected(b: Interface, attempt: Attempt): Result {
    match b.conn
    case Closed => Result(b, Error)
    case Listening => Attempted(b, attempt)
    case Connecting => Attempted(b, attempt)
    case _ => Result(b, Ok)
  }

  function Attempted(b: Interface, attempt: Attempt): Result {
    match attempt
    case Success => Result(b.(conn := AwaitRxTx), Ok)
    case TryAgain => Result(b, Wait)
    case Failure => Result(b.(conn := Closed), Error)
  }

  // The introduction an interface sends.
  function IntroOf(b: Interface): Intro {
    if b.listener then
      ListenerIntro(VERSION, b.mode != Disabled, b.mode == Required, b.outgoing, b.incoming, b.proto)
    else
      ConnecterIntro(VERSION, b.mode != Disabled, b.mode == Required, b.proto)
  }

  /** SimbricksBaseIfIntroSend; `sent` says that sendmsg sent everything. */
  function IntroSend(b: Interface, sent: bool): Result {
    if b.conn != AwaitRxTx && b.conn != AwaitTx then Result(b, Error)
    else if !sent then Result(b, Error)
    else Result(b.(conn := if b.conn == AwaitTx then Open else AwaitRx), Ok)
  }

  // The synchronisation rule: an error, or whether the link is synchronised.
  datatype Decision = Refuse | Agree(sync: bool)

  function Decide(mode: SyncMode, sync: bool, force: bool): Decision {
    if force && mode == Disabled then Refuse
    else if !sync && !force && mode == Required then Refuse
    else if mode == Disabled then Agree(false)
    else Agree(sync || force)
  }

  /** SimbricksBaseIfIntroRecv */
  function IntroRecv(b: Interface, r: Received): Result
    requires Fitting(b, r)
  {
    if b.conn != AwaitRxTx && b.conn != AwaitRx then Result(b, Error)
    else if r.Nothing? then Result(b, Wait)
    else if r.ReceiveError? then Result(b, Error)
    else if r.intro.version != VERSION || r.intro.proto != b.proto then Result(b, Error)
    else
      var d := Decide(b.mode, r.intro.sync, r.intro.force);
      if d.Refuse? then Result(b, Error)
      else if !r.fits then Result(b.(sync := d.sync), Error)
      else if !b.listener && !r.mapped then Result(b.(sync := d.sync), Error)
      else Result(Introduced(b, d.sync, r.intro), Ok)
  }

  function Introduced(b: Interface, sync: bool, intro: Intro): Interface {
    var c := b.(sync := sync, conn := if b.conn == AwaitRx then Open else AwaitTx);
    if intro.ListenerIntro? then c.(outgoing := intro.c2l, incoming := intro.l2c) else c
  }

  /** An introduction is accepted exactly when one is awaited, it is of this version and
      protocol, neither side insists on what the other rules out, and the memory it names can
      be used; otherwise the connection state stays. */
  lemma AcceptsIff(b: Interface, r: Received)
    requires Fitting(b, r)
    ensures IntroRecv(b, r).ret == Ok <==>
            && (b.conn == AwaitRx || b.conn == AwaitRxTx) && r.Message?
            && r.intro.version == 1 && r.intro.proto == b.proto
            && !(b.mode == Disabled && r.intro.force) && !(b.mode == Required && !r.intro.sync && !r.intro.force)
            && r.fits && (b.listener || r.mapped)
    ensures IntroRecv(b, r).ret == Wait <==> (b.conn == AwaitRx || b.conn == AwaitRxTx) && r.Nothing?
    ensures IntroRecv(b, r).ret != Ok ==> IntroRecv(b, r).b.conn == b.conn
  {
  }

  /** Sending and receiving may come in either order: the interface ends up open, and the
      same. */
  lemma EitherOrder(b: Interface, r: Received)
    requires b.conn == AwaitRxTx && Fitting(b, r) && IntroRecv(b, r).ret == Ok
    ensures IntroSend(IntroRecv(b, r).b, true).ret == Ok
    ensures IntroRecv(IntroSend(b, true).b, r).ret == Ok
    ensures IntroSend(IntroRecv(b, r).b, true).b == IntroRecv(IntroSend(b, true).b, r).b
    ensures IntroRecv(IntroSend(b, true).b, r).b.conn == Open
  {
  }

  // ------------------------------------------------------------------- one interface

  /** What a pass over the interfaces does with one of them: `polls` file descriptors. */
  datatype Pass = Failed(at: Interface) | Passed(b: Interface, polls: nat)

  function PassOver(b: Interface, x: Input): Pass
    requires Fitting(b, x.received)
  {
    if b.conn == Closed then Failed(b)
    else
      var c := Connected(b, x.connect);
      if c.ret == Error then Failed(c.b)
      else
        var polls := if c.ret == Wait then 1 else 0;
        var s := if c.b.conn == AwaitTx || c.b.conn == AwaitRxTx then IntroSend(c.b, x.sent) else Result(c.b, Ok);
        if s.ret == Error then Failed(s.b)
        else if s.b.conn == AwaitRx then
          var r := IntroRecv(s.b, x.received);
          if r.ret == Error then Failed(r.b)
          else Passed(r.b, polls + if r.ret == Wait then 1 else 0)
        else Passed(s.b, polls)
  }

  // Whether the interface sent its introduction in the pass.
  predicate Sends(b: Interface, x: Input) {
    x.sent && Connected(b, x.connect).b.conn in {AwaitTx, AwaitRxTx} && Connected(b, x.connect).ret != Error
  }

  /** After a pass without error an interface is open, or it has exactly one descriptor to
      be polled; it never goes back. */
  lemma OpenOrPolled(b: Interface, x: Input)
    requires Fitting(b, x.received)
    ensures var p := PassOver(b, x);
            p.Passed? ==>
              && (p.b.conn == Open <==> p.polls == 0)
              && (p.b.conn != Open <==> p.polls == 1)
              && Rank(b.conn) <= Rank(p.b.conn)
              && p.b.listener == b.listener && p.b.mode == b.mode && p.b.proto == b.proto
              && (b.listener ==> p.b.incoming == b.incoming && p.b.outgoing == b.outgoing)
  {
  }

  function Rank(c: Conn): nat {
    match c
    case Closed => 0
    case Listening => 1
    case Connecting => 1
    case AwaitRxTx => 2
    case AwaitRx => 3
    case AwaitTx => 3
    case Open => 4
  }

  // ---------------------------------------------------------------- the whole loop

  ghost function OpenCount(ifs: seq<Interface>): nat {
    if ifs == [] then 0
    else OpenCount(ifs[..|ifs| - 1]) + if ifs[|ifs| - 1].conn == Open then 1 else 0
  }

  ghost predicate AllFitting(ifs: seq<Interface>, inputs: seq<Input>) {
    |ifs| == |inputs| && forall i :: 0 <= i < |ifs| ==> Fitting(ifs[i], inputs[i].received)
  }

  // A pass over the interface succeeded, and left it as `c`.
  ghost predicate Became(b: Interface, x: Input, c: Interface) {
    Fitting(b, x.received) && PassOver(b, x).Passed? && c == PassOver(b, x).b
  }

  lemma {:induction false} OpenCountBound(ifs: seq<Interface>)
    ensures OpenCount(ifs) <= |ifs|
    ensures OpenCount(ifs) == |ifs| <==> forall i :: 0 <= i < |ifs| ==> ifs[i].conn == Open
    decreases |ifs|
  {
    if ifs != [] {
      OpenCountBound(ifs[..|ifs| - 1]);
    }
  }

  /** One pass of the loop of SimBricksBaseIfEstablish.  Without an error the number of
      descriptors to poll is the number of interfaces not open: neither assertion fails, and
      the "no poll events" abort cannot be reached. */
  method OnePass(ifs: array<Interface>, inputs: seq<Input>) returns (ok: bool, pfds: nat, established: nat)
    requires AllFitting(ifs[..], inputs)
    modifies ifs
    ensures ok ==> established == OpenCount(ifs[..]) && pfds + established == ifs.Length
    ensures ok ==> !(pfds == 0 && established != ifs.Length)
    ensures ok ==> forall i :: 0 <= i < ifs.Length ==> Became(old(ifs[i]), inputs[i], ifs[i])
    ensures !ok ==> exists i :: 0 <= i < ifs.Length && PassOver(old(ifs[i]), inputs[i]).Failed?
  {
    pfds, established := 0, 0;
    for i := 0 to ifs.Length
      invariant pfds + established == i && established == OpenCount(ifs[..i])
      invariant forall k :: 0 <= k < i ==> Became(old(ifs[k]), inputs[k], ifs[k])
      invariant forall k :: i <= k < ifs.Length ==> ifs[k] == old(ifs[k])
    {
      ghost var done := ifs[..i];
      assert Fitting(old(ifs[..])[i], inputs[i].received);
      OpenOrPolled(ifs[i], inputs[i]);
      var more;
      ok, more := VisitInterface(ifs, i, inputs[i]);
      if !ok {
        return false, 0, 0;
      }
      pfds := pfds + more;
      assert pfds <= ifs.Length;
      if ifs[i].conn == Open {
        established := established + 1;
      }
      assert ifs[..i] == done && ifs[..i + 1] == done + [ifs[i]];
      assert (done + [ifs[i]])[..i] == done;
    }
    assert ifs[..ifs.Length] == ifs[..];
    ok := true;
  }

  // The body of that loop for one interface, call by call.
  method VisitInterface(ifs: array<Interface>, i: nat, x: Input) returns (ok: bool, pfds: nat)
    requires i < ifs.Length && Fitting(ifs[i], x.received)
    modifies ifs
    ensures forall k :: 0 <= k < ifs.Length && k != i ==> ifs[k] == old(ifs[k])
    ensures var p := PassOver(old(ifs[i]), x);
            && ok == p.Passed?
            && (ok ==> ifs[i] == p.b && pfds == p.polls)
            && (!ok ==> ifs[i] == p.at)
  {
    pfds := 0;
    if ifs[i].conn == Closed {
      return false, pfds;
    }
    var c := Connected(ifs[i], x.connect);
    ifs[i] := c.b;
    if c.ret == Error {
      return false, pfds;
    } else if c.ret == Wait {
      pfds := pfds + 1;
    }
    if ifs[i].conn == AwaitTx || ifs[i].conn == AwaitRxTx {
      var s := IntroSend(ifs[i], x.sent);
      ifs[i] := s.b;
      if s.ret != Ok {
        return false, pfds;
      }
    }
    if ifs[i].conn == AwaitRx {
      var r := IntroRecv(ifs[i], x.received);
      ifs[i] := r.b;
      if r.ret == Error {
        return false, pfds;
      } else if r.ret == Wait {
        pfds := pfds + 1;
      }
    }
    ok := true;
  }

  /** SimBricksBaseIfEstablish, for as many passes as there are inputs: it stops with all
      interfaces open, with an error, or still waiting for a descriptor. */
  method Establish(ifs: array<Interface>, passes: seq<seq<Input>>) returns (ok: bool, established: nat)
    requires forall n :: 0 <= n < |passes| ==> AllFitting(ifs[..], passes[n])
    modifies ifs
    ensures ok && established == ifs.Length ==> forall i :: 0 <= i < ifs.Length ==> ifs[i].conn == Open
    ensures ok && established != ifs.Length && passes != [] ==> exists i :: 0 <= i < ifs.Length && ifs[i].conn != Open
    ensures forall i :: 0 <= i < ifs.Length && ok ==> Rank(old(ifs[i].conn)) <= Rank(ifs[i].conn)
  {
    established := 0;
    ghost var start := ifs[..];
    for n := 0 to |passes|
      invariant forall i :: 0 <= i < ifs.Length ==> Progressed(start[i], ifs[i])
      invariant established == if n == 0 then 0 else OpenCount(ifs[..])
    {
      if established == ifs.Length {
        break;
      }
      ghost var before := ifs[..];
      assert AllFitting(before, passes[n]) by {
        assert AllFitting(start, passes[n]);
      }
      var done, pfds;
      done, pfds, established := OnePass(ifs, passes[n]);
      if !done {
        return false, 0;
      }
      forall i | 0 <= i < ifs.Length ensures Progressed(start[i], ifs[i]) {
        assert Became(before[i], passes[n][i], ifs[i]);
        OpenOrPolled(before[i], passes[n][i]);
      }
    }
    OpenCountBound(ifs[..]);
    ok := true;
  }

  // Later in the handshake, in the same role.
  predicate Progressed(b: Interface, c: Interface) {
    c.listener == b.listener && Rank(b.conn) <= Rank(c.conn)
  }

  // --------------------------------------------------------------------- one link

  // Whether two modes can be linked, and with what result.
  predicate Compatible(a: SyncMode, b: SyncMode) {
    !(a == Disabled && b == Required) && !(a == Required && b == Disabled)
  }

  /** Both ends accept each other's introduction or neither does, and they come to the same
      decision. */
  lemma SameDecision(l: Interface, c: Interface)
    ensures var atListener := Decide(l.mode, IntroOf(c).sync, IntroOf(c).force);
            var atConnecter := Decide(c.mode, IntroOf(l).sync, IntroOf(l).force);
            && atListener == atConnecter
            && (atListener.Agree? <==> Compatible(l.mode, c.mode))
            && (atListener.Agree? ==> (atListener.sync <==> l.mode != Disabled && c.mode != Disabled))
  {
  }

  /** The two ends of a link, and the introductions on their way. */
  datatype Link = Link(l: Interface, c: Interface, toC: seq<Intro>, toL: seq<Intro>)

  datatype Move = ListenerPass(x: Input) | ConnecterPass(x: Input)

  // A pass sees what its peer has sent, and no other message.
  predicate CanMove(k: Link, m: Move) {
    match m
    case ListenerPass(x) => Fitting(k.l, x.received) && (x.received.Message? ==> x.received.intro in k.toL)
    case ConnecterPass(x) => Fitting(k.c, x.received) && (x.received.Message? ==> x.received.intro in k.toC)
  }

  function After(p: Pass): Interface {
    match p
    case Failed(b) => b.(conn := Closed)     // the caller gives up
    case Passed(b, _) => b
  }

  function Moved(k: Link, m: Move): Link
    requires CanMove(k, m)
  {
    match m
    case ListenerPass(x) =>
      k.(l := After(PassOver(k.l, x)), toC := k.toC + if Sends(k.l, x) then [IntroOf(k.l)] else [])
    case ConnecterPass(x) =>
      k.(c := After(PassOver(k.c, x)), toL := k.toL + if Sends(k.c, x) then [IntroOf(k.c)] else [])
  }

  // The link before either side has connected.
  predicate Fresh(k: Link) {
    && k.l.listener && !k.c.listener && k.toC == k.toL == []
    && k.l.conn in {Listening, AwaitRxTx} && k.c.conn in {Connecting, AwaitRxTx}
  }

  // An end that started as `s`: it keeps its configuration, and once open it has taken
  // over what its peer offered.
  predicate EndOk(b: Interface, s: Interface, peer: Interface) {
    && b.listener == s.listener && b.mode == s.mode && b.proto == s.proto && b.conn != AwaitTx
    && (b.listener ==> b.incoming == s.incoming && b.outgoing == s.outgoing)
    && (b.conn == Open ==>
      && Decide(s.mode, IntroOf(peer).sync, IntroOf(peer).force) == Agree(b.sync) && s.proto == peer.proto
      && (!b.listener ==> b.incoming == peer.outgoing && b.outgoing == peer.incoming))
  }

  lemma PassKeeps(b: Interface, s: Interface, peer: Interface, x: Input)
    requires EndOk(b, s, peer) && Fitting(b, x.received) && s.listener != peer.listener
    requires x.received.Message? ==> x.received.intro == IntroOf(peer)
    ensures EndOk(After(PassOver(b, x)), s, peer)
  {
    var c := Connected(b, x.connect).b;
    ConnectKeeps(b, s, peer, x.connect);
    var d := if c.conn == AwaitTx || c.conn == AwaitRxTx then IntroSend(c, x.sent).b else c;
    SendKeeps(c, s, peer, x.sent);
    if d.conn == AwaitRx {
      RecvKeeps(d, s, peer, x.received);
    }
  }

  lemma ConnectKeeps(b: Interface, s: Interface, peer: Interface, attempt: Attempt)
    requires EndOk(b, s, peer)
    ensures EndOk(Connected(b, attempt).b, s, peer)
  {
  }

  lemma SendKeeps(b: Interface, s: Interface, peer: Interface, sent: bool)
    requires EndOk(b, s, peer)
    ensures EndOk(IntroSend(b, sent).b, s, peer)
  {
  }

  lemma RecvKeeps(b: Interface, s: Interface, peer: Interface, r: Received)
    requires EndOk(b, s, peer) && Fitting(b, r) && s.listener != peer.listener && b.conn == AwaitRx
    requires r.Message? ==> r.intro == IntroOf(peer)
    ensures EndOk(IntroRecv(b, r).b, s, peer)
  {
  }

  lemma SendsItsIntro(b: Interface, s: Interface, peer: Interface)
    requires EndOk(b, s, peer)
    ensures IntroOf(b) == IntroOf(s)
  {
  }

  // Both ends, and the introductions sent, come from the same configuration.
  predicate LinkOk(k: Link, s: Link) {
    && EndOk(k.l, s.l, s.c) && EndOk(k.c, s.c, s.l)
    && (forall i <- k.toC :: i == IntroOf(s.l))
    && (forall i <- k.toL :: i == IntroOf(s.c))
  }

  lemma MoveKeeps(k: Link, s: Link, m: Move)
    requires LinkOk(k, s) && CanMove(k, m) && s.l.listener && !s.c.listener
    ensures LinkOk(Moved(k, m), s)
  {
    match m
    case ListenerPass(x) =>
      PassKeeps(k.l, s.l, s.c, x);
      SendsItsIntro(k.l, s.l, s.c);
    case ConnecterPass(x) =>
      PassKeeps(k.c, s.c, s.l, x);
      SendsItsIntro(k.c, s.c, s.l);
  }

  ghost predicate LinkRun(run: seq<Link>, moves: seq<Move>) {
    && |run| == |moves| + 1 && Fresh(run[0])
    && forall n {:trigger moves[n]} :: 0 <= n < |moves| ==> CanMove(run[n], moves[n]) && run[n + 1] == Moved(run[n], moves[n])
  }

  lemma {:induction false} RunOk(run: seq<Link>, moves: seq<Move>, n: nat)
    requires LinkRun(run, moves) && n < |run|
    ensures LinkOk(run[n], run[0])
  {
    if n > 0 {
      RunOk(run, moves, n - 1);
      assert CanMove(run[n - 1], moves[n - 1]);
      MoveKeeps(run[n - 1], run[0], moves[n - 1]);
    }
  }

  /** Whenever both ends of a link are open they agree on synchronisation, on the protocol,
      and on the place, entry size and entry count of both queues. */
  lemma OpenEndsAgree(run: seq<Link>, moves: seq<Move>, n: nat)
    requires LinkRun(run, moves) && n < |run|
    requires run[n].l.conn == Open && run[n].c.conn == Open
    ensures var k := run[n];
            && k.l.sync == k.c.sync && k.l.proto == k.c.proto
            && k.c.incoming == k.l.outgoing && k.c.outgoing == k.l.incoming
            && (k.l.sync <==> k.l.mode != Disabled && k.c.mode != Disabled)
            && Compatible(k.l.mode, k.c.mode)
  {
    RunOk(run, moves, n);
    SameDecision(run[0].l, run[0].c);
  }

  // -------------------------------------------------------------------- completion

  // An end that waits for an introduction, or is open, has sent its own.
  predicate SentOk(k: Link, s: Link) {
    && (k.l.conn in {AwaitRx, Open} ==> IntroOf(s.l) in k.toC)
    && (k.c.conn in {AwaitRx, Open} ==> IntroOf(s.c) in k.toL)
  }

  lemma MoveKeepsSent(k: Link, s: Link, m: Move)
    requires LinkOk(k, s) && SentOk(k, s) && CanMove(k, m)
    ensures SentOk(Moved(k, m), s)
  {
    SendsItsIntro(k.l, s.l, s.c);
    SendsItsIntro(k.c, s.c, s.l);
  }

  lemma {:induction false} RunSent(run: seq<Link>, moves: seq<Move>, n: nat)
    requires LinkRun(run, moves) && n < |run|
    ensures SentOk(run[n], run[0])
  {
    if n > 0 {
      RunSent(run, moves, n - 1);
      RunOk(run, moves, n - 1);
      assert CanMove(run[n - 1], moves[n - 1]);
      MoveKeepsSent(run[n - 1], run[0], moves[n - 1]);
    }
  }

  // The two ends can be linked.
  predicate Match(s: Link) {
    Compatible(s.l.mode, s.c.mode) && s.l.proto == s.c.proto
  }

  /** A pass fails only if one of its calls does: with ends that match, the introduction that
      arrives is never refused. */
  lemma FailsOnlyIf(b: Interface, s: Interface, peer: Interface, x: Input)
    requires EndOk(b, s, peer) && Fitting(b, x.received) && b.conn != Closed
    requires Compatible(s.mode, peer.mode) && s.proto == peer.proto
    requires x.received.Message? ==> x.received.intro == IntroOf(peer)
    requires PassOver(b, x).Failed?
    ensures || x.connect.Failure? || !x.sent || x.received.ReceiveError?
            || (x.received.Message? && (!x.received.fits || (!b.listener && !x.received.mapped)))
  {
  }

  // A pass in which every call succeeds, and what the peer has sent arrives.
  function Smooth(sent: seq<Intro>): Input {
    Input(Success, true, if sent == [] then Nothing else Message(sent[0], true, true))
  }

  function SmoothListener(k: Link): Move { ListenerPass(Smooth(k.toL)) }

  function SmoothConnecter(k: Link): Move { ConnecterPass(Smooth(k.toC)) }

  // One end after such a pass.
  lemma SmoothPass(b: Interface, s: Interface, peer: Interface, sent: seq<Intro>)
    requires EndOk(b, s, peer) && b.conn != Closed && s.listener != peer.listener
    requires Compatible(s.mode, peer.mode) && s.proto == peer.proto && forall i <- sent :: i == IntroOf(peer)
    ensures Fitting(b, Smooth(sent).received)
    ensures After(PassOver(b, Smooth(sent))).conn == if sent == [] && b.conn != Open then AwaitRx else Open
    ensures b.conn in {Listening, Connecting, AwaitRxTx} ==> Sends(b, Smooth(sent))
  {
    if sent != [] {
      assert sent[0] in sent;
    }
    assert b.conn in {Listening, Connecting, AwaitRxTx, AwaitRx, Open};
  }

  /** The handshake completes.  From every state that two matching ends can come to with
      neither having given up, one more pass of each end and another of the first, with no
      call failing and with what was sent arriving, leave both open. */
  lemma HandshakeCompletes(run: seq<Link>, moves: seq<Move>, n: nat)
    requires LinkRun(run, moves) && n < |run| && Match(run[0])
    requires run[n].l.conn != Closed && run[n].c.conn != Closed
    ensures CanMove(run[n], SmoothListener(run[n]))
    ensures var k1 := Moved(run[n], SmoothListener(run[n]));
            && CanMove(k1, SmoothConnecter(k1))
            && var k2 := Moved(k1, SmoothConnecter(k1));
            && CanMove(k2, SmoothListener(k2))
            && var k3 := Moved(k2, SmoothListener(k2));
            k3.l.conn == Open && k3.c.conn == Open
  {
    RunOk(run, moves, n);
    RunSent(run, moves, n);
    var s, k := run[0], run[n];
    var k1 := SmoothL(k, s);
    var k2 := SmoothC(k1, s);
    var k3 := SmoothL(k2, s);
  }

  lemma SmoothL(k: Link, s: Link) returns (t: Link)
    requires LinkOk(k, s) && SentOk(k, s) && Match(s) && s.l.listener && !s.c.listener
    requires k.l.conn != Closed
    ensures CanMove(k, SmoothListener(k)) && t == Moved(k, SmoothListener(k))
    ensures LinkOk(t, s) && SentOk(t, s) && t.c == k.c && t.toL == k.toL && IntroOf(s.l) in t.toC
    ensures t.l.conn == if k.toL == [] && k.l.conn != Open then AwaitRx else Open
  {
    SmoothPass(k.l, s.l, s.c, k.toL);
    t := Moved(k, SmoothListener(k));
    MoveKeeps(k, s, SmoothListener(k));
    MoveKeepsSent(k, s, SmoothListener(k));
  }

  lemma SmoothC(k: Link, s: Link) returns (t: Link)
    requires LinkOk(k, s) && SentOk(k, s) && Match(s) && s.l.listener && !s.c.listener
    requires k.c.conn != Closed
    ensures CanMove(k, SmoothConnecter(k)) && t == Moved(k, SmoothConnecter(k))
    ensures LinkOk(t, s) && SentOk(t, s) && t.l == k.l && t.toC == k.toC && IntroOf(s.c) in t.toL
    ensures t.c.conn == if k.toC == [] && k.c.conn != Open then AwaitRx else Open
  {
    SmoothPass(k.c, s.c, s.l, k.toC);
    t := Moved(k, SmoothConnecter(k));
    MoveKeeps(k, s, SmoothConnecter(k));
    MoveKeepsSent(k, s, SmoothConnecter(k));
  }

  ghost predicate OpensInRun(run: seq<Link>, moves: seq<Move>, k: Link) {
    LinkRun(run, moves) && run[0] == k && run[|moves|].l.conn == Open && run[|moves|].c.conn == Open
  }

  lemma ThreeMoves(k: Link, m1: Move, k1: Link, m2: Move, k2: Link, m3: Move, k3: Link)
    requires Fresh(k) && CanMove(k, m1) && k1 == Moved(k, m1) && CanMove(k1, m2) && k2 == Moved(k1, m2)
    requires CanMove(k2, m3) && k3 == Moved(k2, m3) && k3.l.conn == Open && k3.c.conn == Open
    ensures OpensInRun([k, k1, k2, k3], [m1, m2, m3], k)
  {
  }

  /** Two ends can both become open if and only if their modes are compatible and they speak
      the same protocol. */
  lemma CanOpenIff(k: Link)
    requires Fresh(k)
    ensures (exists run, moves :: OpensInRun(run, moves, k)) <==> Match(k)
  {
    if Match(k) {
      assert LinkRun([k], []);
      HandshakeCompletes([k], [], 0);
      var k1 := Moved(k, SmoothListener(k));
      var k2 := Moved(k1, SmoothConnecter(k1));
      var k3 := Moved(k2, SmoothListener(k2));
      ThreeMoves(k, SmoothListener(k), k1, SmoothConnecter(k1), k2, SmoothListener(k2), k3);
    }
    forall run, moves | OpensInRun(run, moves, k) ensures Match(k) {
      OpenEndsAgree(run, moves, |moves|);
      RunOk(run, moves, |moves|);
    }
  }
}
