/**
 One run of the whole connection: after the handshake a message goes over WebRTC, the sender falls
 back to the relay, and the next message goes over the relay.
 */
module SwitchRun {
  import opened Core
  import opened Header
  import opened Encoder
  import opened Decoder
  import opened Framed
  import opened Direction
  import opened Pair
  import C = Conn
  import opened EndToEnd

  type Sig = C.Sig<Packet>
  type Party = C.Party<Packet>

  // ----- extending a run by one step

  predicate ConnCan(e: End, other: End, m: C.Move<Packet>) {
    && C.CanMove(e.conn, other.conn, m)
    && (m.Local? && m.cmd.SendMessage? ==> e.outbox != [] && m.cmd.f == e.outbox[0])
  }

  function ConnAfter(e: End, other: End, m: C.Move<Packet>): End
    requires ConnCan(e, other, m)
  {
    e.(conn := C.MoveOf(e.conn, other.conn, m),
       outbox := if m.Local? && m.cmd.SendMessage? then e.outbox[1..] else e.outbox)
  }

  function FrameAfter(e: End, a: Action): End
    requires Can(e.peer, Inbox(e), a)
  {
    var m := Act(e.peer, Inbox(e), a);
    End(m.peer, e.conn, if e.conn.task.phase == C.Closed then e.outbox else e.outbox + m.queued,
        if a.Receive? then e.taken + 1 else e.taken)
  }

  lemma Extend(t: seq<Whole>, w: Whole) returns (u: seq<Whole>)
    requires EndToEnd.Behavior(t) && EndToEnd.Next(t[|t| - 1], w)
    ensures EndToEnd.Behavior(u) && u[|u| - 1] == w
  {
    u := t + [w];
    forall i | 0 <= i < |u| - 1
      ensures EndToEnd.Next(u[i], u[i + 1])
    {
      if i < |t| - 1 {
        assert EndToEnd.Next(t[i], t[i + 1]);
      }
    }
  }

  lemma AMoves(t: seq<Whole>, m: C.Move<Packet>, w: Whole, e: End) returns (u: seq<Whole>)
    requires EndToEnd.Behavior(t) && t[|t| - 1] == w && ConnCan(w.a, w.b, m) && e == ConnAfter(w.a, w.b, m)
    ensures EndToEnd.Behavior(u) && u[|u| - 1] == Whole(e, w.b)
  {
    assert ConnStep(w.a, w.b, e, m);
    u := Extend(t, Whole(e, w.b));
  }

  lemma BMoves(t: seq<Whole>, m: C.Move<Packet>, w: Whole, e: End) returns (u: seq<Whole>)
    requires EndToEnd.Behavior(t) && t[|t| - 1] == w && ConnCan(w.b, w.a, m) && e == ConnAfter(w.b, w.a, m)
    ensures EndToEnd.Behavior(u) && u[|u| - 1] == Whole(w.a, e)
  {
    assert ConnStep(w.b, w.a, e, m);
    u := Extend(t, Whole(w.a, e));
  }

  lemma AFrames(t: seq<Whole>, a: Action, w: Whole, e: End) returns (u: seq<Whole>)
    requires EndToEnd.Behavior(t) && t[|t| - 1] == w && Can(w.a.peer, Inbox(w.a), a) && e == FrameAfter(w.a, a)
    ensures EndToEnd.Behavior(u) && u[|u| - 1] == Whole(e, w.b)
  {
    assert FramingStep(w.a, e, a);
    u := Extend(t, Whole(e, w.b));
  }

  lemma BFrames(t: seq<Whole>, a: Action, w: Whole, e: End) returns (u: seq<Whole>)
    requires EndToEnd.Behavior(t) && t[|t| - 1] == w && Can(w.b.peer, Inbox(w.b), a) && e == FrameAfter(w.b, a)
    ensures EndToEnd.Behavior(u) && u[|u| - 1] == Whole(w.a, e)
  {
    assert FramingStep(w.b, e, a);
    u := Extend(t, Whole(w.a, e));
  }

  // ----- the handshake

  /** A connection with its nonce, how far it got, and what it said and heard. */
  function Talking(nonce: nat, phase: C.Phase, got: bool, sent: bool, said: seq<Sig>, heard: nat): End {
    End(INIT_PEER, C.Party(C.Task(phase, nonce, got, sent, false, false, said, [], [], 0, []), heard, 0), [VERSION_PACKET], 0)
  }

  function Said(x: nat, y: nat): seq<Sig> {
    [C.HandshakeReq(x), C.HandshakeRes(y)]
  }

  lemma BothStart(x: nat, y: nat) returns (t: seq<Whole>)
    ensures EndToEnd.Behavior(t)
    ensures t[|t| - 1] == Whole(Talking(x, C.Handshake, false, false, [C.HandshakeReq(x)], 0),
                                Talking(y, C.Handshake, false, false, [C.HandshakeReq(y)], 0))
  {
    var w := Whole(NewEnd(x), NewEnd(y));
    var a := Talking(x, C.Handshake, false, false, [C.HandshakeReq(x)], 0);
    var none: seq<Sig> := [];
    assert none + [C.HandshakeReq(x)] == [C.HandshakeReq(x)] && none + [C.HandshakeReq(y)] == [C.HandshakeReq(y)];
    t := AMoves([w], C.Start, w, a);
    t := BMoves(t, C.Start, Whole(a, w.b), Talking(y, C.Handshake, false, false, [C.HandshakeReq(y)], 0));
  }

  lemma BothAnswer(x: nat, y: nat) returns (t: seq<Whole>)
    ensures EndToEnd.Behavior(t)
    ensures t[|t| - 1] == Whole(Talking(x, C.Handshake, false, true, Said(x, y), 1),
                                Talking(y, C.Handshake, false, true, Said(y, x), 1))
  {
    t := BothStart(x, y);
    var w := t[|t| - 1];
    var a := Talking(x, C.Handshake, false, true, Said(x, y), 1);
    assert w.a.conn.task.sigOut + [C.HandshakeRes(y)] == Said(x, y);
    assert w.b.conn.task.sigOut + [C.HandshakeRes(x)] == Said(y, x);
    t := AMoves(t, C.Relay(true), w, a);
    t := BMoves(t, C.Relay(true), Whole(a, w.b), Talking(y, C.Handshake, false, true, Said(y, x), 1));
  }

  lemma BothAgree(x: nat, y: nat) returns (t: seq<Whole>)
    ensures EndToEnd.Behavior(t)
    ensures t[|t| - 1] == Whole(Talking(x, C.Webrtc, true, true, Said(x, y), 2),
                                Talking(y, C.Webrtc, true, true, Said(y, x), 2))
  {
    t := BothAnswer(x, y);
    var w := t[|t| - 1];
    var a := Talking(x, C.Webrtc, true, true, Said(x, y), 2);
    t := AMoves(t, C.Relay(true), w, a);
    t := BMoves(t, C.Relay(true), Whole(a, w.b), Talking(y, C.Webrtc, true, true, Said(y, x), 2));
  }

  // ----- messages

  /** End A: what it has sent over WebRTC, relayed, and still queued. */
  function Sender(x: nat, y: nat, phase: C.Phase, wire: seq<Packet>, relayed: seq<Sig>, sent: seq<Msg>, outbox: seq<Packet>): End {
    End(INIT_PEER.(sent := sent),
        C.Party(C.Task(phase, x, true, true, false, false, Said(x, y) + relayed, wire, [], 0, []), 2, 0), outbox, 0)
  }

  /** The framing peer of end B. */
  function Reader(st: DecodeState, last: int, delivered: seq<Msg>, order: seq<nat>): Peer {
    INIT_PEER.(task := INIT_TASK.(dec := INIT_DEC.(rx := INIT_RX.(state := st)), delivered := delivered),
               lastMsg := last, order := order)
  }

  /** End B: what its connection received over WebRTC and then in all, and what its framing peer took. */
  function Receiver(x: nat, y: nat, phase: C.Phase, wired: nat, received: seq<Packet>, heard: nat, peer: Peer, taken: nat): End {
    End(peer, C.Party(C.Task(phase, y, true, true, false, false, Said(y, x), [], received, wired, []), heard, wired),
        [VERSION_PACKET], taken)
  }

  lemma VersionIsOnWire(x: nat, y: nat) returns (t: seq<Whole>)
    ensures EndToEnd.Behavior(t)
    ensures t[|t| - 1] == Whole(Sender(x, y, C.Webrtc, [VERSION_PACKET], [], [], []),
                                Talking(y, C.Webrtc, true, true, Said(y, x), 2))
  {
    var v := [VERSION_PACKET];
    t := BothAgree(x, y);
    assert [] + v == v && v[1..] == [] && Said(x, y) + [] == Said(x, y);
    t := AMoves(t, C.Local(C.SendMessage(VERSION_PACKET), true), t[|t| - 1], Sender(x, y, C.Webrtc, v, [], [], []));
  }

  lemma VersionIsRead(x: nat, y: nat) returns (t: seq<Whole>)
    ensures EndToEnd.Behavior(t)
    ensures t[|t| - 1] == Whole(Sender(x, y, C.Webrtc, [VERSION_PACKET], [], [], []),
                                Receiver(x, y, C.Webrtc, 1, [VERSION_PACKET], 2, INIT_PEER, 0))
  {
    t := VersionIsOnWire(x, y);
    assert [] + [VERSION_PACKET] == [VERSION_PACKET];
    t := BMoves(t, C.Rtc(true), t[|t| - 1], Receiver(x, y, C.Webrtc, 1, [VERSION_PACKET], 2, INIT_PEER, 0));
  }

  lemma VersionArrives(x: nat, y: nat) returns (t: seq<Whole>)
    ensures EndToEnd.Behavior(t)
    ensures t[|t| - 1] == Whole(Sender(x, y, C.Webrtc, [VERSION_PACKET], [], [], []),
                                Receiver(x, y, C.Webrtc, 1, [VERSION_PACKET], 2, Reader(Ready, -1, [], []), 1))
  {
    var v := [VERSION_PACKET];
    t := VersionIsRead(x, y);
    assert v[0..] == v && v + [] == v;
    t := BFrames(t, Receive, t[|t| - 1], Receiver(x, y, C.Webrtc, 1, v, 2, Reader(Ready, -1, [], []), 1));
  }

  lemma FirstIsQueued(x: nat, y: nat, m: Msg) returns (t: seq<Whole>)
    requires IsSmall(m)
    ensures EndToEnd.Behavior(t)
    ensures t[|t| - 1] == Whole(Sender(x, y, C.Webrtc, [VERSION_PACKET], [], [m], [SmallPacket(m, 0)]),
                                Receiver(x, y, C.Webrtc, 1, [VERSION_PACKET], 2, Reader(Ready, -1, [], []), 1))
  {
    t := VersionArrives(x, y);
    var w := t[|t| - 1];
    var p := SmallPacket(m, 0);
    var a := w.a.(peer := INIT_PEER.(sent := [m], pc := PutSmallNext));
    assert [] + [m] == [m] && w.a.outbox + [] == w.a.outbox && [] + [p] == [p];
    t := AFrames(t, Begin(m), w, a);
    t := AFrames(t, QueueSmall, Whole(a, w.b), Sender(x, y, C.Webrtc, [VERSION_PACKET], [], [m], [p]));
  }

  lemma FirstIsOnWire(x: nat, y: nat, m: Msg) returns (t: seq<Whole>)
    requires IsSmall(m)
    ensures EndToEnd.Behavior(t)
    ensures t[|t| - 1] == Whole(Sender(x, y, C.Webrtc, [VERSION_PACKET, SmallPacket(m, 0)], [], [m], []),
                                Receiver(x, y, C.Webrtc, 1, [VERSION_PACKET], 2, Reader(Ready, -1, [], []), 1))
  {
    t := FirstIsQueued(x, y, m);
    var p := SmallPacket(m, 0);
    assert [VERSION_PACKET] + [p] == [VERSION_PACKET, p] && [p][1..] == [];
    t := AMoves(t, C.Local(C.SendMessage(p), true), t[|t| - 1], Sender(x, y, C.Webrtc, [VERSION_PACKET, p], [], [m], []));
  }

  /** The first message goes over WebRTC. */
  lemma FirstArrives(x: nat, y: nat, m: Msg) returns (t: seq<Whole>)
    requires IsSmall(m)
    ensures EndToEnd.Behavior(t)
    ensures
      var wire := [VERSION_PACKET, SmallPacket(m, 0)];
      t[|t| - 1] == Whole(Sender(x, y, C.Webrtc, wire, [], [m], []),
                          Receiver(x, y, C.Webrtc, 2, wire, 2, Reader(Ready, 0, [m], [0]), 2))
  {
    t := FirstIsOnWire(x, y, m);
    var p := SmallPacket(m, 0);
    var wire := [VERSION_PACKET, p];
    assert [VERSION_PACKET] + [p] == wire && wire[1..] == [p] && [] + [m] == [m];
    assert [VERSION_PACKET] + [] == [VERSION_PACKET];
    var a := t[|t| - 1].a;
    var b := Receiver(x, y, C.Webrtc, 2, wire, 2, Reader(Ready, -1, [], []), 1);
    t := BMoves(t, C.Rtc(true), t[|t| - 1], b);
    t := BFrames(t, Receive, Whole(a, b), Receiver(x, y, C.Webrtc, 2, wire, 2, Reader(Ready, 0, [m], [0]), 2));
  }

  lemma SecondIsQueued(x: nat, y: nat, m: Msg, n: Msg) returns (t: seq<Whole>)
    requires IsSmall(m) && IsSmall(n)
    ensures EndToEnd.Behavior(t)
    ensures
      var wire := [VERSION_PACKET, SmallPacket(m, 0)];
      t[|t| - 1] == Whole(Sender(x, y, C.Fallback, wire, [], [m, n], [SmallPacket(n, 1)]),
                          Receiver(x, y, C.Webrtc, 2, wire, 2, Reader(Ready, 0, [m], [0]), 2))
  {
    t := FirstArrives(x, y, m);
    var w := t[|t| - 1];
    var wire := [VERSION_PACKET, SmallPacket(m, 0)];
    var p := SmallPacket(n, 1);
    var a := Sender(x, y, C.Fallback, wire, [], [m], []);
    t := AMoves(t, C.ForceRelay, w, a);
    var a' := a.(peer := INIT_PEER.(sent := [m, n], pc := PutSmallNext));
    assert [m] + [n] == [m, n] && a.outbox + [] == a.outbox && [] + [p] == [p];
    t := AFrames(t, Begin(n), Whole(a, w.b), a');
    t := AFrames(t, QueueSmall, Whole(a', w.b), Sender(x, y, C.Fallback, wire, [], [m, n], [p]));
  }

  lemma SecondIsRelayed(x: nat, y: nat, m: Msg, n: Msg) returns (t: seq<Whole>)
    requires IsSmall(m) && IsSmall(n)
    ensures EndToEnd.Behavior(t)
    ensures
      var wire := [VERSION_PACKET, SmallPacket(m, 0)];
      t[|t| - 1] == Whole(Sender(x, y, C.Fallback, wire, [C.Relayed(SmallPacket(n, 1))], [m, n], []),
                          Receiver(x, y, C.Webrtc, 2, wire, 2, Reader(Ready, 0, [m], [0]), 2))
  {
    t := SecondIsQueued(x, y, m, n);
    var wire := [VERSION_PACKET, SmallPacket(m, 0)];
    var p := SmallPacket(n, 1);
    var relayed: seq<Sig> := [C.Relayed(p)];
    assert Said(x, y) + [] + relayed == Said(x, y) + relayed && [p][1..] == [];
    t := AMoves(t, C.Local(C.SendMessage(p), true), t[|t| - 1], Sender(x, y, C.Fallback, wire, relayed, [m, n], []));
  }

  lemma SecondIsReceived(x: nat, y: nat, m: Msg, n: Msg) returns (t: seq<Whole>)
    requires IsSmall(m) && IsSmall(n)
    ensures EndToEnd.Behavior(t)
    ensures
      var wire, p := [VERSION_PACKET, SmallPacket(m, 0)], SmallPacket(n, 1);
      t[|t| - 1] == Whole(Sender(x, y, C.Fallback, wire, [C.Relayed(p)], [m, n], []),
                          Receiver(x, y, C.Fallback, 2, wire + [p], 3, Reader(Ready, 0, [m], [0]), 2))
  {
    t := SecondIsRelayed(x, y, m, n);
    var wire, p := [VERSION_PACKET, SmallPacket(m, 0)], SmallPacket(n, 1);
    assert t[|t| - 1].a.conn.task.sigOut[2] == C.Relayed(p);
    t := BMoves(t, C.Relay(true), t[|t| - 1],
                Receiver(x, y, C.Fallback, 2, wire + [p], 3, Reader(Ready, 0, [m], [0]), 2));
  }

  /** And the second over the relay; both are delivered, in order. */
  lemma BothArrive(x: nat, y: nat, m: Msg, n: Msg) returns (t: seq<Whole>)
    requires IsSmall(m) && IsSmall(n)
    ensures EndToEnd.Behavior(t)
    ensures
      var last := t[|t| - 1];
      && last.a.peer.sent == [m, n] && last.b.peer.task.delivered == [m, n]
      && last.a.conn.task.wireOut == [VERSION_PACKET, SmallPacket(m, 0)]
      && last.a.conn.task.sigOut == Said(x, y) + [C.Relayed(SmallPacket(n, 1))]
      && last.a.conn.task.phase == C.Fallback == last.b.conn.task.phase
  {
    t := SecondIsReceived(x, y, m, n);
    var wire, p := [VERSION_PACKET, SmallPacket(m, 0)], SmallPacket(n, 1);
    assert (wire + [p])[2..] == [p] && [m] + [n] == [m, n] && [0] + [1] == [0, 1];
    assert [VERSION_PACKET] + [] == [VERSION_PACKET];
    t := BFrames(t, Receive, t[|t| - 1],
                 Receiver(x, y, C.Fallback, 2, wire + [p], 3, Reader(Ready, 1, [m, n], [0, 1]), 3));
  }
}
