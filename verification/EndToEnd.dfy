/**
 The whole connection: two framing peers, each on top of a connection task, with the queues
 between them. Every step of the whole is a step of the pair over lossy lanes, so what the pair
 guarantees holds across the switch from WebRTC to the relay.
 */
module EndToEnd {
  import opened Core
  import opened Encoder
  import opened Decoder
  import opened Framed
  import opened Direction
  import opened Pair
  import C = Conn

  /**
   One end: the framing peer, its connection task, the frames queued for that task, and how many
   of the frames it received the framing peer has taken.
   */
  datatype End = End(peer: Peer, conn: C.Party<Packet>, outbox: seq<Packet>, taken: nat)

  datatype Whole = Whole(a: End, b: End)

  /** The framing peer starts once its connection is up, by queueing the version frame. */
  function NewEnd(nonce: nat): End {
    End(INIT_PEER, C.NewParty(nonce), [VERSION_PACKET], 0)
  }

  /** Frames the framing peer can take now. */
  function Inbox(e: End): seq<Packet> {
    if e.taken <= |e.conn.task.received| then e.conn.task.received[e.taken..] else []
  }

  /** What `e` does through its framing peer: frames it queues after its connection closed are lost. */
  ghost predicate FramingStep(e: End, e': End, a: Action) {
    Can(e.peer, Inbox(e), a) &&
    var m := Act(e.peer, Inbox(e), a);
    e' == End(m.peer, e.conn,
              if e.conn.task.phase == C.Closed then e.outbox else e.outbox + m.queued,
              if a.Receive? then e.taken + 1 else e.taken)
  }

  /** A connection step: a queued frame is sent only by taking it off the queue. */
  ghost predicate ConnStep(e: End, other: End, e': End, m: C.Move<Packet>) {
    && C.CanMove(e.conn, other.conn, m)
    && (m.Local? && m.cmd.SendMessage? ==> e.outbox != [] && m.cmd.f == e.outbox[0])
    && e' == e.(conn := C.MoveOf(e.conn, other.conn, m),
                outbox := if m.Local? && m.cmd.SendMessage? then e.outbox[1..] else e.outbox)
  }

  ghost predicate Next(w: Whole, w': Whole) {
    || (exists a :: FramingStep(w.a, w'.a, a) && w'.b == w.b)
    || (exists a :: FramingStep(w.b, w'.b, a) && w'.a == w.a)
    || (exists m :: ConnStep(w.a, w.b, w'.a, m) && w'.b == w.b)
    || (exists m :: ConnStep(w.b, w.a, w'.b, m) && w'.a == w.a)
  }

  // ----- the lane from one end to the other

  /** Frames handed to WebRTC that the other end may still read. */
  function OnWire(from: C.Party<Packet>, to: C.Party<Packet>): seq<Packet> {
    if C.Rank(to.task.phase) >= C.Rank(C.Fallback) || to.wireTaken > |from.task.wireOut| then []
    else from.task.wireOut[to.wireTaken..]
  }

  /** Frames relayed that the other end may still read. */
  function OnRelay(from: C.Party<Packet>, to: C.Party<Packet>): seq<Packet> {
    if to.task.phase == C.Closed || to.sigTaken > |from.task.sigOut| then []
    else RelayedFrom(from.task.sigOut, to.sigTaken)
  }

  function RelayedFrom(s: seq<C.Sig<Packet>>, n: nat): seq<Packet>
    requires n <= |s|
    decreases |s| - n
  {
    if n == |s| then [] else (if s[n].Relayed? then [s[n].f] else []) + RelayedFrom(s, n + 1)
  }

  /** Frames still queued for a connection that can send them. */
  function Unsent(e: End): seq<Packet> {
    if e.conn.task.phase == C.Closed then [] else e.outbox
  }

  function Lane(from: End, to: End): seq<Packet> {
    Inbox(to) + OnWire(from.conn, to.conn) + OnRelay(from.conn, to.conn) + Unsent(from)
  }

  function Abs(w: Whole): Sys {
    Sys(w.a.peer, w.b.peer, Lane(w.a, w.b), Lane(w.b, w.a))
  }

  // ----- connection steps only lose frames

  lemma {:induction false} RelayedFromSnoc(s: seq<C.Sig<Packet>>, m: C.Sig<Packet>, n: nat)
    requires n <= |s|
    ensures RelayedFrom(s + [m], n) == RelayedFrom(s, n) + if m.Relayed? then [m.f] else []
    decreases |s| - n
  {
    if n < |s| {
      RelayedFromSnoc(s, m, n + 1);
    } else {
      assert RelayedFrom(s + [m], n + 1) == [];
    }
  }

  lemma {:induction false} QuietRelayIsEmpty(s: seq<C.Sig<Packet>>, n: nat)
    requires C.RelayedOf(s) == [] && n <= |s|
    ensures RelayedFrom(s, n) == []
    decreases |s| - n
  {
    if n < |s| {
      QuietRelayIsEmpty(s, n + 1);
      C.RelayedSnoc(s, n);
      C.RelayedOfPrefix(s, n + 1);
    }
  }

  /** What a move does to the lanes the party writes. */
  ghost predicate Writes(t: C.Task<Packet>, u: C.Task<Packet>, m: C.Move<Packet>) {
    if m.Local? && m.cmd.SendMessage? then
      var f := m.cmd.f;
      || (u.sigOut == t.sigOut && u.wireOut == t.wireOut)
      || (u.sigOut == t.sigOut && u.wireOut == t.wireOut + [f] && t.phase == C.Webrtc)
      || (u.wireOut == t.wireOut && u.sigOut == t.sigOut + [C.Relayed(f)])
    else C.SaysNoFrame(t, u)
  }

  lemma HandleWrites(t: C.Task<Packet>, cmd: C.ConnCmd<Packet>, ok: bool)
    ensures Writes(t, C.Handle(t, cmd, ok), C.Local(cmd, ok))
    ensures t.phase == C.Closed ==> C.Handle(t, cmd, ok) == t
  {
    if !cmd.SendMessage? {
      C.OthersSayNoFrame(t, cmd, ok);
    }
  }

  lemma MoveWrites(p: C.Party<Packet>, q: C.Party<Packet>, m: C.Move<Packet>)
    requires C.CanMove(p, q, m)
    ensures Writes(p.task, C.MoveOf(p, q, m).task, m)
    ensures p.task.phase == C.Closed ==> C.MoveOf(p, q, m).task.phase == C.Closed
  {
    match m
    case Relay(ok) => HandleWrites(p.task, C.SigRecv(q.task.sigOut[p.sigTaken]), ok);
    case Rtc(ok) => HandleWrites(p.task, C.WebrtcRecv(C.Message(q.task.wireOut[p.wireTaken])), ok);
    case Local(cmd, ok) => HandleWrites(p.task, cmd, ok);
    case _ =>
  }

  /** What is under way between two connections after the sender's move. */
  lemma UnderWayGrows(p: C.Party<Packet>, q: C.Party<Packet>, m: C.Move<Packet>)
    requires C.CanMove(p, q, m) && C.ReceivedOk(q, p) && C.QuietRelay(p.task)
    ensures
      var p' := C.MoveOf(p, q, m);
      var was, now := OnWire(p, q) + OnRelay(p, q), OnWire(p', q) + OnRelay(p', q);
      now == was || (m.Local? && m.cmd.SendMessage? && now == was + [m.cmd.f])
  {
    MoveWrites(p, q, m);
    UnderWayAfter(p, q, C.MoveOf(p, q, m), m);
  }

  lemma UnderWayAfter(p: C.Party<Packet>, q: C.Party<Packet>, p': C.Party<Packet>, m: C.Move<Packet>)
    requires Writes(p.task, p'.task, m) && C.QuietRelay(p.task)
    requires q.sigTaken <= |p.task.sigOut| && q.wireTaken <= |p.task.wireOut|
    ensures
      var was, now := OnWire(p, q) + OnRelay(p, q), OnWire(p', q) + OnRelay(p', q);
      now == was || (m.Local? && m.cmd.SendMessage? && now == was + [m.cmd.f])
  {
    var t, u := p.task, p'.task;
    if u.sigOut != t.sigOut {
      RelayedFromSnoc(t.sigOut, u.sigOut[|t.sigOut|], q.sigTaken);
    }
    if u.wireOut != t.wireOut {
      QuietRelayIsEmpty(t.sigOut, q.sigTaken);
      assert u.wireOut[q.wireTaken..] == t.wireOut[q.wireTaken..] + [m.cmd.f];
    }
    var w, r := OnWire(p, q), OnRelay(p, q);
    assert r + [] == r;
    if m.Local? && m.cmd.SendMessage? {
      ConcatAssoc(w, r, [m.cmd.f]);
      assert w + [] == w;
    }
  }

  lemma LossyCases(x: seq<Packet>, was: seq<Packet>, u: seq<Packet>, now: seq<Packet>, u': seq<Packet>, f: Option<Packet>)
    requires match f
             case None => now == was && (u' == u || u' == [])
             case Some(p) => (u == [p] + u' || u' == []) && (now == was || now == was + [p])
    requires f.Some? && u' == [] ==> u == [] || u[0] == f.value
    requires f.Some? && u == [] ==> now == was
    ensures Lossy(x + was + u, x + now + u')
  {
    if now == was && u' == u {
      LossyMiddle(x + was + u, [], []);
      assert x + was + u + [] + [] == x + was + u;
    } else if now == was && u' == [] {
      LossyMiddle(x + was, u, []);
      assert x + was + u + [] == x + was + u;
    } else if now == was {
      LossyMiddle(x + was, [f.value], u');
      assert x + was + [f.value] + u' == x + was + u;
    } else {
      var rest := u[1..];
      assert x + was + u == x + now + rest;
      LossyMiddle(x + now, if u' == [] then rest else [], if u' == [] then [] else rest);
      assert x + now + rest + [] == x + now + rest && x + now + [] + rest == x + now + rest;
    }
  }

  /** The lane seen by the sender: what its step puts on a lane comes off its queue, or is lost. */
  lemma SenderLane(e: End, other: End, e': End, m: C.Move<Packet>)
    requires ConnStep(e, other, e', m) && C.ReceivedOk(other.conn, e.conn) && C.QuietRelay(e.conn.task)
    ensures Lossy(Lane(e, other), Lane(e', other))
  {
    UnderWayGrows(e.conn, other.conn, m);
    MoveWrites(e.conn, other.conn, m);
    var x := Inbox(other);
    var was, now := OnWire(e.conn, other.conn) + OnRelay(e.conn, other.conn),
                    OnWire(e'.conn, other.conn) + OnRelay(e'.conn, other.conn);
    ConcatAssoc(x, OnWire(e.conn, other.conn), OnRelay(e.conn, other.conn));
    ConcatAssoc(x, OnWire(e'.conn, other.conn), OnRelay(e'.conn, other.conn));
    LossyCases(x, was, Unsent(e), now, Unsent(e'),
               if m.Local? && m.cmd.SendMessage? then Some(m.cmd.f) else None);
  }

  /** What reading does to the frames received, those on the wire, and those on the relay. */
  ghost predicate Reads(x: seq<Packet>, w: seq<Packet>, r: seq<Packet>,
                        x': seq<Packet>, w': seq<Packet>, r': seq<Packet>) {
    || (x' == x && (w' == w || w' == []) && (r' == r || (w' == [] && r' == [])))
    || (x' + w' == x + w && r' == r)
    || (w' == [] && r != [] && x' == x + [r[0]] && r' == r[1..])
  }

  lemma ReadsLose(x: seq<Packet>, w: seq<Packet>, r: seq<Packet>, u: seq<Packet>,
                  x': seq<Packet>, w': seq<Packet>, r': seq<Packet>)
    requires Reads(x, w, r, x', w', r')
    ensures Lossy(x + w + r + u, x' + w' + r' + u)
  {
    var lane, lane' := x + w + r + u, x' + w' + r' + u;
    if x' + w' == x + w && r' == r {
      LossyNone(lane);
    } else if x' == x && w' == [] && r' == [] {
      LossyMiddle(x, w + r, u);
      assert lane == x + (w + r) + u && lane' == x + u;
    } else {
      LossyMiddle(x, w, r + u);
      Regroup3(x, w, r, u);
      assert x' == x || r == [r[0]] + r[1..];
      assert lane' == x + (r + u);
    }
  }

  lemma Regroup3(x: seq<Packet>, w: seq<Packet>, r: seq<Packet>, u: seq<Packet>)
    ensures x + w + r + u == x + w + (r + u)
  {
  }

  /** A relay message that carries no frame may still end the connection, or its use of WebRTC. */
  lemma RelayReadsOther(p: C.Party<Packet>, q: C.Party<Packet>, ok: bool)
    requires C.CanMove(p, q, C.Relay(ok)) && !q.task.sigOut[p.sigTaken].Relayed?
    ensures
      var p' := C.MoveOf(p, q, C.Relay(ok));
      Reads(p.task.received, OnWire(q, p), OnRelay(q, p), p'.task.received, OnWire(q, p'), OnRelay(q, p'))
  {
    C.HandleMovesPhase(p.task, C.SigRecv(q.task.sigOut[p.sigTaken]), ok);
  }

  /** A relayed frame is received, and nothing is read from WebRTC any more. */
  lemma RelayReadsFrame(p: C.Party<Packet>, q: C.Party<Packet>, ok: bool)
    requires C.CanMove(p, q, C.Relay(ok)) && q.task.sigOut[p.sigTaken].Relayed?
    requires p.task.phase != C.Handshake
    ensures
      var p' := C.MoveOf(p, q, C.Relay(ok));
      Reads(p.task.received, OnWire(q, p), OnRelay(q, p), p'.task.received, OnWire(q, p'), OnRelay(q, p'))
  {
    var f := q.task.sigOut[p.sigTaken].f;
    assert OnRelay(q, p) == [f] + RelayedFrom(q.task.sigOut, p.sigTaken + 1);
  }

  lemma RelayReads(p: C.Party<Packet>, q: C.Party<Packet>, ok: bool)
    requires C.CanMove(p, q, C.Relay(ok)) && C.Joined(p, q) && C.Joined(q, p)
    ensures
      var p' := C.MoveOf(p, q, C.Relay(ok));
      Reads(p.task.received, OnWire(q, p), OnRelay(q, p), p'.task.received, OnWire(q, p'), OnRelay(q, p'))
  {
    C.NextHeard(p, q);
    if q.task.sigOut[p.sigTaken].Relayed? {
      RelayReadsFrame(p, q, ok);
    } else {
      RelayReadsOther(p, q, ok);
    }
  }

  lemma ShiftOne(x: seq<Packet>, w: seq<Packet>, n: nat)
    requires n < |w|
    ensures x + [w[n]] + w[n + 1..] == x + w[n..]
  {
  }

  lemma RtcReads(p: C.Party<Packet>, q: C.Party<Packet>, ok: bool)
    requires C.CanMove(p, q, C.Rtc(ok))
    ensures
      var p' := C.MoveOf(p, q, C.Rtc(ok));
      Reads(p.task.received, OnWire(q, p), OnRelay(q, p), p'.task.received, OnWire(q, p'), OnRelay(q, p'))
  {
    ShiftOne(p.task.received, q.task.wireOut, p.wireTaken);
  }

  lemma MoveReads(p: C.Party<Packet>, q: C.Party<Packet>, m: C.Move<Packet>)
    requires C.CanMove(p, q, m) && C.Joined(p, q) && C.Joined(q, p)
    ensures
      var p' := C.MoveOf(p, q, m);
      Reads(p.task.received, OnWire(q, p), OnRelay(q, p), p'.task.received, OnWire(q, p'), OnRelay(q, p'))
  {
    match m
    case Relay(ok) => RelayReads(p, q, ok);
    case Rtc(ok) => RtcReads(p, q, ok);
    case Local(cmd, ok) => C.LocalReceivesNothing(p.task, cmd, ok);
    case _ =>
  }

  lemma TakeReads(n: nat, x: seq<Packet>, w: seq<Packet>, r: seq<Packet>, x': seq<Packet>, w': seq<Packet>, r': seq<Packet>)
    requires Reads(x, w, r, x', w', r') && n <= |x| <= |x'|
    ensures Reads(x[n..], w, r, x'[n..], w', r')
  {
    if x' + w' == x + w {
      assert x[n..] + w == (x + w)[n..] && x'[n..] + w' == (x' + w')[n..];
    }
  }

  /** The lane seen by the reader: frames move to its inbox, or are lost. */
  lemma ReaderLane(from: End, e: End, e': End, m: C.Move<Packet>)
    requires ConnStep(e, from, e', m) && C.Joined(e.conn, from.conn) && C.Joined(from.conn, e.conn)
    requires e.taken <= |e.conn.task.received|
    ensures Lossy(Lane(from, e), Lane(from, e'))
    ensures e'.taken <= |e'.conn.task.received|
  {
    MoveReads(e.conn, from.conn, m);
    ReceivedGrows(e.conn, from.conn, m);
    TakeReads(e.taken, e.conn.task.received, OnWire(from.conn, e.conn), OnRelay(from.conn, e.conn),
              e'.conn.task.received, OnWire(from.conn, e'.conn), OnRelay(from.conn, e'.conn));
    ReadsLose(Inbox(e), OnWire(from.conn, e.conn), OnRelay(from.conn, e.conn), Unsent(from),
              Inbox(e'), OnWire(from.conn, e'.conn), OnRelay(from.conn, e'.conn));
  }

  lemma ReceivedGrows(p: C.Party<Packet>, q: C.Party<Packet>, m: C.Move<Packet>)
    requires C.CanMove(p, q, m)
    ensures |p.task.received| <= |C.MoveOf(p, q, m).task.received|
  {
    match m
    case Relay(ok) => HandleReceivesMore(p.task, C.SigRecv(q.task.sigOut[p.sigTaken]), ok);
    case Rtc(ok) => HandleReceivesMore(p.task, C.WebrtcRecv(C.Message(q.task.wireOut[p.wireTaken])), ok);
    case Local(cmd, ok) => HandleReceivesMore(p.task, cmd, ok);
    case _ =>
  }

  lemma HandleReceivesMore(t: C.Task<Packet>, cmd: C.ConnCmd<Packet>, ok: bool)
    ensures |t.received| <= |C.Handle(t, cmd, ok).received|
  {
    match t.phase
    case Handshake => C.HandshakeMovesNoFrame(t, cmd, ok);
    case Webrtc => C.WebrtcReceivesMore(t, cmd, ok);
    case _ =>
  }

  // ----- every step of the whole is a lossy step of the pair

  ghost predicate WholeInv(w: Whole) {
    && SysInv(Abs(w))
    && C.Joined(w.a.conn, w.b.conn) && C.Joined(w.b.conn, w.a.conn)
    && w.a.taken <= |w.a.conn.task.received| && w.b.taken <= |w.b.conn.task.received|
  }

  /** Both lanes may lose a stretch. */
  lemma LosingKeepsSys(s: Sys, ab: seq<Packet>, ba: seq<Packet>)
    requires SysInv(s) && Lossy(s.ab, ab) && Lossy(s.ba, ba)
    ensures SysInv(s.(ab := ab, ba := ba))
  {
    NextKeepsInv(s, s.(ab := ab));
    NextKeepsInv(s.(ab := ab), s.(ab := ab, ba := ba));
  }

  lemma ConnStepKeeps(e: End, other: End, e': End, m: C.Move<Packet>)
    requires ConnStep(e, other, e', m) && WholeInv(Whole(e, other))
    ensures WholeInv(Whole(e', other))
  {
    C.MoveKeepsJoined(e.conn, other.conn, m);
    SenderLane(e, other, e', m);
    ReaderLane(other, e, e', m);
    LosingKeepsSys(Abs(Whole(e, other)), Lane(e', other), Lane(other, e'));
  }

  lemma Mirror(w: Whole)
    requires WholeInv(w)
    ensures WholeInv(Whole(w.b, w.a))
  {
  }

  /** The framing peer acts on what it can see of its lane, which is the lane's beginning. */
  lemma FramingStepKeeps(e: End, other: End, e': End, a: Action)
    requires FramingStep(e, e', a) && WholeInv(Whole(e, other))
    ensures WholeInv(Whole(e', other))
  {
    var s := Abs(Whole(e, other));
    var m := Act(e.peer, s.ba, a);
    var s1 := Sys(m.peer, s.b, s.ab + m.queued, m.inn);
    FramingReads(e, other, e', a);
    FramingQueues(e, other, e', a);
    assert ANext(s, s1, a);
    NextKeepsInv(s, s1);
    LossyNone(s1.ba);
    LosingKeepsSys(s1, Lane(e', other), s1.ba);
  }

  /** A peer's action depends on no more than the first frame of its lane. */
  lemma ActOnPrefix(me: Peer, inn: seq<Packet>, rest: seq<Packet>, a: Action)
    requires Can(me, inn, a)
    ensures Can(me, inn + rest, a)
    ensures var m := Act(me, inn, a); Act(me, inn + rest, a) == Move(m.peer, m.inn + rest, m.queued)
    ensures Act(me, inn, a).inn == if a.Receive? then inn[1..] else inn
  {
    if a.Receive? {
      assert (inn + rest)[1..] == inn[1..] + rest;
    }
  }

  lemma LossyNone(lane: seq<Packet>)
    ensures Lossy(lane, lane)
  {
    LossyMiddle(lane, [], []);
    assert lane + [] + [] == lane;
  }

  lemma LossyEnd(lane: seq<Packet>, q: seq<Packet>)
    ensures Lossy(lane + q, lane)
  {
    LossyMiddle(lane, q, []);
    assert lane + q + [] == lane + q && lane + [] == lane;
  }

  lemma FramingReads(e: End, other: End, e': End, a: Action)
    requires FramingStep(e, e', a) && e.taken <= |e.conn.task.received|
    ensures Can(e.peer, Lane(other, e), a)
    ensures
      var m := Act(e.peer, Lane(other, e), a);
      m.peer == e'.peer && m.inn == Lane(other, e') && m.queued == Act(e.peer, Inbox(e), a).queued
    ensures e'.taken <= |e'.conn.task.received|
  {
    var w, r, u := OnWire(other.conn, e.conn), OnRelay(other.conn, e.conn), Unsent(other);
    ActOnPrefix(e.peer, Inbox(e), w + r + u, a);
    Regroup(Inbox(e), w, r, u);
    Regroup(Inbox(e'), w, r, u);
  }

  lemma Regroup(x: seq<Packet>, w: seq<Packet>, r: seq<Packet>, u: seq<Packet>)
    ensures x + w + r + u == x + (w + r + u)
  {
  }

  lemma FramingQueues(e: End, other: End, e': End, a: Action)
    requires FramingStep(e, e', a)
    ensures Lossy(Lane(e, other) + Act(e.peer, Inbox(e), a).queued, Lane(e', other))
  {
    var l, q := Lane(e, other), Act(e.peer, Inbox(e), a).queued;
    if e.conn.task.phase == C.Closed {
      LossyEnd(l, q);
    } else {
      ConcatAssoc(Inbox(other) + OnWire(e.conn, other.conn) + OnRelay(e.conn, other.conn), e.outbox, q);
      LossyNone(l + q);
    }
  }

  lemma NextKeepsWhole(w: Whole, w': Whole)
    requires WholeInv(w) && Next(w, w')
    ensures WholeInv(w')
  {
    Mirror(w);
    if a :| FramingStep(w.a, w'.a, a) && w'.b == w.b {
      FramingStepKeeps(w.a, w.b, w'.a, a);
    } else if a :| FramingStep(w.b, w'.b, a) && w'.a == w.a {
      FramingStepKeeps(w.b, w.a, w'.b, a);
      Mirror(Whole(w'.b, w'.a));
    } else if m :| ConnStep(w.a, w.b, w'.a, m) && w'.b == w.b {
      ConnStepKeeps(w.a, w.b, w'.a, m);
    } else {
      var m :| ConnStep(w.b, w.a, w'.b, m) && w'.a == w.a;
      ConnStepKeeps(w.b, w.a, w'.b, m);
      Mirror(Whole(w'.b, w'.a));
    }
  }

  ghost predicate Behavior(t: seq<Whole>) {
    && t != []
    && t[0] == Whole(NewEnd(t[0].a.conn.task.nonce), NewEnd(t[0].b.conn.task.nonce))
    && forall i :: 0 <= i < |t| - 1 ==> Next(t[i], t[i + 1])
  }

  lemma WholeInit(x: nat, y: nat)
    ensures WholeInv(Whole(NewEnd(x), NewEnd(y)))
  {
    InvInit();
    InitialView();
    var a, b := NewEnd(x), NewEnd(y);
    assert Lane(a, b) == [VERSION_PACKET] && Lane(b, a) == [VERSION_PACKET];
  }

  lemma {:induction false} BehaviorKeepsWhole(t: seq<Whole>, n: nat)
    requires Behavior(t) && n < |t|
    ensures WholeInv(t[n])
  {
    if n == 0 {
      WholeInit(t[0].a.conn.task.nonce, t[0].b.conn.task.nonce);
    } else {
      BehaviorKeepsWhole(t, n - 1);
      NextKeepsWhole(t[n - 1], t[n]);
    }
  }

  /**
   End to end: through the handshake, WebRTC, the switch to the relay with whatever it loses,
   abandoned sends and stopped tasks, each end delivers a subsequence of the messages sent at the
   other, every one of them whole.
   */
  lemma MessagesSurviveTheSwitch(t: seq<Whole>, n: nat)
    requires Behavior(t) && n < |t|
    ensures Subsequence(t[n].b.peer.task.delivered, t[n].a.peer.sent)
    ensures Subsequence(t[n].a.peer.task.delivered, t[n].b.peer.sent)
  {
    BehaviorKeepsWhole(t, n);
    var a, b := t[n].a.peer, t[n].b.peer;
    assert DeliveredInOrder(a.sent, b.task.delivered, b.order);
    assert DeliveredInOrder(b.sent, a.task.delivered, a.order);
  }
}
