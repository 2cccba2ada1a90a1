/**
 The negotiation across the whole stack: two connection tasks, each with its WebRTC task. What a
 backend generates becomes an event, then a signal on the relay, then a call on the other side's
 WebRTC module, and is then applied, or not, by the other backend.
 */
module Negotiate {
  import opened Core
  import C = Conn
  import L = ConnLoops
  import W = Webrtc

  type Bytes = seq<byte>

  /**
   A connection and its WebRTC task. `told` counts the descriptions of that task whose event the
   connection has handled, `taken` the connection's calls that the task has handled. The task is
   there from the start, which nobody notices: only the WebRTC loop handles its events and calls it.
   */
  datatype Side<F> = Side(conn: C.Party<F>, rtc: W.Task, told: nat, taken: nat)

  datatype Link<F> = Link(a: Side<F>, b: Side<F>)

  datatype Step<F> =
    | Connection(m: C.Move<F>)
    | Backend(r: W.Outcome, answer: Bytes)   // the WebRTC task takes the next call
    | Stops                                  // and ends for any other reason

  /** The connection handles a description that its backend generated. */
  predicate Generated<F>(m: C.Move<F>) {
    m.Local? && m.cmd.WebrtcRecv? && (m.cmd.e.GeneratedOffer? || m.cmd.e.GeneratedAnswer?)
  }

  function DescOf<F>(m: C.Move<F>): W.Desc
    requires Generated(m)
  {
    if m.cmd.e.GeneratedOffer? then W.OfferDesc(m.cmd.e.sdp) else W.AnswerDesc(m.cmd.e.sdp)
  }

  predicate CanStep<F>(p: Side<F>, q: Side<F>, e: Step<F>) {
    match e
    case Connection(m) =>
      && C.CanMove(p.conn, q.conn, m)
      && (Generated(m) ==> p.told < |p.rtc.made| && p.rtc.made[p.told] == DescOf(m))
    case Backend(_, _) => p.rtc.running && p.taken < |p.conn.task.rtcIn|
    case Stops => true
  }

  function Called(t: W.Task, call: C.RtcCall, r: W.Outcome, answer: Bytes): W.Task {
    match call
    case InOffer(offer) => W.InOffer(t, offer, r, answer)
    case InAnswer(a) => W.InAnswer(t, a, r)
    case InIce(_) => t
  }

  function StepOf<F>(p: Side<F>, q: Side<F>, e: Step<F>): Side<F>
    requires CanStep(p, q, e)
  {
    match e
    case Connection(m) => p.(conn := C.MoveOf(p.conn, q.conn, m), told := if Generated(m) then p.told + 1 else p.told)
    case Backend(r, answer) =>
      p.(rtc := Called(p.rtc, p.conn.task.rtcIn[p.taken], r, answer), taken := p.taken + 1)
    case Stops => p.(rtc := p.rtc.(running := false))
  }

  // ----- the descriptions under way

  function DescOfSig<F>(m: C.Sig<F>): seq<W.Desc> {
    match m
    case Offer(sdp) => [W.OfferDesc(sdp)]
    case Answer(sdp) => [W.AnswerDesc(sdp)]
    case _ => []
  }

  /** The descriptions among relay messages. */
  function Descs<F>(s: seq<C.Sig<F>>): seq<W.Desc> {
    if s == [] then [] else Descs(s[..|s| - 1]) + DescOfSig(s[|s| - 1])
  }

  function DescOfCall(c: C.RtcCall): seq<W.Desc> {
    match c
    case InOffer(sdp) => [W.OfferDesc(sdp)]
    case InAnswer(sdp) => [W.AnswerDesc(sdp)]
    case InIce(_) => []
  }

  /** The descriptions among calls. */
  function CallDescs(s: seq<C.RtcCall>): seq<W.Desc> {
    if s == [] then [] else CallDescs(s[..|s| - 1]) + DescOfCall(s[|s| - 1])
  }

  lemma DescsSnoc<F>(s: seq<C.Sig<F>>, m: C.Sig<F>)
    ensures Descs(s + [m]) == Descs(s) + DescOfSig(m)
  {
    assert (s + [m])[..|s|] == s;
  }

  lemma {:induction false} DescsOfPrefix<F>(s: seq<C.Sig<F>>, n: nat)
    requires n <= |s|
    ensures Descs(s[..n]) <= Descs(s)
  {
    if n < |s| {
      DescsOfPrefix(s[..|s| - 1], n);
      assert s[..|s| - 1][..n] == s[..n];
    } else {
      assert s[..n] == s;
    }
  }

  lemma {:induction false} CallDescsOfPrefix(s: seq<C.RtcCall>, n: nat)
    requires n <= |s|
    ensures CallDescs(s[..n]) <= CallDescs(s)
  {
    if n < |s| {
      CallDescsOfPrefix(s[..|s| - 1], n);
      assert s[..|s| - 1][..n] == s[..n];
    } else {
      assert s[..n] == s;
    }
  }

  // ----- what every step keeps

  predicate Before(phase: C.Phase) {
    phase == C.NotStarted || phase == C.Handshake
  }

  /** What a connection said is what its backend made, as far as it was told and could say it. */
  ghost predicate OutOk<F>(p: Side<F>) {
    && p.told <= |p.rtc.made|
    && var said := Descs(p.conn.task.sigOut);
       if Before(p.conn.task.phase) || p.conn.task.phase == C.Webrtc then said == p.rtc.made[..p.told]
       else said <= p.rtc.made[..p.told]
  }

  /** What a connection asked of its WebRTC module is what it has heard, up to its fallback. */
  ghost predicate InOk<F>(p: C.Party<F>, q: C.Party<F>) {
    && p.sigTaken <= |q.task.sigOut|
    && var heard, asked := Descs(q.task.sigOut[..p.sigTaken]), CallDescs(p.task.rtcIn);
       && asked <= heard
       && (Before(p.task.phase) ==> heard == [])
       && (p.task.phase == C.Webrtc ==> asked == heard)
  }

  /** What a WebRTC task applied is among what it was asked, and a running one missed nothing for its role. */
  ghost predicate RtcOk<F>(p: Side<F>) {
    && W.RoleOk(p.rtc) && p.taken <= |p.conn.task.rtcIn|
    && var asked := CallDescs(p.conn.task.rtcIn[..p.taken]);
       && (p.rtc.applied != [] ==> p.rtc.applied[0] in asked)
       && (p.rtc.running && p.rtc.applied == [] ==> forall d :: d in asked ==> d.OfferDesc? != p.rtc.isPolite)
  }

  ghost predicate SideOk<F>(p: Side<F>, q: Side<F>) {
    OutOk(p) && InOk(p.conn, q.conn) && RtcOk(p)
  }

  ghost predicate Agreeing<F>(p: C.Party<F>, q: C.Party<F>) {
    C.Joined(p, q) && C.Joined(q, p)
  }

  ghost predicate LinkOk<F>(s: Link<F>) {
    && Agreeing(s.a.conn, s.b.conn)
    && SideOk(s.a, s.b) && SideOk(s.b, s.a) && s.a.rtc.isPolite != s.b.rtc.isPolite
  }

  /** What a command or move makes a connection say about descriptions. */
  function SaidFor<F>(t: C.Task<F>, m: C.Move<F>): seq<W.Desc> {
    if t.phase == C.Webrtc && Generated(m) && m.ok then [DescOf(m)] else []
  }

  lemma SignalIsGenerated<F>(cmd: C.ConnCmd<F>, ok: bool)
    ensures
      var s := L.SignalOf(L.Turn(cmd, ok));
      && |s| <= 1
      && (if s == [] then [] else DescOfSig(s[0])) ==
         if Generated(C.Local(cmd, ok)) && ok then [DescOf(C.Local(cmd, ok))] else []
  {
  }

  lemma DescsAdd<F>(s: seq<C.Sig<F>>, m: seq<C.Sig<F>>)
    requires |m| <= 1
    ensures Descs(s + m) == Descs(s) + if m == [] then [] else DescOfSig(m[0])
  {
    if m == [] {
      assert s + m == s;
    } else {
      assert m == [m[0]];
      DescsSnoc(s, m[0]);
    }
  }

  lemma TurnSays<F>(t: C.Task<F>, u: C.Task<F>, cmd: C.ConnCmd<F>, ok: bool)
    requires t.phase == C.Webrtc && L.Turned(t, u, L.Turn(cmd, ok))
    ensures Descs(u.sigOut) == Descs(t.sigOut) + SaidFor(t, C.Local(cmd, ok))
  {
    SignalIsGenerated(cmd, ok);
    DescsAdd(t.sigOut, L.SignalOf(L.Turn(cmd, ok)));
  }

  /** Outside the WebRTC loop nothing is said about descriptions. */
  lemma OthersSayNone<F>(t: C.Task<F>, u: C.Task<F>)
    requires t.phase != C.Webrtc && C.SaysOne(t, u)
    ensures Descs(u.sigOut) == Descs(t.sigOut)
  {
    if u.sigOut != t.sigOut {
      DescsSnoc(t.sigOut, u.sigOut[|t.sigOut|]);
    }
  }

  /** One command says what the loops say. */
  lemma HandleSays<F>(t: C.Task<F>, cmd: C.ConnCmd<F>, ok: bool)
    ensures Descs(C.Handle(t, cmd, ok).sigOut) == Descs(t.sigOut) + SaidFor(t, C.Local(cmd, ok))
  {
    if t.phase == C.Webrtc {
      L.WebrtcTurn(t, cmd, ok);
      TurnSays(t, C.InWebrtc(t, cmd, ok), cmd, ok);
    } else {
      C.HandleSaysOne(t, cmd, ok);
      OthersSayNone(t, C.Handle(t, cmd, ok));
    }
  }

  lemma MoveSays<F>(p: C.Party<F>, q: C.Party<F>, m: C.Move<F>)
    requires C.CanMove(p, q, m)
    ensures Descs(C.MoveOf(p, q, m).task.sigOut) == Descs(p.task.sigOut) + SaidFor(p.task, m)
  {
    match m
    case Start => DescsSnoc(p.task.sigOut, C.HandshakeReq(p.task.nonce));
    case Tick => DescsSnoc(p.task.sigOut, C.Keepalive);
    case Relay(ok) => HandleSays(p.task, C.SigRecv(q.task.sigOut[p.sigTaken]), ok);
    case Rtc(ok) => HandleSays(p.task, C.WebrtcRecv(C.Message(q.task.wireOut[p.wireTaken])), ok);
    case Local(cmd, ok) => HandleSays(p.task, cmd, ok);
    case _ =>
  }

  lemma OutKeeps<F>(p: Side<F>, q: Side<F>, m: C.Move<F>)
    requires CanStep(p, q, Connection(m)) && OutOk(p)
    ensures OutOk(StepOf(p, q, Connection(m)))
  {
    MoveSays(p.conn, q.conn, m);
    C.NoWayBack(p.conn, q.conn, m);
    if Generated(m) {
      GeneratedEnds(p.conn, q.conn, m);
    }
    OutAfter(p, C.MoveOf(p.conn, q.conn, m), m);
  }

  lemma OutAfter<F>(p: Side<F>, c: C.Party<F>, m: C.Move<F>)
    requires OutOk(p) && Descs(c.task.sigOut) == Descs(p.conn.task.sigOut) + SaidFor(p.conn.task, m)
    requires C.Rank(p.conn.task.phase) <= C.Rank(c.task.phase)
    requires Generated(m) ==>
               && p.told < |p.rtc.made| && p.rtc.made[p.told] == DescOf(m)
               && (p.conn.task.phase == C.Webrtc || p.conn.task.phase == C.Fallback)
               && (p.conn.task.phase == C.Webrtc && !m.ok ==> c.task.phase == C.Closed)
    ensures OutOk(p.(conn := c, told := if Generated(m) then p.told + 1 else p.told))
  {
    if Generated(m) {
      assert p.rtc.made[..p.told + 1] == p.rtc.made[..p.told] + [DescOf(m)];
    }
  }

  /** A description that the relay does not take ends the connection. */
  lemma GeneratedEnds<F>(p: C.Party<F>, q: C.Party<F>, m: C.Move<F>)
    requires C.CanMove(p, q, m) && Generated(m)
    ensures p.task.phase == C.Webrtc || p.task.phase == C.Fallback
    ensures C.MoveOf(p, q, m).task.phase == if p.task.phase == C.Webrtc && !m.ok then C.Closed else p.task.phase
  {
  }

  lemma CallIsHeard<F>(cmd: C.ConnCmd<F>, ok: bool)
    ensures
      var c := L.CallOf(L.Turn(cmd, ok));
      && |c| <= 1
      && (if c == [] then [] else DescOfCall(c[0])) == if cmd.SigRecv? && ok then DescOfSig(cmd.m) else []
  {
  }

  lemma RefusalEnds<F>(m: C.Sig<F>)
    ensures DescOfSig(m) != [] ==>
              L.GivesUp(L.Turn(C.SigRecv(m), false), true) && !L.Breaks(L.Turn(C.SigRecv(m), false))
    ensures L.GivesUp(L.Turn(C.SigRecv(m), false), false) ==> L.GivesUp(L.Turn(C.SigRecv(m), false), true)
  {
  }

  lemma OthersAskNothing<F>(t: C.Task<F>, cmd: C.ConnCmd<F>, ok: bool)
    requires t.phase != C.Webrtc
    ensures C.Handle(t, cmd, ok).rtcIn == t.rtcIn
  {
  }

  lemma CallDescsSnoc(s: seq<C.RtcCall>, c: seq<C.RtcCall>)
    requires |c| <= 1
    ensures CallDescs(s + c) == CallDescs(s) + if c == [] then [] else DescOfCall(c[0])
  {
    if c != [] {
      assert (s + c)[..|s|] == s;
    } else {
      assert s + c == s;
    }
  }

  /** What a command adds to the descriptions asked of the WebRTC module. */
  ghost predicate Asks<F>(t: C.Task<F>, u: C.Task<F>, cmd: C.ConnCmd<F>, ok: bool) {
    && t.rtcIn <= u.rtcIn
    && CallDescs(u.rtcIn) == CallDescs(t.rtcIn) +
                             (if t.phase == C.Webrtc && cmd.SigRecv? && ok then DescOfSig(cmd.m) else [])
    && (t.phase == C.Webrtc && cmd.SigRecv? && DescOfSig(cmd.m) != [] && !ok ==> u.phase == C.Fallback)
  }

  lemma TurnAsks<F>(t: C.Task<F>, u: C.Task<F>, cmd: C.ConnCmd<F>, ok: bool)
    requires t.phase == C.Webrtc && L.Turned(t, u, L.Turn(cmd, ok))
    ensures Asks(t, u, cmd, ok)
  {
    CallIsHeard(cmd, ok);
    CallDescsSnoc(t.rtcIn, L.CallOf(L.Turn(cmd, ok)));
    if cmd.SigRecv? {
      RefusalEnds(cmd.m);
    }
  }

  lemma HandleAsks<F>(t: C.Task<F>, cmd: C.ConnCmd<F>, ok: bool)
    ensures Asks(t, C.Handle(t, cmd, ok), cmd, ok)
  {
    if t.phase == C.Webrtc {
      L.WebrtcTurn(t, cmd, ok);
      TurnAsks(t, C.InWebrtc(t, cmd, ok), cmd, ok);
    } else {
      OthersAskNothing(t, cmd, ok);
    }
  }

  /** One relay message more was read. */
  lemma HeardSnoc<F>(s: seq<C.Sig<F>>, n: nat)
    requires n < |s|
    ensures Descs(s[..n + 1]) == Descs(s[..n]) + DescOfSig(s[n])
  {
    assert s[..n + 1][..n] == s[..n];
  }

  lemma RelayIn<F>(p: C.Party<F>, q: C.Party<F>, u: C.Task<F>, ok: bool)
    requires InOk(p, q) && p.sigTaken < |q.task.sigOut| && Asks(p.task, u, C.SigRecv(q.task.sigOut[p.sigTaken]), ok)
    requires C.Rank(p.task.phase) <= C.Rank(u.phase) && !u.phase.NotStarted?
    requires p.task.phase == C.Handshake ==> DescOfSig(q.task.sigOut[p.sigTaken]) == []
    requires C.InLoop(p.task.phase)
    ensures InOk(C.Party(u, p.sigTaken + 1, p.wireTaken), q)
  {
    HeardSnoc(q.task.sigOut, p.sigTaken);
  }

  /** The handshake loop hears no description. */
  lemma HandshakeHearsNone<F>(p: C.Party<F>, q: C.Party<F>)
    requires Agreeing(p, q) && C.Listens(p.task) && p.sigTaken < |q.task.sigOut| && p.task.phase == C.Handshake
    ensures DescOfSig(q.task.sigOut[p.sigTaken]) == []
  {
    C.NextHeard(p, q);
  }

  lemma SignalIn<F>(p: C.Party<F>, q: C.Party<F>, sig: C.Sig<F>, ok: bool)
    requires InOk(p, q) && p.sigTaken < |q.task.sigOut| && q.task.sigOut[p.sigTaken] == sig && C.InLoop(p.task.phase)
    requires p.task.phase == C.Handshake ==> DescOfSig(sig) == []
    ensures InOk(C.Party(C.Handle(p.task, C.SigRecv(sig), ok), p.sigTaken + 1, p.wireTaken), q)
    ensures p.task.rtcIn <= C.Handle(p.task, C.SigRecv(sig), ok).rtcIn
  {
    C.HandleNeverGoesBack(p.task, C.SigRecv(sig), ok);
    HandleAsks(p.task, C.SigRecv(sig), ok);
    RelayIn(p, q, C.Handle(p.task, C.SigRecv(sig), ok), ok);
  }

  lemma RelayInKeeps<F>(p: C.Party<F>, q: C.Party<F>, ok: bool)
    requires C.CanMove(p, q, C.Relay(ok)) && InOk(p, q) && Agreeing(p, q)
    ensures InOk(C.MoveOf(p, q, C.Relay(ok)), q) && p.task.rtcIn <= C.MoveOf(p, q, C.Relay(ok)).task.rtcIn
  {
    if p.task.phase == C.Handshake {
      HandshakeHearsNone(p, q);
    }
    SignalIn(p, q, q.task.sigOut[p.sigTaken], ok);
  }

  /** Commands that are no signals ask nothing. */
  lemma OtherIn<F>(p: C.Party<F>, q: C.Party<F>, cmd: C.ConnCmd<F>, ok: bool, wireTaken: nat)
    requires !cmd.SigRecv? && InOk(p, q)
    ensures InOk(C.Party(C.Handle(p.task, cmd, ok), p.sigTaken, wireTaken), q)
    ensures p.task.rtcIn <= C.Handle(p.task, cmd, ok).rtcIn
  {
    C.HandleNeverGoesBack(p.task, cmd, ok);
    HandleAsks(p.task, cmd, ok);
  }

  lemma InKeeps<F>(p: C.Party<F>, q: C.Party<F>, m: C.Move<F>)
    requires C.CanMove(p, q, m) && InOk(p, q) && Agreeing(p, q)
    ensures InOk(C.MoveOf(p, q, m), q) && p.task.rtcIn <= C.MoveOf(p, q, m).task.rtcIn
  {
    match m
    case Relay(ok) => RelayInKeeps(p, q, ok);
    case Rtc(ok) => OtherIn(p, q, C.WebrtcRecv(C.Message(q.task.wireOut[p.wireTaken])), ok, p.wireTaken + 1);
    case Local(cmd, ok) => OtherIn(p, q, cmd, ok, p.wireTaken);
    case _ => C.NoWayBack(p, q, m);
  }

  /** The peer's moves leave what was read alone. */
  lemma PeerInKeeps<F>(p: C.Party<F>, q: C.Party<F>, m: C.Move<F>)
    requires C.CanMove(p, q, m) && InOk(q, p)
    ensures InOk(q, C.MoveOf(p, q, m))
  {
    C.MoveSaysOne(p, q, m);
    assert C.MoveOf(p, q, m).task.sigOut[..q.sigTaken] == p.task.sigOut[..q.sigTaken];
  }

  lemma CalledKeeps(t: W.Task, call: C.RtcCall, r: W.Outcome, answer: Bytes)
    requires W.RoleOk(t) && t.running
    ensures
      var u := Called(t, call, r, answer);
      && W.RoleOk(u) && t.made <= u.made && u.isPolite == t.isPolite
      && (u.applied == t.applied || u.applied == DescOfCall(call)) && (t.applied != [] ==> u.applied == t.applied)
      && (u.running && u.applied == [] && DescOfCall(call) != [] ==> call.InOffer? != t.isPolite)
  {
  }

  lemma AskedSnoc(calls: seq<C.RtcCall>, n: nat)
    requires n < |calls|
    ensures CallDescs(calls[..n + 1]) == CallDescs(calls[..n]) + DescOfCall(calls[n])
    ensures |DescOfCall(calls[n])| <= 1
    ensures forall d :: d in DescOfCall(calls[n]) ==> d.OfferDesc? == calls[n].InOffer?
  {
    assert calls[..n + 1][..n] == calls[..n];
  }

  lemma BackendKeeps<F>(p: Side<F>, q: Side<F>, e: Step<F>)
    requires e.Backend? && CanStep(p, q, e) && RtcOk(p) && OutOk(p)
    ensures RtcOk(StepOf(p, q, e)) && OutOk(StepOf(p, q, e)) && StepOf(p, q, e).rtc.isPolite == p.rtc.isPolite
  {
    var calls, n := p.conn.task.rtcIn, p.taken;
    CalledKeeps(p.rtc, calls[n], e.r, e.answer);
    CalledOk(p, Called(p.rtc, calls[n], e.r, e.answer));
  }

  lemma CalledOk<F>(p: Side<F>, u: W.Task)
    requires RtcOk(p) && OutOk(p) && p.taken < |p.conn.task.rtcIn| && p.rtc.running
    requires W.RoleOk(u) && p.rtc.made <= u.made && u.isPolite == p.rtc.isPolite
    requires var call := p.conn.task.rtcIn[p.taken];
             && (u.applied == p.rtc.applied || u.applied == DescOfCall(call))
             && (u.running && u.applied == [] && DescOfCall(call) != [] ==> call.InOffer? != u.isPolite)
    requires p.rtc.applied != [] ==> u.applied == p.rtc.applied
    ensures RtcOk(p.(rtc := u, taken := p.taken + 1)) && OutOk(p.(rtc := u, taken := p.taken + 1))
  {
    AskedSnoc(p.conn.task.rtcIn, p.taken);
    assert u.made[..p.told] == p.rtc.made[..p.told];
  }

  lemma ConnectionKeeps<F>(p: Side<F>, q: Side<F>, m: C.Move<F>)
    requires LinkOk(Link(p, q)) && CanStep(p, q, Connection(m))
    ensures LinkOk(Link(StepOf(p, q, Connection(m)), q))
  {
    var c := C.MoveOf(p.conn, q.conn, m);
    MoveKeepsAgreeing(p.conn, q.conn, m);
    OutKeeps(p, q, m);
    InKeeps(p.conn, q.conn, m);
    PeerInKeeps(p.conn, q.conn, m);
    ConnectionOk(p, q, c, if Generated(m) then p.told + 1 else p.told);
  }

  lemma MoveKeepsAgreeing<F>(p: C.Party<F>, q: C.Party<F>, m: C.Move<F>)
    requires Agreeing(p, q) && C.CanMove(p, q, m)
    ensures Agreeing(C.MoveOf(p, q, m), q)
  {
    C.MoveKeepsJoined(p, q, m);
  }

  lemma ConnectionOk<F>(p: Side<F>, q: Side<F>, c: C.Party<F>, told: nat)
    requires LinkOk(Link(p, q)) && Agreeing(c, q.conn) && OutOk(p.(conn := c, told := told))
    requires InOk(c, q.conn) && InOk(q.conn, c) && p.conn.task.rtcIn <= c.task.rtcIn
    ensures LinkOk(Link(p.(conn := c, told := told), q))
  {
    assert c.task.rtcIn[..p.taken] == p.conn.task.rtcIn[..p.taken];
  }

  lemma StepKeeps<F>(p: Side<F>, q: Side<F>, e: Step<F>)
    requires LinkOk(Link(p, q)) && CanStep(p, q, e)
    ensures LinkOk(Link(StepOf(p, q, e), q))
  {
    match e
    case Connection(m) => ConnectionKeeps(p, q, m);
    case Backend(_, _) => BackendKeeps(p, q, e);
    case Stops =>
  }

  lemma Swap<F>(s: Link<F>)
    requires LinkOk(s)
    ensures LinkOk(Link(s.b, s.a))
  {
    assert Agreeing(s.b.conn, s.a.conn);
  }

  lemma ApplyKeeps<F>(s: Link<F>, e: Event<F>)
    requires LinkOk(s) && Apply(s, e).Some?
    ensures LinkOk(Apply(s, e).value)
  {
    if e.atA {
      StepKeeps(s.a, s.b, e.e);
    } else {
      Swap(s);
      StepKeeps(s.b, s.a, e.e);
      Swap(Link(StepOf(s.b, s.a, e.e), s.a));
    }
  }

  // ----- runs

  datatype Event<F> = Event(atA: bool, e: Step<F>)

  /** What one side brings: its public key, its backend and what that would offer, and its nonce. */
  datatype Setup = Setup(key: Bytes, backend: W.Backend, offer: Bytes, nonce: nat)

  function New<F>(me: Setup, other: Setup): Side<F> {
    Side(C.NewParty(me.nonce), W.NewTask(me.backend, W.Polite(me.key, other.key), me.offer), 0, 0)
  }

  function Start<F>(a: Setup, b: Setup): Link<F> {
    Link(New(a, b), New(b, a))
  }

  function Apply<F>(s: Link<F>, e: Event<F>): Option<Link<F>> {
    if e.atA then if CanStep(s.a, s.b, e.e) then Some(Link(StepOf(s.a, s.b, e.e), s.b)) else None
    else if CanStep(s.b, s.a, e.e) then Some(Link(s.a, StepOf(s.b, s.a, e.e))) else None
  }

  function Run<F>(s: Link<F>, events: seq<Event<F>>): Option<Link<F>> {
    if events == [] then Some(s)
    else
      var r := Run(s, events[..|events| - 1]);
      if r.Some? then Apply(r.value, events[|events| - 1]) else None
  }

  lemma {:induction false} RunKeeps<F>(a: Setup, b: Setup, events: seq<Event<F>>)
    requires a.key != b.key && Run(Start(a, b), events).Some?
    ensures LinkOk(Run(Start(a, b), events).value)
  {
    if events == [] {
      W.ExactlyOnePolite(a.key, b.key);
    } else {
      var n := |events| - 1;
      RunKeeps(a, b, events[..n]);
      ApplyKeeps(Run(Start(a, b), events[..n]).value, events[n]);
    }
  }

  /** Roles stay, and what was made stays made. */
  lemma {:induction false} RolesStay<F>(a: Setup, b: Setup, events: seq<Event<F>>)
    requires Run(Start(a, b), events).Some?
    ensures
      var s, t := Start<F>(a, b), Run(Start(a, b), events).value;
      && t.a.rtc.isPolite == s.a.rtc.isPolite && s.a.rtc.made <= t.a.rtc.made
      && t.b.rtc.isPolite == s.b.rtc.isPolite && s.b.rtc.made <= t.b.rtc.made
  {
    if events != [] {
      var n := |events| - 1;
      var t, e := Run(Start(a, b), events[..n]).value, events[n];
      RolesStay(a, b, events[..n]);
      if e.atA {
        StepStays(t.a, t.b, e.e);
      } else {
        StepStays(t.b, t.a, e.e);
      }
    }
  }

  lemma StepStays<F>(p: Side<F>, q: Side<F>, e: Step<F>)
    requires CanStep(p, q, e)
    ensures StepOf(p, q, e).rtc.isPolite == p.rtc.isPolite && p.rtc.made <= StepOf(p, q, e).rtc.made
  {
  }

  /** Whatever one side was asked to apply, the other side's backend made. */
  lemma AskedWasMade<F>(p: Side<F>, q: Side<F>, d: W.Desc)
    requires SideOk(p, q) && SideOk(q, p) && d in CallDescs(p.conn.task.rtcIn[..p.taken])
    ensures d in q.rtc.made
  {
    CallDescsOfPrefix(p.conn.task.rtcIn, p.taken);
    DescsOfPrefix(q.conn.task.sigOut, p.conn.sigTaken);
  }

  lemma AppliedWasMade<F>(p: Side<F>, q: Side<F>)
    requires SideOk(p, q) && SideOk(q, p)
    ensures p.rtc.applied != [] ==> p.rtc.applied == q.rtc.made
  {
    if p.rtc.applied != [] {
      AskedWasMade(p, q, p.rtc.applied[0]);
    }
  }

  /** The polite side of a link, and the other. */
  function PoliteOf<F>(s: Link<F>): Side<F> {
    if s.a.rtc.isPolite then s.a else s.b
  }

  function OffererOf<F>(s: Link<F>): Side<F> {
    if s.a.rtc.isPolite then s.b else s.a
  }

  /**
   Through events, relay and calls, in every run: the polite side applies nothing but the one offer
   that the other side's backend generated, and that side nothing but the answer which the polite
   side's backend generated for that offer.
   */
  lemma NegotiationAgrees<F>(a: Setup, b: Setup, events: seq<Event<F>>)
    requires a.key != b.key && Run(Start(a, b), events).Some?
    ensures
      var t := Run(Start(a, b), events).value;
      var p, q := PoliteOf(t).rtc, OffererOf(t).rtc;
      && q.made == [W.OfferDesc(if t.a.rtc.isPolite then b.offer else a.offer)]
      && (p.applied != [] ==> p.applied == q.made)
      && (q.applied != [] ==> q.applied == p.made && |p.made| == 1 && p.made[0].AnswerDesc? && p.applied == q.made)
  {
    RunKeeps(a, b, events);
    RolesStay(a, b, events);
    var t := Run(Start(a, b), events).value;
    AppliedWasMade(t.a, t.b);
    AppliedWasMade(t.b, t.a);
  }

  /** Nothing is on its way from `p` to the backend of `q`. */
  predicate Handed<F>(p: Side<F>, q: Side<F>) {
    p.told == |p.rtc.made| && q.conn.sigTaken == |p.conn.task.sigOut| && q.taken == |q.conn.task.rtcIn|
  }

  /**
   When both sides still run WebRTC and nothing is on its way, the negotiation is complete: the
   offer was applied and answered, and the answer was applied.
   */
  lemma QuietIsDone<F>(a: Setup, b: Setup, events: seq<Event<F>>)
    requires a.key != b.key && Run(Start(a, b), events).Some?
    requires var t := Run(Start(a, b), events).value;
             && t.a.conn.task.phase == C.Webrtc == t.b.conn.task.phase
             && t.a.rtc.running && t.b.rtc.running && Handed(t.a, t.b) && Handed(t.b, t.a)
    ensures
      var t := Run(Start(a, b), events).value;
      var p, q := PoliteOf(t).rtc, OffererOf(t).rtc;
      && p.didHandshake && q.didHandshake
      && p.applied == q.made && q.applied == p.made && |p.made| == 1 && p.made[0].AnswerDesc?
  {
    RunKeeps(a, b, events);
    NegotiationAgrees(a, b, events);
    var t := Run(Start(a, b), events).value;
    HandedIsAsked(OffererOf(t), PoliteOf(t));
    HandedIsAsked(PoliteOf(t), OffererOf(t));
    assert OffererOf(t).rtc.made[0] in OffererOf(t).rtc.made;
    assert PoliteOf(t).rtc.made != [];
    assert PoliteOf(t).rtc.made[0] in PoliteOf(t).rtc.made;
  }

  lemma HandedIsAsked<F>(p: Side<F>, q: Side<F>)
    requires SideOk(p, q) && SideOk(q, p) && Handed(p, q)
    requires p.conn.task.phase == C.Webrtc == q.conn.task.phase
    ensures CallDescs(q.conn.task.rtcIn[..q.taken]) == p.rtc.made
  {
    assert p.rtc.made[..p.told] == p.rtc.made;
    assert p.conn.task.sigOut[..q.conn.sigTaken] == p.conn.task.sigOut;
    assert q.conn.task.rtcIn[..q.taken] == q.conn.task.rtcIn;
  }

  // ----- for instance

  lemma Extend<F>(a: Setup, b: Setup, events: seq<Event<F>>, s: Link<F>, e: Event<F>, t: Link<F>)
    returns (all: seq<Event<F>>)
    requires Run(Start(a, b), events) == Some(s) && Apply(s, e) == Some(t)
    ensures all == events + [e] && Run(Start(a, b), all) == Some(t)
  {
    all := events + [e];
    assert all[..|all| - 1] == events;
  }

  lemma AtA<F>(a: Setup, b: Setup, events: seq<Event<F>>, s: Link<F>, e: Step<F>, p: Side<F>)
    returns (all: seq<Event<F>>)
    requires Run(Start(a, b), events) == Some(s) && CanStep(s.a, s.b, e) && StepOf(s.a, s.b, e) == p
    ensures Run(Start(a, b), all) == Some(Link(p, s.b))
  {
    all := Extend(a, b, events, s, Event(true, e), Link(p, s.b));
  }

  lemma AtB<F>(a: Setup, b: Setup, events: seq<Event<F>>, s: Link<F>, e: Step<F>, p: Side<F>)
    returns (all: seq<Event<F>>)
    requires Run(Start(a, b), events) == Some(s) && CanStep(s.b, s.a, e) && StepOf(s.b, s.a, e) == p
    ensures Run(Start(a, b), all) == Some(Link(s.a, p))
  {
    all := Extend(a, b, events, s, Event(false, e), Link(s.a, p));
  }

  /** A side with its phase and flags, what it said, heard and was asked, and its WebRTC task. */
  function Now<F>(nonce: nat, phase: C.Phase, got: bool, sent: bool, said: seq<C.Sig<F>>, heard: nat,
                  asked: seq<C.RtcCall>, rtc: W.Task, told: nat, taken: nat): Side<F> {
    Side(C.Party(C.Task(phase, nonce, got, sent, false, false, said, [], [], 0, asked), heard, 0), rtc, told, taken)
  }

  /** A side that has sent its nonce. */
  function Begun<F>(nonce: nat, rtc: W.Task): Side<F> {
    Now(nonce, C.Handshake, false, false, [C.HandshakeReq(nonce)], 0, [], rtc, 0, 0)
  }

  function Said<F>(x: nat, y: nat): seq<C.Sig<F>> {
    [C.HandshakeReq(x), C.HandshakeRes(y)]
  }

  lemma BothStart<F>(a: Setup, b: Setup) returns (events: seq<Event<F>>)
    ensures
      var s := Start<F>(a, b);
      Run(s, events) == Some(Link(Begun(a.nonce, s.a.rtc), Begun(b.nonce, s.b.rtc)))
  {
    var s := Start<F>(a, b);
    var none: seq<C.Sig<F>> := [];
    assert none + [C.HandshakeReq(a.nonce)] == [C.HandshakeReq(a.nonce)];
    assert none + [C.HandshakeReq(b.nonce)] == [C.HandshakeReq(b.nonce)];
    var p := Begun(a.nonce, s.a.rtc);
    events := AtA(a, b, [], s, Connection(C.Start), p);
    events := AtB(a, b, events, Link(p, s.b), Connection(C.Start), Begun(b.nonce, s.b.rtc));
  }

  lemma BothAnswer<F>(a: Setup, b: Setup) returns (events: seq<Event<F>>)
    ensures
      var s := Start<F>(a, b);
      Run(s, events) == Some(Link(Now(a.nonce, C.Handshake, false, true, Said(a.nonce, b.nonce), 1, [], s.a.rtc, 0, 0),
                                  Now(b.nonce, C.Handshake, false, true, Said(b.nonce, a.nonce), 1, [], s.b.rtc, 0, 0)))
  {
    events := BothStart(a, b);
    var s := Run(Start<F>(a, b), events).value;
    assert s.a.conn.task.sigOut + [C.HandshakeRes(b.nonce)] == Said(a.nonce, b.nonce);
    assert s.b.conn.task.sigOut + [C.HandshakeRes(a.nonce)] == Said(b.nonce, a.nonce);
    var p := Now(a.nonce, C.Handshake, false, true, Said(a.nonce, b.nonce), 1, [], s.a.rtc, 0, 0);
    events := AtA(a, b, events, s, Connection(C.Relay(true)), p);
    events := AtB(a, b, events, Link(p, s.b), Connection(C.Relay(true)),
                  Now(b.nonce, C.Handshake, false, true, Said(b.nonce, a.nonce), 1, [], s.b.rtc, 0, 0));
  }

  lemma BothAgree<F>(a: Setup, b: Setup) returns (events: seq<Event<F>>)
    ensures
      var s := Start<F>(a, b);
      Run(s, events) == Some(Link(Now(a.nonce, C.Webrtc, true, true, Said(a.nonce, b.nonce), 2, [], s.a.rtc, 0, 0),
                                  Now(b.nonce, C.Webrtc, true, true, Said(b.nonce, a.nonce), 2, [], s.b.rtc, 0, 0)))
  {
    events := BothAnswer(a, b);
    var s := Run(Start<F>(a, b), events).value;
    var p := Now(a.nonce, C.Webrtc, true, true, Said(a.nonce, b.nonce), 2, [], s.a.rtc, 0, 0);
    events := AtA(a, b, events, s, Connection(C.Relay(true)), p);
    events := AtB(a, b, events, Link(p, s.b), Connection(C.Relay(true)),
                  Now(b.nonce, C.Webrtc, true, true, Said(b.nonce, a.nonce), 2, [], s.b.rtc, 0, 0));
  }

  /** The offer goes from b's backend to a's. */
  lemma OfferGoes<F>(a: Setup, b: Setup, answer: Bytes) returns (events: seq<Event<F>>)
    requires W.Polite(a.key, b.key) && !W.Polite(b.key, a.key)
    ensures
      var s := Start<F>(a, b);
      Run(s, events) ==
      Some(Link(Now(a.nonce, C.Webrtc, true, true, Said(a.nonce, b.nonce), 3, [C.InOffer(b.offer)],
                    W.InOffer(s.a.rtc, b.offer, W.Accepts, answer), 0, 1),
                Now(b.nonce, C.Webrtc, true, true, Said(b.nonce, a.nonce) + [C.Offer(b.offer)], 2, [], s.b.rtc, 1, 0)))
  {
    events := BothAgree(a, b);
    var s := Run(Start<F>(a, b), events).value;
    var q := Now(b.nonce, C.Webrtc, true, true, Said(b.nonce, a.nonce) + [C.Offer(b.offer)], 2, [], s.b.rtc, 1, 0);
    events := AtB(a, b, events, s, Connection(C.Local(C.WebrtcRecv(C.GeneratedOffer(b.offer)), true)), q);
    var p := Now(a.nonce, C.Webrtc, true, true, Said(a.nonce, b.nonce), 3, [C.InOffer(b.offer)], s.a.rtc, 0, 0);
    var none: seq<C.RtcCall> := [];
    assert none + [C.InOffer(b.offer)] == [C.InOffer(b.offer)];
    events := AtA(a, b, events, Link(s.a, q), Connection(C.Relay(true)), p);
    events := AtA(a, b, events, Link(p, q), Backend(W.Accepts, answer),
                  p.(rtc := W.InOffer(s.a.rtc, b.offer, W.Accepts, answer), taken := 1));
  }

  /** Any two peers can complete the negotiation, with any offer and any answer. */
  lemma NegotiationRun<F>(a: Setup, b: Setup, answer: Bytes) returns (events: seq<Event<F>>)
    requires a.key != b.key && W.Polite(a.key, b.key)
    ensures Run(Start(a, b), events).Some?
    ensures
      var t := Run(Start<F>(a, b), events).value;
      && t.a.rtc.running && t.b.rtc.running && t.a.rtc.didHandshake && t.b.rtc.didHandshake
      && t.a.rtc.applied == [W.OfferDesc(b.offer)] && t.b.rtc.applied == [W.AnswerDesc(answer)]
  {
    W.ExactlyOnePolite(a.key, b.key);
    events := OfferGoes(a, b, answer);
    var s := Run(Start<F>(a, b), events).value;
    var told := s.a.conn.task.(sigOut := s.a.conn.task.sigOut + [C.Answer(answer)]);
    var p := s.a.(conn := C.Party(told, 3, 0), told := 1);
    events := AtA(a, b, events, s, Connection(C.Local(C.WebrtcRecv(C.GeneratedAnswer(answer)), true)), p);
    var q := s.b.(conn := C.Party(s.b.conn.task.(rtcIn := [C.InAnswer(answer)]), 3, 0));
    var none: seq<C.RtcCall> := [];
    assert none + [C.InAnswer(answer)] == [C.InAnswer(answer)];
    events := AtB(a, b, events, Link(p, s.b), Connection(C.Relay(true)), q);
    events := AtB(a, b, events, Link(p, q), Backend(W.Accepts, answer),
                  q.(rtc := W.InAnswer(s.b.rtc, answer, W.Accepts), taken := 1));
  }
}
