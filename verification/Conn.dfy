/**
 The connection task: a nonce handshake over the signal relay, then WebRTC, then, if WebRTC
 fails, messages over the relay for good. `F` is the type of the frames it carries.
 */
module Conn {
  import opened Core

  type Bytes = seq<byte>

  datatype Sig<F> =
    | HandshakeReq(nonce: nat)
    | HandshakeRes(nonce: nat)
    | Offer(sdp: Bytes)
    | Answer(sdp: Bytes)
    | Ice(candidate: Bytes)
    | Relayed(f: F)
    | Keepalive

  datatype WebrtcEvt<F> =
    | GeneratedOffer(sdp: Bytes)
    | GeneratedAnswer(sdp: Bytes)
    | GeneratedIce(candidate: Bytes)
    | Message(f: F)
    | Ready
    | EvtClosed

  /** A call on the WebRTC module. */
  datatype RtcCall = InOffer(sdp: Bytes) | InAnswer(sdp: Bytes) | InIce(candidate: Bytes)

  datatype ConnCmd<F> =
    | SigRecv(m: Sig<F>)
    | WebrtcRecv(e: WebrtcEvt<F>)
    | SendMessage(f: F)
    | WebrtcTimeoutCheck
    | WebrtcClosed

  datatype Phase = NotStarted | Handshake | Webrtc | Fallback | Closed

  /**
   The connection's state, with everything it ever sent on the relay, handed to WebRTC, and passed on
   to the application, and the calls that the WebRTC module took from it. `fromWire` counts the frames
   that came over WebRTC, and `hungUp` is set when the command channel closes during the handshake.
   */
  datatype Task<F> = Task(
    phase: Phase,
    nonce: nat,
    gotPeerRes: bool,
    sentOurRes: bool,
    isReady: bool,
    hungUp: bool,
    sigOut: seq<Sig<F>>,
    wireOut: seq<F>,
    received: seq<F>,
    fromWire: nat,
    rtcIn: seq<RtcCall>)

  function NewTask<F>(nonce: nat): Task<F> {
    Task(NotStarted, nonce, false, false, false, false, [], [], [], 0, [])
  }

  /** `con_task` begins by sending its nonce. */
  function Begin<F>(t: Task<F>): Task<F>
    requires t.phase == NotStarted
  {
    t.(phase := Handshake, sigOut := t.sigOut + [HandshakeReq(t.nonce)])
  }

  function CloseTask<F>(t: Task<F>): Task<F> {
    t.(phase := Closed)
  }

  /**
   The command channel is closed and empty. The handshake loop then ends like one that succeeded,
   whatever its flags; the other loops end the connection.
   */
  function HangUp<F>(t: Task<F>): Task<F> {
    match t.phase
    case Handshake => t.(phase := Webrtc, hungUp := true)
    case Webrtc => CloseTask(t)
    case Fallback => CloseTask(t)
    case _ => t
  }

  /** The end of each turn of the handshake loop. */
  function Settle<F>(t: Task<F>): Task<F> {
    if t.gotPeerRes && t.sentOurRes then t.(phase := Webrtc) else t
  }

  /** One command in the handshake loop; `ok` is the outcome of the call it makes, if any. */
  function InHandshake<F>(t: Task<F>, cmd: ConnCmd<F>, ok: bool): Task<F> {
    match cmd
    case SigRecv(HandshakeReq(n)) =>
      if ok then Settle(t.(sigOut := t.sigOut + [HandshakeRes(n)], sentOurRes := true)) else CloseTask(t)
    case SigRecv(HandshakeRes(n)) =>
      if n == t.nonce then Settle(t.(gotPeerRes := true)) else CloseTask(t)
    case SigRecv(_) => Settle(t)
    case _ => CloseTask(t)
  }

  /** One signal in the WebRTC loop. */
  function SignalInWebrtc<F>(t: Task<F>, m: Sig<F>, ok: bool): Task<F> {
    match m
    case HandshakeReq(_) => CloseTask(t)
    case HandshakeRes(_) => CloseTask(t)
    case Relayed(f) => if ok then t.(received := t.received + [f], phase := Fallback) else CloseTask(t)
    case Offer(o) => if ok then t.(rtcIn := t.rtcIn + [InOffer(o)]) else t.(phase := Fallback)
    case Answer(a) => if ok then t.(rtcIn := t.rtcIn + [InAnswer(a)]) else t.(phase := Fallback)
    case Ice(i) => if ok then t.(rtcIn := t.rtcIn + [InIce(i)]) else t
    case Keepalive => t
  }

  /** One event of the WebRTC module. */
  function EventInWebrtc<F>(t: Task<F>, e: WebrtcEvt<F>, ok: bool): Task<F> {
    match e
    case GeneratedOffer(o) => if ok then t.(sigOut := t.sigOut + [Offer(o)]) else CloseTask(t)
    case GeneratedAnswer(a) => if ok then t.(sigOut := t.sigOut + [Answer(a)]) else CloseTask(t)
    case GeneratedIce(i) => if ok then t.(sigOut := t.sigOut + [Ice(i)]) else CloseTask(t)
    case Message(f) => if ok then t.(received := t.received + [f], fromWire := t.fromWire + 1) else CloseTask(t)
    case Ready => t.(isReady := true)
    case EvtClosed => t
  }

  /** One command in the WebRTC loop. */
  function InWebrtc<F>(t: Task<F>, cmd: ConnCmd<F>, ok: bool): Task<F> {
    match cmd
    case SigRecv(m) => SignalInWebrtc(t, m, ok)
    case WebrtcRecv(e) => EventInWebrtc(t, e, ok)
    case SendMessage(f) => if ok then t.(wireOut := t.wireOut + [f]) else t.(phase := Fallback)
    case WebrtcTimeoutCheck => if t.isReady then t else t.(phase := Fallback)
    case WebrtcClosed => CloseTask(t)
  }

  /** One command in the relay loop. */
  function InFallback<F>(t: Task<F>, cmd: ConnCmd<F>, ok: bool): Task<F> {
    match cmd
    case SigRecv(Relayed(f)) => if ok then t.(received := t.received + [f]) else CloseTask(t)
    case SendMessage(f) => if ok then t.(sigOut := t.sigOut + [Relayed(f)]) else CloseTask(t)
    case _ => t
  }

  function Handle<F>(t: Task<F>, cmd: ConnCmd<F>, ok: bool): Task<F> {
    match t.phase
    case NotStarted => t
    case Handshake => InHandshake(t, cmd, ok)
    case Webrtc => InWebrtc(t, cmd, ok)
    case Fallback => InFallback(t, cmd, ok)
    case Closed => t
  }

  /** The three loops over a state that is updated in place. */
  class ConnTask<F> {
    var phase: Phase
    const nonce: nat
    var gotPeerRes: bool
    var sentOurRes: bool
    var isReady: bool
    var hungUp: bool
    var sigOut: seq<Sig<F>>
    var wireOut: seq<F>
    var received: seq<F>
    var fromWire: nat
    var rtcIn: seq<RtcCall>

    ghost function Model(): Task<F>
      reads this
    {
      Task(phase, nonce, gotPeerRes, sentOurRes, isReady, hungUp, sigOut, wireOut, received, fromWire, rtcIn)
    }

    constructor (nonce: nat)
      ensures Model() == NewTask<F>(nonce)
    {
      this.nonce := nonce;
      phase := NotStarted;
      gotPeerRes, sentOurRes, isReady, hungUp := false, false, false, false;
      sigOut, wireOut, received, fromWire, rtcIn := [], [], [], 0, [];
    }

    /** `recv` returned nothing. */
    method ChannelClosed()
      requires InLoop(phase)
      modifies this
      ensures Model() == HangUp(old(Model()))
    {
      if phase == Handshake {
        phase := Webrtc;
        hungUp := true;
      } else {
        phase := Closed;
      }
    }

    method HandshakeCmd(cmd: ConnCmd<F>, ok: bool)
      requires phase == Handshake
      modifies this
      ensures Model() == Handle(old(Model()), cmd, ok)
    {
      match cmd {
        case SigRecv(sig) =>
          match sig {
            case HandshakeReq(othNonce) =>
              if !ok {
                phase := Closed;
                return;
              }
              sigOut := sigOut + [HandshakeRes(othNonce)];
              sentOurRes := true;
            case HandshakeRes(resNonce) =>
              if resNonce != nonce {
                phase := Closed;
                return;
              }
              gotPeerRes := true;
            case _ =>
          }
        case _ =>
          phase := Closed;
          return;
      }
      if gotPeerRes && sentOurRes {
        phase := Webrtc;
      }
    }

    method WebrtcSignal(m: Sig<F>, ok: bool)
      requires phase == Webrtc
      modifies this
      ensures Model() == SignalInWebrtc(old(Model()), m, ok)
      ensures m.Offer? && ok ==> rtcIn == old(rtcIn) + [InOffer(m.sdp)]
      ensures m.Answer? && ok ==> rtcIn == old(rtcIn) + [InAnswer(m.sdp)]
    {
      match m {
        case HandshakeReq(_) => phase := Closed;
        case HandshakeRes(_) => phase := Closed;
        case Relayed(f) =>
          if !ok {
            phase := Closed;
            return;
          }
          received := received + [f];
          phase := Fallback;
        case Offer(offer) =>
          if !ok {
            phase := Fallback;
            return;
          }
          rtcIn := rtcIn + [InOffer(offer)];
        case Answer(answer) =>
          if !ok {
            phase := Fallback;
            return;
          }
          rtcIn := rtcIn + [InAnswer(answer)];
        case Ice(ice) => if ok { rtcIn := rtcIn + [InIce(ice)]; }
        case Keepalive =>
      }
    }

    method WebrtcEvent(e: WebrtcEvt<F>, ok: bool)
      requires phase == Webrtc
      modifies this
      ensures Model() == EventInWebrtc(old(Model()), e, ok)
      ensures e.GeneratedOffer? && ok ==> sigOut == old(sigOut) + [Offer(e.sdp)]
      ensures e.GeneratedAnswer? && ok ==> sigOut == old(sigOut) + [Answer(e.sdp)]
      ensures e.GeneratedIce? && ok ==> sigOut == old(sigOut) + [Ice(e.candidate)]
    {
      match e {
        case GeneratedOffer(offer) => SendSignal(Offer(offer), ok);
        case GeneratedAnswer(answer) => SendSignal(Answer(answer), ok);
        case GeneratedIce(ice) => SendSignal(Ice(ice), ok);
        case Message(f) =>
          if !ok {
            phase := Closed;
            return;
          }
          received := received + [f];
          fromWire := fromWire + 1;
        case Ready => isReady := true;
        case EvtClosed =>
      }
    }

    method WebrtcCmd(cmd: ConnCmd<F>, ok: bool)
      requires phase == Webrtc
      modifies this
      ensures Model() == Handle(old(Model()), cmd, ok)
      ensures cmd.WebrtcRecv? && cmd.e.GeneratedOffer? && ok ==> sigOut == old(sigOut) + [Offer(cmd.e.sdp)]
      ensures cmd.WebrtcRecv? && cmd.e.GeneratedAnswer? && ok ==> sigOut == old(sigOut) + [Answer(cmd.e.sdp)]
      ensures cmd.WebrtcRecv? && cmd.e.GeneratedIce? && ok ==> sigOut == old(sigOut) + [Ice(cmd.e.candidate)]
      ensures cmd.SigRecv? && cmd.m.Offer? && ok ==> rtcIn == old(rtcIn) + [InOffer(cmd.m.sdp)]
      ensures cmd.SigRecv? && cmd.m.Answer? && ok ==> rtcIn == old(rtcIn) + [InAnswer(cmd.m.sdp)]
    {
      match cmd {
        case SigRecv(m) => WebrtcSignal(m, ok);
        case WebrtcRecv(e) => WebrtcEvent(e, ok);
        case SendMessage(f) =>
          if !ok {
            phase := Fallback;
            return;
          }
          wireOut := wireOut + [f];
        case WebrtcTimeoutCheck => if !isReady { phase := Fallback; }
        case WebrtcClosed => phase := Closed;
      }
    }

    method SendSignal(m: Sig<F>, ok: bool)
      modifies this
      ensures Model() == if ok then old(Model()).(sigOut := old(sigOut) + [m]) else CloseTask(old(Model()))
    {
      if ok {
        sigOut := sigOut + [m];
      } else {
        phase := Closed;
      }
    }

    method FallbackCmd(cmd: ConnCmd<F>, ok: bool)
      requires phase == Fallback
      modifies this
      ensures Model() == Handle(old(Model()), cmd, ok)
    {
      match cmd {
        case SigRecv(Relayed(f)) =>
          if !ok {
            phase := Closed;
            return;
          }
          received := received + [f];
        case SendMessage(f) => SendSignal(Relayed(f), ok);
        case _ =>
      }
    }
  }

  // ----- two connection tasks, joined by the relay and by WebRTC

  /** A task and how much it has read of what the peer sent on each lane. */
  datatype Party<F> = Party(task: Task<F>, sigTaken: nat, wireTaken: nat)

  datatype Move<F> =
    | Start
    | Tick                                  // the keepalive task
    | Relay(ok: bool)                       // read the next relay message
    | Rtc(ok: bool)                         // read the next WebRTC message
    | Local(cmd: ConnCmd<F>, ok: bool)      // any other command
    | ForceRelay
    | Hangs                                 // the command channel closes
    | Shut                                  // idle, aborted, dropped, timed out

  /** Commands that do not come from the peer; WebRTC ones only exist once WebRTC does. */
  predicate IsLocal<F>(phase: Phase, cmd: ConnCmd<F>) {
    match cmd
    case SigRecv(_) => false
    case WebrtcRecv(Message(_)) => false
    case SendMessage(_) => true
    case _ => phase == Webrtc || phase == Fallback
  }

  predicate InLoop(phase: Phase) {
    phase == Handshake || phase == Webrtc || phase == Fallback
  }

  /** The loop still gets commands. */
  predicate Listens<F>(t: Task<F>) {
    InLoop(t.phase) && !t.hungUp
  }

  predicate CanMove<F>(p: Party<F>, q: Party<F>, m: Move<F>) {
    match m
    case Start => p.task.phase == NotStarted
    case Tick => true
    case Relay(_) => Listens(p.task) && p.sigTaken < |q.task.sigOut|
    case Rtc(_) => Listens(p.task) && p.task.phase != Handshake && p.wireTaken < |q.task.wireOut|
    case Local(cmd, _) => Listens(p.task) && IsLocal(p.task.phase, cmd)
    case ForceRelay => p.task.phase == Webrtc
    case Hangs => InLoop(p.task.phase)
    case Shut => true
  }

  function MoveOf<F>(p: Party<F>, q: Party<F>, m: Move<F>): Party<F>
    requires CanMove(p, q, m)
  {
    match m
    case Start => p.(task := Begin(p.task))
    case Tick => p.(task := p.task.(sigOut := p.task.sigOut + [Keepalive]))
    case Relay(ok) =>
      p.(task := Handle(p.task, SigRecv(q.task.sigOut[p.sigTaken]), ok), sigTaken := p.sigTaken + 1)
    case Rtc(ok) =>
      p.(task := Handle(p.task, WebrtcRecv(Message(q.task.wireOut[p.wireTaken])), ok), wireTaken := p.wireTaken + 1)
    case Local(cmd, ok) => p.(task := Handle(p.task, cmd, ok))
    case ForceRelay => p.(task := p.task.(phase := Fallback))
    case Hangs => p.(task := HangUp(p.task))
    case Shut => p.(task := CloseTask(p.task))
  }

  // ----- what the handshake guarantees

  /** Relay messages other than keepalives, which may come at any time. */
  function Solid<F>(s: seq<Sig<F>>): seq<Sig<F>> {
    if s == [] then []
    else Solid(s[..|s| - 1]) + if s[|s| - 1].Keepalive? then [] else [s[|s| - 1]]
  }

  predicate IsHandshake<F>(m: Sig<F>) {
    m.HandshakeReq? || m.HandshakeRes?
  }

  /** The connection is past its handshake. */
  predicate Left<F>(t: Task<F>) {
    t.gotPeerRes && t.sentOurRes
  }

  /** What a task has said: its nonce, then the answer to the peer's, then no handshake message. */
  ghost predicate SaidOk<F>(t: Task<F>, peerNonce: nat) {
    var k := Solid(t.sigOut);
    && (k != [] ==> k[0] == HandshakeReq(t.nonce))
    && (if t.sentOurRes then |k| >= 2 && k[1] == HandshakeRes(peerNonce) else |k| <= 1)
    && (|k| > 2 ==> Left(t))
    && (forall i :: 2 <= i < |k| ==> !IsHandshake(k[i]))
    && (t.phase == NotStarted ==> k == [] && !t.sentOurRes && !t.gotPeerRes)
    && (InLoop(t.phase) ==> k != [])
    && ((t.phase == Webrtc || t.phase == Fallback) && !t.hungUp ==> Left(t))
  }

  /** What a task has heard: first the peer's nonce, then the answer to its own. */
  ghost predicate HeardOk<F>(p: Party<F>, q: Party<F>) {
    && p.sigTaken <= |q.task.sigOut|
    && var n := |Solid(q.task.sigOut[..p.sigTaken])|;
       && (p.task.phase == NotStarted ==> n == 0)
       && (p.task.phase == Handshake ==> !p.task.gotPeerRes && n == if p.task.sentOurRes then 1 else 0)
       && (Left(p.task) ==> n >= 2)
  }

  ghost predicate SolidPrefix<F>(s: seq<Sig<F>>, n: nat)
    requires n <= |s|
  {
    var k, j := Solid(s), Solid(s[..n]);
    && j <= k
    && (n < |s| ==> if s[n].Keepalive? then Solid(s[..n + 1]) == j
                    else |j| < |k| && k[|j|] == s[n] && Solid(s[..n + 1]) == j + [s[n]])
  }

  lemma {:induction false} SolidOfPrefix<F>(s: seq<Sig<F>>, n: nat)
    requires n <= |s|
    ensures SolidPrefix(s, n)
  {
    if n < |s| {
      assert s[..n + 1][..n] == s[..n] && s[..n + 1][n] == s[n];
      if n + 1 < |s| {
        SolidOfPrefix(s[..|s| - 1], n);
        assert s[..|s| - 1][..n] == s[..n] && s[..|s| - 1][..n + 1] == s[..n + 1];
      } else {
        assert s[..n + 1] == s;
      }
    } else {
      assert s[..n] == s;
    }
  }

  lemma SolidSnoc<F>(s: seq<Sig<F>>, m: Sig<F>)
    ensures Solid(s + [m]) == if m.Keepalive? then Solid(s) else Solid(s) + [m]
  {
    assert (s + [m])[..|s|] == s;
  }

  /** The lanes deliver a prefix of the WebRTC frames, then a prefix of the relayed ones. */
  function RelayedOf<F>(s: seq<Sig<F>>): seq<F> {
    if s == [] then []
    else RelayedOf(s[..|s| - 1]) + if s[|s| - 1].Relayed? then [s[|s| - 1].f] else []
  }

  ghost predicate ReceivedOk<F>(p: Party<F>, q: Party<F>) {
    && p.sigTaken <= |q.task.sigOut| && p.task.fromWire <= p.wireTaken <= |q.task.wireOut|
    && var relayed := RelayedOf(q.task.sigOut[..p.sigTaken]);
       var wired := q.task.wireOut[..p.task.fromWire];
       match p.task.phase
       case Fallback => p.task.received == wired + relayed
       case Closed => p.task.received == wired + relayed || (relayed != [] && p.task.received == wired + relayed[..|relayed| - 1])
       case _ => p.task.received == wired && relayed == [] && p.task.fromWire == p.wireTaken
  }

  /** Nothing is relayed before the fallback, and nothing goes to WebRTC after it. */
  ghost predicate QuietRelay<F>(t: Task<F>) {
    (t.phase == NotStarted || t.phase == Handshake || t.phase == Webrtc) ==> RelayedOf(t.sigOut) == []
  }

  ghost predicate Joined<F>(p: Party<F>, q: Party<F>) {
    && SaidOk(p.task, q.task.nonce) && HeardOk(p, q) && ReceivedOk(p, q) && QuietRelay(p.task) && FreshOk(p.task)
  }

  /** No frame has gone out or come in. */
  ghost predicate Silent<F>(t: Task<F>) {
    t.wireOut == [] && RelayedOf(t.sigOut) == [] && t.received == []
  }

  /** Before the end of the handshake, and for good if it ended by hanging up, nothing is sent or received. */
  ghost predicate FreshOk<F>(t: Task<F>) {
    && (t.phase == NotStarted || t.phase == Handshake || t.hungUp ==> Silent(t))
    && (t.hungUp ==> !t.gotPeerRes && t.phase != NotStarted && t.phase != Handshake)
  }

  /** At most one relay message is sent at a time, of a kind that fits the phase. */
  predicate MaySay<F>(t: Task<F>, m: Sig<F>) {
    match m
    case HandshakeReq(n) => t.phase == NotStarted && n == t.nonce
    case HandshakeRes(_) => t.phase == Handshake
    case Relayed(_) => t.phase == Fallback
    case Keepalive => true
    case _ => t.phase == Webrtc
  }

  ghost predicate SaysOne<F>(t: Task<F>, u: Task<F>) {
    && u.nonce == t.nonce && t.wireOut <= u.wireOut
    && (u.sigOut == t.sigOut ||
        (|u.sigOut| == |t.sigOut| + 1 && u.sigOut == t.sigOut + [u.sigOut[|t.sigOut|]]
         && MaySay(t, u.sigOut[|t.sigOut|])))
  }

  lemma HandshakeSaysOne<F>(t: Task<F>, cmd: ConnCmd<F>, ok: bool)
    requires t.phase == Handshake
    ensures SaysOne(t, InHandshake(t, cmd, ok))
  {
  }

  lemma SignalSaysNothing<F>(t: Task<F>, m: Sig<F>, ok: bool)
    ensures var u := SignalInWebrtc(t, m, ok); u.nonce == t.nonce && u.wireOut == t.wireOut && u.sigOut == t.sigOut
  {
  }

  lemma EventSaysOne<F>(t: Task<F>, e: WebrtcEvt<F>, ok: bool)
    requires t.phase == Webrtc
    ensures SaysOne(t, EventInWebrtc(t, e, ok)) && EventInWebrtc(t, e, ok).wireOut == t.wireOut
  {
  }

  lemma WebrtcSaysOne<F>(t: Task<F>, cmd: ConnCmd<F>, ok: bool)
    requires t.phase == Webrtc
    ensures SaysOne(t, InWebrtc(t, cmd, ok))
  {
    if cmd.SigRecv? {
      SignalSaysNothing(t, cmd.m, ok);
    } else if cmd.WebrtcRecv? {
      EventSaysOne(t, cmd.e, ok);
    }
  }

  lemma FallbackSaysOne<F>(t: Task<F>, cmd: ConnCmd<F>, ok: bool)
    requires t.phase == Fallback
    ensures SaysOne(t, InFallback(t, cmd, ok))
  {
  }

  lemma HandleSaysOne<F>(t: Task<F>, cmd: ConnCmd<F>, ok: bool)
    ensures SaysOne(t, Handle(t, cmd, ok))
  {
    match t.phase
    case Handshake => HandshakeSaysOne(t, cmd, ok);
    case Webrtc => WebrtcSaysOne(t, cmd, ok);
    case Fallback => FallbackSaysOne(t, cmd, ok);
    case _ =>
  }

  lemma MoveSaysOne<F>(p: Party<F>, q: Party<F>, m: Move<F>)
    requires CanMove(p, q, m)
    ensures SaysOne(p.task, MoveOf(p, q, m).task)
  {
    match m
    case Relay(ok) => HandleSaysOne(p.task, SigRecv(q.task.sigOut[p.sigTaken]), ok);
    case Rtc(ok) => HandleSaysOne(p.task, WebrtcRecv(Message(q.task.wireOut[p.wireTaken])), ok);
    case Local(cmd, ok) => HandleSaysOne(p.task, cmd, ok);
    case _ =>
  }

  /** How a command moves through the phases. */
  ghost predicate PhaseMoves<F>(t: Task<F>, u: Task<F>) {
    u.hungUp == t.hungUp &&
    match t.phase
    case NotStarted => u == t
    case Handshake => u.phase == Handshake || u.phase == Closed || (u.phase == Webrtc && Left(u))
    case Webrtc => u.phase != NotStarted && u.phase != Handshake && Left(u) == Left(t)
    case Fallback => (u.phase == Fallback || u.phase == Closed) && Left(u) == Left(t)
    case Closed => u == t
  }

  lemma HandshakeMovesPhase<F>(t: Task<F>, cmd: ConnCmd<F>, ok: bool)
    requires t.phase == Handshake
    ensures PhaseMoves(t, InHandshake(t, cmd, ok))
  {
  }

  lemma WebrtcMovesPhase<F>(t: Task<F>, cmd: ConnCmd<F>, ok: bool)
    requires t.phase == Webrtc
    ensures PhaseMoves(t, InWebrtc(t, cmd, ok))
  {
  }

  lemma FallbackMovesPhase<F>(t: Task<F>, cmd: ConnCmd<F>, ok: bool)
    requires t.phase == Fallback
    ensures PhaseMoves(t, InFallback(t, cmd, ok))
  {
  }

  lemma HandleMovesPhase<F>(t: Task<F>, cmd: ConnCmd<F>, ok: bool)
    ensures PhaseMoves(t, Handle(t, cmd, ok))
  {
    match t.phase
    case Handshake => HandshakeMovesPhase(t, cmd, ok);
    case Webrtc => WebrtcMovesPhase(t, cmd, ok);
    case Fallback => FallbackMovesPhase(t, cmd, ok);
    case _ =>
  }

  /** The next relay message is the one the handshake calls for. */
  lemma NextHeard<F>(p: Party<F>, q: Party<F>)
    requires HeardOk(p, q) && SaidOk(q.task, p.task.nonce) && p.sigTaken < |q.task.sigOut|
    requires Listens(p.task) && SaidOk(p.task, q.task.nonce)
    ensures
      var m := q.task.sigOut[p.sigTaken];
      m.Keepalive? ||
      if p.task.phase == Handshake
      then m == if p.task.sentOurRes then HandshakeRes(p.task.nonce) else HandshakeReq(q.task.nonce)
      else !IsHandshake(m)
  {
    SolidOfPrefix(q.task.sigOut, p.sigTaken);
  }

  /** The handshake flags change only on the two handshake messages. */
  ghost predicate FlagsOf<F>(t: Task<F>, u: Task<F>, cmd: ConnCmd<F>, ok: bool) {
    if t.phase == Handshake && cmd.SigRecv? && cmd.m.HandshakeReq? && ok
    then u.sentOurRes && u.gotPeerRes == t.gotPeerRes && u.sigOut == t.sigOut + [HandshakeRes(cmd.m.nonce)]
    else if t.phase == Handshake && cmd.SigRecv? && cmd.m == HandshakeRes(t.nonce)
    then u.sentOurRes == t.sentOurRes && u.gotPeerRes && u.sigOut == t.sigOut
    else u.sentOurRes == t.sentOurRes && u.gotPeerRes == t.gotPeerRes
         && (t.phase == Handshake ==> u.sigOut == t.sigOut)
  }

  lemma FlagsInWebrtc<F>(t: Task<F>, cmd: ConnCmd<F>, ok: bool)
    requires t.phase == Webrtc
    ensures FlagsOf(t, InWebrtc(t, cmd, ok), cmd, ok)
  {
  }

  lemma FlagsChange<F>(t: Task<F>, cmd: ConnCmd<F>, ok: bool)
    ensures FlagsOf(t, Handle(t, cmd, ok), cmd, ok)
  {
    if t.phase == Webrtc {
      FlagsInWebrtc(t, cmd, ok);
    }
  }

  lemma SaidAfterHandle<F>(t: Task<F>, cmd: ConnCmd<F>, ok: bool, peerNonce: nat)
    requires SaidOk(t, peerNonce) && !t.hungUp
    requires t.phase == Handshake && cmd.SigRecv? && cmd.m.HandshakeReq? ==> cmd.m.nonce == peerNonce && !t.sentOurRes
    ensures SaidOk(Handle(t, cmd, ok), peerNonce)
  {
    HandleSaysOne(t, cmd, ok);
    HandleMovesPhase(t, cmd, ok);
    FlagsChange(t, cmd, ok);
    SaidAfter(t, Handle(t, cmd, ok), cmd, ok, peerNonce);
  }

  lemma SaidAfter<F>(t: Task<F>, u: Task<F>, cmd: ConnCmd<F>, ok: bool, peerNonce: nat)
    requires SaidOk(t, peerNonce) && !t.hungUp
    requires t.phase == Handshake && cmd.SigRecv? && cmd.m.HandshakeReq? ==> cmd.m.nonce == peerNonce && !t.sentOurRes
    requires SaysOne(t, u) && PhaseMoves(t, u) && FlagsOf(t, u, cmd, ok)
    ensures SaidOk(u, peerNonce)
  {
    if u.sigOut != t.sigOut {
      SolidSnoc(t.sigOut, u.sigOut[|t.sigOut|]);
    }
  }

  lemma SaidAfterRelay<F>(p: Party<F>, q: Party<F>, ok: bool)
    requires CanMove(p, q, Relay(ok)) && SaidOk(p.task, q.task.nonce) && HeardOk(p, q) && SaidOk(q.task, p.task.nonce)
    ensures SaidOk(Handle(p.task, SigRecv(q.task.sigOut[p.sigTaken]), ok), q.task.nonce)
  {
    NextHeard(p, q);
    SaidAfterHandle(p.task, SigRecv(q.task.sigOut[p.sigTaken]), ok, q.task.nonce);
  }

  lemma SaidWithoutCommand<F>(p: Party<F>, q: Party<F>, m: Move<F>, peerNonce: nat)
    requires CanMove(p, q, m) && SaidOk(p.task, peerNonce) && !m.Relay? && !m.Rtc? && !m.Local?
    ensures SaidOk(MoveOf(p, q, m).task, peerNonce)
  {
    if m.Start? {
      SolidSnoc(p.task.sigOut, HandshakeReq(p.task.nonce));
    } else if m.Tick? {
      SolidSnoc(p.task.sigOut, Keepalive);
    }
  }

  lemma SaidKeeps<F>(p: Party<F>, q: Party<F>, m: Move<F>)
    requires CanMove(p, q, m) && SaidOk(p.task, q.task.nonce) && HeardOk(p, q) && SaidOk(q.task, p.task.nonce)
    ensures SaidOk(MoveOf(p, q, m).task, q.task.nonce)
  {
    if m.Relay? {
      SaidAfterRelay(p, q, m.ok);
    } else if m.Rtc? {
      SaidAfterHandle(p.task, WebrtcRecv(Message(q.task.wireOut[p.wireTaken])), m.ok, q.task.nonce);
    } else if m.Local? {
      SaidAfterHandle(p.task, m.cmd, m.ok, q.task.nonce);
    } else {
      SaidWithoutCommand(p, q, m, q.task.nonce);
    }
  }

  lemma HeardKeeps<F>(p: Party<F>, q: Party<F>, m: Move<F>)
    requires CanMove(p, q, m) && SaidOk(p.task, q.task.nonce) && HeardOk(p, q) && SaidOk(q.task, p.task.nonce)
    ensures HeardOk(MoveOf(p, q, m), q)
  {
    match m
    case Relay(ok) =>
      var cmd := SigRecv(q.task.sigOut[p.sigTaken]);
      NextHeard(p, q);
      SolidOfPrefix(q.task.sigOut, p.sigTaken);
      HandleMovesPhase(p.task, cmd, ok);
      FlagsChange(p.task, cmd, ok);
    case Rtc(ok) =>
      var cmd := WebrtcRecv(Message(q.task.wireOut[p.wireTaken]));
      HandleMovesPhase(p.task, cmd, ok);
      FlagsChange(p.task, cmd, ok);
    case Local(cmd, ok) =>
      HandleMovesPhase(p.task, cmd, ok);
      FlagsChange(p.task, cmd, ok);
    case _ =>
  }

  /** What the peer reads is unaffected by what we add to it. */
  lemma PeerKeeps<F>(p: Party<F>, q: Party<F>, m: Move<F>)
    requires CanMove(p, q, m) && HeardOk(q, p) && ReceivedOk(q, p)
    ensures HeardOk(q, MoveOf(p, q, m)) && ReceivedOk(q, MoveOf(p, q, m))
  {
    MoveSaysOne(p, q, m);
    var t, u := p.task, MoveOf(p, q, m).task;
    assert u.sigOut[..q.sigTaken] == t.sigOut[..q.sigTaken];
    assert u.wireOut[..q.task.fromWire] == t.wireOut[..q.task.fromWire];
  }

  lemma RelayedSnoc<F>(s: seq<Sig<F>>, n: nat)
    requires n < |s|
    ensures RelayedOf(s[..n + 1]) == RelayedOf(s[..n]) + if s[n].Relayed? then [s[n].f] else []
  {
    assert s[..n + 1][..n] == s[..n];
  }

  /** What a relay message adds to the frames received in each loop. */
  ghost predicate RelayAdds<F>(t: Task<F>, u: Task<F>, m: Sig<F>, ok: bool) {
    && u.fromWire == t.fromWire
    && if m.Relayed? then
         if ok then u.phase == Fallback && u.received == t.received + [m.f]
         else u.phase == Closed && u.received == t.received
       else u.received == t.received && (t.phase == Fallback ==> u.phase == Fallback)
  }

  lemma SignalAdds<F>(t: Task<F>, m: Sig<F>, ok: bool)
    requires t.phase == Webrtc
    ensures RelayAdds(t, SignalInWebrtc(t, m, ok), m, ok)
  {
  }

  lemma RelayIsReceived<F>(t: Task<F>, m: Sig<F>, ok: bool)
    requires InLoop(t.phase) && (t.phase == Handshake ==> !m.Relayed?)
    ensures RelayAdds(t, Handle(t, SigRecv(m), ok), m, ok)
  {
    if t.phase == Webrtc {
      SignalAdds(t, m, ok);
    }
  }

  /** A relay message is received unless the application has gone, and then its loop ends. */
  lemma ReceivedAfterRelay<F>(p: Party<F>, q: Party<F>, ok: bool)
    requires CanMove(p, q, Relay(ok)) && ReceivedOk(p, q)
    requires p.task.phase == Handshake ==> !q.task.sigOut[p.sigTaken].Relayed?
    ensures ReceivedOk(MoveOf(p, q, Relay(ok)), q)
  {
    var m, r := q.task.sigOut[p.sigTaken], RelayedOf(q.task.sigOut[..p.sigTaken]);
    RelayedSnoc(q.task.sigOut, p.sigTaken);
    RelayIsReceived(p.task, m, ok);
    HandleMovesPhase(p.task, SigRecv(m), ok);
    var wired := q.task.wireOut[..p.task.fromWire];
    assert p.task.received == wired + r;
    if m.Relayed? {
      ConcatAssoc(wired, r, [m.f]);
      assert (r + [m.f])[..|r|] == r;
    } else {
      assert r + [] == r;
    }
  }

  lemma ReceivedAfterRtc<F>(p: Party<F>, q: Party<F>, ok: bool)
    requires CanMove(p, q, Rtc(ok)) && ReceivedOk(p, q)
    ensures ReceivedOk(MoveOf(p, q, Rtc(ok)), q)
  {
    var w, n := q.task.wireOut, p.task.fromWire;
    assert n < |w| ==> w[..n + 1] == w[..n] + [w[n]];
  }

  lemma ReceivedKeeps<F>(p: Party<F>, q: Party<F>, m: Move<F>)
    requires CanMove(p, q, m) && ReceivedOk(p, q) && HeardOk(p, q) && SaidOk(q.task, p.task.nonce)
    requires SaidOk(p.task, q.task.nonce)
    ensures ReceivedOk(MoveOf(p, q, m), q)
  {
    match m
    case Relay(ok) =>
      NextHeard(p, q);
      ReceivedAfterRelay(p, q, ok);
    case Rtc(ok) => ReceivedAfterRtc(p, q, ok);
    case Local(cmd, ok) => LocalReceivesNothing(p.task, cmd, ok);
    case _ =>
  }

  lemma LocalReceivesNothing<F>(t: Task<F>, cmd: ConnCmd<F>, ok: bool)
    requires IsLocal(t.phase, cmd) && InLoop(t.phase)
    ensures var u := Handle(t, cmd, ok);
            && u.received == t.received && u.fromWire == t.fromWire
            && (u.phase == t.phase || u.phase == Closed || (t.phase == Webrtc && u.phase == Fallback))
  {
  }

  lemma QuietKeeps<F>(p: Party<F>, q: Party<F>, m: Move<F>)
    requires CanMove(p, q, m) && QuietRelay(p.task)
    ensures QuietRelay(MoveOf(p, q, m).task)
  {
    MoveSaysOne(p, q, m);
    var t, u := p.task, MoveOf(p, q, m).task;
    if u.sigOut != t.sigOut {
      RelayedSnoc(u.sigOut, |t.sigOut|);
      assert u.sigOut[..|t.sigOut|] == t.sigOut && u.sigOut[..|t.sigOut| + 1] == u.sigOut;
    }
    NoWayBack(p, q, m);
  }

  lemma HandleNeverGoesBack<F>(t: Task<F>, cmd: ConnCmd<F>, ok: bool)
    ensures Rank(t.phase) <= Rank(Handle(t, cmd, ok).phase)
    ensures t.phase == Fallback || t.phase == Closed ==> Handle(t, cmd, ok).wireOut == t.wireOut
  {
    HandleMovesPhase(t, cmd, ok);
  }

  /** Phases only go forward. */
  lemma NoWayBack<F>(p: Party<F>, q: Party<F>, m: Move<F>)
    requires CanMove(p, q, m)
    ensures Rank(p.task.phase) <= Rank(MoveOf(p, q, m).task.phase)
    ensures p.task.phase == Fallback || p.task.phase == Closed ==> MoveOf(p, q, m).task.wireOut == p.task.wireOut
  {
    match m
    case Relay(ok) => HandleNeverGoesBack(p.task, SigRecv(q.task.sigOut[p.sigTaken]), ok);
    case Rtc(ok) => HandleNeverGoesBack(p.task, WebrtcRecv(Message(q.task.wireOut[p.wireTaken])), ok);
    case Local(cmd, ok) => HandleNeverGoesBack(p.task, cmd, ok);
    case _ =>
  }

  function Rank(phase: Phase): nat {
    match phase
    case NotStarted => 0
    case Handshake => 1
    case Webrtc => 2
    case Fallback => 3
    case Closed => 4
  }

  /** A command in the handshake adds no frame to anything. */
  lemma HandshakeIsSilent<F>(t: Task<F>, cmd: ConnCmd<F>, ok: bool)
    requires t.phase == Handshake && Silent(t)
    ensures Silent(InHandshake(t, cmd, ok)) && InHandshake(t, cmd, ok).hungUp == t.hungUp
  {
    var u := InHandshake(t, cmd, ok);
    HandshakeMovesNoFrame(t, cmd, ok);
    HandshakeMovesPhase(t, cmd, ok);
    HandshakeSaysOne(t, cmd, ok);
    SilentAfter(t, u);
  }

  lemma SilentAfter<F>(t: Task<F>, u: Task<F>)
    requires Silent(t) && t.phase == Handshake && SaysOne(t, u) && u.wireOut == t.wireOut && u.received == t.received
    ensures Silent(u)
  {
    if u.sigOut != t.sigOut {
      RelayedSnoc(u.sigOut, |t.sigOut|);
      assert u.sigOut[..|t.sigOut|] == t.sigOut && u.sigOut[..|t.sigOut| + 1] == u.sigOut;
    }
  }

  lemma HandshakeMovesNoFrame<F>(t: Task<F>, cmd: ConnCmd<F>, ok: bool)
    requires t.phase == Handshake
    ensures var u := InHandshake(t, cmd, ok); u.wireOut == t.wireOut && u.received == t.received
  {
  }

  lemma WebrtcReceivesMore<F>(t: Task<F>, cmd: ConnCmd<F>, ok: bool)
    requires t.phase == Webrtc
    ensures |t.received| <= |InWebrtc(t, cmd, ok).received|
  {
  }

  lemma HandleIsFresh<F>(t: Task<F>, cmd: ConnCmd<F>, ok: bool)
    requires FreshOk(t) && Listens(t)
    ensures FreshOk(Handle(t, cmd, ok))
  {
    HandleMovesPhase(t, cmd, ok);
    if t.phase == Handshake {
      HandshakeIsSilent(t, cmd, ok);
    }
  }

  lemma FreshKeeps<F>(p: Party<F>, q: Party<F>, m: Move<F>)
    requires CanMove(p, q, m) && FreshOk(p.task) && HeardOk(p, q)
    ensures FreshOk(MoveOf(p, q, m).task)
  {
    match m
    case Relay(ok) => HandleIsFresh(p.task, SigRecv(q.task.sigOut[p.sigTaken]), ok);
    case Rtc(ok) => HandleIsFresh(p.task, WebrtcRecv(Message(q.task.wireOut[p.wireTaken])), ok);
    case Local(cmd, ok) => HandleIsFresh(p.task, cmd, ok);
    case Start => assert (p.task.sigOut + [HandshakeReq(p.task.nonce)])[..|p.task.sigOut|] == p.task.sigOut;
    case Tick => assert (p.task.sigOut + [Keepalive])[..|p.task.sigOut|] == p.task.sigOut;
    case _ =>
  }

  lemma MoveKeepsJoined<F>(p: Party<F>, q: Party<F>, m: Move<F>)
    requires CanMove(p, q, m) && Joined(p, q) && Joined(q, p)
    ensures Joined(MoveOf(p, q, m), q) && Joined(q, MoveOf(p, q, m))
  {
    MoveSaysOne(p, q, m);
    SaidKeeps(p, q, m);
    HeardKeeps(p, q, m);
    PeerKeeps(p, q, m);
    ReceivedKeeps(p, q, m);
    QuietKeeps(p, q, m);
    FreshKeeps(p, q, m);
  }

  // ----- runs

  datatype Session<F> = Session(a: Party<F>, b: Party<F>)

  function NewParty<F>(nonce: nat): Party<F> {
    Party(NewTask(nonce), 0, 0)
  }

  ghost predicate Next<F(!new)>(s: Session<F>, s': Session<F>) {
    || (exists m :: CanMove(s.a, s.b, m) && s' == s.(a := MoveOf(s.a, s.b, m)))
    || (exists m :: CanMove(s.b, s.a, m) && s' == s.(b := MoveOf(s.b, s.a, m)))
  }

  ghost predicate Behavior<F(!new)>(t: seq<Session<F>>) {
    && t != []
    && t[0] == Session(NewParty(t[0].a.task.nonce), NewParty(t[0].b.task.nonce))
    && forall i :: 0 <= i < |t| - 1 ==> Next(t[i], t[i + 1])
  }

  lemma {:induction false} SessionKeepsJoined<F(!new)>(t: seq<Session<F>>, n: nat)
    requires Behavior(t) && n < |t|
    ensures Joined(t[n].a, t[n].b) && Joined(t[n].b, t[n].a)
  {
    if n > 0 {
      SessionKeepsJoined(t, n - 1);
      var s, s' := t[n - 1], t[n];
      assert Next(s, s');
      if m :| CanMove(s.a, s.b, m) && s' == s.(a := MoveOf(s.a, s.b, m)) {
        MoveKeepsJoined(s.a, s.b, m);
      } else {
        var m :| CanMove(s.b, s.a, m) && s' == s.(b := MoveOf(s.b, s.a, m));
        MoveKeepsJoined(s.b, s.a, m);
      }
    }
  }

  predicate PastHandshake<F>(t: Task<F>) {
    t.phase == Webrtc || t.phase == Fallback
  }

  /** What one peer may conclude about the other. */
  ghost predicate Agreed<F>(p: Party<F>, q: Party<F>) {
    // past the handshake, each has answered the other's nonce
    && (PastHandshake(p.task) && !p.task.hungUp ==>
          && HandshakeRes(q.task.nonce) in p.task.sigOut
          && HandshakeRes(p.task.nonce) in q.task.sigOut)
    // or its command channel closed during the handshake, and it never sends or receives
    && (PastHandshake(p.task) ==> (Left(p.task) <==> !p.task.hungUp))
    && (p.task.hungUp ==> Silent(p.task))
    // no message is read in the wrong loop: no wrong nonce, nothing swallowed, nothing unexpected
    && (Listens(p.task) && p.sigTaken < |q.task.sigOut| ==>
          var m := q.task.sigOut[p.sigTaken];
          m.Keepalive? ||
          if p.task.phase == Handshake
          then m == if p.task.sentOurRes then HandshakeRes(p.task.nonce) else HandshakeReq(q.task.nonce)
          else !IsHandshake(m))
  }

  lemma SolidIsSaid<F>(s: seq<Sig<F>>, i: nat)
    requires i < |Solid(s)|
    ensures Solid(s)[i] in s
  {
    if s != [] {
      var init := s[..|s| - 1];
      if i < |Solid(init)| {
        SolidIsSaid(init, i);
      }
    }
  }

  lemma JoinedAgree<F>(p: Party<F>, q: Party<F>)
    requires Joined(p, q) && Joined(q, p)
    ensures Agreed(p, q)
  {
    if PastHandshake(p.task) && !p.task.hungUp {
      SolidOfPrefix(q.task.sigOut, p.sigTaken);
      SolidIsSaid(p.task.sigOut, 1);
      SolidIsSaid(q.task.sigOut, 1);
    }
    if Listens(p.task) && p.sigTaken < |q.task.sigOut| {
      NextHeard(p, q);
    }
  }

  /**
   A peer leaves the handshake only after both nonces were answered, and no message goes astray;
   the one exception is a command channel that closes during the handshake, and such a peer neither
   sends nor receives anything.
   */
  lemma HandshakeAgreement<F(!new)>(t: seq<Session<F>>, n: nat)
    requires Behavior(t) && n < |t|
    ensures Agreed(t[n].a, t[n].b) && Agreed(t[n].b, t[n].a)
  {
    SessionKeepsJoined(t, n);
    JoinedAgree(t[n].a, t[n].b);
    JoinedAgree(t[n].b, t[n].a);
  }

  /** A run in which the command channel closes during the handshake, and WebRTC is attempted unagreed. */
  lemma HungUpGoesOn<F(!new)>(x: nat, y: nat) returns (t: seq<Session<F>>)
    ensures Behavior(t) && |t| == 3 && t[2].a.task.phase == Webrtc
    ensures t[2].a.task.hungUp && !t[2].a.task.gotPeerRes && !t[2].a.task.sentOurRes
  {
    var s: Session<F> := Session(NewParty(x), NewParty(y));
    var s1 := s.(a := MoveOf(s.a, s.b, Start));
    var s2 := s1.(a := MoveOf(s1.a, s1.b, Hangs));
    t := [s, s1, s2];
    assert CanMove(s.a, s.b, Start) && Next(s, s1);
    assert CanMove(s1.a, s1.b, Hangs) && Next(s1, s2);
  }

  /** The frames received are a prefix of those sent over WebRTC, then a prefix of those relayed. */
  ghost predicate Switched<F>(received: seq<F>, wire: seq<F>, relayed: seq<F>) {
    exists i, j :: 0 <= i <= |wire| && 0 <= j <= |relayed| && received == wire[..i] + relayed[..j]
  }

  lemma {:induction false} RelayedOfPrefix<F>(s: seq<Sig<F>>, n: nat)
    requires n <= |s|
    ensures RelayedOf(s[..n]) <= RelayedOf(s)
    decreases |s| - n
  {
    if n == |s| {
      assert s[..n] == s;
    } else {
      RelayedSnoc(s, n);
      RelayedOfPrefix(s, n + 1);
    }
  }

  lemma ReceivedIsSwitched<F>(p: Party<F>, q: Party<F>)
    requires ReceivedOk(p, q)
    ensures Switched(p.task.received, q.task.wireOut, RelayedOf(q.task.sigOut))
  {
    var w, all, r := q.task.wireOut, RelayedOf(q.task.sigOut), RelayedOf(q.task.sigOut[..p.sigTaken]);
    RelayedOfPrefix(q.task.sigOut, p.sigTaken);
    var i := p.task.fromWire;
    if p.task.phase == Closed && p.task.received != w[..i] + r {
      assert r[..|r| - 1] == all[..|r| - 1];
    } else {
      assert w[..i] + [] == w[..i] && r == all[..|r|];
    }
  }

  /** The frames a task has sent: those handed to WebRTC, then those relayed. */
  function Carried<F>(t: Task<F>): seq<F> {
    t.wireOut + RelayedOf(t.sigOut)
  }

  /** The frame a command makes a connection send, if the call it makes succeeds. */
  function Accepted<F>(t: Task<F>, cmd: ConnCmd<F>, ok: bool): seq<F> {
    if cmd.SendMessage? && ok && (t.phase == Webrtc || t.phase == Fallback) then [cmd.f] else []
  }

  lemma CarriedSnoc<F>(t: Task<F>, m: Sig<F>)
    ensures t.wireOut + RelayedOf(t.sigOut + [m]) == Carried(t) + if m.Relayed? then [m.f] else []
  {
    var s := t.sigOut + [m];
    assert s[..|s| - 1] == t.sigOut;
    ConcatAssoc(t.wireOut, RelayedOf(t.sigOut), if m.Relayed? then [m.f] else []);
  }

  lemma SendCarries<F>(t: Task<F>, f: F, ok: bool)
    requires QuietRelay(t)
    ensures Carried(Handle(t, SendMessage(f), ok)) == Carried(t) + Accepted(t, SendMessage(f), ok)
  {
    var u := Handle(t, SendMessage(f), ok);
    assert Carried(t) + [] == Carried(t);
    if t.phase == Webrtc {
      assert u.sigOut == t.sigOut && Carried(t) == t.wireOut;
    } else if t.phase == Fallback && ok {
      CarriedSnoc(t, Relayed(f));
      assert u.sigOut == t.sigOut + [Relayed(f)] && u.wireOut == t.wireOut;
    } else {
      assert u.sigOut == t.sigOut && u.wireOut == t.wireOut;
    }
  }

  /** Nothing on WebRTC, and on the relay at most one message without a frame. */
  ghost predicate SaysNoFrame<F>(t: Task<F>, u: Task<F>) {
    && u.wireOut == t.wireOut
    && (u.sigOut == t.sigOut ||
        (|u.sigOut| == |t.sigOut| + 1 && u.sigOut == t.sigOut + [u.sigOut[|t.sigOut|]]
         && !u.sigOut[|t.sigOut|].Relayed?))
  }

  lemma WebrtcSaysNoFrame<F>(t: Task<F>, cmd: ConnCmd<F>, ok: bool)
    requires t.phase == Webrtc && !cmd.SendMessage?
    ensures SaysNoFrame(t, InWebrtc(t, cmd, ok))
  {
    if cmd.SigRecv? {
      SignalSaysNothing(t, cmd.m, ok);
    } else if cmd.WebrtcRecv? {
      EventSaysOne(t, cmd.e, ok);
    }
  }

  lemma OthersSayNoFrame<F>(t: Task<F>, cmd: ConnCmd<F>, ok: bool)
    requires !cmd.SendMessage?
    ensures SaysNoFrame(t, Handle(t, cmd, ok))
  {
    if t.phase == Webrtc {
      WebrtcSaysNoFrame(t, cmd, ok);
    } else {
      HandleSaysOne(t, cmd, ok);
    }
  }

  /** No other command sends a frame. */
  lemma OthersCarryNothing<F>(t: Task<F>, cmd: ConnCmd<F>, ok: bool)
    requires !cmd.SendMessage?
    ensures Carried(Handle(t, cmd, ok)) == Carried(t)
  {
    OthersSayNoFrame(t, cmd, ok);
    NoFrameCarriesNothing(t, Handle(t, cmd, ok));
  }

  lemma NoFrameCarriesNothing<F>(t: Task<F>, u: Task<F>)
    requires SaysNoFrame(t, u)
    ensures Carried(u) == Carried(t)
  {
    if u.sigOut != t.sigOut {
      CarriedSnoc(t, u.sigOut[|t.sigOut|]);
    }
    assert Carried(t) + [] == Carried(t);
  }

  lemma HandleCarries<F>(t: Task<F>, cmd: ConnCmd<F>, ok: bool)
    requires QuietRelay(t)
    ensures Carried(Handle(t, cmd, ok)) == Carried(t) + Accepted(t, cmd, ok)
  {
    if cmd.SendMessage? {
      SendCarries(t, cmd.f, ok);
    } else {
      OthersCarryNothing(t, cmd, ok);
      assert Carried(t) + [] == Carried(t);
    }
  }

  /**
   Across the switch, a task's two lanes one after the other are exactly the frames it accepted, in
   the order it accepted them: a move appends the frame it sends and nothing else.
   */
  lemma LanesHoldWhatWasSent<F>(p: Party<F>, q: Party<F>, m: Move<F>)
    requires CanMove(p, q, m) && QuietRelay(p.task)
    ensures
      Carried(MoveOf(p, q, m).task) == Carried(p.task) + if m.Local? then Accepted(p.task, m.cmd, m.ok) else []
  {
    assert Carried(p.task) + [] == Carried(p.task);
    match m
    case Start => CarriedSnoc(p.task, HandshakeReq(p.task.nonce));
    case Tick => CarriedSnoc(p.task, Keepalive);
    case Relay(ok) => HandleCarries(p.task, SigRecv(q.task.sigOut[p.sigTaken]), ok);
    case Rtc(ok) => HandleCarries(p.task, WebrtcRecv(Message(q.task.wireOut[p.wireTaken])), ok);
    case Local(cmd, ok) => HandleCarries(p.task, cmd, ok);
    case _ =>
  }

  /**
   Whatever makes either side fall back, frames are neither reordered nor repeated; and a side
   that has fallen back has received every relayed frame it has read.
   */
  lemma SwitchKeepsOrder<F(!new)>(t: seq<Session<F>>, n: nat)
    requires Behavior(t) && n < |t|
    ensures ReceivedOk(t[n].a, t[n].b) && ReceivedOk(t[n].b, t[n].a)
    ensures QuietRelay(t[n].a.task) && QuietRelay(t[n].b.task)
    ensures Switched(t[n].b.task.received, t[n].a.task.wireOut, RelayedOf(t[n].a.task.sigOut))
    ensures Switched(t[n].a.task.received, t[n].b.task.wireOut, RelayedOf(t[n].b.task.sigOut))
  {
    SessionKeepsJoined(t, n);
    ReceivedIsSwitched(t[n].a, t[n].b);
    ReceivedIsSwitched(t[n].b, t[n].a);
  }

  /** No step goes back a phase, and after a fallback no frame is handed to WebRTC again. */
  lemma StepNeverGoesBack<F(!new)>(s: Session<F>, s': Session<F>)
    requires Next(s, s')
    ensures Rank(s.a.task.phase) <= Rank(s'.a.task.phase) && Rank(s.b.task.phase) <= Rank(s'.b.task.phase)
    ensures Rank(s.a.task.phase) >= Rank(Fallback) ==> s'.a.task.wireOut == s.a.task.wireOut
    ensures Rank(s.b.task.phase) >= Rank(Fallback) ==> s'.b.task.wireOut == s.b.task.wireOut
  {
    if m :| CanMove(s.a, s.b, m) && s' == s.(a := MoveOf(s.a, s.b, m)) {
      NoWayBack(s.a, s.b, m);
    } else {
      var m :| CanMove(s.b, s.a, m) && s' == s.(b := MoveOf(s.b, s.a, m));
      NoWayBack(s.b, s.a, m);
    }
  }
}
