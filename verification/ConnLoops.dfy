/**
 The three loops of the connection task over whole lists of commands: what each of them sends,
 passes on and asks of the WebRTC module, and exactly which command ends it.
 */
module ConnLoops {
  import opened Core
  import opened Conn

  /** A command, and the outcome of the call it makes, if any. */
  datatype Turn<F> = Turn(cmd: ConnCmd<F>, ok: bool)

  function After<F>(t: Task<F>, turns: seq<Turn<F>>): Task<F> {
    if turns == [] then t
    else
      var n := |turns| - 1;
      Handle(After(t, turns[..n]), turns[n].cmd, turns[n].ok)
  }

  /** All turns are turns of the loop for this phase; the last one may end it. */
  ghost predicate During<F>(t: Task<F>, turns: seq<Turn<F>>, phase: Phase) {
    forall k :: 0 <= k < |turns| ==> After(t, turns[..k]).phase == phase
  }

  lemma DuringPrefix<F>(t: Task<F>, turns: seq<Turn<F>>, phase: Phase)
    requires turns != [] && During(t, turns, phase)
    ensures During(t, turns[..|turns| - 1], phase) && After(t, turns[..|turns| - 1]).phase == phase
  {
    var before := turns[..|turns| - 1];
    forall k | 0 <= k < |before|
      ensures After(t, before[..k]).phase == phase
    {
      assert before[..k] == turns[..k];
    }
  }

  // ----- the handshake loop

  /** The answer to a nonce of the peer. */
  function AnswerOf<F>(turn: Turn<F>): seq<Sig<F>> {
    match turn.cmd
    case SigRecv(HandshakeReq(nonce)) => if turn.ok then [HandshakeRes(nonce)] else []
    case _ => []
  }

  function Answers<F>(turns: seq<Turn<F>>): seq<Sig<F>> {
    if turns == [] then [] else Answers(turns[..|turns| - 1]) + AnswerOf(turns[|turns| - 1])
  }

  /** The peer answered this nonce. */
  predicate Confirmed<F>(turns: seq<Turn<F>>, nonce: nat) {
    turns != [] &&
    (Confirmed(turns[..|turns| - 1], nonce) || Confirms(turns[|turns| - 1].cmd, nonce))
  }

  predicate Confirms<F>(cmd: ConnCmd<F>, nonce: nat) {
    cmd.SigRecv? && cmd.m.HandshakeRes? && cmd.m.nonce == nonce
  }

  /** The command fails the handshake: no signal, the wrong nonce, or an answer that cannot be sent. */
  predicate FailsHandshake<F>(turn: Turn<F>, nonce: nat) {
    || !turn.cmd.SigRecv?
    || (turn.cmd.m.HandshakeRes? && turn.cmd.m.nonce != nonce)
    || (turn.cmd.m.HandshakeReq? && !turn.ok)
  }

  lemma HandshakeTurn<F>(t: Task<F>, turn: Turn<F>)
    requires t.phase == Handshake
    ensures
      var u := Handle(t, turn.cmd, turn.ok);
      && u.phase == (if FailsHandshake(turn, t.nonce) then Closed
                     else if u.sentOurRes && u.gotPeerRes then Webrtc else Handshake)
      && u.nonce == t.nonce && u.sigOut == t.sigOut + AnswerOf(turn)
      && (u.sentOurRes <==> t.sentOurRes || AnswerOf(turn) != [])
      && (u.gotPeerRes <==> t.gotPeerRes || Confirms(turn.cmd, t.nonce))
      && u.received == t.received && u.wireOut == t.wireOut && u.rtcIn == t.rtcIn
  {
  }

  /** The handshake is over once the peer's nonce was answered and our own was; nothing else is sent. */
  lemma {:induction false} HandshakeLoop<F>(t: Task<F>, turns: seq<Turn<F>>)
    requires During(t, turns, Handshake) && t.phase == Handshake && !t.gotPeerRes && !t.sentOurRes
    ensures
      var u := After(t, turns);
      && u.phase == (if turns != [] && FailsHandshake(turns[|turns| - 1], t.nonce) then Closed
                     else if Answers(turns) != [] && Confirmed(turns, t.nonce) then Webrtc else Handshake)
      && u.nonce == t.nonce && u.sigOut == t.sigOut + Answers(turns)
      && (u.sentOurRes <==> Answers(turns) != []) && (u.gotPeerRes <==> Confirmed(turns, t.nonce))
      && u.received == t.received && u.wireOut == t.wireOut && u.rtcIn == t.rtcIn
  {
    if turns != [] {
      var n := |turns| - 1;
      DuringPrefix(t, turns, Handshake);
      HandshakeLoop(t, turns[..n]);
      HandshakeTurn(After(t, turns[..n]), turns[n]);
    }
  }

  // ----- the WebRTC loop

  /** The description or candidate that the backend generated, if the relay took it. */
  function SignalOf<F>(turn: Turn<F>): seq<Sig<F>> {
    match turn.cmd
    case WebrtcRecv(GeneratedOffer(offer)) => if turn.ok then [Offer(offer)] else []
    case WebrtcRecv(GeneratedAnswer(answer)) => if turn.ok then [Answer(answer)] else []
    case WebrtcRecv(GeneratedIce(ice)) => if turn.ok then [Ice(ice)] else []
    case _ => []
  }

  /** The one that the peer sent, if the WebRTC module took it. */
  function CallOf<F>(turn: Turn<F>): seq<RtcCall> {
    match turn.cmd
    case SigRecv(Offer(offer)) => if turn.ok then [InOffer(offer)] else []
    case SigRecv(Answer(answer)) => if turn.ok then [InAnswer(answer)] else []
    case SigRecv(Ice(ice)) => if turn.ok then [InIce(ice)] else []
    case _ => []
  }

  /** The frame that came either way, if the application took it. */
  function FrameOf<F>(turn: Turn<F>): seq<F> {
    match turn.cmd
    case WebrtcRecv(Message(f)) => if turn.ok then [f] else []
    case SigRecv(Relayed(f)) => if turn.ok then [f] else []
    case _ => []
  }

  /** The frame to send, if it was taken. */
  function SentOf<F>(turn: Turn<F>): seq<F> {
    if turn.cmd.SendMessage? && turn.ok then [turn.cmd.f] else []
  }

  predicate IsReady<F>(cmd: ConnCmd<F>) {
    cmd.WebrtcRecv? && cmd.e.Ready?
  }

  function Signals<F>(turns: seq<Turn<F>>): seq<Sig<F>> {
    if turns == [] then [] else Signals(turns[..|turns| - 1]) + SignalOf(turns[|turns| - 1])
  }

  function Calls<F>(turns: seq<Turn<F>>): seq<RtcCall> {
    if turns == [] then [] else Calls(turns[..|turns| - 1]) + CallOf(turns[|turns| - 1])
  }

  function Frames<F>(turns: seq<Turn<F>>): seq<F> {
    if turns == [] then [] else Frames(turns[..|turns| - 1]) + FrameOf(turns[|turns| - 1])
  }

  function Sent<F>(turns: seq<Turn<F>>): seq<F> {
    if turns == [] then [] else Sent(turns[..|turns| - 1]) + SentOf(turns[|turns| - 1])
  }

  predicate SawReady<F>(turns: seq<Turn<F>>) {
    turns != [] && (SawReady(turns[..|turns| - 1]) || IsReady(turns[|turns| - 1].cmd))
  }

  /**
   The command closes the connection: a handshake message, a frame that the application does not
   take, a signal that the relay does not, or the end of the WebRTC module.
   */
  predicate Breaks<F>(turn: Turn<F>) {
    match turn.cmd
    case SigRecv(HandshakeReq(_)) => true
    case SigRecv(HandshakeRes(_)) => true
    case SigRecv(Relayed(_)) => !turn.ok
    case WebrtcRecv(Message(_)) => !turn.ok
    case WebrtcRecv(GeneratedOffer(_)) => !turn.ok
    case WebrtcRecv(GeneratedAnswer(_)) => !turn.ok
    case WebrtcRecv(GeneratedIce(_)) => !turn.ok
    case WebrtcClosed => true
    case _ => false
  }

  /**
   The command makes the connection fall back: a relayed frame, a description that the WebRTC
   module does not take, a frame that it cannot send, or the timeout before it was ever ready.
   */
  predicate GivesUp<F>(turn: Turn<F>, ready: bool) {
    match turn.cmd
    case SigRecv(Relayed(_)) => turn.ok
    case SigRecv(Offer(_)) => !turn.ok
    case SigRecv(Answer(_)) => !turn.ok
    case SendMessage(_) => !turn.ok
    case WebrtcTimeoutCheck => !ready
    case _ => false
  }

  /** What one turn of the WebRTC loop does. */
  ghost predicate Turned<F>(t: Task<F>, u: Task<F>, turn: Turn<F>) {
    && u.phase == (if Breaks(turn) then Closed else if GivesUp(turn, t.isReady) then Fallback else Webrtc)
    && (u.isReady <==> t.isReady || IsReady(turn.cmd))
    && u.sigOut == t.sigOut + SignalOf(turn) && u.rtcIn == t.rtcIn + CallOf(turn)
    && u.received == t.received + FrameOf(turn) && u.wireOut == t.wireOut + SentOf(turn)
  }

  lemma SignalTurns<F>(t: Task<F>, m: Sig<F>, ok: bool)
    requires t.phase == Webrtc
    ensures Turned(t, SignalInWebrtc(t, m, ok), Turn(SigRecv(m), ok))
  {
  }

  lemma EventTurns<F>(t: Task<F>, e: WebrtcEvt<F>, ok: bool)
    requires t.phase == Webrtc
    ensures Turned(t, EventInWebrtc(t, e, ok), Turn(WebrtcRecv(e), ok))
  {
  }

  lemma WebrtcTurn<F>(t: Task<F>, cmd: ConnCmd<F>, ok: bool)
    requires t.phase == Webrtc
    ensures Turned(t, InWebrtc(t, cmd, ok), Turn(cmd, ok))
  {
    if cmd.SigRecv? {
      SignalTurns(t, cmd.m, ok);
    } else if cmd.WebrtcRecv? {
      EventTurns(t, cmd.e, ok);
    }
  }

  /** What turns of the WebRTC loop have done, the last of which may have ended it. */
  ghost predicate Looped<F>(t: Task<F>, u: Task<F>, turns: seq<Turn<F>>) {
    && u.phase == (if turns == [] then Webrtc
                   else if Breaks(turns[|turns| - 1]) then Closed
                   else if GivesUp(turns[|turns| - 1], SawReady(turns)) then Fallback else Webrtc)
    && (u.isReady <==> SawReady(turns))
    && u.sigOut == t.sigOut + Signals(turns) && u.rtcIn == t.rtcIn + Calls(turns)
    && u.received == t.received + Frames(turns) && u.wireOut == t.wireOut + Sent(turns)
  }

  lemma OneMoreTurn<F>(t: Task<F>, v: Task<F>, u: Task<F>, turns: seq<Turn<F>>)
    requires turns != [] && Looped(t, v, turns[..|turns| - 1]) && Turned(v, u, turns[|turns| - 1])
    ensures Looped(t, u, turns)
  {
    var last := turns[|turns| - 1];
    assert IsReady(last.cmd) ==> !GivesUp(last, false);
  }

  /** Exactly what any turns of the WebRTC loop do. */
  lemma {:induction false} WebrtcLoop<F>(t: Task<F>, turns: seq<Turn<F>>)
    requires During(t, turns, Webrtc) && t.phase == Webrtc && !t.isReady
    ensures Looped(t, After(t, turns), turns)
  {
    if turns != [] {
      var n := |turns| - 1;
      var v, turn := After(t, turns[..n]), turns[n];
      DuringPrefix(t, turns, Webrtc);
      WebrtcLoop(t, turns[..n]);
      WebrtcTurn(v, turn.cmd, turn.ok);
      OneMoreTurn(t, v, InWebrtc(v, turn.cmd, turn.ok), turns);
    }
  }

  // ----- the relay loop

  predicate IsRelayed<F>(cmd: ConnCmd<F>) {
    cmd.SigRecv? && cmd.m.Relayed?
  }

  function RelayOf<F>(turn: Turn<F>): seq<Sig<F>> {
    if turn.cmd.SendMessage? && turn.ok then [Relayed(turn.cmd.f)] else []
  }

  function Relays<F>(turns: seq<Turn<F>>): seq<Sig<F>> {
    if turns == [] then [] else Relays(turns[..|turns| - 1]) + RelayOf(turns[|turns| - 1])
  }

  function RelayedFrameOf<F>(turn: Turn<F>): seq<F> {
    if IsRelayed(turn.cmd) && turn.ok then [turn.cmd.m.f] else []
  }

  function RelayedFrames<F>(turns: seq<Turn<F>>): seq<F> {
    if turns == [] then [] else RelayedFrames(turns[..|turns| - 1]) + RelayedFrameOf(turns[|turns| - 1])
  }

  /** The command is about a frame that was not taken. */
  predicate NotTaken<F>(turn: Turn<F>) {
    (turn.cmd.SendMessage? || IsRelayed(turn.cmd)) && !turn.ok
  }

  lemma RelayTurn<F>(t: Task<F>, cmd: ConnCmd<F>, ok: bool)
    requires t.phase == Fallback
    ensures
      var u, turn := InFallback(t, cmd, ok), Turn(cmd, ok);
      && u.phase == (if NotTaken(turn) then Closed else Fallback)
      && u.sigOut == t.sigOut + RelayOf(turn) && u.received == t.received + RelayedFrameOf(turn)
      && u.wireOut == t.wireOut && u.rtcIn == t.rtcIn
  {
  }

  /** Only frames count: they are passed on or relayed, and one that is not taken closes the connection. */
  lemma {:induction false} RelayLoop<F>(t: Task<F>, turns: seq<Turn<F>>)
    requires During(t, turns, Fallback) && t.phase == Fallback
    ensures
      var u := After(t, turns);
      && u.phase == (if turns != [] && NotTaken(turns[|turns| - 1]) then Closed else Fallback)
      && u.sigOut == t.sigOut + Relays(turns) && u.received == t.received + RelayedFrames(turns)
      && u.wireOut == t.wireOut && u.rtcIn == t.rtcIn
  {
    if turns != [] {
      var n := |turns| - 1;
      var v, turn := After(t, turns[..n]), turns[n];
      DuringPrefix(t, turns, Fallback);
      RelayLoop(t, turns[..n]);
      RelayTurn(v, turn.cmd, turn.ok);
      ConcatAssoc(t.sigOut, Relays(turns[..n]), RelayOf(turn));
      ConcatAssoc(t.received, RelayedFrames(turns[..n]), RelayedFrameOf(turn));
    }
  }

  /** When no command will come any more, the handshake goes on to WebRTC and the other loops close. */
  lemma HangUpEnds<F>(t: Task<F>)
    requires InLoop(t.phase)
    ensures HangUp(t).phase == if t.phase == Handshake then Webrtc else Closed
    ensures HangUp(t).hungUp <==> t.hungUp || t.phase == Handshake
    ensures HangUp(t).(phase := t.phase, hungUp := t.hungUp) == t
  {
  }
}
