/**
 One direction of a framed connection: the sending task of one peer, the decoder of the other,
 the frames on their way, and the permit grants coming back. Everything that can happen to a
 direction is a step, including the loss of any frames and the end of either side.
 */
module Direction {
  import opened Core
  import opened Header
  import opened Encoder
  import opened Decoder

  /** Where `send_inner` stands: at which await it will next be resumed. */
  datatype Pc =
    | Unlocked         // no send holds the lock
    | PutSmallNext     // about to queue the only frame
    | AskRegNext       // about to queue the AwaitPermit command
    | WaitReg          // waiting for the command to be handled
    | PutReqNext       // about to queue the permit request
    | WaitGrant        // waiting for the grant
    | ChunksFrom(off: nat)  // about to queue the chunk at `off`

  /**
   A frame on its way. `msg`, `start` and `end` are history: the number of the message it was
   made from (of the answered request, for a grant; -1 for the version frame) and the bytes it
   carries. No transition reads them except to record where deliveries came from.
   */
  datatype Packet = Packet(frame: Frame, msg: int, start: nat, end: nat)

  const VERSION_PACKET := Packet(Frame(PROTO_VER_2, []), -1, 0, 0)

  function SmallPacket(m: Msg, k: nat): Packet
    requires IsSmall(m)
  {
    Packet(SmallFrame(m), k, 0, 0)
  }

  function RequestPacket(m: Msg, k: nat): Packet
    requires Encodable(m)
  {
    Packet(RequestFrame(m), k, 0, 0)
  }

  function ChunkPacket(m: Msg, k: nat, off: nat): Packet
    requires off < |m|
  {
    Packet(ChunkFrame(m, off), k, off, ChunkEnd(m, off))
  }

  function GrantPacket(n: u32, k: int): Packet {
    Packet(Frame(PermitGrant(n), []), k, 0, 0)
  }

  predicate IsGrant(p: Packet) { p.frame.hdr.PermitGrant? }

  predicate IsRequest(p: Packet) { p.frame.hdr.PermitRequest? }

  predicate IsChunkPacket(p: Packet) { p.frame.hdr.MultipartMessage? }

  datatype Dir = Dir(
    // the sending peer
    sent: seq<Msg>,           // messages whose send got the lock and did not give up before queueing, in that order
    pc: Pc,
    regs: seq<nat>,           // AwaitPermit commands not yet handled
    tx: Tx,
    txAlive: bool,            // its command task is running
    // on the way
    data: seq<Packet>,
    grants: seq<Packet>,
    // the receiving peer
    rx: Rx,
    rxAlive: bool,
    lastMsg: int,             // history: what the last accepted frame carried
    lastEnd: nat,
    waiting: seq<u32>,        // tasks waiting for the semaphore
    acquired: seq<u32>,       // RemotePermit commands not yet handled
    delivered: seq<Msg>,
    order: seq<nat>)          // history: which message each delivery was made from

  const INIT_DIR := Dir([], Unlocked, [], INIT_TX, true, [VERSION_PACKET], [],
                        INIT_RX, true, -2, 0, [], [], [], [])

  datatype Step =
    | Stutter
    | Start(m: Msg)
    | PutSmall
    | AskReg
    | Register
    | PutRequest
    | PutChunk
    | Cancel
    | RecvGrant
    | RecvData
    | Acquire
    | Permit
    | LoseData(i: nat, j: nat)
    | LoseGrants(i: nat, j: nat)
    | DieTx
    | DieRx

  /** The message being sent. */
  function Current(sent: seq<Msg>): Msg
    requires sent != []
  {
    sent[|sent| - 1]
  }

  /** Nothing of the current message has been queued, so giving up leaves no trace of it. */
  predicate Early(pc: Pc) {
    pc == PutSmallNext || pc == AskRegNext
  }

  /** Giving up here leaves a registration, a request or half a message behind. */
  predicate Late(pc: Pc) {
    pc != Unlocked && !Early(pc)
  }

  function AfterGivingUp(sent: seq<Msg>, pc: Pc): seq<Msg> {
    if Early(pc) && sent != [] then sent[..|sent| - 1] else sent
  }

  predicate Enabled(s: Dir, step: Step) {
    match step
    case Stutter => true
    case Start(m) => s.pc == Unlocked && Encodable(m)
    case PutSmall => s.pc == PutSmallNext && s.sent != [] && IsSmall(Current(s.sent))
    case AskReg => s.pc == AskRegNext && s.sent != []
    case Register => s.txAlive && s.regs != []
    case PutRequest => s.pc == PutReqNext && s.sent != [] && Encodable(Current(s.sent))
    case PutChunk => s.pc.ChunksFrom? && s.sent != [] && s.pc.off < |Current(s.sent)|
    case Cancel => true
    case RecvGrant => s.txAlive && s.grants != []
    case RecvData => s.rxAlive && s.data != [] && !IsGrant(s.data[0])
    case Acquire => s.waiting != []
    case Permit => s.rxAlive && s.acquired != []
    case LoseData(i, j) => i <= j <= |s.data|
    case LoseGrants(i, j) => i <= j <= |s.grants|
    case DieTx => true
    case DieRx => true
  }

  function Apply(s: Dir, step: Step): Dir
    requires Enabled(s, step)
  {
    var k := |s.sent| - 1;
    match step
    case Stutter => s
    case Start(m) => s.(sent := s.sent + [m], pc := if IsSmall(m) then PutSmallNext else AskRegNext)
    case PutSmall => s.(data := s.data + [SmallPacket(Current(s.sent), k)], pc := Unlocked)
    case AskReg => s.(regs := s.regs + [k], pc := WaitReg)
    case Register =>
      var t := s.(regs := s.regs[1..]);
      if s.tx.wantRemoteGrant then t.(txAlive := false)
      else t.(tx := Tx(true, Some(s.regs[0])),
              pc := if s.pc == WaitReg && s.regs[0] == k then PutReqNext else s.pc)
    case PutRequest => s.(data := s.data + [RequestPacket(Current(s.sent), k)], pc := WaitGrant)
    case PutChunk =>
      var m := Current(s.sent);
      var end := ChunkEnd(m, s.pc.off);
      s.(data := s.data + [ChunkPacket(m, k, s.pc.off)],
         pc := if end == |m| then Unlocked else ChunksFrom(end))
    case Cancel => s.(pc := Unlocked, sent := AfterGivingUp(s.sent, s.pc))
    case RecvGrant =>
      var t := s.(grants := s.grants[1..]);
      if !s.tx.wantRemoteGrant then t.(txAlive := false)
      else t.(tx := INIT_TX,
              pc := if s.pc == WaitGrant && s.tx.grantNotify == Some(k) then ChunksFrom(0) else s.pc)
    case RecvData => ApplyRecv(s.(data := s.data[1..]), s.data[0])
    case Acquire => s.(waiting := s.waiting[1..], acquired := s.acquired + [s.waiting[0]])
    case Permit =>
      var t := s.(acquired := s.acquired[1..]);
      if s.rx.state.RemoteAwaitingPermit?
      then t.(rx := RxGrant(s.rx, s.acquired[0]), grants := s.grants + [GrantPacket(s.acquired[0], s.lastMsg)])
      else t.(rxAlive := false)
    case LoseData(i, j) => s.(data := s.data[..i] + s.data[j..])
    case LoseGrants(i, j) => s.(grants := s.grants[..i] + s.grants[j..])
    case DieTx => s.(txAlive := false)
    case DieRx => s.(rxAlive := false)
  }

  /** The receiving peer takes a data frame. */
  function ApplyRecv(s: Dir, p: Packet): Dir
    requires !IsGrant(p)
  {
    var o := RxStep(s.rx, p.frame);
    match o.result
    case Err(_) => s.(rxAlive := false)
    case Ok(r) =>
      var t := s.(rx := o.rx, lastMsg := p.msg, lastEnd := p.end);
      match r
      case Message(m) => t.(delivered := s.delivered + [m],
                            order := s.order + [if p.msg >= 0 then p.msg else 0])
      case RemotePermitRequest(n) => t.(waiting := s.waiting + [n])
      case _ => t
  }

  // ----- what every step keeps, whatever is lost and whoever gives up

  /** A packet was made from the message it says, at the offset it says. */
  predicate Genuine(sent: seq<Msg>, p: Packet) {
    match p.frame.hdr
    case Version(_, _, _, _) => p == VERSION_PACKET
    case CompleteMessage(_) => 0 <= p.msg < |sent| && IsSmall(sent[p.msg]) && p == SmallPacket(sent[p.msg], p.msg)
    case PermitRequest(_) => IsLarge(sent, p.msg) && p == RequestPacket(sent[p.msg], p.msg)
    case MultipartMessage(_) =>
      IsLarge(sent, p.msg) && p.start < |sent[p.msg]| && p == ChunkPacket(sent[p.msg], p.msg, p.start)
    case PermitGrant(_) => false
  }

  predicate IsLarge(sent: seq<Msg>, k: int) {
    0 <= k < |sent| && !IsSmall(sent[k]) && Encodable(sent[k])
  }

  /** `q` carries later bytes than position `end` of message `msg`. */
  predicate After(msg: int, end: nat, q: Packet) {
    msg < q.msg || (msg == q.msg && IsChunkPacket(q) && end <= q.start)
  }

  predicate InOrder(data: seq<Packet>) {
    forall i, j :: 0 <= i < j < |data| ==> After(data[i].msg, data[i].end, data[j])
  }

  /** The sender has passed position `end` of message `msg`. */
  predicate SenderPassed(sent: seq<Msg>, pc: Pc, msg: int, end: nat) {
    msg < |sent| - 1 ||
    (msg == |sent| - 1 &&
     match pc
     case Unlocked => true
     case WaitGrant => end == 0
     case ChunksFrom(off) => end <= off
     case _ => false)
  }

  predicate SenderOk(sent: seq<Msg>, pc: Pc) {
    && (forall k :: 0 <= k < |sent| ==> Encodable(sent[k]))
    && (pc != Unlocked ==> sent != [])
    && (pc == PutSmallNext ==> IsSmall(Current(sent)))
    && (pc != Unlocked && pc != PutSmallNext ==> !IsSmall(Current(sent)))
    && (pc.ChunksFrom? ==> pc.off < |Current(sent)|)
  }

  predicate DataOk(sent: seq<Msg>, pc: Pc, data: seq<Packet>, lastMsg: int, lastEnd: nat) {
    && InOrder(data)
    && SenderPassed(sent, pc, lastMsg, lastEnd)
    && (forall p :: p in data ==>
          && Genuine(sent, p)
          && After(lastMsg, lastEnd, p)
          && SenderPassed(sent, pc, p.msg, p.end))
  }

  /** Each delivery is one whole message, and deliveries keep the order of sending. */
  predicate DeliveredInOrder(sent: seq<Msg>, delivered: seq<Msg>, order: seq<nat>) {
    && |order| == |delivered|
    && (forall i :: 0 <= i < |order| ==> order[i] < |sent| && delivered[i] == sent[order[i]])
    && (forall i, j :: 0 <= i < j < |order| ==> order[i] < order[j])
  }

  /** Deliveries come from before what the receiver has seen, or what it is collecting. */
  predicate DeliveredOk(sent: seq<Msg>, delivered: seq<Msg>, order: seq<nat>, st: DecodeState, lastMsg: int) {
    && DeliveredInOrder(sent, delivered, order)
    && (forall i :: 0 <= i < |order| ==> order[i] < if Collecting(st) then lastMsg else lastMsg + 1)
  }

  predicate Collecting(st: DecodeState) {
    st.RemoteAwaitingPermit? || st.ReceiveChunked?
  }

  /** The bytes collected are a prefix of one message unless some chunk was lost. */
  predicate CollectedOk(sent: seq<Msg>, rx: Rx, lastMsg: int, lastEnd: nat) {
    match rx.state
    case NeedVersion => rx.incoming == []
    case Ready => rx.incoming == []
    case RemoteAwaitingPermit(n) =>
      rx.incoming == [] && IsLarge(sent, lastMsg) && lastEnd == 0 && n == |sent[lastMsg]|
    case ReceiveChunked =>
      && IsLarge(sent, lastMsg) && rx.wantSize == |sent[lastMsg]|
      && |rx.incoming| <= lastEnd <= rx.wantSize && |rx.incoming| < rx.wantSize
      && (|rx.incoming| == lastEnd ==> rx.incoming == sent[lastMsg][..lastEnd])
  }

  /** Chunks and grants exist only while the receiver is collecting the message they belong to. */
  predicate ChunksWanted(k: int, pc: Pc, data: seq<Packet>, grants: seq<Packet>, st: DecodeState, lastMsg: int) {
    && (forall p :: p in data && IsChunkPacket(p) ==> st == ReceiveChunked && lastMsg == p.msg)
    && (grants != [] ==> st == ReceiveChunked && lastMsg == grants[0].msg)
    && (pc.ChunksFrom? ==> st == ReceiveChunked && lastMsg == k)
  }

  // ----- the permit token: a request on its way, a permit awaited, or a grant on its way

  /** At most one token: one place, one copy. */
  predicate OneToken(data: seq<Packet>, grants: seq<Packet>, st: DecodeState) {
    && (forall i, j :: 0 <= i < j < |data| && IsRequest(data[i]) ==> !IsRequest(data[j]))
    && |grants| <= 1
    && (st.RemoteAwaitingPermit? ==> grants == [])
    && (forall p :: p in data && IsRequest(p) ==> !st.RemoteAwaitingPermit? && grants == [])
  }

  /** What a token for message k says: the sender waits for this grant and has sent no chunk. */
  predicate Claim(sent: seq<Msg>, pc: Pc, tx: Tx, data: seq<Packet>, lastMsg: int, lastEnd: nat, k: int) {
    && IsLarge(sent, k)
    && tx == Tx(true, Some(k))
    && pc != PutReqNext
    && SenderPassed(sent, pc, k, 0)
    && (pc.ChunksFrom? ==> k != |sent| - 1)
    && (lastMsg == k ==> lastEnd == 0)
    && (forall p :: p in data && IsChunkPacket(p) ==> p.msg != k)
  }

  predicate TokenOk(sent: seq<Msg>, pc: Pc, tx: Tx, data: seq<Packet>, grants: seq<Packet>,
                    st: DecodeState, lastMsg: int, lastEnd: nat)
  {
    && OneToken(data, grants, st)
    && (forall p :: p in data && IsRequest(p) ==> Claim(sent, pc, tx, data, lastMsg, lastEnd, p.msg))
    && (st.RemoteAwaitingPermit? ==> Claim(sent, pc, tx, data, lastMsg, lastEnd, lastMsg))
    && (grants != [] ==>
          && Claim(sent, pc, tx, data, lastMsg, lastEnd, grants[0].msg)
          && grants[0] == GrantPacket(|sent[grants[0].msg]|, grants[0].msg))
    && (pc == PutReqNext ==> sent != [] && tx == Tx(true, Some(|sent| - 1)))
  }

  /** One semaphore request per awaited permit, for its length. */
  predicate PermitsOk(st: DecodeState, waiting: seq<u32>, acquired: seq<u32>) {
    if st.RemoteAwaitingPermit? then waiting + acquired == [st.len] else waiting == [] && acquired == []
  }

  predicate Inv(s: Dir) {
    && SenderOk(s.sent, s.pc)
    && DataOk(s.sent, s.pc, s.data, s.lastMsg, s.lastEnd)
    && DeliveredOk(s.sent, s.delivered, s.order, s.rx.state, s.lastMsg)
    && TokenOk(s.sent, s.pc, s.tx, s.data, s.grants, s.rx.state, s.lastMsg, s.lastEnd)
    && (s.rxAlive ==>
          && CollectedOk(s.sent, s.rx, s.lastMsg, s.lastEnd)
          && ChunksWanted(|s.sent| - 1, s.pc, s.data, s.grants, s.rx.state, s.lastMsg)
          && PermitsOk(s.rx.state, s.waiting, s.acquired))
  }

  // ----- data on its way

  lemma InOrderSnoc(data: seq<Packet>, p: Packet)
    requires InOrder(data) && forall q :: q in data ==> After(q.msg, q.end, p)
    ensures InOrder(data + [p])
  {
    var d := data + [p];
    forall i, j | 0 <= i < j < |d|
      ensures After(d[i].msg, d[i].end, d[j])
    {
      assert d[i] in data;
    }
  }

  lemma InOrderCut(data: seq<Packet>, i: nat, j: nat)
    requires InOrder(data) && i <= j <= |data|
    ensures InOrder(data[..i] + data[j..])
  {
    var d := data[..i] + data[j..];
    forall a, b | 0 <= a < b < |d|
      ensures After(d[a].msg, d[a].end, d[b])
    {
      var a' := if a < i then a else a + j - i;
      var b' := if b < i then b else b + j - i;
      assert d[a] == data[a'] && d[b] == data[b'];
    }
  }

  /** The sender may only move on. */
  lemma DataOkMoves(sent: seq<Msg>, pc: Pc, data: seq<Packet>, lastMsg: int, lastEnd: nat, sent': seq<Msg>, pc': Pc)
    requires DataOk(sent, pc, data, lastMsg, lastEnd)
    requires sent <= sent'
    requires forall m, e :: SenderPassed(sent, pc, m, e) ==> SenderPassed(sent', pc', m, e)
    ensures DataOk(sent', pc', data, lastMsg, lastEnd)
  {
    forall p | p in data
      ensures Genuine(sent', p)
    {
      assert Genuine(sent, p);
    }
  }

  /** The sender queues a packet of the current message. */
  lemma DataOkSnoc(sent: seq<Msg>, pc: Pc, data: seq<Packet>, lastMsg: int, lastEnd: nat, p: Packet, pc': Pc)
    requires DataOk(sent, pc, data, lastMsg, lastEnd) && Genuine(sent, p)
    requires forall m, e :: SenderPassed(sent, pc, m, e) ==> SenderPassed(sent, pc', m, e) && After(m, e, p)
    requires SenderPassed(sent, pc', p.msg, p.end)
    ensures DataOk(sent, pc', data + [p], lastMsg, lastEnd)
  {
    DataOkMoves(sent, pc, data, lastMsg, lastEnd, sent, pc');
    InOrderSnoc(data, p);
  }

  lemma DataOkCut(sent: seq<Msg>, pc: Pc, data: seq<Packet>, lastMsg: int, lastEnd: nat, i: nat, j: nat)
    requires DataOk(sent, pc, data, lastMsg, lastEnd) && i <= j <= |data|
    ensures DataOk(sent, pc, data[..i] + data[j..], lastMsg, lastEnd)
  {
    InOrderCut(data, i, j);
    assert forall q :: q in data[..i] + data[j..] ==> q in data;
  }

  /** The receiver takes the first packet. */
  lemma DataOkPop(sent: seq<Msg>, pc: Pc, data: seq<Packet>, lastMsg: int, lastEnd: nat)
    requires DataOk(sent, pc, data, lastMsg, lastEnd) && data != []
    ensures DataOk(sent, pc, data[1..], lastMsg, lastEnd)
    ensures DataOk(sent, pc, data[1..], data[0].msg, data[0].end)
    ensures Genuine(sent, data[0]) && After(lastMsg, lastEnd, data[0])
  {
    var p, rest := data[0], data[1..];
    assert p in data && forall q :: q in rest ==> q in data;
    forall q | q in rest
      ensures After(p.msg, p.end, q)
    {
      var i :| 0 <= i < |rest| && rest[i] == q;
      assert data[i + 1] == q;
    }
  }

  // ----- tokens

  /** Without a wish for a grant, and before the request goes out, there is no token. */
  lemma NoToken(sent: seq<Msg>, pc: Pc, tx: Tx, data: seq<Packet>, grants: seq<Packet>, st: DecodeState,
                lastMsg: int, lastEnd: nat)
    requires TokenOk(sent, pc, tx, data, grants, st, lastMsg, lastEnd)
    requires !tx.wantRemoteGrant || pc == PutReqNext
    ensures grants == [] && !st.RemoteAwaitingPermit? && forall p :: p in data ==> !IsRequest(p)
  {
  }

  /** Removing packets, and taking the first one, keeps every claim. */
  lemma ClaimPop(sent: seq<Msg>, pc: Pc, tx: Tx, data: seq<Packet>, lastMsg: int, lastEnd: nat, k: int)
    requires Claim(sent, pc, tx, data, lastMsg, lastEnd, k)
    requires data != [] && Genuine(sent, data[0])
    ensures Claim(sent, pc, tx, data[1..], data[0].msg, data[0].end, k)
  {
    assert data[0] in data && forall q :: q in data[1..] ==> q in data;
  }

  /** The first packet is taken; if it was the request, the token is now with the receiver. */
  lemma TokenPop(sent: seq<Msg>, pc: Pc, tx: Tx, data: seq<Packet>, grants: seq<Packet>, st: DecodeState,
                 lastMsg: int, lastEnd: nat, st': DecodeState)
    requires TokenOk(sent, pc, tx, data, grants, st, lastMsg, lastEnd)
    requires data != [] && Genuine(sent, data[0])
    requires st'.RemoteAwaitingPermit? <==> IsRequest(data[0])
    ensures TokenOk(sent, pc, tx, data[1..], grants, st', data[0].msg, data[0].end)
  {
    var p, rest := data[0], data[1..];
    assert p in data && forall q :: q in rest ==> q in data;
    forall q | q in rest && IsRequest(q)
      ensures Claim(sent, pc, tx, rest, p.msg, p.end, q.msg) && !IsRequest(p) && grants == []
    {
      var i :| 0 <= i < |rest| && rest[i] == q;
      assert data[i + 1] == q;
      ClaimPop(sent, pc, tx, data, lastMsg, lastEnd, q.msg);
    }
    if IsRequest(p) {
      ClaimPop(sent, pc, tx, data, lastMsg, lastEnd, p.msg);
    }
    if grants != [] {
      ClaimPop(sent, pc, tx, data, lastMsg, lastEnd, grants[0].msg);
    }
  }

  lemma TokenCut(sent: seq<Msg>, pc: Pc, tx: Tx, data: seq<Packet>, grants: seq<Packet>, st: DecodeState,
                 lastMsg: int, lastEnd: nat, i: nat, j: nat)
    requires TokenOk(sent, pc, tx, data, grants, st, lastMsg, lastEnd) && i <= j <= |data|
    ensures TokenOk(sent, pc, tx, data[..i] + data[j..], grants, st, lastMsg, lastEnd)
  {
    var cut := data[..i] + data[j..];
    assert forall q :: q in cut ==> q in data;
    forall a, b | 0 <= a < b < |cut| && IsRequest(cut[a])
      ensures !IsRequest(cut[b])
    {
      var a' := if a < i then a else a + j - i;
      var b' := if b < i then b else b + j - i;
      assert cut[a] == data[a'] && cut[b] == data[b'];
    }
  }

  function Requests(data: seq<Packet>): nat {
    if data == [] then 0 else (if IsRequest(data[0]) then 1 else 0) + Requests(data[1..])
  }

  /** Requests on their way, permits the receiver awaits, and grants on their way. */
  function Tokens(s: Dir): nat {
    Requests(s.data) + (if s.rx.state.RemoteAwaitingPermit? then 1 else 0) + |s.grants|
  }

  lemma {:induction false} CountRequests(data: seq<Packet>)
    requires forall i, j :: 0 <= i < j < |data| && IsRequest(data[i]) ==> !IsRequest(data[j])
    ensures Requests(data) == if exists p :: p in data && IsRequest(p) then 1 else 0
  {
    if data != [] {
      CountRequests(data[1..]);
      assert forall p :: p in data <==> p == data[0] || p in data[1..];
      if IsRequest(data[0]) {
        assert forall p :: p in data[1..] ==> !IsRequest(p);
      }
    }
  }

  /** There is at most one token, only while the sender's side wants a grant. */
  lemma OneTokenAtMost(s: Dir)
    requires Inv(s)
    ensures Tokens(s) <= 1 && (Tokens(s) == 1 ==> s.tx.wantRemoteGrant && s.tx.grantNotify.Some?)
  {
    CountRequests(s.data);
  }

  // ----- the steps of the sender

  lemma InvInit()
    ensures Inv(INIT_DIR)
  {
  }

  lemma KeepsStart(s: Dir, m: Msg)
    requires Inv(s) && Enabled(s, Start(m))
    ensures Inv(Apply(s, Start(m)))
  {
    var t := Apply(s, Start(m));
    DataOkMoves(s.sent, s.pc, s.data, s.lastMsg, s.lastEnd, t.sent, t.pc);
  }

  lemma PutSmallData(s: Dir)
    requires Inv(s) && Enabled(s, PutSmall)
    ensures var t := Apply(s, PutSmall); DataOk(t.sent, t.pc, t.data, t.lastMsg, t.lastEnd)
  {
    var p := SmallPacket(Current(s.sent), |s.sent| - 1);
    DataOkSnoc(s.sent, s.pc, s.data, s.lastMsg, s.lastEnd, p, Unlocked);
  }

  lemma KeepsPutSmall(s: Dir)
    requires Inv(s) && Enabled(s, PutSmall)
    ensures Inv(Apply(s, PutSmall))
  {
    PutSmallData(s);
    PutSmallToken(s);
    var p := SmallPacket(Current(s.sent), |s.sent| - 1);
    assert forall q :: q in s.data + [p] <==> q in s.data || q == p;
  }

  lemma PutSmallToken(s: Dir)
    requires Inv(s) && Enabled(s, PutSmall)
    ensures
      var t := Apply(s, PutSmall);
      TokenOk(t.sent, t.pc, t.tx, t.data, t.grants, t.rx.state, t.lastMsg, t.lastEnd)
  {
    var p := SmallPacket(Current(s.sent), |s.sent| - 1);
    assert forall q :: q in s.data + [p] <==> q in s.data || q == p;
  }

  lemma KeepsAskReg(s: Dir)
    requires Inv(s) && Enabled(s, AskReg)
    ensures Inv(Apply(s, AskReg))
  {
    DataOkMoves(s.sent, s.pc, s.data, s.lastMsg, s.lastEnd, s.sent, WaitReg);
  }

  lemma KeepsRegister(s: Dir)
    requires Inv(s) && Enabled(s, Register)
    ensures Inv(Apply(s, Register))
  {
    var t := Apply(s, Register);
    DataOkMoves(s.sent, s.pc, s.data, s.lastMsg, s.lastEnd, s.sent, t.pc);
    if !s.tx.wantRemoteGrant {
      NoToken(s.sent, s.pc, s.tx, s.data, s.grants, s.rx.state, s.lastMsg, s.lastEnd);
    }
  }

  lemma KeepsPutRequest(s: Dir)
    requires Inv(s) && Enabled(s, PutRequest)
    ensures Inv(Apply(s, PutRequest))
  {
    var p := RequestPacket(Current(s.sent), |s.sent| - 1);
    DataOkSnoc(s.sent, s.pc, s.data, s.lastMsg, s.lastEnd, p, WaitGrant);
    NoToken(s.sent, s.pc, s.tx, s.data, s.grants, s.rx.state, s.lastMsg, s.lastEnd);
    assert forall q :: q in s.data + [p] <==> q in s.data || q == p;
    assert OneToken(s.data + [p], [], s.rx.state);
    assert Claim(s.sent, WaitGrant, s.tx, s.data + [p], s.lastMsg, s.lastEnd, p.msg);
  }

  lemma PutChunkToken(s: Dir)
    requires Inv(s) && Enabled(s, PutChunk)
    ensures
      var t := Apply(s, PutChunk);
      TokenOk(t.sent, t.pc, t.tx, t.data, t.grants, t.rx.state, t.lastMsg, t.lastEnd)
  {
    var t := Apply(s, PutChunk);
    var p := ChunkPacket(Current(s.sent), |s.sent| - 1, s.pc.off);
    forall q | q in t.data && IsRequest(q)
      ensures q in s.data
      ensures Claim(t.sent, t.pc, t.tx, t.data, t.lastMsg, t.lastEnd, q.msg)
    {
      assert Claim(s.sent, s.pc, s.tx, s.data, s.lastMsg, s.lastEnd, q.msg);
    }
  }

  lemma PutChunkData(s: Dir)
    requires Inv(s) && Enabled(s, PutChunk)
    ensures var t := Apply(s, PutChunk); DataOk(t.sent, t.pc, t.data, t.lastMsg, t.lastEnd) && SenderOk(t.sent, t.pc)
  {
    var p := ChunkPacket(Current(s.sent), |s.sent| - 1, s.pc.off);
    DataOkSnoc(s.sent, s.pc, s.data, s.lastMsg, s.lastEnd, p, Apply(s, PutChunk).pc);
  }

  lemma KeepsPutChunk(s: Dir)
    requires Inv(s) && Enabled(s, PutChunk)
    ensures Inv(Apply(s, PutChunk))
  {
    var p := ChunkPacket(Current(s.sent), |s.sent| - 1, s.pc.off);
    PutChunkData(s);
    PutChunkToken(s);
    assert forall q :: q in s.data + [p] ==> q in s.data || q == p;
  }

  lemma EarlyCancelData(s: Dir)
    requires Inv(s) && Early(s.pc)
    ensures
      var sent := AfterGivingUp(s.sent, s.pc);
      SenderOk(sent, Unlocked) && DataOk(sent, Unlocked, s.data, s.lastMsg, s.lastEnd)
  {
    var sent := AfterGivingUp(s.sent, s.pc);
    forall p | p in s.data
      ensures Genuine(sent, p) && SenderPassed(sent, Unlocked, p.msg, p.end)
    {
      assert Genuine(s.sent, p) && SenderPassed(s.sent, s.pc, p.msg, p.end);
    }
  }

  lemma EarlyCancelToken(s: Dir)
    requires Inv(s) && Early(s.pc)
    ensures TokenOk(AfterGivingUp(s.sent, s.pc), Unlocked, s.tx, s.data, s.grants, s.rx.state, s.lastMsg, s.lastEnd)
  {
  }

  /** A message that was given up before anything of it was queued can be forgotten. */
  lemma KeepsEarlyCancel(s: Dir)
    requires Inv(s) && Early(s.pc)
    ensures Inv(Apply(s, Cancel))
  {
    EarlyCancelData(s);
    EarlyCancelToken(s);
  }

  lemma KeepsCancel(s: Dir)
    requires Inv(s) && Enabled(s, Cancel)
    ensures Inv(Apply(s, Cancel))
  {
    if Early(s.pc) {
      KeepsEarlyCancel(s);
    } else {
      DataOkMoves(s.sent, s.pc, s.data, s.lastMsg, s.lastEnd, s.sent, Unlocked);
    }
  }

  lemma KeepsRecvGrant(s: Dir)
    requires Inv(s) && Enabled(s, RecvGrant)
    ensures Inv(Apply(s, RecvGrant))
  {
    DataOkMoves(s.sent, s.pc, s.data, s.lastMsg, s.lastEnd, s.sent, Apply(s, RecvGrant).pc);
  }

  // ----- the steps of the receiver

  lemma KeepsRecvVersion(s: Dir)
    requires Inv(s) && Enabled(s, RecvData) && s.data[0].frame.hdr.Version?
    ensures Inv(Apply(s, RecvData))
  {
    TakeFirst(s);
  }

  /** What taking the first packet leaves, whatever the decoder makes of it. */
  lemma TakeFirst(s: Dir)
    requires Inv(s) && s.data != []
    ensures
      var p, rest := s.data[0], s.data[1..];
      && Genuine(s.sent, p) && After(s.lastMsg, s.lastEnd, p)
      && DataOk(s.sent, s.pc, rest, s.lastMsg, s.lastEnd)
      && DataOk(s.sent, s.pc, rest, p.msg, p.end)
      && TokenOk(s.sent, s.pc, s.tx, rest, s.grants, s.rx.state, s.lastMsg, s.lastEnd)
      && (s.rxAlive ==> ChunksWanted(|s.sent| - 1, s.pc, rest, s.grants, s.rx.state, s.lastMsg))
      && TokenOk(s.sent, s.pc, s.tx, rest, s.grants,
                 if IsRequest(p) then RemoteAwaitingPermit(0) else Ready, p.msg, p.end)
  {
    var p, rest := s.data[0], s.data[1..];
    DataOkPop(s.sent, s.pc, s.data, s.lastMsg, s.lastEnd);
    TokenPop(s.sent, s.pc, s.tx, s.data, s.grants, s.rx.state, s.lastMsg, s.lastEnd,
             if IsRequest(p) then RemoteAwaitingPermit(0) else Ready);
    TokenCut(s.sent, s.pc, s.tx, s.data, s.grants, s.rx.state, s.lastMsg, s.lastEnd, 0, 1);
    assert s.data[..0] + s.data[1..] == rest;
    assert p in s.data && forall q :: q in rest ==> q in s.data;
  }

  lemma KeepsRecvSmall(s: Dir)
    requires Inv(s) && Enabled(s, RecvData) && s.data[0].frame.hdr.CompleteMessage?
    ensures Inv(Apply(s, RecvData))
  {
    TakeFirst(s);
    if s.rx.state == Ready {
      DeliverNext(s.sent, s.delivered, s.order, s.data[0].msg);
    }
  }

  /** A whole message later than all delivered ones extends the deliveries. */
  lemma DeliverNext(sent: seq<Msg>, delivered: seq<Msg>, order: seq<nat>, k: nat)
    requires DeliveredInOrder(sent, delivered, order) && k < |sent|
    requires forall i :: 0 <= i < |order| ==> order[i] < k
    ensures DeliveredInOrder(sent, delivered + [sent[k]], order + [k])
    ensures forall i :: 0 <= i < |order| + 1 ==> (order + [k])[i] < k + 1
  {
  }

  lemma KeepsRecvRequest(s: Dir)
    requires Inv(s) && Enabled(s, RecvData) && IsRequest(s.data[0])
    ensures Inv(Apply(s, RecvData))
  {
    TakeFirst(s);
    assert s.data[0] in s.data;
  }

  /** A chunk continues the prefix, or completes the message, or follows a lost chunk. */
  lemma ChunkIsCollected(sent: seq<Msg>, rx: Rx, lastMsg: int, lastEnd: nat, p: Packet)
    requires CollectedOk(sent, rx, lastMsg, lastEnd) && rx.state == ReceiveChunked
    requires Genuine(sent, p) && IsChunkPacket(p) && p.msg == lastMsg && lastEnd <= p.start
    ensures
      var o := RxStep(rx, p.frame);
      if o.result == Ok(Decoder.Idle) then CollectedOk(sent, o.rx, p.msg, p.end) && o.rx.state == ReceiveChunked
      else o.result == Ok(Message(sent[p.msg])) && p.end == |sent[p.msg]|
           && o.rx.state == Ready && o.rx.incoming == []
  {
    var m := sent[p.msg];
    assert p.frame.payload == m[p.start..p.end];
    if |rx.incoming| == p.start {
      assert rx.incoming + p.frame.payload == m[..p.end];
      assert p.end == |m| ==> m[..p.end] == m;
    }
  }

  /** Once the last chunk is taken the sender is past the message and nothing refers to it. */
  lemma LastChunkIsLast(s: Dir)
    requires Inv(s) && Enabled(s, RecvData) && IsChunkPacket(s.data[0])
    requires s.data[0].end == |s.sent[s.data[0].msg]|
    ensures s.grants == []
    ensures ChunksWanted(|s.sent| - 1, s.pc, s.data[1..], [], Ready, s.data[0].msg)
  {
    var p, rest := s.data[0], s.data[1..];
    DataOkPop(s.sent, s.pc, s.data, s.lastMsg, s.lastEnd);
    assert p in s.data && forall q :: q in rest ==> q in s.data;
  }

  lemma KeepsRecvChunk(s: Dir)
    requires Inv(s) && Enabled(s, RecvData) && IsChunkPacket(s.data[0])
    ensures Inv(Apply(s, RecvData))
  {
    var p, t := s.data[0], Apply(s, RecvData);
    TakeFirst(s);
    assert p in s.data;
    ChunkIsCollected(s.sent, s.rx, s.lastMsg, s.lastEnd, p);
    if t.rx.state == Ready {
      LastChunkIsLast(s);
      DeliverNext(s.sent, s.delivered, s.order, p.msg);
    }
  }

  lemma KeepsRecvData(s: Dir)
    requires Inv(s) && Enabled(s, RecvData)
    ensures Inv(Apply(s, RecvData))
  {
    match s.data[0].frame.hdr
    case Version(_, _, _, _) => KeepsRecvVersion(s);
    case CompleteMessage(_) => KeepsRecvSmall(s);
    case PermitRequest(_) => KeepsRecvRequest(s);
    case MultipartMessage(_) => KeepsRecvChunk(s);
  }

  lemma KeepsAcquire(s: Dir)
    requires Inv(s) && Enabled(s, Acquire)
    ensures Inv(Apply(s, Acquire))
  {
    ConcatAssoc(s.acquired, [s.waiting[0]], []);
    assert s.waiting == [s.waiting[0]] + s.waiting[1..];
  }

  lemma KeepsPermit(s: Dir)
    requires Inv(s) && Enabled(s, Permit)
    ensures Inv(Apply(s, Permit))
  {
    assert s.waiting == [] && s.acquired == [s.rx.state.len] by {
      assert (s.waiting + s.acquired)[|s.waiting|] == s.acquired[0];
    }
  }

  // ----- losses and endings

  lemma KeepsLoseData(s: Dir, i: nat, j: nat)
    requires Inv(s) && Enabled(s, LoseData(i, j))
    ensures Inv(Apply(s, LoseData(i, j)))
  {
    DataOkCut(s.sent, s.pc, s.data, s.lastMsg, s.lastEnd, i, j);
    TokenCut(s.sent, s.pc, s.tx, s.data, s.grants, s.rx.state, s.lastMsg, s.lastEnd, i, j);
    assert forall q :: q in s.data[..i] + s.data[j..] ==> q in s.data;
  }

  lemma KeepsLoseGrants(s: Dir, i: nat, j: nat)
    requires Inv(s) && Enabled(s, LoseGrants(i, j))
    ensures Inv(Apply(s, LoseGrants(i, j)))
  {
  }

  lemma KeepsDie(s: Dir)
    requires Inv(s)
    ensures Inv(Apply(s, DieTx)) && Inv(Apply(s, DieRx))
  {
  }

  /** Every step keeps the invariant. */
  lemma StepKeepsInv(s: Dir, step: Step)
    requires Inv(s) && Enabled(s, step)
    ensures Inv(Apply(s, step))
  {
    match step
    case Stutter =>
    case Start(m) => KeepsStart(s, m);
    case PutSmall => KeepsPutSmall(s);
    case AskReg => KeepsAskReg(s);
    case Register => KeepsRegister(s);
    case PutRequest => KeepsPutRequest(s);
    case PutChunk => KeepsPutChunk(s);
    case Cancel => KeepsCancel(s);
    case RecvGrant => KeepsRecvGrant(s);
    case RecvData => KeepsRecvData(s);
    case Acquire => KeepsAcquire(s);
    case Permit => KeepsPermit(s);
    case LoseData(i, j) => KeepsLoseData(s, i, j);
    case LoseGrants(i, j) => KeepsLoseGrants(s, i, j);
    case DieTx => KeepsDie(s);
    case DieRx => KeepsDie(s);
  }
}
