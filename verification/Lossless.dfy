/**
 Runs without loss or stopped tasks in which sends are given up only before anything of them was
 queued: no decoder fails, what is delivered is a prefix of the messages not given up, and every
 step brings the end nearer.
 */
module Lossless {
  import opened Core
  import opened Header
  import opened Encoder
  import opened Decoder
  import opened Framed
  import opened Direction
  import opened Pair

  // ----- one direction

  /** A position in the stream of data frames: a message and, inside a large one, 1 + offset. */
  datatype Pos = Pos(msg: int, off: nat)

  function PacketPos(p: Packet): Pos {
    Pos(p.msg, if IsChunkPacket(p) then p.start + 1 else 0)
  }

  /** The position after a packet, given the length of its message. */
  function NextPos(sent: seq<Msg>, p: Packet): Pos {
    if IsRequest(p) then Pos(p.msg, 1)
    else if IsChunkPacket(p) && !(0 <= p.msg < |sent| && p.end == |sent[p.msg]|) then Pos(p.msg, p.end + 1)
    else Pos(p.msg + 1, 0)
  }

  /** The packets are consecutive, from one position to another. */
  predicate Chain(sent: seq<Msg>, from: Pos, data: seq<Packet>, to: Pos)
    decreases |data|
  {
    if data == [] then from == to
    else PacketPos(data[0]) == from && Chain(sent, NextPos(sent, data[0]), data[1..], to)
  }

  /** What the receiver expects next. */
  function RxPos(st: DecodeState, lastMsg: int, lastEnd: nat): Pos {
    match st
    case NeedVersion => Pos(-1, 0)
    case Ready => Pos(lastMsg + 1, 0)
    case RemoteAwaitingPermit(_) => Pos(lastMsg, 1)
    case ReceiveChunked => Pos(lastMsg, lastEnd + 1)
  }

  /** What the sender queues next. */
  function TxPos(sent: seq<Msg>, pc: Pc): Pos {
    match pc
    case Unlocked => Pos(|sent|, 0)
    case WaitGrant => Pos(|sent| - 1, 1)
    case ChunksFrom(off) => Pos(|sent| - 1, off + 1)
    case _ => Pos(|sent| - 1, 0)
  }

  /** How many messages are behind the receiver. */
  function Done(st: DecodeState, lastMsg: int): int {
    match st
    case NeedVersion => 0
    case Ready => lastMsg + 1
    case _ => lastMsg
  }

  predicate HasToken(data: seq<Packet>, grants: seq<Packet>, st: DecodeState) {
    (exists p :: p in data && IsRequest(p)) || st.RemoteAwaitingPermit? || grants != []
  }

  /** The sender and its command task agree on whether a grant is wanted. */
  predicate InStep(s: Dir) {
    match s.pc
    case WaitReg => s.regs == [|s.sent| - 1] && !s.tx.wantRemoteGrant
    case PutReqNext => s.regs == []
    case WaitGrant =>
      s.regs == [] && s.sent != [] && s.tx == Tx(true, Some(|s.sent| - 1)) && HasToken(s.data, s.grants, s.rx.state)
    case _ => s.regs == [] && !s.tx.wantRemoteGrant
  }

  /** Nothing was lost: the packets under way are exactly those between sender and receiver. */
  predicate Exact(s: Dir) {
    && s.txAlive && s.rxAlive
    && Chain(s.sent, RxPos(s.rx.state, s.lastMsg, s.lastEnd), s.data, TxPos(s.sent, s.pc))
    && 0 <= Done(s.rx.state, s.lastMsg) <= |s.sent|
    && s.delivered == s.sent[..Done(s.rx.state, s.lastMsg)]
    && (s.rx.state == ReceiveChunked ==> |s.rx.incoming| == s.lastEnd)
    && InStep(s)
  }

  predicate Reliable(pc: Pc, step: Step) {
    (step.Cancel? ==> !Late(pc)) && !step.LoseData? && !step.LoseGrants? && !step.DieTx? && !step.DieRx?
  }

  lemma {:induction false} ChainSnoc(sent: seq<Msg>, from: Pos, data: seq<Packet>, p: Packet)
    requires Chain(sent, from, data, PacketPos(p))
    ensures Chain(sent, from, data + [p], NextPos(sent, p))
    decreases |data|
  {
    if data == [] {
      assert ([] + [p])[1..] == [];
    } else {
      ChainSnoc(sent, NextPos(sent, data[0]), data[1..], p);
      assert (data + [p])[1..] == data[1..] + [p];
    }
  }

  /** A message of which nothing was queued does not matter. */
  lemma {:induction false} ChainGrows(sent: seq<Msg>, m: Msg, from: Pos, data: seq<Packet>, to: Pos)
    requires forall p :: p in data ==> Genuine(sent, p)
    ensures Chain(sent + [m], from, data, to) <==> Chain(sent, from, data, to)
    decreases |data|
  {
    if data != [] {
      assert Genuine(sent, data[0]);
      ChainGrows(sent, m, NextPos(sent, data[0]), data[1..], to);
    }
  }

  lemma ExactInit()
    ensures Exact(INIT_DIR)
  {
    assert [VERSION_PACKET][1..] == [];
  }

  lemma ExactStart(s: Dir, m: Msg)
    requires Inv(s) && Exact(s) && Enabled(s, Start(m))
    ensures Exact(Apply(s, Start(m)))
  {
    ChainGrows(s.sent, m, RxPos(s.rx.state, s.lastMsg, s.lastEnd), s.data, TxPos(s.sent, s.pc));
  }

  /** Nothing of the current message is on its way, so the chain is the same without it. */
  lemma ChainWithoutCurrent(s: Dir)
    requires Inv(s) && Early(s.pc)
    ensures
      var sent, from := AfterGivingUp(s.sent, s.pc), RxPos(s.rx.state, s.lastMsg, s.lastEnd);
      Chain(s.sent, from, s.data, TxPos(s.sent, s.pc)) ==> Chain(sent, from, s.data, TxPos(sent, Unlocked))
  {
    EarlyCancelData(s);
    assert s.sent == s.sent[..|s.sent| - 1] + [Current(s.sent)];
    ChainGrows(s.sent[..|s.sent| - 1], Current(s.sent), RxPos(s.rx.state, s.lastMsg, s.lastEnd), s.data,
               TxPos(s.sent, s.pc));
  }

  lemma ExactGiveUp(s: Dir)
    requires Inv(s) && Exact(s) && !Late(s.pc)
    ensures Exact(Apply(s, Cancel))
  {
    if Early(s.pc) {
      ChainWithoutCurrent(s);
    }
  }

  lemma ExactPutSmall(s: Dir)
    requires Inv(s) && Exact(s) && Enabled(s, PutSmall)
    ensures Exact(Apply(s, PutSmall))
  {
    ChainSnoc(s.sent, RxPos(s.rx.state, s.lastMsg, s.lastEnd), s.data,
              SmallPacket(Current(s.sent), |s.sent| - 1));
  }

  lemma ExactPutRequest(s: Dir)
    requires Inv(s) && Exact(s) && Enabled(s, PutRequest)
    ensures Exact(Apply(s, PutRequest))
  {
    var p := RequestPacket(Current(s.sent), |s.sent| - 1);
    ChainSnoc(s.sent, RxPos(s.rx.state, s.lastMsg, s.lastEnd), s.data, p);
    assert p in s.data + [p];
  }

  lemma ChunkPositions(sent: seq<Msg>, off: nat)
    requires sent != [] && off < |Current(sent)|
    ensures
      var p := ChunkPacket(Current(sent), |sent| - 1, off);
      && PacketPos(p) == TxPos(sent, ChunksFrom(off))
      && NextPos(sent, p) == TxPos(sent, if p.end == |Current(sent)| then Unlocked else ChunksFrom(p.end))
  {
  }

  lemma ExactPutChunk(s: Dir)
    requires Inv(s) && Exact(s) && Enabled(s, PutChunk)
    ensures Exact(Apply(s, PutChunk))
  {
    ChunkPositions(s.sent, s.pc.off);
    ChainSnoc(s.sent, RxPos(s.rx.state, s.lastMsg, s.lastEnd), s.data,
              ChunkPacket(Current(s.sent), |s.sent| - 1, s.pc.off));
  }

  lemma ExactRegister(s: Dir, step: Step)
    requires Inv(s) && Exact(s) && Enabled(s, step) && (step.AskReg? || step.Register?)
    ensures Exact(Apply(s, step))
  {
  }

  lemma ExactGrant(s: Dir, step: Step)
    requires Inv(s) && Exact(s) && Enabled(s, step) && (step.RecvGrant? || step.Acquire? || step.Permit?)
    ensures Exact(Apply(s, step))
  {
    if step.Permit? {
      PermitFits(s);
    }
  }

  /** Only the request itself takes the token out of the data. */
  lemma TokenStays(s: Dir)
    requires s.data != [] && HasToken(s.data, s.grants, s.rx.state)
    ensures IsRequest(s.data[0]) || HasToken(s.data[1..], s.grants, s.rx.state)
  {
    if p :| p in s.data && IsRequest(p) {
      assert p == s.data[0] || p in s.data[1..];
    }
  }

  /** The next chunk is the one expected, and the decoder takes it. */
  lemma ChunkIsNext(s: Dir)
    requires Inv(s) && Exact(s) && Enabled(s, RecvData) && IsChunkPacket(s.data[0])
    ensures
      var p := s.data[0];
      var o := RxStep(s.rx, p.frame);
      && p.msg == s.lastMsg && 0 <= p.msg < |s.sent|
      && RxPos(o.rx.state, p.msg, p.end) == NextPos(s.sent, p)
      && if p.end == |s.sent[p.msg]| then o.result == Ok(Message(s.sent[p.msg])) && o.rx.state == Ready
         else o.result == Ok(Decoder.Idle) && o.rx.state == ReceiveChunked && |o.rx.incoming| == p.end
  {
    assert s.data[0] in s.data;
    ChunkIsCollected(s.sent, s.rx, s.lastMsg, s.lastEnd, s.data[0]);
  }

  lemma ExactRecvChunk(s: Dir)
    requires Inv(s) && Exact(s) && Enabled(s, RecvData) && IsChunkPacket(s.data[0])
    ensures Exact(Apply(s, RecvData))
  {
    ChunkIsNext(s);
    LastChunk(s.sent, s.lastMsg);
    if s.pc == WaitGrant {
      TokenStays(s);
    }
  }

  lemma LastChunk(sent: seq<Msg>, k: int)
    ensures 0 <= k < |sent| ==> sent[..k] + [sent[k]] == sent[..k + 1]
  {
  }

  lemma ExactRecvVersion(s: Dir)
    requires Inv(s) && Exact(s) && Enabled(s, RecvData) && s.data[0].frame.hdr.Version?
    ensures Exact(Apply(s, RecvData))
  {
    assert s.data[0] in s.data && Genuine(s.sent, s.data[0]);
    if s.pc == WaitGrant {
      TokenStays(s);
    }
  }

  /** A small message is the one expected, and the decoder delivers it. */
  lemma SmallIsNext(s: Dir)
    requires Inv(s) && Exact(s) && Enabled(s, RecvData) && s.data[0].frame.hdr.CompleteMessage?
    ensures
      var p := s.data[0];
      && p.msg == s.lastMsg + 1 && 0 <= p.msg < |s.sent| && s.rx.state == Ready
      && RxStep(s.rx, p.frame) == RxOutcome(s.rx, Ok(Message(s.sent[p.msg])))
  {
    assert s.data[0] in s.data && Genuine(s.sent, s.data[0]);
  }

  lemma SmallIsTaken(s: Dir)
    requires Inv(s) && Exact(s) && Enabled(s, RecvData) && s.data[0].frame.hdr.CompleteMessage?
    ensures
      var p := s.data[0];
      && 0 <= p.msg < |s.sent|
      && Apply(s, RecvData) == s.(data := s.data[1..], lastMsg := p.msg, lastEnd := p.end,
                                  delivered := s.delivered + [s.sent[p.msg]], order := s.order + [p.msg])
  {
    SmallIsNext(s);
  }

  lemma InStepStays(s: Dir)
    requires InStep(s) && s.data != [] && !IsRequest(s.data[0])
    ensures InStep(s.(data := s.data[1..]))
  {
    if s.pc == WaitGrant {
      TokenStays(s);
    }
  }

  lemma ExactRecvSmall(s: Dir)
    requires Inv(s) && Exact(s) && Enabled(s, RecvData) && s.data[0].frame.hdr.CompleteMessage?
    ensures Exact(Apply(s, RecvData))
  {
    SmallIsNext(s);
    SmallIsTaken(s);
    LastChunk(s.sent, s.data[0].msg);
    InStepStays(s);
  }

  lemma ExactRecvRequest(s: Dir)
    requires Inv(s) && Exact(s) && Enabled(s, RecvData) && IsRequest(s.data[0])
    ensures Exact(Apply(s, RecvData))
  {
    assert s.data[0] in s.data && Genuine(s.sent, s.data[0]);
  }

  lemma ExactRecvData(s: Dir)
    requires Inv(s) && Exact(s) && Enabled(s, RecvData)
    ensures Exact(Apply(s, RecvData))
  {
    match s.data[0].frame.hdr
    case Version(_, _, _, _) => ExactRecvVersion(s);
    case CompleteMessage(_) => ExactRecvSmall(s);
    case PermitRequest(_) => ExactRecvRequest(s);
    case MultipartMessage(_) => ExactRecvChunk(s);
  }

  lemma StepKeepsExact(s: Dir, step: Step)
    requires Inv(s) && Exact(s) && Enabled(s, step) && Reliable(s.pc, step)
    ensures Exact(Apply(s, step))
  {
    match step
    case Cancel => ExactGiveUp(s);
    case Start(m) => ExactStart(s, m);
    case PutSmall => ExactPutSmall(s);
    case PutRequest => ExactPutRequest(s);
    case PutChunk => ExactPutChunk(s);
    case RecvData => ExactRecvData(s);
    case AskReg => ExactRegister(s, step);
    case Register => ExactRegister(s, step);
    case RecvGrant => ExactGrant(s, step);
    case Acquire => ExactGrant(s, step);
    case Permit => ExactGrant(s, step);
    case Stutter =>
  }

  /** When the sender is idle and nothing is under way, everything has been delivered. */
  lemma QuietMeansDelivered(s: Dir)
    requires Exact(s) && s.pc == Unlocked && s.data == []
    ensures s.delivered == s.sent
  {
  }

  // ----- both directions, with the messages still to send

  /**
   `todo` are the messages the application will send; `kept` says of each earlier one whether its
   send was carried through (so far) or given up in time.
   */
  datatype Live = Live(sys: Sys, todoA: seq<Msg>, todoB: seq<Msg>, keptA: seq<bool>, keptB: seq<bool>)

  /**
   A step without failures: the semaphore may serve a waiting task at any time, and a send may be
   given up while it waits for the lock or before anything of its message was queued.
   */
  predicate LiveCan(me: Peer, inn: seq<Packet>, todo: seq<Msg>, a: Action) {
    && Can(me, inn, a)
    && match a
       case Begin(m) => todo != [] && m == todo[0]
       case GiveUp => !Late(me.pc) && (me.pc == Unlocked ==> todo != [])
       case Stop => false
       case _ => true
  }

  /** The first of the messages to send leaves the list by starting, or by its send giving up the wait. */
  predicate LeavesTodo(pc: Pc, a: Action) {
    a.Begin? || (a.GiveUp? && pc == Unlocked)
  }

  function Rest(pc: Pc, todo: seq<Msg>, a: Action): seq<Msg> {
    if LeavesTodo(pc, a) && todo != [] then todo[1..] else todo
  }

  function Flags(pc: Pc, kept: seq<bool>, a: Action): seq<bool> {
    if LeavesTodo(pc, a) then kept + [a.Begin?]
    else if a.GiveUp? && kept != [] then kept[|kept| - 1 := false]
    else kept
  }

  /** The messages whose send was not given up. */
  function Kept(all: seq<Msg>, kept: seq<bool>): seq<Msg>
    requires |kept| <= |all|
  {
    if kept == [] then []
    else
      var n := |kept| - 1;
      Kept(all, kept[..n]) + if kept[n] then [all[n]] else []
  }

  /** Each message is kept and sent, given up, or still to be sent; the current one is kept. */
  ghost predicate PlanOk(me: Peer, all: seq<Msg>, kept: seq<bool>, todo: seq<Msg>) {
    && |kept| <= |all| && todo == all[|kept|..] && me.sent == Kept(all, kept)
    && (me.pc != Unlocked ==> kept != [] && kept[|kept| - 1])
  }

  ghost predicate LiveNextA(s: Live, s': Live, a: Action) {
    var pc := s.sys.a.pc;
    LiveCan(s.sys.a, s.sys.ba, s.todoA, a) && ANext(s.sys, s'.sys, a)
    && s' == s.(sys := s'.sys, todoA := Rest(pc, s.todoA, a), keptA := Flags(pc, s.keptA, a))
  }

  ghost predicate LiveNextB(s: Live, s': Live, a: Action) {
    var pc := s.sys.b.pc;
    LiveCan(s.sys.b, s.sys.ab, s.todoB, a) && BNext(s.sys, s'.sys, a)
    && s' == s.(sys := s'.sys, todoB := Rest(pc, s.todoB, a), keptB := Flags(pc, s.keptB, a))
  }

  ghost predicate LiveNext(s: Live, s': Live) {
    (exists a :: LiveNextA(s, s', a)) || (exists a :: LiveNextB(s, s', a))
  }

  /** A held permit belongs to a message being collected. */
  predicate PermitHeld(p: Peer) {
    p.task.dec.rx.grantPermit.Some? <==> p.task.dec.rx.state == ReceiveChunked
  }

  /** What every step keeps: both directions are exact, and the messages are accounted for. */
  ghost predicate LiveInv(s: Live, allA: seq<Msg>, allB: seq<Msg>) {
    && SysInv(s.sys) && PermitHeld(s.sys.a) && PermitHeld(s.sys.b)
    && Exact(View(s.sys.a, s.sys.b, s.sys.ab, s.sys.ba))
    && Exact(View(s.sys.b, s.sys.a, s.sys.ba, s.sys.ab))
    && PlanOk(s.sys.a, allA, s.keptA, s.todoA) && PlanOk(s.sys.b, allB, s.keptB, s.todoB)
  }

  lemma StepStaysAlive(v: Dir, step: Step)
    requires Inv(v) && Exact(v) && Enabled(v, step) && Reliable(v.pc, step)
    ensures Apply(v, step).txAlive && Apply(v, step).rxAlive
  {
    StepKeepsExact(v, step);
  }

  predicate InTime(me: Peer, a: Action) {
    !a.Stop? && (a.GiveUp? ==> !Late(me.pc))
  }

  /** One direction handles the action; the other fails only if the command loop stops. */
  lemma OneIsReliable(me: Peer, inn: seq<Packet>, a: Action, pc: Pc)
    requires Can(me, inn, a) && InTime(me, a)
    ensures Reliable(me.pc, SendingStep(me, inn, a)) || Reliable(pc, ReceivingStep(me, inn, a))
    ensures Act(me, inn, a).peer.task.running ==>
              Reliable(me.pc, SendingStep(me, inn, a)) && Reliable(pc, ReceivingStep(me, inn, a))
  {
  }

  /** An action that is reliable for the direction it handles is reliable for both. */
  lemma ActIsReliable(me: Peer, other: Peer, out: seq<Packet>, inn: seq<Packet>, a: Action)
    requires Can(me, inn, a) && InTime(me, a) && ViewsMove(me, other, out, inn, a)
    requires Inv(View(me, other, out, inn)) && Inv(View(other, me, inn, out))
    requires Exact(View(me, other, out, inn)) && Exact(View(other, me, inn, out))
    ensures Reliable(me.pc, SendingStep(me, inn, a)) && Reliable(other.pc, ReceivingStep(me, inn, a))
  {
    OneIsReliable(me, inn, a, other.pc);
    if Reliable(me.pc, SendingStep(me, inn, a)) {
      StepStaysAlive(View(me, other, out, inn), SendingStep(me, inn, a));
    } else {
      StepStaysAlive(View(other, me, inn, out), ReceivingStep(me, inn, a));
    }
  }

  lemma PermitStaysHeld(me: Peer, inn: seq<Packet>, a: Action)
    requires Can(me, inn, a) && PermitHeld(me)
    ensures PermitHeld(Act(me, inn, a).peer)
  {
  }

  /** A live action keeps both directions exact. */
  lemma ActKeepsExact(me: Peer, other: Peer, out: seq<Packet>, inn: seq<Packet>, a: Action)
    requires Can(me, inn, a) && InTime(me, a) && Sane(me)
    requires Inv(View(me, other, out, inn)) && Inv(View(other, me, inn, out))
    requires Exact(View(me, other, out, inn)) && Exact(View(other, me, inn, out))
    ensures
      var m := Act(me, inn, a);
      && Sane(m.peer) && m.peer.task.running
      && Inv(View(m.peer, other, out + m.queued, m.inn)) && Inv(View(other, m.peer, m.inn, out + m.queued))
      && Exact(View(m.peer, other, out + m.queued, m.inn)) && Exact(View(other, m.peer, m.inn, out + m.queued))
  {
    ActIsStep(me, other, out, inn, a);
    ActIsReliable(me, other, out, inn, a);
    MoveKeepsInv(me, other, out, inn, a);
    MoveKeepsExact(me, other, out, inn, a);
  }

  lemma MoveKeepsExact(me: Peer, other: Peer, out: seq<Packet>, inn: seq<Packet>, a: Action)
    requires Can(me, inn, a) && ViewsMove(me, other, out, inn, a)
    requires Reliable(me.pc, SendingStep(me, inn, a)) && Reliable(other.pc, ReceivingStep(me, inn, a))
    requires Inv(View(me, other, out, inn)) && Inv(View(other, me, inn, out))
    requires Exact(View(me, other, out, inn)) && Exact(View(other, me, inn, out))
    ensures
      var m := Act(me, inn, a);
      && m.peer.task.running
      && Exact(View(m.peer, other, out + m.queued, m.inn)) && Exact(View(other, m.peer, m.inn, out + m.queued))
  {
    StepKeepsExact(View(me, other, out, inn), SendingStep(me, inn, a));
    StepKeepsExact(View(other, me, inn, out), ReceivingStep(me, inn, a));
  }

  lemma KeptSnoc(all: seq<Msg>, kept: seq<bool>, b: bool)
    requires |kept| < |all|
    ensures Kept(all, kept + [b]) == Kept(all, kept) + if b then [all[|kept|]] else []
  {
    assert (kept + [b])[..|kept|] == kept;
  }

  lemma PlanLeaves(me: Peer, inn: seq<Packet>, all: seq<Msg>, kept: seq<bool>, todo: seq<Msg>, a: Action)
    requires LiveCan(me, inn, todo, a) && PlanOk(me, all, kept, todo) && LeavesTodo(me.pc, a)
    ensures PlanOk(Act(me, inn, a).peer, all, Flags(me.pc, kept, a), Rest(me.pc, todo, a))
  {
    KeptSnoc(all, kept, a.Begin?);
  }

  lemma PlanGivesUp(me: Peer, inn: seq<Packet>, all: seq<Msg>, kept: seq<bool>, todo: seq<Msg>)
    requires LiveCan(me, inn, todo, GiveUp) && PlanOk(me, all, kept, todo) && me.pc != Unlocked
    ensures PlanOk(Act(me, inn, GiveUp).peer, all, Flags(me.pc, kept, GiveUp), todo)
  {
    var n := |kept| - 1;
    assert kept == kept[..n] + [true] && kept[n := false] == kept[..n] + [false];
    KeptSnoc(all, kept[..n], true);
    KeptSnoc(all, kept[..n], false);
  }

  /** Every message is accounted for after each action. */
  lemma ActKeepsPlan(me: Peer, inn: seq<Packet>, all: seq<Msg>, kept: seq<bool>, todo: seq<Msg>, a: Action)
    requires LiveCan(me, inn, todo, a) && PlanOk(me, all, kept, todo) && SenderOk(me.sent, me.pc)
    ensures PlanOk(Act(me, inn, a).peer, all, Flags(me.pc, kept, a), Rest(me.pc, todo, a))
  {
    if LeavesTodo(me.pc, a) {
      PlanLeaves(me, inn, all, kept, todo, a);
    } else if a.GiveUp? {
      PlanGivesUp(me, inn, all, kept, todo);
    }
  }

  // ----- every step brings the end nearer by one

  function PcCost(me: Peer): nat {
    if me.sent == [] then 0
    else
      var m := Current(me.sent);
      var chunks := 2 * |ChunkFrames(m, 0)|;
      match me.pc
      case Unlocked => 0
      case PutSmallNext => 2
      case AskRegNext => 7 + chunks
      case WaitReg => 6 + chunks
      case PutReqNext => 5 + chunks
      case WaitGrant => chunks
      case ChunksFrom(off) => if off <= |m| then 2 * |ChunkFrames(m, off)| else 0
  }

  function PeerCost(me: Peer): nat {
    PcCost(me) + 3 * |me.task.waiting| + 2 * |me.task.acquired|
  }

  function LaneCost(lane: seq<Packet>): nat {
    if lane == [] then 0 else (if IsRequest(lane[0]) then 4 else 1) + LaneCost(lane[1..])
  }

  function TodoCost(todo: seq<Msg>): nat {
    if todo == [] then 0
    else (if IsSmall(todo[0]) then 3 else 8 + 2 * |ChunkFrames(todo[0], 0)|) + TodoCost(todo[1..])
  }

  function Measure(s: Live): nat {
    TodoCost(s.todoA) + PeerCost(s.sys.a) + LaneCost(s.sys.ab) +
    TodoCost(s.todoB) + PeerCost(s.sys.b) + LaneCost(s.sys.ba)
  }

  lemma {:induction false} LaneCostConcat(a: seq<Packet>, b: seq<Packet>)
    ensures LaneCost(a + b) == LaneCost(a) + LaneCost(b)
  {
    if a == [] {
      assert a + b == b;
    } else {
      LaneCostConcat(a[1..], b);
      assert (a + b)[1..] == a[1..] + b;
    }
  }

  lemma QueueCosts(me: Peer, inn: seq<Packet>, a: Action)
    requires Can(me, inn, a) && SenderOk(me.sent, me.pc)
    requires a.QueueSmall? || a.QueueRequest? || a.QueueChunk?
    ensures var m := Act(me, inn, a);
            m.inn == inn && PeerCost(m.peer) + LaneCost(m.queued) == PeerCost(me) - 1
  {
    var m := Current(me.sent);
    var p := Act(me, inn, a).queued[0];
    assert [p][1..] == [] && LaneCost([p]) == if IsRequest(p) then 4 else 1;
    if a.QueueChunk? {
      var end := ChunkEnd(m, me.pc.off);
      assert |ChunkFrames(m, me.pc.off)| == 1 + |ChunkFrames(m, end)|;
      assert end == |m| ==> ChunkFrames(m, end) == [];
    }
  }

  lemma ReceiveCosts(me: Peer, inn: seq<Packet>)
    requires Can(me, inn, Receive) && Act(me, inn, Receive).peer.task.running
    ensures var m := Act(me, inn, Receive);
            m.queued == [] && PeerCost(m.peer) + LaneCost(m.inn) == PeerCost(me) + LaneCost(inn) - 1
  {
    var p, e := inn[0], OnFrame(me.task, inn[0].frame);
    assert e.task.acquired == me.task.acquired;
    assert |e.task.waiting| == |me.task.waiting| + if IsRequest(p) then 1 else 0;
    assert PcCost(Took(me, p)) == PcCost(me);
  }

  lemma TaskCosts(me: Peer, inn: seq<Packet>, a: Action)
    requires Can(me, inn, a) && Act(me, inn, a).peer.task.running
    requires a.SemaphoreServes? || a.HandleRemotePermit?
    ensures var m := Act(me, inn, a);
            m.inn == inn && PeerCost(m.peer) + LaneCost(m.queued) == PeerCost(me) - 1
  {
    var m := Act(me, inn, a);
    if a.HandleRemotePermit? {
      assert m.queued != [] && m.queued[1..] == [];
    }
    assert PcCost(m.peer) == PcCost(me);
  }

  lemma AwaitCosts(me: Peer, other: Peer, out: seq<Packet>, inn: seq<Packet>, a: Action)
    requires Can(me, inn, a) && (a.QueueAwaitPermit? || a.HandleAwaitPermit?)
    requires InStep(View(me, other, out, inn)) && Sane(me) && me.task.running
    ensures PeerCost(Act(me, inn, a).peer) == PeerCost(me) - 1
  {
  }

  /** Whatever the action, it leaves one less to do; giving up leaves even less. */
  lemma ActCosts(me: Peer, other: Peer, out: seq<Packet>, inn: seq<Packet>, todo: seq<Msg>, a: Action)
    requires LiveCan(me, inn, todo, a) && Act(me, inn, a).peer.task.running
    requires SenderOk(me.sent, me.pc) && InStep(View(me, other, out, inn)) && Sane(me) && me.task.running
    ensures
      var m := Act(me, inn, a);
      var now := TodoCost(Rest(me.pc, todo, a)) + PeerCost(m.peer) + LaneCost(m.inn) + LaneCost(out + m.queued);
      var was := TodoCost(todo) + PeerCost(me) + LaneCost(inn) + LaneCost(out);
      if a.GiveUp? then now < was else now == was - 1
  {
    LaneCostConcat(out, Act(me, inn, a).queued);
    match a
    case Receive => ReceiveCosts(me, inn);
    case QueueSmall => QueueCosts(me, inn, a);
    case QueueRequest => QueueCosts(me, inn, a);
    case QueueChunk => QueueCosts(me, inn, a);
    case SemaphoreServes => TaskCosts(me, inn, a);
    case HandleRemotePermit => TaskCosts(me, inn, a);
    case QueueAwaitPermit => AwaitCosts(me, other, out, inn, a);
    case HandleAwaitPermit => AwaitCosts(me, other, out, inn, a);
    case Begin(m) => assert Current(me.sent + [m]) == m;
    case GiveUp =>
  }

  lemma AKeeps(s: Live, s': Live, a: Action, allA: seq<Msg>, allB: seq<Msg>)
    requires LiveInv(s, allA, allB) && LiveNextA(s, s', a)
    ensures LiveInv(s', allA, allB) && s'.sys.a.task.running
  {
    var y := s.sys;
    ActKeepsExact(y.a, y.b, y.ab, y.ba, a);
    PermitStaysHeld(y.a, y.ba, a);
    ActKeepsPlan(y.a, y.ba, allA, s.keptA, s.todoA, a);
  }

  lemma ACosts(s: Live, s': Live, a: Action, allA: seq<Msg>, allB: seq<Msg>)
    requires LiveInv(s, allA, allB) && LiveNextA(s, s', a) && s'.sys.a.task.running
    ensures if a.GiveUp? then Measure(s') < Measure(s) else Measure(s') == Measure(s) - 1
  {
    var y := s.sys;
    ActCosts(y.a, y.b, y.ab, y.ba, s.todoA, a);
  }

  lemma BKeeps(s: Live, s': Live, a: Action, allA: seq<Msg>, allB: seq<Msg>)
    requires LiveInv(s, allA, allB) && LiveNextB(s, s', a)
    ensures LiveInv(s', allA, allB) && s'.sys.b.task.running
  {
    var y := s.sys;
    ActKeepsExact(y.b, y.a, y.ba, y.ab, a);
    PermitStaysHeld(y.b, y.ab, a);
    ActKeepsPlan(y.b, y.ab, allB, s.keptB, s.todoB, a);
  }

  lemma BCosts(s: Live, s': Live, a: Action, allA: seq<Msg>, allB: seq<Msg>)
    requires LiveInv(s, allA, allB) && LiveNextB(s, s', a) && s'.sys.b.task.running
    ensures if a.GiveUp? then Measure(s') < Measure(s) else Measure(s') == Measure(s) - 1
  {
    var y := s.sys;
    ActCosts(y.b, y.a, y.ba, y.ab, s.todoB, a);
  }

  /** Every step keeps both directions exact and leaves fewer steps to the end. */
  lemma LiveStepCounts(s: Live, s': Live, allA: seq<Msg>, allB: seq<Msg>)
    requires LiveInv(s, allA, allB) && LiveNext(s, s')
    ensures LiveInv(s', allA, allB) && Measure(s') < Measure(s)
  {
    if a :| LiveNextA(s, s', a) {
      AKeeps(s, s', a, allA, allB);
      ACosts(s, s', a, allA, allB);
    } else {
      var a :| LiveNextB(s, s', a);
      BKeeps(s, s', a, allA, allB);
      BCosts(s, s', a, allA, allB);
    }
  }

  // ----- runs

  function NewLive(todoA: seq<Msg>, todoB: seq<Msg>): Live {
    Live(INIT_SYS, todoA, todoB, [], [])
  }

  ghost predicate LiveBehavior(t: seq<Live>) {
    && t != []
    && t[0] == NewLive(t[0].todoA, t[0].todoB)
    && forall i :: 0 <= i < |t| - 1 ==> LiveNext(t[i], t[i + 1])
  }

  lemma LiveInvInit(todoA: seq<Msg>, todoB: seq<Msg>)
    ensures LiveInv(NewLive(todoA, todoB), todoA, todoB)
  {
    InvInit();
    ExactInit();
    InitialView();
    assert todoA[0..] == todoA && todoB[0..] == todoB;
  }

  lemma {:induction false} LiveBehaviorKeeps(t: seq<Live>, n: nat)
    requires LiveBehavior(t) && n < |t|
    ensures LiveInv(t[n], t[0].todoA, t[0].todoB) && Measure(t[n]) <= Measure(t[0]) - n
  {
    if n == 0 {
      LiveInvInit(t[0].todoA, t[0].todoB);
    } else {
      LiveBehaviorKeeps(t, n - 1);
      LiveStepCounts(t[n - 1], t[n], t[0].todoA, t[0].todoB);
    }
  }

  /**
   However the two peers' steps interleave, no decoder fails and each end has delivered a prefix
   of the messages the other has sent, which are those whose send was not given up.
   */
  lemma DeliveredIsPrefix(t: seq<Live>, n: nat)
    requires LiveBehavior(t) && n < |t|
    ensures
      var s := t[n].sys;
      && s.a.task.running && !s.a.task.dec.didError && s.b.task.running && !s.b.task.dec.didError
      && |t[n].keptA| <= |t[0].todoA| && s.b.task.delivered <= s.a.sent == Kept(t[0].todoA, t[n].keptA)
      && |t[n].keptB| <= |t[0].todoB| && s.a.task.delivered <= s.b.sent == Kept(t[0].todoB, t[n].keptB)
  {
    LiveBehaviorKeeps(t, n);
    LiveInvMeans(t[n], t[0].todoA, t[0].todoB);
  }

  lemma LiveInvMeans(s: Live, allA: seq<Msg>, allB: seq<Msg>)
    requires LiveInv(s, allA, allB)
    ensures s.sys.a.task.running && !s.sys.a.task.dec.didError && s.sys.b.task.running && !s.sys.b.task.dec.didError
    ensures |s.keptA| <= |allA| && s.sys.b.task.delivered <= s.sys.a.sent == Kept(allA, s.keptA)
    ensures |s.keptB| <= |allB| && s.sys.a.task.delivered <= s.sys.b.sent == Kept(allB, s.keptB)
  {
    ExactMeans(View(s.sys.a, s.sys.b, s.sys.ab, s.sys.ba));
    ExactMeans(View(s.sys.b, s.sys.a, s.sys.ba, s.sys.ab));
  }

  lemma ExactMeans(v: Dir)
    requires Exact(v)
    ensures v.txAlive && v.rxAlive && v.delivered <= v.sent
  {
  }

  /** If no send was given up, all messages are kept. */
  lemma {:induction false} AllKept(all: seq<Msg>, kept: seq<bool>)
    requires |kept| <= |all| && forall i :: 0 <= i < |kept| ==> kept[i]
    ensures Kept(all, kept) == all[..|kept|]
  {
    if kept != [] {
      AllKept(all, kept[..|kept| - 1]);
    }
  }
}
