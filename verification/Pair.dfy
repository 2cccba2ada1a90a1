/**
 Two peers that frame messages for each other over one FIFO lane each way. Data frames, permit
 requests and the grants for the other direction share a lane. A step of a peer is a step (or
 nothing) of each of the two directions, so what a direction keeps, the pair keeps.
 */
module Pair {
  import opened Core
  import opened Header
  import opened Encoder
  import opened Decoder
  import opened Framed
  import opened Direction

  /** The sending task and the command task of one peer; the last three fields are history. */
  datatype Peer = Peer(
    sent: seq<Msg>,
    pc: Pc,
    regs: seq<nat>,
    task: Task,
    lastMsg: int,
    lastEnd: nat,
    order: seq<nat>)

  const INIT_PEER := Peer([], Unlocked, [], INIT_TASK, -2, 0, [])

  datatype Action =
    | Begin(m: Msg)
    | QueueSmall
    | QueueAwaitPermit
    | HandleAwaitPermit
    | QueueRequest
    | QueueChunk
    | GiveUp
    | Receive
    | SemaphoreServes
    | HandleRemotePermit
    | Stop

  predicate Can(me: Peer, inn: seq<Packet>, a: Action) {
    match a
    case Begin(m) => me.pc == Unlocked && Encodable(m)
    case QueueSmall => me.pc == PutSmallNext && me.sent != [] && IsSmall(Current(me.sent))
    case QueueAwaitPermit => me.pc == AskRegNext && me.sent != []
    case HandleAwaitPermit => me.task.running && me.regs != []
    case QueueRequest => me.pc == PutReqNext && me.sent != [] && Encodable(Current(me.sent))
    case QueueChunk => me.pc.ChunksFrom? && me.sent != [] && me.pc.off < |Current(me.sent)|
    case GiveUp => true
    case Receive => me.task.running && inn != []
    case SemaphoreServes => me.task.waiting != []
    case HandleRemotePermit => me.task.running && me.task.acquired != []
    case Stop => true
  }

  /** A peer after an action, what is left of its incoming lane, and what it queued. */
  datatype Move = Move(peer: Peer, inn: seq<Packet>, queued: seq<Packet>)

  function Act(me: Peer, inn: seq<Packet>, a: Action): Move
    requires Can(me, inn, a)
  {
    var k := |me.sent| - 1;
    match a
    case Begin(m) =>
      Move(me.(sent := me.sent + [m], pc := if IsSmall(m) then PutSmallNext else AskRegNext), inn, [])
    case QueueSmall => Move(me.(pc := Unlocked), inn, [SmallPacket(Current(me.sent), k)])
    case QueueAwaitPermit => Move(me.(regs := me.regs + [k], pc := WaitReg), inn, [])
    case HandleAwaitPermit =>
      var e := OnAwaitPermit(me.task, me.regs[0]);
      Move(me.(task := e.task, regs := me.regs[1..],
               pc := if me.pc == WaitReg && e.registered == Some(k) then PutReqNext else me.pc), inn, [])
    case QueueRequest => Move(me.(pc := WaitGrant), inn, [RequestPacket(Current(me.sent), k)])
    case QueueChunk =>
      var m := Current(me.sent);
      var end := ChunkEnd(m, me.pc.off);
      Move(me.(pc := if end == |m| then Unlocked else ChunksFrom(end)), inn, [ChunkPacket(m, k, me.pc.off)])
    case GiveUp => Move(me.(pc := Unlocked, sent := AfterGivingUp(me.sent, me.pc)), inn, [])
    case Receive => Move(Took(me, inn[0]), inn[1..], [])
    case SemaphoreServes => Move(me.(task := OnAcquire(me.task)), inn, [])
    case HandleRemotePermit =>
      var e := OnRemotePermit(me.task);
      Move(me.(task := e.task), inn,
           if e.reply.Some? then [Packet(e.reply.value, me.lastMsg, 0, 0)] else [])
    case Stop => Move(me.(task := me.task.(running := false)), inn, [])
  }

  /** The command task handles the next frame; `send_inner` may wake. */
  function Took(me: Peer, p: Packet): Peer {
    var e := OnFrame(me.task, p.frame);
    var k := |me.sent| - 1;
    var woke := me.(task := e.task,
                    pc := if me.pc == WaitGrant && e.woken == Some(k) then ChunksFrom(0) else me.pc);
    if IsGrant(p) || !e.task.running then woke
    else woke.(lastMsg := p.msg, lastEnd := p.end,
               order := if |e.task.delivered| > |me.task.delivered|
                        then me.order + [if p.msg >= 0 then p.msg else 0] else me.order)
  }

  /** The frames of the current message that `send_inner` has yet to queue. */
  function FramesLeft(me: Peer): seq<Frame>
    requires SenderOk(me.sent, me.pc)
  {
    if me.pc == Unlocked then []
    else if me.pc == PutSmallNext then [SmallFrame(Current(me.sent))]
    else if me.pc == WaitGrant then ChunkFrames(Current(me.sent), 0)
    else if me.pc.ChunksFrom? then ChunkFrames(Current(me.sent), me.pc.off)
    else MessageFrames(Current(me.sent))
  }

  function FramesOf(queued: seq<Packet>): seq<Frame> {
    if queued == [] then [] else [queued[0].frame] + FramesOf(queued[1..])
  }

  /**
   The stepped sender is `send_inner`: beginning a message owes all its frames, each later step
   queues the next of them and no other, and only giving up drops the rest.
   */
  lemma StepsFollowSendInner(me: Peer, inn: seq<Packet>, a: Action)
    requires Can(me, inn, a) && SenderOk(me.sent, me.pc) && !a.HandleRemotePermit?
    ensures
      var m := Act(me, inn, a);
      && SenderOk(m.peer.sent, m.peer.pc)
      && if a.Begin? then FramesLeft(m.peer) == MessageFrames(a.m) && m.queued == []
         else if a.GiveUp? then FramesLeft(m.peer) == [] && m.queued == []
         else FramesLeft(me) == FramesOf(m.queued) + FramesLeft(m.peer)
  {
    if a.QueueSmall? || a.QueueRequest? || a.QueueChunk? {
      QueueFollows(me, inn, a);
    } else {
      assert [] + FramesLeft(me) == FramesLeft(me);
    }
  }

  lemma QueueFollows(me: Peer, inn: seq<Packet>, a: Action)
    requires Can(me, inn, a) && SenderOk(me.sent, me.pc) && (a.QueueSmall? || a.QueueRequest? || a.QueueChunk?)
    ensures
      var m := Act(me, inn, a);
      SenderOk(m.peer.sent, m.peer.pc) && FramesLeft(me) == FramesOf(m.queued) + FramesLeft(m.peer)
  {
    var q := Act(me, inn, a).queued;
    assert q[1..] == [] && FramesOf(q) == [q[0].frame];
    if a.QueueChunk? {
      assert ChunkFrames(Current(me.sent), |Current(me.sent)|) == [];
    }
  }

  // ----- the two directions of a pair

  function DataOf(lane: seq<Packet>): (s: seq<Packet>) {
    if lane == [] then []
    else if IsGrant(lane[0]) then DataOf(lane[1..]) else [lane[0]] + DataOf(lane[1..])
  }

  function GrantsOf(lane: seq<Packet>): (s: seq<Packet>) {
    if lane == [] then []
    else if IsGrant(lane[0]) then [lane[0]] + GrantsOf(lane[1..]) else GrantsOf(lane[1..])
  }

  lemma {:induction false} LaneConcat(a: seq<Packet>, b: seq<Packet>)
    ensures DataOf(a + b) == DataOf(a) + DataOf(b)
    ensures GrantsOf(a + b) == GrantsOf(a) + GrantsOf(b)
  {
    if a == [] {
      assert a + b == b;
    } else {
      LaneConcat(a[1..], b);
      assert (a + b)[1..] == a[1..] + b;
      ConcatAssoc([a[0]], DataOf(a[1..]), DataOf(b));
      ConcatAssoc([a[0]], GrantsOf(a[1..]), GrantsOf(b));
    }
  }

  lemma LaneSnoc(lane: seq<Packet>, p: Packet)
    ensures DataOf(lane + [p]) == if IsGrant(p) then DataOf(lane) else DataOf(lane) + [p]
    ensures GrantsOf(lane + [p]) == if IsGrant(p) then GrantsOf(lane) + [p] else GrantsOf(lane)
  {
    LaneConcat(lane, [p]);
    assert DataOf([p]) == if IsGrant(p) then [] else [p];
    assert GrantsOf([p]) == if IsGrant(p) then [p] else [];
  }

  /** The direction from `from` to `to`. */
  function View(from: Peer, to: Peer, out: seq<Packet>, back: seq<Packet>): Dir {
    Dir(from.sent, from.pc, from.regs, from.task.dec.tx, from.task.running,
        DataOf(out), GrantsOf(back),
        to.task.dec.rx, to.task.running, to.lastMsg, to.lastEnd,
        to.task.waiting, to.task.acquired, to.task.delivered, to.order)
  }

  /** The decoder of a running task has not failed. */
  predicate Sane(p: Peer) {
    p.task.running ==> !p.task.dec.didError
  }

  /** What an action does in the direction the peer sends in. */
  function SendingStep(me: Peer, inn: seq<Packet>, a: Action): Step
    requires Can(me, inn, a)
  {
    match a
    case Begin(m) => Start(m)
    case QueueSmall => PutSmall
    case QueueAwaitPermit => AskReg
    case HandleAwaitPermit => Register
    case QueueRequest => PutRequest
    case QueueChunk => PutChunk
    case GiveUp => Cancel
    case Receive =>
      if IsGrant(inn[0]) then RecvGrant
      else if OnFrame(me.task, inn[0].frame).task.running then Stutter else DieTx
    case SemaphoreServes => Stutter
    case HandleRemotePermit => if OnRemotePermit(me.task).task.running then Stutter else DieTx
    case Stop => DieTx
  }

  /** What an action does in the direction the peer receives in. */
  function ReceivingStep(me: Peer, inn: seq<Packet>, a: Action): Step
    requires Can(me, inn, a)
  {
    match a
    case HandleAwaitPermit => if OnAwaitPermit(me.task, me.regs[0]).task.running then Stutter else DieRx
    case Receive =>
      if !IsGrant(inn[0]) then RecvData
      else if OnFrame(me.task, inn[0].frame).task.running then Stutter else DieRx
    case SemaphoreServes => Acquire
    case HandleRemotePermit => Permit
    case Stop => DieRx
    case _ => Stutter
  }

  /** Both directions make the step the action stands for. */
  predicate ViewsMove(me: Peer, other: Peer, out: seq<Packet>, inn: seq<Packet>, a: Action)
    requires Can(me, inn, a)
  {
    var m := Act(me, inn, a);
    var v, step := View(me, other, out, inn), SendingStep(me, inn, a);
    var v', step' := View(other, me, inn, out), ReceivingStep(me, inn, a);
    && Sane(m.peer)
    && Enabled(v, step) && View(m.peer, other, out + m.queued, m.inn) == Apply(v, step)
    && Enabled(v', step') && View(other, m.peer, m.inn, out + m.queued) == Apply(v', step')
  }

  /** A decode call touches one half of the decoder, and a failed one neither. */
  lemma DataTouchesRx(t: Task, p: Packet)
    requires t.running && !t.dec.didError && !IsGrant(p)
    ensures
      var o, e := RxStep(t.dec.rx, p.frame), OnFrame(t, p.frame);
      && e.woken == None && e.task.dec.tx == t.dec.tx && e.task.acquired == t.acquired
      && (e.task.running <==> o.result.Ok?) && (e.task.dec.didError <==> o.result.Err?)
      && (if o.result.Err? then e.task == t.(running := false, dec := e.task.dec) && e.task.dec.rx == o.rx == t.dec.rx
          else e.task.dec.rx == o.rx
               && e.task.delivered == (if o.result.value.Message? then t.delivered + [o.result.value.msg] else t.delivered)
               && e.task.waiting == (if o.result.value.RemotePermitRequest? then t.waiting + [o.result.value.len] else t.waiting))
  {
  }

  lemma ReceiveDataViews(me: Peer, other: Peer, out: seq<Packet>, inn: seq<Packet>)
    requires Can(me, inn, Receive) && Sane(me) && !IsGrant(inn[0])
    ensures ViewsMove(me, other, out, inn, Receive)
  {
    assert DataOf(inn)[1..] == DataOf(inn[1..]) && GrantsOf(inn) == GrantsOf(inn[1..]);
    assert out + [] == out;
    DataTouchesRx(me.task, inn[0]);
  }

  lemma ReceiveGrantViews(me: Peer, other: Peer, out: seq<Packet>, inn: seq<Packet>)
    requires Can(me, inn, Receive) && Sane(me) && IsGrant(inn[0])
    ensures ViewsMove(me, other, out, inn, Receive)
  {
    assert GrantsOf(inn)[1..] == GrantsOf(inn[1..]) && DataOf(inn) == DataOf(inn[1..]);
    assert out + [] == out;
  }

  lemma AwaitViews(me: Peer, other: Peer, out: seq<Packet>, inn: seq<Packet>)
    requires Can(me, inn, HandleAwaitPermit) && Sane(me)
    ensures ViewsMove(me, other, out, inn, HandleAwaitPermit)
  {
    assert out + [] == out;
  }

  lemma LocalViews(me: Peer, other: Peer, out: seq<Packet>, inn: seq<Packet>, a: Action)
    requires Can(me, inn, a) && Sane(me)
    requires a.Begin? || a.QueueAwaitPermit? || a.GiveUp? || a.SemaphoreServes? || a.Stop?
    ensures ViewsMove(me, other, out, inn, a)
  {
    assert out + [] == out;
  }

  lemma QueueViews(me: Peer, other: Peer, out: seq<Packet>, inn: seq<Packet>, a: Action)
    requires Can(me, inn, a) && Sane(me) && (a.QueueSmall? || a.QueueRequest? || a.QueueChunk?)
    ensures ViewsMove(me, other, out, inn, a)
  {
    LaneSnoc(out, Act(me, inn, a).queued[0]);
  }

  /** A queued permit is for the length the receiver awaits. */
  lemma PermitFits(v: Dir)
    requires Inv(v) && Enabled(v, Permit)
    ensures v.rx.state == RemoteAwaitingPermit(v.acquired[0]) && v.acquired[0] <= MAX_PAYLOAD
  {
    assert (v.waiting + v.acquired)[|v.waiting|] == v.acquired[0];
  }

  lemma PermitViews(me: Peer, other: Peer, out: seq<Packet>, inn: seq<Packet>)
    requires Can(me, inn, HandleRemotePermit) && Sane(me)
    requires me.task.dec.rx.state == RemoteAwaitingPermit(me.task.acquired[0])
    requires me.task.acquired[0] <= MAX_PAYLOAD
    ensures ViewsMove(me, other, out, inn, HandleRemotePermit)
  {
    LaneSnoc(out, GrantPacket(me.task.acquired[0], me.lastMsg));
  }

  /** A peer's action is a step of both directions. */
  lemma ActIsStep(me: Peer, other: Peer, out: seq<Packet>, inn: seq<Packet>, a: Action)
    requires Can(me, inn, a) && Sane(me)
    requires Inv(View(other, me, inn, out))
    ensures ViewsMove(me, other, out, inn, a)
  {
    match a
    case Receive => if IsGrant(inn[0]) { ReceiveGrantViews(me, other, out, inn); } else { ReceiveDataViews(me, other, out, inn); }
    case HandleRemotePermit =>
      PermitFits(View(other, me, inn, out));
      PermitViews(me, other, out, inn);
    case QueueSmall => QueueViews(me, other, out, inn, a);
    case QueueRequest => QueueViews(me, other, out, inn, a);
    case QueueChunk => QueueViews(me, other, out, inn, a);
    case HandleAwaitPermit => AwaitViews(me, other, out, inn);
    case _ => LocalViews(me, other, out, inn, a);
  }

  lemma MoveKeepsInv(me: Peer, other: Peer, out: seq<Packet>, inn: seq<Packet>, a: Action)
    requires Can(me, inn, a) && ViewsMove(me, other, out, inn, a)
    requires Inv(View(me, other, out, inn)) && Inv(View(other, me, inn, out))
    ensures
      var m := Act(me, inn, a);
      && Sane(m.peer)
      && Inv(View(m.peer, other, out + m.queued, m.inn)) && Inv(View(other, m.peer, m.inn, out + m.queued))
  {
    StepKeepsInv(View(me, other, out, inn), SendingStep(me, inn, a));
    StepKeepsInv(View(other, me, inn, out), ReceivingStep(me, inn, a));
  }

  // ----- runs of the pair

  datatype Sys = Sys(a: Peer, b: Peer, ab: seq<Packet>, ba: seq<Packet>)

  /** Both peers have queued their version frame. */
  const INIT_SYS := Sys(INIT_PEER, INIT_PEER, [VERSION_PACKET], [VERSION_PACKET])

  ghost predicate ANext(s: Sys, s': Sys, a: Action) {
    Can(s.a, s.ba, a) && var m := Act(s.a, s.ba, a); s' == Sys(m.peer, s.b, s.ab + m.queued, m.inn)
  }

  ghost predicate BNext(s: Sys, s': Sys, a: Action) {
    Can(s.b, s.ab, a) && var m := Act(s.b, s.ab, a); s' == Sys(s.a, m.peer, m.inn, s.ba + m.queued)
  }

  ghost predicate Next(s: Sys, s': Sys) {
    || (exists a :: ANext(s, s', a))
    || (exists a :: BNext(s, s', a))
    || (Lossy(s.ab, s'.ab) && s' == s.(ab := s'.ab))
    || (Lossy(s.ba, s'.ba) && s' == s.(ba := s'.ba))
  }

  ghost predicate SysInv(s: Sys) {
    Sane(s.a) && Sane(s.b) && Inv(View(s.a, s.b, s.ab, s.ba)) && Inv(View(s.b, s.a, s.ba, s.ab))
  }

  lemma CutMiddle<T>(x: seq<T>, y: seq<T>, z: seq<T>)
    ensures var s := (x + y) + z; s[..|x|] + s[|x| + |y|..] == x + z
  {
  }

  /** A stretch cut from a lane is a stretch cut from its data and one from its grants. */
  lemma LaneCut(lane: seq<Packet>, i: nat, j: nat)
    requires i <= j <= |lane|
    ensures var x, y := |DataOf(lane[..i])|, |DataOf(lane[i..j])|;
            x + y <= |DataOf(lane)| && DataOf(lane[..i] + lane[j..]) == DataOf(lane)[..x] + DataOf(lane)[x + y..]
    ensures var x, y := |GrantsOf(lane[..i])|, |GrantsOf(lane[i..j])|;
            x + y <= |GrantsOf(lane)| && GrantsOf(lane[..i] + lane[j..]) == GrantsOf(lane)[..x] + GrantsOf(lane)[x + y..]
  {
    var x, y, z := lane[..i], lane[i..j], lane[j..];
    assert lane == (x + y) + z;
    LaneConcat(x + y, z);
    LaneConcat(x, y);
    LaneConcat(x, z);
    CutMiddle(DataOf(x), DataOf(y), DataOf(z));
    CutMiddle(GrantsOf(x), GrantsOf(y), GrantsOf(z));
  }

  /** Losing a stretch of a lane loses a stretch of each direction that uses it. */
  lemma DataLossView(from: Peer, to: Peer, out: seq<Packet>, back: seq<Packet>, i: nat, j: nat)
    requires i <= j <= |out|
    ensures
      var x, y := |DataOf(out[..i])|, |DataOf(out[i..j])|;
      var v := View(from, to, out, back);
      Enabled(v, LoseData(x, x + y)) && Apply(v, LoseData(x, x + y)) == View(from, to, out[..i] + out[j..], back)
  {
    LaneCut(out, i, j);
  }

  lemma GrantLossView(from: Peer, to: Peer, out: seq<Packet>, back: seq<Packet>, i: nat, j: nat)
    requires i <= j <= |out|
    ensures
      var x, y := |GrantsOf(out[..i])|, |GrantsOf(out[i..j])|;
      var v := View(to, from, back, out);
      Enabled(v, LoseGrants(x, x + y)) && Apply(v, LoseGrants(x, x + y)) == View(to, from, back, out[..i] + out[j..])
  {
    LaneCut(out, i, j);
  }

  lemma StepGivesInv(v: Dir, step: Step, v': Dir)
    requires Inv(v) && Enabled(v, step) && Apply(v, step) == v'
    ensures Inv(v')
  {
    StepKeepsInv(v, step);
  }

  lemma LossOfData(from: Peer, to: Peer, out: seq<Packet>, back: seq<Packet>, i: nat, j: nat)
    requires i <= j <= |out| && Inv(View(from, to, out, back))
    ensures Inv(View(from, to, out[..i] + out[j..], back))
  {
    DataLossView(from, to, out, back, i, j);
    var d := |DataOf(out[..i])|;
    StepGivesInv(View(from, to, out, back), LoseData(d, d + |DataOf(out[i..j])|), View(from, to, out[..i] + out[j..], back));
  }

  lemma LossOfGrants(from: Peer, to: Peer, out: seq<Packet>, back: seq<Packet>, i: nat, j: nat)
    requires i <= j <= |out| && Inv(View(to, from, back, out))
    ensures Inv(View(to, from, back, out[..i] + out[j..]))
  {
    GrantLossView(from, to, out, back, i, j);
    var g := |GrantsOf(out[..i])|;
    StepGivesInv(View(to, from, back, out), LoseGrants(g, g + |GrantsOf(out[i..j])|), View(to, from, back, out[..i] + out[j..]));
  }

  lemma LossIsStep(from: Peer, to: Peer, out: seq<Packet>, back: seq<Packet>, out': seq<Packet>)
    requires Inv(View(from, to, out, back)) && Inv(View(to, from, back, out)) && Lossy(out, out')
    ensures Inv(View(from, to, out', back)) && Inv(View(to, from, back, out'))
  {
    var i, j :| 0 <= i <= j <= |out| && out' == out[..i] + out[j..];
    LossOfData(from, to, out, back, i, j);
    LossOfGrants(from, to, out, back, i, j);
  }

  lemma NextKeepsInv(s: Sys, s': Sys)
    requires SysInv(s) && Next(s, s')
    ensures SysInv(s')
  {
    if a :| ANext(s, s', a) {
      ActIsStep(s.a, s.b, s.ab, s.ba, a);
      MoveKeepsInv(s.a, s.b, s.ab, s.ba, a);
    } else if a :| BNext(s, s', a) {
      ActIsStep(s.b, s.a, s.ba, s.ab, a);
      MoveKeepsInv(s.b, s.a, s.ba, s.ab, a);
    } else if Lossy(s.ab, s'.ab) && s' == s.(ab := s'.ab) {
      LossIsStep(s.a, s.b, s.ab, s.ba, s'.ab);
    } else {
      LossIsStep(s.b, s.a, s.ba, s.ab, s'.ba);
    }
  }

  /** A run: it starts with two fresh peers and takes any steps. */
  ghost predicate Behavior(t: seq<Sys>) {
    t != [] && t[0] == INIT_SYS && forall i :: 0 <= i < |t| - 1 ==> Next(t[i], t[i + 1])
  }

  lemma InitialView()
    ensures View(INIT_PEER, INIT_PEER, [VERSION_PACKET], [VERSION_PACKET]) == INIT_DIR
  {
    assert [VERSION_PACKET][1..] == [] && DataOf([]) == [] && GrantsOf([]) == [];
  }

  lemma {:induction false} BehaviorKeepsInv(t: seq<Sys>, n: nat)
    requires Behavior(t) && n < |t|
    ensures SysInv(t[n])
  {
    if n == 0 {
      InvInit();
      InitialView();
    } else {
      BehaviorKeepsInv(t, n - 1);
      NextKeepsInv(t[n - 1], t[n]);
    }
  }

  /** Some messages of `sent`, each whole, in the order of sending. */
  ghost predicate Subsequence(delivered: seq<Msg>, sent: seq<Msg>) {
    exists order :: DeliveredInOrder(sent, delivered, order)
  }

  /**
   Over lanes that lose any frames, with sends abandoned anywhere and tasks stopped anywhere,
   the messages delivered at each end are a subsequence of those sent at the other: none is cut,
   spliced, repeated or reordered.
   */
  lemma DeliveredIsSubsequence(t: seq<Sys>, n: nat)
    requires Behavior(t) && n < |t|
    ensures Subsequence(t[n].b.task.delivered, t[n].a.sent)
    ensures Subsequence(t[n].a.task.delivered, t[n].b.sent)
  {
    BehaviorKeepsInv(t, n);
    assert DeliveredInOrder(t[n].a.sent, t[n].b.task.delivered, t[n].b.order);
    assert DeliveredInOrder(t[n].b.sent, t[n].a.task.delivered, t[n].a.order);
  }

  /**
   A grant on its way to a peer answers the one request that peer has registered and carries the
   length of its message, so `send_inner` may ignore the length.
   */
  ghost predicate GrantsAnswer(p: Peer, inn: seq<Packet>) {
    forall q :: q in GrantsOf(inn) ==>
      && p.task.dec.tx == Tx(true, Some(if q.msg >= 0 then q.msg else 0))
      && 0 <= q.msg < |p.sent| && Encodable(p.sent[q.msg]) && q.frame.hdr == PermitGrant(|p.sent[q.msg]|)
  }

  /**
   The permit token: in each direction the requests under way, the permits awaited by the
   receiver and the grants under way are at most one, and none unless the sender wants a grant,
   whatever is lost, abandoned or stopped.
   */
  lemma PermitToken(t: seq<Sys>, n: nat)
    requires Behavior(t) && n < |t|
    ensures
      var s := t[n];
      && Tokens(View(s.a, s.b, s.ab, s.ba)) <= (if s.a.task.dec.tx.wantRemoteGrant then 1 else 0)
      && Tokens(View(s.b, s.a, s.ba, s.ab)) <= (if s.b.task.dec.tx.wantRemoteGrant then 1 else 0)
      && GrantsAnswer(s.a, s.ba) && GrantsAnswer(s.b, s.ab)
  {
    BehaviorKeepsInv(t, n);
    var s := t[n];
    OneTokenAtMost(View(s.a, s.b, s.ab, s.ba));
    OneTokenAtMost(View(s.b, s.a, s.ba, s.ab));
    TokenInHand(s.a, s.b, s.ab, s.ba);
    TokenInHand(s.b, s.a, s.ba, s.ab);
  }

  lemma TokenInHand(me: Peer, other: Peer, out: seq<Packet>, inn: seq<Packet>)
    requires Inv(View(me, other, out, inn))
    ensures GrantsAnswer(me, inn)
  {
    forall q | q in GrantsOf(inn)
      ensures q == GrantsOf(inn)[0]
    {
    }
  }
}
