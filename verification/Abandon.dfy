/**
 What giving up a send does to the sends after it. Given up early, before anything of the message
 was queued, nothing (module Lossless). Given up late, a registration, a request or half a message
 is left behind, and no later long message gets through, or no later message at all.
 */
module Abandon {
  import opened Core
  import opened Header
  import opened Encoder
  import opened Decoder
  import opened Framed
  import opened Direction
  import opened Pair
  import opened Lossless
  import Mesh

  /** Given up once the request was queued: the receiver waits for chunks that never come. */
  predicate AfterRequest(pc: Pc) {
    pc == WaitGrant || pc.ChunksFrom?
  }

  // ----- the registration is left behind: no later long message gets through, whatever is lost

  /** Messages from number m on are later ones. */
  predicate LongBlocked(s: Dir, m: nat) {
    && 0 < m <= |s.sent| && (s.pc != Unlocked ==> m < |s.sent|)
    && s.pc != PutReqNext && !AfterRequest(s.pc)
    && s.grants == [] && !s.rx.state.RemoteAwaitingPermit?
    && (forall p :: p in s.data ==> !IsRequest(p) && (IsChunkPacket(p) ==> p.msg < m))
    && (s.rx.state == ReceiveChunked ==> s.lastMsg < m)
    // the registration is handled, or next in line, or nothing is handled any more
    && (!s.txAlive || s.tx.wantRemoteGrant || (s.regs != [] && s.regs[0] == m - 1))
    && LaterAreSmall(s.sent, s.order, m)
  }

  predicate LaterAreSmall(sent: seq<Msg>, order: seq<nat>, m: nat) {
    forall i :: 0 <= i < |order| ==> order[i] < m || (order[i] < |sent| && IsSmall(sent[order[i]]))
  }

  lemma LongBlockedStarts(s: Dir)
    requires Inv(s) && Late(s.pc) && !AfterRequest(s.pc)
    requires s.pc == WaitReg ==> s.regs == [|s.sent| - 1] && !s.tx.wantRemoteGrant
    ensures LongBlocked(Apply(s, Cancel), |s.sent|)
  {
    NoToken(s.sent, s.pc, s.tx, s.data, s.grants, s.rx.state, s.lastMsg, s.lastEnd);
  }

  lemma LongBlockedPuts(s: Dir, m: nat)
    requires SenderOk(s.sent, s.pc) && LongBlocked(s, m) && Enabled(s, PutSmall)
    ensures LongBlocked(Apply(s, PutSmall), m)
  {
    var p := SmallPacket(Current(s.sent), |s.sent| - 1);
    assert forall q :: q in s.data + [p] ==> q in s.data || q == p;
  }

  lemma LongBlockedLoses(s: Dir, m: nat, i: nat, j: nat)
    requires LongBlocked(s, m) && Enabled(s, LoseData(i, j))
    ensures LongBlocked(Apply(s, LoseData(i, j)), m)
  {
    assert forall q :: q in s.data[..i] + s.data[j..] ==> q in s.data;
  }

  /** A second registration ends the command loop. */
  lemma LongBlockedRegisters(s: Dir, m: nat)
    requires LongBlocked(s, m) && Enabled(s, Register)
    ensures LongBlocked(Apply(s, Register), m)
  {
  }

  lemma LongBlockedSteps(s: Dir, m: nat, step: Step)
    requires SenderOk(s.sent, s.pc) && LongBlocked(s, m) && Enabled(s, step)
    requires step.Start? || step.Cancel?
    requires forall i :: 0 <= i < |s.order| ==> s.order[i] < |Apply(s, step).sent|
    ensures LongBlocked(Apply(s, step), m)
  {
  }

  lemma LongBlockedRest(s: Dir, m: nat, step: Step)
    requires LongBlocked(s, m) && Enabled(s, step)
    requires !step.RecvData? && !step.PutSmall? && !step.LoseData? && !step.Register? && !step.Start? && !step.Cancel?
    ensures LongBlocked(Apply(s, step), m)
  {
  }

  lemma LongBlockedTakesChunk(s: Dir, m: nat)
    requires LongBlocked(s, m) && Enabled(s, RecvData) && IsChunkPacket(s.data[0])
    ensures LongBlocked(Apply(s, RecvData), m)
  {
    assert s.data[0] in s.data && forall q :: q in s.data[1..] ==> q in s.data;
  }

  /** A frame that is no chunk is small, or the version. */
  lemma LongBlockedTakesSmall(s: Dir, m: nat)
    requires LongBlocked(s, m) && Enabled(s, RecvData) && !IsChunkPacket(s.data[0])
    requires Genuine(s.sent, s.data[0])
    ensures LongBlocked(Apply(s, RecvData), m)
  {
    assert s.data[0] in s.data && forall q :: q in s.data[1..] ==> q in s.data;
  }

  lemma LongBlockedReceives(s: Dir, m: nat)
    requires DataOk(s.sent, s.pc, s.data, s.lastMsg, s.lastEnd) && LongBlocked(s, m) && Enabled(s, RecvData)
    ensures LongBlocked(Apply(s, RecvData), m)
  {
    assert s.data[0] in s.data;
    if IsChunkPacket(s.data[0]) {
      LongBlockedTakesChunk(s, m);
    } else {
      LongBlockedTakesSmall(s, m);
    }
  }

  lemma OrderInRange(s: Dir)
    requires Inv(s)
    ensures forall i :: 0 <= i < |s.order| ==> s.order[i] < |s.sent|
  {
  }

  lemma LongBlockedStays(s: Dir, m: nat, step: Step)
    requires Inv(s) && LongBlocked(s, m) && Enabled(s, step)
    ensures LongBlocked(Apply(s, step), m)
  {
    if step.RecvData? {
      LongBlockedReceives(s, m);
    } else if step.PutSmall? {
      LongBlockedPuts(s, m);
    } else if step.LoseData? {
      LongBlockedLoses(s, m, step.i, step.j);
    } else if step.Register? {
      LongBlockedRegisters(s, m);
    } else if step.Start? || step.Cancel? {
      StepKeepsInv(s, step);
      OrderInRange(Apply(s, step));
      LongBlockedSteps(s, m, step);
    } else {
      LongBlockedRest(s, m, step);
    }
  }

  // ----- the request is left behind: without loss, no later message gets through

  /** Message k was given up with its chunks queued up to `off` at most. */
  predicate AllBlocked(s: Dir, k: nat, off: nat) {
    && k < |s.sent| && off < |s.sent[k]| && (s.pc != Unlocked ==> k + 1 < |s.sent|)
    && (forall p :: p in s.data && IsChunkPacket(p) && p.msg == k ==> p.end <= off)
    && (s.lastMsg == k ==> s.lastEnd <= off)
    && (forall i :: 0 <= i < |s.order| ==> s.order[i] < k)
    && (s.rxAlive ==> if s.lastMsg == k then Collecting(s.rx.state) else s.lastMsg < k && RequestAhead(s.data, k))
  }

  predicate RequestAhead(data: seq<Packet>, k: nat) {
    exists i :: 0 <= i < |data| && IsRequest(data[i]) && data[i].msg == k
  }

  /** Nothing but the abandoned message's own chunks fits a receiver that collects it. */
  lemma AllBlockedReceives(s: Dir, k: nat, off: nat)
    requires Inv(s) && AllBlocked(s, k, off) && Enabled(s, RecvData) && s.lastMsg == k
    ensures AllBlocked(Apply(s, RecvData), k, off)
  {
    var p := s.data[0];
    assert p in s.data && forall q :: q in s.data[1..] ==> q in s.data;
    assert Genuine(s.sent, p) && After(s.lastMsg, s.lastEnd, p);
    if IsChunkPacket(p) {
      ChunkIsCollected(s.sent, s.rx, s.lastMsg, s.lastEnd, p);
    }
  }

  lemma AllBlockedReaches(s: Dir, k: nat, off: nat)
    requires AllBlocked(s, k, off) && Enabled(s, RecvData) && s.lastMsg < k
    requires Genuine(s.sent, s.data[0]) && IsRequest(s.data[0]) && s.data[0].msg == k
    ensures AllBlocked(Apply(s, RecvData), k, off)
  {
    assert forall q :: q in s.data[1..] ==> q in s.data;
  }

  /** What taking a frame changes, whatever the decoder makes of it. */
  lemma TakeChanges(s: Dir)
    requires Enabled(s, RecvData)
    ensures
      var p, t := s.data[0], Apply(s, RecvData);
      && t.sent == s.sent && t.pc == s.pc && t.data == s.data[1..]
      && (t.rxAlive ==> t.lastMsg == p.msg && t.lastEnd == p.end)
      && (!t.rxAlive ==> t.lastMsg == s.lastMsg && t.lastEnd == s.lastEnd && t.order == s.order)
      && (t.order == s.order || t.order == s.order + [if p.msg >= 0 then p.msg else 0])
  {
  }

  /** Before the request, frames of earlier messages may still be delivered. */
  lemma AllBlockedPasses(s: Dir, t: Dir, k: nat, off: nat)
    requires AllBlocked(s, k, off) && s.data != [] && s.lastMsg < k
    requires s.data[0].msg < k && RequestAhead(s.data[1..], k)
    requires t.sent == s.sent && t.pc == s.pc && t.data == s.data[1..]
    requires if t.rxAlive then t.lastMsg == s.data[0].msg else t.lastMsg == s.lastMsg
    requires t.order == s.order || t.order == s.order + [if s.data[0].msg >= 0 then s.data[0].msg else 0]
    ensures 0 < k ==> AllBlocked(t, k, off)
  {
    assert forall q :: q in s.data[1..] ==> q in s.data;
  }

  lemma AllBlockedApproaches(s: Dir, k: nat, off: nat)
    requires DataOk(s.sent, s.pc, s.data, s.lastMsg, s.lastEnd) && AllBlocked(s, k, off)
    requires Enabled(s, RecvData) && s.lastMsg < k
    ensures AllBlocked(Apply(s, RecvData), k, off)
  {
    var p, rest := s.data[0], s.data[1..];
    assert p in s.data;
    var i :| 0 <= i < |s.data| && IsRequest(s.data[i]) && s.data[i].msg == k;
    if i == 0 {
      AllBlockedReaches(s, k, off);
    } else {
      assert rest[i - 1] == s.data[i] && After(p.msg, p.end, s.data[i]);
      TakeChanges(s);
      AllBlockedPasses(s, Apply(s, RecvData), k, off);
    }
  }

  lemma AllBlockedPuts(s: Dir, k: nat, off: nat, step: Step)
    requires SenderOk(s.sent, s.pc) && AllBlocked(s, k, off) && Enabled(s, step)
    requires step.PutSmall? || step.PutRequest? || step.PutChunk?
    ensures AllBlocked(Apply(s, step), k, off)
  {
    var t := Apply(s, step);
    var p := t.data[|s.data|];
    assert t.data == s.data + [p] && forall q :: q in t.data ==> q in s.data || q == p;
    if RequestAhead(s.data, k) {
      var i :| 0 <= i < |s.data| && IsRequest(s.data[i]) && s.data[i].msg == k;
      assert t.data[i] == s.data[i];
    }
  }

  lemma AllBlockedSteps(s: Dir, k: nat, off: nat, step: Step)
    requires SenderOk(s.sent, s.pc) && AllBlocked(s, k, off) && Enabled(s, step) && (step.Start? || step.Cancel?)
    ensures AllBlocked(Apply(s, step), k, off)
  {
  }

  lemma AllBlockedRest(s: Dir, k: nat, off: nat, step: Step)
    requires AllBlocked(s, k, off) && Enabled(s, step) && SenderOk(s.sent, s.pc)
    requires !step.RecvData? && !step.LoseData? && !step.PutSmall? && !step.PutRequest? && !step.PutChunk?
    requires !step.Start? && !step.Cancel?
    ensures AllBlocked(Apply(s, step), k, off)
  {
    assert Apply(s, step).data == s.data && Apply(s, step).order == s.order && Apply(s, step).sent == s.sent;
  }

  lemma AllBlockedStays(s: Dir, k: nat, off: nat, step: Step)
    requires Inv(s) && AllBlocked(s, k, off) && Enabled(s, step) && !step.LoseData?
    ensures AllBlocked(Apply(s, step), k, off)
  {
    if step.RecvData? && s.lastMsg == k {
      AllBlockedReceives(s, k, off);
    } else if step.RecvData? {
      AllBlockedApproaches(s, k, off);
    } else if step.PutSmall? || step.PutRequest? || step.PutChunk? {
      AllBlockedPuts(s, k, off, step);
    } else if step.Start? || step.Cancel? {
      AllBlockedSteps(s, k, off, step);
    } else {
      AllBlockedRest(s, k, off, step);
    }
  }

  /** How far the chunks of the current message were queued. */
  function Queued(pc: Pc): nat {
    if pc.ChunksFrom? then pc.off else 0
  }

  lemma AllBlockedStarts(s: Dir)
    requires Inv(s) && AfterRequest(s.pc) && s.rxAlive
    requires s.pc == WaitGrant ==> s.tx == Tx(true, Some(|s.sent| - 1)) && HasToken(s.data, s.grants, s.rx.state)
    ensures AllBlocked(Apply(s, Cancel), |s.sent| - 1, Queued(s.pc))
  {
    var k := |s.sent| - 1;
    assert forall p :: p in s.data && IsChunkPacket(p) && p.msg == k ==> p.end <= Queued(s.pc);
    if s.pc == WaitGrant && !s.rx.state.RemoteAwaitingPermit? && s.grants == [] {
      var p :| p in s.data && IsRequest(p);
      assert Claim(s.sent, s.pc, s.tx, s.data, s.lastMsg, s.lastEnd, p.msg);
      assert After(s.lastMsg, s.lastEnd, p) && RequestAhead(s.data, k);
    }
  }

  // ----- runs that go on after a send was given up

  /** A step of either end, whatever it is, without loss. */
  ghost predicate PairNext(s: Sys, s': Sys) {
    (exists a :: ANext(s, s', a)) || (exists a :: BNext(s, s', a))
  }

  ghost predicate Continues(t: seq<Sys>, s: Sys) {
    t != [] && t[0] == s && forall i :: 0 <= i < |t| - 1 ==> PairNext(t[i], t[i + 1])
  }

  function Swap(s: Sys): Sys {
    Sys(s.b, s.a, s.ba, s.ab)
  }

  /** The direction from end A to end B. */
  function Forth(s: Sys): Dir {
    View(s.a, s.b, s.ab, s.ba)
  }

  /** Nothing was lost, and no send was given up late. */
  ghost predicate Intact(s: Sys) {
    SysInv(s) && PermitHeld(s.a) && PermitHeld(s.b) && Exact(Forth(s)) && Exact(Forth(Swap(s)))
  }

  /** A state of a run without loss in which sends are given up early only, seen from either end. */
  ghost predicate Reachable(s: Sys) {
    exists u: seq<Live>, n: nat :: LiveBehavior(u) && 0 <= n < |u| && (s == u[n].sys || s == Swap(u[n].sys))
  }

  lemma ReachableIsIntact(s: Sys)
    requires Reachable(s)
    ensures Intact(s)
  {
    var u: seq<Live>, n: nat :| LiveBehavior(u) && 0 <= n < |u| && (s == u[n].sys || s == Swap(u[n].sys));
    LiveBehaviorKeeps(u, n);
  }

  /** End A gives up. */
  function GaveUp(s: Sys): Sys {
    s.(a := Act(s.a, s.ba, GiveUp).peer)
  }

  lemma GaveUpIsStep(s: Sys)
    ensures ANext(s, GaveUp(s), GiveUp) && Forth(GaveUp(s)) == Apply(Forth(s), Cancel)
  {
    assert s.ab + [] == s.ab;
  }

  lemma ActionsLoseNothing(me: Peer, inn: seq<Packet>, a: Action)
    requires Can(me, inn, a)
    ensures !SendingStep(me, inn, a).LoseData? && !ReceivingStep(me, inn, a).LoseData?
  {
  }

  lemma AInDirection(s: Sys, s': Sys, a: Action)
    requires ANext(s, s', a) && ViewsMove(s.a, s.b, s.ab, s.ba, a)
    ensures
      var step := SendingStep(s.a, s.ba, a);
      Enabled(Forth(s), step) && Forth(s') == Apply(Forth(s), step)
  {
  }

  lemma BInDirection(s: Sys, s': Sys, a: Action)
    requires BNext(s, s', a) && ViewsMove(s.b, s.a, s.ba, s.ab, a)
    ensures
      var step := ReceivingStep(s.b, s.ab, a);
      Enabled(Forth(s), step) && Forth(s') == Apply(Forth(s), step)
  {
  }

  lemma NextInDirection(s: Sys, s': Sys) returns (step: Step)
    requires SysInv(s) && PairNext(s, s')
    ensures Enabled(Forth(s), step) && Forth(s') == Apply(Forth(s), step) && !step.LoseData?
  {
    if a :| ANext(s, s', a) {
      ActIsStep(s.a, s.b, s.ab, s.ba, a);
      AInDirection(s, s', a);
      ActionsLoseNothing(s.a, s.ba, a);
      step := SendingStep(s.a, s.ba, a);
    } else {
      var a :| BNext(s, s', a);
      ActIsStep(s.b, s.a, s.ba, s.ab, a);
      BInDirection(s, s', a);
      ActionsLoseNothing(s.b, s.ab, a);
      step := ReceivingStep(s.b, s.ab, a);
    }
  }

  lemma PairKeepsInv(s: Sys, s': Sys)
    requires SysInv(s) && PairNext(s, s')
    ensures SysInv(s') && Inv(Forth(s)) && Inv(Forth(s'))
  {
    NextKeepsInv(s, s');
  }

  lemma {:induction false} StaysLongBlocked(t: seq<Sys>, s: Sys, m: nat, n: nat)
    requires Continues(t, s) && n < |t| && SysInv(s) && LongBlocked(Forth(s), m)
    ensures SysInv(t[n]) && LongBlocked(Forth(t[n]), m)
  {
    if n > 0 {
      StaysLongBlocked(t, s, m, n - 1);
      assert PairNext(t[n - 1], t[n - 1 + 1]);
      var step := NextInDirection(t[n - 1], t[n]);
      PairKeepsInv(t[n - 1], t[n]);
      LongBlockedStays(Forth(t[n - 1]), m, step);
    }
  }

  lemma {:induction false} StaysAllBlocked(t: seq<Sys>, s: Sys, k: nat, off: nat, n: nat)
    requires Continues(t, s) && n < |t| && SysInv(s) && AllBlocked(Forth(s), k, off)
    ensures SysInv(t[n]) && AllBlocked(Forth(t[n]), k, off)
  {
    if n > 0 {
      StaysAllBlocked(t, s, k, off, n - 1);
      assert PairNext(t[n - 1], t[n - 1 + 1]);
      var step := NextInDirection(t[n - 1], t[n]);
      PairKeepsInv(t[n - 1], t[n]);
      AllBlockedStays(Forth(t[n - 1]), k, off, step);
    }
  }

  /** The i-th message delivered to B is m, and A started to send it as number `from` or later. */
  predicate DeliversLater(s: Sys, from: nat, i: nat, m: Msg) {
    && i < |s.b.order| && i < |s.b.task.delivered| && s.b.task.delivered[i] == m
    && from <= s.b.order[i] < |s.a.sent| && s.a.sent[s.b.order[i]] == m
  }

  lemma GaveUpKeepsInv(s: Sys)
    requires SysInv(s)
    ensures SysInv(GaveUp(s))
  {
    GaveUpIsStep(s);
    assert PairNext(s, GaveUp(s));
    PairKeepsInv(s, GaveUp(s));
  }

  lemma GivenUpBeforeRequest(v: Dir)
    requires Inv(v) && Exact(v) && Late(v.pc) && !AfterRequest(v.pc)
    ensures LongBlocked(Apply(v, Cancel), |v.sent|)
  {
    LongBlockedStarts(v);
  }

  lemma GivenUpAfterRequest(v: Dir)
    requires Inv(v) && Exact(v) && AfterRequest(v.pc)
    ensures AllBlocked(Apply(v, Cancel), |v.sent| - 1, Queued(v.pc))
  {
    AllBlockedStarts(v);
  }

  lemma LongBlockedMeans(s: Sys, from: nat, i: nat, m: Msg)
    requires LongBlocked(Forth(s), from) && DeliversLater(s, from, i, m)
    ensures IsSmall(m)
  {
  }

  lemma AllBlockedMeans(s: Sys, k: nat, off: nat, i: nat, m: Msg)
    requires AllBlocked(Forth(s), k, off)
    ensures !DeliversLater(s, k + 1, i, m)
  {
  }

  lemma LongBlockedByGivingUp(s: Sys)
    requires Intact(s) && Late(s.a.pc) && !AfterRequest(s.a.pc)
    ensures LongBlocked(Forth(GaveUp(s)), |s.a.sent|)
  {
    GaveUpIsStep(s);
    GivenUpBeforeRequest(Forth(s));
  }

  lemma AllBlockedByGivingUp(s: Sys)
    requires Intact(s) && AfterRequest(s.a.pc)
    ensures AllBlocked(Forth(GaveUp(s)), |s.a.sent| - 1, Queued(s.a.pc))
  {
    GaveUpIsStep(s);
    GivenUpAfterRequest(Forth(s));
  }

  lemma LongBlockedRun(t: seq<Sys>, s: Sys, from: nat, n: nat, i: nat, m: Msg)
    requires SysInv(s) && LongBlocked(Forth(s), from)
    requires Continues(t, s) && n < |t| && DeliversLater(t[n], from, i, m)
    ensures IsSmall(m)
  {
    StaysLongBlocked(t, s, from, n);
    LongBlockedMeans(t[n], from, i, m);
  }

  lemma AllBlockedRun(t: seq<Sys>, s: Sys, k: nat, off: nat, n: nat, i: nat, m: Msg)
    requires SysInv(s) && AllBlocked(Forth(s), k, off) && Continues(t, s) && n < |t|
    ensures !DeliversLater(t[n], k + 1, i, m)
  {
    StaysAllBlocked(t, s, k, off, n);
    AllBlockedMeans(t[n], k, off, i, m);
  }

  lemma LateBeforeRequest(s: Sys, t: seq<Sys>, n: nat, i: nat, m: Msg)
    requires Intact(s) && Late(s.a.pc) && !AfterRequest(s.a.pc)
    requires Continues(t, GaveUp(s)) && n < |t| && DeliversLater(t[n], |s.a.sent|, i, m)
    ensures IsSmall(m)
  {
    GaveUpKeepsInv(s);
    LongBlockedByGivingUp(s);
    LongBlockedRun(t, GaveUp(s), |s.a.sent|, n, i, m);
  }

  lemma LateAfterRequest(s: Sys, t: seq<Sys>, n: nat, i: nat, m: Msg)
    requires Intact(s) && AfterRequest(s.a.pc) && s.a.sent != []
    requires Continues(t, GaveUp(s)) && n < |t|
    ensures !DeliversLater(t[n], |s.a.sent|, i, m)
  {
    GaveUpKeepsInv(s);
    AllBlockedByGivingUp(s);
    AllBlockedRun(t, GaveUp(s), |s.a.sent| - 1, Queued(s.a.pc), n, i, m);
  }

  lemma SenderHasMessage(s: Sys)
    requires Intact(s) && s.a.pc != Unlocked
    ensures s.a.sent != []
  {
  }

  /**
   After a send was given up late, whatever either end does and as long as nothing is lost, no
   long message begun later is delivered; and none at all if the request had been queued.
   */
  lemma LateGivingUpBlocks(s: Sys, t: seq<Sys>, n: nat, i: nat, m: Msg)
    requires Reachable(s) && Late(s.a.pc)
    requires Continues(t, GaveUp(s)) && n < |t| && DeliversLater(t[n], |s.a.sent|, i, m)
    ensures IsSmall(m) && !AfterRequest(s.a.pc)
  {
    ReachableIsIntact(s);
    if AfterRequest(s.a.pc) {
      SenderHasMessage(s);
      LateAfterRequest(s, t, n, i, m);
    } else {
      LateBeforeRequest(s, t, n, i, m);
    }
  }

  // ----- and what gets through

  function AllTrue(n: nat): seq<bool> {
    seq(n, i => true)
  }

  /** Go on with one more message of A and none of B. */
  function Resumed(s: Sys, m: Msg): Live {
    Live(s, [m], [], AllTrue(|s.a.sent|), AllTrue(|s.b.sent|))
  }

  lemma ResumedIsLive(s: Sys, m: Msg)
    requires Intact(s)
    ensures LiveInv(Resumed(s, m), s.a.sent + [m], s.b.sent)
  {
    ResumedPlan(s.a, [m]);
    ResumedPlan(s.b, []);
    assert s.b.sent + [] == s.b.sent;
  }

  lemma ResumedPlan(p: Peer, todo: seq<Msg>)
    requires SenderOk(p.sent, p.pc)
    ensures PlanOk(p, p.sent + todo, AllTrue(|p.sent|), todo)
  {
    AllKept(p.sent + todo, AllTrue(|p.sent|));
  }

  /** A semaphore large enough for all messages. */
  function Room(msgs: seq<Msg>): nat {
    if msgs == [] then 0 else |msgs[0]| + Room(msgs[1..])
  }

  lemma {:induction false} RoomFits(msgs: seq<Msg>, cap: nat)
    requires Room(msgs) <= cap && forall k :: 0 <= k < |msgs| ==> Encodable(msgs[k])
    ensures Mesh.Fits(msgs, cap)
  {
    if msgs != [] {
      RoomFits(msgs[1..], cap);
      assert forall m :: m in msgs ==> m == msgs[0] || m in msgs[1..];
    }
  }

  function ResumedMesh(s: Sys, m: Msg): Mesh.Mesh {
    var all := s.a.sent + [m];
    Mesh.Mesh([Room(all), Room(s.b.sent)], [Mesh.Link(Resumed(s, m), all, s.b.sent, 1, 0)])
  }

  lemma ResumedIsMesh(s: Sys, m: Msg)
    requires Intact(s) && Encodable(m)
    ensures Mesh.MeshInv(ResumedMesh(s, m)) && Mesh.AllCarriedThrough(ResumedMesh(s, m).links[0])
  {
    ResumedIsLive(s, m);
    RoomFits(s.a.sent + [m], Room(s.a.sent + [m]));
    RoomFits(s.b.sent, Room(s.b.sent));
  }

  /** A step of the only connection is a step of its pair. */
  lemma MeshStepIsPairNext(m: Mesh.Mesh, m': Mesh.Mesh)
    requires |m.links| == 1 && Mesh.NextWithoutGivingUp(m, m')
    ensures |m'.links| == 1 && PairNext(m.links[0].live.sys, m'.links[0].live.sys)
  {
    var e :| Mesh.Possible(m, e) && m' == Mesh.After(m, e) && !e.a.GiveUp?;
    var y, y' := m.links[0].live.sys, m'.links[0].live.sys;
    assert if e.atA then ANext(y, y', e.a) else BNext(y, y', e.a);
  }

  function PairRun(t: seq<Mesh.Mesh>): seq<Sys>
    requires forall k :: 0 <= k < |t| ==> |t[k].links| == 1
  {
    seq(|t|, k requires 0 <= k < |t| => t[k].links[0].live.sys)
  }

  lemma {:induction false} OneLinkStays(t: seq<Mesh.Mesh>, n: nat)
    requires n < |t| && |t[0].links| == 1
    requires forall k :: 0 <= k < |t| - 1 ==> Mesh.NextWithoutGivingUp(t[k], t[k + 1])
    ensures |t[n].links| == 1
  {
    if n > 0 {
      OneLinkStays(t, n - 1);
      assert Mesh.NextWithoutGivingUp(t[n - 1], t[n - 1 + 1]);
      MeshStepIsPairNext(t[n - 1], t[n]);
    }
  }

  lemma RunContinues(t: seq<Mesh.Mesh>)
    requires t != [] && |t[0].links| == 1
    requires forall k :: 0 <= k < |t| - 1 ==> Mesh.NextWithoutGivingUp(t[k], t[k + 1])
    ensures forall k :: 0 <= k < |t| ==> |t[k].links| == 1
    ensures Continues(PairRun(t), t[0].links[0].live.sys)
  {
    forall k | 0 <= k < |t|
      ensures |t[k].links| == 1
    {
      OneLinkStays(t, k);
    }
    var r := PairRun(t);
    forall k | 0 <= k < |r| - 1
      ensures PairNext(r[k], r[k + 1])
    {
      MeshStepIsPairNext(t[k], t[k + 1]);
    }
  }

  lemma {:induction false} OrderAtLeast(order: seq<nat>, i: nat)
    requires i < |order| && forall a, b :: 0 <= a < b < |order| ==> order[a] < order[b]
    ensures i <= order[i]
  {
    if i > 0 {
      OrderAtLeast(order, i - 1);
    }
  }

  function Last(t: seq<Sys>): Sys
    requires t != []
  {
    t[|t| - 1]
  }

  /** Some run without loss from s delivers m as a message begun after s. */
  ghost predicate CanDeliver(s: Sys, m: Msg) {
    exists t, i :: Continues(t, s) && DeliversLater(Last(t), |s.a.sent|, i, m)
  }

  lemma {:induction false} ContinuesKeepsInv(t: seq<Sys>, s: Sys, n: nat)
    requires Continues(t, s) && n < |t| && SysInv(s)
    ensures SysInv(t[n])
  {
    if n > 0 {
      ContinuesKeepsInv(t, s, n - 1);
      assert PairNext(t[n - 1], t[n - 1 + 1]);
      PairKeepsInv(t[n - 1], t[n]);
    }
  }

  lemma InvOrdersDeliveries(s: Sys)
    requires SysInv(s)
    ensures DeliveredInOrder(s.a.sent, s.b.task.delivered, s.b.order)
  {
  }

  lemma FinishedMesh(t: seq<Mesh.Mesh>, s: Sys, m: Msg)
    requires Mesh.FinishingRun(t, ResumedMesh(s, m)) && Mesh.AllCarriedThrough(ResumedMesh(s, m).links[0])
    ensures var last := t[|t| - 1]; |last.links| == 1 && last.links[0].live.sys.b.task.delivered == s.a.sent + [m]
  {
    Mesh.NothingIsGivenUp(t, |t| - 1, 0);
    Mesh.FinishedMeansAll(t[|t| - 1].links[0]);
  }

  lemma RunThatDelivers(s: Sys, m: Msg) returns (r: seq<Sys>)
    requires Intact(s) && Encodable(m)
    ensures Continues(r, s) && r[|r| - 1].b.task.delivered == s.a.sent + [m]
  {
    ResumedIsMesh(s, m);
    var t := Mesh.CanFinish(ResumedMesh(s, m));
    RunContinues(t);
    FinishedMesh(t, s, m);
    r := PairRun(t);
  }

  /** Once everything is delivered, so is the last message. */
  lemma FinishDelivers(s: Sys, earlier: seq<Msg>, m: Msg)
    requires s.b.task.delivered == earlier + [m]
    requires DeliveredInOrder(s.a.sent, s.b.task.delivered, s.b.order)
    ensures DeliversLater(s, |earlier|, |earlier|, m)
  {
    OrderAtLeast(s.b.order, |earlier|);
  }

  /** From an intact state one more message, of any length, gets through. */
  lemma IntactDelivers(s: Sys, m: Msg)
    requires Intact(s) && Encodable(m)
    ensures CanDeliver(s, m)
  {
    var r := RunThatDelivers(s, m);
    ContinuesKeepsInv(r, s, |r| - 1);
    InvOrdersDeliveries(r[|r| - 1]);
    FinishDelivers(r[|r| - 1], s.a.sent, m);
    assert DeliversLater(Last(r), |s.a.sent|, |s.a.sent|, m);
  }

  /** Giving up early leaves nothing behind. */
  lemma EarlyGivingUpIsIntact(s: Sys)
    requires Intact(s) && !Late(s.a.pc)
    ensures Intact(GaveUp(s))
  {
    GaveUpKeepsInv(s);
    GaveUpIsStep(s);
    StepKeepsExact(Forth(s), Cancel);
    assert Forth(Swap(GaveUp(s))) == Forth(Swap(s));
  }

  // ----- a small message after a registration was left behind

  /** B receives everything that is on its way, and A does nothing. */
  ghost predicate Drains(t: seq<Sys>, s: Sys) {
    && t != [] && t[0] == s
    && (forall i :: 0 <= i < |t| - 1 ==> BNext(t[i], t[i + 1], Receive))
    && forall i :: 0 <= i < |t| ==> t[i].a == s.a
  }

  function Received(s: Sys): Sys
    requires Can(s.b, s.ab, Receive)
  {
    var m := Act(s.b, s.ab, Receive);
    Sys(s.a, m.peer, m.inn, s.ba + m.queued)
  }

  lemma ReceivingKeepsIntact(s: Sys)
    requires Intact(s) && s.ab != []
    ensures Can(s.b, s.ab, Receive) && Intact(Received(s)) && |Received(s).ab| < |s.ab|
  {
    ActKeepsExact(s.b, s.a, s.ba, s.ab, Receive);
    PermitStaysHeld(s.b, s.ab, Receive);
  }

  lemma DrainFirst(s: Sys, t: seq<Sys>)
    requires Can(s.b, s.ab, Receive) && Drains(t, Received(s))
    ensures Drains([s] + t, s)
  {
    var u := [s] + t;
    forall i | 0 <= i < |u| - 1
      ensures BNext(u[i], u[i + 1], Receive)
    {
      if i > 0 {
        assert BNext(t[i - 1], t[i - 1 + 1], Receive);
      }
    }
  }

  ghost predicate DrainsAll(t: seq<Sys>, s: Sys) {
    Drains(t, s) && Intact(t[|t| - 1]) && t[|t| - 1].ab == []
  }

  lemma DrainAllFirst(s: Sys, t: seq<Sys>)
    requires Can(s.b, s.ab, Receive) && DrainsAll(t, Received(s))
    ensures DrainsAll([s] + t, s)
  {
    DrainFirst(s, t);
    assert ([s] + t)[|t|] == t[|t| - 1];
  }

  lemma {:induction false} Drain(s: Sys) returns (t: seq<Sys>)
    requires Intact(s)
    ensures DrainsAll(t, s)
    decreases |s.ab|
  {
    if s.ab == [] {
      t := [s];
    } else {
      ReceivingKeepsIntact(s);
      t := Drain(Received(s));
      DrainAllFirst(s, t);
      t := [s] + t;
    }
  }

  /** What B does does not depend on A having given up. */
  lemma DrainsAlike(t: seq<Sys>, s: Sys) returns (u: seq<Sys>)
    requires Drains(t, s)
    ensures Continues(u, GaveUp(s)) && |u| == |t| && u[|u| - 1] == GaveUp(t[|t| - 1])
  {
    u := seq(|t|, i requires 0 <= i < |t| => GaveUp(t[i]));
    forall i | 0 <= i < |u| - 1
      ensures PairNext(u[i], u[i + 1])
    {
      assert BNext(t[i], t[i + 1], Receive);
      assert BNext(u[i], u[i + 1], Receive);
    }
  }

  /** With nothing on its way and the request not queued, the receiver is ready for a message. */
  lemma ReadyForMore(s: Sys)
    requires Intact(s) && s.ab == [] && Late(s.a.pc) && !AfterRequest(s.a.pc)
    ensures s.b.task.running && !s.b.task.dec.didError && s.b.task.dec.rx.state == Ready
    ensures |s.b.order| == |s.b.task.delivered|
  {
    assert Forth(s).data == [];
  }

  /** Begin, queue and receive a small message. */
  lemma SmallGoesThrough(s: Sys, m: Msg) returns (t: seq<Sys>)
    requires s.a.pc == Unlocked && s.ab == [] && IsSmall(m)
    requires s.b.task.running && !s.b.task.dec.didError && s.b.task.dec.rx.state == Ready
    requires |s.b.order| == |s.b.task.delivered|
    ensures Continues(t, s) && DeliversLater(t[|t| - 1], |s.a.sent|, |s.b.order|, m)
  {
    var s1 := s.(a := Act(s.a, s.ba, Begin(m)).peer);
    var p := SmallPacket(m, |s.a.sent|);
    var s2 := Sys(Act(s1.a, s1.ba, QueueSmall).peer, s.b, [p], s.ba);
    assert s.ab + [] == s.ab && s.ab + [p] == [p];
    assert ANext(s, s1, Begin(m)) && ANext(s1, s2, QueueSmall);
    assert s2.ba + [] == s2.ba;
    var s3 := Received(s2);
    assert BNext(s2, s3, Receive);
    t := [s, s1, s2, s3];
  }

  lemma Join(t: seq<Sys>, u: seq<Sys>, s: Sys)
    requires Continues(t, s) && u != [] && Continues(u, t[|t| - 1])
    ensures Continues(t + u[1..], s) && (t + u[1..])[|t + u[1..]| - 1] == u[|u| - 1]
  {
    var w := t + u[1..];
    forall i | 0 <= i < |w| - 1
      ensures PairNext(w[i], w[i + 1])
    {
      if i < |t| - 1 {
        assert PairNext(t[i], t[i + 1]);
      } else {
        var j := i - (|t| - 1);
        assert PairNext(u[j], u[j + 1]) && w[i] == u[j];
      }
    }
  }

  lemma DrainedLetsSmallThrough(s: Sys, u: seq<Sys>, m: Msg)
    requires Continues(u, s) && IsSmall(m)
    requires
      var x := u[|u| - 1];
      && x.a == s.a && x.a.pc == Unlocked && x.ab == [] && |x.b.order| == |x.b.task.delivered|
      && x.b.task.running && !x.b.task.dec.didError && x.b.task.dec.rx.state == Ready
    ensures CanDeliver(s, m)
  {
    var x := u[|u| - 1];
    var v := SmallGoesThrough(x, m);
    Join(u, v, s);
    var w := u + v[1..];
    assert DeliversLater(Last(w), |s.a.sent|, |x.b.order|, m);
  }

  lemma DrainedIsReady(s: Sys, t: seq<Sys>)
    requires DrainsAll(t, s) && Late(s.a.pc) && !AfterRequest(s.a.pc)
    ensures
      var x := t[|t| - 1];
      && x.a == s.a && x.ab == [] && |x.b.order| == |x.b.task.delivered|
      && x.b.task.running && !x.b.task.dec.didError && x.b.task.dec.rx.state == Ready
  {
    ReadyForMore(t[|t| - 1]);
  }

  /** Giving up changes A alone, and depends on A alone. */
  lemma GaveUpAlike(s: Sys, x: Sys)
    requires x.a == s.a
    ensures GaveUp(x).a == GaveUp(s).a && GaveUp(x).a.pc == Unlocked && GaveUp(x).b == x.b && GaveUp(x).ab == x.ab
  {
  }

  lemma DrainLetsSmallThrough(s: Sys, t: seq<Sys>, m: Msg)
    requires Drains(t, s) && IsSmall(m)
    requires
      var x := t[|t| - 1];
      && x.a == s.a && x.ab == [] && |x.b.order| == |x.b.task.delivered|
      && x.b.task.running && !x.b.task.dec.didError && x.b.task.dec.rx.state == Ready
    ensures CanDeliver(GaveUp(s), m)
  {
    var u := DrainsAlike(t, s);
    GaveUpAlike(s, t[|t| - 1]);
    DrainedLetsSmallThrough(GaveUp(s), u, m);
  }

  lemma RegistrationLetsSmallThrough(s: Sys, m: Msg)
    requires Intact(s) && Late(s.a.pc) && !AfterRequest(s.a.pc) && IsSmall(m)
    ensures CanDeliver(GaveUp(s), m)
  {
    var t := Drain(s);
    DrainedIsReady(s, t);
    DrainLetsSmallThrough(s, t, m);
  }

  // ----- the exact conditions

  lemma WhatIsDelivered(s: Sys, m: Msg)
    requires Reachable(s) && Late(s.a.pc) && CanDeliver(GaveUp(s), m)
    ensures IsSmall(m) && !AfterRequest(s.a.pc)
  {
    var t, i :| Continues(t, GaveUp(s)) && DeliversLater(Last(t), |GaveUp(s).a.sent|, i, m);
    LateGivingUpBlocks(s, t, |t| - 1, i, m);
  }

  lemma EarlyLetsAnythingThrough(s: Sys, m: Msg)
    requires Reachable(s) && !Late(s.a.pc) && Encodable(m)
    ensures CanDeliver(GaveUp(s), m)
  {
    ReachableIsIntact(s);
    EarlyGivingUpIsIntact(s);
    IntactDelivers(GaveUp(s), m);
  }

  /**
   After a send is given up in a run without loss, a later long message can still be delivered if
   and only if nothing of the given up one had been queued.
   */
  lemma LongAfterGivingUp(s: Sys, m: Msg)
    requires Reachable(s) && Encodable(m) && !IsSmall(m)
    ensures CanDeliver(GaveUp(s), m) <==> !Late(s.a.pc)
  {
    if !Late(s.a.pc) {
      EarlyLetsAnythingThrough(s, m);
    } else if CanDeliver(GaveUp(s), m) {
      WhatIsDelivered(s, m);
    }
  }

  /** And a later small one if and only if the request of the given up one had not been queued. */
  lemma SmallAfterGivingUp(s: Sys, m: Msg)
    requires Reachable(s) && IsSmall(m)
    ensures CanDeliver(GaveUp(s), m) <==> !AfterRequest(s.a.pc)
  {
    if !Late(s.a.pc) {
      EarlyLetsAnythingThrough(s, m);
    } else if !AfterRequest(s.a.pc) {
      ReachableIsIntact(s);
      RegistrationLetsSmallThrough(s, m);
    } else if CanDeliver(GaveUp(s), m) {
      WhatIsDelivered(s, m);
    }
  }

  // ----- for instance

  /** Registering a request is refused exactly while an earlier one has no grant, and ends the loop. */
  lemma RegisteringFails(t: Task, id: nat)
    requires t.running && !t.dec.didError
    ensures OnAwaitPermit(t, id).task.running <==> !t.dec.tx.wantRemoteGrant
  {
  }

  function AStep(s: Sys, a: Action): Sys
    requires Can(s.a, s.ba, a)
  {
    var m := Act(s.a, s.ba, a);
    Sys(m.peer, s.b, s.ab + m.queued, m.inn)
  }

  lemma AStepIsNext(s: Sys, a: Action)
    requires Can(s.a, s.ba, a)
    ensures Next(s, AStep(s, a))
  {
    assert ANext(s, AStep(s, a), a);
  }

  /** The first three steps of sending a long message. */
  lemma Asks(s: Sys, m: Msg) returns (s1: Sys, s2: Sys, s3: Sys)
    requires s.a.pc == Unlocked && s.a.regs == [] && s.a.task.running && !s.a.task.dec.didError
    requires Encodable(m) && !IsSmall(m)
    ensures Next(s, s1) && Next(s1, s2) && Next(s2, s3)
    ensures s3.a.sent == s.a.sent + [m] && s3.a.regs == [] && Late(s3.a.pc)
    ensures s3.a.task.running <==> !s.a.task.dec.tx.wantRemoteGrant
    ensures s3.a.task.running ==> s3.a.task.dec.tx.wantRemoteGrant && !s3.a.task.dec.didError
  {
    s1 := AStep(s, Begin(m));
    s2 := AStep(s1, QueueAwaitPermit);
    AStepIsNext(s, Begin(m));
    AStepIsNext(s1, QueueAwaitPermit);
    AStepIsNext(s2, HandleAwaitPermit);
    s3 := AStep(s2, HandleAwaitPermit);
    RegisteringFails(s2.a.task, s2.a.regs[0]);
  }

  /** Two long messages suffice to end the command loop of the peer that gives up the first. */
  lemma AbandonedSendEndsConnection(m: Msg, n: Msg) returns (t: seq<Sys>)
    requires Encodable(m) && !IsSmall(m) && Encodable(n) && !IsSmall(n)
    ensures Behavior(t) && t[|t| - 1].a.sent == [m, n] && !t[|t| - 1].a.task.running
  {
    var s1, s2, s3 := Asks(INIT_SYS, m);
    var s4 := AStep(s3, GiveUp);
    AStepIsNext(s3, GiveUp);
    var s5, s6, s7 := Asks(s4, n);
    t := Extend([INIT_SYS], s1);
    t := Extend(t, s2);
    t := Extend(t, s3);
    t := Extend(t, s4);
    t := Extend(t, s5);
    t := Extend(t, s6);
    t := Extend(t, s7);
  }

  lemma Extend(t: seq<Sys>, s: Sys) returns (u: seq<Sys>)
    requires Behavior(t) && Next(t[|t| - 1], s)
    ensures Behavior(u) && u[|u| - 1] == s
  {
    u := t + [s];
    forall i | 0 <= i < |u| - 1
      ensures Next(u[i], u[i + 1])
    {
      if i < |t| - 1 {
        assert Next(t[i], t[i + 1]);
      }
    }
  }
}
