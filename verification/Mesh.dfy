/**
 Any number of connections between peers that each share one semaphore among all theirs. With
 lossless lanes, and sends given up only before anything of them was queued, nothing gets stuck
 and every run ends with everything delivered that was not given up.
 */
module Mesh {
  import opened Core
  import opened Header
  import opened Encoder
  import opened Decoder
  import opened Framed
  import opened Direction
  import opened Pair
  import opened Lossless
  import RecvLimit

  /** A connection: what its two ends are to send in all, and the semaphore each end receives with. */
  datatype Link = Link(live: Live, allA: seq<Msg>, allB: seq<Msg>, semA: nat, semB: nat)

  datatype Mesh = Mesh(caps: seq<nat>, links: seq<Link>)

  /** One end of one connection acts. */
  datatype Event = Event(link: nat, atA: bool, a: Action)

  function Me(l: Link, atA: bool): Peer { if atA then l.live.sys.a else l.live.sys.b }
  function Inn(l: Link, atA: bool): seq<Packet> { if atA then l.live.sys.ba else l.live.sys.ab }
  function Todo(l: Link, atA: bool): seq<Msg> { if atA then l.live.todoA else l.live.todoB }
  function Sem(l: Link, atA: bool): nat { if atA then l.semA else l.semB }

  /** Permits of a semaphore in the hands of one end, of a connection, of all connections. */
  function HeldAt(l: Link, atA: bool, sem: nat): nat {
    if Sem(l, atA) == sem then RecvLimit.Held(Me(l, atA).task) else 0
  }

  function Held(l: Link, sem: nat): nat {
    HeldAt(l, true, sem) + HeldAt(l, false, sem)
  }

  function TotalHeld(links: seq<Link>, sem: nat): nat {
    if links == [] then 0 else Held(links[0], sem) + TotalHeld(links[1..], sem)
  }

  /** The semaphore has enough permits left for the request that waits at this end. */
  predicate CanServe(m: Mesh, l: Link, atA: bool) {
    && Me(l, atA).task.waiting != [] && Sem(l, atA) < |m.caps|
    && TotalHeld(m.links, Sem(l, atA)) + Me(l, atA).task.waiting[0] <= m.caps[Sem(l, atA)]
  }

  predicate Possible(m: Mesh, e: Event) {
    && e.link < |m.links|
    && var l := m.links[e.link];
       && LiveCan(Me(l, e.atA), Inn(l, e.atA), Todo(l, e.atA), e.a)
       && (e.a.SemaphoreServes? ==> CanServe(m, l, e.atA))
  }

  function LiveAct(s: Live, atA: bool, a: Action): Live
    requires if atA then LiveCan(s.sys.a, s.sys.ba, s.todoA, a) else LiveCan(s.sys.b, s.sys.ab, s.todoB, a)
  {
    if atA then
      var m := Act(s.sys.a, s.sys.ba, a);
      s.(sys := Sys(m.peer, s.sys.b, s.sys.ab + m.queued, m.inn), 
          todoA := Rest(s.sys.a.pc, s.todoA, a), keptA := Flags(s.sys.a.pc, s.keptA, a))
    else
      var m := Act(s.sys.b, s.sys.ab, a);
      s.(sys := Sys(s.sys.a, m.peer, m.inn, s.sys.ba + m.queued), 
          todoB := Rest(s.sys.b.pc, s.todoB, a), keptB := Flags(s.sys.b.pc, s.keptB, a))
  }

  lemma LiveActIsNext(s: Live, atA: bool, a: Action)
    requires if atA then LiveCan(s.sys.a, s.sys.ba, s.todoA, a) else LiveCan(s.sys.b, s.sys.ab, s.todoB, a)
    ensures LiveNext(s, LiveAct(s, atA, a))
  {
    var s' := LiveAct(s, atA, a);
    if atA {
      assert LiveNextA(s, s', a);
    } else {
      assert LiveNextB(s, s', a);
    }
  }

  function After(m: Mesh, e: Event): Mesh
    requires Possible(m, e)
  {
    var l := m.links[e.link];
    m.(links := m.links[e.link := l.(live := LiveAct(l.live, e.atA, e.a))])
  }

  // ----- every step keeps every connection exact and brings the end nearer

  /** Each message fits the whole of the semaphore it is received with. */
  ghost predicate Fits(msgs: seq<Msg>, cap: nat) {
    forall m :: m in msgs ==> Encodable(m) && |m| <= cap
  }

  ghost predicate LinkOk(caps: seq<nat>, l: Link) {
    && LiveInv(l.live, l.allA, l.allB)
    && l.semA < |caps| && l.semB < |caps|
    && Fits(l.allA, caps[l.semB]) && Fits(l.allB, caps[l.semA])
  }

  ghost predicate MeshInv(m: Mesh) {
    forall i :: 0 <= i < |m.links| ==> LinkOk(m.caps, m.links[i])
  }

  function TotalMeasure(links: seq<Link>): nat {
    if links == [] then 0 else Measure(links[0].live) + TotalMeasure(links[1..])
  }

  lemma {:induction false} MeasureAfterUpdate(links: seq<Link>, i: nat, l: Link)
    requires i < |links|
    ensures TotalMeasure(links[i := l]) + Measure(links[i].live) == TotalMeasure(links) + Measure(l.live)
  {
    if i == 0 {
      assert links[i := l][1..] == links[1..];
    } else {
      MeasureAfterUpdate(links[1..], i - 1, l);
      assert links[i := l][1..] == links[1..][i - 1 := l];
    }
  }

  lemma LinkStep(caps: seq<nat>, l: Link, atA: bool, a: Action)
    requires LinkOk(caps, l) && LiveCan(Me(l, atA), Inn(l, atA), Todo(l, atA), a)
    ensures
      var l' := l.(live := LiveAct(l.live, atA, a));
      LinkOk(caps, l') && Measure(l'.live) < Measure(l.live)
  {
    LiveActIsNext(l.live, atA, a);
    LiveStepCounts(l.live, LiveAct(l.live, atA, a), l.allA, l.allB);
  }

  /** Replacing one connection by a good one keeps the rest. */
  lemma ReplaceLink(m: Mesh, i: nat, l: Link)
    requires MeshInv(m) && i < |m.links| && LinkOk(m.caps, l)
    ensures MeshInv(m.(links := m.links[i := l]))
  {
  }

  lemma MeshStep(m: Mesh, e: Event)
    requires MeshInv(m) && Possible(m, e)
    ensures MeshInv(After(m, e)) && TotalMeasure(After(m, e).links) < TotalMeasure(m.links)
  {
    var l := m.links[e.link];
    var l' := l.(live := LiveAct(l.live, e.atA, e.a));
    LinkStep(m.caps, l, e.atA, e.a);
    ReplaceLink(m, e.link, l');
    MeasureAfterUpdate(m.links, e.link, l');
  }

  // ----- nothing gets stuck before the end

  /** There is something to do here that needs neither the other end nor the semaphore. */
  predicate Busy(me: Peer, inn: seq<Packet>, todo: seq<Msg>) {
    || (me.pc != Unlocked && me.pc != WaitGrant)
    || (me.pc == Unlocked && todo != [])
    || inn != [] || me.task.acquired != []
  }

  /** Both directions of a connection as one of its ends sees them. */
  ghost predicate EndOk(me: Peer, other: Peer, out: seq<Packet>, inn: seq<Packet>) {
    && PermitHeld(me)
    && Inv(View(me, other, out, inn)) && Exact(View(me, other, out, inn))
    && Inv(View(other, me, inn, out)) && Exact(View(other, me, inn, out))
  }

  predicate Plain(a: Action) {
    !a.SemaphoreServes? && !a.GiveUp?
  }

  lemma BusyCanMove(me: Peer, other: Peer, out: seq<Packet>, inn: seq<Packet>, todo: seq<Msg>) returns (a: Action)
    requires Busy(me, inn, todo) && EndOk(me, other, out, inn)
    requires forall m :: m in todo ==> Encodable(m)
    ensures LiveCan(me, inn, todo, a) && Plain(a)
  {
    if inn != [] {
      a := Receive;
    } else if me.task.acquired != [] {
      a := HandleRemotePermit;
    } else {
      match me.pc
      case Unlocked => a := Begin(todo[0]);
      case PutSmallNext => a := QueueSmall;
      case AskRegNext => a := QueueAwaitPermit;
      case WaitReg => a := HandleAwaitPermit;
      case PutReqNext => a := QueueRequest;
      case ChunksFrom(_) => a := QueueChunk;
      case WaitGrant =>
    }
  }

  /** Permits are held only while chunks or their grant are under way, so not between idle ends. */
  lemma IdleHoldsNothing(me: Peer, other: Peer, out: seq<Packet>, inn: seq<Packet>, todo: seq<Msg>, todo': seq<Msg>)
    requires EndOk(me, other, out, inn)
    requires !Busy(me, inn, todo) && !Busy(other, out, todo')
    ensures RecvLimit.Held(me.task) == 0
  {
    var v := View(other, me, inn, out);
    assert v.data == [] && v.grants == [];
  }

  /** A waiting task asks for the length of a message of the other end. */
  lemma WaitingFits(me: Peer, other: Peer, out: seq<Packet>, inn: seq<Packet>, cap: nat)
    requires EndOk(me, other, out, inn) && me.task.waiting != []
    requires Fits(other.sent, cap)
    ensures me.task.waiting[0] <= cap
  {
    var v := View(other, me, inn, out);
    assert v.acquired == [] && v.waiting[0] == |v.sent[v.lastMsg]| by {
      assert (v.waiting + v.acquired)[0] == v.waiting[0];
    }
    assert v.sent[v.lastMsg] in other.sent;
  }

  lemma {:induction false} KeptAreMembers(all: seq<Msg>, kept: seq<bool>)
    requires |kept| <= |all|
    ensures forall m :: m in Kept(all, kept) ==> m in all
  {
    if kept != [] {
      KeptAreMembers(all, kept[..|kept| - 1]);
    }
  }

  lemma MessagesFit(me: Peer, all: seq<Msg>, kept: seq<bool>, todo: seq<Msg>, cap: nat)
    requires PlanOk(me, all, kept, todo) && Fits(all, cap)
    ensures Fits(me.sent, cap) && Fits(todo, cap)
  {
    KeptAreMembers(all, kept);
  }

  /** Every message was given up in time or delivered, in order. */
  ghost predicate Finished(l: Link) {
    && |l.live.keptA| == |l.allA| && l.live.sys.b.task.delivered == Kept(l.allA, l.live.keptA)
    && |l.live.keptB| == |l.allB| && l.live.sys.a.task.delivered == Kept(l.allB, l.live.keptB)
  }

  ghost predicate Idle(l: Link) {
    !Busy(Me(l, true), Inn(l, true), Todo(l, true)) && !Busy(Me(l, false), Inn(l, false), Todo(l, false))
  }

  /** A busy connection can make a step that needs no semaphore. */
  lemma BusyLinkMoves(m: Mesh, i: nat) returns (e: Event)
    requires MeshInv(m) && i < |m.links| && !Idle(m.links[i])
    ensures Possible(m, e) && Plain(e.a)
  {
    var l := m.links[i];
    var y := l.live.sys;
    assert LinkOk(m.caps, l);
    if Busy(y.a, y.ba, l.live.todoA) {
      MessagesFit(y.a, l.allA, l.live.keptA, l.live.todoA, m.caps[l.semB]);
      var a := BusyCanMove(y.a, y.b, y.ab, y.ba, l.live.todoA);
      e := Event(i, true, a);
    } else {
      MessagesFit(y.b, l.allB, l.live.keptB, l.live.todoB, m.caps[l.semA]);
      var a := BusyCanMove(y.b, y.a, y.ba, y.ab, l.live.todoB);
      e := Event(i, false, a);
    }
  }

  lemma IdleEnd(me: Peer, other: Peer, out: seq<Packet>, inn: seq<Packet>, todo: seq<Msg>, todo': seq<Msg>, cap: nat)
    requires EndOk(me, other, out, inn)
    requires !Busy(me, inn, todo) && !Busy(other, out, todo')
    requires Fits(other.sent, cap)
    ensures RecvLimit.Held(me.task) == 0
    ensures me.task.waiting != [] ==> me.task.waiting[0] <= cap
  {
    IdleHoldsNothing(me, other, out, inn, todo, todo');
    if me.task.waiting != [] {
      WaitingFits(me, other, out, inn, cap);
    }
  }

  lemma IdleLink(caps: seq<nat>, l: Link, atA: bool)
    requires LinkOk(caps, l) && Idle(l)
    ensures RecvLimit.Held(Me(l, atA).task) == 0
    ensures Me(l, atA).task.waiting != [] ==> Me(l, atA).task.waiting[0] <= caps[Sem(l, atA)]
  {
    var y := l.live.sys;
    if atA {
      MessagesFit(y.b, l.allB, l.live.keptB, l.live.todoB, caps[l.semA]);
      IdleEnd(y.a, y.b, y.ab, y.ba, l.live.todoA, l.live.todoB, caps[l.semA]);
    } else {
      MessagesFit(y.a, l.allA, l.live.keptA, l.live.todoA, caps[l.semB]);
      IdleEnd(y.b, y.a, y.ba, y.ab, l.live.todoB, l.live.todoA, caps[l.semB]);
    }
  }

  /** With both ends idle and nobody waiting for a permit, the token cannot be anywhere. */
  lemma IdleMeansFinished(caps: seq<nat>, l: Link)
    requires LinkOk(caps, l) && Idle(l)
    requires l.live.sys.a.task.waiting == [] && l.live.sys.b.task.waiting == []
    ensures Finished(l)
  {
    var y := l.live.sys;
    var v, w := View(y.a, y.b, y.ab, y.ba), View(y.b, y.a, y.ba, y.ab);
    assert v.data == [] && v.grants == [] && w.data == [] && w.grants == [];
    QuietMeansDelivered(v);
    QuietMeansDelivered(w);
  }

  lemma {:induction false} NothingHeld(links: seq<Link>, sem: nat)
    requires forall i :: 0 <= i < |links| ==> Held(links[i], sem) == 0
    ensures TotalHeld(links, sem) == 0
  {
    if links != [] {
      NothingHeld(links[1..], sem);
    }
  }

  ghost predicate Someone(m: Mesh) {
    exists i, atA :: 0 <= i < |m.links| && Me(m.links[i], atA).task.waiting != []
  }

  /**
   Until everything is delivered, some step that gives nothing up needs no semaphore, or tasks wait and any of them can
   be served: in particular the one that has waited longest.
   */
  lemma NeverStuck(m: Mesh)
    requires MeshInv(m)
    ensures
      || (forall i :: 0 <= i < |m.links| ==> Finished(m.links[i]))
      || (exists e :: Possible(m, e) && Plain(e.a))
      || (Someone(m) && forall i, atA :: 0 <= i < |m.links| && Me(m.links[i], atA).task.waiting != [] ==>
            Possible(m, Event(i, atA, SemaphoreServes)))
  {
    if i :| 0 <= i < |m.links| && !Idle(m.links[i]) {
      var e := BusyLinkMoves(m, i);
      assert Possible(m, e) && Plain(e.a);
    } else {
      IdleWaitersCanBeServed(m);
      if !Someone(m) {
        IdleMeshIsFinished(m);
      }
    }
  }

  lemma IdleMeshIsFinished(m: Mesh)
    requires MeshInv(m) && !Someone(m) && forall i :: 0 <= i < |m.links| ==> Idle(m.links[i])
    ensures forall i :: 0 <= i < |m.links| ==> Finished(m.links[i])
  {
    forall i | 0 <= i < |m.links|
      ensures Finished(m.links[i])
    {
      assert Me(m.links[i], true).task.waiting == [] && Me(m.links[i], false).task.waiting == [];
      IdleMeansFinished(m.caps, m.links[i]);
    }
  }

  lemma IdleMeshHoldsNothing(m: Mesh)
    requires MeshInv(m) && forall i :: 0 <= i < |m.links| ==> Idle(m.links[i])
    ensures forall i, sem :: 0 <= i < |m.links| ==> Held(m.links[i], sem) == 0
  {
    forall i, sem | 0 <= i < |m.links|
      ensures Held(m.links[i], sem) == 0
    {
      IdleLink(m.caps, m.links[i], true);
      IdleLink(m.caps, m.links[i], false);
    }
  }

  lemma IdleWaiterFits(m: Mesh, i: nat, atA: bool)
    requires MeshInv(m) && i < |m.links| && Idle(m.links[i]) && Me(m.links[i], atA).task.waiting != []
    ensures Me(m.links[i], atA).task.waiting[0] <= m.caps[Sem(m.links[i], atA)]
  {
    IdleLink(m.caps, m.links[i], atA);
  }

  lemma IdleWaitersCanBeServed(m: Mesh)
    requires MeshInv(m) && forall i :: 0 <= i < |m.links| ==> Idle(m.links[i])
    ensures forall i, atA :: 0 <= i < |m.links| && Me(m.links[i], atA).task.waiting != [] ==>
              Possible(m, Event(i, atA, SemaphoreServes))
  {
    IdleMeshHoldsNothing(m);
    forall i, atA | 0 <= i < |m.links| && Me(m.links[i], atA).task.waiting != []
      ensures Me(m.links[i], atA).task.waiting[0] <= m.caps[Sem(m.links[i], atA)]
    {
      IdleWaiterFits(m, i, atA);
    }
    WaitersCanBeServed(m);
  }

  lemma WaitersCanBeServed(m: Mesh)
    requires MeshInv(m)
    requires forall i, sem :: 0 <= i < |m.links| ==> Held(m.links[i], sem) == 0
    requires forall i, atA :: 0 <= i < |m.links| && Me(m.links[i], atA).task.waiting != [] ==>
               Me(m.links[i], atA).task.waiting[0] <= m.caps[Sem(m.links[i], atA)]
    ensures forall i, atA :: 0 <= i < |m.links| && Me(m.links[i], atA).task.waiting != [] ==>
              Possible(m, Event(i, atA, SemaphoreServes))
  {
    forall i, atA | 0 <= i < |m.links| && Me(m.links[i], atA).task.waiting != []
      ensures Possible(m, Event(i, atA, SemaphoreServes))
    {
      NothingHeld(m.links, Sem(m.links[i], atA));
      assert LinkOk(m.caps, m.links[i]);
    }
  }

  // ----- runs

  /** Fresh connections, and messages that the protocol can encode and the semaphores can serve. */
  ghost predicate Initial(m: Mesh) {
    forall i :: 0 <= i < |m.links| ==>
      var l := m.links[i];
      && l.live == NewLive(l.allA, l.allB)
      && l.semA < |m.caps| && l.semB < |m.caps|
      && Fits(l.allA, m.caps[l.semB]) && Fits(l.allB, m.caps[l.semA])
  }

  ghost predicate MeshNext(m: Mesh, m': Mesh) {
    exists e :: Possible(m, e) && m' == After(m, e)
  }

  ghost predicate MeshBehavior(t: seq<Mesh>) {
    t != [] && Initial(t[0]) && forall i :: 0 <= i < |t| - 1 ==> MeshNext(t[i], t[i + 1])
  }

  lemma {:induction false} MeshBehaviorKeeps(t: seq<Mesh>, n: nat)
    requires MeshBehavior(t) && n < |t|
    ensures MeshInv(t[n]) && TotalMeasure(t[n].links) <= TotalMeasure(t[0].links) - n
  {
    if n == 0 {
      forall i | 0 <= i < |t[0].links|
        ensures LinkOk(t[0].caps, t[0].links[i])
      {
        LiveInvInit(t[0].links[i].allA, t[0].links[i].allB);
      }
    } else {
      MeshBehaviorKeeps(t, n - 1);
      var e :| Possible(t[n - 1], e) && t[n] == After(t[n - 1], e);
      MeshStep(t[n - 1], e);
    }
  }

  /**
   Every run ends: it has at most as many steps as its first state measures, and a state at rest has
   delivered, for every connection, every message that was not given up.
   */
  lemma EveryRunDelivers(t: seq<Mesh>)
    requires MeshBehavior(t)
    ensures |t| <= TotalMeasure(t[0].links) + 1
    ensures
      var last := t[|t| - 1];
      AtRest(last) ==> forall i :: 0 <= i < |last.links| ==> Finished(last.links[i])
  {
    MeshBehaviorKeeps(t, |t| - 1);
    if AtRest(t[|t| - 1]) {
      RestMeansFinished(t[|t| - 1]);
    }
  }

  /** Nobody can do more than give up. */
  ghost predicate AtRest(m: Mesh) {
    forall e :: Possible(m, e) ==> e.a.GiveUp?
  }

  lemma SomebodyMoves(m: Mesh)
    requires MeshInv(m)
    ensures (forall i :: 0 <= i < |m.links| ==> Finished(m.links[i])) || exists e :: Possible(m, e) && !e.a.GiveUp?
  {
    NeverStuck(m);
    if e :| Possible(m, e) && Plain(e.a) {
      assert !e.a.GiveUp?;
    } else if Someone(m) && !forall i :: 0 <= i < |m.links| ==> Finished(m.links[i]) {
      var i, atA :| 0 <= i < |m.links| && Me(m.links[i], atA).task.waiting != [];
      assert Possible(m, Event(i, atA, SemaphoreServes));
    }
  }

  lemma RestMeansFinished(m: Mesh)
    requires MeshInv(m) && AtRest(m)
    ensures forall i :: 0 <= i < |m.links| ==> Finished(m.links[i])
  {
    SomebodyMoves(m);
  }

  /** No send of this connection was given up. */
  predicate AllCarriedThrough(l: Link) {
    && (forall j :: 0 <= j < |l.live.keptA| ==> l.live.keptA[j])
    && (forall j :: 0 <= j < |l.live.keptB| ==> l.live.keptB[j])
  }

  ghost predicate NextWithoutGivingUp(m: Mesh, m': Mesh) {
    exists e :: Possible(m, e) && m' == After(m, e) && !e.a.GiveUp?
  }

  lemma FlagsStay(m: Mesh, e: Event, i: nat)
    requires Possible(m, e) && !e.a.GiveUp? && i < |m.links| && AllCarriedThrough(m.links[i])
    ensures AllCarriedThrough(After(m, e).links[i])
  {
    if i == e.link {
      var l := m.links[i];
      assert After(m, e).links[i].live == LiveAct(l.live, e.atA, e.a);
    }
  }

  lemma {:induction false} NothingIsGivenUp(t: seq<Mesh>, n: nat, i: nat)
    requires n < |t| && i < |t[0].links| && AllCarriedThrough(t[0].links[i])
    requires forall k :: 0 <= k < n ==> NextWithoutGivingUp(t[k], t[k + 1])
    ensures |t[n].links| == |t[0].links| && AllCarriedThrough(t[n].links[i])
    ensures t[n].links[i].allA == t[0].links[i].allA && t[n].links[i].allB == t[0].links[i].allB
  {
    if n > 0 {
      NothingIsGivenUp(t, n - 1, i);
      assert NextWithoutGivingUp(t[n - 1], t[n - 1 + 1]);
      var e :| Possible(t[n - 1], e) && t[n] == After(t[n - 1], e) && !e.a.GiveUp?;
      FlagsStay(t[n - 1], e, i);
    }
  }

  lemma FinishedMeansAll(l: Link)
    requires Finished(l) && AllCarriedThrough(l)
    ensures l.live.sys.b.task.delivered == l.allA && l.live.sys.a.task.delivered == l.allB
  {
    AllKept(l.allA, l.live.keptA);
    AllKept(l.allB, l.live.keptB);
  }

  lemma {:induction false} LinksStay(t: seq<Mesh>, n: nat)
    requires MeshBehavior(t) && n < |t|
    ensures |t[n].links| == |t[0].links|
  {
    if n > 0 {
      LinksStay(t, n - 1);
      assert MeshNext(t[n - 1], t[n - 1 + 1]);
    }
  }

  /** If nobody gives up, a finished connection has delivered everything that its ends were to send. */
  lemma EverythingIsDelivered(t: seq<Mesh>, n: nat, i: nat)
    requires MeshBehavior(t) && n < |t| && i < |t[n].links| && Finished(t[n].links[i])
    requires forall k :: 0 <= k < n ==> NextWithoutGivingUp(t[k], t[k + 1])
    ensures
      var l := t[n].links[i];
      l.live.sys.b.task.delivered == l.allA && l.live.sys.a.task.delivered == l.allB
  {
    LinksStay(t, n);
    NothingIsGivenUp(t, n, i);
    FinishedMeansAll(t[n].links[i]);
  }

  ghost predicate AllFinished(m: Mesh) {
    forall i :: 0 <= i < |m.links| ==> Finished(m.links[i])
  }

  ghost predicate FinishingRun(t: seq<Mesh>, m: Mesh) {
    && t != [] && t[0] == m && (forall k :: 0 <= k < |t| - 1 ==> NextWithoutGivingUp(t[k], t[k + 1]))
    && AllFinished(t[|t| - 1])
  }

  lemma FinishLater(m: Mesh, rest: seq<Mesh>)
    requires rest != [] && FinishingRun(rest, rest[0]) && NextWithoutGivingUp(m, rest[0])
    ensures FinishingRun([m] + rest, m)
  {
    var t := [m] + rest;
    forall k | 0 <= k < |t| - 1
      ensures NextWithoutGivingUp(t[k], t[k + 1])
    {
      if k > 0 {
        assert NextWithoutGivingUp(rest[k - 1], rest[k - 1 + 1]);
      }
    }
    assert t[|t| - 1] == rest[|rest| - 1];
  }

  /** From every reachable state there is a run to the end in which nobody gives up. */
  lemma {:induction false} CanFinish(m: Mesh) returns (t: seq<Mesh>)
    requires MeshInv(m)
    ensures FinishingRun(t, m)
    decreases TotalMeasure(m.links)
  {
    if AllFinished(m) {
      t := [m];
    } else {
      SomebodyMoves(m);
      var e :| Possible(m, e) && !e.a.GiveUp?;
      MeshStep(m, e);
      t := CanFinish(After(m, e));
      assert NextWithoutGivingUp(m, After(m, e));
      FinishLater(m, t);
      t := [m] + t;
    }
  }

  /** The default of the configuration. */
  const INCOMING_MESSAGE_BYTES_MAX: nat := 512 * 1024 * 1024

  /** With the default every message that can be encoded can be received. */
  lemma DefaultServesAll(m: Mesh)
    requires forall s :: s in m.caps ==> s == INCOMING_MESSAGE_BYTES_MAX
    requires forall i :: 0 <= i < |m.links| ==>
               var l := m.links[i];
               && l.live == NewLive(l.allA, l.allB) && l.semA < |m.caps| && l.semB < |m.caps|
               && (forall x :: x in l.allA + l.allB ==> Encodable(x))
    ensures Initial(m)
    ensures INCOMING_MESSAGE_BYTES_MAX == MAX_PAYLOAD + 1
  {
    forall i | 0 <= i < |m.links|
      ensures Fits(m.links[i].allA, m.caps[m.links[i].semB]) && Fits(m.links[i].allB, m.caps[m.links[i].semA])
    {
      var l := m.links[i];
      assert m.caps[l.semA] in m.caps && m.caps[l.semB] in m.caps;
      assert forall x :: x in l.allA || x in l.allB ==> x in l.allA + l.allB;
    }
  }
}
