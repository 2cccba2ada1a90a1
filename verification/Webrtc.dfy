/**
 The WebRTC task: who offers and who answers, and how a send waits until the backend's buffer
 has room. The backend itself is an environment that may drain the buffer at any moment.
 */
module Webrtc {
  import opened Core

  // ----- the WebRTC task

  datatype Backend = LibDataChannel | GoPion

  type Bytes = seq<byte>

  /** A session description. */
  datatype Desc = OfferDesc(sdp: Bytes) | AnswerDesc(sdp: Bytes)

  /**
   `pend` are the responders of messages waiting for room, `applied` the remote descriptions and
   `made` the local ones that were handed out as events.
   */
  datatype Task = Task(
    backend: Backend,
    isPolite: bool,
    hasOffer: bool,
    hasData: bool,
    didHandshake: bool,
    pend: seq<nat>,
    applied: seq<Desc>,
    made: seq<Desc>,
    running: bool)

  /** What the backend does with a description; go-pion may apply an offer and then fail to answer it. */
  datatype Outcome = Accepts | Refuses | FailsToAnswer(sent: bool)

  /** An impolite peer offers as soon as its task begins. */
  function NewTask(backend: Backend, isPolite: bool, offer: Bytes): Task {
    Task(backend, isPolite, !isPolite, !isPolite, false, [], [], if isPolite then [] else [OfferDesc(offer)], true)
  }

  /** Only polite peers take offers, and only one; the backend makes the answer. */
  function InOffer(t: Task, offer: Bytes, r: Outcome, answer: Bytes): Task {
    if t.isPolite && !t.didHandshake then
      match r
      case Accepts =>
        t.(didHandshake := true, applied := t.applied + [OfferDesc(offer)], made := t.made + [AnswerDesc(answer)])
      case Refuses => t.(running := false)
      case FailsToAnswer(sent) =>
        if t.backend == GoPion then
          t.(running := false, applied := t.applied + [OfferDesc(offer)],
             made := t.made + if sent then [AnswerDesc(answer)] else [])
        else t.(running := false)
    else t
  }

  /** Only impolite peers take answers, and only one; go-pion also spends its own offer on it. */
  function InAnswer(t: Task, answer: Bytes, r: Outcome): Task {
    if !t.isPolite && !t.didHandshake && (t.backend == GoPion ==> t.hasOffer) then
      var u := if t.backend == GoPion then t.(hasOffer := false) else t;
      if r.Accepts? then u.(didHandshake := true, applied := t.applied + [AnswerDesc(answer)])
      else u.(running := false)
    else t
  }

  /** A data channel from the remote; a second one is an error only for libdatachannel. */
  function DataChan(t: Task): Task {
    if !t.hasData then t.(hasData := true)
    else if t.backend == LibDataChannel then t.(running := false) else t
  }

  /** After a message went to the backend, which now holds `amt` bytes: hold the responder or drop it. */
  function AfterSend(pend: seq<nat>, resp: nat, amt: nat, sendBuffer: nat): seq<nat> {
    if amt <= sendBuffer then [] else pend + [resp]
  }

  class WebrtcTask {
    const backend: Backend
    const isPolite: bool
    const sendBuffer: nat
    var hasOffer: bool
    var hasData: bool
    var didHandshake: bool
    var pend: seq<nat>
    var applied: seq<Desc>
    var made: seq<Desc>
    var running: bool

    ghost function Model(): Task
      reads this
    {
      Task(backend, isPolite, hasOffer, hasData, didHandshake, pend, applied, made, running)
    }

    constructor (backend: Backend, isPolite: bool, sendBuffer: nat, offer: Bytes)
      ensures Model() == NewTask(backend, isPolite, offer) && this.sendBuffer == sendBuffer
    {
      this.backend, this.isPolite, this.sendBuffer := backend, isPolite, sendBuffer;
      hasOffer, hasData := !isPolite, !isPolite;
      didHandshake, pend, applied, made, running := false, [], [], [], true;
      if !isPolite {
        made := [OfferDesc(offer)];
      }
    }

    method HandleOffer(offer: Bytes, r: Outcome, answer: Bytes)
      modifies this
      ensures Model() == InOffer(old(Model()), offer, r, answer)
      ensures isPolite && !old(didHandshake) && r == Accepts ==>
                && didHandshake && applied == old(applied) + [OfferDesc(offer)]
                && made == old(made) + [AnswerDesc(answer)]
    {
      if isPolite && !didHandshake {
        if r.Refuses? || (r.FailsToAnswer? && backend == LibDataChannel) {
          running := false;
          return;
        }
        applied := applied + [OfferDesc(offer)];
        if r.FailsToAnswer? && !r.sent {
          running := false;
          return;
        }
        made := made + [AnswerDesc(answer)];
        if r.FailsToAnswer? {
          running := false;
          return;
        }
        didHandshake := true;
      }
    }

    method HandleAnswer(answer: Bytes, r: Outcome)
      modifies this
      ensures Model() == InAnswer(old(Model()), answer, r)
      ensures !isPolite && !old(didHandshake) && old(hasOffer) && r == Accepts ==>
                didHandshake && applied == old(applied) + [AnswerDesc(answer)]
    {
      if !isPolite && !didHandshake {
        if backend == GoPion {
          if !hasOffer {
            return;
          }
          hasOffer := false;
        }
        if !r.Accepts? {
          running := false;
          return;
        }
        applied := applied + [AnswerDesc(answer)];
        didHandshake := true;
      }
    }

    method HandleDataChan()
      modifies this
      ensures Model() == DataChan(old(Model()))
    {
      if !hasData {
        hasData := true;
      } else if backend == LibDataChannel {
        running := false;
      }
    }

    /** `ok` is whether the backend took the message, `amt` what it holds afterwards. */
    method HandleSendMessage(resp: nat, ok: bool, amt: nat)
      modifies this
      ensures Model() ==
              if !old(hasData) || !ok then old(Model()).(running := false)
              else old(Model()).(pend := AfterSend(old(pend), resp, amt, sendBuffer))
    {
      if !hasData || !ok {
        running := false;
        return;
      }
      if amt <= sendBuffer {
        pend := [];
      } else {
        pend := pend + [resp];
      }
    }

    method HandleBufferedAmountLow()
      modifies this
      ensures Model() == old(Model()).(pend := [])
    {
      pend := [];
    }
  }

  /** After n data channels from the remote; a loop that ended takes no more. */
  function AfterDataChans(t: Task, n: nat): Task {
    if n == 0 then t
    else
      var u := AfterDataChans(t, n - 1);
      if u.running then DataChan(u) else u
  }

  /**
   One data channel is ever in use: the impolite side's own, or the first the polite side receives.
   One too many ends the loop for libdatachannel and changes nothing for go-pion.
   */
  lemma {:induction false} OneDataChannel(backend: Backend, isPolite: bool, offer: Bytes, n: nat)
    ensures
      var t := AfterDataChans(NewTask(backend, isPolite, offer), n);
      && (t.hasData <==> !isPolite || n > 0)
      && (t.running <==> backend == GoPion || n <= if isPolite then 1 else 0)
      && t == NewTask(backend, isPolite, offer).(hasData := t.hasData, running := t.running)
  {
    if n > 0 {
      OneDataChannel(backend, isPolite, offer, n - 1);
    }
  }

  // ----- backpressure

  /** A command in the queue that concerns sending. */
  datatype Queued = Msg(len: nat, resp: nat) | BufferedAmountLow

  /** Between commands, or between `send` and `buffered_amount` of one SendMessage. */
  datatype Busy = Between | Sent(resp: nat)

  /** `awaiting` is the responder the connection task waits for; `limit` the largest message. */
  datatype Flow = Flow(
    buffered: nat,
    threshold: nat,
    limit: nat,
    queue: seq<Queued>,
    busy: Busy,
    pend: seq<nat>,
    awaiting: Option<nat>,
    nextResp: nat)

  datatype FlowStep =
    | Post(len: nat)   // the connection task sends a message and waits for its responder
    | Take             // the WebRTC task takes the next command
    | Read             // and, after `send`, reads the buffered amount
    | Drain(n: nat)    // the network takes bytes; crossing the threshold queues the event

  predicate FlowCan(s: Flow, e: FlowStep) {
    match e
    case Post(len) => s.awaiting == None && len <= s.limit
    case Take => s.busy == Between && s.queue != []
    case Read => s.busy.Sent?
    case Drain(n) => n <= s.buffered
  }

  /** Dropping the responder the connection task waits for lets it go on. */
  function Wake(s: Flow, pend: seq<nat>): Flow {
    s.(pend := pend, busy := Between,
       awaiting := if s.awaiting.Some? && s.awaiting.value in pend then s.awaiting else None)
  }

  function TakeNext(s: Flow, q: Queued): Flow {
    match q
    case Msg(len, resp) => s.(buffered := s.buffered + len, busy := Sent(resp))
    case BufferedAmountLow => s.(pend := [], awaiting := if s.pend == [] then s.awaiting else None)
  }

  function FlowApply(s: Flow, e: FlowStep): Flow
    requires FlowCan(s, e)
  {
    match e
    case Post(len) => s.(queue := s.queue + [Msg(len, s.nextResp)], awaiting := Some(s.nextResp), nextResp := s.nextResp + 1)
    case Take => TakeNext(s.(queue := s.queue[1..]), s.queue[0])
    case Read => Wake(s, AfterSend(s.pend, s.busy.resp, s.buffered, s.threshold))
    case Drain(n) =>
      var t := s.(buffered := s.buffered - n);
      if s.buffered > s.threshold && t.buffered <= s.threshold then t.(queue := s.queue + [BufferedAmountLow]) else t
  }

  predicate LowQueued(queue: seq<Queued>) {
    BufferedAmountLow in queue
  }

  predicate MsgQueued(queue: seq<Queued>) {
    exists i :: 0 <= i < |queue| && queue[i].Msg?
  }

  predicate FlowInv(s: Flow) {
    // the one outstanding message is queued, being sent, or held
    && (forall i :: 0 <= i < |s.queue| && s.queue[i].Msg? ==>
          s.awaiting == Some(s.queue[i].resp) && s.busy == Between && s.pend == [] && s.queue[i].len <= s.limit)
    && (forall i, j :: 0 <= i < j < |s.queue| && s.queue[i].Msg? ==> !s.queue[j].Msg?)
    && (s.busy.Sent? ==> s.awaiting == Some(s.busy.resp) && s.pend == [])
    && (s.pend != [] ==> s.busy == Between && s.awaiting.Some? && s.pend == [s.awaiting.value])
    && (s.awaiting.Some? ==> MsgQueued(s.queue) || s.busy.Sent? || s.pend != [])
    // room before a message is sent
    && (s.busy == Between && s.pend == [] ==> s.buffered <= s.threshold)
    && (LowQueued(s.queue) ==> s.buffered <= s.threshold)
    && (forall i, j :: 0 <= i < j < |s.queue| && s.queue[i].Msg? ==> s.queue[j] != BufferedAmountLow)
    && s.buffered <= s.threshold + s.limit
    // no lost wakeup
    && (s.pend != [] ==> s.buffered > s.threshold || LowQueued(s.queue))
  }

  function NewFlow(threshold: nat, limit: nat): Flow {
    Flow(0, threshold, limit, [], Between, [], None, 0)
  }

  lemma PostKeeps(s: Flow, len: nat)
    requires FlowInv(s) && FlowCan(s, Post(len))
    ensures FlowInv(FlowApply(s, Post(len)))
  {
    assert FlowApply(s, Post(len)).queue[|s.queue|].Msg?;
  }

  lemma DrainKeeps(s: Flow, n: nat)
    requires FlowInv(s) && FlowCan(s, Drain(n))
    ensures FlowInv(FlowApply(s, Drain(n)))
  {
    var t := FlowApply(s, Drain(n));
    assert forall i :: 0 <= i < |s.queue| ==> t.queue[i] == s.queue[i];
    if MsgQueued(s.queue) {
      var i :| 0 <= i < |s.queue| && s.queue[i].Msg?;
      assert t.queue[i].Msg?;
    }
  }

  lemma TakeKeeps(s: Flow)
    requires FlowInv(s) && FlowCan(s, Take)
    ensures FlowInv(FlowApply(s, Take))
  {
    var t := FlowApply(s, Take);
    assert forall i :: 0 <= i < |t.queue| ==> t.queue[i] == s.queue[i + 1];
    if MsgQueued(s.queue) {
      var i :| 0 <= i < |s.queue| && s.queue[i].Msg?;
      assert i > 0 ==> t.queue[i - 1].Msg?;
    }
  }

  lemma FlowKeeps(s: Flow, e: FlowStep)
    requires FlowInv(s) && FlowCan(s, e)
    ensures FlowInv(FlowApply(s, e))
  {
    match e {
      case Post(len) => PostKeeps(s, len);
      case Drain(n) => DrainKeeps(s, n);
      case Take => TakeKeeps(s);
      case Read =>
    }
  }

  function FlowRun(threshold: nat, limit: nat, steps: seq<FlowStep>): Option<Flow> {
    if steps == [] then Some(NewFlow(threshold, limit))
    else
      var n := |steps| - 1;
      var r := FlowRun(threshold, limit, steps[..n]);
      if r.Some? && FlowCan(r.value, steps[n]) then Some(FlowApply(r.value, steps[n])) else None
  }

  /**
   In every run the buffer holds at most the threshold and one message, at most one responder is
   held, and a held responder means that the buffer is still over the threshold or that the event
   that will drop it is queued; so a sender never waits on an idle task with room in the buffer.
   */
  lemma {:induction false} Backpressure(threshold: nat, limit: nat, steps: seq<FlowStep>)
    requires FlowRun(threshold, limit, steps).Some?
    ensures
      var s := FlowRun(threshold, limit, steps).value;
      && FlowInv(s) && s.threshold == threshold && s.limit == limit
      && s.buffered <= threshold + limit && |s.pend| <= 1
      && (s.pend != [] ==> s.buffered > threshold || BufferedAmountLow in s.queue)
      && (s.awaiting.Some? && s.queue == [] && s.busy == Between ==> s.buffered > threshold)
  {
    if steps != [] {
      var n := |steps| - 1;
      Backpressure(threshold, limit, steps[..n]);
      FlowKeeps(FlowRun(threshold, limit, steps[..n]).value, steps[n]);
    }
  }

  // ----- negotiation

  /** Byte-wise order of public keys. */
  predicate Less(a: seq<byte>, b: seq<byte>) {
    if b == [] then false
    else if a == [] then true
    else a[0] < b[0] || (a[0] == b[0] && Less(a[1..], b[1..]))
  }

  /** A peer is polite when the other's key is the larger one. */
  predicate Polite(mine: seq<byte>, other: seq<byte>) {
    Less(mine, other)
  }

  lemma {:induction false} ExactlyOnePolite(a: seq<byte>, b: seq<byte>)
    requires a != b
    ensures Polite(a, b) <==> !Polite(b, a)
  {
    if a != [] && b != [] && a[0] == b[0] {
      assert a == [a[0]] + a[1..] && b == [b[0]] + b[1..];
      ExactlyOnePolite(a[1..], b[1..]);
    }
  }

  /** The other's key is larger where the two first differ, or goes on where mine ends. */
  lemma {:induction false} PoliteMeans(mine: seq<byte>, other: seq<byte>, n: nat)
    requires n <= |mine| && n < |other| && mine[..n] == other[..n]
    requires n < |mine| ==> mine[n] < other[n]
    ensures Polite(mine, other) && !Polite(other, mine)
  {
    if n > 0 {
      assert mine[0] == mine[..n][0] == other[..n][0] == other[0];
      assert mine[1..][..n - 1] == mine[..n][1..] && other[1..][..n - 1] == other[..n][1..];
      PoliteMeans(mine[1..], other[1..], n - 1);
    }
  }

  /**
   Two tasks. Every description either of them ever made may arrive at either, late, in any order
   and any number of times.
   */
  datatype Glare = Glare(a: Task, b: Task)

  /** A description arrives; `answer` is what the backend would answer. */
  datatype Arrival = Arrival(toA: bool, d: Desc, r: Outcome, answer: Bytes)

  function Arrive(t: Task, e: Arrival): Task {
    if !t.running then t
    else if e.d.OfferDesc? then InOffer(t, e.d.sdp, e.r, e.answer) else InAnswer(t, e.d.sdp, e.r)
  }

  predicate Made(s: Glare, d: Desc) {
    d in s.a.made || d in s.b.made
  }

  function GlareApply(s: Glare, e: Arrival): Glare {
    if !Made(s, e.d) then s
    else if e.toA then s.(a := Arrive(s.a, e)) else s.(b := Arrive(s.b, e))
  }

  /** Two peers with their keys, and what each would offer. */
  function NewGlare(backendA: Backend, backendB: Backend, keyA: Bytes, keyB: Bytes, offerA: Bytes, offerB: Bytes): Glare {
    Glare(NewTask(backendA, Polite(keyA, keyB), offerA), NewTask(backendB, Polite(keyB, keyA), offerB))
  }

  function GlareRun(s: Glare, arrivals: seq<Arrival>): Glare {
    if arrivals == [] then s else GlareApply(GlareRun(s, arrivals[..|arrivals| - 1]), arrivals[|arrivals| - 1])
  }

  /** One description each way at most, of the kind the role allows. */
  predicate RoleOk(t: Task) {
    && |t.applied| <= 1 && |t.made| <= 1
    && (t.applied != [] ==> if t.isPolite then t.applied[0].OfferDesc? else t.applied[0].AnswerDesc?)
    && (t.made != [] ==> if t.isPolite then t.made[0].AnswerDesc? && t.applied != [] else t.made[0].OfferDesc?)
    && (!t.isPolite ==> t.made != [])
    && (t.running ==> (t.didHandshake <==> t.applied != []))
    && (t.running && t.isPolite ==> (t.applied != [] <==> t.made != []))
    && (t.running && !t.isPolite && t.applied == [] ==> t.hasOffer)
  }

  /** What the two hold together, the polite one first. */
  predicate Crossed(p: Task, q: Task) {
    && (p.applied != [] ==> p.applied == q.made)
    && (q.applied != [] ==> q.applied == p.made)
  }

  predicate GlareInv(s: Glare) {
    && s.a.isPolite != s.b.isPolite
    && RoleOk(s.a) && RoleOk(s.b)
    && if s.a.isPolite then Crossed(s.a, s.b) else Crossed(s.b, s.a)
  }

  lemma ArriveKeeps(t: Task, e: Arrival)
    requires RoleOk(t)
    ensures RoleOk(Arrive(t, e)) && t.made <= Arrive(t, e).made && Arrive(t, e).isPolite == t.isPolite
    ensures Arrive(t, e).applied == t.applied || Arrive(t, e).applied == [e.d]
  {
  }

  lemma GlareKeeps(s: Glare, e: Arrival)
    requires GlareInv(s)
    ensures GlareInv(GlareApply(s, e))
  {
    ArriveKeeps(if e.toA then s.a else s.b, e);
  }

  /** An offer from the peer that the backend takes is applied, and answered. */
  lemma OfferIsAnswered(s: Glare, e: Arrival)
    requires GlareInv(s) && e.d.OfferDesc? && Made(s, e.d) && e.r == Accepts
    requires var t := if e.toA then s.a else s.b; t.running && t.isPolite && t.applied == []
    ensures
      var t, u := if e.toA then s.a else s.b, if e.toA then GlareApply(s, e).a else GlareApply(s, e).b;
      u.running && u.didHandshake && u.applied == [OfferDesc(e.d.sdp)] && u.made == [AnswerDesc(e.answer)]
  {
  }

  /** An answer from the peer that the backend takes is applied. */
  lemma AnswerIsApplied(s: Glare, e: Arrival)
    requires GlareInv(s) && e.d.AnswerDesc? && Made(s, e.d) && e.r == Accepts
    requires var t := if e.toA then s.a else s.b; t.running && !t.isPolite && t.applied == []
    ensures
      var u := if e.toA then GlareApply(s, e).a else GlareApply(s, e).b;
      u.running && u.didHandshake && u.applied == [AnswerDesc(e.d.sdp)]
  {
  }

  /**
   For distinct keys and either backend, whatever the network delays, reorders or repeats: each
   side applies at most one remote description, the polite side the offer the other made, and the
   impolite side the answer that the polite side made to its offer.
   */
  lemma {:induction false} NegotiationIsGlareFree(backendA: Backend, backendB: Backend, keyA: Bytes, keyB: Bytes,
                                                  offerA: Bytes, offerB: Bytes, arrivals: seq<Arrival>)
    requires keyA != keyB
    ensures
      var s := GlareRun(NewGlare(backendA, backendB, keyA, keyB, offerA, offerB), arrivals);
      && GlareInv(s)
      && |s.a.applied| <= 1 && |s.b.applied| <= 1
      && var p, q := if s.a.isPolite then s.a else s.b, if s.a.isPolite then s.b else s.a;
         && q.made == [OfferDesc(if s.a.isPolite then offerB else offerA)]
         && (p.applied != [] ==> p.applied == q.made)
         && (q.applied != [] ==> q.applied == p.made && q.applied[0].AnswerDesc? && p.applied == q.made)
  {
    ExactlyOnePolite(keyA, keyB);
    if arrivals != [] {
      var before := arrivals[..|arrivals| - 1];
      var s, e := GlareRun(NewGlare(backendA, backendB, keyA, keyB, offerA, offerB), before), arrivals[|arrivals| - 1];
      NegotiationIsGlareFree(backendA, backendB, keyA, keyB, offerA, offerB, before);
      GlareKeeps(s, e);
      ArriveKeeps(if e.toA then s.a else s.b, e);
    }
  }

  /**
   A description that was made arrives at a running side, is of the kind for its role, and the
   backend takes it: go-pion also takes an offer that it then fails to answer.
   */
  predicate Takes(g: Glare, e: Arrival, toA: bool) {
    var t := if toA then g.a else g.b;
    && e.toA == toA && Made(g, e.d) && t.running
    && (t.isPolite <==> e.d.OfferDesc?)
    && (e.r.Accepts? || (t.isPolite && t.backend == GoPion && e.r.FailsToAnswer?))
  }

  function Taken(s: Glare, arrivals: seq<Arrival>, toA: bool): seq<Desc> {
    if arrivals == [] then []
    else
      var n := |arrivals| - 1;
      Taken(s, arrivals[..n], toA) + if Takes(GlareRun(s, arrivals[..n]), arrivals[n], toA) then [arrivals[n].d] else []
  }

  /** A side has applied a description exactly when one was taken, and then the first that was. */
  lemma {:induction false} AppliedIsTaken(s: Glare, arrivals: seq<Arrival>, toA: bool)
    requires GlareInv(s) && s.a.applied == [] == s.b.applied
    ensures
      var g, d := GlareRun(s, arrivals), Taken(s, arrivals, toA);
      && GlareInv(g)
      && (if toA then g.a else g.b).applied == if d == [] then [] else [d[0]]
  {
    if arrivals != [] {
      var n := |arrivals| - 1;
      AppliedIsTaken(s, arrivals[..n], toA);
      GlareKeeps(GlareRun(s, arrivals[..n]), arrivals[n]);
      TakesNow(GlareRun(s, arrivals[..n]), arrivals[n], toA);
    }
  }

  lemma TakesNow(g: Glare, e: Arrival, toA: bool)
    requires GlareInv(g)
    ensures
      var t, u := if toA then g.a else g.b, if toA then GlareApply(g, e).a else GlareApply(g, e).b;
      && u.applied == (if t.applied == [] && Takes(g, e, toA) then [e.d] else t.applied)
      && u.made == (if t.applied == [] && Takes(g, e, toA) && t.isPolite && (e.r.Accepts? || e.r.sent)
                    then [AnswerDesc(e.answer)] else t.made)
      && u.running == (t.running && !(e.toA == toA && Made(g, e.d) && t.applied == [] &&
                                      (t.isPolite <==> e.d.OfferDesc?) && !e.r.Accepts?))
  {
  }

  /** As long as the backend takes everything, a side is done exactly when its description has arrived. */
  lemma {:induction false} AcceptedIsDone(s: Glare, arrivals: seq<Arrival>)
    requires GlareInv(s) && s.a.running && s.b.running && s.a.applied == [] == s.b.applied
    requires forall e: Arrival :: e in arrivals ==> e.r == Accepts
    ensures
      var g := GlareRun(s, arrivals);
      && GlareInv(g) && g.a.running && g.b.running
      && (g.a.didHandshake <==> Taken(s, arrivals, true) != [])
      && (g.b.didHandshake <==> Taken(s, arrivals, false) != [])
  {
    AppliedIsTaken(s, arrivals, true);
    AppliedIsTaken(s, arrivals, false);
    if arrivals != [] {
      var n := |arrivals| - 1;
      AcceptedIsDone(s, arrivals[..n]);
      assert arrivals[n] in arrivals;
      AcceptsGoesOn(GlareRun(s, arrivals[..n]), arrivals[n]);
    }
  }

  lemma AcceptsGoesOn(g: Glare, e: Arrival)
    requires GlareInv(g) && g.a.running && g.b.running && e.r == Accepts
    ensures GlareApply(g, e).a.running && GlareApply(g, e).b.running
  {
  }
}
