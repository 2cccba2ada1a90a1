/**
 What the decoder accepts, said without the decoder: the receive events spell a version frame
 followed by whole messages and at most one unfinished message, and the events of the other
 direction (our permit requests, the remote's grants) alternate. The two are freely shuffled.
 */
module Grammar {
  import opened Core
  import opened Header
  import opened Encoder
  import opened Decoder

  /** One call on the decoder. */
  datatype Event =
    | Recv(f: Frame)
    | GrantSent(permit: nat)
    | RequestSent(notify: Option<nat>)

  /** The calls so far: the decoder, whether every call succeeded, and what was delivered. */
  datatype Trace = Trace(dec: Dec, accepted: bool, delivered: seq<Msg>)

  function Deliveries(r: Result<DecodeResult>): seq<Msg> {
    if r.Ok? && r.value.Message? then [r.value.msg] else []
  }

  function Call(t: Trace, e: Event): Trace {
    match e
    case Recv(f) =>
      var o := DecodeFrame(t.dec, f);
      Trace(o.dec, t.accepted && o.result.Ok?, t.delivered + Deliveries(o.result))
    case GrantSent(permit) =>
      var o := SentGrant(t.dec, permit);
      Trace(o.dec, t.accepted && o.result.Ok?, t.delivered)
    case RequestSent(notify) =>
      var o := SentRequest(t.dec, notify);
      Trace(o.dec, t.accepted && o.result.Ok?, t.delivered)
  }

  function Run(h: seq<Event>): Trace {
    if h == [] then Trace(INIT_DEC, true, []) else Call(Run(h[..|h| - 1]), h[|h| - 1])
  }

  // ----- the two directions of a history

  predicate IsTxEvent(e: Event) {
    e.RequestSent? || (e.Recv? && e.f.hdr.PermitGrant?)
  }

  function RxEvents(h: seq<Event>): seq<Event> {
    if h == [] then []
    else RxEvents(h[..|h| - 1]) + if IsTxEvent(h[|h| - 1]) then [] else [h[|h| - 1]]
  }

  function TxEvents(h: seq<Event>): seq<Event> {
    if h == [] then []
    else TxEvents(h[..|h| - 1]) + if IsTxEvent(h[|h| - 1]) then [h[|h| - 1]] else []
  }

  // ----- the grammar

  /** A message frame, or a permit request, our grant, and the chunks. */
  datatype Item = Small(f: Frame) | Large(req: Frame, permit: nat, chunks: seq<Frame>)

  /** What follows the whole messages. */
  datatype Tail = Nothing | Asked(req: Frame) | Granted(req: Frame, permit: nat, chunks: seq<Frame>)

  predicate IsChunk(f: Frame) {
    f.hdr.MultipartMessage? && f.hdr.size == |f.payload| > 0
  }

  predicate AreChunks(fs: seq<Frame>) {
    forall i :: 0 <= i < |fs| ==> IsChunk(fs[i])
  }

  predicate WellFormedItem(it: Item) {
    match it
    case Small(f) => f.hdr.CompleteMessage? && f.hdr.size == |f.payload|
    case Large(req, _, chunks) =>
      req.hdr.PermitRequest? && AreChunks(chunks) && |chunks| > 0 && |Payloads(chunks)| == req.hdr.size
  }

  predicate WellFormedTail(t: Tail) {
    match t
    case Nothing => true
    case Asked(req) => req.hdr.PermitRequest?
    case Granted(req, _, chunks) =>
      req.hdr.PermitRequest? && AreChunks(chunks) && (chunks == [] || |Payloads(chunks)| < req.hdr.size)
  }

  predicate WellFormed(items: seq<Item>, t: Tail) {
    (forall i :: 0 <= i < |items| ==> WellFormedItem(items[i])) && WellFormedTail(t)
  }

  function RecvAll(fs: seq<Frame>): (s: seq<Event>)
    ensures |s| == |fs|
  {
    if fs == [] then [] else RecvAll(fs[..|fs| - 1]) + [Recv(fs[|fs| - 1])]
  }

  function SpellItem(it: Item): seq<Event> {
    match it
    case Small(f) => [Recv(f)]
    case Large(req, permit, chunks) => [Recv(req), GrantSent(permit)] + RecvAll(chunks)
  }

  function SpellTail(t: Tail): seq<Event> {
    match t
    case Nothing => []
    case Asked(req) => [Recv(req)]
    case Granted(req, permit, chunks) => [Recv(req), GrantSent(permit)] + RecvAll(chunks)
  }

  function SpellItems(items: seq<Item>): seq<Event> {
    if items == [] then [] else SpellItems(items[..|items| - 1]) + SpellItem(items[|items| - 1])
  }

  /** A version frame, whole messages, and the beginning of one more. */
  function Sentence(extra: seq<byte>, items: seq<Item>, t: Tail): seq<Event> {
    [Recv(Frame(PROTO_VER_2, extra))] + Body(items, t)
  }

  function Body(items: seq<Item>, t: Tail): seq<Event> {
    SpellItems(items) + SpellTail(t)
  }

  ghost predicate Viable(s: seq<Event>) {
    s == [] || exists extra, items, t :: WellFormed(items, t) && s == Sentence(extra, items, t)
  }

  /** Requests and grants alternate, a request first. */
  predicate Alternates(s: seq<Event>) {
    forall i :: 0 <= i < |s| ==> (s[i].RequestSent? <==> i % 2 == 0)
  }

  function ItemMessage(it: Item): Msg {
    match it
    case Small(f) => f.payload
    case Large(_, _, chunks) => Payloads(chunks)
  }

  function Messages(items: seq<Item>): seq<Msg> {
    if items == [] then [] else Messages(items[..|items| - 1]) + [ItemMessage(items[|items| - 1])]
  }

  /** The receiving half after a sentence with this tail. */
  ghost predicate Matches(rx: Rx, t: Tail) {
    match t
    case Nothing => rx.state == Ready && rx.incoming == [] && rx.grantPermit == None
    case Asked(req) =>
      req.hdr.PermitRequest? && rx.state == RemoteAwaitingPermit(req.hdr.size)
      && rx.incoming == [] && rx.grantPermit == None
    case Granted(req, permit, chunks) =>
      req.hdr.PermitRequest? && rx.state == ReceiveChunked && rx.wantSize == req.hdr.size
      && rx.incoming == Payloads(chunks) && rx.grantPermit == Some(permit)
  }

  // ----- the two halves run apart

  datatype RxTrace = RxTrace(rx: Rx, accepted: bool, delivered: seq<Msg>)

  function RxCall(t: RxTrace, e: Event): RxTrace
    requires !IsTxEvent(e)
  {
    if !t.accepted then t
    else if e.Recv? then
      var o := RxStep(t.rx, e.f);
      RxTrace(o.rx, o.result.Ok?, t.delivered + Deliveries(o.result))
    else if t.rx.state.RemoteAwaitingPermit? then t.(rx := RxGrant(t.rx, e.permit))
    else t.(accepted := false)
  }

  predicate NoTx(s: seq<Event>) {
    forall i :: 0 <= i < |s| ==> !IsTxEvent(s[i])
  }

  function RxFrom(t: RxTrace, s: seq<Event>): RxTrace
    requires NoTx(s)
  {
    if s == [] then t else RxCall(RxFrom(t, s[..|s| - 1]), s[|s| - 1])
  }

  const RX_START := RxTrace(INIT_RX, true, [])

  lemma {:induction false} RxFromConcat(t: RxTrace, a: seq<Event>, b: seq<Event>)
    requires NoTx(a) && NoTx(b)
    ensures NoTx(a + b) && RxFrom(t, a + b) == RxFrom(RxFrom(t, a), b)
  {
    if b == [] {
      assert a + b == a;
    } else {
      RxFromConcat(t, a, b[..|b| - 1]);
      assert (a + b)[..|a + b| - 1] == a + b[..|b| - 1];
    }
  }

  lemma {:induction false} EventsAreOfTheirKind(h: seq<Event>)
    ensures NoTx(RxEvents(h))
    ensures forall i :: 0 <= i < |TxEvents(h)| ==> IsTxEvent(TxEvents(h)[i])
  {
    if h != [] {
      EventsAreOfTheirKind(h[..|h| - 1]);
    }
  }

  /** Half by half, the decoder after a history. */
  ghost predicate Halves(t: Trace, r: RxTrace, tx: seq<Event>) {
    && (t.accepted <==> r.accepted && Alternates(tx))
    && (t.accepted ==> t.dec.rx == r.rx && t.delivered == r.delivered)
    && (t.accepted <==> !t.dec.didError)
    && (t.accepted ==> (t.dec.tx.wantRemoteGrant <==> |tx| % 2 == 1))
  }

  lemma TxCall(t: Trace, r: RxTrace, tx: seq<Event>, e: Event)
    requires Halves(t, r, tx) && IsTxEvent(e)
    ensures Halves(Call(t, e), r, tx + [e])
  {
    AlternatesSnoc(tx, e);
    assert t.delivered + [] == t.delivered;
  }

  /** A history is accepted exactly when each half is, and the halves do not meet. */
  lemma {:induction false} HalvesAreIndependent(h: seq<Event>)
    ensures NoTx(RxEvents(h))
    ensures Halves(Run(h), RxFrom(RX_START, RxEvents(h)), TxEvents(h))
  {
    EventsAreOfTheirKind(h);
    if h != [] {
      var g := h[..|h| - 1];
      var e := h[|h| - 1];
      HalvesAreIndependent(g);
      if IsTxEvent(e) {
        assert RxEvents(h) == RxEvents(g);
        TxCall(Run(g), RxFrom(RX_START, RxEvents(g)), TxEvents(g), e);
      } else {
        assert TxEvents(h) == TxEvents(g);
        var s := RxEvents(h);
        assert s[..|s| - 1] == RxEvents(g);
      }
    }
  }

  lemma AlternatesSnoc(s: seq<Event>, e: Event)
    ensures Alternates(s + [e]) <==> Alternates(s) && (e.RequestSent? <==> |s| % 2 == 0)
  {
    var u := s + [e];
    assert forall i :: 0 <= i < |s| ==> u[i] == s[i];
    assert u[|s|] == e;
  }

  // ----- every sentence is accepted

  lemma {:induction false} RecvAllIsRx(fs: seq<Frame>)
    requires AreChunks(fs)
    ensures NoTx(RecvAll(fs))
  {
    if fs != [] {
      RecvAllIsRx(fs[..|fs| - 1]);
    }
  }

  /** Chunks are collected until they fill the requested size. */
  lemma {:induction false} ChunksAreCollected(t: RxTrace, fs: seq<Frame>)
    requires t.accepted && t.rx.state == ReceiveChunked && t.rx.incoming == []
    requires AreChunks(fs) && |Payloads(fs)| <= t.rx.wantSize
    ensures NoTx(RecvAll(fs))
    ensures
      RxFrom(t, RecvAll(fs)) ==
      if fs != [] && |Payloads(fs)| == t.rx.wantSize
      then RxTrace(Rx(Ready, t.rx.wantSize, [], None), true, t.delivered + [Payloads(fs)])
      else t.(rx := t.rx.(incoming := Payloads(fs)))
  {
    RecvAllIsRx(fs);
    if fs != [] {
      ChunksAreCollected(t, fs[..|fs| - 1]);
      assert RecvAll(fs)[..|fs| - 1] == RecvAll(fs[..|fs| - 1]);
      assert t.delivered + [] == t.delivered;
    }
  }

  lemma RequestAndGrant(t: RxTrace, req: Frame, permit: nat)
    requires t.accepted && Matches(t.rx, Nothing) && req.hdr.PermitRequest?
    ensures
      var s := [Recv(req), GrantSent(permit)];
      var r := RxFrom(t, s);
      && r.accepted && r.delivered == t.delivered && Matches(r.rx, Granted(req, permit, []))
  {
    var s := [Recv(req), GrantSent(permit)];
    assert s[..1] == [Recv(req)];
    assert s[..1][..0] == [];
    assert RxFrom(t, s[..1][..0]) == t;
    assert t.delivered + [] == t.delivered;
  }

  lemma ItemIsAccepted(t: RxTrace, it: Item)
    requires t.accepted && Matches(t.rx, Nothing) && WellFormedItem(it)
    ensures NoTx(SpellItem(it))
    ensures
      var r := RxFrom(t, SpellItem(it));
      && r.accepted && r.delivered == t.delivered + [ItemMessage(it)] && Matches(r.rx, Nothing)
  {
    match it
    case Small(f) =>
      assert SpellItem(it)[..0] == [];
    case Large(req, permit, chunks) =>
      RequestAndGrant(t, req, permit);
      var r := RxFrom(t, [Recv(req), GrantSent(permit)]);
      ChunksAreCollected(r, chunks);
      RxFromConcat(t, [Recv(req), GrantSent(permit)], RecvAll(chunks));
  }

  lemma TailIsAccepted(t: RxTrace, tail: Tail)
    requires t.accepted && Matches(t.rx, Nothing) && WellFormedTail(tail)
    ensures NoTx(SpellTail(tail))
    ensures
      var r := RxFrom(t, SpellTail(tail));
      && r.accepted && r.delivered == t.delivered && Matches(r.rx, tail)
  {
    match tail
    case Nothing =>
    case Asked(req) =>
      assert SpellTail(tail)[..0] == [];
      assert t.delivered + [] == t.delivered;
    case Granted(req, permit, chunks) =>
      RequestAndGrant(t, req, permit);
      var r := RxFrom(t, [Recv(req), GrantSent(permit)]);
      ChunksAreCollected(r, chunks);
      RxFromConcat(t, [Recv(req), GrantSent(permit)], RecvAll(chunks));
  }

  lemma {:induction false} ItemsAreAccepted(t: RxTrace, items: seq<Item>)
    requires t.accepted && Matches(t.rx, Nothing) && WellFormed(items, Nothing)
    ensures NoTx(SpellItems(items))
    ensures
      var r := RxFrom(t, SpellItems(items));
      && r.accepted && r.delivered == t.delivered + Messages(items) && Matches(r.rx, Nothing)
  {
    if items != [] {
      var init, last := items[..|items| - 1], items[|items| - 1];
      ItemsAreAccepted(t, init);
      ItemIsAccepted(RxFrom(t, SpellItems(init)), last);
      RxFromConcat(t, SpellItems(init), SpellItem(last));
    }
  }

  /** A sentence is accepted, delivers its whole messages and holds its unfinished one. */
  lemma SentenceIsAccepted(extra: seq<byte>, items: seq<Item>, tail: Tail)
    requires WellFormed(items, tail)
    ensures NoTx(Sentence(extra, items, tail))
    ensures
      var r := RxFrom(RX_START, Sentence(extra, items, tail));
      && r.accepted && r.delivered == Messages(items) && Matches(r.rx, tail)
  {
    var version := [Recv(Frame(PROTO_VER_2, extra))];
    assert version[..0] == [];
    assert RxFrom(RX_START, version[..0]) == RX_START;
    var t := RxFrom(RX_START, version);
    assert t == RxCall(RX_START, version[0]);
    ItemsAreAccepted(t, items);
    TailIsAccepted(RxFrom(t, SpellItems(items)), tail);
    RxFromConcat(t, SpellItems(items), SpellTail(tail));
    RxFromConcat(RX_START, version, Body(items, tail));
  }

  // ----- everything accepted is a sentence

  lemma AppendItem(items: seq<Item>, tail: Tail, e: Event, it: Item)
    requires SpellTail(tail) + [e] == SpellItem(it)
    ensures Body(items + [it], Nothing) == Body(items, tail) + [e]
  {
    assert (items + [it])[..|items|] == items;
    ConcatAssoc(SpellItems(items), SpellTail(tail), [e]);
  }

  lemma AppendTail(items: seq<Item>, tail: Tail, e: Event, tail': Tail)
    requires SpellTail(tail) + [e] == SpellTail(tail')
    ensures Body(items, tail') == Body(items, tail) + [e]
  {
    ConcatAssoc(SpellItems(items), SpellTail(tail), [e]);
  }

  lemma AppendChunk(req: Frame, permit: nat, chunks: seq<Frame>, f: Frame)
    ensures Payloads(chunks + [f]) == Payloads(chunks) + f.payload
    ensures SpellTail(Granted(req, permit, chunks)) + [Recv(f)] == SpellTail(Granted(req, permit, chunks + [f]))
  {
    var all := chunks + [f];
    assert all[..|all| - 1] == chunks;
    ConcatAssoc([Recv(req), GrantSent(permit)], RecvAll(chunks), [Recv(f)]);
  }

  /** One more accepted event extends the unfinished message or completes it. */
  lemma ExtendSentence(t: RxTrace, items: seq<Item>, tail: Tail, e: Event)
    returns (items': seq<Item>, tail': Tail)
    requires t.accepted && Matches(t.rx, tail) && WellFormed(items, tail)
    requires !IsTxEvent(e) && RxCall(t, e).accepted
    ensures WellFormed(items', tail') && Body(items', tail') == Body(items, tail) + [e]
  {
    items', tail' := items, Nothing;
    if tail.Nothing? && e.f.hdr.CompleteMessage? {
      items' := items + [Small(e.f)];
      AppendItem(items, tail, e, Small(e.f));
    } else if tail.Nothing? {
      tail' := Asked(e.f);
      AppendTail(items, tail, e, tail');
    } else if tail.Asked? {
      tail' := Granted(tail.req, e.permit, []);
      assert SpellTail(tail') == SpellTail(tail) + [e];
      AppendTail(items, tail, e, tail');
    } else {
      items', tail' := ExtendChunks(t, items, tail, e);
    }
  }

  /** An accepted event after a grant is a chunk that does not exceed the requested size. */
  lemma AcceptedChunk(t: RxTrace, tail: Tail, e: Event)
    requires t.accepted && Matches(t.rx, tail) && tail.Granted?
    requires !IsTxEvent(e) && RxCall(t, e).accepted
    ensures e.Recv? && IsChunk(e.f) && |Payloads(tail.chunks)| + |e.f.payload| <= tail.req.hdr.size
  {
  }

  lemma ExtendChunks(t: RxTrace, items: seq<Item>, tail: Tail, e: Event)
    returns (items': seq<Item>, tail': Tail)
    requires t.accepted && Matches(t.rx, tail) && WellFormed(items, tail) && tail.Granted?
    requires !IsTxEvent(e) && RxCall(t, e).accepted
    ensures WellFormed(items', tail') && Body(items', tail') == Body(items, tail) + [e]
  {
    AcceptedChunk(t, tail, e);
    items', tail' := AddChunk(items, tail, e.f);
  }

  lemma LastChunkAdded(items: seq<Item>, tail: Tail, f: Frame)
    requires tail.Granted? && AreChunks(tail.chunks) && IsChunk(f) && tail.req.hdr.PermitRequest?
    requires |Payloads(tail.chunks)| + |f.payload| == tail.req.hdr.size
    ensures
      var it := Large(tail.req, tail.permit, tail.chunks + [f]);
      WellFormedItem(it) && Body(items + [it], Nothing) == Body(items, tail) + [Recv(f)]
  {
    AppendChunk(tail.req, tail.permit, tail.chunks, f);
    AppendItem(items, tail, Recv(f), Large(tail.req, tail.permit, tail.chunks + [f]));
  }

  lemma ChunkAdded(items: seq<Item>, tail: Tail, f: Frame)
    requires tail.Granted? && AreChunks(tail.chunks) && IsChunk(f) && tail.req.hdr.PermitRequest?
    requires |Payloads(tail.chunks)| + |f.payload| < tail.req.hdr.size
    ensures
      var tail' := Granted(tail.req, tail.permit, tail.chunks + [f]);
      WellFormedTail(tail') && Body(items, tail') == Body(items, tail) + [Recv(f)]
  {
    AppendChunk(tail.req, tail.permit, tail.chunks, f);
    AppendTail(items, tail, Recv(f), Granted(tail.req, tail.permit, tail.chunks + [f]));
  }

  lemma AddChunk(items: seq<Item>, tail: Tail, f: Frame) returns (items': seq<Item>, tail': Tail)
    requires WellFormed(items, tail) && tail.Granted? && IsChunk(f)
    requires |Payloads(tail.chunks)| + |f.payload| <= tail.req.hdr.size
    ensures WellFormed(items', tail') && Body(items', tail') == Body(items, tail) + [Recv(f)]
  {
    if |Payloads(tail.chunks)| + |f.payload| == tail.req.hdr.size {
      LastChunkAdded(items, tail, f);
      items', tail' := items + [Large(tail.req, tail.permit, tail.chunks + [f])], Nothing;
    } else {
      ChunkAdded(items, tail, f);
      items', tail' := items, Granted(tail.req, tail.permit, tail.chunks + [f]);
    }
  }

  /** Read the sentence off an accepted run. */
  lemma {:induction false} AcceptedIsSentence(s: seq<Event>) returns (extra: seq<byte>, items: seq<Item>, tail: Tail)
    requires NoTx(s) && s != [] && RxFrom(RX_START, s).accepted
    ensures WellFormed(items, tail) && s == Sentence(extra, items, tail)
  {
    var p, e := s[..|s| - 1], s[|s| - 1];
    assert s == p + [e];
    if p == [] {
      extra, items, tail := e.f.payload, [], Nothing;
    } else {
      extra, items, tail := AcceptedIsSentence(p);
      SentenceIsAccepted(extra, items, tail);
      ConcatAssoc([Recv(Frame(PROTO_VER_2, extra))], Body(items, tail), [e]);
      items, tail := ExtendSentence(RxFrom(RX_START, p), items, tail, e);
    }
  }

  /**
   A history of frames is accepted exactly when its receive events are viable and the events of
   the other direction alternate.
   */
  lemma FramesAreRecognised(h: seq<Event>)
    ensures Run(h).accepted <==> Viable(RxEvents(h)) && Alternates(TxEvents(h))
  {
    HalvesAreIndependent(h);
    var s := RxEvents(h);
    if s != [] && RxFrom(RX_START, s).accepted {
      var extra, items, tail := AcceptedIsSentence(s);
    }
    if s != [] && Viable(s) {
      var extra, items, tail :| WellFormed(items, tail) && s == Sentence(extra, items, tail);
      SentenceIsAccepted(extra, items, tail);
    }
  }

  /** What an accepted history has delivered, and what it has collected so far. */
  lemma AcceptedHistoryMeans(h: seq<Event>, extra: seq<byte>, items: seq<Item>, tail: Tail)
    requires WellFormed(items, tail)
    requires RxEvents(h) == Sentence(extra, items, tail) && Alternates(TxEvents(h))
    ensures
      var t := Run(h);
      && t.accepted && t.delivered == Messages(items) && Matches(t.dec.rx, tail)
      && (t.dec.tx.wantRemoteGrant <==> |TxEvents(h)| % 2 == 1)
  {
    HalvesAreIndependent(h);
    SentenceIsAccepted(extra, items, tail);
  }

  lemma RunSnoc(h: seq<Event>, e: Event)
    ensures Run(h + [e]) == Call(Run(h), e)
  {
    assert (h + [e])[..|h|] == h;
  }

  /** Each accepted chunk brings the decoder strictly closer to the message it wants. */
  lemma ChunksMakeProgress(rx: Rx, f: Frame)
    requires f.hdr.MultipartMessage? && RxStep(rx, f).result.Ok?
    ensures
      var next := RxStep(rx, f).rx;
      && |f.payload| > 0 && rx.wantSize - |rx.incoming| >= |f.payload|
      && (next.state == Ready || next.wantSize - |next.incoming| == rx.wantSize - |rx.incoming| - |f.payload|)
      && (next.state == Ready <==> |rx.incoming| + |f.payload| == rx.wantSize)
  {
  }

  // ----- the same for arbitrary bytes

  /** A call with whatever bytes came in, parsed or not. */
  datatype Input = Chunk(bytes: seq<byte>) | Grant(permit: nat) | Request(notify: Option<nat>)

  function Feed(t: Trace, x: Input): Trace {
    match x
    case Chunk(bytes) =>
      var o := Decode(t.dec, bytes);
      Trace(o.dec, t.accepted && o.result.Ok?, t.delivered + Deliveries(o.result))
    case Grant(permit) => Call(t, GrantSent(permit))
    case Request(notify) => Call(t, RequestSent(notify))
  }

  function RunInputs(h: seq<Input>): Trace {
    if h == [] then Trace(INIT_DEC, true, []) else Feed(RunInputs(h[..|h| - 1]), h[|h| - 1])
  }

  /** The bytes have a header with a known tag. */
  predicate Parses(x: Input) {
    x.Chunk? ==> Parse(x.bytes).Ok?
  }

  predicate AllParse(h: seq<Input>) {
    forall i :: 0 <= i < |h| ==> Parses(h[i])
  }

  function AsEvent(x: Input): Event
    requires Parses(x)
  {
    match x
    case Chunk(bytes) => Recv(Parse(bytes).value)
    case Grant(permit) => GrantSent(permit)
    case Request(notify) => RequestSent(notify)
  }

  function AsEvents(h: seq<Input>): seq<Event>
    requires AllParse(h)
  {
    if h == [] then [] else AsEvents(h[..|h| - 1]) + [AsEvent(h[|h| - 1])]
  }

  /** Bytes that parse are the frame they parse to, and the decoder fails exactly on a rejected history. */
  lemma {:induction false} InputsAreEvents(h: seq<Input>)
    ensures RunInputs(h).accepted <==> !RunInputs(h).dec.didError
    ensures if AllParse(h) then RunInputs(h) == Run(AsEvents(h)) else !RunInputs(h).accepted
  {
    if h != [] {
      var g, x := h[..|h| - 1], h[|h| - 1];
      InputsAreEvents(g);
      assert AllParse(h) <==> AllParse(g) && Parses(x) by {
        assert forall i :: 0 <= i < |g| ==> g[i] == h[i];
      }
      if AllParse(h) {
        RunSnoc(AsEvents(g), AsEvent(x));
      }
    }
  }

  /**
   The decoder accepts a history of arbitrary bytes and calls exactly when all bytes parse, the
   frames received are viable, and requests and grants of the other direction alternate.
   */
  lemma DecoderRecognisesGrammar(h: seq<Input>)
    ensures RunInputs(h).accepted <==>
            AllParse(h) && Viable(RxEvents(AsEvents(h))) && Alternates(TxEvents(AsEvents(h)))
  {
    InputsAreEvents(h);
    if AllParse(h) {
      FramesAreRecognised(AsEvents(h));
    }
  }

  lemma InputsSnoc(h: seq<Input>, x: Input)
    ensures RunInputs(h + [x]) == Feed(RunInputs(h), x)
  {
    assert (h + [x])[..|h|] == h;
  }

  /** After an error, whatever its cause, every call fails and nothing more is delivered. */
  lemma {:induction false} ErrorIsFinal(h: seq<Input>, more: seq<Input>)
    requires !RunInputs(h).accepted
    ensures RunInputs(h + more) == RunInputs(h)
  {
    if more == [] {
      assert h + more == h;
    } else {
      var init, x := more[..|more| - 1], more[|more| - 1];
      ErrorIsFinal(h, init);
      InputsAreEvents(h);
      InputsSnoc(h + init, x);
      FailedFeed(RunInputs(h), x);
      assert h + more == (h + init) + [x];
    }
  }

  lemma FailedFeed(t: Trace, x: Input)
    requires t.dec.didError && !t.accepted
    ensures Feed(t, x) == t
  {
    assert t.delivered + [] == t.delivered;
  }

  // ----- no byte is lost, added or moved

  function Flatten(msgs: seq<Msg>): seq<byte> {
    if msgs == [] then [] else Flatten(msgs[..|msgs| - 1]) + msgs[|msgs| - 1]
  }

  /** The message bytes in the frames received so far, in order. */
  function CarriedBytes(h: seq<Event>): seq<byte> {
    if h == [] then []
    else
      var e := h[|h| - 1];
      CarriedBytes(h[..|h| - 1]) + if e.Recv? then Carried(e.f) else []
  }

  function Carried(f: Frame): seq<byte> {
    if f.hdr.CompleteMessage? || f.hdr.MultipartMessage? then f.payload else []
  }

  lemma FlattenSnoc(msgs: seq<Msg>, m: Msg)
    ensures Flatten(msgs + [m]) == Flatten(msgs) + m
  {
    assert (msgs + [m])[..|msgs|] == msgs;
  }

  /** The bytes accepted are those delivered followed by those collected. */
  lemma {:induction false} BytesAreConserved(h: seq<Event>)
    requires Run(h).accepted
    ensures CarriedBytes(h) == Flatten(Run(h).delivered) + Run(h).dec.rx.incoming
    ensures Run(h).dec.rx.state != ReceiveChunked ==> Run(h).dec.rx.incoming == []
  {
    if h != [] {
      var g, e := h[..|h| - 1], h[|h| - 1];
      var t, u := Run(g), Run(h);
      BytesAreConserved(g);
      assert t.delivered + [] == t.delivered;
      if e.Recv? && !e.f.hdr.PermitGrant? {
        OneFrameConserves(t, e);
      }
    }
  }

  /** A frame's bytes go to the collected ones, and those leave only as a whole message. */
  lemma FrameConserves(rx: Rx, f: Frame)
    requires !f.hdr.PermitGrant? && RxStep(rx, f).result.Ok?
    requires rx.state != ReceiveChunked ==> rx.incoming == []
    ensures
      var o := RxStep(rx, f);
      && (o.rx.state != ReceiveChunked ==> o.rx.incoming == [])
      && if o.result.value.Message? then o.result.value.msg == rx.incoming + Carried(f) && o.rx.incoming == []
         else o.rx.incoming == rx.incoming + Carried(f)
  {
  }

  lemma OneFrameConserves(t: Trace, e: Event)
    requires e.Recv? && !e.f.hdr.PermitGrant? && Call(t, e).accepted
    requires t.dec.rx.state != ReceiveChunked ==> t.dec.rx.incoming == []
    ensures
      var u := Call(t, e);
      && Flatten(u.delivered) + u.dec.rx.incoming == (Flatten(t.delivered) + t.dec.rx.incoming) + Carried(e.f)
      && (u.dec.rx.state != ReceiveChunked ==> u.dec.rx.incoming == [])
  {
    FrameConserves(t.dec.rx, e.f);
    assert t.delivered + [] == t.delivered;
    ConcatAssoc(Flatten(t.delivered), t.dec.rx.incoming, Carried(e.f));
    FlattenSnoc(t.delivered, t.dec.rx.incoming + Carried(e.f));
  }

  // ----- decoding undoes encoding

  /** The item that carries a message, with some permit for a large one. */
  function Encoded(m: Msg, permit: nat): Item
    requires Encodable(m)
  {
    if IsSmall(m) then Small(SmallFrame(m)) else Large(RequestFrame(m), permit, ChunkFrames(m, 0))
  }

  lemma EncodedIsWellFormed(m: Msg, permit: nat)
    requires Encodable(m)
    ensures WellFormedItem(Encoded(m, permit)) && ItemMessage(Encoded(m, permit)) == m
  {
    ChunkingIsExact(m);
    var fs := ChunkFrames(m, 0);
    assert forall i :: 0 <= i < |fs| ==> GoodChunk(fs[i], i + 1 == |fs|);
  }

  function EncodedAll(msgs: seq<Msg>, permits: seq<nat>): seq<Item>
    requires |permits| == |msgs|
    requires forall i :: 0 <= i < |msgs| ==> Encodable(msgs[i])
  {
    if msgs == [] then []
    else
      var n := |msgs| - 1;
      EncodedAll(msgs[..n], permits[..n]) + [Encoded(msgs[n], permits[n])]
  }

  lemma {:induction false} EncodedAllIsWellFormed(msgs: seq<Msg>, permits: seq<nat>)
    requires |permits| == |msgs|
    requires forall i :: 0 <= i < |msgs| ==> Encodable(msgs[i])
    ensures WellFormed(EncodedAll(msgs, permits), Nothing)
    ensures Messages(EncodedAll(msgs, permits)) == msgs
  {
    if msgs != [] {
      var n := |msgs| - 1;
      EncodedAllIsWellFormed(msgs[..n], permits[..n]);
      EncodedIsWellFormed(msgs[n], permits[n]);
      assert msgs == msgs[..n] + [msgs[n]];
    }
  }

  /**
   Feeding the decoder the frames of any messages, with our grant after each permit request and
   any alternating requests and grants of the other direction shuffled in, delivers exactly those
   messages and leaves the decoder ready and empty.
   */
  lemma DecodeUndoesEncodeAll(h: seq<Event>, extra: seq<byte>, msgs: seq<Msg>, permits: seq<nat>)
    requires |permits| == |msgs|
    requires forall i :: 0 <= i < |msgs| ==> Encodable(msgs[i])
    requires RxEvents(h) == Sentence(extra, EncodedAll(msgs, permits), Nothing)
    requires Alternates(TxEvents(h))
    ensures
      var t := Run(h);
      && t.accepted && t.delivered == msgs
      && t.dec.rx.state == Ready && t.dec.rx.incoming == [] && t.dec.rx.grantPermit == None
  {
    EncodedAllIsWellFormed(msgs, permits);
    AcceptedHistoryMeans(h, extra, EncodedAll(msgs, permits), Nothing);
  }

  /** On the wire form of a frame, decoding bytes is decoding the frame. */
  lemma DecodeWire(d: Dec, f: Frame)
    requires InRange(f.hdr)
    ensures Decode(d, Wire(f)) == DecodeFrame(d, f)
  {
    ParseUndoesWire(f);
  }
}
