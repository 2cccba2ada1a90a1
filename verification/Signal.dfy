/** Messages between peers by way of the signal server: a four-byte tag and a body. */
module Signal {
  import opened Core
  import opened Header
  import opened Encoder

  type Bytes = seq<byte>

  const F_HREQ: Bytes := [0x68, 0x72, 0x65, 0x71]
  const F_HRES: Bytes := [0x68, 0x72, 0x65, 0x73]
  const F_OFFR: Bytes := [0x6f, 0x66, 0x66, 0x72]
  const F_ANSW: Bytes := [0x61, 0x6e, 0x73, 0x77]
  const F_ICEM: Bytes := [0x69, 0x63, 0x65, 0x6d]
  const F_FMSG: Bytes := [0x66, 0x6d, 0x73, 0x67]
  const F_KEEP: Bytes := [0x6b, 0x65, 0x65, 0x70]

  const NONCE_LEN: nat := 32

  /** The longest body of a forwarded message. */
  const MESSAGE_LIMIT: nat := 16 * 1024

  datatype SignalMessage =
    | HandshakeReq(nonce: Bytes)
    | HandshakeRes(nonce: Bytes)
    | Offer(body: Bytes)
    | Answer(body: Bytes)
    | Ice(body: Bytes)
    | Message(body: Bytes)
    | Keepalive
    | Unknown

  /** The bytes of a message, as its constructor function makes them. */
  function Build(m: SignalMessage): Result<Bytes>
    requires m != Unknown
  {
    match m
    case HandshakeReq(nonce) => Ok(F_HREQ + nonce)
    case HandshakeRes(nonce) => Ok(F_HRES + nonce)
    case Offer(body) => Ok(F_OFFR + body)
    case Answer(body) => Ok(F_ANSW + body)
    case Ice(body) => Ok(F_ICEM + body)
    case Message(body) => if |body| > MESSAGE_LIMIT then Err(MsgTooLong) else Ok(F_FMSG + body)
    case Keepalive => Ok(F_KEEP)
  }

  function Parse(b: Bytes): Result<SignalMessage> {
    if |b| < 4 then Err(MsgTooShort)
    else
      var tag, body := b[..4], b[4..];
      if tag == F_HREQ then if |b| != 4 + NONCE_LEN then Err(InvalidHandshakeLen) else Ok(HandshakeReq(body))
      else if tag == F_HRES then if |b| != 4 + NONCE_LEN then Err(InvalidHandshakeLen) else Ok(HandshakeRes(body))
      else if tag == F_OFFR then Ok(Offer(body))
      else if tag == F_ANSW then Ok(Answer(body))
      else if tag == F_ICEM then Ok(Ice(body))
      else if tag == F_FMSG then Ok(Message(body))
      else if tag == F_KEEP then Ok(Keepalive)
      else Ok(Unknown)
  }

  /** Nonces are arrays of 32 bytes. */
  predicate WellFormed(m: SignalMessage) {
    && m != Unknown
    && (m.HandshakeReq? || m.HandshakeRes? ==> |m.nonce| == NONCE_LEN)
  }

  lemma TagAndBody(tag: Bytes, body: Bytes)
    requires |tag| == 4
    ensures (tag + body)[..4] == tag && (tag + body)[4..] == body
  {
  }

  /** A message that can be built is parsed as itself, and only an over-long one cannot be built. */
  lemma ParseUndoesBuild(m: SignalMessage)
    requires WellFormed(m)
    ensures Build(m).Err? <==> m.Message? && |m.body| > 16384
    ensures Build(m).Ok? ==> Parse(Build(m).value) == Ok(m)
  {
    match m
    case HandshakeReq(nonce) => TagAndBody(F_HREQ, nonce);
    case HandshakeRes(nonce) => TagAndBody(F_HRES, nonce);
    case Offer(body) => TagAndBody(F_OFFR, body);
    case Answer(body) => TagAndBody(F_ANSW, body);
    case Ice(body) => TagAndBody(F_ICEM, body);
    case Message(body) => TagAndBody(F_FMSG, body);
    case Keepalive => assert F_KEEP[..4] == F_KEEP;
  }

  /**
   What is parsed is well formed and would be built from the same bytes, except that parsing drops
   the bytes after a keepalive tag and does not enforce the limit on forwarded messages.
   */
  lemma BuildUndoesParse(b: Bytes)
    requires Parse(b).Ok? && Parse(b).value != Unknown
    ensures WellFormed(Parse(b).value)
    ensures
      var m := Parse(b).value;
      Build(m) == Ok(b) <==> !(m.Keepalive? && |b| > 4) && !(m.Message? && |b| > 4 + MESSAGE_LIMIT)
  {
    assert b == b[..4] + b[4..] && (|b| == 4 ==> b == b[..4]);
  }

  /** Everything this side can queue for the relay is a frame that `message` accepts unchanged. */
  lemma FrameIsRelaySafe(f: Frame)
    requires InRange(f.hdr) && |f.payload| <= CHUNK
    ensures Build(Message(Wire(f))).Ok? && Parse(Build(Message(Wire(f))).value) == Ok(Message(Wire(f)))
  {
    ParseUndoesBuild(Message(Wire(f)));
  }

  /** All frames of any message pass the relay and come out as they went in. */
  lemma EveryFrameIsRelaySafe(data: Msg, i: nat)
    requires Encodable(data)
    ensures IsSmall(data) ==> RelaySafe(SmallFrame(data))
    ensures RelaySafe(RequestFrame(data))
    ensures i < |ChunkFrames(data, 0)| ==> RelaySafe(ChunkFrames(data, 0)[i])
  {
    if IsSmall(data) {
      FrameIsRelaySafe(SmallFrame(data));
    }
    FrameIsRelaySafe(RequestFrame(data));
    ChunkingIsExact(data);
    if i < |ChunkFrames(data, 0)| {
      assert GoodChunk(ChunkFrames(data, 0)[i], i + 1 == |ChunkFrames(data, 0)|);
      FrameIsRelaySafe(ChunkFrames(data, 0)[i]);
    }
  }

  predicate RelaySafe(f: Frame) {
    && InRange(f.hdr)
    && Build(Message(Wire(f))).Ok?
    && Parse(Build(Message(Wire(f))).value) == Ok(Message(Wire(f)))
  }

  // ----- receiving from the signal server

  type Key = seq<byte>

  /** A message from a peer as the server delivers it. */
  datatype Raw = Raw(key: Key, bytes: Bytes)

  datatype Signal = Signal(key: Key, msg: SignalMessage)

  /** What `recv_message` returns from a list of raw messages, one call after the other. */
  function Received(raws: seq<Raw>): seq<Signal> {
    if raws == [] then []
    else
      var first := Parse(raws[0].bytes);
      if first.Ok? && first.value != Unknown then [Signal(raws[0].key, first.value)] + Received(raws[1..])
      else Received(raws[1..])
  }

  /** The peers that are closed because of bytes that cannot be parsed. */
  function ClosedPeers(raws: seq<Raw>): seq<Key> {
    if raws == [] then []
    else if Parse(raws[0].bytes).Err? then [raws[0].key] + ClosedPeers(raws[1..])
    else ClosedPeers(raws[1..])
  }

  /** One call: skip what is unknown, close peers that send garbage, stop at the first message. */
  method RecvMessage(raws: seq<Raw>) returns (r: Option<Signal>, rest: seq<Raw>, closed: seq<Key>)
    ensures r.None? ==> rest == [] && Received(raws) == []
    ensures r.Some? ==> Received(raws) == [r.value] + Received(rest) && |rest| < |raws|
    ensures ClosedPeers(raws) == closed + ClosedPeers(rest)
  {
    rest, closed := raws, [];
    while rest != []
      invariant |rest| <= |raws|
      invariant Received(rest) == Received(raws)
      invariant ClosedPeers(raws) == closed + ClosedPeers(rest)
    {
      var raw := rest[0];
      rest := rest[1..];
      var parsed := Parse(raw.bytes);
      if parsed.Err? {
        ConcatAssoc(closed, [raw.key], ClosedPeers(rest));
        closed := closed + [raw.key];
      } else if parsed.value != Unknown {
        return Some(Signal(raw.key, parsed.value)), rest, closed;
      }
    }
    r := None;
  }

  /** The bytes of a text. */
  function Ascii(text: string): seq<int> {
    if text == "" then [] else Ascii(text[..|text| - 1]) + [text[|text| - 1] as int]
  }

  lemma FourLetters(text: string)
    requires |text| == 4
    ensures Ascii(text) == [text[0] as int, text[1] as int, text[2] as int, text[3] as int]
  {
    assert text[..3][..2] == text[..2] && text[..2][..1] == text[..1] && text[..1][..0] == "";
    assert Ascii(text[..1]) == [text[0] as int];
    assert Ascii(text[..2]) == Ascii(text[..1]) + [text[1] as int];
    assert Ascii(text[..3]) == Ascii(text[..2]) + [text[2] as int];
  }

  /** The four letters a message begins with, and what is wrong with one that does not parse. */
  lemma ParseMeans(b: Bytes)
    ensures |b| < 4 <==> Parse(b) == Err(MsgTooShort)
    ensures |b| >= 4 ==>
              var tag, body := b[..4], b[4..];
              Parse(b) ==
              if tag == Ascii("hreq") then if |body| == 32 then Ok(HandshakeReq(body)) else Err(InvalidHandshakeLen)
              else if tag == Ascii("hres") then if |body| == 32 then Ok(HandshakeRes(body)) else Err(InvalidHandshakeLen)
              else if tag == Ascii("offr") then Ok(Offer(body))
              else if tag == Ascii("answ") then Ok(Answer(body))
              else if tag == Ascii("icem") then Ok(Ice(body))
              else if tag == Ascii("fmsg") then Ok(Message(body))
              else if tag == Ascii("keep") then Ok(Keepalive)
              else Ok(Unknown)
  {
    FourLetters("hreq");
    FourLetters("hres");
    FourLetters("offr");
    FourLetters("answ");
    FourLetters("icem");
    FourLetters("fmsg");
    FourLetters("keep");
  }

  /** Raw messages are independent of each other. */
  lemma {:induction false} ReceivedConcat(a: seq<Raw>, b: seq<Raw>)
    ensures Received(a + b) == Received(a) + Received(b)
  {
    if a == [] {
      assert a + b == b;
    } else {
      assert (a + b)[1..] == a[1..] + b;
      ReceivedConcat(a[1..], b);
      if Parse(a[0].bytes).Ok? && Parse(a[0].bytes).value != Unknown {
        ConcatAssoc([Signal(a[0].key, Parse(a[0].bytes).value)], Received(a[1..]), Received(b));
      }
    }
  }

  lemma {:induction false} ClosedConcat(a: seq<Raw>, b: seq<Raw>)
    ensures ClosedPeers(a + b) == ClosedPeers(a) + ClosedPeers(b)
  {
    if a == [] {
      assert a + b == b;
    } else {
      assert (a + b)[1..] == a[1..] + b;
      ClosedConcat(a[1..], b);
      if Parse(a[0].bytes).Err? {
        ConcatAssoc([a[0].key], ClosedPeers(a[1..]), ClosedPeers(b));
      }
    }
  }

  /**
   Among any others, a raw message closes its sender exactly when it is shorter than a tag or a
   handshake message without 32 bytes of nonce, and is returned exactly when it has a known tag.
   */
  lemma OneRaw(before: seq<Raw>, raw: Raw, after: seq<Raw>)
    ensures
      var raws := before + [raw] + after;
      var bad := Parse(raw.bytes).Err?;
      && ClosedPeers(raws) == ClosedPeers(before) + (if bad then [raw.key] else []) + ClosedPeers(after)
      && Received(raws) == Received(before) +
                           (if bad || Parse(raw.bytes).value == Unknown then [] else [Signal(raw.key, Parse(raw.bytes).value)]) +
                           Received(after)
  {
    var one := [raw];
    ReceivedConcat(before + one, after);
    ReceivedConcat(before, one);
    ClosedConcat(before + one, after);
    ClosedConcat(before, one);
    Single(raw);
  }

  lemma Single(raw: Raw)
    ensures ClosedPeers([raw]) == if Parse(raw.bytes).Err? then [raw.key] else []
    ensures Received([raw]) == if Parse(raw.bytes).Err? || Parse(raw.bytes).value == Unknown then []
                               else [Signal(raw.key, Parse(raw.bytes).value)]
  {
    assert [raw][1..] == [];
  }

  predicate Sendable(m: SignalMessage) {
    WellFormed(m) && Build(m).Ok?
  }

  /** The bytes of well-formed messages from their senders. */
  function Sent(signals: seq<Signal>): seq<Raw>
    requires forall i :: 0 <= i < |signals| ==> Sendable(signals[i].msg)
  {
    if signals == [] then []
    else
      assert Sendable(signals[0].msg);
      [Raw(signals[0].key, Build(signals[0].msg).value)] + Sent(signals[1..])
  }

  /** The relay lane: what peers build arrives complete, in order, and closes nobody. */
  lemma {:induction false} RelayDeliversInOrder(signals: seq<Signal>)
    requires forall i :: 0 <= i < |signals| ==> Sendable(signals[i].msg)
    ensures Received(Sent(signals)) == signals && ClosedPeers(Sent(signals)) == []
  {
    if signals != [] {
      RelayDeliversInOrder(signals[1..]);
      ParseUndoesBuild(signals[0].msg);
      assert Sent(signals)[1..] == Sent(signals[1..]);
    }
  }
}
