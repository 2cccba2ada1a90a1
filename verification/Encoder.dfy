/**
 Frames and the chunking encoder: a message is one frame, or a permit request followed by
 chunks that each fit a 16 KiB transport message.
 */
module Encoder {
  import opened Core
  import opened Header

  /** What a transport can carry in one message. */
  const FRAME_LIMIT: nat := 16 * 1024

  /** Payload bytes in a full chunk. */
  const CHUNK: nat := FRAME_LIMIT - 4

  /** One transport message, parsed: its header and the bytes after it. */
  datatype Frame = Frame(hdr: ProtoHeader, payload: seq<byte>)

  function Wire(f: Frame): (s: seq<byte>)
    requires InRange(f.hdr)
    ensures |s| == 4 + |f.payload|
  {
    EncodeHeader(f.hdr).value + f.payload
  }

  function Parse(chunk: seq<byte>): (r: Result<Frame>)
    ensures r.Ok? ==> InRange(r.value.hdr) && |r.value.payload| == |chunk| - 4
  {
    if |chunk| < 4 then Err(InvalidHeaderLen)
    else
      match DecodeHeader(chunk[0], chunk[1], chunk[2], chunk[3])
      case Ok(h) => Ok(Frame(h, chunk[4..]))
      case Err(e) => Err(e)
  }

  lemma ParseUndoesWire(f: Frame)
    requires InRange(f.hdr)
    ensures Parse(Wire(f)) == Ok(f)
  {
    DecodeUndoesEncode(f.hdr);
    assert Wire(f)[4..] == f.payload;
  }

  lemma WireUndoesParse(chunk: seq<byte>)
    requires Parse(chunk).Ok?
    ensures Wire(Parse(chunk).value) == chunk
  {
    EncodeUndoesDecode(chunk[0], chunk[1], chunk[2], chunk[3]);
    assert chunk == [chunk[0], chunk[1], chunk[2], chunk[3]] + chunk[4..];
  }

  // ----- the frames of a message

  type Msg = seq<byte>

  predicate Encodable(data: Msg) {
    |data| <= MAX_PAYLOAD
  }

  predicate IsSmall(data: Msg) {
    |data| <= CHUNK
  }

  function SmallFrame(data: Msg): (f: Frame)
    requires IsSmall(data)
  {
    Frame(CompleteMessage(|data|), data)
  }

  function RequestFrame(data: Msg): Frame
    requires Encodable(data)
  {
    Frame(PermitRequest(|data|), [])
  }

  /** Where the chunk that starts at `off` ends. */
  function ChunkEnd(data: Msg, off: nat): (end: nat)
    requires off < |data|
    ensures off < end <= |data|
  {
    Min(off + CHUNK, |data|)
  }

  function ChunkFrame(data: Msg, off: nat): (f: Frame)
    requires off < |data|
    ensures InRange(f.hdr) && 0 < |f.payload| <= CHUNK
  {
    Frame(MultipartMessage(ChunkEnd(data, off) - off), data[off..ChunkEnd(data, off)])
  }

  /** The chunk frames that carry `data[off..]`. */
  function ChunkFrames(data: Msg, off: nat): (s: seq<Frame>)
    requires off <= |data|
    decreases |data| - off
  {
    if off == |data| then [] else [ChunkFrame(data, off)] + ChunkFrames(data, ChunkEnd(data, off))
  }

  function Payloads(fs: seq<Frame>): seq<byte> {
    if fs == [] then [] else Payloads(fs[..|fs| - 1]) + fs[|fs| - 1].payload
  }

  lemma {:induction false} PayloadsCons(f: Frame, fs: seq<Frame>)
    ensures Payloads([f] + fs) == f.payload + Payloads(fs)
  {
    if fs == [] {
      assert ([f] + fs)[..0] == [];
    } else {
      var n := |fs| - 1;
      PayloadsCons(f, fs[..n]);
      assert ([f] + fs)[..n + 1] == [f] + fs[..n];
      ConcatAssoc(f.payload, Payloads(fs[..n]), fs[n].payload);
    }
  }

  /** The number of chunks of a message: its length over CHUNK, rounded up. */
  function ChunkCount(len: nat): nat {
    (len + CHUNK - 1) / CHUNK
  }

  /** Chunk i of a message carries bytes [i * CHUNK, (i + 1) * CHUNK), cut at the end. */
  lemma {:induction false} ChunkAt(data: Msg, n: nat, i: nat)
    requires n * CHUNK <= |data|
    ensures |ChunkFrames(data, n * CHUNK)| == ChunkCount(|data|) - n
    ensures i < ChunkCount(|data|) - n ==>
              && (n + i) * CHUNK < |data|
              && ChunkFrames(data, n * CHUNK)[i] == ChunkFrame(data, (n + i) * CHUNK)
    decreases |data| - n * CHUNK
  {
    var off := n * CHUNK;
    if off + CHUNK <= |data| {
      assert ChunkEnd(data, off) == (n + 1) * CHUNK || off == |data|;
      if off < |data| {
        ChunkAt(data, n + 1, if i == 0 then 0 else i - 1);
      }
    } else if off < |data| {
      assert ChunkFrames(data, |data|) == [];
      assert ChunkFrames(data, off) == [ChunkFrame(data, off)];
    }
  }

  lemma {:induction false} PayloadsOfChunks(data: Msg, off: nat)
    requires off <= |data|
    ensures Payloads(ChunkFrames(data, off)) == data[off..]
    decreases |data| - off
  {
    if off < |data| {
      var end := ChunkEnd(data, off);
      PayloadsOfChunks(data, end);
      PayloadsCons(ChunkFrame(data, off), ChunkFrames(data, end));
      assert data[off..] == data[off..end] + data[end..];
    }
  }

  /** A non-empty chunk frame, full unless it is the last, that fits a transport message. */
  predicate GoodChunk(f: Frame, last: bool) {
    && InRange(f.hdr)
    && f.hdr.MultipartMessage?
    && f.hdr.size == |f.payload|
    && (if last then 0 < |f.payload| else |f.payload| == CHUNK)
    && |Wire(f)| <= FRAME_LIMIT
  }

  /**
   Chunking is exact: the payloads spell the message, there are as many chunks as the length
   divided by CHUNK (rounded up), none is empty, all but the last are full, and each frame fits
   a transport message.
   */
  lemma ChunkingIsExact(data: Msg)
    ensures
      var fs := ChunkFrames(data, 0);
      && Payloads(fs) == data
      && |fs| == ChunkCount(|data|)
      && forall i :: 0 <= i < |fs| ==> GoodChunk(fs[i], i + 1 == |fs|)
  {
    var fs := ChunkFrames(data, 0);
    PayloadsOfChunks(data, 0);
    assert data[0..] == data;
    ChunkAt(data, 0, 0);
    forall i | 0 <= i < |fs|
      ensures GoodChunk(fs[i], i + 1 == |fs|)
    {
      ChunkAt(data, 0, i);
      ChunkAtIsGood(data, i);
    }
  }

  lemma ChunkAtIsGood(data: Msg, i: nat)
    requires i * CHUNK < |data|
    ensures GoodChunk(ChunkFrame(data, i * CHUNK), i + 1 == ChunkCount(|data|))
  {
    assert i + 1 == ChunkCount(|data|) <==> (i + 1) * CHUNK >= |data|;
  }

  /** The bytes of `data` that chunk i carries. */
  function Slice(data: Msg, i: nat): seq<byte>
    requires i * 16380 <= |data|
  {
    if |data| < (i + 1) * 16380 then data[i * 16380..] else data[i * 16380..(i + 1) * 16380]
  }

  /** The limits and the frames of a message, in numbers. */
  lemma ChunksInNumbers(data: Msg)
    ensures IsSmall(data) <==> |data| <= 16380
    ensures Encodable(data) <==> |data| <= 536870911
    ensures
      var fs := ChunkFrames(data, 0);
      && |fs| == (|data| + 16379) / 16380
      && forall i :: 0 <= i < |fs| ==>
                       && i * 16380 < |data|
                       && fs[i] == Frame(MultipartMessage(|Slice(data, i)|), Slice(data, i))
  {
    var fs := ChunkFrames(data, 0);
    ChunkAt(data, 0, 0);
    forall i | 0 <= i < |fs|
      ensures i * 16380 < |data|
      ensures fs[i] == Frame(MultipartMessage(|Slice(data, i)|), Slice(data, i))
    {
      ChunkAt(data, 0, i);
    }
  }

  datatype EncodeResult =
    | NeedPermit(permitReq: seq<byte>, msgPayload: seq<seq<byte>>)
    | OneMessage(frame: seq<byte>)

  /** The wire form of each frame. */
  ghost predicate WiresOf(bufs: seq<seq<byte>>, fs: seq<Frame>) {
    && |bufs| == |fs|
    && forall i :: 0 <= i < |fs| ==> InRange(fs[i].hdr) && bufs[i] == Wire(fs[i])
  }

  lemma AddWire(bufs: seq<seq<byte>>, fs: seq<Frame>, f: Frame)
    requires WiresOf(bufs, fs) && InRange(f.hdr)
    ensures WiresOf(bufs + [Wire(f)], fs + [f])
  {
  }

  /** The chunks pushed so far and the ones still to come. */
  ghost predicate Encoding(bufs: seq<seq<byte>>, done: seq<Frame>, data: Msg, cur: nat) {
    && cur <= |data|
    && WiresOf(bufs, done)
    && done + ChunkFrames(data, cur) == ChunkFrames(data, 0)
  }

  lemma PushChunk(bufs: seq<seq<byte>>, done: seq<Frame>, data: Msg, cur: nat)
    requires Encoding(bufs, done, data, cur) && cur < |data|
    ensures
      var f := ChunkFrame(data, cur);
      Encoding(bufs + [Wire(f)], done + [f], data, ChunkEnd(data, cur))
  {
    var f := ChunkFrame(data, cur);
    AddWire(bufs, done, f);
    ConcatAssoc(done, [f], ChunkFrames(data, ChunkEnd(data, cur)));
  }

  /** Encode a message into the frames that carry it. */
  method ProtoEncode(data: Msg) returns (r: Result<EncodeResult>)
    ensures !Encodable(data) ==> r == Err(PayloadSizeOverflow)
    ensures IsSmall(data) ==> r == Ok(OneMessage(Wire(SmallFrame(data))))
    ensures Encodable(data) && !IsSmall(data) ==>
              && r.Ok? && r.value.NeedPermit?
              && r.value.permitReq == Wire(RequestFrame(data))
              && WiresOf(r.value.msgPayload, ChunkFrames(data, 0))
  {
    var len := |data|;
    if len > MAX_PAYLOAD {
      return Err(PayloadSizeOverflow);
    }
    if len <= CHUNK {
      var hdr := Encode(CompleteMessage(len));
      return Ok(OneMessage(hdr.value + data));
    }
    var req := Encode(PermitRequest(len));
    var payload: seq<seq<byte>> := [];
    var cur := 0;
    ghost var done: seq<Frame> := [];
    while len - cur > 0
      invariant 0 <= cur <= len
      invariant Encoding(payload, done, data, cur)
    {
      var amt := Min(CHUNK, len - cur);
      var hdr := Encode(MultipartMessage(amt));
      PushChunk(payload, done, data, cur);
      done := done + [ChunkFrame(data, cur)];
      payload := payload + [hdr.value + data[cur..cur + amt]];
      cur := cur + amt;
    }
    assert done == ChunkFrames(data, 0);
    assert Wire(RequestFrame(data)) == req.value;
    r := Ok(NeedPermit(req.value, payload));
  }
}
