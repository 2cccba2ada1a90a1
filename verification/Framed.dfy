/**
 The command task of a framed connection: it owns the decoder and handles received frames,
 permit registrations from the local sender, and permits acquired from the shared semaphore.
 */
module Framed {
  import opened Core
  import opened Header
  import opened Encoder
  import opened Decoder

  /**
   `waiting` are the spawned tasks still waiting for that many permits, `acquired` the
   RemotePermit commands queued once they got them, and `delivered` what went to the application.
   */
  datatype Task = Task(
    dec: Dec,
    running: bool,
    waiting: seq<u32>,
    acquired: seq<u32>,
    delivered: seq<Msg>)

  const INIT_TASK := Task(INIT_DEC, true, [], [], [])

  /**
   One command handled: the state after it, the sender told that its request is registered, the
   sender told that its grant arrived, and the frame queued for the peer.
   */
  datatype Effect = Effect(task: Task, registered: Option<nat>, woken: Option<nat>, reply: Option<Frame>)

  function Quiet(t: Task): Effect {
    Effect(t, None, None, None)
  }

  /** The state after a decode call, stopped if it failed. */
  function AfterDecode(t: Task, o: Outcome<DecodeResult>): Effect {
    var u := t.(dec := o.dec);
    match o.result
    case Err(_) => Quiet(u.(running := false))
    case Ok(Message(m)) => Quiet(u.(delivered := t.delivered + [m]))
    case Ok(RemotePermitRequest(n)) => Quiet(u.(waiting := t.waiting + [n]))
    case Ok(RemotePermitGrant(_)) => Effect(u, None, o.woken, None)
    case Ok(Idle) => Quiet(u)
  }

  function OnFrame(t: Task, f: Frame): Effect {
    AfterDecode(t, DecodeFrame(t.dec, f))
  }

  function OnChunk(t: Task, chunk: seq<byte>): Effect {
    AfterDecode(t, Decode(t.dec, chunk))
  }

  /** The local sender `id` wants a permit from the peer. */
  function OnAwaitPermit(t: Task, id: nat): Effect {
    var o := SentRequest(t.dec, Some(id));
    var u := t.(dec := o.dec);
    if o.result.Err? then Quiet(u.(running := false)) else Effect(u, Some(id), None, None)
  }

  /** The semaphore serves the request that has waited longest. */
  function OnAcquire(t: Task): Task
    requires t.waiting != []
  {
    t.(waiting := t.waiting[1..], acquired := t.acquired + [t.waiting[0]])
  }

  /** The queued permit is handed to the decoder and the peer is told to go on. */
  function OnRemotePermit(t: Task): (e: Effect)
    requires t.acquired != []
    ensures e.reply.Some? ==> InRange(e.reply.value.hdr)
  {
    var n := t.acquired[0];
    var o := SentGrant(t.dec, n);
    var u := t.(dec := o.dec, acquired := t.acquired[1..]);
    if o.result.Err? || n > MAX_PAYLOAD then Quiet(u.(running := false))
    else Effect(u, None, None, Some(Frame(PermitGrant(n), [])))
  }

  /** On the wire form of a frame, handling bytes is handling the frame. */
  lemma OnWire(t: Task, f: Frame)
    requires InRange(f.hdr)
    ensures OnChunk(t, Wire(f)) == OnFrame(t, f)
  {
    ParseUndoesWire(f);
  }

  /** The command loop's state, updated in place by one method per command. */
  class CmdTask {
    const dec: ProtoDecoder
    var running: bool
    var waiting: seq<u32>
    var acquired: seq<u32>
    var delivered: seq<Msg>
    var outbox: seq<seq<byte>>

    ghost predicate Valid()
      reads this, dec
    {
      dec.Valid()
    }

    ghost function Model(): Task
      reads this, dec
    {
      Task(dec.Model(), running, waiting, acquired, delivered)
    }

    constructor ()
      ensures Valid() && fresh(dec) && Model() == INIT_TASK && outbox == []
    {
      dec := new ProtoDecoder();
      running := true;
      waiting := [];
      acquired := [];
      delivered := [];
      outbox := [];
    }

    method Recv(chunk: seq<byte>) returns (woken: Option<nat>)
      requires Valid()
      modifies this, dec
      ensures Valid() && outbox == old(outbox)
      ensures var e := OnChunk(old(Model()), chunk); Model() == e.task && woken == e.woken
    {
      var r, w := dec.DecodeChunk(chunk);
      woken := None;
      match r {
        case Err(_) => running := false;
        case Ok(Idle) =>
        case Ok(Message(m)) => delivered := delivered + [m];
        case Ok(RemotePermitRequest(n)) => waiting := waiting + [n];
        case Ok(RemotePermitGrant(_)) => woken := w;
      }
    }

    method AwaitPermit(id: nat) returns (registered: Option<nat>)
      requires Valid()
      modifies this, dec
      ensures Valid() && outbox == old(outbox)
      ensures var e := OnAwaitPermit(old(Model()), id); Model() == e.task && registered == e.registered
    {
      var r := dec.SentRemotePermitRequest(Some(id));
      if r.Err? {
        running := false;
        return None;
      }
      registered := Some(id);
    }

    method RemotePermit()
      requires Valid() && acquired != []
      modifies this, dec
      ensures Valid()
      ensures
        var e := OnRemotePermit(old(Model()));
        && Model() == e.task
        && outbox == if e.reply.Some? then old(outbox) + [Wire(e.reply.value)] else old(outbox)
    {
      var n := acquired[0];
      acquired := acquired[1..];
      var r := dec.SentRemotePermitGrant(n);
      if r.Err? {
        running := false;
        return;
      }
      var h := Encode(PermitGrant(n));
      if h.Err? {
        running := false;
        return;
      }
      assert h.value == Wire(Frame(PermitGrant(n), []));
      outbox := outbox + [h.value];
    }
  }

  // ----- sending

  /** All frames of a message, in the order they are queued. */
  function MessageFrames(data: Msg): seq<Frame>
    requires Encodable(data)
  {
    if IsSmall(data) then [SmallFrame(data)] else [RequestFrame(data)] + ChunkFrames(data, 0)
  }

  lemma WiresOfLarge(data: Msg, permitReq: seq<byte>, msgPayload: seq<seq<byte>>)
    requires Encodable(data) && !IsSmall(data)
    requires permitReq == Wire(RequestFrame(data)) && WiresOf(msgPayload, ChunkFrames(data, 0))
    ensures WiresOf([permitReq] + msgPayload, MessageFrames(data))
  {
  }

  lemma WiresPrefix(bufs: seq<seq<byte>>, fs: seq<Frame>, n: nat)
    requires WiresOf(bufs, fs) && n <= |fs|
    ensures WiresOf(bufs[..n], fs[..n])
  {
  }

  /** The loop over the chunks: it stops at the first one the connection does not take. */
  method SendChunks(first: seq<byte>, chunks: seq<seq<byte>>, room: nat) returns (ok: bool, queued: seq<seq<byte>>)
    requires room >= 1
    ensures ok <==> 1 + |chunks| <= room
    ensures queued == ([first] + chunks)[..Min(room, 1 + |chunks|)]
  {
    queued := [first];
    for i := 0 to |chunks|
      invariant queued == ([first] + chunks)[..i + 1] && i < room
    {
      if i + 1 == room {
        return false, queued;
      }
      queued := queued + [chunks[i]];
    }
    ok := true;
  }

  /** The frames queued are the first ones of the message. */
  ghost predicate Begins(queued: seq<seq<byte>>, data: Msg)
    requires Encodable(data)
  {
    |queued| <= |MessageFrames(data)| && WiresOf(queued, MessageFrames(data)[..|queued|])
  }

  /**
   `send_inner` with the lock held. Its awaits are resolved from outside: `registered` and
   `granted` are what the command task reports, and `room` is how many frames the connection
   takes before it closes. Whatever happens, the frames queued are the first ones of the message:
   none before the request is registered, no chunk before the grant, and all of them on success.
   */
  method SendInner(data: Msg, registered: bool, granted: bool, room: nat)
    returns (ok: bool, queued: seq<seq<byte>>)
    ensures ok <==> Encodable(data) && |MessageFrames(data)| <= room && (IsSmall(data) || (registered && granted))
    ensures if Encodable(data) then Begins(queued, data) else queued == []
    ensures ok ==> |queued| == |MessageFrames(data)|
    ensures !IsSmall(data) ==> (!registered ==> queued == []) && (!granted ==> |queued| <= 1)
  {
    queued := [];
    var encoded := ProtoEncode(data);
    if encoded.Err? {
      return false, [];
    }
    match encoded.value {
      case OneMessage(frame) =>
        if room < 1 {
          return false, [];
        }
        return true, [frame];
      case NeedPermit(permitReq, msgPayload) =>
        ghost var all := [permitReq] + msgPayload;
        WiresOfLarge(data, permitReq, msgPayload);
        if !registered || room < 1 {
          return false, [];
        }
        if !granted {
          WiresPrefix(all, MessageFrames(data), 1);
          return false, [permitReq];
        }
        ok, queued := SendChunks(permitReq, msgPayload, room);
        WiresPrefix(all, MessageFrames(data), |queued|);
    }
  }
}
