/**
 The stateful decoder. `Rx` is what data frames read and write, `Tx` is what permit grants from
 the remote read and write; the two halves share nothing but the error flag. The functions on
 values are the specification of the class `ProtoDecoder`.
 */
module Decoder {
  import opened Core
  import opened Header
  import opened Encoder

  datatype DecodeState =
    | NeedVersion
    | Ready
    | RemoteAwaitingPermit(len: u32)
    | ReceiveChunked

  /** The receiving half; `grantPermit` is the number of semaphore permits held. */
  datatype Rx = Rx(state: DecodeState, wantSize: nat, incoming: seq<byte>, grantPermit: Option<nat>)

  /** The requesting half; `grantNotify` identifies the sender waiting for the grant. */
  datatype Tx = Tx(wantRemoteGrant: bool, grantNotify: Option<nat>)

  datatype Dec = Dec(rx: Rx, tx: Tx, didError: bool)

  const INIT_RX := Rx(NeedVersion, 0, [], None)
  const INIT_TX := Tx(false, None)
  const INIT_DEC := Dec(INIT_RX, INIT_TX, false)

  datatype DecodeResult =
    | Idle
    | Message(msg: Msg)
    | RemotePermitRequest(len: u32)
    | RemotePermitGrant(len: u32)

  /** A call's new decoder, its result, and the waiting sender it woke, if any. */
  datatype Outcome<T> = Outcome(dec: Dec, result: Result<T>, woken: Option<nat>)

  datatype RxOutcome = RxOutcome(rx: Rx, result: Result<DecodeResult>)

  /** Accept or reject a frame other than a permit grant. */
  function RxStep(rx: Rx, f: Frame): RxOutcome
    requires !f.hdr.PermitGrant?
  {
    match f.hdr
    case Version(v, a, b, c) =>
      if f.hdr != PROTO_VER_2 then RxOutcome(rx, Err(InvalidVersion))
      else if rx.state == NeedVersion then RxOutcome(rx.(state := Ready), Ok(Idle))
      else RxOutcome(rx, Err(RecvUnexpectedVersionMessage))
    case CompleteMessage(n) =>
      if rx.state != Ready then RxOutcome(rx, Err(RecvUnexpectedCompleteMessage))
      else if n != |f.payload| then RxOutcome(rx, Err(InvalidCompleteMessageLen))
      else RxOutcome(rx, Ok(Message(f.payload)))
    case MultipartMessage(n) =>
      if rx.state != ReceiveChunked then RxOutcome(rx, Err(RecvUnexpectedMultipartMessage))
      else if n != |f.payload| || n == 0 then RxOutcome(rx, Err(InvalidMultipartMessageLen))
      else if n + |rx.incoming| > rx.wantSize then RxOutcome(rx, Err(ChunkTooLarge))
      else
        var incoming := rx.incoming + f.payload;
        if |incoming| == rx.wantSize
        then RxOutcome(Rx(Ready, rx.wantSize, [], None), Ok(Message(incoming)))
        else RxOutcome(rx.(incoming := incoming), Ok(Idle))
    case PermitRequest(n) =>
      if rx.state != Ready then RxOutcome(rx, Err(RecvUnexpectedPermitRequest))
      else RxOutcome(rx.(state := RemoteAwaitingPermit(n)), Ok(RemotePermitRequest(n)))
  }

  /** The receiving half after we granted the remote its permit. */
  function RxGrant(rx: Rx, permit: nat): Rx
    requires rx.state.RemoteAwaitingPermit?
  {
    rx.(state := ReceiveChunked, wantSize := rx.state.len, grantPermit := Some(permit))
  }

  /** Process one parsed frame, as `decode` does once the header is read. */
  function DecodeFrame(d: Dec, f: Frame): Outcome<DecodeResult> {
    if d.didError then Outcome(d, Err(FnCallOnErroredDecoder), None)
    else if f.hdr.PermitGrant? then
      if d.tx.wantRemoteGrant
      then Outcome(d.(tx := INIT_TX), Ok(RemotePermitGrant(f.hdr.size)), d.tx.grantNotify)
      else Outcome(d.(didError := true), Err(RecvUnexpectedPermitGrant), None)
    else
      var o := RxStep(d.rx, f);
      Outcome(d.(rx := o.rx, didError := o.result.Err?), o.result, None)
  }

  /** Process the next chunk of bytes from the remote. */
  function Decode(d: Dec, chunk: seq<byte>): Outcome<DecodeResult> {
    match Parse(chunk)
    case Ok(f) => DecodeFrame(d, f)
    case Err(e) => Outcome(d.(didError := true), Err(if d.didError then FnCallOnErroredDecoder else e), None)
  }

  /** We acquired the permit the remote asked for. */
  function SentGrant(d: Dec, permit: nat): Outcome<()> {
    if d.didError then Outcome(d, Err(FnCallOnErroredDecoder), None)
    else if d.rx.state.RemoteAwaitingPermit? then Outcome(d.(rx := RxGrant(d.rx, permit)), Ok(()), None)
    else Outcome(d.(didError := true), Err(InvalidStateToSendPermit), None)
  }

  /** We are about to ask the remote for a permit. */
  function SentRequest(d: Dec, notify: Option<nat>): Outcome<()> {
    if d.didError then Outcome(d, Err(FnCallOnErroredDecoder), None)
    else if d.tx.wantRemoteGrant
    then Outcome(d.(didError := true), Err(InvalidDuplicatePermitRequest), None)
    else Outcome(d.(tx := Tx(true, notify)), Ok(()), None)
  }

  // ----- the decoder by its bytes

  /** Version 2 and the characters "tx5". */
  predicate IsVersion(chunk: seq<byte>) {
    |chunk| >= 4 && chunk[0] == 0x42 && chunk[1] == 0x74 && chunk[2] == 0x78 && chunk[3] == 0x35
  }

  /** The first frame is the version frame, and no other. */
  lemma VersionBytes(chunk: seq<byte>)
    ensures
      Decode(INIT_DEC, chunk).result.Ok?
      <==> |chunk| >= 4 && chunk[0] == 0x42 && chunk[1] == 0x74 && chunk[2] == 0x78 && chunk[3] == 0x35
    ensures 't' as int == 0x74 && 'x' as int == 0x78 && '5' as int == 0x35
    ensures Wire(Frame(PROTO_VER_2, [])) == [0x42, 0x74, 0x78, 0x35]
  {
    EncodedBytes(Version(2, 0x74, 0x78, 0x35), 2, 0x74, 0x78, 0x35);
    if |chunk| >= 4 {
      DecodedBytes(chunk[0], chunk[1], chunk[2], chunk[3]);
    }
  }

  /** The size in a header whose first byte without a size is `first`. */
  function SizeAfter(first: int, chunk: seq<byte>): int
    requires |chunk| >= 4
  {
    FromBeBytes(chunk[0] - first, chunk[1], chunk[2], chunk[3])
  }

  lemma ParsedBytes(chunk: seq<byte>)
    ensures |chunk| < 4 ==> Parse(chunk) == Err(InvalidHeaderLen)
    ensures |chunk| >= 4 && !(0x40 <= chunk[0] < 0xE0) ==> Parse(chunk) == Err(ReservedHeaderBits)
    ensures |chunk| >= 4 && 0x40 <= chunk[0] < 0x60 ==>
              && Parse(chunk).Ok? && Parse(chunk).value.hdr.Version?
              && (Parse(chunk).value.hdr == PROTO_VER_2 <==> IsVersion(chunk))
    ensures |chunk| >= 4 && 0x60 <= chunk[0] < 0x80 ==>
              Parse(chunk) == Ok(Frame(CompleteMessage(SizeAfter(0x60, chunk)), chunk[4..]))
    ensures |chunk| >= 4 && 0x80 <= chunk[0] < 0xA0 ==>
              Parse(chunk) == Ok(Frame(MultipartMessage(SizeAfter(0x80, chunk)), chunk[4..]))
    ensures |chunk| >= 4 && 0xA0 <= chunk[0] < 0xC0 ==>
              Parse(chunk) == Ok(Frame(PermitRequest(SizeAfter(0xA0, chunk)), chunk[4..]))
    ensures |chunk| >= 4 && 0xC0 <= chunk[0] < 0xE0 ==>
              Parse(chunk) == Ok(Frame(PermitGrant(SizeAfter(0xC0, chunk)), chunk[4..]))
  {
    if |chunk| >= 4 {
      DecodedBytes(chunk[0], chunk[1], chunk[2], chunk[3]);
    }
  }

  /** What a working decoder says to any bytes, by their first byte. */
  function Verdict(d: Dec, chunk: seq<byte>): Result<DecodeResult> {
    if |chunk| < 4 then Err(InvalidHeaderLen)
    else if 0x40 <= chunk[0] < 0x60 then
      if !IsVersion(chunk) then Err(InvalidVersion)
      else if d.rx.state == NeedVersion then Ok(Idle) else Err(RecvUnexpectedVersionMessage)
    else if 0x60 <= chunk[0] < 0x80 then
      if d.rx.state != Ready then Err(RecvUnexpectedCompleteMessage)
      else if SizeAfter(0x60, chunk) + 4 == |chunk| then Ok(Message(chunk[4..]))
      else Err(InvalidCompleteMessageLen)
    else if 0x80 <= chunk[0] < 0xA0 then
      if d.rx.state != ReceiveChunked then Err(RecvUnexpectedMultipartMessage)
      else if SizeAfter(0x80, chunk) + 4 != |chunk| || |chunk| == 4 then Err(InvalidMultipartMessageLen)
      else if |d.rx.incoming + chunk[4..]| > d.rx.wantSize then Err(ChunkTooLarge)
      else if |d.rx.incoming + chunk[4..]| < d.rx.wantSize then Ok(Idle)
      else Ok(Message(d.rx.incoming + chunk[4..]))
    else if 0xA0 <= chunk[0] < 0xC0 then
      if d.rx.state != Ready then Err(RecvUnexpectedPermitRequest)
      else Ok(RemotePermitRequest(SizeAfter(0xA0, chunk)))
    else if 0xC0 <= chunk[0] < 0xE0 then
      if !d.tx.wantRemoteGrant then Err(RecvUnexpectedPermitGrant)
      else Ok(RemotePermitGrant(SizeAfter(0xC0, chunk)))
    else Err(ReservedHeaderBits)
  }

  /** A decoder that failed refuses every call; any other goes by the bytes. */
  lemma DecodeSays(d: Dec, chunk: seq<byte>)
    ensures Decode(d, chunk).result == if d.didError then Err(FnCallOnErroredDecoder) else Verdict(d, chunk)
  {
    ParsedBytes(chunk);
  }

  /** The decoder, with its fields updated in place. */
  class ProtoDecoder {
    var state: DecodeState
    var wantSize: nat
    var incoming: seq<byte>
    var wantRemoteGrant: bool
    var didError: bool
    var grantPermit: Option<nat>
    var grantNotify: Option<nat>

    /** Between grants there is nobody to notify. */
    ghost predicate Valid()
      reads this
    {
      !wantRemoteGrant ==> grantNotify == None
    }

    ghost function Model(): Dec
      reads this
    {
      Dec(Rx(state, wantSize, incoming, grantPermit), Tx(wantRemoteGrant, grantNotify), didError)
    }

    constructor ()
      ensures Model() == INIT_DEC && Valid()
    {
      state := NeedVersion;
      wantSize := 0;
      incoming := [];
      wantRemoteGrant := false;
      didError := false;
      grantPermit := None;
      grantNotify := None;
    }

    method SentRemotePermitGrant(permit: nat) returns (r: Result<()>)
      requires Valid()
      modifies this
      ensures Valid()
      ensures var o := SentGrant(old(Model()), permit); Model() == o.dec && r == o.result
      ensures r == Err(FnCallOnErroredDecoder) <==> old(didError)
      ensures r.Ok? <==> !old(didError) && old(state).RemoteAwaitingPermit?
      ensures r.Ok? ==> state == ReceiveChunked && wantSize == old(state).len && grantPermit == Some(permit)
      ensures r.Err? && !old(didError) ==> r == Err(InvalidStateToSendPermit) && didError
    {
      if didError {
        return Err(FnCallOnErroredDecoder);
      }
      match state {
        case RemoteAwaitingPermit(permitLen) =>
          state := ReceiveChunked;
          wantSize := permitLen;
          grantPermit := Some(permit);
          return Ok(());
        case _ =>
          didError := true;
          return Err(InvalidStateToSendPermit);
      }
    }

    method SentRemotePermitRequest(notify: Option<nat>) returns (r: Result<()>)
      requires Valid()
      modifies this
      ensures Valid()
      ensures var o := SentRequest(old(Model()), notify); Model() == o.dec && r == o.result
      ensures r == Err(FnCallOnErroredDecoder) <==> old(didError)
      ensures r.Ok? <==> !old(didError) && !old(wantRemoteGrant)
      ensures r.Ok? ==> wantRemoteGrant && grantNotify == notify
      ensures r.Err? && !old(didError) ==> r == Err(InvalidDuplicatePermitRequest) && didError
    {
      if didError {
        return Err(FnCallOnErroredDecoder);
      }
      if wantRemoteGrant {
        didError := true;
        return Err(InvalidDuplicatePermitRequest);
      }
      wantRemoteGrant := true;
      grantNotify := notify;
      r := Ok(());
    }

    method DecodeChunk(chunk: seq<byte>) returns (r: Result<DecodeResult>, woken: Option<nat>)
      requires Valid()
      modifies this
      ensures Valid()
      ensures
        var o := Decode(old(Model()), chunk);
        Model() == o.dec && r == o.result && woken == o.woken
    {
      if didError {
        return Err(FnCallOnErroredDecoder), None;
      }
      r, woken := PrivDecode(chunk);
      if r.Err? {
        didError := true;
      }
    }

    method PrivDecode(chunk: seq<byte>) returns (r: Result<DecodeResult>, woken: Option<nat>)
      requires Valid() && !didError
      modifies this
      ensures Valid()
      ensures
        var o := Decode(old(Model()), chunk);
        && Model() == o.dec.(didError := false)
        && r == o.result && woken == o.woken && (o.dec.didError <==> r.Err?)
      ensures r == Verdict(old(Model()), chunk)
    {
      DecodeSays(Model(), chunk);
      woken := None;
      var len := |chunk|;
      if len < 4 {
        return Err(InvalidHeaderLen), None;
      }
      var h := DecodeHeader(chunk[0], chunk[1], chunk[2], chunk[3]);
      if h.Err? {
        return Err(h.error), None;
      }
      match h.value {
        case Version(v, a, b, c) =>
          if v != 2 || a != 0x74 || b != 0x78 || c != 0x35 {
            return Err(InvalidVersion), None;
          }
          if state == NeedVersion {
            state := Ready;
            return Ok(Idle), None;
          }
          return Err(RecvUnexpectedVersionMessage), None;
        case CompleteMessage(msgLen) =>
          if state == Ready {
            if msgLen != len - 4 {
              return Err(InvalidCompleteMessageLen), None;
            }
            return Ok(Message(chunk[4..])), None;
          }
          return Err(RecvUnexpectedCompleteMessage), None;
        case MultipartMessage(msgLen) =>
          if state == ReceiveChunked {
            if msgLen != len - 4 || msgLen == 0 {
              return Err(InvalidMultipartMessageLen), None;
            }
            if msgLen + |incoming| > wantSize {
              return Err(ChunkTooLarge), None;
            }
            incoming := incoming + chunk[4..];
            if |incoming| == wantSize {
              grantPermit := None;
              state := Ready;
              r := Ok(Message(incoming));
              incoming := [];
              return;
            }
            return Ok(Idle), None;
          }
          return Err(RecvUnexpectedMultipartMessage), None;
        case PermitRequest(permitLen) =>
          if state == Ready {
            state := RemoteAwaitingPermit(permitLen);
            return Ok(RemotePermitRequest(permitLen)), None;
          }
          return Err(RecvUnexpectedPermitRequest), None;
        case PermitGrant(permitLen) =>
          if wantRemoteGrant {
            wantRemoteGrant := false;
            woken := grantNotify;
            grantNotify := None;
            return Ok(RemotePermitGrant(permitLen)), woken;
          }
          return Err(RecvUnexpectedPermitGrant), None;
      }
    }
  }
}
