/** Shared value types: machine integers, optional values and the error enumeration. */
module Core {

  type byte = x: int | 0 <= x < 0x100
  type u32 = x: int | 0 <= x < 0x1_0000_0000

  datatype Option<+T> = None | Some(value: T)

  /** The error strings of the protocol layer, one constructor each. */
  datatype Error =
    | ReservedHeaderBits
    | VersionOverflow
    | SizeOverflow
    | PayloadSizeOverflow
    | InvalidHeaderLen
    | InvalidVersion
    | RecvUnexpectedVersionMessage
    | InvalidCompleteMessageLen
    | RecvUnexpectedCompleteMessage
    | InvalidMultipartMessageLen
    | ChunkTooLarge
    | RecvUnexpectedMultipartMessage
    | RecvUnexpectedPermitRequest
    | RecvUnexpectedPermitGrant
    | InvalidStateToSendPermit
    | InvalidDuplicatePermitRequest
    | FnCallOnErroredDecoder
    | MsgTooLong
    | MsgTooShort
    | InvalidHandshakeLen

  datatype Result<+T> = Ok(value: T) | Err(error: Error)

  function Min(a: nat, b: nat): nat {
    if a < b then a else b
  }

  lemma ConcatAssoc<T>(a: seq<T>, b: seq<T>, c: seq<T>)
    ensures (a + b) + c == a + (b + c)
  {
  }

  /** Some stretch of a lane is lost. */
  ghost predicate Lossy<T>(lane: seq<T>, lane': seq<T>) {
    exists i, j :: 0 <= i <= j <= |lane| && lane' == lane[..i] + lane[j..]
  }

  lemma LossyMiddle<T>(a: seq<T>, b: seq<T>, c: seq<T>)
    ensures Lossy(a + b + c, a + c)
  {
    var lane := a + b + c;
    assert lane[..|a|] == a && lane[|a| + |b|..] == c;
  }
}
