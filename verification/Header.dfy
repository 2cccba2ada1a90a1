/**
 The 4-byte protocol header. `Encode` and `DecodeHeader` work on the bits of a big-endian
 32-bit word, as the program does; `EncodeHeader` is the same codec in div/mod arithmetic.
 */
module Header {
  import opened Core

  /** The largest value a 29-bit size field can carry. */
  const MAX_PAYLOAD: u32 := 0x1FFF_FFFF

  datatype ProtoHeader =
    | Version(v: byte, a: byte, b: byte, c: byte)
    | CompleteMessage(size: u32)
    | MultipartMessage(size: u32)
    | PermitRequest(size: u32)
    | PermitGrant(size: u32)

  /** Protocol version 2, tagged with the characters of "tx5". */
  const PROTO_VER_2 := Version(2, 0x74, 0x78, 0x35)

  /** What fits in the header: a 5-bit version or a 29-bit size. */
  predicate InRange(h: ProtoHeader) {
    if h.Version? then h.v <= 31 else h.size <= MAX_PAYLOAD
  }

  // ----- words as bits, least significant first

  type Bits = seq<bool>

  function Pow2(n: nat): (p: nat)
    ensures p >= 1
  {
    if n == 0 then 1 else 2 * Pow2(n - 1)
  }

  function ToBits(n: nat, width: nat): (s: Bits)
    ensures |s| == width
  {
    if width == 0 then [] else [n % 2 == 1] + ToBits(n / 2, width - 1)
  }

  function Value(s: Bits): nat {
    if s == [] then 0 else (if s[0] then 1 else 0) + 2 * Value(s[1..])
  }

  function GetBits(w: Bits, lo: nat, hi: nat): Bits
    requires lo <= hi <= |w|
  {
    w[lo..hi]
  }

  function SetBits(w: Bits, lo: nat, hi: nat, v: nat): Bits
    requires lo <= hi <= |w|
  {
    w[..lo] + ToBits(v, hi - lo) + w[hi..]
  }

  lemma {:induction false} ValueOfBits(n: nat, width: nat)
    requires n < Pow2(width)
    ensures Value(ToBits(n, width)) == n
  {
    if width > 0 {
      ValueOfBits(n / 2, width - 1);
      assert ToBits(n, width)[1..] == ToBits(n / 2, width - 1);
    }
  }

  lemma {:induction false} BitsOfValue(s: Bits)
    ensures Value(s) < Pow2(|s|)
    ensures ToBits(Value(s), |s|) == s
  {
    if s != [] {
      BitsOfValue(s[1..]);
      assert Value(s) / 2 == Value(s[1..]);
    }
  }

  lemma DoubleTimes(p: nat, x: nat)
    ensures 2 * p * x == 2 * (p * x)
  {
  }

  lemma {:induction false} ValueConcat(s: Bits, t: Bits)
    ensures Value(s + t) == Value(s) + Pow2(|s|) * Value(t)
  {
    if s == [] {
      assert s + t == t;
    } else {
      ValueConcat(s[1..], t);
      assert (s + t)[1..] == s[1..] + t;
      DoubleTimes(Pow2(|s| - 1), Value(t));
    }
  }

  lemma Pow2Constants()
    ensures Pow2(3) == 8 && Pow2(5) == 32 && Pow2(8) == 0x100
    ensures Pow2(16) == 0x1_0000 && Pow2(24) == 0x100_0000 && Pow2(29) == 0x2000_0000
  {
    assert Pow2(8) == 8 * Pow2(5);
    assert Pow2(16) == 0x100 * Pow2(8) by { assert Pow2(12) == 16 * Pow2(8); }
    assert Pow2(24) == 0x100 * Pow2(16) by { assert Pow2(20) == 16 * Pow2(16); }
    assert Pow2(29) == 32 * Pow2(24);
  }

  lemma Join(s: Bits, t: Bits, p: nat)
    requires p == Pow2(|s|)
    ensures Value(s + t) == Value(s) + p * Value(t)
    ensures Value(s) < p
  {
    ValueConcat(s, t);
    BitsOfValue(s);
  }

  lemma JoinByte(s: Bits, t: Bits)
    requires |s| == 8
    ensures Value(s + t) == Value(s) + 0x100 * Value(t)
    ensures Value(s) < 0x100
  {
    Pow2Constants();
    Join(s, t, 0x100);
  }

  /** The number whose big-endian digits in base 256 are the arguments. */
  function FromBeBytes(a: int, b: int, c: int, d: int): int {
    0x100_0000 * a + 0x1_0000 * b + 0x100 * c + d
  }

  /** The word whose big-endian bytes are `a`, `b`, `c`, `d`. */
  function WordOf(a: byte, b: byte, c: byte, d: byte): (w: Bits)
    ensures |w| == 32
  {
    ToBits(d, 8) + ToBits(c, 8) + ToBits(b, 8) + ToBits(a, 8)
  }

  // ----- the codec

  /** Read a header out of the bit ranges of four bytes. */
  function DecodeHeader(a: byte, b: byte, c: byte, d: byte): (r: Result<ProtoHeader>)
    ensures r.Ok? ==> InRange(r.value)
  {
    var w := WordOf(a, b, c, d);
    var size := Value(GetBits(w, 0, 29));
    BitsOfValue(GetBits(w, 0, 29));
    BitsOfValue(GetBits(w, 24, 29));
    BitsOfValue(GetBits(w, 16, 24));
    BitsOfValue(GetBits(w, 8, 16));
    BitsOfValue(GetBits(w, 0, 8));
    Pow2Constants();
    match Value(GetBits(w, 29, 32))
    case 2 => Ok(Version(Value(GetBits(w, 24, 29)), Value(GetBits(w, 16, 24)),
                         Value(GetBits(w, 8, 16)), Value(GetBits(w, 0, 8))))
    case 3 => Ok(CompleteMessage(size))
    case 4 => Ok(MultipartMessage(size))
    case 5 => Ok(PermitRequest(size))
    case 6 => Ok(PermitGrant(size))
    case _ => Err(ReservedHeaderBits)
  }

  /** The three tag bits of a header. */
  function Tag(h: ProtoHeader): nat {
    match h
    case Version(_, _, _, _) => 2
    case CompleteMessage(_) => 3
    case MultipartMessage(_) => 4
    case PermitRequest(_) => 5
    case PermitGrant(_) => 6
  }

  /** The header as a number: tag times 2^29 plus the 29 low bits. */
  function HeaderNumber(h: ProtoHeader): (n: u32)
    requires InRange(h)
  {
    0x2000_0000 * Tag(h) +
    if h.Version? then 0x100_0000 * h.v + 0x1_0000 * h.a + 0x100 * h.b + h.c else h.size
  }

  function BigEndian(n: u32): (s: seq<byte>)
    ensures |s| == 4
  {
    [n / 0x100 / 0x100 / 0x100, n / 0x100 / 0x100 % 0x100, n / 0x100 % 0x100, n % 0x100]
  }

  /** The codec in arithmetic. */
  function EncodeHeader(h: ProtoHeader): (r: Result<seq<byte>>)
    ensures r.Ok? <==> InRange(h)
    ensures r.Ok? ==> |r.value| == 4
  {
    if InRange(h) then Ok(BigEndian(HeaderNumber(h)))
    else Err(if h.Version? then VersionOverflow else SizeOverflow)
  }

  lemma WordNumber(a: byte, b: byte, c: byte, d: byte)
    ensures Value(WordOf(a, b, c, d)) == FromBeBytes(a, b, c, d)
  {
    Pow2Constants();
    ValueOfBits(a, 8);
    ValueOfBits(b, 8);
    ValueOfBits(c, 8);
    ValueOfBits(d, 8);
    ValueConcat(ToBits(d, 8), ToBits(c, 8));
    ValueConcat(ToBits(d, 8) + ToBits(c, 8), ToBits(b, 8));
    ValueConcat(ToBits(d, 8) + ToBits(c, 8) + ToBits(b, 8), ToBits(a, 8));
  }

  lemma MulMono(m: nat, a: int, b: int)
    ensures a <= b ==> m * a <= m * b
  {
  }

  lemma DivModUnique(n: nat, m: nat, q: nat, r: nat)
    requires m > 0 && r < m && n == r + m * q
    ensures n / m == q && n % m == r
  {
    MulMono(m, q + 1, n / m);
    MulMono(m, n / m + 1, q);
    assert m * (q + 1) == m * q + m && m * (n / m + 1) == m * (n / m) + m;
  }

  /** The big-endian bytes of a number are its only four base-256 digits. */
  lemma BigEndianDigits(n: u32)
    ensures var s := BigEndian(n); FromBeBytes(s[0], s[1], s[2], s[3]) == n
  {
  }

  lemma DigitsBigEndian(a: byte, b: byte, c: byte, d: byte)
    ensures BigEndian(FromBeBytes(a, b, c, d)) == [a, b, c, d]
  {
    var n := FromBeBytes(a, b, c, d);
    DivModUnique(n, 0x100, 0x1_0000 * a + 0x100 * b + c, d);
    DivModUnique(0x1_0000 * a + 0x100 * b + c, 0x100, 0x100 * a + b, c);
    DivModUnique(0x100 * a + b, 0x100, a, b);
  }

  /** A word is its tag and the remaining 29 bits. */
  lemma TagAndRest(w: Bits)
    requires |w| == 32
    ensures Value(w) == 0x2000_0000 * Value(w[29..32]) + Value(w[0..29])
    ensures Value(w[0..29]) < 0x2000_0000
  {
    Pow2Constants();
    assert w == w[0..29] + w[29..32];
    Join(w[0..29], w[29..32], 0x2000_0000);
  }

  /** Bits side by side in bytes are digits in base 256. */
  lemma BytesOfBits(w: Bits)
    requires |w| >= 24
    ensures Value(w) == FromBeBytes(Value(w[24..]), Value(w[16..24]), Value(w[8..16]), Value(w[0..8]))
    ensures Value(w[16..24]) < 0x100 && Value(w[8..16]) < 0x100 && Value(w[0..8]) < 0x100
  {
    assert w[0..] == w;
    PeelByte(w, 0);
    PeelByte(w, 8);
    PeelByte(w, 16);
    Nested(Value(w[24..]), Value(w[16..24]), Value(w[8..16]), Value(w[0..8]));
  }

  lemma Nested(a: nat, b: nat, c: nat, d: nat)
    ensures FromBeBytes(a, b, c, d) == d + 0x100 * (c + 0x100 * (b + 0x100 * a))
  {
  }

  lemma PeelByte(w: Bits, k: nat)
    requires k + 8 <= |w|
    ensures Value(w[k..]) == Value(w[k..k + 8]) + 0x100 * Value(w[k + 8..])
    ensures Value(w[k..k + 8]) < 0x100
  {
    assert w[k..] == w[k..k + 8] + w[k + 8..];
    JoinByte(w[k..k + 8], w[k + 8..]);
  }

  /** Decoding four bytes reads the tag and the size by division. */
  lemma DecodeIsDivMod(a: byte, b: byte, c: byte, d: byte)
    ensures
      var n := FromBeBytes(a, b, c, d);
      var r := DecodeHeader(a, b, c, d);
      && (r.Ok? <==> 2 <= n / 0x2000_0000 <= 6)
      && (r.Ok? ==> Tag(r.value) == n / 0x2000_0000 && HeaderNumber(r.value) == n)
      && (r.Ok? ==> n / 0x2000_0000 ==
                    match r.value
                    case Version(_, _, _, _) => 2
                    case CompleteMessage(_) => 3
                    case MultipartMessage(_) => 4
                    case PermitRequest(_) => 5
                    case PermitGrant(_) => 6)
  {
    var w := WordOf(a, b, c, d);
    WordNumber(a, b, c, d);
    TagAndRest(w);
    BytesOfBits(w[0..29]);
    assert w[0..29][24..] == w[24..29] && w[0..29][16..24] == w[16..24];
    assert w[0..29][8..16] == w[8..16] && w[0..29][0..8] == w[0..8];
    DivModUnique(Value(w), 0x2000_0000, Value(w[29..32]), Value(w[0..29]));
  }

  /** The 29 bits below the tag. */
  function Low(h: ProtoHeader): (n: nat)
    requires InRange(h)
    ensures n <= MAX_PAYLOAD && HeaderNumber(h) == 0x2000_0000 * Tag(h) + n
  {
    if h.Version? then FromBeBytes(h.v, h.a, h.b, h.c) else h.size
  }

  lemma HeaderNumberInjective(h: ProtoHeader, k: ProtoHeader)
    requires InRange(h) && InRange(k) && HeaderNumber(h) == HeaderNumber(k)
    ensures h == k
  {
    DivModUnique(HeaderNumber(h), 0x2000_0000, Tag(h), Low(h));
    DivModUnique(HeaderNumber(k), 0x2000_0000, Tag(k), Low(k));
    if h.Version? && k.Version? {
      DigitsBigEndian(h.v, h.a, h.b, h.c);
      DigitsBigEndian(k.v, k.a, k.b, k.c);
      assert BigEndian(Low(h)) == [h.v, h.a, h.b, h.c] && BigEndian(Low(k)) == [k.v, k.a, k.b, k.c];
    }
  }

  /** decode(encode(h)) == h for every header that can be encoded at all. */
  lemma DecodeUndoesEncode(h: ProtoHeader)
    requires InRange(h)
    ensures
      var s := EncodeHeader(h).value;
      DecodeHeader(s[0], s[1], s[2], s[3]) == Ok(h)
  {
    var n := HeaderNumber(h);
    var s := BigEndian(n);
    BigEndianDigits(n);
    DecodeIsDivMod(s[0], s[1], s[2], s[3]);
    DivModUnique(n, 0x2000_0000, Tag(h), n - 0x2000_0000 * Tag(h));
    HeaderNumberInjective(h, DecodeHeader(s[0], s[1], s[2], s[3]).value);
  }

  /** encode(decode(w)) == w for every word with a known tag; every other word is rejected. */
  lemma EncodeUndoesDecode(a: byte, b: byte, c: byte, d: byte)
    ensures
      var r := DecodeHeader(a, b, c, d);
      if 0x40 <= a < 0xE0 then r.Ok? && EncodeHeader(r.value) == Ok([a, b, c, d])
      else r == Err(ReservedHeaderBits)
  {
    DecodeIsDivMod(a, b, c, d);
    DigitsBigEndian(a, b, c, d);
  }

  /** What four bytes mean, by the value of the first one. */
  lemma DecodedBytes(a: byte, b: byte, c: byte, d: byte)
    ensures
      DecodeHeader(a, b, c, d) ==
      if 0x40 <= a < 0x60 then Ok(Version(a - 0x40, b, c, d))
      else if 0x60 <= a < 0x80 then Ok(CompleteMessage(FromBeBytes(a - 0x60, b, c, d)))
      else if 0x80 <= a < 0xA0 then Ok(MultipartMessage(FromBeBytes(a - 0x80, b, c, d)))
      else if 0xA0 <= a < 0xC0 then Ok(PermitRequest(FromBeBytes(a - 0xA0, b, c, d)))
      else if 0xC0 <= a < 0xE0 then Ok(PermitGrant(FromBeBytes(a - 0xC0, b, c, d)))
      else Err(ReservedHeaderBits)
    ensures FromBeBytes(a, b, c, d) == 0x100_0000 * a + 0x1_0000 * b + 0x100 * c + d
  {
    DecodeIsDivMod(a, b, c, d);
    if 0x40 <= a < 0xE0 {
      var h := DecodeHeader(a, b, c, d).value;
      var n := FromBeBytes(a, b, c, d);
      DivModUnique(n, 0x2000_0000, a / 0x20, FromBeBytes(a % 0x20, b, c, d));
      assert Tag(h) == a / 0x20;
      if h.Version? {
        HeaderNumberInjective(h, Version(a - 0x40, b, c, d));
      }
    }
  }

  /** The bytes of a header whose low 29 bits have the big-endian digits `a`, `b`, `c`, `d`. */
  lemma EncodedBytes(h: ProtoHeader, a: byte, b: byte, c: byte, d: byte)
    requires a < 0x20
    requires h == Version(a, b, c, d) || (!h.Version? && h.size == FromBeBytes(a, b, c, d))
    ensures
      EncodeHeader(h) ==
      match h
      case Version(_, _, _, _) => Ok([0x40 + a, b, c, d])
      case CompleteMessage(_) => Ok([0x60 + a, b, c, d])
      case MultipartMessage(_) => Ok([0x80 + a, b, c, d])
      case PermitRequest(_) => Ok([0xA0 + a, b, c, d])
      case PermitGrant(_) => Ok([0xC0 + a, b, c, d])
  {
    var first := match h
      case Version(_, _, _, _) => 0x40
      case CompleteMessage(_) => 0x60
      case MultipartMessage(_) => 0x80
      case PermitRequest(_) => 0xA0
      case PermitGrant(_) => 0xC0;
    DecodedBytes(first + a, b, c, d);
    EncodeUndoesDecode(first + a, b, c, d);
  }

  /** Exactly which headers have bytes, and what is wrong with the others. */
  lemma EncodableHeaders(h: ProtoHeader)
    ensures EncodeHeader(h) == Err(VersionOverflow) <==> h.Version? && h.v >= 32
    ensures EncodeHeader(h) == Err(SizeOverflow) <==> !h.Version? && h.size >= 0x2000_0000
    ensures EncodeHeader(h).Ok? <==> if h.Version? then h.v < 32 else h.size < 0x2000_0000
    ensures EncodeHeader(h).Ok? && !h.Version? ==>
              exists a: byte, b: byte, c: byte, d: byte :: a < 0x20 && FromBeBytes(a, b, c, d) == h.size
  {
    if !h.Version? {
      BigEndianDigits(h.size);
      var s := BigEndian(h.size);
      assert FromBeBytes(s[0], s[1], s[2], s[3]) == h.size;
    }
  }

  /** Write the bit ranges of a header, and agree with the arithmetic codec. */
  method Encode(h: ProtoHeader) returns (r: Result<seq<byte>>)
    ensures r == EncodeHeader(h)
  {
    var out: Bits := ToBits(0, 32);
    match h {
      case Version(v, a, b, c) =>
        if v > 31 {
          return Err(VersionOverflow);
        }
        VersionFields(out, v, a, b, c);
        out := SetBits(out, 29, 32, 2);
        out := SetBits(out, 24, 29, v);
        out := SetBits(out, 16, 24, a);
        out := SetBits(out, 8, 16, b);
        out := SetBits(out, 0, 8, c);
      case CompleteMessage(s) =>
        if s > MAX_PAYLOAD {
          return Err(SizeOverflow);
        }
        SizeFields(out, 3, s);
        out := SetBits(out, 29, 32, 3);
        out := SetBits(out, 0, 29, s);
      case MultipartMessage(s) =>
        if s > MAX_PAYLOAD {
          return Err(SizeOverflow);
        }
        SizeFields(out, 4, s);
        out := SetBits(out, 29, 32, 4);
        out := SetBits(out, 0, 29, s);
      case PermitRequest(s) =>
        if s > MAX_PAYLOAD {
          return Err(SizeOverflow);
        }
        SizeFields(out, 5, s);
        out := SetBits(out, 29, 32, 5);
        out := SetBits(out, 0, 29, s);
      case PermitGrant(s) =>
        if s > MAX_PAYLOAD {
          return Err(SizeOverflow);
        }
        SizeFields(out, 6, s);
        out := SetBits(out, 29, 32, 6);
        out := SetBits(out, 0, 29, s);
    }
    FieldsNumber(h, out);
    ToBeBytes(out);
    r := Ok([Value(out[24..32]), Value(out[16..24]), Value(out[8..16]), Value(out[0..8])]);
  }

  /** Two writes cover a word that holds a size. */
  lemma SizeFields(w: Bits, tag: nat, size: nat)
    requires |w| == 32
    ensures SetBits(SetBits(w, 29, 32, tag), 0, 29, size) == ToBits(size, 29) + ToBits(tag, 3)
  {
    WriteBelow(w, 29, 32, tag);
    var x := SetBits(w, 29, 32, tag);
    assert w[32..] == [] && x[29..] == ToBits(tag, 3);
    WriteBelow(x, 0, 29, size);
    var y := SetBits(x, 0, 29, size);
    assert y == y[0..];
  }

  /** Five writes cover a word that holds a version. */
  lemma VersionFields(w: Bits, v: byte, a: byte, b: byte, c: byte)
    requires |w| == 32
    ensures
      var w1 := SetBits(SetBits(SetBits(w, 29, 32, 2), 24, 29, v), 16, 24, a);
      SetBits(SetBits(w1, 8, 16, b), 0, 8, c)
      == ToBits(c, 8) + (ToBits(b, 8) + (ToBits(a, 8) + (ToBits(v, 5) + ToBits(2, 3))))
  {
    WriteBelow(w, 29, 32, 2);
    var w1 := SetBits(w, 29, 32, 2);
    assert w1[29..] == ToBits(2, 3) + w[32..] == ToBits(2, 3);
    WriteBelow(w1, 24, 29, v);
    var w2 := SetBits(w1, 24, 29, v);
    WriteBelow(w2, 16, 24, a);
    var w3 := SetBits(w2, 16, 24, a);
    WriteBelow(w3, 8, 16, b);
    var w4 := SetBits(w3, 8, 16, b);
    WriteBelow(w4, 0, 8, c);
  }

  lemma WriteBelow(w: Bits, lo: nat, hi: nat, v: nat)
    requires lo <= hi <= |w|
    ensures |SetBits(w, lo, hi, v)| == |w|
    ensures SetBits(w, lo, hi, v)[lo..] == ToBits(v, hi - lo) + w[hi..]
  {
  }

  /** The fields of a header, side by side, spell its number. */
  lemma FieldsNumber(h: ProtoHeader, out: Bits)
    requires InRange(h)
    requires h.Version? ==>
               out == ToBits(h.c, 8) + (ToBits(h.b, 8) + (ToBits(h.a, 8) + (ToBits(h.v, 5) + ToBits(2, 3))))
    requires !h.Version? ==> out == ToBits(h.size, 29) + ToBits(Tag(h), 3)
    ensures Value(out) == HeaderNumber(h)
  {
    Pow2Constants();
    ValueOfBits(Tag(h), 3);
    if h.Version? {
      ValueOfBits(h.v, 5);
      ValueOfBits(h.a, 8);
      ValueOfBits(h.b, 8);
      ValueOfBits(h.c, 8);
      Join(ToBits(h.v, 5), ToBits(2, 3), 32);
      JoinByte(ToBits(h.a, 8), ToBits(h.v, 5) + ToBits(2, 3));
      JoinByte(ToBits(h.b, 8), ToBits(h.a, 8) + (ToBits(h.v, 5) + ToBits(2, 3)));
      JoinByte(ToBits(h.c, 8), ToBits(h.b, 8) + (ToBits(h.a, 8) + (ToBits(h.v, 5) + ToBits(2, 3))));
    } else {
      ValueOfBits(h.size, 29);
      ValueConcat(ToBits(h.size, 29), ToBits(Tag(h), 3));
    }
  }

  lemma ToBeBytes(w: Bits)
    requires |w| == 32
    ensures Value(w[24..32]) < 0x100 && Value(w[16..24]) < 0x100
    ensures Value(w[8..16]) < 0x100 && Value(w[0..8]) < 0x100
    ensures Value(w) < 0x1_0000_0000
    ensures BigEndian(Value(w)) == [Value(w[24..32]), Value(w[16..24]), Value(w[8..16]), Value(w[0..8])]
  {
    Pow2Constants();
    BytesOfBits(w);
    assert w[24..] == w[24..32];
    BitsOfValue(w[24..32]);
    DigitsBigEndian(Value(w[24..32]), Value(w[16..24]), Value(w[8..16]), Value(w[0..8]));
  }
}
