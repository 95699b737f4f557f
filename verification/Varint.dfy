/** Variable-length integers (section 16 of RFC 9000): the two top bits of the first byte
    give the length, the other bits the value in big-endian order. */
module Varint {
  import opened Wrappers
  import opened Bytes

  const MAX_VALUE: nat := 0x3FFF_FFFF_FFFF_FFFF

  datatype ProtocolError =
    | VarIntOverflow
    | Truncated
    | FrameTooLarge(maximum: nat, actual: nat)
    | InvalidValue
    | InvalidUtf8
    | UnknownFrameType(value: byte)
    | InvalidAckRanges
    | AckRangeCountExceeded
    | EmptyPacket
    | TooManyFrames
    | EncryptionNotAllowed
    | EncryptedPacketRequiresKeys
    | DatagramTooLarge(limit: nat, length: nat)
    | DatagramTooShort
    | InvalidMagic
    | UnsupportedVersion
    | InvalidPacketType
    | InvalidFlags
    | InvalidHeaderLength
    | PayloadLengthMismatch
    | ChecksumMismatch

  /** A reader is the input that is left; a successful read returns the value and the rest. */
  type ReadResult<+T> = Result<(T, seq<byte>), ProtocolError>

  function EncodedLen(value: nat): Result<nat, ProtocolError>
  {
    if value <= 0x3f then Ok(1)
    else if value <= 0x3fff then Ok(2)
    else if value <= 0x3fff_ffff then Ok(4)
    else if value <= MAX_VALUE then Ok(8)
    else Err(VarIntOverflow)
  }

  /** The length tag for an encoding of `length` bytes, as the value of the first byte's top bits. */
  function Tag(length: nat): byte
  {
    if length == 1 then 0 else if length == 2 then 64 else if length == 4 then 128 else 192
  }

  /** The tag bits are zero in the value, so setting them adds the tag. */
  function Encode(value: nat): (r: Result<seq<byte>, ProtocolError>)
    ensures r.Ok? <==> value <= MAX_VALUE
    ensures r.Ok? ==> EncodedLen(value) == Ok(|r.value|) && 1 <= |r.value| <= 8
  {
    match EncodedLen(value)
    case Err(e) => Err(e)
    case Ok(n) => Ok(ToBytes(value + Tag(n) * Pow256(n - 1), n))
  }

  /** Eight bytes without the two top bits of the first. */
  function LowBits(b: seq<byte>): (n: nat)
    requires |b| == 8
    ensures n <= MAX_VALUE
  {
    EightBound([b[0] % 64] + b[1..]);
    FromBytes([b[0] % 64] + b[1..])
  }

  function Decode(input: seq<byte>): (r: ReadResult<u64>)
    ensures r.Ok? ==> r.value.0 <= MAX_VALUE
  {
    if |input| == 0 then Err(Truncated) else
    var tag := input[0] / 64;
    var length := if tag == 0 then 1 else if tag == 1 then 2 else if tag == 2 then 4 else 8;
    if |input| < length then Err(Truncated) else
    var bytes := input[..length];
    var value :=
      if length == 1 then input[0] % 64
      else if length == 2 then FromBytes(bytes) % 0x4000
      else if length == 4 then FromBytes(bytes) % 0x4000_0000
      else LowBits(bytes);
    Ok((value, input[length..]))
  }

  lemma EightBound(b: seq<byte>)
    requires |b| == 8 && b[0] < 64
    ensures FromBytes(b) <= MAX_VALUE
  {
    LeadingBound(b);
    Powers();
    hide Pow256, FromBytes;
  }

  lemma Powers()
    ensures Pow256(1) == 0x100 && Pow256(2) == 0x1_0000 && Pow256(3) == 0x100_0000 && Pow256(4) == 0x1_0000_0000
    ensures Pow256(7) == 0x100_0000_0000_0000 && Pow256(8) == 0x1_0000_0000_0000_0000
  {
    assert Pow256(5) == 256 * Pow256(4) && Pow256(6) == 256 * Pow256(5);
  }

  /** Splitting the value into its leading digit and the rest, and adding the tag, only
      changes the first byte: `tag + leading digit`. */
  lemma TaggedBytes(value: nat, n: nat, p: nat)
    requires 0 < n && p == Pow256(n - 1) && 0 < p && value < 64 * p
    ensures var e := ToBytes(value + Tag(n) * p, n);
      && e[0] / 64 == Tag(n) / 64
      && [e[0] % 64] + e[1..] == ToBytes(value, n)
      && FromBytes(ToBytes(value, n)) == value
      && FromBytes(e) == value + Tag(n) * p
  {
    DigitBound(value, p);
    var k: nat, r: nat, t := value / p, value % p, Tag(n);
    var m := value + t * p;
    Regroup(r, k, t, p);
    assert Pow256(n) == 256 * p && m < 256 * p;
    LeadingByte(r, n, k + t);
    LeadingByte(r, n, k);
    hide Pow256;
    BytesRoundTrip(value, n);
    BytesRoundTrip(m, n);
    hide ToBytes, FromBytes;
    var e, plain := ToBytes(m, n), ToBytes(value, n);
    assert e[0] == k + t && e[1..] == plain[1..] && plain[0] == k;
    assert (k + t) / 64 == t / 64 && (k + t) % 64 == k;
    assert plain == [plain[0]] + plain[1..];
  }

  lemma Regroup(r: nat, k: nat, t: nat, p: nat)
    ensures r + k * p + t * p == r + (k + t) * p
  {
  }

  lemma DigitBound(value: nat, p: nat)
    requires p > 0 && value < 64 * p
    ensures 0 <= value / p < 64 && 0 <= value % p < p && value == value % p + (value / p) * p
  {
    assert value == p * (value / p) + value % p;
    Multiple(p, value / p);
  }

  lemma Multiple(p: nat, q: nat)
    ensures q >= 64 ==> p * q >= p * 64
  {
  }

  lemma OneByte(value: nat)
    requires value < 64
    ensures Encode(value).value == [value]
  {
    assert ToBytes(value, 1) == ToBytes(value / 256, 0) + [value % 256];
  }

  lemma DecodeOne(value: nat, rest: seq<byte>)
    requires value < 64
    ensures Decode([value] + rest) == Ok((value, rest))
  {
    assert ([value] + rest)[1..] == rest;
  }

  lemma DecodeTwoFour(e: seq<byte>, rest: seq<byte>, value: nat)
    requires |e| == 2 ==> e[0] / 64 == 1 && FromBytes(e) == value + 0x4000 && value < 0x4000
    requires |e| == 4 ==> e[0] / 64 == 2 && FromBytes(e) == value + 0x8000_0000 && value < 0x4000_0000
    requires |e| == 2 || |e| == 4
    ensures Decode(e + rest) == Ok((value, rest))
  {
    assert (e + rest)[0] == e[0] && (e + rest)[..|e|] == e && (e + rest)[|e|..] == rest;
    hide FromBytes;
  }

  lemma DecodeEight(e: seq<byte>, rest: seq<byte>, value: nat)
    requires |e| == 8 && e[0] / 64 == 3 && FromBytes([e[0] % 64] + e[1..]) == value
    ensures Decode(e + rest) == Ok((value, rest))
  {
    assert (e + rest)[0] == e[0] && (e + rest)[..8] == e && (e + rest)[8..] == rest;
    hide FromBytes;
  }

  /** A varint is self-delimiting: whatever follows it, decoding returns the value and stops
      exactly behind it. */
  lemma RoundTrip(value: nat, rest: seq<byte>)
    requires value <= MAX_VALUE
    ensures Decode(Encode(value).value + rest) == Ok((value, rest))
  {
    var n := EncodedLen(value).value;
    Powers();
    hide Pow256, ToBytes, FromBytes, Decode;
    TaggedBytes(value, n, Pow256(n - 1));
    if n == 1 {
      OneByte(value);
      DecodeOne(value, rest);
    } else if n == 8 {
      DecodeEight(Encode(value).value, rest, value);
    } else {
      DecodeTwoFour(Encode(value).value, rest, value);
    }
  }
}
