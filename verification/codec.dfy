/** The binary wire format of src/binary_protocol.rs: a 120-byte header and a payload.

SHA-256 is a parameter, `sha`: nothing here depends on which function it is. */
module Codec {
  import opened Bytes
  import opened Wrappers

  const HEADER_LENGTH: nat := 116
  const HEADER_SIZE: nat := 120
  const MAX_PAYLOAD_SIZE: nat := 10 * 1024 * 1024

  type u64 = x: int | 0 <= x < 0x1_0000_0000_0000_0000
  type i64 = x: int | -0x8000_0000_0000_0000 <= x < 0x8000_0000_0000_0000
  type Uuid = s: seq<byte> | |s| == 16 witness seq(16, _ => 0)
  type Digest = s: seq<byte> | |s| == 32 witness seq(32, _ => 0)

  datatype MessageType =
    InputStreamData | OutputStreamData | Acknowledge | ChannelClosed | StartPublication | PausePublication

  datatype PayloadType =
    | Undefined | Output | Error | Size | Parameter
    | HandshakeRequest | HandshakeResponse | HandshakeComplete
    | EncChallengeRequest | EncChallengeResponse | Flag | StdErr | ExitCode

  datatype ClientMessage = ClientMessage(
    messageType: MessageType,
    schemaVersion: u32,
    createdDate: u64,
    sequenceNumber: i64,
    flags: u64,
    messageId: Uuid,
    payloadDigest: Digest,
    payloadType: PayloadType,
    payload: seq<byte>)

  datatype ParseError =
    | Truncated | BadHeaderLength | NotUtf8 | UnknownMessageType | UnknownPayloadType
    | PayloadTooLarge | PayloadTruncated | NegativeSequence | DigestMismatch

  datatype Result<T> = Success(value: T) | Failure(error: ParseError)

  // -------------------------------------------------------------------------
  // Field encodings
  // -------------------------------------------------------------------------

  function Code(t: PayloadType): u32 {
    match t
    case Undefined => 0
    case Output => 1
    case Error => 2
    case Size => 3
    case Parameter => 4
    case HandshakeRequest => 5
    case HandshakeResponse => 6
    case HandshakeComplete => 7
    case EncChallengeRequest => 8
    case EncChallengeResponse => 9
    case Flag => 10
    case StdErr => 11
    case ExitCode => 12
  }

  /** Inverse of `Code`, and undefined everywhere else. */
  function FromCode(n: nat): (t: Option<PayloadType>)
    ensures t.Some? ==> Code(t.value) == n
    ensures t.None? <==> n > 12
    ensures forall x: PayloadType :: Code(x) == n ==> t == Some(x)
  {
    match n
    case 0 => Some(Undefined)
    case 1 => Some(Output)
    case 2 => Some(Error)
    case 3 => Some(Size)
    case 4 => Some(Parameter)
    case 5 => Some(HandshakeRequest)
    case 6 => Some(HandshakeResponse)
    case 7 => Some(HandshakeComplete)
    case 8 => Some(EncChallengeRequest)
    case 9 => Some(EncChallengeResponse)
    case 10 => Some(Flag)
    case 11 => Some(StdErr)
    case 12 => Some(ExitCode)
    case _ => None
  }

  /** The codes count the types in the order of the protocol. */
  lemma CodesInOrder(i: nat)
    requires i < 13
    ensures var types := [Undefined, Output, Error, Size, Parameter, HandshakeRequest, HandshakeResponse,
                          HandshakeComplete, EncChallengeRequest, EncChallengeResponse, Flag, StdErr, ExitCode];
            Code(types[i]) == i
  {
  }

  /** Two's complement. */
  function ToUnsigned(x: i64): u64 { if x >= 0 then x else x + 0x1_0000_0000_0000_0000 }

  function ToSigned(x: u64): i64 {
    if x < 0x8000_0000_0000_0000 then x else x - 0x1_0000_0000_0000_0000
  }

  /** The agent's order: least-significant half first. */
  function SwapHalves(id: Uuid): Uuid { id[8..16] + id[0..8] }

  /** The bytes of an ASCII string. */
  function Ascii(s: string): (b: seq<byte>)
    ensures |b| == |s|
    ensures forall i :: 0 <= i < |b| ==> b[i] == s[i] as int % 128 && b[i] < 128
  {
    seq(|s|, i requires 0 <= i < |s| => s[i] as int % 128)
  }

  function Name(t: MessageType): (b: seq<byte>)
    ensures 0 < |b| <= 32 && !IsPadding(b[0]) && !IsPadding(b[|b| - 1])
    ensures forall i :: 0 <= i < |b| ==> b[i] < 128
  {
    match t
    case InputStreamData => Ascii("input_stream_data")
    case OutputStreamData => Ascii("output_stream_data")
    case Acknowledge => Ascii("acknowledge")
    case ChannelClosed => Ascii("channel_closed")
    case StartPublication => Ascii("start_publication")
    case PausePublication => Ascii("pause_publication")
  }

  // -------------------------------------------------------------------------
  // Text
  // -------------------------------------------------------------------------

  /** A Unicode scalar value. */
  type Scalar = nat

  predicate Continues(s: seq<byte>, at: nat, lo: nat, hi: nat) { at < |s| && lo <= s[at] <= hi }

  /** How many bytes the character at the front takes; 0 if the front is not well-formed UTF-8
      (table 3-7 of the Unicode standard). */
  function Width(s: seq<byte>): (w: nat)
    ensures w <= |s| && w <= 4
  {
    if s == [] then 0
    else if s[0] < 0x80 then 1
    else if 0xC2 <= s[0] <= 0xDF then if Continues(s, 1, 0x80, 0xBF) then 2 else 0
    else if 0xE0 <= s[0] <= 0xEF then
      var lo, hi := if s[0] == 0xE0 then 0xA0 else 0x80, if s[0] == 0xED then 0x9F else 0xBF;
      if Continues(s, 1, lo, hi) && Continues(s, 2, 0x80, 0xBF) then 3 else 0
    else if 0xF0 <= s[0] <= 0xF4 then
      var lo, hi := if s[0] == 0xF0 then 0x90 else 0x80, if s[0] == 0xF4 then 0x8F else 0xBF;
      if Continues(s, 1, lo, hi) && Continues(s, 2, 0x80, 0xBF) && Continues(s, 3, 0x80, 0xBF) then 4 else 0
    else 0
  }

  /** The low bits of a byte. */
  function Low(b: byte, n: nat): (x: nat)
    requires n > 0
    ensures x < n
  {
    b % n
  }

  /** The character at the front. */
  function FrontScalar(s: seq<byte>): Scalar
    requires Width(s) > 0
  {
    match Width(s)
    case 1 => s[0]
    case 2 => Low(s[0], 32) * 64 + Low(s[1], 64)
    case 3 => (Low(s[0], 16) * 64 + Low(s[1], 64)) * 64 + Low(s[2], 64)
    case _ => ((Low(s[0], 8) * 64 + Low(s[1], 64)) * 64 + Low(s[2], 64)) * 64 + Low(s[3], 64)
  }

  /** `str::from_utf8`: the characters, or nothing if the bytes are not UTF-8. */
  function Text(s: seq<byte>): Option<seq<Scalar>> {
    if s == [] then Some([])
    else if Width(s) == 0 then None
    else
      var rest := Text(s[Width(s)..]);
      if rest.None? then None else Some([FrontScalar(s)] + rest.value)
  }

  /** The characters there are: no surrogates, nothing above U+10FFFF. */
  predicate IsScalar(c: Scalar) { c < 0xD800 || 0xE000 <= c < 0x11_0000 }

  /** The bytes of a character: 1, 2, 3 or 4 of them, most significant bits first. */
  function Utf8(c: Scalar): (b: seq<byte>)
    requires IsScalar(c)
    ensures 1 <= |b| <= 4
  {
    if c < 0x80 then [c]
    else if c < 0x800 then [0xC0 + c / 64, 0x80 + c % 64]
    else
      var h := c / 64;
      var g := h / 64;
      if c < 0x1_0000 then [0xE0 + g, 0x80 + h % 64, 0x80 + c % 64]
      else [0xF0 + g / 64, 0x80 + g % 64, 0x80 + h % 64, 0x80 + c % 64]
  }

  function Utf8All(text: seq<Scalar>): seq<byte>
    requires forall i :: 0 <= i < |text| ==> IsScalar(text[i])
  {
    if text == [] then [] else Utf8(text[0]) + Utf8All(text[1..])
  }

  /** The low bits of a lead byte and of a continuation byte. */
  lemma LowBits(x: nat)
    ensures x < 64 ==> Low(0x80 + x, 64) == x
    ensures x < 32 ==> Low(0xC0 + x, 32) == x
    ensures x < 16 ==> Low(0xE0 + x, 16) == x
    ensures x < 8 ==> Low(0xF0 + x, 8) == x
  {
  }

  lemma HighBits(b: byte)
    ensures 0x80 <= b <= 0xBF ==> b == 0x80 + Low(b, 64)
    ensures 0xC0 <= b <= 0xDF ==> b == 0xC0 + Low(b, 32)
    ensures 0xE0 <= b <= 0xEF ==> b == 0xE0 + Low(b, 16)
    ensures 0xF0 <= b <= 0xF7 ==> b == 0xF0 + Low(b, 8)
  {
  }

  lemma FrontOfTwo(c: Scalar, s: seq<byte>)
    requires 0x80 <= c < 0x800 && Utf8(c) <= s
    ensures Width(s) == 2 && FrontScalar(s) == c
  {
    LowBits(c / 64);
    LowBits(c % 64);
    hide Low;
    assert Utf8(c)[0] == s[0] && Utf8(c)[1] == s[1];
  }

  lemma FrontOfThree(c: Scalar, s: seq<byte>)
    requires 0x800 <= c < 0x1_0000 && IsScalar(c) && Utf8(c) <= s
    ensures Width(s) == 3 && FrontScalar(s) == c
  {
    LowBits(c / 64 / 64);
    LowBits(c / 64 % 64);
    LowBits(c % 64);
    hide Low;
    assert Utf8(c)[0] == s[0] && Utf8(c)[1] == s[1] && Utf8(c)[2] == s[2];
  }

  lemma FrontOfFour(c: Scalar, s: seq<byte>)
    requires 0x1_0000 <= c && IsScalar(c) && Utf8(c) <= s
    ensures Width(s) == 4 && FrontScalar(s) == c
  {
    LowBits(c / 64 / 64 / 64);
    LowBits(c / 64 / 64 % 64);
    LowBits(c / 64 % 64);
    LowBits(c % 64);
    hide Low;
    assert Utf8(c)[0] == s[0] && Utf8(c)[1] == s[1] && Utf8(c)[2] == s[2] && Utf8(c)[3] == s[3];
  }

  lemma FrontOfUtf8(c: Scalar, rest: seq<byte>)
    requires IsScalar(c)
    ensures var s := Utf8(c) + rest;
            Width(s) == |Utf8(c)| && FrontScalar(s) == c && s[Width(s)..] == rest
  {
    var s := Utf8(c) + rest;
    assert s[|Utf8(c)|..] == rest;
    hide Width, FrontScalar;
    if c < 0x80 {
      FrontOfOne(c, s);
    } else if c < 0x800 {
      FrontOfTwo(c, s);
    } else if c < 0x1_0000 {
      FrontOfThree(c, s);
    } else {
      FrontOfFour(c, s);
    }
  }

  lemma FrontOfOne(c: Scalar, s: seq<byte>)
    requires c < 0x80 && Utf8(c) <= s
    ensures Width(s) == 1 && FrontScalar(s) == c
  {
  }

  /** The digits of a number in base 64, back from the number. */
  lemma TwoDigits(a: nat, b: nat)
    requires b < 64
    ensures var c := a * 64 + b; c / 64 == a && c % 64 == b
  {
  }

  lemma Utf8OfTwo(a: nat, b: nat)
    requires 2 <= a < 32 && b < 64
    ensures var c := a * 64 + b; IsScalar(c) && Utf8(c) == [0xC0 + a, 0x80 + b]
  {
    TwoDigits(a, b);
  }

  lemma Utf8OfThree(a: nat, b: nat, d: nat)
    requires a < 16 && b < 64 && d < 64 && (a == 0 ==> b >= 32) && (a == 13 ==> b < 32)
    ensures var c := (a * 64 + b) * 64 + d; IsScalar(c) && Utf8(c) == [0xE0 + a, 0x80 + b, 0x80 + d]
  {
    TwoDigits(a, b);
    TwoDigits(a * 64 + b, d);
  }

  lemma Utf8OfFour(a: nat, b: nat, d: nat, e: nat)
    requires a < 5 && b < 64 && d < 64 && e < 64 && (a == 0 ==> b >= 16) && (a == 4 ==> b < 16)
    ensures var c := ((a * 64 + b) * 64 + d) * 64 + e; IsScalar(c) && Utf8(c) == [0xF0 + a, 0x80 + b, 0x80 + d, 0x80 + e]
  {
    TwoDigits(a, b);
    TwoDigits(a * 64 + b, d);
    TwoDigits((a * 64 + b) * 64 + d, e);
  }

  lemma Utf8OfFront(s: seq<byte>)
    requires Width(s) > 0
    ensures IsScalar(FrontScalar(s)) && Utf8(FrontScalar(s)) == s[..Width(s)]
  {
    hide Utf8, IsScalar, Low;
    HighBits(s[0]);
    match Width(s)
    case 1 => Utf8OfOne(s[0]);
    case 2 =>
      HighBits(s[1]);
      Utf8OfTwo(Low(s[0], 32), Low(s[1], 64));
    case 3 =>
      HighBits(s[1]);
      HighBits(s[2]);
      Utf8OfThree(Low(s[0], 16), Low(s[1], 64), Low(s[2], 64));
    case _ =>
      HighBits(s[1]);
      HighBits(s[2]);
      HighBits(s[3]);
      Utf8OfFour(Low(s[0], 8), Low(s[1], 64), Low(s[2], 64), Low(s[3], 64));
  }

  lemma Utf8OfOne(b: byte)
    requires b < 0x80
    ensures IsScalar(b) && Utf8(b) == [b]
  {
  }

  lemma {:induction false} TextOfUtf8(text: seq<Scalar>)
    requires forall i :: 0 <= i < |text| ==> IsScalar(text[i])
    ensures Text(Utf8All(text)) == Some(text)
  {
    hide Width, FrontScalar, Utf8, IsScalar;
    if text != [] {
      TextOfUtf8(text[1..]);
      FrontOfUtf8(text[0], Utf8All(text[1..]));
      assert [text[0]] + text[1..] == text;
    }
  }

  lemma {:induction false} Utf8OfText(s: seq<byte>)
    requires Text(s).Some?
    ensures var text := Text(s).value;
            (forall i :: 0 <= i < |text| ==> IsScalar(text[i])) && Utf8All(text) == s
  {
    hide FrontScalar, Utf8, IsScalar;
    if s != [] {
      var w := Width(s);
      Utf8OfText(s[w..]);
      Utf8OfFront(s);
      var text := Text(s).value;
      assert text[1..] == Text(s[w..]).value;
      assert s == s[..w] + s[w..];
    }
  }

  /** Decoding is the inverse of encoding: bytes are the text `t` exactly when they are its UTF-8. */
  lemma TextIff(s: seq<byte>, text: seq<Scalar>)
    ensures Text(s) == Some(text) <==>
            (forall i :: 0 <= i < |text| ==> IsScalar(text[i])) && s == Utf8All(text)
  {
    hide Text, Utf8All, IsScalar;
    if Text(s) == Some(text) {
      Utf8OfText(s);
    }
    if forall i :: 0 <= i < |text| ==> IsScalar(text[i]) {
      TextOfUtf8(text);
    }
  }

  /** `char::is_whitespace`: the Unicode property White_Space. */
  predicate IsWhitespace(c: Scalar) {
    || 9 <= c <= 13 || c == 32 || c == 0x85 || c == 0xA0 || c == 0x1680 || 0x2000 <= c <= 0x200A
    || c == 0x2028 || c == 0x2029 || c == 0x202F || c == 0x205F || c == 0x3000
  }

  /** NUL and white space. */
  predicate IsPadding(c: Scalar) { c == 0 || IsWhitespace(c) }

  ghost predicate AllPadding(s: seq<Scalar>) { forall i :: 0 <= i < |s| ==> IsPadding(s[i]) }

  /** The text is the name with padding on either side. */
  ghost predicate Surrounds(text: seq<Scalar>, name: seq<Scalar>) {
    exists before, after: seq<Scalar> :: AllPadding(before) && AllPadding(after) && text == before + name + after
  }

  function TrimStart(s: seq<Scalar>): seq<Scalar> {
    if s != [] && IsPadding(s[0]) then TrimStart(s[1..]) else s
  }

  function TrimEnd(s: seq<Scalar>): seq<Scalar> {
    if s != [] && IsPadding(s[|s| - 1]) then TrimEnd(s[..|s| - 1]) else s
  }

  function Trim(s: seq<Scalar>): seq<Scalar> { TrimEnd(TrimStart(s)) }

  function PaddedMessageType(t: MessageType): (b: seq<byte>)
    ensures |b| == 32
  {
    Name(t) + seq(32 - |Name(t)|, _ => 32)
  }

  function ParseName(name: seq<Scalar>): Option<MessageType> {
    if name == Name(InputStreamData) then Some(InputStreamData)
    else if name == Name(OutputStreamData) then Some(OutputStreamData)
    else if name == Name(Acknowledge) then Some(Acknowledge)
    else if name == Name(ChannelClosed) then Some(ChannelClosed)
    else if name == Name(StartPublication) then Some(StartPublication)
    else if name == Name(PausePublication) then Some(PausePublication)
    else None
  }

  function ParseMessageType(field: seq<byte>): Result<MessageType> {
    var text := Text(field);
    if text.None? then Failure(NotUtf8)
    else
      var t := ParseName(Trim(text.value));
      if t.None? then Failure(UnknownMessageType) else Success(t.value)
  }

  /** The field is the name of `t`, as text, with padding around it. */
  ghost predicate Names(field: seq<byte>, t: MessageType) {
    Text(field).Some? && Surrounds(Text(field).value, Name(t))
  }

  // -------------------------------------------------------------------------
  // Whole messages
  // -------------------------------------------------------------------------

  /** Everything after the message-type field. */
  function Tail(m: ClientMessage): seq<byte> {
    BigEndian(4, m.schemaVersion) + BigEndian(8, m.createdDate) + BigEndian(8, ToUnsigned(m.sequenceNumber))
    + BigEndian(8, m.flags) + SwapHalves(m.messageId) + m.payloadDigest
    + BigEndian(4, Code(m.payloadType)) + BigEndian(4, |m.payload|) + m.payload
  }

  /** The message with a given 32-byte type field. */
  function WireWith(m: ClientMessage, typeField: seq<byte>): seq<byte> {
    BigEndian(4, HEADER_LENGTH) + typeField + Tail(m)
  }

  function Wire(m: ClientMessage): seq<byte> { WireWith(m, PaddedMessageType(m.messageType)) }

  function Validate(sha: seq<byte> -> Digest, m: ClientMessage): Option<ParseError> {
    if m.messageType.StartPublication? || m.messageType.PausePublication? then None
    else if m.sequenceNumber < 0 then Some(NegativeSequence)
    else if m.payload != [] && sha(m.payload) != m.payloadDigest then Some(DigestMismatch)
    else None
  }

  lemma FourBytes(s: seq<byte>)
    requires |s| == 4
    ensures FromBigEndian(s) == ((s[0] as int * 256 + s[1]) * 256 + s[2]) * 256 + s[3]
  {
    assert s[..3][..2] == s[..2] && s[..2][..1] == s[..1] && s[..1][..0] == [];
    assert FromBigEndian(s[..1]) == s[0];
    assert FromBigEndian(s[..2]) == FromBigEndian(s[..1]) * 256 + s[1];
    assert FromBigEndian(s[..3]) == FromBigEndian(s[..2]) * 256 + s[2];
  }

  lemma EightBytes(s: seq<byte>)
    requires |s| == 8
    ensures FromBigEndian(s) == FromBigEndian(s[..4]) * 0x1_0000_0000 + FromBigEndian(s[4..])
  {
    FourBytes(s[4..]);
    assert s[..7][..6] == s[..6] && s[..6][..5] == s[..5] && s[..5][..4] == s[..4];
    assert FromBigEndian(s[..5]) == FromBigEndian(s[..4]) * 256 + s[4];
    assert FromBigEndian(s[..6]) == FromBigEndian(s[..5]) * 256 + s[5];
    assert FromBigEndian(s[..7]) == FromBigEndian(s[..6]) * 256 + s[6];
  }

  function U64At(data: seq<byte>, at: nat): (v: u64)
    requires at + 8 <= |data|
    ensures v == U32At(data, at) * 0x1_0000_0000 + U32At(data, at + 4)
  {
    BigEndianOfFrom(data[at..at + 8]);
    Pow256Values();
    EightBytes(data[at..at + 8]);
    assert data[at..at + 8][..4] == data[at..at + 4] && data[at..at + 8][4..] == data[at + 4..at + 8];
    FromBigEndian(data[at..at + 8])
  }

  /** Most significant byte first. */
  function U32At(data: seq<byte>, at: nat): (v: u32)
    requires at + 4 <= |data|
    ensures v == ((data[at] as int * 256 + data[at + 1]) * 256 + data[at + 2]) * 256 + data[at + 3]
  {
    BigEndianOfFrom(data[at..at + 4]);
    Pow256Values();
    FourBytes(data[at..at + 4]);
    FromBigEndian(data[at..at + 4])
  }

  /** The header at its documented offsets, given its parsed type fields. */
  function Fields(data: seq<byte>, messageType: MessageType, payloadType: PayloadType): ClientMessage
    requires |data| >= HEADER_SIZE && |data| - HEADER_SIZE >= U32At(data, 116)
  {
    ClientMessage(
      messageType, U32At(data, 36), U64At(data, 40), ToSigned(U64At(data, 48)), U64At(data, 56),
      SwapHalves(data[64..80]), data[80..112], payloadType, data[120..120 + U32At(data, 116)])
  }

  /** What a byte string means, by offset. */
  function Parse(sha: seq<byte> -> Digest, data: seq<byte>): Result<ClientMessage> {
    if |data| < HEADER_SIZE then Failure(Truncated)
    else if U32At(data, 0) != HEADER_LENGTH then Failure(BadHeaderLength)
    else
      var messageType := ParseMessageType(data[4..36]);
      if messageType.Failure? then Failure(messageType.error)
      else
        var payloadType := FromCode(U32At(data, 112));
        if payloadType.None? then Failure(UnknownPayloadType)
        else if U32At(data, 116) > MAX_PAYLOAD_SIZE then Failure(PayloadTooLarge)
        else if |data| - HEADER_SIZE < U32At(data, 116) then Failure(PayloadTruncated)
        else
          var m := Fields(data, messageType.value, payloadType.value);
          var problem := Validate(sha, m);
          if problem.Some? then Failure(problem.value) else Success(m)
  }

  // -------------------------------------------------------------------------
  // The cursor implementations
  // -------------------------------------------------------------------------

  /** `ClientMessage::serialize`: one field after another into a growing buffer. */
  method Serialize(m: ClientMessage) returns (wire: seq<byte>)
    ensures wire == Wire(m)
    ensures |wire| == HEADER_SIZE + |m.payload|
  {
    hide Name, BigEndian;
    var buf := BigEndian(4, HEADER_LENGTH);
    buf := buf + PaddedMessageType(m.messageType);
    buf := buf + BigEndian(4, m.schemaVersion);
    buf := buf + BigEndian(8, m.createdDate);
    buf := buf + BigEndian(8, ToUnsigned(m.sequenceNumber));
    buf := buf + BigEndian(8, m.flags);
    buf := buf + m.messageId[8..16];
    buf := buf + m.messageId[0..8];
    buf := buf + m.payloadDigest;
    buf := buf + BigEndian(4, Code(m.payloadType));
    buf := buf + BigEndian(4, |m.payload|);
    buf := buf + m.payload;
    assert buf == Wire(m);
    return buf;
  }

  lemma Shift32(data: seq<byte>, rest: seq<byte>, at: nat)
    requires at + 4 <= |data| && rest == data[at..]
    ensures U32At(rest, 0) == U32At(data, at)
  {
    assert rest[0..4] == data[at..at + 4];
  }

  lemma Shift64(data: seq<byte>, rest: seq<byte>, at: nat)
    requires at + 8 <= |data| && rest == data[at..]
    ensures U64At(rest, 0) == U64At(data, at)
  {
    assert rest[0..8] == data[at..at + 8];
  }

  /** `ClientMessage::deserialize`: the cursor `rest` never runs out of bytes, and reads what the
      offset table says. */
  method Deserialize(sha: seq<byte> -> Digest, data: seq<byte>) returns (r: Result<ClientMessage>)
    ensures r == Parse(sha, data)
  {
    hide FromBigEndian, BigEndian, ParseMessageType, FromCode, Validate, U32At, U64At, ToSigned;
    if |data| < HEADER_SIZE {
      return Failure(Truncated);
    }
    var rest := data;
    var headerLength := U32At(rest, 0);
    rest := rest[4..];
    if headerLength != HEADER_LENGTH {
      return Failure(BadHeaderLength);
    }
    var messageType := ParseMessageType(rest[..32]);
    assert rest[..32] == data[4..36];
    rest := rest[32..];
    if messageType.Failure? {
      return Failure(messageType.error);
    }
    var schemaVersion, createdDate, rawSequence, flags := ReadIntegers(data, rest);
    rest := rest[28..];
    assert rest == data[64..];
    var wireUuid := rest[..16];
    rest := rest[16..];
    assert wireUuid == data[64..80] && rest == data[80..];
    var messageId := SwapHalves(wireUuid);
    var payloadDigest := rest[..32];
    rest := rest[32..];
    assert payloadDigest == data[80..112] && rest == data[112..];
    Shift32(data, rest, 112);
    var payloadType := FromCode(U32At(rest, 0));
    rest := rest[4..];
    if payloadType.None? {
      return Failure(UnknownPayloadType);
    }
    assert rest == data[116..];
    Shift32(data, rest, 116);
    var payloadLength := U32At(rest, 0);
    rest := rest[4..];
    if payloadLength > MAX_PAYLOAD_SIZE {
      return Failure(PayloadTooLarge);
    }
    if |rest| < payloadLength {
      return Failure(PayloadTruncated);
    }
    var payload := rest[..payloadLength];
    assert payload == data[120..120 + payloadLength];
    var m := ClientMessage(messageType.value, schemaVersion, createdDate, ToSigned(rawSequence), flags,
                           messageId, payloadDigest, payloadType.value, payload);
    assert m == Fields(data, messageType.value, payloadType.value);
    var problem := Validate(sha, m);
    if problem.Some? {
      return Failure(problem.value);
    }
    return Success(m);
  }

  /** The four fixed-width integers after the type field. */
  method ReadIntegers(data: seq<byte>, start: seq<byte>) returns (schema: u32, created: u64, sequence: u64, flags: u64)
    requires |data| >= HEADER_SIZE && start == data[36..]
    ensures schema == U32At(data, 36) && created == U64At(data, 40)
    ensures sequence == U64At(data, 48) && flags == U64At(data, 56)
  {
    hide U32At, U64At;
    var rest := start;
    Shift32(data, rest, 36);
    schema := U32At(rest, 0);
    rest := rest[4..];
    Shift64(data, rest, 40);
    created := U64At(rest, 0);
    rest := rest[8..];
    Shift64(data, rest, 48);
    sequence := U64At(rest, 0);
    rest := rest[8..];
    Shift64(data, rest, 56);
    flags := U64At(rest, 0);
  }

  // -------------------------------------------------------------------------
  // The type field
  // -------------------------------------------------------------------------

  lemma {:induction false} TrimEndPadded(name: seq<Scalar>, padding: seq<Scalar>)
    requires name != [] && !IsPadding(name[|name| - 1]) && AllPadding(padding)
    ensures TrimEnd(name + padding) == name
  {
    hide IsPadding;
    var s := name + padding;
    if padding == [] {
      assert s == name;
    } else {
      assert s[..|s| - 1] == name + padding[..|padding| - 1];
      TrimEndPadded(name, padding[..|padding| - 1]);
    }
  }

  lemma {:induction false} TrimStartPadded(padding: seq<Scalar>, rest: seq<Scalar>)
    requires rest != [] && !IsPadding(rest[0]) && AllPadding(padding)
    ensures TrimStart(padding + rest) == rest
  {
    hide IsPadding;
    if padding == [] {
      assert padding + rest == rest;
    } else {
      assert (padding + rest)[1..] == padding[1..] + rest;
      TrimStartPadded(padding[1..], rest);
    }
  }

  lemma {:induction false} TrimStartSplits(s: seq<Scalar>) returns (padding: seq<Scalar>)
    ensures AllPadding(padding) && s == padding + TrimStart(s)
  {
    hide IsPadding;
    padding := [];
    if s != [] && IsPadding(s[0]) {
      padding := TrimStartSplits(s[1..]);
      padding := [s[0]] + padding;
      assert s == [s[0]] + s[1..];
    }
  }

  lemma {:induction false} TrimEndSplits(s: seq<Scalar>) returns (padding: seq<Scalar>)
    ensures AllPadding(padding) && s == TrimEnd(s) + padding
  {
    hide IsPadding;
    padding := [];
    if s != [] && IsPadding(s[|s| - 1]) {
      padding := TrimEndSplits(s[..|s| - 1]);
      padding := padding + [s[|s| - 1]];
      assert s == s[..|s| - 1] + [s[|s| - 1]];
    }
  }

  /** Trimming gives a name exactly when the text is that name between paddings. */
  lemma TrimIff(text: seq<Scalar>, name: seq<Scalar>)
    requires name != [] && !IsPadding(name[0]) && !IsPadding(name[|name| - 1])
    ensures Trim(text) == name <==> Surrounds(text, name)
  {
    hide IsPadding, AllPadding;
    if Trim(text) == name {
      var before := TrimStartSplits(text);
      var after := TrimEndSplits(TrimStart(text));
      assert text == before + name + after;
    }
    forall before, after: seq<Scalar> | AllPadding(before) && AllPadding(after) && text == before + name + after
      ensures Trim(text) == name
    {
      assert text == before + (name + after);
      TrimStartPadded(before, name + after);
      TrimEndPadded(name, after);
    }
  }

  /** A field parses to a type exactly when it is that type's name between paddings. */
  lemma ParseFieldIff(field: seq<byte>, t: MessageType)
    ensures ParseMessageType(field) == Success(t) <==> Names(field, t)
  {
    hide Name, Trim, ParseName, IsPadding, Text, Surrounds;
    ParseNameIff(t);
    if Text(field).Some? {
      TrimIff(Text(field).value, Name(t));
    }
  }

  lemma {:induction false} AsciiIsText(s: seq<byte>)
    requires forall i :: 0 <= i < |s| ==> s[i] < 128
    ensures Text(s) == Some(s)
  {
    if s != [] {
      AsciiIsText(s[1..]);
      assert [s[0]] + s[1..] == s;
    }
  }

  lemma NamesDiffer(a: MessageType, b: MessageType)
    requires Name(a) == Name(b)
    ensures a == b
  {
    assert |Name(a)| == |Name(b)| && Name(a)[0] == Name(b)[0];
  }

  /** The first byte and the length of each name. */
  lemma NamesBegin(t: MessageType)
    ensures var b := Name(t);
            match t
            case InputStreamData => b[0] == 105 && |b| == 17
            case OutputStreamData => b[0] == 111 && |b| == 18
            case Acknowledge => b[0] == 97 && |b| == 11
            case ChannelClosed => b[0] == 99 && |b| == 14
            case StartPublication => b[0] == 115 && |b| == 17
            case PausePublication => b[0] == 112 && |b| == 17
  {
  }

  /** Parsing a name and spelling a type are inverse to each other. */
  lemma ParseNameIff(t: MessageType)
    ensures forall name :: ParseName(name) == Some(t) <==> name == Name(t)
  {
    hide Name;
    forall x: MessageType | Name(x) == Name(t) ensures x == t {
      NamesDiffer(x, t);
    }
  }

  /** The padded field names its type. */
  lemma PaddedParses(t: MessageType)
    ensures Names(PaddedMessageType(t), t)
  {
    hide Name, Text;
    var padding: seq<Scalar> := seq(32 - |Name(t)|, _ => 32);
    AsciiIsText(PaddedMessageType(t));
    assert PaddedMessageType(t) == [] + Name(t) + padding;
    assert AllPadding([]) && AllPadding(padding) && Surrounds(PaddedMessageType(t), Name(t));
  }

  // -------------------------------------------------------------------------
  // Round trips
  // -------------------------------------------------------------------------

  /** Publication controls, and other messages with a sequence number that is not negative and a digest
      that is the payload's if there is one; of at most 10 MiB. */
  predicate Encodable(sha: seq<byte> -> Digest, m: ClientMessage) {
    && |m.payload| <= 10 * 1024 * 1024
    && (m.messageType == StartPublication || m.messageType == PausePublication ||
        (m.sequenceNumber >= 0 && (m.payload == [] || sha(m.payload) == m.payloadDigest)))
  }

  lemma ValidateIff(sha: seq<byte> -> Digest, m: ClientMessage)
    ensures Encodable(sha, m) <==> |m.payload| <= MAX_PAYLOAD_SIZE && Validate(sha, m).None?
  {
  }

  lemma TailFields(m: ClientMessage, typeField: seq<byte>, trailing: seq<byte>)
    requires |typeField| == 32
    ensures var data := WireWith(m, typeField) + trailing;
            && |data| == HEADER_SIZE + |m.payload| + |trailing|
            && data[0..4] == BigEndian(4, HEADER_LENGTH)
            && data[4..36] == typeField
            && data[36..40] == BigEndian(4, m.schemaVersion)
            && data[40..48] == BigEndian(8, m.createdDate)
            && data[48..56] == BigEndian(8, ToUnsigned(m.sequenceNumber))
            && data[56..64] == BigEndian(8, m.flags)
            && data[64..80] == SwapHalves(m.messageId)
            && data[80..112] == m.payloadDigest
            && data[112..116] == BigEndian(4, Code(m.payloadType))
            && data[116..120] == BigEndian(4, |m.payload|)
            && data[120..] == m.payload + trailing
  {
    hide BigEndian, Code, ToUnsigned;
  }

  /** The documented header layout, byte for byte. */
  lemma WireLayout(m: ClientMessage)
    ensures var w, name := Wire(m), Name(m.messageType);
            && |w| == 120 + |m.payload|
            && U32At(w, 0) == 116
            && w[4..4 + |name|] == name && (forall i :: 4 + |name| <= i < 36 ==> w[i] == 32)
            && U32At(w, 36) == m.schemaVersion
            && U64At(w, 40) == m.createdDate
            && ToSigned(U64At(w, 48)) == m.sequenceNumber
            && U64At(w, 56) == m.flags
            && w[64..72] == m.messageId[8..16] && w[72..80] == m.messageId[0..8]
            && w[80..112] == m.payloadDigest
            && U32At(w, 112) == Code(m.payloadType)
            && (|m.payload| < 0x1_0000_0000 ==> U32At(w, 116) == |m.payload|)
            && w[120..] == m.payload
  {
    hide BigEndian, FromBigEndian, U32At, U64At, Name, Code, Tail;
    var w, name := Wire(m), Name(m.messageType);
    var field := PaddedMessageType(m.messageType);
    assert w + [] == w;
    TailFields(m, field, []);
    IntegersSurvive(w, 0, HEADER_LENGTH);
    IntegersSurvive(w, 36, m.schemaVersion);
    IntegersSurvive(w, 40, m.createdDate);
    IntegersSurvive(w, 48, ToUnsigned(m.sequenceNumber));
    IntegersSurvive(w, 56, m.flags);
    IntegersSurvive(w, 112, Code(m.payloadType));
    IntegersSurvive(w, 116, |m.payload|);
    assert w[4..4 + |name|] == w[4..36][..|name|] == name;
    forall i | 4 + |name| <= i < 36 ensures w[i] == 32 {
      assert w[i] == w[4..36][i - 4] == field[i - 4];
    }
    assert w[64..72] == w[64..80][..8] && w[72..80] == w[64..80][8..];
    assert m.payload + [] == m.payload;
  }

  lemma SwapTwice(id: Uuid)
    ensures SwapHalves(SwapHalves(id)) == id
  {
  }

  /** The three integer widths survive the trip. */
  lemma IntegersSurvive(data: seq<byte>, at: nat, v: nat)
    ensures at + 4 <= |data| && v < 0x1_0000_0000 && data[at..at + 4] == BigEndian(4, v) ==> U32At(data, at) == v
    ensures at + 8 <= |data| && v < 0x1_0000_0000_0000_0000 && data[at..at + 8] == BigEndian(8, v) ==> U64At(data, at) == v
  {
    hide BigEndian, FromBigEndian;
    Pow256Values();
    hide Pow256;
    if v < Pow256(4) {
      BigEndianRoundTrip(4, v);
    }
    if v < Pow256(8) {
      BigEndianRoundTrip(8, v);
    }
  }

  lemma FieldsInvert(m: ClientMessage, typeField: seq<byte>, trailing: seq<byte>)
    requires |typeField| == 32 && |m.payload| <= MAX_PAYLOAD_SIZE
    ensures var data := WireWith(m, typeField) + trailing;
            && |data| == HEADER_SIZE + |m.payload| + |trailing|
            && data[4..36] == typeField
            && U32At(data, 0) == HEADER_LENGTH
            && U32At(data, 112) == Code(m.payloadType)
            && U32At(data, 116) == |m.payload|
            && Fields(data, m.messageType, m.payloadType) == m
  {
    hide BigEndian, FromBigEndian, U32At, U64At, WireWith, Code;
    var data := WireWith(m, typeField) + trailing;
    TailFields(m, typeField, trailing);
    IntegersSurvive(data, 0, HEADER_LENGTH);
    IntegersSurvive(data, 36, m.schemaVersion);
    IntegersSurvive(data, 40, m.createdDate);
    IntegersSurvive(data, 48, ToUnsigned(m.sequenceNumber));
    IntegersSurvive(data, 56, m.flags);
    IntegersSurvive(data, 112, Code(m.payloadType));
    IntegersSurvive(data, 116, |m.payload|);
    SwapTwice(m.messageId);
    assert data[120..120 + |m.payload|] == data[120..][..|m.payload|] == m.payload;
  }

  /** Completeness: any padding around the name, and any trailing bytes, parse to the same
      message. */
  lemma {:induction false} ParseComplete(sha: seq<byte> -> Digest, m: ClientMessage, typeField: seq<byte>, trailing: seq<byte>)
    requires |typeField| == 32 && Names(typeField, m.messageType)
    requires Encodable(sha, m)
    ensures Parse(sha, WireWith(m, typeField) + trailing) == Success(m)
  {
    hide BigEndian, FromBigEndian, U32At, U64At, WireWith, Name, ParseMessageType, Names, Fields, Validate, Code;
    FieldsInvert(m, typeField, trailing);
    ValidateIff(sha, m);
    ParseFieldIff(typeField, m.messageType);
    assert FromCode(Code(m.payloadType)) == Some(m.payloadType);
  }

  /** Re-encoding the fields of a byte string gives back every byte but the type padding and the
      ignored tail. */
  lemma TailOfFields(data: seq<byte>, messageType: MessageType, payloadType: PayloadType)
    requires |data| >= HEADER_SIZE && |data| - HEADER_SIZE >= U32At(data, 116)
    requires U32At(data, 112) == Code(payloadType)
    ensures Tail(Fields(data, messageType, payloadType)) == data[36..HEADER_SIZE + U32At(data, 116)]
  {
    hide BigEndian, FromBigEndian, Code;
    BigEndianOfFrom(data[36..40]);
    BigEndianOfFrom(data[40..48]);
    BigEndianOfFrom(data[48..56]);
    BigEndianOfFrom(data[56..64]);
    BigEndianOfFrom(data[112..116]);
    BigEndianOfFrom(data[116..120]);
    SwapTwice(data[64..80]);
    var m, end := Fields(data, messageType, payloadType), HEADER_SIZE + U32At(data, 116);
    assert ToUnsigned(m.sequenceNumber) == U64At(data, 48);
    assert Tail(m) == data[36..40] + data[40..48] + data[48..56] + data[56..64] + data[64..80] + data[80..112]
                      + data[112..116] + data[116..120] + data[120..end];
    assert data[36..40] + data[40..48] + data[48..56] + data[56..64] == data[36..64];
    assert data[36..64] + data[64..80] + data[80..112] == data[36..112];
    assert data[36..112] + data[112..116] + data[116..120] + data[120..end] == data[36..end];
  }

  /** Soundness and normal form: bytes that parse are exactly an encodable message up to the padding
      of its type field and trailing bytes, and the re-encoding parses to the same message. */
  lemma {:induction false} ParseSound(sha: seq<byte> -> Digest, data: seq<byte>)
    requires Parse(sha, data).Success?
    ensures var m := Parse(sha, data).value;
            && Encodable(sha, m)
            && |data| >= HEADER_SIZE + |m.payload|
            && Names(data[4..36], m.messageType)
            && data == WireWith(m, data[4..36]) + data[HEADER_SIZE + |m.payload|..]
            && Parse(sha, Wire(m)) == Success(m)
  {
    hide BigEndian, FromBigEndian, U32At, U64At, Name, Names, ParseMessageType, Fields, Validate, Code, Tail;
    var m := Parse(sha, data).value;
    var n := U32At(data, 116);
    var messageType, payloadType := ParseMessageType(data[4..36]).value, FromCode(U32At(data, 112)).value;
    assert m == Fields(data, messageType, payloadType);
    FieldsLength(data, messageType, payloadType);
    HeaderBytes(data);
    TailOfFields(data, messageType, payloadType);
    assert data == data[0..4] + data[4..36] + data[36..HEADER_SIZE + n] + data[HEADER_SIZE + n..];
    ParseFieldIff(data[4..36], m.messageType);
    ValidateIff(sha, m);
    PaddedParses(m.messageType);
    ParseComplete(sha, m, PaddedMessageType(m.messageType), []);
    assert Wire(m) + [] == Wire(m);
  }

  lemma HeaderBytes(data: seq<byte>)
    requires |data| >= 4 && U32At(data, 0) == HEADER_LENGTH
    ensures data[0..4] == BigEndian(4, HEADER_LENGTH)
  {
    hide BigEndian, FromBigEndian;
    BigEndianOfFrom(data[0..4]);
  }

  lemma FieldsLength(data: seq<byte>, messageType: MessageType, payloadType: PayloadType)
    requires |data| >= HEADER_SIZE && |data| - HEADER_SIZE >= U32At(data, 116)
    ensures var m := Fields(data, messageType, payloadType);
            m.messageType == messageType && m.payloadType == payloadType && |m.payload| == U32At(data, 116)
  {
    hide U32At, U64At;
  }

  /** The round trip holds exactly for messages within the size limit that pass validation. */
  lemma {:induction false} RoundTrip(sha: seq<byte> -> Digest, m: ClientMessage)
    ensures Parse(sha, Wire(m)) == Success(m) <==> Encodable(sha, m)
  {
    hide Wire, Parse, Name, Names, Encodable;
    if Encodable(sha, m) {
      PaddedParses(m.messageType);
      ParseComplete(sha, m, PaddedMessageType(m.messageType), []);
      WireIsWireWith(m);
    }
    if Parse(sha, Wire(m)) == Success(m) {
      ParseSound(sha, Wire(m));
    }
  }

  lemma WireIsWireWith(m: ClientMessage)
    ensures WireWith(m, PaddedMessageType(m.messageType)) + [] == Wire(m)
  {
    hide WireWith, PaddedMessageType;
  }
}
