/** smux v1 framing (src/mux.rs): encoding, and incremental decoding from a reassembly buffer. */
module Framing {
  import opened Bytes

  const VERSION: byte := 1
  const CMD_SYN: byte := 0
  const CMD_FIN: byte := 1
  const CMD_PSH: byte := 2
  const CMD_NOP: byte := 3
  const HEADER_SIZE: nat := 8
  const MAX_FRAME_PAYLOAD: nat := 32 * 1024

  datatype Frame = Frame(cmd: byte, streamId: u32, payload: seq<byte>)

  datatype Decoded = Whole(frame: Frame) | Incomplete | Corrupt

  /** `encode`; the length field holds the low 16 bits of the payload's length. */
  function Encode(f: Frame): seq<byte> {
    [VERSION, f.cmd] + LittleEndian(2, |f.payload|) + LittleEndian(4, f.streamId) + f.payload
  }

  function EncodeAll(frames: seq<Frame>): seq<byte> {
    if frames == [] then [] else Encode(frames[0]) + EncodeAll(frames[1..])
  }

  /** No payload above 32 KiB. */
  ghost predicate Sized(frames: seq<Frame>) {
    forall i :: 0 <= i < |frames| ==> |frames[i].payload| <= MAX_FRAME_PAYLOAD
  }

  function LengthField(buf: seq<byte>): nat
    requires |buf| >= HEADER_SIZE
  {
    FromLittleEndian(buf[2..4])
  }

  function IdField(buf: seq<byte>): u32
    requires |buf| >= HEADER_SIZE
  {
    LittleEndianOfFrom(buf[4..8]);
    Pow256Values();
    FromLittleEndian(buf[4..8])
  }

  /** The verdict on the front of a buffer. */
  function Front(buf: seq<byte>): (d: Decoded)
    ensures d.Whole? ==> HEADER_SIZE + |d.frame.payload| <= |buf| && |d.frame.payload| <= MAX_FRAME_PAYLOAD
  {
    if |buf| < HEADER_SIZE then Incomplete
    else if buf[0] != VERSION || LengthField(buf) > MAX_FRAME_PAYLOAD then Corrupt
    else if |buf| < HEADER_SIZE + LengthField(buf) then Incomplete
    else Whole(Frame(buf[1], IdField(buf), buf[HEADER_SIZE..HEADER_SIZE + LengthField(buf)]))
  }

  /** What is left of a buffer once its front frame is taken off. */
  function Beyond(buf: seq<byte>): seq<byte>
    requires Front(buf).Whole?
  {
    buf[HEADER_SIZE + |Front(buf).frame.payload|..]
  }

  /** Everything a byte string says: its frames, the bytes of an unfinished frame (none if the
      string is corrupt), and whether it is corrupt. */
  datatype Batch = Batch(frames: seq<Frame>, rest: seq<byte>, corrupt: bool)

  function DecodeAll(buf: seq<byte>): Batch
    decreases |buf|
  {
    match Front(buf)
    case Incomplete => Batch([], buf, false)
    case Corrupt => Batch([], [], true)
    case Whole(f) => var b := DecodeAll(Beyond(buf)); b.(frames := [f] + b.frames)
  }

  // -------------------------------------------------------------------------
  // The in-place decoder
  // -------------------------------------------------------------------------

  /** The receive task's `BytesMut`. */
  class Reassembly {
    var bytes: seq<byte>

    constructor ()
      ensures bytes == []
    {
      bytes := [];
    }

    method Extend(chunk: seq<byte>)
      modifies this
      ensures bytes == old(bytes) + chunk
    {
      bytes := bytes + chunk;
    }

    /** `decode_frame`: consumes a complete frame, and nothing otherwise. */
    method DecodeFrame() returns (d: Decoded)
      modifies this
      ensures d == Front(old(bytes))
      ensures bytes == if d.Whole? then Beyond(old(bytes)) else old(bytes)
    {
      hide FromLittleEndian;
      if |bytes| < HEADER_SIZE {
        return Incomplete;
      }
      if bytes[0] != VERSION {
        return Corrupt;
      }
      var length := FromLittleEndian(bytes[2..4]);
      if length > MAX_FRAME_PAYLOAD {
        return Corrupt;
      }
      if |bytes| < HEADER_SIZE + length {
        return Incomplete;
      }
      ghost var before := bytes;
      bytes := bytes[1..];
      var cmd := bytes[0];
      bytes := bytes[1..];
      bytes := bytes[2..];
      var id := FromLittleEndian(bytes[..4]);
      assert bytes[..4] == before[4..8] && id == IdField(before);
      bytes := bytes[4..];
      assert bytes == before[8..];
      var payload := bytes[..length];
      bytes := bytes[length..];
      assert payload == before[8..8 + length];
      return Whole(Frame(cmd, id, payload));
    }
  }

  // -------------------------------------------------------------------------
  // Incremental decoding refines batch decoding
  // -------------------------------------------------------------------------

  /** A verdict other than "incomplete" does not change when more bytes arrive. */
  lemma FrontStable(a: seq<byte>, b: seq<byte>)
    requires !Front(a).Incomplete?
    ensures Front(a + b) == Front(a)
    ensures Front(a).Whole? ==> Beyond(a + b) == Beyond(a) + b
  {
    hide FromLittleEndian;
    var n := LengthField(a);
    assert (a + b)[2..4] == a[2..4] && (a + b)[4..8] == a[4..8];
    if Front(a).Whole? {
      assert (a + b)[8..8 + n] == a[8..8 + n];
      assert (a + b)[8 + n..] == a[8 + n..] + b;
    }
  }

  /** What the reassembly buffer, the frames dispatched so far and the failure flag become when one
      more chunk arrives. A corrupt stream stops the receive task, so later chunks are ignored. */
  function Feed(state: Batch, chunk: seq<byte>): Batch {
    if state.corrupt then state
    else
      var b := DecodeAll(state.rest + chunk);
      b.(frames := state.frames + b.frames)
  }

  function FeedAll(chunks: seq<seq<byte>>): Batch {
    if chunks == [] then Batch([], [], false)
    else Feed(FeedAll(chunks[..|chunks| - 1]), chunks[|chunks| - 1])
  }

  lemma {:induction false} DecodeAppend(a: seq<byte>, b: seq<byte>)
    ensures DecodeAll(a + b) == Feed(DecodeAll(a), b)
    decreases |a|
  {
    hide Front;
    match Front(a)
    case Incomplete =>
      assert [] + DecodeAll(a + b).frames == DecodeAll(a + b).frames;
    case Corrupt =>
      FrontStable(a, b);
    case Whole(f) =>
      FrontStable(a, b);
      DecodeAppend(Beyond(a), b);
      var inner := DecodeAll(Beyond(a));
      if !inner.corrupt {
        var more := DecodeAll(inner.rest + b).frames;
        assert [f] + (inner.frames + more) == ([f] + inner.frames) + more;
      }
  }

  /** For every way of cutting a byte string into chunks, decoding chunk by chunk gives the frames,
      the leftover and the verdict of decoding the whole string at once. */
  lemma {:induction false} IncrementalEqualsBatch(chunks: seq<seq<byte>>)
    ensures FeedAll(chunks) == DecodeAll(Concat(chunks))
  {
    hide DecodeAll, Feed;
    if chunks == [] {
      NothingToDecode();
    } else {
      var before, last := chunks[..|chunks| - 1], chunks[|chunks| - 1];
      IncrementalEqualsBatch(before);
      DecodeAppend(Concat(before), last);
      ConcatOne(before, last);
      assert before + [last] == chunks;
    }
  }

  lemma NothingToDecode()
    ensures DecodeAll([]) == Batch([], [], false)
  {
  }

  /** More input never takes back a frame. */
  lemma FramesMonotone(a: seq<byte>, b: seq<byte>)
    requires a <= b
    ensures DecodeAll(a).frames <= DecodeAll(b).frames
  {
    hide DecodeAll;
    DecodeAppend(a, b[|a|..]);
    assert a + b[|a|..] == b;
  }

  // -------------------------------------------------------------------------
  // Round trips
  // -------------------------------------------------------------------------

  lemma HeaderOf(f: Frame, rest: seq<byte>)
    ensures var buf := Encode(f) + rest;
            && |buf| == HEADER_SIZE + |f.payload| + |rest|
            && buf[0] == VERSION && buf[1] == f.cmd
            && buf[2..4] == LittleEndian(2, |f.payload|)
            && buf[4..8] == LittleEndian(4, f.streamId)
            && buf[8..] == f.payload + rest
  {
    hide LittleEndian;
  }

  lemma LittleEndianBytes(v: nat)
    ensures LittleEndian(2, v) == [v % 256, v / 256 % 256]
    ensures LittleEndian(4, v) == [v % 256, v / 256 % 256, v / 256 / 256 % 256, v / 256 / 256 / 256 % 256]
  {
    assert LittleEndian(1, v / 256) == [v / 256 % 256] + LittleEndian(0, v / 256 / 256);
    var w := v / 256 / 256;
    assert LittleEndian(1, w / 256) == [w / 256 % 256] + LittleEndian(0, w / 256 / 256);
    assert LittleEndian(2, w) == [w % 256] + LittleEndian(1, w / 256);
    assert LittleEndian(3, v / 256) == [v / 256 % 256] + LittleEndian(2, w);
  }

  /** The layout of an encoded frame, byte by byte: version, command, length and id with their low bytes
      first, payload. */
  lemma FrameLayout(f: Frame)
    ensures var buf, n, id := Encode(f), |f.payload|, f.streamId;
            && |buf| == 8 + n
            && buf[0] == 1 && buf[1] == f.cmd
            && buf[2] == n % 256 && buf[3] == n / 256 % 256
            && buf[4] == id % 256 && buf[5] == id / 0x100 % 256 && buf[6] == id / 0x1_0000 % 256 && buf[7] == id / 0x100_0000
            && buf[8..] == f.payload
  {
    hide Encode, LittleEndian;
    HeaderOf(f, []);
    var buf, n, id := Encode(f), |f.payload|, f.streamId;
    assert buf + [] == buf && f.payload + [] == f.payload;
    LittleEndianBytes(n);
    LittleEndianBytes(id);
    assert buf[2] == buf[2..4][0] && buf[3] == buf[2..4][1];
    assert buf[4] == buf[4..8][0] && buf[5] == buf[4..8][1] && buf[6] == buf[4..8][2] && buf[7] == buf[4..8][3];
    assert id / 256 / 256 == id / 0x1_0000 && id / 256 / 256 / 256 == id / 0x100_0000;
  }

  // -------------------------------------------------------------------------
  // Which bytes are corrupt
  // -------------------------------------------------------------------------

  /** What stands here is not smux: a whole header with another version, or a length above 32 KiB. */
  predicate OutOfSync(t: seq<byte>) {
    |t| >= 8 && (t[0] != 1 || t[2] + 256 * t[3] as int > 32768)
  }

  lemma LengthIs(buf: seq<byte>)
    requires |buf| >= 8
    ensures LengthField(buf) == buf[2] + 256 * buf[3] as int
  {
    var s := buf[2..4];
    assert FromLittleEndian(s) == s[0] + 256 * FromLittleEndian(s[1..]);
    assert FromLittleEndian(s[1..]) == s[1] + 256 * FromLittleEndian(s[1..][1..]);
  }

  /** The string is a sequence of frames followed by something that is not smux. */
  ghost predicate LosesSync(buf: seq<byte>) {
    exists frames, t :: Sized(frames) && buf == EncodeAll(frames) + t && OutOfSync(t)
  }

  lemma {:induction false} CorruptLosesSync(buf: seq<byte>) returns (frames: seq<Frame>, t: seq<byte>)
    requires DecodeAll(buf).corrupt
    ensures Sized(frames) && buf == EncodeAll(frames) + t && OutOfSync(t)
    decreases |buf|
  {
    hide LengthField, IdField, Encode;
    if Front(buf).Whole? {
      var f := Front(buf).frame;
      ReencodeOne(buf);
      frames, t := CorruptLosesSync(Beyond(buf));
      assert Encode(f) + (EncodeAll(frames) + t) == (Encode(f) + EncodeAll(frames)) + t;
      assert ([f] + frames)[1..] == frames;
      frames := [f] + frames;
    } else {
      LengthIs(buf);
      frames, t := [], buf;
    }
  }

  lemma {:induction false} LostSyncIsCorrupt(frames: seq<Frame>, t: seq<byte>)
    requires Sized(frames) && OutOfSync(t)
    ensures DecodeAll(EncodeAll(frames) + t).corrupt
  {
    hide LengthField, IdField, Encode;
    if frames == [] {
      LengthIs(t);
      assert EncodeAll(frames) + t == t;
    } else {
      LostSyncIsCorrupt(frames[1..], t);
      FrameRoundTrip(frames[0], EncodeAll(frames[1..]) + t);
      assert EncodeAll(frames) + t == Encode(frames[0]) + (EncodeAll(frames[1..]) + t);
    }
  }

  /** A byte string is corrupt if and only if, after some whole frames, it has eight bytes that are no
      frame header: another version than 1, or a length above 32 KiB. */
  lemma CorruptIff(buf: seq<byte>)
    ensures DecodeAll(buf).corrupt <==> LosesSync(buf)
  {
    hide DecodeAll, EncodeAll, OutOfSync;
    if DecodeAll(buf).corrupt {
      var frames, t := CorruptLosesSync(buf);
    }
    if LosesSync(buf) {
      var frames, t :| Sized(frames) && buf == EncodeAll(frames) + t && OutOfSync(t);
      LostSyncIsCorrupt(frames, t);
    }
  }

  lemma {:induction false} RestIsIncomplete(buf: seq<byte>)
    ensures DecodeAll(buf).corrupt || Front(DecodeAll(buf).rest).Incomplete?
    decreases |buf|
  {
    hide Front;
    if Front(buf).Whole? {
      RestIsIncomplete(Beyond(buf));
    }
  }

  /** What an uncorrupted string leaves over is less than a header, or a proper prefix of one frame. */
  lemma LeftoverIsPartial(buf: seq<byte>)
    requires !DecodeAll(buf).corrupt
    ensures var rest := DecodeAll(buf).rest;
            |rest| < 8 || exists f: Frame :: |f.payload| <= MAX_FRAME_PAYLOAD && rest <= Encode(f) && |rest| < |Encode(f)|
  {
    hide DecodeAll, Encode, FromLittleEndian;
    RestIsIncomplete(buf);
    var rest := DecodeAll(buf).rest;
    if |rest| >= 8 {
      var n := 8 + LengthField(rest);
      var whole := rest + seq(n - |rest|, _ => 0);
      assert whole[2..4] == rest[2..4];
      assert Front(whole).Whole? && Beyond(whole) == [];
      ReencodeOne(whole);
      assert Encode(Front(whole).frame) == whole;
    }
  }

  /** A length field keeps the low 16 bits. */
  lemma TruncatedLength(n: nat)
    ensures FromLittleEndian(LittleEndian(2, n)) == n % 0x1_0000
  {
    assert LittleEndian(0, n / 256 / 256) == [];
    assert LittleEndian(1, n / 256) == [n / 256 % 256];
    assert LittleEndian(2, n)[1..] == LittleEndian(1, n / 256);
    assert FromLittleEndian(LittleEndian(1, n / 256)) == n / 256 % 256;
  }

  lemma EncodedFields(f: Frame, rest: seq<byte>)
    ensures var buf := Encode(f) + rest;
            && |buf| == HEADER_SIZE + |f.payload| + |rest|
            && LengthField(buf) == |f.payload| % 0x1_0000
            && IdField(buf) == f.streamId
  {
    hide Encode, LittleEndian, FromLittleEndian, Pow256;
    var buf := Encode(f) + rest;
    HeaderOf(f, rest);
    TruncatedLength(|f.payload|);
    Pow256Values();
    LittleEndianRoundTrip(4, f.streamId);
  }

  /** A frame decodes to itself exactly when its payload is at most 32 KiB, whatever follows. */
  lemma FrameRoundTrip(f: Frame, rest: seq<byte>)
    ensures Front(Encode(f) + rest) == Whole(f) <==> |f.payload| <= MAX_FRAME_PAYLOAD
    ensures |f.payload| <= MAX_FRAME_PAYLOAD ==> Beyond(Encode(f) + rest) == rest
  {
    hide Encode, LengthField, IdField;
    var buf := Encode(f) + rest;
    HeaderOf(f, rest);
    EncodedFields(f, rest);
    if |f.payload| <= MAX_FRAME_PAYLOAD {
      assert buf[8..8 + |f.payload|] == buf[8..][..|f.payload|] == f.payload;
      assert buf[8 + |f.payload|..] == buf[8..][|f.payload|..] == rest;
    }
  }

  /** Decoding any concatenation of encoded frames gives back exactly those frames. */
  lemma {:induction false} EncodeDecode(frames: seq<Frame>)
    requires Sized(frames)
    ensures DecodeAll(EncodeAll(frames)) == Batch(frames, [], false)
  {
    hide Front, Encode;
    if frames == [] {
      NothingToDecode();
    } else {
      EncodeDecode(frames[1..]);
      FrameRoundTrip(frames[0], EncodeAll(frames[1..]));
      assert [frames[0]] + frames[1..] == frames;
    }
  }

  lemma ReencodeOne(buf: seq<byte>)
    requires Front(buf).Whole?
    ensures Encode(Front(buf).frame) + Beyond(buf) == buf
  {
    var f := Front(buf).frame;
    hide LittleEndian, FromLittleEndian;
    LittleEndianOfFrom(buf[2..4]);
    LittleEndianOfFrom(buf[4..8]);
    assert LittleEndian(2, |f.payload|) == buf[2..4];
    assert buf == buf[0..2] + buf[2..4] + buf[4..8] + f.payload + Beyond(buf);
  }

  /** Conservation: the frames and the leftover of a valid stream are all of its bytes. */
  lemma {:induction false} DecodeEncode(buf: seq<byte>)
    requires !DecodeAll(buf).corrupt
    ensures EncodeAll(DecodeAll(buf).frames) + DecodeAll(buf).rest == buf
    decreases |buf|
  {
    hide Front, Encode;
    if Front(buf).Whole? {
      var f, inner := Front(buf).frame, DecodeAll(Beyond(buf));
      DecodeEncode(Beyond(buf));
      ReencodeOne(buf);
      assert ([f] + inner.frames)[1..] == inner.frames;
      calc {
        EncodeAll([f] + inner.frames) + inner.rest;
        (Encode(f) + EncodeAll(inner.frames)) + inner.rest;
        Encode(f) + (EncodeAll(inner.frames) + inner.rest);
        buf;
      }
    }
  }
}
