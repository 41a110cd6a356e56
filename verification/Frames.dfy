/** The wire format of mill-rpc/mill-rpc-core/src/protocol.rs: headers, frames, payloads and the streaming parser. */
module Frames {
  import opened Wrappers
  import opened Bytes

  const MAGIC0: byte := 0x4D
  const MAGIC1: byte := 0x52
  const VERSION: byte := 1
  const HEADER_SIZE: nat := 9
  const MAX_PAYLOAD_SIZE: nat := 0x100_0000
  const ONE_WAY: nat := 2

  datatype MessageType = Request | Response | Error | Ping | Pong | Cancel

  function Code(t: MessageType): byte {
    match t
    case Request => 1
    case Response => 2
    case Error => 3
    case Ping => 4
    case Pong => 5
    case Cancel => 6
  }

  datatype ParseError =
    | InvalidMagic(first: byte, second: byte)
    | UnsupportedVersion(version: byte)
    | UnknownMessageType(code: byte)
    | PayloadTooLarge(len: nat)
    | PayloadTooShort

  function FromU8(v: byte): Result<MessageType, ParseError> {
    match v
    case 1 => Ok(Request)
    case 2 => Ok(Response)
    case 3 => Ok(Error)
    case 4 => Ok(Ping)
    case 5 => Ok(Pong)
    case 6 => Ok(Cancel)
    case _ => Err(UnknownMessageType(v))
  }

  datatype FrameHeader = FrameHeader(version: byte, flags: byte, messageType: MessageType, payloadLen: nat)

  datatype Frame = Frame(header: FrameHeader, payload: seq<byte>)

  function HeaderBytes(h: FrameHeader): (s: seq<byte>)
    ensures |s| == HEADER_SIZE
  {
    [MAGIC0, MAGIC1, h.version, h.flags, Code(h.messageType)] + Le(h.payloadLen, 4)
  }

  /** FrameHeader::encode: fills a 9-byte array. */
  method EncodeHeader(h: FrameHeader) returns (buf: array<byte>)
    ensures fresh(buf) && buf[..] == HeaderBytes(h)
    ensures buf.Length == 9 && buf[0] == 0x4D && buf[1] == 0x52 && buf[2] == h.version && buf[3] == h.flags
    ensures forall i :: 0 <= i < 4 ==> buf[5 + i] == h.payloadLen / Pow256(i) % 256
  {
    buf := new byte[HEADER_SIZE](_ => 0);
    buf[0] := MAGIC0;
    buf[1] := MAGIC1;
    buf[2] := h.version;
    buf[3] := h.flags;
    buf[4] := Code(h.messageType);
    var le := Le(h.payloadLen, 4);
    var i := 0;
    while i < 4
      invariant i <= 4
      invariant buf[..5] == HeaderBytes(h)[..5]
      invariant forall j :: 0 <= j < i ==> buf[5 + j] == le[j]
    {
      buf[5 + i] := le[i];
      i := i + 1;
    }
    assert forall j :: 5 <= j < 9 ==> buf[j] == le[j - 5];
    forall i | 0 <= i < 4 ensures buf[5 + i] == h.payloadLen / Pow256(i) % 256 {
      LeAt(h.payloadLen, 4, i);
    }
  }

  function Decode(buf: seq<byte>): Result<FrameHeader, ParseError>
    requires |buf| == HEADER_SIZE
  {
    if buf[0] != MAGIC0 || buf[1] != MAGIC1 then Err(InvalidMagic(buf[0], buf[1]))
    else if buf[2] != VERSION then Err(UnsupportedVersion(buf[2]))
    else match FromU8(buf[4])
      case Err(e) => Err(e)
      case Ok(t) =>
        var len := FromLe(buf[5..9]);
        if len > MAX_PAYLOAD_SIZE then Err(PayloadTooLarge(len)) else Ok(FrameHeader(buf[2], buf[3], t, len))
  }

  predicate GoodHeader(h: FrameHeader) {
    h.version == VERSION && h.payloadLen <= MAX_PAYLOAD_SIZE
  }

  lemma DecodeOfEncode(h: FrameHeader)
    requires GoodHeader(h)
    ensures Decode(HeaderBytes(h)) == Ok(h)
  {
    Widths();
    FromLeOfLe(h.payloadLen, 4);
    assert HeaderBytes(h)[5..9] == Le(h.payloadLen, 4);
  }

  lemma EncodeOfDecode(buf: seq<byte>)
    requires |buf| == HEADER_SIZE && Decode(buf).Ok?
    ensures GoodHeader(Decode(buf).value) && HeaderBytes(Decode(buf).value) == buf
  {
    LeOfFromLe(buf[5..9]);
    assert buf == [buf[0], buf[1], buf[2], buf[3], buf[4]] + buf[5..9];
  }

  predicate GoodFrame(f: Frame) {
    GoodHeader(f.header) && f.header.payloadLen == |f.payload|
  }

  function Encode(f: Frame): (s: seq<byte>)
    ensures |s| == HEADER_SIZE + |f.payload|
  {
    HeaderBytes(f.header) + f.payload
  }

  function EncodeAll(frames: seq<Frame>): seq<byte> {
    if frames == [] then [] else Encode(frames[0]) + EncodeAll(frames[1..])
  }

  ghost predicate GoodFrames(frames: seq<Frame>) {
    forall i :: 0 <= i < |frames| ==> GoodFrame(frames[i])
  }

  // ---- The streaming parser ----------------------------------------------------------------------------------

  datatype Parsed = Frames(frames: seq<Frame>, consumed: nat) | Bad(error: ParseError)

  /** What is at the head of a buffer: a whole frame, too few bytes for one, or a header that does not decode. */
  datatype Head = Whole(frame: Frame) | Partial | Broken(error: ParseError)

  function HeadOf(buf: seq<byte>): (h: Head)
    ensures h.Whole? ==> HEADER_SIZE + |h.frame.payload| <= |buf|
  {
    if |buf| < HEADER_SIZE then Partial
    else match Decode(buf[..HEADER_SIZE])
      case Err(e) => Broken(e)
      case Ok(h) =>
        var size := HEADER_SIZE + h.payloadLen;
        if |buf| < size then Partial else Whole(Frame(h, buf[HEADER_SIZE..size]))
  }

  function Parse(buf: seq<byte>): (p: Parsed)
    ensures p.Frames? ==> p.consumed <= |buf|
    decreases |buf|
  {
    match HeadOf(buf)
    case Partial => Frames([], 0)
    case Broken(e) => Bad(e)
    case Whole(f) =>
      var size := HEADER_SIZE + |f.payload|;
      After([f], size, Parse(buf[size..]))
  }

  /** The frames `before`, which took `size` bytes, and then the parse of the rest. */
  function After(before: seq<Frame>, size: nat, rest: Parsed): Parsed {
    match rest
    case Frames(frames, consumed) => Frames(before + frames, size + consumed)
    case Bad(e) => Bad(e)
  }

  lemma AfterTwice(x: seq<Frame>, n: nat, y: seq<Frame>, m: nat, p: Parsed)
    ensures After(x, n, After(y, m, p)) == After(x + y, n + m, p)
  {
    if p.Frames? {
      assert x + (y + p.frames) == (x + y) + p.frames;
    }
  }

  lemma AfterNothing(p: Parsed)
    ensures After([], 0, p) == p
  {
    if p.Frames? {
      assert [] + p.frames == p.frames;
    }
  }

  /** parse_frames: one pass with a moving offset. */
  method ParseFrames(buf: seq<byte>) returns (parsed: Parsed)
    ensures parsed == Parse(buf)
  {
    var frames: seq<Frame> := [];
    var offset := 0;
    assert buf[0..] == buf;
    AfterNothing(Parse(buf));
    while offset + HEADER_SIZE <= |buf|
      invariant offset <= |buf|
      invariant Parse(buf) == After(frames, offset, Parse(buf[offset..]))
      decreases |buf| - offset
    {
      ghost var rest := buf[offset..];
      hide Decode;
      assert buf[offset..offset + HEADER_SIZE] == rest[..HEADER_SIZE];
      match Decode(buf[offset..offset + HEADER_SIZE]) {
        case Err(e) =>
          return Bad(e);
        case Ok(header) =>
          var total := HEADER_SIZE + header.payloadLen;
          if offset + total > |buf| {
            break;
          }
          var payload := buf[offset + HEADER_SIZE..offset + total];
          assert payload == rest[HEADER_SIZE..total] && buf[offset + total..] == rest[total..];
          AfterTwice(frames, offset, [Frame(header, payload)], total, Parse(rest[total..]));
          frames := frames + [Frame(header, payload)];
          offset := offset + total;
      }
    }
    assert frames + [] == frames;
    parsed := Frames(frames, offset);
  }

  // ---- Payloads ----------------------------------------------------------------------------------------------

  predicate IsOneWay(flags: byte) {
    flags / ONE_WAY % 2 == 1
  }

  /** `payload.len() as u32`. */
  function AsU32(n: nat): nat {
    n % 0x1_0000_0000
  }

  function Plain(t: MessageType, payload: seq<byte>): Frame {
    Frame(FrameHeader(VERSION, 0, t, AsU32(|payload|)), payload)
  }

  function RequestFrame(id: nat, service: nat, method_: nat, args: seq<byte>, oneWay: bool): Frame {
    var payload := Le(id, 8) + Le(service, 2) + Le(method_, 2) + args;
    Frame(FrameHeader(VERSION, if oneWay then ONE_WAY else 0, Request, AsU32(|payload|)), payload)
  }

  function ResponseFrame(id: nat, data: seq<byte>): Frame {
    Plain(Response, Le(id, 8) + data)
  }

  function ErrorFrame(id: nat, data: seq<byte>): Frame {
    Plain(Error, Le(id, 8) + data)
  }

  datatype RequestPayload = RequestPayload(id: nat, service: nat, method_: nat, args: seq<byte>)

  function ParseRequestPayload(payload: seq<byte>): Result<RequestPayload, ParseError> {
    if |payload| < 12 then Err(PayloadTooShort)
    else Ok(RequestPayload(FromLe(payload[0..8]), FromLe(payload[8..10]), FromLe(payload[10..12]), payload[12..]))
  }

  datatype ResponsePayload = ResponsePayload(id: nat, data: seq<byte>)

  function ParseResponsePayload(payload: seq<byte>): Result<ResponsePayload, ParseError> {
    if |payload| < 8 then Err(PayloadTooShort) else Ok(ResponsePayload(FromLe(payload[0..8]), payload[8..]))
  }

  const U16: nat := 0x1_0000
  const U64: nat := 0x1_0000_0000_0000_0000

  lemma RequestPayloadRoundTrip(id: nat, service: nat, method_: nat, args: seq<byte>, oneWay: bool)
    requires id < U64 && service < U16 && method_ < U16
    ensures ParseRequestPayload(RequestFrame(id, service, method_, args, oneWay).payload)
         == Ok(RequestPayload(id, service, method_, args))
    ensures IsOneWay(RequestFrame(id, service, method_, args, oneWay).header.flags) == oneWay
    ensures |args| + 12 <= MAX_PAYLOAD_SIZE ==> GoodFrame(RequestFrame(id, service, method_, args, oneWay))
  {
    Widths();
    FromLeOfLe(id, 8);
    FromLeOfLe(service, 2);
    FromLeOfLe(method_, 2);
    var p := RequestFrame(id, service, method_, args, oneWay).payload;
    assert p[0..8] == Le(id, 8) && p[8..10] == Le(service, 2) && p[10..12] == Le(method_, 2) && p[12..] == args;
  }

  lemma ResponsePayloadRoundTrip(id: nat, data: seq<byte>)
    requires id < U64
    ensures ParseResponsePayload(Le(id, 8) + data) == Ok(ResponsePayload(id, data))
    ensures |data| + 8 <= MAX_PAYLOAD_SIZE ==> GoodFrame(ResponseFrame(id, data)) && GoodFrame(ErrorFrame(id, data))
  {
    Widths();
    FromLeOfLe(id, 8);
    var p := Le(id, 8) + data;
    assert p[0..8] == Le(id, 8) && p[8..] == data;
  }

  // ---- The bytes on the wire ---------------------------------------------------------------------------------

  /** The nine bytes of a header, by position. */
  lemma HeaderOnWire(h: FrameHeader)
    ensures var b := HeaderBytes(h);
            && b[0] == 0x4D && b[1] == 0x52 && b[2] == h.version && b[3] == h.flags
            && b[4] == (match h.messageType
                        case Request => 1
                        case Response => 2
                        case Error => 3
                        case Ping => 4
                        case Pong => 5
                        case Cancel => 6)
            && forall i :: 0 <= i < 4 ==> b[5 + i] == h.payloadLen / Pow256(i) % 256
  {
    forall i | 0 <= i < 4 ensures Le(h.payloadLen, 4)[i] == h.payloadLen / Pow256(i) % 256 {
      LeAt(h.payloadLen, 4, i);
    }
  }

  /** A request: flags 2 when one-way, then id, service, method and arguments. */
  lemma RequestOnWire(id: nat, service: nat, method_: nat, args: seq<byte>, oneWay: bool)
    requires |args| + 12 < 0x1_0000_0000
    ensures var b := Encode(RequestFrame(id, service, method_, args, oneWay));
            && |b| == 21 + |args|
            && b[0] == 0x4D && b[1] == 0x52 && b[2] == 1 && b[3] == (if oneWay then 2 else 0) && b[4] == 1
            && (forall i :: 0 <= i < 4 ==> b[5 + i] == (12 + |args|) / Pow256(i) % 256)
            && (forall i :: 0 <= i < 8 ==> b[9 + i] == id / Pow256(i) % 256)
            && b[17] == service % 256 && b[18] == service / 256 % 256
            && b[19] == method_ % 256 && b[20] == method_ / 256 % 256
            && b[21..] == args
  {
    var f := RequestFrame(id, service, method_, args, oneWay);
    var b := Encode(f);
    HeaderOnWire(f.header);
    RequestPayloadAt(id, service, method_, args);
    var p, h := f.payload, HeaderBytes(f.header);
    assert p == Le(id, 8) + Le(service, 2) + Le(method_, 2) + args && f.header.payloadLen == |p|;
    assert b == h + p && |h| == 9 && h[2] == 1 && h[3] == (if oneWay then 2 else 0) && h[4] == 1;
    hide HeaderBytes, Le, Pow256, RequestFrame, Encode;
    forall i | 0 <= i < 4 ensures b[5 + i] == (12 + |args|) / Pow256(i) % 256 {
      assert b[5 + i] == h[5 + i];
    }
    forall i | 0 <= i < 8 ensures b[9 + i] == id / Pow256(i) % 256 {
      assert b[9 + i] == p[i];
    }
    assert b[17] == p[8] && b[18] == p[9] && b[19] == p[10] && b[20] == p[11] && b[21..] == p[12..];
  }

  lemma RequestPayloadAt(id: nat, service: nat, method_: nat, args: seq<byte>)
    ensures var p := Le(id, 8) + Le(service, 2) + Le(method_, 2) + args;
            && |p| == 12 + |args| && p[12..] == args
            && (forall i :: 0 <= i < 8 ==> p[i] == id / Pow256(i) % 256)
            && p[8] == service % 256 && p[9] == service / 256 % 256
            && p[10] == method_ % 256 && p[11] == method_ / 256 % 256
  {
    assert Pow256(0) == 1 && Pow256(1) == 256 * Pow256(0);
    hide Le, Pow256;
    var a, b, c := Le(id, 8), Le(service, 2), Le(method_, 2);
    forall i | 0 <= i < 8 ensures a[i] == id / Pow256(i) % 256 {
      LeAt(id, 8, i);
    }
    LeAt(service, 2, 0);
    LeAt(service, 2, 1);
    LeAt(method_, 2, 0);
    LeAt(method_, 2, 1);
  }

  /** A reply: type 2 with data or type 3 with an error, then the id and the bytes. */
  lemma ReplyOnWire(id: nat, data: seq<byte>)
    requires |data| + 8 < 0x1_0000_0000
    ensures var b, e := Encode(ResponseFrame(id, data)), Encode(ErrorFrame(id, data));
            && |b| == |e| == 17 + |data|
            && b[0] == 0x4D && b[1] == 0x52 && b[2] == 1 && b[3] == 0 && b[4] == 2 && b[17..] == data
            && e[0] == 0x4D && e[1] == 0x52 && e[2] == 1 && e[3] == 0 && e[4] == 3 && e[17..] == data
            && (forall i :: 0 <= i < 4 ==> b[5 + i] == e[5 + i] == (8 + |data|) / Pow256(i) % 256)
            && (forall i :: 0 <= i < 8 ==> b[9 + i] == e[9 + i] == id / Pow256(i) % 256)
  {
    PlainOnWire(Response, Le(id, 8) + data);
    PlainOnWire(Error, Le(id, 8) + data);
    var b, e := Encode(ResponseFrame(id, data)), Encode(ErrorFrame(id, data));
    var payload := Le(id, 8) + data;
    assert b[9..] == payload && e[9..] == payload && payload[8..] == data;
    forall i | 0 <= i < 8 ensures b[9 + i] == e[9 + i] == id / Pow256(i) % 256 {
      LeAt(id, 8, i);
      assert b[9 + i] == b[9..][i] && e[9 + i] == e[9..][i];
    }
  }

  /** A frame without flags. */
  lemma PlainOnWire(t: MessageType, payload: seq<byte>)
    requires |payload| < 0x1_0000_0000
    ensures var b := Encode(Plain(t, payload));
            && |b| == 9 + |payload| && b[0] == 0x4D && b[1] == 0x52 && b[2] == 1 && b[3] == 0
            && b[4] == (match t
                        case Request => 1
                        case Response => 2
                        case Error => 3
                        case Ping => 4
                        case Pong => 5
                        case Cancel => 6)
            && (forall i :: 0 <= i < 4 ==> b[5 + i] == |payload| / Pow256(i) % 256)
            && b[9..] == payload
  {
    var f := Plain(t, payload);
    HeaderOnWire(f.header);
    var b := Encode(f);
    assert b[..9] == HeaderBytes(f.header);
    hide HeaderBytes;
    forall i | 0 <= i < 4 ensures b[5 + i] == |payload| / Pow256(i) % 256 {
      assert b[5 + i] == b[..9][5 + i];
    }
  }

  /** Bit 1 of the flags. */
  lemma OneWayBit(flags: byte)
    ensures IsOneWay(flags) <==> flags % 4 >= 2
  {}

  /** Which nine bytes are a header, what they say, and which error the others give. */
  lemma DecodedExactly(b: seq<byte>)
    requires |b| == 9
    ensures var len := b[5] as nat + 0x100 * b[6] as nat + 0x1_0000 * b[7] as nat + 0x100_0000 * b[8] as nat;
            match Decode(b)
            case Ok(h) =>
              && b[0] == 0x4D && b[1] == 0x52 && b[2] == 1 && 1 <= b[4] <= 6 && len <= 16 * 1024 * 1024
              && h.version == 1 && h.flags == b[3] && h.payloadLen == len
              && h.messageType == (match b[4]
                                   case 1 => Request
                                   case 2 => Response
                                   case 3 => Error
                                   case 4 => Ping
                                   case 5 => Pong
                                   case _ => Cancel)
            case Err(InvalidMagic(x, y)) => (b[0] != 0x4D || b[1] != 0x52) && x == b[0] && y == b[1]
            case Err(UnsupportedVersion(v)) => b[0] == 0x4D && b[1] == 0x52 && b[2] != 1 && v == b[2]
            case Err(UnknownMessageType(c)) =>
              b[0] == 0x4D && b[1] == 0x52 && b[2] == 1 && !(1 <= b[4] <= 6) && c == b[4]
            case Err(PayloadTooLarge(n)) =>
              b[0] == 0x4D && b[1] == 0x52 && b[2] == 1 && 1 <= b[4] <= 6 && len > 16 * 1024 * 1024 && n == len
            case Err(PayloadTooShort) => false
  {
    FromLeFour(b[5..9]);
    hide FromLe;
  }

  /** Where the fields of a request payload lie. */
  lemma RequestFields(p: seq<byte>)
    ensures match ParseRequestPayload(p)
            case Err(_) => |p| < 12
            case Ok(rq) =>
              && |p| >= 12 && rq.id < U64 && (forall i :: 0 <= i < 8 ==> p[i] == rq.id / Pow256(i) % 256)
              && rq.service == p[8] as nat + 0x100 * p[9] as nat && rq.method_ == p[10] as nat + 0x100 * p[11] as nat
              && rq.args == p[12..]
  {
    if |p| >= 12 {
      var id := FromLe(p[0..8]);
      LeOfFromLe(p[0..8]);
      Widths();
      FromLeTwo(p[8..10]);
      FromLeTwo(p[10..12]);
      forall i | 0 <= i < 8 ensures p[i] == id / Pow256(i) % 256 {
        LeAt(id, 8, i);
        assert p[i] == p[0..8][i];
      }
      hide FromLe, Le;
    }
  }

  /** And of a reply payload. */
  lemma ReplyFields(p: seq<byte>)
    ensures match ParseResponsePayload(p)
            case Err(_) => |p| < 8
            case Ok(r) =>
              |p| >= 8 && r.id < U64 && (forall i :: 0 <= i < 8 ==> p[i] == r.id / Pow256(i) % 256) && r.data == p[8..]
  {
    if |p| >= 8 {
      var id := FromLe(p[0..8]);
      LeOfFromLe(p[0..8]);
      Widths();
      forall i | 0 <= i < 8 ensures p[i] == id / Pow256(i) % 256 {
        LeAt(id, 8, i);
        assert p[i] == p[0..8][i];
      }
      hide FromLe, Le;
    }
  }
}
