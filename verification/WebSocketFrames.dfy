/** The frames of RFC 6455 as `RFC6455WebSocket` prints and reads them, without compression. */
module WebSocketFrames {
  import opened Bytes

  type Mask = m: bytes | |m| == 4 witness [0, 0, 0, 0]

  const CLOSE := 8
  const PING := 9
  const PONG := 10
  const PROTOCOL_ERROR := 1002
  const TOO_LONG := 1009

  predicate IsControl(opcode: nat) {
    opcode >= 8
  }

  function ApplyMask(data: bytes, mask: Mask, offset: nat): (r: bytes)
    ensures |r| == |data|
  {
    seq(|data|, i requires 0 <= i < |data| => Xor(data[i], mask[(offset + i) % 4]))
  }

  lemma MaskTwice(data: bytes, mask: Mask, offset: nat)
    ensures ApplyMask(ApplyMask(data, mask, offset), mask, offset) == data
  {
    forall i | 0 <= i < |data|
      ensures ApplyMask(ApplyMask(data, mask, offset), mask, offset)[i] == data[i]
    {
      XorTwice(data[i], mask[(offset + i) % 4]);
    }
  }

  /** Each byte is combined with one byte of the mask, a bit being 1 exactly if one of their bits is and the other not. */
  lemma MaskedByte(data: bytes, mask: Mask, offset: nat, i: nat, bit: nat)
    requires i < |data| && bit < 8
    ensures ApplyMask(data, mask, offset)[i] / Pow2(bit) % 2 ==
      (data[i] / Pow2(bit) % 2 + mask[(offset + i) % 4] / Pow2(bit) % 2) % 2
  {
    XorAt(data[i], mask[(offset + i) % 4], bit);
  }

  lemma MaskNothing(data: bytes, offset: nat)
    ensures ApplyMask(data, [0, 0, 0, 0], offset) == data
  {
    forall i | 0 <= i < |data|
      ensures ApplyMask(data, [0, 0, 0, 0], offset)[i] == data[i]
    {
      XorZero(data[i]);
    }
  }

  /** Masking a payload piece by piece, each with the number of bytes before it as its offset, masks the whole. */
  lemma MaskPieces(a: bytes, b: bytes, mask: Mask, offset: nat)
    ensures ApplyMask(a + b, mask, offset) == ApplyMask(a, mask, offset) + ApplyMask(b, mask, offset + |a|)
  {
    forall i | 0 <= i < |a + b|
      ensures ApplyMask(a + b, mask, offset)[i] == (ApplyMask(a, mask, offset) + ApplyMask(b, mask, offset + |a|))[i]
    {
    }
  }

  // --- Printing ---

  datatype Packed = Packed(wire: bytes) | UnknownControl | FragmentedControl | LongControl | LengthOverflow

  /** The seven bits that hold the length or say where it is. */
  function Marker(length: nat): (m: byte)
    ensures m < 128
  {
    if length > 65535 then 127 else if length > 125 then 126 else length
  }

  /** The part of the header that holds the length. */
  function LengthData(length: nat, masked: bool): bytes
    requires length < Pow256(8)
  {
    [Marker(length) + if masked then 128 else 0] +
    if length > 65535 then BigEndian(length, 8) else if length > 125 then BigEndian(length, 2) else []
  }

  function Frame(first: byte, message: bytes, masked: bool, mask: Mask): Packed {
    if |message| >= Pow256(8) then LengthOverflow
    else
      var masked := masked && message != [];
      Packed([first] + LengthData(|message|, masked) + (if masked then mask + ApplyMask(message, mask, 0) else message))
  }

  /** `_pack_message`; `controlCode` is 0 for a data frame. */
  function PackMessage(message: bytes, isText: bool, masked: bool, continuation: bool, final: bool,
                       controlCode: nat, mask: Mask): Packed
  {
    if controlCode != 0 then
      if controlCode !in {CLOSE, PING, PONG} then UnknownControl
      else if continuation || !final then FragmentedControl
      else if |message| > 125 then LongControl
      else Frame(controlCode + 128, message, masked, mask)
    else
      var opcode := if continuation then 0 else if isText then 1 else 2;
      Frame(opcode + (if final then 128 else 0), message, masked, mask)
  }

  // --- Reading ---

  datatype Header =
    | Header(final: bool, opcode: nat, length: nat, masked: bool, mask: Mask, size: nat)
    | HeaderClosed
    | HeaderFailed(code: nat)

  /** The checks on the first two bytes of a frame; 0 stands for no complaint. */
  function Complaint(a: byte, b: byte, client: bool, inMessage: bool): nat {
    var opcode := a % 16;
    if a / 16 % 8 >= 4 then PROTOCOL_ERROR
    else if opcode !in {0, 1, 2, CLOSE, PING, PONG} then PROTOCOL_ERROR
    else if b < 128 && !client then PROTOCOL_ERROR
    else if IsControl(opcode) then (if a < 128 || b % 128 > 125 then PROTOCOL_ERROR else 0)
    else if (opcode != 0) == inMessage then PROTOCOL_ERROR
    else 0
  }

  /** How many bytes of extended length follow. */
  function Extension(b: byte): nat {
    if b % 128 == 126 then 2 else if b % 128 == 127 then 8 else 0
  }

  function PayloadLength(b: byte, extension: bytes): nat {
    if extension == [] then b % 128 else FromBigEndian(extension)
  }

  function ParseHeader(data: bytes, client: bool, maxLength: nat, inMessage: bool): (h: Header)
    ensures h.Header? ==> 2 <= h.size <= |data| && h.length <= maxLength
  {
    if |data| < 2 then HeaderClosed
    else if Complaint(data[0], data[1], client, inMessage) != 0 then
      HeaderFailed(Complaint(data[0], data[1], client, inMessage))
    else
      var ext := 2 + Extension(data[1]);
      if |data| < ext then HeaderClosed
      else
        var length := PayloadLength(data[1], data[2..ext]);
        if length > maxLength then HeaderFailed(TOO_LONG)
        else if data[1] < 128 then Header(data[0] >= 128, data[0] % 16, length, false, [0, 0, 0, 0], ext)
        else if |data| < ext + 4 then HeaderClosed
        else Header(data[0] >= 128, data[0] % 16, length, true, data[ext..ext + 4], ext + 4)
  }

  datatype Parsed =
    | Parsed(final: bool, opcode: nat, payload: bytes, rest: bytes)
    | Closed
    | Failed(code: nat)

  function Unmasked(h: Header, payload: bytes): bytes
    requires h.Header?
  {
    if h.masked then ApplyMask(payload, h.mask, 0) else payload
  }

  /** The first frame of `data`, all that will ever be received. */
  function ParseFrame(data: bytes, client: bool, maxLength: nat, inMessage: bool): (r: Parsed)
    ensures r.Parsed? ==> |r.rest| < |data|
  {
    var h := ParseHeader(data, client, maxLength, inMessage);
    if h.HeaderClosed? then Closed
    else if h.HeaderFailed? then Failed(h.code)
    else if |data| < h.size + h.length then Closed
    else Parsed(h.final, h.opcode, Unmasked(h, data[h.size..h.size + h.length]), data[h.size + h.length..])
  }

  /** A frame is its header and what follows it. */
  lemma BodyParses(data: bytes, body: bytes, rest: bytes, client: bool, maxLength: nat, inMessage: bool)
    requires ParseHeader(data, client, maxLength, inMessage).Header?
    requires var h := ParseHeader(data, client, maxLength, inMessage);
      data[h.size..] == body + rest && |body| == h.length
    ensures var h := ParseHeader(data, client, maxLength, inMessage);
      ParseFrame(data, client, maxLength, inMessage) == Parsed(h.final, h.opcode, Unmasked(h, body), rest)
  {
    var h := ParseHeader(data, client, maxLength, inMessage);
    BodyAt(data, h.size, body, rest);
  }

  lemma BodyAt(data: bytes, i: nat, body: bytes, rest: bytes)
    requires i <= |data| && data[i..] == body + rest
    ensures |data| >= i + |body| && data[i..i + |body|] == body && data[i + |body|..] == rest
  {
    var after := data[i..];
    assert data[i..i + |body|] == after[..|body|];
    assert data[i + |body|..] == after[|body|..];
  }

  /** The reserved bits of a frame's first byte, RSV1 the highest. */
  function Reserved(a: byte): nat {
    a / 16 % 8
  }

  lemma SliceTail(a: byte, tail: bytes, i: nat, j: nat)
    requires 1 <= i <= j <= |tail| + 1
    ensures ([a] + tail)[i..j] == tail[i - 1..j - 1] && ([a] + tail)[j..] == tail[j - 1..]
  {
  }

  lemma HeaderIgnoresReserved(a: byte, a': byte, tail: bytes, client: bool, maxLength: nat, inMessage: bool)
    requires Reserved(a) < 4 && Reserved(a') == 0 && a % 16 == a' % 16 && (a < 128 <==> a' < 128)
    ensures ParseHeader([a] + tail, client, maxLength, inMessage) == ParseHeader([a'] + tail, client, maxLength, inMessage)
  {
    if tail != [] {
      assert Complaint(a, tail[0], client, inMessage) == Complaint(a', tail[0], client, inMessage);
      var ext := 2 + Extension(tail[0]);
      SameTail(a, a', tail, 2, ext);
      SameTail(a, a', tail, ext, ext + 4);
    }
  }

  /** What follows the first byte does not depend on it. */
  lemma SameTail(a: byte, a': byte, tail: bytes, i: nat, j: nat)
    requires 1 <= i <= j
    ensures j <= |tail| + 1 ==> ([a] + tail)[i..j] == ([a'] + tail)[i..j]
  {
    if j <= |tail| + 1 {
      SliceTail(a, tail, i, j);
      SliceTail(a', tail, i, j);
    }
  }

  /** A frame is read from its header and what follows that. */
  lemma SameAfterHeader(data: bytes, data': bytes, client: bool, maxLength: nat, inMessage: bool)
    requires ParseHeader(data, client, maxLength, inMessage) == ParseHeader(data', client, maxLength, inMessage)
    requires var h := ParseHeader(data, client, maxLength, inMessage);
      |data| == |data'| && (h.Header? ==> data[h.size..] == data'[h.size..])
    ensures ParseFrame(data, client, maxLength, inMessage) == ParseFrame(data', client, maxLength, inMessage)
  {
    var h := ParseHeader(data, client, maxLength, inMessage);
    if h.Header? && h.size + h.length <= |data| {
      var after := data[h.size..];
      BodyAt(data, h.size, after[..h.length], after[h.length..]);
      BodyAt(data', h.size, after[..h.length], after[h.length..]);
    }
  }

  /** Of the three reserved bits only RSV1 is checked; frames with the others set are read as if they were clear. */
  lemma ReservedBits(a: byte, a': byte, tail: bytes, client: bool, maxLength: nat, inMessage: bool)
    requires tail != []
    requires Reserved(a') == 0 && a % 16 == a' % 16 && (a < 128 <==> a' < 128)
    ensures ParseFrame([a] + tail, client, maxLength, inMessage) ==
      if Reserved(a) >= 4 then Failed(PROTOCOL_ERROR) else ParseFrame([a'] + tail, client, maxLength, inMessage)
  {
    if Reserved(a) < 4 {
      HeaderIgnoresReserved(a, a', tail, client, maxLength, inMessage);
      var h := ParseHeader([a] + tail, client, maxLength, inMessage);
      if h.Header? {
        SliceTail(a, tail, h.size, h.size);
        SliceTail(a', tail, h.size, h.size);
      }
      SameAfterHeader([a] + tail, [a'] + tail, client, maxLength, inMessage);
    }
  }

  /** The message under way, `fragmented_message`. */
  datatype Partial = NoMessage | Partial(opcode: nat, data: bytes)

  datatype Message = Message(opcode: nat, payload: bytes)

  datatype Ending = ConnectionClosed | CloseReceived(status: nat) | ProtocolFailure(code: nat)

  /** What `_iter_frames` yields, the pongs it sends, and how it ends. */
  datatype Received = Received(messages: seq<Message>, pongs: seq<bytes>, ending: Ending)

  // --- Close frames ---

  predicate IsContinuation(b: byte) {
    128 <= b < 192
  }

  /** The length of the UTF-8 sequence at the start of `s`, by section 4 of RFC 3629, or 0 if it is not valid. */
  function SequenceLength(s: bytes): (n: nat)
    ensures n <= |s|
  {
    if s == [] then 0
    else if s[0] < 0x80 then 1
    else if |s| < 2 || !IsContinuation(s[1]) then 0
    else if 0xC2 <= s[0] < 0xE0 then 2
    else if |s| < 3 || !IsContinuation(s[2]) then 0
    else if 0xE0 <= s[0] < 0xF0 then if (s[0] == 0xE0 && s[1] < 0xA0) || (s[0] == 0xED && s[1] >= 0xA0) then 0 else 3
    else if |s| < 4 || !IsContinuation(s[3]) then 0
    else if 0xF0 <= s[0] < 0xF5 then if (s[0] == 0xF0 && s[1] < 0x90) || (s[0] == 0xF4 && s[1] >= 0x90) then 0 else 4
    else 0
  }

  predicate IsUtf8(s: bytes)
    decreases |s|
  {
    s == [] || (SequenceLength(s) > 0 && IsUtf8(s[SequenceLength(s)..]))
  }

  predicate IsValidStatus(status: nat) {
    1000 <= status < 1004 || 1007 <= status < 1012 || 3000 <= status < 5000
  }

  /** The status that a close frame is answered with. */
  function CloseStatus(data: bytes): nat {
    if |data| > 1 then FromBigEndian(data[..2]) else if data == [] then 1000 else 1002
  }

  lemma CloseStatusIs(a: byte, b: byte, text: bytes)
    ensures CloseStatus([a, b] + text) == 256 * a + b && CloseStatus([]) == 1000 && CloseStatus([a]) == 1002
  {
    assert ([a, b] + text)[..2] == [a, b] && [a, b][..1] == [a] && [a][..0] == [];
    assert FromBigEndian([a]) == a;
    assert FromBigEndian([a, b]) == 256 * FromBigEndian([a, b][..1]) + b;
  }

  predicate CloseAccepted(data: bytes) {
    |data| > 1 ==> IsValidStatus(CloseStatus(data)) && IsUtf8(data[2..])
  }

  function CloseEnding(data: bytes): Ending {
    if CloseAccepted(data) then CloseReceived(CloseStatus(data)) else ProtocolFailure(PROTOCOL_ERROR)
  }

  function Yielding(m: Message, r: Received): Received {
    r.(messages := [m] + r.messages)
  }

  function Ponging(p: bytes, r: Received): Received {
    r.(pongs := [p] + r.pongs)
  }

  function Extended(partial: Partial, opcode: nat, payload: bytes): Partial {
    match partial
    case NoMessage => Partial(opcode, payload)
    case Partial(o, d) => Partial(o, d + payload)
  }

  function Receive(data: bytes, client: bool, maxLength: nat, partial: Partial): Received
    decreases |data|
  {
    match ParseFrame(data, client, maxLength, partial.Partial?)
    case Closed => Received([], [], ConnectionClosed)
    case Failed(code) => Received([], [], ProtocolFailure(code))
    case Parsed(final, opcode, payload, rest) =>
      if opcode == CLOSE then Received([], [], CloseEnding(payload))
      else if opcode == PING then Ponging(payload, Receive(rest, client, maxLength, partial))
      else if opcode == PONG then Receive(rest, client, maxLength, partial)
      else
        var p := Extended(partial, opcode, payload);
        if final then Yielding(Message(p.opcode, p.data), Receive(rest, client, maxLength, NoMessage))
        else Receive(rest, client, maxLength, p)
  }

  function Yields(p: Parsed, partial: Partial): seq<Message>
    requires p.Parsed?
  {
    if IsControl(p.opcode) || !p.final then []
    else
      var m := Extended(partial, p.opcode, p.payload);
      [Message(m.opcode, m.data)]
  }

  function Pongs(p: Parsed): seq<bytes>
    requires p.Parsed?
  {
    if p.opcode == PING then [p.payload] else []
  }

  function Next(p: Parsed, partial: Partial): Partial
    requires p.Parsed?
  {
    if IsControl(p.opcode) then partial
    else if p.final then NoMessage
    else Extended(partial, p.opcode, p.payload)
  }

  /** What has been received in all when `r` comes after these messages and pongs. */
  function After(messages: seq<Message>, pongs: seq<bytes>, r: Received): Received {
    Received(messages + r.messages, pongs + r.pongs, r.ending)
  }

  lemma ReceiveOne(data: bytes, client: bool, maxLength: nat, partial: Partial)
    ensures var p := ParseFrame(data, client, maxLength, partial.Partial?);
      p.Parsed? && p.opcode != CLOSE ==>
        Receive(data, client, maxLength, partial) ==
          After(Yields(p, partial), Pongs(p), Receive(p.rest, client, maxLength, Next(p, partial)))
  {
  }

  /** Exactly which first two bytes are refused, by section 5 of RFC 6455 but for two of the reserved bits. */
  lemma Refused(data: bytes, client: bool, maxLength: nat, inMessage: bool)
    requires |data| >= 2
    ensures var opcode := data[0] % 16;
      ParseFrame(data, client, maxLength, inMessage) == Failed(1002) <==>
        || data[0] / 64 % 2 == 1
        || 3 <= opcode <= 7 || opcode >= 11
        || (data[1] < 128 && !client)
        || (opcode >= 8 && (data[0] < 128 || data[1] % 128 > 125))
        || (opcode == 0 && !inMessage) || (1 <= opcode <= 2 && inMessage)
  {
    assert data[0] / 16 % 8 >= 4 <==> data[0] / 64 % 2 == 1;
  }

  // --- The stream of a sender ---

  /** One call of `send`. */
  datatype Send =
    | Data(payload: bytes, isText: bool, continuation: bool, final: bool, mask: Mask)
    | Control(code: nat, payload: bytes, mask: Mask)

  /** Fragments follow one another, with control frames of at most 125 bytes anywhere between them. */
  predicate Orderly(sends: seq<Send>, open: bool) {
    sends == [] ||
    match sends[0]
    case Data(payload, _, continuation, final, _) =>
      |payload| < Pow256(8) && continuation == open && Orderly(sends[1..], !final)
    case Control(code, payload, _) =>
      |payload| <= 125 && code in {CLOSE, PING, PONG} && Orderly(sends[1..], open)
  }

  function PackSend(s: Send, masked: bool): Packed {
    match s
    case Data(payload, isText, continuation, final, mask) =>
      PackMessage(payload, isText, masked, continuation, final, 0, mask)
    case Control(code, payload, mask) => PackMessage(payload, false, masked, false, true, code, mask)
  }

  function Wire(sends: seq<Send>, masked: bool, open: bool): bytes
    requires Orderly(sends, open)
  {
    if sends == [] then []
    else PackSend(sends[0], masked).wire + Wire(sends[1..], masked, Opens(sends[0], open))
  }

  function Opens(s: Send, open: bool): bool {
    if s.Data? then !s.final else open
  }

  /** What the receiver should make of the calls: every message whole, every ping answered, nothing after a close. */
  function Meaning(sends: seq<Send>, partial: Partial): Received {
    if sends == [] then Received([], [], ConnectionClosed)
    else
      match sends[0]
      case Control(code, payload, _) =>
        if code == CLOSE then Received([], [], CloseReceived(CloseStatus(payload)))
        else if code == PING then Ponging(payload, Meaning(sends[1..], partial))
        else Meaning(sends[1..], partial)
      case Data(payload, isText, _, final, _) =>
        var p := Extended(partial, if isText then 1 else 2, payload);
        if final then Yielding(Message(p.opcode, p.data), Meaning(sends[1..], NoMessage))
        else Meaning(sends[1..], p)
  }

  predicate IsClose(s: Send) {
    s.Control? && s.code == CLOSE
  }

  /** The receiver takes the frame: it is not too long, not empty if the receiver is a server, and a close frame holds
      nothing or a valid status with a text. */
  predicate Fits(s: Send, client: bool, maxLength: nat) {
    |s.payload| <= maxLength && (client || s.payload != []) && (IsClose(s) ==> CloseAccepted(s.payload))
  }

  /** All frames fit, up to and including the first close. */
  predicate AllFit(sends: seq<Send>, client: bool, maxLength: nat) {
    sends == [] ||
    (Fits(sends[0], client, maxLength) && (IsClose(sends[0]) || AllFit(sends[1..], client, maxLength)))
  }

  /** What a call puts on the wire, by section 5.2 of RFC 6455: two bytes, the extended length, the mask, the payload. */
  lemma WireLayout(s: Send, masked: bool, inMessage: bool) returns (extended: bytes)
    requires Orderly([s], inMessage)
    ensures var n, m := |s.payload|, masked && s.payload != [];
      && IsBigEndian(extended, n) && |extended| == (if n <= 125 then 0 else if n <= 65535 then 2 else 8)
      && LayoutFirst(s) < 256
      && PackSend(s, masked) == Packed([LayoutFirst(s)] + ([LayoutSecond(n, m)] + extended)
           + if m then s.mask + ApplyMask(s.payload, s.mask, 0) else s.payload)
  {
    PackedSend(s, masked, inMessage);
    extended := LengthLayout(|s.payload|, masked && s.payload != []);
  }

  function LayoutFirst(s: Send): nat {
    (if s.Control? || s.final then 128 else 0)
      + (if s.Control? then s.code else if s.continuation then 0 else if s.isText then 1 else 2)
  }

  function LayoutSecond(n: nat, masked: bool): byte {
    (if masked then 128 else 0) + (if n <= 125 then n else if n <= 65535 then 126 else 127)
  }

  lemma LengthLayout(n: nat, masked: bool) returns (extended: bytes)
    requires n < Pow256(8)
    ensures LengthData(n, masked) == [LayoutSecond(n, masked)] + extended
    ensures IsBigEndian(extended, n) && |extended| == (if n <= 125 then 0 else if n <= 65535 then 2 else 8)
  {
    extended := LengthData(n, masked)[1..];
    if n > 65535 {
      BigEndianDigits(n, 8);
    } else if n > 125 {
      BigEndianDigits(n, 2);
    }
  }

  // --- Reading undoes printing ---

  lemma MaskBit(m: nat, masked: bool)
    requires m < 128
    ensures var b := m + if masked then 128 else 0; b % 128 == m && (b < 128 <==> !masked)
  {
  }

  lemma LengthRoundTrip(length: nat, masked: bool)
    requires length < Pow256(8)
    ensures var l := LengthData(length, masked);
      && |l| == 1 + Extension(l[0]) && PayloadLength(l[0], l[1..]) == length
      && (l[0] < 128 <==> !masked) && l[0] % 128 == Marker(length)
  {
    MaskBit(Marker(length), masked);
    assert Pow256(2) == 65536;
    if length > 65535 {
      BigEndianRoundTrip(length, 8);
    } else if length > 125 {
      BigEndianRoundTrip(length, 2);
    }
  }

  /** The header of a frame, whatever follows it. */
  lemma HeaderParses(first: byte, length: nat, masked: bool, mask: Mask, rest: bytes, client: bool, maxLength: nat,
                     inMessage: bool)
    requires length < Pow256(8)
    requires Complaint(first, LengthData(length, masked)[0], client, inMessage) == 0
    ensures var l := LengthData(length, masked);
      var data := [first] + l + (if masked then mask + rest else rest);
      ParseHeader(data, client, maxLength, inMessage) ==
        if length > maxLength then HeaderFailed(TOO_LONG)
        else Header(first >= 128, first % 16, length, masked, if masked then mask else [0, 0, 0, 0],
                    1 + |l| + if masked then 4 else 0)
  {
    LengthRoundTrip(length, masked);
    var l := LengthData(length, masked);
    var tail := if masked then mask + rest else rest;
    var data := [first] + l + tail;
    var ext := 1 + |l|;
    assert data[2..ext] == l[1..];
    if masked {
      assert data[ext..ext + 4] == mask;
    }
  }

  lemma FrameParses(first: byte, message: bytes, masked: bool, mask: Mask, rest: bytes, client: bool, maxLength: nat,
                    inMessage: bool)
    requires |message| < Pow256(8)
    requires Complaint(first, LengthData(|message|, masked && message != [])[0], client, inMessage) == 0
    ensures ParseFrame(Frame(first, message, masked, mask).wire + rest, client, maxLength, inMessage) ==
      if |message| > maxLength then Failed(TOO_LONG) else Parsed(first >= 128, first % 16, message, rest)
  {
    var m := masked && message != [];
    var body := if m then ApplyMask(message, mask, 0) else message;
    var data := Frame(first, message, masked, mask).wire + rest;
    HeaderParses(first, |message|, m, mask, body + rest, client, maxLength, inMessage);
    FrameFollows(first, message, masked, mask, rest);
    if |message| <= maxLength {
      BodyParses(data, body, rest, client, maxLength, inMessage);
    }
    if m {
      MaskTwice(message, mask, 0);
    }
  }

  /** A frame is its header, with the mask if it has one, and its body. */
  lemma FrameFollows(first: byte, message: bytes, masked: bool, mask: Mask, rest: bytes)
    requires |message| < Pow256(8)
    ensures var m := masked && message != [];
      var head := [first] + LengthData(|message|, m);
      var body := if m then ApplyMask(message, mask, 0) else message;
      var data := Frame(first, message, masked, mask).wire + rest;
      && data == head + (if m then mask + (body + rest) else body + rest)
      && data[|head| + (if m then 4 else 0)..] == body + rest
  {
    var m := masked && message != [];
    BodyFollows([first] + LengthData(|message|, m), if m then mask else [],
                if m then ApplyMask(message, mask, 0) else message, rest);
  }

  lemma BodyFollows(head: bytes, maskData: bytes, body: bytes, rest: bytes)
    ensures var data := head + (maskData + body) + rest;
      && data == head + (maskData + (body + rest)) && data[|head| + |maskData|..] == body + rest
      && (maskData == [] ==> head + body + rest == head + (body + rest) && data == head + body + rest)
  {
    var data := head + (maskData + body) + rest;
    assert data == head + (maskData + (body + rest));
  }

  function Opcode(s: Send): nat {
    match s
    case Data(_, isText, continuation, _, _) => if continuation then 0 else if isText then 1 else 2
    case Control(code, _, _) => code
  }

  function Final(s: Send): bool {
    s.Control? || s.final
  }

  function FirstByte(s: Send): (b: byte)
    requires Opcode(s) < 16
    ensures b % 16 == Opcode(s) && (b >= 128 <==> Final(s)) && Reserved(b) == 0
  {
    Opcode(s) + if Final(s) then 128 else 0
  }

  lemma PackedSend(s: Send, masked: bool, inMessage: bool)
    requires Orderly([s], inMessage)
    ensures |s.payload| < Pow256(8)
    ensures PackSend(s, masked) == Frame(FirstByte(s), s.payload, masked, s.mask)
  {
    Pow256Large();
  }

  /** The only complaint about a frame that `send` makes is an unmasked frame at a server. */
  lemma NoComplaint(s: Send, client: bool, inMessage: bool)
    requires Orderly([s], inMessage) && |s.payload| < Pow256(8)
    ensures Complaint(FirstByte(s), LengthData(|s.payload|, !client && s.payload != [])[0], client, inMessage) ==
        if !client && s.payload == [] then PROTOCOL_ERROR else 0
  {
    LengthRoundTrip(|s.payload|, !client && s.payload != []);
  }

  /** What the receiver reads of one `send` call. */
  lemma SendParses(s: Send, rest: bytes, client: bool, maxLength: nat, inMessage: bool)
    requires Orderly([s], inMessage)
    ensures PackSend(s, !client).Packed?
    ensures ParseFrame(PackSend(s, !client).wire + rest, client, maxLength, inMessage) ==
      if !client && s.payload == [] then Failed(PROTOCOL_ERROR)
      else if |s.payload| > maxLength then Failed(TOO_LONG)
      else Parsed(Final(s), Opcode(s), s.payload, rest)
  {
    PackedSend(s, !client, inMessage);
    if client || s.payload != [] {
      AcceptedSend(s, rest, client, maxLength, inMessage);
    } else {
      var data := PackSend(s, !client).wire + rest;
      assert data[0] == FirstByte(s) && data[1] == 0 && |data| >= 2;
      NoComplaint(s, client, inMessage);
    }
  }

  lemma AcceptedSend(s: Send, rest: bytes, client: bool, maxLength: nat, inMessage: bool)
    requires Orderly([s], inMessage) && |s.payload| < Pow256(8) && (client || s.payload != [])
    ensures ParseFrame(Frame(FirstByte(s), s.payload, !client, s.mask).wire + rest, client, maxLength, inMessage) ==
      if |s.payload| > maxLength then Failed(TOO_LONG) else Parsed(Final(s), Opcode(s), s.payload, rest)
  {
    NoComplaint(s, client, inMessage);
    FrameParses(FirstByte(s), s.payload, !client, s.mask, rest, client, maxLength, inMessage);
  }

  lemma Pow256Large()
    ensures Pow256(8) > 65536
  {
    assert Pow256(3) == 16777216;
    assert Pow256(6) == 281474976710656;
  }

  lemma FirstOrderly(sends: seq<Send>, open: bool)
    requires sends != [] && Orderly(sends, open)
    ensures Orderly([sends[0]], open) && Orderly(sends[1..], Opens(sends[0], open))
  {
  }

  /** What the receiver makes of the calls if it checks them one by one. */
  function Checked(sends: seq<Send>, client: bool, maxLength: nat, partial: Partial): Received {
    if sends == [] then Received([], [], ConnectionClosed)
    else if !client && sends[0].payload == [] then Received([], [], ProtocolFailure(PROTOCOL_ERROR))
    else if |sends[0].payload| > maxLength then Received([], [], ProtocolFailure(TOO_LONG))
    else
      match sends[0]
      case Control(code, payload, _) =>
        if code == CLOSE then Received([], [], CloseEnding(payload))
        else if code == PING then Ponging(payload, Checked(sends[1..], client, maxLength, partial))
        else Checked(sends[1..], client, maxLength, partial)
      case Data(payload, isText, _, final, _) =>
        var p := Extended(partial, if isText then 1 else 2, payload);
        if final then Yielding(Message(p.opcode, p.data), Checked(sends[1..], client, maxLength, NoMessage))
        else Checked(sends[1..], client, maxLength, p)
  }

  lemma {:induction false} ReceiveChecks(sends: seq<Send>, client: bool, maxLength: nat, partial: Partial)
    requires Orderly(sends, partial.Partial?)
    ensures Receive(Wire(sends, !client, partial.Partial?), client, maxLength, partial) ==
      Checked(sends, client, maxLength, partial)
    decreases |sends|
  {
    if sends != [] {
      FirstOrderly(sends, partial.Partial?);
      var rest := Wire(sends[1..], !client, Opens(sends[0], partial.Partial?));
      SendParses(sends[0], rest, client, maxLength, partial.Partial?);
      if |sends[0].payload| <= maxLength && (client || sends[0].payload != []) {
        var wire := Wire(sends, !client, partial.Partial?);
        if sends[0].Data? {
          ReceiveData(wire, sends[0], rest, client, maxLength, partial);
          var next := if sends[0].final then NoMessage else DataExtends(sends[0], partial);
          ReceiveChecks(sends[1..], client, maxLength, next);
        } else {
          ReceiveControl(wire, sends[0], rest, client, maxLength, partial);
          if sends[0].code != CLOSE {
            ReceiveChecks(sends[1..], client, maxLength, partial);
          }
        }
      }
    }
  }

  function DataExtends(s: Send, partial: Partial): Partial
    requires s.Data?
  {
    Extended(partial, if s.isText then 1 else 2, s.payload)
  }

  lemma ReceiveData(data: bytes, s: Send, rest: bytes, client: bool, maxLength: nat, partial: Partial)
    requires s.Data? && s.continuation == partial.Partial?
    requires ParseFrame(data, client, maxLength, partial.Partial?) == Parsed(Final(s), Opcode(s), s.payload, rest)
    ensures var p := DataExtends(s, partial);
      Receive(data, client, maxLength, partial) ==
        if s.final then Yielding(Message(p.opcode, p.data), Receive(rest, client, maxLength, NoMessage))
        else Receive(rest, client, maxLength, p)
  {
  }

  lemma ReceiveControl(data: bytes, s: Send, rest: bytes, client: bool, maxLength: nat, partial: Partial)
    requires s.Control? && s.code in {CLOSE, PING, PONG}
    requires ParseFrame(data, client, maxLength, partial.Partial?) == Parsed(true, s.code, s.payload, rest)
    ensures Receive(data, client, maxLength, partial) ==
      if s.code == CLOSE then Received([], [], CloseEnding(s.payload))
      else if s.code == PING then Ponging(s.payload, Receive(rest, client, maxLength, partial))
      else Receive(rest, client, maxLength, partial)
  {
  }

  lemma Injective(m: Message, p: bytes, r: Received, t: Received)
    ensures Yielding(m, r) == Yielding(m, t) <==> r == t
    ensures Ponging(p, r) == Ponging(p, t) <==> r == t
  {
    assert ([m] + r.messages)[1..] == r.messages && ([m] + t.messages)[1..] == t.messages;
    assert ([p] + r.pongs)[1..] == r.pongs && ([p] + t.pongs)[1..] == t.pongs;
  }

  lemma {:induction false} CheckedIsMeaning(sends: seq<Send>, client: bool, maxLength: nat, partial: Partial)
    ensures Checked(sends, client, maxLength, partial) == Meaning(sends, partial) <==> AllFit(sends, client, maxLength)
    decreases |sends|
  {
    MeaningEndsWell(sends, partial);
    if sends != [] && Fits(sends[0], client, maxLength) {
      var s := sends[0];
      if s.Data? {
        var p := Extended(partial, if s.isText then 1 else 2, s.payload);
        var next := if s.final then NoMessage else p;
        CheckedIsMeaning(sends[1..], client, maxLength, next);
        Injective(Message(p.opcode, p.data), [], Checked(sends[1..], client, maxLength, next), Meaning(sends[1..], next));
      } else if s.code != CLOSE {
        CheckedIsMeaning(sends[1..], client, maxLength, partial);
        Injective(Message(0, []), s.payload, Checked(sends[1..], client, maxLength, partial), Meaning(sends[1..], partial));
      }
    }
  }

  lemma {:induction false} MeaningEndsWell(sends: seq<Send>, partial: Partial)
    ensures !Meaning(sends, partial).ending.ProtocolFailure?
    decreases |sends|
  {
    if sends != [] {
      match sends[0]
      case Control(_, _, _) => MeaningEndsWell(sends[1..], partial);
      case Data(payload, isText, _, final, _) =>
        MeaningEndsWell(sends[1..], if final then NoMessage else Extended(partial, if isText then 1 else 2, payload));
    }
  }

  /** The receiver yields every message whole and in order and answers every ping with an equal pong, for any
      fragments and any control frames between them, exactly if every frame up to the first close fits: it is
      within the limit, not an empty frame sent to a server, and not a close frame with a bad status or text. */
  lemma StreamRoundTrip(sends: seq<Send>, client: bool, maxLength: nat)
    requires Orderly(sends, false)
    ensures Receive(Wire(sends, !client, false), client, maxLength, NoMessage) == Meaning(sends, NoMessage)
      <==> AllFit(sends, client, maxLength)
  {
    ReceiveChecks(sends, client, maxLength, NoMessage);
    CheckedIsMeaning(sends, client, maxLength, NoMessage);
  }
}
