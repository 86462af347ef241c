/** `RFC6455WebSocket` reading frames from a socket that hands out its bytes in pieces of any size. */
module WebSocketReceiver {
  import opened Bytes
  import opened WebSocketFrames

  /** A connected socket: `data` is all that will still arrive before the peer closes. */
  class Socket {
    var data: bytes

    constructor (data: bytes)
      ensures this.data == data
    {
      this.data := data;
    }

    /** At most `n` bytes, and none only at the end; how many is up to the network. */
    method Recv(n: nat) returns (d: bytes)
      requires n > 0
      modifies this
      ensures |d| <= n && (old(data) != [] ==> d != [])
      ensures old(data) == d + data
    {
      if data == [] {
        return [];
      }
      var k: nat :| 1 <= k <= n && k <= |data|;
      d := data[..k];
      data := data[k..];
    }
  }

  function Join(pieces: seq<bytes>): bytes {
    if pieces == [] then [] else Join(pieces[..|pieces| - 1]) + pieces[|pieces| - 1]
  }

  /** `RFC6455WebSocket.Message` */
  class MessageBuffer {
    const opcode: nat
    var pieces: seq<bytes>
    var finished: bool

    constructor (opcode: nat)
      ensures this.opcode == opcode && Value() == []
    {
      this.opcode := opcode;
      pieces, finished := [], false;
    }

    function Value(): bytes
      reads this
    {
      Join(pieces)
    }

    method Push(data: bytes, final: bool)
      modifies this
      ensures finished == final && Value() == old(Value()) + data
    {
      finished := final;
      pieces := pieces + [data];
    }
  }

  datatype GotBytes = GotBytes(data: bytes) | EndOfStream

  datatype GotFrame = GotFrame(message: MessageBuffer) | FrameClosed | FrameFailed(code: nat)

  class WebSocket {
    const client: bool
    const maxFrameLength: nat
    const socket: Socket
    var pongs: seq<bytes>

    constructor (client: bool, maxFrameLength: nat, socket: Socket)
      ensures this.client == client && this.maxFrameLength == maxFrameLength && this.socket == socket && pongs == []
    {
      this.client, this.maxFrameLength, this.socket, pongs := client, maxFrameLength, socket, [];
    }

    method GetBytes(n: nat) returns (r: GotBytes)
      modifies socket
      ensures r == if n <= |old(socket.data)| then GotBytes(old(socket.data)[..n]) else EndOfStream
      ensures r.GotBytes? ==> socket.data == old(socket.data)[n..]
    {
      var data := [];
      while |data| < n
        invariant |data| <= n && old(socket.data) == data + socket.data
      {
        var d := socket.Recv(n - |data|);
        if d == [] {
          return EndOfStream;
        }
        data := data + d;
      }
      return GotBytes(data);
    }

    /** `_recv_frame` up to the payload. */
    method RecvHeader(inMessage: bool) returns (h: Header)
      modifies socket
      ensures h == ParseHeader(old(socket.data), client, maxFrameLength, inMessage)
      ensures h.Header? ==> socket.data == old(socket.data)[h.size..]
    {
      ghost var data := socket.data;
      var first := GetBytes(2);
      if first.EndOfStream? {
        return HeaderClosed;
      }
      var a, b := first.data[0], first.data[1];
      if Complaint(a, b, client, inMessage) != 0 {
        return HeaderFailed(Complaint(a, b, client, inMessage));
      }
      var extension := GetBytes(Extension(b));
      if extension.EndOfStream? {
        return HeaderClosed;
      }
      var ext := 2 + Extension(b);
      assert extension.data == data[2..ext] && socket.data == data[ext..];
      var length := PayloadLength(b, extension.data);
      if length > maxFrameLength {
        return HeaderFailed(TOO_LONG);
      }
      if b < 128 {
        return Header(a >= 128, a % 16, length, false, [0, 0, 0, 0], ext);
      }
      var mask := GetBytes(4);
      if mask.EndOfStream? {
        return HeaderClosed;
      }
      assert mask.data == data[ext..ext + 4] && socket.data == data[ext + 4..];
      return Header(a >= 128, a % 16, length, true, mask.data, ext + 4);
    }

    /** The loop of `_recv_frame` over the payload, which unmasks each piece as it comes. */
    method RecvPayload(h: Header, message: MessageBuffer) returns (complete: bool)
      requires h.Header?
      modifies socket, message
      ensures complete <==> h.length <= |old(socket.data)|
      ensures complete ==> socket.data == old(socket.data)[h.length..] && message.finished == h.final
      ensures complete ==> message.Value() == old(message.Value()) + Unmasked(h, old(socket.data)[..h.length])
    {
      if h.length == 0 {
        message.Push([], h.final);
        return true;
      }
      var received := 0;
      ghost var got: bytes := [];
      while received < h.length
        invariant received == |got| <= h.length && old(socket.data) == got + socket.data
        invariant message.Value() == old(message.Value()) + Unmasked(h, got)
        invariant received > 0 ==> message.finished == h.final
      {
        var d := RecvPiece(h, message, received);
        if d == [] {
          return false;
        }
        Piece(h, got, d);
        PieceAfter(old(message.Value()), h, got, d);
        got, received := got + d, received + |d|;
      }
      return true;
    }

    /** Some more of the payload, of which `received` bytes have come before. */
    method RecvPiece(h: Header, message: MessageBuffer, received: nat) returns (d: bytes)
      requires h.Header? && received < h.length
      modifies socket, message
      ensures |d| <= h.length - received && old(socket.data) == d + socket.data && (d == [] ==> socket.data == [])
      ensures message.Value() == old(message.Value()) + UnmaskedFrom(h, d, received)
      ensures d != [] ==> message.finished == h.final
      ensures d == [] ==> message.finished == old(message.finished)
    {
      d := socket.Recv(h.length - received);
      if d != [] {
        message.Push(UnmaskedFrom(h, d, received), h.final);
      }
    }

    /** `_recv_frame`. A data frame extends the message under way, a control frame starts one of its own. */
    method RecvFrame(message: MessageBuffer?) returns (r: GotFrame)
      modifies socket, message
      ensures Gets(ParseFrame(old(socket.data), client, maxFrameLength, message != null), r)
      ensures r.GotFrame? ==>
        var p := ParseFrame(old(socket.data), client, maxFrameLength, message != null);
        && socket.data == p.rest && r.message.finished == p.final
        && (if message == null || IsControl(p.opcode)
            then fresh(r.message) && r.message.opcode == p.opcode && r.message.Value() == p.payload
            else r.message == message && r.message.Value() == old(message.Value()) + p.payload)
      ensures r.GotFrame? && r.message != message && message != null ==> message.Value() == old(message.Value())
    {
      var h := RecvHeader(message != null);
      if h.HeaderClosed? {
        return FrameClosed;
      }
      if h.HeaderFailed? {
        return FrameFailed(h.code);
      }
      FrameOf(old(socket.data), h, client, maxFrameLength, message != null);
      r := RecvBody(h, message);
    }

    /** The rest of `_recv_frame`, when the header has been read. */
    method RecvBody(h: Header, message: MessageBuffer?) returns (r: GotFrame)
      requires h.Header?
      modifies socket, message
      ensures if h.length <= |old(socket.data)| then r.GotFrame? else r == FrameClosed
      ensures r.GotFrame? ==> socket.data == old(socket.data)[h.length..] && r.message.finished == h.final
      ensures r.GotFrame? ==> var payload := Unmasked(h, old(socket.data)[..h.length]);
        if message == null || IsControl(h.opcode)
        then fresh(r.message) && r.message.opcode == h.opcode && r.message.Value() == payload
        else r.message == message && r.message.Value() == old(message.Value()) + payload
      ensures r.GotFrame? && r.message != message && message != null ==> message.Value() == old(message.Value())
    {
      var target: MessageBuffer;
      if message == null || IsControl(h.opcode) {
        target := new MessageBuffer(h.opcode);
        assert forall payload :: target.Value() + payload == payload;
      } else {
        target := message;
      }
      var complete := RecvPayload(h, target);
      return if complete then GotFrame(target) else FrameClosed;
    }

    /** `_handle_control_frame` for a close frame. */
    method CloseReceivedWith(data: bytes) returns (ending: Ending)
      ensures ending == CloseEnding(data)
    {
      var status;
      if data == [] {
        status := 1000;
      } else if |data| > 1 {
        status := FromBigEndian(data[..2]);
        if status == 0 || !IsValidStatus(status) {
          return ProtocolFailure(PROTOCOL_ERROR);
        }
        if !IsUtf8(data[2..]) {
          return ProtocolFailure(PROTOCOL_ERROR);
        }
      } else {
        status := 1002;
      }
      return CloseReceived(status);
    }

    /** One turn of the loop in `_iter_frames`: the message then under way, and what was yielded. */
    method NextFrame(fragmented: MessageBuffer?) returns (next: MessageBuffer?, yielded: seq<Message>, end: End)
      requires fragmented != null ==> !IsControl(fragmented.opcode)
      modifies this`pongs, socket, fragmented
      ensures next == null || ((next == fragmented || fresh(next)) && !IsControl(next.opcode))
      ensures old(pongs) <= pongs
      ensures Receive(old(socket.data), client, maxFrameLength, old(PartialOf(fragmented))) ==
        if end.Ended? then Received([], [], end.ending)
        else After(yielded, pongs[|old(pongs)|..], Receive(socket.data, client, maxFrameLength, PartialOf(next)))
      ensures end.Ended? ==> yielded == [] && pongs == old(pongs)
      ensures !end.Ended? ==> |socket.data| < |old(socket.data)|
    {
      next, yielded := fragmented, [];
      ghost var partial := PartialOf(fragmented);
      ghost var p := ParseFrame(socket.data, client, maxFrameLength, partial.Partial?);
      ReceiveOne(socket.data, client, maxFrameLength, PartialOf(fragmented));
      var r := RecvFrame(fragmented);
      if r.FrameClosed? {
        return next, [], Ended(ConnectionClosed);
      }
      if r.FrameFailed? {
        return next, [], Ended(ProtocolFailure(r.code));
      }
      var message := r.message;
      if IsControl(message.opcode) {
        if message.opcode == CLOSE {
          var ending := CloseReceivedWith(message.Value());
          return next, [], Ended(ending);
        } else if message.opcode == PING {
          pongs := pongs + [message.Value()];
        }
      } else {
        assert fragmented == null || message == fragmented;
        next := message;
        if message.finished {
          yielded := [Message(message.opcode, message.Value())];
          next := null;
        }
      }
      assert PartialOf(next) == Next(p, partial);
      assert yielded == Yields(p, partial);
      assert pongs[|old(pongs)|..] == Pongs(p);
      return next, yielded, Running;
    }

    /** `_iter_frames`, run to its end; `messages` are what it yields. */
    method IterFrames() returns (messages: seq<Message>, ending: Ending)
      modifies this`pongs, socket
      ensures old(pongs) <= pongs
      ensures Received(messages, pongs[|old(pongs)|..], ending) ==
        Receive(old(socket.data), client, maxFrameLength, NoMessage)
    {
      messages := [];
      ghost var total := Receive(socket.data, client, maxFrameLength, NoMessage);
      ghost var start := |pongs|;
      var fragmented: MessageBuffer? := null;
      while true
        invariant fragmented == null || (fresh(fragmented) && !IsControl(fragmented.opcode))
        invariant start <= |pongs| && old(pongs) == pongs[..start]
        invariant total ==
          After(messages, pongs[start..], Receive(socket.data, client, maxFrameLength, PartialOf(fragmented)))
        decreases |socket.data|
      {
        ghost var before := pongs;
        var next, yielded, end := NextFrame(fragmented);
        if end.Ended? {
          return messages, end.ending;
        }
        AfterMore(messages, before, yielded, pongs, start, Receive(socket.data, client, maxFrameLength, PartialOf(next)));
        messages, fragmented := messages + yielded, next;
      }
    }
  }

  /** A whole connection: what one side sends, read by the other from a socket that splits it anywhere, means to the
      reader what it meant to the sender, exactly if all frames fit. */
  method Exchange(sends: seq<Send>, client: bool, maxFrameLength: nat) returns (r: Received)
    requires Orderly(sends, false)
    ensures r == Meaning(sends, NoMessage) <==> AllFit(sends, client, maxFrameLength)
  {
    StreamRoundTrip(sends, client, maxFrameLength);
    var socket := new Socket(Wire(sends, !client, false));
    var ws := new WebSocket(client, maxFrameLength, socket);
    var messages, ending := ws.IterFrames();
    r := Received(messages, ws.pongs, ending);
  }

  datatype End = Running | Ended(ending: Ending)

  /** The frame that begins with the header `h`. */
  lemma FrameOf(data: bytes, h: Header, client: bool, maxLength: nat, inMessage: bool)
    requires h == ParseHeader(data, client, maxLength, inMessage) && h.Header?
    ensures var after := data[h.size..];
      ParseFrame(data, client, maxLength, inMessage) ==
        if |after| < h.length then Closed
        else Parsed(h.final, h.opcode, Unmasked(h, after[..h.length]), after[h.length..])
  {
    var after := data[h.size..];
    if h.length <= |after| {
      assert after == after[..h.length] + after[h.length..];
      BodyParses(data, after[..h.length], after[h.length..], client, maxLength, inMessage);
    }
  }

  lemma AfterMore(messages: seq<Message>, before: seq<bytes>, yielded: seq<Message>, pongs: seq<bytes>, start: nat,
                  r: Received)
    requires start <= |before| && before <= pongs
    ensures After(messages, before[start..], After(yielded, pongs[|before|..], r)) ==
      After(messages + yielded, pongs[start..], r)
  {
    assert pongs[start..] == before[start..] + pongs[|before|..];
    assert messages + (yielded + r.messages) == messages + yielded + r.messages;
    assert before[start..] + (pongs[|before|..] + r.pongs) == pongs[start..] + r.pongs;
  }

  /** The outcome of `_recv_frame` against that of reading the whole rest of the stream. */
  predicate Gets(p: Parsed, r: GotFrame) {
    match p
    case Parsed(_, _, _, _) => r.GotFrame?
    case Closed => r.FrameClosed?
    case Failed(code) => r == FrameFailed(code)
  }

  function PartialOf(m: MessageBuffer?): Partial
    reads m
  {
    if m == null then NoMessage else Partial(m.opcode, m.Value())
  }

  function UnmaskedFrom(h: Header, d: bytes, offset: nat): bytes
    requires h.Header?
  {
    if h.masked then ApplyMask(d, h.mask, offset) else d
  }

  lemma Piece(h: Header, got: bytes, d: bytes)
    requires h.Header?
    ensures Unmasked(h, got + d) == Unmasked(h, got) + UnmaskedFrom(h, d, |got|)
  {
    MaskPieces(got, d, h.mask, 0);
  }

  lemma PieceAfter(value: bytes, h: Header, got: bytes, d: bytes)
    requires h.Header?
    ensures value + Unmasked(h, got) + UnmaskedFrom(h, d, |got|) == value + (Unmasked(h, got) + UnmaskedFrom(h, d, |got|))
  {
  }
}
