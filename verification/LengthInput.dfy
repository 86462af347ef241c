/** `eventlet.wsgi.Input` reading a request body whose length is known, which is followed on the connection by the next
    request. */
module LengthInput {
  import opened Options
  import opened Bytes
  import opened ChunkedCoding
  import opened WsgiInput

  /** `rfile.read(n)` and `rfile.readline(n)`, to which a negative number is no limit. */
  function TakeAny(data: bytes, n: int, lines: bool): (d: bytes)
    ensures d <= data
  {
    if n >= 0 then Take(data, n, lines) else if lines then data[..LineLength(data)] else data
  }

  /** What `_do_read` asks of `rfile`, with `left` bytes of the body to come. */
  function Asked(left: int, length: Option<int>): int {
    if length.None? || length.value > left then left else length.value
  }

  /** `_do_read` */
  function DoRead(data: bytes, left: int, length: Option<int>, lines: bool): (d: bytes)
    ensures d <= data
  {
    if Asked(left, length) == 0 then [] else TakeAny(data, Asked(left, length), lines)
  }

  /** With no length, or one that is not negative, a call returns the next bytes of the body, as many as asked for, to
      the end of the line, or to the end of the body. */
  lemma ReadsBody(body: bytes, after: bytes, length: Option<int>, lines: bool)
    requires length.Some? ==> length.value >= 0
    ensures DoRead(body + after, |body|, length, lines) ==
      body[..Wanted(body, if length.Some? then Some(length.value) else None, lines)]
  {
    var n := Asked(|body|, length);
    if n > 0 {
      TakeFromChunk(body, after, n, lines);
    }
  }

  /** A call takes nothing of what follows the body if and only if it has no negative length, or nothing follows, or it
      is for a line that ends within the body. */
  lemma StaysWithinBody(body: bytes, after: bytes, length: Option<int>, lines: bool)
    ensures |DoRead(body + after, |body|, length, lines)| <= |body| <==>
      (length.Some? && length.value < 0 ==> after == [] || (lines && LF in body))
  {
    if length.Some? && length.value < 0 {
      LineOfAppend(body, after);
    } else {
      ReadsBody(body, after, length, lines);
    }
  }

  class LengthBody {
    const rfile: Stream
    const contentLength: nat
    var position: int

    constructor (rfile: Stream, contentLength: nat)
      ensures this.rfile == rfile && this.contentLength == contentLength && position == 0
    {
      this.rfile, this.contentLength, position := rfile, contentLength, 0;
    }

    /** `_do_read`; `readline` is with `lines`. */
    method Read(length: Option<int>, lines: bool) returns (d: bytes)
      modifies this, rfile
      ensures d == DoRead(old(rfile.data), contentLength - old(position), length, lines)
      ensures rfile.data == old(rfile.data)[|d|..] && position == old(position) + |d|
    {
      var n := contentLength - position;
      if length.Some? && length.value <= n {
        n := length.value;
      }
      if n == 0 {
        return [];
      }
      if n > 0 {
        d := rfile.TakeUpTo(n, lines);
      } else if lines {
        d := rfile.ReadLine();
      } else {
        d := rfile.TakeUpTo(|rfile.data|, false);
      }
      position := position + |d|;
    }

    /** `discard`: the stream then stands at the first byte of the next request. */
    method Discard(bufferSize: nat, ghost body: bytes, ghost after: bytes)
      requires bufferSize > 0 && rfile.data == body + after && |body| == contentLength - position
      modifies this, rfile
      ensures rfile.data == after && position == contentLength
    {
      ghost var left := body;
      while true
        invariant rfile.data == left + after && |left| == contentLength - position
        decreases |left|
      {
        ReadsBody(left, after, Some(bufferSize), false);
        var d := Read(Some(bufferSize), false);
        assert left == d + left[|d|..];
        left := left[|d|..];
        if d == [] {
          break;
        }
      }
    }
  }
}
