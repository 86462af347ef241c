/** The two writers of chunked bodies, the server's response and the client's request, against the opposite reader. */
module ChunkedWriters {
  import opened Options
  import opened Bytes
  import opened ChunkedCoding
  import HttpResponse
  import WsgiInput

  /** What `len` of a byte string stays below. */
  const MAXSIZE := 0x8000_0000_0000_0000

  function Concat(parts: seq<bytes>): bytes {
    if parts == [] then [] else parts[0] + Concat(parts[1..])
  }

  /** A byte string as a chunk; the empty one makes the last chunk and ends the body. */
  function Piece(data: bytes, upper: bool): bytes {
    Hex(|data|, upper) + CRLF + data + CRLF
  }

  function Pieces(parts: seq<bytes>, upper: bool): bytes {
    if parts == [] then [] else Piece(parts[0], upper) + Pieces(parts[1..], upper)
  }

  /** The body whose chunks are `parts`, with no extensions or trailers. */
  function Chunks(parts: seq<bytes>, upper: bool): (cs: seq<Chunk>)
    ensures |cs| == |parts|
    ensures forall i :: 0 <= i < |parts| ==> cs[i] == Chunk(Hex(|parts[i]|, upper) + CRLF, parts[i])
  {
    seq(|parts|, i requires 0 <= i < |parts| => Chunk(Hex(|parts[i]|, upper) + CRLF, parts[i]))
  }

  function BodyOf(parts: seq<bytes>, upper: bool): Body {
    Body(Chunks(parts, upper), Hex(0, upper) + CRLF, [])
  }

  predicate NoneEmpty(parts: seq<bytes>) {
    forall i :: 0 <= i < |parts| ==> parts[i] != []
  }

  // --- Lists of byte strings ---

  lemma {:induction false} ConcatAppend(parts: seq<bytes>, more: seq<bytes>)
    ensures Concat(parts + more) == Concat(parts) + Concat(more)
  {
    if parts == [] {
      assert parts + more == more;
    } else {
      assert (parts + more)[1..] == parts[1..] + more;
      ConcatAppend(parts[1..], more);
      assert parts[0] + (Concat(parts[1..]) + Concat(more)) == parts[0] + Concat(parts[1..]) + Concat(more);
    }
  }

  lemma ConcatOne(part: bytes)
    ensures Concat([part]) == part
  {
    assert part + [] == part;
  }

  lemma {:induction false} PiecesAppend(parts: seq<bytes>, data: bytes, upper: bool)
    ensures Pieces(parts + [data], upper) == Pieces(parts, upper) + Piece(data, upper)
  {
    if parts == [] {
      assert parts + [data] == [data];
    } else {
      assert (parts + [data])[1..] == parts[1..] + [data];
      PiecesAppend(parts[1..], data, upper);
      Regroup(Piece(parts[0], upper), Pieces(parts[1..], upper), Piece(data, upper));
    }
  }

  lemma Regroup(a: bytes, b: bytes, c: bytes)
    ensures a + b + c == a + (b + c)
  {
  }

  lemma {:induction false} PartFits(parts: seq<bytes>, i: nat)
    requires i < |parts|
    ensures |parts[i]| <= |Concat(parts)|
  {
    if i > 0 {
      PartFits(parts[1..], i - 1);
    }
  }

  // --- Both writers produce well-formed bodies ---

  function Power16(k: nat): nat {
    if k == 0 then 1 else 16 * Power16(k - 1)
  }

  lemma {:induction false} HexLength(n: nat, k: nat, upper: bool)
    requires n < Power16(k) && k > 0
    ensures |Hex(n, upper)| <= k
  {
    if n >= 16 {
      HexLength(n / 16, k - 1, upper);
    }
  }

  lemma SizeFits(n: nat, upper: bool)
    requires n < MAXSIZE
    ensures |Hex(n, upper) + CRLF| <= HttpResponse.MAXLINE
  {
    assert Power16(4) == 0x1_0000;
    assert Power16(8) == 0x1_0000 * Power16(4);
    assert Power16(12) == 0x1_0000 * Power16(8);
    assert Power16(16) == 0x1_0000 * Power16(12);
    HexLength(n, 16, upper);
  }

  lemma BodyIsGood(parts: seq<bytes>, upper: bool)
    requires NoneEmpty(parts)
    ensures WellFormed(BodyOf(parts, upper))
    ensures |Concat(parts)| < MAXSIZE ==> HttpResponse.ShortLines(BodyOf(parts, upper))
  {
    var b := BodyOf(parts, upper);
    SizeLine(0, upper);
    SizeFits(0, upper);
    forall i | 0 <= i < |parts|
      ensures GoodChunk(b.chunks[i])
      ensures |Concat(parts)| < MAXSIZE ==> |b.chunks[i].head| <= HttpResponse.MAXLINE
    {
      SizeLine(|parts[i]|, upper);
      PartFits(parts, i);
      if |Concat(parts)| < MAXSIZE {
        SizeFits(|parts[i]|, upper);
      }
    }
  }

  lemma ChunksRest(parts: seq<bytes>, upper: bool)
    requires parts != []
    ensures Chunks(parts, upper)[1..] == Chunks(parts[1..], upper)
  {
  }

  lemma {:induction false} DecodedChunks(parts: seq<bytes>, upper: bool)
    ensures Decoded(Chunks(parts, upper)) == Concat(parts)
  {
    if parts != [] {
      ChunksRest(parts, upper);
      DecodedChunks(parts[1..], upper);
    }
  }

  lemma PieceThen(data: bytes, upper: bool, rest: bytes)
    ensures Piece(data, upper) + rest == Hex(|data|, upper) + CRLF + (data + (CRLF + rest))
  {
    var head := Hex(|data|, upper) + CRLF;
    Regroup(head + data, CRLF, rest);
    Regroup(head, data, CRLF + rest);
  }

  /** The chunks written one after another, and an empty one last, are the whole body. */
  lemma {:induction false} PiecesEncode(parts: seq<bytes>, upper: bool, after: bytes)
    ensures Pieces(parts, upper) + (Piece([], upper) + after) == Encode(BodyOf(parts, upper), after)
  {
    if parts == [] {
      PieceThen([], upper, after);
      assert [] + (CRLF + after) == CRLF + after;
    } else {
      ChunksRest(parts, upper);
      PiecesEncode(parts[1..], upper, after);
      Regroup(Piece(parts[0], upper), Pieces(parts[1..], upper), Piece([], upper) + after);
      PieceThen(parts[0], upper, Encode(BodyOf(parts[1..], upper), after));
    }
  }

  // --- The batches of the server ---

  /** The writes made before `items` has been exhausted, when `pending` is waiting to be written. */
  function Full(items: seq<bytes>, minimum: int, pending: bytes): seq<bytes> {
    if items == [] then []
    else if items[0] == [] then Full(items[1..], minimum, pending)
    else
      var p := pending + items[0];
      if |p| >= minimum then [p] + Full(items[1..], minimum, []) else Full(items[1..], minimum, p)
  }

  /** What waits to be written when `items` has been exhausted. */
  function Left(items: seq<bytes>, minimum: int, pending: bytes): bytes {
    if items == [] then pending
    else if items[0] == [] then Left(items[1..], minimum, pending)
    else
      var p := pending + items[0];
      Left(items[1..], minimum, if |p| >= minimum then [] else p)
  }

  function Batches(items: seq<bytes>, minimum: int): seq<bytes> {
    var left := Left(items, minimum, []);
    Full(items, minimum, []) + if left == [] then [] else [left]
  }

  /** Batching keeps the bytes and their order. */
  lemma {:induction false} FullKeeps(items: seq<bytes>, minimum: int, pending: bytes)
    ensures Concat(Full(items, minimum, pending)) + Left(items, minimum, pending) == pending + Concat(items)
  {
    if items == [] {
      assert [] + pending == pending + [];
    } else {
      var p := pending + items[0];
      Regroup(pending, items[0], Concat(items[1..]));
      if items[0] == [] {
        FullKeeps(items[1..], minimum, pending);
        assert pending + [] == pending;
      } else if |p| >= minimum {
        FullKeeps(items[1..], minimum, []);
        OneMoreWrite(p, Full(items[1..], minimum, []), Left(items[1..], minimum, []), Concat(items[1..]));
      } else {
        FullKeeps(items[1..], minimum, p);
      }
    }
  }

  lemma OneMoreWrite(p: bytes, writes: seq<bytes>, left: bytes, rest: bytes)
    requires Concat(writes) + left == [] + rest
    ensures Concat([p] + writes) + left == p + rest
  {
    assert ([p] + writes)[1..] == writes && [] + rest == rest;
    Regroup(p, Concat(writes), left);
  }

  /** Every write but the last has the minimum size, and what is left over does not. */
  lemma {:induction false} FullIsFull(items: seq<bytes>, minimum: int, pending: bytes)
    ensures forall b :: b in Full(items, minimum, pending) ==> b != [] && |b| >= minimum
    ensures |pending| < minimum || pending == [] ==>
      |Left(items, minimum, pending)| < minimum || Left(items, minimum, pending) == []
  {
    if items != [] {
      var p := pending + items[0];
      if items[0] == [] {
        FullIsFull(items[1..], minimum, pending);
      } else {
        FullIsFull(items[1..], minimum, if |p| >= minimum then [] else p);
      }
    }
  }

  /** The writes of the loop over `items`, and what waits to be written after it. */
  datatype Outcome = Outcome(written: seq<bytes>, left: bytes)

  /** What it comes to when `written` has been written, `pending` waits, and `items` are to come. */
  function Coming(written: seq<bytes>, items: seq<bytes>, minimum: int, pending: bytes): Outcome {
    Outcome(written + Full(items, minimum, pending), Left(items, minimum, pending))
  }

  /** The loop over `items`, one item on. */
  lemma BatchingTurns(written: seq<bytes>, items: seq<bytes>, i: nat, minimum: int, pending: bytes)
    requires i < |items|
    ensures var p, rest := pending + items[i], items[i + 1..];
      Coming(written, items[i..], minimum, pending) ==
        if items[i] == [] then Coming(written, rest, minimum, pending)
        else if |p| >= minimum then Coming(written + [p], rest, minimum, [])
        else Coming(written, rest, minimum, p)
  {
    assert items[i..][0] == items[i] && items[i..][1..] == items[i + 1..];
    var p := pending + items[i];
    assert written + ([p] + Full(items[i + 1..], minimum, [])) == written + [p] + Full(items[i + 1..], minimum, []);
  }

  lemma NothingComes(written: seq<bytes>, items: seq<bytes>, minimum: int, pending: bytes)
    ensures Coming(written, items[|items|..], minimum, pending) == Outcome(written, pending)
  {
    assert items[|items|..] == [] && written + [] == written;
  }

  lemma BatchesKeep(items: seq<bytes>, minimum: int)
    ensures Concat(Batches(items, minimum)) == Concat(items) && NoneEmpty(Batches(items, minimum))
    ensures forall i :: 0 <= i < |Batches(items, minimum)| - 1 ==> |Batches(items, minimum)[i]| >= minimum
  {
    var left := Left(items, minimum, []);
    FullKeeps(items, minimum, []);
    FullIsFull(items, minimum, []);
    ConcatAppend(Full(items, minimum, []), if left == [] then [] else [left]);
    ConcatOne(left);
    forall i | 0 <= i < |Batches(items, minimum)|
      ensures Batches(items, minimum)[i] != []
      ensures i < |Batches(items, minimum)| - 1 ==> |Batches(items, minimum)[i]| >= minimum
    {
      assert i < |Full(items, minimum, [])| ==> Batches(items, minimum)[i] in Full(items, minimum, []);
    }
  }

  // --- The opposite readers ---

  /** However the client reads a response of the server, it gets the application's bytes in order, exactly as many as
      it asks for or all of them. If one of its reads asks for more than there is, or comes when nothing remains, and
      only then, the response is closed, at the first byte after the body. */
  lemma ResponseReadBack(items: seq<bytes>, minimum: int, after: bytes, amounts: seq<Option<nat>>)
    requires |Concat(items)| < MAXSIZE
    ensures var g := HttpResponse.ReadAll(ResponseTo(items, minimum, after), amounts);
      && g.Got? && g.result == Concat(items)[..HttpResponse.Total(|Concat(items)|, amounts)]
      && (g.resp.open <==> !HttpResponse.Ends(|Concat(items)|, amounts))
      && (!g.resp.open ==> g.resp.data == after)
  {
    var a := ResponseStands(items, minimum, after);
    var _ := HttpResponse.ReadsInTurn(ResponseTo(items, minimum, after), a, amounts);
  }

  lemma ResponseStands(items: seq<bytes>, minimum: int, after: bytes) returns (a: Ahead)
    requires |Concat(items)| < MAXSIZE
    ensures HttpResponse.Stands(ResponseTo(items, minimum, after), a)
    ensures Remaining(a) == Concat(items) && a.after == after
  {
    var parts := Batches(items, minimum);
    a := Ahead([], BodyOf(parts, false), after);
    BatchesKeep(items, minimum);
    BodyIsGood(parts, false);
    DecodedChunks(parts, false);
    assert Remaining(a) == Concat(items);
  }

  /** The connection when the client has read the headers. */
  function ResponseTo(items: seq<bytes>, minimum: int, after: bytes): HttpResponse.Resp {
    HttpResponse.Resp(Encode(BodyOf(Batches(items, minimum), false), after), None, true)
  }

  /** So reads that ask for more than the application gave return all of it. */
  lemma ResponseReadWhole(items: seq<bytes>, minimum: int, after: bytes, amounts: seq<Option<nat>>)
    requires |Concat(items)| < MAXSIZE
    requires HttpResponse.AskedFor(amounts).None? || HttpResponse.AskedFor(amounts).value > |Concat(items)|
    ensures var g := HttpResponse.ReadAll(ResponseTo(items, minimum, after), amounts);
      g.Got? && g.result == Concat(items) && g.resp.data == after && !g.resp.open
  {
    ResponseReadBack(items, minimum, after, amounts);
    HttpResponse.AsksForMore(|Concat(items)|, amounts);
    assert Concat(items)[..|Concat(items)|] == Concat(items);
  }

  /** A single read without limit does, and leaves nothing of the body behind. */
  lemma ResponseReadAtOnce(items: seq<bytes>, minimum: int, after: bytes)
    requires |Concat(items)| < MAXSIZE
    ensures HttpResponse.Read(ResponseTo(items, minimum, after), None) ==
      HttpResponse.Got(Concat(items), HttpResponse.Resp(after, None, false))
  {
    var s := ResponseTo(items, minimum, after);
    var a := ResponseStands(items, minimum, after);
    var _ := HttpResponse.ReadTook(s, a, None);
    HttpResponse.ClosedHasNoSize(s, None);
  }

  /** However the server reads a request of the client, it gets the bytes of the message in order, exactly as many as it
      wants or all of them. Exactly if one of its calls wants more than there is, the stream comes to the end of the
      body, and then it stands at the first byte after it. */
  lemma RequestReadBack(chunks: seq<bytes>, after: bytes, calls: seq<WsgiInput.Call>)
    ensures var o := WsgiInput.ReadAll(RequestOf(chunks, after), calls);
      && o.Read? && o.result == Concat(chunks)[..WsgiInput.Total(Concat(chunks), calls)]
      && (o.state.chunkLength == 0 <==> WsgiInput.Ends(Concat(chunks), calls))
      && (o.state.chunkLength == 0 ==> o.state.data == after)
  {
    var parts := NonEmpty(chunks);
    var a := Ahead([], BodyOf(parts, true), after);
    NonEmptyKeeps(chunks);
    BodyIsGood(parts, true);
    DecodedChunks(parts, true);
    assert Remaining(a) == Concat(chunks);
    var _ := WsgiInput.ReadsInTurn(RequestOf(chunks, after), a, calls);
  }

  /** `Input` when the server has read the headers. */
  function RequestOf(chunks: seq<bytes>, after: bytes): WsgiInput.In {
    WsgiInput.In(Encode(BodyOf(NonEmpty(chunks), true), after), WsgiInput.FRESH, 0)
  }

  /** So plain reads that ask for more than the message holds return all of it. */
  lemma RequestReadWhole(chunks: seq<bytes>, after: bytes, calls: seq<WsgiInput.Call>)
    requires forall i :: 0 <= i < |calls| ==> !calls[i].lines
    requires WsgiInput.AskedFor(calls).None? || WsgiInput.AskedFor(calls).value > |Concat(chunks)|
    ensures var o := WsgiInput.ReadAll(RequestOf(chunks, after), calls);
      o.Read? && o.result == Concat(chunks) && o.state.data == after
  {
    RequestReadBack(chunks, after, calls);
    WsgiInput.AsksForMore(Concat(chunks), calls);
    assert Concat(chunks)[..|Concat(chunks)|] == Concat(chunks);
  }

  /** When the application fails after writes of `parts`, the client does not take them for a whole body. */
  lemma {:induction false} BrokenOffIsIncomplete(parts: seq<bytes>, started: bool)
    requires NoneEmpty(parts) && |Concat(parts)| < MAXSIZE
    ensures var s := if started then HttpResponse.Resp(CRLF + Pieces(parts, false), Some(0), true)
                     else HttpResponse.Resp(Pieces(parts, false), None, true);
      HttpResponse.ReadLoop(s, None) == HttpResponse.Incomplete(Concat(parts))
    decreases |parts|
  {
    var s := if started then HttpResponse.Resp(CRLF + Pieces(parts, false), Some(0), true)
             else HttpResponse.Resp(Pieces(parts, false), None, true);
    var data := Pieces(parts, false);
    assert HttpResponse.GetChunkLeft(s) == HttpResponse.NextSize(data) by {
      assert (CRLF + data)[2..] == data;
    }
    if parts != [] {
      NextPart(parts);
      HttpResponse.LoopTurns(s, None);
      BrokenOffIsIncomplete(parts[1..], true);
      var left := |parts[0]|;
      assert (parts[0] + (CRLF + Pieces(parts[1..], false)))[..left] == parts[0];
      assert (parts[0] + (CRLF + Pieces(parts[1..], false)))[left..] == CRLF + Pieces(parts[1..], false);
    }
  }

  lemma NextPart(parts: seq<bytes>)
    requires parts != [] && NoneEmpty(parts) && |Concat(parts)| < MAXSIZE
    ensures HttpResponse.NextSize(Pieces(parts, false)) == HttpResponse.Got([],
      HttpResponse.Resp(parts[0] + (CRLF + Pieces(parts[1..], false)), Some(|parts[0]|), true))
  {
    var rest := parts[0] + (CRLF + Pieces(parts[1..], false));
    PieceThen(parts[0], false, Pieces(parts[1..], false));
    PartFits(parts, 0);
    SizeFits(|parts[0]|, false);
    SizeLine(|parts[0]|, false);
    LineFirst(Hex(|parts[0]|, false) + CRLF, rest);
  }

  // --- The server ---

  /** Writes, or sent chunks, one after another on the wire. */
  function Framed(parts: seq<bytes>, chunked: bool, upper: bool): bytes {
    if chunked then Pieces(parts, upper) else Concat(parts)
  }

  function OnWire(data: bytes, chunked: bool, upper: bool): bytes {
    if chunked then Piece(data, upper) else data
  }

  /** The whole of a message's content on the wire. */
  function Whole(parts: seq<bytes>, chunked: bool, upper: bool): bytes {
    if chunked then Encode(BodyOf(parts, upper), []) else Concat(parts)
  }

  lemma FramedMore(parts: seq<bytes>, data: bytes, chunked: bool, upper: bool)
    ensures Framed(parts + [data], chunked, upper) == Framed(parts, chunked, upper) + OnWire(data, chunked, upper)
  {
    PiecesAppend(parts, data, upper);
    AppendToWrite(parts, data);
  }

  lemma FramedWhole(parts: seq<bytes>, chunked: bool, upper: bool)
    ensures Whole(parts, chunked, upper) ==
      if chunked then Framed(parts, chunked, upper) + OnWire([], chunked, upper) else Framed(parts, chunked, upper)
  {
    PiecesEncode(parts, upper, []);
    assert Piece([], upper) + [] == Piece([], upper);
  }

  lemma AppendToWrite(towrite: seq<bytes>, item: bytes)
    ensures Concat(towrite + [item]) == Concat(towrite) + item
  {
    ConcatAppend(towrite, [item]);
    ConcatOne(item);
  }

  /** What the calls of `write` with `written` send. */
  function Written(head: bytes, written: seq<bytes>, chunked: bool): bytes {
    if written == [] then [] else head + Framed(written, chunked, false)
  }

  lemma WrittenMore(head: bytes, written: seq<bytes>, data: bytes, chunked: bool)
    ensures Written(head, written + [data], chunked) ==
      Written(head, written, chunked) + ((if written == [] then head else []) + OnWire(data, chunked, false))
  {
    FramedMore(written, data, chunked, false);
    Regroup(head, Framed(written, chunked, false), OnWire(data, chunked, false));
    if written == [] {
      assert Framed(written, chunked, false) + OnWire(data, chunked, false) == OnWire(data, chunked, false);
      assert [] + (head + OnWire(data, chunked, false)) == head + OnWire(data, chunked, false);
    }
  }

  /** What `handle_one_response` and its `write` share; `head` is the status line with the headers, and
      `wantsChunked` says that a first `write` turns to the chunked coding. */
  class Response {
    const head: bytes
    const wantsChunked: bool
    const errorPage: bytes
    var headersSent: bool
    var useChunked: bool
    var sent: bytes

    constructor (head: bytes, wantsChunked: bool, errorPage: bytes)
      ensures this.head == head && this.wantsChunked == wantsChunked && this.errorPage == errorPage
      ensures Wrote([])
    {
      this.head, this.wantsChunked, this.errorPage := head, wantsChunked, errorPage;
      headersSent, useChunked, sent := false, false, [];
    }

    /** The calls of `write` so far were with `written`. */
    predicate Wrote(written: seq<bytes>)
      reads this
    {
      && (headersSent <==> written != []) && (useChunked <==> headersSent && wantsChunked)
      && sent == Written(head, written, wantsChunked)
    }

    /** `write` */
    method Write(data: bytes, ghost written: seq<bytes>)
      requires Wrote(written)
      modifies this
      ensures Wrote(written + [data])
    {
      var towrite := [];
      if !headersSent {
        useChunked := wantsChunked;
        towrite := head;
      }
      towrite := towrite + if useChunked then Piece(data, false) else data;
      WrittenMore(head, written, data, wantsChunked);
      headersSent, sent := true, sent + towrite;
    }

    /** The batching loop, for an application that yields `items` and then ends, or raises if `fails`. */
    method Respond(items: seq<bytes>, minimum: int, fails: bool)
      requires Wrote([])
      modifies this
      ensures !fails ==> sent == head + Whole(Batches(items, minimum), wantsChunked, false)
      ensures var full := Full(items, minimum, []);
        fails ==> sent == if full == [] then errorPage else head + Framed(full, wantsChunked, false)
    {
      var towrite, justWritten;
      ghost var written;
      towrite, justWritten, written := WriteFull(items, minimum);
      if !fails {
        Finish(towrite, justWritten, written, items, minimum);
      } else if !headersSent {
        sent := errorPage;
      }
    }

    /** The loop itself. */
    method WriteFull(items: seq<bytes>, minimum: int)
      returns (towrite: seq<bytes>, justWritten: nat, ghost written: seq<bytes>)
      requires Wrote([])
      modifies this
      ensures Wrote(written) && NoneEmpty(towrite) && (justWritten > 0 <==> written != [])
      ensures written == Full(items, minimum, []) && Concat(towrite) == Left(items, minimum, [])
    {
      towrite, justWritten, written := [], 0, [];
      ghost var all := Outcome(Full(items, minimum, []), Left(items, minimum, []));
      assert items[0..] == items && [] + Full(items, minimum, []) == Full(items, minimum, []);
      for i := 0 to |items|
        invariant Wrote(written) && NoneEmpty(towrite)
        invariant justWritten > 0 <==> written != []
        invariant Coming(written, items[i..], minimum, Concat(towrite)) == all
      {
        towrite, justWritten, written := WriteItem(items, i, minimum, towrite, justWritten, written);
      }
      NothingComes(written, items, minimum, Concat(towrite));
    }

    /** One turn of the loop. */
    method WriteItem(items: seq<bytes>, i: nat, minimum: int, towrite: seq<bytes>, justWritten: nat,
                     ghost written: seq<bytes>)
      returns (towrite': seq<bytes>, justWritten': nat, ghost written': seq<bytes>)
      requires i < |items| && Wrote(written) && NoneEmpty(towrite) && (justWritten > 0 <==> written != [])
      modifies this
      ensures Wrote(written') && NoneEmpty(towrite') && (justWritten' > 0 <==> written' != [])
      ensures Coming(written', items[i + 1..], minimum, Concat(towrite')) ==
        Coming(written, items[i..], minimum, Concat(towrite))
    {
      BatchingTurns(written, items, i, minimum, Concat(towrite));
      towrite', justWritten', written' := towrite, justWritten, written;
      if items[i] != [] {
        towrite', justWritten', written' := Batch(towrite, items[i], minimum, justWritten, written);
      }
    }

    method Batch(towrite: seq<bytes>, item: bytes, minimum: int, justWritten: nat, ghost written: seq<bytes>)
      returns (towrite': seq<bytes>, justWritten': nat, ghost written': seq<bytes>)
      requires Wrote(written) && item != [] && NoneEmpty(towrite) && (justWritten > 0 <==> written != [])
      modifies this
      ensures Wrote(written') && NoneEmpty(towrite') && (justWritten' > 0 <==> written' != [])
      ensures var p := Concat(towrite) + item;
        && Concat(towrite') == (if |p| >= minimum then [] else p)
        && written' == (if |p| >= minimum then written + [p] else written)
    {
      AppendToWrite(towrite, item);
      towrite', justWritten', written' := towrite + [item], justWritten, written;
      if |Concat(towrite')| >= minimum {
        Write(Concat(towrite'), written);
        towrite', justWritten', written' := [], |Concat(towrite')|, written + [Concat(towrite')];
      }
    }

    /** The end of the loop. */
    method Finish(towrite: seq<bytes>, justWritten: nat, ghost written: seq<bytes>, ghost items: seq<bytes>,
                  ghost minimum: int)
      requires Wrote(written) && written == Full(items, minimum, []) && Concat(towrite) == Left(items, minimum, [])
      requires NoneEmpty(towrite) && (justWritten > 0 <==> written != [])
      modifies this
      ensures sent == head + Whole(Batches(items, minimum), wantsChunked, false)
    {
      ghost var all := Batches(items, minimum);
      var last := justWritten;
      if towrite != [] {
        last := |Concat(towrite)|;
        Write(Concat(towrite), written);
      }
      assert written + [] == written;
      assert Wrote(all);
      FramedWhole(all, wantsChunked, false);
      FramedMore(all, [], wantsChunked, false);
      if !headersSent || (useChunked && last > 0) {
        Write([], all);
      }
    }
  }

  // --- The client ---

  /** The chunks that `_send_output` does not ignore. */
  function NonEmpty(chunks: seq<bytes>): seq<bytes> {
    if chunks == [] then []
    else if chunks[0] == [] then NonEmpty(chunks[1..])
    else [chunks[0]] + NonEmpty(chunks[1..])
  }

  lemma {:induction false} NonEmptyKeeps(chunks: seq<bytes>)
    ensures NoneEmpty(NonEmpty(chunks)) && Concat(NonEmpty(chunks)) == Concat(chunks)
  {
    if chunks != [] {
      NonEmptyKeeps(chunks[1..]);
      if chunks[0] == [] {
        assert [] + Concat(chunks[1..]) == Concat(chunks[1..]);
      } else {
        assert ([chunks[0]] + NonEmpty(chunks[1..]))[1..] == NonEmpty(chunks[1..]);
      }
    }
  }

  lemma {:induction false} NonEmptyAppend(chunks: seq<bytes>, chunk: bytes)
    ensures NonEmpty(chunks + [chunk]) == NonEmpty(chunks) + if chunk == [] then [] else [chunk]
  {
    if chunks == [] {
      assert chunks + [chunk] == [chunk];
    } else {
      assert (chunks + [chunk])[1..] == chunks[1..] + [chunk];
      NonEmptyAppend(chunks[1..], chunk);
    }
  }

  class Connection {
    var sent: bytes

    constructor ()
      ensures sent == []
    {
      sent := [];
    }

    method Send(data: bytes)
      modifies this
      ensures sent == old(sent) + data
    {
      sent := sent + data;
    }

    /** `_send_output` with an iterable body; `chunked` means `encode_chunked` and HTTP/1.1. */
    method SendOutput(msg: bytes, chunks: seq<bytes>, chunked: bool)
      modifies this
      ensures sent == old(sent) + msg + Whole(NonEmpty(chunks), chunked, true)
    {
      Send(msg);
      ghost var before := sent;
      for i := 0 to |chunks|
        invariant sent == before + Framed(NonEmpty(chunks[..i]), chunked, true)
      {
        Ignores(before, chunks, i, chunked);
        if chunks[i] != [] {
          Send(if chunked then Piece(chunks[i], true) else chunks[i]);
        }
      }
      assert chunks[..|chunks|] == chunks;
      FramedWhole(NonEmpty(chunks), chunked, true);
      if chunked {
        Send(Hex(0, true) + CRLF + CRLF);
        Regroup(before, Framed(NonEmpty(chunks), chunked, true), OnWire([], chunked, true));
      }
    }
  }

  lemma Ignores(before: bytes, chunks: seq<bytes>, i: nat, chunked: bool)
    requires i < |chunks|
    ensures before + Framed(NonEmpty(chunks[..i + 1]), chunked, true) ==
      before + Framed(NonEmpty(chunks[..i]), chunked, true) +
        if chunks[i] == [] then [] else OnWire(chunks[i], chunked, true)
  {
    var parts := NonEmpty(chunks[..i]);
    assert chunks[..i + 1] == chunks[..i] + [chunks[i]];
    NonEmptyAppend(chunks[..i], chunks[i]);
    if chunks[i] == [] {
      assert parts + [] == parts;
    } else {
      FramedMore(parts, chunks[i], chunked, true);
      Regroup(before, Framed(parts, chunked, true), OnWire(chunks[i], chunked, true));
    }
  }
}
