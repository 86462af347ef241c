/** `HTTPResponse` of the green HTTP client reading a chunked body. */
module HttpResponse {
  import opened Options
  import opened Bytes
  import opened ChunkedCoding

  const MAXLINE := 65536
  const MAXAMOUNT := 1048576

  /** `data` is what the connection has still to give; `open` means that `fp` is not `None`. */
  datatype Resp = Resp(data: bytes, chunkLeft: Option<nat>, open: bool)

  /** The outcome of a read; `IncompleteRead` carries what had been read before. */
  datatype Got = Got(result: bytes, resp: Resp) | Incomplete(partial: bytes) | LineTooLong

  function Prefixed(d: bytes, g: Got): Got {
    match g
    case Got(r, s) => Got(d + r, s)
    case Incomplete(p) => Incomplete(d + p)
    case LineTooLong => LineTooLong
  }

  /** `_read_and_discard_trailer`; `None` is the error about a long line. */
  function SkipTrailer(data: bytes): (r: Option<bytes>)
    ensures r.Some? ==> |r.value| <= |data|
    decreases |data|
  {
    var n := LineLength(data);
    if n > MAXLINE then None
    else if n == 0 || data[..n] == CRLF || data[..n] == [LF] then Some(data[n..])
    else SkipTrailer(data[n..])
  }

  /** `_read_next_chunk_size`, and what `_get_chunk_left` does with the size. */
  function NextSize(data: bytes): (g: Got)
    ensures g.Got? ==> g.result == [] && |g.resp.data| < |data| && g.resp.chunkLeft != Some(0)
    ensures g.Got? ==> (g.resp.open <==> g.resp.chunkLeft.Some?)
  {
    var n := LineLength(data);
    if n > MAXLINE then LineTooLong
    else
      match ChunkSize(data[..n])
      case None => Incomplete([])
      case Some(size) =>
        SizeNeedsLine(data);
        if size > 0 then Got([], Resp(data[n..], Some(size), true))
        else
          match SkipTrailer(data[n..])
          case None => LineTooLong
          case Some(rest) => Got([], Resp(rest, None, false))
  }

  /** `_get_chunk_left` on an open response; it leaves what is left of the chunk in `chunkLeft`. */
  function GetChunkLeft(s: Resp): (g: Got)
    requires s.open
    ensures g.Got? ==> g.result == [] && |g.resp.data| <= |s.data| && g.resp.chunkLeft != Some(0)
    ensures g.Got? ==> (g.resp.open <==> g.resp.chunkLeft.Some?)
  {
    if s.chunkLeft.Some? && s.chunkLeft.value > 0 then Got([], s)
    else if s.chunkLeft == Some(0) then
      if |s.data| < 2 then Incomplete([]) else NextSize(s.data[2..])
    else NextSize(s.data)
  }

  /** The loop of `_readinto_chunked`, and with no `amount` that of `_readall_chunked`. */
  function ReadLoop(s: Resp, amount: Option<nat>): Got
    requires s.open
    decreases |s.data|
  {
    var g := GetChunkLeft(s);
    if !g.Got? || !g.resp.open then g
    else
      var r := g.resp;
      var left := r.chunkLeft.value;
      var n := if amount.Some? then Min(amount.value, left) else left;
      if |r.data| < n then Incomplete([])
      else
        var s' := Resp(r.data[n..], Some(left - n), true);
        if amount.Some? && amount.value <= left then Got(r.data[..n], s')
        else Prefixed(r.data[..n], ReadLoop(s', Less(amount, left)))
  }

  /** `read(amt)` and `readinto` of a chunked response. */
  function Read(s: Resp, amount: Option<nat>): Got {
    if !s.open then Got([], s) else ReadLoop(s, amount)
  }

  // --- Well-formed bodies ---

  /** No line of the body exceeds what the client reads. */
  predicate ShortLines(b: Body) {
    && (forall i :: 0 <= i < |b.chunks| ==> |b.chunks[i].head| <= MAXLINE)
    && |b.last| <= MAXLINE
    && (forall i :: 0 <= i < |b.trailers| ==> |b.trailers[i]| <= MAXLINE)
  }

  predicate Stands(s: Resp, a: Ahead) {
    && WellFormed(a.body) && ShortLines(a.body)
    && if !s.open then a.chunk == [] && a.body.chunks == [] && s.data == a.after
       else if s.chunkLeft.Some? then
         |a.chunk| == s.chunkLeft.value && s.data == a.chunk + (CRLF + Encode(a.body, a.after))
       else a.chunk == [] && s.data == Encode(a.body, a.after)
  }

  lemma {:induction false} TrailerSkipped(trailers: seq<bytes>, after: bytes)
    requires forall i :: 0 <= i < |trailers| ==> IsTrailer(trailers[i]) && |trailers[i]| <= MAXLINE
    ensures SkipTrailer(EncodeTrailers(trailers, after)) == Some(after)
  {
    if trailers == [] {
      assert LineLength([10]) == 1 && CRLF[1..] == [10];
      LineFirst(CRLF, after);
    } else {
      LineFirst(trailers[0], EncodeTrailers(trailers[1..], after));
      TrailerSkipped(trailers[1..], after);
    }
  }

  /** A size line in front of the rest of the body. */
  lemma SizeStands(b: Body, after: bytes) returns (a: Ahead)
    requires WellFormed(b) && ShortLines(b)
    ensures var g := NextSize(Encode(b, after));
      && g.Got? && Stands(g.resp, a) && Remaining(a) == Decoded(b.chunks) && a.after == after
      && (g.resp.open <==> b.chunks != [])
  {
    if b.chunks == [] {
      LineFirst(b.last, EncodeTrailers(b.trailers, after));
      TrailerSkipped(b.trailers, after);
      a := Ahead([], b, after);
    } else {
      var c := b.chunks[0];
      var rest := b.(chunks := b.chunks[1..]);
      assert GoodChunk(c);
      LineFirst(c.head, c.data + (CRLF + Encode(rest, after)));
      a := Ahead(c.data, rest, after);
    }
  }

  /** `_get_chunk_left` finds the next data of the body, or its end. */
  lemma LeftStands(s: Resp, a: Ahead) returns (a': Ahead)
    requires s.open && Stands(s, a)
    ensures var g := GetChunkLeft(s);
      && g.Got? && Stands(g.resp, a') && Remaining(a') == Remaining(a) && a'.after == a.after
      && (g.resp.open <==> Remaining(a) != [])
  {
    if s.chunkLeft.Some? && s.chunkLeft.value > 0 {
      a' := a;
    } else {
      if s.chunkLeft.Some? {
        assert s.data == CRLF + Encode(a.body, a.after);
        assert s.data[2..] == Encode(a.body, a.after);
      }
      a' := SizeStands(a.body, a.after);
      if a.body.chunks != [] {
        assert GoodChunk(a.body.chunks[0]);
      }
    }
  }

  /** How much of `r` a read should return. */
  function Taken(r: bytes, amount: Option<nat>): (n: nat)
    ensures n <= |r| && (amount.Some? ==> n <= amount.value) && (n == |r| || amount == Some(n))
  {
    if amount.Some? then Min(amount.value, |r|) else |r|
  }

  /** With `r` bytes to come, the read comes upon the last chunk. */
  predicate EndsBody(r: nat, amount: Option<nat>) {
    r == 0 || amount.None? || amount.value > r
  }

  /** Any read of a well-formed body returns the next bytes of its content, as many as asked for or all that remain,
      and closes the response, at the last byte of the body, exactly if it asks for more or nothing remains. */
  ghost predicate Reads(g: Got, a: Ahead, a': Ahead, amount: Option<nat>) {
    var n := Taken(Remaining(a), amount);
    && g.Got? && g.result == Remaining(a)[..n]
    && Stands(g.resp, a') && Remaining(a') == Remaining(a)[n..] && a'.after == a.after
    && (g.resp.open <==> !EndsBody(|Remaining(a)|, amount))
  }

  lemma ReadsPart(r: Resp, a: Ahead, n: nat) returns (a': Ahead)
    requires r.open && r.chunkLeft.Some? && Stands(r, a) && n <= r.chunkLeft.value
    ensures |r.data| >= n && r.data[..n] == a.chunk[..n]
    ensures Stands(Resp(r.data[n..], Some(r.chunkLeft.value - n), true), a')
    ensures a' == a.(chunk := a.chunk[n..])
  {
    a' := a.(chunk := a.chunk[n..]);
    DropOfAppend(a.chunk, CRLF + Encode(a.body, a.after), n);
  }

  lemma TakenMore(c: bytes, r: bytes, amount: Option<nat>)
    requires amount.Some? ==> amount.value > |c|
    ensures var n := Taken(r, Less(amount, |c|));
      Taken(c + r, amount) == |c| + n && (c + r)[..|c| + n] == c + r[..n] && (c + r)[|c| + n..] == r[n..]
  {
    AppendedCut(c, r, Taken(r, Less(amount, |c|)));
  }

  lemma ReadsOn(a: Ahead, amount: Option<nat>, g: Got, a': Ahead)
    requires amount.Some? ==> amount.value > |a.chunk|
    requires Reads(g, a.(chunk := []), a', Less(amount, |a.chunk|))
    ensures Reads(Prefixed(a.chunk, g), a, a', amount)
  {
    var rest := Decoded(a.body.chunks);
    assert Remaining(a.(chunk := [])) == rest;
    TakenMore(a.chunk, rest, amount);
    EndsOn(|a.chunk|, |rest|, amount);
    JoinedCut(a.chunk, rest, Taken(rest, Less(amount, |a.chunk|)), g);
  }

  lemma EndsOn(c: nat, r: nat, amount: Option<nat>)
    requires amount.Some? ==> amount.value > c
    ensures EndsBody(c + r, amount) <==> EndsBody(r, Less(amount, c))
  {
  }

  lemma JoinedCut(c: bytes, r: bytes, n: nat, g: Got)
    requires n <= |r| && g.Got? && g.result == r[..n]
    ensures Prefixed(c, g) == Got((c + r)[..|c| + n], g.resp)
  {
    AppendedCut(c, r, n);
  }

  /** The loop of a read, one chunk on. */
  lemma LoopTurns(s: Resp, amount: Option<nat>)
    requires s.open && GetChunkLeft(s).Got? && GetChunkLeft(s).resp.open
    requires var r := GetChunkLeft(s).resp;
      r.chunkLeft.value > 0 && r.chunkLeft.value <= |r.data|
    ensures var r := GetChunkLeft(s).resp; var left := r.chunkLeft.value;
      ReadLoop(s, amount) ==
        if amount.Some? && amount.value <= left then
          Got(r.data[..amount.value], Resp(r.data[amount.value..], Some(left - amount.value), true))
        else Prefixed(r.data[..left], ReadLoop(Resp(r.data[left..], Some(0), true), Less(amount, left)))
  {
  }

  lemma ReadsHere(r: Resp, a: Ahead, n: nat) returns (a': Ahead)
    requires r.open && r.chunkLeft.Some? && Stands(r, a) && r.chunkLeft.value > 0 && n <= r.chunkLeft.value
    ensures |r.data| >= n && Reads(Got(r.data[..n], Resp(r.data[n..], Some(r.chunkLeft.value - n), true)), a, a', Some(n))
  {
    a' := ReadsPart(r, a, n);
    assert Remaining(a)[..n] == a.chunk[..n];
    assert Remaining(a)[n..] == Remaining(a');
  }

  lemma {:induction false} LoopReads(s: Resp, a: Ahead, amount: Option<nat>) returns (a': Ahead)
    requires s.open && Stands(s, a)
    ensures Reads(ReadLoop(s, amount), a, a', amount)
    decreases |s.data|
  {
    var a1 := LeftStands(s, a);
    var r := GetChunkLeft(s).resp;
    if !r.open {
      a' := a1;
    } else {
      var left := r.chunkLeft.value;
      LoopTurns(s, amount);
      if amount.Some? && amount.value <= left {
        a' := ReadsHere(r, a1, amount.value);
      } else {
        a' := ReadsChunk(r, a1, amount);
      }
      SameRemaining(ReadLoop(s, amount), a1, a, a', amount);
    }
  }

  lemma {:induction false} ReadsChunk(r: Resp, a: Ahead, amount: Option<nat>) returns (a': Ahead)
    requires r.open && r.chunkLeft.Some? && Stands(r, a) && r.chunkLeft.value > 0
    requires amount.Some? ==> amount.value > r.chunkLeft.value
    ensures |r.data| >= |a.chunk|
    ensures var rest := Resp(r.data[|a.chunk|..], Some(0), true);
      Reads(Prefixed(r.data[..|a.chunk|], ReadLoop(rest, Less(amount, |a.chunk|))), a, a', amount)
    decreases |r.data|, 0
  {
    var left := r.chunkLeft.value;
    var a2 := ReadsPart(r, a, left);
    assert a2 == a.(chunk := []) && a.chunk[..left] == a.chunk;
    var s' := Resp(r.data[left..], Some(0), true);
    a' := LoopReads(s', a2, Less(amount, left));
    ReadsOn(a, amount, ReadLoop(s', Less(amount, left)), a');
  }

  lemma SameRemaining(g: Got, a1: Ahead, a: Ahead, a': Ahead, amount: Option<nat>)
    requires Reads(g, a1, a', amount) && Remaining(a1) == Remaining(a) && a1.after == a.after
    ensures Reads(g, a, a', amount)
  {
  }

  /** A read that comes to the end of the body forgets the size of the chunk. */
  lemma {:induction false} ClosedHasNoSize(s: Resp, amount: Option<nat>)
    requires s.open
    ensures var g := ReadLoop(s, amount); g.Got? && !g.resp.open ==> g.resp.chunkLeft == None
    decreases |s.data|
  {
    var g := GetChunkLeft(s);
    if g.Got? && g.resp.open {
      var left := g.resp.chunkLeft.value;
      if left <= |g.resp.data| && (amount.None? || amount.value > left) {
        LoopTurns(s, amount);
        ClosedHasNoSize(Resp(g.resp.data[left..], Some(0), true), Less(amount, left));
      }
    }
  }

  /** Any sequence of reads, `None` being a read of all that remains. */
  function ReadAll(s: Resp, amounts: seq<Option<nat>>): Got
    decreases |amounts|
  {
    if amounts == [] then Got([], s)
    else
      var g := Read(s, amounts[0]);
      if g.Got? then Prefixed(g.result, ReadAll(g.resp, amounts[1..])) else g
  }

  /** How many of `r` bytes the reads return. */
  function Total(r: nat, amounts: seq<Option<nat>>): (n: nat)
    ensures n <= r
  {
    if amounts == [] then 0
    else
      var n := if amounts[0].Some? then Min(amounts[0].value, r) else r;
      n + Total(r - n, amounts[1..])
  }

  /** One of the reads comes upon the last chunk. */
  predicate Ends(r: nat, amounts: seq<Option<nat>>) {
    amounts != [] && (EndsBody(r, amounts[0]) || Ends(r - Min(amounts[0].value, r), amounts[1..]))
  }

  /** `n` bytes have been taken from the front of what lay ahead. */
  ghost predicate Took(g: Got, a: Ahead, a': Ahead, n: nat) {
    && n <= |Remaining(a)| && g.Got? && g.result == Remaining(a)[..n]
    && Stands(g.resp, a') && Remaining(a') == Remaining(a)[n..] && a'.after == a.after
  }

  lemma ReadTook(s: Resp, a: Ahead, amount: Option<nat>) returns (a': Ahead)
    requires Stands(s, a)
    ensures Took(Read(s, amount), a, a', Taken(Remaining(a), amount))
    ensures Read(s, amount).resp.open <==> s.open && !EndsBody(|Remaining(a)|, amount)
  {
    a' := a;
    if s.open {
      a' := LoopReads(s, a, amount);
    }
  }

  lemma TookTwice(g: Got, g': Got, both: Got, a: Ahead, a1: Ahead, a2: Ahead, n: nat, m: nat, k: nat)
    requires Took(g, a, a1, n) && Took(g', a1, a2, m) && both == Prefixed(g.result, g') && k == n + m
    ensures Took(both, a, a2, k)
  {
    CutTwice(Remaining(a), n, m);
  }

  /** The reads returned exactly as much of the content as they asked for, or all of it, and have closed the response
      exactly if one of them came upon the end. */
  ghost predicate TookAll(g: Got, open: bool, a: Ahead, a': Ahead, amounts: seq<Option<nat>>) {
    && Took(g, a, a', Total(|Remaining(a)|, amounts))
    && (g.resp.open <==> open && !Ends(|Remaining(a)|, amounts))
  }

  /** However a well-formed body is read, no read fails, and together the reads take from it what they asked for. */
  lemma {:induction false} ReadsInTurn(s: Resp, a: Ahead, amounts: seq<Option<nat>>) returns (a': Ahead)
    requires Stands(s, a)
    ensures TookAll(ReadAll(s, amounts), s.open, a, a', amounts)
    decreases |amounts|
  {
    if amounts == [] {
      a' := a;
      TookNothing(s, a);
    } else {
      var a1 := ReadTook(s, a, amounts[0]);
      var g := Read(s, amounts[0]);
      a' := ReadsInTurn(g.resp, a1, amounts[1..]);
      Prefixes(g.result, ReadAll(g.resp, amounts[1..]), s, amounts);
      TookMore(g, ReadAll(g.resp, amounts[1..]), ReadAll(s, amounts), s.open, a, a1, a', amounts);
    }
  }

  lemma TookMore(g: Got, g': Got, both: Got, open: bool, a: Ahead, a1: Ahead, a2: Ahead, amounts: seq<Option<nat>>)
    requires amounts != [] && Took(g, a, a1, Taken(Remaining(a), amounts[0]))
    requires g.resp.open <==> open && !EndsBody(|Remaining(a)|, amounts[0])
    requires TookAll(g', g.resp.open, a1, a2, amounts[1..]) && both == Prefixed(g.result, g')
    ensures TookAll(both, open, a, a2, amounts)
  {
    var n, r, r1 := Taken(Remaining(a), amounts[0]), |Remaining(a)|, |Remaining(a1)|;
    TookLength(g, a, a1, n);
    TotalNext(r, n, r1, amounts);
    TookTwice(g, g', both, a, a1, a2, n, Total(r1, amounts[1..]), Total(r, amounts));
  }

  lemma Prefixes(d: bytes, g': Got, s: Resp, amounts: seq<Option<nat>>)
    requires amounts != [] && Read(s, amounts[0]).Got? && d == Read(s, amounts[0]).result
    requires g' == ReadAll(Read(s, amounts[0]).resp, amounts[1..])
    ensures ReadAll(s, amounts) == Prefixed(d, g')
  {
  }

  lemma TookLength(g: Got, a: Ahead, a': Ahead, n: nat)
    requires Took(g, a, a', n)
    ensures |Remaining(a')| == |Remaining(a)| - n
  {
  }

  lemma TookNothing(s: Resp, a: Ahead)
    requires Stands(s, a)
    ensures Took(Got([], s), a, a, 0)
  {
  }

  lemma TotalNext(r: nat, n: nat, r1: nat, amounts: seq<Option<nat>>)
    requires amounts != [] && n == (if amounts[0].Some? then Min(amounts[0].value, r) else r) && r1 == r - n
    ensures Total(r, amounts) == n + Total(r1, amounts[1..])
    ensures Ends(r, amounts) <==> EndsBody(r, amounts[0]) || Ends(r1, amounts[1..])
  {
  }

  /** What the reads ask for in all, which has no limit if one of them has none. */
  function AskedFor(amounts: seq<Option<nat>>): Option<nat> {
    if amounts == [] then Some(0)
    else
      var rest := AskedFor(amounts[1..]);
      if amounts[0].None? || rest.None? then None else Some(amounts[0].value + rest.value)
  }

  /** Reads that ask for more than there is return all of it, and come to the end. */
  lemma {:induction false} AsksForMore(r: nat, amounts: seq<Option<nat>>)
    requires AskedFor(amounts).None? || AskedFor(amounts).value > r
    ensures Total(r, amounts) == r && Ends(r, amounts)
    decreases |amounts|
  {
    if amounts != [] {
      if EndsBody(r, amounts[0]) {
        NothingMore(amounts[1..]);
      } else {
        AsksForMore(r - amounts[0].value, amounts[1..]);
      }
    }
  }

  lemma {:induction false} NothingMore(amounts: seq<Option<nat>>)
    ensures Total(0, amounts) == 0
  {
    if amounts != [] {
      NothingMore(amounts[1..]);
    }
  }

  // --- The object ---

  /** The file object of the connection: a read may return less than asked for, but not nothing before the end. */
  class FileObject {
    var data: bytes

    constructor (data: bytes)
      ensures this.data == data
    {
      this.data := data;
    }

    method ReadSome(n: nat) returns (d: bytes)
      modifies this
      ensures |d| <= n && old(data) == d + data && (n > 0 && old(data) != [] ==> d != [])
    {
      if n == 0 || data == [] {
        return [];
      }
      var k: nat :| 1 <= k <= n && k <= |data|;
      d, data := data[..k], data[k..];
    }

    method ReadLine(limit: nat) returns (line: bytes)
      modifies this
      ensures line == old(data)[..Min(limit, LineLength(old(data)))] && data == old(data)[|line|..]
    {
      var n := Min(limit, LineLength(data));
      line, data := data[..n], data[n..];
    }
  }

  datatype Result = Data(data: bytes) | IncompleteRead(partial: bytes) | LongLine

  function ResultOf(g: Got): Result {
    match g
    case Got(d, _) => Data(d)
    case Incomplete(p) => IncompleteRead(p)
    case LineTooLong => LongLine
  }

  datatype Status = Fine | Short | TooLong

  class Response {
    const fp: FileObject
    var chunkLeft: Option<nat>
    var open: bool

    function State(): Resp
      reads this, fp
    {
      Resp(fp.data, chunkLeft, open)
    }

    constructor (fp: FileObject)
      ensures this.fp == fp && State() == Resp(fp.data, None, true)
    {
      this.fp, chunkLeft, open := fp, None, true;
    }

    /** `_safe_read`; not `ok` is `IncompleteRead`. */
    method SafeRead(amount: nat) returns (ok: bool, d: bytes)
      modifies fp
      ensures ok <==> amount <= |old(fp.data)|
      ensures ok ==> d == old(fp.data)[..amount] && fp.data == old(fp.data)[amount..]
    {
      d := [];
      while |d| < amount
        invariant |d| <= amount && old(fp.data) == d + fp.data
      {
        var chunk := fp.ReadSome(Min(amount - |d|, MAXAMOUNT));
        if chunk == [] {
          return false, d;
        }
        d := d + chunk;
      }
      return true, d;
    }

    method DiscardTrailer() returns (ok: bool)
      modifies fp
      ensures ok <==> SkipTrailer(old(fp.data)).Some?
      ensures ok ==> fp.data == SkipTrailer(old(fp.data)).value
    {
      while true
        invariant SkipTrailer(fp.data) == SkipTrailer(old(fp.data))
        decreases |fp.data|
      {
        var line := fp.ReadLine(MAXLINE + 1);
        if |line| > MAXLINE {
          return false;
        }
        if line == [] || line == CRLF || line == [LF] {
          return true;
        }
      }
    }

    method ReadNextSize() returns (r: Status)
      requires open
      modifies this, fp
      ensures StatusOf(NextSize(old(fp.data)), r)
      ensures r.Fine? ==> State() == NextSize(old(fp.data)).resp
    {
      var line := fp.ReadLine(MAXLINE + 1);
      if |line| > MAXLINE {
        return TooLong;
      }
      var size := ChunkSize(line);
      if size.None? {
        return Short;
      }
      chunkLeft := size;
      if size.value == 0 {
        var ok := DiscardTrailer();
        if !ok {
          return TooLong;
        }
        open, chunkLeft := false, None;
      }
      return Fine;
    }

    /** `_get_chunk_left` */
    method FindChunkLeft() returns (r: Status)
      requires open
      modifies this, fp
      ensures StatusOf(GetChunkLeft(old(State())), r)
      ensures r.Fine? ==> State() == GetChunkLeft(old(State())).resp
    {
      if chunkLeft.Some? && chunkLeft.value > 0 {
        return Fine;
      }
      if chunkLeft.Some? {
        var ok, _ := SafeRead(2);
        if !ok {
          return Short;
        }
      }
      r := ReadNextSize();
    }

    /** The loop of `_readinto_chunked` and `_readall_chunked`, one chunk on; not `more` is a return. */
    method Turn(response: bytes, amount: Option<nat>)
      returns (response': bytes, amount': Option<nat>, status: Status, more: bool)
      requires open
      modifies this, fp
      ensures var total := Prefixed(response, ReadLoop(old(State()), amount));
        if status.Short? then total == Incomplete(response')
        else if status.TooLong? then total == LineTooLong
        else if more then open && |fp.data| < |old(fp.data)| && total == Prefixed(response', ReadLoop(State(), amount'))
        else total == Got(response', State())
    {
      response', amount', more := response, amount, false;
      status := FindChunkLeft();
      if !status.Fine? || !open {
        return;
      }
      var left := chunkLeft.value;
      var n := if amount.Some? then Min(amount.value, left) else left;
      ghost var r := State();
      var ok, d := SafeRead(n);
      if !ok {
        status := Short;
        return;
      }
      chunkLeft := Some(left - n);
      response' := response + d;
      if amount.None? || amount.value > left {
        amount', more := Less(amount, left), true;
        PrefixTwice(response, d, ReadLoop(State(), amount'));
      }
    }

    /** `read` of a chunked response, with no `amount` `_readall_chunked`. */
    method ReadChunked(amount: Option<nat>) returns (result: Result)
      modifies this, fp
      ensures result == ResultOf(Read(old(State()), amount))
      ensures result.Data? ==> State() == Read(old(State()), amount).resp
    {
      if !open {
        return Data([]);
      }
      var response, left, more := [], amount, true;
      ghost var total := ReadLoop(State(), amount);
      PrefixNothing(total);
      while true
        invariant open && Prefixed(response, ReadLoop(State(), left)) == total
        decreases |fp.data|
      {
        var status;
        response, left, status, more := Turn(response, left);
        if status.Short? {
          return IncompleteRead(response);
        } else if status.TooLong? {
          return LongLine;
        } else if !more {
          return Data(response);
        }
      }
    }
  }

  lemma PrefixNothing(g: Got)
    ensures Prefixed([], g) == g
  {
  }

  lemma PrefixTwice(a: bytes, b: bytes, g: Got)
    ensures Prefixed(a, Prefixed(b, g)) == Prefixed(a + b, g)
  {
    match g
    case Got(r, _) => assert a + (b + r) == a + b + r;
    case Incomplete(p) => assert a + (b + p) == a + b + p;
    case LineTooLong =>
  }

  predicate StatusOf(g: Got, r: Status) {
    match g
    case Got(_, _) => r.Fine?
    case Incomplete(p) => r.Short? && p == []
    case LineTooLong => r.TooLong?
  }
}
