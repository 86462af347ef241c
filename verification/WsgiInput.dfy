/** `eventlet.wsgi.Input` reading a chunked request body. */
module WsgiInput {
  import opened Options
  import opened Bytes
  import opened ChunkedCoding

  /** `data` is what `rfile` has still to give; the other two are the fields of `Input`. */
  datatype In = In(data: bytes, chunkLength: int, position: int)

  datatype Out = Read(result: bytes, state: In) | EndOfFile(state: In) | BadChunk(state: In)

  const FRESH := -1

  function Prefixed(d: bytes, o: Out): Out {
    if o.Read? then Read(d + o.result, o.state) else o
  }

  /** `rfile.read(n)`, or `rfile.readline(n)` if `lines`. */
  function Take(data: bytes, n: nat, lines: bool): bytes {
    if lines then data[..Min(n, LineLength(data))] else data[..Min(n, |data|)]
  }

  /** The branch of the loop that reads a size line and, after the last chunk, the trailers. */
  function NextChunk(s: In): Out {
    var n := LineLength(s.data);
    match ChunkSize(s.data[..n])
    case None => BadChunk(s.(data := s.data[n..]))
    case Some(size) => Read([], In(if size == 0 then SkipTrailers(s.data[n..]) else s.data[n..], size, 0))
  }

  /** The branch that reads data, at most `maxReadLen` bytes, and the line that ends a finished chunk. */
  function ReadData(s: In, maxReadLen: nat, lines: bool): Out {
    var d := Take(s.data, maxReadLen, lines);
    if d == [] then EndOfFile(s.(chunkLength := 0))
    else
      var rest := s.data[|d|..];
      var position := s.position + |d|;
      Read(d, In(if s.chunkLength == position then rest[LineLength(rest)..] else rest, s.chunkLength, position))
  }

  lemma {:induction false} SkipShortens(data: bytes)
    ensures |SkipTrailers(data)| <= |data|
    decreases |data|
  {
    var n := LineLength(data);
    if !(n == 0 || data[..n] == CRLF || data[..n] == [LF]) {
      SkipShortens(data[n..]);
    }
  }

  lemma NextChunkShortens(s: In)
    ensures NextChunk(s).Read? ==> |NextChunk(s).state.data| < |s.data|
  {
    var n := LineLength(s.data);
    SkipShortens(s.data[n..]);
    if n == 0 {
      assert s.data[..n] == [];
      assert ChunkSize([]) == None;
    }
  }

  /** One turn of the loop of `_chunked_read`; no `length` is a read without limit. */
  function OneTurn(s: In, length: Option<nat>, lines: bool): Out {
    var left := s.chunkLength - s.position;
    if left <= 0 then NextChunk(s)
    else ReadData(s, if length.Some? && length.value < left then length.value else left, lines)
  }

  lemma TurnConsumes(s: In, length: Option<nat>, lines: bool)
    ensures var o := OneTurn(s, length, lines); o.Read? ==>
      && |o.result| + |o.state.data| <= |s.data| && |o.state.data| < |s.data|
      && (length.Some? ==> |o.result| <= length.value)
  {
    NextChunkShortens(s);
  }

  function ReadLoop(s: In, length: Option<nat>, lines: bool): Out
    requires length.Some? ==> length.value > 0
    decreases |s.data|
  {
    if s.chunkLength == 0 then Read([], s)
    else
      TurnConsumes(s, length, lines);
      var o := OneTurn(s, length, lines);
      if !o.Read? || Stops(o.result, length, lines) then o
      else Prefixed(o.result, ReadLoop(o.state, Less(length, |o.result|), lines))
  }

  /** The two `break`s of the loop. */
  predicate Stops(d: bytes, length: Option<nat>, lines: bool) {
    length == Some(|d|) || (lines && d != [] && d[|d| - 1] == LF)
  }

  /** `_chunked_read` */
  function ChunkedRead(s: In, length: Option<int>, lines: bool): Out {
    if length == Some(0) then Read([], s)
    else ReadLoop(s, if length.Some? && length.value > 0 then Some(length.value) else None, lines)
  }

  lemma ReadLoopNext(s: In, length: Option<nat>, lines: bool)
    requires s.chunkLength != 0 && s.chunkLength <= s.position && (length.Some? ==> length.value > 0)
    requires NextChunk(s).Read?
    ensures ReadLoop(s, length, lines) == ReadLoop(NextChunk(s).state, length, lines)
    ensures |NextChunk(s).state.data| < |s.data|
  {
    TurnConsumes(s, length, lines);
    PrefixNothing(ReadLoop(NextChunk(s).state, length, lines));
  }

  lemma ReadLoopData(s: In, n: nat, length: Option<nat>, lines: bool)
    requires 0 != s.chunkLength > s.position && (length.Some? ==> length.value > 0)
    requires n == if length.Some? then Min(length.value, s.chunkLength - s.position) else s.chunkLength - s.position
    requires ReadData(s, n, lines).Read?
    ensures var o := ReadData(s, n, lines);
      && |o.state.data| < |s.data| && (length.Some? ==> |o.result| <= length.value)
      && ReadLoop(s, length, lines) == if Stops(o.result, length, lines) then o
        else Prefixed(o.result, ReadLoop(o.state, Less(length, |o.result|), lines))
  {
    TurnConsumes(s, length, lines);
    assert OneTurn(s, length, lines) == ReadData(s, n, lines);
  }

  // --- Well-formed bodies ---

  predicate Stands(s: In, a: Ahead) {
    WellFormed(a.body) &&
    if s.chunkLength == 0 then a.chunk == [] && a.body.chunks == [] && s.data == a.after
    else if s.position < s.chunkLength then
      |a.chunk| == s.chunkLength - s.position && s.data == a.chunk + (CRLF + Encode(a.body, a.after))
    else a.chunk == [] && s.data == Encode(a.body, a.after)
  }

  /** How much of `r` a read should return. */
  function Wanted(r: bytes, length: Option<nat>, lines: bool): (n: nat)
    ensures n <= |r|
  {
    var n := if lines then LineLength(r) else |r|;
    if length.Some? then Min(length.value, n) else n
  }

  /** As much as there is, up to the limit and to the end of the first line. */
  lemma WantedIs(r: bytes, length: Option<nat>, lines: bool)
    ensures var n := Wanted(r, length, lines);
      && (length.Some? ==> n <= length.value)
      && (lines && n > 0 ==> LF !in r[..n - 1])
      && (n == |r| || length == Some(n) || (lines && n > 0 && r[n - 1] == LF))
  {
    LineEnds(r);
    var n, m := Wanted(r, length, lines), LineLength(r);
    assert lines && n > 0 ==> r[..n - 1] == r[..m - 1][..n - 1];
    assert n > 0 && LF in r[..n - 1] ==> LF in r;
  }

  /** When a turn of the loop fails: where data should come nothing is left, or where a size should come there is none. */
  lemma TurnFails(s: In, length: Option<nat>, lines: bool)
    requires length.Some? ==> length.value > 0
    ensures var o, n := OneTurn(s, length, lines), LineLength(s.data);
      && (o.EndOfFile? <==> s.position < s.chunkLength && s.data == [])
      && (o.BadChunk? <==> s.position >= s.chunkLength && ChunkSize(s.data[..n]).None?)
      && (o.EndOfFile? ==> o.state == In([], 0, s.position))
      && (o.BadChunk? ==> o.state == In(s.data[n..], s.chunkLength, s.position))
  {
  }

  lemma TakeFromChunk(chunk: bytes, rest: bytes, n: nat, lines: bool)
    requires 0 < n <= |chunk|
    ensures Take(chunk + rest, n, lines) == Take(chunk, n, lines) == chunk[..|Take(chunk, n, lines)|] != []
  {
    if lines {
      LineOfAppend(chunk, rest);
    }
  }

  /** What one turn of the loop takes from the chunk, against what the read should return. */
  lemma WantedSplits(chunk: bytes, rest: bytes, length: Option<nat>, lines: bool)
    requires chunk != [] && (length.Some? ==> length.value > 0)
    ensures var n := if length.Some? then Min(length.value, |chunk|) else |chunk|;
      var d := Take(chunk, n, lines);
      if Stops(d, length, lines) then Wanted(chunk + rest, length, lines) == |d|
      else d == chunk && Wanted(chunk + rest, length, lines) == |chunk| + Wanted(rest, Less(length, |chunk|), lines)
  {
    if lines {
      LineOfAppend(chunk, rest);
    }
  }

  /** The next size line, when the stream stands before one. */
  lemma NextStands(s: In, a: Ahead) returns (a': Ahead)
    requires Stands(s, a) && s.chunkLength != 0 && s.chunkLength <= s.position
    ensures NextChunk(s).Read? && NextChunk(s).result == [] && Stands(NextChunk(s).state, a')
    ensures Remaining(a') == Remaining(a) && a'.after == a.after
    ensures NextChunk(s).state.chunkLength == 0 || NextChunk(s).state.position < NextChunk(s).state.chunkLength
  {
    if a.body.chunks == [] {
      LastStands(s, a);
      a' := a;
    } else {
      a' := ChunkStands(s, a);
    }
  }

  lemma LastStands(s: In, a: Ahead)
    requires Stands(s, a) && s.chunkLength != 0 && s.chunkLength <= s.position && a.body.chunks == []
    ensures NextChunk(s) == Read([], In(a.after, 0, 0))
  {
    LineFirst(a.body.last, EncodeTrailers(a.body.trailers, a.after));
    TrailersSkipped(a.body.trailers, a.after);
  }

  lemma HeadRead(s: In, c: Chunk, rest: bytes)
    requires GoodChunk(c) && s.data == c.head + rest
    ensures NextChunk(s) == Read([], In(rest, |c.data|, 0))
  {
    LineFirst(c.head, rest);
  }

  lemma ChunkStands(s: In, a: Ahead) returns (a': Ahead)
    requires Stands(s, a) && s.chunkLength != 0 && s.chunkLength <= s.position && a.body.chunks != []
    ensures NextChunk(s).Read? && NextChunk(s).result == [] && Stands(NextChunk(s).state, a')
    ensures Remaining(a') == Remaining(a) && a'.after == a.after
    ensures NextChunk(s).state.position < NextChunk(s).state.chunkLength
  {
    var c := a.body.chunks[0];
    var body := a.body.(chunks := a.body.chunks[1..]);
    var rest := c.data + (CRLF + Encode(body, a.after));
    assert GoodChunk(c);
    HeadRead(s, c, rest);
    a' := Ahead(c.data, body, a.after);
  }

  /** A piece of the current chunk, and with its last piece the line end after it. */
  lemma DataStands(s: In, a: Ahead, n: nat, lines: bool) returns (a': Ahead)
    requires Stands(s, a) && s.chunkLength != 0 && 0 < n <= s.chunkLength - s.position
    ensures ReadData(s, n, lines).Read? && ReadData(s, n, lines).result == Take(a.chunk, n, lines)
    ensures Stands(ReadData(s, n, lines).state, a') && ReadData(s, n, lines).state.chunkLength != 0
    ensures a' == a.(chunk := a.chunk[|Take(a.chunk, n, lines)|..])
  {
    var rest := CRLF + Encode(a.body, a.after);
    TakeFromChunk(a.chunk, rest, n, lines);
    var d := Take(a.chunk, n, lines);
    a' := a.(chunk := a.chunk[|d|..]);
    DropOfAppend(a.chunk, rest, |d|);
    if a'.chunk == [] {
      assert a'.chunk + rest == rest;
      assert CRLF[1..] == [10] && LineLength([10]) == 1;
      LineFirst(CRLF, Encode(a.body, a.after));
    }
  }

  /** The read of which `o` is the outcome took what it should from `a`, leaving `a'`. */
  ghost predicate Reads(o: Out, a: Ahead, a': Ahead, length: Option<nat>, lines: bool) {
    var n := Wanted(Remaining(a), length, lines);
    && o.Read? && o.result == Remaining(a)[..n]
    && Stands(o.state, a') && Remaining(a') == Remaining(a)[n..] && a'.after == a.after
    && (o.state.chunkLength == 0 <==> !Stops(o.result, length, lines))
  }

  lemma StopsLater(c: bytes, d: bytes, length: Option<nat>, lines: bool)
    requires c != [] && !Stops(c, length, lines) && (length.Some? ==> length.value > |c|)
    ensures Stops(c + d, length, lines) <==> Stops(d, Less(length, |c|), lines)
  {
    assert d == [] ==> c + d == c;
    assert d != [] ==> (c + d)[|c + d| - 1] == d[|d| - 1];
  }

  lemma ReadsEnough(s: In, a: Ahead, length: Option<nat>, lines: bool, d: bytes, a': Ahead)
    requires a.chunk != [] && (length.Some? ==> length.value > 0) && Stops(d, length, lines)
    requires d == Take(a.chunk, if length.Some? then Min(length.value, |a.chunk|) else |a.chunk|, lines)
    requires Stands(s, a') && a' == a.(chunk := a.chunk[|d|..]) && d != [] && s.chunkLength != 0
    ensures Reads(Read(d, s), a, a', length, lines)
  {
    WantedSplits(a.chunk, Decoded(a.body.chunks), length, lines);
    CutWithin(a.chunk, Decoded(a.body.chunks), |d|);
  }

  lemma CutWithin(c: bytes, r: bytes, n: nat)
    requires n <= |c|
    ensures (c + r)[..n] == c[..n] && (c + r)[n..] == c[n..] + r
  {
  }

  lemma ReadsOn(a: Ahead, length: Option<nat>, lines: bool, o: Out, a': Ahead)
    requires a.chunk != [] && (length.Some? ==> length.value > |a.chunk|) && !Stops(a.chunk, length, lines)
    requires Wanted(Remaining(a), length, lines) ==
      |a.chunk| + Wanted(Decoded(a.body.chunks), Less(length, |a.chunk|), lines)
    requires Reads(o, a.(chunk := []), a', Less(length, |a.chunk|), lines)
    ensures Reads(Prefixed(a.chunk, o), a, a', length, lines)
  {
    var rest := Decoded(a.body.chunks);
    assert Remaining(a.(chunk := [])) == rest;
    ReadsOnFrom(a.chunk, rest, Wanted(rest, Less(length, |a.chunk|), lines), o.result);
    StopsLater(a.chunk, o.result, length, lines);
  }

  lemma ReadsOnFrom(c: bytes, r: bytes, n: nat, d: bytes)
    requires n <= |r| && d == r[..n]
    ensures c + d == (c + r)[..|c| + n] && (c + r)[|c| + n..] == r[n..]
  {
    AppendedCut(c, r, n);
  }

  /** Any read of a well-formed body returns the next bytes of its content, as many as asked for, to the end of
      the line, or to the end of the body; exactly if it wanted more has it consumed the body to its last byte. */
  lemma {:induction false} ReadStands(s: In, a: Ahead, length: Option<nat>, lines: bool) returns (a': Ahead)
    requires Stands(s, a) && (length.Some? ==> length.value > 0)
    ensures Reads(ReadLoop(s, length, lines), a, a', length, lines)
    decreases |s.data|
  {
    if s.chunkLength == 0 {
      a' := a;
    } else if s.chunkLength <= s.position {
      a' := NextStands(s, a);
      ReadLoopNext(s, length, lines);
      a' := ReadStands(NextChunk(s).state, a', length, lines);
    } else {
      a' := ReadDataStands(s, a, length, lines);
    }
  }

  lemma {:induction false} ReadDataStands(s: In, a: Ahead, length: Option<nat>, lines: bool) returns (a': Ahead)
    requires Stands(s, a) && (length.Some? ==> length.value > 0) && 0 != s.chunkLength > s.position
    ensures Reads(ReadLoop(s, length, lines), a, a', length, lines)
    decreases |s.data|, 0
  {
    var n := if length.Some? then Min(length.value, |a.chunk|) else |a.chunk|;
    var a1 := DataStands(s, a, n, lines);
    var o := ReadData(s, n, lines);
    ReadLoopData(s, n, length, lines);
    if Stops(o.result, length, lines) {
      ReadsEnough(o.state, a, length, lines, o.result, a1);
      a' := a1;
    } else {
      WantedSplits(a.chunk, Decoded(a.body.chunks), length, lines);
      assert a1 == a.(chunk := []);
      a' := ReadStands(o.state, a1, Less(length, |a.chunk|), lines);
      ReadsOn(a, length, lines, ReadLoop(o.state, Less(length, |a.chunk|), lines), a');
    }
  }

  /** A call of `read` or `readline`. */
  datatype Call = Call(length: Option<int>, lines: bool)

  function Limit(length: Option<int>): Option<nat> {
    if length.Some? && length.value > 0 then Some(length.value) else None
  }

  /** Calls made one after another, as long as none fails; the result is that of all of them together. */
  function ReadAll(s: In, calls: seq<Call>): Out
    decreases |calls|
  {
    if calls == [] then Read([], s)
    else
      var o := ChunkedRead(s, calls[0].length, calls[0].lines);
      if o.Read? then Prefixed(o.result, ReadAll(o.state, calls[1..])) else o
  }

  function Share(r: bytes, c: Call): (n: nat)
    ensures n <= |r|
  {
    if c.length == Some(0) then 0 else Wanted(r, Limit(c.length), c.lines)
  }

  /** How many bytes of `r` the calls return. */
  function Total(r: bytes, calls: seq<Call>): (n: nat)
    ensures n <= |r|
    decreases |calls|
  {
    if calls == [] then 0 else Share(r, calls[0]) + Total(r[Share(r, calls[0])..], calls[1..])
  }

  /** With `r` to come, the call wants more than there is. */
  predicate EndsBody(r: bytes, c: Call) {
    c.length != Some(0) && !Stops(r[..Share(r, c)], Limit(c.length), c.lines)
  }

  /** One of the calls does. */
  predicate Ends(r: bytes, calls: seq<Call>)
    decreases |calls|
  {
    calls != [] && (EndsBody(r, calls[0]) || Ends(r[Share(r, calls[0])..], calls[1..]))
  }

  /** `n` bytes have been taken from the front of what lay ahead. */
  ghost predicate Took(o: Out, a: Ahead, a': Ahead, n: nat) {
    && n <= |Remaining(a)| && o.Read? && o.result == Remaining(a)[..n]
    && Stands(o.state, a') && Remaining(a') == Remaining(a)[n..] && a'.after == a.after
  }

  lemma TookTwice(o: Out, o': Out, both: Out, a: Ahead, a1: Ahead, a2: Ahead, n: nat, m: nat, k: nat)
    requires Took(o, a, a1, n) && Took(o', a1, a2, m) && both == Prefixed(o.result, o') && k == n + m
    ensures Took(both, a, a2, k)
  {
    CutTwice(Remaining(a), n, m);
  }

  lemma CallTook(s: In, a: Ahead, c: Call) returns (a': Ahead)
    requires Stands(s, a)
    ensures var o := ChunkedRead(s, c.length, c.lines);
      && Took(o, a, a', Share(Remaining(a), c))
      && (o.state.chunkLength == 0 <==> s.chunkLength == 0 || EndsBody(Remaining(a), c))
  {
    a' := a;
    if c.length != Some(0) {
      a' := ReadStands(s, a, Limit(c.length), c.lines);
      EndedAtOnce(s, a, c);
    }
  }

  lemma EndedAtOnce(s: In, a: Ahead, c: Call)
    requires Stands(s, a) && c.length != Some(0)
    ensures s.chunkLength == 0 ==> EndsBody(Remaining(a), c)
  {
  }

  /** The calls returned exactly as much of the content as they wanted, or all of it, and the stream has come to the end
      of the body exactly if one of them wanted more. */
  ghost predicate TookAll(o: Out, ended: bool, a: Ahead, a': Ahead, calls: seq<Call>) {
    && Took(o, a, a', Total(Remaining(a), calls))
    && (o.state.chunkLength == 0 <==> ended || Ends(Remaining(a), calls))
  }

  /** However a well-formed body is read, no call fails, together the calls take from it what they wanted, and the
      stream never moves past the end of the body. */
  lemma {:induction false} ReadsInTurn(s: In, a: Ahead, calls: seq<Call>) returns (a': Ahead)
    requires Stands(s, a)
    ensures TookAll(ReadAll(s, calls), s.chunkLength == 0, a, a', calls)
    decreases |calls|
  {
    if calls == [] {
      a' := a;
      TookNothing(s, a);
    } else {
      var a1 := CallTook(s, a, calls[0]);
      var o := ChunkedRead(s, calls[0].length, calls[0].lines);
      a' := ReadsInTurn(o.state, a1, calls[1..]);
      Prefixes(o.result, ReadAll(o.state, calls[1..]), s, calls);
      TookMore(o, ReadAll(o.state, calls[1..]), ReadAll(s, calls), s.chunkLength == 0, a, a1, a', calls);
    }
  }

  lemma TookMore(o: Out, o': Out, both: Out, ended: bool, a: Ahead, a1: Ahead, a2: Ahead, calls: seq<Call>)
    requires calls != [] && Took(o, a, a1, Share(Remaining(a), calls[0]))
    requires o.state.chunkLength == 0 <==> ended || EndsBody(Remaining(a), calls[0])
    requires TookAll(o', o.state.chunkLength == 0, a1, a2, calls[1..]) && both == Prefixed(o.result, o')
    ensures TookAll(both, ended, a, a2, calls)
  {
    var n, r, r1 := Share(Remaining(a), calls[0]), Remaining(a), Remaining(a1);
    TotalNext(r, n, r1, calls);
    TookTwice(o, o', both, a, a1, a2, n, Total(r1, calls[1..]), Total(r, calls));
  }

  lemma TotalNext(r: bytes, n: nat, r1: bytes, calls: seq<Call>)
    requires calls != [] && n == Share(r, calls[0]) && r1 == r[n..]
    ensures Total(r, calls) == n + Total(r1, calls[1..])
    ensures Ends(r, calls) <==> EndsBody(r, calls[0]) || Ends(r1, calls[1..])
  {
  }

  lemma Prefixes(d: bytes, o': Out, s: In, calls: seq<Call>)
    requires calls != [] && ChunkedRead(s, calls[0].length, calls[0].lines).Read?
    requires d == ChunkedRead(s, calls[0].length, calls[0].lines).result
    requires o' == ReadAll(ChunkedRead(s, calls[0].length, calls[0].lines).state, calls[1..])
    ensures ReadAll(s, calls) == Prefixed(d, o')
  {
  }

  lemma TookNothing(s: In, a: Ahead)
    requires Stands(s, a)
    ensures Took(Read([], s), a, a, 0)
  {
  }

  /** What plain reads ask for in all, which has no limit if one of them has none. */
  function AskedFor(calls: seq<Call>): Option<nat> {
    if calls == [] then Some(0)
    else
      var rest := AskedFor(calls[1..]);
      if calls[0].length == Some(0) then rest
      else if Limit(calls[0].length).None? || rest.None? then None
      else Some(Limit(calls[0].length).value + rest.value)
  }

  /** Plain reads that ask for more than there is return all of it, and come to the end. */
  lemma {:induction false} AsksForMore(r: bytes, calls: seq<Call>)
    requires forall i :: 0 <= i < |calls| ==> !calls[i].lines
    requires AskedFor(calls).None? || AskedFor(calls).value > |r|
    ensures Total(r, calls) == |r| && Ends(r, calls)
    decreases |calls|
  {
    if calls != [] {
      var n := Share(r, calls[0]);
      if EndsBody(r, calls[0]) {
        NothingMore(r[n..], calls[1..]);
      } else {
        AsksForMore(r[n..], calls[1..]);
      }
    }
  }

  /** And so do any calls, for lines or not, that are more than the bytes there are, none of them of length 0. */
  lemma {:induction false} CallsEnough(r: bytes, calls: seq<Call>)
    requires |calls| > |r| && forall i :: 0 <= i < |calls| ==> calls[i].length != Some(0)
    ensures Total(r, calls) == |r| && Ends(r, calls)
    decreases |calls|
  {
    var n := Share(r, calls[0]);
    if EndsBody(r, calls[0]) {
      EndTakesAll(r, calls[0]);
      NothingMore(r[n..], calls[1..]);
    } else {
      CallsEnough(r[n..], calls[1..]);
    }
  }

  lemma EndTakesAll(r: bytes, c: Call)
    requires EndsBody(r, c)
    ensures Share(r, c) == |r|
  {
    LineEnds(r);
  }

  lemma {:induction false} NothingMore(r: bytes, calls: seq<Call>)
    requires r == []
    ensures Total(r, calls) == 0
    decreases |calls|
  {
    if calls != [] {
      NothingMore(r[Share(r, calls[0])..], calls[1..]);
    }
  }

  lemma {:induction false} ReadConsumes(s: In, length: Option<nat>, lines: bool)
    requires length.Some? ==> length.value > 0
    ensures var o := ReadLoop(s, length, lines); o.Read? ==> |o.result| + |o.state.data| <= |s.data|
    decreases |s.data|
  {
    if s.chunkLength != 0 {
      TurnConsumes(s, length, lines);
      var o := OneTurn(s, length, lines);
      if o.Read? && !Stops(o.result, length, lines) {
        ReadConsumes(o.state, Less(length, |o.result|), lines);
      }
    }
  }

  // --- The object ---

  /** The buffered `rfile`: reads return what was asked for unless the stream ends. */
  class Stream {
    var data: bytes

    constructor (data: bytes)
      ensures this.data == data
    {
      this.data := data;
    }

    method TakeUpTo(n: nat, lines: bool) returns (d: bytes)
      modifies this
      ensures d == Take(old(data), n, lines) && data == old(data)[|d|..]
    {
      d := Take(data, n, lines);
      data := data[|d|..];
    }

    method ReadLine() returns (line: bytes)
      modifies this
      ensures line == old(data)[..LineLength(old(data))] && data == old(data)[LineLength(old(data))..]
    {
      var n := LineLength(data);
      line, data := data[..n], data[n..];
    }
  }

  datatype Result = Data(data: bytes) | UnexpectedEnd | ChunkReadError

  function ResultOf(o: Out): Result {
    match o
    case Read(d, _) => Data(d)
    case EndOfFile(_) => UnexpectedEnd
    case BadChunk(_) => ChunkReadError
  }

  class Input {
    const rfile: Stream
    var position: int
    var chunkLength: int

    function State(): In
      reads this, rfile
    {
      In(rfile.data, chunkLength, position)
    }

    constructor (rfile: Stream)
      ensures this.rfile == rfile && State() == In(rfile.data, FRESH, 0)
    {
      this.rfile, position, chunkLength := rfile, 0, FRESH;
    }

    method DiscardTrailers()
      modifies rfile
      ensures rfile.data == SkipTrailers(old(rfile.data))
    {
      while true
        invariant SkipTrailers(rfile.data) == SkipTrailers(old(rfile.data))
        decreases |rfile.data|
      {
        var line := rfile.ReadLine();
        if line == [] || line == CRLF || line == [LF] {
          break;
        }
      }
    }

    method ReadSize() returns (ok: bool)
      modifies this, rfile
      ensures ok <==> NextChunk(old(State())).Read?
      ensures State() == NextChunk(old(State())).state
    {
      var line := rfile.ReadLine();
      var size := ChunkSize(line);
      if size.None? {
        return false;
      }
      chunkLength := size.value;
      position := 0;
      if chunkLength == 0 {
        DiscardTrailers();
      }
      return true;
    }

    method ReadPiece(maxReadLen: nat, lines: bool) returns (d: bytes)
      requires chunkLength != 0
      modifies this, rfile
      ensures var o := ReadData(old(State()), maxReadLen, lines);
        State() == o.state && d == if o.Read? then o.result else []
      ensures d == [] <==> !ReadData(old(State()), maxReadLen, lines).Read?
    {
      d := rfile.TakeUpTo(maxReadLen, lines);
      if d == [] {
        chunkLength := 0;
        return;
      }
      position := position + |d|;
      if chunkLength == position {
        var _ := rfile.ReadLine();
      }
    }

    /** One turn of the loop in `_chunked_read`: a size line, or some data. */
    method Turn(limit: Option<nat>, lines: bool) returns (d: bytes, end: End)
      requires chunkLength != 0 && (limit.Some? ==> limit.value > 0)
      modifies this, rfile
      ensures TurnEnds(OneTurn(old(State()), limit, lines), d, end, limit, lines)
      ensures State() == OneTurn(old(State()), limit, lines).state
    {
      if position < chunkLength {
        var left := chunkLength - position;
        d := ReadPiece(if limit.Some? && limit.value < left then limit.value else left, lines);
        end := if d == [] then AtEnd else if Stops(d, limit, lines) then Stopped else Goes;
      } else {
        var ok := ReadSize();
        d, end := [], if ok then Goes else AtBadChunk;
      }
    }

    /** `_chunked_read`; `read` is without `lines`, `readline` with. */
    method ReadChunked(length: Option<int>, lines: bool) returns (r: Result)
      modifies this, rfile
      ensures var o := ChunkedRead(old(State()), length, lines); r == ResultOf(o) && State() == o.state
    {
      if length == Some(0) {
        return Data([]);
      }
      var limit := Limit(length);
      var response := [];
      ghost var total := ReadLoop(State(), limit, lines);
      PrefixNothing(total);
      while chunkLength != 0
        invariant limit.Some? ==> limit.value > 0
        invariant Prefixed(response, ReadLoop(State(), limit, lines)) == total
        decreases |rfile.data|
      {
        var end;
        response, limit, end := TurnInto(response, limit, lines);
        if end.Stopped? {
          return Data(response);
        } else if end.AtEnd? {
          return UnexpectedEnd;
        } else if end.AtBadChunk? {
          return ChunkReadError;
        }
      }
      return Data(response);
    }

    method TurnInto(response: bytes, limit: Option<nat>, lines: bool)
      returns (response': bytes, limit': Option<nat>, end: End)
      requires chunkLength != 0 && (limit.Some? ==> limit.value > 0)
      modifies this, rfile
      ensures end.Goes? ==> (limit'.Some? ==> limit'.value > 0) && |rfile.data| < |old(rfile.data)|
      ensures Prefixed(response, ReadLoop(old(State()), limit, lines)) == Continued(response', State(), limit', lines, end)
    {
      ghost var s := State();
      var d;
      d, end := Turn(limit, lines);
      TurnConsumes(s, limit, lines);
      TurnContinues(response, s, State(), limit, lines, d, end);
      response', limit' := response + d, if end.Goes? then Less(limit, |d|) else limit;
    }

    /** `discard`: after a well-formed body the stream stands at the first byte of what follows. */
    method Discard(bufferSize: nat, ghost ahead: Ahead) returns (r: Result)
      requires bufferSize > 0
      modifies this, rfile
      ensures Stands(old(State()), ahead) ==> r == Data([]) && rfile.data == ahead.after
    {
      ghost var a, good := ahead, Stands(State(), ahead);
      while true
        invariant good ==> Stands(State(), a) && a.after == ahead.after
        decreases |rfile.data|
      {
        ghost var before := State();
        ReadConsumes(before, Some(bufferSize), false);
        r := ReadChunked(Some(bufferSize), false);
        if good {
          a := ReadStands(before, a, Some(bufferSize), false);
        }
        if r == Data([]) || !r.Data? {
          break;
        }
      }
    }
  }

  /** How a turn of the loop, with outcome `o` and data `d`, goes on. */
  predicate TurnEnds(o: Out, d: bytes, end: End, limit: Option<nat>, lines: bool) {
    match end
    case Goes => o.Read? && o.result == d && !Stops(d, limit, lines)
    case Stopped => o.Read? && o.result == d && Stops(d, limit, lines)
    case AtEnd => o.EndOfFile?
    case AtBadChunk => o.BadChunk?
  }

  datatype End = Goes | Stopped | AtEnd | AtBadChunk

  /** The loop, with `response` gathered so far, one turn on. */
  lemma LoopTurns(response: bytes, s: In, limit: Option<nat>, lines: bool)
    requires s.chunkLength != 0 && (limit.Some? ==> limit.value > 0)
    ensures var o := OneTurn(s, limit, lines);
      && (o.Read? ==> |o.state.data| < |s.data| && (limit.Some? ==> |o.result| <= limit.value))
      && Prefixed(response, ReadLoop(s, limit, lines)) ==
        if !o.Read? then o
        else if Stops(o.result, limit, lines) then Read(response + o.result, o.state)
        else Prefixed(response + o.result, ReadLoop(o.state, Less(limit, |o.result|), lines))
  {
    TurnConsumes(s, limit, lines);
    var o := OneTurn(s, limit, lines);
    if o.Read? && !Stops(o.result, limit, lines) {
      PrefixTwice(response, o.result, ReadLoop(o.state, Less(limit, |o.result|), lines));
    }
  }

  /** What the whole read comes to, when a turn of the loop has ended like this. */
  function Continued(response: bytes, s: In, limit: Option<nat>, lines: bool, end: End): Out
    requires end.Goes? && limit.Some? ==> limit.value > 0
  {
    match end
    case Goes => Prefixed(response, ReadLoop(s, limit, lines))
    case Stopped => Read(response, s)
    case AtEnd => EndOfFile(s)
    case AtBadChunk => BadChunk(s)
  }

  lemma TurnContinues(response: bytes, s: In, u: In, limit: Option<nat>, lines: bool, d: bytes, end: End)
    requires s.chunkLength != 0 && (limit.Some? ==> limit.value > 0 && (end.Goes? ==> limit.value >= |d|))
    requires TurnEnds(OneTurn(s, limit, lines), d, end, limit, lines) && u == OneTurn(s, limit, lines).state
    ensures var limit' := if end.Goes? then Less(limit, |d|) else limit;
      && (end.Goes? ==> (limit'.Some? ==> limit'.value > 0) && |u.data| < |s.data|)
      && Prefixed(response, ReadLoop(s, limit, lines)) == Continued(response + d, u, limit', lines, end)
  {
    LoopTurns(response, s, limit, lines);
  }

  lemma PrefixNothing(o: Out)
    ensures Prefixed([], o) == o
  {
  }

  lemma PrefixTwice(a: bytes, b: bytes, o: Out)
    ensures Prefixed(a, Prefixed(b, o)) == Prefixed(a + b, o)
  {
    if o.Read? {
      assert a + (b + o.result) == a + b + o.result;
    }
  }
}
