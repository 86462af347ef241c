/** The chunked coding of RFC 9112, section 7.1, as both ends of the program write and read it. */
module ChunkedCoding {
  import opened Options
  import opened Bytes

  const LF: byte := 10
  const CRLF: bytes := [13, 10]
  const SEMICOLON: byte := 59

  function Min(a: nat, b: nat): nat {
    if a <= b then a else b
  }

  function Less(length: Option<nat>, n: nat): Option<nat>
    requires length.Some? ==> length.value >= n
  {
    if length.Some? then Some(length.value - n) else None
  }

  // --- Lines ---

  /** How many bytes of `s` the first line takes, its line feed included. */
  function LineLength(s: bytes): (n: nat)
    ensures n <= |s| && (s != [] ==> n > 0)
  {
    if s == [] then 0 else if s[0] == LF then 1 else 1 + LineLength(s[1..])
  }

  /** A line that ends with its only line feed. */
  predicate IsLine(s: bytes) {
    s != [] && s[|s| - 1] == LF && LineLength(s) == |s|
  }

  lemma {:induction false} LineOfAppend(a: bytes, b: bytes)
    ensures LF in a ==> LineLength(a + b) == LineLength(a) && a[LineLength(a) - 1] == LF
    ensures LF !in a ==> LineLength(a + b) == |a| + LineLength(b) && LineLength(a) == |a|
  {
    if a == [] {
      assert a + b == b;
    } else {
      assert (a + b)[1..] == a[1..] + b && (a + b)[0] == a[0];
      if a[0] != LF {
        LineOfAppend(a[1..], b);
        assert LF in a <==> LF in a[1..];
      }
    }
  }

  /** A line ends with the first line feed, or with the bytes. */
  lemma {:induction false} LineEnds(s: bytes)
    ensures var n := LineLength(s); (n == |s| && LF !in s) || (0 < n && s[n - 1] == LF && LF !in s[..n - 1])
  {
    if s != [] && s[0] != LF {
      LineEnds(s[1..]);
      var n := LineLength(s);
      assert s == [s[0]] + s[1..];
      assert n > 1 && LF in s[1..] ==> s[..n - 1] == [s[0]] + s[1..][..n - 2];
    }
  }

  lemma LineFirst(line: bytes, rest: bytes)
    requires IsLine(line)
    ensures LineLength(line + rest) == |line| && (line + rest)[..|line|] == line && (line + rest)[|line|..] == rest
  {
    assert LF in line;
    LineOfAppend(line, rest);
  }

  // --- Sizes ---

  predicate IsSpace(b: byte) {
    b == 32 || 9 <= b <= 13
  }

  function HexDigit(b: byte): Option<nat> {
    if 48 <= b <= 57 then Some(b - 48)
    else if 97 <= b <= 102 then Some(b - 87)
    else if 65 <= b <= 70 then Some(b - 55)
    else None
  }

  /** The digits with the values from 0 to 15, in either case. */
  lemma DigitMeans(b: byte, d: nat)
    requires d < 16
    ensures HexDigit(b) == Some(d) <==>
      b as int == "0123456789abcdef"[d] as int || b as int == "0123456789ABCDEF"[d] as int
  {
  }

  function HexDigits(s: bytes): Option<nat> {
    if s == [] then Some(0)
    else
      var high := HexDigits(s[..|s| - 1]);
      var low := HexDigit(s[|s| - 1]);
      if high.Some? && low.Some? then Some(16 * high.value + low.value) else None
  }

  function LeftStrip(s: bytes): bytes {
    if s != [] && IsSpace(s[0]) then LeftStrip(s[1..]) else s
  }

  function RightStrip(s: bytes): bytes {
    if s != [] && IsSpace(s[|s| - 1]) then RightStrip(s[..|s| - 1]) else s
  }

  function BeforeSemicolon(s: bytes): bytes {
    if s == [] || s[0] == SEMICOLON then [] else [s[0]] + BeforeSemicolon(s[1..])
  }

  /** `int(line.split(b";", 1)[0], 16)`, where `None` is `ValueError`. */
  function ChunkSize(line: bytes): Option<nat> {
    var digits := RightStrip(LeftStrip(BeforeSemicolon(line)));
    if digits == [] then None else HexDigits(digits)
  }

  function Pow16(n: nat): nat {
    if n == 0 then 1 else 16 * Pow16(n - 1)
  }

  /** The first digit weighs most, and one that is none spoils the number. */
  lemma {:induction false} FirstDigit(b: byte, s: bytes)
    ensures HexDigits([b] + s) ==
      if HexDigit(b).Some? && HexDigits(s).Some? then Some(HexDigit(b).value * Pow16(|s|) + HexDigits(s).value) else None
  {
    if s == [] {
      assert [b][..0] == [] && [b] + s == [b];
    } else {
      var n := |s| - 1;
      assert ([b] + s)[..n + 1] == [b] + s[..n] && ([b] + s)[n + 1] == s[n];
      FirstDigit(b, s[..n]);
      if HexDigit(b).Some? && HexDigits(s).Some? {
        OneMoreDigit(HexDigit(b).value, Pow16(n), HexDigits(s[..n]).value, HexDigit(s[n]).value);
      }
    }
  }

  lemma OneMoreDigit(first: nat, weight: nat, middle: nat, last: nat)
    ensures 16 * (first * weight + middle) + last == first * (16 * weight) + (16 * middle + last)
  {
    assert 16 * (first * weight) == first * (16 * weight);
  }

  lemma {:induction false} StripsLeft(space: bytes, s: bytes)
    requires (forall b :: b in space ==> IsSpace(b)) && (s == [] || !IsSpace(s[0]))
    ensures LeftStrip(space + s) == s
  {
    if space == [] {
      assert space + s == s;
    } else {
      assert (space + s)[1..] == space[1..] + s && space[0] in space;
      StripsLeft(space[1..], s);
    }
  }

  lemma {:induction false} StripsRight(s: bytes, space: bytes)
    requires (forall b :: b in space ==> IsSpace(b)) && (s == [] || !IsSpace(s[|s| - 1]))
    ensures RightStrip(s + space) == s
  {
    if space == [] {
      assert s + space == s;
    } else {
      var n := |space| - 1;
      assert (s + space)[..|s| + n] == s + space[..n] && space[n] in space;
      StripsRight(s, space[..n]);
    }
  }

  /** Spaces around the number, and extensions after a semicolon, do not matter. */
  lemma SizeStandsAlone(before: bytes, digits: bytes, after: bytes, extensions: bytes)
    requires forall b :: b in before + after ==> IsSpace(b)
    requires digits != [] && (forall b :: b in digits ==> !IsSpace(b) && b != SEMICOLON)
    ensures ChunkSize(before + digits + after) == HexDigits(digits)
    ensures ChunkSize(before + digits + after + [SEMICOLON] + extensions) == HexDigits(digits)
  {
    var s := before + digits + after;
    forall b | b in s
      ensures b != SEMICOLON
    {
      assert b in digits || b in before + after;
    }
    NoSemicolon(s);
    UpToSemicolon(s, extensions);
    assert s == before + (digits + after) && digits[0] in digits && digits[|digits| - 1] in digits;
    assert forall b :: b in before || b in after ==> b in before + after;
    StripsLeft(before, digits + after);
    StripsRight(digits, after);
  }

  lemma {:induction false} UpToSemicolon(s: bytes, extensions: bytes)
    requires SEMICOLON !in s
    ensures BeforeSemicolon(s + [SEMICOLON] + extensions) == s
  {
    if s != [] {
      assert (s + [SEMICOLON] + extensions)[1..] == s[1..] + [SEMICOLON] + extensions;
      UpToSemicolon(s[1..], extensions);
    }
  }

  lemma SizeNeedsLine(data: bytes)
    ensures ChunkSize(data[..LineLength(data)]).Some? ==> LineLength(data) > 0
  {
    var line := data[..LineLength(data)];
    assert ChunkSize([]).None?;
    assert line == [] || |line| > 0;
  }

  function Digit(d: nat, upper: bool): byte
    requires d < 16
  {
    if d < 10 then 48 + d else if upper then 55 + d else 87 + d
  }

  /** `"%x" % n` or `'{:X}'.format(n)` */
  function Hex(n: nat, upper: bool): (s: bytes)
    ensures s != []
  {
    if n < 16 then [Digit(n, upper)] else Hex(n / 16, upper) + [Digit(n % 16, upper)]
  }

  lemma {:induction false} HexReads(n: nat, upper: bool)
    ensures HexDigits(Hex(n, upper)) == Some(n)
    ensures forall b :: b in Hex(n, upper) ==> !IsSpace(b) && b != SEMICOLON && b != LF
  {
    if n < 16 {
      assert [Digit(n, upper)][..0] == [];
    } else {
      HexReads(n / 16, upper);
      assert Hex(n, upper)[..|Hex(n, upper)| - 1] == Hex(n / 16, upper);
    }
  }

  lemma {:induction false} NoSemicolon(s: bytes)
    requires SEMICOLON !in s
    ensures BeforeSemicolon(s) == s
  {
    if s != [] {
      NoSemicolon(s[1..]);
    }
  }

  /** The size line that either end writes is read back as the size. */
  lemma SizeLine(n: nat, upper: bool)
    ensures IsLine(Hex(n, upper) + CRLF) && ChunkSize(Hex(n, upper) + CRLF) == Some(n)
  {
    var h := Hex(n, upper);
    HexReads(n, upper);
    NoSemicolon(h + CRLF);
    assert LF !in h;
    LineOfAppend(h, CRLF);
    assert LineLength([10]) == 1 && CRLF[1..] == [10];
    assert h[0] in h && h[|h| - 1] in h;
    assert LeftStrip(h + CRLF) == h + CRLF;
    assert (h + CRLF)[..|h| + 1] == h + [13] && (h + [13])[..|h|] == h;
    assert RightStrip(h) == h;
    assert RightStrip(h + [13]) == h;
  }

  // --- Well-formed bodies ---

  /** A chunk with the line that announces it, whose extensions and digits are as the sender chose. */
  datatype Chunk = Chunk(head: bytes, data: bytes)

  /** What is still to come of a body: chunks, the line of the last chunk, and trailer lines. */
  datatype Body = Body(chunks: seq<Chunk>, last: bytes, trailers: seq<bytes>)

  predicate IsTrailer(line: bytes) {
    IsLine(line) && line != CRLF && line != [LF]
  }

  predicate WellFormed(b: Body) {
    && (forall i :: 0 <= i < |b.chunks| ==> GoodChunk(b.chunks[i]))
    && IsLine(b.last) && ChunkSize(b.last) == Some(0)
    && (forall i :: 0 <= i < |b.trailers| ==> IsTrailer(b.trailers[i]))
  }

  predicate GoodChunk(c: Chunk) {
    c.data != [] && IsLine(c.head) && ChunkSize(c.head) == Some(|c.data|)
  }

  function EncodeTrailers(trailers: seq<bytes>, after: bytes): bytes {
    if trailers == [] then CRLF + after else trailers[0] + EncodeTrailers(trailers[1..], after)
  }

  /** The body on the wire, followed by `after`. */
  function Encode(b: Body, after: bytes): bytes
    decreases |b.chunks|
  {
    if b.chunks == [] then b.last + EncodeTrailers(b.trailers, after)
    else
      var c := b.chunks[0];
      c.head + (c.data + (CRLF + Encode(b.(chunks := b.chunks[1..]), after)))
  }

  function Decoded(chunks: seq<Chunk>): bytes {
    if chunks == [] then [] else chunks[0].data + Decoded(chunks[1..])
  }

  /** Reads lines up to a blank one or the end of the stream; the rest of the stream. */
  function SkipTrailers(data: bytes): bytes
    decreases |data|
  {
    var n := LineLength(data);
    if n == 0 || data[..n] == CRLF || data[..n] == [LF] then data[n..] else SkipTrailers(data[n..])
  }

  lemma {:induction false} TrailersSkipped(trailers: seq<bytes>, after: bytes)
    requires forall i :: 0 <= i < |trailers| ==> IsTrailer(trailers[i])
    ensures SkipTrailers(EncodeTrailers(trailers, after)) == after
  {
    if trailers == [] {
      assert LineLength([10]) == 1 && CRLF[1..] == [10];
      LineFirst(CRLF, after);
    } else {
      LineFirst(trailers[0], EncodeTrailers(trailers[1..], after));
      TrailersSkipped(trailers[1..], after);
    }
  }

  /** What lies ahead: the rest of the current chunk, the rest of the body, and what follows the body. */
  datatype Ahead = Ahead(chunk: bytes, body: Body, after: bytes)

  function Remaining(a: Ahead): bytes {
    a.chunk + Decoded(a.body.chunks)
  }

  lemma DropOfAppend(c: bytes, r: bytes, n: nat)
    requires n <= |c|
    ensures (c + r)[n..] == c[n..] + r
  {
  }

  lemma AppendedCut(c: bytes, r: bytes, n: nat)
    requires n <= |r|
    ensures (c + r)[..|c| + n] == c + r[..n] && (c + r)[|c| + n..] == r[n..]
  {
  }

  lemma CutTwice(r: bytes, n: nat, m: nat)
    requires n + m <= |r|
    ensures r[..n] + r[n..][..m] == r[..n + m] && r[n..][m..] == r[n + m..]
  {
  }
}
